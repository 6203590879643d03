/** What each gate of the run loop keeps, and what one whole pass therefore keeps. */
module PassFacts {
  import opened Collections
  import opened Graph
  import opened Schemas
  import opened DagSpec
  import opened Replan
  import opened RunLoop

  /** A level with nobody to start is passed over. */
  lemma EmptyPass(cfg: Config, r: Run, input: PassInput)
    requires !Halted(r) && Active(r) == []
    ensures Pass(cfg, r, input) == r.(dag := r.dag.(level := r.dag.level + 1))
    ensures Checkpoints(cfg, r, input) == []
  {
  }

  // ---------------------------------------------------------------------------- lookup

  ghost predicate Named(lookup: map<Name, Issue>) {
    forall n :: n in lookup ==> lookup[n].name == n
  }

  lemma {:induction false} LookupOfNames(issues: seq<Issue>)
    ensures Named(LookupOf(issues))
    ensures LookupOf(issues).Keys == NameSet(issues)
    ensures forall n :: n in LookupOf(issues) ==> LookupOf(issues)[n] in issues
  {
    if issues != [] {
      var k := |issues| - 1;
      LookupOfNames(issues[..k]);
      NamesOfLast(issues);
    }
  }

  /** Two lookups that agree on who exists and on what everybody depends on. */
  ghost predicate Agree(a: map<Name, Issue>, b: map<Name, Issue>) {
    && a.Keys == b.Keys
    && forall n :: n in a ==> a[n].dependsOn == b[n].dependsOn
  }

  lemma {:induction false} ActiveMembers(names: seq<Name>, lookup: map<Name, Issue>, done: set<Name>)
    requires Named(lookup)
    ensures forall n :: n in NameSet(ActiveAmong(names, lookup, done)) <==> n in names && n in lookup && n !in done
    ensures forall i :: i in ActiveAmong(names, lookup, done) ==> i.name in lookup && lookup[i.name] == i
    ensures Distinct(names) ==> Distinct(NamesOf(ActiveAmong(names, lookup, done)))
  {
    if names != [] {
      var k := |names| - 1;
      ActiveMembers(names[..k], lookup, done);
      assert names == names[..k] + [names[k]];
      if names[k] in lookup {
        NamesSnoc(ActiveAmong(names[..k], lookup, done), lookup[names[k]]);
      }
    }
  }

  lemma ActiveSnoc(names: seq<Name>, n: Name, lookup: map<Name, Issue>, done: set<Name>)
    ensures ActiveAmong([], lookup, done) == []
    ensures ActiveAmong(names + [n], lookup, done)
            == ActiveAmong(names, lookup, done) + if n in lookup && n !in done then [lookup[n]] else []
  {
    assert (names + [n])[..|names|] == names;
  }

  /** A level of one known name that is not done. */
  lemma OneToStart(r: Run, n: Name)
    requires !Halted(r) && r.dag.levels[r.dag.level] == [n] && n in r.lookup && n !in Done(r.dag)
    ensures Active(r) == [r.lookup[n]]
    ensures r.lookup[n].name == n ==> NamesOf(Active(r)) == [n]
  {
    hide Done, ActiveAmong;
    ActiveSnoc([], n, r.lookup, Done(r.dag));
    assert [] + [n] == [n] && [] + [r.lookup[n]] == [r.lookup[n]];
    assert NamesOf([r.lookup[n]]) == [r.lookup[n].name];
  }

  lemma HandedKeepsIssues(cfg: Config, r: Run, input: PassInput)
    requires !Halted(r)
    ensures var handed, active := Handed(cfg, r, input), Active(r);
            && |handed| == |active|
            && NamesOf(handed) == NamesOf(active)
            && forall i :: 0 <= i < |active| ==>
                             handed[i].dependsOn == active[i].dependsOn && handed[i].name == active[i].name
  {
    var handed, active := Handed(cfg, r, input), Active(r);
    assert forall i :: 0 <= i < |active| ==>
                         handed[i].dependsOn == active[i].dependsOn && handed[i].name == active[i].name;
    assert NamesOf(handed) == NamesOf(active);
  }

  lemma PersistAgrees(issues: seq<Issue>, enriched: map<Name, Issue>, persisted: seq<Issue>)
    requires Named(enriched) && |persisted| == |issues|
    requires forall k :: 0 <= k < |issues| ==> persisted[k] == Persisted(issues[k], enriched)
    requires forall n :: n in enriched && n in LookupOf(issues) ==>
                           enriched[n].dependsOn == LookupOf(issues)[n].dependsOn
    ensures Agree(LookupOf(issues), LookupOf(persisted))
    ensures NamesOf(persisted) == NamesOf(issues)
  {
    assert NamesOf(persisted) == NamesOf(issues);
    LookupDeps(issues, enriched, persisted);
    LookupOfNames(issues);
  }

  lemma {:induction false} LookupDeps(issues: seq<Issue>, enriched: map<Name, Issue>, persisted: seq<Issue>)
    requires Named(enriched) && |persisted| == |issues|
    requires forall k :: 0 <= k < |issues| ==> persisted[k] == Persisted(issues[k], enriched)
    ensures LookupOf(issues).Keys == LookupOf(persisted).Keys
    ensures forall n :: n in LookupOf(issues) ==> LookupOf(persisted)[n] == Persisted(LookupOf(issues)[n], enriched)
  {
    LookupOfNames(issues);
    if issues != [] {
      var k := |issues| - 1;
      LookupDeps(issues[..k], enriched, persisted[..k]);
    }
  }

  // --------------------------------------------------------------------------- results

  lemma ResultNamesAppend(a: seq<IssueResult>, b: seq<IssueResult>)
    ensures ResultNames(a + b) == ResultNames(a) + ResultNames(b)
  {
    forall n
      ensures n in ResultNames(a + b) <==> n in ResultNames(a) || n in ResultNames(b)
    {
      if n in ResultNames(a) {
        var r :| r in a && r.issueName == n;
        assert r in a + b;
      }
      if n in ResultNames(b) {
        var r :| r in b && r.issueName == n;
        assert r in a + b;
      }
    }
  }

  lemma {:induction false} InBucketMembers(rs: seq<IssueResult>, b: Bucket)
    ensures forall r :: r in InBucket(rs, b) <==> r in rs && BucketOf(r.outcome) == b
  {
    if rs != [] {
      var k := |rs| - 1;
      InBucketMembers(rs[..k], b);
      assert rs == rs[..k] + [rs[k]];
    }
  }

  /** Every result lands in exactly one bucket, so no name is lost. */
  lemma ClassifiedNames(rs: seq<IssueResult>)
    ensures var lr := Classified(rs);
            ResultNames(lr.completed) + ResultNames(lr.failed) + ResultNames(lr.skipped) == ResultNames(rs)
  {
    InBucketMembers(rs, Success);
    InBucketMembers(rs, Failure);
    InBucketMembers(rs, Skip);
    var lr := Classified(rs);
    forall n | n in ResultNames(rs)
      ensures n in ResultNames(lr.completed) + ResultNames(lr.failed) + ResultNames(lr.skipped)
    {
      var r :| r in rs && r.issueName == n;
      match BucketOf(r.outcome) {
        case Success => assert r in lr.completed;
        case Failure => assert r in lr.failed;
        case Skip => assert r in lr.skipped;
      }
    }
  }

  /** A level with a single result that failed. */
  lemma SingleFailure(x: IssueResult)
    requires BucketOf(x.outcome) == Failure
    ensures Classified([x]) == LevelResult([], [x], [])
    ensures ToReplan([x]) == if Unrecoverable(x.outcome) then [x] else []
    ensures ResultNames([]) == {}
  {
    OneInBucket(x, Success);
    OneInBucket(x, Failure);
    OneInBucket(x, Skip);
    assert [x][..0] == [] && ToReplan([]) == [];
    hide InBucket;
  }

  lemma OneInBucket(x: IssueResult, b: Bucket)
    ensures InBucket([x], b) == if BucketOf(x.outcome) == b then [x] else []
  {
    InBucketSnoc([], x, b);
    assert [] + [x] == [x];
  }

  lemma InBucketSnoc(rs: seq<IssueResult>, x: IssueResult, b: Bucket)
    ensures InBucket([], b) == []
    ensures InBucket(rs + [x], b) == InBucket(rs, b) + if BucketOf(x.outcome) == b then [x] else []
  {
    assert (rs + [x])[..|rs|] == rs;
  }

  lemma SameDone(a: State, b: State)
    requires a.completed == b.completed && a.failed == b.failed && a.skipped == b.skipped
    ensures Done(a) == Done(b)
  {
  }

  lemma DoneAfterRecord(s: State, rs: seq<IssueResult>)
    ensures Done(Recorded(s, Classified(rs))) == Done(s) + ResultNames(rs)
  {
    var lr := Classified(rs);
    ClassifiedNames(rs);
    ResultNamesAppend(s.completed, lr.completed);
    ResultNamesAppend(s.failed, lr.failed);
  }

  /** The built-in coding loop answers in the name of the issue it was given. */
  ghost predicate Faithful(cfg: Config, r: Run, input: PassInput)
    requires !Halted(r)
  {
    var handed := Handed(cfg, r, input);
    forall i :: 0 <= i < |handed| && input.reply(i).Returned? ==> input.reply(i).result.issueName == handed[i].name
  }

  lemma FaithfulResultNames(cfg: Config, r: Run, input: PassInput)
    requires !Halted(r) && Faithful(cfg, r, input)
    ensures ResultNames(Results(Handed(cfg, r, input), input.reply)) == NameSet(Active(r))
  {
    var handed := Handed(cfg, r, input);
    var rs := Results(handed, input.reply);
    HandedKeepsIssues(cfg, r, input);
    forall i | 0 <= i < |handed|
      ensures rs[i].issueName == NamesOf(Active(r))[i]
    {
    }
    forall n
      ensures n in ResultNames(rs) <==> n in NamesOf(Active(r))
    {
      if n in NamesOf(Active(r)) {
        var i :| 0 <= i < |handed| && NamesOf(Active(r))[i] == n;
        assert rs[i] in rs;
      }
      if n in ResultNames(rs) {
        var x :| x in rs && x.issueName == n;
        var i :| 0 <= i < |rs| && rs[i] == x;
      }
    }
  }

  // ------------------------------------------------------------------------------ gates

  /** A gate behind the barrier: records stand, skips only grow, merge and debt records stand. */
  ghost predicate KeepsRecords(s: State, s': State) {
    && s'.completed == s.completed && s'.failed == s.failed && s.skipped <= s'.skipped
    && s'.merged == s.merged && s'.unmerged == s.unmerged && s'.debt == s.debt
    && s'.replanCount >= s.replanCount
  }

  lemma ApplyKeeps(s: State, d: Decision)
    ensures KeepsRecords(s, Apply(s, d).state)
    ensures Apply(s, d).Rejected? ==> Apply(s, d).state.(skipped := s.skipped) == s
    ensures Apply(s, d).Rejected? && d.skipped == [] ==> Apply(s, d).state == s
    ensures Rewrites(d) && Apply(s, d).Accepted? ==>
              Apply(s, d).state.level == 0 && Apply(s, d).state.replanCount == s.replanCount + 1
  {
  }

  lemma {:induction false} SplitKeeps(p: Progress, failed: seq<IssueResult>)
    ensures KeepsRecords(p.dag, SplitAll(p, failed).dag)
    ensures p.rewritten ==> SplitAll(p, failed).rewritten
    ensures !SplitAll(p, failed).rewritten ==> SplitAll(p, failed) == p
    ensures !p.rewritten && SplitAll(p, failed).rewritten ==> SplitAll(p, failed).dag.level == 0
    ensures p.rewritten && p.dag.level == 0 ==> SplitAll(p, failed).dag.level == 0
  {
    if failed != [] {
      var k := |failed| - 1;
      SplitKeeps(p, failed[..k]);
      var q := SplitAll(p, failed[..k]);
      ApplyKeeps(q.dag, SplitDecision(failed[k]));
    }
  }

  lemma ReplanKeeps(cfg: Config, s: State, failures: seq<IssueResult>, d: Decision)
    ensures KeepsRecords(s, ReplanGate(cfg, s, failures, d).dag)
  {
    ApplyKeeps(s, d);
  }

  /** The state in front of the split gate: records of the level, merges and debt included. */
  ghost function BeforeSplits(cfg: Config, r: Run, input: PassInput): State
    requires !Halted(r)
  {
    var lr := LevelOutcome(cfg, r, input);
    DebtGate(MergeGate(cfg, AtBarrier(cfg, r, input), lr, input), lr)
  }

  lemma SplitGateKeeps(cfg: Config, r: Run, input: PassInput)
    requires !Halted(r)
    ensures KeepsRecords(BeforeSplits(cfg, r, input), AfterSplits(cfg, r, input).dag)
    ensures !AfterSplits(cfg, r, input).rewritten ==>
              AfterSplits(cfg, r, input) == Progress(BeforeSplits(cfg, r, input), r.lookup, false)
    ensures AfterSplits(cfg, r, input).rewritten ==> AfterSplits(cfg, r, input).dag.level == 0
  {
    SplitKeeps(Progress(BeforeSplits(cfg, r, input), r.lookup, false), LevelOutcome(cfg, r, input).failed);
  }

  /** How a working pass that is not cut short by the threshold ends. */
  lemma PassKeeps(cfg: Config, r: Run, input: PassInput)
    requires !Halted(r) && Active(r) != [] && !ThresholdHit(cfg, LevelOutcome(cfg, r, input))
    ensures KeepsRecords(BeforeSplits(cfg, r, input), Pass(cfg, r, input).dag)
  {
    SplitGateKeeps(cfg, r, input);
    ReplanKeeps(cfg, AfterSplits(cfg, r, input).dag, ToReplan(LevelOutcome(cfg, r, input).failed), input.decision);
  }

  /** A pass appends its level's results to the records, whatever its gates do. */
  lemma PassResults(cfg: Config, r: Run, input: PassInput)
    requires !Halted(r) && Active(r) != []
    ensures var s, lr := Pass(cfg, r, input).dag, LevelOutcome(cfg, r, input);
            s.completed == r.dag.completed + lr.completed && s.failed == r.dag.failed + lr.failed
  {
    hide LevelOutcome, ThresholdHit, Active;
    if !ThresholdHit(cfg, LevelOutcome(cfg, r, input)) {
      PassKeeps(cfg, r, input);
    }
  }

  /** A level of one task that fails, without git: the failure is recorded and put through the split gate. */
  lemma OneFailedTask(cfg: Config, r: Run, input: PassInput, issue: Issue, x: IssueResult)
    requires !Halted(r) && !cfg.git && cfg.hasAgents && Active(r) == [issue]
    requires input.reply(0) == Returned(x) && BucketOf(x.outcome) == Failure
    ensures LevelOutcome(cfg, r, input) == LevelResult([], [x], [])
    ensures !ThresholdHit(cfg, LevelOutcome(cfg, r, input))
    ensures ToReplan(LevelOutcome(cfg, r, input).failed) == if Unrecoverable(x.outcome) then [x] else []
    ensures BeforeSplits(cfg, r, input) == r.dag.(inFlight := [], failed := r.dag.failed + [x])
    ensures AfterSplits(cfg, r, input) == SplitOne(Progress(BeforeSplits(cfg, r, input), r.lookup, false), x)
  {
    var rs := Results(Handed(cfg, r, input), input.reply);
    hide Active, Apply, SplitOne, ToReplan, InBucket;
    assert rs == [x];
    SingleFailure(x);
    hide Handed, Results, Classified;
    assert r.dag.completed + [] == r.dag.completed && r.dag.debt + [] == r.dag.debt;
    assert r.dag.skipped + {} == r.dag.skipped;
    var p := Progress(BeforeSplits(cfg, r, input), r.lookup, false);
    assert [x][..0] == [] && SplitAll(p, []) == p;
  }

  // ------------------------------------------------------------------------------ skips

  /** What the replan gate adds to the skips, from what stands in front of it. */
  ghost function GateSkips(cfg: Config, s: State, failures: seq<IssueResult>, d: Decision): set<Name> {
    if failures == [] then {}
    else if !cfg.enableReplanning || s.replanCount >= cfg.maxReplans then DependentsOf(s, failures)
    else match d.action
      case Abort => {}
      case Continue => DependentsOf(s, failures)
      case _ => SetOf(d.skipped) + if Apply(s, d).Accepted? then {} else DependentsOf(s, failures)
  }

  lemma ReplanSkips(cfg: Config, s: State, failures: seq<IssueResult>, d: Decision)
    ensures ReplanGate(cfg, s, failures, d).dag.skipped == s.skipped + GateSkips(cfg, s, failures, d)
  {
    hide Candidates, Recompute, Downstream;
  }

  /** What the gates of a pass add to the skips: the rest of the plan, or what the replan gate skips. */
  ghost function SkippedByGates(cfg: Config, r: Run, input: PassInput): set<Name>
    requires !Halted(r)
  {
    if Active(r) == [] then {}
    else if ThresholdHit(cfg, LevelOutcome(cfg, r, input)) then SetOf(Flatten(r.dag.levels[r.dag.level + 1..]))
    else GateSkips(cfg, AfterSplits(cfg, r, input).dag, ToReplan(LevelOutcome(cfg, r, input).failed), input.decision)
  }

  lemma {:induction false} SplitSkipsNobody(p: Progress, failed: seq<IssueResult>)
    ensures SplitAll(p, failed).dag.skipped == p.dag.skipped
  {
    if failed != [] {
      var k := |failed| - 1;
      SplitSkipsNobody(p, failed[..k]);
      ApplySkips(SplitAll(p, failed[..k]).dag, SplitDecision(failed[k]));
      hide Apply;
    }
  }

  lemma ApplySkips(s: State, d: Decision)
    requires d.skipped == []
    ensures Apply(s, d).state.skipped == s.skipped
  {
    hide Candidates, Recompute;
  }

  /** The skip list after a pass: exactly the level's own skips and those of the gates are added. */
  lemma PassSkips(cfg: Config, r: Run, input: PassInput)
    requires !Halted(r) && Active(r) != []
    ensures Pass(cfg, r, input).dag.skipped
            == r.dag.skipped + ResultNames(LevelOutcome(cfg, r, input).skipped) + SkippedByGates(cfg, r, input)
    ensures !ThresholdHit(cfg, LevelOutcome(cfg, r, input)) ==>
              AfterSplits(cfg, r, input).dag.skipped == r.dag.skipped + ResultNames(LevelOutcome(cfg, r, input).skipped)
  {
    hide GateSkips, ReplanGate, SplitAll, LevelOutcome, ThresholdHit, Active;
    if !ThresholdHit(cfg, LevelOutcome(cfg, r, input)) {
      SplitSkipsNobody(Progress(BeforeSplits(cfg, r, input), r.lookup, false), LevelOutcome(cfg, r, input).failed);
      ReplanSkips(cfg, AfterSplits(cfg, r, input).dag, ToReplan(LevelOutcome(cfg, r, input).failed), input.decision);
    }
  }

  // -------------------------------------------------------------------------- decisions

  /** What the replan gate adds to the history: a decision it took, unless a rewrite of it was turned down. */
  ghost function GateDecision(cfg: Config, s: State, failures: seq<IssueResult>, d: Decision): seq<Decision> {
    if failures == [] || !cfg.enableReplanning || s.replanCount >= cfg.maxReplans then []
    else if Rewrites(d) && Apply(s, d).Rejected? then []
    else [d]
  }

  lemma ReplanHistory(cfg: Config, s: State, failures: seq<IssueResult>, d: Decision)
    ensures var v, more := ReplanGate(cfg, s, failures, d).dag, GateDecision(cfg, s, failures, d);
            v.history == s.history + more && v.replanCount == s.replanCount + |more|
  {
    ApplyHistory(s, d);
    hide Apply, DependentsOf;
    assert s.history + [] == s.history;
  }

  lemma ApplyHistory(s: State, d: Decision)
    ensures var more := if Apply(s, d).Accepted? then [d] else [];
            Apply(s, d).state.history == s.history + more && Apply(s, d).state.replanCount == s.replanCount + |more|
    ensures !Rewrites(d) ==> Apply(s, d).Accepted?
  {
    hide Candidates, Recompute;
    assert s.history + [] == s.history;
  }

  /** The split decisions adopted by the split gate, in order. */
  ghost function SplitDecisions(p: Progress, failed: seq<IssueResult>): seq<Decision> {
    if failed == [] then [] else
      var k := |failed| - 1;
      var x, q := failed[k], SplitAll(p, failed[..k]);
      SplitDecisions(p, failed[..k])
      + if WantsSplit(x) && Apply(q.dag, SplitDecision(x)).Accepted? then [SplitDecision(x)] else []
  }

  lemma {:induction false} SplitHistory(p: Progress, failed: seq<IssueResult>)
    ensures var q, more := SplitAll(p, failed).dag, SplitDecisions(p, failed);
            q.history == p.dag.history + more && q.replanCount == p.dag.replanCount + |more|
  {
    hide Apply, SplitDecision;
    if failed == [] {
      assert p.dag.history + [] == p.dag.history;
    } else {
      var k := |failed| - 1;
      var q := SplitAll(p, failed[..k]);
      SplitHistory(p, failed[..k]);
      ApplyHistory(q.dag, SplitDecision(failed[k]));
      var more := if Apply(q.dag, SplitDecision(failed[k])).Accepted? then [SplitDecision(failed[k])] else [];
      AppendAssociative(p.dag.history, SplitDecisions(p, failed[..k]), more);
      assert SplitDecisions(p, failed[..k]) + [] == SplitDecisions(p, failed[..k]);
    }
  }

  /** The decision the replan gate of this pass adds to the history. */
  ghost function GateDecisions(cfg: Config, r: Run, input: PassInput): seq<Decision>
    requires !Halted(r)
  {
    if Active(r) == [] || ThresholdHit(cfg, LevelOutcome(cfg, r, input)) then [] else
      GateDecision(cfg, AfterSplits(cfg, r, input).dag, ToReplan(LevelOutcome(cfg, r, input).failed), input.decision)
  }

  /** Every decision the pass adds to the history. */
  ghost function PassDecisions(cfg: Config, r: Run, input: PassInput): seq<Decision>
    requires !Halted(r)
  {
    var lr := LevelOutcome(cfg, r, input);
    if Active(r) == [] || ThresholdHit(cfg, lr) || !cfg.hasAgents then GateDecisions(cfg, r, input)
    else
      SplitDecisions(Progress(BeforeSplits(cfg, r, input), r.lookup, false), lr.failed)
      + GateDecisions(cfg, r, input)
  }

  lemma BarrierHistory(cfg: Config, r: Run, input: PassInput)
    requires !Halted(r)
    ensures BeforeSplits(cfg, r, input).history == r.dag.history
            && BeforeSplits(cfg, r, input).replanCount == r.dag.replanCount
  {
    hide LevelOutcome, Dispatched, BranchesToMerge, DebtOf;
  }

  lemma SplitGateHistory(cfg: Config, r: Run, input: PassInput)
    requires !Halted(r)
    ensures var p := Progress(BeforeSplits(cfg, r, input), r.lookup, false);
            var more := if cfg.hasAgents then SplitDecisions(p, LevelOutcome(cfg, r, input).failed) else [];
            var s := AfterSplits(cfg, r, input).dag;
            s.history == r.dag.history + more && s.replanCount == r.dag.replanCount + |more|
  {
    hide LevelOutcome, SplitAll, SplitDecisions;
    BarrierHistory(cfg, r, input);
    SplitHistory(Progress(BeforeSplits(cfg, r, input), r.lookup, false), LevelOutcome(cfg, r, input).failed);
    assert r.dag.history + [] == r.dag.history;
    hide BeforeSplits;
  }

  /** The history of replans grows by exactly the decisions of the pass, and the replan count with it. */
  lemma PassHistory(cfg: Config, r: Run, input: PassInput)
    requires !Halted(r) && Active(r) != []
    ensures var s, more := Pass(cfg, r, input).dag, PassDecisions(cfg, r, input);
            s.history == r.dag.history + more && s.replanCount == r.dag.replanCount + |more|
    ensures !ThresholdHit(cfg, LevelOutcome(cfg, r, input)) ==>
              var s, a, more := Pass(cfg, r, input).dag, AfterSplits(cfg, r, input).dag, GateDecisions(cfg, r, input);
              s.history == a.history + more && s.replanCount == a.replanCount + |more|
  {
    hide LevelOutcome, AfterSplits, BeforeSplits, SplitDecisions, GateDecision, ReplanGate, ToReplan, ThresholdHit;
    hide Active;
    assert r.dag.history + [] == r.dag.history;
    if !ThresholdHit(cfg, LevelOutcome(cfg, r, input)) {
      var failed := LevelOutcome(cfg, r, input).failed;
      var splits := SplitDecisions(Progress(BeforeSplits(cfg, r, input), r.lookup, false), failed);
      SplitGateHistory(cfg, r, input);
      ReplanHistory(cfg, AfterSplits(cfg, r, input).dag, ToReplan(failed), input.decision);
      AppendAssociative(r.dag.history, splits, GateDecisions(cfg, r, input));
    }
  }

  /** Where a pass ends up that got past its split gate, against the plain step on from there. */
  lemma AfterTheGate(cfg: Config, r: Run, input: PassInput)
    requires !Halted(r) && Active(r) != [] && !ThresholdHit(cfg, LevelOutcome(cfg, r, input))
    ensures var c, failures := AfterSplits(cfg, r, input).dag, ToReplan(LevelOutcome(cfg, r, input).failed);
            && SkippedByGates(cfg, r, input) == GateSkips(cfg, c, failures, input.decision)
            && (Pass(cfg, r, input).dag == c.(level := c.level + 1)
                <==> ReplanGate(cfg, c, failures, input.decision) == Advance(c))
  {
    var c, failures := AfterSplits(cfg, r, input).dag, ToReplan(LevelOutcome(cfg, r, input).failed);
    hide AfterSplits, LevelOutcome, ThresholdHit, Active, GateSkips, ToReplan;
    GateKeepsCount(cfg, c, failures, input.decision);
    hide ReplanGate;
  }

  /** Only a gate that advances leaves both position and replan count alone. */
  lemma GateKeepsCount(cfg: Config, s: State, failures: seq<IssueResult>, d: Decision)
    ensures var v := ReplanGate(cfg, s, failures, d);
            && (v.Advance? ==> v.dag.level == s.level)
            && (!v.Advance? ==> v.dag.replanCount == s.replanCount + 1)
  {
    ApplyKeeps(s, d);
    hide Apply, DependentsOf;
  }

  /** Nobody ever stops being done, and everybody the pass started is done afterwards. */
  lemma PassGrowsDone(cfg: Config, r: Run, input: PassInput)
    requires !Halted(r)
    ensures Done(r.dag) <= Done(Pass(cfg, r, input).dag)
    ensures r.dag.skipped <= Pass(cfg, r, input).dag.skipped
    ensures Active(r) != [] ==> Done(AtBarrier(cfg, r, input)) <= Done(Pass(cfg, r, input).dag)
    ensures Faithful(cfg, r, input) ==> NameSet(Active(r)) <= Done(Pass(cfg, r, input).dag)
  {
    if Active(r) != [] {
      var rs := Results(Handed(cfg, r, input), input.reply);
      var launched := Launched(cfg, r, input).(inFlight := []);
      DoneAfterRecord(launched, rs);
      assert Done(launched) == Done(r.dag);
      var barrier := AtBarrier(cfg, r, input);
      if Faithful(cfg, r, input) {
        FaithfulResultNames(cfg, r, input);
      }
      if !ThresholdHit(cfg, LevelOutcome(cfg, r, input)) {
        PassKeeps(cfg, r, input);
        assert Done(barrier) == Done(BeforeSplits(cfg, r, input));
      }
    }
  }
}
