/** The executor's mutable plan state, its gates, and the run loop over them. */
module Executor {
  import opened Collections
  import opened Graph
  import opened Schemas
  import opened DagSpec
  import opened DagUtils
  import opened Replan
  import opened GitFastPath
  import opened RunLoop
  import opened PassFacts

  // ------------------------------------------------------------- pieces of a replan

  method Unfinish(issues: seq<Issue>, finished: set<Name>) returns (remaining: seq<Issue>)
    ensures remaining == Unfinished(issues, finished)
  {
    remaining := [];
    for k := 0 to |issues|
      invariant remaining == Unfinished(issues[..k], finished)
    {
      assert issues[..k + 1][..k] == issues[..k];
      if issues[k].name !in finished {
        remaining := Put(remaining, issues[k]);
      }
    }
    assert issues[..|issues|] == issues;
  }

  lemma {:induction false} WithoutTwice(d: seq<Issue>, a: set<Name>, b: set<Name>)
    ensures Without(Without(d, a), b) == Without(d, a + b)
  {
    if d != [] {
      var k := |d| - 1;
      WithoutTwice(d[..k], a, b);
      if d[k].name !in a {
        var front := Without(d[..k], a);
        assert (front + [d[k]])[..|front|] == front;
      }
    }
  }

  lemma {:induction false} WithoutNone(d: seq<Issue>)
    ensures Without(d, {}) == d
  {
    if d != [] {
      var k := |d| - 1;
      WithoutNone(d[..k]);
      assert d == d[..k] + [d[k]];
    }
  }

  /** Pop every name of a set, in whatever order the set is walked. */
  method PopAll(d: seq<Issue>, names: set<Name>) returns (r: seq<Issue>)
    ensures r == Without(d, names)
  {
    r := d;
    var rest := names;
    WithoutNone(d);
    assert names - rest == {};
    while rest != {}
      invariant rest <= names
      invariant r == Without(d, names - rest)
      decreases rest
    {
      var n :| n in rest;
      WithoutTwice(d, names - rest, {n});
      assert (names - rest) + {n} == names - (rest - {n});
      r := Without(r, {n});
      rest := rest - {n};
    }
    assert names - rest == names;
  }

  /** Append the names that are not listed yet, in whatever order the set is walked. */
  method AppendMissing(known: seq<Name>, names: set<Name>) returns (all: seq<Name>)
    ensures SetOf(all) == SetOf(known) + names
  {
    all := known;
    var rest := names;
    while rest != {}
      invariant rest <= names
      invariant SetOf(all) == SetOf(known) + (names - rest)
      decreases rest
    {
      var n :| n in rest;
      assert SetOf(all + [n]) == SetOf(all) + {n};
      if n !in all {
        all := all + [n];
      }
      rest := rest - {n};
    }
  }

  method UpdateIssues(d: seq<Issue>, us: seq<IssueUpdate>) returns (r: seq<Issue>)
    ensures r == UpdateAll(d, us)
  {
    r := d;
    for k := 0 to |us|
      invariant r == UpdateAll(d, us[..k])
    {
      assert us[..k + 1][..k] == us[..k];
      r := UpdateOne(r, us[k]);
    }
    assert us[..|us|] == us;
  }

  method HighestSequence(issues: seq<Issue>) returns (m: nat)
    ensures m == MaxSeq(issues)
  {
    m := 0;
    for k := 0 to |issues|
      invariant m == MaxSeq(issues[..k])
    {
      assert issues[..k + 1][..k] == issues[..k];
      if issues[k].seqNo > m {
        m := issues[k].seqNo;
      }
    }
    assert issues[..|issues|] == issues;
  }

  method AddIssues(d: seq<Issue>, maxSeq: nat, added: seq<Issue>) returns (r: seq<Issue>)
    ensures r == AddAll(d, maxSeq, added).0
  {
    r := d;
    var m := maxSeq;
    for k := 0 to |added|
      invariant (r, m) == AddAll(d, maxSeq, added[..k])
    {
      assert added[..k + 1][..k] == added[..k];
      var both := AddOne(r, m, added[k]);
      r, m := both.0, both.1;
    }
    assert added[..|added|] == added;
  }

  // --------------------------------------------------------------- pieces of a level

  method ActiveIssues(names: seq<Name>, lookup: map<Name, Issue>, done: set<Name>) returns (active: seq<Issue>)
    ensures active == ActiveAmong(names, lookup, done)
  {
    active := [];
    for k := 0 to |names|
      invariant active == ActiveAmong(names[..k], lookup, done)
    {
      assert names[..k + 1][..k] == names[..k];
      if names[k] in lookup && names[k] !in done {
        active := active + [lookup[names[k]]];
      }
    }
    assert names[..|names|] == names;
  }

  method IssuesByName(issues: seq<Issue>) returns (lookup: map<Name, Issue>)
    ensures lookup == LookupOf(issues)
  {
    lookup := map[];
    for k := 0 to |issues|
      invariant lookup == LookupOf(issues[..k])
    {
      assert issues[..k + 1][..k] == issues[..k];
      lookup := lookup[issues[k].name := issues[k]];
    }
    assert issues[..|issues|] == issues;
  }

  method SetupLevel(cfg: Config, active: seq<Issue>, input: PassInput) returns (handed: seq<Issue>)
    ensures handed == SetUp(cfg, active, input)
  {
    handed := active;
    if cfg.git {
      if cfg.deterministicGit {
        var fast := SetupWorktrees(active, cfg.buildId, input.worktreeCreated);
        if fast.Some? {
          handed := EnrichIssuesFromSetup(active, fast.value);
          return;
        }
      }
      if input.setupAgent.success {
        handed := EnrichIssuesFromSetup(active, input.setupAgent.workspaces);
      }
    }
  }

  method PersistEnriched(issues: seq<Issue>, handed: seq<Issue>) returns (r: seq<Issue>)
    ensures r == Persist(issues, handed)
  {
    var enriched := IssuesByName(handed);
    r := [];
    for k := 0 to |issues|
      invariant |r| == k && forall j :: 0 <= j < k ==> r[j] == Persisted(issues[j], enriched)
    {
      r := r + [Persisted(issues[k], enriched)];
    }
  }

  /** Gather the tasks' answers and sort them into the three buckets, in order. */
  method ExecuteLevel(active: seq<Issue>, reply: nat -> TaskReply) returns (lr: LevelResult)
    ensures lr == Classified(Results(active, reply))
  {
    ghost var rs := Results(active, reply);
    lr := LevelResult([], [], []);
    for i := 0 to |active|
      invariant lr == Classified(rs[..i])
    {
      assert rs[..i + 1][..i] == rs[..i];
      match reply(i) {
        case Raised =>
          lr := lr.(failed := lr.failed + [IssueResult(active[i].name, FailedUnrecoverable, "", [], [], [])]);
        case Returned(r) =>
          if Succeeded(r.outcome) {
            lr := lr.(completed := lr.completed + [r]);
          } else if r.outcome == Skipped {
            lr := lr.(skipped := lr.skipped + [r]);
          } else {
            lr := lr.(failed := lr.failed + [r]);
          }
        case Neither =>
          lr := lr.(completed := lr.completed + [IssueResult(active[i].name, Completed, "", [], [], [])]);
      }
    }
    assert rs[..|rs|] == rs;
  }

  method UnrecoverableAmong(failed: seq<IssueResult>) returns (r: seq<IssueResult>)
    ensures r == ToReplan(failed)
  {
    r := [];
    for k := 0 to |failed|
      invariant r == ToReplan(failed[..k])
    {
      assert failed[..k + 1][..k] == failed[..k];
      if Unrecoverable(failed[k].outcome) {
        r := r + [failed[k]];
      }
    }
    assert failed[..|failed|] == failed;
  }

  method CollectBranches(completed: seq<IssueResult>) returns (branches: seq<string>)
    ensures branches == BranchesToMerge(completed)
  {
    branches := [];
    for k := 0 to |completed|
      invariant branches == BranchesToMerge(completed[..k])
    {
      assert completed[..k + 1][..k] == completed[..k];
      if completed[k].branchName != "" {
        branches := branches + [completed[k].branchName];
      }
    }
    assert completed[..|completed|] == completed;
  }

  /** Deterministic merges first; the agent settles conflicts, or everything if the fast path is out. */
  method DispatchMerge(cfg: Config, repo: Repository, branches: seq<string>, input: PassInput) returns (m: MergeResult)
    modifies repo
    ensures m == Dispatched(cfg, branches, input)
    ensures repo.integration == old(repo.integration) + PutOnBranch(cfg, branches, input)
  {
    hide FastMerge, Combined, MergedBy;
    ghost var clean := if cfg.deterministicGit then MergedBy(branches, input.conflicts, input.gitFault) else [];
    assert clean + [] == clean && repo.integration + [] == repo.integration;
    if cfg.deterministicGit {
      var fast := repo.MergeBranches(branches, input.conflicts, input.gitFault);
      if fast.Some? {
        if fast.value.failed == [] {
          return fast.value;
        }
        repo.TakeFromAgent(input.merger.integrated);
        AppendAssociative(old(repo.integration), clean, input.merger.integrated);
        m := CombineMergeResults(fast.value, input.merger);
        return;
      }
    }
    repo.TakeFromAgent(input.merger.integrated);
    AppendAssociative(old(repo.integration), clean, input.merger.integrated);
    m := Reported(input.merger);
    if !m.success && m.failed != [] {
      repo.TakeFromAgent(input.mergerRetry.integrated);
      AppendAssociative(old(repo.integration), clean + input.merger.integrated, input.mergerRetry.integrated);
      AppendAssociative(clean, input.merger.integrated, input.mergerRetry.integrated);
      m := Reported(input.mergerRetry);
    } else {
      assert input.merger.integrated + [] == input.merger.integrated;
    }
  }

  // --------------------------------------------------------------------- the plan state

  class DagState {
    var issues: seq<Issue>
    var levels: seq<seq<Name>>
    var level: nat
    var completed: seq<IssueResult>
    var failed: seq<IssueResult>
    var skipped: seq<Name>
    var inFlight: seq<Name>
    var replanCount: nat
    var history: seq<Decision>
    var merged: seq<string>
    var unmerged: seq<string>
    var debt: seq<DebtItem>
    /** Every checkpoint written, newest last: the file holds the last one. */
    var saved: seq<State>

    function View(): State
      reads this
    {
      State(issues, levels, level, completed, failed, SetOf(skipped), inFlight, replanCount, history, merged,
            unmerged, debt)
    }

    /** A fresh plan. */
    constructor Init(issues: seq<Issue>, levels: seq<seq<Name>>)
      ensures View() == State(issues, levels, 0, [], [], {}, [], 0, [], [], [], [])
      ensures saved == []
    {
      this.issues, this.levels, level := issues, levels, 0;
      completed, failed, skipped, inFlight := [], [], [], [];
      replanCount, history, merged, unmerged, debt, saved := 0, [], [], [], [], [];
    }

    /** A plan loaded from a stored state. */
    constructor Load(s: State)
      ensures View() == s
      ensures saved == []
    {
      issues, levels, level := s.issues, s.levels, s.level;
      completed, failed, skipped, inFlight := s.completed, s.failed, [], s.inFlight;
      replanCount, history, merged, unmerged, debt, saved := s.replanCount, s.history, s.merged, s.unmerged, s.debt, [];
      new;
      var names := AppendMissing([], s.skipped);
      skipped := names;
    }

    method SaveCheckpoint()
      modifies this`saved
      ensures saved == old(saved) + [View()]
    {
      saved := saved + [View()];
    }

    /** Rewrite the live plan as decided; a plan with a cycle is turned down and only its skips stay. */
    method ApplyReplan(d: Decision) returns (accepted: bool)
      modifies this
      ensures accepted <==> Apply(old(View()), d).Accepted?
      ensures View() == Apply(old(View()), d).state
      ensures saved == old(saved)
    {
      hide Candidates, Recompute, Only, Finished;
      if d.action == Abort || d.action == Continue {
        replanCount := replanCount + 1;
        history := history + [d];
        return true;
      }
      var completedNames, finished := ResultNames(completed), ResultNames(completed) + ResultNames(failed);
      FinishedNames(View());
      var remaining := RemainingAfter(d, finished);
      skipped := AppendMissing(skipped, SetOf(d.skipped));
      var outcome := RecomputeLevels(remaining, completedNames);
      match outcome {
        case Cycle(_) =>
          return false;
        case Layered(newLevels) =>
          Adopt(Only(issues, finished) + remaining, newLevels, d);
          return true;
      }
    }

    method Adopt(newIssues: seq<Issue>, newLevels: seq<seq<Name>>, d: Decision)
      modifies this
      ensures View() == Counted(old(View()), d).(issues := newIssues, levels := newLevels, level := 0)
      ensures saved == old(saved)
    {
      issues := newIssues;
      levels := newLevels;
      level := 0;
      replanCount := replanCount + 1;
      history := history + [d];
    }

    /** The working copy after removals, skips, updates and additions. */
    method RemainingAfter(d: Decision, finished: set<Name>) returns (remaining: seq<Issue>)
      requires finished == Finished(View())
      ensures remaining == Candidates(View(), d)
    {
      remaining := Unfinish(issues, finished);
      ghost var open := remaining;
      remaining := PopAll(remaining, SetOf(d.removed));
      remaining := PopAll(remaining, SetOf(d.skipped));
      WithoutTwice(open, SetOf(d.removed), SetOf(d.skipped));
      remaining := UpdateIssues(remaining, d.updated);
      var maxSeq := HighestSequence(issues);
      remaining := AddIssues(remaining, maxSeq, d.added);
    }

    method SkipDownstreamOf(failures: seq<IssueResult>)
      modifies this`skipped
      ensures View() == SkipDownstream(old(View()), failures)
    {
      ghost var s := View();
      for k := 0 to |failures|
        invariant View() == SkipDownstream(s, failures[..k])
      {
        var downstream := FindDownstream(failures[k].issueName, issues);
        SkipOneMore(s, failures, k);
        skipped := AppendMissing(skipped, downstream);
      }
      assert failures[..|failures|] == failures;
    }

    method Record(lr: LevelResult)
      modifies this
      ensures View() == Recorded(old(View()), lr) && saved == old(saved)
    {
      completed := completed + lr.completed;
      failed := failed + lr.failed;
      skipped := AppendMissing(skipped, ResultNames(lr.skipped));
    }

    /** Give up on everything behind the current level. */
    method AbandonRemaining()
      requires level < |levels|
      modifies this
      ensures View() == AbandonRest(old(View())) && saved == old(saved)
    {
      skipped := AppendMissing(skipped, SetOf(Flatten(levels[level + 1..])));
      level := |levels|;
    }

    method MergeCompleted(cfg: Config, repo: Repository, lr: LevelResult, input: PassInput)
      modifies this, repo
      ensures View() == MergeGate(cfg, old(View()), lr, input) && saved == old(saved)
      ensures repo.integration == old(repo.integration) + Integrated(cfg, lr, input)
    {
      hide Dispatched, PutOnBranch;
      if cfg.git {
        var branches := CollectBranches(lr.completed);
        if branches != [] {
          var m := DispatchMerge(cfg, repo, branches, input);
          merged := AppendNew(merged, m.merged);
          unmerged := AppendNew(unmerged, m.failed);
        }
      }
    }

    method TakeDebt(lr: LevelResult)
      modifies this`debt
      ensures View() == DebtGate(old(View()), lr)
    {
      ghost var start := debt;
      for k := 0 to |lr.completed|
        invariant debt == start + DebtOf(lr.completed[..k])
      {
        assert lr.completed[..k + 1][..k] == lr.completed[..k];
        if lr.completed[k].outcome == CompletedWithDebt {
          debt := debt + lr.completed[k].debtItems;
        }
      }
      assert lr.completed[..|lr.completed|] == lr.completed;
    }

    /** Each split request in turn becomes a replan of its own; the gate ends with a checkpoint if there was one. */
    method SplitFailed(cfg: Config, lookup: map<Name, Issue>, lr: LevelResult)
      returns (lookup': map<Name, Issue>, ghost rewritten: bool)
      modifies this
      ensures Progress(View(), lookup', rewritten) == SplitGate(cfg, old(View()), lookup, lr)
      ensures saved == old(saved) + if AnySplit(cfg, lr) then [View()] else []
    {
      lookup', rewritten := lookup, false;
      if cfg.hasAgents {
        var any := false;
        ghost var p := Progress(View(), lookup, false);
        for k := 0 to |lr.failed|
          invariant Progress(View(), lookup', rewritten) == SplitAll(p, lr.failed[..k])
          invariant any <==> exists r :: r in lr.failed[..k] && WantsSplit(r)
          invariant saved == old(saved)
        {
          assert lr.failed[..k + 1][..k] == lr.failed[..k];
          assert lr.failed[..k + 1] == lr.failed[..k] + [lr.failed[k]];
          if WantsSplit(lr.failed[k]) {
            any := true;
            var accepted := ApplyReplan(SplitDecision(lr.failed[k]));
            if accepted {
              lookup' := IssuesByName(issues);
              rewritten := true;
            }
          }
        }
        assert lr.failed[..|lr.failed|] == lr.failed;
        if any {
          SaveCheckpoint();
        }
      }
    }

    /** The replan gate: abort, continue past the failures, or try to rewrite the plan. */
    method ReplanAfter(cfg: Config, failures: seq<IssueResult>, d: Decision)
      returns (ghost v: Verdict, stop: bool, restart: bool)
      modifies this
      ensures v == ReplanGate(cfg, old(View()), failures, d)
      ensures View() == v.dag && saved == old(saved)
      ensures stop == v.Stop? && restart == v.Restart?
    {
      stop, restart := false, false;
      if failures != [] {
        if cfg.enableReplanning && replanCount < cfg.maxReplans {
          if d.action == Abort {
            stop := true;
            replanCount := replanCount + 1;
            history := history + [d];
          } else if d.action == Continue {
            replanCount := replanCount + 1;
            history := history + [d];
            SkipDownstreamOf(failures);
          } else {
            restart := ApplyReplan(d);
            if !restart {
              SkipDownstreamOf(failures);
            }
          }
        } else {
          SkipDownstreamOf(failures);
        }
      }
      v := if stop then Stop(View()) else if restart then Restart(View()) else Advance(View());
    }
  }

  lemma SkipOneMore(s: State, failures: seq<IssueResult>, k: nat)
    requires k < |failures|
    ensures SkipDownstream(s, failures[..k + 1])
            == var t := SkipDownstream(s, failures[..k]);
               t.(skipped := t.skipped + Downstream(failures[k].issueName, s.issues))
  {
    assert failures[..k + 1] == failures[..k] + [failures[k]];
    hide Downstream;
    forall n
      ensures n in SkipDownstream(s, failures[..k + 1]).skipped
              <==> n in SkipDownstream(s, failures[..k]).skipped || n in Downstream(failures[k].issueName, s.issues)
    {
      if n in Downstream(failures[k].issueName, s.issues) {
        assert failures[k] in failures[..k + 1];
      }
    }
  }

  // ------------------------------------------------------------------------ the run loop

  /** Names that must not be started, from the records as they stand. */
  method DoneNames(st: DagState) returns (done: set<Name>)
    ensures done == Done(st.View())
  {
    done := ResultNames(st.completed) + ResultNames(st.failed) + SetOf(st.skipped);
  }

  /** Set up and launch a level: enriched issues persisted, names in flight, checkpoint written. */
  method Launch(st: DagState, cfg: Config, active: seq<Issue>, input: PassInput) returns (handed: seq<Issue>)
    modifies st
    ensures handed == SetUp(cfg, active, input)
    ensures st.View() == old(st.View()).(issues := if cfg.git then Persist(old(st.issues), handed) else old(st.issues),
                                         inFlight := NamesOf(handed))
    ensures st.saved == old(st.saved) + [st.View()]
  {
    handed := SetupLevel(cfg, active, input);
    if cfg.git {
      st.issues := PersistEnriched(st.issues, handed);
    }
    st.inFlight := NamesOf(handed);
    st.SaveCheckpoint();
  }

  /** From setup to the level barrier: launch, execute, checkpoint, record. */
  method RunLevel(st: DagState, cfg: Config, active: seq<Issue>, input: PassInput) returns (lr: LevelResult)
    modifies st
    ensures var s := old(st.View());
            var handed := SetUp(cfg, active, input);
            var launched := s.(issues := if cfg.git then Persist(s.issues, handed) else s.issues,
                               inFlight := NamesOf(handed));
            && lr == Classified(Results(handed, input.reply))
            && st.View() == Recorded(launched.(inFlight := []), lr)
            && st.saved == old(st.saved) + [launched, launched.(inFlight := [])]
  {
    hide SetUp, Persist, Results, Classified, Recorded;
    var handed := Launch(st, cfg, active, input);
    lr := ExecuteLevel(handed, input.reply);
    st.inFlight := [];
    st.SaveCheckpoint();
    st.Record(lr);
  }

  /** One trip round the loop body, for a run that has not ended. */
  method OnePass(st: DagState, repo: Repository, cfg: Config, lookup: map<Name, Issue>, input: PassInput)
    returns (lookup': map<Name, Issue>, status: Status)
    requires st.level < |st.levels|
    modifies st, repo
    ensures var r := Run(old(st.View()), lookup, Running);
            && Run(st.View(), lookup', status) == Pass(cfg, r, input)
            && st.saved == old(st.saved) + Checkpoints(cfg, r, input)
            && repo.integration == old(repo.integration) + PassIntegrates(cfg, r, input)
  {
    hide Pass, Checkpoints, Integrated, SetUp, Results, Classified, Recorded, AbandonRest, MergeGate, DebtGate;
    hide SplitGate, ReplanGate, Persist;
    hide ToReplan, AnySplit, LookupOf, ThresholdHit, Done, Conclude, ActiveAmong, AtBarrier, Launched, LevelOutcome;
    ghost var r, log := Run(st.View(), lookup, Running), st.saved;
    lookup', status := lookup, Running;
    var done := DoneNames(st);
    var active := ActiveIssues(st.levels[st.level], lookup, done);
    assert active == Active(r);
    hide Active;
    if active == [] {
      EmptyPass(cfg, r, input);
      assert log + [] == log && repo.integration + [] == repo.integration;
      st.level := st.level + 1;
      return;
    }
    var lr := RunLevel(st, cfg, active, input);
    BarrierReached(cfg, r, input);
    if ThresholdHit(cfg, lr) {
      AbortedPass(cfg, r, input, log);
      assert repo.integration + [] == repo.integration;
      st.AbandonRemaining();
      st.SaveCheckpoint();
      status := ThresholdAbort;
    } else {
      ghost var begun := st.saved;
      lookup', status := Gates(st, repo, cfg, lookup, lr, input);
      PassThroughGates(cfg, r, input, log, begun);
    }
  }

  /** A pass that ends at the threshold check. */
  lemma AbortedPass(cfg: Config, r: Run, input: PassInput, log: seq<State>)
    requires !Halted(r) && Active(r) != [] && ThresholdHit(cfg, LevelOutcome(cfg, r, input))
    ensures AtBarrier(cfg, r, input).level < |AtBarrier(cfg, r, input).levels|
    ensures var launched, s := Launched(cfg, r, input), AbandonRest(AtBarrier(cfg, r, input));
            && Pass(cfg, r, input) == Run(s, r.lookup, ThresholdAbort)
            && log + Checkpoints(cfg, r, input) == log + [launched, launched.(inFlight := [])] + [s]
  {
    BarrierReached(cfg, r, input);
    hide AtBarrier, Launched, LevelOutcome, Active, ThresholdHit, AbandonRest;
    var launched, s := Launched(cfg, r, input), AbandonRest(AtBarrier(cfg, r, input));
    AppendAssociative(log, [launched, launched.(inFlight := [])], [s]);
  }

  lemma BarrierReached(cfg: Config, r: Run, input: PassInput)
    requires !Halted(r)
    ensures var handed := SetUp(cfg, Active(r), input);
            var launched := r.dag.(issues := if cfg.git then Persist(r.dag.issues, handed) else r.dag.issues,
                                   inFlight := NamesOf(handed));
            && LevelOutcome(cfg, r, input) == Classified(Results(handed, input.reply))
            && Launched(cfg, r, input) == launched
            && AtBarrier(cfg, r, input) == Recorded(launched.(inFlight := []), LevelOutcome(cfg, r, input))
            && AtBarrier(cfg, r, input).level == r.dag.level && AtBarrier(cfg, r, input).levels == r.dag.levels
  {
  }

  /** A pass that gets through the threshold check, in terms of its gates. */
  lemma PassThroughGates(cfg: Config, r: Run, input: PassInput, log: seq<State>, begun: seq<State>)
    requires !Halted(r) && Active(r) != [] && !ThresholdHit(cfg, LevelOutcome(cfg, r, input))
    requires begun == log + [Launched(cfg, r, input), Launched(cfg, r, input).(inFlight := [])]
    ensures var lr := LevelOutcome(cfg, r, input);
            var p := SplitGate(cfg, DebtGate(MergeGate(cfg, AtBarrier(cfg, r, input), lr, input), lr), r.lookup, lr);
            var v := ReplanGate(cfg, p.dag, ToReplan(lr.failed), input.decision);
            && Pass(cfg, r, input) == Conclude(p.lookup, v)
            && log + Checkpoints(cfg, r, input)
               == begun + (if AnySplit(cfg, lr) then [p.dag] else []) + (if v.Restart? then [v.dag] else [])
  {
    hide Active, AtBarrier, LevelOutcome, MergeGate, DebtGate, SplitGate, ReplanGate, ToReplan, AnySplit, Conclude;
    hide ThresholdHit;
    hide Launched;
    var lr := LevelOutcome(cfg, r, input);
    var p, v := AfterSplits(cfg, r, input), Decide(cfg, r, input);
    var a, b := if AnySplit(cfg, lr) then [p.dag] else [], if v.Restart? then [v.dag] else [];
    var two := [Launched(cfg, r, input), Launched(cfg, r, input).(inFlight := [])];
    AppendAssociative(log, two + a, b);
    AppendAssociative(log, two, a);
  }

  /** Everything behind the threshold check: merge, debt, split and replan gates, and the step on. */
  method Gates(st: DagState, repo: Repository, cfg: Config, lookup: map<Name, Issue>, lr: LevelResult, input: PassInput)
    returns (lookup': map<Name, Issue>, status: Status)
    modifies st, repo
    ensures var p := SplitGate(cfg, DebtGate(MergeGate(cfg, old(st.View()), lr, input), lr), lookup, lr);
            var v := ReplanGate(cfg, p.dag, ToReplan(lr.failed), input.decision);
            && Run(st.View(), lookup', status) == Conclude(p.lookup, v)
            && st.saved == old(st.saved) + (if AnySplit(cfg, lr) then [p.dag] else [])
               + (if v.Restart? then [v.dag] else [])
    ensures repo.integration == old(repo.integration) + Integrated(cfg, lr, input)
  {
    hide Integrated, MergeGate, DebtGate, SplitGate, ReplanGate, ToReplan, AnySplit, LookupOf;
    st.MergeCompleted(cfg, repo, lr, input);
    st.TakeDebt(lr);
    ghost var rewritten;
    lookup', rewritten := st.SplitFailed(cfg, lookup, lr);
    var failures := UnrecoverableAmong(lr.failed);
    ghost var v;
    var stop, restart;
    v, stop, restart := st.ReplanAfter(cfg, failures, input.decision);
    if stop {
      status := ReplannerAbort;
    } else if restart {
      lookup' := IssuesByName(st.issues);
      st.SaveCheckpoint();
      status := Running;
    } else {
      st.level := st.level + 1;
      status := Running;
    }
  }

  /**
   * Execute a plan, or resume one, for at most the given number of passes; fewer if it
   * ends before. A run that is cut off writes no final checkpoint.
   */
  method RunDag(st: DagState, repo: Repository, cfg: Config, world: World, passes: nat)
    returns (lookup: map<Name, Issue>, status: Status)
    modifies st, repo
    ensures var start := Begin(old(st.View()));
            && Run(st.View(), lookup, status) == StateAt(cfg, start, world, passes)
            && st.saved == old(st.saved) + Written(cfg, start, world, passes)
            && repo.integration == old(repo.integration) + IntegrationLog(cfg, start, world, passes)
  {
    hide Pass, Checkpoints, StateAt, Log, Written, LookupOf, IntegrationLog, PassIntegrates;
    ghost var start := Begin(st.View());
    NothingRunYet(cfg, start, world);
    st.SaveCheckpoint();
    status := Running;
    lookup := IssuesByName(st.issues);
    var k := 0;
    while k < passes && status == Running && st.level < |st.levels|
      invariant k <= passes
      invariant Run(st.View(), lookup, status) == StateAt(cfg, start, world, k)
      invariant st.saved == old(st.saved) + Log(cfg, start, world, k)
      invariant repo.integration == old(repo.integration) + IntegrationLog(cfg, start, world, k)
      decreases passes - k
    {
      lookup, status := OnePass(st, repo, cfg, lookup, world(k));
      OneMorePass(cfg, start, world, k, old(st.saved), old(repo.integration));
      k := k + 1;
    }
    NoMorePasses(cfg, start, world, k, passes, old(st.saved));
    if status != Running || st.level >= |st.levels| {
      st.SaveCheckpoint();
    }
  }

  lemma OneMorePass(cfg: Config, start: Run, world: World, k: nat, saved: seq<State>, merged: seq<string>)
    requires !Halted(StateAt(cfg, start, world, k))
    ensures var r := StateAt(cfg, start, world, k);
            && StateAt(cfg, start, world, k + 1) == Pass(cfg, r, world(k))
            && saved + Log(cfg, start, world, k + 1)
               == saved + Log(cfg, start, world, k) + Checkpoints(cfg, r, world(k))
            && merged + IntegrationLog(cfg, start, world, k + 1)
               == merged + IntegrationLog(cfg, start, world, k) + PassIntegrates(cfg, r, world(k))
  {
    hide Pass, Checkpoints, StateAt, Log, IntegrationLog, PassIntegrates;
    Step(cfg, start, world, k);
    AppendAssociative(merged, IntegrationLog(cfg, start, world, k),
                      PassIntegrates(cfg, StateAt(cfg, start, world, k), world(k)));
    AppendAssociative(saved, Log(cfg, start, world, k), Checkpoints(cfg, StateAt(cfg, start, world, k), world(k)));
  }

  lemma NoMorePasses(cfg: Config, start: Run, world: World, k: nat, passes: nat, saved: seq<State>)
    requires k <= passes && (k < passes ==> Halted(StateAt(cfg, start, world, k)))
    ensures var r := StateAt(cfg, start, world, k);
            && StateAt(cfg, start, world, passes) == r
            && IntegrationLog(cfg, start, world, passes) == IntegrationLog(cfg, start, world, k)
            && saved + Written(cfg, start, world, passes)
               == saved + Log(cfg, start, world, k) + if Halted(r) then [r.dag] else []
  {
    hide Pass, Checkpoints;
    if Halted(StateAt(cfg, start, world, k)) {
      HaltedStays(cfg, start, world, k, passes);
    }
    hide StateAt, Log;
    var r := StateAt(cfg, start, world, k);
    AppendAssociative(saved, Log(cfg, start, world, k), if Halted(r) then [r.dag] else []);
  }
}
