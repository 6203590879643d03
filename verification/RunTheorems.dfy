/** Safety, progress and recovery over whole runs, for every world of agent answers. */
module RunTheorems {
  import opened Collections
  import opened Graph
  import opened Levels
  import opened Schemas
  import opened DagSpec
  import opened Replan
  import opened RunLoop
  import opened PassFacts

  // -------------------------------------------------------------------- run invariant

  /** A listed dependency of a listed issue is done or sits in an earlier level. */
  ghost predicate Ordered(levels: seq<seq<Name>>, lookup: map<Name, Issue>, done: set<Name>) {
    forall k, n, d :: 0 <= k < |levels| && n in levels[k]
                      && n in lookup && d in lookup[n].dependsOn && Listed(levels, d)
                      ==> d in done || Listed(levels[..k], d)
  }

  ghost predicate Known(levels: seq<seq<Name>>, lookup: map<Name, Issue>) {
    forall k, n :: 0 <= k < |levels| && n in levels[k] ==> n in lookup
  }

  /** Everybody in a level the run has gone past is done. */
  ghost predicate Cleared(levels: seq<seq<Name>>, level: nat, done: set<Name>) {
    forall j, n :: 0 <= j < level && j < |levels| && n in levels[j] ==> n in done
  }

  ghost predicate Sound(r: Run) {
    && Named(r.lookup)
    && Agree(r.lookup, LookupOf(r.dag.issues))
    && Known(r.dag.levels, r.lookup)
    && Ordered(r.dag.levels, r.lookup, Done(r.dag))
    && Cleared(r.dag.levels, r.dag.level, Done(r.dag))
    && (r.status == ThresholdAbort ==> r.dag.level >= |r.dag.levels|)
  }

  /** A level that lists only known names is used up once the active ones are done. */
  lemma LevelUsedUp(r: Run, done: set<Name>, n: Name)
    requires Sound(r) && !Halted(r)
    requires Done(r.dag) <= done && NameSet(Active(r)) <= done
    requires n in r.dag.levels[r.dag.level]
    ensures n in done
  {
    ActiveMembers(r.dag.levels[r.dag.level], r.lookup, Done(r.dag));
  }

  lemma AllUsedUp(r: Run, done: set<Name>)
    requires Sound(r) && !Halted(r)
    requires Done(r.dag) <= done && NameSet(Active(r)) <= done
    ensures Cleared(r.dag.levels, r.dag.level + 1, done)
    ensures forall n :: n in r.dag.levels[r.dag.level] ==> n in done
  {
    hide Done, Active;
    forall n | n in r.dag.levels[r.dag.level]
      ensures n in done
    {
      LevelUsedUp(r, done, n);
    }
    hide Named, Agree, Known, Ordered;
  }

  lemma LaterDone(levels: seq<seq<Name>>, lookup: map<Name, Issue>, lookup': map<Name, Issue>, level: nat,
                  done: set<Name>, done': set<Name>)
    requires Known(levels, lookup) && Ordered(levels, lookup, done) && Cleared(levels, level, done)
    requires Agree(lookup, lookup') && done <= done'
    ensures Known(levels, lookup') && Ordered(levels, lookup', done') && Cleared(levels, level, done')
  {
  }

  /** After an adopted rewrite a listed name is looked up among the issues left to execute. */
  lemma RewriteLooksUpCandidates(s: State, d: Decision, n: Name)
    requires Rewrites(d) && Apply(s, d).Accepted? && Listed(Apply(s, d).state.levels, n)
    ensures n in LookupOf(Apply(s, d).state.issues) && LookupOf(Apply(s, d).state.issues)[n] in Candidates(s, d)
  {
    RewriteOutcome(s, d);
    CandidateNames(s, d);
    assert n in NameSet(Candidates(s, d));
    hide Candidates, LevelsOf, Only;
    LookupOfLastPart(Only(s.issues, Finished(s)), Candidates(s, d), n);
  }

  lemma RewriteOrders(s: State, d: Decision, k: nat, n: Name, dep: Name)
    requires Rewrites(d) && Apply(s, d).Accepted?
    requires var s', lookup := Apply(s, d).state, LookupOf(Apply(s, d).state.issues);
             && k < |s'.levels| && n in s'.levels[k]
             && n in lookup && dep in lookup[n].dependsOn && Listed(s'.levels, dep)
    ensures dep in Done(Apply(s, d).state) || Listed(Apply(s, d).state.levels[..k], dep)
  {
    hide Candidates, LevelsOf, OpenEdges, Apply, LookupOf, Layering;
    var todo, completed, levels := Candidates(s, d), ResultNames(s.completed), Apply(s, d).state.levels;
    RewriteLooksUpCandidates(s, d, n);
    LookupOfNames(Apply(s, d).state.issues);
    RewriteOutcome(s, d);
    CandidateNames(s, d);
    if dep !in completed {
      InOpenEdges(todo, completed, (dep, n));
      assert dep in NameSet(todo);
      EarlierInLayering(OpenEdges(todo, completed), NameSet(todo), levels, dep, n, k);
    }
  }

  lemma EarlierInLayering(edges: seq<Edge>, names: set<Name>, levels: seq<seq<Name>>, dep: Name, n: Name, k: nat)
    requires Layering(edges, names, {}, levels) && k < |levels| && n in levels[k] && (dep, n) in edges
    ensures Listed(levels[..k], dep)
  {
    assert (dep, n).1 in levels[k];
  }

  lemma RewriteIsKnown(s: State, d: Decision)
    requires Rewrites(d) && Apply(s, d).Accepted?
    ensures Known(Apply(s, d).state.levels, LookupOf(Apply(s, d).state.issues))
  {
    hide Apply, LookupOf;
    var levels := Apply(s, d).state.levels;
    forall k, n | 0 <= k < |levels| && n in levels[k]
      ensures n in LookupOf(Apply(s, d).state.issues)
    {
      assert Listed(levels, n);
      RewriteLooksUpCandidates(s, d, n);
    }
  }

  lemma RewriteIsOrdered(s: State, d: Decision)
    requires Rewrites(d) && Apply(s, d).Accepted?
    ensures Ordered(Apply(s, d).state.levels, LookupOf(Apply(s, d).state.issues), Done(Apply(s, d).state))
  {
    hide Apply, LookupOf, Done, Listed;
    var levels, lookup, done := Apply(s, d).state.levels, LookupOf(Apply(s, d).state.issues), Done(Apply(s, d).state);
    forall k, n, dep | 0 <= k < |levels| && n in levels[k]
                       && n in lookup && dep in lookup[n].dependsOn && Listed(levels, dep)
      ensures dep in done || Listed(levels[..k], dep)
    {
      RewriteOrders(s, d, k, n, dep);
    }
  }

  /** An adopted rewrite yields a sound run, whatever the run was before. */
  lemma RewriteIsSound(s: State, d: Decision)
    requires Rewrites(d) && Apply(s, d).Accepted?
    ensures Sound(Begin(Apply(s, d).state))
  {
    ApplyKeeps(s, d);
    LookupOfNames(Apply(s, d).state.issues);
    RewriteIsKnown(s, d);
    RewriteIsOrdered(s, d);
    hide Apply, LookupOf, Done, Known, Ordered, Named;
  }

  lemma {:induction false} LookupOfLastPart(a: seq<Issue>, b: seq<Issue>, n: Name)
    requires n in NameSet(b)
    ensures n in LookupOf(a + b) && LookupOf(a + b)[n] in b
  {
    var k := |b| - 1;
    NamesOfLast(b);
    assert a + b == (a + b[..k]) + [b[k]];
    assert (a + b)[..|a + b| - 1] == a + b[..k];
    if n != b[k].name {
      LookupOfLastPart(a, b[..k], n);
    }
  }

  /** A freshly planned run, its levels computed from its issues, is a sound start. */
  lemma PlannedRunIsSound(issues: seq<Issue>)
    requires Plannable(issues, {})
    ensures var start := Begin(State(issues, LevelsOf(issues, {}), 0, [], [], {}, [], 0, [], [], [], []));
            Sound(start) && LevelsDistinct(start.dag.levels)
  {
    var levels, edges, lookup := LevelsOf(issues, {}), OpenEdges(issues, {}), LookupOf(issues);
    LookupOfNames(issues);
    LevelsOfLayers(issues, {});
    hide LevelsOf, OpenEdges, LookupOf;
    forall k, n | 0 <= k < |levels| && n in levels[k]
      ensures n in lookup
    {
      assert Listed(levels, n);
      AcceptedPlan(issues, {}, n);
      assert n in NameSet(issues);
    }
    forall k, n, d | 0 <= k < |levels| && n in levels[k] && n in lookup && d in lookup[n].dependsOn && Listed(levels, d)
      ensures Listed(levels[..k], d)
    {
      AcceptedPlan(issues, {}, d);
      InOpenEdges(issues, {}, (d, n));
      EarlierInLayering(edges, NameSet(issues), levels, d, n, k);
    }
  }

  lemma LaunchKeepsAgreement(cfg: Config, r: Run, input: PassInput)
    requires Sound(r) && !Halted(r)
    ensures Agree(r.lookup, LookupOf(Launched(cfg, r, input).issues))
  {
    if cfg.git {
      var handed := Handed(cfg, r, input);
      var enriched := LookupOf(handed);
      LookupOfNames(handed);
      HandedKeepsIssues(cfg, r, input);
      ActiveMembers(r.dag.levels[r.dag.level], r.lookup, Done(r.dag));
      forall n | n in enriched && n in LookupOf(r.dag.issues)
        ensures enriched[n].dependsOn == LookupOf(r.dag.issues)[n].dependsOn
      {
        var i :| 0 <= i < |handed| && handed[i] == enriched[n];
        assert Active(r)[i] in Active(r);
      }
      PersistAgrees(r.dag.issues, enriched, Persist(r.dag.issues, handed));
    }
  }

  /** Behind the barrier an unrewritten plan still has its issues, levels and position. */
  lemma AdvanceKeepsPlan(cfg: Config, r: Run, input: PassInput)
    requires !Halted(r) && !AfterSplits(cfg, r, input).rewritten
    ensures var launched, v := Launched(cfg, r, input), Decide(cfg, r, input);
            && AfterSplits(cfg, r, input).lookup == r.lookup
            && AfterSplits(cfg, r, input).dag.issues == launched.issues
            && AfterSplits(cfg, r, input).dag.levels == r.dag.levels
            && AfterSplits(cfg, r, input).dag.level == r.dag.level
            && (!v.Restart? ==>
                  v.dag.issues == launched.issues && v.dag.levels == r.dag.levels && v.dag.level == r.dag.level)
            && (v.Restart? ==> Rewrites(input.decision)
                               && Apply(AfterSplits(cfg, r, input).dag, input.decision) == Accepted(v.dag))
  {
    SplitGateKeeps(cfg, r, input);
    ApplyKeeps(AfterSplits(cfg, r, input).dag, input.decision);
  }

  /** No split replan is adopted in this pass. */
  ghost predicate SplitFree(cfg: Config, r: Run, input: PassInput) {
    !Halted(r) ==> !AfterSplits(cfg, r, input).rewritten
  }

  lemma EmptyPassKeepsSound(cfg: Config, r: Run, input: PassInput)
    requires Sound(r) && !Halted(r) && Active(r) == []
    ensures Sound(Pass(cfg, r, input))
  {
    AllUsedUp(r, Done(r.dag));
    assert Done(Pass(cfg, r, input).dag) == Done(r.dag);
  }

  lemma AbortKeepsSound(cfg: Config, r: Run, input: PassInput)
    requires Sound(r) && !Halted(r) && Faithful(cfg, r, input)
    requires Active(r) != [] && ThresholdHit(cfg, LevelOutcome(cfg, r, input))
    ensures Sound(Pass(cfg, r, input))
  {
    PassGrowsDone(cfg, r, input);
    LaunchKeepsAgreement(cfg, r, input);
    AbandonedLevelsAreDone(cfg, r, input);
    LaterDone(r.dag.levels, r.lookup, r.lookup, 0, Done(r.dag), Done(Pass(cfg, r, input).dag));
  }

  /** A plan that kept its issues and levels, at a position whose past is done, is still sound. */
  lemma SamePlanIsSound(cfg: Config, r: Run, input: PassInput, s: State, status: Status)
    requires Sound(r) && !Halted(r) && status != ThresholdAbort
    requires s.issues == Launched(cfg, r, input).issues && s.levels == r.dag.levels && Done(r.dag) <= Done(s)
    requires || s.level == r.dag.level
             || (s.level == r.dag.level + 1 && forall n :: n in r.dag.levels[r.dag.level] ==> n in Done(s))
    ensures Sound(Run(s, r.lookup, status))
  {
    LaunchKeepsAgreement(cfg, r, input);
    LaterDone(r.dag.levels, r.lookup, r.lookup, r.dag.level, Done(r.dag), Done(s));
  }

  lemma ConcludeKeepsSound(cfg: Config, r: Run, input: PassInput)
    requires Sound(r) && !Halted(r) && Faithful(cfg, r, input) && SplitFree(cfg, r, input)
    requires Active(r) != [] && !ThresholdHit(cfg, LevelOutcome(cfg, r, input))
    ensures Sound(Pass(cfg, r, input))
  {
    var r' := Pass(cfg, r, input);
    PassGrowsDone(cfg, r, input);
    AdvanceKeepsPlan(cfg, r, input);
    hide Sound, Apply, AfterSplits, Launched, LevelOutcome, Decide, Done;
    match Decide(cfg, r, input) {
      case Advance(s) =>
        AllUsedUp(r, Done(r'.dag));
        SamePlanIsSound(cfg, r, input, r'.dag, Running);
      case Restart(s) =>
        RewriteIsSound(AfterSplits(cfg, r, input).dag, input.decision);
        assert r' == Begin(s);
      case Stop(s) =>
        SamePlanIsSound(cfg, r, input, r'.dag, ReplannerAbort);
    }
  }

  lemma PassKeepsSound(cfg: Config, r: Run, input: PassInput)
    requires Sound(r) && !Halted(r) && Faithful(cfg, r, input) && SplitFree(cfg, r, input)
    ensures Sound(Pass(cfg, r, input))
  {
    hide *;
    if Active(r) == [] {
      EmptyPassKeepsSound(cfg, r, input);
    } else if ThresholdHit(cfg, LevelOutcome(cfg, r, input)) {
      AbortKeepsSound(cfg, r, input);
    } else {
      ConcludeKeepsSound(cfg, r, input);
    }
  }

  lemma AbortSkipsTheRest(cfg: Config, r: Run, input: PassInput)
    requires !Halted(r) && Active(r) != [] && ThresholdHit(cfg, LevelOutcome(cfg, r, input))
    ensures SetOf(Flatten(r.dag.levels[r.dag.level + 1..])) <= Done(Pass(cfg, r, input).dag)
  {
  }

  lemma AbandonedLevelsAreDone(cfg: Config, r: Run, input: PassInput)
    requires Sound(r) && !Halted(r) && Faithful(cfg, r, input)
    requires Active(r) != [] && ThresholdHit(cfg, LevelOutcome(cfg, r, input))
    ensures forall j, n :: 0 <= j < |r.dag.levels| && n in r.dag.levels[j] ==> n in Done(Pass(cfg, r, input).dag)
  {
    hide *;
    PassGrowsDone(cfg, r, input);
    AbortSkipsTheRest(cfg, r, input);
    BelowEnd(r);
    AllUsedUp(r, Done(Pass(cfg, r, input).dag));
    AllDone(r.dag.levels, r.dag.level, Done(Pass(cfg, r, input).dag));
  }

  lemma BelowEnd(r: Run)
    requires !Halted(r)
    ensures r.dag.level < |r.dag.levels|
  {
  }

  lemma AllDone(levels: seq<seq<Name>>, at: nat, done: set<Name>)
    requires at < |levels| && Cleared(levels, at + 1, done)
    requires SetOf(Flatten(levels[at + 1..])) <= done
    ensures forall j, n :: 0 <= j < |levels| && n in levels[j] ==> n in done
  {
    forall j, n | 0 <= j < |levels| && n in levels[j]
      ensures n in done
    {
      if j > at {
        assert levels[at + 1..][j - at - 1] == levels[j];
        InFlatten(levels[at + 1..], n);
      }
    }
  }

  // ----------------------------------------------------------------------- whole runs

  ghost predicate FaithfulAt(cfg: Config, start: Run, world: World, j: nat) {
    var r := StateAt(cfg, start, world, j);
    !Halted(r) ==> Faithful(cfg, r, world(j))
  }

  ghost predicate SplitFreeAt(cfg: Config, start: Run, world: World, j: nat) {
    SplitFree(cfg, StateAt(cfg, start, world, j), world(j))
  }

  /** The first k passes answer in the names they were asked about. */
  ghost predicate FaithfulWorld(cfg: Config, start: Run, world: World, k: nat) {
    forall j: nat :: j < k ==> FaithfulAt(cfg, start, world, j)
  }

  /** The first k passes adopt no split. */
  ghost predicate SplitFreeWorld(cfg: Config, start: Run, world: World, k: nat) {
    forall j: nat :: j < k ==> SplitFreeAt(cfg, start, world, j)
  }

  lemma {:induction false} RunIsSound(cfg: Config, start: Run, world: World, k: nat)
    requires Sound(start) && FaithfulWorld(cfg, start, world, k) && SplitFreeWorld(cfg, start, world, k)
    ensures Sound(StateAt(cfg, start, world, k))
  {
    hide Sound, Next, SplitFree, Faithful;
    if k > 0 {
      RunIsSound(cfg, start, world, k - 1);
      assert FaithfulAt(cfg, start, world, k - 1) && SplitFreeAt(cfg, start, world, k - 1);
      StepIsSound(cfg, StateAt(cfg, start, world, k - 1), world(k - 1));
    }
  }

  lemma StepIsSound(cfg: Config, r: Run, input: PassInput)
    requires Sound(r) && SplitFree(cfg, r, input) && (!Halted(r) ==> Faithful(cfg, r, input))
    ensures Sound(Next(cfg, r, input))
  {
    if !Halted(r) {
      PassKeepsSound(cfg, r, input);
    }
  }

  /**
   * Dependency safety: in a split-free run from a sound start, whenever an issue
   * starts, each of its dependencies listed in the current levels is already done.
   */
  lemma StartsAfterDependencies(cfg: Config, start: Run, world: World, k: nat, n: Name, d: Name)
    requires Sound(start) && FaithfulWorld(cfg, start, world, k) && SplitFreeWorld(cfg, start, world, k)
    requires n in Starts(cfg, start, world, k)
    ensures var r := StateAt(cfg, start, world, k);
            n in r.lookup && (d in r.lookup[n].dependsOn && Listed(r.dag.levels, d) ==> d in Done(r.dag))
  {
    RunIsSound(cfg, start, world, k);
    var r := StateAt(cfg, start, world, k);
    ActiveMembers(r.dag.levels[r.dag.level], r.lookup, Done(r.dag));
    assert n in NameSet(Active(r));
    if d in r.lookup[n].dependsOn && Listed(r.dag.levels[..r.dag.level], d) {
      var j :| 0 <= j < r.dag.level && d in r.dag.levels[..r.dag.level][j];
      assert d in r.dag.levels[j];
    }
  }

  /** A split-free run that has ended without a replanner abort has left nobody undone. */
  lemma EndedRunIsComplete(cfg: Config, start: Run, world: World, k: nat, n: Name)
    requires Sound(start) && FaithfulWorld(cfg, start, world, k) && SplitFreeWorld(cfg, start, world, k)
    requires Halted(StateAt(cfg, start, world, k)) && StateAt(cfg, start, world, k).status != ReplannerAbort
    requires Listed(StateAt(cfg, start, world, k).dag.levels, n)
    ensures n in Done(StateAt(cfg, start, world, k).dag)
  {
    RunIsSound(cfg, start, world, k);
    var r := StateAt(cfg, start, world, k);
    var j :| 0 <= j < |r.dag.levels| && n in r.dag.levels[j];
  }

  // ----------------------------------------------------------------- starting only once

  lemma {:induction false} RunKeepsNamed(cfg: Config, start: Run, world: World, k: nat)
    requires Named(start.lookup)
    ensures Named(StateAt(cfg, start, world, k).lookup)
  {
    if k > 0 {
      RunKeepsNamed(cfg, start, world, k - 1);
      var r := StateAt(cfg, start, world, k - 1);
      if !Halted(r) && Active(r) != [] {
        SplitLookupNamed(Progress(BeforeSplits(cfg, r, world(k - 1)), r.lookup, false),
                         LevelOutcome(cfg, r, world(k - 1)).failed);
        LookupOfNames(Decide(cfg, r, world(k - 1)).dag.issues);
      }
    }
  }

  lemma {:induction false} SplitLookupNamed(p: Progress, failed: seq<IssueResult>)
    requires Named(p.lookup)
    ensures Named(SplitAll(p, failed).lookup)
  {
    if failed != [] {
      var k := |failed| - 1;
      SplitLookupNamed(p, failed[..k]);
      LookupOfNames(Apply(SplitAll(p, failed[..k]).dag, SplitDecision(failed[k])).state.issues);
    }
  }

  lemma {:induction false} DoneOnlyGrows(cfg: Config, start: Run, world: World, j: nat, k: nat)
    requires j <= k
    ensures Done(StateAt(cfg, start, world, j).dag) <= Done(StateAt(cfg, start, world, k).dag)
    ensures StateAt(cfg, start, world, j).dag.skipped <= StateAt(cfg, start, world, k).dag.skipped
    decreases k
  {
    hide Done, Pass, Halted;
    if j < k {
      DoneOnlyGrows(cfg, start, world, j, k - 1);
      var r := StateAt(cfg, start, world, k - 1);
      if !Halted(r) {
        PassGrowsDone(cfg, r, world(k - 1));
      }
    }
  }

  /** What is done at some point is never started from then on. */
  lemma DoneNeverStarts(cfg: Config, start: Run, world: World, j: nat, k: nat, n: Name)
    requires Named(start.lookup) && j <= k
    requires n in Done(StateAt(cfg, start, world, j).dag)
    ensures n !in Starts(cfg, start, world, k)
  {
    DoneOnlyGrows(cfg, start, world, j, k);
    RunKeepsNamed(cfg, start, world, k);
    var r := StateAt(cfg, start, world, k);
    if !Halted(r) {
      ActiveMembers(r.dag.levels[r.dag.level], r.lookup, Done(r.dag));
      assert n in NamesOf(Active(r)) <==> n in NameSet(Active(r));
    }
  }

  /** Who can be listed by an adopted rewrite although done already: a reused finished name, or one skipped earlier. */
  ghost predicate ListedInVain(s: State, d: Decision, n: Name) {
    || (n in NewNames(d.added) && n in Finished(s) + s.skipped + SetOf(d.skipped))
    || (n in NameSet(s.issues) && n in s.skipped && n !in Finished(s) && n !in d.removed && n !in d.skipped)
  }

  /**
   * A rewrite lists a name that is done exactly if a new issue takes a finished or skipped
   * name, or the name was skipped before and is neither removed nor skipped again. It is
   * never started, its dependents find it done, and if it had completed they do not even
   * wait for it.
   */
  lemma ListedDoneNeverStarts(cfg: Config, s: State, d: Decision, world: World, k: nat, n: Name)
    requires Rewrites(d) && Apply(s, d).Accepted?
    ensures Listed(Apply(s, d).state.levels, n) && n in Done(Apply(s, d).state) <==> ListedInVain(s, d, n)
    ensures n in Done(Apply(s, d).state) ==> n !in Starts(cfg, Begin(Apply(s, d).state), world, k)
    ensures n in ResultNames(s.completed) ==>
              forall m :: (n, m) !in OpenEdges(Candidates(s, d), ResultNames(s.completed))
  {
    var s' := Apply(s, d).state;
    RewriteOutcome(s, d);
    LookupOfNames(s'.issues);
    assert Done(s') == Finished(s) + s.skipped + SetOf(d.skipped);
    NothingRunYet(cfg, Begin(s'), world);
    hide Apply, Candidates, OpenEdges, StateAt, Starts, Done, Finished, NewNames;
    if n in Done(s') {
      DoneNeverStarts(cfg, Begin(s'), world, 0, k, n);
    }
    forall m
      ensures n in ResultNames(s.completed) ==> (n, m) !in OpenEdges(Candidates(s, d), ResultNames(s.completed))
    {
      InOpenEdges(Candidates(s, d), ResultNames(s.completed), (n, m));
    }
  }

  ghost predicate LevelsDistinct(levels: seq<seq<Name>>) {
    forall k :: 0 <= k < |levels| ==> Distinct(levels[k])
  }

  lemma ApplyKeepsLevelsDistinct(s: State, d: Decision)
    requires LevelsDistinct(s.levels)
    ensures LevelsDistinct(Apply(s, d).state.levels)
  {
    LevelsOfLayers(Candidates(s, d), ResultNames(s.completed));
  }

  lemma {:induction false} SplitKeepsLevelsDistinct(p: Progress, failed: seq<IssueResult>)
    requires LevelsDistinct(p.dag.levels)
    ensures LevelsDistinct(SplitAll(p, failed).dag.levels)
  {
    if failed != [] {
      var k := |failed| - 1;
      SplitKeepsLevelsDistinct(p, failed[..k]);
      ApplyKeepsLevelsDistinct(SplitAll(p, failed[..k]).dag, SplitDecision(failed[k]));
    }
  }

  lemma ReplanKeepsLevelsDistinct(cfg: Config, s: State, failures: seq<IssueResult>, d: Decision)
    requires LevelsDistinct(s.levels)
    ensures LevelsDistinct(ReplanGate(cfg, s, failures, d).dag.levels)
  {
    ApplyKeepsLevelsDistinct(s, d);
    hide Apply, LevelsDistinct;
  }

  lemma BarrierKeepsLevels(cfg: Config, r: Run, input: PassInput)
    requires !Halted(r)
    ensures AtBarrier(cfg, r, input).levels == r.dag.levels
    ensures BeforeSplits(cfg, r, input).levels == r.dag.levels
  {
  }

  lemma StepKeepsLevelsDistinct(cfg: Config, r: Run, input: PassInput)
    requires LevelsDistinct(r.dag.levels)
    ensures LevelsDistinct(Next(cfg, r, input).dag.levels)
  {
    hide Apply, LevelsDistinct, SplitAll, ReplanGate, AtBarrier, LevelOutcome, MergeGate, DebtGate;
    if !Halted(r) && Active(r) != [] {
      BarrierKeepsLevels(cfg, r, input);
      SplitKeepsLevelsDistinct(Progress(BeforeSplits(cfg, r, input), r.lookup, false),
                               LevelOutcome(cfg, r, input).failed);
      ReplanKeepsLevelsDistinct(cfg, AfterSplits(cfg, r, input).dag, ToReplan(LevelOutcome(cfg, r, input).failed),
                                input.decision);
    }
  }

  lemma {:induction false} RunKeepsLevelsDistinct(cfg: Config, start: Run, world: World, k: nat)
    requires LevelsDistinct(start.dag.levels)
    ensures LevelsDistinct(StateAt(cfg, start, world, k).dag.levels)
  {
    hide Next, LevelsDistinct;
    if k > 0 {
      RunKeepsLevelsDistinct(cfg, start, world, k - 1);
      StepKeepsLevelsDistinct(cfg, StateAt(cfg, start, world, k - 1), world(k - 1));
    }
  }

  lemma StartedIsDone(cfg: Config, start: Run, world: World, j: nat, n: Name)
    requires FaithfulAt(cfg, start, world, j) && n in Starts(cfg, start, world, j)
    ensures n in Done(StateAt(cfg, start, world, j + 1).dag)
  {
    var r := StateAt(cfg, start, world, j);
    PassGrowsDone(cfg, r, world(j));
    hide Pass, Done, Active;
    assert StateAt(cfg, start, world, j + 1) == Pass(cfg, r, world(j));
    assert n in NameSet(Active(r));
  }

  lemma StartsDistinct(cfg: Config, start: Run, world: World, j: nat)
    requires Named(start.lookup) && LevelsDistinct(start.dag.levels)
    ensures Distinct(Starts(cfg, start, world, j))
  {
    var r := StateAt(cfg, start, world, j);
    RunKeepsNamed(cfg, start, world, j);
    RunKeepsLevelsDistinct(cfg, start, world, j);
    hide StateAt;
    if !Halted(r) {
      ActiveMembers(r.dag.levels[r.dag.level], r.lookup, Done(r.dag));
    }
  }

  /**
   * With the built-in coding loop nobody starts twice: not within one pass, and not
   * in two different passes, across all replans and splits.
   */
  lemma NobodyStartsTwice(cfg: Config, start: Run, world: World, j: nat, k: nat, n: Name)
    requires Named(start.lookup) && LevelsDistinct(start.dag.levels) && FaithfulAt(cfg, start, world, j)
    requires n in Starts(cfg, start, world, j)
    ensures Distinct(Starts(cfg, start, world, j))
    ensures j < k ==> n !in Starts(cfg, start, world, k)
  {
    StartsDistinct(cfg, start, world, j);
    if j < k {
      StartedIsDone(cfg, start, world, j, n);
      DoneNeverStarts(cfg, start, world, j + 1, k, n);
    }
  }

  // --------------------------------------------------------------- containing a failure

  lemma {:induction false} ToReplanMembers(failed: seq<IssueResult>)
    ensures forall f :: f in ToReplan(failed) <==> f in failed && Unrecoverable(f.outcome)
  {
    if failed != [] {
      var k := |failed| - 1;
      ToReplanMembers(failed[..k]);
      assert failed == failed[..k] + [failed[k]];
    }
  }

  lemma AdvanceSkipsDependents(cfg: Config, s: State, failures: seq<IssueResult>, d: Decision, f: IssueResult)
    requires f in failures && ReplanGate(cfg, s, failures, d).Advance?
    ensures Downstream(f.issueName, s.issues) <= ReplanGate(cfg, s, failures, d).dag.skipped
  {
  }

  /**
   * The pass handles an unrecoverable or escalated failure without adopting a replan, and
   * the name depends on the failed issue then, directly or through others.
   */
  ghost predicate HandledWithout(cfg: Config, r: Run, input: PassInput, f: IssueResult, n: Name) {
    && !Halted(r) && Active(r) != [] && !ThresholdHit(cfg, LevelOutcome(cfg, r, input))
    && f in LevelOutcome(cfg, r, input).failed && Unrecoverable(f.outcome)
    && Decide(cfg, r, input).Advance?
    && n in Downstream(f.issueName, AfterSplits(cfg, r, input).dag.issues)
  }

  lemma HandledIsSkipped(cfg: Config, start: Run, world: World, j: nat, f: IssueResult, n: Name)
    requires HandledWithout(cfg, StateAt(cfg, start, world, j), world(j), f, n)
    ensures n in Done(StateAt(cfg, start, world, j + 1).dag)
  {
    var r := StateAt(cfg, start, world, j);
    var failed := LevelOutcome(cfg, r, world(j)).failed;
    ToReplanMembers(failed);
    AdvanceSkipsDependents(cfg, AfterSplits(cfg, r, world(j)).dag, ToReplan(failed), world(j).decision, f);
    assert StateAt(cfg, start, world, j + 1) == Pass(cfg, r, world(j));
  }

  /**
   * Failure containment: nobody who depended on a failure handled without an adopted
   * replan starts in any later pass, whatever later replans and splits list.
   */
  lemma DependentsOfFailureNeverStart(cfg: Config, start: Run, world: World, j: nat, k: nat, f: IssueResult, n: Name)
    requires Named(start.lookup) && j < k
    requires HandledWithout(cfg, StateAt(cfg, start, world, j), world(j), f, n)
    ensures n !in Starts(cfg, start, world, k)
  {
    HandledIsSkipped(cfg, start, world, j, f, n);
    DoneNeverStarts(cfg, start, world, j + 1, k, n);
  }

  /** The names a replan decision asks to skip, if the gate gets as far as trying it. */
  ghost function AskedToSkip(cfg: Config, s: State, failed: seq<IssueResult>, d: Decision): set<Name> {
    var tried := ToReplan(failed) != [] && cfg.enableReplanning && s.replanCount < cfg.maxReplans && Rewrites(d);
    if tried then SetOf(d.skipped) else {}
  }

  lemma AdvanceSkips(cfg: Config, s: State, failed: seq<IssueResult>, d: Decision, n: Name)
    requires ReplanGate(cfg, s, ToReplan(failed), d).Advance?
    ensures n in GateSkips(cfg, s, ToReplan(failed), d) <==>
              || n in AskedToSkip(cfg, s, failed, d)
              || exists f :: f in failed && Unrecoverable(f.outcome) && n in Downstream(f.issueName, s.issues)
  {
    hide Downstream, Apply;
    ToReplanMembers(failed);
  }

  /**
   * Containment is exact: a pass that advances past its failures skips the dependents of
   * the unrecoverable and escalated ones and of no others. A failure with any other
   * outcome, such as one that asked for a split and was turned down, is not contained.
   */
  lemma ContainmentIsExact(cfg: Config, r: Run, input: PassInput, n: Name)
    requires !Halted(r) && Active(r) != [] && !ThresholdHit(cfg, LevelOutcome(cfg, r, input))
    requires Decide(cfg, r, input).Advance?
    ensures var lr, s := LevelOutcome(cfg, r, input), AfterSplits(cfg, r, input).dag;
            n in Pass(cfg, r, input).dag.skipped <==>
              || n in r.dag.skipped || n in ResultNames(lr.skipped)
              || n in AskedToSkip(cfg, s, lr.failed, input.decision)
              || exists f :: f in lr.failed && Unrecoverable(f.outcome) && n in Downstream(f.issueName, s.issues)
  {
    hide Downstream, LevelOutcome, AfterSplits, Apply, Active, Pass, GateSkips, AskedToSkip, ReplanGate, ThresholdHit;
    PassSkips(cfg, r, input);
    AdvanceSkips(cfg, AfterSplits(cfg, r, input).dag, LevelOutcome(cfg, r, input).failed, input.decision, n);
  }

  // ------------------------------------------------------------------------- termination

  ghost function ReplansLeft(cfg: Config, r: Run): nat {
    if cfg.maxReplans > r.dag.replanCount then cfg.maxReplans - r.dag.replanCount else 0
  }

  ghost function LevelsLeft(r: Run): nat {
    if |r.dag.levels| > r.dag.level then |r.dag.levels| - r.dag.level else 0
  }

  /** A split-free pass uses up a replan, or a level at no gain of replans, or ends the run. */
  lemma PassDescends(cfg: Config, r: Run, input: PassInput)
    requires !Halted(r) && SplitFree(cfg, r, input)
    ensures var r' := Pass(cfg, r, input);
            || Halted(r')
            || ReplansLeft(cfg, r') < ReplansLeft(cfg, r)
            || (ReplansLeft(cfg, r') == ReplansLeft(cfg, r) && LevelsLeft(r') < LevelsLeft(r))
  {
    if Active(r) != [] && !ThresholdHit(cfg, LevelOutcome(cfg, r, input)) {
      AdvanceKeepsPlan(cfg, r, input);
      SplitGateKeeps(cfg, r, input);
      ApplyKeeps(AfterSplits(cfg, r, input).dag, input.decision);
      PassKeeps(cfg, r, input);
      assert BeforeSplits(cfg, r, input).replanCount == r.dag.replanCount;
    }
  }

  /** From any pass after which no split is adopted, the run comes to an end. */
  lemma {:induction false} RunEnds(cfg: Config, start: Run, world: World, k: nat) returns (end: nat)
    requires forall j: nat :: j >= k ==> SplitFreeAt(cfg, start, world, j)
    ensures end >= k && Halted(StateAt(cfg, start, world, end))
    decreases ReplansLeft(cfg, StateAt(cfg, start, world, k)), LevelsLeft(StateAt(cfg, start, world, k))
  {
    var r := StateAt(cfg, start, world, k);
    if Halted(r) {
      end := k;
    } else {
      assert SplitFreeAt(cfg, start, world, k);
      PassDescends(cfg, r, world(k));
      assert StateAt(cfg, start, world, k + 1) == Pass(cfg, r, world(k));
      if Halted(Pass(cfg, r, world(k))) {
        end := k + 1;
      } else {
        end := RunEnds(cfg, start, world, k + 1);
      }
    }
  }

  /** Some pass from the k-th on adopts a split. */
  ghost predicate SplitsAgain(cfg: Config, start: Run, world: World, k: nat) {
    exists j: nat :: j >= k && !SplitFreeAt(cfg, start, world, j)
  }

  /** Exactly when a run never ends: splits are adopted again and again. */
  lemma EndlessExactlyIfSplitting(cfg: Config, start: Run, world: World)
    ensures (forall k: nat :: !Halted(StateAt(cfg, start, world, k)))
            <==> (forall k: nat :: SplitsAgain(cfg, start, world, k))
  {
    hide StateAt, SplitFreeAt, Halted;
    if forall k: nat :: !Halted(StateAt(cfg, start, world, k)) {
      forall k: nat
        ensures SplitsAgain(cfg, start, world, k)
      {
        if !SplitsAgain(cfg, start, world, k) {
          var end := RunEnds(cfg, start, world, k);
        }
      }
    } else {
      var k: nat :| Halted(StateAt(cfg, start, world, k));
      HaltedNeverSplits(cfg, start, world, k);
    }
  }

  lemma HaltedNeverSplits(cfg: Config, start: Run, world: World, k: nat)
    requires Halted(StateAt(cfg, start, world, k))
    ensures !SplitsAgain(cfg, start, world, k)
  {
    hide StateAt, Halted;
    forall j: nat | j >= k
      ensures SplitFreeAt(cfg, start, world, j)
    {
      HaltedStays(cfg, start, world, k, j);
    }
  }
}
