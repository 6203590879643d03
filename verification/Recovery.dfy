/** Crash and resume: what every checkpoint of a run is good for, and what it can miss. */
module Recovery {
  import opened Collections
  import opened Graph
  import opened Schemas
  import opened Replan
  import opened GitFastPath
  import opened RunLoop
  import opened PassFacts
  import opened RunTheorems
  import opened Accounts
  import opened CheckpointGaps

  /** A stored state is sound to resume from if some lookup of the same plan made it sound. */
  lemma ResumeIsSound(s: State, lookup: map<Name, Issue>)
    requires Agree(lookup, LookupOf(s.issues))
    requires Known(s.levels, lookup) && Ordered(s.levels, lookup, Done(s)) && Cleared(s.levels, s.level, Done(s))
    ensures Sound(Begin(s))
  {
    LookupOfNames(s.issues);
    LaterDone(s.levels, lookup, LookupOf(s.issues), s.level, Done(s), Done(s));
  }

  lemma ResumeOfSound(r: Run)
    requires Sound(r)
    ensures Sound(Begin(r.dag))
  {
    ResumeIsSound(r.dag, r.lookup);
  }

  lemma LaunchIsSound(cfg: Config, r: Run, input: PassInput, inFlight: seq<Name>)
    requires Sound(r) && !Halted(r)
    ensures Sound(Begin(Launched(cfg, r, input).(inFlight := inFlight)))
  {
    LaunchKeepsAgreement(cfg, r, input);
    var s := Launched(cfg, r, input).(inFlight := inFlight);
    assert Done(s) == Done(r.dag);
    ResumeIsSound(s, r.lookup);
  }

  lemma DoneAtSplitGate(cfg: Config, r: Run, input: PassInput)
    requires !Halted(r)
    ensures Done(r.dag) <= Done(AfterSplits(cfg, r, input).dag)
    ensures Faithful(cfg, r, input) ==> NameSet(Active(r)) <= Done(AfterSplits(cfg, r, input).dag)
  {
    SplitGateKeeps(cfg, r, input);
    DoneAfterRecord(Launched(cfg, r, input).(inFlight := []), Results(Handed(cfg, r, input), input.reply));
    if Faithful(cfg, r, input) {
      FaithfulResultNames(cfg, r, input);
    }
    hide Faithful, AfterSplits, Results, Handed, Active;
    assert Done(r.dag) <= Done(BeforeSplits(cfg, r, input)) <= Done(AfterSplits(cfg, r, input).dag);
  }

  lemma SplitGateCheckpointIsSound(cfg: Config, r: Run, input: PassInput)
    requires Sound(r) && !Halted(r) && SplitFree(cfg, r, input)
    ensures Sound(Begin(AfterSplits(cfg, r, input).dag))
  {
    var s := AfterSplits(cfg, r, input).dag;
    AdvanceKeepsPlan(cfg, r, input);
    LaunchKeepsAgreement(cfg, r, input);
    DoneAtSplitGate(cfg, r, input);
    hide AfterSplits, Launched, Done;
    LaterDone(r.dag.levels, r.lookup, r.lookup, r.dag.level, Done(r.dag), Done(s));
    ResumeIsSound(s, r.lookup);
  }

  lemma CheckpointIsSound(cfg: Config, r: Run, input: PassInput, c: State)
    requires Sound(r) && !Halted(r) && Faithful(cfg, r, input) && SplitFree(cfg, r, input)
    requires c in Checkpoints(cfg, r, input)
    ensures Sound(Begin(c))
  {
    hide Sound, LevelOutcome, AfterSplits, Apply, AtBarrier, Active, Faithful, AnySplit, ThresholdHit, SplitFree;
    LaunchIsSound(cfg, r, input, Launched(cfg, r, input).inFlight);
    LaunchIsSound(cfg, r, input, []);
    if ThresholdHit(cfg, LevelOutcome(cfg, r, input)) {
      PassKeepsSound(cfg, r, input);
      ResumeOfSound(Pass(cfg, r, input));
    } else {
      SplitGateCheckpointIsSound(cfg, r, input);
      RestartIsSound(cfg, r, input);
    }
  }

  lemma RestartIsSound(cfg: Config, r: Run, input: PassInput)
    requires Sound(r) && !Halted(r) && SplitFree(cfg, r, input)
    ensures Decide(cfg, r, input).Restart? ==> Sound(Begin(Decide(cfg, r, input).dag))
  {
    AdvanceKeepsPlan(cfg, r, input);
    hide Sound, LevelOutcome, AfterSplits, Apply, AtBarrier;
    if Decide(cfg, r, input).Restart? {
      RewriteIsSound(AfterSplits(cfg, r, input).dag, input.decision);
    }
  }

  lemma {:induction false} LoggedCheckpointIsSound(cfg: Config, start: Run, world: World, k: nat, c: State)
    requires Sound(start) && FaithfulWorld(cfg, start, world, k) && SplitFreeWorld(cfg, start, world, k)
    requires c in Log(cfg, start, world, k)
    ensures Sound(Begin(c))
    decreases k
  {
    hide Sound, Checkpoints, Faithful, SplitFree, Pass;
    if k == 0 {
      ResumeOfSound(start);
    } else if c in Log(cfg, start, world, k - 1) {
      LoggedCheckpointIsSound(cfg, start, world, k - 1, c);
    } else {
      RunIsSound(cfg, start, world, k - 1);
      assert FaithfulAt(cfg, start, world, k - 1) && SplitFreeAt(cfg, start, world, k - 1);
      CheckpointIsSound(cfg, StateAt(cfg, start, world, k - 1), world(k - 1), c);
    }
  }

  /** Every checkpoint of a split-free run, the final one included, is a sound state to start from. */
  lemma EveryCheckpointIsSound(cfg: Config, start: Run, world: World, k: nat, c: State)
    requires Sound(start) && FaithfulWorld(cfg, start, world, k) && SplitFreeWorld(cfg, start, world, k)
    requires c in Written(cfg, start, world, k)
    ensures Sound(Begin(c))
  {
    hide Sound, Log, StateAt;
    if c in Log(cfg, start, world, k) {
      LoggedCheckpointIsSound(cfg, start, world, k, c);
    } else {
      RunIsSound(cfg, start, world, k);
      ResumeOfSound(StateAt(cfg, start, world, k));
    }
  }

  /**
   * Resuming from any checkpoint of a split-free run gives a legal run again, and
   * nobody recorded as done in the checkpoint is ever started by it.
   */
  lemma ResumedRunIsLegal(cfg: Config, start: Run, world: World, k: nat, c: State, world': World, m: nat, n: Name)
    requires Sound(start) && FaithfulWorld(cfg, start, world, k) && SplitFreeWorld(cfg, start, world, k)
    requires c in Written(cfg, start, world, k)
    requires FaithfulWorld(cfg, Begin(c), world', m) && SplitFreeWorld(cfg, Begin(c), world', m)
    ensures Sound(StateAt(cfg, Begin(c), world', m))
    ensures n in Done(c) ==> n !in Starts(cfg, Begin(c), world', m)
  {
    EveryCheckpointIsSound(cfg, start, world, k, c);
    RunIsSound(cfg, Begin(c), world', m);
    if n in Done(c) {
      DoneNeverStarts(cfg, Begin(c), world', 0, m, n);
    }
  }

  // ------------------------------------------------------- what later checkpoints hold for good

  /** A checkpoint written in a pass knows everybody who was done before the pass. */
  lemma CheckpointKnowsEarlier(cfg: Config, r: Run, input: PassInput, c: State)
    requires !Halted(r) && c in Checkpoints(cfg, r, input)
    ensures Done(r.dag) <= Done(c)
  {
    KindsOfCheckpoints(cfg, r, input, c);
    PassGrowsDone(cfg, r, input);
    DoneAtSplitGate(cfg, r, input);
    hide Pass, AfterSplits, LevelOutcome, Checkpoints;
  }

  /** Whatever is written after the first j passes knows everybody who was done by then. */
  lemma {:induction false} LaterCheckpointKnows(cfg: Config, start: Run, world: World, j: nat, k: nat, i: nat)
    requires j <= k && |Log(cfg, start, world, j)| <= i < |Written(cfg, start, world, k)|
    ensures Done(StateAt(cfg, start, world, j).dag) <= Done(Written(cfg, start, world, k)[i])
    decreases k
  {
    hide Pass, Checkpoints, StateAt, Log, IntegrationLog, PassIntegrates, Done, Halted;
    DoneOnlyGrows(cfg, start, world, j, k);
    if i < |Log(cfg, start, world, k)| && j < k {
      Step(cfg, start, world, k - 1);
      DoneOnlyGrows(cfg, start, world, j, k - 1);
      if i < |Log(cfg, start, world, k - 1)| {
        assert Written(cfg, start, world, k)[i] == Written(cfg, start, world, k - 1)[i];
        LaterCheckpointKnows(cfg, start, world, j, k - 1, i);
      } else {
        CheckpointKnowsEarlier(cfg, StateAt(cfg, start, world, k - 1), world(k - 1), Written(cfg, start, world, k)[i]);
      }
    }
  }

  /**
   * Containment outlives a crash: once a failure has been handled without an adopted
   * replan, nobody who depended on it then is started by a run resumed from anything
   * written after that pass.
   */
  lemma ContainedAfterResume(cfg: Config, start: Run, world: World, j: nat, f: IssueResult, n: Name, k: nat, i: nat,
                             world': World, m: nat)
    requires HandledWithout(cfg, StateAt(cfg, start, world, j), world(j), f, n)
    requires j < k && |Log(cfg, start, world, j + 1)| <= i < |Written(cfg, start, world, k)|
    ensures n !in Starts(cfg, Begin(Written(cfg, start, world, k)[i]), world', m)
  {
    var c := Written(cfg, start, world, k)[i];
    hide Written, Log, HandledWithout, Starts;
    HandledIsSkipped(cfg, start, world, j, f, n);
    LaterCheckpointKnows(cfg, start, world, j + 1, k, i);
    LookupOfNames(c.issues);
    NothingRunYet(cfg, Begin(c), world');
    hide StateAt;
    DoneNeverStarts(cfg, Begin(c), world', 0, m, n);
  }

  // ------------------------------------------------------------- accounts across a resume

  /** A pass only adds branches of issues it starts to the merge lists. */
  lemma OnBooksAfterPass(cfg: Config, start: Run, world: World, k: nat, x: string)
    requires Named(start.lookup) && LevelsDistinct(start.dag.levels) && CleanAt(cfg, start, world, k)
    requires var r := StateAt(cfg, start, world, k);
             !Halted(r) && x in OnBooks(Pass(cfg, r, world(k)).dag) && x !in OnBooks(r.dag)
    ensures BranchOfOne(x, NameSet(Active(StateAt(cfg, start, world, k))), cfg.buildId)
  {
    var r := StateAt(cfg, start, world, k);
    hide StateAt, CleanAt, Named, LevelsDistinct, Pass, BranchOf, Active;
    OfferedAtDistinct(cfg, start, world, k);
    var merged, failed := PassMerges(cfg, r, world(k));
    assert x in OfferedAt(cfg, start, world, k) by {
      InOneOf(x, SetOf(merged), SetOf(failed), OfferedAt(cfg, start, world, k));
    }
    var n, i := OfferedAtAreOwn(cfg, start, world, k, x);
    assert n in NamesOf(Active(r));
  }

  lemma InOneOf(x: string, a: set<string>, b: set<string>, both: seq<string>)
    requires a + b == SetOf(both) && (x in a || x in b)
    ensures x in both
  {
  }

  /** A checkpoint has the books of before the pass, or those of after it and knows everybody the level started. */
  lemma CheckpointHasBooks(cfg: Config, r: Run, input: PassInput, c: State)
    requires !Halted(r) && Faithful(cfg, r, input) && c in Checkpoints(cfg, r, input)
    ensures Done(r.dag) <= Done(c)
    ensures SameBooks(c, r.dag) || (SameBooks(c, Pass(cfg, r, input).dag) && NameSet(Active(r)) <= Done(c))
  {
    hide Pass, LevelOutcome, Checkpoints, Faithful, Active, Done, Misses, MissesPass;
    CheckpointDuringPass(cfg, r, input, c);
    CheckpointKnowsEarlier(cfg, r, input, c);
    if !SameRecords(c, r.dag) {
      CheckpointKnowsActive(cfg, r, input, c);
    }
  }

  lemma CopiedBooks(c: State, s: State, buildId: string)
    requires SettledBooks(s, buildId) && SameBooks(c, s) && Done(s) <= Done(c)
    ensures SettledBooks(c, buildId)
  {
    hide BranchOfOne, Done;
    forall x | x in OnBooks(c)
      ensures BranchOfOne(x, Done(c), buildId)
    {
      MoreNames(x, Done(s), Done(c), buildId);
    }
  }

  lemma GrownBooks(c: State, before: State, after: State, started: set<Name>, buildId: string)
    requires SettledBooks(before, buildId) && SettledBooks(after, buildId)
    requires forall x :: x in OnBooks(after) && x !in OnBooks(before) ==> BranchOfOne(x, started, buildId)
    requires SameBooks(c, after) && Done(before) <= Done(c) && started <= Done(c)
    ensures SettledBooks(c, buildId)
  {
    hide BranchOfOne, Done;
    forall x | x in OnBooks(c)
      ensures BranchOfOne(x, Done(c), buildId)
    {
      if x in OnBooks(before) {
        MoreNames(x, Done(before), Done(c), buildId);
      } else {
        MoreNames(x, started, Done(c), buildId);
      }
    }
  }

  /** The books of every checkpoint of a clean run are settled. */
  lemma CheckpointBooks(cfg: Config, start: Run, world: World, k: nat, c: State)
    requires Named(start.lookup) && LevelsDistinct(start.dag.levels) && SettledBooks(start.dag, cfg.buildId)
    requires forall j: nat :: j <= k ==> CleanAt(cfg, start, world, j)
    requires var r := StateAt(cfg, start, world, k); !Halted(r) && c in Checkpoints(cfg, r, world(k))
    ensures SettledBooks(c, cfg.buildId)
  {
    var r, input := StateAt(cfg, start, world, k), world(k);
    hide StateAt, CleanAt, Named, LevelsDistinct, Pass, Active, Checkpoints, Done, BranchOfOne, SettledBooks, OnBooks;
    hide SameBooks, Faithful;
    CleanIsFaithful(cfg, start, world, k);
    CheckpointHasBooks(cfg, r, input, c);
    BooksStaySettled(cfg, start, world, k);
    if SameBooks(c, r.dag) {
      CopiedBooks(c, r.dag, cfg.buildId);
    } else {
      Step(cfg, start, world, k);
      BooksStaySettled(cfg, start, world, k + 1);
      forall x | x in OnBooks(Pass(cfg, r, input).dag) && x !in OnBooks(r.dag)
        ensures BranchOfOne(x, NameSet(Active(r)), cfg.buildId)
      {
        OnBooksAfterPass(cfg, start, world, k, x);
      }
      GrownBooks(c, r.dag, Pass(cfg, r, input).dag, NameSet(Active(r)), cfg.buildId);
    }
  }

  lemma MoreNames(x: string, names: set<Name>, more: set<Name>, buildId: string)
    requires BranchOfOne(x, names, buildId) && names <= more
    ensures BranchOfOne(x, more, buildId)
  {
  }

  /** A checkpoint that has any of a level's results knows everybody the level started. */
  lemma CheckpointKnowsActive(cfg: Config, r: Run, input: PassInput, c: State)
    requires !Halted(r) && Faithful(cfg, r, input) && c in Checkpoints(cfg, r, input) && !SameRecords(c, r.dag)
    ensures NameSet(Active(r)) <= Done(c)
  {
    hide Pass, AfterSplits, LevelOutcome, Checkpoints, Faithful, Active, Done;
    KindsOfCheckpoints(cfg, r, input, c);
    PassGrowsDone(cfg, r, input);
    DoneAtSplitGate(cfg, r, input);
    if SameRecords(c, Pass(cfg, r, input).dag) {
      SameDone(c, Pass(cfg, r, input).dag);
    }
  }

  lemma CheckpointLevels(cfg: Config, start: Run, world: World, k: nat, c: State)
    requires LevelsDistinct(start.dag.levels)
    requires var r := StateAt(cfg, start, world, k); !Halted(r) && c in Checkpoints(cfg, r, world(k))
    ensures LevelsDistinct(c.levels)
  {
    var r, input := StateAt(cfg, start, world, k), world(k);
    hide StateAt, LevelsDistinct, LevelOutcome, SplitAll, ReplanGate, MergeGate, DebtGate, AnySplit, ThresholdHit;
    hide Active;
    RunKeepsLevelsDistinct(cfg, start, world, k);
    BarrierKeepsLevels(cfg, r, input);
    SplitKeepsLevelsDistinct(Progress(BeforeSplits(cfg, r, input), r.lookup, false),
                             LevelOutcome(cfg, r, input).failed);
    ReplanKeepsLevelsDistinct(cfg, AfterSplits(cfg, r, input).dag, ToReplan(LevelOutcome(cfg, r, input).failed),
                              input.decision);
    hide AtBarrier, BeforeSplits;
  }

  lemma {:induction false} WrittenBooks(cfg: Config, start: Run, world: World, k: nat, c: State)
    requires Named(start.lookup) && LevelsDistinct(start.dag.levels) && SettledBooks(start.dag, cfg.buildId)
    requires forall j: nat :: j < k ==> CleanAt(cfg, start, world, j)
    requires c in Log(cfg, start, world, k)
    ensures SettledBooks(c, cfg.buildId) && LevelsDistinct(c.levels)
    decreases k
  {
    hide StateAt, CleanAt, Named, LevelsDistinct, Checkpoints, SettledBooks, Log, Pass, Halted;
    NothingRunYet(cfg, start, world);
    if k > 0 {
      Step(cfg, start, world, k - 1);
      if c in Log(cfg, start, world, k - 1) {
        WrittenBooks(cfg, start, world, k - 1, c);
      } else {
        CheckpointBooks(cfg, start, world, k - 1, c);
        CheckpointLevels(cfg, start, world, k - 1, c);
      }
    }
  }

  /**
   * Accounting survives a crash: a clean run resumed from any checkpoint of a clean run has
   * each branch that the checkpoint lists or that it offers itself on exactly one of its
   * lists, and nothing else.
   */
  lemma ResumedMergesAreAccountedFor(cfg: Config, start: Run, world: World, k: nat, c: State, world': World, m: nat)
    requires Named(start.lookup) && LevelsDistinct(start.dag.levels) && SettledBooks(start.dag, cfg.buildId)
    requires forall j: nat :: j < k ==> CleanAt(cfg, start, world, j)
    requires c in Written(cfg, start, world, k)
    requires forall j: nat :: j < m ==> CleanAt(cfg, Begin(c), world', j)
    ensures var s := StateAt(cfg, Begin(c), world', m).dag;
            Accounted(s.merged, s.unmerged, OnBooks(c) + AllOffered(cfg, Begin(c), world', m))
  {
    hide StateAt, CleanAt, Named, LevelsDistinct, SettledBooks, Log, Accounted, AllOffered, OnBooks, LookupOf;
    if c in Log(cfg, start, world, k) {
      WrittenBooks(cfg, start, world, k, c);
    } else {
      BooksStaySettled(cfg, start, world, k);
      RunKeepsLevelsDistinct(cfg, start, world, k);
    }
    LookupOfNames(c.issues);
    MergesAreAccountedFor(cfg, Begin(c), world', m);
  }

  // ---------------------------------------------------------------- what a resume forgets

  /**
   * The checkpoint at the level barrier is written before the results are recorded:
   * resuming from it starts exactly the same names again.
   */
  lemma BarrierCheckpointRepeatsLevel(cfg: Config, r: Run, input: PassInput)
    requires Sound(r) && !Halted(r) && Active(r) != []
    ensures |Checkpoints(cfg, r, input)| >= 2
    ensures var c := Checkpoints(cfg, r, input)[1];
            && c.inFlight == [] && !Halted(Begin(c))
            && NamesOf(Active(Begin(c))) == NamesOf(Active(r))
  {
    var c := Launched(cfg, r, input).(inFlight := []);
    LaunchKeepsAgreement(cfg, r, input);
    LookupOfNames(c.issues);
    assert Done(c) == Done(r.dag);
    hide Sound, Launched;
    SameActive(r.dag.levels[r.dag.level], r.lookup, LookupOf(c.issues), Done(c));
  }

  /**
   * What the crashed pass had merged is on the integration branch but not in the barrier
   * checkpoint. Repeating the level puts such a branch on the merged list exactly if the
   * repeated merge reports it as merged again.
   */
  lemma MergedBeforeCrash(cfg: Config, r: Run, input: PassInput, input': PassInput, x: string)
    requires Sound(r) && !Halted(r) && Active(r) != []
    requires x in PassIntegrates(cfg, r, input) && x !in r.dag.merged
    ensures |Checkpoints(cfg, r, input)| >= 2 && !Halted(Begin(Checkpoints(cfg, r, input)[1]))
    ensures var c := Checkpoints(cfg, r, input)[1];
            && c.merged == r.dag.merged && c.unmerged == r.dag.unmerged
            && (x in Pass(cfg, Begin(c), input').dag.merged <==> x in MergeReport(cfg, Begin(c), input').merged)
            && (Offered(cfg, Begin(c), input') == [] ==> x !in Pass(cfg, Begin(c), input').dag.merged)
  {
    hide Sound, Active, Pass, MergeReport, LevelOutcome, PassIntegrates, Launched, AddAllNew;
    BarrierCheckpointRepeatsLevel(cfg, r, input);
    BarrierBooks(cfg, r, input);
    var c := Checkpoints(cfg, r, input)[1];
    hide Checkpoints;
    PassBooks(cfg, Begin(c), input');
    AddAllNewMembers(c.merged, MergeReport(cfg, Begin(c), input').merged);
    InEither(x, c.merged, MergeReport(cfg, Begin(c), input').merged, Pass(cfg, Begin(c), input').dag.merged);
    NothingOffered(cfg, Begin(c), input');
  }

  lemma InEither(x: string, a: seq<string>, b: seq<string>, all: seq<string>)
    requires SetOf(all) == SetOf(a) + SetOf(b)
    ensures x in all <==> x in a || x in b
  {
    assert x in all <==> x in SetOf(all);
  }

  lemma NothingOffered(cfg: Config, r: Run, input: PassInput)
    ensures Offered(cfg, r, input) == [] ==> MergeReport(cfg, r, input).merged == []
  {
    hide Offered, Dispatched;
  }

  lemma BarrierBooks(cfg: Config, r: Run, input: PassInput)
    requires !Halted(r) && Active(r) != []
    ensures |Checkpoints(cfg, r, input)| >= 2
    ensures var c := Checkpoints(cfg, r, input)[1]; c.merged == r.dag.merged && c.unmerged == r.dag.unmerged
  {
    hide LevelOutcome, AfterSplits, Active, ThresholdHit, AtBarrier;
  }

  /** The replan gate passes its failures on without counting a decision or skipping anybody new. */
  ghost predicate NothingToForget(cfg: Config, s: State, failures: seq<IssueResult>, d: Decision) {
    || failures == []
    || (&& GateSkips(cfg, s, failures, d) <= s.skipped
        && (!cfg.enableReplanning || s.replanCount >= cfg.maxReplans || (Rewrites(d) && Apply(s, d).Rejected?)))
  }

  /** So `NothingToForget` is what it takes for the gate to leave the state alone. */
  lemma GateLeavesAlone(cfg: Config, s: State, failures: seq<IssueResult>, d: Decision)
    ensures NothingToForget(cfg, s, failures, d) <==> ReplanGate(cfg, s, failures, d) == Advance(s)
  {
    ReplanSkips(cfg, s, failures, d);
    ApplyKeeps(s, d);
    hide Apply, DependentsOf;
  }

  /**
   * The split gate's checkpoint already holds the level's failures but not what the
   * replan gate does about them: a run resumed from it finds nobody to start in that
   * level and moves on. It misses skips exactly if the gate would have skipped somebody
   * new, and ends up in another state exactly if the gate would have changed anything.
   */
  lemma SplitGateCheckpointForgetsReplan(cfg: Config, r: Run, input: PassInput, input': PassInput)
    requires Sound(r) && !Halted(r) && Faithful(cfg, r, input) && SplitFree(cfg, r, input)
    requires Active(r) != [] && !ThresholdHit(cfg, LevelOutcome(cfg, r, input))
    requires AnySplit(cfg, LevelOutcome(cfg, r, input))
    ensures var c := AfterSplits(cfg, r, input).dag;
            && c in Checkpoints(cfg, r, input) && !Halted(Begin(c)) && Active(Begin(c)) == []
            && Pass(cfg, Begin(c), input') == Begin(c).(dag := c.(level := c.level + 1))
    ensures var c, failures := AfterSplits(cfg, r, input).dag, ToReplan(LevelOutcome(cfg, r, input).failed);
            var resumed, unbroken := Pass(cfg, Begin(c), input').dag, Pass(cfg, r, input).dag;
            && (resumed.skipped == unbroken.skipped <==> GateSkips(cfg, c, failures, input.decision) <= c.skipped)
            && (resumed == unbroken <==> NothingToForget(cfg, c, failures, input.decision))
  {
    var c, failures := AfterSplits(cfg, r, input).dag, ToReplan(LevelOutcome(cfg, r, input).failed);
    hide Sound, AfterSplits, LevelOutcome, Faithful, SplitFree, AnySplit, ThresholdHit, Active, Checkpoints, Pass;
    hide ToReplan;
    WrittenAtSplitGate(cfg, r, input);
    NobodyLeftAtSplitGate(cfg, r, input);
    EmptyPass(cfg, Begin(c), input');
    PassSkips(cfg, r, input);
    AfterTheGate(cfg, r, input);
    GateLeavesAlone(cfg, c, failures, input.decision);
    hide GateSkips, NothingToForget, ReplanGate;
  }

  lemma WrittenAtSplitGate(cfg: Config, r: Run, input: PassInput)
    requires !Halted(r) && Active(r) != []
    requires !ThresholdHit(cfg, LevelOutcome(cfg, r, input)) && AnySplit(cfg, LevelOutcome(cfg, r, input))
    ensures AfterSplits(cfg, r, input).dag in Checkpoints(cfg, r, input)
  {
    hide AfterSplits, LevelOutcome, AnySplit, ThresholdHit, Active, Launched, Decide;
  }

  lemma NobodyLeftAtSplitGate(cfg: Config, r: Run, input: PassInput)
    requires Sound(r) && !Halted(r) && Faithful(cfg, r, input) && SplitFree(cfg, r, input)
    ensures var c := AfterSplits(cfg, r, input).dag; !Halted(Begin(c)) && Active(Begin(c)) == []
  {
    var c := AfterSplits(cfg, r, input).dag;
    AdvanceKeepsPlan(cfg, r, input);
    DoneAtSplitGate(cfg, r, input);
    hide AfterSplits, Done, Faithful, Sound, Decide;
    AllUsedUp(r, Done(c));
    NobodyActive(c.levels[c.level], LookupOf(c.issues), Done(c));
  }

  /** Whom a run starts in a level it has just reached: its names that are not done. */
  lemma StartsWhatIsUndone(s: State)
    requires Sound(Begin(s)) && s.level < |s.levels|
    ensures forall n :: n in NamesOf(Active(Begin(s))) <==> n in s.levels[s.level] && n !in Done(s)
  {
    ActiveMembers(s.levels[s.level], LookupOf(s.issues), Done(s));
    assert forall n :: n in NamesOf(Active(Begin(s))) <==> n in NameSet(Active(Begin(s)));
    hide LookupOf, Done, Active;
  }

  /** A run that finds nobody to start steps over the level, and starts whoever is not done in the next. */
  lemma StepsOver(cfg: Config, c: State, world: World)
    requires Sound(Begin(c)) && !Halted(Begin(c)) && Active(Begin(c)) == []
    ensures Starts(cfg, Begin(c), world, 0) == []
    ensures StateAt(cfg, Begin(c), world, 1) == Begin(c).(dag := c.(level := c.level + 1))
    ensures forall n :: n in Starts(cfg, Begin(c), world, 1) <==>
                          c.level + 1 < |c.levels| && n in c.levels[c.level + 1] && n !in Done(c)
  {
    hide Sound, Active, Pass, Done, LookupOf, StateAt;
    EmptyPass(cfg, Begin(c), world(0));
    EmptyPassKeepsSound(cfg, Begin(c), world(0));
    NothingRunYet(cfg, Begin(c), world);
    Step(cfg, Begin(c), world, 0);
    var next := c.(level := c.level + 1);
    assert Begin(next) == Begin(c).(dag := next);
    SameDone(next, c);
    if next.level < |next.levels| {
      StartsWhatIsUndone(next);
    }
  }

  /**
   * A replanner's abort stops the run and skips nobody; the final checkpoint keeps the
   * decision in its history, where no resume looks, and not the status. Resumed from it a
   * run steps over the aborted level and starts everybody in the next one who is not done.
   */
  lemma AbortIsForgotten(cfg: Config, r: Run, input: PassInput, world': World)
    requires Sound(r) && !Halted(r) && Faithful(cfg, r, input) && SplitFree(cfg, r, input)
    requires Active(r) != [] && !ThresholdHit(cfg, LevelOutcome(cfg, r, input)) && Decide(cfg, r, input).Stop?
    ensures var r' := Pass(cfg, r, input);
            && r'.status == ReplannerAbort
            && r'.dag.skipped == r.dag.skipped + ResultNames(LevelOutcome(cfg, r, input).skipped)
            && !Halted(Begin(r'.dag)) && Starts(cfg, Begin(r'.dag), world', 0) == []
            && StateAt(cfg, Begin(r'.dag), world', 1) == Begin(r'.dag).(dag := r'.dag.(level := r'.dag.level + 1))
    ensures var c := Pass(cfg, r, input).dag;
            forall n :: n in Starts(cfg, Begin(c), world', 1) <==>
                          c.level + 1 < |c.levels| && n in c.levels[c.level + 1] && n !in Done(c)
  {
    hide Sound, LevelOutcome, Faithful, SplitFree, ThresholdHit, Active, Pass, Done, Decide, StateAt, Starts;
    AbortedAtGate(cfg, r, input);
    PassKeepsSound(cfg, r, input);
    ResumeOfSound(Pass(cfg, r, input));
    NobodyLeftAfterAbort(cfg, r, input);
    StepsOver(cfg, Pass(cfg, r, input).dag, world');
  }

  lemma AbortedAtGate(cfg: Config, r: Run, input: PassInput)
    requires !Halted(r) && Active(r) != [] && !ThresholdHit(cfg, LevelOutcome(cfg, r, input))
    requires Decide(cfg, r, input).Stop?
    ensures var r' := Pass(cfg, r, input);
            && r'.status == ReplannerAbort && r'.dag == Decide(cfg, r, input).dag
            && r'.dag.skipped == r.dag.skipped + ResultNames(LevelOutcome(cfg, r, input).skipped)
  {
    PassSkips(cfg, r, input);
    hide AfterSplits, LevelOutcome, Active, ThresholdHit, Apply;
  }

  lemma NobodyLeftAfterAbort(cfg: Config, r: Run, input: PassInput)
    requires Sound(r) && !Halted(r) && Faithful(cfg, r, input) && SplitFree(cfg, r, input)
    requires Active(r) != [] && !ThresholdHit(cfg, LevelOutcome(cfg, r, input)) && Decide(cfg, r, input).Stop?
    ensures var c := Pass(cfg, r, input).dag; !Halted(Begin(c)) && Active(Begin(c)) == []
  {
    var c := Pass(cfg, r, input).dag;
    AdvanceKeepsPlan(cfg, r, input);
    AbortedAtGate(cfg, r, input);
    PassGrowsDone(cfg, r, input);
    hide AfterSplits, Done, Faithful, Sound, Decide, Pass;
    AllUsedUp(r, Done(c));
    NobodyActive(c.levels[c.level], LookupOf(c.issues), Done(c));
  }

  lemma {:induction false} NobodyActive(names: seq<Name>, lookup: map<Name, Issue>, done: set<Name>)
    requires forall n :: n in names ==> n in done
    ensures ActiveAmong(names, lookup, done) == []
  {
    if names != [] {
      NobodyActive(names[..|names| - 1], lookup, done);
    }
  }

  lemma {:induction false} SameActive(names: seq<Name>, a: map<Name, Issue>, b: map<Name, Issue>, done: set<Name>)
    requires Named(a) && Named(b) && Agree(a, b)
    ensures NamesOf(ActiveAmong(names, a, done)) == NamesOf(ActiveAmong(names, b, done))
  {
    if names != [] {
      var k := |names| - 1;
      SameActive(names[..k], a, b, done);
      if names[k] in a && names[k] !in done {
        NamesSnoc(ActiveAmong(names[..k], a, done), a[names[k]]);
        NamesSnoc(ActiveAmong(names[..k], b, done), b[names[k]]);
      }
    }
  }
}
