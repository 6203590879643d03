/**
 * Two runs whose handling of a failure is lost when they are resumed: a failure recorded at
 * the split gate but not replanned yet, and a replanner's decision to abort.
 */
module LostOnResume {
  import opened Collections
  import opened Graph
  import opened Levels
  import opened Schemas
  import opened DagSpec
  import opened Replan
  import opened GitFastPath
  import opened RunLoop
  import opened PassFacts
  import opened RunTheorems
  import opened FreshStarts
  import opened CheckpointGaps
  import opened Recovery
  import D = Departures

  // --------------------------------------------------------------------- a forgotten abort

  lemma StartIsSound()
    ensures Sound(Begin(D.START))
  {
    var levels := D.START.levels;
    D.StartIsPlanned();
    assert NamesOf([D.A, D.B]) == ["a", "b"];
    assert levels[0] == ["a"] && levels[1] == ["b"];
    assert levels[..1] == [["a"]];
    assert Listed(levels[..1], "a");
    SoundIsWellLevelled([D.A, D.B], levels);
    hide Sound;
  }

  function Aborting(): PassInput {
    D.Failing(D.Failed(FailedUnrecoverable), D.ABORT)
  }

  lemma AbortPass()
    ensures var cfg, r, s := D.CFG, Begin(D.START), D.START;
            var after := Counted(s.(failed := [D.Failed(FailedUnrecoverable)]), D.ABORT);
            && !Halted(r) && Active(r) != [] && Faithful(cfg, r, Aborting()) && SplitFree(cfg, r, Aborting())
            && !ThresholdHit(cfg, LevelOutcome(cfg, r, Aborting()))
            && Decide(cfg, r, Aborting()) == Stop(after)
            && Pass(cfg, r, Aborting()) == Run(after, r.lookup, ReplannerAbort)
  {
    hide Active, LookupOf, LevelOutcome, AfterSplits, Decide, ThresholdHit;
    D.StartIsPlanned();
    D.AtReplanGate(FailedUnrecoverable, D.ABORT);
  }

  /**
   * The first issue fails and the replanner aborts; the run starts nobody else. A run
   * resumed from what it has left behind starts the issue that depends on the failed one.
   */
  lemma AbortedRunGoesOn(k: nat, world': World)
    requires k > 0
    ensures Written(D.CFG, Begin(D.START), D.Always(Aborting()), k) != []
    ensures var cfg, start, world := D.CFG, Begin(D.START), D.Always(Aborting());
            var c := Latest(Written(cfg, start, world, k));
            && StateAt(cfg, start, world, k).status == ReplannerAbort && Starts(cfg, start, world, k) == []
            && "a" in ResultNames(c.failed) && "b" in Starts(cfg, Begin(c), world', 1)
  {
    hide Sound, Faithful, Active, LookupOf, LevelOutcome, AfterSplits, Decide, ThresholdHit, Pass, StateAt, SplitFree;
    var cfg, start, world := D.CFG, Begin(D.START), D.Always(Aborting());
    StartIsSound();
    AbortPass();
    AbortIsForgotten(cfg, start, Aborting(), world');
    NothingRunYet(cfg, start, world);
    Step(cfg, start, world, 0);
    HaltedStays(cfg, start, world, 1, k);
    LatestCheckpointMissesOneLevel(cfg, start, world, k);
    D.SingleName(D.Failed(FailedUnrecoverable));
    hide Written, Log, Starts;
    OnlyADone(StateAt(cfg, start, world, 1).dag);
  }

  lemma OnlyADone(s: State)
    requires s.completed == [] && s.failed == [D.Failed(FailedUnrecoverable)] && s.skipped == {}
    ensures Done(s) == {"a"}
  {
    D.SingleName(D.Failed(FailedUnrecoverable));
    FinishedNames(s);
  }

  // ------------------------------------------------------------ a failure lost at the split gate

  const C := Issue("c", [], 3, None)
  const S := Issue("s", [], 4, None)
  const THREE := State([C, D.A, S, D.B], [["c", "a", "s"], ["b"]], 0, [], [], {}, [], 0, [], [], [], [])
  const NO_REPLANS := Config(true, false, true, "", false, 0, 0.8)

  const DONE_C := IssueResult("c", Completed, "", [], [], [])
  const FAILED_A := D.Failed(FailedUnrecoverable)
  /** The split is turned down, for its sub-issue waits for itself. */
  const SPLIT_S := IssueResult("s", FailedNeedsSplit, "", [], [], [SplitSpec("d", ["d"])])

  function Tasks(): PassInput {
    PassInput(_ => true, SetupReply(false, []),
              i => Returned(if i == 0 then DONE_C else if i == 1 then FAILED_A else SPLIT_S),
              NoFault, _ => false, D.NO_MERGE, D.NO_MERGE, D.KEEP)
  }

  lemma LookupSnoc(issues: seq<Issue>, i: Issue)
    ensures LookupOf([]) == map[]
    ensures LookupOf(issues + [i]) == LookupOf(issues)[i.name := i]
  {
    assert (issues + [i])[..|issues|] == issues;
  }

  lemma LookupOfThree()
    ensures LookupOf(THREE.issues) == map["c" := C, "a" := D.A, "s" := S, "b" := D.B]
  {
    hide LookupOf;
    LookupSnoc([], C);
    LookupSnoc([C], D.A);
    LookupSnoc([C, D.A], S);
    LookupSnoc([C, D.A, S], D.B);
    assert [] + [C] == [C] && [C] + [D.A] == [C, D.A] && [C, D.A] + [S] == [C, D.A, S];
    assert [C, D.A, S] + [D.B] == THREE.issues;
  }

  lemma ThreeToStart()
    ensures !Halted(Begin(THREE)) && Active(Begin(THREE)) == [C, D.A, S]
  {
    hide LookupOf, ActiveAmong;
    LookupOfThree();
    var lookup, done := Begin(THREE).lookup, Done(THREE);
    assert ResultNames([]) == {};
    assert done == {};
    ActiveSnoc([], "c", lookup, done);
    ActiveSnoc(["c"], "a", lookup, done);
    ActiveSnoc(["c", "a"], "s", lookup, done);
    assert [] + ["c"] == ["c"] && ["c"] + ["a"] == ["c", "a"] && ["c", "a"] + ["s"] == ["c", "a", "s"];
    assert [] + [C] == [C] && [C] + [D.A] == [C, D.A] && [C, D.A] + [S] == [C, D.A, S];
  }

  lemma ThreeInBucket(x: IssueResult, y: IssueResult, z: IssueResult, b: Bucket)
    ensures InBucket([x, y, z], b)
            == (if BucketOf(x.outcome) == b then [x] else []) + (if BucketOf(y.outcome) == b then [y] else [])
               + (if BucketOf(z.outcome) == b then [z] else [])
  {
    hide InBucket, BucketOf;
    OneInBucket(x, b);
    InBucketSnoc([x], y, b);
    InBucketSnoc([x, y], z, b);
    assert [x] + [y] == [x, y] && [x, y] + [z] == [x, y, z];
  }

  lemma ThreeAnswers()
    requires !Halted(Begin(THREE)) && Active(Begin(THREE)) == [C, D.A, S]
    ensures Results(Handed(NO_REPLANS, Begin(THREE), Tasks()), Tasks().reply) == [DONE_C, FAILED_A, SPLIT_S]
    ensures Faithful(NO_REPLANS, Begin(THREE), Tasks())
  {
    hide Active, LookupOf;
    var rs := Results(Handed(NO_REPLANS, Begin(THREE), Tasks()), Tasks().reply);
    assert |rs| == 3 && rs[0] == DONE_C && rs[1] == FAILED_A && rs[2] == SPLIT_S;
  }

  lemma ThreeResults()
    ensures !Halted(Begin(THREE)) && Active(Begin(THREE)) != [] && Faithful(NO_REPLANS, Begin(THREE), Tasks())
    ensures LevelOutcome(NO_REPLANS, Begin(THREE), Tasks()) == LevelResult([DONE_C], [FAILED_A, SPLIT_S], [])
    ensures !ThresholdHit(NO_REPLANS, LevelOutcome(NO_REPLANS, Begin(THREE), Tasks()))
  {
    hide Active, LookupOf, InBucket, Handed, Results, Faithful;
    ThreeToStart();
    ThreeAnswers();
    ThreeInBucket(DONE_C, FAILED_A, SPLIT_S, Success);
    ThreeInBucket(DONE_C, FAILED_A, SPLIT_S, Failure);
    ThreeInBucket(DONE_C, FAILED_A, SPLIT_S, Skip);
  }

  /** What is on record once the level has run. */
  const RECORDED := THREE.(completed := [DONE_C], failed := [FAILED_A, SPLIT_S])

  lemma ThreeRecorded()
    ensures !Halted(Begin(THREE)) && BeforeSplits(NO_REPLANS, Begin(THREE), Tasks()) == RECORDED
  {
    ThreeResults();
    hide Active, LookupOf, LevelOutcome, Faithful, ThresholdHit;
    assert [DONE_C][..0] == [] && DebtOf([]) == [] && THREE.debt + [] == [] && ResultNames([]) == {};
    assert THREE.completed + [DONE_C] == [DONE_C] && THREE.failed + [FAILED_A, SPLIT_S] == [FAILED_A, SPLIT_S];
  }

  lemma SubIssueIsCandidate(s: State, x: IssueResult, n: Name)
    requires x.splitRequest == [SplitSpec(n, [n])] && n != "" && n !in NameSet(s.issues)
    ensures Issue(n, [n], MaxSeq(s.issues) + 1, None) in Candidates(s, SplitDecision(x))
  {
    var d := SplitDecision(x);
    var kept := Without(Unfinished(s.issues, Finished(s)), SetOf(d.removed) + SetOf(d.skipped));
    UnfinishedNames(s.issues, Finished(s));
    WithoutNames(Unfinished(s.issues, Finished(s)), SetOf(d.removed) + SetOf(d.skipped));
    hide Unfinished, Without, Finished, MaxSeq, NameSet, AddAll;
    assert d.added == [Issue(n, [n], 0, None)];
    AddOntoFront(kept, MaxSeq(s.issues), Issue(n, [n], 0, None));
    assert Issue(n, [n], MaxSeq(s.issues) + 1, None) in kept + [Issue(n, [n], MaxSeq(s.issues) + 1, None)];
  }

  /** A split into one new issue that waits for itself is turned down. */
  lemma SelfDependentSplit(s: State, x: IssueResult, n: Name)
    requires x.splitRequest == [SplitSpec(n, [n])] && n != "" && n !in NameSet(s.issues)
             && n !in ResultNames(s.completed)
    ensures Apply(s, SplitDecision(x)) == Rejected(s)
  {
    hide Candidates, Apply, OpenEdges, LevelsOf, Layering;
    var d, i := SplitDecision(x), Issue(n, [n], MaxSeq(s.issues) + 1, None);
    var todo := Candidates(s, d);
    SubIssueIsCandidate(s, x, n);
    NameListed(todo, n);
    assert n in i.dependsOn;
    InOpenEdges(todo, ResultNames(s.completed), (n, n));
    EdgeReaches(OpenEdges(todo, ResultNames(s.completed)), n, n);
    assert OnCycle(OpenEdges(todo, ResultNames(s.completed)), n);
    hide OnCycle, NamesOf, MaxSeq;
    RewriteOutcome(s, d);
    ApplyKeeps(s, d);
  }

  lemma SplitOfTwo(p: Progress, x: IssueResult, y: IssueResult)
    ensures SplitAll(p, [x, y]) == SplitOne(SplitOne(p, x), y)
  {
    hide SplitOne;
    assert [x, y][..1] == [x] && [x][..0] == [] && SplitAll(p, []) == p;
    assert SplitAll(p, [x]) == SplitOne(p, x);
  }

  lemma ReplanOneOfTwo(x: IssueResult, y: IssueResult)
    requires Unrecoverable(x.outcome) && !Unrecoverable(y.outcome)
    ensures ToReplan([x, y]) == [x]
  {
    assert [x, y][..1] == [x] && [x][..0] == [] && ToReplan([]) == [];
    assert ToReplan([x]) == [x];
  }

  lemma ThreeAtReplanGate()
    ensures !Halted(Begin(THREE))
    ensures AfterSplits(NO_REPLANS, Begin(THREE), Tasks()) == Progress(RECORDED, Begin(THREE).lookup, false)
    ensures AnySplit(NO_REPLANS, LevelOutcome(NO_REPLANS, Begin(THREE), Tasks()))
    ensures ToReplan(LevelOutcome(NO_REPLANS, Begin(THREE), Tasks()).failed) == [FAILED_A]
  {
    hide Active, LookupOf, LevelOutcome, Apply, Faithful, ThresholdHit, SplitDecision, SplitAll, ToReplan;
    hide AtBarrier, MergeGate, DebtGate;
    ThreeResults();
    ThreeRecorded();
    assert NamesOf(THREE.issues) == ["c", "a", "s", "b"];
    D.SingleName(DONE_C);
    SelfDependentSplit(RECORDED, SPLIT_S, "d");
    SplitOfTwo(Progress(RECORDED, Begin(THREE).lookup, false), FAILED_A, SPLIT_S);
    ReplanOneOfTwo(FAILED_A, SPLIT_S);
    assert SPLIT_S in [FAILED_A, SPLIT_S];
  }

  /** Uninterrupted, the run skips whoever depends on the failure. */
  lemma UnbrokenPass()
    ensures !Halted(Begin(THREE))
    ensures "b" in Pass(NO_REPLANS, Begin(THREE), Tasks()).dag.skipped
  {
    hide Active, LookupOf, LevelOutcome, AfterSplits, Faithful, ThresholdHit, ToReplan, Pass;
    ThreeResults();
    ThreeAtReplanGate();
    PassSkips(NO_REPLANS, Begin(THREE), Tasks());
    AfterTheGate(NO_REPLANS, Begin(THREE), Tasks());
    BehindA();
    assert FAILED_A in [FAILED_A];
  }

  lemma BehindA()
    ensures "b" in Downstream("a", RECORDED.issues)
  {
    var issues := RECORDED.issues;
    assert D.B in issues && "a" in D.B.dependsOn;
    InDependencyEdges(issues, ("a", "b"));
    EdgeReaches(DependencyEdges(issues), "a", "b");
    InDownstream("a", issues, "b");
  }

  /** Resumed from the split gate's checkpoint, it finds nobody in the level and everybody in the next. */
  lemma ResumedPass(input: PassInput)
    ensures !Halted(Begin(RECORDED)) && Active(Begin(RECORDED)) == []
    ensures Pass(NO_REPLANS, Begin(RECORDED), input) == Begin(RECORDED).(dag := RECORDED.(level := 1))
  {
    hide LookupOf, Done;
    RecordedDone();
    NobodyActive(RECORDED.levels[0], LookupOf(RECORDED.issues), Done(RECORDED));
    EmptyPass(NO_REPLANS, Begin(RECORDED), input);
  }

  /**
   * One level completes an issue, fails another for good, and turns a split down; with
   * replanning off, the dependent of the failed issue is skipped and never starts. But a
   * run resumed from the split gate's checkpoint starts it, whatever happens to it.
   */
  lemma FailureLostAtSplitGate(k: nat, world': World)
    ensures var start, world := Begin(THREE), _ => Tasks();
            && RECORDED in Written(NO_REPLANS, start, world, 1)
            && "a" in ResultNames(RECORDED.failed) && "a" in D.B.dependsOn
            && "b" !in Starts(NO_REPLANS, start, world, k)
            && Starts(NO_REPLANS, Begin(RECORDED), world', 1) == ["b"]
  {
    hide Active, LookupOf, LevelOutcome, AfterSplits, Faithful, ThresholdHit, Pass, StateAt, Log, Checkpoints, Starts;
    var start: Run, world: World := Begin(THREE), _ => Tasks();
    ThreeResults();
    ThreeAtReplanGate();
    WrittenAtSplitGate(NO_REPLANS, start, Tasks());
    NothingRunYet(NO_REPLANS, start, world);
    Step(NO_REPLANS, start, world, 0);
    assert FAILED_A in RECORDED.failed;
    BNeverStarts(k, world);
    BStarts(world');
  }

  lemma BNeverStarts(k: nat, world: World)
    requires world(0) == Tasks()
    ensures "b" !in Starts(NO_REPLANS, Begin(THREE), world, k)
  {
    hide LookupOf, Pass, StateAt, ActiveAmong, Active;
    NothingRunYet(NO_REPLANS, Begin(THREE), world);
    if k == 0 {
      ThreeToStart();
      assert NamesOf([C, D.A, S]) == ["c", "a", "s"];
    } else {
      UnbrokenPass();
      Step(NO_REPLANS, Begin(THREE), world, 0);
      LookupOfNames(THREE.issues);
      hide Starts;
      DoneNeverStarts(NO_REPLANS, Begin(THREE), world, 1, k, "b");
    }
  }

  lemma BStarts(world: World)
    ensures Starts(NO_REPLANS, Begin(RECORDED), world, 1) == ["b"]
  {
    hide LookupOf, Pass, StateAt, ActiveAmong, Active, Done;
    ResumedPass(world(0));
    NothingRunYet(NO_REPLANS, Begin(RECORDED), world);
    Step(NO_REPLANS, Begin(RECORDED), world, 0);
    var r := StateAt(NO_REPLANS, Begin(RECORDED), world, 1);
    LookupOfThree();
    RecordedDone();
    SameDone(r.dag, RECORDED);
    OneToStart(r, "b");
  }

  lemma RecordedDone()
    ensures Done(RECORDED) == {"c", "a", "s"}
  {
    assert DONE_C in RECORDED.completed && FAILED_A in RECORDED.failed && SPLIT_S in RECORDED.failed;
  }
}
