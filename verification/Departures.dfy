/**
 * Two small runs in which an issue starts although the issue it depends on has failed,
 * and a plan in which a completed issue ends up downstream of a failed one.
 */
module Departures {
  import opened Collections
  import opened Graph
  import opened Levels
  import opened Schemas
  import opened DagSpec
  import opened Replan
  import opened GitFastPath
  import opened RunLoop
  import opened PassFacts
  import opened RunTheorems
  import opened FreshStarts
  import opened Splits

  const A := Issue("a", [], 1, None)
  const B := Issue("b", ["a"], 2, None)
  const CFG := Config(true, false, true, "", true, 1, 0.8)
  const START := State([A, B], [["a"], ["b"]], 0, [], [], {}, [], 0, [], [], [], [])
  const NO_MERGE := MergeReply(true, [], [], false, [])

  /** The only task of a level fails as given, and so the replanner, if asked, decides. */
  function Failing(x: IssueResult, d: Decision): PassInput {
    PassInput(_ => true, SetupReply(false, []), _ => Returned(x), NoFault, _ => false, NO_MERGE, NO_MERGE, d)
  }

  function Always(input: PassInput): World {
    _ => input
  }

  function Failed(outcome: Outcome): IssueResult {
    IssueResult("a", outcome, "", [], [], [])
  }

  const KEEP := Decision(ModifyDag, [], [], [], [])
  const ABORT := Decision(Abort, [], [], [], [])

  lemma StartIsPlanned()
    ensures LookupOf([A, B]) == map["a" := A, "b" := B]
    ensures !Halted(Begin(START)) && Active(Begin(START)) == [A]
    ensures Done(START) == {}
  {
    assert [A, B][..1] == [A] && [A][..0] == [];
    assert LookupOf([]) == map[];
    assert LookupOf([A]) == map["a" := A];
    assert ResultNames([]) == {};
    OneToStart(Begin(START), "a");
  }

  /** The failure reaches the replan gate recorded, and nothing else has changed. */
  lemma AtReplanGate(outcome: Outcome, d: Decision)
    requires BucketOf(outcome) == Failure
    ensures var r, input, s := Begin(START), Failing(Failed(outcome), d), START.(failed := [Failed(outcome)]);
            && !Halted(r) && Active(r) != [] && !ThresholdHit(CFG, LevelOutcome(CFG, r, input))
            && AfterSplits(CFG, r, input) == Progress(s, LookupOf([A, B]), false)
            && Decide(CFG, r, input) == ReplanGate(CFG, s, if Unrecoverable(outcome) then [Failed(outcome)] else [], d)
  {
    StartIsPlanned();
    hide Active, LookupOf, ReplanGate, LevelOutcome, AfterSplits, ToReplan, ThresholdHit;
    OneFailedTask(CFG, Begin(START), Failing(Failed(outcome), d), A, Failed(outcome));
    assert START.failed + [Failed(outcome)] == [Failed(outcome)];
  }

  /** A split request that names nobody is handled by no gate. */
  lemma RefusedSplitPass()
    ensures !Halted(Begin(START))
    ensures Pass(CFG, Begin(START), Failing(Failed(FailedNeedsSplit), KEEP))
            == Run(START.(failed := [Failed(FailedNeedsSplit)], level := 1), LookupOf([A, B]), Running)
  {
    AtReplanGate(FailedNeedsSplit, KEEP);
    hide LevelOutcome, Active, LookupOf, AfterSplits, ThresholdHit, Decide;
  }

  /** So its dependents are not skipped, and the next pass starts them. */
  lemma RefusedSplitIsNotContained()
    ensures var world := Always(Failing(Failed(FailedNeedsSplit), KEEP));
            var r := StateAt(CFG, Begin(START), world, 1);
            && Starts(CFG, Begin(START), world, 1) == ["b"]
            && "b" in r.lookup && "a" in r.lookup["b"].dependsOn && Listed(r.dag.levels, "a")
            && "a" in ResultNames(r.dag.failed)
  {
    var x := Failed(FailedNeedsSplit);
    var world := Always(Failing(x, KEEP));
    StartIsPlanned();
    RefusedSplitPass();
    NothingRunYet(CFG, Begin(START), world);
    Step(CFG, Begin(START), world, 0);
    hide LookupOf, Pass, StateAt, Active;
    var r := StateAt(CFG, Begin(START), world, 1);
    assert r.dag.levels[0] == ["a"] && x in r.dag.failed;
    SingleName(x);
    OneToStart(r, "b");
  }

  // ------------------------------------------------------------ a replan that keeps the rest

  lemma OneIssueIsAcyclic(i: Issue, completed: set<Name>)
    requires i.name !in i.dependsOn
    ensures Acyclic(OpenEdges([i], completed))
  {
    var edges := OpenEdges([i], completed);
    assert NamesOf([i]) == [i.name];
    forall e
      ensures e !in edges
    {
      InOpenEdges([i], completed, e);
    }
    hide OpenEdges;
    forall n
      ensures !OnCycle(edges, n)
    {
      if OnCycle(edges, n) {
        var e := ReachesIsTarget(edges, n, n);
        assert false;
      }
    }
  }

  /** Nobody waits for anybody in a plan of one issue that does not wait for itself. */
  lemma OneIssuePlan(s: State, d: Decision, i: Issue)
    requires Rewrites(d) && Candidates(s, d) == [i] && i.name !in i.dependsOn
    ensures Apply(s, d).Accepted? && Apply(s, d).state.levels == [[i.name]]
    ensures forall n :: Listed(Apply(s, d).state.levels, n) <==> n == i.name
  {
    hide OpenEdges, Candidates, Apply;
    OneIssueIsAcyclic(i, ResultNames(s.completed));
    RewriteOutcome(s, d);
    var levels := Apply(s, d).state.levels;
    assert NamesOf([i]) == [i.name];
    forall n
      ensures Listed(levels, n) <==> n == i.name
    {
      ListedAreCandidates(s, d, n);
      assert n in NameSet([i]) <==> n in NamesOf([i]);
    }
    OneNameLevels(OpenEdges([i], ResultNames(s.completed)), NameSet([i]), levels, i.name);
  }

  lemma OneNameLevels(edges: seq<Edge>, names: set<Name>, levels: seq<seq<Name>>, n: Name)
    requires Layering(edges, names, {}, levels) && forall x :: Listed(levels, x) <==> x == n
    ensures levels == [[n]]
  {
    assert Listed(levels, n);
    forall x | x in levels[0]
      ensures x == n
    {
      assert Listed(levels, x);
    }
    OnlyMember(levels[0], n);
    OneLevelOnly(edges, names, levels);
  }

  /** One finished issue and one that is not. */
  lemma OneLeft(done: Issue, left: Issue, finished: set<Name>)
    requires done.name in finished && left.name !in finished
    ensures Unfinished([done] + [left], finished) == [left]
    ensures Only([done] + [left], finished) == [done]
  {
    assert NamesOf([done]) == [done.name];
    RecordsAreNotUnfinished([done], finished);
    assert ([done] + [left])[..1] == [done];
    assert Put([], left) == [left];
  }

  lemma KeepLeaves(s: State, done: Issue, left: Issue)
    requires s.issues == [done] + [left] && done.name in Finished(s) && left.name !in Finished(s)
    ensures Candidates(s, KEEP) == [left] && Only(s.issues, Finished(s)) == [done]
  {
    OneLeft(done, left, Finished(s));
    WithoutNothing([left], {});
    hide Unfinished, Only, Without, Finished;
    assert SetOf(KEEP.removed) + SetOf(KEEP.skipped) == {};
  }

  lemma OnlyBIsLeft()
    ensures var s := START.(failed := [Failed(FailedUnrecoverable)]);
            Candidates(s, KEEP) == [B] && Only([A, B], Finished(s)) == [A]
  {
    var s := START.(failed := [Failed(FailedUnrecoverable)]);
    SingleName(Failed(FailedUnrecoverable));
    assert Finished(s) == {"a"};
    hide Unfinished, Only, Without, Finished, Candidates;
    assert [A] + [B] == [A, B];
    KeepLeaves(s, A, B);
  }

  /** One finished issue and a new one, which gets the next sequence number if it has none. */
  lemma AddLeaves(s: State, d: Decision, done: Issue, i: Issue) returns (j: Issue)
    requires s.issues == [done] && done.name in Finished(s)
    requires d.added == [i] && d.updated == [] && i.name != ""
    ensures j == if i.seqNo == 0 then i.(seqNo := MaxSeq([done]) + 1) else i
    ensures Candidates(s, d) == [j] && Only(s.issues, Finished(s)) == [done]
  {
    j := if i.seqNo == 0 then i.(seqNo := MaxSeq([done]) + 1) else i;
    assert NamesOf([done]) == [done.name];
    RecordsAreNotUnfinished([done], Finished(s));
    WithoutNothing([], SetOf(d.removed) + SetOf(d.skipped));
    hide Unfinished, Only, Without, Finished;
    assert [i][..0] == [];
    assert AddAll([], MaxSeq([done]), [i]).0 == [] + [j] == [j];
  }

  lemma SingleName(x: IssueResult)
    ensures ResultNames([x]) == {x.issueName} && ResultNames([]) == {}
  {
    assert x in [x];
  }

  /** An unrecoverable failure answered by a replan that keeps the rest of the plan. */
  lemma KeptPlanPass()
    ensures !Halted(Begin(START))
    ensures var s := START.(failed := [Failed(FailedUnrecoverable)]);
            && Apply(s, KEEP).Accepted?
            && Pass(CFG, Begin(START), Failing(Failed(FailedUnrecoverable), KEEP))
               == Run(Apply(s, KEEP).state, LookupOf(Apply(s, KEEP).state.issues), Running)
  {
    var s := START.(failed := [Failed(FailedUnrecoverable)]);
    hide LevelOutcome, Active, LookupOf, Apply, AfterSplits, Candidates, ThresholdHit, Decide, ReplanGate;
    AtReplanGate(FailedUnrecoverable, KEEP);
    OnlyBIsLeft();
    OneIssuePlan(s, KEEP, B);
    GateRestarts(s, Failed(FailedUnrecoverable));
  }

  lemma GateRestarts(s: State, x: IssueResult)
    requires s.replanCount == 0 && Apply(s, KEEP).Accepted?
    ensures ReplanGate(CFG, s, [x], KEEP) == Restart(Apply(s, KEEP).state)
  {
    hide Apply;
  }

  /** The dependent is started by the next pass, for the failed issue is no longer listed. */
  lemma FailedDependencyCountsAsMet()
    ensures var world := Always(Failing(Failed(FailedUnrecoverable), KEEP));
            var r := StateAt(CFG, Begin(START), world, 1);
            && Starts(CFG, Begin(START), world, 1) == ["b"]
            && "b" in r.lookup && "a" in r.lookup["b"].dependsOn && !Listed(r.dag.levels, "a")
            && "a" in ResultNames(r.dag.failed)
  {
    var s := START.(failed := [Failed(FailedUnrecoverable)]);
    var world := Always(Failing(Failed(FailedUnrecoverable), KEEP));
    KeptPlanPass();
    OnlyBIsLeft();
    OneIssuePlan(s, KEEP, B);
    AfterKeptPlan(s);
    NothingRunYet(CFG, Begin(START), world);
    Step(CFG, Begin(START), world, 0);
    hide LookupOf, Pass, Apply, Candidates, StateAt, Active;
    OneToStart(StateAt(CFG, Begin(START), world, 1), "b");
  }

  lemma AfterKeptPlan(s: State)
    requires s == START.(failed := [Failed(FailedUnrecoverable)]) && Apply(s, KEEP).Accepted?
    ensures var s' := Apply(s, KEEP).state;
            && s'.level == 0 && s'.failed == s.failed
            && "b" !in Done(s') && "a" in ResultNames(s'.failed) && !Listed(s'.levels, "a")
            && "b" in LookupOf(s'.issues) && LookupOf(s'.issues)["b"] == B
  {
    OnlyBIsLeft();
    hide Apply, Candidates, Only, LookupOf, Finished, ResultNames;
    OneIssuePlan(s, KEEP, B);
    ApplyKeeps(s, KEEP);
    KeptIssues(s);
    StartIsPlanned();
    SingleName(Failed(FailedUnrecoverable));
    var s' := Apply(s, KEEP).state;
    assert Done(s') == {"a"} by {
      FinishedNames(s');
    }
  }

  lemma KeptIssues(s: State)
    requires Candidates(s, KEEP) == [B] && Only(s.issues, Finished(s)) == [A] && Apply(s, KEEP).Accepted?
    ensures Apply(s, KEEP).state.issues == [A, B] && Apply(s, KEEP).state.skipped == s.skipped
  {
    hide Candidates, Only, Finished, Recompute;
    assert [A] + [B] == [A, B];
  }

  // ---------------------------------------------------- a completed issue behind a failed one

  /** A replan can add an issue that waits for a completed one which names it as a dependency. */
  lemma CompletedIssueBecomesDownstream() returns (s: State, d: Decision)
    ensures "a" in ResultNames(s.completed) && Rewrites(d) && Apply(s, d).Accepted?
    ensures Listed(Apply(s, d).state.levels, "b") && Downstream("b", Apply(s, d).state.issues) == {"a", "b"}
  {
    var a, b := CompletedIssueClosesCycle();
    hide DependencyEdges, OpenEdges, Downstream, Unfinished, Only, Without, Plannable;
    var x := IssueResult("a", Completed, "", [], [], []);
    s := State([a], [["a"]], 1, [x], [], {}, [], 0, [], [], [], []);
    d := Decision(ModifyDag, [], [], [], [b]);
    SingleName(x);
    assert Finished(s) == {"a"};
    var c := AddLeaves(s, d, a, b);
    hide Candidates, Finished;
    OneIssuePlan(s, d, b);
    assert Apply(s, d).state.issues == [a] + [b] == [a, b];
  }

  // ------------------------------------------------------------ a split that ends the run

  const ONE := State([A], [["a"]], 0, [], [], {}, [], 0, [], [], [], [])

  /** The only issue asks to be split into one sub-issue. */
  function IntoY(): IssueResult {
    IssueResult("a", FailedNeedsSplit, "", [], [], [SplitSpec("y", [])])
  }

  lemma SplitIntoYAdopted() returns (y: Issue)
    ensures var s, d := ONE.(failed := [IntoY()]), SplitDecision(IntoY());
            y.name == "y" && Apply(s, d) == Accepted(Counted(s, d).(issues := [A, y], levels := [["y"]], level := 0))
  {
    var s, d := ONE.(failed := [IntoY()]), SplitDecision(IntoY());
    hide Candidates, Recompute, Only, Finished;
    assert Finished(s) == {"a"} by {
      SingleName(IntoY());
      FinishedNames(s);
    }
    y := AddLeaves(s, d, A, Issue("y", [], 0, None));
    OneIssuePlan(s, d, y);
    assert [A] + [y] == [A, y] && s.skipped + SetOf(d.skipped) == s.skipped;
  }

  lemma OneStart()
    ensures !Halted(Begin(ONE)) && Active(Begin(ONE)) == [A]
  {
    assert LookupOf([A]) == map["a" := A] by {
      assert [A][..0] == [] && LookupOf([]) == map[];
    }
    assert ResultNames([]) == {};
    OneToStart(Begin(ONE), "a");
  }

  lemma AtSplitGate()
    requires !Halted(Begin(ONE)) && Active(Begin(ONE)) == [A]
    ensures var r, input, s := Begin(ONE), Failing(IntoY(), KEEP), ONE.(failed := [IntoY()]);
            && !ThresholdHit(CFG, LevelOutcome(CFG, r, input))
            && AfterSplits(CFG, r, input) == SplitOne(Progress(s, r.lookup, false), IntoY())
            && Decide(CFG, r, input) == Advance(AfterSplits(CFG, r, input).dag)
  {
    hide Active, LookupOf, LevelOutcome, AfterSplits, ToReplan, ThresholdHit, Apply, SplitOne;
    OneFailedTask(CFG, Begin(ONE), Failing(IntoY(), KEEP), A, IntoY());
    assert ONE.failed + [IntoY()] == [IntoY()];
  }

  lemma SplitIntoYPass() returns (y: Issue)
    ensures !Halted(Begin(ONE))
    ensures var s, d := ONE.(failed := [IntoY()]), SplitDecision(IntoY());
            var s' := Counted(s, d).(issues := [A, y], levels := [["y"]], level := 1);
            y.name == "y" && Pass(CFG, Begin(ONE), Failing(IntoY(), KEEP)) == Run(s', LookupOf(s'.issues), Running)
  {
    hide Active, LookupOf, LevelOutcome, AfterSplits, ThresholdHit, Apply, SplitDecision, Decide;
    y := SplitIntoYAdopted();
    OneStart();
    AtSplitGate();
  }

  /** The run ends as if it had finished, with the sub-issue listed and never executed. */
  lemma SplitEndsRunUndone(k: nat)
    requires k > 0
    ensures var r := StateAt(CFG, Begin(ONE), Always(Failing(IntoY(), KEEP)), k);
            && Halted(r) && r.status == Running && Listed(r.dag.levels, "y") && "y" !in Done(r.dag)
  {
    var world := Always(Failing(IntoY(), KEEP));
    var y := SplitIntoYPass();
    NothingRunYet(CFG, Begin(ONE), world);
    Step(CFG, Begin(ONE), world, 0);
    hide LookupOf, Pass, StateAt, SplitDecision, Finished;
    var r := StateAt(CFG, Begin(ONE), world, 1);
    HaltedStays(CFG, Begin(ONE), world, 1, k);
    assert r.dag.levels[0] == ["y"];
    SingleName(IntoY());
    FinishedNames(r.dag);
  }

  // --------------------------------------------------------- levels of a plan since replaced

  /**
   * A revised plan run with the levels of the plan it replaces: the issues could be layered,
   * but the run starts one whose listed dependency has not been executed.
   */
  lemma StaleLevelsStartEarly() returns (s: State, a: Issue)
    ensures Plannable(s.issues, {}) && !Halted(Begin(s)) && Active(Begin(s)) == [a]
    ensures "b" in a.dependsOn && Listed(s.levels, "b") && Done(s) == {}
    ensures !Sound(Begin(s))
  {
    a := Issue("a", ["b"], 1, None);
    var b := Issue("b", [], 2, None);
    s := START.(issues := [a, b]);
    assert NamesOf(s.issues) == ["a", "b"];
    forall e | e in OpenEdges(s.issues, {})
      ensures e == ("b", "a")
    {
      InOpenEdges(s.issues, {}, e);
    }
    hide OpenEdges;
    OneEdgeIsAcyclic(OpenEdges(s.issues, {}), "b", "a");
    assert [a, b][..1] == [a] && [a][..0] == [] && LookupOf([]) == map[];
    assert LookupOf([a]) == map["a" := a];
    assert LookupOf(s.issues) == map["a" := a, "b" := b];
    SingleName(Failed(Completed));
    assert s.levels[1] == ["b"] && s.levels[0] == ["a"];
    OneToStart(Begin(s), "a");
    SoundIsWellLevelled(s.issues, s.levels);
    assert DependsOn(s.issues, "a", "b") && Listed(s.levels, "b") && !Listed(s.levels[..0], "b");
    hide Sound;
  }
}
