/**
 * A run that splits forever although no replans are allowed, and that keeps
 * starting issues whose listed dependency has never been executed.
 */
module EndlessSplits {
  import opened Collections
  import opened Graph
  import opened Levels
  import opened Schemas
  import opened DagSpec
  import opened Replan
  import opened GitFastPath
  import opened RunLoop
  import opened PassFacts
  import opened RunTheorems
  import opened Accounts
  import opened Splits

  const X := Issue("x", [], 1, None)

  function ZName(i: nat): Name {
    seq(i + 1, _ => 'z')
  }

  /** Sub-issue y waits for nobody; sequence numbers are given out as plans are rewritten. */
  function Y(p: nat): Issue {
    Issue("y", [], p, None)
  }

  /** The i-th sub-issue waits for y. */
  function Z(i: nat, q: nat): Issue {
    Issue(ZName(i), ["y"], q, None)
  }

  function AsksForSplit(name: Name, subs: seq<SplitSpec>): IssueResult {
    IssueResult(name, FailedNeedsSplit, "", [], [], subs)
  }

  function Answer(k: nat): IssueResult {
    if k == 0 then AsksForSplit("x", [SplitSpec("y", []), SplitSpec(ZName(1), ["y"])])
    else AsksForSplit(ZName(k), [SplitSpec(ZName(k + 1), ["y"])])
  }

  const NO_MERGE := MergeReply(true, [], [], false, [])

  function Script(k: nat): PassInput {
    PassInput(_ => true, SetupReply(false, []), _ => Returned(Answer(k)), NoFault, _ => false,
              NO_MERGE, NO_MERGE, Decision(Abort, [], [], [], []))
  }

  const CFG := Config(true, false, true, "", true, 0, 0.8)
  const START := State([X], [["x"]], 0, [], [], {}, [], 0, [], [], [], [])

  /** Two issues, one waiting for the other, make two levels. */
  lemma TwoLevels(i: nat, p: nat, q: nat)
    requires i > 0
    ensures Plannable([Y(p), Z(i, q)], {})
    ensures LevelsOf([Y(p), Z(i, q)], {}) == [["y"], [ZName(i)]]
  {
    TwoIssuesPlannable(i, p, q);
    OnlyEdge(i, p, q);
    hide OpenEdges, LevelsOf, Plannable, Layering;
    var todo, z := [Y(p), Z(i, q)], ZName(i);
    AcceptedPlan(todo, {}, "y");
    AcceptedPlan(todo, {}, z);
    LevelsOfLayers(todo, {});
    assert NamesOf(todo) == ["y", z];
    assert |z| > 1;
    TwoLevelLayering(OpenEdges(todo, {}), SetOf(NamesOf(todo)), LevelsOf(todo, {}), "y", z);
  }

  lemma TwoIssuesPlannable(i: nat, p: nat, q: nat)
    requires i > 0
    ensures Plannable([Y(p), Z(i, q)], {})
  {
    var edges, z := OpenEdges([Y(p), Z(i, q)], {}), ZName(i);
    assert |z| > 1;
    assert NamesOf([Y(p), Z(i, q)]) == ["y", z];
    OnlyEdge(i, p, q);
    hide OpenEdges;
    forall w | IsPath(edges, w) && |w| >= 2
      ensures w[0] == "y" && w[|w| - 1] == z
    {
      assert Linked(edges, w, 0) && Linked(edges, w, |w| - 2);
    }
  }

  lemma OnlyEdge(i: nat, p: nat, q: nat)
    requires i > 0
    ensures forall e :: e in OpenEdges([Y(p), Z(i, q)], {}) <==> e == ("y", ZName(i))
  {
    var todo := [Y(p), Z(i, q)];
    assert NamesOf(todo) == ["y", ZName(i)];
    assert |ZName(i)| > 1;
    forall e
      ensures e in OpenEdges(todo, {}) <==> e == ("y", ZName(i))
    {
      InOpenEdges(todo, {}, e);
      assert Z(i, q) in todo && "y" in Z(i, q).dependsOn;
      hide OpenEdges;
    }
  }

  lemma TwoLevelLayering(edges: seq<Edge>, names: set<Name>, levels: seq<seq<Name>>, y: Name, z: Name)
    requires Layering(edges, names, {}, levels) && y != z
    requires forall x :: x in names <==> x == y || x == z
    requires forall e :: e in edges <==> e == (y, z)
    requires Listed(levels, y) && Listed(levels, z)
    ensures levels == [[y], [z]]
  {
    var j :| 0 <= j < |levels| && y in levels[j];
    var k :| 0 <= k < |levels| && z in levels[k];
    FirstLevelHasNoEdges(edges, names, levels, y, j);
    assert j == 0;
    assert k == 1 by {
      EarlierInLayering(edges, names, levels, y, z, k);
      assert DependsOnLevel(edges, levels[k - 1], z);
    }
    assert forall i :: 0 <= i < |levels| ==> levels[i] != [] && levels[i][0] in levels[i] && levels[i][0] in names;
    assert |levels| == 2;
    assert y !in levels[1] && z !in levels[0];
    forall i, x | 0 <= i < 2 && x in levels[i]
      ensures x == if i == 0 then y else z
    {
      assert x in names;
    }
    OnlyMember(levels[0], y);
    OnlyMember(levels[1], z);
  }

  // ---------------------------------------------------------------- what a split leaves

  lemma SplitOfX(s: State) returns (p: nat, q: nat)
    requires s.issues == [X] && Finished(s) == {"x"}
    ensures Candidates(s, SplitDecision(Answer(0))) == [Y(p), Z(1, q)]
    ensures Only(s.issues, Finished(s)) == [X]
  {
    var m := MaxSeq(s.issues);
    p, q := m + 1, m + 2;
    assert NamesOf(s.issues) == ["x"];
    RecordsAreNotUnfinished(s.issues, Finished(s));
    assert SplitDecision(Answer(0)).added == [Y(0), Z(1, 0)];
    AddOntoFront([], m, Y(0));
    assert [] + [Y(p)] == [Y(p)] && [Y(p)] + [Z(1, q)] == [Y(p), Z(1, q)];
    assert [Y(0), Z(1, 0)][..1] == [Y(0)];
    assert NamesOf([Y(p)]) == ["y"];
    assert AddOne([Y(p)], m + 1, Z(1, 0)) == ([Y(p)] + [Z(1, q)], m + 2);
  }

  lemma SplitOfZ(s: State, records: seq<Issue>, i: nat, p: nat, q: nat) returns (q': nat)
    requires i > 0 && s.issues == records + [Y(p), Z(i, q)]
    requires NameSet(records) <= Finished(s) && ZName(i) in Finished(s) && "y" !in Finished(s)
    ensures Candidates(s, SplitDecision(Answer(i))) == [Y(p), Z(i + 1, q')]
    ensures Only(s.issues, Finished(s)) == records + [Z(i, q)]
  {
    var d, finished := SplitDecision(Answer(i)), Finished(s);
    q' := MaxSeq(s.issues) + 1;
    UnfinishedAfter(records, finished, p, Z(i, q));
    assert NamesOf([Y(p)]) == ["y"] && |ZName(i)| > 1 && |ZName(i + 1)| > 1;
    assert s.issues == (records + [Y(p)]) + [Z(i, q)];
    WithoutNothing([Y(p)], SetOf(d.removed) + SetOf(d.skipped));
    assert d.added == [Z(i + 1, 0)];
    AddOntoFront([Y(p)], MaxSeq(s.issues), Z(i + 1, 0));
    assert [Y(p)] + [Z(i + 1, q')] == [Y(p), Z(i + 1, q')];
  }

  lemma UnfinishedAfter(records: seq<Issue>, finished: set<Name>, p: nat, z: Issue)
    requires NameSet(records) <= finished && "y" !in finished && z.name in finished
    ensures Unfinished((records + [Y(p)]) + [z], finished) == [Y(p)]
    ensures Only((records + [Y(p)]) + [z], finished) == records + [z]
  {
    var front := records + [Y(p)];
    RecordsAreNotUnfinished(records, finished);
    assert front[..|front| - 1] == records;
    assert (front + [z])[..|front + [z]| - 1] == front;
    assert Unfinished(front, finished) == Put([], Y(p)) == [Y(p)];
    assert Only(front, finished) == records;
  }

  // -------------------------------------------------------------------------- the run

  ghost predicate HoldsYAndZ(s: State, records: seq<Issue>, p: nat, i: nat, q: nat) {
    s.issues == records + [Y(p), Z(i, q)] && NameSet(records) <= Finished(s)
  }

  /** Pass i finds y passed over in the first level and the i-th sub-issue next in line. */
  ghost predicate Stage(r: Run, i: nat) {
    && i > 0 && r.status == Running
    && r.dag.level == 1 && r.dag.levels == [["y"], [ZName(i)]]
    && r.dag.completed == [] && r.dag.skipped == {}
    && (exists records, p, q :: HoldsYAndZ(r.dag, records, p, i, q))
    && ZName(i) in r.lookup && r.lookup[ZName(i)].name == ZName(i) && r.lookup[ZName(i)].dependsOn == ["y"]
    && "y" !in Finished(r.dag) && forall n :: n in Finished(r.dag) ==> |n| <= i
  }

  /** The pass brings nothing but the answer: it is recorded, put through the split gate, and the run advances. */
  ghost predicate OnlyAnswered(r: Run, k: nat)
    requires !Halted(r)
  {
    var s := BeforeSplits(CFG, r, Script(k));
    && ReachesGates(CFG, r, Script(k))
    && s.issues == r.dag.issues && s.completed == r.dag.completed && s.failed == r.dag.failed + [Answer(k)]
    && s.skipped == {}
    && AfterSplits(CFG, r, Script(k)) == SplitOne(Progress(s, r.lookup, false), Answer(k))
    && Decide(CFG, r, Script(k)) == Advance(AfterSplits(CFG, r, Script(k)).dag)
  }

  /** A level with one task that asks to be split goes straight through to the split gate. */
  lemma SingleSplitPass(r: Run, k: nat, issue: Issue)
    requires !Halted(r) && Active(r) == [issue] && issue.name == Answer(k).issueName && r.dag.skipped == {}
    ensures OnlyAnswered(r, k)
  {
    hide Active, Apply, LevelOutcome, AfterSplits, BeforeSplits, SplitOne, ThresholdHit, ToReplan;
    OneFailedTask(CFG, r, Script(k), issue, Answer(k));
  }

  lemma FailedName(rs: seq<IssueResult>, x: IssueResult)
    ensures ResultNames(rs + [x]) == ResultNames(rs) + {x.issueName}
  {
    ResultNamesAppend(rs, [x]);
    assert ResultNames([x]) == {x.issueName} by {
      assert x in [x];
    }
  }

  lemma AdoptedSplit(s: State, k: nat, records: seq<Issue>, p: nat, q: nat)
    requires s.completed == [] && s.skipped == {}
    requires Candidates(s, SplitDecision(Answer(k))) == [Y(p), Z(k + 1, q)] && Only(s.issues, Finished(s)) == records
    ensures var d := SplitDecision(Answer(k));
            Apply(s, d) == Accepted(Counted(s, d).(issues := records + [Y(p), Z(k + 1, q)],
                                                   levels := [["y"], [ZName(k + 1)]], level := 0))
  {
    hide Candidates, Only, Plannable, LevelsOf, Recompute, ResultNames, Finished;
    var d := SplitDecision(Answer(k));
    TwoLevelsAccepted(k + 1, p, q);
    NoResults();
    assert s.skipped + SetOf(d.skipped) == s.skipped;
  }

  lemma NoResults()
    ensures ResultNames([]) == {}
  {
  }

  lemma TwoLevelsAccepted(i: nat, p: nat, q: nat)
    requires i > 0
    ensures Recompute([Y(p), Z(i, q)], {}) == Layered([["y"], [ZName(i)]])
  {
    TwoLevels(i, p, q);
    hide LevelsOf, Plannable;
  }

  /** After the split gate has adopted the answer's sub-issues, the next stage is reached. */
  lemma StageAfterSplit(r: Run, k: nat, s: State, records: seq<Issue>, p: nat, q: nat)
    requires !Halted(r) && OnlyAnswered(r, k) && s == BeforeSplits(CFG, r, Script(k))
    requires Candidates(s, SplitDecision(Answer(k))) == [Y(p), Z(k + 1, q)]
    requires Only(s.issues, Finished(s)) == records && NameSet(records) <= Finished(s)
    requires r.dag.completed == [] && "y" !in Finished(r.dag) && (forall n :: n in Finished(r.dag) ==> |n| <= k + 1)
    ensures Stage(Pass(CFG, r, Script(k)), k + 1)
  {
    hide BeforeSplits, AfterSplits, LevelOutcome, Candidates, Apply, Decide, Active, Stage, LookupOf, Only;
    hide SplitDecision;
    FailedName(r.dag.failed, Answer(k));
    AdoptedSplit(s, k, records, p, q);
    var d := SplitDecision(Answer(k));
    var s' := Counted(s, d).(issues := records + [Y(p), Z(k + 1, q)], levels := [["y"], [ZName(k + 1)]], level := 0);
    assert WantsSplit(Answer(k));
    assert AfterSplits(CFG, r, Script(k)) == Progress(s', LookupOf(s'.issues), true);
    AdvancesFrom(r, k, s');
    assert Finished(s') == Finished(r.dag) + {Answer(k).issueName};
    hide Pass;
    IsStage(s'.(level := 1), k, records, p, q, Finished(r.dag));
  }

  lemma AdvancesFrom(r: Run, k: nat, s: State)
    requires !Halted(r) && OnlyAnswered(r, k) && s.level == 0
    requires AfterSplits(CFG, r, Script(k)) == Progress(s, LookupOf(s.issues), true)
    ensures Pass(CFG, r, Script(k)) == Run(s.(level := 1), LookupOf(s.issues), Running)
  {
    hide BeforeSplits, AfterSplits, LevelOutcome, Decide, Active, LookupOf, SplitOne;
  }

  lemma IsStage(s: State, k: nat, records: seq<Issue>, p: nat, q: nat, before: set<Name>)
    requires s.level == 1 && s.levels == [["y"], [ZName(k + 1)]] && s.completed == [] && s.skipped == {}
    requires HoldsYAndZ(s, records, p, k + 1, q)
    requires Finished(s) == before + {Answer(k).issueName}
    requires "y" !in before && forall n :: n in before ==> |n| <= k + 1
    ensures Stage(Run(s, LookupOf(s.issues), Running), k + 1)
  {
    LookupOfZ(records, k + 1, p, q);
    hide LookupOf, Finished;
    assert |Answer(k).issueName| <= k + 1 && Answer(k).issueName != "y";
  }

  lemma LookupOfZ(records: seq<Issue>, i: nat, p: nat, q: nat)
    ensures var issues := records + [Y(p), Z(i, q)];
            ZName(i) in LookupOf(issues) && LookupOf(issues)[ZName(i)] == Z(i, q)
  {
    var issues := records + [Y(p), Z(i, q)];
    assert issues[|issues| - 1] == Z(i, q);
  }

  lemma StageHasOneTask(r: Run, i: nat)
    requires Stage(r, i)
    ensures !Halted(r) && ZName(i) in r.lookup && Active(r) == [r.lookup[ZName(i)]]
  {
    assert |ZName(i)| == i + 1;
    assert [ZName(i)][..0] == [];
    assert ActiveAmong([], r.lookup, Done(r.dag)) == [];
    assert [] + [r.lookup[ZName(i)]] == [r.lookup[ZName(i)]];
  }

  lemma AnsweredState(r: Run, k: nat)
    requires !Halted(r) && OnlyAnswered(r, k)
    ensures var s := BeforeSplits(CFG, r, Script(k));
            s.issues == r.dag.issues && Finished(s) == Finished(r.dag) + {Answer(k).issueName}
  {
    hide BeforeSplits, ReachesGates, AfterSplits, Decide;
    FailedName(r.dag.failed, Answer(k));
  }

  lemma NextStage(r: Run, i: nat)
    requires Stage(r, i)
    ensures Stage(Pass(CFG, r, Script(i)), i + 1)
  {
    StageHasOneTask(r, i);
    SingleSplitPass(r, i, r.lookup[ZName(i)]);
    AnsweredState(r, i);
    hide OnlyAnswered, BeforeSplits, Active;
    var s := BeforeSplits(CFG, r, Script(i));
    var records, p, q :| HoldsYAndZ(r.dag, records, p, i, q);
    assert "y" != ZName(i) by {
      assert |ZName(i)| > 1;
    }
    var q' := SplitOfZ(s, records, i, p, q);
    NamesSnoc(records, Z(i, q));
    StageAfterSplit(r, i, s, records + [Z(i, q)], p, q');
  }

  lemma StartIsSound()
    ensures Sound(Begin(START)) && LevelsDistinct(START.levels)
    ensures !Halted(Begin(START)) && Active(Begin(START)) == [X]
  {
    var r := Begin(START);
    assert [X][..0] == [] && ["x"][..0] == [];
    assert LookupOf([]) == map[];
    assert LookupOf([X]) == map["x" := X];
    assert ActiveAmong([], r.lookup, Done(r.dag)) == [];
    NoResults();
  }

  lemma StartIsFaithful()
    ensures !Halted(Begin(START)) && Faithful(CFG, Begin(START), Script(0))
  {
    StartIsSound();
    hide Active, Sound;
  }

  lemma FirstStageFrom(r: Run)
    requires !Halted(r) && Active(r) == [X] && r.dag.issues == [X]
    requires r.dag.completed == [] && r.dag.failed == [] && r.dag.skipped == {}
    ensures Stage(Pass(CFG, r, Script(0)), 1)
  {
    hide Active, LookupOf, BeforeSplits, OnlyAnswered, Stage, Candidates, Only;
    SingleSplitPass(r, 0, X);
    AnsweredState(r, 0);
    NoResults();
    var s := BeforeSplits(CFG, r, Script(0));
    var p, q := SplitOfX(s);
    assert NamesOf([X]) == ["x"];
    StageAfterSplit(r, 0, s, [X], p, q);
  }

  lemma FirstStage()
    ensures !Halted(Begin(START)) && Stage(Pass(CFG, Begin(START), Script(0)), 1)
  {
    StartIsSound();
    hide Sound, Active, LookupOf, Pass, Stage;
    FirstStageFrom(Begin(START));
  }

  lemma {:induction false} StageForever(k: nat)
    requires k > 0
    ensures Stage(StateAt(CFG, Begin(START), Script, k), k)
  {
    hide Stage, Pass;
    FirstStage();
    if k > 1 {
      StageForever(k - 1);
      StageHasOneTask(StateAt(CFG, Begin(START), Script, k - 1), k - 1);
      NextStage(StateAt(CFG, Begin(START), Script, k - 1), k - 1);
    } else {
      assert StateAt(CFG, Begin(START), Script, 0) == Begin(START);
    }
  }

  /**
   * From a sound start with no replans allowed at all and truthful answers, splitting
   * keeps the run going for ever; and every pass after the first starts an issue
   * although its listed dependency has not been executed, skipped or failed.
   */
  lemma SplittingNeverEnds(k: nat)
    ensures Sound(Begin(START)) && LevelsDistinct(START.levels) && CFG.maxReplans == 0
    ensures FaithfulAt(CFG, Begin(START), Script, k)
    ensures !Halted(StateAt(CFG, Begin(START), Script, k))
    ensures k > 0 ==>
              var r := StateAt(CFG, Begin(START), Script, k);
              && Starts(CFG, Begin(START), Script, k) == [ZName(k)]
              && ZName(k) in r.lookup && "y" in r.lookup[ZName(k)].dependsOn
              && Listed(r.dag.levels, "y") && "y" !in Done(r.dag)
  {
    StartIsSound();
    StartIsFaithful();
    hide Sound, LevelsDistinct;
    if k == 0 {
      assert StateAt(CFG, Begin(START), Script, 0) == Begin(START);
    } else {
      StageForever(k);
      StageMeans(StateAt(CFG, Begin(START), Script, k), k);
      hide StateAt, Stage, Active, Faithful;
    }
  }

  lemma StageMeans(r: Run, k: nat)
    requires Stage(r, k)
    ensures !Halted(r) && NamesOf(Active(r)) == [ZName(k)] && Faithful(CFG, r, Script(k))
    ensures ZName(k) in r.lookup && "y" in r.lookup[ZName(k)].dependsOn
    ensures Listed(r.dag.levels, "y") && "y" !in Done(r.dag)
  {
    StageHasOneTask(r, k);
    assert NamesOf([r.lookup[ZName(k)]]) == [ZName(k)];
    assert r.dag.levels[0] == ["y"];
    hide Active;
  }
}
