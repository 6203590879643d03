/** What an adopted split does to a run: exactly when it strands work, and exactly when it ends the run on the spot. */
module Splits {
  import opened Collections
  import opened Graph
  import opened Levels
  import opened Schemas
  import opened DagSpec
  import opened Replan
  import opened RunLoop
  import opened PassFacts
  import opened RunTheorems
  import opened Accounts

  /** Nothing listed that the issue depends on is still to be completed. */
  ghost predicate Free(r: Run, n: Name)
    requires n in r.lookup
  {
    forall d :: d in r.lookup[n].dependsOn && Listed(r.dag.levels, d) ==> d in ResultNames(r.dag.completed)
  }

  lemma SameNameSameIssue(issues: seq<Issue>, a: Issue, b: Issue)
    requires Distinct(NamesOf(issues)) && a in issues && b in issues && a.name == b.name
    ensures a == b
  {
    var i :| 0 <= i < |issues| && issues[i] == a;
    var j :| 0 <= j < |issues| && issues[j] == b;
    assert NamesOf(issues)[i] == NamesOf(issues)[j];
  }

  /** The open dependencies of an adopted rewrite, read off the new state. */
  lemma OpenEdgeInNewState(s: State, d: Decision, dep: Name, n: Name)
    requires Rewrites(d) && Apply(s, d).Accepted? && Listed(Apply(s, d).state.levels, n)
    ensures var r := Begin(Apply(s, d).state);
            && n in r.lookup
            && ((dep, n) in OpenEdges(Candidates(s, d), ResultNames(s.completed))
                <==> dep in r.lookup[n].dependsOn && Listed(r.dag.levels, dep) && dep !in ResultNames(r.dag.completed))
  {
    hide Candidates, Apply, LevelsOf, OpenEdges, LookupOf, Layering;
    var r, todo := Begin(Apply(s, d).state), Candidates(s, d);
    RewriteLooksUpCandidates(s, d, n);
    LookupOfNames(r.dag.issues);
    RewriteOutcome(s, d);
    CandidateNames(s, d);
    InOpenEdges(todo, ResultNames(s.completed), (dep, n));
    assert Listed(r.dag.levels, dep) <==> dep in NameSet(todo);
    if i :| i in todo && i.name == n && dep in i.dependsOn {
      SameNameSameIssue(todo, i, r.lookup[n]);
    }
  }

  /** After an adopted rewrite the first level holds exactly the listed issues that wait for nobody. */
  lemma FirstLevelIsFree(s: State, d: Decision, n: Name)
    requires Rewrites(d) && Apply(s, d).Accepted? && Listed(Apply(s, d).state.levels, n)
    ensures var r := Begin(Apply(s, d).state);
            n in r.lookup && (n in r.dag.levels[0] <==> Free(r, n))
  {
    var r, edges := Begin(Apply(s, d).state), OpenEdges(Candidates(s, d), ResultNames(s.completed));
    RewriteOutcome(s, d);
    hide Candidates, Apply, LevelsOf, OpenEdges, LookupOf, Layering;
    forall dep
      ensures n in r.lookup
      ensures (dep, n) in edges
              <==> dep in r.lookup[n].dependsOn && Listed(r.dag.levels, dep) && dep !in ResultNames(r.dag.completed)
    {
      OpenEdgeInNewState(s, d, dep, n);
    }
    OpenEdgeInNewState(s, d, n, n);
    var k :| 0 <= k < |r.dag.levels| && n in r.dag.levels[k];
    FirstLevelHasNoEdges(edges, NameSet(Candidates(s, d)), r.dag.levels, n, k);
  }

  lemma FirstLevelHasNoEdges(edges: seq<Edge>, names: set<Name>, levels: seq<seq<Name>>, n: Name, k: nat)
    requires Layering(edges, names, {}, levels) && k < |levels| && n in levels[k]
    ensures k == 0 <==> n in levels[0]
    ensures k == 0 <==> forall dep :: (dep, n) !in edges
  {
    if k == 0 {
      forall dep | (dep, n) in edges
        ensures Listed(levels[..0], dep)
      {
        EarlierInLayering(edges, names, levels, dep, n, 0);
      }
    } else {
      assert DependsOnLevel(edges, levels[k - 1], n);
    }
  }

  // ------------------------------------------------------- the plan in front of a split

  /** The state and the failure in front of the last split that the gate adopts. */
  ghost function LastSplit(p: Progress, failed: seq<IssueResult>): (State, IssueResult)
    requires !p.rewritten && SplitAll(p, failed).rewritten
  {
    var k := |failed| - 1;
    var q := SplitAll(p, failed[..k]);
    if WantsSplit(failed[k]) && Apply(q.dag, SplitDecision(failed[k])).Accepted? then (q.dag, failed[k])
    else LastSplit(p, failed[..k])
  }

  /** The plan after a split gate that rewrote it is the result of its last adopted split. */
  lemma {:induction false} LastSplitAdopted(p: Progress, failed: seq<IssueResult>)
    requires !p.rewritten && SplitAll(p, failed).rewritten
    ensures var front := LastSplit(p, failed);
            && front.1 in failed && WantsSplit(front.1)
            && Apply(front.0, SplitDecision(front.1)) == Accepted(SplitAll(p, failed).dag)
    ensures SplitAll(p, failed).lookup == LookupOf(SplitAll(p, failed).dag.issues)
  {
    hide Apply, SplitDecision;
    var k := |failed| - 1;
    var q := SplitAll(p, failed[..k]);
    if !(WantsSplit(failed[k]) && Apply(q.dag, SplitDecision(failed[k])).Accepted?) {
      if WantsSplit(failed[k]) {
        RejectedSplitChangesNothing(q.dag, failed[k]);
      }
      LastSplitAdopted(p, failed[..k]);
    }
  }

  lemma RejectedSplitChangesNothing(s: State, x: IssueResult)
    requires Apply(s, SplitDecision(x)).Rejected?
    ensures Apply(s, SplitDecision(x)).state == s
  {
    ApplyKeeps(s, SplitDecision(x));
  }

  ghost function FrontOf(cfg: Config, r: Run, input: PassInput): (State, IssueResult)
    requires !Halted(r) && AfterSplits(cfg, r, input).rewritten
  {
    LastSplit(Progress(BeforeSplits(cfg, r, input), r.lookup, false), LevelOutcome(cfg, r, input).failed)
  }

  lemma FrontIsAdopted(cfg: Config, r: Run, input: PassInput)
    requires !Halted(r) && AfterSplits(cfg, r, input).rewritten
    ensures var front := FrontOf(cfg, r, input);
            && Apply(front.0, SplitDecision(front.1)) == Accepted(AfterSplits(cfg, r, input).dag)
            && Rewrites(SplitDecision(front.1))
    ensures AfterSplits(cfg, r, input).lookup == LookupOf(AfterSplits(cfg, r, input).dag.issues)
  {
    var p := Progress(BeforeSplits(cfg, r, input), r.lookup, false);
    hide LevelOutcome, BeforeSplits, Apply;
    LastSplitAdopted(p, LevelOutcome(cfg, r, input).failed);
  }

  /** Who is left to execute once a failure is split: the other unfinished issues and the sub-issues. */
  ghost function LeftBySplit(s: State, x: IssueResult): set<Name> {
    (NameSet(s.issues) - Finished(s) - {x.issueName}) + NewNames(SubIssues(x.splitRequest))
  }

  /** Nobody left to execute, and not completed yet, is waited for. */
  ghost predicate WaitsForNobody(s: State, x: IssueResult, i: Issue) {
    forall d :: d in i.dependsOn && d in LeftBySplit(s, x) ==> d in ResultNames(s.completed)
  }

  lemma LeftAreCandidates(s: State, x: IssueResult)
    ensures NameSet(Candidates(s, SplitDecision(x))) == LeftBySplit(s, x)
    ensures Distinct(NamesOf(Candidates(s, SplitDecision(x))))
  {
    CandidateNames(s, SplitDecision(x));
  }

  /** An adopted split puts into its first level exactly those left who wait for nobody. */
  lemma FirstLevelAfterSplit(s: State, x: IssueResult, i: Issue)
    requires Apply(s, SplitDecision(x)).Accepted? && i in Candidates(s, SplitDecision(x))
    ensures var levels := Apply(s, SplitDecision(x)).state.levels;
            Listed(levels, i.name) && levels != [] && (i.name in levels[0] <==> WaitsForNobody(s, x, i))
  {
    var d := SplitDecision(x);
    var r, todo := Begin(Apply(s, d).state), Candidates(s, d);
    RewriteOutcome(s, d);
    LeftAreCandidates(s, x);
    NameListed(todo, i.name);
    hide Apply, Candidates, LevelsOf, OpenEdges, LookupOf, Layering, SplitDecision, LeftBySplit;
    assert i.name in NameSet(todo);
    ListedAreCandidates(s, d, i.name);
    FirstLevelIsFree(s, d, i.name);
    RewriteLooksUpCandidates(s, d, i.name);
    LookupOfNames(r.dag.issues);
    SameNameSameIssue(todo, i, r.lookup[i.name]);
    forall dep
      ensures Listed(r.dag.levels, dep) <==> dep in LeftBySplit(s, x)
    {
      ListedAreCandidates(s, d, dep);
    }
  }

  lemma ListedAreCandidates(s: State, d: Decision, n: Name)
    requires Rewrites(d) && Apply(s, d).Accepted?
    ensures Listed(Apply(s, d).state.levels, n) <==> n in NameSet(Candidates(s, d))
    ensures Apply(s, d).state.completed == s.completed
  {
    RewriteOutcome(s, d);
    CandidateNames(s, d);
    hide Candidates, LevelsOf, Layering;
  }

  lemma AdvanceKeepsLevels(cfg: Config, r: Run, input: PassInput)
    requires ReachesGates(cfg, r, input) && Decide(cfg, r, input).Advance?
    ensures var s, r' := AfterSplits(cfg, r, input).dag, Pass(cfg, r, input);
            && r'.dag.issues == s.issues && r'.dag.levels == s.levels && r'.dag.level == s.level + 1
            && r'.dag.completed == s.completed && Done(s) <= Done(r'.dag)
            && r'.lookup == AfterSplits(cfg, r, input).lookup && r'.status == Running
  {
    var s := AfterSplits(cfg, r, input).dag;
    ApplyKeeps(s, input.decision);
    hide AfterSplits, LevelOutcome, Apply;
  }

  /**
   * A split adopted without a replan in the same pass puts the run past its new first
   * level. Whether that strands anybody can be told in front of the split: the run is
   * sound again exactly when everybody left who waits for nobody is done already or is
   * skipped by the replan gate.
   */
  lemma SplitStrandsFreeIssues(cfg: Config, r: Run, input: PassInput)
    requires ReachesGates(cfg, r, input) && AfterSplits(cfg, r, input).rewritten && Decide(cfg, r, input).Advance?
    ensures var r', s, x := Pass(cfg, r, input), FrontOf(cfg, r, input).0, FrontOf(cfg, r, input).1;
            && r'.dag.level == 1 && r'.dag.levels == AfterSplits(cfg, r, input).dag.levels
            && (Sound(r') <==> forall i :: i in Candidates(s, SplitDecision(x)) && WaitsForNobody(s, x, i) ==>
                                             i.name in Done(s) || i.name in SkippedByGates(cfg, r, input))
  {
    var r', s, x := Pass(cfg, r, input), FrontOf(cfg, r, input).0, FrontOf(cfg, r, input).1;
    FrontIsAdopted(cfg, r, input);
    AfterSplitIsSound(cfg, r, input);
    DoneAfterSplit(cfg, r, input);
    hide Sound, Pass, FrontOf, AfterSplits, SplitDecision, Apply, Decide, Done, ReachesGates, SkippedByGates;
    hide Candidates, WaitsForNobody;
    FirstLevelOfFront(s, x, Done(r'.dag));
  }

  /** Just past its first level an adopted split leaves a sound run exactly if that level is done. */
  lemma AfterSplitIsSound(cfg: Config, r: Run, input: PassInput)
    requires ReachesGates(cfg, r, input) && AfterSplits(cfg, r, input).rewritten && Decide(cfg, r, input).Advance?
    ensures var r' := Pass(cfg, r, input);
            && r'.dag.level == 1 && r'.dag.levels == AfterSplits(cfg, r, input).dag.levels
            && (Sound(r') <==> Cleared(r'.dag.levels, 1, Done(r'.dag)))
  {
    var r', b := Pass(cfg, r, input), Begin(AfterSplits(cfg, r, input).dag);
    SplitGateKeeps(cfg, r, input);
    AdvanceKeepsLevels(cfg, r, input);
    FrontIsAdopted(cfg, r, input);
    hide Pass, AfterSplits, Apply, Decide, Done, LookupOf, ReachesGates, SplitDecision;
    RewriteIsSound(FrontOf(cfg, r, input).0, SplitDecision(FrontOf(cfg, r, input).1));
    assert b.lookup == r'.lookup;
    hide FrontOf;
    LaterDone(b.dag.levels, b.lookup, r'.lookup, 0, Done(b.dag), Done(r'.dag));
  }

  /** Who is done after such a pass: who was done in front of the split, and whom the gates skip. */
  lemma DoneAfterSplit(cfg: Config, r: Run, input: PassInput)
    requires ReachesGates(cfg, r, input) && AfterSplits(cfg, r, input).rewritten && Decide(cfg, r, input).Advance?
    ensures Done(Pass(cfg, r, input).dag) == Done(FrontOf(cfg, r, input).0) + SkippedByGates(cfg, r, input)
  {
    var s, x, s' := FrontOf(cfg, r, input).0, FrontOf(cfg, r, input).1, AfterSplits(cfg, r, input).dag;
    FrontIsAdopted(cfg, r, input);
    ApplyKeeps(s, SplitDecision(x));
    ApplySkips(s, SplitDecision(x));
    PassSkips(cfg, r, input);
    PassKeeps(cfg, r, input);
    SplitGateKeeps(cfg, r, input);
    hide Pass, AfterSplits, Apply, Decide, BeforeSplits, SkippedByGates, FrontOf, LevelOutcome, SplitDecision;
    assert Done(s') == Done(s);
  }

  lemma FirstLevelOfFront(s: State, x: IssueResult, done: set<Name>)
    requires Apply(s, SplitDecision(x)).Accepted? && Rewrites(SplitDecision(x))
    ensures var levels := Apply(s, SplitDecision(x)).state.levels;
            Cleared(levels, 1, done) <==>
              forall i :: i in Candidates(s, SplitDecision(x)) && WaitsForNobody(s, x, i) ==> i.name in done
  {
    var levels, todo := Apply(s, SplitDecision(x)).state.levels, Candidates(s, SplitDecision(x));
    hide Apply, Candidates, WaitsForNobody, SplitDecision;
    forall i | i in todo
      ensures levels != [] && (i.name in levels[0] <==> WaitsForNobody(s, x, i))
    {
      FirstLevelAfterSplit(s, x, i);
    }
    FirstLevelCleared(levels, done);
    forall n | Listed(levels, n)
      ensures exists i :: i in todo && i.name == n
    {
      ListedAreCandidates(s, SplitDecision(x), n);
      NameListed(todo, n);
    }
  }

  lemma FirstLevelCleared(levels: seq<seq<Name>>, done: set<Name>)
    ensures Cleared(levels, 1, done) <==> forall n :: Listed(levels, n) && n in levels[0] ==> n in done
  {
    if levels != [] {
      forall n | n in levels[0]
        ensures Listed(levels, n)
      {
      }
    }
  }

  /**
   * The run ends on the spot, as if it had finished, exactly when everybody left by the
   * split waits for nobody. Whether it had finished is another matter: everybody listed
   * is done exactly if everybody left was done already or is skipped by the replan gate.
   */
  lemma SplitIntoIndependentIssuesEndsRun(cfg: Config, r: Run, input: PassInput)
    requires ReachesGates(cfg, r, input) && AfterSplits(cfg, r, input).rewritten && Decide(cfg, r, input).Advance?
    ensures var r', s, x := Pass(cfg, r, input), FrontOf(cfg, r, input).0, FrontOf(cfg, r, input).1;
            && r'.status == Running
            && (Halted(r') <==> forall i :: i in Candidates(s, SplitDecision(x)) ==> WaitsForNobody(s, x, i))
            && (forall n :: Listed(r'.dag.levels, n) <==> n in LeftBySplit(s, x))
            && ((forall n :: Listed(r'.dag.levels, n) ==> n in Done(r'.dag)) <==>
                  forall n :: n in LeftBySplit(s, x) ==> n in Done(s) || n in SkippedByGates(cfg, r, input))
  {
    var r', s, x := Pass(cfg, r, input), FrontOf(cfg, r, input).0, FrontOf(cfg, r, input).1;
    FrontIsAdopted(cfg, r, input);
    SplitGateKeeps(cfg, r, input);
    AdvanceKeepsLevels(cfg, r, input);
    LeftAreCandidates(s, x);
    DoneAfterSplit(cfg, r, input);
    hide Pass, FrontOf, AfterSplits, SplitDecision, Apply, Decide, ReachesGates, Candidates, WaitsForNobody;
    hide LeftBySplit;
    hide Done, SkippedByGates;
    forall n
      ensures Listed(r'.dag.levels, n) <==> n in LeftBySplit(s, x)
    {
      ListedAreCandidates(s, SplitDecision(x), n);
    }
    AtMostOneLevel(s, x);
  }

  lemma AtMostOneLevel(s: State, x: IssueResult)
    requires Apply(s, SplitDecision(x)).Accepted? && Rewrites(SplitDecision(x))
    ensures |Apply(s, SplitDecision(x)).state.levels| <= 1 <==>
              forall i :: i in Candidates(s, SplitDecision(x)) ==> WaitsForNobody(s, x, i)
  {
    var d := SplitDecision(x);
    var levels, todo := Apply(s, d).state.levels, Candidates(s, d);
    RewriteOutcome(s, d);
    hide Apply, Candidates, WaitsForNobody, SplitDecision, OpenEdges, Layering;
    forall i | i in todo
      ensures Listed(levels, i.name) && levels != [] && (i.name in levels[0] <==> WaitsForNobody(s, x, i))
    {
      FirstLevelAfterSplit(s, x, i);
    }
    if forall i :: i in todo ==> WaitsForNobody(s, x, i) {
      forall n | Listed(levels, n)
        ensures n in levels[0]
      {
        ListedAreCandidates(s, d, n);
        NameListed(todo, n);
      }
      OneLevelOnly(OpenEdges(todo, ResultNames(s.completed)), NameSet(todo), levels);
    }
  }

  lemma OneLevelOnly(edges: seq<Edge>, names: set<Name>, levels: seq<seq<Name>>)
    requires Layering(edges, names, {}, levels)
    requires forall n :: Listed(levels, n) ==> n in levels[0]
    ensures |levels| <= 1
  {
    hide Layering;
    if |levels| > 1 {
      var n := SomebodyAt(edges, names, levels, 1);
      InOneLevel(edges, names, levels, 0, 1, n);
    }
  }

  lemma SomebodyAt(edges: seq<Edge>, names: set<Name>, levels: seq<seq<Name>>, k: nat) returns (n: Name)
    requires Layering(edges, names, {}, levels) && k < |levels|
    ensures n in levels[k] && Listed(levels, n)
  {
    n := levels[k][0];
  }

  lemma InOneLevel(edges: seq<Edge>, names: set<Name>, levels: seq<seq<Name>>, j: nat, k: nat, n: Name)
    requires Layering(edges, names, {}, levels) && j < |levels| && k < |levels|
    requires n in levels[j] && n in levels[k]
    ensures j == k
  {
  }
}
