/** The live plan as a value, and the replan transformer that rewrites it. */
module Replan {
  import opened Collections
  import opened Graph
  import opened Levels
  import opened Schemas
  import opened DagSpec

  /** Everything a checkpoint holds. Skips are a set: the source only ever tests membership. */
  datatype State = State(
    issues: seq<Issue>,
    levels: seq<seq<Name>>,
    level: nat,
    completed: seq<IssueResult>,
    failed: seq<IssueResult>,
    skipped: set<Name>,
    inFlight: seq<Name>,
    replanCount: nat,
    history: seq<Decision>,
    merged: seq<string>,
    unmerged: seq<string>,
    debt: seq<DebtItem>)

  function Finished(s: State): set<Name> {
    ResultNames(s.completed) + ResultNames(s.failed)
  }

  lemma FinishedNames(s: State)
    ensures Finished(s) == ResultNames(s.completed) + ResultNames(s.failed)
  {
  }

  /** Names the run loop never starts again. */
  function Done(s: State): set<Name> {
    Finished(s) + s.skipped
  }

  function NameSet(issues: seq<Issue>): set<Name> {
    SetOf(NamesOf(issues))
  }

  // ------------------------------------------- an insertion-ordered dictionary by name

  function Put(d: seq<Issue>, i: Issue): seq<Issue> {
    if d == [] then [i]
    else if d[0].name == i.name then [i] + d[1..]
    else [d[0]] + Put(d[1..], i)
  }

  function Without(d: seq<Issue>, gone: set<Name>): seq<Issue> {
    if d == [] then [] else
      var k := |d| - 1;
      if d[k].name in gone then Without(d[..k], gone) else Without(d[..k], gone) + [d[k]]
  }

  function Only(d: seq<Issue>, kept: set<Name>): seq<Issue> {
    if d == [] then [] else
      var k := |d| - 1;
      if d[k].name in kept then Only(d[..k], kept) + [d[k]] else Only(d[..k], kept)
  }

  function Get(d: seq<Issue>, n: Name): (r: Option<Issue>)
    ensures r.Some? <==> n in NameSet(d)
    ensures r.Some? ==> r.value in d && r.value.name == n
  {
    if d == [] then None else
      var k := |d| - 1;
      assert NamesOf(d) == NamesOf(d[..k]) + [d[k].name];
      if d[k].name == n then Some(d[k]) else Get(d[..k], n)
  }

  // --------------------------------------------------------------- the working copy

  ghost function Unfinished(issues: seq<Issue>, finished: set<Name>): seq<Issue> {
    if issues == [] then [] else
      var k := |issues| - 1;
      var before := Unfinished(issues[..k], finished);
      if issues[k].name in finished then before else Put(before, issues[k])
  }

  function Revised(i: Issue, u: IssueUpdate): Issue {
    i.(dependsOn := if u.dependsOn.Some? then u.dependsOn.value else i.dependsOn,
       seqNo := if u.seqNo.Some? then u.seqNo.value else i.seqNo)
  }

  function UpdateOne(d: seq<Issue>, u: IssueUpdate): seq<Issue> {
    match Get(d, u.name)
    case Some(i) => Put(d, Revised(i, u))
    case None => d
  }

  ghost function UpdateAll(d: seq<Issue>, us: seq<IssueUpdate>): seq<Issue> {
    if us == [] then d else UpdateOne(UpdateAll(d, us[..|us| - 1]), us[|us| - 1])
  }

  ghost function MaxSeq(issues: seq<Issue>): nat {
    if issues == [] then 0 else
      var k := |issues| - 1;
      var before := MaxSeq(issues[..k]);
      if issues[k].seqNo > before then issues[k].seqNo else before
  }

  /** New issues are appended; empty names and names still in the working copy are ignored. */
  function AddOne(d: seq<Issue>, maxSeq: nat, i: Issue): (seq<Issue>, nat) {
    if i.name == "" || i.name in NameSet(d) then (d, maxSeq)
    else if i.seqNo == 0 then (d + [i.(seqNo := maxSeq + 1)], maxSeq + 1)
    else (d + [i], maxSeq)
  }

  ghost function AddAll(d: seq<Issue>, maxSeq: nat, added: seq<Issue>): (seq<Issue>, nat) {
    if added == [] then (d, maxSeq) else
      var k := |added| - 1;
      var before := AddAll(d, maxSeq, added[..k]);
      AddOne(before.0, before.1, added[k])
  }

  /** The issues still to be executed if the decision is adopted. */
  ghost function Candidates(s: State, d: Decision): seq<Issue> {
    var open := Unfinished(s.issues, Finished(s));
    var kept := Without(open, SetOf(d.removed) + SetOf(d.skipped));
    AddAll(UpdateAll(kept, d.updated), MaxSeq(s.issues), d.added).0
  }

  datatype ReplanResult = Accepted(state: State) | Rejected(state: State)

  ghost function Counted(s: State, d: Decision): State {
    s.(replanCount := s.replanCount + 1, history := s.history + [d])
  }

  ghost function Apply(s: State, d: Decision): ReplanResult {
    if d.action == Abort || d.action == Continue then Accepted(Counted(s, d)) else
      var todo := Candidates(s, d);
      var skipping := s.(skipped := s.skipped + SetOf(d.skipped));
      match Recompute(todo, ResultNames(s.completed))
      case Cycle(_) => Rejected(skipping)
      case Layered(levels) =>
        Accepted(Counted(skipping, d).(issues := Only(s.issues, Finished(s)) + todo, levels := levels, level := 0))
  }

  // ------------------------------------------------------------------- names

  lemma NamesAppend(a: seq<Issue>, b: seq<Issue>)
    ensures NamesOf(a + b) == NamesOf(a) + NamesOf(b)
    ensures NameSet(a + b) == NameSet(a) + NameSet(b)
  {
    assert NamesOf(a + b) == NamesOf(a) + NamesOf(b);
    assert forall n :: n in NamesOf(a) + NamesOf(b) <==> n in NamesOf(a) || n in NamesOf(b);
  }

  lemma NamesCons(i: Issue, d: seq<Issue>)
    ensures NamesOf([i] + d) == [i.name] + NamesOf(d)
    ensures NameSet([i] + d) == {i.name} + NameSet(d)
  {
    assert NamesOf([i] + d) == [i.name] + NamesOf(d);
    assert forall n :: n in [i.name] + NamesOf(d) <==> n == i.name || n in NamesOf(d);
  }

  lemma {:induction false} PutNames(d: seq<Issue>, i: Issue)
    ensures NamesOf(Put(d, i)) == if i.name in NameSet(d) then NamesOf(d) else NamesOf(d) + [i.name]
  {
    if d == [] {
      NamesCons(i, []);
      assert [i] + [] == [i] && NamesOf([]) == [];
    } else {
      hide NamesOf, NameSet;
      assert d == [d[0]] + d[1..];
      NamesCons(d[0], d[1..]);
      NamesCons(i, d[1..]);
      if d[0].name != i.name {
        PutNames(d[1..], i);
        NamesCons(d[0], Put(d[1..], i));
        AppendAssociative([d[0].name], NamesOf(d[1..]), [i.name]);
      }
    }
  }

  lemma NamesSnoc(d: seq<Issue>, i: Issue)
    ensures NamesOf(d + [i]) == NamesOf(d) + [i.name]
    ensures NameSet(d + [i]) == NameSet(d) + {i.name}
    ensures Distinct(NamesOf(d + [i])) <==> Distinct(NamesOf(d)) && i.name !in NameSet(d)
  {
    assert NamesOf(d + [i]) == NamesOf(d) + [i.name];
    var names, all := NamesOf(d), NamesOf(d + [i]);
    if Distinct(names) && i.name !in names {
      DistinctAppend(names, [i.name]);
    }
    if Distinct(all) {
      assert forall x :: 0 <= x < |names| ==> names[x] == all[x];
      assert all[|names|] == i.name;
      assert i.name !in names;
    }
  }

  lemma NamesOfLast(d: seq<Issue>)
    requires d != []
    ensures var k := |d| - 1;
            && NameSet(d) == NameSet(d[..k]) + {d[k].name}
            && (Distinct(NamesOf(d)) <==> Distinct(NamesOf(d[..k])) && d[k].name !in NameSet(d[..k]))
  {
    var k := |d| - 1;
    assert d == d[..k] + [d[k]];
    NamesSnoc(d[..k], d[k]);
  }

  lemma PutKeepsDistinct(d: seq<Issue>, i: Issue)
    ensures NameSet(Put(d, i)) == NameSet(d) + {i.name}
    ensures Distinct(NamesOf(d)) ==> Distinct(NamesOf(Put(d, i)))
  {
    PutNames(d, i);
    if i.name in NameSet(d) {
      assert NamesOf(Put(d, i)) == NamesOf(d);
    } else {
      NamesSnoc(d, i);
      assert NamesOf(Put(d, i)) == NamesOf(d + [i]);
    }
  }

  lemma {:induction false} UnfinishedNames(issues: seq<Issue>, finished: set<Name>)
    ensures Distinct(NamesOf(Unfinished(issues, finished)))
    ensures NameSet(Unfinished(issues, finished)) == NameSet(issues) - finished
  {
    if issues != [] {
      var k := |issues| - 1;
      UnfinishedNames(issues[..k], finished);
      NamesOfLast(issues);
      var before := Unfinished(issues[..k], finished);
      PutKeepsDistinct(before, issues[k]);
    }
  }

  lemma {:induction false} WithoutNames(d: seq<Issue>, gone: set<Name>)
    ensures NameSet(Without(d, gone)) == NameSet(d) - gone
    ensures Distinct(NamesOf(d)) ==> Distinct(NamesOf(Without(d, gone)))
  {
    if d != [] {
      var k := |d| - 1;
      WithoutNames(d[..k], gone);
      NamesOfLast(d);
      NamesSnoc(Without(d[..k], gone), d[k]);
    }
  }

  lemma {:induction false} RecordsAreNotUnfinished(issues: seq<Issue>, finished: set<Name>)
    requires NameSet(issues) <= finished
    ensures Unfinished(issues, finished) == []
    ensures Only(issues, finished) == issues
  {
    if issues != [] {
      var k := |issues| - 1;
      NamesOfLast(issues);
      RecordsAreNotUnfinished(issues[..k], finished);
      assert issues == issues[..k] + [issues[k]];
    }
  }

  lemma WithoutNothing(d: seq<Issue>, gone: set<Name>)
    requires NameSet(d) !! gone
    ensures Without(d, gone) == d
    decreases |d|
  {
    if d != [] {
      var k := |d| - 1;
      NamesOfLast(d);
      WithoutNothing(d[..k], gone);
      assert d == d[..k] + [d[k]];
    }
  }

  lemma {:induction false} OnlyNames(d: seq<Issue>, kept: set<Name>)
    ensures NameSet(Only(d, kept)) == NameSet(d) * kept
    ensures Distinct(NamesOf(d)) ==> Distinct(NamesOf(Only(d, kept)))
  {
    if d != [] {
      var k := |d| - 1;
      OnlyNames(d[..k], kept);
      NamesOfLast(d);
      NamesSnoc(Only(d[..k], kept), d[k]);
    }
  }

  lemma {:induction false} UpdateNames(d: seq<Issue>, us: seq<IssueUpdate>)
    ensures NamesOf(UpdateAll(d, us)) == NamesOf(d)
  {
    if us != [] {
      var k := |us| - 1;
      UpdateNames(d, us[..k]);
      var e := UpdateAll(d, us[..k]);
      match Get(e, us[k].name) {
        case Some(i) => PutNames(e, Revised(i, us[k]));
        case None =>
      }
    }
  }

  function NewNames(added: seq<Issue>): set<Name> {
    set i | i in added && i.name != "" :: i.name
  }

  lemma AddOneNames(d: seq<Issue>, maxSeq: nat, i: Issue)
    ensures NameSet(AddOne(d, maxSeq, i).0) == NameSet(d) + (if i.name == "" then {} else {i.name})
    ensures Distinct(NamesOf(d)) ==> Distinct(NamesOf(AddOne(d, maxSeq, i).0))
  {
    NamesSnoc(d, i);
    NamesSnoc(d, i.(seqNo := maxSeq + 1));
    hide Distinct, NamesOf, NameSet;
  }

  lemma NewNamesSnoc(added: seq<Issue>, i: Issue)
    ensures NewNames(added + [i]) == NewNames(added) + (if i.name == "" then {} else {i.name})
  {
    forall n
      ensures n in NewNames(added + [i]) <==> n in NewNames(added) || (i.name != "" && n == i.name)
    {
      if n in NewNames(added) {
        var x :| x in added && x.name != "" && x.name == n;
        assert x in added + [i];
      }
      assert i in added + [i];
    }
  }

  lemma {:induction false} AddNames(d: seq<Issue>, maxSeq: nat, added: seq<Issue>)
    ensures NameSet(AddAll(d, maxSeq, added).0) == NameSet(d) + NewNames(added)
    ensures Distinct(NamesOf(d)) ==> Distinct(NamesOf(AddAll(d, maxSeq, added).0))
  {
    if added == [] {
      assert NewNames(added) == {};
    } else {
      var k := |added| - 1;
      AddNames(d, maxSeq, added[..k]);
      assert added == added[..k] + [added[k]];
      NewNamesSnoc(added[..k], added[k]);
      var before := AddAll(d, maxSeq, added[..k]);
      AddOneNames(before.0, before.1, added[k]);
      hide AddOne, NewNames, NameSet, NamesOf, Distinct;
    }
  }

  lemma AddOntoFront(front: seq<Issue>, m: nat, i: Issue)
    requires i.name != "" && i.seqNo == 0 && i.name !in NameSet(front)
    ensures AddAll(front, m, [i]) == (front + [i.(seqNo := m + 1)], m + 1)
  {
    assert [i][..0] == [];
    assert AddAll(front, m, []) == (front, m);
  }

  /** Who is left to execute: unfinished, not removed, not skipped, plus every newly named issue. */
  lemma CandidateNames(s: State, d: Decision)
    ensures Distinct(NamesOf(Candidates(s, d)))
    ensures NameSet(Candidates(s, d))
            == (NameSet(s.issues) - Finished(s) - SetOf(d.removed) - SetOf(d.skipped)) + NewNames(d.added)
  {
    var open := Unfinished(s.issues, Finished(s));
    var gone := SetOf(d.removed) + SetOf(d.skipped);
    UnfinishedNames(s.issues, Finished(s));
    WithoutNames(open, gone);
    UpdateNames(Without(open, gone), d.updated);
    AddNames(UpdateAll(Without(open, gone), d.updated), MaxSeq(s.issues), d.added);
  }

  /** The decisions that rewrite the plan. */
  predicate Rewrites(d: Decision) {
    d.action == ModifyDag || d.action == ReduceScope
  }

  /**
   * A rewriting decision is adopted exactly when what is left has no dependency
   * cycle. Adopted, it keeps every record and layers exactly what is left; turned
   * down, it leaves everything but the skips as it was.
   */
  lemma RewriteOutcome(s: State, d: Decision)
    requires Rewrites(d)
    ensures Apply(s, d).Accepted? <==> Acyclic(OpenEdges(Candidates(s, d), ResultNames(s.completed)))
    ensures var s' := Apply(s, d).state;
            && s'.skipped == s.skipped + SetOf(d.skipped)
            && s'.completed == s.completed && s'.failed == s.failed
    ensures Apply(s, d).Rejected? ==> Apply(s, d).state.(skipped := s.skipped) == s
    ensures Apply(s, d).Accepted? ==>
              var s' := Apply(s, d).state;
              && s'.level == 0 && s'.replanCount == s.replanCount + 1 && s'.history == s.history + [d]
              && Layering(OpenEdges(Candidates(s, d), ResultNames(s.completed)), NameSet(Candidates(s, d)), {},
                          s'.levels)
              && (forall n :: Listed(s'.levels, n) <==>
                                || (n in NameSet(s.issues) && n !in Finished(s) && n !in d.removed && n !in d.skipped)
                                || n in NewNames(d.added))
  {
    var todo, done := Candidates(s, d), ResultNames(s.completed);
    CandidateNames(s, d);
    LevelsOfLayers(todo, done);
    if Apply(s, d).Accepted? {
      forall n
        ensures Listed(LevelsOf(todo, done), n) <==> n in NameSet(todo)
      {
        AcceptedPlan(todo, done, n);
      }
    }
  }

  /**
   * An adopted rewrite keeps issue names distinct exactly when no new issue takes
   * the name of a listed issue that has already completed or failed.
   */
  lemma RewriteKeepsNamesDistinct(s: State, d: Decision)
    requires Rewrites(d) && Apply(s, d).Accepted? && Distinct(NamesOf(s.issues))
    ensures Distinct(NamesOf(Apply(s, d).state.issues)) <==> NewNames(d.added) !! (NameSet(s.issues) * Finished(s))
  {
    var records, todo := Only(s.issues, Finished(s)), Candidates(s, d);
    OnlyNames(s.issues, Finished(s));
    CandidateNames(s, d);
    AppendedNamesDistinct(records, todo);
  }

  lemma AppendedNamesDistinct(a: seq<Issue>, b: seq<Issue>)
    requires Distinct(NamesOf(a)) && Distinct(NamesOf(b))
    ensures Distinct(NamesOf(a + b)) <==> NameSet(a) !! NameSet(b)
  {
    NamesAppend(a, b);
    if NameSet(a) !! NameSet(b) {
      assert forall n :: n in NamesOf(b) ==> n in NameSet(b) && n !in NameSet(a);
      DistinctAppend(NamesOf(a), NamesOf(b));
    } else {
      var n :| n in NameSet(a) && n in NameSet(b);
      var i :| 0 <= i < |NamesOf(a)| && NamesOf(a)[i] == n;
      var j :| 0 <= j < |NamesOf(b)| && NamesOf(b)[j] == n;
      assert NamesOf(a + b)[i] == NamesOf(a + b)[|a| + j];
    }
  }

  /** A completed name can indeed be taken again, and is then listed a second time. */
  lemma CompletedNameCanBeReused()
    returns (s: State, d: Decision)
    ensures Rewrites(d) && Distinct(NamesOf(s.issues)) && Apply(s, d).Accepted?
    ensures "a" in ResultNames(s.completed)
    ensures Listed(Apply(s, d).state.levels, "a") && !Distinct(NamesOf(Apply(s, d).state.issues))
  {
    var a := Issue("a", [], 1, None);
    var done := IssueResult("a", Completed, "", [], [], []);
    s := State([a], [["a"]], 1, [done], [], {}, [], 0, [], [], [], []);
    d := Decision(ModifyDag, [], [], [], [a]);
    assert done in s.completed && NamesOf(s.issues) == ["a"];
    assert a in d.added;
    CandidateNames(s, d);
    var edges := OpenEdges(Candidates(s, d), ResultNames(s.completed));
    assert NameSet(s.issues) == {"a"} && Finished(s) == {"a"};
    assert NewNames(d.added) == {"a"};
    forall e
      ensures e !in edges
    {
      InOpenEdges(Candidates(s, d), ResultNames(s.completed), e);
    }
    forall n
      ensures !OnCycle(edges, n)
    {
      if OnCycle(edges, n) {
        var x := ReachesIsTarget(edges, n, n);
        assert false;
      }
    }
    RewriteOutcome(s, d);
    RewriteKeepsNamesDistinct(s, d);
  }
}
