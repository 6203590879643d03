/** What the plan-graph helpers compute, stated on the issue list. */
module DagSpec {
  import opened Collections
  import opened Graph
  import opened Levels
  import opened Schemas

  ghost function EdgesInto(n: Name, deps: seq<Name>): seq<Edge> {
    seq(|deps|, i requires 0 <= i < |deps| => (deps[i], n))
  }

  /** Every dependency that any issue declares, in declaration order. */
  ghost function DependencyEdges(issues: seq<Issue>): seq<Edge> {
    if issues == [] then [] else
      var k := |issues| - 1;
      DependencyEdges(issues[..k]) + EdgesInto(issues[k].name, issues[k].dependsOn)
  }

  /** The edges whose source lies in a scope. */
  ghost function Within(edges: seq<Edge>, scope: set<Name>): seq<Edge> {
    if edges == [] then [] else
      var k := |edges| - 1;
      Within(edges[..k], scope) + (if edges[k].0 in scope then [edges[k]] else [])
  }

  /** The dependencies that still hold an issue back: listed and not completed. */
  ghost function OpenEdges(issues: seq<Issue>, completed: set<Name>): seq<Edge> {
    Within(DependencyEdges(issues), SetOf(NamesOf(issues)) - completed)
  }

  /** Names in order of first appearance, as a Python dict keeps them. */
  ghost function Keys(issues: seq<Issue>): seq<Name> {
    if issues == [] then [] else
      var k := |issues| - 1;
      var before := Keys(issues[..k]);
      if issues[k].name in before then before else before + [issues[k].name]
  }

  /** The members of a key list that wait for nothing outside `done`. */
  ghost function Ready(edges: seq<Edge>, keys: seq<Name>, done: set<Name>): seq<Name> {
    if keys == [] then [] else
      var k := |keys| - 1;
      Ready(edges, keys[..k], done) + (if InCount(edges, keys[k], done) == 0 then [keys[k]] else [])
  }

  ghost function BlockedAmong(edges: seq<Edge>, keys: seq<Name>): seq<Name> {
    if keys == [] then [] else
      var k := |keys| - 1;
      BlockedAmong(edges, keys[..k]) + (if Blocked(edges, keys[k]) then [keys[k]] else [])
  }

  datatype LevelsResult = Layered(levels: seq<seq<Name>>) | Cycle(nodes: seq<Name>)

  ghost function FirstLevel(issues: seq<Issue>, completed: set<Name>): seq<Name> {
    Ready(OpenEdges(issues, completed), Keys(issues), {})
  }

  ghost function LevelsOf(issues: seq<Issue>, completed: set<Name>): seq<seq<Name>> {
    FirstLevelIsFrontier(issues, completed);
    Peel(OpenEdges(issues, completed), SetOf(NamesOf(issues)), {}, FirstLevel(issues, completed))
  }

  /** When a plan is accepted: nobody is listed twice and no open dependency goes round. */
  ghost predicate Plannable(issues: seq<Issue>, completed: set<Name>) {
    Distinct(NamesOf(issues)) && Acyclic(OpenEdges(issues, completed))
  }

  ghost function Recompute(issues: seq<Issue>, completed: set<Name>): LevelsResult {
    if Plannable(issues, completed) then Layered(LevelsOf(issues, completed))
    else Cycle(BlockedAmong(OpenEdges(issues, completed), Keys(issues)))
  }

  /** Everybody who depends on `start`, directly or through others. */
  ghost function Downstream(start: Name, issues: seq<Issue>): set<Name> {
    set n | n in SetOf(NamesOf(issues)) && Reaches(DependencyEdges(issues), start, n)
  }

  // ---------------------------------------------------------------- membership

  lemma {:induction false} InDependencyEdges(issues: seq<Issue>, e: Edge)
    ensures e in DependencyEdges(issues) <==> exists i :: i in issues && i.name == e.1 && e.0 in i.dependsOn
  {
    if issues != [] {
      var k := |issues| - 1;
      var last := issues[k];
      InDependencyEdges(issues[..k], e);
      assert issues == issues[..k] + [last];
      var into := EdgesInto(last.name, last.dependsOn);
      if e in into {
        var i :| 0 <= i < |into| && into[i] == e;
        assert last.dependsOn[i] == e.0;
      }
      if e.1 == last.name && e.0 in last.dependsOn {
        var i :| 0 <= i < |last.dependsOn| && last.dependsOn[i] == e.0;
        assert into[i] == e;
      }
    }
  }

  lemma {:induction false} InWithin(edges: seq<Edge>, scope: set<Name>, e: Edge)
    ensures e in Within(edges, scope) <==> e in edges && e.0 in scope
  {
    if edges != [] {
      var k := |edges| - 1;
      InWithin(edges[..k], scope, e);
      assert edges == edges[..k] + [edges[k]];
    }
  }

  lemma {:induction false} WithinAppend(a: seq<Edge>, b: seq<Edge>, scope: set<Name>)
    ensures Within(a + b, scope) == Within(a, scope) + Within(b, scope)
  {
    if b == [] {
      assert a + b == a;
    } else {
      var k := |b| - 1;
      WithinAppend(a, b[..k], scope);
      assert (a + b)[..|a + b| - 1] == a + b[..k];
    }
  }

  lemma NameListed(issues: seq<Issue>, n: Name)
    ensures n in NamesOf(issues) <==> exists i :: i in issues && i.name == n
  {
    if n in NamesOf(issues) {
      var k :| 0 <= k < |issues| && NamesOf(issues)[k] == n;
      assert issues[k] in issues;
    }
    if i :| i in issues && i.name == n {
      var k :| 0 <= k < |issues| && issues[k] == i;
      assert NamesOf(issues)[k] == n;
    }
  }

  /** An open dependency, spelled out on the issue list. */
  lemma InOpenEdges(issues: seq<Issue>, completed: set<Name>, e: Edge)
    ensures e in OpenEdges(issues, completed) <==>
            && (exists i :: i in issues && i.name == e.1 && e.0 in i.dependsOn)
            && e.0 in NamesOf(issues) && e.0 !in completed
    ensures e in OpenEdges(issues, completed) ==> e.1 in NamesOf(issues)
  {
    InWithin(DependencyEdges(issues), SetOf(NamesOf(issues)) - completed, e);
    InDependencyEdges(issues, e);
    NameListed(issues, e.1);
  }

  lemma {:induction false} KeysAreNames(issues: seq<Issue>)
    ensures Distinct(Keys(issues))
    ensures SetOf(Keys(issues)) == SetOf(NamesOf(issues))
  {
    if issues != [] {
      var k := |issues| - 1;
      KeysAreNames(issues[..k]);
      assert NamesOf(issues) == NamesOf(issues[..k]) + [issues[k].name];
      assert forall n :: n in Keys(issues[..k]) <==> n in SetOf(Keys(issues[..k]));
      assert forall n :: n in NamesOf(issues[..k]) <==> n in SetOf(NamesOf(issues[..k]));
    }
  }

  lemma {:induction false} ReadyMembers(edges: seq<Edge>, keys: seq<Name>, done: set<Name>)
    requires Distinct(keys)
    ensures Distinct(Ready(edges, keys, done))
    ensures forall n :: n in Ready(edges, keys, done) <==> n in keys && InCount(edges, n, done) == 0
  {
    if keys != [] {
      var k := |keys| - 1;
      ReadyMembers(edges, keys[..k], done);
      assert keys == keys[..k] + [keys[k]];
    }
  }

  lemma FirstLevelIsFrontier(issues: seq<Issue>, completed: set<Name>)
    ensures Frontier(OpenEdges(issues, completed), SetOf(NamesOf(issues)), {}, FirstLevel(issues, completed))
  {
    var edges := OpenEdges(issues, completed);
    KeysAreNames(issues);
    ReadyMembers(edges, Keys(issues), {});
    assert forall n :: n in Keys(issues) <==> n in SetOf(Keys(issues));
    forall e | e in edges
      ensures e.0 in SetOf(NamesOf(issues)) && e.1 in SetOf(NamesOf(issues))
    {
      InOpenEdges(issues, completed, e);
    }
  }

  /** The levels are a layering of the listed names under the open dependencies. */
  lemma LevelsOfLayers(issues: seq<Issue>, completed: set<Name>)
    ensures Layering(OpenEdges(issues, completed), SetOf(NamesOf(issues)), {}, LevelsOf(issues, completed))
  {
    FirstLevelIsFrontier(issues, completed);
    PeelLayers(OpenEdges(issues, completed), SetOf(NamesOf(issues)), {}, FirstLevel(issues, completed));
  }

  /**
   * An accepted plan: its levels hold exactly the listed names, and each issue sits
   * at the depth of its longest chain of open dependencies.
   */
  lemma AcceptedPlan(issues: seq<Issue>, completed: set<Name>, n: Name)
    requires Plannable(issues, completed)
    ensures Listed(LevelsOf(issues, completed), n) <==> n in NamesOf(issues)
    ensures forall k :: 0 <= k < |LevelsOf(issues, completed)| && n in LevelsOf(issues, completed)[k] ==>
                          && (exists p :: IsPath(OpenEdges(issues, completed), p) && p[|p| - 1] == n && |p| == k + 1)
                          && (forall p :: IsPath(OpenEdges(issues, completed), p) && p[|p| - 1] == n ==> |p| <= k + 1)
  {
    var edges, names, levels := OpenEdges(issues, completed), SetOf(NamesOf(issues)), LevelsOf(issues, completed);
    LevelsOfLayers(issues, completed);
    forall e | e in edges
      ensures e.0 in names && e.1 in names
    {
      InOpenEdges(issues, completed, e);
    }
    if n in names {
      UnlistedIsBlocked(edges, names, levels, n);
    }
    forall k | 0 <= k < |levels| && n in levels[k]
      ensures (exists p :: IsPath(edges, p) && p[|p| - 1] == n && |p| == k + 1)
      ensures forall p :: IsPath(edges, p) && p[|p| - 1] == n ==> |p| <= k + 1
    {
      LevelIsLongestChain(edges, names, levels, n, k);
    }
  }

  lemma {:induction false} BlockedAmongMembers(edges: seq<Edge>, keys: seq<Name>, n: Name)
    ensures n in BlockedAmong(edges, keys) <==> n in keys && Blocked(edges, n)
  {
    if keys != [] {
      var k := |keys| - 1;
      BlockedAmongMembers(edges, keys[..k], n);
      assert keys == keys[..k] + [keys[k]];
    }
  }

  /** A rejected plan names exactly the issues on a cycle or downstream of one. */
  lemma RejectedPlan(issues: seq<Issue>, completed: set<Name>, n: Name)
    requires !Plannable(issues, completed)
    ensures n in Recompute(issues, completed).nodes <==> Blocked(OpenEdges(issues, completed), n)
  {
    var edges := OpenEdges(issues, completed);
    BlockedAmongMembers(edges, Keys(issues), n);
    KeysAreNames(issues);
    assert n in Keys(issues) <==> n in SetOf(Keys(issues));
    if Blocked(edges, n) {
      var c :| OnCycle(edges, c) && (c == n || Reaches(edges, c, n));
      var d := ReachesIsTarget(edges, c, n);
      InOpenEdges(issues, completed, (d, n));
    }
  }

  /** Everybody reachable is listed, so the set above misses nobody. */
  lemma InDownstream(start: Name, issues: seq<Issue>, n: Name)
    ensures n in Downstream(start, issues) <==> Reaches(DependencyEdges(issues), start, n)
  {
    if Reaches(DependencyEdges(issues), start, n) {
      var d := ReachesIsTarget(DependencyEdges(issues), start, n);
      InDependencyEdges(issues, (d, n));
      NameListed(issues, n);
    }
  }

  /** A step of a cycle of declared dependencies is open unless it starts at a completed issue. */
  lemma CycleStepIsOpen(issues: seq<Issue>, completed: set<Name>, p: seq<Name>, i: nat)
    requires IsPath(DependencyEdges(issues), p) && |p| >= 2 && p[0] == p[|p| - 1]
    requires i < |p| - 1
    ensures p[i] in NamesOf(issues)
    ensures p[i] !in completed ==> (p[i], p[i + 1]) in OpenEdges(issues, completed)
  {
    var all := DependencyEdges(issues);
    assert Linked(all, p, i);
    InDependencyEdges(issues, (p[i], p[i + 1]));
    var before := if i == 0 then |p| - 2 else i - 1;
    assert Linked(all, p, before);
    InDependencyEdges(issues, (p[before], p[before + 1]));
    NameListed(issues, p[i]);
    InOpenEdges(issues, completed, (p[i], p[i + 1]));
  }

  lemma AvoidingCycleIsOpen(issues: seq<Issue>, completed: set<Name>, p: seq<Name>)
    requires IsPath(DependencyEdges(issues), p) && |p| >= 2 && p[0] == p[|p| - 1]
    requires forall k: nat :: k < |p| - 1 ==> p[k] !in completed
    ensures OnCycle(OpenEdges(issues, completed), p[0])
  {
    hide DependencyEdges, OpenEdges;
    forall k | 0 <= k < |p| - 1
      ensures Linked(OpenEdges(issues, completed), p, k)
    {
      CycleStepIsOpen(issues, completed, p, k);
    }
    assert PathFromTo(OpenEdges(issues, completed), p, p[0], p[0]);
  }

  /** Every cycle of declared dependencies in an acceptable plan goes through a listed completed issue. */
  lemma CycleMeetsCompleted(issues: seq<Issue>, completed: set<Name>, p: seq<Name>) returns (i: nat)
    requires Plannable(issues, completed)
    requires IsPath(DependencyEdges(issues), p) && |p| >= 2 && p[0] == p[|p| - 1]
    ensures i < |p| - 1 && p[i] in completed && p[i] in NamesOf(issues)
  {
    hide DependencyEdges, OpenEdges;
    if forall k: nat :: k < |p| - 1 ==> p[k] !in completed {
      AvoidingCycleIsOpen(issues, completed, p);
      assert false;
    }
    i :| i < |p| - 1 && p[i] in completed;
    CycleStepIsOpen(issues, completed, p, i);
  }

  /** The name lies on a cycle of declared dependencies together with a listed completed issue. */
  ghost predicate CyclesThroughCompleted(issues: seq<Issue>, completed: set<Name>, n: Name) {
    exists c :: c in completed && c in NamesOf(issues) && MutuallyDependent(issues, n, c)
  }

  ghost predicate MutuallyDependent(issues: seq<Issue>, a: Name, b: Name) {
    var all := DependencyEdges(issues);
    OnCycle(all, a) && (a == b || (Reaches(all, a, b) && Reaches(all, b, a)))
  }

  /**
   * An issue is downstream of itself exactly on a cycle of declared dependencies. In a
   * plan that is accepted given what has completed, that takes a listed completed issue
   * on the cycle; where nothing listed is completed it never happens.
   */
  lemma DownstreamOfItself(start: Name, issues: seq<Issue>, completed: set<Name>)
    ensures start in Downstream(start, issues) <==> OnCycle(DependencyEdges(issues), start)
    ensures Plannable(issues, completed) ==>
              (start in Downstream(start, issues) <==> CyclesThroughCompleted(issues, completed, start))
    ensures Plannable(issues, completed) && SetOf(NamesOf(issues)) !! completed ==> start !in Downstream(start, issues)
  {
    var all := DependencyEdges(issues);
    InDownstream(start, issues, start);
    hide DependencyEdges, OpenEdges, Downstream;
    if OnCycle(all, start) && Plannable(issues, completed) {
      var p :| PathFromTo(all, p, start, start) && |p| >= 2;
      hide Plannable;
      var i := CycleMeetsCompleted(issues, completed, p);
      if i > 0 {
        SubPath(all, p, 0, i + 1);
        SubPath(all, p, i, |p|);
      }
      assert MutuallyDependent(issues, start, p[i]);
      assert p[i] in SetOf(NamesOf(issues));
    }
  }

  /** So it does happen: two issues that wait for each other make an acceptable plan once one has completed. */
  lemma CompletedIssueClosesCycle() returns (a: Issue, b: Issue)
    ensures a == Issue("a", ["b"], 1, None) && b == Issue("b", ["a"], 2, None)
    ensures Plannable([a, b], {"a"})
    ensures Downstream("b", [a, b]) == {"a", "b"}
  {
    a, b := Issue("a", ["b"], 1, None), Issue("b", ["a"], 2, None);
    var issues := [a, b];
    assert NamesOf(issues) == ["a", "b"];
    OnlyOpenEdge(a, b);
    InDependencyEdges(issues, ("b", "a"));
    InDependencyEdges(issues, ("a", "b"));
    assert a in issues && b in issues;
    var all, open := DependencyEdges(issues), OpenEdges(issues, {"a"});
    EdgeReaches(all, "b", "a");
    EdgeReaches(all, "a", "b");
    ReachesTransitive(all, "b", "a", "b");
    hide OpenEdges, DependencyEdges;
    OneEdgeIsAcyclic(open, "b", "a");
    assert Downstream("b", issues) == {"a", "b"};
  }

  lemma OnlyOpenEdge(a: Issue, b: Issue)
    requires a.name == "a" && b.name == "b" && a.dependsOn == ["b"] && b.dependsOn == ["a"]
    ensures forall e :: e in OpenEdges([a, b], {"a"}) <==> e == ("b", "a")
  {
    var issues := [a, b];
    assert NamesOf(issues) == ["a", "b"];
    forall e
      ensures e in OpenEdges(issues, {"a"}) <==> e == ("b", "a")
    {
      InOpenEdges(issues, {"a"}, e);
      assert a in issues && "b" in a.dependsOn;
      hide OpenEdges;
    }
  }
}
