/** The plan-graph helpers as the executor runs them: counters, queues and visited sets. */
module DagUtils {
  import opened Collections
  import opened Graph
  import opened Levels
  import opened Schemas
  import opened DagSpec

  type Adjacency = map<Name, seq<Name>>

  function Entry(m: Adjacency, n: Name): seq<Name> {
    if n in m then m[n] else []
  }

  ghost predicate Records(m: Adjacency, edges: seq<Edge>) {
    forall d :: Entry(m, d) == Targets(edges, d)
  }

  lemma RecordOf(m: Adjacency, edges: seq<Edge>, d: Name)
    requires Records(m, edges)
    ensures Entry(m, d) == Targets(edges, d)
  {
  }

  lemma RecordOne(m: Adjacency, edges: seq<Edge>, d: Name, n: Name)
    requires Records(m, edges)
    ensures Records(m[d := Entry(m, d) + [n]], edges + [(d, n)])
  {
    var edges' := edges + [(d, n)];
    assert edges'[..|edges'| - 1] == edges;
    var m' := m[d := Entry(m, d) + [n]];
    forall x
      ensures Entry(m', x) == Targets(edges', x)
    {
      assert Entry(m, x) == Targets(edges, x);
    }
  }

  lemma WithinNothing(scope: set<Name>)
    ensures Within([], scope) == []
  {
  }

  /** The counters hold the open in-degrees of a set of edges. */
  ghost predicate Counts(inDegree: map<Name, int>, edges: seq<Edge>, done: set<Name>) {
    forall n :: n in inDegree ==> inDegree[n] == InCount(edges, n, done)
  }

  lemma CountOne(inDegree: map<Name, int>, edges: seq<Edge>, d: Name, n: Name)
    requires Counts(inDegree, edges, {}) && n in inDegree
    ensures Counts(inDegree[n := inDegree[n] + 1], edges + [(d, n)], {})
  {
    assert (edges + [(d, n)])[..|edges|] == edges;
  }

  lemma WithinSnoc(edges: seq<Edge>, e: Edge, scope: set<Name>)
    ensures Within(edges + [e], scope) == Within(edges, scope) + (if e.0 in scope then [e] else [])
  {
    assert (edges + [e])[..|edges|] == edges;
  }

  /** One issue's dependencies: count and record those that are in scope. */
  method ScanIssue(issue: Issue, scope: set<Name>, inDegree: map<Name, int>, dependents: Adjacency,
                   ghost edges: seq<Edge>)
    returns (inDegree': map<Name, int>, dependents': Adjacency)
    requires issue.name in inDegree
    requires Counts(inDegree, edges, {})
    requires Records(dependents, edges)
    ensures var edges' := edges + Within(EdgesInto(issue.name, issue.dependsOn), scope);
            && Records(dependents', edges')
            && inDegree'.Keys == inDegree.Keys
            && Counts(inDegree', edges', {})
  {
    hide Counts, Records, Entry, Within;
    inDegree', dependents' := inDegree, dependents;
    ghost var into := EdgesInto(issue.name, issue.dependsOn);
    ghost var seen := edges;
    WithinNothing(scope);
    for j := 0 to |issue.dependsOn|
      invariant seen == edges + Within(into[..j], scope)
      invariant Records(dependents', seen)
      invariant inDegree'.Keys == inDegree.Keys
      invariant Counts(inDegree', seen, {})
    {
      var dep := issue.dependsOn[j];
      assert into[..j + 1] == into[..j] + [(dep, issue.name)];
      WithinSnoc(into[..j], (dep, issue.name), scope);
      if dep in scope {
        RecordOne(dependents', seen, dep, issue.name);
        CountOne(inDegree', seen, dep, issue.name);
        seen := seen + [(dep, issue.name)];
        inDegree' := inDegree'[issue.name := inDegree'[issue.name] + 1];
        dependents' := dependents'[dep := Entry(dependents', dep) + [issue.name]];
      }
    }
    assert into[..|into|] == into;
  }

  /** Counters lowered once per name on the list. */
  ghost predicate Lowered(inDegree: map<Name, int>, edges: seq<Edge>, done: set<Name>, ts: seq<Name>) {
    forall n :: n in inDegree ==> inDegree[n] == InCount(edges, n, done) - multiset(ts)[n]
  }

  lemma LowerOne(inDegree: map<Name, int>, edges: seq<Edge>, done: set<Name>, ts: seq<Name>, j: nat)
    requires j < |ts| && ts[j] in inDegree && Lowered(inDegree, edges, done, ts[..j])
    ensures Lowered(inDegree[ts[j] := inDegree[ts[j]] - 1], edges, done, ts[..j + 1])
    ensures inDegree[ts[j]] - 1 == InCount(edges, ts[j], done) - multiset(ts[..j + 1])[ts[j]]
  {
    hide InCount;
    assert ts[..j + 1] == ts[..j] + [ts[j]];
  }

  /** Finish one issue: lower its dependents' counters and queue those that reach zero. */
  method Finish(name: Name, ts: seq<Name>, inDegree: map<Name, int>, ghost edges: seq<Edge>, ghost done: set<Name>)
    returns (inDegree': map<Name, int>, freed: seq<Name>)
    requires name !in done && ts == Targets(edges, name)
    requires forall e :: e in edges ==> e.1 in inDegree
    requires Counts(inDegree, edges, done)
    ensures freed == Freed(edges, done, ts, |ts|)
    ensures inDegree'.Keys == inDegree.Keys
    ensures Counts(inDegree', edges, done + {name})
  {
    hide InCount, Targets, Lowered;
    inDegree', freed := inDegree, [];
    NothingLowered(inDegree, edges, done, ts);
    for j := 0 to |ts|
      invariant freed == Freed(edges, done, ts, j)
      invariant inDegree'.Keys == inDegree.Keys
      invariant Lowered(inDegree', edges, done, ts[..j])
    {
      var t := ts[j];
      assert t in inDegree by {
        InTargets(edges, name, t);
        assert (name, t).1 in inDegree;
      }
      LowerOne(inDegree', edges, done, ts, j);
      inDegree' := inDegree'[t := inDegree'[t] - 1];
      if inDegree'[t] == 0 {
        freed := freed + [t];
      }
    }
    AllLowered(inDegree', edges, done, name, ts);
  }

  lemma NothingLowered(inDegree: map<Name, int>, edges: seq<Edge>, done: set<Name>, ts: seq<Name>)
    requires Counts(inDegree, edges, done)
    ensures Lowered(inDegree, edges, done, ts[..0])
  {
    hide InCount;
  }

  lemma AllLowered(inDegree: map<Name, int>, edges: seq<Edge>, done: set<Name>, name: Name, ts: seq<Name>)
    requires name !in done && ts == Targets(edges, name) && Lowered(inDegree, edges, done, ts[..|ts|])
    ensures Counts(inDegree, edges, done + {name})
  {
    hide InCount, Targets;
    assert ts[..|ts|] == ts;
    forall n | n in inDegree
      ensures inDegree[n] == InCount(edges, n, done + {name})
    {
      InCountFinish(edges, n, done, name);
    }
  }

  /** Finish a whole level in order. */
  method FinishLevel(level: seq<Name>, dependents: Adjacency, inDegree: map<Name, int>, ghost edges: seq<Edge>,
                     ghost done: set<Name>)
    returns (inDegree': map<Name, int>, queue: seq<Name>)
    requires Records(dependents, edges) && Distinct(level)
    requires forall n :: n in level ==> n !in done
    requires forall e :: e in edges ==> e.1 in inDegree
    requires Counts(inDegree, edges, done)
    ensures queue == Release(edges, done, level, |level|)
    ensures inDegree'.Keys == inDegree.Keys
    ensures Counts(inDegree', edges, done + SetOf(level))
  {
    hide Records, Targets, InCount, Freed, Entry, Counts;
    inDegree', queue := inDegree, [];
    assert done + SetOf(level[..0]) == done;
    for k := 0 to |level|
      invariant queue == Release(edges, done, level, k)
      invariant inDegree'.Keys == inDegree.Keys
      invariant Counts(inDegree', edges, done + SetOf(level[..k]))
    {
      ghost var before := done + SetOf(level[..k]);
      var freed;
      RecordOf(dependents, edges, level[k]);
      inDegree', freed := Finish(level[k], Entry(dependents, level[k]), inDegree', edges, before);
      queue := queue + freed;
      assert level[..k + 1] == level[..k] + [level[k]];
      assert before + {level[k]} == done + SetOf(level[..k + 1]);
    }
    assert level[..|level|] == level;
  }

  /** The insertion-ordered counter table, as its key order. */
  method InitialCounters(issues: seq<Issue>) returns (keys: seq<Name>, inDegree: map<Name, int>)
    ensures keys == Keys(issues)
    ensures inDegree.Keys == SetOf(NamesOf(issues))
    ensures forall n :: n in inDegree ==> inDegree[n] == 0
  {
    keys, inDegree := [], map[];
    for i := 0 to |issues|
      invariant keys == Keys(issues[..i])
      invariant inDegree.Keys == SetOf(keys)
      invariant forall n :: n in inDegree ==> inDegree[n] == 0
    {
      assert issues[..i + 1][..i] == issues[..i];
      if issues[i].name !in inDegree {
        keys := keys + [issues[i].name];
      }
      inDegree := inDegree[issues[i].name := 0];
    }
    assert issues[..|issues|] == issues;
    KeysAreNames(issues);
  }

  /** Keys in order whose counter satisfies the test: zero for the queue, positive for the report. */
  method Select(keys: seq<Name>, inDegree: map<Name, int>, zero: bool, ghost edges: seq<Edge>, ghost done: set<Name>)
    returns (picked: seq<Name>)
    requires forall n :: n in keys ==> n in inDegree && inDegree[n] == InCount(edges, n, done)
    ensures zero ==> picked == Ready(edges, keys, done)
    ensures !zero && (forall n :: n in keys ==> (InCount(edges, n, done) > 0 <==> Blocked(edges, n)))
            ==> picked == BlockedAmong(edges, keys)
  {
    picked := [];
    for i := 0 to |keys|
      invariant zero ==> picked == Ready(edges, keys[..i], done)
      invariant !zero && (forall n :: n in keys ==> (InCount(edges, n, done) > 0 <==> Blocked(edges, n)))
                ==> picked == BlockedAmong(edges, keys[..i])
    {
      assert keys[..i + 1][..i] == keys[..i];
      assert keys[i] in keys;
      if (inDegree[keys[i]] == 0) == zero {
        picked := picked + [keys[i]];
      }
    }
    assert keys[..|keys|] == keys;
  }

  /** Counters and dependents for the dependencies whose source is in scope. */
  method BuildGraph(issues: seq<Issue>, scope: set<Name>)
    returns (keys: seq<Name>, inDegree: map<Name, int>, dependents: Adjacency)
    ensures keys == Keys(issues)
    ensures inDegree.Keys == SetOf(NamesOf(issues))
    ensures var edges := Within(DependencyEdges(issues), scope);
            && Records(dependents, edges)
            && Counts(inDegree, edges, {})
  {
    keys, inDegree := InitialCounters(issues);
    dependents := map[];
    ghost var edges := [];
    for i := 0 to |issues|
      invariant edges == Within(DependencyEdges(issues[..i]), scope)
      invariant inDegree.Keys == SetOf(NamesOf(issues))
      invariant Records(dependents, edges)
      invariant Counts(inDegree, edges, {})
    {
      NameListed(issues, issues[i].name);
      inDegree, dependents := ScanIssue(issues[i], scope, inDegree, dependents, edges);
      assert issues[..i + 1][..i] == issues[..i];
      WithinAppend(DependencyEdges(issues[..i]), EdgesInto(issues[i].name, issues[i].dependsOn), scope);
      edges := edges + Within(EdgesInto(issues[i].name, issues[i].dependsOn), scope);
    }
    assert issues[..|issues|] == issues;
  }

  /** Where the queue loop stands: what is listed is done, and what is left completes the layering. */
  ghost predicate Peeling(edges: seq<Edge>, names: set<Name>, first: seq<Name>, levels: seq<seq<Name>>, done: set<Name>,
                          queue: seq<Name>) {
    && Frontier(edges, names, {}, first)
    && Frontier(edges, names, done, queue)
    && levels + Peel(edges, names, done, queue) == Peel(edges, names, {}, first)
    && done == SetOf(Flatten(levels))
  }

  lemma PeelOn(edges: seq<Edge>, names: set<Name>, first: seq<Name>, levels: seq<seq<Name>>, done: set<Name>,
               queue: seq<Name>)
    requires Peeling(edges, names, first, levels, done, queue) && queue != []
    ensures var after := done + SetOf(queue);
            && Peeling(edges, names, first, levels + [queue], after, Release(edges, done, queue, |queue|))
            && |after| == |done| + |queue|
            && |names - after| < |names - done|
  {
    PeelStep(edges, names, done, queue);
    PeelMovesOver(edges, names, levels, done, queue);
    FlattenSetSnoc(levels, queue);
    hide Frontier, Peel, Release, Flatten, SetOf;
  }

  lemma PeelMovesOver(edges: seq<Edge>, names: set<Name>, levels: seq<seq<Name>>, done: set<Name>, queue: seq<Name>)
    requires Frontier(edges, names, done, queue) && queue != []
    ensures var after, next := done + SetOf(queue), Release(edges, done, queue, |queue|);
            && Frontier(edges, names, after, next)
            && levels + Peel(edges, names, done, queue) == (levels + [queue]) + Peel(edges, names, after, next)
  {
    hide Frontier, Peel, Release;
    PeelStep(edges, names, done, queue);
    AppendAssociative(levels, [queue], Peel(edges, names, done + SetOf(queue), Release(edges, done, queue, |queue|)));
  }

  lemma FlattenSetSnoc(levels: seq<seq<Name>>, level: seq<Name>)
    ensures SetOf(Flatten(levels + [level])) == SetOf(Flatten(levels)) + SetOf(level)
  {
    FlattenSnoc(levels, level);
    assert SetOf(Flatten(levels) + level) == SetOf(Flatten(levels)) + SetOf(level);
  }

  lemma PeelingCovers(edges: seq<Edge>, names: set<Name>, first: seq<Name>, levels: seq<seq<Name>>, done: set<Name>,
                      queue: seq<Name>)
    requires Peeling(edges, names, first, levels, done, queue)
    ensures Distinct(queue)
    ensures forall n :: n in queue ==> n !in done
    ensures forall e :: e in edges ==> e.1 in names
    ensures queue == [] ==> levels == Peel(edges, names, {}, first) && done == SetOf(Flatten(levels))
  {
  }

  /** The queue loop: take the whole queue as a level, finish it, and go on with what it frees. */
  method PeelLevels(first: seq<Name>, dependents: Adjacency, counters: map<Name, int>, ghost edges: seq<Edge>)
    returns (levels: seq<seq<Name>>, processed: nat, inDegree: map<Name, int>, ghost done: set<Name>)
    requires Records(dependents, edges)
    requires Frontier(edges, counters.Keys, {}, first)
    requires Counts(counters, edges, {})
    ensures levels == Peel(edges, counters.Keys, {}, first)
    ensures processed == |done|
    ensures done == SetOf(Flatten(levels))
    ensures inDegree.Keys == counters.Keys
    ensures Counts(inDegree, edges, done)
  {
    ghost var names := counters.Keys;
    var queue := first;
    levels, processed, inDegree, done := [], 0, counters, {};
    assert Peeling(edges, names, first, levels, done, queue);
    hide *;
    while queue != []
      invariant Peeling(edges, names, first, levels, done, queue)
      invariant inDegree.Keys == names
      invariant Counts(inDegree, edges, done)
      invariant processed == |done|
      decreases |names - done|
    {
      var level := queue;
      PeelingCovers(edges, names, first, levels, done, level);
      PeelOn(edges, names, first, levels, done, level);
      inDegree, queue := FinishLevel(level, dependents, inDegree, edges, done);
      levels, processed := levels + [level], processed + |level|;
      done := done + SetOf(level);
    }
    PeelingCovers(edges, names, first, levels, done, queue);
  }

  /**
   * Level-wise Kahn sort. Succeeds exactly when names are distinct and the open
   * dependencies are acyclic; otherwise reports exactly the blocked names.
   */
  method RecomputeLevels(issues: seq<Issue>, completed: set<Name>) returns (r: LevelsResult)
    ensures r == Recompute(issues, completed)
  {
    var keys, inDegree, dependents := BuildGraph(issues, SetOf(NamesOf(issues)) - completed);
    ghost var edges := OpenEdges(issues, completed);
    assert forall n :: n in keys ==> n in inDegree by {
      KeysAreNames(issues);
      assert forall n :: n in keys <==> n in SetOf(keys);
    }
    var queue := Select(keys, inDegree, true, edges, {});
    FirstLevelIsFrontier(issues, completed);
    var levels, processed, counters, done := PeelLevels(queue, dependents, inDegree, edges);
    forall n
      ensures n in done <==> Listed(levels, n)
    {
      InFlatten(levels, n);
    }
    PlacedAll(issues, completed, done);
    if processed != |issues| {
      var nodes := Select(keys, counters, false, edges, done);
      return Cycle(nodes);
    }
    return Layered(levels);
  }

  /** Once the queue has run dry, a positive counter marks a blocked issue and nobody else. */
  lemma PlacedOrBlocked(edges: seq<Edge>, names: set<Name>, levels: seq<seq<Name>>, done: set<Name>, n: Name)
    requires Layering(edges, names, {}, levels)
    requires forall e :: e in edges ==> e.0 in names && e.1 in names
    requires forall x :: x in done <==> Listed(levels, x)
    requires n in names
    ensures n in done <==> !Blocked(edges, n)
    ensures InCount(edges, n, done) > 0 <==> Blocked(edges, n)
  {
    UnlistedIsBlocked(edges, names, levels, n);
    InCountZero(edges, n, done);
    if n in done {
      var k :| 0 <= k < |levels| && n in levels[k];
      forall e | e in edges && e.1 == n
        ensures e.0 in done
      {
        assert Listed(levels[..k], e.0);
        var j :| 0 <= j < k && e.0 in levels[..k][j];
        assert e.0 in levels[j];
      }
    } else {
      assert StillWaits(edges, {}, levels, n);
      var d :| (d, n) in edges && d !in {} && !Listed(levels, d);
      assert (d, n).0 !in done;
    }
  }

  /** Counting the placed issues decides acceptance. */
  lemma PlacedAll(issues: seq<Issue>, completed: set<Name>, done: set<Name>)
    requires forall n :: n in done <==> Listed(LevelsOf(issues, completed), n)
    ensures |done| == |issues| <==> Plannable(issues, completed)
    ensures forall n :: n in NamesOf(issues) ==>
                          (InCount(OpenEdges(issues, completed), n, done) > 0
                           <==> Blocked(OpenEdges(issues, completed), n))
  {
    var edges, names, levels := OpenEdges(issues, completed), SetOf(NamesOf(issues)), LevelsOf(issues, completed);
    LevelsOfLayers(issues, completed);
    OpenEdgesStayListed(issues, completed);
    ListedAreNames(edges, names, levels);
    SetSize(NamesOf(issues));
    hide Layering, OpenEdges, LevelsOf, InCount, Blocked, Acyclic;
    forall n | n in names
      ensures n in done <==> !Blocked(edges, n)
      ensures InCount(edges, n, done) > 0 <==> Blocked(edges, n)
    {
      PlacedOrBlocked(edges, names, levels, done, n);
    }
    SubsetSize(done, names);
    AllPlacedIffAcyclic(edges, names, done);
  }

  lemma OpenEdgesStayListed(issues: seq<Issue>, completed: set<Name>)
    ensures forall e :: e in OpenEdges(issues, completed) ==>
                          e.0 in SetOf(NamesOf(issues)) && e.1 in SetOf(NamesOf(issues))
  {
    forall e | e in OpenEdges(issues, completed)
      ensures e.0 in SetOf(NamesOf(issues)) && e.1 in SetOf(NamesOf(issues))
    {
      InOpenEdges(issues, completed, e);
    }
  }

  lemma ListedAreNames(edges: seq<Edge>, names: set<Name>, levels: seq<seq<Name>>)
    requires Layering(edges, names, {}, levels)
    ensures forall n :: Listed(levels, n) ==> n in names
  {
  }

  lemma AllPlacedIffAcyclic(edges: seq<Edge>, names: set<Name>, done: set<Name>)
    requires done <= names
    requires forall e :: e in edges ==> e.0 in names && e.1 in names
    requires forall n :: n in names ==> (n in done <==> !Blocked(edges, n))
    ensures done == names <==> Acyclic(edges)
  {
    forall n | OnCycle(edges, n)
      ensures n in names && n !in done
    {
      var d := ReachesIsTarget(edges, n, n);
      assert (d, n).1 in names;
      assert Blocked(edges, n);
    }
  }

  method RecordIssue(issue: Issue, dependents: Adjacency, ghost edges: seq<Edge>) returns (dependents': Adjacency)
    requires Records(dependents, edges)
    ensures Records(dependents', edges + EdgesInto(issue.name, issue.dependsOn))
  {
    dependents' := dependents;
    ghost var into := EdgesInto(issue.name, issue.dependsOn);
    ghost var seen := edges;
    for j := 0 to |issue.dependsOn|
      invariant seen == edges + into[..j]
      invariant Records(dependents', seen)
    {
      var dep := issue.dependsOn[j];
      RecordOne(dependents', seen, dep, issue.name);
      assert into[..j + 1] == into[..j] + [(dep, issue.name)];
      seen := seen + [(dep, issue.name)];
      dependents' := dependents'[dep := Entry(dependents', dep) + [issue.name]];
    }
    assert into[..|into|] == into;
  }

  /** Who depends on whom, for every declared dependency. */
  method BuildDependents(issues: seq<Issue>) returns (dependents: Adjacency)
    ensures Records(dependents, DependencyEdges(issues))
  {
    dependents := map[];
    for i := 0 to |issues|
      invariant Records(dependents, DependencyEdges(issues[..i]))
    {
      dependents := RecordIssue(issues[i], dependents, DependencyEdges(issues[..i]));
      assert issues[..i + 1][..i] == issues[..i];
    }
    assert issues[..|issues|] == issues;
  }

  lemma DependentsReached(dependents: Adjacency, edges: seq<Edge>, start: Name, name: Name)
    requires Records(dependents, edges)
    requires name == start || Reaches(edges, start, name)
    ensures forall n :: n in Entry(dependents, name) ==> Reaches(edges, start, n)
    ensures forall e :: e in edges && e.0 == name ==> e.1 in Entry(dependents, name)
  {
    var more := Entry(dependents, name);
    forall n | n in more
      ensures Reaches(edges, start, n)
    {
      InTargets(edges, name, n);
      EdgeReaches(edges, name, n);
      if name != start {
        ReachesTransitive(edges, start, name, n);
      }
    }
    forall e | e in edges && e.0 == name
      ensures e.1 in more
    {
      assert e == (name, e.1);
      InTargets(edges, name, e.1);
    }
  }

  /** Breadth-first search along dependents: exactly the transitive dependents of `start`. */
  method FindDownstream(start: Name, issues: seq<Issue>) returns (visited: set<Name>)
    ensures visited == Downstream(start, issues)
  {
    var dependents := BuildDependents(issues);
    ghost var edges, names := DependencyEdges(issues), SetOf(NamesOf(issues));
    visited := {};
    var queue := Entry(dependents, start);
    DependentsReached(dependents, edges, start, start);
    while queue != []
      invariant forall n :: n in queue || n in visited ==> Reaches(edges, start, n)
      invariant forall e :: e in edges && (e.0 == start || e.0 in visited) ==> e.1 in visited || e.1 in queue
      decreases names - visited, |queue|
    {
      var name := queue[0];
      assert Reaches(edges, start, name);
      InDownstream(start, issues, name);
      var rest := queue[1..];
      assert queue == [name] + rest;
      if name in visited {
        queue := rest;
        continue;
      }
      DependentsReached(dependents, edges, start, name);
      visited := visited + {name};
      queue := rest + Entry(dependents, name);
    }
    forall n
      ensures n in visited <==> n in Downstream(start, issues)
    {
      InDownstream(start, issues, n);
      if Reaches(edges, start, n) {
        var p :| PathFromTo(edges, p, start, n) && |p| >= 2;
        ClosedHoldsReachable(edges, p, visited);
      }
    }
  }
}
