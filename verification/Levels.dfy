/**
 * Specification of level-wise topological sorting (Kahn's algorithm) and what it
 * means: levels are longest-chain depths, and what cannot be placed is blocked by a cycle.
 */
module Levels {
  import opened Collections
  import opened Graph

  /** Edges into n whose source is still outside `done`, counted with repetition. */
  ghost function InCount(edges: seq<Edge>, n: Name, done: set<Name>): nat {
    if edges == [] then 0 else
      var k := |edges| - 1;
      InCount(edges[..k], n, done) + (if edges[k].1 == n && edges[k].0 !in done then 1 else 0)
  }

  /** The dependents of d in the order their edges were recorded, with repetition. */
  ghost function Targets(edges: seq<Edge>, d: Name): seq<Name> {
    if edges == [] then [] else
      var k := |edges| - 1;
      Targets(edges[..k], d) + (if edges[k].0 == d then [edges[k].1] else [])
  }

  lemma {:induction false} InCountZero(edges: seq<Edge>, n: Name, done: set<Name>)
    ensures InCount(edges, n, done) == 0 <==> forall e :: e in edges && e.1 == n ==> e.0 in done
  {
    if edges != [] {
      var k := |edges| - 1;
      InCountZero(edges[..k], n, done);
      assert forall e :: e in edges <==> e in edges[..k] || e == edges[k];
    }
  }

  lemma {:induction false} InTargets(edges: seq<Edge>, d: Name, n: Name)
    ensures n in Targets(edges, d) <==> (d, n) in edges
  {
    if edges != [] {
      var k := |edges| - 1;
      InTargets(edges[..k], d, n);
      assert edges == edges[..k] + [edges[k]];
    }
  }

  /** Finishing d removes exactly its recorded edges from everybody's count. */
  lemma {:induction false} InCountFinish(edges: seq<Edge>, n: Name, done: set<Name>, d: Name)
    requires d !in done
    ensures InCount(edges, n, done) == InCount(edges, n, done + {d}) + multiset(Targets(edges, d))[n]
  {
    if edges != [] {
      InCountFinish(edges[..|edges| - 1], n, done, d);
    }
  }

  /** Dependents whose last open edge is among the first j edges out of one finished issue. */
  ghost function Freed(edges: seq<Edge>, done: set<Name>, ts: seq<Name>, j: nat): seq<Name>
    requires j <= |ts|
  {
    if j == 0 then [] else
      Freed(edges, done, ts, j - 1) +
      (if multiset(ts[..j])[ts[j - 1]] == InCount(edges, ts[j - 1], done) then [ts[j - 1]] else [])
  }

  /** Dependents set free by finishing the first k issues of a level in order. */
  ghost function Release(edges: seq<Edge>, done: set<Name>, level: seq<Name>, k: nat): seq<Name>
    requires k <= |level|
  {
    if k == 0 then [] else
      var ts := Targets(edges, level[k - 1]);
      Release(edges, done, level, k - 1) + Freed(edges, done + SetOf(level[..k - 1]), ts, |ts|)
  }

  lemma PrefixCount(ts: seq<Name>, j: nat, n: Name)
    requires j <= |ts|
    ensures multiset(ts[..j])[n] <= multiset(ts)[n]
    ensures j > 0 ==> multiset(ts[..j]) == multiset(ts[..j - 1]) + multiset{ts[j - 1]}
  {
    assert ts == ts[..j] + ts[j..];
    if j > 0 {
      assert ts[..j] == ts[..j - 1] + [ts[j - 1]];
    }
  }

  lemma {:induction false} FreedMember(edges: seq<Edge>, done: set<Name>, d: Name, j: nat, n: Name)
    requires d !in done && j <= |Targets(edges, d)|
    ensures var ts := Targets(edges, d);
            n in Freed(edges, done, ts, j) <==> n in ts[..j] && multiset(ts[..j])[n] == InCount(edges, n, done)
  {
    var ts := Targets(edges, d);
    if j > 0 {
      FreedMember(edges, done, d, j - 1, n);
      assert ts[..j] == ts[..j - 1] + [ts[j - 1]];
      InCountFinish(edges, n, done, d);
      PrefixCount(ts, j, n);
    }
  }

  /** Whoever is freed by the j-th edge has not been freed by an earlier one. */
  lemma FreedOnce(edges: seq<Edge>, done: set<Name>, d: Name, j: nat)
    requires d !in done && 0 < j <= |Targets(edges, d)|
    ensures var ts := Targets(edges, d);
            ts[j - 1] in Freed(edges, done, ts, j - 1)
            ==> multiset(ts[..j])[ts[j - 1]] != InCount(edges, ts[j - 1], done)
  {
    var ts := Targets(edges, d);
    FreedMember(edges, done, d, j - 1, ts[j - 1]);
    PrefixCount(ts, j, ts[j - 1]);
    hide Freed, Targets, InCount;
  }

  lemma {:induction false} FreedDistinct(edges: seq<Edge>, done: set<Name>, d: Name, j: nat)
    requires d !in done && j <= |Targets(edges, d)|
    ensures Distinct(Freed(edges, done, Targets(edges, d), j))
  {
    hide Targets, InCount;
    var ts := Targets(edges, d);
    if j > 0 {
      FreedDistinct(edges, done, d, j - 1);
      FreedOnce(edges, done, d, j);
      var before, u := Freed(edges, done, ts, j - 1), ts[j - 1];
      if multiset(ts[..j])[u] == InCount(edges, u, done) {
        assert Distinct([u]);
        DistinctAppend(before, [u]);
      } else {
        assert Freed(edges, done, ts, j) == before + [] == before;
      }
    }
  }

  lemma FreedAll(edges: seq<Edge>, done: set<Name>, d: Name, n: Name)
    requires d !in done
    ensures var ts := Targets(edges, d);
            && Distinct(Freed(edges, done, ts, |ts|))
            && (n in Freed(edges, done, ts, |ts|)
                <==> (d, n) in edges && InCount(edges, n, done + {d}) == 0)
  {
    var ts := Targets(edges, d);
    FreedMember(edges, done, d, |ts|, n);
    FreedDistinct(edges, done, d, |ts|);
    InCountFinish(edges, n, done, d);
    InTargets(edges, d, n);
    assert ts[..|ts|] == ts;
  }

  lemma ReleaseStep(edges: seq<Edge>, done: set<Name>, before: set<Name>, d: Name, released: seq<Name>, n: Name)
    requires done <= before && d !in before
    requires n in released <==> InCount(edges, n, done) > 0 && InCount(edges, n, before) == 0
    ensures var ts := Targets(edges, d);
            var freed := Freed(edges, before, ts, |ts|);
            && (n in released || n in freed <==> InCount(edges, n, done) > 0 && InCount(edges, n, before + {d}) == 0)
            && !(n in released && n in freed)
            && Distinct(freed)
  {
    FreedAll(edges, before, d, n);
    InCountZero(edges, n, done);
    InCountZero(edges, n, before);
    InCountZero(edges, n, before + {d});
    hide InCount, Freed, Targets, Distinct;
  }

  lemma {:induction false} ReleasePrefix(edges: seq<Edge>, done: set<Name>, level: seq<Name>, k: nat)
    requires k <= |level| && Distinct(level)
    requires forall n :: n in level ==> n !in done
    ensures Distinct(Release(edges, done, level, k))
    ensures forall n :: n in Release(edges, done, level, k)
                        <==> InCount(edges, n, done) > 0 && InCount(edges, n, done + SetOf(level[..k])) == 0
  {
    hide InCount, Freed, Targets;
    if k == 0 {
      assert done + SetOf(level[..0]) == done;
    } else {
      ReleasePrefix(edges, done, level, k - 1);
      var d, before := level[k - 1], done + SetOf(level[..k - 1]);
      assert level[..k] == level[..k - 1] + [d];
      assert done + SetOf(level[..k]) == before + {d};
      var ts, released := Targets(edges, d), Release(edges, done, level, k - 1);
      var freed := Freed(edges, before, ts, |ts|);
      ReleaseStep(edges, done, before, d, released, d);
      forall n
        ensures n in released || n in freed <==> InCount(edges, n, done) > 0 && InCount(edges, n, before + {d}) == 0
        ensures !(n in released && n in freed)
      {
        ReleaseStep(edges, done, before, d, released, n);
      }
      DistinctAppend(released, freed);
    }
  }

  /** The queue holds exactly the unfinished issues that wait for nothing. */
  ghost predicate Frontier(edges: seq<Edge>, names: set<Name>, done: set<Name>, queue: seq<Name>) {
    && Distinct(queue)
    && (forall n :: n in queue <==> n in names && n !in done && InCount(edges, n, done) == 0)
    && (forall n :: n in done ==> InCount(edges, n, done) == 0)
    && (forall e :: e in edges ==> e.0 in names && e.1 in names)
    && done <= names
  }

  lemma NextFrontier(edges: seq<Edge>, names: set<Name>, done: set<Name>, queue: seq<Name>)
    requires Frontier(edges, names, done, queue)
    ensures Frontier(edges, names, done + SetOf(queue), Release(edges, done, queue, |queue|))
    ensures |done + SetOf(queue)| == |done| + |queue|
  {
    var after := done + SetOf(queue);
    var next := Release(edges, done, queue, |queue|);
    ReleasePrefix(edges, done, queue, |queue|);
    assert queue[..|queue|] == queue;
    SetSize(queue);
    assert done !! SetOf(queue);
    forall n
      ensures n in next <==> n in names && n !in after && InCount(edges, n, after) == 0
      ensures n in after ==> InCount(edges, n, after) == 0
    {
      InCountZero(edges, n, done);
      InCountZero(edges, n, after);
    }
  }

  /** Peel off the frontier, level by level, until it is empty. */
  ghost function Peel(edges: seq<Edge>, names: set<Name>, done: set<Name>, queue: seq<Name>): seq<seq<Name>>
    requires Frontier(edges, names, done, queue)
    decreases |names - done|
  {
    if queue == [] then [] else
      NextFrontier(edges, names, done, queue);
      PeelShrinks(names, done, queue);
      [queue] + Peel(edges, names, done + SetOf(queue), Release(edges, done, queue, |queue|))
  }

  lemma PeelShrinks(names: set<Name>, done: set<Name>, queue: seq<Name>)
    requires queue != [] && queue[0] in names && queue[0] !in done
    ensures |names - (done + SetOf(queue))| < |names - done|
  {
    assert queue[0] in SetOf(queue);
    assert names - (done + SetOf(queue)) < names - done;
    SubsetSize(names - (done + SetOf(queue)), names - done);
  }

  lemma PeelStep(edges: seq<Edge>, names: set<Name>, done: set<Name>, queue: seq<Name>)
    requires Frontier(edges, names, done, queue) && queue != []
    ensures var after, next := done + SetOf(queue), Release(edges, done, queue, |queue|);
            && Frontier(edges, names, after, next)
            && Peel(edges, names, done, queue) == [queue] + Peel(edges, names, after, next)
            && |after| == |done| + |queue|
            && |names - after| < |names - done|
  {
    NextFrontier(edges, names, done, queue);
    PeelShrinks(names, done, queue);
  }

  ghost predicate Listed(levels: seq<seq<Name>>, n: Name) {
    exists k :: 0 <= k < |levels| && n in levels[k]
  }

  /**
   * What every layering promises, given that `done` is finished already: no empty
   * level, nobody twice, every dependency strictly earlier, nobody later than its
   * dependencies force, and nobody left out who could have been placed.
   */
  ghost predicate Layering(edges: seq<Edge>, names: set<Name>, done: set<Name>, levels: seq<seq<Name>>) {
    && Partition(names, done, levels)
    && DependenciesEarlier(edges, done, levels)
    && NotTooLate(edges, levels)
    && NobodyLeftOut(edges, names, done, levels)
  }

  ghost predicate Partition(names: set<Name>, done: set<Name>, levels: seq<seq<Name>>) {
    && (forall k :: 0 <= k < |levels| ==> levels[k] != [] && Distinct(levels[k]))
    && (forall j, k, n :: 0 <= j < |levels| && 0 <= k < |levels| && n in levels[j] && n in levels[k] ==> j == k)
    && (forall k, n :: 0 <= k < |levels| && n in levels[k] ==> n in names && n !in done)
  }

  ghost predicate DependenciesEarlier(edges: seq<Edge>, done: set<Name>, levels: seq<seq<Name>>) {
    forall k, e :: 0 <= k < |levels| && e in edges && e.1 in levels[k] ==> e.0 in done || Listed(levels[..k], e.0)
  }

  ghost predicate NotTooLate(edges: seq<Edge>, levels: seq<seq<Name>>) {
    forall k, n :: 0 < k < |levels| && n in levels[k] ==> DependsOnLevel(edges, levels[k - 1], n)
  }

  ghost predicate NobodyLeftOut(edges: seq<Edge>, names: set<Name>, done: set<Name>, levels: seq<seq<Name>>) {
    forall n :: n in names && n !in done && !Listed(levels, n) ==> StillWaits(edges, done, levels, n)
  }

  ghost predicate DependsOnLevel(edges: seq<Edge>, level: seq<Name>, n: Name) {
    exists d :: d in level && (d, n) in edges
  }

  ghost predicate StillWaits(edges: seq<Edge>, done: set<Name>, levels: seq<seq<Name>>, n: Name) {
    exists d :: (d, n) in edges && d !in done && !Listed(levels, d)
  }

  lemma ListedCons(level: seq<Name>, rest: seq<seq<Name>>, n: Name)
    ensures Listed([level] + rest, n) <==> n in level || Listed(rest, n)
  {
    var all := [level] + rest;
    assert all[0] == level;
    if n in level {
      assert n in all[0];
    }
    if Listed(rest, n) {
      var k :| 0 <= k < |rest| && n in rest[k];
      assert n in all[k + 1];
    }
    if Listed(all, n) {
      var k :| 0 <= k < |all| && n in all[k];
      if k > 0 {
        assert n in rest[k - 1];
      }
    }
  }

  lemma {:induction false} PeelLayers(edges: seq<Edge>, names: set<Name>, done: set<Name>, queue: seq<Name>)
    requires Frontier(edges, names, done, queue)
    ensures Layering(edges, names, done, Peel(edges, names, done, queue))
    decreases |names - done|
  {
    if queue == [] {
      forall n | n in names && n !in done
        ensures StillWaits(edges, done, [], n)
      {
        InCountZero(edges, n, done);
        var e :| e in edges && e.1 == n && e.0 !in done;
        assert e == (e.0, n);
      }
    } else {
      NextFrontier(edges, names, done, queue);
      PeelShrinks(names, done, queue);
      var after := done + SetOf(queue);
      var next := Release(edges, done, queue, |queue|);
      var rest := Peel(edges, names, after, next);
      PeelLayers(edges, names, after, next);
      LayerOnTop(edges, names, done, queue, rest);
    }
  }

  lemma LayerOnTop(edges: seq<Edge>, names: set<Name>, done: set<Name>, queue: seq<Name>, rest: seq<seq<Name>>)
    requires Frontier(edges, names, done, queue) && queue != []
    requires Layering(edges, names, done + SetOf(queue), rest)
    requires rest != [] ==> rest[0] == Release(edges, done, queue, |queue|)
    ensures Layering(edges, names, done, [queue] + rest)
  {
    EarlierOnTop(edges, names, done, queue, rest);
    NotTooLateOnTop(edges, names, done, queue, rest);
    var after := done + SetOf(queue);
    var levels := [queue] + rest;
    assert Partition(names, done, levels);
    forall n | n in names && n !in done && !Listed(levels, n)
      ensures StillWaits(edges, done, levels, n)
    {
      ListedCons(queue, rest, n);
      assert StillWaits(edges, after, rest, n);
      var d :| (d, n) in edges && d !in after && !Listed(rest, d);
      ListedCons(queue, rest, d);
    }
  }

  lemma EarlierOnTop(edges: seq<Edge>, names: set<Name>, done: set<Name>, queue: seq<Name>, rest: seq<seq<Name>>)
    requires Frontier(edges, names, done, queue)
    requires DependenciesEarlier(edges, done + SetOf(queue), rest)
    ensures DependenciesEarlier(edges, done, [queue] + rest)
  {
    var levels := [queue] + rest;
    forall k, e | 0 <= k < |levels| && e in edges && e.1 in levels[k]
      ensures e.0 in done || Listed(levels[..k], e.0)
    {
      if k == 0 {
        InCountZero(edges, e.1, done);
      } else {
        assert e.1 in rest[k - 1];
        assert levels[..k] == [queue] + rest[..k - 1];
        ListedCons(queue, rest[..k - 1], e.0);
      }
    }
  }

  lemma NotTooLateOnTop(edges: seq<Edge>, names: set<Name>, done: set<Name>, queue: seq<Name>, rest: seq<seq<Name>>)
    requires Frontier(edges, names, done, queue)
    requires NotTooLate(edges, rest)
    requires rest != [] ==> rest[0] == Release(edges, done, queue, |queue|)
    ensures NotTooLate(edges, [queue] + rest)
  {
    var after := done + SetOf(queue);
    var levels := [queue] + rest;
    forall k, n | 0 < k < |levels| && n in levels[k]
      ensures DependsOnLevel(edges, levels[k - 1], n)
    {
      if k == 1 {
        ReleasePrefix(edges, done, queue, |queue|);
        assert queue[..|queue|] == queue;
        InCountZero(edges, n, done);
        InCountZero(edges, n, after);
        var e :| e in edges && e.1 == n && e.0 !in done;
        assert e.0 in after && e == (e.0, n);
      } else {
        assert n in rest[k - 1];
        assert DependsOnLevel(edges, rest[k - 2], n);
      }
    }
  }

  lemma DependencyLevel(edges: seq<Edge>, names: set<Name>, levels: seq<seq<Name>>, d: Name, n: Name, k: nat)
    returns (i: nat)
    requires Layering(edges, names, {}, levels)
    requires (d, n) in edges && k < |levels| && n in levels[k]
    ensures i < k && d in levels[i]
  {
    assert Listed(levels[..k], (d, n).0);
    i :| 0 <= i < k && d in levels[..k][i];
  }

  /** Going down a chain climbs at least one level per edge. */
  lemma {:induction false} ChainClimbs(edges: seq<Edge>, names: set<Name>, levels: seq<seq<Name>>, p: seq<Name>, k: nat)
    returns (j: nat)
    requires Layering(edges, names, {}, levels)
    requires IsPath(edges, p) && k < |levels| && p[|p| - 1] in levels[k]
    ensures j + |p| - 1 <= k && p[0] in levels[j]
  {
    hide Layering;
    if |p| == 1 {
      j := k;
    } else {
      var n := |p| - 1;
      assert Linked(edges, p, n - 1);
      var i := DependencyLevel(edges, names, levels, p[n - 1], p[n], k);
      SubPath(edges, p, 0, n);
      j := ChainClimbs(edges, names, levels, p[..n], i);
    }
  }

  /** Every issue is reached by a chain as long as its level is deep. */
  lemma {:induction false} ChainOfDepth(edges: seq<Edge>, names: set<Name>, levels: seq<seq<Name>>, n: Name, k: nat)
    returns (p: seq<Name>)
    requires Layering(edges, names, {}, levels)
    requires k < |levels| && n in levels[k]
    ensures IsPath(edges, p) && p[|p| - 1] == n && |p| == k + 1
    decreases k
  {
    if k == 0 {
      p := [n];
    } else {
      assert DependsOnLevel(edges, levels[k - 1], n);
      var d :| d in levels[k - 1] && (d, n) in edges;
      var q := ChainOfDepth(edges, names, levels, d, k - 1);
      assert Linked(edges, [d, n], 0);
      JoinPaths(edges, q, [d, n]);
      p := q + [d, n][1..];
    }
  }

  /** The level index is the longest dependency chain: attained, and never exceeded. */
  lemma LevelIsLongestChain(edges: seq<Edge>, names: set<Name>, levels: seq<seq<Name>>, n: Name, k: nat)
    requires Layering(edges, names, {}, levels)
    requires k < |levels| && n in levels[k]
    ensures exists p :: IsPath(edges, p) && p[|p| - 1] == n && |p| == k + 1
    ensures forall p :: IsPath(edges, p) && p[|p| - 1] == n ==> |p| <= k + 1
  {
    var q := ChainOfDepth(edges, names, levels, n, k);
    forall p | IsPath(edges, p) && p[|p| - 1] == n
      ensures |p| <= k + 1
    {
      var _ := ChainClimbs(edges, names, levels, p, k);
    }
  }

  /** An issue is left out of the levels exactly when a cycle is at or above it. */
  lemma UnlistedIsBlocked(edges: seq<Edge>, names: set<Name>, levels: seq<seq<Name>>, n: Name)
    requires Layering(edges, names, {}, levels)
    requires n in names && forall e :: e in edges ==> e.0 in names && e.1 in names
    ensures Listed(levels, n) <==> !Blocked(edges, n)
  {
    if Listed(levels, n) {
      var k :| 0 <= k < |levels| && n in levels[k];
      if Blocked(edges, n) {
        var c :| OnCycle(edges, c) && (c == n || Reaches(edges, c, n));
        var p :| PathFromTo(edges, p, c, c) && |p| >= 2;
        var i := k;
        if c != n {
          var q :| PathFromTo(edges, q, c, n) && |q| >= 2;
          i := ChainClimbs(edges, names, levels, q, k);
        }
        var j := ChainClimbs(edges, names, levels, p, i);
        assert false;
      }
    } else {
      var s := set x | x in names && !Listed(levels, x);
      forall x | x in s
        ensures HasDependencyIn(edges, s, x)
      {
        assert StillWaits(edges, {}, levels, x);
        var d :| (d, x) in edges && d !in {} && !Listed(levels, d);
        assert (d, x).0 in names;
      }
      StuckIsBlocked(edges, s, n);
    }
  }
}
