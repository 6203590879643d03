/** Dependency graphs: an edge (d, n) says that issue n depends on issue d. */
module Graph {
  import opened Collections

  type Name = string
  type Edge = (Name, Name)

  ghost predicate Linked(edges: seq<Edge>, p: seq<Name>, i: int)
    requires 0 <= i < |p| - 1
  {
    (p[i], p[i + 1]) in edges
  }

  /** A chain of dependencies, each element depending on the one before it. */
  ghost predicate IsPath(edges: seq<Edge>, p: seq<Name>) {
    |p| >= 1 && forall i :: 0 <= i < |p| - 1 ==> Linked(edges, p, i)
  }

  ghost predicate PathFromTo(edges: seq<Edge>, p: seq<Name>, a: Name, b: Name) {
    IsPath(edges, p) && p[0] == a && p[|p| - 1] == b
  }

  /** b depends on a, directly or through others: at least one edge. */
  ghost predicate Reaches(edges: seq<Edge>, a: Name, b: Name) {
    exists p :: PathFromTo(edges, p, a, b) && |p| >= 2
  }

  ghost predicate OnCycle(edges: seq<Edge>, n: Name) {
    Reaches(edges, n, n)
  }

  ghost predicate Acyclic(edges: seq<Edge>) {
    forall n :: !OnCycle(edges, n)
  }

  /** n lies on a cycle or transitively downstream of one. */
  ghost predicate Blocked(edges: seq<Edge>, n: Name) {
    exists c :: OnCycle(edges, c) && (c == n || Reaches(edges, c, n))
  }

  lemma EdgeReaches(edges: seq<Edge>, a: Name, b: Name)
    requires (a, b) in edges
    ensures Reaches(edges, a, b)
  {
    var p := [a, b];
    assert Linked(edges, p, 0);
    assert PathFromTo(edges, p, a, b);
  }

  lemma JoinPaths(edges: seq<Edge>, p: seq<Name>, q: seq<Name>)
    requires IsPath(edges, p) && IsPath(edges, q) && p[|p| - 1] == q[0]
    ensures PathFromTo(edges, p + q[1..], p[0], q[|q| - 1])
  {
    var r := p + q[1..];
    forall i | 0 <= i < |r| - 1
      ensures Linked(edges, r, i)
    {
      if i < |p| - 1 {
        assert Linked(edges, p, i);
      } else {
        assert Linked(edges, q, i - |p| + 1);
      }
    }
  }

  lemma SubPath(edges: seq<Edge>, p: seq<Name>, i: nat, j: nat)
    requires IsPath(edges, p) && i < j <= |p|
    ensures PathFromTo(edges, p[i..j], p[i], p[j - 1])
  {
    var r := p[i..j];
    forall k | 0 <= k < |r| - 1
      ensures Linked(edges, r, k)
    {
      assert Linked(edges, p, i + k);
    }
  }

  lemma ReachesTransitive(edges: seq<Edge>, a: Name, b: Name, c: Name)
    requires Reaches(edges, a, b) && Reaches(edges, b, c)
    ensures Reaches(edges, a, c)
  {
    var p :| PathFromTo(edges, p, a, b) && |p| >= 2;
    var q :| PathFromTo(edges, q, b, c) && |q| >= 2;
    JoinPaths(edges, p, q);
  }

  /** Whatever is reachable is entered by an edge. */
  lemma ReachesIsTarget(edges: seq<Edge>, a: Name, b: Name) returns (d: Name)
    requires Reaches(edges, a, b)
    ensures (d, b) in edges && (d == a || Reaches(edges, a, d))
  {
    var p :| PathFromTo(edges, p, a, b) && |p| >= 2;
    d := p[|p| - 2];
    assert Linked(edges, p, |p| - 2);
    if |p| > 2 {
      SubPath(edges, p, 0, |p| - 1);
    }
  }

  /** One dependency between two different issues goes round no cycle. */
  lemma OneEdgeIsAcyclic(edges: seq<Edge>, a: Name, b: Name)
    requires a != b && forall e :: e in edges ==> e == (a, b)
    ensures Acyclic(edges)
  {
    forall n
      ensures !OnCycle(edges, n)
    {
      if OnCycle(edges, n) {
        var d := ReachesIsTarget(edges, n, n);
        if d != n {
          var e := ReachesIsTarget(edges, n, d);
        }
        assert false;
      }
    }
  }

  /** A set that holds the successors of a start and is closed under edges holds all it reaches. */
  lemma {:induction false} ClosedHoldsReachable(edges: seq<Edge>, p: seq<Name>, s: set<Name>)
    requires IsPath(edges, p) && |p| >= 2
    requires forall e :: e in edges && (e.0 == p[0] || e.0 in s) ==> e.1 in s
    ensures p[|p| - 1] in s
  {
    var n := |p| - 1;
    assert Linked(edges, p, n - 1);
    if n > 1 {
      SubPath(edges, p, 0, n);
      ClosedHoldsReachable(edges, p[..n], s);
    }
    assert (p[n - 1], p[n]) in edges;
  }

  ghost predicate HasDependencyIn(edges: seq<Edge>, s: set<Name>, n: Name) {
    exists d :: d in s && (d, n) in edges
  }

  ghost predicate NoWayIn(edges: seq<Edge>, s: set<Name>) {
    forall n {:trigger HasDependencyIn(edges, s, n)} :: n in s ==> HasDependencyIn(edges, s, n)
  }

  /**
   * In a finite set whose every member has a predecessor inside the set, walking
   * back for as many steps as asked gives a path that ends at n and stays inside.
   */
  lemma {:induction false} WalkBack(edges: seq<Edge>, s: set<Name>, n: Name, steps: nat) returns (p: seq<Name>)
    requires n in s
    requires NoWayIn(edges, s)
    ensures IsPath(edges, p) && |p| == steps + 1 && p[|p| - 1] == n && SetOf(p) <= s
  {
    if steps == 0 {
      p := [n];
    } else {
      var q := WalkBack(edges, s, n, steps - 1);
      var x := q[0];
      assert x in SetOf(q);
      assert HasDependencyIn(edges, s, x);
      var d :| d in s && (d, x) in edges;
      p := [d] + q;
      forall i | 0 <= i < |p| - 1
        ensures Linked(edges, p, i)
      {
        if i > 0 {
          assert Linked(edges, q, i - 1);
        }
      }
    }
  }

  /** No way forward without a cycle: every member of such a set is blocked by one. */
  lemma StuckIsBlocked(edges: seq<Edge>, s: set<Name>, n: Name)
    requires n in s
    requires NoWayIn(edges, s)
    ensures Blocked(edges, n)
  {
    var p := WalkBack(edges, s, n, |s|);
    var i, j := Pigeonhole(p, s);
    SubPath(edges, p, i, j + 1);
    assert OnCycle(edges, p[j]);
    if j < |p| - 1 {
      SubPath(edges, p, j, |p|);
      assert Reaches(edges, p[j], n);
    }
  }
}
