/** Small facts about finite sequences and sets that the other modules share. */
module Collections {

  datatype Option<+T> = None | Some(value: T)

  function SetOf<T>(s: seq<T>): set<T> {
    set x | x in s
  }

  ghost predicate Distinct<T>(s: seq<T>) {
    forall i, j :: 0 <= i < j < |s| ==> s[i] != s[j]
  }

  function Flatten<T>(ss: seq<seq<T>>): seq<T> {
    if ss == [] then [] else ss[0] + Flatten(ss[1..])
  }

  /** A sequence has as many elements as its set exactly when nothing repeats. */
  lemma {:induction false} SetSize<T>(s: seq<T>)
    ensures |SetOf(s)| <= |s|
    ensures |SetOf(s)| == |s| <==> Distinct(s)
  {
    if s != [] {
      var n := |s| - 1;
      SetSize(s[..n]);
      assert s == s[..n] + [s[n]];
      assert SetOf(s) == SetOf(s[..n]) + {s[n]};
      if s[n] in s[..n] {
        var i :| 0 <= i < n && s[i] == s[n];
        assert !Distinct(s);
      } else {
        assert Distinct(s) <==> Distinct(s[..n]);
      }
    }
  }

  lemma OnlyMember<T>(s: seq<T>, x: T)
    requires s != [] && Distinct(s) && forall y :: y in s ==> y == x
    ensures s == [x]
  {
    assert s[0] in s;
    SetSize(s);
    assert SetOf(s) == {x};
  }

  lemma DistinctAppend<T>(a: seq<T>, b: seq<T>)
    requires Distinct(a) && Distinct(b)
    requires forall x :: x in b ==> x !in a
    ensures Distinct(a + b)
  {
    forall i, j | 0 <= i < j < |a + b|
      ensures (a + b)[i] != (a + b)[j]
    {
      if i < |a| <= j {
        assert b[j - |a|] in b;
      }
    }
  }

  lemma AppendAssociative<T>(a: seq<T>, b: seq<T>, c: seq<T>)
    ensures (a + b) + c == a + (b + c)
  {
  }

  lemma SubsetSize<T>(a: set<T>, b: set<T>)
    requires a <= b
    ensures |a| <= |b|
    ensures |a| == |b| ==> a == b
  {
    assert b == a + (b - a);
    assert |b| == |a| + |b - a|;
  }

  /** A sequence drawn from a set smaller than itself repeats an element. */
  lemma Pigeonhole<T>(p: seq<T>, s: set<T>) returns (i: nat, j: nat)
    requires SetOf(p) <= s
    requires |p| > |s|
    ensures i < j < |p| && p[i] == p[j]
  {
    SetSize(p);
    SubsetSize(SetOf(p), s);
    assert !Distinct(p);
    i, j :| 0 <= i < j < |p| && p[i] == p[j];
  }

  lemma {:induction false} FlattenSnoc<T>(ss: seq<seq<T>>, t: seq<T>)
    ensures Flatten(ss + [t]) == Flatten(ss) + t
  {
    if ss == [] {
      assert ss + [t] == [t];
      assert Flatten([t]) == t + Flatten<T>([]);
    } else {
      assert (ss + [t])[1..] == ss[1..] + [t];
      FlattenSnoc(ss[1..], t);
    }
  }

  lemma {:induction false} InFlatten<T>(ss: seq<seq<T>>, x: T)
    ensures x in Flatten(ss) <==> exists k :: 0 <= k < |ss| && x in ss[k]
  {
    if ss != [] {
      InFlatten(ss[1..], x);
      if x in Flatten(ss[1..]) {
        var k :| 0 <= k < |ss[1..]| && x in ss[1..][k];
        assert x in ss[k + 1];
      }
      if k :| 0 <= k < |ss| && x in ss[k] {
        if k > 0 {
          assert ss[1..][k - 1] == ss[k];
        }
      }
    }
  }
}
