/**
 * The tasks of one level under a semaphore, in every interleaving: a task starts when
 * it gets a permit (if permits are used at all) and gives it back when it ends.
 */
module LevelTasks {
  import opened Schemas
  import opened RunLoop

  datatype Task = Waiting | Working | Ended(reply: TaskReply)

  datatype Event = Start(i: nat) | End(i: nat, reply: TaskReply)

  /** `permits` is only used when the level is larger than a positive limit. */
  datatype Pool = Pool(tasks: seq<Task>, permits: int)

  predicate Bounded(n: nat, limit: int) {
    limit > 0 && n > limit
  }

  function Opened(n: nat, limit: int): Pool {
    Pool(seq(n, _ => Waiting), limit)
  }

  predicate Enabled(p: Pool, limit: int, e: Event) {
    && e.i < |p.tasks|
    && match e
       case Start(i) => p.tasks[i] == Waiting && (Bounded(|p.tasks|, limit) ==> p.permits > 0)
       case End(i, _) => p.tasks[i] == Working
  }

  function Do(p: Pool, limit: int, e: Event): Pool
    requires Enabled(p, limit, e)
  {
    var change := if Bounded(|p.tasks|, limit) then 1 else 0;
    match e
    case Start(i) => Pool(p.tasks[i := Working], p.permits - change)
    case End(i, r) => Pool(p.tasks[i := Ended(r)], p.permits + change)
  }

  /** An interleaving of a level of n tasks, up to some moment. */
  ghost predicate Legal(n: nat, limit: int, es: seq<Event>)
    decreases |es|, 0
  {
    es != [] ==> Legal(n, limit, es[..|es| - 1]) && Enabled(After(n, limit, es[..|es| - 1]), limit, es[|es| - 1])
  }

  ghost function After(n: nat, limit: int, es: seq<Event>): Pool
    requires Legal(n, limit, es)
    decreases |es|, 1
  {
    if es == [] then Opened(n, limit) else Do(After(n, limit, es[..|es| - 1]), limit, es[|es| - 1])
  }

  function Load(t: Task): nat {
    match t
    case Waiting => 2
    case Working => 1
    case Ended(_) => 0
  }

  ghost function WorkingNow(ts: seq<Task>): nat {
    if ts == [] then 0 else WorkingNow(ts[1..]) + if ts[0] == Working then 1 else 0
  }

  /** Events still to come: two for each waiting task and one for each working one. */
  ghost function ToCome(ts: seq<Task>): nat {
    if ts == [] then 0 else Load(ts[0]) + ToCome(ts[1..])
  }

  lemma {:induction false} ChangeOne(ts: seq<Task>, i: nat, t: Task)
    requires i < |ts|
    ensures WorkingNow(ts[i := t]) - (if t == Working then 1 else 0)
            == WorkingNow(ts) - (if ts[i] == Working then 1 else 0)
    ensures ToCome(ts[i := t]) - Load(t) == ToCome(ts) - Load(ts[i])
  {
    if i == 0 {
      assert ts[i := t][1..] == ts[1..];
    } else {
      ChangeOne(ts[1..], i - 1, t);
      assert ts[i := t][1..] == ts[1..][i - 1 := t];
    }
  }

  lemma {:induction false} CountBounds(ts: seq<Task>)
    ensures WorkingNow(ts) <= |ts|
    ensures ToCome(ts) == 0 <==> forall i :: 0 <= i < |ts| ==> ts[i].Ended?
    ensures (forall i :: 0 <= i < |ts| ==> ts[i] == Waiting) ==> WorkingNow(ts) == 0 && ToCome(ts) == 2 * |ts|
    ensures WorkingNow(ts) > 0 ==> exists i :: 0 <= i < |ts| && ts[i] == Working
  {
    if ts != [] {
      CountBounds(ts[1..]);
      assert forall i :: 0 <= i < |ts| - 1 ==> ts[1..][i] == ts[i + 1];
      if WorkingNow(ts[1..]) > 0 {
        var i :| 0 <= i < |ts[1..]| && ts[1..][i] == Working;
        assert ts[i + 1] == Working;
      }
      if forall i :: 0 <= i < |ts[1..]| ==> ts[1..][i].Ended? {
        assert forall i :: 0 < i < |ts| ==> ts[i] == ts[1..][i - 1];
      }
    }
  }

  /** Permits and working tasks add up, and every event so far has used up one of the 2n to come. */
  lemma {:induction false} PoolInvariant(n: nat, limit: int, es: seq<Event>)
    requires Legal(n, limit, es)
    ensures var p := After(n, limit, es);
            && |p.tasks| == n
            && (Bounded(n, limit) ==> p.permits >= 0 && p.permits + WorkingNow(p.tasks) == limit)
            && ToCome(p.tasks) + |es| == 2 * n
  {
    if es == [] {
      CountBounds(Opened(n, limit).tasks);
    } else {
      var before, e := es[..|es| - 1], es[|es| - 1];
      PoolInvariant(n, limit, before);
      var p := After(n, limit, before);
      ChangeOne(p.tasks, e.i, Working);
      if e.End? {
        ChangeOne(p.tasks, e.i, Ended(e.reply));
      }
    }
  }

  /** A positive limit is never exceeded, in any interleaving. */
  lemma NeverMoreThanLimit(n: nat, limit: int, es: seq<Event>)
    requires Legal(n, limit, es) && limit > 0
    ensures WorkingNow(After(n, limit, es).tasks) <= limit
  {
    PoolInvariant(n, limit, es);
    CountBounds(After(n, limit, es).tasks);
  }

  /** Waiting tasks never block each other for good: short of the end something can always happen. */
  lemma NoDeadlock(n: nat, limit: int, es: seq<Event>) returns (e: Event)
    requires Legal(n, limit, es) && |es| < 2 * n
    ensures Legal(n, limit, es + [e])
  {
    var p := After(n, limit, es);
    PoolInvariant(n, limit, es);
    CountBounds(p.tasks);
    if WorkingNow(p.tasks) > 0 {
      var i :| 0 <= i < n && p.tasks[i] == Working;
      e := End(i, Raised);
    } else {
      var i :| 0 <= i < n && !p.tasks[i].Ended?;
      NobodyWorking(p.tasks, i);
      e := Start(i);
    }
    assert (es + [e])[..|es|] == es;
  }

  lemma {:induction false} NobodyWorking(ts: seq<Task>, i: nat)
    requires WorkingNow(ts) == 0 && i < |ts|
    ensures ts[i] != Working
  {
    if i > 0 {
      NobodyWorking(ts[1..], i - 1);
    }
  }

  /** How often an event of one kind about one task occurs. */
  ghost function Occurrences(es: seq<Event>, i: nat, start: bool): nat {
    if es == [] then 0 else
      var e := es[|es| - 1];
      Occurrences(es[..|es| - 1], i, start) + if e.i == i && e.Start? == start then 1 else 0
  }

  /** Each task's state says exactly what has happened to it, and with which answer. */
  lemma {:induction false} TaskHistory(n: nat, limit: int, es: seq<Event>, i: nat)
    requires Legal(n, limit, es) && i < n
    ensures var p := After(n, limit, es);
            && |p.tasks| == n
            && Occurrences(es, i, true) == (if p.tasks[i] == Waiting then 0 else 1)
            && Occurrences(es, i, false) == (if p.tasks[i].Ended? then 1 else 0)
            && (p.tasks[i].Ended? <==> exists k :: 0 <= k < |es| && es[k].End? && es[k].i == i)
            && (forall k :: 0 <= k < |es| && es[k].End? && es[k].i == i ==> p.tasks[i] == Ended(es[k].reply))
  {
    if es != [] {
      var k := |es| - 1;
      var before, e := es[..k], es[k];
      TaskHistory(n, limit, before, i);
      assert es == before + [e];
      assert forall j :: 0 <= j < k ==> before[j] == es[j];
      if After(n, limit, es).tasks[i].Ended? && !(e.End? && e.i == i) {
        var j :| 0 <= j < |before| && before[j].End? && before[j].i == i;
        assert es[j].End? && es[j].i == i;
      }
      if j :| 0 <= j < |before| && before[j].End? && before[j].i == i {
        assert es[j].End? && es[j].i == i;
      }
    }
  }

  /**
   * An interleaving never has more than 2n events; one that has no further event to
   * offer has exactly 2n, and then every task has started once and ended once.
   */
  lemma EveryTaskRunsOnce(n: nat, limit: int, es: seq<Event>, i: nat)
    requires Legal(n, limit, es) && i < n
    requires forall e :: !Legal(n, limit, es + [e])
    ensures |es| == 2 * n
    ensures Occurrences(es, i, true) == 1 && Occurrences(es, i, false) == 1
    ensures |After(n, limit, es).tasks| == n && After(n, limit, es).tasks[i].Ended?
  {
    PoolInvariant(n, limit, es);
    TaskHistory(n, limit, es, i);
    hide Legal, Occurrences;
    if |es| < 2 * n {
      var e := NoDeadlock(n, limit, es);
    }
    CountBounds(After(n, limit, es).tasks);
  }

  /**
   * The semaphore holds nobody back without need: a task may start exactly if it has not
   * started and there is no limit, the level fits it, or fewer than the limit are working;
   * and it may end exactly if it has started and not ended.
   */
  lemma MayHappenNext(n: nat, limit: int, es: seq<Event>, i: nat, reply: TaskReply)
    requires Legal(n, limit, es) && i < n
    ensures Legal(n, limit, es + [Start(i)]) <==>
              && Occurrences(es, i, true) == 0
              && (limit <= 0 || n <= limit || WorkingNow(After(n, limit, es).tasks) < limit)
    ensures Legal(n, limit, es + [End(i, reply)]) <==>
              Occurrences(es, i, true) == 1 && Occurrences(es, i, false) == 0
  {
    PoolInvariant(n, limit, es);
    TaskHistory(n, limit, es, i);
    assert (es + [Start(i)])[..|es|] == es && (es + [End(i, reply)])[..|es|] == es;
    hide Occurrences, ToCome, WorkingNow;
  }

  // ------------------------------------------------------------------------- buckets

  ghost predicate Increasing(ps: seq<nat>) {
    forall i, j :: 0 <= i < j < |ps| ==> ps[i] < ps[j]
  }

  /** A bucket is its results in task order: the positions it took, increasing, all of them and no others. */
  lemma {:induction false} BucketPositions(rs: seq<IssueResult>, b: Bucket) returns (ps: seq<nat>)
    ensures |ps| == |InBucket(rs, b)| && Increasing(ps)
    ensures forall j :: 0 <= j < |ps| ==> ps[j] < |rs| && InBucket(rs, b)[j] == rs[ps[j]]
    ensures forall i: nat :: i in ps <==> i < |rs| && BucketOf(rs[i].outcome) == b
  {
    if rs == [] {
      ps := [];
    } else {
      var k := |rs| - 1;
      ps := BucketPositions(rs[..k], b);
      if BucketOf(rs[k].outcome) == b {
        ps := ps + [k];
      }
    }
  }

  /** Every task of the level is in exactly one bucket. */
  lemma {:induction false} BucketsPartition(rs: seq<IssueResult>)
    ensures |InBucket(rs, Success)| + |InBucket(rs, Failure)| + |InBucket(rs, Skip)| == |rs|
    ensures multiset(InBucket(rs, Success)) + multiset(InBucket(rs, Failure)) + multiset(InBucket(rs, Skip))
            == multiset(rs)
  {
    if rs != [] {
      hide InBucket, BucketOf;
      var k := |rs| - 1;
      var x, b := rs[k], BucketOf(rs[k].outcome);
      BucketsPartition(rs[..k]);
      assert rs == rs[..k] + [x];
      BucketSnoc(rs[..k], x, Success);
      BucketSnoc(rs[..k], x, Failure);
      BucketSnoc(rs[..k], x, Skip);
      assert multiset(rs) == multiset(rs[..k]) + multiset{x};
      AddToOne(multiset(InBucket(rs[..k], Success)), multiset(InBucket(rs[..k], Failure)),
               multiset(InBucket(rs[..k], Skip)), multiset{x});
      match b {
        case Success =>
        case Failure =>
        case Skip =>
      }
    }
  }

  lemma AddToOne<T>(a: multiset<T>, b: multiset<T>, c: multiset<T>, x: multiset<T>)
    ensures (a + x) + b + c == (a + b + c) + x
    ensures a + (b + x) + c == (a + b + c) + x
    ensures a + b + (c + x) == (a + b + c) + x
  {
  }

  lemma BucketSnoc(rs: seq<IssueResult>, x: IssueResult, b: Bucket)
    ensures |InBucket(rs + [x], b)| == |InBucket(rs, b)| + if BucketOf(x.outcome) == b then 1 else 0
    ensures multiset(InBucket(rs + [x], b))
            == multiset(InBucket(rs, b)) + if BucketOf(x.outcome) == b then multiset{x} else multiset{}
  {
    assert (rs + [x])[..|rs|] == rs;
  }

  /** Whatever the interleaving, the level's results depend only on each task's own answer. */
  ghost function Replies(n: nat, limit: int, es: seq<Event>): nat -> TaskReply
    requires Legal(n, limit, es)
  {
    var ts := After(n, limit, es).tasks;
    (i: nat) => if i < |ts| && ts[i].Ended? then ts[i].reply else Raised
  }

  lemma InterleavingDoesNotMatter(active: seq<Issue>, limit: int, limit': int, es: seq<Event>, es': seq<Event>)
    requires Legal(|active|, limit, es) && Legal(|active|, limit', es')
    requires forall i, r :: End(i, r) in es <==> End(i, r) in es'
    ensures Classified(Results(active, Replies(|active|, limit, es)))
            == Classified(Results(active, Replies(|active|, limit', es')))
  {
    var n := |active|;
    var a, b := Replies(n, limit, es), Replies(n, limit', es');
    forall i | 0 <= i < n
      ensures a(i) == b(i)
    {
      TaskHistory(n, limit, es, i);
      TaskHistory(n, limit', es', i);
      hide Legal, Occurrences, After;
      EndsAgree(es, es', i);
    }
    hide Legal, After;
    assert Results(active, a) == Results(active, b);
  }

  lemma EndsAgree(es: seq<Event>, es': seq<Event>, i: nat)
    requires forall j, r :: End(j, r) in es <==> End(j, r) in es'
    ensures forall k :: 0 <= k < |es| && es[k].End? && es[k].i == i
                        ==> exists k' :: 0 <= k' < |es'| && es'[k'] == es[k] && es'[k'].End? && es'[k'].i == i
    ensures forall k :: 0 <= k < |es'| && es'[k].End? && es'[k].i == i
                        ==> exists k' :: 0 <= k' < |es| && es[k'] == es'[k] && es[k'].End? && es[k'].i == i
  {
    forall k | 0 <= k < |es| && es[k].End?
      ensures es[k] in es'
    {
      assert es[k] == End(es[k].i, es[k].reply);
    }
    forall k | 0 <= k < |es'| && es'[k].End?
      ensures es'[k] in es
    {
      assert es'[k] == End(es'[k].i, es'[k].reply);
    }
  }
}
