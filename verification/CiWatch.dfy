/** Watching the checks of a pull request: the polling loop, and what its verdict rests on. */
module CiWatch {
  import opened Collections

  /** One row of the checks listing; `sha` is normalised, and empty when not reported. */
  datatype Row = Row(name: string, bucket: string, sha: string)

  datatype Payload = Rows(rows: seq<Row>) | Unparseable

  datatype Poll = Poll(exitedZero: bool, payload: Payload)

  /** One watch: the anchoring commit (empty for none), the cap in seconds, what each poll
      returns and the seconds elapsed when its deadline is checked. */
  datatype Watch = Watch(anchor: string, wait: int, polls: nat -> Poll, elapsed: nat -> real)

  datatype Status = Passed | Failed(checks: seq<Row>) | TimedOut | NoChecks | Error

  predicate Pending(r: Row) {
    r.bucket == "pending" || r.bucket == "queued"
  }

  predicate Failing(r: Row) {
    r.bucket == "fail" || r.bucket == "cancel"
  }

  /** All listed checks have settled. */
  predicate IsConclusive(rows: seq<Row>) {
    forall i :: 0 <= i < |rows| ==> !Pending(rows[i])
  }

  /** Rows of another commit are foreign; rows without a commit might be ours. */
  predicate Foreign(anchor: string, r: Row) {
    anchor != "" && r.sha != "" && r.sha != anchor
  }

  function Eligible(anchor: string, rows: seq<Row>): seq<Row> {
    if rows == [] then [] else
      var k := |rows| - 1;
      if Foreign(anchor, rows[k]) then Eligible(anchor, rows[..k]) else Eligible(anchor, rows[..k]) + [rows[k]]
  }

  /** The rows a verdict reports as failed. */
  function FailedRows(rows: seq<Row>): seq<Row> {
    if rows == [] then [] else
      var k := |rows| - 1;
      if Failing(rows[k]) then FailedRows(rows[..k]) + [rows[k]] else FailedRows(rows[..k])
  }

  function Classify(rows: seq<Row>): Status {
    if FailedRows(rows) == [] then Passed else Failed(FailedRows(rows))
  }

  predicate Matches(anchor: string, rows: seq<Row>) {
    exists i :: 0 <= i < |rows| && rows[i].sha == anchor
  }

  /** The listing carries no commit at all, so it cannot be anchored. */
  predicate Unanchored(rows: seq<Row>) {
    rows != [] && forall i :: 0 <= i < |rows| ==> rows[i].sha == ""
  }

  // ------------------------------------------------------------- the declarative reading

  function RowsOf(p: Poll): seq<Row> {
    if p.payload.Rows? then p.payload.rows else []
  }

  /** A poll is an error if it cannot be read, or exits non-zero with nothing to read. */
  predicate Broken(p: Poll) {
    p.payload.Unparseable? || (!p.exitedZero && p.payload.rows == [])
  }

  ghost predicate SeenAny(w: Watch, i: nat) {
    exists j: nat :: j <= i && RowsOf(w.polls(j)) != []
  }

  ghost predicate SeenAnchor(w: Watch, i: nat) {
    exists j: nat :: j <= i && Matches(w.anchor, RowsOf(w.polls(j)))
  }

  ghost predicate VerdictAt(w: Watch, i: nat) {
    var rows := RowsOf(w.polls(i));
    && !Broken(w.polls(i))
    && Eligible(w.anchor, rows) != [] && IsConclusive(Eligible(w.anchor, rows))
    && (w.anchor == "" || Unanchored(rows) || SeenAnchor(w, i))
  }

  /** Whole seconds, cut off towards zero. */
  function WholeSeconds(x: real): int {
    if x >= 0.0 then x.Floor else -(-x).Floor
  }

  predicate DeadlineAt(w: Watch, i: nat) {
    WholeSeconds(w.elapsed(i)) >= w.wait
  }

  ghost predicate StopsAt(w: Watch, i: nat) {
    Broken(w.polls(i)) || VerdictAt(w, i) || DeadlineAt(w, i)
  }

  ghost function ResultAt(w: Watch, i: nat): Status {
    if Broken(w.polls(i)) then Error
    else if VerdictAt(w, i) then Classify(Eligible(w.anchor, RowsOf(w.polls(i))))
    else if !SeenAny(w, i) || (w.anchor != "" && !SeenAnchor(w, i)) then NoChecks
    else TimedOut
  }

  /** Sleeping takes at least the poll interval. */
  ghost predicate ClockAdvances(w: Watch, interval: int) {
    w.elapsed(0) >= 0.0 && forall i: nat :: w.elapsed(i + 1) >= w.elapsed(i) + interval as real
  }

  // --------------------------------------------------------------------------- the loop

  /**
   * Poll until an error, a verdict or the deadline, but no more than `patience` times: on a
   * clock that stands still a watch need not end. The answer is that of the first poll at
   * which the watch may stop. An anchored verdict has seen its commit unless the listing
   * carries no commit at all, and the deadline tells checks still pending from checks
   * never seen.
   */
  method WatchPrChecks(w: Watch, patience: nat) returns (status: Option<Status>, last: nat)
    ensures forall j: nat :: j < last ==> !StopsAt(w, j)
    ensures status.None? ==> last == patience
    ensures status.Some? ==> last < patience && StopsAt(w, last) && status.value == ResultAt(w, last)
    ensures status.Some? && (status.value.Passed? || status.value.Failed?) ==>
              w.anchor == "" || SeenAnchor(w, last) || Unanchored(RowsOf(w.polls(last)))
    ensures status == Some(TimedOut) ==>
              DeadlineAt(w, last) && SeenAny(w, last) && (w.anchor != "" ==> SeenAnchor(w, last))
    ensures status == Some(NoChecks) ==>
              DeadlineAt(w, last) && (!SeenAny(w, last) || (w.anchor != "" && !SeenAnchor(w, last)))
  {
    var sawAny, sawAnchor := false, false;
    last := 0;
    while last < patience
      invariant last <= patience
      invariant forall j: nat :: j < last ==> !StopsAt(w, j)
      invariant last > 0 ==> sawAny == SeenAny(w, last - 1)
      invariant last > 0 && w.anchor != "" ==> sawAnchor == SeenAnchor(w, last - 1)
      invariant last == 0 ==> !sawAny && !sawAnchor
    {
      var poll := w.polls(last);
      if Broken(poll) {
        return Some(Error), last;
      }
      var rows := poll.payload.rows;
      var eligible := Eligible(w.anchor, rows);
      if w.anchor != "" && Matches(w.anchor, rows) {
        sawAnchor := true;
      }
      if rows != [] {
        sawAny := true;
      }
      SeenSoFar(w, last);
      var mayJudge := eligible != [] && (w.anchor == "" || Unanchored(rows) || sawAnchor);
      if mayJudge && IsConclusive(eligible) {
        return Some(Classify(eligible)), last;
      }
      if DeadlineAt(w, last) {
        if !sawAny || (w.anchor != "" && !sawAnchor) {
          return Some(NoChecks), last;
        }
        return Some(TimedOut), last;
      }
      last := last + 1;
    }
    status := None;
  }

  /** When sleeping takes at least the interval, a watch may stop at every poll whose intervals add up to the cap. */
  lemma WatchEnds(w: Watch, interval: int, i: nat)
    requires interval > 0 && ClockAdvances(w, interval) && i * interval >= w.wait
    ensures StopsAt(w, i)
  {
    ElapsedAtLeast(w, interval, i);
    SecondsAtLeast(w.elapsed(i), i * interval);
    assert DeadlineAt(w, i);
  }

  lemma {:induction false} ElapsedAtLeast(w: Watch, interval: int, i: nat)
    requires interval > 0 && ClockAdvances(w, interval)
    ensures w.elapsed(i) >= (i * interval) as real
  {
    if i > 0 {
      ElapsedAtLeast(w, interval, i - 1);
      NextMultiple(i - 1, interval);
      assert w.elapsed((i - 1) + 1) >= w.elapsed(i - 1) + interval as real;
    }
  }

  lemma SecondsAtLeast(x: real, n: nat)
    requires x >= n as real
    ensures WholeSeconds(x) >= n
  {
    assert x < (x.Floor + 1) as real;
  }

  lemma SeenSoFar(w: Watch, i: nat)
    ensures SeenAny(w, i) <==> RowsOf(w.polls(i)) != [] || (i > 0 && SeenAny(w, i - 1))
    ensures SeenAnchor(w, i) <==> Matches(w.anchor, RowsOf(w.polls(i))) || (i > 0 && SeenAnchor(w, i - 1))
  {
  }

  lemma NextMultiple(k: nat, interval: int)
    ensures (k + 1) * interval == k * interval + interval
    ensures ((k + 1) * interval) as real == (k * interval) as real + interval as real
  {
  }

  // ------------------------------------------------------------------------ properties

  lemma {:induction false} FailedRowsMembers(rows: seq<Row>)
    ensures forall r :: r in FailedRows(rows) <==> r in rows && Failing(r)
  {
    if rows != [] {
      var k := |rows| - 1;
      FailedRowsMembers(rows[..k]);
      assert rows == rows[..k] + [rows[k]];
    }
  }

  lemma {:induction false} EligibleMembers(anchor: string, rows: seq<Row>)
    ensures forall r :: r in Eligible(anchor, rows) <==> r in rows && !Foreign(anchor, r)
  {
    if rows != [] {
      var k := |rows| - 1;
      EligibleMembers(anchor, rows[..k]);
      assert rows == rows[..k] + [rows[k]];
    }
  }

  /** The row may count: it is not tied to another commit than the anchor. */
  predicate Counts(anchor: string, r: Row) {
    anchor == "" || r.sha == "" || r.sha == anchor
  }

  /** The poll can be read: it parses, and a non-zero exit comes with rows, as it does when checks have failed. */
  predicate Readable(p: Poll) {
    p.payload.Rows? && (p.exitedZero || p.payload.rows != [])
  }

  /** The anchor was listed by the i-th poll or before. */
  ghost predicate AnchorListed(w: Watch, i: nat) {
    exists j: nat, r :: j <= i && w.polls(j).payload.Rows? && r in w.polls(j).payload.rows && r.sha == w.anchor
  }

  lemma AnchorSeen(w: Watch, i: nat)
    ensures SeenAnchor(w, i) <==> AnchorListed(w, i)
  {
    if SeenAnchor(w, i) {
      var j: nat :| j <= i && Matches(w.anchor, RowsOf(w.polls(j)));
      var k :| 0 <= k < |RowsOf(w.polls(j))| && RowsOf(w.polls(j))[k].sha == w.anchor;
      assert RowsOf(w.polls(j))[k] in w.polls(j).payload.rows;
    }
    if AnchorListed(w, i) {
      var j: nat, r :| j <= i && w.polls(j).payload.Rows? && r in w.polls(j).payload.rows && r.sha == w.anchor;
      assert Matches(w.anchor, RowsOf(w.polls(j)));
    }
  }

  /**
   * When a watch may judge: the listing can be read, some row counts, no row that counts is
   * pending or queued, and if there is an anchor it has been listed, or no row of this
   * listing carries a commit.
   */
  lemma VerdictExactly(w: Watch, i: nat)
    ensures var p := w.polls(i);
            VerdictAt(w, i) <==>
              && Readable(p)
              && (exists r :: r in p.payload.rows && Counts(w.anchor, r))
              && (forall r :: r in p.payload.rows && Counts(w.anchor, r) ==>
                                r.bucket != "pending" && r.bucket != "queued")
              && (w.anchor == "" || AnchorListed(w, i) || forall r :: r in p.payload.rows ==> r.sha == "")
  {
    var rows := RowsOf(w.polls(i));
    var eligible := Eligible(w.anchor, rows);
    EligibleMembers(w.anchor, rows);
    AnchorSeen(w, i);
    assert forall r :: Foreign(w.anchor, r) <==> !Counts(w.anchor, r);
    hide Eligible, SeenAnchor, AnchorListed;
    if eligible != [] {
      assert eligible[0] in eligible;
    }
    assert IsConclusive(eligible) <==> forall r :: r in eligible ==> !Pending(r);
    assert Unanchored(rows) <==> rows != [] && forall r :: r in rows ==> r.sha == "";
  }

  /**
   * What a verdict says: it passes exactly if no row that counts has failed or was
   * cancelled; otherwise it fails and lists exactly those that have.
   */
  lemma VerdictMeans(w: Watch, i: nat)
    requires VerdictAt(w, i)
    ensures var rows := RowsOf(w.polls(i));
            && (ResultAt(w, i) == Passed <==>
                  forall r :: r in rows && Counts(w.anchor, r) ==> r.bucket != "fail" && r.bucket != "cancel")
            && (ResultAt(w, i) != Passed ==>
                  ResultAt(w, i).Failed?
                  && forall r :: r in ResultAt(w, i).checks <==>
                                   r in rows && Counts(w.anchor, r) && (r.bucket == "fail" || r.bucket == "cancel"))
  {
    var rows := RowsOf(w.polls(i));
    var eligible := Eligible(w.anchor, rows);
    EligibleMembers(w.anchor, rows);
    FailedRowsMembers(eligible);
    assert forall r :: Foreign(w.anchor, r) <==> !Counts(w.anchor, r);
    hide Eligible, FailedRows, VerdictAt;
    if FailedRows(eligible) != [] {
      assert FailedRows(eligible)[0] in FailedRows(eligible);
    }
  }

  /**
   * What the other endings say: an error is a poll that cannot be read, and short of an
   * error or a verdict a watch ends exactly when the elapsed time, cut to whole seconds,
   * reaches the cap; it tells checks still pending from checks never seen.
   */
  lemma EndingsMean(w: Watch, i: nat)
    ensures StopsAt(w, i) && ResultAt(w, i) == Error <==> !Readable(w.polls(i))
    ensures var late := if w.wait > 0 then w.elapsed(i) >= w.wait as real else w.elapsed(i) > (w.wait - 1) as real;
            StopsAt(w, i) <==> !Readable(w.polls(i)) || VerdictAt(w, i) || late
    ensures StopsAt(w, i) && Readable(w.polls(i)) && !VerdictAt(w, i) ==>
              ResultAt(w, i) == if SeenAny(w, i) && (w.anchor == "" || AnchorListed(w, i)) then TimedOut else NoChecks
  {
    AnchorSeen(w, i);
    hide VerdictAt, SeenAny, SeenAnchor, AnchorListed, FailedRows;
    CutToSeconds(w.elapsed(i), w.wait);
  }

  lemma CutToSeconds(x: real, wait: int)
    ensures WholeSeconds(x) >= wait <==> if wait > 0 then x >= wait as real else x > (wait - 1) as real
  {
    if x >= 0.0 {
      assert x.Floor as real <= x < (x.Floor + 1) as real;
    } else {
      assert (-x).Floor as real <= -x < ((-x).Floor + 1) as real;
    }
  }

  /** Two listings that differ only in what rows of other commits say. */
  ghost predicate SameButForeign(anchor: string, a: seq<Row>, b: seq<Row>) {
    && |a| == |b|
    && forall i :: 0 <= i < |a| ==> a[i] == b[i] || (Foreign(anchor, a[i]) && Foreign(anchor, b[i]))
  }

  ghost predicate SamePolls(w: Watch, w': Watch) {
    && w.anchor == w'.anchor && w.wait == w'.wait
    && forall i: nat ::
         && w.elapsed(i) == w'.elapsed(i)
         && w.polls(i).exitedZero == w'.polls(i).exitedZero
         && w.polls(i).payload.Rows? == w'.polls(i).payload.Rows?
         && SameButForeign(w.anchor, RowsOf(w.polls(i)), RowsOf(w'.polls(i)))
  }

  lemma {:induction false} SameEligible(anchor: string, a: seq<Row>, b: seq<Row>)
    requires SameButForeign(anchor, a, b)
    ensures Eligible(anchor, a) == Eligible(anchor, b)
    ensures Unanchored(a) <==> Unanchored(b)
    ensures anchor != "" ==> (Matches(anchor, a) <==> Matches(anchor, b))
  {
    assert forall i :: 0 <= i < |a| ==> (a[i].sha == "" <==> b[i].sha == "");
    assert forall i :: 0 <= i < |a| ==> (a[i].sha == anchor <==> b[i].sha == anchor);
    if a != [] {
      var k := |a| - 1;
      SameEligible(anchor, a[..k], b[..k]);
    }
  }

  lemma SamePollsSeen(w: Watch, w': Watch, i: nat)
    requires SamePolls(w, w') && w.anchor != ""
    ensures SeenAny(w, i) <==> SeenAny(w', i)
    ensures SeenAnchor(w, i) <==> SeenAnchor(w', i)
  {
    forall j: nat
      ensures RowsOf(w.polls(j)) != [] <==> RowsOf(w'.polls(j)) != []
      ensures Matches(w.anchor, RowsOf(w.polls(j))) <==> Matches(w.anchor, RowsOf(w'.polls(j)))
    {
      SameEligible(w.anchor, RowsOf(w.polls(j)), RowsOf(w'.polls(j)));
    }
  }

  /**
   * Checks of other commits never decide: whatever they report, an anchored watch stops
   * at the same poll with the same answer.
   */
  lemma ForeignRowsNeverDecide(w: Watch, w': Watch, i: nat)
    requires SamePolls(w, w') && w.anchor != ""
    ensures StopsAt(w, i) <==> StopsAt(w', i)
    ensures ResultAt(w, i) == ResultAt(w', i)
  {
    SameEligible(w.anchor, RowsOf(w.polls(i)), RowsOf(w'.polls(i)));
    SamePollsSeen(w, w', i);
    assert RowsOf(w.polls(i)) == [] <==> RowsOf(w'.polls(i)) == [];
    hide SeenAny, SeenAnchor, Eligible, Unanchored, Matches;
  }

  lemma {:induction false} UnanchoredAllEligible(anchor: string, rows: seq<Row>)
    requires forall i :: 0 <= i < |rows| ==> rows[i].sha == ""
    ensures Eligible(anchor, rows) == rows
  {
    if rows != [] {
      var k := |rows| - 1;
      UnanchoredAllEligible(anchor, rows[..k]);
      assert rows == rows[..k] + [rows[k]];
    }
  }

  /**
   * An anchored watch of listings that never carry a commit judges by all of their rows;
   * it ends in "no checks", although checks were seen, exactly when some are still
   * pending at the deadline.
   */
  lemma ListingsWithoutCommit(w: Watch, i: nat)
    requires w.anchor != "" && forall j: nat :: j <= i ==> Unanchored(RowsOf(w.polls(j)))
    ensures SeenAny(w, i)
    ensures VerdictAt(w, i) <==> IsConclusive(RowsOf(w.polls(i)))
    ensures StopsAt(w, i) && ResultAt(w, i) == NoChecks <==> DeadlineAt(w, i) && !IsConclusive(RowsOf(w.polls(i)))
  {
    var rows := RowsOf(w.polls(i));
    assert Unanchored(rows);
    UnanchoredAllEligible(w.anchor, rows);
    forall j: nat | j <= i
      ensures !Matches(w.anchor, RowsOf(w.polls(j)))
    {
      assert Unanchored(RowsOf(w.polls(j)));
    }
    hide Eligible, Matches;
  }

  /** Up to the i-th poll every listing is readable, and every row belongs to some other commit. */
  ghost predicate AllForeign(w: Watch, i: nat) {
    forall j: nat, k: nat :: j <= i && k < |RowsOf(w.polls(j))| ==> Foreign(w.anchor, RowsOf(w.polls(j))[k])
  }

  ghost predicate AllReadable(w: Watch, i: nat) {
    forall j: nat :: j <= i ==> !Broken(w.polls(j))
  }

  lemma {:induction false} NoneEligible(anchor: string, rows: seq<Row>)
    requires forall k: nat :: k < |rows| ==> Foreign(anchor, rows[k])
    ensures Eligible(anchor, rows) == []
  {
    if rows != [] {
      NoneEligible(anchor, rows[..|rows| - 1]);
    }
  }

  /**
   * A watch anchored to a commit that no longer runs: as long as it sees checks of other
   * commits only, it has no verdict whatever they say, and it ends in "no checks", exactly
   * at the deadline.
   */
  lemma StaleAnchor(w: Watch, i: nat)
    requires w.anchor != "" && AllForeign(w, i) && AllReadable(w, i)
    ensures StopsAt(w, i) <==> DeadlineAt(w, i)
    ensures StopsAt(w, i) ==> ResultAt(w, i) == NoChecks
  {
    var rows := RowsOf(w.polls(i));
    NoneEligible(w.anchor, rows);
    forall j: nat | j <= i
      ensures !Matches(w.anchor, RowsOf(w.polls(j)))
    {
      assert forall k: nat :: k < |RowsOf(w.polls(j))| ==> Foreign(w.anchor, RowsOf(w.polls(j))[k]);
    }
    hide Eligible, Matches;
  }

  /** Such a watch: one pending check without a commit, and no time to wait. */
  lemma PendingCheckIsNoChecks() returns (w: Watch)
    ensures w.anchor != "" && RowsOf(w.polls(0)) == [Row("build", "pending", "")]
    ensures StopsAt(w, 0) && SeenAny(w, 0) && ResultAt(w, 0) == NoChecks
  {
    var rows := [Row("build", "pending", "")];
    w := Watch("c0ffee", 0, _ => Poll(false, Rows(rows)), _ => 0.0);
    assert RowsOf(w.polls(0)) == rows && Pending(rows[0]);
    assert !IsConclusive(rows);
    ListingsWithoutCommit(w, 0);
  }
}
