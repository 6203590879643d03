/** The gate behind the watcher: watch, let the fixer push, and watch again, within a budget. */
module CiGate {
  import opened CiWatch

  datatype Final = GatePassed | GateNoChecks | GateTimedOut | GateError | FailedExhausted | FixerGaveUp | LoopExhausted

  /** What a conclusive, non-failing watch makes of the gate. */
  function Closing(s: Status): Final
    requires !s.Failed?
  {
    match s
    case Passed => GatePassed
    case NoChecks => GateNoChecks
    case TimedOut => GateTimedOut
    case Error => GateError
  }

  /**
   * What a run of the gate looks like from outside. Every watch but the last failed and
   * every fix but possibly the last was pushed; the last watch either did not fail and
   * closes the gate, or failed with the budget used up, or failed and was not fixed.
   */
  ghost predicate GateRun(budget: nat, watches: nat -> Status, pushes: nat -> bool, final: Final, attempts: nat,
                          made: nat) {
    && 1 <= made <= budget + 1 && attempts <= budget
    && (forall k: nat :: k < made - 1 ==> watches(k).Failed?)
    && match final
       case FailedExhausted =>
         && made == budget + 1 && attempts == budget && watches(budget).Failed?
         && forall k: nat :: k < budget ==> pushes(k)
       case FixerGaveUp =>
         && attempts == made && watches(made - 1).Failed? && !pushes(made - 1)
         && forall k: nat :: k < made - 1 ==> pushes(k)
       case LoopExhausted => false
       case _ =>
         && attempts == made - 1 && !watches(made - 1).Failed? && final == Closing(watches(made - 1))
         && forall k: nat :: k < attempts ==> pushes(k)
  }

  /**
   * `watches` and `pushes` are what the watcher reports and whether the fixer pushes, time
   * after time. `made` counts the watches; `attempts` records each fix and whether it was
   * pushed. Only a negative budget falls through the loop.
   */
  method RunCiGate(budget: int, watches: nat -> Status, pushes: nat -> bool)
    returns (final: Final, attempts: seq<bool>, made: nat)
    ensures final == LoopExhausted <==> budget < 0
    ensures budget < 0 ==> attempts == [] && made == 0
    ensures budget >= 0 ==> GateRun(budget, watches, pushes, final, |attempts|, made)
    ensures forall k :: 0 <= k < |attempts| ==> attempts[k] == pushes(k)
  {
    attempts, made := [], 0;
    var cycle := 0;
    while cycle < budget + 1
      invariant made == cycle == |attempts|
      invariant cycle <= budget || cycle == 0
      invariant forall k :: 0 <= k < |attempts| ==> attempts[k] == pushes(k)
      invariant forall k: nat :: k < cycle ==> pushes(k) && watches(k).Failed?
    {
      made := made + 1;
      var watch := watches(cycle);
      if !watch.Failed? {
        return Closing(watch), attempts, made;
      }
      if cycle >= budget {
        return FailedExhausted, attempts, made;
      }
      attempts := attempts + [pushes(cycle)];
      if !pushes(cycle) {
        return FixerGaveUp, attempts, made;
      }
      cycle := cycle + 1;
    }
    final := LoopExhausted;
  }

  lemma NoLongerRun(budget: nat, watches: nat -> Status, pushes: nat -> bool, f: Final, a: nat, m: nat, f': Final,
                    a': nat, m': nat)
    requires GateRun(budget, watches, pushes, f, a, m) && GateRun(budget, watches, pushes, f', a', m')
    ensures m' <= m
  {
    var before: nat := m - 1;
    assert m < m' ==> watches(before).Failed? && pushes(before);
  }

  /** Watcher and fixer fix the gate's outcome: no two readings of the same reports differ. */
  lemma GateOutcomeIsUnique(budget: nat, watches: nat -> Status, pushes: nat -> bool, f: Final, a: nat, m: nat,
                            f': Final, a': nat, m': nat)
    requires GateRun(budget, watches, pushes, f, a, m) && GateRun(budget, watches, pushes, f', a', m')
    ensures f == f' && a == a' && m == m'
  {
    NoLongerRun(budget, watches, pushes, f, a, m, f', a', m');
    NoLongerRun(budget, watches, pushes, f', a', m', f, a, m);
    assert m == m' && (m == budget + 1 ==> a <= budget);
  }

  /**
   * The last watch closes the gate: each of the four answers that are no failure has an
   * ending of its own, and a failure ends it if it is not fixed or the budget is used up.
   */
  lemma LastWatchCloses(budget: nat, watches: nat -> Status, pushes: nat -> bool, f: Final, a: nat, m: nat)
    requires GateRun(budget, watches, pushes, f, a, m)
    ensures var last := watches(m - 1);
            && (f == GatePassed <==> last == Passed)
            && (f == GateNoChecks <==> last == NoChecks)
            && (f == GateTimedOut <==> last == TimedOut)
            && (f == GateError <==> last == Error)
            && (f == FixerGaveUp <==> last.Failed? && m <= budget && !pushes(m - 1))
            && (f == FailedExhausted <==> last.Failed? && m == budget + 1)
            && a == if f == FixerGaveUp then m else m - 1
  {
  }

  /** The i-th poll is the one a watch stops at. */
  ghost predicate FirstStop(w: Watch, i: nat) {
    StopsAt(w, i) && forall j: nat :: j < i ==> !StopsAt(w, j)
  }

  /**
   * The gate keeps watching the commit it was given after the fixer has pushed another.
   * If the first watch fails, the fix is pushed and from then on only checks of other
   * commits are listed, the gate closes with "no checks" after the second watch, whatever
   * the checks of the pushed commit say.
   */
  lemma PushedCommitIsNotWatched(budget: nat, watches: nat -> Status, pushes: nat -> bool, w: Watch, i: nat)
    requires budget > 0 && watches(0).Failed? && pushes(0)
    requires w.anchor != "" && AllForeign(w, i) && AllReadable(w, i)
    requires FirstStop(w, i) && watches(1) == ResultAt(w, i)
    ensures GateRun(budget, watches, pushes, GateNoChecks, 1, 2)
    ensures forall f, a: nat, m: nat ::
              GateRun(budget, watches, pushes, f, a, m) ==> f == GateNoChecks && a == 1 && m == 2
  {
    StaleAnchor(w, i);
    assert GateRun(budget, watches, pushes, GateNoChecks, 1, 2);
    forall f, a: nat, m: nat | GateRun(budget, watches, pushes, f, a, m)
      ensures f == GateNoChecks && a == 1 && m == 2
    {
      GateOutcomeIsUnique(budget, watches, pushes, f, a, m, GateNoChecks, 1, 2);
    }
  }

  /** It happens: the pushed commit's only check fails, and the gate closes with "no checks". */
  lemma FailingPushClosesGate() returns (w: Watch, watches: nat -> Status, pushes: nat -> bool)
    ensures w.anchor != "" && AllForeign(w, 0) && AllReadable(w, 0) && FirstStop(w, 0)
    ensures |RowsOf(w.polls(0))| == 1 && Failing(RowsOf(w.polls(0))[0])
    ensures watches(0).Failed? && pushes(0) && watches(1) == ResultAt(w, 0)
    ensures GateRun(1, watches, pushes, GateNoChecks, 1, 2)
  {
    var row := Row("build", "fail", "pushed");
    w := Watch("given", 0, _ => Poll(false, Rows([row])), _ => 0.0);
    watches := k => if k == 0 then Failed([row]) else NoChecks;
    pushes := _ => true;
    assert RowsOf(w.polls(0)) == [row] && Foreign(w.anchor, row);
    StaleAnchor(w, 0);
    PushedCommitIsNotWatched(1, watches, pushes, w, 0);
  }
}
