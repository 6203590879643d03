/** What the advisor's word makes of an issue: its outcome, its split request and its debt, told from the answers. */
module AdviceEnds {
  import opened Collections
  import opened Graph
  import opened Schemas
  import opened CodingLoop
  import opened CodingEnds
  import opened Advisor

  // ---------------------------------------------------------------------- loops in a row

  /** What the first k coding loops leave behind: the record, and the calls and decisions they took. */
  datatype Behind = Behind(record: Option<IterationRecord>, calls: nat, decided: nat)

  ghost function BehindLoops(job: Job, record: Option<IterationRecord>, agents: Agents, k: nat): Behind {
    if k == 0 then Behind(record, 0, 0) else
      var before := BehindLoops(job, record, agents, k - 1);
      var loop := RunLoop(job, before.record, agents, before.calls);
      Behind(loop.record, before.calls + loop.calls, before.decided + loop.decided)
  }

  /** The k-th coding loop in a row takes up the record and the agents where the one before left them. */
  ghost function LoopAt(job: Job, record: Option<IterationRecord>, agents: Agents, k: nat): LoopEnd {
    var before := BehindLoops(job, record, agents, k);
    RunLoop(job, before.record, agents, before.calls)
  }

  /** A coding loop completes its issue, accepts it with debt, fails or raises; it never splits or escalates. */
  lemma LoopOutcomes(job: Job, record: Option<IterationRecord>, agents: Agents, clock: nat)
    ensures var end := RunLoop(job, record, agents, clock);
            end.attempt.Returned? ==>
              && (EndsAs(end, Completed) || EndsAs(end, CompletedWithDebt) || EndsAs(end, FailedUnrecoverable))
              && end.attempt.result.splitRequest == []
  {
    hide RunLoop, KeepsGoing, StuckAt, Touched, GoesOn, IsApproved, IsBlocked, IsFatal;
    CallEnds(job, record, agents, clock);
    LoopAsksNoSplit(job, record, agents, clock);
  }

  lemma LoopAsksNoSplit(job: Job, record: Option<IterationRecord>, agents: Agents, clock: nat)
    ensures var end := RunLoop(job, record, agents, clock);
            end.attempt.Returned? ==> end.attempt.result.splitRequest == []
  {
    NoSplitFrom(job, Entering(job, record), agents, clock);
  }

  lemma {:induction false} NoSplitFrom(job: Job, st: LoopState, agents: Agents, clock: nat)
    ensures var end := Loop(job, st, agents, clock);
            end.attempt.Returned? ==> end.attempt.result.splitRequest == []
    decreases job.maxIterations - st.iteration
  {
    var input := agents(clock);
    if st.iteration <= job.maxIterations && input.coder.Answers? && Decide(job.flagged, input).Decided? {
      NoSplitFrom(job, AfterDecision(job, st, input.coder.value, Decide(job.flagged, input)), agents, clock + 1);
    }
  }

  // ------------------------------------------------------------------------- the outcome

  predicate SaysRetry(advice: Call<Advice>) {
    advice.Answers? && (advice.value.RetryModified? || advice.value.RetryApproach? || advice.value.Unrecognised?)
  }

  /** The result keeps what the loop changed, with this outcome and this split request. */
  ghost predicate Turns(loop: LoopEnd, attempt: Attempt, o: Outcome, subs: seq<SplitSpec>) {
    && attempt.Returned? && attempt.result.outcome == o && attempt.result.splitRequest == subs
    && loop.attempt.Returned? && attempt.result.filesChanged == loop.attempt.result.filesChanged
  }

  /** The issue ends with its last coding loop, or as the advisor says about it. */
  ghost predicate EndsWith(loop: LoopEnd, end: IssueEnd, asked: bool, advice: Call<Advice>) {
    if loop.attempt.Raises? then end.attempt.Raises?
    else if !asked then Turns(loop, end.attempt, loop.attempt.result.outcome, [])
    else match advice
      case Fatal => end.attempt.Raises?
      case Fails => Turns(loop, end.attempt, FailedUnrecoverable, [])
      case Answers(AcceptWithDebt(_, _)) => Turns(loop, end.attempt, CompletedWithDebt, [])
      case Answers(SplitIssue(subs)) => Turns(loop, end.attempt, FailedNeedsSplit, subs)
      case Answers(Escalate) => Turns(loop, end.attempt, FailedEscalated, [])
      case Answers(_) => false
  }

  lemma LastRoundEnds(job: Job, maxAdvisor: int, agents: Agents, advisors: Advisors, st: IssueEnd, debt: seq<DebtItem>)
    requires st.asked <= maxAdvisor && !TriesAgain(job, maxAdvisor, agents, advisors, st)
    ensures var loop := RunLoop(job, st.record, agents, st.calls);
            var end := Rounds(job, maxAdvisor, agents, advisors, st, debt);
            var asks := EndsAs(loop, FailedUnrecoverable) && st.asked < maxAdvisor;
            && end.asked == (if asks then st.asked + 1 else st.asked)
            && EndsWith(loop, end, asks, advisors(st.asked))
            && (asks ==> !SaysRetry(advisors(st.asked)))
            && end.record == loop.record && end.calls == st.calls + loop.calls
            && end.decided == st.decided + loop.decided
  {
    LoopOutcomes(job, st.record, agents, st.calls);
    hide RunLoop, Dropped, Missing;
  }

  lemma TryingAgainIsFailing(job: Job, maxAdvisor: int, agents: Agents, advisors: Advisors, st: IssueEnd)
    requires TriesAgain(job, maxAdvisor, agents, advisors, st)
    ensures EndsAs(RunLoop(job, st.record, agents, st.calls), FailedUnrecoverable)
    ensures st.asked < maxAdvisor && SaysRetry(advisors(st.asked))
  {
    LoopOutcomes(job, st.record, agents, st.calls);
    hide RunLoop;
  }

  /** The state of the rounds in front of the k-th coding loop. */
  ghost predicate InFrontOf(job: Job, record: Option<IterationRecord>, agents: Agents, st: IssueEnd) {
    BehindLoops(job, record, agents, st.asked) == Behind(st.record, st.calls, st.decided)
  }

  /** All loops before the k-th failed, and the advisor asked for another attempt. */
  ghost predicate RetriedUpTo(job: Job, record: Option<IterationRecord>, agents: Agents, advisors: Advisors, k: nat) {
    forall i: nat :: i < k ==> EndsAs(LoopAt(job, record, agents, i), FailedUnrecoverable) && SaysRetry(advisors(i))
  }

  lemma {:induction false} RoundsEnd(job: Job, maxAdvisor: int, record: Option<IterationRecord>, agents: Agents,
                                     advisors: Advisors, st: IssueEnd, debt: seq<DebtItem>) returns (k: nat)
    requires st.asked <= maxAdvisor && InFrontOf(job, record, agents, st)
    requires debt == DebtTrail(job.name, advisors, st.asked) && RetriedUpTo(job, record, agents, advisors, st.asked)
    ensures k <= maxAdvisor && RetriedUpTo(job, record, agents, advisors, k)
    ensures var end, loop := Rounds(job, maxAdvisor, agents, advisors, st, debt), LoopAt(job, record, agents, k);
            var asks := EndsAs(loop, FailedUnrecoverable) && k < maxAdvisor;
            && end.asked == (if asks then k + 1 else k)
            && EndsWith(loop, end, asks, advisors(k)) && (asks ==> !SaysRetry(advisors(k)))
            && BehindLoops(job, record, agents, k + 1) == Behind(end.record, end.calls, end.decided)
    decreases maxAdvisor - st.asked
  {
    hide Rounds, RunLoop, DebtTrail, EndsWith, SaysRetry;
    if TriesAgain(job, maxAdvisor, agents, advisors, st) {
      TryingAgainIsFailing(job, maxAdvisor, agents, advisors, st);
      var heard, debt' := NextRound(job, maxAdvisor, agents, advisors, st, debt);
      hide TriesAgain;
      k := RoundsEnd(job, maxAdvisor, record, agents, advisors, heard, debt');
    } else {
      hide TriesAgain;
      LastRoundEnds(job, maxAdvisor, agents, advisors, st, debt);
      k := st.asked;
    }
  }

  /**
   * How an issue ends. Coding loops run in a row, each after a failure that the advisor
   * wants retried, until one does not fail, the advisor's budget is used up, or the advisor
   * says otherwise; that loop's own outcome or the advice then stands.
   */
  lemma IssueEnds(job: Job, maxAdvisor: int, record: Option<IterationRecord>, agents: Agents, advisors: Advisors)
    returns (k: nat)
    requires maxAdvisor >= 0
    ensures k <= maxAdvisor && RetriedUpTo(job, record, agents, advisors, k)
    ensures var end, loop := Execution(job, maxAdvisor, record, agents, advisors), LoopAt(job, record, agents, k);
            var asks := EndsAs(loop, FailedUnrecoverable) && k < maxAdvisor;
            && end.asked == (if asks then k + 1 else k)
            && EndsWith(loop, end, asks, advisors(k)) && (asks ==> !SaysRetry(advisors(k)))
            && BehindLoops(job, record, agents, k + 1) == Behind(end.record, end.calls, end.decided)
  {
    hide Rounds, LoopAt;
    k := RoundsEnd(job, maxAdvisor, record, agents, advisors, IssueEnd(NotAttempted(job), record, 0, 0, 0), []);
  }

  /**
   * The advisor's last word and the outcome: a result asks for a split exactly if that word
   * was to split, and into just those sub-issues; it is escalated exactly if that word was
   * to escalate; and accepting makes it accepted with debt. Nothing else asks for a split
   * or escalates, and no other result carries a split request.
   */
  lemma OutcomeFollowsAdvice(job: Job, maxAdvisor: int, record: Option<IterationRecord>, agents: Agents,
                             advisors: Advisors)
    requires Execution(job, maxAdvisor, record, agents, advisors).attempt.Returned?
    ensures var end := Execution(job, maxAdvisor, record, agents, advisors);
            var x, word := end.attempt.result, if end.asked > 0 then advisors(end.asked - 1) else Fails;
            && (x.outcome == FailedNeedsSplit <==> word.Answers? && word.value.SplitIssue?)
            && (x.outcome == FailedNeedsSplit ==> word.value.subs == x.splitRequest)
            && (x.outcome == FailedEscalated <==> word == Answers(Escalate))
            && (word.Answers? && word.value.AcceptWithDebt? ==> x.outcome == CompletedWithDebt)
            && (x.outcome != FailedNeedsSplit ==> x.splitRequest == [])
            && x.outcome != FailedRetryable && x.outcome != Skipped
            && (maxAdvisor < 0 ==> x.outcome == FailedUnrecoverable && end.calls == 0)
  {
    if maxAdvisor >= 0 {
      hide Execution, LoopAt, BehindLoops;
      var k := IssueEnds(job, maxAdvisor, record, agents, advisors);
      hide RunLoop;
      LoopAtOutcomes(job, record, agents, k);
      if Execution(job, maxAdvisor, record, agents, advisors).asked == k && k > 0 {
        assert SaysRetry(advisors(k - 1));
      }
    }
  }

  /** With a negative budget there is no round at all: nobody is called, and the issue counts as failed. */
  lemma NegativeBudgetFails(job: Job, maxAdvisor: int, record: Option<IterationRecord>, agents: Agents,
                            advisors: Advisors)
    requires maxAdvisor < 0
    ensures var end := Execution(job, maxAdvisor, record, agents, advisors);
            && end.attempt == Returned(IssueResult(job.name, FailedUnrecoverable, "", [], [], []))
            && end.record == record && end.calls == 0 && end.asked == 0
  {
  }

  lemma LoopAtOutcomes(job: Job, record: Option<IterationRecord>, agents: Agents, k: nat)
    ensures var end := LoopAt(job, record, agents, k);
            end.attempt.Returned? ==>
              EndsAs(end, Completed) || EndsAs(end, CompletedWithDebt) || EndsAs(end, FailedUnrecoverable)
  {
    var before := BehindLoops(job, record, agents, k);
    hide RunLoop, BehindLoops;
    LoopOutcomes(job, before.record, agents, before.calls);
  }

  // ----------------------------------------------------------------------------- the debt

  /** The item stands for a criterion this advice drops, or for a function it goes without. */
  ghost predicate StandsFor(x: DebtItem, name: Name, advice: Call<Advice>) {
    && advice.Answers?
    && match advice.value
       case RetryModified(dropped) => x.DroppedCriterion? && x.criterion in dropped
                                      && x.issueName == name && x.severity == "medium"
       case AcceptWithDebt(missing, severity) => x.MissingFunctionality? && x.description in missing
                                                 && x.issueName == name && x.severity == severity
       case _ => false
  }

  /** One piece of advice adds one item for each thing it gives up, in order. */
  lemma AdviceAddsDebt(name: Name, advice: Call<Advice>)
    ensures forall x :: x in DebtBy(name, advice) <==> StandsFor(x, name, advice)
    ensures |DebtBy(name, advice)| == (if !advice.Answers? then 0
                                       else if advice.value.RetryModified? then |advice.value.dropped|
                                       else if advice.value.AcceptWithDebt? then |advice.value.missing| else 0)
  {
    forall x | StandsFor(x, name, advice)
      ensures x in DebtBy(name, advice)
    {
      if advice.value.RetryModified? {
        var k :| 0 <= k < |advice.value.dropped| && advice.value.dropped[k] == x.criterion;
        assert DebtBy(name, advice)[k] == x;
      } else {
        var k :| 0 <= k < |advice.value.missing| && advice.value.missing[k] == x.description;
        assert DebtBy(name, advice)[k] == x;
      }
    }
  }

  lemma {:induction false} TrailMembers(name: Name, advisors: Advisors, asked: nat, x: DebtItem)
    ensures x in DebtTrail(name, advisors, asked) <==> exists i: nat :: i < asked && StandsFor(x, name, advisors(i))
  {
    hide DebtBy, StandsFor;
    if asked > 0 {
      TrailMembers(name, advisors, asked - 1, x);
      AdviceAddsDebt(name, advisors(asked - 1));
    }
  }

  /** A result's debt is what the advice it took gave up, and nothing else. */
  lemma DebtIsGivenUp(job: Job, maxAdvisor: int, record: Option<IterationRecord>, agents: Agents, advisors: Advisors,
                      x: DebtItem)
    requires Execution(job, maxAdvisor, record, agents, advisors).attempt.Returned?
    ensures var end := Execution(job, maxAdvisor, record, agents, advisors);
            x in end.attempt.result.debtItems <==>
              exists i: nat :: i < end.asked && StandsFor(x, job.name, advisors(i))
  {
    hide Execution, DebtTrail, StandsFor;
    IssueDebtIsExact(job, maxAdvisor, record, agents, advisors);
    TrailMembers(job.name, advisors, Execution(job, maxAdvisor, record, agents, advisors).asked, x);
  }
}
