/** The adaptation loop round one issue: coding loop, then an advisor who retries, accepts, splits or escalates. */
module Advisor {
  import opened Collections
  import opened Graph
  import opened Schemas
  import opened GitFastPath
  import opened CodingLoop

  datatype Advice =
    | RetryModified(dropped: seq<string>)
    | RetryApproach
    | AcceptWithDebt(missing: seq<string>, severity: string)
    | SplitIssue(subs: seq<SplitSpec>)
    | Escalate
    | Unrecognised

  type Advisors = nat -> Call<Advice>

  function Dropped(name: Name, criteria: seq<string>): seq<DebtItem> {
    seq(|criteria|, i requires 0 <= i < |criteria| => DroppedCriterion(name, criteria[i], "medium"))
  }

  function Missing(name: Name, functions: seq<string>, severity: string): seq<DebtItem> {
    seq(|functions|, i requires 0 <= i < |functions| => MissingFunctionality(name, functions[i], severity))
  }

  /** The debt one piece of advice adds: a dropped criterion or a missing function each. */
  function DebtBy(name: Name, advice: Call<Advice>): seq<DebtItem> {
    match advice
    case Answers(RetryModified(dropped)) => Dropped(name, dropped)
    case Answers(AcceptWithDebt(missing, severity)) => Missing(name, missing, severity)
    case _ => []
  }

  ghost function DebtTrail(name: Name, advisors: Advisors, asked: nat): seq<DebtItem> {
    if asked == 0 then [] else DebtTrail(name, advisors, asked - 1) + DebtBy(name, advisors(asked - 1))
  }

  /** How the whole execution of an issue ends. */
  datatype IssueEnd = IssueEnd(attempt: Attempt, record: Option<IterationRecord>, calls: nat, decided: nat, asked: nat)

  function Failing(res: IssueResult, outcome: Outcome, subs: seq<SplitSpec>, debt: seq<DebtItem>): Attempt {
    Returned(IssueResult(res.issueName, outcome, res.branchName, res.filesChanged, debt, subs))
  }

  /** Round by round; `asked` counts the advisor's answers so far and so is also the round. */
  ghost function Rounds(job: Job, maxAdvisor: int, agents: Agents, advisors: Advisors, st: IssueEnd,
                        debt: seq<DebtItem>): IssueEnd
    decreases maxAdvisor - st.asked
  {
    var end := RunLoop(job, st.record, agents, st.calls);
    var after := IssueEnd(end.attempt, end.record, st.calls + end.calls, st.decided + end.decided, st.asked);
    if end.attempt.Raises? then after else
      var res := end.attempt.result.(debtItems := debt);
      var giveUp := after.(attempt := Returned(res));
      if Succeeded(res.outcome) || st.asked >= maxAdvisor then giveUp else
        var heard := after.(asked := st.asked + 1);
        match advisors(st.asked)
        case Fatal => heard.(attempt := Raises)
        case Fails => heard.(attempt := Returned(res))
        case Answers(RetryModified(dropped)) =>
          Rounds(job, maxAdvisor, agents, advisors, heard, debt + Dropped(job.name, dropped))
        case Answers(AcceptWithDebt(missing, severity)) =>
          heard.(attempt := Failing(res, CompletedWithDebt, [], debt + Missing(job.name, missing, severity)))
        case Answers(SplitIssue(subs)) => heard.(attempt := Failing(res, FailedNeedsSplit, subs, debt))
        case Answers(Escalate) => heard.(attempt := Failing(res, FailedEscalated, [], debt))
        case Answers(_) => Rounds(job, maxAdvisor, agents, advisors, heard, debt)
  }

  function NotAttempted(job: Job): Attempt {
    Returned(IssueResult(job.name, FailedUnrecoverable, "", [], [], []))
  }

  /** A negative advisor budget leaves no round at all. */
  ghost function Execution(job: Job, maxAdvisor: int, record: Option<IterationRecord>, agents: Agents,
                           advisors: Advisors): IssueEnd {
    var st := IssueEnd(NotAttempted(job), record, 0, 0, 0);
    if maxAdvisor < 0 then st else Rounds(job, maxAdvisor, agents, advisors, st, [])
  }

  method ExecuteSingleIssue(job: Job, maxAdvisor: int, file: IterationFile, agents: Agents, advisors: Advisors)
    returns (attempt: Attempt, calls: nat, decided: nat, asked: nat)
    modifies file
    ensures IssueEnd(attempt, file.record, calls, decided, asked)
            == Execution(job, maxAdvisor, old(file.record), agents, advisors)
  {
    hide RunLoop;
    attempt, calls, decided, asked := NotAttempted(job), 0, 0, 0;
    var debt: seq<DebtItem> := [];
    ghost var meant := Execution(job, maxAdvisor, file.record, agents, advisors);
    while asked <= maxAdvisor
      invariant asked <= maxAdvisor ==>
                  meant == Rounds(job, maxAdvisor, agents, advisors,
                                  IssueEnd(attempt, file.record, calls, decided, asked), debt)
      invariant asked > maxAdvisor ==> meant == IssueEnd(attempt, file.record, calls, decided, asked)
      decreases maxAdvisor - asked
    {
      var more, reached, last;
      attempt, more, reached, last := file.RunCodingLoop(job, agents, calls);
      calls, decided := calls + more, decided + reached;
      if attempt.Raises? {
        return;
      }
      var res := attempt.result.(debtItems := debt);
      if Succeeded(res.outcome) || asked >= maxAdvisor {
        attempt := Returned(res);
        return;
      }
      var advice := advisors(asked);
      asked := asked + 1;
      match advice {
        case Fatal =>
          attempt := Raises;
          return;
        case Fails =>
          attempt := Returned(res);
          return;
        case Answers(RetryModified(dropped)) =>
          debt := debt + Dropped(job.name, dropped);
        case Answers(AcceptWithDebt(missing, severity)) =>
          attempt := Failing(res, CompletedWithDebt, [], debt + Missing(job.name, missing, severity));
          return;
        case Answers(SplitIssue(subs)) =>
          attempt := Failing(res, FailedNeedsSplit, subs, debt);
          return;
        case Answers(Escalate) =>
          attempt := Failing(res, FailedEscalated, [], debt);
          return;
        case Answers(_) =>
      }
    }
  }

  // ------------------------------------------------------------------------ properties

  lemma TrailStep(name: Name, advisors: Advisors, asked: nat, more: seq<DebtItem>)
    requires DebtBy(name, advisors(asked)) == more
    ensures DebtTrail(name, advisors, asked + 1) == DebtTrail(name, advisors, asked) + more
    ensures more == [] ==> DebtTrail(name, advisors, asked + 1) == DebtTrail(name, advisors, asked)
  {
  }

  /** The round failed, the advisor could still be asked, and asked for another attempt. */
  ghost predicate TriesAgain(job: Job, maxAdvisor: int, agents: Agents, advisors: Advisors, st: IssueEnd) {
    var attempt, advice := RunLoop(job, st.record, agents, st.calls).attempt, advisors(st.asked);
    && attempt.Returned? && !Succeeded(attempt.result.outcome) && st.asked < maxAdvisor
    && advice.Answers? && (advice.value.RetryModified? || advice.value.RetryApproach? || advice.value.Unrecognised?)
  }

  /** A round that tries again hands on the loop's record and counts, and the debt so far. */
  lemma NextRound(job: Job, maxAdvisor: int, agents: Agents, advisors: Advisors, st: IssueEnd, debt: seq<DebtItem>)
    returns (heard: IssueEnd, debt': seq<DebtItem>)
    requires TriesAgain(job, maxAdvisor, agents, advisors, st) && debt == DebtTrail(job.name, advisors, st.asked)
    ensures var end := RunLoop(job, st.record, agents, st.calls);
            heard == IssueEnd(end.attempt, end.record, st.calls + end.calls, st.decided + end.decided, st.asked + 1)
    ensures debt' == DebtTrail(job.name, advisors, heard.asked)
    ensures Rounds(job, maxAdvisor, agents, advisors, st, debt)
            == Rounds(job, maxAdvisor, agents, advisors, heard, debt')
  {
    hide RunLoop, DebtTrail, Dropped, Missing;
    var end := RunLoop(job, st.record, agents, st.calls);
    heard := IssueEnd(end.attempt, end.record, st.calls + end.calls, st.decided + end.decided, st.asked + 1);
    TrailStep(job.name, advisors, st.asked, DebtBy(job.name, advisors(st.asked)));
    if advisors(st.asked).value.RetryModified? {
      debt' := debt + Dropped(job.name, advisors(st.asked).value.dropped);
    } else {
      debt' := debt;
    }
  }

  /** A round that does not try again decides how the issue ends. */
  lemma LastRound(job: Job, maxAdvisor: int, agents: Agents, advisors: Advisors, st: IssueEnd, debt: seq<DebtItem>)
    requires !TriesAgain(job, maxAdvisor, agents, advisors, st) && st.asked <= maxAdvisor
    requires debt == DebtTrail(job.name, advisors, st.asked)
    ensures var end := Rounds(job, maxAdvisor, agents, advisors, st, debt);
            var one := RunLoop(job, st.record, agents, st.calls);
            end.record == one.record && end.calls == st.calls + one.calls && end.decided == st.decided + one.decided
    ensures var end := Rounds(job, maxAdvisor, agents, advisors, st, debt);
            && st.asked <= end.asked <= maxAdvisor
            && (end.attempt.Returned? ==>
                  && end.attempt.result.issueName == job.name && end.attempt.result.branchName == job.branch
                  && end.attempt.result.debtItems == DebtTrail(job.name, advisors, end.asked))
  {
    LoopAnswersForJob(job, st.record, agents, st.calls);
    hide RunLoop, DebtTrail, Dropped, Missing;
    TrailStep(job.name, advisors, st.asked, DebtBy(job.name, advisors(st.asked)));
  }

  lemma LoopAnswersForJob(job: Job, record: Option<IterationRecord>, agents: Agents, clock: nat)
    ensures var end := RunLoop(job, record, agents, clock);
            end.attempt.Returned? ==>
              end.attempt.result.issueName == job.name && end.attempt.result.branchName == job.branch
  {
    LoopAcceptsWork(job, Entering(job, record), agents, clock);
  }

  lemma {:induction false} RoundsProperties(job: Job, maxAdvisor: int, agents: Agents, advisors: Advisors,
                                            st: IssueEnd, debt: seq<DebtItem>)
    requires st.asked <= maxAdvisor && debt == DebtTrail(job.name, advisors, st.asked)
    ensures var end := Rounds(job, maxAdvisor, agents, advisors, st, debt);
            && st.asked <= end.asked <= maxAdvisor
            && (end.attempt.Returned? ==>
                  && end.attempt.result.issueName == job.name && end.attempt.result.branchName == job.branch
                  && end.attempt.result.debtItems == DebtTrail(job.name, advisors, end.asked))
    decreases maxAdvisor - st.asked
  {
    hide Rounds, DebtTrail, RunLoop;
    if TriesAgain(job, maxAdvisor, agents, advisors, st) {
      var heard, debt' := NextRound(job, maxAdvisor, agents, advisors, st, debt);
      RoundsProperties(job, maxAdvisor, agents, advisors, heard, debt');
    } else {
      LastRound(job, maxAdvisor, agents, advisors, st, debt);
    }
  }

  /**
   * The result answers for its own issue and branch, and carries exactly the debt of
   * the advice taken: one item per criterion dropped in a retry, in order, then one per
   * missing function of the accepting round.
   */
  lemma IssueDebtIsExact(job: Job, maxAdvisor: int, record: Option<IterationRecord>, agents: Agents, advisors: Advisors)
    ensures var end := Execution(job, maxAdvisor, record, agents, advisors);
            && (maxAdvisor >= 0 ==> end.asked <= maxAdvisor)
            && (end.attempt.Returned? ==>
                  && end.attempt.result.issueName == job.name
                  && (Succeeded(end.attempt.result.outcome) ==> end.attempt.result.branchName == job.branch)
                  && end.attempt.result.debtItems == DebtTrail(job.name, advisors, end.asked))
  {
    if maxAdvisor >= 0 {
      RoundsProperties(job, maxAdvisor, agents, advisors, IssueEnd(NotAttempted(job), record, 0, 0, 0), []);
      hide Rounds;
    }
  }

  lemma {:induction false} RoundsBudget(job: Job, maxAdvisor: int, agents: Agents, advisors: Advisors, st: IssueEnd,
                                        debt: seq<DebtItem>)
    requires job.persistent && st.asked <= maxAdvisor && debt == DebtTrail(job.name, advisors, st.asked)
    ensures var end := Rounds(job, maxAdvisor, agents, advisors, st, debt);
            && Index(end.record) - Index(st.record) == end.decided - st.decided
            && end.decided >= st.decided
            && (Index(end.record) == Index(st.record) || Index(end.record) <= job.maxIterations)
            && (end.calls - st.calls) <= (end.decided - st.decided) + (maxAdvisor - st.asked + 1)
    decreases maxAdvisor - st.asked
  {
    IterationsAreNumbered(job, st.record, agents, st.calls);
    hide Rounds, DebtTrail, RunLoop;
    if TriesAgain(job, maxAdvisor, agents, advisors, st) {
      var heard, debt' := NextRound(job, maxAdvisor, agents, advisors, st, debt);
      RoundsBudget(job, maxAdvisor, agents, advisors, heard, debt');
    } else {
      LastRound(job, maxAdvisor, agents, advisors, st, debt);
    }
  }

  /**
   * Nested budgets: across all advisor rounds every decided iteration takes a new
   * index, so there are at most as many as the iteration limit leaves, and coder calls
   * exceed them by at most one per round.
   */
  lemma NestedBudgets(job: Job, maxAdvisor: int, record: Option<IterationRecord>, agents: Agents, advisors: Advisors)
    requires job.persistent && maxAdvisor >= 0
    ensures var end := Execution(job, maxAdvisor, record, agents, advisors);
            && Index(end.record) == Index(record) + end.decided
            && (end.decided > 0 ==> Index(record) + end.decided <= job.maxIterations)
            && end.calls <= end.decided + maxAdvisor + 1
  {
    RoundsBudget(job, maxAdvisor, agents, advisors, IssueEnd(NotAttempted(job), record, 0, 0, 0), []);
    hide Rounds;
  }

  /**
   * A retry after the iteration limit has been used up is no retry: nobody is called,
   * and the issue is accepted with debt as soon as any file had changed, even if the
   * last review blocked it.
   */
  lemma RetryAtLimitAcceptsBlockedWork(job: Job, maxAdvisor: int, agents: Agents, advisors: Advisors, st: IssueEnd,
                                       debt: seq<DebtItem>)
    requires var end := RunLoop(job, st.record, agents, st.calls);
             && end.attempt.Returned? && end.attempt.result.outcome == FailedUnrecoverable
             && end.record.Some? && end.record.value.iteration >= job.maxIterations && end.record.value.files != []
    requires job.persistent && st.asked < maxAdvisor && advisors(st.asked) == Answers(RetryApproach)
    ensures var end := RunLoop(job, st.record, agents, st.calls);
            Rounds(job, maxAdvisor, agents, advisors, st, debt)
            == IssueEnd(Returned(Ended(job, CompletedWithDebt, end.record.value.files).result.(debtItems := debt)),
                        end.record, st.calls + end.calls, st.decided + end.decided, st.asked + 1)
  {
    var end := RunLoop(job, st.record, agents, st.calls);
    var heard := IssueEnd(end.attempt, end.record, st.calls + end.calls, st.decided + end.decided, st.asked + 1);
    ResumedAtLimit(job, end.record.value, agents, heard.calls);
    assert end.record == Some(end.record.value);
    hide RunLoop;
    assert Rounds(job, maxAdvisor, agents, advisors, st, debt)
           == Rounds(job, maxAdvisor, agents, advisors, heard, debt);
  }

  /** Such a situation arises: a blocking review in the only iteration, then a retry. */
  lemma BlockedWorkIsAccepted() returns (job: Job, agents: Agents, advisors: Advisors)
    ensures var end := Execution(job, 1, None, agents, advisors);
            && end.attempt.Returned? && end.attempt.result.outcome == CompletedWithDebt
            && end.decided == 1 && end.record.Some? && end.record.value.history == [Entry(1, Block, true)]
  {
    job := Job("a", "issue/01-a", false, 1, true);
    var input := IterationInput(Answers(["f"]), Answers(Review(false, true)), Fails, Fails);
    agents := _ => input;
    advisors := _ => Answers(RetryApproach);
    var st := Entering(job, None);
    var next := AfterDecision(job, st, ["f"], Decided(Block, true, false));
    assert ["f"][..0] == [];
    assert AddAllNew([], ["f"]) == ["f"];
    assert RunLoop(job, None, agents, 0) == CodingLoop.Stop(next, Ended(job, FailedUnrecoverable, ["f"]));
    RetryAtLimitAcceptsBlockedWork(job, 1, agents, advisors, IssueEnd(NotAttempted(job), None, 0, 0, 0), []);
  }
}
