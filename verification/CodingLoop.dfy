/**
 * The inner coding loop of one issue: coder, review, and the decision to approve, fix
 * or block, with a per-iteration checkpoint that outlives the call.
 */
module CodingLoop {
  import opened Collections
  import opened Graph
  import opened Schemas
  import opened GitFastPath

  /** An agent call answers, fails, or fails in the way that must not be absorbed. */
  datatype Call<+T> = Answers(value: T) | Fails | Fatal

  datatype Action = Approve | Fix | Block | OtherAction

  datatype Review = Review(approved: bool, blocking: bool)

  datatype Synthesis = Synthesis(action: Action, stuck: bool)

  /** Everything the agents answer in one iteration. */
  datatype IterationInput = IterationInput(
    coder: Call<seq<string>>,
    review: Call<Review>,
    qaPassed: Call<bool>,
    synthesis: Call<Synthesis>)

  type Agents = nat -> IterationInput

  datatype Entry = Entry(iteration: nat, action: Action, blocking: bool)

  datatype IterationRecord = IterationRecord(iteration: nat, files: seq<string>, history: seq<Entry>)

  /** What one issue brings to the loop. `persistent` says an artifacts directory is set. */
  datatype Job = Job(name: Name, branch: string, flagged: bool, maxIterations: int, persistent: bool)

  datatype Attempt = Returned(result: IssueResult) | Raises

  // ---------------------------------------------------------------------- decisions

  datatype Decided = Decided(action: Action, blocking: bool, stuck: bool) | DecisionRaises

  function ReviewOr(c: Call<Review>): Review {
    if c.Answers? then c.value else Review(true, false)
  }

  /** The reviewer alone decides; a failed review counts as an approval. */
  function DefaultPath(c: Call<Review>): Decided {
    if c.Fatal? then DecisionRaises else
      var r := ReviewOr(c);
      var action := if r.approved && !r.blocking then Approve else if r.blocking then Block else Fix;
      Decided(action, r.blocking, false)
  }

  /** QA and reviewer feed a synthesizer; when it fails, a fixed rule combines the two. */
  function FlaggedPath(input: IterationInput): Decided {
    var r := ReviewOr(input.review);
    var passed := input.qaPassed.Answers? && input.qaPassed.value;
    match input.synthesis
    case Fatal => DecisionRaises
    case Answers(s) => Decided(s.action, r.blocking, s.stuck)
    case Fails =>
      var action := if passed && r.approved && !r.blocking then Approve else if r.blocking then Block else Fix;
      Decided(action, r.blocking, false)
  }

  function Decide(flagged: bool, input: IterationInput): Decided {
    if flagged then FlaggedPath(input) else DefaultPath(input.review)
  }

  predicate Polish(e: Entry) {
    e.action == Fix && !e.blocking
  }

  const WINDOW := 3

  /** The last three iterations all asked for non-blocking fixes. */
  function DetectStuckLoop(history: seq<Entry>): bool {
    |history| >= WINDOW && forall i :: |history| - WINDOW <= i < |history| ==> Polish(history[i])
  }

  // ------------------------------------------------------------------ the loop's meaning

  /**
   * How a call ends: its result, the record left behind, how often the coder was
   * called, how many iterations reached a decision, and the last decision's blocking flag.
   */
  datatype LoopEnd = LoopEnd(attempt: Attempt, record: Option<IterationRecord>, calls: nat, decided: nat,
                             lastBlocking: Option<bool>)

  function Ended(job: Job, outcome: Outcome, files: seq<string>): Attempt {
    Returned(IssueResult(job.name, outcome, job.branch, files, [], []))
  }

  /** Out of iterations, or stuck: good enough if something changed and nothing blocks. */
  function AcceptOrFail(job: Job, files: seq<string>, blocking: bool): Attempt {
    Ended(job, if !blocking && files != [] then CompletedWithDebt else FailedUnrecoverable, files)
  }

  /** There was a last review in this call, and it blocked. */
  predicate Blocks(lastBlocking: Option<bool>) {
    lastBlocking.Some? && lastBlocking.value
  }

  /** Loop variables at the top of an iteration. */
  datatype LoopState = LoopState(
    iteration: nat,
    files: seq<string>,
    history: seq<Entry>,
    record: Option<IterationRecord>,
    calls: nat,
    decided: nat,
    lastBlocking: Option<bool>)

  function Stop(st: LoopState, attempt: Attempt): LoopEnd {
    LoopEnd(attempt, st.record, st.calls, st.decided, st.lastBlocking)
  }

  /** The state after an iteration's decision has been recorded and checkpointed. */
  ghost function AfterDecision(job: Job, st: LoopState, changed: seq<string>, d: Decided): LoopState
    requires d.Decided?
  {
    var files := AddAllNew(st.files, changed);
    var history := st.history + [Entry(st.iteration, d.action, d.blocking)];
    LoopState(st.iteration + 1, files, history,
              if job.persistent then Some(IterationRecord(st.iteration, files, history)) else st.record,
              st.calls + 1, st.decided + 1, Some(d.blocking))
  }

  predicate Stuck(job: Job, d: Decided, history: seq<Entry>)
    requires d.Decided?
  {
    d.stuck || (!job.flagged && DetectStuckLoop(history))
  }

  ghost function Loop(job: Job, st: LoopState, agents: Agents, clock: nat): LoopEnd
    decreases job.maxIterations - st.iteration, 1
  {
    if st.iteration > job.maxIterations then
      Stop(st, AcceptOrFail(job, st.files, Blocks(st.lastBlocking)))
    else
      var input := agents(clock);
      match input.coder
      case Fatal => Stop(st.(calls := st.calls + 1), Raises)
      case Fails => Stop(st.(calls := st.calls + 1), Ended(job, FailedUnrecoverable, st.files))
      case Answers(changed) => AfterAnswer(job, st, changed, Decide(job.flagged, input), agents, clock)
  }

  /** How the loop goes on once the coder has answered and the reviews are in. */
  ghost function AfterAnswer(job: Job, st: LoopState, changed: seq<string>, d: Decided, agents: Agents,
                             clock: nat): LoopEnd
    requires st.iteration <= job.maxIterations
    decreases job.maxIterations - st.iteration, 0
  {
    if d.DecisionRaises? then Stop(st.(calls := st.calls + 1), Raises) else
      var next := AfterDecision(job, st, changed, d);
      if d.action == Approve then Stop(next, Ended(job, Completed, next.files))
      else if d.action == Block then Stop(next, Ended(job, FailedUnrecoverable, next.files))
      else if Stuck(job, d, next.history) then Stop(next, AcceptOrFail(job, next.files, d.blocking))
      else Loop(job, next, agents, clock + 1)
  }

  /** A stored record is only found if there is a directory to look in. */
  function Entering(job: Job, record: Option<IterationRecord>): LoopState {
    if job.persistent && record.Some? then
      LoopState(record.value.iteration + 1, record.value.files, record.value.history, record, 0, 0, None)
    else LoopState(1, [], [], record, 0, 0, None)
  }

  ghost function RunLoop(job: Job, record: Option<IterationRecord>, agents: Agents, clock: nat): LoopEnd {
    Loop(job, Entering(job, record), agents, clock)
  }

  // ------------------------------------------------------------------------- the loop

  /** The iteration checkpoint of one issue, as the file that holds it. */
  class IterationFile {
    var record: Option<IterationRecord>

    constructor ()
      ensures record == None
    {
      record := None;
    }

    method RunCodingLoop(job: Job, agents: Agents, clock: nat)
      returns (attempt: Attempt, calls: nat, decided: nat, lastBlocking: Option<bool>)
      modifies this
      ensures LoopEnd(attempt, record, calls, decided, lastBlocking) == RunLoop(job, old(record), agents, clock)
    {
      hide Decide, Stuck, AddAllNew, AcceptOrFail, Ended, Blocks;
      var iteration: nat := 1;
      var files: seq<string>, history: seq<Entry> := [], [];
      calls, decided, lastBlocking := 0, 0, None;
      if job.persistent && record.Some? {
        iteration, files, history := record.value.iteration + 1, record.value.files, record.value.history;
      }
      ghost var meant := RunLoop(job, record, agents, clock);
      while iteration <= job.maxIterations
        invariant meant == Loop(job, LoopState(iteration, files, history, record, calls, decided, lastBlocking), agents,
                                clock + calls)
        decreases job.maxIterations - iteration
      {
        var input := agents(clock + calls);
        calls := calls + 1;
        match input.coder {
          case Fatal =>
            attempt := Raises;
            return;
          case Fails =>
            attempt := Ended(job, FailedUnrecoverable, files);
            return;
          case Answers(changed) =>
            var d := Decide(job.flagged, input);
            if d.DecisionRaises? {
              attempt := Raises;
              return;
            }
            files := AppendNew(files, changed);
            history := history + [Entry(iteration, d.action, d.blocking)];
            if job.persistent {
              record := Some(IterationRecord(iteration, files, history));
            }
            decided, lastBlocking := decided + 1, Some(d.blocking);
            if d.action == Approve {
              attempt := Ended(job, Completed, files);
              return;
            }
            if d.action == Block {
              attempt := Ended(job, FailedUnrecoverable, files);
              return;
            }
            if Stuck(job, d, history) {
              attempt := AcceptOrFail(job, files, d.blocking);
              return;
            }
        }
        iteration := iteration + 1;
      }
      attempt := AcceptOrFail(job, files, Blocks(lastBlocking));
    }
  }

  // ------------------------------------------------------------------------ properties

  function Index(record: Option<IterationRecord>): nat {
    if record.Some? then record.value.iteration else 0
  }

  /** How many of the latest history entries are non-blocking fixes. */
  ghost predicate EndsWithPolish(history: seq<Entry>, t: nat) {
    t <= |history| && forall i :: |history| - t <= i < |history| ==> Polish(history[i])
  }

  lemma {:induction false} DefaultLoopStops(job: Job, st: LoopState, agents: Agents, clock: nat, t: nat)
    requires !job.flagged && t < WINDOW && EndsWithPolish(st.history, t)
    ensures Loop(job, st, agents, clock).calls <= st.calls + WINDOW - t
    decreases WINDOW - t
  {
    var input := agents(clock);
    if st.iteration <= job.maxIterations && input.coder.Answers? {
      var d := Decide(job.flagged, input);
      if d.Decided? && d.action == Fix {
        var next := AfterDecision(job, st, input.coder.value, d);
        assert EndsWithPolish(next.history, t + 1);
        if t + 1 < WINDOW {
          DefaultLoopStops(job, next, agents, clock + 1, t + 1);
        }
      }
    }
  }

  /** On the default path no call, fresh or resumed, gets past three iterations, whatever the budget. */
  lemma DefaultPathRunsAtMostThree(job: Job, record: Option<IterationRecord>, agents: Agents, clock: nat)
    requires !job.flagged
    ensures RunLoop(job, record, agents, clock).calls <= 3
  {
    DefaultLoopStops(job, Entering(job, record), agents, clock, 0);
  }

  lemma {:induction false} LoopAcceptsWork(job: Job, st: LoopState, agents: Agents, clock: nat)
    ensures var end := Loop(job, st, agents, clock);
            end.attempt.Returned? && end.attempt.result.outcome == CompletedWithDebt ==>
              end.attempt.result.filesChanged != [] && !Blocks(end.lastBlocking)
    ensures var end := Loop(job, st, agents, clock);
            end.attempt.Returned? && end.attempt.result.outcome == Completed ==>
              end.decided > st.decided && (!job.flagged ==> end.lastBlocking.Some? && !Blocks(end.lastBlocking))
    ensures Loop(job, st, agents, clock).decided >= st.decided
    ensures Loop(job, st, agents, clock).decided > st.decided ==> Loop(job, st, agents, clock).lastBlocking.Some?
    ensures Loop(job, st, agents, clock).decided == st.decided
            ==> Loop(job, st, agents, clock).lastBlocking == st.lastBlocking
    ensures Loop(job, st, agents, clock).attempt.Returned? ==>
              && Loop(job, st, agents, clock).attempt.result.issueName == job.name
              && Loop(job, st, agents, clock).attempt.result.branchName == job.branch
              && Loop(job, st, agents, clock).attempt.result.debtItems == []
    decreases job.maxIterations - st.iteration
  {
    var input := agents(clock);
    if st.iteration <= job.maxIterations && input.coder.Answers? {
      var d := Decide(job.flagged, input);
      if d.Decided? {
        var next := AfterDecision(job, st, input.coder.value, d);
        if d.action != Approve && d.action != Block && !Stuck(job, d, next.history) {
          LoopAcceptsWork(job, next, agents, clock + 1);
        }
      }
    }
  }

  /**
   * Resumed at its limit the loop calls nobody: the issue is accepted with debt exactly
   * when the record lists changed files, however the recorded reviews went.
   */
  lemma ResumedAtLimit(job: Job, record: IterationRecord, agents: Agents, clock: nat)
    requires job.persistent && record.iteration >= job.maxIterations
    ensures var end := RunLoop(job, Some(record), agents, clock);
            && end.calls == 0 && end.record == Some(record)
            && end.attempt
               == Ended(job, if record.files != [] then CompletedWithDebt else FailedUnrecoverable, record.files)
  {
  }

  predicate AcceptedWithDebt(end: LoopEnd) {
    end.attempt.Returned? && end.attempt.result.outcome == CompletedWithDebt
  }

  /** The stored record already stands at the limit and lists changed files: all a caller has to look at. */
  predicate SpentWithFiles(job: Job, record: Option<IterationRecord>) {
    job.persistent && record.Some? && record.value.iteration >= job.maxIterations && record.value.files != []
  }

  /** The last review on record blocked. */
  predicate LastEntryBlocks(record: Option<IterationRecord>) {
    record.Some? && record.value.history != [] && record.value.history[|record.value.history| - 1].blocking
  }

  lemma {:induction false} LoopAcceptsReviewed(job: Job, st: LoopState, agents: Agents, clock: nat)
    requires st.iteration <= job.maxIterations
    ensures var end := Loop(job, st, agents, clock);
            AcceptedWithDebt(end) ==>
              && end.decided > st.decided
              && (job.persistent ==> end.record.Some? && end.record.value.history != [] && !LastEntryBlocks(end.record))
    decreases job.maxIterations - st.iteration
  {
    var input := agents(clock);
    if input.coder.Answers? {
      var d := Decide(job.flagged, input);
      if d.Decided? {
        var next := AfterDecision(job, st, input.coder.value, d);
        if d.action != Approve && d.action != Block && !Stuck(job, d, next.history) {
          LoopAcceptsWork(job, next, agents, clock + 1);
          if next.iteration <= job.maxIterations {
            LoopAcceptsReviewed(job, next, agents, clock + 1);
          }
        }
      }
    }
  }

  /**
   * Exactly when work is accepted with debt without a review in the call: the stored
   * record stands at the limit and lists changed files. And exactly then, if its last
   * entry blocks, is work accepted against the last review on record.
   */
  lemma UnreviewedAcceptance(job: Job, record: Option<IterationRecord>, agents: Agents, clock: nat)
    ensures var end := RunLoop(job, record, agents, clock);
            && (AcceptedWithDebt(end) && end.decided == 0 <==> SpentWithFiles(job, record))
            && (job.persistent ==>
                  (AcceptedWithDebt(end) && LastEntryBlocks(end.record)
                   <==> SpentWithFiles(job, record) && LastEntryBlocks(record)))
  {
    var st := Entering(job, record);
    if st.iteration <= job.maxIterations {
      LoopAcceptsReviewed(job, st, agents, clock);
    } else if job.persistent && record.Some? {
      ResumedAtLimit(job, record.value, agents, clock);
    }
  }

  /**
   * Accepting with debt takes changed files and a last review that did not block, unless
   * the stored record was spent with files on it. Completing takes a decision in this
   * call, and on the default path a review that did not block.
   */
  lemma AcceptanceTakesWork(job: Job, record: Option<IterationRecord>, agents: Agents, clock: nat)
    ensures var end := RunLoop(job, record, agents, clock);
            && (AcceptedWithDebt(end) ==>
                  && end.attempt.result.filesChanged != []
                  && (SpentWithFiles(job, record) || (end.lastBlocking.Some? && !Blocks(end.lastBlocking))))
            && (end.attempt.Returned? && end.attempt.result.outcome == Completed ==>
                  end.decided > 0 && (!job.flagged ==> end.lastBlocking.Some? && !Blocks(end.lastBlocking)))
  {
    LoopAcceptsWork(job, Entering(job, record), agents, clock);
    UnreviewedAcceptance(job, record, agents, clock);
    assert Entering(job, record).decided == 0;
  }

  lemma {:induction false} LoopAdvancesRecord(job: Job, st: LoopState, agents: Agents, clock: nat)
    requires job.persistent && Index(st.record) + 1 == st.iteration
    ensures var end := Loop(job, st, agents, clock);
            && Index(end.record) - Index(st.record) == end.decided - st.decided
            && end.decided - st.decided <= end.calls - st.calls <= end.decided - st.decided + 1
            && (Index(end.record) == Index(st.record) || Index(end.record) <= job.maxIterations)
    decreases job.maxIterations - st.iteration
  {
    var input := agents(clock);
    if st.iteration <= job.maxIterations && input.coder.Answers? {
      var d := Decide(job.flagged, input);
      if d.Decided? {
        var next := AfterDecision(job, st, input.coder.value, d);
        if d.action != Approve && d.action != Block && !Stuck(job, d, next.history) {
          LoopAdvancesRecord(job, next, agents, clock + 1);
        }
      }
    }
  }

  /**
   * With an artifacts directory every decided iteration takes the next index: the
   * recorded index grows by exactly the number of decisions, never past the limit, and
   * at most one coder call per loop goes undecided.
   */
  lemma IterationsAreNumbered(job: Job, record: Option<IterationRecord>, agents: Agents, clock: nat)
    requires job.persistent
    ensures var end := RunLoop(job, record, agents, clock);
            && Index(end.record) == Index(record) + end.decided
            && end.decided <= end.calls <= end.decided + 1
            && (end.decided > 0 ==> Index(end.record) <= job.maxIterations)
  {
    LoopAdvancesRecord(job, Entering(job, record), agents, clock);
  }
}
