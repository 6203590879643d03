/** How a call of the coding loop ends, told from the agents' answers alone. */
module CodingEnds {
  import opened Collections
  import opened Schemas
  import opened GitFastPath
  import opened CodingLoop

  // ------------------------------------------------------------------ reading one iteration

  /** The review says nothing against the work, or there is none: a reviewer that fails counts as approving. */
  predicate Approving(review: Call<Review>) {
    review.Answers? ==> review.value.approved && !review.value.blocking
  }

  predicate Blocking(review: Call<Review>) {
    review.Answers? && review.value.blocking
  }

  /** Neither approved nor blocked: the work is to be polished. */
  predicate AsksPolish(review: Call<Review>) {
    review.Answers? && !review.value.approved && !review.value.blocking
  }

  /** The review decides; on the flagged path the synthesizer, or QA and review together if it fails. */
  predicate IsApproved(job: Job, input: IterationInput) {
    && input.coder.Answers?
    && if !job.flagged then !input.review.Fatal? && Approving(input.review)
       else if input.synthesis.Answers? then input.synthesis.value.action == Approve
       else input.synthesis.Fails? && input.qaPassed == Answers(true) && Approving(input.review)
  }

  predicate IsBlocked(job: Job, input: IterationInput) {
    && input.coder.Answers?
    && if !job.flagged then Blocking(input.review)
       else if input.synthesis.Answers? then input.synthesis.value.action == Block
       else input.synthesis.Fails? && Blocking(input.review)
  }

  /** An error that must not be absorbed: from the coder, or from whoever decides. */
  predicate IsFatal(job: Job, input: IterationInput) {
    || input.coder.Fatal?
    || (input.coder.Answers? && if job.flagged then input.synthesis.Fatal? else input.review.Fatal?)
  }

  /** Nothing in the iteration itself ends the call. */
  predicate GoesOn(job: Job, input: IterationInput) {
    input.coder.Answers? && !IsApproved(job, input) && !IsBlocked(job, input) && !IsFatal(job, input)
  }

  /** What the agents answer in the i-th iteration from here. */
  function Turn(agents: Agents, clock: nat, i: nat): IterationInput {
    agents(clock + i)
  }

  lemma TurnShifts(agents: Agents, clock: nat, i: nat)
    ensures Turn(agents, clock + 1, i) == Turn(agents, clock, i + 1) && Turn(agents, clock, 0) == agents(clock)
  {
    assert clock + 1 + i == clock + (i + 1);
  }

  /** Iteration j asked for polish: of this call, or, if j is negative, of the recorded ones. */
  ghost predicate Polished(history: seq<Entry>, agents: Agents, clock: nat, j: int) {
    if j >= 0 then AsksPolish(agents(clock + j).review)
    else |history| + j >= 0 && history[|history| + j].action == Fix && !history[|history| + j].blocking
  }

  /** Stuck: the synthesizer says so, or on the default path three iterations in a row asked for polish. */
  ghost predicate StuckAt(job: Job, history: seq<Entry>, agents: Agents, clock: nat, i: nat) {
    if job.flagged then agents(clock + i).synthesis.Answers? && agents(clock + i).synthesis.value.stuck
    else Polished(history, agents, clock, i - 2) && Polished(history, agents, clock, i - 1)
         && Polished(history, agents, clock, i)
  }

  /** The files that the first n coder answers report. */
  ghost function Touched(agents: Agents, clock: nat, n: nat): set<string> {
    if n == 0 then {} else
      var coder := agents(clock + n - 1).coder;
      Touched(agents, clock, n - 1) + if coder.Answers? then SetOf(coder.value) else {}
  }

  // ---------------------------------------------------------------------- how a call ends

  /** All iterations but the last go on, none of them stuck. */
  ghost predicate KeepsGoing(job: Job, history: seq<Entry>, agents: Agents, clock: nat, n: nat) {
    forall i: nat :: i < n ==> GoesOn(job, Turn(agents, clock, i)) && !StuckAt(job, history, agents, clock, i)
  }

  /** The outcome the last iteration leads to, if it is not fatal; `files` says whether any file changed. */
  ghost function Verdict(job: Job, last: IterationInput, files: bool): Outcome {
    if IsApproved(job, last) then Completed
    else if !IsBlocked(job, last) && last.coder.Answers? && !Blocking(last.review) && files then CompletedWithDebt
    else FailedUnrecoverable
  }

  lemma DecisionReads(job: Job, input: IterationInput)
    requires input.coder.Answers?
    ensures var d := Decide(job.flagged, input);
            && (d.DecisionRaises? <==> IsFatal(job, input))
            && (d.Decided? ==>
                  && (d.action == Approve <==> IsApproved(job, input))
                  && (d.action == Block <==> IsBlocked(job, input))
                  && (d.blocking <==> Blocking(input.review))
                  && (GoesOn(job, input) && !job.flagged ==> d.action == Fix && AsksPolish(input.review)))
  {
  }

  /** One iteration later everything has moved by one. */
  lemma PolishedShifts(history: seq<Entry>, e: Entry, agents: Agents, clock: nat, j: int)
    requires e.action == Fix && !e.blocking <==> AsksPolish(agents(clock).review)
    ensures Polished(history + [e], agents, clock + 1, j) <==> Polished(history, agents, clock, j + 1)
  {
    assert clock + 1 + j == clock + (j + 1);
  }

  lemma StuckShifts(job: Job, history: seq<Entry>, e: Entry, agents: Agents, clock: nat, i: nat)
    requires !job.flagged ==> (e.action == Fix && !e.blocking <==> AsksPolish(agents(clock).review))
    ensures StuckAt(job, history + [e], agents, clock + 1, i) <==> StuckAt(job, history, agents, clock, i + 1)
  {
    if !job.flagged {
      PolishedShifts(history, e, agents, clock, i - 2);
      PolishedShifts(history, e, agents, clock, i - 1);
      PolishedShifts(history, e, agents, clock, i);
      assert (i + 1) - 2 == (i - 2) + 1 && (i + 1) - 1 == (i - 1) + 1;
      hide Polished;
    } else {
      assert clock + 1 + i == clock + (i + 1);
    }
  }

  lemma {:induction false} TouchedShifts(agents: Agents, clock: nat, n: nat)
    ensures Touched(agents, clock, n + 1)
            == (if agents(clock).coder.Answers? then SetOf(agents(clock).coder.value) else {})
               + Touched(agents, clock + 1, n)
  {
    if n > 0 {
      TouchedShifts(agents, clock, n - 1);
      assert clock + 1 + n - 1 == clock + (n + 1) - 1;
    } else {
      assert Touched(agents, clock, 0) == {} == Touched(agents, clock + 1, 0);
    }
  }

  /** The default path is stuck exactly if the recorded decisions say so. */
  lemma StuckReads(job: Job, st: LoopState, changed: seq<string>, agents: Agents, clock: nat)
    requires agents(clock).coder.Answers? && GoesOn(job, agents(clock))
    ensures var d := Decide(job.flagged, agents(clock));
            d.Decided? && (Stuck(job, d, AfterDecision(job, st, changed, d).history)
                           <==> StuckAt(job, st.history, agents, clock, 0))
  {
    DecisionReads(job, agents(clock));
    var d := Decide(job.flagged, agents(clock));
    if !job.flagged {
      LastThree(st.history, Entry(st.iteration, d.action, d.blocking), agents, clock);
    }
  }

  lemma LastThree(history: seq<Entry>, e: Entry, agents: Agents, clock: nat)
    requires Polish(e) && AsksPolish(agents(clock).review)
    ensures DetectStuckLoop(history + [e]) <==>
              && Polished(history, agents, clock, -2) && Polished(history, agents, clock, -1)
              && Polished(history, agents, clock, 0)
  {
    var all, k := history + [e], |history|;
    assert all[k] == e;
    if k >= 2 {
      assert all[k - 1] == history[k - 1] && all[k - 2] == history[k - 2];
      assert DetectStuckLoop(all) <==> Polish(all[k - 2]) && Polish(all[k - 1]) && Polish(all[k]);
    }
  }

  /** How a call ends in its n-th iteration from here. */
  ghost predicate EndsIn(job: Job, st: LoopState, agents: Agents, clock: nat, end: LoopEnd, n: nat)
    requires n > 0
  {
    var last := Turn(agents, clock, n - 1);
    && end.calls == st.calls + n && st.iteration + n - 1 <= job.maxIterations
    && KeepsGoing(job, st.history, agents, clock, n - 1)
    && (GoesOn(job, last) ==>
          st.iteration + n - 1 == job.maxIterations || StuckAt(job, st.history, agents, clock, n - 1))
    && (end.attempt.Raises? <==> IsFatal(job, last))
    && (end.attempt.Returned? ==>
          var x := end.attempt.result;
          && x.outcome == Verdict(job, last, x.filesChanged != [])
          && SetOf(x.filesChanged) == SetOf(st.files) + Touched(agents, clock, n))
  }

  /** The loop tries again after this iteration. */
  ghost predicate TriesNext(job: Job, st: LoopState, agents: Agents, clock: nat) {
    && st.iteration < job.maxIterations
    && GoesOn(job, agents(clock)) && !StuckAt(job, st.history, agents, clock, 0)
  }

  lemma EndsAtOnce(job: Job, st: LoopState, agents: Agents, clock: nat)
    requires st.iteration <= job.maxIterations && !TriesNext(job, st, agents, clock)
    ensures EndsIn(job, st, agents, clock, Loop(job, st, agents, clock), 1)
  {
    var input := agents(clock);
    assert clock + 1 - 1 == clock && Touched(agents, clock, 0) == {};
    assert Touched(agents, clock, 1) == if input.coder.Answers? then SetOf(input.coder.value) else {};
    if input.coder.Answers? {
      var d := Decide(job.flagged, input);
      DecisionReads(job, input);
      AddAllNewMembers(st.files, input.coder.value);
      if GoesOn(job, input) {
        StuckReads(job, st, input.coder.value, agents, clock);
        var next := AfterDecision(job, st, input.coder.value, d);
        assert Loop(job, next, agents, clock + 1).calls == next.calls || next.iteration <= job.maxIterations;
      }
      hide Decide, StuckAt, Stuck;
    }
  }

  lemma GoesIntoNext(job: Job, st: LoopState, agents: Agents, clock: nat) returns (next: LoopState)
    requires TriesNext(job, st, agents, clock)
    ensures Loop(job, st, agents, clock) == Loop(job, next, agents, clock + 1)
    ensures next.iteration == st.iteration + 1 && next.calls == st.calls + 1
    ensures SetOf(next.files) == SetOf(st.files) + SetOf(agents(clock).coder.value)
    ensures |next.history| == |st.history| + 1 && next.history[..|st.history|] == st.history
    ensures var e := next.history[|st.history|];
            !job.flagged ==> e.action == Fix && !e.blocking && AsksPolish(agents(clock).review)
  {
    var input := agents(clock);
    var d := Decide(job.flagged, input);
    DecisionReads(job, input);
    AddAllNewMembers(st.files, input.coder.value);
    StuckReads(job, st, input.coder.value, agents, clock);
    next := AfterDecision(job, st, input.coder.value, d);
    hide Decide, StuckAt, Stuck;
  }

  /** What holds of a later start holds of an earlier one, one iteration on. */
  lemma OneLater(job: Job, st: LoopState, next: LoopState, agents: Agents, clock: nat, end: LoopEnd, n: nat)
    requires TriesNext(job, st, agents, clock) && n > 0 && EndsIn(job, next, agents, clock + 1, end, n)
    requires next.iteration == st.iteration + 1 && next.calls == st.calls + 1
    requires SetOf(next.files) == SetOf(st.files) + SetOf(agents(clock).coder.value)
    requires |next.history| == |st.history| + 1 && next.history[..|st.history|] == st.history
    requires var e := next.history[|st.history|];
             !job.flagged ==> e.action == Fix && !e.blocking && AsksPolish(agents(clock).review)
    ensures EndsIn(job, st, agents, clock, end, n + 1)
  {
    assert agents(clock).coder.Answers?;
    hide Touched, StuckAt, GoesOn, IsApproved, IsBlocked, IsFatal, Verdict;
    var e := next.history[|st.history|];
    assert next.history == st.history + [e];
    TurnShifts(agents, clock, n - 1);
    TouchedShifts(agents, clock, n);
    assert SetOf(next.files) + Touched(agents, clock + 1, n) == SetOf(st.files) + Touched(agents, clock, n + 1);
    StuckShifts(job, st.history, e, agents, clock, n - 1);
    GoesOnLonger(job, st.history, e, agents, clock, n - 1);
  }

  lemma GoesOnLonger(job: Job, history: seq<Entry>, e: Entry, agents: Agents, clock: nat, n: nat)
    requires !job.flagged ==> (e.action == Fix && !e.blocking <==> AsksPolish(agents(clock).review))
    requires GoesOn(job, agents(clock)) && !StuckAt(job, history, agents, clock, 0)
    requires KeepsGoing(job, history + [e], agents, clock + 1, n)
    ensures KeepsGoing(job, history, agents, clock, n + 1)
  {
    hide StuckAt, GoesOn;
    TurnShifts(agents, clock, 0);
    forall i: nat | i < n + 1
      ensures GoesOn(job, Turn(agents, clock, i)) && !StuckAt(job, history, agents, clock, i)
    {
      if i > 0 {
        TurnShifts(agents, clock, i - 1);
        StuckShifts(job, history, e, agents, clock, i - 1);
      }
    }
  }

  lemma {:induction false} LoopEndsIn(job: Job, st: LoopState, agents: Agents, clock: nat) returns (n: nat)
    requires st.iteration <= job.maxIterations
    ensures n > 0 && EndsIn(job, st, agents, clock, Loop(job, st, agents, clock), n)
    decreases job.maxIterations - st.iteration
  {
    hide Loop, EndsIn;
    if TriesNext(job, st, agents, clock) {
      var next := GoesIntoNext(job, st, agents, clock);
      var m := LoopEndsIn(job, next, agents, clock + 1);
      OneLater(job, st, next, agents, clock, Loop(job, st, agents, clock), m);
      n := m + 1;
    } else {
      EndsAtOnce(job, st, agents, clock);
      n := 1;
    }
  }

  /** The iterations a stored record has used up; it is only found where there is a directory to look in. */
  function Spent(job: Job, record: Option<IterationRecord>): nat {
    if job.persistent && record.Some? then record.value.iteration else 0
  }

  function RecordedFiles(job: Job, record: Option<IterationRecord>): seq<string> {
    if job.persistent && record.Some? then record.value.files else []
  }

  function RecordedHistory(job: Job, record: Option<IterationRecord>): seq<Entry> {
    if job.persistent && record.Some? then record.value.history else []
  }

  /**
   * How a call ends, fresh or resumed. With no iteration left it calls nobody. Otherwise it
   * stops at the first iteration that approves, blocks, fails or is fatal, or is stuck, or
   * is the last one allowed, and that iteration and the files changed decide the outcome.
   */
  lemma CallEnds(job: Job, record: Option<IterationRecord>, agents: Agents, clock: nat)
    ensures var end, left := RunLoop(job, record, agents, clock), job.maxIterations - Spent(job, record);
            var files, history := RecordedFiles(job, record), RecordedHistory(job, record);
            if left <= 0 then
              && end.calls == 0 && end.attempt.Returned? && end.attempt.result.filesChanged == files
              && end.attempt.result.outcome == if files != [] then CompletedWithDebt else FailedUnrecoverable
            else
              && 0 < end.calls <= left
              && KeepsGoing(job, history, agents, clock, end.calls - 1)
              && var last := Turn(agents, clock, end.calls - 1);
                 && (end.calls == left || !GoesOn(job, last) || StuckAt(job, history, agents, clock, end.calls - 1))
                 && (end.attempt.Raises? <==> IsFatal(job, last))
                 && (end.attempt.Returned? ==>
                       && end.attempt.result.outcome == Verdict(job, last, end.attempt.result.filesChanged != [])
                       && SetOf(end.attempt.result.filesChanged) == SetOf(files) + Touched(agents, clock, end.calls))
  {
    var st := Entering(job, record);
    if st.iteration <= job.maxIterations {
      hide Loop;
      var n := LoopEndsIn(job, st, agents, clock);
    }
  }

  predicate EndsAs(end: LoopEnd, o: Outcome) {
    end.attempt.Returned? && end.attempt.result.outcome == o
  }

  /**
   * Who completes an issue. On the default path a call ends completed exactly if the review
   * of its last iteration approves without blocking, or fails; every review before that
   * asked for polish, and a blocking one ends the call as failed. On the flagged path the
   * synthesizer decides, and QA and review together if it fails.
   */
  lemma CompletesExactly(job: Job, record: Option<IterationRecord>, agents: Agents, clock: nat)
    ensures var end := RunLoop(job, record, agents, clock);
            EndsAs(end, Completed) <==>
              && end.calls > 0
              && var last := Turn(agents, clock, end.calls - 1);
                 && last.coder.Answers?
                 && if !job.flagged then last.review.Fails? || last.review == Answers(Review(true, false))
                    else || (last.synthesis.Answers? && last.synthesis.value.action == Approve)
                         || (&& last.synthesis.Fails? && last.qaPassed == Answers(true)
                             && (!last.review.Answers? || last.review.value == Review(true, false)))
    ensures forall i: nat :: i + 1 < RunLoop(job, record, agents, clock).calls && !job.flagged ==>
                               Turn(agents, clock, i).review == Answers(Review(false, false))
    ensures var end := RunLoop(job, record, agents, clock);
            end.calls > 0 && IsBlocked(job, Turn(agents, clock, end.calls - 1)) ==> EndsAs(end, FailedUnrecoverable)
    ensures forall i: nat :: i < RunLoop(job, record, agents, clock).calls && IsBlocked(job, Turn(agents, clock, i)) ==>
                               i + 1 == RunLoop(job, record, agents, clock).calls
  {
    var end, history := RunLoop(job, record, agents, clock), RecordedHistory(job, record);
    hide RunLoop, Touched, StuckAt;
    CallEnds(job, record, agents, clock);
    forall i: nat | i + 1 < end.calls
      ensures GoesOn(job, Turn(agents, clock, i))
    {
      assert !StuckAt(job, history, agents, clock, i);
    }
    forall i: nat | i < end.calls && IsBlocked(job, Turn(agents, clock, i))
      ensures i + 1 == end.calls
    {
      assert !GoesOn(job, Turn(agents, clock, i));
    }
  }

  // ---------------------------------------------------------------------- what is recorded

  /** The history entry of an iteration says what was decided in it. */
  ghost predicate Tells(job: Job, input: IterationInput, e: Entry) {
    && (e.action == Approve <==> IsApproved(job, input)) && (e.action == Block <==> IsBlocked(job, input))
    && (e.blocking <==> Blocking(input.review))
    && (if job.flagged && input.synthesis.Answers? then e.action == input.synthesis.value.action
        else e.action != OtherAction)
  }

  /** One entry for each of n iterations, numbered on from the first. */
  ghost predicate EntriesTell(job: Job, agents: Agents, clock: nat, entries: seq<Entry>, first: nat, n: nat) {
    && |entries| == n
    && forall k: nat :: k < n ==> Tells(job, Turn(agents, clock, k), entries[k]) && entries[k].iteration == first + k
  }

  /** What the record holds after n more decided iterations. */
  ghost predicate TellsOf(job: Job, st: LoopState, agents: Agents, clock: nat, rec: IterationRecord, n: nat) {
    && rec.iteration == st.iteration + n - 1
    && SetOf(rec.files) == SetOf(st.files) + Touched(agents, clock, n)
    && |rec.history| == |st.history| + n && rec.history[..|st.history|] == st.history
    && EntriesTell(job, agents, clock, rec.history[|st.history|..], st.iteration, n)
  }

  ghost predicate EndTells(job: Job, st: LoopState, agents: Agents, clock: nat, end: LoopEnd) {
    && st.decided <= end.decided
    && if !job.persistent || end.decided == st.decided then end.record == st.record
       else end.record.Some? && TellsOf(job, st, agents, clock, end.record.value, end.decided - st.decided)
  }

  lemma NextTells(job: Job, st: LoopState, agents: Agents, clock: nat, next: LoopState)
    requires agents(clock).coder.Answers? && Decide(job.flagged, agents(clock)).Decided?
    requires next == AfterDecision(job, st, agents(clock).coder.value, Decide(job.flagged, agents(clock)))
    ensures TellsOf(job, st, agents, clock, IterationRecord(st.iteration, next.files, next.history), 1)
    ensures Tells(job, agents(clock), next.history[|st.history|])
  {
    DecisionReads(job, agents(clock));
    AddAllNewMembers(st.files, agents(clock).coder.value);
    assert Touched(agents, clock, 0) == {} && Touched(agents, clock, 1) == SetOf(agents(clock).coder.value);
  }

  lemma TellsLater(job: Job, st: LoopState, agents: Agents, clock: nat, next: LoopState, rec: IterationRecord, n: nat)
    requires agents(clock).coder.Answers? && Decide(job.flagged, agents(clock)).Decided?
    requires next == AfterDecision(job, st, agents(clock).coder.value, Decide(job.flagged, agents(clock)))
    requires n > 0 && TellsOf(job, next, agents, clock + 1, rec, n)
    ensures TellsOf(job, st, agents, clock, rec, n + 1)
  {
    hide Touched, Tells, Decide;
    NextTells(job, st, agents, clock, next);
    AddAllNewMembers(st.files, agents(clock).coder.value);
    TouchedShifts(agents, clock, n);
    assert SetOf(next.files) + Touched(agents, clock + 1, n) == SetOf(st.files) + Touched(agents, clock, n + 1);
    var all, h := rec.history, |st.history|;
    assert all[h] == all[..h + 1][h] && all[..h] == all[..h + 1][..h];
    assert all[h..] == [all[h]] + all[h + 1..];
    EntryInFront(job, agents, clock, all[h], all[h + 1..], st.iteration, n);
  }

  lemma EntryInFront(job: Job, agents: Agents, clock: nat, e: Entry, entries: seq<Entry>, first: nat, n: nat)
    requires EntriesTell(job, agents, clock + 1, entries, first + 1, n)
    requires Tells(job, agents(clock), e) && e.iteration == first
    ensures EntriesTell(job, agents, clock, [e] + entries, first, n + 1)
  {
    hide Tells;
    var all := [e] + entries;
    forall k: nat | k < n + 1
      ensures Tells(job, Turn(agents, clock, k), all[k]) && all[k].iteration == first + k
    {
      TurnShifts(agents, clock, if k > 0 then k - 1 else 0);
      if k > 0 {
        assert all[k] == entries[k - 1];
      }
    }
  }

  lemma {:induction false} LoopTells(job: Job, st: LoopState, agents: Agents, clock: nat)
    ensures EndTells(job, st, agents, clock, Loop(job, st, agents, clock))
    decreases job.maxIterations - st.iteration
  {
    hide TellsOf, Decide, Stuck;
    var input, end := agents(clock), Loop(job, st, agents, clock);
    if st.iteration <= job.maxIterations && input.coder.Answers? && Decide(job.flagged, input).Decided? {
      var d := Decide(job.flagged, input);
      var next := AfterDecision(job, st, input.coder.value, d);
      NextTells(job, st, agents, clock, next);
      if d.action != Approve && d.action != Block && !Stuck(job, d, next.history) {
        LoopTells(job, next, agents, clock + 1);
        assert end == AfterAnswer(job, st, input.coder.value, d, agents, clock) == Loop(job, next, agents, clock + 1);
        if job.persistent && end.decided > next.decided {
          TellsLater(job, st, agents, clock, next, end.record.value, end.decided - next.decided);
        }
      }
    }
  }

  /**
   * The record tells the story: behind what was on it, one entry for each iteration that
   * came to a decision, numbered on, with its action and its blocking flag, and all files
   * changed so far. Without a directory, or without a decision, it is left as it was.
   */
  lemma RecordTellsStory(job: Job, record: Option<IterationRecord>, agents: Agents, clock: nat)
    ensures var end := RunLoop(job, record, agents, clock);
            if !job.persistent || end.decided == 0 then end.record == record
            else
              && end.record.Some?
              && var rec, history := end.record.value, RecordedHistory(job, record);
                 && rec.iteration == Spent(job, record) + end.decided
                 && SetOf(rec.files) == SetOf(RecordedFiles(job, record)) + Touched(agents, clock, end.decided)
                 && |rec.history| == |history| + end.decided && rec.history[..|history|] == history
                 && EntriesTell(job, agents, clock, rec.history[|history|..], Spent(job, record) + 1, end.decided)
  {
    hide Loop, EntriesTell, Touched;
    var st := Entering(job, record);
    LoopTells(job, st, agents, clock);
    assert st.history == RecordedHistory(job, record) && st.files == RecordedFiles(job, record);
    assert st.iteration == Spent(job, record) + 1 && st.record == record;
  }
}
