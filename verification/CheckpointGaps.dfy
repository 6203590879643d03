/** What a checkpoint lacks of the state in memory: at any time one level at most. */
module CheckpointGaps {
  import opened Graph
  import opened Schemas
  import opened Replan
  import opened GitFastPath
  import opened RunLoop
  import opened PassFacts
  import opened Accounts

  /** Everything a level leaves on record: its results, what its merge gate is told, and the debt taken. */
  datatype LevelRecord = LevelRecord(results: LevelResult, merged: seq<string>, unmerged: seq<string>,
                                     debt: seq<DebtItem>)

  const NO_RESULTS := LevelResult([], [], [])
  const NOTHING := LevelRecord(NO_RESULTS, [], [], [])

  ghost function RecordOf(cfg: Config, r: Run, input: PassInput): LevelRecord
    requires !Halted(r)
  {
    var m := MergeReport(cfg, r, input);
    LevelRecord(LevelOutcome(cfg, r, input), m.merged, m.failed, DebtTaken(cfg, r, input))
  }

  /** The state holds what the checkpoint holds and, beyond it, exactly these records, skips and decisions. */
  ghost predicate Misses(c: State, s: State, record: LevelRecord, skips: set<Name>, decisions: seq<Decision>) {
    && s.completed == c.completed + record.results.completed && s.failed == c.failed + record.results.failed
    && s.skipped == c.skipped + ResultNames(record.results.skipped) + skips
    && s.merged == AddAllNew(c.merged, record.merged) && s.unmerged == AddAllNew(c.unmerged, record.unmerged)
    && s.debt == c.debt + record.debt
    && s.history == c.history + decisions && s.replanCount == c.replanCount + |decisions|
  }

  /** The records of two states agree, skips, history and replan count included. */
  ghost predicate SameRecords(c: State, s: State) {
    && c.completed == s.completed && c.failed == s.failed && c.skipped == s.skipped
    && SameBooks(c, s)
    && c.history == s.history && c.replanCount == s.replanCount
  }

  ghost predicate SameBooks(c: State, s: State) {
    c.merged == s.merged && c.unmerged == s.unmerged && c.debt == s.debt
  }

  lemma MissesNothing(c: State, s: State, skips: set<Name>, decisions: seq<Decision>)
    requires c.completed == s.completed && c.failed == s.failed && s.skipped == c.skipped + skips && SameBooks(c, s)
    requires s.history == c.history + decisions && s.replanCount == c.replanCount + |decisions|
    ensures Misses(c, s, NOTHING, skips, decisions)
  {
    assert c.completed + [] == c.completed && c.failed + [] == c.failed && c.debt + [] == c.debt;
  }

  lemma SameRecordsMissNothing(c: State, s: State)
    requires SameRecords(c, s)
    ensures Misses(c, s, NOTHING, {}, [])
  {
    assert c.history + [] == c.history;
    MissesNothing(c, s, {}, []);
  }

  /**
   * What can be missing of one pass: all its level leaves on record with what its gates
   * skip and decide; or what the replan gate skips and decides; or nothing.
   */
  ghost predicate MissesPass(cfg: Config, r: Run, input: PassInput, c: State, s: State)
    requires !Halted(r)
  {
    || Misses(c, s, RecordOf(cfg, r, input), SkippedByGates(cfg, r, input), PassDecisions(cfg, r, input))
    || Misses(c, s, NOTHING, SkippedByGates(cfg, r, input), GateDecisions(cfg, r, input))
    || Misses(c, s, NOTHING, {}, [])
  }

  lemma PassRecordsLevel(cfg: Config, r: Run, input: PassInput)
    requires !Halted(r) && Active(r) != []
    ensures Misses(r.dag, Pass(cfg, r, input).dag, RecordOf(cfg, r, input), SkippedByGates(cfg, r, input),
                   PassDecisions(cfg, r, input))
  {
    PassSkips(cfg, r, input);
    PassBooks(cfg, r, input);
    PassHistory(cfg, r, input);
    PassResults(cfg, r, input);
    hide SkippedByGates, PassDecisions, Pass, LevelOutcome, MergeReport, DebtTaken, Active;
  }

  lemma AfterSplitsHasLevel(cfg: Config, r: Run, input: PassInput)
    requires !Halted(r) && Active(r) != [] && !ThresholdHit(cfg, LevelOutcome(cfg, r, input))
    ensures Misses(AfterSplits(cfg, r, input).dag, Pass(cfg, r, input).dag, NOTHING, SkippedByGates(cfg, r, input),
                   GateDecisions(cfg, r, input))
  {
    PassKeeps(cfg, r, input);
    SplitGateKeeps(cfg, r, input);
    PassSkips(cfg, r, input);
    PassBooks(cfg, r, input);
    PassHistory(cfg, r, input);
    hide LevelOutcome, SkippedByGates, AfterSplits, BeforeSplits, Pass, Active, ThresholdHit, GateDecisions;
    MissesNothing(AfterSplits(cfg, r, input).dag, Pass(cfg, r, input).dag, SkippedByGates(cfg, r, input),
                  GateDecisions(cfg, r, input));
  }

  /**
   * During a pass, whatever checkpoint was written last has everything earlier, and what
   * this level leaves on record, the skip bucket included, completely or not at all.
   */
  lemma CheckpointDuringPass(cfg: Config, r: Run, input: PassInput, c: State)
    requires !Halted(r) && c in Checkpoints(cfg, r, input)
    ensures Active(r) != []
    ensures Misses(r.dag, Pass(cfg, r, input).dag, RecordOf(cfg, r, input), SkippedByGates(cfg, r, input),
                   PassDecisions(cfg, r, input))
    ensures MissesPass(cfg, r, input, c, Pass(cfg, r, input).dag)
    ensures || SameRecords(c, r.dag)
            || (&& c.completed == Pass(cfg, r, input).dag.completed && c.failed == Pass(cfg, r, input).dag.failed
                && SameBooks(c, Pass(cfg, r, input).dag)
                && r.dag.skipped + ResultNames(LevelOutcome(cfg, r, input).skipped) <= c.skipped)
  {
    var s := Pass(cfg, r, input).dag;
    PassRecordsLevel(cfg, r, input);
    KindsOfCheckpoints(cfg, r, input, c);
    PassSkips(cfg, r, input);
    hide Pass, LevelOutcome, SkippedByGates, AfterSplits, Active, ThresholdHit, Checkpoints, RecordOf, PassDecisions;
    hide GateDecisions, AddAllNew;
    if SameRecords(c, r.dag) {
      SameRecordsMiss(c, r.dag, s, RecordOf(cfg, r, input), SkippedByGates(cfg, r, input),
                      PassDecisions(cfg, r, input));
    } else if SameRecords(c, s) {
      SameRecordsMissNothing(c, s);
    } else {
      AfterSplitsHasLevel(cfg, r, input);
      NothingIsNothing(c, s, SkippedByGates(cfg, r, input), GateDecisions(cfg, r, input));
    }
    hide Misses;
  }

  lemma SameRecordsMiss(c: State, that: State, s: State, record: LevelRecord, skips: set<Name>,
                        decisions: seq<Decision>)
    requires SameRecords(c, that)
    ensures Misses(c, s, record, skips, decisions) == Misses(that, s, record, skips, decisions)
  {
  }

  lemma NothingIsNothing(c: State, s: State, skips: set<Name>, decisions: seq<Decision>)
    requires Misses(c, s, NOTHING, skips, decisions)
    ensures c.completed == s.completed && c.failed == s.failed && SameBooks(c, s)
  {
  }

  lemma KindsOfCheckpoints(cfg: Config, r: Run, input: PassInput, c: State)
    requires !Halted(r) && c in Checkpoints(cfg, r, input)
    ensures Active(r) != []
    ensures || SameRecords(c, r.dag) || SameRecords(c, Pass(cfg, r, input).dag)
            || (c == AfterSplits(cfg, r, input).dag && !ThresholdHit(cfg, LevelOutcome(cfg, r, input)))
  {
    hide LevelOutcome, AfterSplits, Active, ThresholdHit, AtBarrier;
  }

  /** The latest checkpoint and the state in memory, at one moment. */
  datatype Moment = Moment(latest: State, now: State)

  /** The moments of a working pass from its first checkpoint on: after each checkpoint and each gate. */
  ghost function Moments(cfg: Config, r: Run, input: PassInput): seq<Moment>
    requires !Halted(r) && Active(r) != []
  {
    var lr, launched := LevelOutcome(cfg, r, input), Launched(cfg, r, input);
    var barrier, recorded := launched.(inFlight := []), AtBarrier(cfg, r, input);
    var begun := [Moment(launched, launched), Moment(barrier, barrier), Moment(barrier, recorded)];
    if ThresholdHit(cfg, lr) then begun + [Moment(barrier, AbandonRest(recorded))]
    else
      var split := AfterSplits(cfg, r, input).dag;
      var latest := if AnySplit(cfg, lr) then split else barrier;
      begun + [Moment(barrier, MergeGate(cfg, recorded, lr, input)), Moment(barrier, BeforeSplits(cfg, r, input)),
               Moment(barrier, split), Moment(latest, split), Moment(latest, Decide(cfg, r, input).dag)]
  }

  /** The state is ahead of the checkpoint by the pass's level or by nothing, and by some of what its gates skip. */
  ghost predicate AheadByLevel(cfg: Config, r: Run, input: PassInput, c: State, s: State)
    requires !Halted(r)
  {
    var lr := LevelOutcome(cfg, r, input);
    || Ahead(c, s, NO_RESULTS, SkippedByGates(cfg, r, input))
    || Ahead(c, s, lr, SkippedByGates(cfg, r, input))
  }

  ghost predicate Ahead(c: State, s: State, lr: LevelResult, skips: set<Name>) {
    && s.completed == c.completed + lr.completed && s.failed == c.failed + lr.failed
    && c.skipped + ResultNames(lr.skipped) <= s.skipped <= c.skipped + ResultNames(lr.skipped) + skips
  }

  lemma AheadByNothing(c: State, s: State, skips: set<Name>)
    requires s.completed == c.completed && s.failed == c.failed && c.skipped <= s.skipped <= c.skipped + skips
    ensures Ahead(c, s, NO_RESULTS, skips)
  {
    assert c.completed + [] == c.completed && c.failed + [] == c.failed;
  }

  /** Inside a pass too, whatever happens when, the latest checkpoint lacks one level at most, wholly or not at all. */
  lemma MomentsMissOneLevel(cfg: Config, r: Run, input: PassInput, i: nat)
    requires !Halted(r) && Active(r) != [] && i < |Moments(cfg, r, input)|
    ensures AheadByLevel(cfg, r, input, Moments(cfg, r, input)[i].latest, Moments(cfg, r, input)[i].now)
  {
    var m, lr, skips := Moments(cfg, r, input)[i], LevelOutcome(cfg, r, input), SkippedByGates(cfg, r, input);
    MomentRecords(cfg, r, input, i);
    hide Moments, LevelOutcome, SkippedByGates, Ahead, HasLevel;
    if SameLevel(m.latest, m.now, skips) {
      AheadByNothing(m.latest, m.now, skips);
    } else {
      HasLevelIsAhead(cfg, r, input, m.now);
    }
  }

  ghost predicate SameLevel(c: State, s: State, skips: set<Name>) {
    s.completed == c.completed && s.failed == c.failed && c.skipped <= s.skipped <= c.skipped + skips
  }

  /** The level's results are in, and perhaps some of what the gates skip. */
  ghost predicate HasLevel(cfg: Config, r: Run, input: PassInput, s: State)
    requires !Halted(r)
  {
    var recorded := AtBarrier(cfg, r, input);
    && s.completed == recorded.completed && s.failed == recorded.failed
    && recorded.skipped <= s.skipped <= recorded.skipped + SkippedByGates(cfg, r, input)
  }

  lemma HasLevelIsAhead(cfg: Config, r: Run, input: PassInput, s: State)
    requires !Halted(r) && HasLevel(cfg, r, input, s)
    ensures Ahead(Launched(cfg, r, input).(inFlight := []), s, LevelOutcome(cfg, r, input),
                  SkippedByGates(cfg, r, input))
  {
    hide LevelOutcome, SkippedByGates, Launched;
  }

  lemma GatesKeepLevel(cfg: Config, r: Run, input: PassInput)
    requires !Halted(r) && Active(r) != [] && !ThresholdHit(cfg, LevelOutcome(cfg, r, input))
    ensures var lr, s, v := LevelOutcome(cfg, r, input), AfterSplits(cfg, r, input).dag, Decide(cfg, r, input).dag;
            && HasLevel(cfg, r, input, MergeGate(cfg, AtBarrier(cfg, r, input), lr, input))
            && HasLevel(cfg, r, input, BeforeSplits(cfg, r, input))
            && HasLevel(cfg, r, input, s) && HasLevel(cfg, r, input, v)
            && SameLevel(s, v, SkippedByGates(cfg, r, input))
  {
    var lr, s := LevelOutcome(cfg, r, input), AfterSplits(cfg, r, input).dag;
    BarrierSkips(cfg, r, input);
    SplitGateKeeps(cfg, r, input);
    PassSkips(cfg, r, input);
    AfterTheGate(cfg, r, input);
    ReplanSkips(cfg, s, ToReplan(lr.failed), input.decision);
    ReplanKeeps(cfg, s, ToReplan(lr.failed), input.decision);
    hide LevelOutcome, AfterSplits, ThresholdHit, Active, AtBarrier, SkippedByGates, GateSkips, ReplanGate;
    hide ToReplan, Pass;
    hide Dispatched, DebtOf, BranchesToMerge;
  }

  lemma BarrierSkips(cfg: Config, r: Run, input: PassInput)
    requires !Halted(r)
    ensures AtBarrier(cfg, r, input).skipped == r.dag.skipped + ResultNames(LevelOutcome(cfg, r, input).skipped)
  {
    hide LevelOutcome;
  }

  lemma MomentRecords(cfg: Config, r: Run, input: PassInput, i: nat)
    requires !Halted(r) && Active(r) != [] && i < |Moments(cfg, r, input)|
    ensures var m, skips := Moments(cfg, r, input)[i], SkippedByGates(cfg, r, input);
            || SameLevel(m.latest, m.now, skips)
            || (m.latest == Launched(cfg, r, input).(inFlight := []) && HasLevel(cfg, r, input, m.now))
  {
    hide LevelOutcome, AfterSplits, ThresholdHit, Active, AnySplit, AtBarrier, SkippedByGates, Launched, Decide;
    hide BeforeSplits;
    hide MergeGate;
    if ThresholdHit(cfg, LevelOutcome(cfg, r, input)) {
      SkippedAtThreshold(cfg, r, input);
    } else {
      GatesKeepLevel(cfg, r, input);
    }
  }

  lemma SkippedAtThreshold(cfg: Config, r: Run, input: PassInput)
    requires !Halted(r) && Active(r) != [] && ThresholdHit(cfg, LevelOutcome(cfg, r, input))
    ensures AtBarrier(cfg, r, input).level < |AtBarrier(cfg, r, input).levels|
    ensures AbandonRest(AtBarrier(cfg, r, input)).skipped
            == AtBarrier(cfg, r, input).skipped + SkippedByGates(cfg, r, input)
  {
    hide LevelOutcome, ThresholdHit, Active;
  }

  function Latest(log: seq<State>): State
    requires log != []
  {
    log[|log| - 1]
  }

  lemma {:induction false} LogStarts(cfg: Config, start: Run, world: World, k: nat)
    ensures Log(cfg, start, world, k) != []
  {
    hide Checkpoints, StateAt;
    if k > 0 {
      LogStarts(cfg, start, world, k - 1);
    }
  }

  /** What the checkpoint lacks belongs to the level executed by pass j. */
  ghost predicate MissesPassAt(cfg: Config, start: Run, world: World, c: State, s: State, j: nat) {
    var r := StateAt(cfg, start, world, j);
    !Halted(r) && MissesPass(cfg, r, world(j), c, s)
  }

  lemma LatestAtStart(cfg: Config, start: Run, world: World)
    ensures Log(cfg, start, world, 0) != []
    ensures Misses(Latest(Log(cfg, start, world, 0)), StateAt(cfg, start, world, 0).dag, NOTHING, {}, [])
  {
    hide Misses;
    NothingRunYet(cfg, start, world);
    SameRecordsMissNothing(start.dag, start.dag);
  }

  lemma {:induction false} LatestInLog(cfg: Config, start: Run, world: World, k: nat)
    ensures Log(cfg, start, world, k) != []
    ensures var c, s := Latest(Log(cfg, start, world, k)), StateAt(cfg, start, world, k).dag;
            Misses(c, s, NOTHING, {}, []) || exists j: nat :: j < k && MissesPassAt(cfg, start, world, c, s, j)
  {
    hide Misses, MissesPass, MissesPassAt, Pass, Checkpoints, Active, StateAt, Log, IntegrationLog, PassIntegrates;
    hide Halted, Latest, SameRecords;
    LogStarts(cfg, start, world, k);
    if k == 0 {
      LatestAtStart(cfg, start, world);
    } else {
      LatestInLog(cfg, start, world, k - 1);
      Step(cfg, start, world, k - 1);
      var r, input := StateAt(cfg, start, world, k - 1), world(k - 1);
      if !Halted(r) {
        var c, s := Latest(Log(cfg, start, world, k)), StateAt(cfg, start, world, k).dag;
        LatestAfterPass(cfg, r, input, Log(cfg, start, world, k - 1));
        if Active(r) == [] {
          EmptyPassMissesTheSame(cfg, start, world, c, r.dag, s);
        } else {
          MissesPassNow(cfg, start, world, c, s, k - 1);
        }
      }
    }
  }

  /**
   * Between passes too, what the latest checkpoint misses belongs to a single level; a
   * run that has halted misses nothing, for its last word is written as well.
   */
  lemma LatestCheckpointMissesOneLevel(cfg: Config, start: Run, world: World, k: nat)
    ensures Written(cfg, start, world, k) != []
    ensures var c, r := Latest(Written(cfg, start, world, k)), StateAt(cfg, start, world, k);
            if Halted(r) then c == r.dag
            else
              || Misses(c, r.dag, NOTHING, {}, [])
              || exists j: nat :: j < k && MissesPassAt(cfg, start, world, c, r.dag, j)
  {
    hide Misses, MissesPassAt, Log, StateAt;
    LatestInLog(cfg, start, world, k);
    assert Log(cfg, start, world, k) + [] == Log(cfg, start, world, k);
  }

  lemma EmptyPassMissesTheSame(cfg: Config, start: Run, world: World, c: State, before: State, after: State)
    requires SameRecords(before, after)
    ensures Misses(c, before, NOTHING, {}, []) == Misses(c, after, NOTHING, {}, [])
    ensures forall j: nat ::
              MissesPassAt(cfg, start, world, c, before, j) == MissesPassAt(cfg, start, world, c, after, j)
  {
    hide StateAt, RecordOf, SkippedByGates, PassDecisions, GateDecisions;
  }

  lemma MissesPassNow(cfg: Config, start: Run, world: World, c: State, s: State, j: nat)
    requires !Halted(StateAt(cfg, start, world, j))
    ensures MissesPass(cfg, StateAt(cfg, start, world, j), world(j), c, s) <==> MissesPassAt(cfg, start, world, c, s, j)
  {
    hide MissesPass, StateAt;
  }

  lemma LatestAfterPass(cfg: Config, r: Run, input: PassInput, log: seq<State>)
    requires !Halted(r) && log != []
    ensures var c, s := Latest(log + Checkpoints(cfg, r, input)), Pass(cfg, r, input).dag;
            if Active(r) == [] then
              c == Latest(log) && SameRecords(r.dag, s)
            else MissesPass(cfg, r, input, c, s)
  {
    var cs := Checkpoints(cfg, r, input);
    if Active(r) == [] {
      assert log + cs == log;
    } else {
      var c := Latest(cs);
      assert Latest(log + cs) == c && c in cs;
      hide Pass, LevelOutcome, SkippedByGates, MissesPass, Checkpoints, RecordOf, PassDecisions;
      CheckpointDuringPass(cfg, r, input, c);
    }
  }
}
