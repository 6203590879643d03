/** The outer loop's assumptions about its tasks, discharged by the built-in issue execution. */
module BuiltInTasks {
  import opened Collections
  import opened Graph
  import opened Schemas
  import opened RunLoop
  import opened PassFacts
  import opened RunTheorems
  import opened Accounts
  import opened DagSpec
  import opened LevelAnswers
  import Advisor
  import AdviceEnds
  import CodingLoop

  /** What one task finds when it starts: its limits, its iteration checkpoint and its agents. */
  datatype TaskWorld = TaskWorld(
    flagged: bool,
    maxIterations: int,
    persistent: bool,
    maxAdvisor: int,
    record: Option<CodingLoop.IterationRecord>,
    agents: CodingLoop.Agents,
    advisors: Advisor.Advisors)

  function JobOf(issue: Issue, t: TaskWorld): CodingLoop.Job {
    var branch := if issue.branch.Some? then issue.branch.value else "";
    CodingLoop.Job(issue.name, branch, t.flagged, t.maxIterations, t.persistent)
  }

  /** Gathering a finished task yields its result, or the exception it ended in. */
  ghost function Gathered(issue: Issue, t: TaskWorld): TaskReply {
    var end := Advisor.Execution(JobOf(issue, t), t.maxAdvisor, t.record, t.agents, t.advisors);
    match end.attempt
    case Raises => Raised
    case Returned(r) => TaskReply.Returned(r)
  }

  /** Every task of the pass is the built-in execution of its issue. */
  ghost predicate BuiltIn(cfg: Config, r: Run, input: PassInput, tasks: nat -> TaskWorld)
    requires !Halted(r)
  {
    var handed := Handed(cfg, r, input);
    forall i :: 0 <= i < |handed| ==> input.reply(i) == Gathered(handed[i], tasks(i))
  }

  /** The debt of the advice taken in a task that ends accepted with debt; any other task leaves none. */
  ghost function TaskDebt(issue: Issue, t: TaskWorld): seq<DebtItem> {
    var end := Advisor.Execution(JobOf(issue, t), t.maxAdvisor, t.record, t.agents, t.advisors);
    if end.attempt.Returned? && end.attempt.result.outcome == CompletedWithDebt then
      Advisor.DebtTrail(issue.name, t.advisors, end.asked)
    else []
  }

  lemma GatheredAnswers(issue: Issue, t: TaskWorld)
    ensures Gathered(issue, t).Returned? ==>
              && Gathered(issue, t).result.issueName == issue.name
              && (Succeeded(Gathered(issue, t).result.outcome) ==>
                    Gathered(issue, t).result.branchName == if issue.branch.Some? then issue.branch.value else "")
    ensures var result := ResultFor(issue, Gathered(issue, t));
            TaskDebt(issue, t) == if result.outcome == CompletedWithDebt then result.debtItems else []
  {
    Advisor.IssueDebtIsExact(JobOf(issue, t), t.maxAdvisor, t.record, t.agents, t.advisors);
  }

  /** Whatever coder, reviewers and advisors do, built-in tasks answer for their own issue and branch. */
  lemma BuiltInTasksAreFaithful(cfg: Config, r: Run, input: PassInput, tasks: nat -> TaskWorld)
    requires !Halted(r) && BuiltIn(cfg, r, input, tasks)
    ensures Faithful(cfg, r, input)
    ensures AnswersWithBranches(Handed(cfg, r, input), input.reply)
  {
    hide Gathered;
    var handed := Handed(cfg, r, input);
    forall i | 0 <= i < |handed| && input.reply(i).Returned?
      ensures input.reply(i).result.issueName == handed[i].name
      ensures Succeeded(input.reply(i).result.outcome) ==>
                input.reply(i).result.branchName == if handed[i].branch.Some? then handed[i].branch.value else ""
    {
      GatheredAnswers(handed[i], tasks(i));
    }
  }

  ghost predicate BuiltInAt(cfg: Config, start: Run, world: World, tasks: nat -> nat -> TaskWorld, j: nat) {
    var r := StateAt(cfg, start, world, j);
    !Halted(r) ==> BuiltIn(cfg, r, world(j), tasks(j))
  }

  /** So no issue of a planned run with built-in tasks is ever started twice, by any pass. */
  lemma PlannedIssuesStartOnce(cfg: Config, start: Run, world: World, tasks: nat -> nat -> TaskWorld, j: nat, k: nat,
                               n: Name)
    requires Named(start.lookup) && LevelsDistinct(start.dag.levels)
    requires BuiltInAt(cfg, start, world, tasks, j) && j < k && n in Starts(cfg, start, world, j)
    ensures n !in Starts(cfg, start, world, k)
  {
    var r := StateAt(cfg, start, world, j);
    hide StateAt, BuiltIn, Faithful, Active;
    BuiltInTasksAreFaithful(cfg, r, world(j), tasks(j));
    assert FaithfulAt(cfg, start, world, j);
    NobodyStartsTwice(cfg, start, world, j, k, n);
  }

  // ------------------------------------------------------------------------------- debt

  /** The advisors' debt over one level, in task order. */
  ghost function LevelTrail(handed: seq<Issue>, tasks: nat -> TaskWorld): seq<DebtItem> {
    if handed == [] then [] else
      var k := |handed| - 1;
      LevelTrail(handed[..k], tasks) + TaskDebt(handed[k], tasks(k))
  }

  lemma {:induction false} LevelDebtIsTrail(handed: seq<Issue>, reply: nat -> TaskReply, tasks: nat -> TaskWorld)
    requires forall i :: 0 <= i < |handed| ==> reply(i) == Gathered(handed[i], tasks(i))
    ensures DebtOf(InBucket(Results(handed, reply), Success)) == LevelTrail(handed, tasks)
  {
    hide Gathered, TaskDebt;
    if handed != [] {
      var k := |handed| - 1;
      var rs := Results(handed, reply);
      LevelDebtIsTrail(handed[..k], reply, tasks);
      GatheredAnswers(handed[k], tasks(k));
      assert rs[..k] == Results(handed[..k], reply);
      assert rs[k] == ResultFor(handed[k], reply(k));
      var before := InBucket(rs[..k], Success);
      assert (before + [rs[k]])[..|before|] == before;
    }
  }

  /** The advisors' debt over the first k passes, counting those that reach the gates. */
  ghost function TrailLog(cfg: Config, start: Run, world: World, tasks: nat -> nat -> TaskWorld,
                          k: nat): seq<DebtItem> {
    if k == 0 then [] else
      var r, input := StateAt(cfg, start, world, k - 1), world(k - 1);
      TrailLog(cfg, start, world, tasks, k - 1)
      + if ReachesGates(cfg, r, input) then LevelTrail(Handed(cfg, r, input), tasks(k - 1)) else []
  }

  lemma {:induction false} DebtLogIsTrail(cfg: Config, start: Run, world: World, tasks: nat -> nat -> TaskWorld, k: nat)
    requires forall j: nat :: j < k ==> BuiltInAt(cfg, start, world, tasks, j)
    ensures DebtLog(cfg, start, world, k) == TrailLog(cfg, start, world, tasks, k)
  {
    hide Gathered, Handed, LevelTrail, StateAt, DebtOf, InBucket, Results;
    if k > 0 {
      DebtLogIsTrail(cfg, start, world, tasks, k - 1);
      var r, input := StateAt(cfg, start, world, k - 1), world(k - 1);
      assert BuiltInAt(cfg, start, world, tasks, k - 1);
      if ReachesGates(cfg, r, input) {
        LevelDebtIsTrail(Handed(cfg, r, input), input.reply, tasks(k - 1));
      }
    }
  }

  /**
   * With built-in tasks the debt of a run is, in level and issue order, the debt of the
   * advice its accepted issues took: one item per criterion dropped in a retry, then one
   * per missing function of the accepting round.
   */
  lemma RunDebtIsAdvisorsTrail(cfg: Config, start: Run, world: World, tasks: nat -> nat -> TaskWorld, k: nat)
    requires forall j: nat :: j < k ==> BuiltInAt(cfg, start, world, tasks, j)
    ensures StateAt(cfg, start, world, k).dag.debt == start.dag.debt + TrailLog(cfg, start, world, tasks, k)
  {
    DebtIsConserved(cfg, start, world, k);
    DebtLogIsTrail(cfg, start, world, tasks, k);
  }

  // ----------------------------------------------------------------------------- merging

  /** Fast-path setup succeeds, no name takes over another's worktree, and the merger reports honestly. */
  ghost predicate OrderlyAt(cfg: Config, start: Run, world: World, j: nat) {
    var r, input := StateAt(cfg, start, world, j), world(j);
    !Halted(r) ==>
      && cfg.deterministicGit && (forall i :: 0 <= i < |Active(r)| ==> input.worktreeCreated(i))
      && NoPrefixClash(Active(r)) && (forall i :: i in Active(r) ==> i.name != "")
      && HonestMerger(cfg, Offered(cfg, r, input), input)
  }

  lemma BuiltInIsClean(cfg: Config, start: Run, world: World, tasks: nat -> nat -> TaskWorld, j: nat)
    requires BuiltInAt(cfg, start, world, tasks, j) && OrderlyAt(cfg, start, world, j)
    ensures CleanAt(cfg, start, world, j)
  {
    var r := StateAt(cfg, start, world, j);
    hide StateAt, BuiltIn, Faithful, Active, HonestMerger, Offered, NoPrefixClash, AnswersWithBranches;
    if !Halted(r) {
      BuiltInTasksAreFaithful(cfg, r, world(j), tasks(j));
      HandedKeepsIssues(cfg, r, world(j));
      hide Handed;
    }
  }

  /** With built-in tasks every branch they complete is accounted for exactly once over the whole run. */
  lemma BuiltInMergesAreAccountedFor(cfg: Config, start: Run, world: World, tasks: nat -> nat -> TaskWorld, k: nat)
    requires Named(start.lookup) && LevelsDistinct(start.dag.levels) && SettledBooks(start.dag, cfg.buildId)
    requires forall j: nat :: j < k ==> BuiltInAt(cfg, start, world, tasks, j) && OrderlyAt(cfg, start, world, j)
    ensures var s := StateAt(cfg, start, world, k).dag;
            Accounted(s.merged, s.unmerged, OnBooks(start.dag) + AllOffered(cfg, start, world, k))
  {
    hide BuiltInAt, OrderlyAt, CleanAt, StateAt, Accounted, Named, LevelsDistinct, SettledBooks, OnBooks;
    forall j: nat | j < k
      ensures CleanAt(cfg, start, world, j)
    {
      BuiltInIsClean(cfg, start, world, tasks, j);
    }
    MergesAreAccountedFor(cfg, start, world, k);
  }

  // ------------------------------------------------------------------- the advisor's word

  /** The last thing an advisor has said about the issue, if it was asked at all. */
  ghost function LastWord(issue: Issue, t: TaskWorld): CodingLoop.Call<Advisor.Advice> {
    var end := Advisor.Execution(JobOf(issue, t), t.maxAdvisor, t.record, t.agents, t.advisors);
    if end.asked > 0 then t.advisors(end.asked - 1) else CodingLoop.Fails
  }

  lemma WordReachesGate(issue: Issue, t: TaskWorld)
    requires Gathered(issue, t).Returned?
    ensures AsksSplit(Gathered(issue, t)) <==>
              && LastWord(issue, t).Answers? && LastWord(issue, t).value.SplitIssue?
              && LastWord(issue, t).value.subs != []
    ensures AsksSplit(Gathered(issue, t)) ==> Gathered(issue, t).result.splitRequest == LastWord(issue, t).value.subs
    ensures LastWord(issue, t) == CodingLoop.Answers(Advisor.Escalate) ==> NeedsReplan(Gathered(issue, t))
  {
    AdviceEnds.OutcomeFollowsAdvice(JobOf(issue, t), t.maxAdvisor, t.record, t.agents, t.advisors);
    hide Advisor.Execution;
  }

  /**
   * The advisor's word decides at the gates behind the level. Told to split, the built-in
   * task asks the split gate for just those sub-issues; told to escalate, its dependents
   * are skipped whenever the pass goes on to the next level.
   */
  lemma AdvisorDecidesAtGates(cfg: Config, r: Run, input: PassInput, tasks: nat -> TaskWorld, i: nat)
    requires !Halted(r) && BuiltIn(cfg, r, input, tasks) && Distinct(NamesOf(Active(r)))
    requires i < |Active(r)| && input.reply(i).Returned?
    ensures |Handed(cfg, r, input)| == |Active(r)|
    ensures var word := LastWord(Handed(cfg, r, input)[i], tasks(i));
            && (word.Answers? && word.value.SplitIssue? && word.value.subs != [] && cfg.hasAgents ==>
                  AnySplit(cfg, LevelOutcome(cfg, r, input)) && input.reply(i).result.splitRequest == word.value.subs)
            && (word == CodingLoop.Answers(Advisor.Escalate)
                && Pass(cfg, r, input).status != ThresholdAbort && Decide(cfg, r, input).Advance? ==>
                  Downstream(Active(r)[i].name, AfterSplits(cfg, r, input).dag.issues)
                  <= Pass(cfg, r, input).dag.skipped)
  {
    hide Active, Pass, Decide, Downstream, AfterSplits, LevelOutcome, Gathered, LastWord, Faithful, AnySplit;
    HandedKeepsIssues(cfg, r, input);
    BuiltInTasksAreFaithful(cfg, r, input, tasks);
    WordReachesGate(Handed(cfg, r, input)[i], tasks(i));
    SplitsAreAsked(cfg, r, input);
    hide Handed;
    if NeedsReplan(input.reply(i)) {
      BrokenTaskIsContained(cfg, r, input, i);
    }
  }

  /** An error that must not be absorbed ends its task, which then counts as failed, and its dependents are skipped. */
  lemma FatalErrorIsContained(cfg: Config, r: Run, input: PassInput, tasks: nat -> TaskWorld, i: nat)
    requires !Halted(r) && BuiltIn(cfg, r, input, tasks) && Distinct(NamesOf(Active(r)))
    requires i < |Active(r)| && |Handed(cfg, r, input)| == |Active(r)|
    requires var issue, t := Handed(cfg, r, input)[i], tasks(i);
             Advisor.Execution(JobOf(issue, t), t.maxAdvisor, t.record, t.agents, t.advisors).attempt.Raises?
    ensures Active(r)[i].name in ResultNames(LevelOutcome(cfg, r, input).failed)
    ensures Active(r)[i].name !in ResultNames(LevelOutcome(cfg, r, input).completed)
    ensures Pass(cfg, r, input).status != ThresholdAbort && Decide(cfg, r, input).Advance? ==>
              Downstream(Active(r)[i].name, AfterSplits(cfg, r, input).dag.issues) <= Pass(cfg, r, input).dag.skipped
  {
    hide Active, Pass, Decide, Downstream, AfterSplits, LevelOutcome, Faithful, Handed, Advisor.Execution;
    BuiltInTasksAreFaithful(cfg, r, input, tasks);
    assert input.reply(i) == Raised;
    BrokenTaskIsContained(cfg, r, input, i);
  }
}
