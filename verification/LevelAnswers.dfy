/** What becomes of a level's answers: the buckets, the threshold, the gates, told from the tasks' replies alone. */
module LevelAnswers {
  import opened Collections
  import opened Graph
  import opened Schemas
  import opened DagSpec
  import opened Replan
  import opened GitFastPath
  import opened RunLoop
  import opened PassFacts
  import opened RunTheorems
  import opened Accounts
  import opened LevelTasks

  // -------------------------------------------------------------------------- launching

  lemma {:induction false} LookupDistinct(issues: seq<Issue>, i: nat)
    requires Distinct(NamesOf(issues)) && i < |issues|
    ensures issues[i].name in LookupOf(issues) && LookupOf(issues)[issues[i].name] == issues[i]
  {
    var k := |issues| - 1;
    NamesOfLast(issues);
    if i < k {
      LookupDistinct(issues[..k], i);
      assert NamesOf(issues)[i] != NamesOf(issues)[k];
    }
  }

  /**
   * Before anybody runs, a checkpoint names those about to start, and with git every issue
   * of the plan that is handed out with a branch is stored with that branch; all others
   * are stored as they were.
   */
  lemma LaunchIsStored(cfg: Config, r: Run, input: PassInput, k: nat)
    requires !Halted(r) && Active(r) != [] && Distinct(NamesOf(Active(r))) && k < |r.dag.issues|
    ensures |Checkpoints(cfg, r, input)| >= 2
    ensures var c, handed, was := Checkpoints(cfg, r, input)[0], Handed(cfg, r, input), r.dag.issues[k];
            && c.inFlight == NamesOf(Active(r)) && |c.issues| == |r.dag.issues|
            && (forall i :: 0 <= i < |handed| && handed[i].name == was.name ==>
                  c.issues[k] == if cfg.git && handed[i].branch.Some? then handed[i] else was)
            && (was.name !in NamesOf(Active(r)) ==> c.issues[k] == was)
  {
    var handed, was := Handed(cfg, r, input), r.dag.issues[k];
    HandedKeepsIssues(cfg, r, input);
    LookupOfNames(handed);
    hide Handed, Active, LevelOutcome, AfterSplits, Decide, ThresholdHit, AnySplit, AtBarrier;
    forall i | 0 <= i < |handed| && handed[i].name == was.name
      ensures was.name in LookupOf(handed) && LookupOf(handed)[was.name] == handed[i]
    {
      LookupDistinct(handed, i);
    }
  }

  /**
   * Where an issue works: with git on the fast path, on the branch named after it unless a
   * later issue's prefix takes it over; if that is out, on the branch of the last workspace
   * the agent reports for it; without either, wherever it was.
   */
  lemma WhereIssuesWork(cfg: Config, r: Run, input: PassInput, i: nat, j: nat)
    requires !Halted(r) && Distinct(NamesOf(Active(r))) && i < |Active(r)|
    ensures |Handed(cfg, r, input)| == |Active(r)|
    ensures var issue, handed := Active(r)[i], Handed(cfg, r, input)[i];
            var fast := cfg.deterministicGit && forall k :: 0 <= k < |Active(r)| ==> input.worktreeCreated(k);
            && handed.(branch := issue.branch) == issue
            && (cfg.git && fast ==>
                  (handed.branch == Some(BranchOf(issue, cfg.buildId))
                   <==> !Shadowed(OwnWorkspaces(Active(r), cfg.buildId), i)))
            && (cfg.git && !fast && input.setupAgent.success ==>
                  var ws := input.setupAgent.workspaces;
                  && (NoneFrom(ws, issue.name, 0) ==> handed == issue)
                  && (j < |ws| && AnswersTo(ws[j], issue.name) && NoneFrom(ws, issue.name, j + 1) ==>
                        handed.branch == Some(ws[j].branch)))
            && (!cfg.git || (!fast && !input.setupAgent.success) ==> handed == issue)
  {
    hide Active, BranchOf, AnswersTo, Shadowed, WorkspaceMap, NoneFrom;
    var issue, ws := Active(r)[i], input.setupAgent.workspaces;
    HandedKeepsIssues(cfg, r, input);
    IssueGetsItsBranch(Active(r), cfg.buildId, i);
    if NoneFrom(ws, issue.name, 0) {
      LastWorkspaceWins(issue, ws, 0);
    }
    if j < |ws| && AnswersTo(ws[j], issue.name) && NoneFrom(ws, issue.name, j + 1) {
      LastWorkspaceWins(issue, ws, j + 1);
    }
  }

  // ---------------------------------------------------------------------------- buckets

  /** A task that did the job, or that answered neither way. */
  predicate Delivered(reply: TaskReply) {
    || reply.Neither?
    || (reply.Returned? && (reply.result.outcome == Completed || reply.result.outcome == CompletedWithDebt))
  }

  predicate SaysSkip(reply: TaskReply) {
    reply.Returned? && reply.result.outcome == Skipped
  }

  /** A task that raised, or returned one of the four failures. */
  predicate Broke(reply: TaskReply) {
    || reply.Raised?
    || (reply.Returned? && (|| reply.result.outcome == FailedRetryable || reply.result.outcome == FailedUnrecoverable
                            || reply.result.outcome == FailedNeedsSplit || reply.result.outcome == FailedEscalated))
  }

  /** What is put on record for a task: its own result, or one made up in its issue's name. */
  ghost predicate RecordedFor(issue: Issue, reply: TaskReply, x: IssueResult) {
    match reply
    case Returned(r) => x == r
    case Raised => x == IssueResult(issue.name, FailedUnrecoverable, "", [], [], [])
    case Neither => x == IssueResult(issue.name, Completed, "", [], [], [])
  }

  /** The bucket holds the results of the tasks at these positions, in task order. */
  ghost predicate Holds(bucket: seq<IssueResult>, ps: seq<nat>, active: seq<Issue>, reply: nat -> TaskReply) {
    && |bucket| == |ps| && Increasing(ps)
    && forall j :: 0 <= j < |ps| ==> ps[j] < |active| && RecordedFor(active[ps[j]], reply(ps[j]), bucket[j])
  }

  /**
   * Completed are the tasks that delivered, failed those that raised or returned a
   * failure, skipped those that returned a skip: all of them, in task order, and no others.
   */
  lemma BucketsByAnswer(active: seq<Issue>, reply: nat -> TaskReply) returns (cs: seq<nat>, fs: seq<nat>, ss: seq<nat>)
    ensures var lr := Classified(Results(active, reply));
            && Holds(lr.completed, cs, active, reply)
            && Holds(lr.failed, fs, active, reply)
            && Holds(lr.skipped, ss, active, reply)
    ensures forall i: nat :: i in cs <==> i < |active| && Delivered(reply(i))
    ensures forall i: nat :: i in fs <==> i < |active| && Broke(reply(i))
    ensures forall i: nat :: i in ss <==> i < |active| && SaysSkip(reply(i))
  {
    var rs := Results(active, reply);
    cs := BucketPositions(rs, Success);
    fs := BucketPositions(rs, Failure);
    ss := BucketPositions(rs, Skip);
    hide InBucket;
    assert forall i :: 0 <= i < |rs| ==> RecordedFor(active[i], reply(i), rs[i]);
  }

  ghost function CountBroken(reply: nat -> TaskReply, n: nat): nat {
    if n == 0 then 0 else CountBroken(reply, n - 1) + if Broke(reply(n - 1)) then 1 else 0
  }

  lemma {:induction false} FailedCount(active: seq<Issue>, reply: nat -> TaskReply)
    ensures |InBucket(Results(active, reply), Failure)| == CountBroken(reply, |active|)
  {
    hide InBucket, Results, ResultFor, Broke;
    if active == [] {
      NoFailures(reply);
    } else {
      var k := |active| - 1;
      FailedCount(active[..k], reply);
      ResultsSnoc(active, reply);
      InBucketSnoc(Results(active[..k], reply), ResultFor(active[k], reply(k)), Failure);
      FailureIsBroken(active[k], reply(k));
    }
  }

  lemma NoFailures(reply: nat -> TaskReply)
    ensures InBucket(Results([], reply), Failure) == []
  {
  }

  lemma FailureIsBroken(issue: Issue, reply: TaskReply)
    ensures BucketOf(ResultFor(issue, reply).outcome) == Failure <==> Broke(reply)
  {
  }

  // -------------------------------------------------------------------------- threshold

  /** How the status of a working pass comes about. */
  lemma StatusOfPass(cfg: Config, r: Run, input: PassInput)
    requires !Halted(r) && Active(r) != []
    ensures Pass(cfg, r, input).status == ThresholdAbort <==> ThresholdHit(cfg, LevelOutcome(cfg, r, input))
    ensures Pass(cfg, r, input).status != ThresholdAbort ==>
              Pass(cfg, r, input) == Conclude(AfterSplits(cfg, r, input).lookup, Decide(cfg, r, input))
  {
    hide Active, AbandonRest, AtBarrier, ThresholdHit, Decide, AfterSplits, LevelOutcome;
  }

  lemma BucketSizes(cfg: Config, r: Run, input: PassInput)
    requires !Halted(r)
    ensures var lr, n := LevelOutcome(cfg, r, input), |Handed(cfg, r, input)|;
            |lr.completed| + |lr.failed| + |lr.skipped| == n && |lr.failed| == CountBroken(input.reply, n)
  {
    hide Handed, InBucket, CountBroken;
    FailedCount(Handed(cfg, r, input), input.reply);
    BucketsPartition(Results(Handed(cfg, r, input), input.reply));
  }

  /** The level is abandoned exactly if more than one task failed and the share of failures reaches the threshold. */
  lemma AbortsExactly(cfg: Config, r: Run, input: PassInput)
    requires !Halted(r) && Active(r) != []
    ensures var n, f := |Handed(cfg, r, input)|, CountBroken(input.reply, |Handed(cfg, r, input)|);
            && n == |Active(r)| > 0
            && (Pass(cfg, r, input).status == ThresholdAbort <==>
                  cfg.abortThreshold > 0.0 && f > 1 && f as real / n as real >= cfg.abortThreshold)
  {
    hide Handed, LevelOutcome, Active, Pass, CountBroken;
    HandedKeepsIssues(cfg, r, input);
    StatusOfPass(cfg, r, input);
    BucketSizes(cfg, r, input);
  }

  // ------------------------------------------------------------------------------ gates

  /** The failures the replan gate sees: raised, unrecoverable or escalated. */
  predicate NeedsReplan(reply: TaskReply) {
    || reply.Raised?
    || (reply.Returned? && (reply.result.outcome == FailedUnrecoverable || reply.result.outcome == FailedEscalated))
  }

  /** The name a failed task is recorded under. */
  function Blamed(issue: Issue, reply: TaskReply): Name {
    if reply.Returned? then reply.result.issueName else issue.name
  }

  /** Every failure the replan gate sees stands for a task. */
  lemma TaskOfFailure(active: seq<Issue>, reply: nat -> TaskReply, f: IssueResult) returns (i: nat)
    requires f in ToReplan(Classified(Results(active, reply)).failed)
    ensures i < |active| && NeedsReplan(reply(i)) && f.issueName == Blamed(active[i], reply(i))
  {
    var lr := Classified(Results(active, reply));
    var cs, fs, ss := BucketsByAnswer(active, reply);
    ToReplanMembers(lr.failed);
    hide Classified, Results, ToReplan;
    var j :| 0 <= j < |lr.failed| && lr.failed[j] == f;
    i := fs[j];
  }

  /** And every such task stands behind a failure the gate sees. */
  lemma FailureOfTask(active: seq<Issue>, reply: nat -> TaskReply, i: nat) returns (f: IssueResult)
    requires i < |active| && NeedsReplan(reply(i))
    ensures f in ToReplan(Classified(Results(active, reply)).failed) && f.issueName == Blamed(active[i], reply(i))
  {
    var lr := Classified(Results(active, reply));
    var cs, fs, ss := BucketsByAnswer(active, reply);
    ToReplanMembers(lr.failed);
    hide Classified, Results, ToReplan;
    assert Broke(reply(i)) && i in fs;
    var j :| 0 <= j < |fs| && fs[j] == i;
    f := lr.failed[j];
  }

  ghost predicate SomeNeedsReplan(cfg: Config, r: Run, input: PassInput)
    requires !Halted(r)
  {
    exists i: nat :: i < |Handed(cfg, r, input)| && NeedsReplan(input.reply(i))
  }

  /** The replanner is asked: a failure needs it, and the budget has a replan left. */
  ghost predicate AsksReplanner(cfg: Config, r: Run, input: PassInput)
    requires !Halted(r)
  {
    && SomeNeedsReplan(cfg, r, input)
    && cfg.enableReplanning && AfterSplits(cfg, r, input).dag.replanCount < cfg.maxReplans
  }

  /**
   * How a pass that is not abandoned ends. The run is stopped exactly if the replanner is
   * asked and aborts; the plan is restarted exactly if it is asked and offers a rewrite
   * without a cycle among what is left; otherwise the run advances to the next level.
   */
  lemma PassEndings(cfg: Config, r: Run, input: PassInput)
    requires !Halted(r) && Active(r) != [] && Pass(cfg, r, input).status != ThresholdAbort
    ensures var s, r', d := AfterSplits(cfg, r, input).dag, Pass(cfg, r, input), input.decision;
            && (r'.status == ReplannerAbort <==> AsksReplanner(cfg, r, input) && d.action == Abort)
            && (Decide(cfg, r, input).Restart? <==>
                  && AsksReplanner(cfg, r, input) && (d.action == ModifyDag || d.action == ReduceScope)
                  && Acyclic(OpenEdges(Candidates(s, d), ResultNames(s.completed))))
            && (!Decide(cfg, r, input).Restart? ==>
                  r'.dag.issues == s.issues && r'.dag.levels == s.levels
                  && r'.dag.level == if r'.status == ReplannerAbort then s.level else s.level + 1)
  {
    hide Handed, AfterSplits, Active, Pass, Candidates, OpenEdges, ResultNames, Acyclic, ReplanGate, AsksReplanner;
    var s, failures := AfterSplits(cfg, r, input).dag, ToReplan(LevelOutcome(cfg, r, input).failed);
    StatusOfPass(cfg, r, input);
    AskedIfFailed(cfg, r, input);
    VerdictOf(cfg, s, failures, input.decision);
    hide LevelOutcome, ToReplan;
  }

  lemma AskedIfFailed(cfg: Config, r: Run, input: PassInput)
    requires !Halted(r)
    ensures AsksReplanner(cfg, r, input) <==>
              && ToReplan(LevelOutcome(cfg, r, input).failed) != []
              && cfg.enableReplanning && AfterSplits(cfg, r, input).dag.replanCount < cfg.maxReplans
  {
    hide Handed, AfterSplits, NeedsReplan, ToReplan, Results, Classified;
    var handed, failures := Handed(cfg, r, input), ToReplan(LevelOutcome(cfg, r, input).failed);
    if failures != [] {
      var i := TaskOfFailure(handed, input.reply, failures[0]);
    }
    if i: nat :| i < |handed| && NeedsReplan(input.reply(i)) {
      var f := FailureOfTask(handed, input.reply, i);
    }
  }

  lemma VerdictOf(cfg: Config, s: State, failures: seq<IssueResult>, d: Decision)
    ensures var v := ReplanGate(cfg, s, failures, d);
            var asked := failures != [] && cfg.enableReplanning && s.replanCount < cfg.maxReplans;
            && (v.Stop? <==> asked && d.action == Abort)
            && (v.Restart? <==> asked && (d.action == ModifyDag || d.action == ReduceScope)
                                && Acyclic(OpenEdges(Candidates(s, d), ResultNames(s.completed))))
            && (!v.Restart? ==> v.dag.issues == s.issues && v.dag.levels == s.levels && v.dag.level == s.level)
  {
    hide Candidates, OpenEdges, Recompute, Downstream, Acyclic;
    if Rewrites(d) {
      RewriteOutcome(s, d);
    }
  }

  /**
   * What a working pass stores: the plan before anybody runs, the same with nobody in
   * flight, what the split gate leaves if a split was asked for, and what an abandoned level
   * or an adopted rewrite leaves, which is then all there is to know.
   */
  lemma StoredByPass(cfg: Config, r: Run, input: PassInput)
    requires !Halted(r) && Active(r) != []
    ensures var cs, r' := Checkpoints(cfg, r, input), Pass(cfg, r, input);
            && |cs| >= 2 && cs[1] == cs[0].(inFlight := [])
            && (r'.status == ThresholdAbort ==> |cs| == 3 && cs[2] == r'.dag)
            && (r'.status != ThresholdAbort ==>
                  var split := if cfg.hasAgents && SomeAsksSplit(cfg, r, input) then 1 else 0;
                  var restart := if Decide(cfg, r, input).Restart? then 1 else 0;
                  && |cs| == 2 + split + restart
                  && (split == 1 ==> cs[2] == AfterSplits(cfg, r, input).dag)
                  && (restart == 1 ==> cs[|cs| - 1] == r'.dag))
  {
    hide Active, Handed, AfterSplits, Decide, LevelOutcome, ThresholdHit, AnySplit, SomeAsksSplit, AtBarrier, Launched;
    hide AbandonRest;
    StatusOfPass(cfg, r, input);
    SplitsAreAsked(cfg, r, input);
  }

  // ------------------------------------------------------------------------ containment

  /** The name depends, directly or through others, on a task whose failure needs the replanner. */
  ghost predicate HangsOnFailure(cfg: Config, r: Run, input: PassInput, n: Name)
    requires !Halted(r)
  {
    BrokenAbove(Handed(cfg, r, input), input.reply, AfterSplits(cfg, r, input).dag.issues, n)
  }

  ghost predicate ToldToSkip(cfg: Config, r: Run, input: PassInput, n: Name)
    requires !Halted(r)
  {
    exists i: nat :: i < |Handed(cfg, r, input)| && SaysSkip(input.reply(i)) && input.reply(i).result.issueName == n
  }

  ghost predicate FailureAbove(failed: seq<IssueResult>, issues: seq<Issue>, n: Name) {
    exists f :: f in failed && Unrecoverable(f.outcome) && n in Downstream(f.issueName, issues)
  }

  ghost predicate BrokenAbove(active: seq<Issue>, reply: nat -> TaskReply, issues: seq<Issue>, n: Name) {
    exists i: nat :: i < |active| && NeedsReplan(reply(i)) && n in Downstream(Blamed(active[i], reply(i)), issues)
  }

  lemma DependentsByAnswer(active: seq<Issue>, reply: nat -> TaskReply, issues: seq<Issue>, n: Name)
    ensures FailureAbove(Classified(Results(active, reply)).failed, issues, n)
            <==> BrokenAbove(active, reply, issues, n)
  {
    hide Downstream, Classified, Results, Unrecoverable, NeedsReplan, ToReplan;
    var failed := Classified(Results(active, reply)).failed;
    ToReplanMembers(failed);
    if FailureAbove(failed, issues, n) {
      var f :| f in failed && Unrecoverable(f.outcome) && n in Downstream(f.issueName, issues);
      var i := TaskOfFailure(active, reply, f);
    }
    if BrokenAbove(active, reply, issues, n) {
      var i: nat :| i < |active| && NeedsReplan(reply(i)) && n in Downstream(Blamed(active[i], reply(i)), issues);
      var f := FailureOfTask(active, reply, i);
    }
  }

  lemma SkipsByAnswer(active: seq<Issue>, reply: nat -> TaskReply, n: Name)
    ensures n in ResultNames(Classified(Results(active, reply)).skipped) <==>
              exists i: nat :: i < |active| && SaysSkip(reply(i)) && reply(i).result.issueName == n
  {
    var cs, fs, ss := BucketsByAnswer(active, reply);
    var skipped := Classified(Results(active, reply)).skipped;
    hide Classified, Results;
    if n in ResultNames(skipped) {
      var x :| x in skipped && x.issueName == n;
      var j :| 0 <= j < |skipped| && skipped[j] == x;
      assert SaysSkip(reply(ss[j]));
    }
    if i: nat :| i < |active| && SaysSkip(reply(i)) && reply(i).result.issueName == n {
      assert i in ss;
      var j :| 0 <= j < |ss| && ss[j] == i;
      assert skipped[j] in skipped;
    }
  }

  /**
   * Containment, told from the answers: a pass that advances skips whoever was told to by a
   * task or by a rewrite it turned down, and whoever depends on a task that raised or came
   * back unrecoverable or escalated. A split that was turned down and a failure that could
   * have been retried are not contained.
   */
  lemma ContainmentByAnswers(cfg: Config, r: Run, input: PassInput, n: Name)
    requires !Halted(r) && Active(r) != [] && Pass(cfg, r, input).status != ThresholdAbort
    requires Decide(cfg, r, input).Advance?
    ensures n in Pass(cfg, r, input).dag.skipped <==>
              || n in r.dag.skipped || ToldToSkip(cfg, r, input, n) || HangsOnFailure(cfg, r, input, n)
              || (&& AsksReplanner(cfg, r, input) && n in input.decision.skipped
                  && (input.decision.action == ModifyDag || input.decision.action == ReduceScope))
  {
    hide Handed, AfterSplits, Active, Pass, Decide, Downstream, Results, Classified, ThresholdHit, ToReplan;
    hide ResultNames, NeedsReplan, SaysSkip, Unrecoverable;
    StatusOfPass(cfg, r, input);
    ContainmentIsExact(cfg, r, input, n);
    SkipsByAnswer(Handed(cfg, r, input), input.reply, n);
    DependentsByAnswer(Handed(cfg, r, input), input.reply, AfterSplits(cfg, r, input).dag.issues, n);
    AskedIfFailed(cfg, r, input);
    hide AsksReplanner;
  }

  /**
   * A task that broke counts as a failure of its own issue and as nothing else. If it raised,
   * or came back unrecoverable or escalated, its dependents are skipped whenever the pass
   * goes on to the next level.
   */
  lemma BrokenTaskIsContained(cfg: Config, r: Run, input: PassInput, i: nat)
    requires !Halted(r) && Faithful(cfg, r, input) && Distinct(NamesOf(Active(r)))
    requires i < |Active(r)| && Broke(input.reply(i))
    ensures var lr, s, n := LevelOutcome(cfg, r, input), Pass(cfg, r, input).dag, Active(r)[i].name;
            && s.completed == r.dag.completed + lr.completed && s.failed == r.dag.failed + lr.failed
            && n in ResultNames(lr.failed) && n !in ResultNames(lr.completed) && n !in ResultNames(lr.skipped)
    ensures NeedsReplan(input.reply(i))
            && Pass(cfg, r, input).status != ThresholdAbort && Decide(cfg, r, input).Advance? ==>
              Downstream(Active(r)[i].name, AfterSplits(cfg, r, input).dag.issues) <= Pass(cfg, r, input).dag.skipped
  {
    hide Active, Pass, Decide, Downstream, AfterSplits, Results, Classified;
    var handed, lr, n := Handed(cfg, r, input), LevelOutcome(cfg, r, input), Active(r)[i].name;
    HandedKeepsIssues(cfg, r, input);
    PassResults(cfg, r, input);
    OwnNameInBucket(handed, input.reply, i);
    assert NamesOf(handed) == NamesOf(Active(r));
    hide Handed;
    if NeedsReplan(input.reply(i)) && Pass(cfg, r, input).status != ThresholdAbort && Decide(cfg, r, input).Advance? {
      forall d | d in Downstream(n, AfterSplits(cfg, r, input).dag.issues)
        ensures d in Pass(cfg, r, input).dag.skipped
      {
        ContainmentByAnswers(cfg, r, input, d);
        assert Blamed(handed[i], input.reply(i)) == n;
      }
    }
  }

  /** With names told apart and tasks that answer for their own issue, a broken task's name is among the failed only. */
  lemma OwnNameInBucket(active: seq<Issue>, reply: nat -> TaskReply, i: nat)
    requires Distinct(NamesOf(active)) && i < |active| && Broke(reply(i))
    requires forall j :: 0 <= j < |active| && reply(j).Returned? ==> reply(j).result.issueName == active[j].name
    ensures var lr := Classified(Results(active, reply));
            && active[i].name in ResultNames(lr.failed)
            && active[i].name !in ResultNames(lr.completed) && active[i].name !in ResultNames(lr.skipped)
  {
    var cs, fs, ss := BucketsByAnswer(active, reply);
    var lr, n := Classified(Results(active, reply)), active[i].name;
    hide Classified, Results, Distinct;
    var j :| 0 <= j < |fs| && fs[j] == i;
    assert lr.failed[j] in lr.failed && lr.failed[j].issueName == n;
    NotAmong(active, reply, lr.completed, cs, i);
    NotAmong(active, reply, lr.skipped, ss, i);
  }

  lemma NotAmong(active: seq<Issue>, reply: nat -> TaskReply, bucket: seq<IssueResult>, ps: seq<nat>, i: nat)
    requires Distinct(NamesOf(active)) && i < |active| && i !in ps && Holds(bucket, ps, active, reply)
    requires forall j :: 0 <= j < |active| && reply(j).Returned? ==> reply(j).result.issueName == active[j].name
    ensures active[i].name !in ResultNames(bucket)
  {
    forall x | x in bucket
      ensures x.issueName != active[i].name
    {
      var j :| 0 <= j < |bucket| && bucket[j] == x;
      assert ps[j] in ps && x.issueName == NamesOf(active)[ps[j]];
      assert NamesOf(active)[i] == active[i].name;
    }
  }

  // ------------------------------------------------------------- splits, merges and debt

  /** A task that asks for its issue to be split, and says into what. */
  predicate AsksSplit(reply: TaskReply) {
    reply.Returned? && reply.result.outcome == FailedNeedsSplit && reply.result.splitRequest != []
  }

  ghost predicate SomeAsksSplit(cfg: Config, r: Run, input: PassInput)
    requires !Halted(r)
  {
    exists i: nat :: i < |Handed(cfg, r, input)| && AsksSplit(input.reply(i))
  }

  /**
   * The split gate acts on the tasks that ask for a split, and on no others: without one it
   * changes nothing and writes no checkpoint.
   */
  lemma SplitsAreAsked(cfg: Config, r: Run, input: PassInput)
    requires !Halted(r)
    ensures AnySplit(cfg, LevelOutcome(cfg, r, input)) <==> cfg.hasAgents && SomeAsksSplit(cfg, r, input)
    ensures !(cfg.hasAgents && SomeAsksSplit(cfg, r, input)) ==>
              AfterSplits(cfg, r, input) == Progress(BeforeSplits(cfg, r, input), r.lookup, false)
  {
    hide Handed, Apply, MergeGate, DebtGate, AtBarrier, WantsSplit, AsksSplit, Results, Classified;
    SplitRequests(Handed(cfg, r, input), input.reply);
    var failed := LevelOutcome(cfg, r, input).failed;
    if !SomeAsksSplit(cfg, r, input) {
      NoSplits(Progress(BeforeSplits(cfg, r, input), r.lookup, false), failed);
    }
  }

  lemma SplitRequests(active: seq<Issue>, reply: nat -> TaskReply)
    ensures (exists x :: x in Classified(Results(active, reply)).failed && WantsSplit(x))
            <==> exists i: nat :: i < |active| && AsksSplit(reply(i))
  {
    var failed := Classified(Results(active, reply)).failed;
    var cs, fs, ss := BucketsByAnswer(active, reply);
    hide Results, Classified;
    if i: nat :| i < |active| && AsksSplit(reply(i)) {
      assert i in fs;
      var j :| 0 <= j < |fs| && fs[j] == i;
      assert failed[j] in failed && WantsSplit(failed[j]);
    }
    if x :| x in failed && WantsSplit(x) {
      var j :| 0 <= j < |fs| && failed[j] == x;
      assert AsksSplit(reply(fs[j]));
    }
  }

  lemma {:induction false} NoSplits(p: Progress, failed: seq<IssueResult>)
    requires forall x :: x in failed ==> !WantsSplit(x)
    ensures SplitAll(p, failed) == p
  {
    if failed != [] {
      NoSplits(p, failed[..|failed| - 1]);
    }
  }

  /** What a task adds to the merges: the branch it delivered on, if it names one. */
  function BranchDelivered(reply: TaskReply): seq<string> {
    if Delivered(reply) && reply.Returned? && reply.result.branchName != "" then [reply.result.branchName] else []
  }

  /** What a task adds to the debt: its items, if it was accepted with debt. */
  function DebtAccepted(reply: TaskReply): seq<DebtItem> {
    if reply.Returned? && reply.result.outcome == CompletedWithDebt then reply.result.debtItems else []
  }

  /** One after the other, for the first n tasks. */
  ghost function PerTask<T>(f: TaskReply -> seq<T>, reply: nat -> TaskReply, n: nat): seq<T> {
    Flatten(seq(n, i requires 0 <= i < n => f(reply(i))))
  }

  lemma PerTaskSnoc<T>(f: TaskReply -> seq<T>, reply: nat -> TaskReply, n: nat)
    ensures PerTask(f, reply, 0) == []
    ensures PerTask(f, reply, n + 1) == PerTask(f, reply, n) + f(reply(n))
  {
    var all := seq(n + 1, i requires 0 <= i < n + 1 => f(reply(i)));
    assert all == seq(n, i requires 0 <= i < n => f(reply(i))) + [f(reply(n))];
    FlattenSnoc(seq(n, i requires 0 <= i < n => f(reply(i))), f(reply(n)));
  }

  lemma {:induction false} SuccessesByAnswer(active: seq<Issue>, reply: nat -> TaskReply)
    ensures var completed := InBucket(Results(active, reply), Success);
            && BranchesToMerge(completed) == PerTask(BranchDelivered, reply, |active|)
            && DebtOf(completed) == PerTask(DebtAccepted, reply, |active|)
  {
    hide PerTask, BranchesToMerge, DebtOf, InBucket, Results, BranchDelivered, DebtAccepted, ResultFor;
    if active == [] {
      PerTaskSnoc(BranchDelivered, reply, 0);
      PerTaskSnoc(DebtAccepted, reply, 0);
      NoSuccesses(reply);
    } else {
      var k := |active| - 1;
      SuccessesByAnswer(active[..k], reply);
      PerTaskSnoc(BranchDelivered, reply, k);
      PerTaskSnoc(DebtAccepted, reply, k);
      OneMoreSuccess(Results(active[..k], reply), active[k], reply(k));
      ResultsSnoc(active, reply);
    }
  }

  lemma NoSuccesses(reply: nat -> TaskReply)
    ensures var completed := InBucket(Results([], reply), Success);
            BranchesToMerge(completed) == [] && DebtOf(completed) == []
  {
  }

  lemma ResultsSnoc(active: seq<Issue>, reply: nat -> TaskReply)
    requires active != []
    ensures var k := |active| - 1;
            Results(active, reply) == Results(active[..k], reply) + [ResultFor(active[k], reply(k))]
  {
  }

  lemma OneMoreSuccess(rs: seq<IssueResult>, issue: Issue, reply: TaskReply)
    ensures var before, after := InBucket(rs, Success), InBucket(rs + [ResultFor(issue, reply)], Success);
            && BranchesToMerge(after) == BranchesToMerge(before) + BranchDelivered(reply)
            && DebtOf(after) == DebtOf(before) + DebtAccepted(reply)
  {
    var x, before := ResultFor(issue, reply), InBucket(rs, Success);
    InBucketSnoc(rs, x, Success);
    hide InBucket;
    assert (before + [x])[..|before|] == before && (before + [x])[|before|] == x && before + [] == before;
    assert BranchesToMerge(before) + [] == BranchesToMerge(before) && DebtOf(before) + [] == DebtOf(before);
  }

  /** The fast path merges the branches without a conflict and reports the others, in the order handed over. */
  lemma {:induction false} MergesInOrder(branches: seq<string>, conflicts: nat -> bool, conflicting: bool)
    returns (ps: seq<nat>)
    ensures Increasing(ps) && forall i: nat :: i in ps <==> i < |branches| && conflicts(i) == conflicting
    ensures var m := FastMerge(branches, conflicts);
            var listed := if conflicting then m.failed else m.merged;
            |listed| == |ps| && forall j :: 0 <= j < |ps| ==> ps[j] < |branches| && listed[j] == branches[ps[j]]
  {
    if branches == [] {
      ps := [];
    } else {
      var k := |branches| - 1;
      ps := MergesInOrder(branches[..k], conflicts, conflicting);
      if conflicts(k) == conflicting {
        ps := ps + [k];
      }
    }
  }

  /**
   * The merge report's flags: the fast path succeeds exactly without a conflict, and calls
   * for a test exactly after two merges; with the agent's report it succeeds exactly if
   * everything the agent failed at was merged by somebody.
   */
  lemma ReportFlags(branches: seq<string>, conflicts: nat -> bool, agent: MergeReply)
    ensures var m := FastMerge(branches, conflicts);
            && (m.success <==> forall i: nat :: i < |branches| ==> !conflicts(i))
            && (m.needsTest <==> exists i: nat, j: nat :: i < j < |branches| && !conflicts(i) && !conflicts(j))
    ensures var m, both := FastMerge(branches, conflicts), Combined(FastMerge(branches, conflicts), agent);
            && (both.success <==> forall b :: b in agent.failed ==> b in m.merged || b in agent.merged)
            && both.needsTest
  {
    var m := FastMerge(branches, conflicts);
    var ms := MergesInOrder(branches, conflicts, false);
    var fs := MergesInOrder(branches, conflicts, true);
    AddAllNewMembers(m.merged, agent.merged);
    NotInMembers(agent.failed, AddAllNew(m.merged, agent.merged));
    assert m.success <==> fs == [];
    assert m.needsTest <==> |ms| > 1;
    hide Sorted, NotIn, AddAllNew;
    if |fs| > 0 {
      assert fs[0] in fs;
    }
    if |ms| > 1 {
      assert ms[0] in ms && ms[1] in ms;
    }
    if i: nat, j: nat :| i < j < |branches| && !conflicts(i) && !conflicts(j) {
      var a :| 0 <= a < |ms| && ms[a] == i;
      var b :| 0 <= b < |ms| && ms[b] == j;
    }
    var both := Combined(m, agent);
    assert forall b :: b in both.merged <==> b in SetOf(m.merged) + SetOf(agent.merged);
    if both.failed != [] {
      assert both.failed[0] in both.failed;
    }
  }

  /**
   * Offered for merging are the branches of the tasks that delivered, and taken as debt are
   * the items of those accepted with debt, in task order: none is left out, none added.
   */
  lemma SuccessesAreOffered(cfg: Config, r: Run, input: PassInput)
    requires !Halted(r) && Active(r) != [] && Pass(cfg, r, input).status != ThresholdAbort
    ensures cfg.git ==> Offered(cfg, r, input) == PerTask(BranchDelivered, input.reply, |Active(r)|)
    ensures DebtTaken(cfg, r, input) == PerTask(DebtAccepted, input.reply, |Active(r)|)
  {
    hide Handed, Active, Pass, ThresholdHit, Results, InBucket, BranchesToMerge, PerTask, DebtOf;
    StatusOfPass(cfg, r, input);
    HandedKeepsIssues(cfg, r, input);
    SuccessesByAnswer(Handed(cfg, r, input), input.reply);
  }
}
