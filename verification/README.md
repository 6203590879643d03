# A verified model of the DAG execution engine

SWE-AF executes a plan of issues level by level. Issues of a level run concurrently, each inside an
adaptation loop (coding loop, then an issue advisor). Behind each level barrier sit the merge, debt,
split and replan gates, and checkpoints are written on the way. After the build a CI gate watches the
pull request and lets a fixer push. This project models that engine and proves what it keeps, over
every behaviour of the agents.

Everything an agent, git, `gh` or a clock can answer is an unconstrained input. A run is fixed by its
start state and an arbitrary function from pass number to the answers of that pass (`RunLoop.World`),
so a lemma about `StateAt(cfg, start, world, k)` speaks of every reachable state.

## How it is laid out

- `Collections`, `Graph`, `Levels`: sequences and sets; dependency paths and cycles; the meaning of a
  level-wise topological sort (`Layering`) and the proof that longest-chain depth and cycle blocking follow.
- `Schemas`, `DagSpec`, `DagUtils`: the records; what the plan-graph helpers compute; the helpers
  themselves with their counters, queues and visited sets.
- `Replan`: the stored state and the replan transformer. `RunLoop`: the gates and the loop as functions.
  `PassFacts`, `RunTheorems`, `FreshStarts`, `Accounts`, `CheckpointGaps`, `Recovery`, `Splits`: what a pass
  keeps and what whole runs satisfy. `EndlessSplits`, `Departures`, `LostOnResume`: concrete runs and plans
  that go against the obvious claim.
- `LevelAnswers`, `RewriteContents`, `CodingEnds`, `AdviceEnds`: what a pass, a rewrite, a coding loop and an
  adaptation loop come to, told from the answers of tasks, replanner, reviewers and advisor alone, without
  the functions that compute it.
- `Executor`: the class `DagState` whose fields the gates update in place, and `RunDag`; each method's
  contract equates the new state with the corresponding function, so the run theorems hold of it.
- `LevelTasks`: the tasks of one level under the semaphore, in every interleaving.
- `CodingLoop`, `Advisor`, `BuiltInTasks`: the inner and middle loops, and the proof that they are the
  kind of task the outer loop relies on.
- `GitFastPath`: branch naming, worktree setup, merging. `CiWatch`, `CiGate`: the watcher and the gate.

## Where the code departs from the obvious claim

- An accepted split resets the position to level 0 and then steps on, so the new first level is passed
  over. `Splits.SplitStrandsFreeIssues` says, in front of the split, exactly when that strands somebody,
  `SplitIntoIndependentIssuesEndsRun` exactly when it ends the run and exactly when that leaves somebody
  undone (`Departures.SplitEndsRunUndone` is such a run). Splits are not limited by the replan
  budget: a run goes on for ever exactly if it keeps adopting splits
  (`RunTheorems.EndlessExactlyIfSplitting`), and `EndlessSplits.SplittingNeverEnds` does so with no replans
  allowed. "Split-free" below means no split is adopted.
- A new issue may take the name of a finished one: `Replan.RewriteKeepsNamesDistinct` says exactly when
  names stay distinct and `CompletedNameCanBeReused` is the input. Such an issue is listed and never
  started, and so is a name skipped before the replan: `RunTheorems.ListedDoneNeverStarts` says exactly
  which listed names are done already.
- A dependency that is not listed among the remaining issues counts as met, even if it failed or was
  removed (`Splits.OpenEdgeInNewState` for every level, `FirstLevelIsFree` for the first): in
  `Departures.FailedDependencyCountsAsMet` a replan keeps an issue whose dependency failed, and the next
  pass starts it.
- Only unrecoverable and escalated failures have their dependents skipped (`RunTheorems.ContainmentIsExact`).
  A failure whose split is turned down, or names no sub-issue, is handled by no gate, and its dependents
  start (`Departures.RefusedSplitIsNotContained`).
- Dependencies on completed issues do not hold a plan back, but they count for the search of dependents.
  So an accepted plan can hold an issue that is downstream of itself through a completed one
  (`DagSpec.DownstreamOfItself` is exact, `CompletedIssueClosesCycle` the input), and if it fails, itself
  and the completed issue are skipped with its dependents (`Departures.CompletedIssueBecomesDownstream` is
  a replan that gets there).
- The safety and recovery theorems start from a sound state. Planning yields one
  (`RunTheorems.PlannedRunIsSound`), but two callers need not. A revision of the plan by a human replaces the
  issues and keeps the old levels (swe_af/app.py:1112-1118): `Departures.StaleLevelsStartEarly` starts an
  issue before its listed dependency. And all issues written after a failed verification are put into one
  level (swe_af/app.py:1239-1248), whatever they depend on and even if a name repeats
  (`FreshStarts.OneLevelStart`). `FreshStarts.FreshStartIsSound` says exactly which starts are sound, and that
  these are exactly the ones where every run keeps dependency order and leaves nobody undone.
- The barrier checkpoint precedes the recording of results (`Recovery.BarrierCheckpointRepeatsLevel`).
  The split gate's checkpoint precedes the replan gate: a run resumed from it steps over the level, and
  `Recovery.SplitGateCheckpointForgetsReplan` says exactly when that loses skips, or anything at all. In
  `LostOnResume.FailureLostAtSplitGate` the dependent of a failed issue starts only because of the resume.
  A branch merged before a crash is on the integration branch, but a run resumed from the barrier checkpoint
  lists it only if it is reported as merged again (`Recovery.MergedBeforeCrash`).
- The merged list can fall short of the integration branch although every merger call reports what it did:
  a retry drops the report of the first call, and a fast path that breaks off after merging drops its own.
  `Accounts.DispatchReports` (one dispatch) and `IntegrationIsMerged` (a run) say exactly when;
  `RetryLosesMerge` and `FaultLosesMerge` are the inputs.
- The final checkpoint of a replanner's abort holds the decision in its history, where no resume looks, and
  not the status. A run resumed from it goes on with the next level (`Recovery.AbortIsForgotten`, and
  `LostOnResume.AbortedRunGoesOn` for a run that does).
- A coding loop resumed at its limit calls nobody and may accept blocked work. It does exactly when the
  stored record stands at the limit, lists files and ends in a blocking review
  (`CodingLoop.UnreviewedAcceptance`); `Advisor.RetryAtLimitAcceptsBlockedWork` and `BlockedWorkIsAccepted`
  lead there.
- An anchored watch of checks that never carry a commit judges by all of them, but if some are still
  pending at the deadline it ends in "no checks" even though checks were seen, and the gate then passes as
  for a pull request without checks (`CiWatch.ListingsWithoutCommit` is exact, `PendingCheckIsNoChecks`
  the input).
- The CI gate goes on watching the commit it was given after the fixer has pushed another one. As long as
  only checks of other commits are listed, the watch can only end in "no checks" (`CiWatch.StaleAnchor`), so
  the gate closes as for a pull request without checks, whatever the checks of the pushed commit say
  (`CiGate.PushedCommitIsNotWatched`, and `FailingPushClosesGate` where they fail).
- An issue name with a two-digit prefix can take over the worktree of an earlier issue named like the
  rest (`GitFastPath.IssueGetsItsBranch` is exact, `PrefixTakesOver` the input).

## Model

| member | source | states |
|---|---|---|
| `DagUtils.RecomputeLevels` | swe_af/execution/dag_utils.py:39-88 | the counter-and-queue sort succeeds exactly when names are distinct and the open dependencies are acyclic; otherwise it reports, in listing order, exactly the blocked names |
| `DagSpec.AcceptedPlan` | swe_af/execution/dag_utils.py:58-88 | the levels hold exactly the listed names and each issue's level is its longest chain of open dependencies, attained and never exceeded |
| `DagSpec.LevelsOfLayers` | swe_af/execution/dag_utils.py:62-82 | no empty level, nobody twice, every open dependency strictly earlier, nobody later than forced, nobody left out who could be placed, even with repeated dependencies |
| `DagSpec.RejectedPlan` | swe_af/execution/dag_utils.py:84-86 | the error names exactly the issues on a cycle of open dependencies or downstream of one |
| `Levels.UnlistedIsBlocked` | swe_af/execution/dag_utils.py:70-86 | running dry means blocked: an issue is left out exactly when a cycle lies at or above it |
| `Levels.LevelIsLongestChain` | swe_af/execution/dag_utils.py:74-82 | in any layering the level index is the longest dependency chain |
| `DagUtils.FindDownstream` | swe_af/execution/dag_utils.py:91-114 | the breadth-first search terminates and returns exactly the names reachable by one or more dependent edges |
| `DagSpec.InDownstream` | swe_af/execution/dag_utils.py:98-114 | downstream membership is reachability along declared dependencies, with nobody missed |
| `DagSpec.DownstreamOfItself` | swe_af/execution/dag_utils.py:98-114 | an issue is downstream of itself exactly on a cycle of declared dependencies; in a plan accepted given what has completed, exactly if a listed completed issue lies on that cycle with it, so never where nothing listed is completed |
| `DagSpec.CycleMeetsCompleted` | swe_af/execution/dag_utils.py:58-68 | every cycle of declared dependencies in an acceptable plan goes through a listed completed issue |
| `DagSpec.CompletedIssueClosesCycle` | swe_af/execution/dag_utils.py:65-106 | two issues that wait for each other are an acceptable plan once one has completed, and the other is then downstream of itself |
| `Executor.DagState.ApplyReplan` | swe_af/execution/dag_utils.py:117-203 | the in-place rewrite yields exactly the specified new plan state, or on a cycle only the added skips, and says which |
| `Replan.CandidateNames` | swe_af/execution/dag_utils.py:139-185 | what is left to execute: unfinished, not removed and not skipped by this decision, plus every newly named issue, each name once |
| `Replan.RewriteOutcome` | swe_af/execution/dag_utils.py:136-203 | adopted exactly when what is left is acyclic; adopted, it keeps completed and failed records and layers exactly what is left; turned down, all but the skips is unchanged |
| `Replan.RewriteKeepsNamesDistinct` | swe_af/execution/dag_utils.py:172-195 | names stay distinct exactly when no new issue takes the name of a listed finished one |
| `Replan.CompletedNameCanBeReused` | swe_af/execution/dag_utils.py:172-185 | a completed name can be taken again and is then listed a second time |
| `RewriteContents.RewrittenPlan` | swe_af/execution/dag_utils.py:136-196 | an adopted rewrite, issue for issue: finished issues as they were and in order; who is kept, as last listed, with the dependencies and number the last update that sets them gives; then the new issues in order, each with its own dependencies and, if it brings no number, the next after all numbers of the old plan |
| `RewriteContents.LeftAreLayered` | swe_af/execution/dag_utils.py:188-196 | everybody left is listed, behind each dependency it carries then that is listed and not completed |
| `RewriteContents.UpdateTakesEffect` | swe_af/execution/dag_utils.py:158-188 | a dependency set by the last update of a kept issue, and still open, sits in an earlier level than the issue |
| `RewriteContents.SplitListsSubIssues` | swe_af/execution/dag_executor.py:1785-1802 | an adopted split lists each named sub-issue with the dependencies it was proposed with and a number above all others |
| `RewriteContents.SplitLeavesOthers` | swe_af/execution/dag_executor.py:1785-1802 | for the rest it takes out the issue it splits, and changes and skips nobody |
| `Executor.DagState.SkipDownstreamOf` | swe_af/execution/dag_executor.py:1357-1364 | adds to the skips exactly the transitive dependents of the failures |
| `Executor.DagState.Record` | swe_af/execution/dag_executor.py:1668-1672 | the level's results are appended to the completed and failed records and its skips added |
| `Executor.DagState.AbandonRemaining` | swe_af/execution/dag_executor.py:1697-1706 | everything behind the current level is skipped and the position moves to the end |
| `Executor.DagState.MergeCompleted` | swe_af/execution/dag_executor.py:343-396 | the level's completed branches are dispatched, the outcome added to the merged and unmerged lists without repeats, and the integration branch extended by exactly what the dispatch merges |
| `Executor.DispatchMerge` | swe_af/execution/dag_executor.py:257-317 | deterministic merges first, the agent for conflicts, or the agent with one retry; the integration branch gains exactly the clean merges, also when the fast path breaks off after them, and then whatever the agent's calls put on it |
| `Executor.DagState.TakeDebt` | swe_af/execution/dag_executor.py:1749-1759 | debt of results accepted with debt is appended in order, and of no others |
| `Executor.DagState.SplitFailed` | swe_af/execution/dag_executor.py:1780-1825 | each split request in turn is tried as a replan of its own; a checkpoint is written exactly if there was one |
| `Executor.DagState.ReplanAfter` | swe_af/execution/dag_executor.py:1827-1902 | abort, continue past the failures, rewrite, or fall back to skipping dependents, with the exact new state |
| `Executor.ExecuteLevel` | swe_af/execution/dag_executor.py:1318-1354 | answers of the tasks, exceptions included, sorted into the completed, failed and skipped buckets in task order |
| `LevelAnswers.BucketsByAnswer` | swe_af/execution/dag_executor.py:1322-1352 | completed holds exactly the tasks that returned a completion or answered neither way, failed those that raised (unrecoverable, in their issue's name) or returned one of the four failures, skipped those that returned a skip, each in task order |
| `LevelAnswers.BrokenTaskIsContained` | swe_af/execution/dag_executor.py:1325-1364 | with distinct names and tasks that answer for their own issue, one that raised or failed is recorded among the failed and nowhere else; if it raised, or is unrecoverable or escalated, its dependents are skipped whenever the pass advances |
| `Executor.ActiveIssues` | swe_af/execution/dag_executor.py:1613-1624 | the level's issues that are known and not done, in level order |
| `Executor.SetupLevel` | swe_af/execution/dag_executor.py:73-153 | fast-path worktrees if all can be made, else the agent's, else none |
| `Executor.Launch` | swe_af/execution/dag_executor.py:1635-1653 | enriched issues persisted, names put in flight, checkpoint written |
| `Executor.OnePass` | swe_af/execution/dag_executor.py:1612-1909 | one trip round the loop yields exactly the specified state, lookup, status, checkpoints and integration branch |
| `LevelAnswers.AbortsExactly` | swe_af/execution/dag_executor.py:1684-1706 | a pass abandons its run exactly if the threshold is positive, more than one task raised or returned a failure, and their share of all tasks handed out reaches the threshold |
| `LevelAnswers.PassEndings` | swe_af/execution/dag_executor.py:1827-1909 | otherwise the run stops exactly if some failure needs a replan, the budget has one left and the replanner aborts, and restarts exactly if it offers a rewrite without a cycle among what is left; else it advances by one level |
| `LevelAnswers.SplitsAreAsked` | swe_af/execution/dag_executor.py:1780-1825 | the split gate acts, and stores its state, exactly if a task returned "needs split" with a request; else it changes nothing |
| `LevelAnswers.SuccessesAreOffered` | swe_af/execution/dag_executor.py:343-355 | offered for merging are the branches of all tasks that delivered, taken as debt the items of all accepted with debt, in task order |
| `LevelAnswers.WhereIssuesWork` | swe_af/execution/dag_executor.py:73-254 | on the fast path an issue works on its own branch exactly if no later prefix takes it over, else on that of the agent's last workspace that answers to its name, else wherever it was |
| `LevelAnswers.LaunchIsStored` | swe_af/execution/dag_executor.py:1635-1653 | before anybody runs, a checkpoint names those about to start and holds every issue handed out with a branch, all others unchanged |
| `LevelAnswers.StoredByPass` | swe_af/execution/dag_executor.py:1653-1883 | how many checkpoints a pass writes, and what each holds: launch, barrier, split gate if asked, and the final state of an abandoned level or an adopted rewrite |
| `Executor.RunDag` | swe_af/execution/dag_executor.py:1556-1951 | running or resuming for any number of passes yields the state reached by that many specified passes, with the exact checkpoint log, the final one included, and the exact integration branch |
| `Executor.DagState.Load` | swe_af/execution/dag_executor.py:841-847 | loading a stored state restores it |
| `PassFacts.PassGrowsDone` | swe_af/execution/dag_executor.py:1616-1624 | nobody stops being done, and everybody a pass started is done after it |
| `PassFacts.ClassifiedNames` | swe_af/execution/dag_executor.py:1322-1352 | no name is lost in classification |
| `PassFacts.PassSkips` | swe_af/execution/dag_executor.py:1670-1896 | the skips after a pass are those before, the level's own, and exactly what threshold abort or replan gate add; splits skip nobody |
| `PassFacts.PassHistory` | swe_af/execution/dag_executor.py:1780-1902 | the history grows by exactly the decisions the split and replan gates adopt or follow, in order, and the replan count by their number |
| `RunTheorems.PlannedRunIsSound` | swe_af/reasoners/pipeline.py:61-99 | levels computed from the issues make a sound start |
| `FreshStarts.FreshStartIsSound` | swe_af/app.py:1112-1118 | a start from any issues and levels is sound exactly if only known names are listed and each listed dependency sits in an earlier level, and exactly if in every world of truthful, split-free answers nobody starts before a listed dependency is done and every run that ends without an abort leaves everybody listed done |
| `FreshStarts.OneLevelStart` | swe_af/app.py:1239-1248 | a plan of one level is well levelled exactly if no listed name depends on a listed one; its first pass starts the names as listed, so nobody twice exactly if no name repeats |
| `RunTheorems.RewriteIsSound` | swe_af/execution/dag_utils.py:188-199 | an adopted rewrite makes a sound run out of any state |
| `RunTheorems.PassKeepsSound` | swe_af/execution/dag_executor.py:1612-1909 | every split-free pass keeps the run invariant: position, lookup and layering agree with what is done |
| `RunTheorems.StartsAfterDependencies` | swe_af/execution/dag_executor.py:1612-1624 | in split-free runs an issue starts only after each of its listed dependencies is completed, failed or skipped |
| `RunTheorems.EndedRunIsComplete` | swe_af/execution/dag_executor.py:1687-1706 | a split-free run that ends without a replanner abort leaves every listed name done, also after a threshold abort |
| `RunTheorems.DoneNeverStarts` | swe_af/execution/dag_executor.py:1614-1624 | what is done at some point is never started from then on, across replans and splits |
| `RunTheorems.NobodyStartsTwice` | swe_af/execution/dag_executor.py:1616-1672 | nobody is started twice, within a pass or by two passes, across all replans and splits |
| `RunTheorems.DependentsOfFailureNeverStart` | swe_af/execution/dag_executor.py:1857-1896 | after a failure handled without an adopted replan, nobody downstream of it then ever starts later |
| `RunTheorems.PassDescends` | swe_af/execution/dag_executor.py:1833-1909 | a split-free pass lowers (remaining replans, levels left) or ends the run |
| `RunTheorems.RunEnds` | swe_af/execution/dag_executor.py:1612-1909 | from any pass after which no split is adopted, the run comes to an end |
| `RunTheorems.EndlessExactlyIfSplitting` | swe_af/execution/dag_executor.py:1785-1802 | a run never ends exactly if after every pass some later pass adopts a split |
| `RunTheorems.ContainmentIsExact` | swe_af/execution/dag_executor.py:1780-1896 | after a pass that advances past its failures exactly these are skipped: who was before, the level's own skips, names a rejected replan asked to skip, and the dependents of the unrecoverable and escalated failures, of no others |
| `LevelAnswers.ContainmentByAnswers` | swe_af/execution/dag_executor.py:1827-1896 | the same told from the tasks' answers: dependents are skipped exactly of the tasks that raised or came back unrecoverable or escalated |
| `RunTheorems.ListedDoneNeverStarts` | swe_af/execution/dag_utils.py:141-188 | a rewrite lists a done name exactly if a new issue takes a finished or skipped name or the name was skipped before and is neither removed nor skipped again; done names never start, their dependents find them done, and nobody waits for a completed one |
| `Departures.FailedDependencyCountsAsMet` | swe_af/execution/dag_utils.py:65-68 | a run in which a replan keeps an issue whose dependency failed, and the next pass starts it |
| `Departures.RefusedSplitIsNotContained` | swe_af/execution/dag_executor.py:1780-1831 | a run in which a failure asks for a split, names no sub-issue, and its dependent starts in the next pass |
| `Departures.SplitEndsRunUndone` | swe_af/execution/dag_executor.py:1785-1909 | a run whose only issue is split into one: it ends for good after one pass with the sub-issue listed and not done |
| `Departures.StaleLevelsStartEarly` | swe_af/app.py:1112-1118 | a revised plan that could be layered, run with the replaced plan's levels, starts an issue before its listed dependency |
| `LostOnResume.FailureLostAtSplitGate` | swe_af/execution/dag_executor.py:1820-1896 | a run never starts the dependent of its failed issue, but any run resumed from its split gate's checkpoint does |
| `LostOnResume.AbortedRunGoesOn` | swe_af/execution/dag_executor.py:1846-1857 | a run aborted by the replanner starts nobody else, but any run resumed from its last checkpoint starts the dependent of the failed issue |
| `Departures.CompletedIssueBecomesDownstream` | swe_af/execution/dag_utils.py:172-203 | an adopted replan after which a completed issue and the new one are downstream of the new one |
| `Splits.SplitStrandsFreeIssues` | swe_af/execution/dag_executor.py:1785-1909 | after a split adopted without a replan the position is 1, and the run is sound again exactly when everybody left in front of the split who waits for nobody was done already or is skipped by the replan gate |
| `Splits.OpenEdgeInNewState` | swe_af/execution/dag_utils.py:62-68 | after a rewrite a dependency holds an issue back, at any level, exactly if it is listed and not completed |
| `Splits.FirstLevelIsFree` | swe_af/execution/dag_utils.py:62-70 | after a rewrite the first level holds exactly the listed issues with no dependency that is both listed and not completed |
| `Splits.SplitIntoIndependentIssuesEndsRun` | swe_af/execution/dag_executor.py:1785-1909 | the run ends at once exactly when everybody left by the split waits for nobody; then and otherwise every listed name is done exactly when everybody left was done in front of the split or is skipped by the gate |
| `EndlessSplits.SplittingNeverEnds` | swe_af/execution/dag_executor.py:1780-1909 | a sound run with no replans allowed that splits for ever and keeps starting issues whose listed dependency was never executed |
| `Recovery.EveryCheckpointIsSound` | swe_af/execution/dag_executor.py:829-847 | every checkpoint written in a split-free run, the final one included, satisfies the run invariant when resumed |
| `Recovery.ResumedRunIsLegal` | swe_af/execution/dag_executor.py:1561-1573 | a run resumed from any such checkpoint is a legal run, and nobody recorded as done in it starts again |
| `Recovery.ContainedAfterResume` | swe_af/execution/dag_executor.py:1857-1896 | nobody downstream of a failure handled without an adopted replan is started by a run resumed from anything written after that pass |
| `CheckpointGaps.CheckpointDuringPass` | swe_af/execution/dag_executor.py:1652-1759 | a checkpoint written during a pass has what its level leaves on record (results, skip bucket, merged and unmerged branches, debt) completely or not at all, and everything earlier; what it misses beyond that is exactly what the gates skip and the decisions they add to history and replan count |
| `CheckpointGaps.LatestCheckpointMissesOneLevel` | swe_af/execution/dag_executor.py:1652-1949 | between passes what the latest checkpoint misses, skips, merge lists, debt, history and replan count included, belongs to one level; a halted run misses nothing |
| `CheckpointGaps.MomentsMissOneLevel` | swe_af/execution/dag_executor.py:1652-1883 | within a pass, after each checkpoint and each gate, the latest checkpoint lacks that level's completed, failed and skipped results wholly or not at all, and beyond them only names the gates skip |
| `Recovery.BarrierCheckpointRepeatsLevel` | swe_af/execution/dag_executor.py:1662-1669 | resuming from the barrier checkpoint starts exactly the same names again |
| `Recovery.SplitGateCheckpointForgetsReplan` | swe_af/execution/dag_executor.py:1820-1896 | resuming from the split gate's checkpoint passes over the level; it loses skips exactly if the replan gate would have skipped somebody new, and ends in another state exactly if the gate would have changed anything |
| `Recovery.AbortIsForgotten` | swe_af/execution/dag_executor.py:1846-1949 | the final checkpoint of an abort holds neither the status nor any skips; a run resumed from it steps over the level and starts exactly the names of the next one that are not done |
| `Recovery.ResumedMergesAreAccountedFor` | swe_af/execution/dag_executor.py:829-847 | a run resumed from any checkpoint of a run with clean answers has each branch that the checkpoint lists or that it offers itself on exactly one of its merge lists, and no others |
| `Recovery.MergedBeforeCrash` | swe_af/execution/dag_executor.py:1662-1730 | a branch a pass merged is not in its barrier checkpoint, and the repeated level lists it exactly if it is reported as merged again |
| `Accounts.DebtIsConserved` | swe_af/execution/dag_executor.py:1749-1759 | accumulated debt is, in level and issue order, exactly that of the results accepted with debt by passes that reached the gates |
| `Accounts.DebtIsNeverLost` | swe_af/execution/dag_executor.py:1754-1757 | recorded debt stays in place for good |
| `Accounts.DispatchSettles` | swe_af/execution/dag_executor.py:272-317 | with an honest merger every branch comes out as merged or failed, never both, on every dispatch path |
| `Accounts.OfferedOnce` | swe_af/execution/dag_executor.py:343-381 | no branch is offered for merging by two passes |
| `Accounts.OfferedAreOwn` | swe_af/execution/dag_executor.py:345-355 | everything a pass offers is the branch of an issue it started, each once |
| `Accounts.MergesAreAccountedFor` | swe_af/execution/dag_executor.py:383-391 | over a run, fresh or resumed with settled books, the merged and unmerged lists are disjoint and together hold exactly the branches listed at its start and those offered since |
| `Accounts.DispatchReports` | swe_af/execution/dag_executor.py:257-317 | if each call the dispatch makes names exactly what it put on the branch, the branch gains what is reported and what is discarded (the fast merges of a path that broke off, the first call before a retry), so report and branch agree exactly if the last word repeats all that was discarded |
| `Accounts.IntegrationIsMerged` | swe_af/execution/dag_executor.py:257-391 | over a run in which each call is answered truly the integration branch holds what the merged list names and the discarded merges, nothing else, and the two agree exactly if no discarded merge is missing from the list |
| `Accounts.RetryLosesMerge` | swe_af/execution/dag_executor.py:311-317 | with true and complete answers a branch merged by the first call ends up reported as failed by the retry |
| `Accounts.FaultLosesMerge` | swe_af/execution/dag_executor.py:275-284 | with true and complete answers a branch merged by a fast path that then breaks off ends up reported as failed |
| `Accounts.IdleIntegration` | swe_af/execution/git_fast_path.py:142-154 | where no agent is asked the merged list of a run, fresh or resumed with settled books, grows by exactly what is put on the integration branch, in order, and the unmerged list stays |
| `GitFastPath.BranchInjective` | swe_af/execution/git_fast_path.py:54-59 | two issues of a build share a branch only if sequence number and effective name agree |
| `GitFastPath.ReadBack` | swe_af/execution/git_fast_path.py:56-58 | the zero-padded sequence number can be read back |
| `GitFastPath.BranchFormat` | swe_af/execution/git_fast_path.py:54-59 | a branch is `issue/`, the build id if any, the number with at least two digits and a leading zero exactly below ten, and the name |
| `GitFastPath.SetupWorktrees` | swe_af/execution/git_fast_path.py:82-119 | one workspace per issue, in order and on its own branch, exactly if every worktree can be made |
| `GitFastPath.EnrichIssuesFromSetup` | swe_af/execution/dag_executor.py:226-254 | each issue gets the workspace last registered under its raw or prefix-stripped name |
| `GitFastPath.LastWorkspaceWins` | swe_af/execution/dag_executor.py:231-252 | an issue gets the branch of the last workspace whose name is its own, or two digits and a dash before its own, and is left alone if there is none |
| `GitFastPath.IssueGetsItsBranch` | swe_af/execution/dag_executor.py:231-252 | after fast-path setup an issue works on its own branch exactly when no later name is a two-digit prefix plus its name |
| `GitFastPath.PrefixTakesOver` | swe_af/execution/dag_executor.py:231-252 | next to an issue "01-a" an issue "a" is set up on that issue's branch |
| `GitFastPath.Repository.MergeBranches` | swe_af/execution/git_fast_path.py:138-162 | clean merges in order extend the integration branch; conflicting ones leave it alone and are reported; a fault before the first merge leaves everything alone, one after the last loses only the report |
| `GitFastPath.FastMergeSettles` | swe_af/execution/git_fast_path.py:142-162 | merged and failed split the branches handed over |
| `LevelAnswers.MergesInOrder` | swe_af/execution/git_fast_path.py:142-154 | merged are the branches without a conflict and failed the others, each in the order handed over |
| `LevelAnswers.ReportFlags` | swe_af/execution/git_fast_path.py:155-221 | the fast path's report succeeds exactly without conflicts and calls for a test exactly after two merges; the united report succeeds exactly if somebody merged all the agent failed at |
| `GitFastPath.CombineMergeResults` | swe_af/execution/git_fast_path.py:203-221 | the two reports united: new merges appended once, failures only where nobody merged |
| `GitFastPath.CombinedSettles` | swe_af/execution/git_fast_path.py:203-221 | fast path plus an honest agent still accounts for every branch once |
| `LevelTasks.NeverMoreThanLimit` | swe_af/execution/dag_executor.py:1288-1318 | at no moment of any interleaving do more tasks run than a positive limit |
| `LevelTasks.EveryTaskRunsOnce` | swe_af/execution/dag_executor.py:1301-1320 | an interleaving with nothing left to happen has started and ended every task exactly once |
| `LevelTasks.NoDeadlock` | swe_af/execution/dag_executor.py:1301-1320 | short of that something can always happen |
| `LevelTasks.MayHappenNext` | swe_af/execution/dag_executor.py:1288-1316 | a task may start exactly if it has not started and there is no limit, the level fits it or fewer than the limit work, and end exactly if it has started and not ended |
| `LevelTasks.BucketPositions` | swe_af/execution/dag_executor.py:1322-1352 | a bucket is its results in task order, all of them and no others |
| `LevelTasks.BucketsPartition` | swe_af/execution/dag_executor.py:1322-1352 | the three buckets partition the results |
| `LevelTasks.InterleavingDoesNotMatter` | swe_af/execution/dag_executor.py:1318-1352 | the level result depends only on each task's own answer, not on the schedule or the limit |
| `CodingLoop.IterationFile.RunCodingLoop` | swe_af/execution/coding_loop.py:583-895 | the loop yields exactly the specified result, iteration record and call counts, fresh or resumed |
| `CodingEnds.CallEnds` | swe_af/execution/coding_loop.py:606-895 | a call, fresh or resumed, stops at the first iteration that approves, blocks, fails, is fatal or stuck (the synthesizer says so, or three asked for polish in a row, recorded ones included), or at the last one allowed; that iteration's answers and the files changed decide outcome and files |
| `CodingEnds.CompletesExactly` | swe_af/execution/coding_loop.py:325-500 | a call completes exactly if its last review approves without blocking or fails non-fatally, all earlier ones asking for polish; on the flagged path exactly if the synthesizer approves, or fails with QA passed and such a review; blocking ends the call as failed |
| `CodingEnds.RecordTellsStory` | swe_af/execution/coding_loop.py:715-735 | the record gains one entry per decided iteration, numbered on, with its action and blocking flag, and all files changed |
| `CodingLoop.DefaultPathRunsAtMostThree` | swe_af/execution/coding_loop.py:266-356 | on the default path no call gets past three iterations, whatever the budget and record |
| `CodingLoop.UnreviewedAcceptance` | swe_af/execution/coding_loop.py:590-602 | work is accepted with debt without a review in the call exactly when the stored record stands at the limit and lists files, and against a blocking last review on record exactly when that record also ends in one |
| `CodingLoop.AcceptanceTakesWork` | swe_af/execution/coding_loop.py:808-874 | accepting with debt takes changed files and a non-blocking last review, except from such a record; completing takes a decision, on the default path a non-blocking one |
| `CodingLoop.ResumedAtLimit` | swe_af/execution/coding_loop.py:590-602 | resumed at its limit the loop calls nobody and accepts with debt exactly when files are recorded |
| `CodingLoop.IterationsAreNumbered` | swe_af/execution/coding_loop.py:589-735 | the recorded index grows by exactly the number of decisions, never past the limit, with at most one undecided coder call |
| `Advisor.ExecuteSingleIssue` | swe_af/execution/dag_executor.py:931-1174 | the adaptation loop yields exactly the specified result, record and counts |
| `AdviceEnds.IssueEnds` | swe_af/execution/dag_executor.py:949-1174 | coding loops run in a row, each after a failure the advisor wants retried, until one does not fail, the budget is used up or the advisor says otherwise; that loop's outcome, or the advice, then stands |
| `AdviceEnds.OutcomeFollowsAdvice` | swe_af/execution/dag_executor.py:1088-1174 | a result needs a split exactly if the last advice was to split, and into just those sub-issues, is escalated exactly if it was to escalate, and is accepted with debt if it was to accept; no other result carries a split request |
| `AdviceEnds.NegativeBudgetFails` | swe_af/execution/dag_executor.py:1170-1174 | without any round nobody is called and the issue counts as failed |
| `AdviceEnds.DebtIsGivenUp` | swe_af/execution/dag_executor.py:1038-1108 | a result's debt is exactly the criteria dropped, with severity medium, and the functions missing, with the severity given, in the advice it took |
| `Advisor.IssueDebtIsExact` | swe_af/execution/dag_executor.py:1038-1122 | the result is in the issue's own name and branch and carries one debt item per dropped criterion and missing function, in order, and nothing else |
| `Advisor.NestedBudgets` | swe_af/execution/dag_executor.py:940-1086 | across all advisor rounds decided iterations fit the iteration limit and coder calls exceed them by at most one per round |
| `Advisor.RetryAtLimitAcceptsBlockedWork` | swe_af/execution/coding_loop.py:849-874 | a retry with the limit used up accepts the issue as soon as files had changed, whatever the review said |
| `Advisor.BlockedWorkIsAccepted` | swe_af/execution/coding_loop.py:590-602 | a concrete issue blocked in its only iteration and accepted with debt by a retry |
| `BuiltInTasks.BuiltInTasksAreFaithful` | swe_af/execution/dag_executor.py:942-985 | built-in tasks answer for their own issue and, when they succeed, their own branch |
| `BuiltInTasks.PlannedIssuesStartOnce` | swe_af/execution/dag_executor.py:1616-1672 | so with built-in tasks no issue is started by two passes |
| `BuiltInTasks.RunDebtIsAdvisorsTrail` | swe_af/execution/dag_executor.py:1749-1759 | with built-in tasks the debt of a run is, in level and issue order, one item per criterion dropped and then per function missing in the advice its accepted issues took |
| `BuiltInTasks.AdvisorDecidesAtGates` | swe_af/execution/dag_executor.py:1124-1149 | an advisor's split reaches the split gate with just its sub-issues; after its escalation the dependents are skipped whenever the pass advances |
| `BuiltInTasks.FatalErrorIsContained` | swe_af/execution/dag_executor.py:1020-1334 | a built-in task that ends in an error that must not be absorbed is recorded among the failed, and its dependents are skipped whenever the pass advances |
| `BuiltInTasks.BuiltInMergesAreAccountedFor` | swe_af/execution/dag_executor.py:343-396 | with built-in tasks, fast-path setup and an honest merger every branch listed at the start or offered in a run, fresh or resumed with settled books, is in exactly one of the merged and unmerged lists |
| `CiWatch.WatchPrChecks` | swe_af/execution/ci_gate.py:186-316 | the loop with its sticky flags answers as the first poll at which the watch may stop; an anchored verdict has seen its commit unless the listing carries none; "timed out" and "no checks" come only at the deadline and say what has been seen |
| `CiWatch.WatchEnds` | swe_af/execution/ci_gate.py:293-316 | if sleeping takes at least the interval, a watch may stop at every poll before which the intervals add up to the cap |
| `CiWatch.VerdictExactly` | swe_af/execution/ci_gate.py:197-280 | a poll gives a verdict exactly if it can be read, some row is not tied to another commit, no such row is pending or queued, and the anchor if any has been listed or no row carries a commit |
| `CiWatch.VerdictMeans` | swe_af/execution/ci_gate.py:73-134 | it passes exactly if no such row is in bucket "fail" or "cancel", and otherwise fails and lists exactly those |
| `CiWatch.EndingsMean` | swe_af/execution/ci_gate.py:197-314 | an error is exactly a poll that does not parse or exits non-zero without rows; short of error and verdict a watch ends exactly when the elapsed whole seconds reach the cap, as timed out if checks, and the anchor if any, have been seen |
| `CiWatch.ForeignRowsNeverDecide` | swe_af/execution/ci_gate.py:226-246 | whatever rows of other commits report, the watch stops at the same poll with the same answer |
| `CiWatch.ListingsWithoutCommit` | swe_af/execution/ci_gate.py:248-314 | an anchored watch of listings without commits passes or fails once all rows have settled, and ends in "no checks" exactly when some are pending at the deadline |
| `CiWatch.PendingCheckIsNoChecks` | swe_af/execution/ci_gate.py:293-309 | one pending check without a commit, seen at the deadline, is reported as "no checks" |
| `CiWatch.StaleAnchor` | swe_af/execution/ci_gate.py:226-314 | a watch that is shown checks of other commits only has no verdict, stops exactly at the deadline and answers "no checks" |
| `CiGate.RunCiGate` | swe_af/app.py:344-444 | the loop keeps its budget of watches and fixes and ends as the last watch or fix says; only a negative budget falls through |
| `CiGate.LastWatchCloses` | swe_af/app.py:361-436 | the gate ends as passed, no checks, timed out or error exactly if its last watch did; as given up exactly if that watch failed within the budget and was not fixed, as exhausted exactly if it failed beyond it |
| `CiGate.GateOutcomeIsUnique` | swe_af/app.py:347-438 | those conditions leave exactly one outcome for given reports |
| `CiGate.PushedCommitIsNotWatched` | swe_af/app.py:352-436 | if the first watch fails, the fix is pushed and the second watch is shown checks of other commits only, the gate can only close with "no checks" |
| `CiGate.FailingPushClosesGate` | swe_af/app.py:352-436 | a gate that closes with "no checks" after a push whose only check fails |

## Left out

- Agents, prompts, notes, envelopes, timeouts and the sorting of provider errors: their answers are inputs.
- Answers that raise out of the replanner, the merger or the workspace agent: they end the run at that
  point, which is covered as a crash after any number of passes and any checkpoint.
- The external `execute_fn` path with its retry advisor: it may answer in any name, so the run theorems
  that need truthful names take that as a hypothesis.
- Multi-repository dispatch, cloning, pull request creation, integration tests and worktree cleanup.
- Failure and debt notes on issues, issue files, adaptation history, summaries and titles: no decision reads them.
- Shared learning memory of the coding loop, and its feedback text.
- Cancellation of a level's tasks: a gathered value that is neither result nor exception counts as
  completed, as in the code, but the interleavings do not include it.
- Retries inside one worktree creation: git says per issue whether a worktree could be made.
- `CiWatch.WatchPrChecks`: the number of polls is cut off at a given bound, because a watch on a stopped
  clock need not end. Log excerpts of failed checks are not modelled.
- `GitFastPath.ReadBack`: sequence numbers are natural numbers; the prefix test reads ASCII digits only.
- `Replan.RewriteOutcome`: `target_repo` inheritance of new issues belongs to the multi-repository path.
- The order of `skipped_issues`: the code walks Python sets, whose order is unspecified, so skips are a set.
