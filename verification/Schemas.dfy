/** The records that pass between the planner, the executor and the agents. */
module Schemas {
  import opened Collections
  import opened Graph

  /** `branch` is set once a worktree has been injected; sequence number 0 stands for "unset". */
  datatype Issue = Issue(name: Name, dependsOn: seq<Name>, seqNo: nat, branch: Option<string>)

  datatype Outcome =
    | Completed
    | CompletedWithDebt
    | FailedRetryable
    | FailedUnrecoverable
    | FailedNeedsSplit
    | FailedEscalated
    | Skipped

  datatype DebtItem =
    | DroppedCriterion(issueName: Name, criterion: string, severity: string)
    | MissingFunctionality(issueName: Name, description: string, severity: string)

  /** A sub-issue proposed by a split: it has no sequence number and no branch yet. */
  datatype SplitSpec = SplitSpec(name: Name, dependsOn: seq<Name>)

  datatype IssueResult = IssueResult(
    issueName: Name,
    outcome: Outcome,
    branchName: string,
    filesChanged: seq<string>,
    debtItems: seq<DebtItem>,
    splitRequest: seq<SplitSpec>)

  /** A replanner's partial rewrite of one issue: absent fields keep their value. */
  datatype IssueUpdate = IssueUpdate(name: Name, dependsOn: Option<seq<Name>>, seqNo: Option<nat>)

  datatype ReplanAction = Continue | ModifyDag | ReduceScope | Abort

  datatype Decision = Decision(
    action: ReplanAction,
    updated: seq<IssueUpdate>,
    removed: seq<Name>,
    skipped: seq<Name>,
    added: seq<Issue>)

  predicate Succeeded(o: Outcome) {
    o == Completed || o == CompletedWithDebt
  }

  /** The failures that reach the replan gate. */
  predicate Unrecoverable(o: Outcome) {
    o == FailedUnrecoverable || o == FailedEscalated
  }

  function NamesOf(issues: seq<Issue>): seq<Name> {
    seq(|issues|, i requires 0 <= i < |issues| => issues[i].name)
  }

  function ResultNames(rs: seq<IssueResult>): set<Name> {
    set r | r in rs :: r.issueName
  }
}
