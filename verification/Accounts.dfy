/** What a whole run accounts for: technical debt, and every branch offered for merging. */
module Accounts {
  import opened Collections
  import opened Graph
  import opened Schemas
  import opened DagSpec
  import opened Replan
  import opened GitFastPath
  import opened RunLoop
  import opened PassFacts
  import opened RunTheorems

  /** The pass reaches the gates behind the level barrier. */
  ghost predicate ReachesGates(cfg: Config, r: Run, input: PassInput) {
    !Halted(r) && Active(r) != [] && !ThresholdHit(cfg, LevelOutcome(cfg, r, input))
  }

  // ------------------------------------------------------------------------------- debt

  ghost function DebtTaken(cfg: Config, r: Run, input: PassInput): seq<DebtItem> {
    if ReachesGates(cfg, r, input) then DebtOf(LevelOutcome(cfg, r, input).completed) else []
  }

  ghost function DebtLog(cfg: Config, start: Run, world: World, k: nat): seq<DebtItem> {
    if k == 0 then [] else
      DebtLog(cfg, start, world, k - 1) + DebtTaken(cfg, StateAt(cfg, start, world, k - 1), world(k - 1))
  }

  lemma PassTakesDebt(cfg: Config, r: Run, input: PassInput)
    ensures Next(cfg, r, input).dag.debt == r.dag.debt + DebtTaken(cfg, r, input)
  {
    if ReachesGates(cfg, r, input) {
      PassKeeps(cfg, r, input);
    }
  }

  /**
   * The accumulated debt is, in level and issue order, exactly the debt of the results
   * accepted with debt by the passes that reached the gates; nothing is lost or repeated.
   */
  lemma {:induction false} DebtIsConserved(cfg: Config, start: Run, world: World, k: nat)
    ensures StateAt(cfg, start, world, k).dag.debt == start.dag.debt + DebtLog(cfg, start, world, k)
  {
    hide Next, DebtTaken;
    if k > 0 {
      DebtIsConserved(cfg, start, world, k - 1);
      var r := StateAt(cfg, start, world, k - 1);
      PassTakesDebt(cfg, r, world(k - 1));
      AppendAssociative(start.dag.debt, DebtLog(cfg, start, world, k - 1), DebtTaken(cfg, r, world(k - 1)));
    }
  }

  /** Debt never shrinks or changes: what was recorded stays, in place, for good. */
  lemma {:induction false} DebtIsNeverLost(cfg: Config, start: Run, world: World, j: nat, k: nat)
    requires j <= k
    ensures StateAt(cfg, start, world, j).dag.debt <= StateAt(cfg, start, world, k).dag.debt
    decreases k
  {
    hide Next, DebtTaken;
    if j < k {
      DebtIsNeverLost(cfg, start, world, j, k - 1);
      PassTakesDebt(cfg, StateAt(cfg, start, world, k - 1), world(k - 1));
    }
  }

  // ----------------------------------------------------------------------------- merging

  /** The branches this pass hands to the merge gate. */
  ghost function Offered(cfg: Config, r: Run, input: PassInput): seq<string> {
    if cfg.git && ReachesGates(cfg, r, input) then BranchesToMerge(LevelOutcome(cfg, r, input).completed) else []
  }

  /** Whenever the merger agent is asked, it reports each branch it was handed once and no other. */
  ghost predicate HonestMerger(cfg: Config, branches: seq<string>, input: PassInput) {
    if cfg.deterministicGit && !FastMergeRaises(input) then
      var fast := FastMerge(branches, input.conflicts);
      fast.failed != [] ==> Settles(fast.failed, input.merger.merged, input.merger.failed)
    else if !input.merger.success && input.merger.failed != [] then
      Settles(branches, input.mergerRetry.merged, input.mergerRetry.failed)
    else Settles(branches, input.merger.merged, input.merger.failed)
  }

  /** Fast path, conflicts, agent, retry: every branch comes out as merged or as failed, never both. */
  lemma DispatchSettles(cfg: Config, branches: seq<string>, input: PassInput)
    requires Distinct(branches) && HonestMerger(cfg, branches, input)
    ensures Settles(branches, Dispatched(cfg, branches, input).merged, Dispatched(cfg, branches, input).failed)
  {
    if cfg.deterministicGit && !FastMergeRaises(input) {
      var fast := FastMerge(branches, input.conflicts);
      FastMergeSettles(branches, input.conflicts);
      hide Settles, Combined, FastMerge;
      if fast.failed != [] {
        CombinedSettles(branches, fast, input.merger);
      }
    }
  }

  ghost predicate NoPrefixClash(issues: seq<Issue>) {
    forall a, b :: a in issues && b in issues && a.name != b.name ==> Stripped(b.name) != a.name
  }

  /** A task that succeeds answers with the branch its issue was given. */
  ghost predicate AnswersWithBranches(handed: seq<Issue>, reply: nat -> TaskReply) {
    forall i :: 0 <= i < |handed| && reply(i).Returned? && Succeeded(reply(i).result.outcome) ==>
                  reply(i).result.branchName == if handed[i].branch.Some? then handed[i].branch.value else ""
  }

  /** Worktrees came from the fast path, and each task answers with the branch it was given. */
  ghost predicate OwnBranches(cfg: Config, r: Run, input: PassInput)
    requires !Halted(r)
  {
    var handed := Handed(cfg, r, input);
    && cfg.deterministicGit
    && (forall i :: 0 <= i < |handed| ==> input.worktreeCreated(i))
    && AnswersWithBranches(handed, input.reply)
    && NoPrefixClash(Active(r)) && (forall i :: i in Active(r) ==> i.name != "")
  }

  lemma HandedOwnBranch(cfg: Config, r: Run, input: PassInput, i: nat)
    requires !Halted(r) && cfg.git && OwnBranches(cfg, r, input) && Distinct(NamesOf(Active(r))) && i < |Active(r)|
    ensures |Handed(cfg, r, input)| == |Active(r)|
    ensures Handed(cfg, r, input)[i].branch == Some(BranchOf(Active(r)[i], cfg.buildId))
  {
    var active := Active(r);
    var ws := OwnWorkspaces(active, cfg.buildId);
    HandedKeepsIssues(cfg, r, input);
    forall j | i < j < |ws|
      ensures !Shadows(ws, i, j)
    {
      assert active[i] in active && active[j] in active;
    }
    IssueGetsItsBranch(active, cfg.buildId, i);
  }

  /** A successful result carries the branch of its own issue or none. */
  ghost predicate CarriesOwnBranch(x: IssueResult, issue: Issue, buildId: string) {
    !Succeeded(x.outcome) || x.branchName == "" || x.branchName == BranchOf(issue, buildId)
  }

  lemma ResultsCarryOwnBranches(cfg: Config, r: Run, input: PassInput, i: nat)
    requires !Halted(r) && cfg.git && OwnBranches(cfg, r, input) && Distinct(NamesOf(Active(r))) && i < |Active(r)|
    ensures |Results(Handed(cfg, r, input), input.reply)| == |Active(r)|
    ensures CarriesOwnBranch(Results(Handed(cfg, r, input), input.reply)[i], Active(r)[i], cfg.buildId)
  {
    HandedOwnBranch(cfg, r, input, i);
    hide BranchOf, Handed, Active;
  }

  ghost function CompletedBranches(rs: seq<IssueResult>): seq<string> {
    BranchesToMerge(InBucket(rs, Success))
  }

  lemma CompletedBranchesSnoc(rs: seq<IssueResult>, x: IssueResult)
    ensures CompletedBranches([]) == []
    ensures CompletedBranches(rs + [x])
            == CompletedBranches(rs)
               + if BucketOf(x.outcome) == Success && x.branchName != "" then [x.branchName] else []
  {
    assert (rs + [x])[..|rs|] == rs;
    var before := InBucket(rs, Success);
    assert (before + [x])[..|before|] == before;
  }

  lemma {:induction false} BranchesOfCompleted(rs: seq<IssueResult>, issues: seq<Issue>, buildId: string)
    requires |rs| == |issues| && Distinct(NamesOf(issues)) && forall i :: i in issues ==> i.name != ""
    requires forall k :: 0 <= k < |rs| ==> CarriesOwnBranch(rs[k], issues[k], buildId)
    ensures Distinct(CompletedBranches(rs))
    ensures forall x :: x in CompletedBranches(rs) ==> exists i :: i in issues && x == BranchOf(i, buildId)
  {
    hide BranchOf, CompletedBranches;
    if rs == [] {
      CompletedBranchesSnoc(rs, IssueResult("", Skipped, "", [], [], []));
    } else {
      var k := |rs| - 1;
      NamesOfLast(issues);
      BranchesOfCompleted(rs[..k], issues[..k], buildId);
      assert rs == rs[..k] + [rs[k]] && issues == issues[..k] + [issues[k]];
      CompletedBranchesSnoc(rs[..k], rs[k]);
      if Succeeded(rs[k].outcome) && rs[k].branchName != "" {
        OneMoreBranch(CompletedBranches(rs[..k]), rs[k], issues[..k], issues[k], buildId);
      }
    }
  }

  lemma OneMoreBranch(before: seq<string>, x: IssueResult, issues: seq<Issue>, issue: Issue, buildId: string)
    requires CarriesOwnBranch(x, issue, buildId) && issue.name != "" && issue.name !in NameSet(issues)
    requires forall i :: i in issues ==> i.name != ""
    requires Distinct(before) && forall b :: b in before ==> exists i :: i in issues && b == BranchOf(i, buildId)
    requires Succeeded(x.outcome) && x.branchName != ""
    ensures x.branchName == BranchOf(issue, buildId)
    ensures Distinct(before + [x.branchName])
  {
    hide BranchOf;
    if x.branchName in before {
      var i :| i in issues && x.branchName == BranchOf(i, buildId);
      SameBranchSameName(i, issue, buildId);
      NameListed(issues, i.name);
    }
    DistinctAppend(before, [x.branchName]);
  }

  /** Everything offered by a pass is the branch of an issue it started, each once. */
  lemma OfferedAreOwn(cfg: Config, r: Run, input: PassInput)
    requires !Halted(r) ==> OwnBranches(cfg, r, input) && Distinct(NamesOf(Active(r)))
    ensures Distinct(Offered(cfg, r, input))
    ensures forall x :: x in Offered(cfg, r, input) ==> exists i :: i in Active(r) && x == BranchOf(i, cfg.buildId)
  {
    if cfg.git && ReachesGates(cfg, r, input) {
      var rs := Results(Handed(cfg, r, input), input.reply);
      HandedKeepsIssues(cfg, r, input);
      hide BranchOf, Handed;
      forall k | 0 <= k < |rs|
        ensures CarriesOwnBranch(rs[k], Active(r)[k], cfg.buildId)
      {
        ResultsCarryOwnBranches(cfg, r, input, k);
      }
      BranchesOfCompleted(rs, Active(r), cfg.buildId);
    }
  }

  /** A pass in which setup, tasks and merger behave as the built-in ones do. */
  ghost predicate CleanAt(cfg: Config, start: Run, world: World, j: nat) {
    var r := StateAt(cfg, start, world, j);
    !Halted(r) ==> && Faithful(cfg, r, world(j)) && OwnBranches(cfg, r, world(j))
                   && HonestMerger(cfg, Offered(cfg, r, world(j)), world(j))
  }

  ghost function OfferedAt(cfg: Config, start: Run, world: World, j: nat): seq<string> {
    Offered(cfg, StateAt(cfg, start, world, j), world(j))
  }

  lemma OfferedAtAreOwn(cfg: Config, start: Run, world: World, j: nat, x: string) returns (n: Name, i: Issue)
    requires Named(start.lookup) && LevelsDistinct(start.dag.levels) && CleanAt(cfg, start, world, j)
    requires x in OfferedAt(cfg, start, world, j)
    ensures n in Starts(cfg, start, world, j) && i.name == n && n != "" && x == BranchOf(i, cfg.buildId)
  {
    var r := StateAt(cfg, start, world, j);
    StartsDistinct(cfg, start, world, j);
    hide StateAt, BranchOf, Active;
    OfferedAreOwn(cfg, r, world(j));
    i :| i in Active(r) && x == BranchOf(i, cfg.buildId);
    n := i.name;
    NameListed(Active(r), n);
  }

  lemma CleanIsFaithful(cfg: Config, start: Run, world: World, j: nat)
    requires CleanAt(cfg, start, world, j)
    ensures FaithfulAt(cfg, start, world, j)
  {
    hide StateAt, Faithful, OwnBranches, HonestMerger;
  }

  /** No branch is offered for merging twice: not by one pass, and not by two. */
  lemma OfferedOnce(cfg: Config, start: Run, world: World, j: nat, k: nat, x: string)
    requires Named(start.lookup) && LevelsDistinct(start.dag.levels)
    requires CleanAt(cfg, start, world, j) && CleanAt(cfg, start, world, k)
    requires j < k && x in OfferedAt(cfg, start, world, j)
    ensures x !in OfferedAt(cfg, start, world, k)
  {
    CleanIsFaithful(cfg, start, world, j);
    hide CleanAt, OfferedAt, Starts, BranchOf, FaithfulAt, StateAt, Named, LevelsDistinct;
    var n, i := OfferedAtAreOwn(cfg, start, world, j, x);
    NobodyStartsTwice(cfg, start, world, j, k, n);
    if x in OfferedAt(cfg, start, world, k) {
      var n', i' := OfferedAtAreOwn(cfg, start, world, k, x);
      SameBranchSameName(i, i', cfg.buildId);
    }
  }

  lemma SameBranchSameName(i: Issue, i': Issue, buildId: string)
    requires i.name != "" && i'.name != "" && BranchOf(i, buildId) == BranchOf(i', buildId)
    ensures i.name == i'.name
  {
    BranchInjective(i, i', buildId);
    hide BranchOf;
    assert i.name in {i.name, i'.name} && i'.name in {i.name, i'.name};
  }

  ghost function AllOffered(cfg: Config, start: Run, world: World, k: nat): set<string> {
    if k == 0 then {} else AllOffered(cfg, start, world, k - 1) + SetOf(OfferedAt(cfg, start, world, k - 1))
  }

  lemma {:induction false} OfferedIsFresh(cfg: Config, start: Run, world: World, j: nat, k: nat, x: string)
    requires Named(start.lookup) && LevelsDistinct(start.dag.levels)
    requires j <= k && forall i: nat :: i <= k ==> CleanAt(cfg, start, world, i)
    requires x in OfferedAt(cfg, start, world, k)
    ensures x !in AllOffered(cfg, start, world, j)
  {
    hide CleanAt, OfferedAt;
    if j > 0 {
      OfferedIsFresh(cfg, start, world, j - 1, k, x);
      if x in OfferedAt(cfg, start, world, j - 1) {
        OfferedOnce(cfg, start, world, j - 1, k, x);
      }
    }
  }

  /** What one pass adds to the merge records is a split of what it offered. */
  lemma PassMerges(cfg: Config, r: Run, input: PassInput) returns (merged: seq<string>, failed: seq<string>)
    requires Distinct(Offered(cfg, r, input))
    requires Offered(cfg, r, input) != [] ==> HonestMerger(cfg, Offered(cfg, r, input), input)
    ensures Settles(Offered(cfg, r, input), merged, failed)
    ensures SetOf(Next(cfg, r, input).dag.merged) == SetOf(r.dag.merged) + SetOf(merged)
    ensures SetOf(Next(cfg, r, input).dag.unmerged) == SetOf(r.dag.unmerged) + SetOf(failed)
  {
    var branches, s := Offered(cfg, r, input), r.dag;
    if branches == [] {
      merged, failed := [], [];
      PassMergesNothing(cfg, r, input);
    } else {
      DispatchSettles(cfg, branches, input);
      var m := Dispatched(cfg, branches, input);
      merged, failed := m.merged, m.failed;
      AddAllNewMembers(s.merged, merged);
      AddAllNewMembers(s.unmerged, failed);
      PassKeeps(cfg, r, input);
      hide Settles, Dispatched, LevelOutcome, SetOf;
    }
  }

  lemma PassMergesNothing(cfg: Config, r: Run, input: PassInput)
    requires Offered(cfg, r, input) == []
    ensures Next(cfg, r, input).dag.merged == r.dag.merged && Next(cfg, r, input).dag.unmerged == r.dag.unmerged
  {
    if ReachesGates(cfg, r, input) {
      PassKeeps(cfg, r, input);
    }
  }

  /** What the merge gate of the pass is told: nothing if it has nothing to offer. */
  ghost function MergeReport(cfg: Config, r: Run, input: PassInput): MergeResult {
    var branches := Offered(cfg, r, input);
    if branches == [] then MergeResult(true, [], [], false) else Dispatched(cfg, branches, input)
  }

  /** Merge lists and debt grow by what the pass merges and takes, and do so in front of the split gate. */
  lemma PassBooks(cfg: Config, r: Run, input: PassInput)
    requires !Halted(r)
    ensures var s, m := Pass(cfg, r, input).dag, MergeReport(cfg, r, input);
            && s.merged == AddAllNew(r.dag.merged, m.merged) && s.unmerged == AddAllNew(r.dag.unmerged, m.failed)
            && s.debt == r.dag.debt + DebtTaken(cfg, r, input)
    ensures ReachesGates(cfg, r, input) ==>
              var s, a := Pass(cfg, r, input).dag, AfterSplits(cfg, r, input).dag;
              s.merged == a.merged && s.unmerged == a.unmerged && s.debt == a.debt
  {
    PassTakesDebt(cfg, r, input);
    if Offered(cfg, r, input) == [] {
      PassMergesNothing(cfg, r, input);
    }
    if ReachesGates(cfg, r, input) {
      PassKeeps(cfg, r, input);
      SplitGateKeeps(cfg, r, input);
    }
    hide LevelOutcome, Dispatched, AfterSplits, Active, ThresholdHit, DebtTaken;
  }

  ghost predicate Accounted(merged: seq<string>, unmerged: seq<string>, offered: set<string>) {
    SetOf(merged) + SetOf(unmerged) == offered && SetOf(merged) !! SetOf(unmerged)
  }

  /** The branch belongs to a named issue among these. */
  ghost predicate BranchOfOne(x: string, names: set<Name>, buildId: string) {
    exists i: Issue :: i.name != "" && i.name in names && x == BranchOf(i, buildId)
  }

  /** Every branch on the merge lists is on one of them, and belongs to an issue that is done. */
  ghost predicate SettledBooks(s: State, buildId: string) {
    && SetOf(s.merged) !! SetOf(s.unmerged)
    && forall x :: x in OnBooks(s) ==> BranchOfOne(x, Done(s), buildId)
  }

  function OnBooks(s: State): set<string> {
    SetOf(s.merged) + SetOf(s.unmerged)
  }

  lemma BranchOfOther(x: string, i: Issue, names: set<Name>, buildId: string)
    requires x == BranchOf(i, buildId) && i.name != "" && i.name !in names
    ensures !BranchOfOne(x, names, buildId)
  {
    hide BranchOf;
    forall i': Issue | i'.name != "" && x == BranchOf(i', buildId)
      ensures i'.name == i.name
    {
      SameBranchSameName(i, i', buildId);
    }
  }

  /** What is offered in a run was on neither list when it started. */
  lemma OfferedIsNotOnBooks(cfg: Config, start: Run, world: World, k: nat, x: string)
    requires Named(start.lookup) && LevelsDistinct(start.dag.levels) && SettledBooks(start.dag, cfg.buildId)
    requires CleanAt(cfg, start, world, k) && x in OfferedAt(cfg, start, world, k)
    ensures x !in OnBooks(start.dag)
  {
    hide CleanAt, OfferedAt, BranchOf, BranchOfOne, StateAt, Named, LevelsDistinct, Done, Starts, OnBooks;
    var n, i := OfferedAtAreOwn(cfg, start, world, k, x);
    NothingRunYet(cfg, start, world);
    if n in Done(start.dag) {
      DoneNeverStarts(cfg, start, world, 0, k, n);
    }
    BranchOfOther(x, i, Done(start.dag), cfg.buildId);
  }

  /**
   * Over a whole run, fresh or resumed, every branch offered for merging ends up in exactly
   * one of the merged and unmerged lists, next to what was there, and nothing else does.
   */
  lemma {:induction false} MergesAreAccountedFor(cfg: Config, start: Run, world: World, k: nat)
    requires Named(start.lookup) && LevelsDistinct(start.dag.levels) && SettledBooks(start.dag, cfg.buildId)
    requires forall j: nat :: j < k ==> CleanAt(cfg, start, world, j)
    ensures var s := StateAt(cfg, start, world, k).dag;
            Accounted(s.merged, s.unmerged, OnBooks(start.dag) + AllOffered(cfg, start, world, k))
  {
    hide CleanAt, OfferedAt, Next, Named, LevelsDistinct, BranchOfOne;
    if k > 0 {
      MergesAreAccountedFor(cfg, start, world, k - 1);
      hide Accounted, SettledBooks, OnBooks;
      var offered := OfferedAt(cfg, start, world, k - 1);
      var earlier := OnBooks(start.dag) + AllOffered(cfg, start, world, k - 1);
      assert CleanAt(cfg, start, world, k - 1);
      forall x | x in offered
        ensures x !in earlier
      {
        OfferedIsFresh(cfg, start, world, k - 1, k - 1, x);
        OfferedIsNotOnBooks(cfg, start, world, k - 1, x);
      }
      OfferedAtDistinct(cfg, start, world, k - 1);
      PassIsAccountedFor(cfg, StateAt(cfg, start, world, k - 1), world(k - 1), offered, earlier);
    }
  }

  /** Whoever has been offered is done. */
  lemma {:induction false} AllOfferedAreDone(cfg: Config, start: Run, world: World, k: nat, x: string)
    requires Named(start.lookup) && LevelsDistinct(start.dag.levels)
    requires forall j: nat :: j < k ==> CleanAt(cfg, start, world, j)
    requires x in AllOffered(cfg, start, world, k)
    ensures BranchOfOne(x, Done(StateAt(cfg, start, world, k).dag), cfg.buildId)
  {
    hide CleanAt, OfferedAt, StateAt, Named, LevelsDistinct, Done, Starts, BranchOf;
    assert CleanAt(cfg, start, world, k - 1);
    if x in OfferedAt(cfg, start, world, k - 1) {
      var n, i := OfferedAtAreOwn(cfg, start, world, k - 1, x);
      CleanIsFaithful(cfg, start, world, k - 1);
      StartedIsDone(cfg, start, world, k - 1, n);
    } else {
      AllOfferedAreDone(cfg, start, world, k - 1, x);
      DoneOnlyGrows(cfg, start, world, k - 1, k);
    }
  }

  /** So the books of a clean run stay settled. */
  lemma BooksStaySettled(cfg: Config, start: Run, world: World, k: nat)
    requires Named(start.lookup) && LevelsDistinct(start.dag.levels) && SettledBooks(start.dag, cfg.buildId)
    requires forall j: nat :: j < k ==> CleanAt(cfg, start, world, j)
    ensures SettledBooks(StateAt(cfg, start, world, k).dag, cfg.buildId)
  {
    hide CleanAt, StateAt, Named, LevelsDistinct, Done, AllOffered, BranchOf;
    MergesAreAccountedFor(cfg, start, world, k);
    var s := StateAt(cfg, start, world, k).dag;
    NothingRunYet(cfg, start, world);
    DoneOnlyGrows(cfg, start, world, 0, k);
    forall x | x in OnBooks(s)
      ensures BranchOfOne(x, Done(s), cfg.buildId)
    {
      if x in AllOffered(cfg, start, world, k) {
        AllOfferedAreDone(cfg, start, world, k, x);
      } else {
        assert BranchOfOne(x, Done(start.dag), cfg.buildId);
      }
    }
  }

  lemma PassIsAccountedFor(cfg: Config, r: Run, input: PassInput, offered: seq<string>, earlier: set<string>)
    requires offered == Offered(cfg, r, input) && Distinct(offered)
    requires offered != [] ==> HonestMerger(cfg, offered, input)
    requires Accounted(r.dag.merged, r.dag.unmerged, earlier)
    requires forall x :: x in offered ==> x !in earlier
    ensures var s := Next(cfg, r, input).dag;
            Accounted(s.merged, s.unmerged, earlier + SetOf(offered))
  {
    hide Offered, HonestMerger, Next, Distinct;
    var merged, failed := PassMerges(cfg, r, input);
    AccountsStep(SetOf(r.dag.merged), SetOf(r.dag.unmerged), SetOf(offered), SetOf(merged), SetOf(failed));
  }

  lemma AccountsStep(merged: set<string>, unmerged: set<string>, offered: set<string>, more: set<string>,
                     failed: set<string>)
    requires merged !! unmerged && offered !! (merged + unmerged)
    requires more + failed == offered && more !! failed
    ensures (merged + more) + (unmerged + failed) == merged + unmerged + offered
    ensures (merged + more) !! (unmerged + failed)
  {
  }

  lemma OfferedAtDistinct(cfg: Config, start: Run, world: World, j: nat)
    requires Named(start.lookup) && LevelsDistinct(start.dag.levels) && CleanAt(cfg, start, world, j)
    ensures OfferedAt(cfg, start, world, j) == Offered(cfg, StateAt(cfg, start, world, j), world(j))
    ensures Distinct(OfferedAt(cfg, start, world, j))
    ensures OfferedAt(cfg, start, world, j) != [] ==> HonestMerger(cfg, OfferedAt(cfg, start, world, j), world(j))
  {
    var r := StateAt(cfg, start, world, j);
    StartsDistinct(cfg, start, world, j);
    hide StateAt, BranchOf;
    OfferedAreOwn(cfg, r, world(j));
  }

  // ------------------------------------------------------------------ the integration branch

  /** The agent's answer names as merged exactly what it has put on the branch. */
  ghost predicate TrueReply(m: MergeReply) {
    SetOf(m.integrated) == SetOf(m.merged)
  }

  predicate FastPathWorks(cfg: Config, input: PassInput) {
    cfg.deterministicGit && !FastMergeRaises(input)
  }

  predicate Retries(cfg: Config, input: PassInput) {
    !FastPathWorks(cfg, input) && !input.merger.success && input.merger.failed != []
  }

  /** Every call the dispatch makes is answered truly. */
  ghost predicate TruthfulMerger(cfg: Config, branches: seq<string>, input: PassInput) {
    && (!FastPathWorks(cfg, input) || FastMerge(branches, input.conflicts).failed != [] ==> TrueReply(input.merger))
    && (Retries(cfg, input) ==> TrueReply(input.mergerRetry))
  }

  /**
   * Merges whose report the dispatch throws away: of a fast path that broke off, and of a first call
   * before a retry.
   */
  ghost function Discarded(cfg: Config, branches: seq<string>, input: PassInput): set<string> {
    (if cfg.deterministicGit && !FastPathWorks(cfg, input)
     then SetOf(MergedBy(branches, input.conflicts, input.gitFault))
     else {})
    + if Retries(cfg, input) then SetOf(input.merger.merged) else {}
  }

  lemma SetOfAppend<T>(a: seq<T>, b: seq<T>)
    ensures SetOf(a + b) == SetOf(a) + SetOf(b)
  {
  }

  /**
   * With true answers a dispatch reports nothing that is not on the branch, and fails to
   * report exactly the discarded merges that its last word does not repeat.
   */
  lemma DispatchReports(cfg: Config, branches: seq<string>, input: PassInput)
    requires TruthfulMerger(cfg, branches, input)
    ensures var reported := SetOf(Dispatched(cfg, branches, input).merged);
            && SetOf(PutOnBranch(cfg, branches, input)) == reported + Discarded(cfg, branches, input)
            && (SetOf(PutOnBranch(cfg, branches, input)) == reported <==> Discarded(cfg, branches, input) <= reported)
  {
    SetOfAppend(if cfg.deterministicGit then MergedBy(branches, input.conflicts, input.gitFault) else [],
                AgentMerged(cfg, branches, input));
    SetOfAppend(input.merger.integrated, if Retries(cfg, input) then input.mergerRetry.integrated else []);
    if FastPathWorks(cfg, input) {
      AddAllNewMembers(FastMerge(branches, input.conflicts).merged, input.merger.merged);
    }
    hide SetOf, AddAllNew, NotIn, Sorted;
    NoMembers<string>();
  }

  lemma NoMembers<T>()
    ensures SetOf<T>([]) == {}
  {
  }

  lemma PassReports(cfg: Config, r: Run, input: PassInput)
    requires !Halted(r)
    requires Offered(cfg, r, input) != [] ==> TruthfulMerger(cfg, Offered(cfg, r, input), input)
    ensures SetOf(r.dag.merged) + SetOf(PassIntegrates(cfg, r, input))
            == SetOf(Pass(cfg, r, input).dag.merged)
               + if Offered(cfg, r, input) == [] then {} else Discarded(cfg, Offered(cfg, r, input), input)
  {
    var branches := Offered(cfg, r, input);
    if branches == [] {
      PassMergesNothing(cfg, r, input);
    } else {
      DispatchReports(cfg, branches, input);
      AddAllNewMembers(r.dag.merged, Dispatched(cfg, branches, input).merged);
      PassKeeps(cfg, r, input);
      hide Dispatched, LevelOutcome, SetOf, AgentMerged, MergedBy, Discarded, TruthfulMerger;
    }
  }

  ghost predicate TruthfulAt(cfg: Config, start: Run, world: World, j: nat) {
    var offered := OfferedAt(cfg, start, world, j);
    offered != [] ==> TruthfulMerger(cfg, offered, world(j))
  }

  /** The merges of the first k passes whose report was thrown away. */
  ghost function DiscardedLog(cfg: Config, start: Run, world: World, k: nat): set<string> {
    if k == 0 then {} else
      var offered := OfferedAt(cfg, start, world, k - 1);
      DiscardedLog(cfg, start, world, k - 1) + if offered == [] then {} else Discarded(cfg, offered, world(k - 1))
  }

  lemma ReportStep(cfg: Config, start: Run, world: World, k: nat)
    requires TruthfulAt(cfg, start, world, k)
    requires SetOf(start.dag.merged) + SetOf(IntegrationLog(cfg, start, world, k))
             == SetOf(StateAt(cfg, start, world, k).dag.merged) + DiscardedLog(cfg, start, world, k)
    ensures SetOf(start.dag.merged) + SetOf(IntegrationLog(cfg, start, world, k + 1))
            == SetOf(StateAt(cfg, start, world, k + 1).dag.merged) + DiscardedLog(cfg, start, world, k + 1)
  {
    hide Pass, PassIntegrates, TruthfulMerger, StateAt, IntegrationLog, SetOf, Discarded, Active, ThresholdHit;
    Step(cfg, start, world, k);
    var r := StateAt(cfg, start, world, k);
    if !Halted(r) {
      hide Offered;
      PassReports(cfg, r, world(k));
      SetOfAppend(IntegrationLog(cfg, start, world, k), PassIntegrates(cfg, r, world(k)));
    }
  }

  /**
   * If every call is answered truly, the integration branch of a run holds what its merged
   * list names and the discarded merges. The two agree exactly if no discarded merge is
   * missing from the list.
   */
  lemma {:induction false} IntegrationIsMerged(cfg: Config, start: Run, world: World, k: nat)
    requires forall j: nat :: j < k ==> TruthfulAt(cfg, start, world, j)
    ensures var listed := SetOf(StateAt(cfg, start, world, k).dag.merged);
            var branch := SetOf(start.dag.merged) + SetOf(IntegrationLog(cfg, start, world, k));
            && branch == listed + DiscardedLog(cfg, start, world, k)
            && (branch == listed <==> DiscardedLog(cfg, start, world, k) <= listed)
  {
    hide TruthfulAt, StateAt, IntegrationLog;
    if k == 0 {
      NothingRunYet(cfg, start, world);
    } else {
      IntegrationIsMerged(cfg, start, world, k - 1);
      hide SetOf, DiscardedLog;
      ReportStep(cfg, start, world, k - 1);
    }
  }

  /**
   * A merge is on the branch and reported as failed, although every call is answered truly and accounts
   * for all it is handed.
   */
  ghost predicate MergeIsLost(cfg: Config, branches: seq<string>, input: PassInput, x: string) {
    && Distinct(branches) && HonestMerger(cfg, branches, input) && TruthfulMerger(cfg, branches, input)
    && x in PutOnBranch(cfg, branches, input)
    && x in Dispatched(cfg, branches, input).failed && x !in Dispatched(cfg, branches, input).merged
  }

  /** The first call merges "a" but not "b"; the retry merges neither and has the last word. */
  lemma RetryLosesMerge(cfg: Config, input: PassInput)
    requires !cfg.deterministicGit
    requires input.merger == MergeReply(false, ["a"], ["b"], false, ["a"])
    requires input.mergerRetry == MergeReply(false, [], ["a", "b"], false, [])
    ensures MergeIsLost(cfg, ["a", "b"], input, "a")
  {
    assert ["a"] + [] == ["a"] && [] + ["a"] == ["a"];
    assert PutOnBranch(cfg, ["a", "b"], input) == ["a"];
  }

  /** The fast path merges "a" and breaks off; the agent, asked for everything, merges nothing. */
  lemma FaultLosesMerge(cfg: Config, input: PassInput)
    requires cfg.deterministicGit && input.gitFault == AfterMerging && !input.conflicts(0)
    requires input.merger == input.mergerRetry == MergeReply(false, [], ["a"], false, [])
    ensures MergeIsLost(cfg, ["a"], input, "a")
  {
    hide FastMerge, Combined, Sorted;
    OneCleanMerge("a", input.conflicts);
    assert ["a"] + ([] + []) == ["a"];
    assert PutOnBranch(cfg, ["a"], input) == ["a"];
  }

  lemma OneCleanMerge(x: string, conflicts: nat -> bool)
    requires !conflicts(0)
    ensures Sorted([x], conflicts, false) == [x]
  {
    assert [x][..0] == [] && Sorted([], conflicts, false) == [];
  }

  /** The fast path merges everything on its own. */
  ghost predicate AgentIdle(cfg: Config, branches: seq<string>, input: PassInput) {
    cfg.deterministicGit && input.gitFault == NoFault && FastMerge(branches, input.conflicts).failed == []
  }

  lemma {:induction false} CleanMergesKeepOrder(branches: seq<string>, conflicts: nat -> bool)
    requires Sorted(branches, conflicts, true) == []
    ensures Sorted(branches, conflicts, false) == branches
  {
    if branches != [] {
      var k := |branches| - 1;
      CleanMergesKeepOrder(branches[..k], conflicts);
      assert branches == branches[..k] + [branches[k]];
    }
  }

  lemma {:induction false} AllNew(known: seq<string>, more: seq<string>)
    requires Distinct(more) && forall x :: x in more ==> x !in known
    ensures AddAllNew(known, more) == known + more
  {
    if more != [] {
      var k := |more| - 1;
      AllNew(known, more[..k]);
      assert more == more[..k] + [more[k]];
      assert more[k] !in known + more[..k];
    }
  }

  lemma IdleDispatch(cfg: Config, known: seq<string>, branches: seq<string>, input: PassInput)
    requires AgentIdle(cfg, branches, input) && Distinct(branches) && forall x :: x in branches ==> x !in known
    ensures AddAllNew(known, Dispatched(cfg, branches, input).merged) == known + branches
    ensures Dispatched(cfg, branches, input).failed == []
    ensures MergedBy(branches, input.conflicts, input.gitFault) + AgentMerged(cfg, branches, input) == branches
  {
    CleanMergesKeepOrder(branches, input.conflicts);
    AllNew(known, branches);
    assert branches + [] == branches;
    hide Sorted, Distinct;
  }

  lemma IdlePass(cfg: Config, r: Run, input: PassInput)
    requires !Halted(r) && Distinct(Offered(cfg, r, input))
    requires Offered(cfg, r, input) != [] ==> AgentIdle(cfg, Offered(cfg, r, input), input)
    requires forall x :: x in Offered(cfg, r, input) ==> x !in r.dag.merged
    ensures PassIntegrates(cfg, r, input) == Offered(cfg, r, input)
    ensures Pass(cfg, r, input).dag.merged == r.dag.merged + Offered(cfg, r, input)
    ensures Pass(cfg, r, input).dag.unmerged == r.dag.unmerged
  {
    var branches := Offered(cfg, r, input);
    if branches == [] {
      PassMergesNothing(cfg, r, input);
      assert r.dag.merged + [] == r.dag.merged;
    } else {
      IdleDispatch(cfg, r.dag.merged, branches, input);
      PassKeeps(cfg, r, input);
      hide LevelOutcome, Distinct, Dispatched, AgentMerged, MergedBy, FastMerge, Pass, ThresholdHit, Active;
    }
  }

  ghost predicate IdleAt(cfg: Config, start: Run, world: World, j: nat) {
    var offered := OfferedAt(cfg, start, world, j);
    offered != [] ==> AgentIdle(cfg, offered, world(j))
  }

  lemma IdleStep(cfg: Config, start: Run, world: World, k: nat)
    requires Named(start.lookup) && LevelsDistinct(start.dag.levels) && SettledBooks(start.dag, cfg.buildId)
    requires forall j: nat :: j <= k ==> CleanAt(cfg, start, world, j)
    requires IdleAt(cfg, start, world, k)
    ensures var s, s' := StateAt(cfg, start, world, k).dag, StateAt(cfg, start, world, k + 1).dag;
            s.merged == start.dag.merged + IntegrationLog(cfg, start, world, k) && s.unmerged == start.dag.unmerged ==>
              && s'.merged == start.dag.merged + IntegrationLog(cfg, start, world, k + 1)
              && s'.unmerged == start.dag.unmerged
  {
    hide Pass, PassIntegrates, AgentIdle, Offered, StateAt, IntegrationLog, CleanAt, OfferedAt, Named, LevelsDistinct;
    hide Halted, Distinct, SettledBooks;
    Step(cfg, start, world, k);
    var r := StateAt(cfg, start, world, k);
    if !Halted(r) {
      OfferedAtDistinct(cfg, start, world, k);
      OfferedIsUnmerged(cfg, start, world, k);
      IdlePass(cfg, r, world(k));
      AppendAssociative(start.dag.merged, IntegrationLog(cfg, start, world, k), PassIntegrates(cfg, r, world(k)));
    }
  }

  /**
   * Where no agent is asked, the merged list of a run grows by exactly what is put on the
   * integration branch, in order, and nothing is left unmerged.
   */
  lemma {:induction false} IdleIntegration(cfg: Config, start: Run, world: World, k: nat)
    requires Named(start.lookup) && LevelsDistinct(start.dag.levels) && SettledBooks(start.dag, cfg.buildId)
    requires forall j: nat :: j < k ==> CleanAt(cfg, start, world, j) && IdleAt(cfg, start, world, j)
    ensures var s := StateAt(cfg, start, world, k).dag;
            && s.merged == start.dag.merged + IntegrationLog(cfg, start, world, k)
            && s.unmerged == start.dag.unmerged
  {
    hide StateAt, IntegrationLog, CleanAt, IdleAt, Named, LevelsDistinct, SettledBooks;
    if k == 0 {
      NothingRunYet(cfg, start, world);
      assert start.dag.merged + [] == start.dag.merged;
    } else {
      IdleIntegration(cfg, start, world, k - 1);
      IdleStep(cfg, start, world, k - 1);
    }
  }

  lemma OfferedIsUnmerged(cfg: Config, start: Run, world: World, k: nat)
    requires Named(start.lookup) && LevelsDistinct(start.dag.levels) && SettledBooks(start.dag, cfg.buildId)
    requires forall j: nat :: j <= k ==> CleanAt(cfg, start, world, j)
    ensures forall x :: x in OfferedAt(cfg, start, world, k) ==> x !in StateAt(cfg, start, world, k).dag.merged
  {
    hide StateAt, CleanAt, OfferedAt, Named, LevelsDistinct, AllOffered, SettledBooks, OnBooks;
    MergesAreAccountedFor(cfg, start, world, k);
    var merged := StateAt(cfg, start, world, k).dag.merged;
    forall x | x in OfferedAt(cfg, start, world, k)
      ensures x !in merged
    {
      OfferedIsFresh(cfg, start, world, k, k, x);
      OfferedIsNotOnBooks(cfg, start, world, k, x);
      assert x in merged ==> x in SetOf(merged);
    }
  }
}
