/**
 * The outer run loop as a state machine. Whatever agents, git and tasks answer in
 * one pass is an unconstrained input, so a run is fixed by its start state and an
 * arbitrary sequence of such inputs.
 */
module RunLoop {
  import opened Collections
  import opened Graph
  import opened Schemas
  import opened DagSpec
  import opened Replan
  import opened GitFastPath

  /** `git` says that agents and an integration branch are both present. */
  datatype Config = Config(
    hasAgents: bool,
    git: bool,
    deterministicGit: bool,
    buildId: string,
    enableReplanning: bool,
    maxReplans: int,
    abortThreshold: real)

  /** What gathering one task yields: an exception, a result, or something that is neither. */
  datatype TaskReply = Raised | Returned(result: IssueResult) | Neither

  datatype SetupReply = SetupReply(success: bool, workspaces: seq<Workspace>)

  datatype PassInput = PassInput(
    worktreeCreated: nat -> bool,
    setupAgent: SetupReply,
    reply: nat -> TaskReply,
    gitFault: GitFault,
    conflicts: nat -> bool,
    merger: MergeReply,
    mergerRetry: MergeReply,
    decision: Decision)

  predicate FastMergeRaises(input: PassInput) {
    input.gitFault != NoFault
  }

  datatype Status = Running | ThresholdAbort | ReplannerAbort

  /** The plan state, the loop's own name lookup, and whether the loop was left by a break. */
  datatype Run = Run(dag: State, lookup: map<Name, Issue>, status: Status)

  predicate Halted(r: Run) {
    r.status != Running || r.dag.level >= |r.dag.levels|
  }

  ghost function LookupOf(issues: seq<Issue>): map<Name, Issue> {
    if issues == [] then map[] else
      var k := |issues| - 1;
      LookupOf(issues[..k])[issues[k].name := issues[k]]
  }

  // ------------------------------------------------------------------ level execution

  ghost function ActiveAmong(names: seq<Name>, lookup: map<Name, Issue>, done: set<Name>): seq<Issue> {
    if names == [] then [] else
      var k := |names| - 1;
      var before := ActiveAmong(names[..k], lookup, done);
      if names[k] in lookup && names[k] !in done then before + [lookup[names[k]]] else before
  }

  ghost function Active(r: Run): seq<Issue>
    requires !Halted(r)
  {
    ActiveAmong(r.dag.levels[r.dag.level], r.lookup, Done(r.dag))
  }

  ghost function SetUp(cfg: Config, active: seq<Issue>, input: PassInput): seq<Issue> {
    if !cfg.git then active
    else if cfg.deterministicGit && (forall i :: 0 <= i < |active| ==> input.worktreeCreated(i)) then
      Enriched(active, OwnWorkspaces(active, cfg.buildId))
    else if input.setupAgent.success then Enriched(active, input.setupAgent.workspaces)
    else active
  }

  function Persisted(i: Issue, enriched: map<Name, Issue>): Issue {
    if i.name in enriched && enriched[i.name].branch.Some? then enriched[i.name] else i
  }

  ghost function Persist(issues: seq<Issue>, active: seq<Issue>): seq<Issue> {
    seq(|issues|, k requires 0 <= k < |issues| => Persisted(issues[k], LookupOf(active)))
  }

  function ResultFor(issue: Issue, reply: TaskReply): IssueResult {
    match reply
    case Raised => IssueResult(issue.name, FailedUnrecoverable, "", [], [], [])
    case Returned(r) => r
    case Neither => IssueResult(issue.name, Completed, "", [], [], [])
  }

  ghost function Results(active: seq<Issue>, reply: nat -> TaskReply): seq<IssueResult> {
    seq(|active|, i requires 0 <= i < |active| => ResultFor(active[i], reply(i)))
  }

  datatype Bucket = Success | Failure | Skip

  function BucketOf(o: Outcome): Bucket {
    if Succeeded(o) then Success else if o == Skipped then Skip else Failure
  }

  ghost function InBucket(rs: seq<IssueResult>, b: Bucket): seq<IssueResult> {
    if rs == [] then [] else
      var k := |rs| - 1;
      if BucketOf(rs[k].outcome) == b then InBucket(rs[..k], b) + [rs[k]] else InBucket(rs[..k], b)
  }

  datatype LevelResult = LevelResult(completed: seq<IssueResult>, failed: seq<IssueResult>, skipped: seq<IssueResult>)

  ghost function Classified(rs: seq<IssueResult>): LevelResult {
    LevelResult(InBucket(rs, Success), InBucket(rs, Failure), InBucket(rs, Skip))
  }

  ghost function Recorded(s: State, lr: LevelResult): State {
    s.(completed := s.completed + lr.completed, failed := s.failed + lr.failed,
       skipped := s.skipped + ResultNames(lr.skipped))
  }

  // --------------------------------------------------------------------------- gates

  predicate ThresholdHit(cfg: Config, lr: LevelResult) {
    var total := |lr.completed| + |lr.failed| + |lr.skipped|;
    && total > 0 && cfg.abortThreshold > 0.0
    && |lr.failed| as real / total as real >= cfg.abortThreshold
    && |lr.failed| > 1
  }

  ghost function AbandonRest(s: State): State
    requires s.level < |s.levels|
  {
    s.(skipped := s.skipped + SetOf(Flatten(s.levels[s.level + 1..])), level := |s.levels|)
  }

  ghost function BranchesToMerge(completed: seq<IssueResult>): seq<string> {
    if completed == [] then [] else
      var k := |completed| - 1;
      var before := BranchesToMerge(completed[..k]);
      if completed[k].branchName == "" then before else before + [completed[k].branchName]
  }

  function Reported(m: MergeReply): MergeResult {
    MergeResult(m.success, m.merged, m.failed, m.needsTest)
  }

  ghost function Dispatched(cfg: Config, branches: seq<string>, input: PassInput): MergeResult {
    if cfg.deterministicGit && !FastMergeRaises(input) then
      var fast := FastMerge(branches, input.conflicts);
      if fast.failed == [] then fast else Combined(fast, input.merger)
    else if !input.merger.success && input.merger.failed != [] then Reported(input.mergerRetry)
    else Reported(input.merger)
  }

  /**
   * The agent is asked for what the fast path leaves over, or for everything if that is out, and then
   * perhaps again.
   */
  ghost function AgentMerged(cfg: Config, branches: seq<string>, input: PassInput): seq<string> {
    if cfg.deterministicGit && !FastMergeRaises(input) then
      if FastMerge(branches, input.conflicts).failed == [] then [] else input.merger.integrated
    else
      input.merger.integrated
      + if !input.merger.success && input.merger.failed != [] then input.mergerRetry.integrated else []
  }

  /** What dispatching these branches puts on the integration branch. */
  ghost function PutOnBranch(cfg: Config, branches: seq<string>, input: PassInput): seq<string> {
    (if cfg.deterministicGit then MergedBy(branches, input.conflicts, input.gitFault) else [])
    + AgentMerged(cfg, branches, input)
  }

  /** What merging a level's completed branches puts on the integration branch. */
  ghost function Integrated(cfg: Config, lr: LevelResult, input: PassInput): seq<string> {
    var branches := BranchesToMerge(lr.completed);
    if !cfg.git || branches == [] then [] else PutOnBranch(cfg, branches, input)
  }

  ghost function MergeGate(cfg: Config, s: State, lr: LevelResult, input: PassInput): State {
    var branches := BranchesToMerge(lr.completed);
    if !cfg.git || branches == [] then s else
      var m := Dispatched(cfg, branches, input);
      s.(merged := AddAllNew(s.merged, m.merged), unmerged := AddAllNew(s.unmerged, m.failed))
  }

  ghost function DebtOf(completed: seq<IssueResult>): seq<DebtItem> {
    if completed == [] then [] else
      var k := |completed| - 1;
      DebtOf(completed[..k]) + (if completed[k].outcome == CompletedWithDebt then completed[k].debtItems else [])
  }

  ghost function DebtGate(s: State, lr: LevelResult): State {
    s.(debt := s.debt + DebtOf(lr.completed))
  }

  function SubIssues(specs: seq<SplitSpec>): seq<Issue> {
    seq(|specs|, i requires 0 <= i < |specs| => Issue(specs[i].name, specs[i].dependsOn, 0, None))
  }

  function SplitDecision(r: IssueResult): Decision {
    Decision(ModifyDag, [], [r.issueName], [], SubIssues(r.splitRequest))
  }

  predicate WantsSplit(r: IssueResult) {
    r.outcome == FailedNeedsSplit && r.splitRequest != []
  }

  /** Plan state and lookup between two gates, and whether a split has rewritten the plan. */
  datatype Progress = Progress(dag: State, lookup: map<Name, Issue>, rewritten: bool)

  ghost function SplitOne(p: Progress, r: IssueResult): Progress {
    if !WantsSplit(r) then p else
      match Apply(p.dag, SplitDecision(r))
      case Accepted(s) => Progress(s, LookupOf(s.issues), true)
      case Rejected(s) => p.(dag := s)
  }

  ghost function SplitAll(p: Progress, failed: seq<IssueResult>): Progress {
    if failed == [] then p else SplitOne(SplitAll(p, failed[..|failed| - 1]), failed[|failed| - 1])
  }

  ghost function SplitGate(cfg: Config, s: State, lookup: map<Name, Issue>, lr: LevelResult): Progress {
    var p := Progress(s, lookup, false);
    if cfg.hasAgents then SplitAll(p, lr.failed) else p
  }

  ghost predicate AnySplit(cfg: Config, lr: LevelResult) {
    cfg.hasAgents && exists r :: r in lr.failed && WantsSplit(r)
  }

  ghost function ToReplan(failed: seq<IssueResult>): seq<IssueResult> {
    if failed == [] then [] else
      var k := |failed| - 1;
      if Unrecoverable(failed[k].outcome) then ToReplan(failed[..k]) + [failed[k]] else ToReplan(failed[..k])
  }

  ghost function DependentsOf(s: State, failures: seq<IssueResult>): set<Name> {
    set f, n | f in failures && n in Downstream(f.issueName, s.issues) :: n
  }

  ghost function SkipDownstream(s: State, failures: seq<IssueResult>): State {
    s.(skipped := s.skipped + DependentsOf(s, failures))
  }

  datatype Verdict = Advance(dag: State) | Restart(dag: State) | Stop(dag: State)

  ghost function ReplanGate(cfg: Config, s: State, failures: seq<IssueResult>, d: Decision): Verdict {
    if failures == [] then Advance(s)
    else if !cfg.enableReplanning || s.replanCount >= cfg.maxReplans then Advance(SkipDownstream(s, failures))
    else match d.action
      case Abort => Stop(Counted(s, d))
      case Continue => Advance(SkipDownstream(Counted(s, d), failures))
      case _ =>
        match Apply(s, d)
        case Accepted(s') => Restart(s')
        case Rejected(s') => Advance(SkipDownstream(s', failures))
  }

  // -------------------------------------------------------------------------- one pass

  /** The level's issues as they are handed to the tasks. */
  ghost function Handed(cfg: Config, r: Run, input: PassInput): seq<Issue>
    requires !Halted(r)
  {
    SetUp(cfg, Active(r), input)
  }

  /** The state checkpointed just before the tasks start. */
  ghost function Launched(cfg: Config, r: Run, input: PassInput): State
    requires !Halted(r)
  {
    var handed := Handed(cfg, r, input);
    r.dag.(issues := if cfg.git then Persist(r.dag.issues, handed) else r.dag.issues, inFlight := NamesOf(handed))
  }

  ghost function LevelOutcome(cfg: Config, r: Run, input: PassInput): LevelResult
    requires !Halted(r)
  {
    Classified(Results(Handed(cfg, r, input), input.reply))
  }

  /** All results of the level recorded, before any gate. */
  ghost function AtBarrier(cfg: Config, r: Run, input: PassInput): State
    requires !Halted(r)
  {
    Recorded(Launched(cfg, r, input).(inFlight := []), LevelOutcome(cfg, r, input))
  }

  /** State and lookup when the replan gate is reached. */
  ghost function AfterSplits(cfg: Config, r: Run, input: PassInput): Progress
    requires !Halted(r)
  {
    var lr := LevelOutcome(cfg, r, input);
    SplitGate(cfg, DebtGate(MergeGate(cfg, AtBarrier(cfg, r, input), lr, input), lr), r.lookup, lr)
  }

  ghost function Decide(cfg: Config, r: Run, input: PassInput): Verdict
    requires !Halted(r)
  {
    ReplanGate(cfg, AfterSplits(cfg, r, input).dag, ToReplan(LevelOutcome(cfg, r, input).failed), input.decision)
  }

  ghost function Conclude(lookup: map<Name, Issue>, v: Verdict): Run {
    match v
    case Advance(s) => Run(s.(level := s.level + 1), lookup, Running)
    case Restart(s) => Run(s, LookupOf(s.issues), Running)
    case Stop(s) => Run(s, lookup, ReplannerAbort)
  }

  /** One trip round the loop. */
  ghost function Pass(cfg: Config, r: Run, input: PassInput): Run
    requires !Halted(r)
  {
    if Active(r) == [] then r.(dag := r.dag.(level := r.dag.level + 1))
    else if ThresholdHit(cfg, LevelOutcome(cfg, r, input)) then
      Run(AbandonRest(AtBarrier(cfg, r, input)), r.lookup, ThresholdAbort)
    else
      Conclude(AfterSplits(cfg, r, input).lookup, Decide(cfg, r, input))
  }

  /** The checkpoints written during one pass, in order. */
  ghost function Checkpoints(cfg: Config, r: Run, input: PassInput): seq<State>
    requires !Halted(r)
  {
    if Active(r) == [] then [] else
      var launched := Launched(cfg, r, input);
      var begun := [launched, launched.(inFlight := [])];
      if ThresholdHit(cfg, LevelOutcome(cfg, r, input)) then begun + [AbandonRest(AtBarrier(cfg, r, input))]
      else
        var split := if AnySplit(cfg, LevelOutcome(cfg, r, input)) then [AfterSplits(cfg, r, input).dag] else [];
        var replanned := if Decide(cfg, r, input).Restart? then [Decide(cfg, r, input).dag] else [];
        begun + split + replanned
  }

  /** What a pass puts on the integration branch. */
  ghost function PassIntegrates(cfg: Config, r: Run, input: PassInput): seq<string>
    requires !Halted(r)
  {
    if Active(r) == [] || ThresholdHit(cfg, LevelOutcome(cfg, r, input)) then []
    else Integrated(cfg, LevelOutcome(cfg, r, input), input)
  }

  // ------------------------------------------------------------------------ whole runs

  type World = nat -> PassInput

  ghost function Next(cfg: Config, r: Run, input: PassInput): Run {
    if Halted(r) then r else Pass(cfg, r, input)
  }

  /** Where a run stands after k passes; a halted run stays put. */
  ghost function StateAt(cfg: Config, start: Run, world: World, k: nat): Run {
    if k == 0 then start else
      Next(cfg, StateAt(cfg, start, world, k - 1), world(k - 1))
  }

  ghost function Log(cfg: Config, start: Run, world: World, k: nat): seq<State> {
    if k == 0 then [start.dag] else
      var r := StateAt(cfg, start, world, k - 1);
      if Halted(r) then Log(cfg, start, world, k - 1)
      else Log(cfg, start, world, k - 1) + Checkpoints(cfg, r, world(k - 1))
  }

  /** What the first k passes put on the integration branch, in order. */
  ghost function IntegrationLog(cfg: Config, start: Run, world: World, k: nat): seq<string> {
    if k == 0 then [] else
      var r := StateAt(cfg, start, world, k - 1);
      if Halted(r) then IntegrationLog(cfg, start, world, k - 1)
      else IntegrationLog(cfg, start, world, k - 1) + PassIntegrates(cfg, r, world(k - 1))
  }

  /** Everything on file after k passes: a run that has halted by then has also written its final checkpoint. */
  ghost function Written(cfg: Config, start: Run, world: World, k: nat): seq<State> {
    var r := StateAt(cfg, start, world, k);
    Log(cfg, start, world, k) + if Halted(r) then [r.dag] else []
  }

  lemma NothingRunYet(cfg: Config, start: Run, world: World)
    ensures StateAt(cfg, start, world, 0) == start
    ensures Log(cfg, start, world, 0) == [start.dag]
    ensures IntegrationLog(cfg, start, world, 0) == []
  {
  }

  /** One more pass, or none for a run that has halted. */
  lemma Step(cfg: Config, start: Run, world: World, k: nat)
    ensures var r := StateAt(cfg, start, world, k);
            if Halted(r) then
              && StateAt(cfg, start, world, k + 1) == r
              && Log(cfg, start, world, k + 1) == Log(cfg, start, world, k)
              && IntegrationLog(cfg, start, world, k + 1) == IntegrationLog(cfg, start, world, k)
            else
              && StateAt(cfg, start, world, k + 1) == Pass(cfg, r, world(k))
              && Log(cfg, start, world, k + 1) == Log(cfg, start, world, k) + Checkpoints(cfg, r, world(k))
              && IntegrationLog(cfg, start, world, k + 1)
                 == IntegrationLog(cfg, start, world, k) + PassIntegrates(cfg, r, world(k))
  {
    hide Pass, Checkpoints, PassIntegrates;
  }

  lemma {:induction false} HaltedStays(cfg: Config, start: Run, world: World, k: nat, m: nat)
    requires k <= m && Halted(StateAt(cfg, start, world, k))
    ensures StateAt(cfg, start, world, m) == StateAt(cfg, start, world, k)
    ensures Log(cfg, start, world, m) == Log(cfg, start, world, k)
    ensures IntegrationLog(cfg, start, world, m) == IntegrationLog(cfg, start, world, k)
    decreases m
  {
    hide Pass, Checkpoints, PassIntegrates;
    if k < m {
      HaltedStays(cfg, start, world, k, m - 1);
    }
  }

  /** The names started by pass k (counting from 0). */
  ghost function Starts(cfg: Config, start: Run, world: World, k: nat): seq<Name> {
    var r := StateAt(cfg, start, world, k);
    if Halted(r) then [] else NamesOf(Active(r))
  }

  /** A run begun, or resumed, from a stored state. */
  ghost function Begin(s: State): Run {
    Run(s, LookupOf(s.issues), Running)
  }
}
