/**
 * The deterministic git path: branch naming, worktree setup, sequential merging,
 * and the combination of its result with the merger agent's.
 */
module GitFastPath {
  import opened Collections
  import opened Graph
  import opened Schemas

  // ------------------------------------------------------------------ branch names

  function Digit(k: nat): char
    requires k < 10
  {
    "0123456789"[k]
  }

  function DigitValue(c: char): nat {
    if '0' <= c <= '9' then (c - '0') as nat else 0
  }

  function Decimal(n: nat): (s: string)
    ensures s != [] && forall i :: 0 <= i < |s| ==> '0' <= s[i] <= '9'
  {
    if n < 10 then [Digit(n)] else Decimal(n / 10) + [Digit(n % 10)]
  }

  /** At least two digits, padded with a zero. */
  function Padded(n: nat): string {
    if |Decimal(n)| < 2 then "0" + Decimal(n) else Decimal(n)
  }

  function BranchCore(issue: Issue, buildId: string): string {
    var core := Padded(issue.seqNo) + "-" + EffectiveName(issue);
    if buildId == "" then core else buildId + "-" + core
  }

  function BranchOf(issue: Issue, buildId: string): string {
    "issue/" + BranchCore(issue, buildId)
  }

  /**
   * A branch is named after its build, its number and its issue: the number has at least
   * two digits, with a leading zero exactly below ten, and reads back as it was.
   */
  lemma BranchFormat(issue: Issue, buildId: string)
    ensures var front := if buildId == "" then "issue/" else "issue/" + (buildId + "-");
            var name := if issue.name == "" then "issue" else issue.name;
            exists digits :: ReadsAs(digits, issue.seqNo) && BranchOf(issue, buildId) == front + (digits + "-" + name)
  {
    hide BranchOf, Padded, ReadsAs;
    BranchShape(issue, buildId);
    PaddedReads(issue.seqNo);
  }

  /** The digits are the two-digit spelling of the number, or its only spelling if it has more. */
  ghost predicate ReadsAs(digits: string, n: nat) {
    && |digits| >= 2 && (forall i :: 0 <= i < |digits| ==> '0' <= digits[i] <= '9')
    && ReadDecimal(digits) == n && (digits[0] == '0' <==> n < 10) && (n < 100 ==> |digits| == 2)
  }

  lemma {:induction false} DecimalLeads(n: nat)
    requires n > 0
    ensures Decimal(n)[0] != '0'
    ensures 10 <= n < 100 ==> |Decimal(n)| == 2
    ensures n >= 10 ==> |Decimal(n)| >= 2
  {
    if n >= 10 {
      DecimalLeads(n / 10);
    }
  }

  lemma PaddedReads(n: nat)
    ensures ReadsAs(Padded(n), n)
  {
    hide ReadDecimal;
    ReadBack(n);
    if n > 0 {
      DecimalLeads(n);
    }
  }

  ghost function ReadDecimal(s: string): nat {
    if s == "" then 0 else ReadDecimal(s[..|s| - 1]) * 10 + DigitValue(s[|s| - 1])
  }

  lemma ReadSnoc(s: string, c: char)
    ensures ReadDecimal(s + [c]) == ReadDecimal(s) * 10 + DigitValue(c)
  {
    assert (s + [c])[..|s|] == s;
  }

  lemma ReadDigit(c: char)
    ensures ReadDecimal([c]) == DigitValue(c)
  {
    assert [c][..0] == "";
    assert ReadDecimal("") == 0;
  }

  lemma {:induction false} ReadBack(n: nat)
    ensures ReadDecimal(Decimal(n)) == n
    ensures ReadDecimal(Padded(n)) == n
  {
    hide ReadDecimal;
    if n < 10 {
      ReadDigit(Digit(n));
      ReadDigit('0');
      ReadSnoc("0", Digit(n));
    } else {
      ReadBack(n / 10);
      ReadSnoc(Decimal(n / 10), Digit(n % 10));
    }
  }

  /** Text before the first dash, and text after it, can be read back from the whole. */
  lemma SplitAtDash(a: string, x: string, b: string, y: string)
    requires '-' !in a && '-' !in b
    requires a + "-" + x == b + "-" + y
    ensures a == b && x == y
  {
    var whole := a + "-" + x;
    assert whole[|a|] == '-' && (b + "-" + y)[|b|] == '-';
    assert |a| == |b|;
    assert a == whole[..|a|] == b;
    assert x == whole[|a| + 1..] == y;
  }

  function EffectiveName(issue: Issue): string {
    if issue.name == "" then "issue" else issue.name
  }

  function BranchPrefix(buildId: string): string {
    if buildId == "" then "issue/" else "issue/" + (buildId + "-")
  }

  lemma BranchShape(issue: Issue, buildId: string)
    ensures BranchOf(issue, buildId) == BranchPrefix(buildId) + (Padded(issue.seqNo) + "-" + EffectiveName(issue))
  {
    if buildId != "" {
      AppendAssociative("issue/", buildId + "-", Padded(issue.seqNo) + "-" + EffectiveName(issue));
    }
  }

  lemma SamePrefix(p: string, x: string, y: string)
    requires p + x == p + y
    ensures x == y
  {
    assert x == (p + x)[|p|..] == y;
  }

  /** Two issues of one build share a branch only if number and effective name agree. */
  lemma BranchInjective(a: Issue, b: Issue, buildId: string)
    requires BranchOf(a, buildId) == BranchOf(b, buildId)
    ensures a.seqNo == b.seqNo
    ensures a.name == b.name || {a.name, b.name} == {"", "issue"}
  {
    BranchShape(a, buildId);
    BranchShape(b, buildId);
    SamePrefix(BranchPrefix(buildId), Padded(a.seqNo) + "-" + EffectiveName(a),
               Padded(b.seqNo) + "-" + EffectiveName(b));
    SplitAtDash(Padded(a.seqNo), EffectiveName(a), Padded(b.seqNo), EffectiveName(b));
    ReadBack(a.seqNo);
    ReadBack(b.seqNo);
  }

  // --------------------------------------------------------------------- worktrees

  datatype Workspace = Workspace(issueName: Name, branch: string)

  function OwnWorkspace(issue: Issue, buildId: string): Workspace {
    Workspace(issue.name, BranchOf(issue, buildId))
  }

  function OwnWorkspaces(issues: seq<Issue>, buildId: string): seq<Workspace> {
    seq(|issues|, i requires 0 <= i < |issues| => OwnWorkspace(issues[i], buildId))
  }

  /**
   * One worktree per issue, in order; `created` says whether git could make the i-th.
   * The first that cannot be made ends the fast path.
   */
  method SetupWorktrees(issues: seq<Issue>, buildId: string, created: nat -> bool)
    returns (r: Option<seq<Workspace>>)
    ensures r.Some? <==> forall i :: 0 <= i < |issues| ==> created(i)
    ensures r.Some? ==> r.value == OwnWorkspaces(issues, buildId)
  {
    hide BranchOf;
    var workspaces: seq<Workspace> := [];
    for i := 0 to |issues|
      invariant forall j :: 0 <= j < i ==> created(j)
      invariant |workspaces| == i
      invariant forall j :: 0 <= j < i ==> workspaces[j] == OwnWorkspace(issues[j], buildId)
    {
      if !created(i) {
        return None;
      }
      workspaces := workspaces + [OwnWorkspace(issues[i], buildId)];
    }
    return Some(workspaces);
  }

  /** A leading two-digit prefix and dash, removed. */
  function Stripped(name: string): string {
    if |name| >= 3 && '0' <= name[0] <= '9' && '0' <= name[1] <= '9' && name[2] == '-' then name[3..] else name
  }

  function Register(m: map<Name, Workspace>, w: Workspace): map<Name, Workspace> {
    var named := m[w.issueName := w];
    if Stripped(w.issueName) == w.issueName then named else named[Stripped(w.issueName) := w]
  }

  ghost function WorkspaceMap(ws: seq<Workspace>): map<Name, Workspace> {
    if ws == [] then map[] else Register(WorkspaceMap(ws[..|ws| - 1]), ws[|ws| - 1])
  }

  function EnrichedBy(i: Issue, m: map<Name, Workspace>): Issue {
    if i.name in m then i.(branch := Some(m[i.name].branch)) else i
  }

  ghost function Enriched(issues: seq<Issue>, ws: seq<Workspace>): seq<Issue> {
    seq(|issues|, i requires 0 <= i < |issues| => EnrichedBy(issues[i], WorkspaceMap(ws)))
  }

  /** Match the set-up workspaces back to their issues by raw or prefix-stripped name. */
  method EnrichIssuesFromSetup(issues: seq<Issue>, ws: seq<Workspace>) returns (enriched: seq<Issue>)
    ensures enriched == Enriched(issues, ws)
  {
    var worktrees: map<Name, Workspace> := map[];
    for i := 0 to |ws|
      invariant worktrees == WorkspaceMap(ws[..i])
    {
      assert ws[..i + 1][..i] == ws[..i];
      worktrees := worktrees[ws[i].issueName := ws[i]];
      if Stripped(ws[i].issueName) != ws[i].issueName {
        worktrees := worktrees[Stripped(ws[i].issueName) := ws[i]];
      }
    }
    assert ws[..|ws|] == ws;
    enriched := [];
    for i := 0 to |issues|
      invariant |enriched| == i
      invariant forall j :: 0 <= j < i ==> enriched[j] == EnrichedBy(issues[j], worktrees)
    {
      enriched := enriched + [EnrichedBy(issues[i], worktrees)];
    }
  }

  /** The workspace answers to the name, raw or with its two-digit prefix taken off. */
  ghost predicate AnswersTo(w: Workspace, n: Name) {
    || w.issueName == n
    || exists a, b :: '0' <= a <= '9' && '0' <= b <= '9' && w.issueName == [a, b, '-'] + n
  }

  lemma StrippedIsPrefixed(name: string, n: string)
    ensures Stripped(name) == n <==>
              || (exists a, b :: '0' <= a <= '9' && '0' <= b <= '9' && name == [a, b, '-'] + n)
              || (name == n && forall a, b, m :: '0' <= a <= '9' && '0' <= b <= '9' ==> name != [a, b, '-'] + m)
  {
    if |name| >= 3 && '0' <= name[0] <= '9' && '0' <= name[1] <= '9' && name[2] == '-' {
      assert name == [name[0], name[1], '-'] + name[3..];
    }
    forall a, b, m | '0' <= a <= '9' && '0' <= b <= '9' && name == [a, b, '-'] + m
      ensures Stripped(name) == m
    {
      assert name[0] == a && name[1] == b && name[2] == '-' && name[3..] == m;
    }
  }

  /** No workspace from position j on answers to the name. */
  ghost predicate NoneFrom(ws: seq<Workspace>, n: Name, j: nat) {
    forall k :: j <= k < |ws| ==> !AnswersTo(ws[k], n)
  }

  /** An issue is given the branch of the last workspace that answers to its name, and is left alone if none does. */
  lemma {:induction false} LastWorkspaceWins(issue: Issue, ws: seq<Workspace>, j: nat)
    requires NoneFrom(ws, issue.name, j) && j <= |ws|
    requires j > 0 ==> AnswersTo(ws[j - 1], issue.name)
    ensures EnrichedBy(issue, WorkspaceMap(ws)) == if j == 0 then issue else issue.(branch := Some(ws[j - 1].branch))
  {
    hide WorkspaceMap, AnswersTo, Stripped;
    if ws == [] {
      NoWorkspaces();
    } else {
      var k := |ws| - 1;
      RegisterLast(ws, issue.name);
      AnswersToName(ws[k], issue.name);
      if j <= k {
        assert ws[..k] == ws[..|ws| - 1];
        LastWorkspaceWins(issue, ws[..k], j);
      }
    }
  }

  lemma NoWorkspaces()
    ensures WorkspaceMap([]) == map[]
  {
  }

  lemma AnswersToName(w: Workspace, n: Name)
    ensures AnswersTo(w, n) <==> w.issueName == n || Stripped(w.issueName) == n
  {
    StrippedIsPrefixed(w.issueName, n);
  }

  /** Position j carries a two-digit prefix in front of the name at position i. */
  ghost predicate Shadows(ws: seq<Workspace>, i: nat, j: nat)
    requires i < |ws| && j < |ws|
  {
    i < j && ws[j].issueName != ws[i].issueName && Stripped(ws[j].issueName) == ws[i].issueName
  }

  /** A later issue whose stripped name is an earlier issue's name takes over its workspace. */
  ghost predicate Shadowed(ws: seq<Workspace>, i: nat)
    requires i < |ws|
  {
    exists j :: i < j < |ws| && Shadows(ws, i, j)
  }

  lemma TakenOverBranchDiffers(later: Issue, earlier: Issue, buildId: string)
    requires later.name != earlier.name && Stripped(later.name) == earlier.name
    ensures BranchOf(later, buildId) != BranchOf(earlier, buildId)
  {
    assert later.name !in {"", "issue"} by {
      assert '0' <= later.name[0] <= '9';
    }
    if BranchOf(later, buildId) == BranchOf(earlier, buildId) {
      BranchInjective(later, earlier, buildId);
    }
  }

  lemma RegisterLast(ws: seq<Workspace>, n: Name)
    requires ws != []
    ensures var w, before := ws[|ws| - 1], WorkspaceMap(ws[..|ws| - 1]);
            if w.issueName == n || Stripped(w.issueName) == n then n in WorkspaceMap(ws) && WorkspaceMap(ws)[n] == w
            else (n in WorkspaceMap(ws) <==> n in before) && (n in before ==> WorkspaceMap(ws)[n] == before[n])
  {
  }

  /** The lookup of a name ends at its own workspace, or at one that shadows it. */
  lemma {:induction false} WorkspaceOf(ws: seq<Workspace>, i: nat) returns (j: nat)
    requires i < |ws| && forall x, y :: 0 <= x < y < |ws| ==> ws[x].issueName != ws[y].issueName
    ensures j < |ws| && ws[i].issueName in WorkspaceMap(ws) && WorkspaceMap(ws)[ws[i].issueName] == ws[j]
    ensures if Shadowed(ws, i) then Shadows(ws, i, j) else j == i
  {
    hide WorkspaceMap, Stripped;
    var k := |ws| - 1;
    RegisterLast(ws, ws[i].issueName);
    if i == k {
      j := i;
    } else {
      j := WorkspaceOf(ws[..k], i);
      ShadowedLast(ws, i);
      if Shadows(ws, i, k) {
        j := k;
      } else {
        assert Shadows(ws[..k], i, j) ==> Shadows(ws, i, j);
      }
    }
  }

  lemma ShadowedLast(ws: seq<Workspace>, i: nat)
    requires i < |ws| - 1
    ensures Shadowed(ws, i) <==> Shadowed(ws[..|ws| - 1], i) || Shadows(ws, i, |ws| - 1)
  {
    var k := |ws| - 1;
    if Shadowed(ws, i) {
      var x :| i < x < |ws| && Shadows(ws, i, x);
      if x < k {
        assert Shadows(ws[..k], i, x);
      }
    }
    if Shadowed(ws[..k], i) {
      var x :| i < x < k && Shadows(ws[..k], i, x);
      assert Shadows(ws, i, x);
    }
  }

  /** After fast-path setup an issue works on its own branch exactly when nobody shadows it. */
  lemma IssueGetsItsBranch(issues: seq<Issue>, buildId: string, i: nat)
    requires Distinct(NamesOf(issues)) && i < |issues|
    ensures Enriched(issues, OwnWorkspaces(issues, buildId))[i].branch == Some(BranchOf(issues[i], buildId))
            <==> !Shadowed(OwnWorkspaces(issues, buildId), i)
  {
    var ws := OwnWorkspaces(issues, buildId);
    forall x, y | 0 <= x < y < |ws|
      ensures ws[x].issueName != ws[y].issueName
    {
      assert NamesOf(issues)[x] != NamesOf(issues)[y];
    }
    var j := WorkspaceOf(ws, i);
    if Shadowed(ws, i) {
      TakenOverBranchDiffers(issues[j], issues[i], buildId);
    }
  }

  /** It happens: next to an issue "01-a" an issue "a" is set up to work on that issue's branch. */
  lemma PrefixTakesOver() returns (issues: seq<Issue>)
    ensures NamesOf(issues) == ["a", "01-a"]
    ensures var enriched := Enriched(issues, OwnWorkspaces(issues, ""));
            && enriched[0].branch == enriched[1].branch == Some(BranchOf(issues[1], ""))
            && BranchOf(issues[0], "") != BranchOf(issues[1], "")
  {
    issues := [Issue("a", [], 1, None), Issue("01-a", [], 2, None)];
    assert NamesOf(issues) == ["a", "01-a"];
    var ws := OwnWorkspaces(issues, "");
    assert Stripped("01-a") == "a";
    assert |"a"| != |"01-a"|;
    TakenOverBranchDiffers(issues[1], issues[0], "");
    hide BranchOf, WorkspaceMap;
    assert Shadows(ws, 0, 1);
    var j := WorkspaceOf(ws, 0);
    var k := WorkspaceOf(ws, 1);
  }

  // ------------------------------------------------------------------------ merging

  datatype MergeResult = MergeResult(success: bool, merged: seq<string>, failed: seq<string>, needsTest: bool)

  /** The branches, in order, that git merges (or does not) without a conflict. */
  ghost function Sorted(branches: seq<string>, conflicts: nat -> bool, conflicting: bool): seq<string> {
    if branches == [] then [] else
      var k := |branches| - 1;
      if conflicts(k) == conflicting then Sorted(branches[..k], conflicts, conflicting) + [branches[k]]
      else Sorted(branches[..k], conflicts, conflicting)
  }

  ghost function FastMerge(branches: seq<string>, conflicts: nat -> bool): MergeResult {
    var merged, failed := Sorted(branches, conflicts, false), Sorted(branches, conflicts, true);
    MergeResult(failed == [], merged, failed, |merged| > 1)
  }

  /**
   * Where git gives up on the fast path: it checks out and reads a commit before the first merge, and
   * reads one after the last.
   */
  datatype GitFault = NoFault | BeforeMerging | AfterMerging

  /** What the fast path leaves on the integration branch. */
  ghost function MergedBy(branches: seq<string>, conflicts: nat -> bool, fault: GitFault): seq<string> {
    if fault == BeforeMerging then [] else Sorted(branches, conflicts, false)
  }

  /** The integration branch, as the list of branches merged into it. */
  class Repository {
    var integration: seq<string>

    constructor ()
      ensures integration == []
    {
      integration := [];
    }

    /** Whatever the merger agent puts on the branch. */
    method TakeFromAgent(branches: seq<string>)
      modifies this
      ensures integration == old(integration) + branches
    {
      integration := integration + branches;
    }

    /**
     * Sequential merges; a conflicting one is aborted and leaves the integration branch as
     * it was. A fault before the first merge leaves everything alone, one after the last
     * loses the report but not the merges.
     */
    method MergeBranches(branches: seq<string>, conflicts: nat -> bool, fault: GitFault)
      returns (r: Option<MergeResult>)
      modifies this
      ensures r == if fault == NoFault then Some(FastMerge(branches, conflicts)) else None
      ensures integration == old(integration) + MergedBy(branches, conflicts, fault)
    {
      if fault == BeforeMerging {
        return None;
      }
      var merged: seq<string>, failed: seq<string> := [], [];
      for k := 0 to |branches|
        invariant merged == Sorted(branches[..k], conflicts, false)
        invariant failed == Sorted(branches[..k], conflicts, true)
        invariant integration == old(integration) + merged
      {
        assert branches[..k + 1][..k] == branches[..k];
        if !conflicts(k) {
          integration := integration + [branches[k]];
          merged := merged + [branches[k]];
        } else {
          failed := failed + [branches[k]];
        }
      }
      assert branches[..|branches|] == branches;
      if fault == AfterMerging {
        return None;
      }
      r := Some(MergeResult(failed == [], merged, failed, |merged| > 1));
    }
  }

  function AddNew(known: seq<string>, b: string): seq<string> {
    if b in known then known else known + [b]
  }

  ghost function AddAllNew(known: seq<string>, more: seq<string>): seq<string> {
    if more == [] then known else AddNew(AddAllNew(known, more[..|more| - 1]), more[|more| - 1])
  }

  lemma {:induction false} AddAllNewMembers(known: seq<string>, more: seq<string>)
    ensures SetOf(AddAllNew(known, more)) == SetOf(known) + SetOf(more)
    ensures Distinct(known) ==> Distinct(AddAllNew(known, more))
    ensures known <= AddAllNew(known, more)
  {
    if more != [] {
      var k := |more| - 1;
      AddAllNewMembers(known, more[..k]);
      assert more == more[..k] + [more[k]];
      assert SetOf(more) == SetOf(more[..k]) + {more[k]};
      var before := AddAllNew(known, more[..k]);
      assert SetOf(before + [more[k]]) == SetOf(before) + {more[k]};
      if Distinct(known) && more[k] !in before {
        DistinctAppend(before, [more[k]]);
      }
    }
  }

  method AppendNew(known: seq<string>, more: seq<string>) returns (all: seq<string>)
    ensures all == AddAllNew(known, more)
  {
    all := known;
    for k := 0 to |more|
      invariant all == AddAllNew(known, more[..k])
    {
      assert more[..k + 1][..k] == more[..k];
      if more[k] !in all {
        all := all + [more[k]];
      }
    }
    assert more[..|more|] == more;
  }

  ghost function NotIn(branches: seq<string>, known: seq<string>): seq<string> {
    if branches == [] then [] else
      var k := |branches| - 1;
      if branches[k] in known then NotIn(branches[..k], known) else NotIn(branches[..k], known) + [branches[k]]
  }

  lemma {:induction false} NotInMembers(branches: seq<string>, known: seq<string>)
    ensures forall b :: b in NotIn(branches, known) <==> b in branches && b !in known
  {
    if branches != [] {
      var k := |branches| - 1;
      NotInMembers(branches[..k], known);
      assert branches == branches[..k] + [branches[k]];
    }
  }

  /** The merger agent's answer, and the branches it has in fact put on the integration branch. */
  datatype MergeReply = MergeReply(
    success: bool,
    merged: seq<string>,
    failed: seq<string>,
    needsTest: bool,
    integrated: seq<string>)

  ghost function Combined(fast: MergeResult, agent: MergeReply): MergeResult {
    var merged := AddAllNew(fast.merged, agent.merged);
    var failed := NotIn(agent.failed, merged);
    MergeResult(failed == [], merged, failed, true)
  }

  method CombineMergeResults(fast: MergeResult, agent: MergeReply) returns (r: MergeResult)
    ensures r == Combined(fast, agent)
  {
    var merged := AppendNew(fast.merged, agent.merged);
    var failed: seq<string> := [];
    for k := 0 to |agent.failed|
      invariant failed == NotIn(agent.failed[..k], merged)
    {
      assert agent.failed[..k + 1][..k] == agent.failed[..k];
      if agent.failed[k] !in merged {
        failed := failed + [agent.failed[k]];
      }
    }
    assert agent.failed[..|agent.failed|] == agent.failed;
    r := MergeResult(failed == [], merged, failed, true);
  }

  /** Every branch handed over is reported once, as merged or as failed, and nothing else is. */
  ghost predicate Settles(handed: seq<string>, merged: seq<string>, failed: seq<string>) {
    SetOf(merged) + SetOf(failed) == SetOf(handed) && SetOf(merged) !! SetOf(failed)
  }

  lemma {:induction false} SortedMembers(branches: seq<string>, conflicts: nat -> bool, conflicting: bool)
    ensures forall b :: b in Sorted(branches, conflicts, conflicting)
                        <==> exists i :: 0 <= i < |branches| && branches[i] == b && conflicts(i) == conflicting
  {
    if branches != [] {
      var k := |branches| - 1;
      SortedMembers(branches[..k], conflicts, conflicting);
      forall b
        ensures b in Sorted(branches, conflicts, conflicting)
                <==> exists i :: 0 <= i < |branches| && branches[i] == b && conflicts(i) == conflicting
      {
        if b in Sorted(branches[..k], conflicts, conflicting) {
          var i :| 0 <= i < k && branches[..k][i] == b && conflicts(i) == conflicting;
          assert branches[i] == b;
        }
        if i :| 0 <= i < |branches| && branches[i] == b && conflicts(i) == conflicting {
          if i < k {
            assert branches[..k][i] == b;
          }
        }
      }
    }
  }

  lemma FastMergeSettles(branches: seq<string>, conflicts: nat -> bool)
    requires Distinct(branches)
    ensures Settles(branches, FastMerge(branches, conflicts).merged, FastMerge(branches, conflicts).failed)
  {
    SortedMembers(branches, conflicts, false);
    SortedMembers(branches, conflicts, true);
    forall b
      ensures b in branches <==> b in Sorted(branches, conflicts, false) || b in Sorted(branches, conflicts, true)
      ensures !(b in Sorted(branches, conflicts, false) && b in Sorted(branches, conflicts, true))
    {
      if b in branches {
        var i :| 0 <= i < |branches| && branches[i] == b;
        assert conflicts(i) == false || conflicts(i) == true;
      }
    }
  }

  /** Letting an agent that reports honestly settle the conflicts still accounts for every branch. */
  lemma CombinedSettles(branches: seq<string>, fast: MergeResult, agent: MergeReply)
    requires Settles(branches, fast.merged, fast.failed)
    requires Settles(fast.failed, agent.merged, agent.failed)
    ensures Settles(branches, Combined(fast, agent).merged, Combined(fast, agent).failed)
  {
    AddAllNewMembers(fast.merged, agent.merged);
    NotInMembers(agent.failed, Combined(fast, agent).merged);
    forall b
      ensures b in Combined(fast, agent).failed <==> b in SetOf(agent.failed)
    {
      assert b in Combined(fast, agent).merged <==> b in SetOf(Combined(fast, agent).merged);
      assert b in agent.failed <==> b in SetOf(agent.failed);
      assert b in fast.failed <==> b in SetOf(fast.failed);
    }
  }
}
