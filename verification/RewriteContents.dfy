/** What an adopted rewrite leaves in the plan, issue for issue, read off the old plan and the decision alone. */
module RewriteContents {
  import opened Collections
  import opened Graph
  import opened Levels
  import opened Schemas
  import opened DagSpec
  import opened Replan
  import opened RunLoop
  import opened RunTheorems
  import opened LevelTasks

  // ---------------------------------------------------------------------------- updates

  /** The field ends as the last update sets it that names the issue and sets it at all, else as it was. */
  ghost predicate LastSet<T>(us: seq<IssueUpdate>, field: IssueUpdate -> Option<T>, n: Name, before: T, after: T) {
    || (after == before && SetsNothingFrom(us, field, n, 0))
    || exists j :: 0 <= j < |us| && us[j].name == n && field(us[j]) == Some(after)
                   && SetsNothingFrom(us, field, n, j + 1)
  }

  ghost predicate SetsNothingFrom<T>(us: seq<IssueUpdate>, field: IssueUpdate -> Option<T>, n: Name, j: nat) {
    forall k :: j <= k < |us| && us[k].name == n ==> field(us[k]).None?
  }

  /** The issue as the updates leave it: dependencies and number as last set, name and branch as they were. */
  ghost predicate UpdatedTo(us: seq<IssueUpdate>, before: Issue, after: Issue) {
    && after.name == before.name && after.branch == before.branch
    && LastSet(us, (u: IssueUpdate) => u.dependsOn, before.name, before.dependsOn, after.dependsOn)
    && LastSet(us, (u: IssueUpdate) => u.seqNo, before.name, before.seqNo, after.seqNo)
  }

  lemma LastSetSnoc<T>(us: seq<IssueUpdate>, u: IssueUpdate, field: IssueUpdate -> Option<T>, n: Name, a: T, b: T)
    requires LastSet(us, field, n, a, b)
    ensures LastSet(us + [u], field, n, a, if u.name == n && field(u).Some? then field(u).value else b)
  {
    var all := us + [u];
    if u.name == n && field(u).Some? {
      assert all[|us|] == u && SetsNothingFrom(all, field, n, |us| + 1);
    } else if SetsNothingFrom(us, field, n, 0) && a == b {
      assert SetsNothingFrom(all, field, n, 0);
    } else {
      var j :| 0 <= j < |us| && us[j].name == n && field(us[j]) == Some(b) && SetsNothingFrom(us, field, n, j + 1);
      assert all[j] == us[j] && SetsNothingFrom(all, field, n, j + 1);
    }
  }

  lemma UpdatedSnoc(us: seq<IssueUpdate>, u: IssueUpdate, a: Issue, b: Issue)
    requires UpdatedTo(us, a, b)
    ensures UpdatedTo(us + [u], a, if u.name == a.name then Revised(b, u) else b)
  {
    hide LastSet;
    LastSetSnoc(us, u, (u: IssueUpdate) => u.dependsOn, a.name, a.dependsOn, b.dependsOn);
    LastSetSnoc(us, u, (u: IssueUpdate) => u.seqNo, a.name, a.seqNo, b.seqNo);
  }

  /** Putting an issue back in its place changes nothing else. */
  lemma {:induction false} PutInPlace(d: seq<Issue>, i: Issue)
    requires Distinct(NamesOf(d)) && i.name in NameSet(d)
    ensures |Put(d, i)| == |d|
    ensures forall k :: 0 <= k < |d| ==> Put(d, i)[k] == if d[k].name == i.name then i else d[k]
  {
    assert NamesOf(d)[0] == d[0].name;
    if d[0].name == i.name {
      forall k | 0 < k < |d|
        ensures d[k].name != i.name
      {
        assert NamesOf(d)[k] == d[k].name;
      }
    } else {
      assert d == [d[0]] + d[1..];
      NamesCons(d[0], d[1..]);
      assert NamesOf(d[1..]) == NamesOf(d)[1..];
      PutInPlace(d[1..], i);
    }
  }

  lemma UpdateOneInPlace(d: seq<Issue>, u: IssueUpdate)
    requires Distinct(NamesOf(d))
    ensures |UpdateOne(d, u)| == |d|
    ensures forall k :: 0 <= k < |d| ==> UpdateOne(d, u)[k] == if d[k].name == u.name then Revised(d[k], u) else d[k]
  {
    match Get(d, u.name)
    case Some(i) =>
      PutInPlace(d, Revised(i, u));
      var at :| 0 <= at < |d| && d[at] == i;
      forall k | 0 <= k < |d| && d[k].name == u.name
        ensures d[k] == i
      {
        assert NamesOf(d)[k] == NamesOf(d)[at];
      }
    case None =>
      forall k | 0 <= k < |d|
        ensures d[k].name != u.name
      {
        assert NamesOf(d)[k] == d[k].name;
      }
  }

  lemma {:induction false} UpdatesInPlace(d: seq<Issue>, us: seq<IssueUpdate>)
    requires Distinct(NamesOf(d))
    ensures |UpdateAll(d, us)| == |d|
    ensures forall k :: 0 <= k < |d| ==> UpdatedTo(us, d[k], UpdateAll(d, us)[k])
  {
    hide NamesOf, Distinct;
    if us != [] {
      var m := |us| - 1;
      hide UpdatedTo, UpdateOne, Revised;
      UpdatesInPlace(d, us[..m]);
      UpdateNames(d, us[..m]);
      var e := UpdateAll(d, us[..m]);
      UpdateOneInPlace(e, us[m]);
      assert us == us[..m] + [us[m]];
      forall k | 0 <= k < |d|
        ensures UpdatedTo(us, d[k], UpdateAll(d, us)[k])
      {
        UpdatedKeepsName(us[..m], d[k], e[k]);
        UpdatedSnoc(us[..m], us[m], d[k], e[k]);
      }
    }
  }

  lemma UpdatedKeepsName(us: seq<IssueUpdate>, a: Issue, b: Issue)
    requires UpdatedTo(us, a, b)
    ensures b.name == a.name
  {
  }

  // -------------------------------------------------------------------------- additions

  /** The k-th new issue counts: it is named, and nobody of that name is kept or was added before it. */
  ghost predicate CountsAsNew(kept: set<Name>, added: seq<Issue>, k: nat)
    requires k < |added|
  {
    added[k].name != "" && added[k].name !in kept && forall j :: 0 <= j < k ==> added[j].name != added[k].name
  }

  /** How many of the first k new issues count and bring no number. */
  ghost function Unnumbered(kept: set<Name>, added: seq<Issue>, k: nat): nat
    requires k <= |added|
  {
    if k == 0 then 0 else
      Unnumbered(kept, added, k - 1) + if CountsAsNew(kept, added, k - 1) && added[k - 1].seqNo == 0 then 1 else 0
  }

  /** A new issue is listed as it comes, with the next number after all numbers of the old plan if it brings none. */
  ghost function Numbered(highest: nat, kept: set<Name>, added: seq<Issue>, k: nat): Issue
    requires k < |added|
  {
    if added[k].seqNo != 0 then added[k] else added[k].(seqNo := highest + Unnumbered(kept, added, k) + 1)
  }

  lemma CountsInPrefix(kept: set<Name>, added: seq<Issue>, m: nat, k: nat)
    requires k < m <= |added|
    ensures CountsAsNew(kept, added[..m], k) <==> CountsAsNew(kept, added, k)
  {
    assert forall j :: 0 <= j <= k ==> added[..m][j] == added[j];
  }

  lemma {:induction false} UnnumberedInPrefix(kept: set<Name>, added: seq<Issue>, m: nat, k: nat)
    requires k <= m <= |added|
    ensures Unnumbered(kept, added[..m], k) == Unnumbered(kept, added, k)
  {
    if k > 0 {
      CountsInPrefix(kept, added, m, k - 1);
      UnnumberedInPrefix(kept, added, m, k - 1);
      hide CountsAsNew;
    }
  }

  /** Whoever is named already is kept, or was added before. */
  lemma NamedBefore(kept: set<Name>, added: seq<Issue>, m: nat)
    requires m < |added|
    ensures CountsAsNew(kept, added, m) <==> added[m].name != "" && added[m].name !in kept + NewNames(added[..m])
  {
    var n := added[m].name;
    if n in NewNames(added[..m]) {
      var i :| i in added[..m] && i.name == n;
      var j :| 0 <= j < m && added[..m][j] == i;
      assert added[j].name == n;
    }
    if n != "" && n !in kept && !CountsAsNew(kept, added, m) {
      var j :| 0 <= j < m && added[j].name == n;
      assert added[..m][j] in added[..m];
    }
  }

  /** The additions in order: exactly the new issues that count, numbered. */
  ghost predicate AddsThese(ps: seq<nat>, highest: nat, kept: set<Name>, added: seq<Issue>, more: seq<Issue>) {
    && Increasing(ps) && |more| == |ps|
    && (forall k: nat :: k in ps <==> k < |added| && CountsAsNew(kept, added, k))
    && forall j :: 0 <= j < |ps| ==> ps[j] < |added| && more[j] == Numbered(highest, kept, added, ps[j])
  }

  lemma OneMoreAdded(ps: seq<nat>, highest: nat, kept: set<Name>, added: seq<Issue>, more: seq<Issue>)
    requires added != [] && AddsThese(ps, highest, kept, added[..|added| - 1], more)
    ensures var k := |added| - 1;
            if CountsAsNew(kept, added, k) then
              AddsThese(ps + [k], highest, kept, added, more + [Numbered(highest, kept, added, k)])
            else AddsThese(ps, highest, kept, added, more)
  {
    var m := |added| - 1;
    hide CountsAsNew, Unnumbered;
    forall k: nat | k < m
      ensures CountsAsNew(kept, added[..m], k) <==> CountsAsNew(kept, added, k)
      ensures Unnumbered(kept, added[..m], k) == Unnumbered(kept, added, k)
    {
      CountsInPrefix(kept, added, m, k);
      UnnumberedInPrefix(kept, added, m, k);
    }
    assert forall j :: 0 <= j < |ps| ==> ps[j] in ps;
  }

  lemma {:induction false} AdditionsInOrder(d: seq<Issue>, highest: nat, added: seq<Issue>)
    returns (ps: seq<nat>, more: seq<Issue>)
    ensures AddsThese(ps, highest, NameSet(d), added, more)
    ensures AddAll(d, highest, added) == (d + more, highest + Unnumbered(NameSet(d), added, |added|))
  {
    if added == [] {
      ps, more := [], [];
      assert d + [] == d;
    } else {
      var m, kept := |added| - 1, NameSet(d);
      hide NameSet, NamesOf, NewNames, CountsAsNew, AddsThese, Distinct, AddAll, Unnumbered;
      ps, more := AdditionsInOrder(d, highest, added[..m]);
      UnnumberedInPrefix(kept, added, m, m);
      OneMoreAdded(ps, highest, kept, added, more);
      AddsLast(d, highest, added, more);
      if CountsAsNew(kept, added, m) {
        ps, more := ps + [m], more + [Numbered(highest, kept, added, m)];
      }
    }
  }

  lemma AddsLast(d: seq<Issue>, highest: nat, added: seq<Issue>, more: seq<Issue>)
    requires added != []
    requires var m, kept := |added| - 1, NameSet(d);
             AddAll(d, highest, added[..m]) == (d + more, highest + Unnumbered(kept, added, m))
    ensures var m, kept := |added| - 1, NameSet(d);
            AddAll(d, highest, added)
            == (d + if CountsAsNew(kept, added, m) then more + [Numbered(highest, kept, added, m)] else more,
                highest + Unnumbered(kept, added, |added|))
  {
    var m, kept := |added| - 1, NameSet(d);
    hide NameSet, NamesOf, NewNames, CountsAsNew, Distinct;
    AddNames(d, highest, added[..m]);
    NamedBefore(kept, added, m);
    if CountsAsNew(kept, added, m) {
      AppendAssociative(d, more, [Numbered(highest, kept, added, m)]);
    }
  }

  // ------------------------------------------------------------------------- what is kept

  /** Where a name is listed twice, the last listing is the one that is read. */
  ghost predicate LastListed(issues: seq<Issue>, i: Issue) {
    exists k :: 0 <= k < |issues| && issues[k] == i && forall j :: k < j < |issues| ==> issues[j].name != i.name
  }

  /** Everybody but those who are out is kept once, as last listed. */
  ghost predicate KeepsThese(issues: seq<Issue>, out: set<Name>, kept: seq<Issue>) {
    && Distinct(NamesOf(kept)) && NameSet(kept) == NameSet(issues) - out
    && forall j :: 0 <= j < |kept| ==> LastListed(issues, kept[j])
  }

  lemma LastListedSnoc(issues: seq<Issue>, x: Issue, i: Issue)
    ensures LastListed(issues + [x], x)
    ensures LastListed(issues, i) && i.name != x.name ==> LastListed(issues + [x], i)
  {
    assert (issues + [x])[|issues|] == x;
    if LastListed(issues, i) && i.name != x.name {
      var k :| 0 <= k < |issues| && issues[k] == i && forall j :: k < j < |issues| ==> issues[j].name != i.name;
      assert (issues + [x])[k] == i;
    }
  }

  lemma {:induction false} PutAtEnd(d: seq<Issue>, i: Issue)
    requires i.name !in NameSet(d)
    ensures Put(d, i) == d + [i]
  {
    if d != [] {
      assert NamesOf(d)[0] == d[0].name;
      assert d == [d[0]] + d[1..];
      NamesCons(d[0], d[1..]);
      PutAtEnd(d[1..], i);
    }
  }

  lemma PutMembers(d: seq<Issue>, i: Issue, x: Issue)
    requires Distinct(NamesOf(d)) && x in Put(d, i)
    ensures x == i || (x in d && x.name != i.name)
  {
    if i.name in NameSet(d) {
      PutInPlace(d, i);
    } else {
      PutAtEnd(d, i);
      NameListed(d, i.name);
    }
  }

  lemma {:induction false} UnfinishedAsLastListed(issues: seq<Issue>, finished: set<Name>)
    ensures KeepsThese(issues, finished, Unfinished(issues, finished))
  {
    UnfinishedNames(issues, finished);
    hide LastListed, NameSet, NamesOf, Distinct;
    forall i | i in Unfinished(issues, finished)
      ensures LastListed(issues, i)
    {
      UnfinishedIsLast(issues, finished, i);
    }
  }

  lemma {:induction false} UnfinishedIsLast(issues: seq<Issue>, finished: set<Name>, i: Issue)
    requires i in Unfinished(issues, finished)
    ensures LastListed(issues, i) && i.name !in finished
  {
    hide LastListed, NameSet, NamesOf, Distinct;
    var k := |issues| - 1;
    var before, x := Unfinished(issues[..k], finished), issues[k];
    assert issues == issues[..k] + [x];
    LastListedSnoc(issues[..k], x, i);
    if x.name in finished {
      UnfinishedIsLast(issues[..k], finished, i);
    } else {
      UnfinishedNames(issues[..k], finished);
      PutMembers(before, x, i);
      if i != x {
        UnfinishedIsLast(issues[..k], finished, i);
      }
    }
  }

  lemma {:induction false} WithoutMembers(d: seq<Issue>, gone: set<Name>)
    ensures forall i :: i in Without(d, gone) <==> i in d && i.name !in gone
  {
    if d != [] {
      WithoutMembers(d[..|d| - 1], gone);
      assert d == d[..|d| - 1] + [d[|d| - 1]];
    }
  }

  lemma KeptAsLastListed(issues: seq<Issue>, finished: set<Name>, gone: set<Name>)
    ensures KeepsThese(issues, finished + gone, Without(Unfinished(issues, finished), gone))
  {
    var open := Unfinished(issues, finished);
    UnfinishedAsLastListed(issues, finished);
    WithoutNames(open, gone);
    WithoutMembers(open, gone);
    hide LastListed, NameSet, NamesOf, Distinct, Unfinished, Without;
    assert forall i :: i in open ==> LastListed(issues, i);
  }

  // ---------------------------------------------------------------------- what is finished

  /** The records of finished issues, issue for issue, in order. */
  ghost predicate StandsInOrder(fs: seq<nat>, issues: seq<Issue>, finished: set<Name>, records: seq<Issue>) {
    && Increasing(fs) && |records| == |fs|
    && (forall k: nat :: k in fs <==> k < |issues| && issues[k].name in finished)
    && forall j :: 0 <= j < |fs| ==> fs[j] < |issues| && records[j] == issues[fs[j]]
  }

  lemma OneMoreRecord(fs: seq<nat>, issues: seq<Issue>, x: Issue, finished: set<Name>, records: seq<Issue>)
    requires StandsInOrder(fs, issues, finished, records)
    ensures if x.name in finished then StandsInOrder(fs + [|issues|], issues + [x], finished, records + [x])
            else StandsInOrder(fs, issues + [x], finished, records)
  {
    assert forall j :: 0 <= j < |fs| ==> fs[j] in fs;
  }

  lemma {:induction false} RecordsStand(issues: seq<Issue>, finished: set<Name>) returns (fs: seq<nat>)
    ensures StandsInOrder(fs, issues, finished, Only(issues, finished))
  {
    if issues == [] {
      fs := [];
    } else {
      hide StandsInOrder;
      var k := |issues| - 1;
      fs := RecordsStand(issues[..k], finished);
      OneMoreRecord(fs, issues[..k], issues[k], finished, Only(issues[..k], finished));
      assert issues == issues[..k] + [issues[k]];
      if issues[k].name in finished {
        fs := fs + [k];
      }
    }
  }

  ghost predicate IsHighest(issues: seq<Issue>, m: nat) {
    && (forall i :: i in issues ==> i.seqNo <= m)
    && (m == 0 || exists i :: i in issues && i.seqNo == m)
  }

  lemma {:induction false} HighestNumber(issues: seq<Issue>)
    ensures IsHighest(issues, MaxSeq(issues))
  {
    if issues != [] {
      var k := |issues| - 1;
      HighestNumber(issues[..k]);
      assert issues == issues[..k] + [issues[k]];
    }
  }

  // --------------------------------------------------------------------------- the rewrite

  /** Who is out of the plan to come: finished, removed or skipped by the decision. */
  function OutOfPlan(s: State, d: Decision): set<Name> {
    ResultNames(s.completed) + ResultNames(s.failed) + SetOf(d.removed) + SetOf(d.skipped)
  }

  /**
   * An adopted rewrite, issue for issue: first the finished issues as they were; then
   * everybody who is kept, as last listed, with dependencies and number as last updated;
   * then the new issues in order, those without a number numbered on from the highest.
   */
  lemma RewrittenPlan(s: State, d: Decision)
    returns (fs: seq<nat>, kept: seq<Issue>, ps: seq<nat>, highest: nat)
    requires Rewrites(d) && Apply(s, d).Accepted?
    ensures IsHighest(s.issues, highest) && KeepsThese(s.issues, OutOfPlan(s, d), kept)
    ensures var now := Apply(s, d).state.issues;
            && |now| == |fs| + |kept| + |ps|
            && StandsInOrder(fs, s.issues, ResultNames(s.completed) + ResultNames(s.failed), now[..|fs|])
            && (forall j :: 0 <= j < |kept| ==> UpdatedTo(d.updated, kept[j], now[|fs| + j]))
            && AddsThese(ps, highest, NameSet(kept), d.added, now[|fs| + |kept|..])
            && now[|fs|..] == Candidates(s, d)
  {
    hide KeepsThese, StandsInOrder, UpdatedTo, AddsThese, NameSet, NamesOf, Distinct, Recompute, ResultNames, SetOf;
    hide Candidates, Only, IsHighest;
    fs := RecordsStand(s.issues, Finished(s));
    var records, updated, more := Only(s.issues, Finished(s)), [], [];
    kept, updated, ps, more, highest := LeftToExecute(s, d);
    RecordCount(fs, s.issues, Finished(s), records);
    AdditionCount(ps, highest, NameSet(kept), d.added, more);
    ThreeParts(records, updated, more);
    assert Apply(s, d).state.issues == records + (updated + more);
  }

  /** What is left to execute: who is kept, updated, and then who is added. */
  lemma LeftToExecute(s: State, d: Decision)
    returns (kept: seq<Issue>, updated: seq<Issue>, ps: seq<nat>, more: seq<Issue>, highest: nat)
    ensures Candidates(s, d) == updated + more
    ensures IsHighest(s.issues, highest) && KeepsThese(s.issues, OutOfPlan(s, d), kept)
    ensures |updated| == |kept| && forall j :: 0 <= j < |kept| ==> UpdatedTo(d.updated, kept[j], updated[j])
    ensures AddsThese(ps, highest, NameSet(kept), d.added, more)
  {
    hide KeepsThese, UpdatedTo, AddsThese, NameSet, NamesOf, Distinct, ResultNames, SetOf, IsHighest;
    hide Unfinished, Without, UpdateAll, AddAll, MaxSeq;
    var finished, gone := Finished(s), SetOf(d.removed) + SetOf(d.skipped);
    highest := MaxSeq(s.issues);
    HighestNumber(s.issues);
    kept := Without(Unfinished(s.issues, finished), gone);
    KeptAsLastListed(s.issues, finished, gone);
    assert finished + gone == OutOfPlan(s, d);
    KeptOnce(s.issues, finished + gone, kept);
    UpdatesInPlace(kept, d.updated);
    UpdateNames(kept, d.updated);
    updated := UpdateAll(kept, d.updated);
    SameNames(updated, kept);
    ps, more := AdditionsInOrder(updated, highest, d.added);
  }

  lemma ThreeParts<T>(a: seq<T>, b: seq<T>, c: seq<T>)
    ensures var all := a + (b + c);
            && |all| == |a| + |b| + |c| && all[..|a|] == a && all[|a|..] == b + c && all[|a| + |b|..] == c
            && forall j :: 0 <= j < |b| ==> all[|a| + j] == b[j]
  {
  }

  lemma SameNames(a: seq<Issue>, b: seq<Issue>)
    requires NamesOf(a) == NamesOf(b)
    ensures NameSet(a) == NameSet(b)
  {
  }

  lemma KeptOnce(issues: seq<Issue>, out: set<Name>, kept: seq<Issue>)
    requires KeepsThese(issues, out, kept)
    ensures Distinct(NamesOf(kept))
  {
  }

  lemma RecordCount(fs: seq<nat>, issues: seq<Issue>, finished: set<Name>, records: seq<Issue>)
    requires StandsInOrder(fs, issues, finished, records)
    ensures |records| == |fs|
  {
  }

  lemma AdditionCount(ps: seq<nat>, highest: nat, kept: set<Name>, added: seq<Issue>, more: seq<Issue>)
    requires AddsThese(ps, highest, kept, added, more)
    ensures |more| == |ps|
  {
  }

  // ----------------------------------------------------------------------------- its levels

  lemma LeftAreListed(s: State, d: Decision, n: Name)
    requires Rewrites(d) && Apply(s, d).Accepted?
    ensures Listed(Apply(s, d).state.levels, n) <==> n in NamesOf(Candidates(s, d))
    ensures n in NamesOf(Candidates(s, d)) <==> n in NameSet(Candidates(s, d))
  {
    hide Candidates, LevelsOf, OpenEdges, Apply, Layering, ResultNames, Finished, NewNames;
    RewriteOutcome(s, d);
    CandidateNames(s, d);
    assert n in NamesOf(Candidates(s, d)) <==> n in NameSet(Candidates(s, d));
  }

  /**
   * Whoever is left is listed, and behind every dependency it carries then that is listed
   * and not completed.
   */
  lemma LeftAreLayered(s: State, d: Decision, i: Issue, dep: Name, k: nat)
    requires Rewrites(d) && Apply(s, d).Accepted? && i in Candidates(s, d)
    ensures Listed(Apply(s, d).state.levels, i.name)
    ensures var levels := Apply(s, d).state.levels;
            && k < |levels| && i.name in levels[k]
            && dep in i.dependsOn && Listed(levels, dep) && dep !in ResultNames(s.completed)
            ==> Listed(levels[..k], dep)
  {
    var todo, completed, levels := Candidates(s, d), ResultNames(s.completed), Apply(s, d).state.levels;
    hide Candidates, LevelsOf, OpenEdges, Apply, Layering, ResultNames, Listed;
    RewriteOutcome(s, d);
    LeftAreListed(s, d, i.name);
    LeftAreListed(s, d, dep);
    NameListed(todo, i.name);
    if k < |levels| && i.name in levels[k] && dep in i.dependsOn && Listed(levels, dep) && dep !in completed {
      InOpenEdges(todo, completed, (dep, i.name));
      EarlierInLayering(OpenEdges(todo, completed), NameSet(todo), levels, dep, i.name, k);
    }
  }

  /** Everybody who is neither out nor new. */
  ghost predicate StaysIn(s: State, d: Decision, n: Name) {
    n in NameSet(s.issues) && n !in OutOfPlan(s, d)
  }

  /** The last update that gives the issue dependencies gives it these. */
  ghost predicate LastGiven(us: seq<IssueUpdate>, n: Name, deps: seq<Name>) {
    exists j :: 0 <= j < |us| && us[j].name == n && us[j].dependsOn == Some(deps)
                && forall k :: j < k < |us| && us[k].name == n ==> us[k].dependsOn.None?
  }

  /**
   * An update takes effect: a kept issue waits for every dependency that the last update
   * gives it and that is listed and not completed, which sits in an earlier level.
   */
  lemma UpdateTakesEffect(s: State, d: Decision, n: Name, deps: seq<Name>, dep: Name, k: nat)
    requires Rewrites(d) && Apply(s, d).Accepted? && StaysIn(s, d, n)
    requires LastGiven(d.updated, n, deps) && dep in deps
    ensures Listed(Apply(s, d).state.levels, n)
    ensures var levels := Apply(s, d).state.levels;
            && k < |levels| && n in levels[k] && Listed(levels, dep) && dep !in ResultNames(s.completed)
            ==> Listed(levels[..k], dep)
  {
    hide Apply, Candidates, IsHighest, ResultNames, AddsThese, LastListed;
    var kept, updated, ps, more, highest := LeftToExecute(s, d);
    NameListed(kept, n);
    assert n in NameSet(kept);
    var was :| was in kept && was.name == n;
    var j :| 0 <= j < |kept| && kept[j] == was;
    LastGivenIsSet(d.updated, was, updated[j], deps);
    assert updated[j] in updated + more;
    LeftAreLayered(s, d, updated[j], dep, k);
  }

  lemma LastGivenIsSet(us: seq<IssueUpdate>, before: Issue, after: Issue, deps: seq<Name>)
    requires UpdatedTo(us, before, after) && LastGiven(us, before.name, deps)
    ensures after.name == before.name && after.dependsOn == deps
  {
    var j :| 0 <= j < |us| && us[j].name == before.name && us[j].dependsOn == Some(deps)
             && forall k :: j < k < |us| && us[k].name == before.name ==> us[k].dependsOn.None?;
  }

  /**
   * A split that is adopted lists each named sub-issue once, first mention counting, with
   * the dependencies it was proposed with and the next number after all others, unless an
   * unfinished issue has its name already.
   */
  lemma SplitListsSubIssues(s: State, x: IssueResult, j: nat)
    requires Apply(s, SplitDecision(x)).Accepted? && j < |x.splitRequest|
    requires var subs := x.splitRequest;
             subs[j].name != "" && forall i :: 0 <= i < j ==> subs[i].name != subs[j].name
    requires !StaysIn(s, SplitDecision(x), x.splitRequest[j].name)
    ensures var now, sub := Apply(s, SplitDecision(x)).state, x.splitRequest[j];
            && Listed(now.levels, sub.name)
            && exists i :: i in now.issues && i.name == sub.name && i.dependsOn == sub.dependsOn && i.branch == None
                           && forall was :: was in s.issues ==> was.seqNo < i.seqNo
  {
    hide Apply, Candidates, KeepsThese, UpdatedTo, StandsInOrder, ResultNames, SetOf, OutOfPlan;
    var d, sub := SplitDecision(x), x.splitRequest[j];
    var fs, kept, ps, highest := RewrittenPlan(s, d);
    var now := Apply(s, d).state.issues;
    KeptNames(s.issues, OutOfPlan(s, d), kept);
    hide IsHighest, NameSet;
    assert d.added[j] == Issue(sub.name, sub.dependsOn, 0, None);
    NewIsNumbered(ps, highest, NameSet(kept), d.added, now[|fs| + |kept|..], j);
    var i := Numbered(highest, NameSet(kept), d.added, j);
    assert i in now[|fs|..] by {
      var p :| 0 <= p < |ps| && now[|fs| + |kept|..][p] == i;
      assert now[|fs|..][|kept| + p] == i;
    }
    assert i in now;
    LeftAreLayered(s, d, i, sub.name, 0);
    BelowHighest(s.issues, highest);
  }

  /** For the rest an adopted split only takes the issue it splits out of the plan; nobody is changed or skipped. */
  lemma SplitLeavesOthers(s: State, x: IssueResult, n: Name)
    requires Apply(s, SplitDecision(x)).Accepted?
    ensures var now, finished := Apply(s, SplitDecision(x)).state, ResultNames(s.completed) + ResultNames(s.failed);
            && now.skipped == s.skipped
            && (Listed(now.levels, n) <==>
                  || (n in NameSet(s.issues) && n !in finished && n != x.issueName)
                  || (n != "" && exists j :: 0 <= j < |x.splitRequest| && x.splitRequest[j].name == n))
            && (n in NameSet(s.issues) && n !in finished && n != x.issueName ==>
                  exists i :: i in now.issues && i.name == n && LastListed(s.issues, i))
  {
    hide Apply, Candidates, StandsInOrder, AddsThese, ResultNames, IsHighest, LastListed, Listed;
    var d, subs := SplitDecision(x), x.splitRequest;
    RewriteOutcome(s, d);
    assert d.removed == [x.issueName] && d.skipped == [] && d.updated == [];
    assert n in NewNames(d.added) <==> n != "" && exists j :: 0 <= j < |subs| && subs[j].name == n by {
      if j :| 0 <= j < |subs| && subs[j].name == n {
        assert d.added[j].name == n && d.added[j] in d.added;
      }
    }
    if n in NameSet(s.issues) && n !in Finished(s) && n != x.issueName {
      var fs, kept, ps, highest := RewrittenPlan(s, d);
      assert n in NameSet(kept);
      NameListed(kept, n);
      var was :| was in kept && was.name == n;
      var j :| 0 <= j < |kept| && kept[j] == was;
      assert UpdatedTo([], kept[j], Apply(s, d).state.issues[|fs| + j]);
    }
  }

  lemma KeptNames(issues: seq<Issue>, out: set<Name>, kept: seq<Issue>)
    requires KeepsThese(issues, out, kept)
    ensures NameSet(kept) == NameSet(issues) - out
  {
  }

  lemma BelowHighest(issues: seq<Issue>, m: nat)
    requires IsHighest(issues, m)
    ensures forall i :: i in issues ==> i.seqNo <= m
  {
  }

  lemma NewIsNumbered(ps: seq<nat>, highest: nat, kept: set<Name>, added: seq<Issue>, more: seq<Issue>, j: nat)
    requires AddsThese(ps, highest, kept, added, more) && j < |added| && CountsAsNew(kept, added, j)
    ensures |more| == |ps| && exists p :: 0 <= p < |ps| && more[p] == Numbered(highest, kept, added, j)
  {
    assert j in ps;
    var p :| 0 <= p < |ps| && ps[p] == j;
    assert more[p] == Numbered(highest, kept, added, j);
  }
}
