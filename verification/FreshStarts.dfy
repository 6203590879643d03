/**
 * Starting a plan with levels of any origin: exactly which starts keep the promises of a
 * sound run in every world.
 */
module FreshStarts {
  import opened Collections
  import opened Graph
  import opened Levels
  import opened Schemas
  import opened Replan
  import opened GitFastPath
  import opened RunLoop
  import opened PassFacts
  import opened RunTheorems

  ghost function Fresh(issues: seq<Issue>, levels: seq<seq<Name>>): Run {
    Begin(State(issues, levels, 0, [], [], {}, [], 0, [], [], [], []))
  }

  /** What the loop takes the name to depend on: it looks the name up, and the last entry counts. */
  ghost predicate DependsOn(issues: seq<Issue>, n: Name, d: Name) {
    n in LookupOf(issues) && d in LookupOf(issues)[n].dependsOn
  }

  /** Only known names are listed, and every listed dependency sits in an earlier level. */
  ghost predicate WellLevelled(issues: seq<Issue>, levels: seq<seq<Name>>) {
    && (forall n :: Listed(levels, n) ==> n in NameSet(issues))
    && (forall k, n, d :: 0 <= k < |levels| && n in levels[k] && DependsOn(issues, n, d) && Listed(levels, d)
                          ==> Listed(levels[..k], d))
  }

  /** Whoever the k-th pass starts has its listed dependencies done. */
  ghost predicate StartsInOrder(cfg: Config, start: Run, world: World, k: nat) {
    var r := StateAt(cfg, start, world, k);
    forall n, d :: && n in Starts(cfg, start, world, k) && n in r.lookup
                   && d in r.lookup[n].dependsOn && Listed(r.dag.levels, d)
                   ==> d in Done(r.dag)
  }

  /** If the run has ended after k passes, other than by a replanner's abort, everybody listed is done. */
  ghost predicate EndsComplete(cfg: Config, start: Run, world: World, k: nat) {
    var r := StateAt(cfg, start, world, k);
    Halted(r) && r.status != ReplannerAbort ==> forall n :: Listed(r.dag.levels, n) ==> n in Done(r.dag)
  }

  ghost predicate KeepsPromises(cfg: Config, start: Run, world: World) {
    forall k: nat :: StartsInOrder(cfg, start, world, k) && EndsComplete(cfg, start, world, k)
  }

  /** Tasks answer in the names they were asked about, and no split is adopted. */
  ghost predicate Lawful(cfg: Config, start: Run, world: World) {
    forall k: nat :: FaithfulAt(cfg, start, world, k) && SplitFreeAt(cfg, start, world, k)
  }

  lemma SoundIsWellLevelled(issues: seq<Issue>, levels: seq<seq<Name>>)
    ensures Sound(Fresh(issues, levels)) <==> WellLevelled(issues, levels)
  {
    var start := Fresh(issues, levels);
    LookupOfNames(issues);
    assert Done(start.dag) == {};
    hide LookupOf, Done;
    assert Known(levels, start.lookup) <==> forall n :: Listed(levels, n) ==> n in NameSet(issues) by {
      assert forall k, n :: 0 <= k < |levels| && n in levels[k] ==> Listed(levels, n);
    }
  }

  lemma SoundKeepsPromises(cfg: Config, start: Run, world: World)
    requires Sound(start) && Lawful(cfg, start, world)
    ensures KeepsPromises(cfg, start, world)
  {
    hide Sound, StateAt, FaithfulAt, SplitFreeAt, Starts, Done, Halted;
    forall k: nat
      ensures StartsInOrder(cfg, start, world, k) && EndsComplete(cfg, start, world, k)
    {
      var r := StateAt(cfg, start, world, k);
      forall n, d | && n in Starts(cfg, start, world, k) && n in r.lookup
                    && d in r.lookup[n].dependsOn && Listed(r.dag.levels, d)
        ensures d in Done(r.dag)
      {
        StartsAfterDependencies(cfg, start, world, k, n, d);
      }
      forall n | Halted(r) && r.status != ReplannerAbort && Listed(r.dag.levels, n)
        ensures n in Done(r.dag)
      {
        EndedRunIsComplete(cfg, start, world, k, n);
      }
    }
  }

  // ------------------------------------------------------------------------ the quiet world

  const NO_MERGE := MergeReply(true, [], [], false, [])

  /** Nobody gets a worktree, and every task ends in something that counts as completed. */
  const QUIET := PassInput(_ => false, SetupReply(false, []), _ => Neither, NoFault, _ => false, NO_MERGE, NO_MERGE,
                           Decision(Abort, [], [], [], []))

  ghost function QuietWorld(): World {
    _ => QUIET
  }

  lemma {:induction false} AllCompleted(rs: seq<IssueResult>)
    requires forall i :: 0 <= i < |rs| ==> rs[i].outcome == Completed && rs[i].branchName == ""
    ensures InBucket(rs, Success) == rs && InBucket(rs, Failure) == [] && InBucket(rs, Skip) == []
    ensures BranchesToMerge(rs) == []
  {
    if rs != [] {
      var k := |rs| - 1;
      AllCompleted(rs[..k]);
      assert rs == rs[..k] + [rs[k]];
    }
  }

  lemma QuietOutcome(cfg: Config, r: Run)
    requires !Halted(r)
    ensures Faithful(cfg, r, QUIET)
    ensures LevelOutcome(cfg, r, QUIET).failed == [] && BranchesToMerge(LevelOutcome(cfg, r, QUIET).completed) == []
    ensures !ThresholdHit(cfg, LevelOutcome(cfg, r, QUIET))
  {
    var rs := Results(Handed(cfg, r, QUIET), QUIET.reply);
    hide Handed, InBucket, BranchesToMerge;
    forall i | 0 <= i < |rs|
      ensures rs[i].outcome == Completed && rs[i].branchName == ""
    {
      assert rs[i] == ResultFor(Handed(cfg, r, QUIET)[i], Neither);
    }
    AllCompleted(rs);
  }

  lemma NothingToGate(cfg: Config, r: Run)
    requires !Halted(r)
    requires LevelOutcome(cfg, r, QUIET).failed == [] && BranchesToMerge(LevelOutcome(cfg, r, QUIET).completed) == []
    ensures !AfterSplits(cfg, r, QUIET).rewritten && AfterSplits(cfg, r, QUIET).lookup == r.lookup
    ensures var s, barrier := AfterSplits(cfg, r, QUIET).dag, AtBarrier(cfg, r, QUIET);
            && s.levels == r.dag.levels && s.level == r.dag.level && s.completed == barrier.completed
            && s.failed == barrier.failed && s.skipped == barrier.skipped
    ensures Decide(cfg, r, QUIET) == Advance(AfterSplits(cfg, r, QUIET).dag)
  {
    hide LevelOutcome, Apply, BranchesToMerge, DebtOf, Active;
  }

  /** A quiet pass moves on one level and completes whoever it starts. */
  lemma QuietPass(cfg: Config, r: Run)
    requires !Halted(r)
    ensures Faithful(cfg, r, QUIET) && SplitFree(cfg, r, QUIET)
    ensures var r' := Pass(cfg, r, QUIET);
            && r'.lookup == r.lookup && r'.status == Running
            && r'.dag.levels == r.dag.levels && r'.dag.level == r.dag.level + 1
            && Done(r'.dag) == Done(r.dag) + NameSet(Active(r))
  {
    QuietOutcome(cfg, r);
    NothingToGate(cfg, r);
    hide Faithful, Active, ThresholdHit, LevelOutcome, Done, AfterSplits, Decide, AtBarrier;
    var r' := Pass(cfg, r, QUIET);
    if Active(r) == [] {
      EmptyPass(cfg, r, QUIET);
      SameDone(r'.dag, r.dag);
      assert NameSet([]) == {};
    } else {
      SameDone(r'.dag, AtBarrier(cfg, r, QUIET));
      BarrierDone(cfg, r, QUIET);
    }
  }

  lemma BarrierDone(cfg: Config, r: Run, input: PassInput)
    requires !Halted(r) && Faithful(cfg, r, input)
    ensures Done(AtBarrier(cfg, r, input)) == Done(r.dag) + NameSet(Active(r))
  {
    hide Faithful, Active, Handed, Results, Classified;
    DoneAfterRecord(Launched(cfg, r, input).(inFlight := []), Results(Handed(cfg, r, input), input.reply));
    FaithfulResultNames(cfg, r, input);
    SameDone(Launched(cfg, r, input).(inFlight := []), r.dag);
  }

  /**
   * The quiet run from a fresh start: one level after the other, done with whom the levels so far and
   * the lookup name.
   */
  lemma {:induction false} QuietRun(cfg: Config, issues: seq<Issue>, levels: seq<seq<Name>>, k: nat)
    requires k <= |levels|
    ensures var r := StateAt(cfg, Fresh(issues, levels), QuietWorld(), k);
            && r.lookup == LookupOf(issues) && r.status == Running && r.dag.levels == levels && r.dag.level == k
            && forall n :: n in Done(r.dag) <==> Listed(levels[..k], n) && n in LookupOf(issues)
  {
    hide StateAt, Pass, LookupOf, Done, Active;
    var start := Fresh(issues, levels);
    NothingRunYet(cfg, start, QuietWorld());
    if k == 0 {
      NobodyDone(issues, levels);
    } else {
      QuietRun(cfg, issues, levels, k - 1);
      var r := StateAt(cfg, start, QuietWorld(), k - 1);
      Step(cfg, start, QuietWorld(), k - 1);
      QuietPass(cfg, r);
      LookupOfNames(issues);
      LevelBecomesDone(r, levels, k - 1);
    }
  }

  lemma NobodyDone(issues: seq<Issue>, levels: seq<seq<Name>>)
    ensures Done(Fresh(issues, levels).dag) == {}
  {
    assert ResultNames([]) == {};
  }

  lemma LevelBecomesDone(r: Run, levels: seq<seq<Name>>, k: nat)
    requires !Halted(r) && r.dag.levels == levels && r.dag.level == k && Named(r.lookup)
    requires forall n :: n in Done(r.dag) <==> Listed(levels[..k], n) && n in r.lookup
    ensures forall n :: n in Done(r.dag) + NameSet(Active(r)) <==> Listed(levels[..k + 1], n) && n in r.lookup
  {
    ActiveMembers(levels[k], r.lookup, Done(r.dag));
    hide Done, NameSet, ActiveAmong;
    forall n
      ensures Listed(levels[..k + 1], n) <==> Listed(levels[..k], n) || n in levels[k]
    {
      ListedSnoc(levels, k, n);
    }
  }

  lemma ListedSnoc(levels: seq<seq<Name>>, k: nat, n: Name)
    requires k < |levels|
    ensures Listed(levels[..k + 1], n) <==> Listed(levels[..k], n) || n in levels[k]
  {
    var more := levels[..k + 1];
    if n in levels[k] {
      assert more[k] == levels[k];
    }
    if j :| 0 <= j < k && n in levels[..k][j] {
      assert more[j] == levels[..k][j];
    }
    if j :| 0 <= j < k + 1 && n in more[j] {
      assert j < k ==> levels[..k][j] == more[j];
    }
  }

  lemma QuietIsLawful(cfg: Config, start: Run)
    ensures Lawful(cfg, start, QuietWorld())
  {
    hide StateAt, Faithful, SplitFree;
    forall k: nat
      ensures FaithfulAt(cfg, start, QuietWorld(), k) && SplitFreeAt(cfg, start, QuietWorld(), k)
    {
      var r := StateAt(cfg, start, QuietWorld(), k);
      if Halted(r) {
        HaltedNeverSplits(cfg, start, QuietWorld(), k);
      } else {
        QuietPass(cfg, r);
      }
    }
  }

  /** The first level that lists the name. */
  lemma {:induction false} FirstListing(levels: seq<seq<Name>>, n: Name, k: nat) returns (j: nat)
    requires k < |levels| && n in levels[k]
    ensures j <= k && n in levels[j] && !Listed(levels[..j], n)
  {
    if Listed(levels[..k], n) {
      var i :| 0 <= i < k && n in levels[..k][i];
      j := FirstListing(levels, n, i);
    } else {
      j := k;
    }
  }

  /** A badly ordered start: the quiet run starts the name before its listed dependency. */
  lemma QuietRunStartsEarly(cfg: Config, issues: seq<Issue>, levels: seq<seq<Name>>, k: nat, n: Name, d: Name)
    returns (j: nat)
    requires k < |levels| && n in levels[k] && DependsOn(issues, n, d) && Listed(levels, d) && !Listed(levels[..k], d)
    ensures j <= k && n in Starts(cfg, Fresh(issues, levels), QuietWorld(), j)
    ensures !StartsInOrder(cfg, Fresh(issues, levels), QuietWorld(), j)
  {
    j := FirstListing(levels, n, k);
    hide StateAt, LookupOf, Done, Active;
    QuietRun(cfg, issues, levels, j);
    LookupOfNames(issues);
    var r := StateAt(cfg, Fresh(issues, levels), QuietWorld(), j);
    StartsUndone(r, n);
    ListedEarlier(levels, j, k, d);
  }

  lemma ListedEarlier(levels: seq<seq<Name>>, j: nat, k: nat, n: Name)
    requires j <= k <= |levels|
    ensures Listed(levels[..j], n) ==> Listed(levels[..k], n)
  {
    if i :| 0 <= i < j && n in levels[..j][i] {
      assert levels[..k][i] == levels[..j][i];
    }
  }

  lemma StartsUndone(r: Run, n: Name)
    requires !Halted(r) && Named(r.lookup) && n in r.dag.levels[r.dag.level] && n in r.lookup && n !in Done(r.dag)
    ensures n in NamesOf(Active(r))
  {
    ActiveMembers(r.dag.levels[r.dag.level], r.lookup, Done(r.dag));
    assert n in NameSet(Active(r));
  }

  /** An unknown name is listed and never done, even when the run has ended. */
  lemma QuietRunLeavesUnknown(cfg: Config, issues: seq<Issue>, levels: seq<seq<Name>>, n: Name)
    requires Listed(levels, n) && n !in NameSet(issues)
    ensures !EndsComplete(cfg, Fresh(issues, levels), QuietWorld(), |levels|)
  {
    hide StateAt, LookupOf, Done;
    QuietRun(cfg, issues, levels, |levels|);
    LookupOfNames(issues);
  }

  lemma BadStartBreaksPromises(cfg: Config, issues: seq<Issue>, levels: seq<seq<Name>>)
    requires !WellLevelled(issues, levels)
    ensures !KeepsPromises(cfg, Fresh(issues, levels), QuietWorld())
  {
    hide StartsInOrder, EndsComplete, DependsOn, Fresh, QuietWorld, NameSet;
    if n :| Listed(levels, n) && n !in NameSet(issues) {
      QuietRunLeavesUnknown(cfg, issues, levels, n);
    } else {
      var k, n, d :| 0 <= k < |levels| && n in levels[k] && DependsOn(issues, n, d) && Listed(levels, d)
                     && !Listed(levels[..k], d);
      var j := QuietRunStartsEarly(cfg, issues, levels, k, n, d);
    }
  }

  /**
   * A start from any issues and levels is sound exactly if only known names are listed and
   * every listed dependency sits in an earlier level; and that is exactly what it takes
   * for dependencies to be done before every start, and for every run that ends to leave
   * nobody undone, in every lawful world.
   */
  lemma FreshStartIsSound(cfg: Config, issues: seq<Issue>, levels: seq<seq<Name>>)
    ensures Sound(Fresh(issues, levels)) <==> WellLevelled(issues, levels)
    ensures WellLevelled(issues, levels) <==>
              forall world: World ::
                Lawful(cfg, Fresh(issues, levels), world) ==> KeepsPromises(cfg, Fresh(issues, levels), world)
  {
    hide Lawful, KeepsPromises, WellLevelled, Sound, Fresh;
    SoundIsWellLevelled(issues, levels);
    if WellLevelled(issues, levels) {
      forall world: World | Lawful(cfg, Fresh(issues, levels), world)
        ensures KeepsPromises(cfg, Fresh(issues, levels), world)
      {
        SoundKeepsPromises(cfg, Fresh(issues, levels), world);
      }
    } else {
      QuietIsLawful(cfg, Fresh(issues, levels));
      BadStartBreaksPromises(cfg, issues, levels);
    }
  }

  // ------------------------------------------------------------ everything in one level

  lemma {:induction false} AllActive(names: seq<Name>, lookup: map<Name, Issue>)
    requires Named(lookup) && forall n :: n in names ==> n in lookup
    ensures NamesOf(ActiveAmong(names, lookup, {})) == names
  {
    if names != [] {
      var k := |names| - 1;
      AllActive(names[..k], lookup);
      NamesSnoc(ActiveAmong(names[..k], lookup, {}), lookup[names[k]]);
      assert names == names[..k] + [names[k]];
    }
  }

  /**
   * A plan of one level, whatever its issues depend on, is well levelled exactly if no
   * listed name depends on a listed name. Its first pass starts each name as often as it
   * is listed, so nobody twice exactly if no name repeats.
   */
  lemma OneLevelStart(cfg: Config, issues: seq<Issue>, names: seq<Name>, world: World)
    requires forall n :: n in names ==> n in NameSet(issues)
    ensures WellLevelled(issues, [names]) <==> forall n, d :: n in names && d in names ==> !DependsOn(issues, n, d)
    ensures Starts(cfg, Fresh(issues, [names]), world, 0) == names
    ensures Distinct(Starts(cfg, Fresh(issues, [names]), world, 0)) <==> LevelsDistinct([names])
  {
    LookupOfNames(issues);
    NobodyDone(issues, [names]);
    AllActive(names, LookupOf(issues));
    NothingRunYet(cfg, Fresh(issues, [names]), world);
    OneLevelOrder(issues, names);
    hide LookupOf, Done, ActiveAmong, WellLevelled, StateAt;
    assert [names][0] == names;
  }

  lemma OneLevelOrder(issues: seq<Issue>, names: seq<Name>)
    requires forall n :: n in names ==> n in NameSet(issues)
    ensures WellLevelled(issues, [names]) <==> forall n, d :: n in names && d in names ==> !DependsOn(issues, n, d)
  {
    hide DependsOn, NameSet;
    assert [names][0] == names;
    assert forall n :: n in names <==> Listed([names], n);
    assert forall d :: !Listed([names][..0], d);
  }
}
