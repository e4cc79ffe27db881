// Publishing runs on disk: an immutable bundle first, the state manifest last,
// with a failure possible at every named stage.
module Publication {
  import opened Results
  import opened Orders
  import opened Framing
  import opened Records
  import opened Ingest
  import opened Builds
  import Tackler

  datatype Stage = AfterReport | AfterJournal | BeforeBundleCommit | BeforeStateCommit

  datatype Bundle = Bundle(report: Report, journal: Option<string>)

  datatype Disk = Disk(manifest: Option<State>, bundles: map<Digest, Bundle>)

  const EMPTY_DISK := Disk(None, map[])

  datatype RunError = Unreadable(error: BuildError) | NotBuilt(error: BuildError) | FailedAt(stage: Stage) | BundleConflict

  // One attempted run: its input, its export mode and the stages failing in it.
  datatype Event = Event(input: Bytes, mode: Tackler.OmittedAmounts, fails: set<Stage>)

  function BundleOf(a: Artifact): Bundle {
    Bundle(a.report, if a.journal == "" then None else Some(a.journal))
  }

  // ------------------------------------------------------------ one run

  ghost function Loaded(disk: Disk): Result<State, BuildError> {
    if disk.manifest.None? then Ok(EMPTY_STATE)
    else
      var s := disk.manifest.value;
      if s.schemaVersion != STATE_SCHEMA_VERSION then Err(UnsupportedStateVersion)
      else if GoodIdentities(s.identities) && Increasing(s.identities, IdentityLess) then Ok(s)
      else Err(InvalidState)
  }

  // publish, up to the manifest.
  ghost function WithBundle(disk: Disk, a: Artifact, fails: set<Stage>): Result<Disk, RunError> {
    if a.runIdentity in disk.bundles
    then if disk.bundles[a.runIdentity] == BundleOf(a) then Ok(disk) else Err(BundleConflict)
    else if AfterReport in fails then Err(FailedAt(AfterReport))
    else if a.journal != "" && AfterJournal in fails then Err(FailedAt(AfterJournal))
    else if BeforeBundleCommit in fails then Err(FailedAt(BeforeBundleCommit))
    else Ok(disk.(bundles := disk.bundles[a.runIdentity := BundleOf(a)]))
  }

  datatype Ran = Ran(disk: Disk, result: Result<Artifact, RunError>)

  ghost function Publish(disk: Disk, state: State, a: Artifact, fails: set<Stage>): Ran {
    var bundled := WithBundle(disk, a, fails);
    if bundled.Err? then Ran(disk, Err(bundled.error))
    else if a.nextState.generation == state.generation then Ran(bundled.value, Ok(a))
    else if BeforeStateCommit in fails then Ran(bundled.value, Err(FailedAt(BeforeStateCommit)))
    else Ran(bundled.value.(manifest := Some(a.nextState)), Ok(a))
  }

  ghost function RunOn(world: World, disk: Disk, e: Event): Ran {
    var state := Loaded(disk);
    if state.Err? then Ran(disk, Err(Unreadable(state.error)))
    else
      var built := BuildOn(world, e.input, state.value, e.mode);
      if built.Err? then Ran(disk, Err(NotBuilt(built.error))) else Publish(disk, state.value, built.value, e.fails)
  }

  // The files under the output root.
  class OutputRoot {
    var manifest: Option<State>
    var bundles: map<Digest, Bundle>

    function Contents(): Disk
      reads this
    {
      Disk(manifest, bundles)
    }

    constructor ()
      ensures Contents() == EMPTY_DISK
    {
      manifest, bundles := None, map[];
    }

    method LoadState() returns (r: Result<State, BuildError>)
      ensures r == Loaded(Contents())
    {
      hide IdentityLess, GoodIdentities;
      if manifest.None? {
        return Ok(EMPTY_STATE);
      }
      r := DecodeState(manifest.value);
    }

    // verifyExistingBundle
    method VerifyExistingBundle(a: Artifact) returns (same: bool)
      requires a.runIdentity in bundles
      ensures same <==> bundles[a.runIdentity] == BundleOf(a)
    {
      var bundle := bundles[a.runIdentity];
      if bundle.report != a.report {
        return false;
      }
      if a.journal == "" {
        return bundle.journal.None?;
      }
      return bundle.journal == Some(a.journal);
    }

    // publishNewBundle: the files are written aside and appear with one rename.
    method PublishNewBundle(a: Artifact, fails: set<Stage>) returns (failed: Option<RunError>)
      requires a.runIdentity !in bundles
      modifies this`bundles
      ensures failed.Some? ==> bundles == old(bundles) && WithBundle(old(Contents()), a, fails) == Err(failed.value)
      ensures failed.None? ==> WithBundle(old(Contents()), a, fails) == Ok(Contents())
    {
      var temporary := Bundle(a.report, None);
      if AfterReport in fails {
        return Some(FailedAt(AfterReport));
      }
      if a.journal != "" {
        temporary := temporary.(journal := Some(a.journal));
        if AfterJournal in fails {
          return Some(FailedAt(AfterJournal));
        }
      }
      if BeforeBundleCommit in fails {
        return Some(FailedAt(BeforeBundleCommit));
      }
      bundles := bundles[a.runIdentity := temporary];
      return None;
    }

    // runWithHooks
    method Run(world: World, e: Event) returns (r: Result<Artifact, RunError>)
      modifies this
      ensures Ran(Contents(), r) == RunOn(world, old(Contents()), e)
    {
      hide Loaded, BuildOn;
      var state := LoadState();
      if state.Err? {
        return Err(Unreadable(state.error));
      }
      var built := Build(world, e.input, state.value, e.mode);
      if built.Err? {
        return Err(NotBuilt(built.error));
      }
      var a := built.value;
      if a.runIdentity in bundles {
        var same := VerifyExistingBundle(a);
        if !same {
          return Err(BundleConflict);
        }
      } else {
        var failed := PublishNewBundle(a, e.fails);
        if failed.Some? {
          return Err(failed.value);
        }
      }
      if a.nextState.generation != state.value.generation {
        if BeforeStateCommit in e.fails {
          return Err(FailedAt(BeforeStateCommit));
        }
        manifest := Some(a.nextState);
      }
      return Ok(a);
    }
  }

  // ----------------------------------------------------------- whole histories

  // The disk after a sequence of runs, each succeeding or failing somewhere.
  ghost function Play(world: World, events: seq<Event>): Disk {
    if events == [] then EMPTY_DISK else RunOn(world, Play(world, events[..|events| - 1]), events[|events| - 1]).disk
  }

  function Current(disk: Disk): State {
    if disk.manifest.None? then EMPTY_STATE else disk.manifest.value
  }

  // The runs that replaced the manifest.
  ghost function Commits(world: World, events: seq<Event>): seq<Event> {
    if events == [] then []
    else
      var front, last := events[..|events| - 1], events[|events| - 1];
      if Play(world, events).manifest != Play(world, front).manifest then Commits(world, front) + [last]
      else Commits(world, front)
  }

  // The state after the first k of the committed runs.
  ghost function StateAt(world: World, commits: seq<Event>, k: nat): State
    requires k <= |commits|
  {
    if k == 0 then EMPTY_STATE
    else
      var before, e := StateAt(world, commits, k - 1), commits[k - 1];
      var built := BuildOn(world, e.input, before, e.mode);
      if built.Ok? then built.value.nextState else before
  }

  // Every committed run built and accepted something new.
  ghost predicate GrowsAt(world: World, commits: seq<Event>, k: nat)
    requires k < |commits|
  {
    var before, e := StateAt(world, commits, k), commits[k];
    GoodState(before) && BuildOn(world, e.input, before, e.mode).Ok? && Gained(world, e.input, before) != {}
  }

  ghost predicate GoodCommits(world: World, commits: seq<Event>) {
    forall k | 0 <= k < |commits| :: GrowsAt(world, commits, k)
  }

  // The bundle a run on the k-th state leaves behind.
  ghost predicate Explains(
    world: World, commits: seq<Event>, id: Digest, bundle: Bundle, input: Bytes, mode: Tackler.OmittedAmounts, k: nat)
  {
    && k <= |commits| && ShortDigest(world.env, input)
    && var built := BuildOn(world, input, StateAt(world, commits, k), mode);
    built.Ok? && built.value.runIdentity == id && BundleOf(built.value) == bundle
  }

  ghost predicate SelfWritten(world: World, commits: seq<Event>, bundles: map<Digest, Bundle>) {
    forall id | id in bundles :: exists input, mode, k :: Explains(world, commits, id, bundles[id], input, mode, k)
  }

  // The bundle of every committed run is on disk.
  ghost predicate BundleKept(world: World, commits: seq<Event>, bundles: map<Digest, Bundle>, k: nat)
    requires k < |commits|
  {
    var built := BuildOn(world, commits[k].input, StateAt(world, commits, k), commits[k].mode);
    built.Ok? && built.value.runIdentity in bundles && bundles[built.value.runIdentity] == BundleOf(built.value)
  }

  ghost predicate BundlesKept(world: World, commits: seq<Event>, bundles: map<Digest, Bundle>) {
    forall k | 0 <= k < |commits| :: BundleKept(world, commits, bundles, k)
  }

  // What holds of the disk after any history.
  ghost predicate Consistent(world: World, disk: Disk, commits: seq<Event>) {
    && GoodState(Current(disk)) && Current(disk) == StateAt(world, commits, |commits|)
    && (disk.manifest.None? <==> commits == [])
    && GoodCommits(world, commits) && SelfWritten(world, commits, disk.bundles) && BundlesKept(world, commits, disk.bundles)
  }

  ghost predicate Hashable(world: World, events: seq<Event>) {
    InjectiveSha(world.env) && forall e | e in events :: ShortDigest(world.env, e.input)
  }

  // -------------------------------------------------- states of the history

  lemma EmptyIsGood()
    ensures GoodState(EMPTY_STATE)
  {
  }

  lemma {:induction false} StatePrefix(world: World, commits: seq<Event>, more: seq<Event>, k: nat)
    requires k <= |commits|
    ensures StateAt(world, commits + more, k) == StateAt(world, commits, k)
  {
    hide BuildOn;
    if k > 0 {
      StatePrefix(world, commits, more, k - 1);
      assert (commits + more)[k - 1] == commits[k - 1];
    }
  }

  lemma StepState(world: World, commits: seq<Event>, k: nat)
    requires k < |commits| && GrowsAt(world, commits, k)
    ensures var s, t := StateAt(world, commits, k), StateAt(world, commits, k + 1);
            && GoodState(s) && GoodState(t)
            && SetOf(t.identities) == SetOf(s.identities) + Gained(world, commits[k].input, s)
            && Gained(world, commits[k].input, s) !! SetOf(s.identities)
            && t.generation == NextGeneration(s.generation)
  {
    hide BuildOn, GoodState, SetOf, Gained;
    BuildAdds(world, commits[k].input, StateAt(world, commits, k), commits[k].mode);
  }

  // The generation counts the commits, as far as 64 bits go.
  lemma {:induction false} GenerationIsCount(world: World, commits: seq<Event>, k: nat)
    requires GoodCommits(world, commits) && k <= |commits|
    ensures StateAt(world, commits, k).generation == k % GENERATIONS
  {
    hide GrowsAt, StateAt;
    if k == 0 {
      assert StateAt(world, commits, 0) == EMPTY_STATE by { FirstState(world, commits); }
    } else {
      GenerationIsCount(world, commits, k - 1);
      StepState(world, commits, k - 1);
      ModStep(k - 1);
    }
  }

  lemma FirstState(world: World, commits: seq<Event>)
    ensures StateAt(world, commits, 0) == EMPTY_STATE
  {
  }

  lemma ModStep(k: nat)
    ensures (k % GENERATIONS + 1) % GENERATIONS == (k + 1) % GENERATIONS
  {
    var q := k / GENERATIONS;
    assert k == q * GENERATIONS + k % GENERATIONS;
    if k % GENERATIONS + 1 == GENERATIONS {
      assert k + 1 == (q + 1) * GENERATIONS;
    } else {
      assert k + 1 == q * GENERATIONS + (k % GENERATIONS + 1);
    }
  }

  // Identities are only ever added.
  lemma {:induction false} StatesGrow(world: World, commits: seq<Event>, i: nat, j: nat)
    requires GoodCommits(world, commits) && i <= j <= |commits|
    ensures SetOf(StateAt(world, commits, i).identities) <= SetOf(StateAt(world, commits, j).identities)
    ensures i < j ==> SetOf(StateAt(world, commits, i).identities) != SetOf(StateAt(world, commits, j).identities)
    decreases j - i
  {
    hide StateAt, SetOf, GoodState, Gained, BuildOn;
    if i < j {
      StatesGrow(world, commits, i, j - 1);
      assert GrowsAt(world, commits, j - 1);
      StepState(world, commits, j - 1);
    }
  }

  // ------------------------------------------------------ the invariant is kept

  lemma LoadsCurrent(disk: Disk)
    requires GoodState(Current(disk))
    ensures Loaded(disk) == Ok(Current(disk))
  {
    hide IdentityLess;
  }

  lemma SmallCount(world: World, commits: seq<Event>, k: nat)
    requires GoodCommits(world, commits) && k <= |commits| < GENERATIONS
    ensures StateAt(world, commits, k).generation == k
  {
    hide GrowsAt, StateAt;
    GenerationIsCount(world, commits, k);
  }

  // Runs on one state and another that happen to get the same name are the
  // same run, so what they publish is the same.
  lemma SameRunSameBundle(
    world: World, commits: seq<Event>, id: Digest, bundle: Bundle, input: Bytes, mode: Tackler.OmittedAmounts, k: nat, e: Event)
    requires InjectiveSha(world.env) && ShortDigest(world.env, e.input) && GoodCommits(world, commits)
    requires |commits| < GENERATIONS && Explains(world, commits, id, bundle, input, mode, k)
    requires var built := BuildOn(world, e.input, StateAt(world, commits, |commits|), e.mode);
             built.Ok? && built.value.runIdentity == id
    ensures bundle == BundleOf(BuildOn(world, e.input, StateAt(world, commits, |commits|), e.mode).value)
  {
    hide StateAt, BundleOf, GoodCommits, BuildOn, ShortDigest, InjectiveSha, RunIdentity;
    SmallCount(world, commits, k);
    SmallCount(world, commits, |commits|);
    NameOfRun(world, input, StateAt(world, commits, k), mode);
    NameOfRun(world, e.input, StateAt(world, commits, |commits|), e.mode);
    RunIdentityDecides(world.env, input, k, mode, e.input, |commits|, e.mode);
  }

  lemma NameOfRun(world: World, input: Bytes, state: State, mode: Tackler.OmittedAmounts)
    requires BuildOn(world, input, state, mode).Ok?
    ensures BuildOn(world, input, state, mode).value.runIdentity == RunIdentity(world.env, input, state.generation, mode)
  {
    hide RunIdentity, OutcomesOf, Canonical, GoodIdentities, Resolved, NextState, Journal, AnyFailed;
  }

  // The existing bundle never conflicts with the one about to be published.
  lemma NoConflict(world: World, disk: Disk, commits: seq<Event>, e: Event)
    requires InjectiveSha(world.env) && ShortDigest(world.env, e.input)
    requires Consistent(world, disk, commits) && |commits| < GENERATIONS
    ensures RunOn(world, disk, e).result != Err(BundleConflict)
    ensures BuildOn(world, e.input, Current(disk), e.mode).Ok? ==>
              var a := BuildOn(world, e.input, Current(disk), e.mode).value;
              a.runIdentity in disk.bundles ==> disk.bundles[a.runIdentity] == BundleOf(a)
  {
    hide StateAt, BundleOf, BuildOn, ShortDigest, InjectiveSha, GoodCommits, BundlesKept, Explains, GoodState;
    LoadsCurrent(disk);
    var built := BuildOn(world, e.input, Current(disk), e.mode);
    if built.Ok? && built.value.runIdentity in disk.bundles {
      var id := built.value.runIdentity;
      var input, mode, k :| Explains(world, commits, id, disk.bundles[id], input, mode, k);
      SameRunSameBundle(world, commits, id, disk.bundles[id], input, mode, k, e);
    }
  }

  lemma SelfWrittenMore(world: World, commits: seq<Event>, e: Event, bundles: map<Digest, Bundle>)
    requires SelfWritten(world, commits, bundles)
    ensures SelfWritten(world, commits + [e], bundles)
  {
    hide StateAt, BundleOf, BuildOn, ShortDigest;
    forall id | id in bundles
      ensures exists input, mode, k :: Explains(world, commits + [e], id, bundles[id], input, mode, k)
    {
      var input, mode, k :| Explains(world, commits, id, bundles[id], input, mode, k);
      StatePrefix(world, commits, [e], k);
      assert Explains(world, commits + [e], id, bundles[id], input, mode, k);
    }
  }

  lemma SelfWrittenAdd(world: World, commits: seq<Event>, e: Event, bundles: map<Digest, Bundle>)
    requires SelfWritten(world, commits, bundles) && ShortDigest(world.env, e.input)
    requires BuildOn(world, e.input, StateAt(world, commits, |commits|), e.mode).Ok?
    ensures var a := BuildOn(world, e.input, StateAt(world, commits, |commits|), e.mode).value;
            SelfWritten(world, commits, bundles[a.runIdentity := BundleOf(a)])
  {
    hide StateAt, BundleOf, BuildOn, ShortDigest;
    var a := BuildOn(world, e.input, StateAt(world, commits, |commits|), e.mode).value;
    var more := bundles[a.runIdentity := BundleOf(a)];
    forall id | id in more
      ensures exists input, mode, k :: Explains(world, commits, id, more[id], input, mode, k)
    {
      if id == a.runIdentity {
        assert Explains(world, commits, id, more[id], e.input, e.mode, |commits|);
      } else {
        assert more[id] == bundles[id];
      }
    }
  }

  lemma KeptMore(world: World, commits: seq<Event>, e: Event, bundles: map<Digest, Bundle>)
    requires BundlesKept(world, commits, bundles)
    requires var built := BuildOn(world, e.input, StateAt(world, commits, |commits|), e.mode);
             built.Ok? && built.value.runIdentity in bundles && bundles[built.value.runIdentity] == BundleOf(built.value)
    ensures BundlesKept(world, commits + [e], bundles)
  {
    hide StateAt, BundleOf, BuildOn;
    forall k | 0 <= k < |commits| + 1
      ensures BundleKept(world, commits + [e], bundles, k)
    {
      StatePrefix(world, commits, [e], k);
      if k < |commits| {
        assert BundleKept(world, commits, bundles, k);
        assert (commits + [e])[k] == commits[k];
      }
    }
  }

  lemma GoodMore(world: World, commits: seq<Event>, e: Event)
    requires GoodCommits(world, commits)
    requires var s := StateAt(world, commits, |commits|);
             GoodState(s) && BuildOn(world, e.input, s, e.mode).Ok? && Gained(world, e.input, s) != {}
    ensures GoodCommits(world, commits + [e])
    ensures StateAt(world, commits + [e], |commits| + 1) ==
            BuildOn(world, e.input, StateAt(world, commits, |commits|), e.mode).value.nextState
  {
    hide BuildOn, GoodState, Gained;
    forall k | 0 <= k < |commits| + 1
      ensures GrowsAt(world, commits + [e], k)
    {
      StatePrefix(world, commits, [e], k);
      if k < |commits| {
        assert GrowsAt(world, commits, k);
        assert (commits + [e])[k] == commits[k];
      }
    }
    StatePrefix(world, commits, [e], |commits|);
  }

  // The bundles after publishing: unchanged, or with the run's own bundle.
  lemma BundlesAfter(disk: Disk, a: Artifact, fails: set<Stage>)
    requires a.runIdentity in disk.bundles ==> disk.bundles[a.runIdentity] == BundleOf(a)
    ensures var r := WithBundle(disk, a, fails);
            && (r.Ok? ==> r.value == disk.(bundles := disk.bundles[a.runIdentity := BundleOf(a)]))
            && (r.Err? ==> r.error.FailedAt? && r.error.stage in fails && r.error.stage != BeforeStateCommit)
  {
    hide BundleOf;
    if a.runIdentity in disk.bundles {
      assert disk.bundles[a.runIdentity := BundleOf(a)] == disk.bundles;
    }
  }

  // The two ways the disk can change in one run.
  lemma RunChanges(world: World, disk: Disk, commits: seq<Event>, e: Event)
    requires InjectiveSha(world.env) && ShortDigest(world.env, e.input)
    requires Consistent(world, disk, commits) && |commits| < GENERATIONS
    ensures var after := RunOn(world, disk, e).disk;
            var built := BuildOn(world, e.input, Current(disk), e.mode);
            after == disk || (built.Ok? && var a := built.value;
              && after.bundles == disk.bundles[a.runIdentity := BundleOf(a)]
              && (after.manifest == disk.manifest
                  || (after.manifest == Some(a.nextState) && a.nextState.generation != Current(disk).generation)))
  {
    hide BundleOf, BuildOn, ShortDigest, InjectiveSha, Consistent, WithBundle;
    NoConflict(world, disk, commits, e);
    LoadsCurrentOf(world, disk, commits);
    var built := BuildOn(world, e.input, Current(disk), e.mode);
    if built.Ok? {
      BundlesAfter(disk, built.value, e.fails);
    }
  }

  lemma LoadsCurrentOf(world: World, disk: Disk, commits: seq<Event>)
    requires Consistent(world, disk, commits)
    ensures Loaded(disk) == Ok(Current(disk)) && GoodState(Current(disk))
    ensures Current(disk) == StateAt(world, commits, |commits|)
  {
    LoadsCurrent(disk);
  }

  lemma ConsistentStep(world: World, disk: Disk, commits: seq<Event>, e: Event)
    requires InjectiveSha(world.env) && ShortDigest(world.env, e.input)
    requires Consistent(world, disk, commits) && |commits| < GENERATIONS
    ensures var after := RunOn(world, disk, e).disk;
            Consistent(world, after, if after.manifest != disk.manifest then commits + [e] else commits)
  {
    hide BundleOf, BuildOn, ShortDigest, InjectiveSha, RunOn, GoodState, StateAt, GoodCommits, SelfWritten, BundlesKept, Gained, SetOf;
    RunChanges(world, disk, commits, e);
    var after := RunOn(world, disk, e).disk;
    var s := Current(disk);
    if after != disk {
      var a := BuildOn(world, e.input, s, e.mode).value;
      SelfWrittenAdd(world, commits, e, disk.bundles);
      KeptAdd(world, disk, commits, e, a);
      if after.manifest != disk.manifest {
        BuildAdds(world, e.input, s, e.mode);
        SelfWrittenMore(world, commits, e, after.bundles);
        GoodMore(world, commits, e);
        KeptMore(world, commits, e, after.bundles);
      }
    }
  }

  lemma KeptAdd(world: World, disk: Disk, commits: seq<Event>, e: Event, a: Artifact)
    requires InjectiveSha(world.env) && ShortDigest(world.env, e.input)
    requires Consistent(world, disk, commits) && |commits| < GENERATIONS
    requires BuildOn(world, e.input, Current(disk), e.mode) == Ok(a)
    ensures BundlesKept(world, commits, disk.bundles[a.runIdentity := BundleOf(a)])
  {
    hide BundleOf, BuildOn, ShortDigest, InjectiveSha, GoodState, StateAt, GoodCommits, SelfWritten;
    NoConflict(world, disk, commits, e);
    var more := disk.bundles[a.runIdentity := BundleOf(a)];
    forall k | 0 <= k < |commits|
      ensures BundleKept(world, commits, more, k)
    {
      assert BundleKept(world, commits, disk.bundles, k);
    }
  }

  lemma StartConsistent(world: World)
    ensures Consistent(world, EMPTY_DISK, [])
  {
    EmptyIsGood();
  }

  lemma CommitsGrow(world: World, events: seq<Event>)
    requires events != []
    ensures |Commits(world, events[..|events| - 1])| <= |Commits(world, events)|
    ensures Commits(world, events) ==
            if Play(world, events).manifest != Play(world, events[..|events| - 1]).manifest
            then Commits(world, events[..|events| - 1]) + [events[|events| - 1]] else Commits(world, events[..|events| - 1])
    ensures Play(world, events) == RunOn(world, Play(world, events[..|events| - 1]), events[|events| - 1]).disk
  {
    hide RunOn;
  }

  // Every history of runs, failing wherever they like, leaves a consistent disk.
  lemma {:induction false} HistoryConsistent(world: World, events: seq<Event>)
    requires Hashable(world, events) && |Commits(world, events)| < GENERATIONS
    ensures Consistent(world, Play(world, events), Commits(world, events))
  {
    hide RunOn, Consistent, ShortDigest, InjectiveSha, Play, Commits;
    if events == [] {
      StartConsistent(world);
      NoHistory(world);
    } else {
      var front, last := events[..|events| - 1], events[|events| - 1];
      assert events == front + [last];
      CommitsGrow(world, events);
      HistoryConsistent(world, front);
      ConsistentStep(world, Play(world, front), Commits(world, front), last);
    }
  }

  lemma NoHistory(world: World)
    ensures Play(world, []) == EMPTY_DISK && Commits(world, []) == []
  {
  }

  // ------------------------------------------------------------- the promises

  // Equal generations mean equal identities as long as fewer than 2^64 runs
  // committed, and not beyond: the 64-bit counter then starts over.
  lemma EqualGenerationsIff(world: World, commits: seq<Event>)
    requires GoodCommits(world, commits)
    ensures (forall i: nat, j: nat | i <= |commits| && j <= |commits| &&
               StateAt(world, commits, i).generation == StateAt(world, commits, j).generation ::
               SetOf(StateAt(world, commits, i).identities) == SetOf(StateAt(world, commits, j).identities))
       <==> |commits| < 0x1_0000_0000_0000_0000
  {
    hide StateAt, SetOf, GoodCommits, GrowsAt;
    if |commits| < GENERATIONS {
      forall i: nat, j: nat | i <= |commits| && j <= |commits| &&
        StateAt(world, commits, i).generation == StateAt(world, commits, j).generation
        ensures SetOf(StateAt(world, commits, i).identities) == SetOf(StateAt(world, commits, j).identities)
      {
        SmallCount(world, commits, i);
        SmallCount(world, commits, j);
      }
    } else {
      GenerationIsCount(world, commits, 0);
      GenerationIsCount(world, commits, GENERATIONS);
      StatesGrow(world, commits, 0, GENERATIONS);
    }
  }

  // Where the counter starts over: after generation 2^64 - 1 a growing run
  // writes a state that carries the generation of the empty state.
  lemma CounterStartsOver(world: World, input: Bytes, state: State, mode: Tackler.OmittedAmounts)
    requires GoodState(state) && state.generation == 0xFFFF_FFFF_FFFF_FFFF
    requires BuildOn(world, input, state, mode).Ok? && Gained(world, input, state) != {}
    ensures var next := BuildOn(world, input, state, mode).value.nextState;
            next.generation == 0 && next.identities != []
  {
    hide BuildOn, GoodState, Gained;
    BuildAdds(world, input, state, mode);
  }

  lemma {:induction false} CommitsPrefix(world: World, events: seq<Event>, m: nat)
    requires m <= |events|
    ensures Commits(world, events[..m]) <= Commits(world, events)
  {
    hide RunOn, Commits, Play;
    if m < |events| {
      CommitsGrow(world, events);
      CommitsPrefix(world, events[..|events| - 1], m);
      assert events[..|events| - 1][..m] == events[..m];
    } else {
      assert events[..m] == events;
    }
  }

  // What the manifest holds at any moment of a history is a state of its
  // commit sequence.
  lemma MomentIsState(world: World, events: seq<Event>, m: nat)
    requires Hashable(world, events) && |Commits(world, events)| < GENERATIONS && m <= |events|
    ensures |Commits(world, events[..m])| <= |Commits(world, events)|
    ensures Current(Play(world, events[..m])) == StateAt(world, Commits(world, events), |Commits(world, events[..m])|)
  {
    hide Commits, Play, StateAt, InjectiveSha, ShortDigest, GoodState, GoodCommits, SelfWritten, BundlesKept;
    CommitsPrefix(world, events, m);
    HistoryConsistent(world, events[..m]);
    var some, all := Commits(world, events[..m]), Commits(world, events);
    assert all == some + all[|some|..];
    StatePrefix(world, some, all[|some|..], |some|);
  }

  // At any two moments of any history, equal generations mean equal identities.
  lemma EqualGenerations(world: World, events: seq<Event>, m: nat, n: nat)
    requires Hashable(world, events) && |Commits(world, events)| < GENERATIONS && m <= |events| && n <= |events|
    requires Current(Play(world, events[..m])).generation == Current(Play(world, events[..n])).generation
    ensures Current(Play(world, events[..m])).identities == Current(Play(world, events[..n])).identities
  {
    hide Commits, Play, StateAt, InjectiveSha, ShortDigest, GoodState, GoodCommits, SelfWritten, BundlesKept;
    MomentIsState(world, events, m);
    MomentIsState(world, events, n);
    HistoryConsistent(world, events);
    SmallCount(world, Commits(world, events), |Commits(world, events[..m])|);
    SmallCount(world, Commits(world, events), |Commits(world, events[..n])|);
  }

  // No run ever finds its bundle name taken by different content.
  lemma NeverConflicts(world: World, events: seq<Event>, e: Event)
    requires Hashable(world, events + [e]) && |Commits(world, events)| < GENERATIONS
    ensures RunOn(world, Play(world, events), e).result != Err(BundleConflict)
  {
    hide Commits, Play, InjectiveSha, ShortDigest, RunOn, Consistent;
    assert e in events + [e];
    assert forall x | x in events :: x in events + [e];
    HistoryConsistent(world, events);
    NoConflict(world, Play(world, events), Commits(world, events), e);
  }

  ghost function GainedAt(world: World, commits: seq<Event>, k: nat): set<RecordIdentity>
    requires k < |commits|
  {
    Gained(world, commits[k].input, StateAt(world, commits, k))
  }

  // The committed identities are exactly those the committed runs accepted.
  lemma {:induction false} IdentitiesAreGained(world: World, commits: seq<Event>, k: nat, id: RecordIdentity)
    requires GoodCommits(world, commits) && k <= |commits|
    ensures id in SetOf(StateAt(world, commits, k).identities) <==> exists i :: 0 <= i < k && id in GainedAt(world, commits, i)
  {
    hide StateAt, GrowsAt, SetOf, Gained;
    if k == 0 {
      FirstState(world, commits);
      assert SetOf(EMPTY_STATE.identities) == {} by { NothingInEmpty(); }
    } else {
      IdentitiesAreGained(world, commits, k - 1, id);
      StepState(world, commits, k - 1);
      assert id in SetOf(StateAt(world, commits, k).identities) <==>
             id in SetOf(StateAt(world, commits, k - 1).identities) || id in GainedAt(world, commits, k - 1);
    }
  }

  lemma NothingInEmpty()
    ensures SetOf(EMPTY_STATE.identities) == {}
  {
  }

  // Runs whose manifest was replaced accept pairwise disjoint identities.
  lemma CommitsDisjoint(world: World, commits: seq<Event>, i: nat, j: nat)
    requires GoodCommits(world, commits) && i < j < |commits|
    ensures GainedAt(world, commits, i) !! GainedAt(world, commits, j)
  {
    hide StateAt, GrowsAt, SetOf, Gained;
    StepState(world, commits, i);
    StepState(world, commits, j);
    StatesGrow(world, commits, i + 1, j);
  }

  // A report that accepts a record.
  ghost predicate ReportAccepts(bundle: Bundle, id: RecordIdentity) {
    exists i :: 0 <= i < |bundle.report.outcomes| && Accepted(bundle.report.outcomes[i]) && bundle.report.outcomes[i].identity == id
  }

  lemma GainedIsReported(world: World, input: Bytes, state: State, mode: Tackler.OmittedAmounts, id: RecordIdentity)
    requires GoodState(state) && BuildOn(world, input, state, mode).Ok? && id in Gained(world, input, state)
    ensures ReportAccepts(BundleOf(BuildOn(world, input, state, mode).value), id)
  {
    hide OutcomesOf, OutcomeOf, GoodState, SetOf, NextState, CanonicalState, RunIdentity, Journal, AnyFailed, Resolved, Accepted;
    GoodIsCanonical(state);
    var records, committed := Resolved(world.env, world.decode(input).value), SetOf(state.identities);
    var i :| 0 <= i < |records| && Accepted(OutcomeOf(records, committed, i)) && records[i].identity == id;
    OutcomeAt(records, committed, |records|, i);
    OutcomeIdentity(records, committed, i);
    var outcomes := BundleOf(BuildOn(world, input, state, mode).value).report.outcomes;
    assert outcomes == OutcomesOf(records, committed, |records|);
  }

  // Every identity in the manifest was accepted in a published bundle.
  lemma ManifestIsExplained(world: World, events: seq<Event>, id: RecordIdentity)
    requires Hashable(world, events) && |Commits(world, events)| < GENERATIONS
    requires id in Current(Play(world, events)).identities
    ensures exists run :: run in Play(world, events).bundles && ReportAccepts(Play(world, events).bundles[run], id)
  {
    hide Commits, Play, StateAt, InjectiveSha, ShortDigest, GoodState, SelfWritten, BuildOn, BundleOf, ReportAccepts, Gained, GrowsAt;
    HistoryConsistent(world, events);
    var disk, commits := Play(world, events), Commits(world, events);
    assert id in SetOf(StateAt(world, commits, |commits|).identities);
    IdentitiesAreGained(world, commits, |commits|, id);
    var k :| 0 <= k < |commits| && id in GainedAt(world, commits, k);
    StepState(world, commits, k);
    assert BundleKept(world, commits, disk.bundles, k);
    GainedIsReported(world, commits[k].input, StateAt(world, commits, k), commits[k].mode, id);
  }

  // A run that failed anywhere, retried at once without failures, completes:
  // it builds the same artifact, its bundle is on disk, and the manifest moves
  // exactly when something was accepted.
  lemma RetryCompletes(world: World, events: seq<Event>, e: Event)
    requires Hashable(world, events + [e]) && |Commits(world, events)| < GENERATIONS
    requires var ran := RunOn(world, Play(world, events), e); ran.result.Err? && ran.result.error.FailedAt?
    ensures var failed := RunOn(world, Play(world, events), e);
            var a := BuildOn(world, e.input, Current(Play(world, events)), e.mode);
            var retry := RunOn(world, failed.disk, e.(fails := {}));
            && a.Ok? && retry.result == Ok(a.value)
            && retry.disk.bundles == Play(world, events).bundles[a.value.runIdentity := BundleOf(a.value)]
            && (failed.result.error.stage == BeforeStateCommit ==> retry.disk.bundles == failed.disk.bundles)
            && retry.disk.manifest == (if Gained(world, e.input, Current(Play(world, events))) == {}
                                       then Play(world, events).manifest else Some(a.value.nextState))
  {
    hide Commits, Play, InjectiveSha, ShortDigest, Consistent, BuildOn, BundleOf, SetOf, GoodState, Gained;
    assert e in events + [e];
    assert forall x | x in events :: x in events + [e];
    HistoryConsistent(world, events);
    var disk, commits := Play(world, events), Commits(world, events);
    NoConflict(world, disk, commits, e);
    LoadsCurrentOf(world, disk, commits);
    var built := BuildOn(world, e.input, Current(disk), e.mode);
    var failed := RunOn(world, disk, e);
    BundlesAfter(disk, built.value, e.fails);
    LoadedSame(disk, failed.disk);
    BuildAdds(world, e.input, Current(disk), e.mode);
    BundlesAfter(failed.disk, built.value, {});
    GenerationMoves(Current(disk).generation);
  }

  // The named stages a run comes by: those of a bundle that is not there yet,
  // with that of the journal when it has one, and that of the manifest when
  // something was accepted.
  ghost function StagesOf(disk: Disk, a: Artifact, grows: bool): set<Stage> {
    (if a.runIdentity in disk.bundles then {}
     else if a.journal == "" then {AfterReport, BeforeBundleCommit}
     else {AfterReport, AfterJournal, BeforeBundleCommit})
    + (if grows then {BeforeStateCommit} else {})
  }

  // A run completes exactly when it comes by no failing stage. Otherwise the
  // manifest is as it was, and so is the rest of the disk unless only the
  // manifest was missing: then the bundle is there.
  lemma RunFailsIff(world: World, events: seq<Event>, e: Event)
    requires Hashable(world, events + [e]) && |Commits(world, events)| < GENERATIONS
    requires BuildOn(world, e.input, Current(Play(world, events)), e.mode).Ok?
    ensures var disk, ran := Play(world, events), RunOn(world, Play(world, events), e);
            var a := BuildOn(world, e.input, Current(disk), e.mode).value;
            var grows := Gained(world, e.input, Current(disk)) != {};
            && (ran.result.Ok? <==> e.fails !! StagesOf(disk, a, grows))
            && (ran.result.Ok? ==>
                  var bundle := Bundle(a.report, if a.journal == "" then None else Some(a.journal));
                  ran == Ran(Disk(if grows then Some(a.nextState) else disk.manifest, disk.bundles[a.runIdentity := bundle]), Ok(a)))
            && (ran.result.Err? ==>
                  && ran.result.error.FailedAt? && ran.result.error.stage in e.fails * StagesOf(disk, a, grows)
                  && (if ran.result.error.stage == BeforeStateCommit
                      then ran.disk == disk.(bundles := disk.bundles[a.runIdentity := BundleOf(a)])
                      else ran.disk == disk))
  {
    hide Commits, Play, InjectiveSha, ShortDigest, Consistent, BuildOn, SetOf, GoodState, Gained;
    assert e in events + [e];
    assert forall x | x in events :: x in events + [e];
    HistoryConsistent(world, events);
    var disk, commits := Play(world, events), Commits(world, events);
    NoConflict(world, disk, commits, e);
    LoadsCurrentOf(world, disk, commits);
    var a := BuildOn(world, e.input, Current(disk), e.mode).value;
    BundlesAfter(disk, a, e.fails);
    BuildAdds(world, e.input, Current(disk), e.mode);
    GenerationMoves(Current(disk).generation);
  }

  lemma LoadedSame(a: Disk, b: Disk)
    requires a.manifest == b.manifest
    ensures Loaded(a) == Loaded(b) && Current(a) == Current(b)
  {
  }

  lemma GenerationMoves(g: nat)
    ensures NextGeneration(g) != g
  {
    assert (g + 1) % GENERATIONS == g ==> g < GENERATIONS;
  }
}
