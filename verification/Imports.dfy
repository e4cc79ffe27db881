// Concurrent imports into the database: each reads the state, builds its run
// and commits with a compare-and-set on the generation, in any interleaving.
module Imports {
  import opened Results
  import opened Orders
  import opened Framing
  import opened Records
  import opened Ingest
  import opened Builds
  import opened Publication
  import Tackler

  datatype Store = Store(generation: nat, identities: set<RecordIdentity>, runs: map<Digest, Report>)

  const EMPTY_STORE := Store(0, {}, map[])

  datatype ImportError = UploadDisabled | UploadForbidden | NotPrepared(error: BuildError) | RunExists | Conflict | Abandoned

  datatype Access = Access(fileUploadEnabled: bool, canWrite: bool)

  // loadState: the generation and the identities in order.
  ghost function LoadedFrom(store: Store): State {
    IdentityOrder();
    State(STATE_SCHEMA_VERSION, store.generation, Sorted(store.identities, IdentityLess))
  }

  // saveArtifact, the new identities and the conditional update, atomically.
  ghost function CommitOn(store: Store, state: State, a: Artifact): Result<Store, ImportError> {
    if a.runIdentity in store.runs then Err(RunExists)
    else
      var saved := store.(runs := store.runs[a.runIdentity := a.report]);
      if a.nextState.generation == state.generation then Ok(saved)
      else if store.generation != state.generation then Err(Conflict)
      else Ok(saved.(identities := store.identities + SetOf(a.nextState.identities), generation := a.nextState.generation))
  }

  ghost function ImportOn(world: World, store: Store, access: Access, input: Bytes): Result<Store, ImportError> {
    if !access.fileUploadEnabled then Err(UploadDisabled)
    else if !access.canWrite then Err(UploadForbidden)
    else
      var state := LoadedFrom(store);
      var built := BuildOn(world, input, state, Tackler.PreserveOmitted);
      if built.Err? then Err(NotPrepared(built.error)) else CommitOn(store, state, built.value)
  }

  // The tables of the database.
  class Database {
    var generation: nat
    var identities: set<RecordIdentity>
    var runs: map<Digest, Report>

    function Contents(): Store
      reads this
    {
      Store(generation, identities, runs)
    }

    constructor ()
      ensures Contents() == EMPTY_STORE
    {
      generation, identities, runs := 0, {}, map[];
    }

    method LoadState() returns (state: State)
      ensures state == LoadedFrom(Contents())
    {
      hide IdentityLess;
      IdentityOrder();
      var listed: seq<RecordIdentity> := [];
      var todo := identities;
      while todo != {}
        invariant todo <= identities
        invariant forall x :: x in listed <==> x in identities && x !in todo
        invariant forall i, j | 0 <= i < j < |listed| :: listed[i] != listed[j]
      {
        var id :| id in todo;
        listed := listed + [id];
        todo := todo - {id};
      }
      var sorted := SortDistinct(listed, IdentityLess);
      assert (set x | x in listed) == identities;
      return State(STATE_SCHEMA_VERSION, generation, sorted);
    }

    // The end of the transaction: everything is undone when a step fails.
    method Commit(state: State, a: Artifact) returns (error: Option<ImportError>)
      modifies this
      ensures error.None? ==> CommitOn(old(Contents()), state, a) == Ok(Contents())
      ensures error.Some? ==> CommitOn(old(Contents()), state, a) == Err(error.value) && Contents() == old(Contents())
    {
      var before := Contents();
      if a.runIdentity in runs {
        return Some(RunExists);
      }
      runs := runs[a.runIdentity := a.report];
      if a.nextState.generation != state.generation {
        InsertIdentities(a.nextState.identities);
        if generation != state.generation {
          generation, identities, runs := before.generation, before.identities, before.runs;
          return Some(Conflict);
        }
        generation := a.nextState.generation;
      }
      return None;
    }

    // INSERT OR IGNORE, one identity after the other.
    method InsertIdentities(ids: seq<RecordIdentity>)
      modifies this`identities
      ensures identities == old(identities) + SetOf(ids)
    {
      assert ids[..0] == [];
      for i := 0 to |ids|
        invariant identities == old(identities) + SetOf(ids[..i])
      {
        assert ids[..i + 1] == ids[..i] + [ids[i]];
        identities := identities + {ids[i]};
      }
      assert ids[..|ids|] == ids;
    }

    // Import without another import in between.
    method Import(world: World, access: Access, input: Bytes) returns (error: Option<ImportError>)
      modifies this
      ensures error.None? ==> ImportOn(world, old(Contents()), access, input) == Ok(Contents())
      ensures error.Some? ==>
                ImportOn(world, old(Contents()), access, input) == Err(error.value) && Contents() == old(Contents())
      ensures !access.fileUploadEnabled ==> error == Some(UploadDisabled) && Contents() == old(Contents())
      ensures access.fileUploadEnabled && !access.canWrite ==> error == Some(UploadForbidden) && Contents() == old(Contents())
    {
      hide LoadedFrom, CommitOn, BuildOn;
      if !access.fileUploadEnabled {
        return Some(UploadDisabled);
      }
      if !access.canWrite {
        return Some(UploadForbidden);
      }
      var state := LoadState();
      var built := Build(world, input, state, Tackler.PreserveOmitted);
      if built.Err? {
        return Some(NotPrepared(built.error));
      }
      error := Commit(state, built.value);
    }
  }

  // -------------------------------------------------- interleaved importers

  datatype Phase =
    | Waiting
    | Read(state: State)
    | Ready(state: State, artifact: Artifact)
    | Committed(state: State, artifact: Artifact)
    | Refused(error: ImportError)

  datatype System = System(store: Store, importers: seq<Phase>)

  datatype Step = Load(importer: nat) | Prepare(importer: nat) | Finish(importer: nat) | Abandon(importer: nat)

  ghost function Blank(n: nat): System {
    System(EMPTY_STORE, seq(n, i requires 0 <= i < n => Waiting))
  }

  function With(sys: System, i: nat, phase: Phase): System
    requires i < |sys.importers|
  {
    sys.(importers := sys.importers[i := phase])
  }

  // One step of one importer; a step that is not its turn does nothing.
  ghost function StepOn(world: World, inputs: seq<Bytes>, sys: System, step: Step): System
    requires |inputs| == |sys.importers|
  {
    var i := step.importer;
    if i >= |inputs| then sys
    else
      match step
      case Load(_) => if sys.importers[i].Waiting? then With(sys, i, Read(LoadedFrom(sys.store))) else sys
      case Prepare(_) =>
        if !sys.importers[i].Read? then sys
        else
          var state := sys.importers[i].state;
          var built := BuildOn(world, inputs[i], state, Tackler.PreserveOmitted);
          With(sys, i, if built.Ok? then Ready(state, built.value) else Refused(NotPrepared(built.error)))
      case Finish(_) =>
        if !sys.importers[i].Ready? then sys
        else
          var p := sys.importers[i];
          var r := CommitOn(sys.store, p.state, p.artifact);
          if r.Ok? then With(sys.(store := r.value), i, Committed(p.state, p.artifact)) else With(sys, i, Refused(r.error))
      case Abandon(_) =>
        if sys.importers[i].Committed? || sys.importers[i].Refused? then sys else With(sys, i, Refused(Abandoned))
  }

  ghost function PlaySteps(world: World, inputs: seq<Bytes>, steps: seq<Step>): (sys: System)
    ensures |sys.importers| == |inputs|
  {
    if steps == [] then Blank(|inputs|)
    else StepOn(world, inputs, PlaySteps(world, inputs, steps[..|steps| - 1]), steps[|steps| - 1])
  }

  // Without upload or without write access nothing is imported; with both, an
  // import on its own is the three steps of one importer, one after the other.
  lemma ImportIsSteps(world: World, inputs: seq<Bytes>, sys: System, i: nat, access: Access)
    requires |inputs| == |sys.importers| && i < |inputs| && sys.importers[i] == Waiting
    ensures !access.fileUploadEnabled ==> ImportOn(world, sys.store, access, inputs[i]) == Err(UploadDisabled)
    ensures access.fileUploadEnabled && !access.canWrite ==>
              ImportOn(world, sys.store, access, inputs[i]) == Err(UploadForbidden)
    ensures access.fileUploadEnabled && access.canWrite ==>
              var read := StepOn(world, inputs, sys, Load(i));
              var ready := StepOn(world, inputs, read, Prepare(i));
              var done := StepOn(world, inputs, ready, Finish(i));
              var r := ImportOn(world, sys.store, access, inputs[i]);
              && (r.Ok? ==> done.importers[i].Committed? && done.store == r.value)
              && (r.Err? ==> done.importers[i] == Refused(r.error) && done.store == sys.store)
              && forall j | 0 <= j < |inputs| && j != i :: done.importers[j] == sys.importers[j]
  {
    hide LoadedFrom, BuildOn, CommitOn;
  }

  function EventOf(input: Bytes): Event {
    Event(input, Tackler.PreserveOmitted, {})
  }

  // The runs of the importers that grew the stored set, in that order.
  function EventsOf(inputs: seq<Bytes>, winners: seq<nat>): seq<Event>
    requires forall k | 0 <= k < |winners| :: winners[k] < |inputs|
  {
    seq(|winners|, k requires 0 <= k < |winners| => EventOf(inputs[winners[k]]))
  }

  ghost predicate Grew(p: Phase) {
    p.Committed? && p.artifact.nextState.generation != p.state.generation
  }

  // What an importer holds was read from a state the database went through.
  ghost predicate Holds(world: World, input: Bytes, p: Phase, commits: seq<Event>) {
    && (p.Read? || p.Ready? || p.Committed? ==> exists k: nat :: k <= |commits| && p.state == StateAt(world, commits, k))
    && (p.Ready? || p.Committed? ==> BuildOn(world, input, p.state, Tackler.PreserveOmitted) == Ok(p.artifact))
  }

  ghost predicate WonAt(world: World, commits: seq<Event>, sys: System, winners: seq<nat>, k: nat)
    requires k < |winners| == |commits|
  {
    winners[k] < |sys.importers| && Grew(sys.importers[winners[k]]) && sys.importers[winners[k]].state == StateAt(world, commits, k)
  }

  // What holds of the system in every interleaving.
  ghost predicate Sound(world: World, inputs: seq<Bytes>, sys: System, winners: seq<nat>) {
    && |sys.importers| == |inputs|
    && (forall k | 0 <= k < |winners| :: winners[k] < |inputs|)
    && (forall k, l | 0 <= k < l < |winners| :: winners[k] != winners[l])
    && var commits := EventsOf(inputs, winners);
    && GoodCommits(world, commits)
    && LoadedFrom(sys.store) == StateAt(world, commits, |commits|)
    && (forall i | 0 <= i < |inputs| :: Holds(world, inputs[i], sys.importers[i], commits))
    && (forall k | 0 <= k < |winners| :: WonAt(world, commits, sys, winners, k))
    && (forall i | 0 <= i < |inputs| && Grew(sys.importers[i]) :: i in winners)
  }

  lemma LoadedIsGood(store: Store)
    ensures Increasing(LoadedFrom(store).identities, IdentityLess) && SetOf(LoadedFrom(store).identities) == store.identities
  {
    hide IdentityLess;
    IdentityOrder();
  }

  lemma LoadedIs(store: Store, s: State)
    requires s.schemaVersion == STATE_SCHEMA_VERSION && s.generation == store.generation
    requires Increasing(s.identities, IdentityLess) && SetOf(s.identities) == store.identities
    ensures LoadedFrom(store) == s
  {
    hide IdentityLess;
    IdentityOrder();
    LoadedIsGood(store);
    var t := LoadedFrom(store).identities;
    assert forall x :: x in s.identities <==> x in SetOf(s.identities);
    assert forall x :: x in t <==> x in SetOf(t);
    IncreasingUnique(s.identities, t, IdentityLess);
  }

  // A successful growing commit stores exactly the artifact's next state.
  lemma GrowthLoads(world: World, input: Bytes, store: Store, a: Artifact)
    requires GoodState(LoadedFrom(store)) && BuildOn(world, input, LoadedFrom(store), Tackler.PreserveOmitted) == Ok(a)
    requires CommitOn(store, LoadedFrom(store), a).Ok? && a.nextState.generation != store.generation
    ensures LoadedFrom(CommitOn(store, LoadedFrom(store), a).value) == a.nextState
    ensures Gained(world, input, LoadedFrom(store)) != {}
  {
    hide BuildOn, IdentityLess, Gained, LoadedFrom;
    LoadedIsGood(store);
    BuildAdds(world, input, LoadedFrom(store), Tackler.PreserveOmitted);
    LoadedGeneration(store);
    assert store.identities + SetOf(a.nextState.identities) == SetOf(a.nextState.identities);
    LoadedIs(CommitOn(store, LoadedFrom(store), a).value, a.nextState);
  }

  lemma LoadedGeneration(store: Store)
    ensures LoadedFrom(store).generation == store.generation
  {
  }

  lemma RunsDoNotLoad(store: Store, runs: map<Digest, Report>)
    ensures LoadedFrom(store.(runs := runs)) == LoadedFrom(store)
  {
  }

  lemma BlankIsSound(world: World, inputs: seq<Bytes>)
    ensures Sound(world, inputs, Blank(|inputs|), [])
  {
    hide IdentityLess;
    IdentityOrder();
    assert EventsOf(inputs, []) == [];
    LoadedIs(EMPTY_STORE, EMPTY_STATE);
  }

  lemma HoldsMore(world: World, input: Bytes, p: Phase, commits: seq<Event>, e: Event)
    requires Holds(world, input, p, commits)
    ensures Holds(world, input, p, commits + [e])
  {
    hide BuildOn, StateAt;
    if p.Read? || p.Ready? || p.Committed? {
      var k: nat :| k <= |commits| && p.state == StateAt(world, commits, k);
      StatePrefix(world, commits, [e], k);
    }
  }

  // A step that leaves the store's state alone and gives its importer a phase
  // that holds.
  lemma QuietStep(
    world: World, inputs: seq<Bytes>, sys: System, winners: seq<nat>, store: Store, i: nat, phase: Phase)
    requires Sound(world, inputs, sys, winners) && i < |inputs| && LoadedFrom(store) == LoadedFrom(sys.store)
    requires !Grew(phase) && !Grew(sys.importers[i]) && Holds(world, inputs[i], phase, EventsOf(inputs, winners))
    ensures Sound(world, inputs, With(sys.(store := store), i, phase), winners)
  {
    hide Holds, Grew, GoodCommits, LoadedFrom, StateAt;
    var next, commits := With(sys.(store := store), i, phase), EventsOf(inputs, winners);
    forall k | 0 <= k < |winners|
      ensures WonAt(world, commits, next, winners, k)
    {
      assert WonAt(world, commits, sys, winners, k);
    }
    forall j | 0 <= j < |inputs|
      ensures Holds(world, inputs[j], next.importers[j], commits)
    {
      assert Holds(world, inputs[j], sys.importers[j], commits);
    }
  }

  lemma EventsMore(inputs: seq<Bytes>, winners: seq<nat>, i: nat)
    requires i < |inputs| && forall k | 0 <= k < |winners| :: winners[k] < |inputs|
    ensures EventsOf(inputs, winners + [i]) == EventsOf(inputs, winners) + [EventOf(inputs[i])]
  {
  }

  lemma WinnerIsNew(world: World, inputs: seq<Bytes>, sys: System, winners: seq<nat>, i: nat)
    requires Sound(world, inputs, sys, winners) && i < |inputs| && sys.importers[i].Ready?
    ensures i !in winners
  {
    hide GoodCommits, Holds, LoadedFrom, StateAt;
    forall k | 0 <= k < |winners|
      ensures winners[k] != i
    {
      assert WonAt(world, EventsOf(inputs, winners), sys, winners, k);
    }
  }

  // A growing commit: the winner joins the sequence.
  lemma WinStep(world: World, inputs: seq<Bytes>, sys: System, winners: seq<nat>, i: nat)
    requires Sound(world, inputs, sys, winners) && i < |inputs| && sys.importers[i].Ready?
    requires var p := sys.importers[i];
             && p.state == LoadedFrom(sys.store) && p.artifact.nextState.generation != p.state.generation
             && CommitOn(sys.store, p.state, p.artifact).Ok?
    ensures var p := sys.importers[i];
            Sound(world, inputs, With(sys.(store := CommitOn(sys.store, p.state, p.artifact).value), i,
                                      Committed(p.state, p.artifact)), winners + [i])
  {
    hide Holds, GoodCommits, LoadedFrom, StateAt, BuildOn, CommitOn, GoodState, Gained;
    var p, commits := sys.importers[i], EventsOf(inputs, winners);
    var next := With(sys.(store := CommitOn(sys.store, p.state, p.artifact).value), i, Committed(p.state, p.artifact));
    EventsMore(inputs, winners, i);
    WinnerIsNew(world, inputs, sys, winners, i);
    assert Holds(world, inputs[i], p, commits);
    ArtifactHeld(world, inputs[i], p, commits);
    LoadedGeneration(sys.store);
    LastIsGood(world, commits);
    GrowthLoads(world, inputs[i], sys.store, p.artifact);
    GoodMore(world, commits, EventOf(inputs[i]));
    var more := commits + [EventOf(inputs[i])];
    forall k | 0 <= k < |winners + [i]|
      ensures WonAt(world, more, next, winners + [i], k)
    {
      StatePrefix(world, commits, [EventOf(inputs[i])], k);
      if k < |winners| {
        assert WonAt(world, commits, sys, winners, k);
      }
    }
    forall j | 0 <= j < |inputs|
      ensures Holds(world, inputs[j], next.importers[j], more)
    {
      assert Holds(world, inputs[j], sys.importers[j], commits);
      HoldsMore(world, inputs[j], sys.importers[j], commits, EventOf(inputs[i]));
      SameHold(world, inputs[i], p, more);
    }
  }

  lemma ArtifactHeld(world: World, input: Bytes, p: Phase, commits: seq<Event>)
    requires p.Ready? && Holds(world, input, p, commits)
    ensures BuildOn(world, input, p.state, Tackler.PreserveOmitted) == Ok(p.artifact)
    ensures exists k: nat :: k <= |commits| && p.state == StateAt(world, commits, k)
  {
    hide BuildOn, StateAt;
  }

  lemma SameHold(world: World, input: Bytes, p: Phase, commits: seq<Event>)
    requires p.Ready?
    ensures Holds(world, input, p, commits) <==> Holds(world, input, Committed(p.state, p.artifact), commits)
  {
    hide BuildOn, StateAt;
  }

  // The last state of a good commit sequence is a good state.
  lemma LastIsGood(world: World, commits: seq<Event>)
    requires GoodCommits(world, commits)
    ensures GoodState(StateAt(world, commits, |commits|))
  {
    hide GrowsAt, GoodState, StateAt;
    if commits == [] {
      FirstState(world, commits);
      EmptyIsGood();
    } else {
      assert GrowsAt(world, commits, |commits| - 1);
      StepState(world, commits, |commits| - 1);
    }
  }

  // Reading the generation the database still has is reading its whole state.
  lemma SameGenerationSameState(world: World, commits: seq<Event>, k: nat)
    requires GoodCommits(world, commits) && k <= |commits| < GENERATIONS
    requires StateAt(world, commits, k).generation == StateAt(world, commits, |commits|).generation
    ensures k == |commits|
  {
    hide StateAt, GoodCommits;
    SmallCount(world, commits, k);
    SmallCount(world, commits, |commits|);
  }

  lemma ReadyIsCurrent(world: World, inputs: seq<Bytes>, sys: System, winners: seq<nat>, i: nat)
    requires Sound(world, inputs, sys, winners) && i < |inputs| && |winners| < GENERATIONS && sys.importers[i].Ready?
    requires sys.importers[i].state.generation == sys.store.generation
    ensures sys.importers[i].state == LoadedFrom(sys.store)
  {
    hide Holds, GoodCommits, LoadedFrom, StateAt, BuildOn;
    var commits := EventsOf(inputs, winners);
    assert Holds(world, inputs[i], sys.importers[i], commits);
    ArtifactHeld(world, inputs[i], sys.importers[i], commits);
    var k: nat :| k <= |commits| && sys.importers[i].state == StateAt(world, commits, k);
    LoadedGeneration(sys.store);
    SameGenerationSameState(world, commits, k);
  }

  lemma CommitKinds(store: Store, state: State, a: Artifact)
    ensures var r := CommitOn(store, state, a);
            && (r.Ok? && a.nextState.generation == state.generation ==> LoadedFrom(r.value) == LoadedFrom(store))
            && (r.Ok? && a.nextState.generation != state.generation ==> state.generation == store.generation)
  {
    RunsDoNotLoad(store, store.runs[a.runIdentity := a.report]);
  }

  // Every step keeps the system sound; at most one winner is added.
  lemma SoundStep(world: World, inputs: seq<Bytes>, sys: System, winners: seq<nat>, step: Step) returns (next: seq<nat>)
    requires Sound(world, inputs, sys, winners) && |winners| < GENERATIONS
    ensures Sound(world, inputs, StepOn(world, inputs, sys, step), next)
    ensures next == winners || next == winners + [step.importer]
  {
    hide Sound, LoadedFrom, BuildOn, CommitOn, Grew, Holds;
    SoundSize(world, inputs, sys, winners);
    var i := step.importer;
    next := winners;
    if i < |inputs| {
      var p, commits := sys.importers[i], EventsOf(inputs, winners);
      HeldPhase(world, inputs, sys, winners, i);
      match step
      case Load(_) =>
        if p.Waiting? {
          HoldsRead(world, inputs, sys, winners, i);
          QuietStep(world, inputs, sys, winners, sys.store, i, Read(LoadedFrom(sys.store)));
        }
      case Prepare(_) =>
        if p.Read? {
          var built := BuildOn(world, inputs[i], p.state, Tackler.PreserveOmitted);
          var phase := if built.Ok? then Ready(p.state, built.value) else Refused(NotPrepared(built.error));
          HoldsPrepared(world, inputs[i], p, commits);
          QuietStep(world, inputs, sys, winners, sys.store, i, phase);
        }
      case Finish(_) =>
        if p.Ready? {
          next := FinishStep(world, inputs, sys, winners, i);
        }
      case Abandon(_) =>
        if !p.Committed? && !p.Refused? {
          QuietStep(world, inputs, sys, winners, sys.store, i, Refused(Abandoned));
        }
    }
  }

  lemma SoundSize(world: World, inputs: seq<Bytes>, sys: System, winners: seq<nat>)
    requires Sound(world, inputs, sys, winners)
    ensures |sys.importers| == |inputs| && forall k | 0 <= k < |winners| :: winners[k] < |inputs|
  {
  }

  lemma HeldPhase(world: World, inputs: seq<Bytes>, sys: System, winners: seq<nat>, i: nat)
    requires Sound(world, inputs, sys, winners) && i < |inputs|
    ensures |sys.importers| == |inputs| && Holds(world, inputs[i], sys.importers[i], EventsOf(inputs, winners))
    ensures !sys.importers[i].Committed? ==> !Grew(sys.importers[i])
    ensures forall e :: Holds(world, inputs[i], Refused(e), EventsOf(inputs, winners)) && !Grew(Refused(e))
    ensures forall s :: !Grew(Read(s))
    ensures forall s, a :: !Grew(Ready(s, a))
  {
    hide GoodCommits, LoadedFrom, BuildOn, StateAt;
    assert Holds(world, inputs[i], sys.importers[i], EventsOf(inputs, winners));
  }

  lemma HoldsRead(world: World, inputs: seq<Bytes>, sys: System, winners: seq<nat>, i: nat)
    requires Sound(world, inputs, sys, winners) && i < |inputs|
    ensures Holds(world, inputs[i], Read(LoadedFrom(sys.store)), EventsOf(inputs, winners))
  {
    hide GoodCommits, LoadedFrom, BuildOn, StateAt;
    var commits := EventsOf(inputs, winners);
    assert LoadedFrom(sys.store) == StateAt(world, commits, |commits|);
  }

  lemma HoldsPrepared(world: World, input: Bytes, p: Phase, commits: seq<Event>)
    requires p.Read? && Holds(world, input, p, commits)
    ensures var built := BuildOn(world, input, p.state, Tackler.PreserveOmitted);
            built.Ok? ==> Holds(world, input, Ready(p.state, built.value), commits)
  {
    hide BuildOn, StateAt;
  }

  lemma FinishStep(world: World, inputs: seq<Bytes>, sys: System, winners: seq<nat>, i: nat) returns (next: seq<nat>)
    requires Sound(world, inputs, sys, winners) && |winners| < GENERATIONS
    requires |sys.importers| == |inputs| && i < |inputs| && sys.importers[i].Ready?
    ensures Sound(world, inputs, StepOn(world, inputs, sys, Finish(i)), next)
    ensures next == winners || next == winners + [i]
  {
    hide Sound, LoadedFrom, BuildOn, CommitOn, Holds, StateAt;
    SoundSize(world, inputs, sys, winners);
    var p := sys.importers[i];
    var r := CommitOn(sys.store, p.state, p.artifact);
    HeldPhase(world, inputs, sys, winners, i);
    CommitKinds(sys.store, p.state, p.artifact);
    next := winners;
    if r.Err? {
      QuietStep(world, inputs, sys, winners, sys.store, i, Refused(r.error));
    } else if p.artifact.nextState.generation == p.state.generation {
      SameHold(world, inputs[i], p, EventsOf(inputs, winners));
      QuietStep(world, inputs, sys, winners, r.value, i, Committed(p.state, p.artifact));
    } else {
      ReadyIsCurrent(world, inputs, sys, winners, i);
      WinStep(world, inputs, sys, winners, i);
      next := winners + [i];
    }
  }

  lemma {:induction false} DistinctBounded(winners: seq<nat>, n: nat)
    requires forall k, l | 0 <= k < l < |winners| :: winners[k] != winners[l]
    requires forall k | 0 <= k < |winners| :: winners[k] < n
    ensures |winners| <= n
  {
    var used := set k | 0 <= k < |winners| :: winners[k];
    UsedSize(winners);
    BelowSize(n);
    SubsetSize(used, Below(n));
  }

  lemma {:induction false} UsedSize(winners: seq<nat>)
    requires forall k, l | 0 <= k < l < |winners| :: winners[k] != winners[l]
    ensures |set k | 0 <= k < |winners| :: winners[k]| == |winners|
  {
    if winners != [] {
      var front, last := winners[..|winners| - 1], winners[|winners| - 1];
      UsedSize(front);
      var used := set k | 0 <= k < |front| :: front[k];
      assert (set k | 0 <= k < |winners| :: winners[k]) == used + {last};
      assert last !in used;
    }
  }

  function Below(n: nat): set<nat> {
    if n == 0 then {} else Below(n - 1) + {n - 1}
  }

  lemma {:induction false} BelowSize(n: nat)
    ensures |Below(n)| == n && forall i: nat :: i in Below(n) <==> i < n
  {
    if n > 0 {
      BelowSize(n - 1);
    }
  }

  lemma SubsetSize<T>(a: set<T>, b: set<T>)
    requires a <= b
    ensures |a| <= |b|
  {
    assert b == a + (b - a);
  }

  // In every interleaving of any number of imports below 2^64, the system is
  // sound.
  lemma {:induction false} AllInterleavingsSound(world: World, inputs: seq<Bytes>, steps: seq<Step>) returns (winners: seq<nat>)
    requires |inputs| < GENERATIONS
    ensures Sound(world, inputs, PlaySteps(world, inputs, steps), winners) && |winners| <= |inputs|
  {
    hide Sound, StepOn;
    if steps == [] {
      BlankIsSound(world, inputs);
      winners := [];
    } else {
      var front := steps[..|steps| - 1];
      var before := AllInterleavingsSound(world, inputs, front);
      winners := SoundStep(world, inputs, PlaySteps(world, inputs, front), before, steps[|steps| - 1]);
      SoundWinners(world, inputs, PlaySteps(world, inputs, steps), winners);
    }
  }

  lemma SoundWinners(world: World, inputs: seq<Bytes>, sys: System, winners: seq<nat>)
    requires Sound(world, inputs, sys, winners)
    ensures |winners| <= |inputs|
  {
    hide Holds, GoodCommits, LoadedFrom, WonAt;
    DistinctBounded(winners, |inputs|);
  }

  // ------------------------------------------------------------- the promises

  ghost function GainOf(world: World, inputs: seq<Bytes>, sys: System, i: nat): set<RecordIdentity>
    requires i < |inputs| == |sys.importers|
  {
    if sys.importers[i].Committed? then Gained(world, inputs[i], sys.importers[i].state) else {}
  }

  // An import that committed grew the store exactly when it accepted something.
  lemma GrewIffGained(world: World, inputs: seq<Bytes>, sys: System, winners: seq<nat>, i: nat)
    requires Sound(world, inputs, sys, winners) && i < |inputs| && |winners| < GENERATIONS
    ensures GainOf(world, inputs, sys, i) != {} <==> Grew(sys.importers[i])
  {
    hide StateAt, BuildOn, LoadedFrom, Gained, GrowsAt, GoodState;
    var p, commits := sys.importers[i], EventsOf(inputs, winners);
    if p.Committed? {
      assert Holds(world, inputs[i], p, commits);
      var k: nat :| k <= |commits| && p.state == StateAt(world, commits, k);
      StateIsGood(world, commits, k);
      BuildAdds(world, inputs[i], p.state, Tackler.PreserveOmitted);
      GenerationMoves(p.state.generation);
    }
  }

  lemma StateIsGood(world: World, commits: seq<Event>, k: nat)
    requires GoodCommits(world, commits) && k <= |commits|
    ensures GoodState(StateAt(world, commits, k))
  {
    hide GoodState, StateAt, BuildOn, Gained;
    if k < |commits| {
      assert GrowsAt(world, commits, k);
    } else {
      LastIsGood(world, commits);
    }
  }

  lemma WinnerGain(world: World, inputs: seq<Bytes>, sys: System, winners: seq<nat>, k: nat)
    requires Sound(world, inputs, sys, winners) && k < |winners|
    ensures GainOf(world, inputs, sys, winners[k]) == GainedAt(world, EventsOf(inputs, winners), k)
  {
    hide StateAt, BuildOn, LoadedFrom, Gained, GoodCommits, Holds;
    assert WonAt(world, EventsOf(inputs, winners), sys, winners, k);
  }

  // Committed imports accept pairwise disjoint identities.
  lemma CommittedDisjoint(world: World, inputs: seq<Bytes>, steps: seq<Step>, i: nat, j: nat)
    requires |inputs| < GENERATIONS && i < |inputs| && j < |inputs| && i != j
    ensures var sys := PlaySteps(world, inputs, steps);
            GainOf(world, inputs, sys, i) !! GainOf(world, inputs, sys, j)
  {
    hide Sound, GainOf, PlaySteps, Grew, GainedAt;
    var winners := AllInterleavingsSound(world, inputs, steps);
    var sys := PlaySteps(world, inputs, steps);
    GrewIffGained(world, inputs, sys, winners, i);
    GrewIffGained(world, inputs, sys, winners, j);
    if GainOf(world, inputs, sys, i) != {} && GainOf(world, inputs, sys, j) != {} {
      SoundWins(world, inputs, sys, winners, i);
      SoundWins(world, inputs, sys, winners, j);
      var k :| 0 <= k < |winners| && winners[k] == i;
      var l :| 0 <= l < |winners| && winners[l] == j;
      WinnerGain(world, inputs, sys, winners, k);
      WinnerGain(world, inputs, sys, winners, l);
      if k < l {
        CommitsDisjoint(world, EventsOf(inputs, winners), k, l);
      } else {
        CommitsDisjoint(world, EventsOf(inputs, winners), l, k);
      }
    }
  }

  lemma SoundWins(world: World, inputs: seq<Bytes>, sys: System, winners: seq<nat>, i: nat)
    requires Sound(world, inputs, sys, winners) && i < |inputs| && Grew(sys.importers[i])
    ensures i in winners && forall k | 0 <= k < |winners| :: winners[k] < |inputs|
    ensures GoodCommits(world, EventsOf(inputs, winners))
  {
    hide StateAt, LoadedFrom, Holds, WonAt, GoodCommits;
  }

  // The stored identities are the union of what the committed imports accepted,
  // and the generation counts the imports that grew it.
  lemma StoreIsUnion(world: World, inputs: seq<Bytes>, steps: seq<Step>, id: RecordIdentity) returns (winners: seq<nat>)
    requires |inputs| < GENERATIONS
    ensures var sys := PlaySteps(world, inputs, steps);
            && (id in sys.store.identities <==> exists i :: 0 <= i < |inputs| && id in GainOf(world, inputs, sys, i))
            && sys.store.generation == |winners|
            && (forall i :: i in winners <==> 0 <= i < |inputs| && Grew(sys.importers[i]))
            && (forall k, l | 0 <= k < l < |winners| :: winners[k] != winners[l])
  {
    hide GainOf, PlaySteps, GainedAt, StateAt, LoadedFrom, Holds, GoodCommits, Grew;
    winners := AllInterleavingsSound(world, inputs, steps);
    var sys := PlaySteps(world, inputs, steps);
    var commits := EventsOf(inputs, winners);
    LoadedIsGood(sys.store);
    LoadedGeneration(sys.store);
    SmallCount(world, commits, |commits|);
    IdentitiesAreGained(world, commits, |commits|, id);
    forall k | 0 <= k < |winners|
      ensures GainOf(world, inputs, sys, winners[k]) == GainedAt(world, commits, k) && Grew(sys.importers[winners[k]])
    {
      WinnerGain(world, inputs, sys, winners, k);
      assert WonAt(world, commits, sys, winners, k);
    }
    forall i | 0 <= i < |inputs| && id in GainOf(world, inputs, sys, i)
      ensures exists k :: 0 <= k < |commits| && id in GainedAt(world, commits, k)
    {
      GrewIffGained(world, inputs, sys, winners, i);
      var k :| 0 <= k < |winners| && winners[k] == i;
    }
  }

  // Of imports that read the same generation and accepted something, at most
  // one commits.
  lemma OneWinnerPerGeneration(world: World, inputs: seq<Bytes>, steps: seq<Step>, i: nat, j: nat)
    requires |inputs| < GENERATIONS && i < |inputs| && j < |inputs| && i != j
    requires var sys := PlaySteps(world, inputs, steps);
             && sys.importers[i].Committed? && sys.importers[j].Committed?
             && sys.importers[i].state.generation == sys.importers[j].state.generation
    ensures var sys := PlaySteps(world, inputs, steps);
            GainOf(world, inputs, sys, i) == {} || GainOf(world, inputs, sys, j) == {}
  {
    hide GainOf, PlaySteps, StateAt, LoadedFrom, Holds, GoodCommits, Grew;
    var winners := AllInterleavingsSound(world, inputs, steps);
    var sys := PlaySteps(world, inputs, steps);
    GrewIffGained(world, inputs, sys, winners, i);
    GrewIffGained(world, inputs, sys, winners, j);
    if GainOf(world, inputs, sys, i) != {} && GainOf(world, inputs, sys, j) != {} {
      var commits := EventsOf(inputs, winners);
      var k :| 0 <= k < |winners| && winners[k] == i;
      var l :| 0 <= l < |winners| && winners[l] == j;
      assert WonAt(world, commits, sys, winners, k) && WonAt(world, commits, sys, winners, l);
      SmallCount(world, commits, k);
      SmallCount(world, commits, l);
    }
  }

  // The stored runs are exactly those of the committed importers.
  ghost predicate RunsKept(sys: System) {
    && (forall id | id in sys.store.runs :: exists i :: RunOf(sys, i, id))
    && (forall i | 0 <= i < |sys.importers| && sys.importers[i].Committed? :: sys.importers[i].artifact.runIdentity in sys.store.runs)
  }

  ghost predicate RunOf(sys: System, i: int, id: Digest) {
    0 <= i < |sys.importers| && sys.importers[i].Committed? && sys.importers[i].artifact.runIdentity == id
  }

  // A step that neither stores a run nor commits an importer.
  lemma RunsUntouched(sys: System, i: nat, phase: Phase)
    requires RunsKept(sys) && i < |sys.importers| && !sys.importers[i].Committed? && !phase.Committed?
    ensures RunsKept(With(sys, i, phase))
  {
    var next := With(sys, i, phase);
    forall id | id in next.store.runs
      ensures exists j :: RunOf(next, j, id)
    {
      var j :| RunOf(sys, j, id);
      assert RunOf(next, j, id);
    }
  }

  lemma RunStored(sys: System, i: nat)
    requires RunsKept(sys) && i < |sys.importers| && sys.importers[i].Ready?
    requires CommitOn(sys.store, sys.importers[i].state, sys.importers[i].artifact).Ok?
    ensures var p := sys.importers[i];
            RunsKept(With(sys.(store := CommitOn(sys.store, p.state, p.artifact).value), i, Committed(p.state, p.artifact)))
  {
    hide SetOf;
    var p := sys.importers[i];
    var next := With(sys.(store := CommitOn(sys.store, p.state, p.artifact).value), i, Committed(p.state, p.artifact));
    assert next.store.runs == sys.store.runs[p.artifact.runIdentity := p.artifact.report];
    forall id | id in next.store.runs
      ensures exists j :: RunOf(next, j, id)
    {
      if id == p.artifact.runIdentity {
        assert RunOf(next, i, id);
      } else {
        var j :| RunOf(sys, j, id);
        assert RunOf(next, j, id);
      }
    }
  }

  lemma RunsStep(world: World, inputs: seq<Bytes>, sys: System, step: Step)
    requires RunsKept(sys) && |inputs| == |sys.importers|
    ensures RunsKept(StepOn(world, inputs, sys, step))
  {
    hide RunsKept, BuildOn, CommitOn, LoadedFrom;
    var i := step.importer;
    if i < |inputs| {
      var p := sys.importers[i];
      match step
      case Load(_) =>
        if p.Waiting? {
          RunsUntouched(sys, i, Read(LoadedFrom(sys.store)));
        }
      case Prepare(_) =>
        if p.Read? {
          var built := BuildOn(world, inputs[i], p.state, Tackler.PreserveOmitted);
          RunsUntouched(sys, i, if built.Ok? then Ready(p.state, built.value) else Refused(NotPrepared(built.error)));
        }
      case Finish(_) =>
        if p.Ready? {
          var r := CommitOn(sys.store, p.state, p.artifact);
          if r.Ok? {
            RunStored(sys, i);
          } else {
            RunsUntouched(sys, i, Refused(r.error));
          }
        }
      case Abandon(_) =>
        if !p.Committed? && !p.Refused? {
          RunsUntouched(sys, i, Refused(Abandoned));
        }
    }
  }

  lemma {:induction false} RunsAlwaysKept(world: World, inputs: seq<Bytes>, steps: seq<Step>)
    ensures RunsKept(PlaySteps(world, inputs, steps))
  {
    hide StepOn;
    if steps != [] {
      var front := steps[..|steps| - 1];
      RunsAlwaysKept(world, inputs, front);
      RunsStep(world, inputs, PlaySteps(world, inputs, front), steps[|steps| - 1]);
    }
  }

  ghost predicate HashableInputs(world: World, inputs: seq<Bytes>) {
    InjectiveSha(world.env) && forall i | 0 <= i < |inputs| :: ShortDigest(world.env, inputs[i])
  }

  // An importer whose artifact is the one built from its input and its state.
  ghost predicate Prepared(world: World, input: Bytes, p: Phase) {
    (p.Ready? || p.Committed?) && BuildOn(world, input, p.state, Tackler.PreserveOmitted) == Ok(p.artifact)
  }

  lemma HeldIsPrepared(world: World, inputs: seq<Bytes>, sys: System, winners: seq<nat>, i: nat)
    requires Sound(world, inputs, sys, winners) && i < |inputs| && |winners| < GENERATIONS
    requires |sys.importers| == |inputs| && (sys.importers[i].Ready? || sys.importers[i].Committed?)
    ensures Prepared(world, inputs[i], sys.importers[i]) && sys.importers[i].state.generation <= |winners|
    ensures sys.store.generation == |winners|
    ensures Grew(sys.importers[i]) ==> sys.importers[i].state.generation < |winners|
    ensures sys.importers[i].state.generation == |winners| ==> sys.importers[i].state == LoadedFrom(sys.store)
  {
    hide BuildOn, StateAt, GoodCommits, LoadedFrom;
    var p, commits := sys.importers[i], EventsOf(inputs, winners);
    assert Holds(world, inputs[i], p, commits);
    var k: nat :| k <= |commits| && p.state == StateAt(world, commits, k);
    LoadedGeneration(sys.store);
    SmallCount(world, commits, |commits|);
    SmallCount(world, commits, k);
    if Grew(p) {
      var l :| 0 <= l < |winners| && winners[l] == i;
      assert WonAt(world, commits, sys, winners, l);
      SmallCount(world, commits, l);
    }
  }

  // Runs of prepared importers have one name exactly for one input at one
  // generation.
  lemma SameName(world: World, a: Bytes, p: Phase, b: Bytes, q: Phase)
    requires InjectiveSha(world.env) && ShortDigest(world.env, a) && ShortDigest(world.env, b)
    requires Prepared(world, a, p) && Prepared(world, b, q)
    requires p.state.generation < GENERATIONS && q.state.generation < GENERATIONS
    ensures p.artifact.runIdentity == q.artifact.runIdentity <==> a == b && p.state.generation == q.state.generation
  {
    hide BuildOn, RunIdentity, InjectiveSha, ShortDigest;
    NameOfRun(world, a, p.state, Tackler.PreserveOmitted);
    NameOfRun(world, b, q.state, Tackler.PreserveOmitted);
    RunIdentityDecides(world.env, a, p.state.generation, Tackler.PreserveOmitted, b, q.state.generation, Tackler.PreserveOmitted);
  }

  // The run of an import that would grow the generation it read, which the
  // database still has, is not stored yet.
  lemma GrowingRunIsNew(world: World, inputs: seq<Bytes>, steps: seq<Step>, i: nat)
    requires |inputs| < GENERATIONS && HashableInputs(world, inputs) && i < |inputs|
    requires var sys := PlaySteps(world, inputs, steps);
             && sys.importers[i].Ready? && sys.importers[i].state.generation == sys.store.generation
             && sys.importers[i].artifact.nextState.generation != sys.store.generation
    ensures var sys := PlaySteps(world, inputs, steps);
            sys.importers[i].artifact.runIdentity !in sys.store.runs
  {
    hide Sound, PlaySteps, BuildOn, InjectiveSha, ShortDigest, LoadedFrom;
    var sys := PlaySteps(world, inputs, steps);
    var winners := AllInterleavingsSound(world, inputs, steps);
    RunsAlwaysKept(world, inputs, steps);
    var p := sys.importers[i];
    HeldIsPrepared(world, inputs, sys, winners, i);
    if p.artifact.runIdentity in sys.store.runs {
      var j :| RunOf(sys, j, p.artifact.runIdentity);
      HeldIsPrepared(world, inputs, sys, winners, j);
      SameName(world, inputs[i], p, inputs[j], sys.importers[j]);
    }
  }

  // A ready import accepts something exactly when it would move the generation.
  lemma ReadyGain(world: World, inputs: seq<Bytes>, sys: System, winners: seq<nat>, i: nat)
    requires Sound(world, inputs, sys, winners) && i < |inputs| && |winners| < GENERATIONS && sys.importers[i].Ready?
    ensures var p := sys.importers[i];
            Gained(world, inputs[i], p.state) != {} <==> p.artifact.nextState.generation != p.state.generation
  {
    hide StateAt, BuildOn, LoadedFrom, Gained, GrowsAt, GoodState;
    var p, commits := sys.importers[i], EventsOf(inputs, winners);
    assert Holds(world, inputs[i], p, commits);
    var k: nat :| k <= |commits| && p.state == StateAt(world, commits, k);
    StateIsGood(world, commits, k);
    BuildAdds(world, inputs[i], p.state, Tackler.PreserveOmitted);
    GenerationMoves(p.state.generation);
  }

  // In every interleaving: of two imports that read the generation the database
  // still has and both accept something, the one that finishes first commits.
  // The other is refused without changing the database: as a repeated run when
  // the two inputs are the same, by the compare-and-set when they are not.
  lemma FirstWins(world: World, inputs: seq<Bytes>, steps: seq<Step>, i: nat, j: nat)
    requires |inputs| < GENERATIONS && HashableInputs(world, inputs) && i < |inputs| && j < |inputs| && i != j
    requires var sys := PlaySteps(world, inputs, steps);
             && sys.importers[i].Ready? && sys.importers[j].Ready?
             && sys.importers[i].state.generation == sys.store.generation == sys.importers[j].state.generation
             && Gained(world, inputs[i], sys.importers[i].state) != {}
             && Gained(world, inputs[j], sys.importers[j].state) != {}
    ensures var first := PlaySteps(world, inputs, steps + [Finish(i)]);
            var second := PlaySteps(world, inputs, steps + [Finish(i)] + [Finish(j)]);
            && first.importers[i].Committed? && second.importers[i].Committed? && second.store == first.store
            && second.importers[j] == Refused(if inputs[i] == inputs[j] then RunExists else Conflict)
  {
    hide Sound, PlaySteps, BuildOn, LoadedFrom, SetOf, Gained, InjectiveSha, ShortDigest;
    var sys := PlaySteps(world, inputs, steps);
    var winners := AllInterleavingsSound(world, inputs, steps);
    PlayNext(world, inputs, steps, Finish(i));
    PlayNext(world, inputs, steps + [Finish(i)], Finish(j));
    ReadyGain(world, inputs, sys, winners, i);
    ReadyGain(world, inputs, sys, winners, j);
    GrowingRunIsNew(world, inputs, steps, i);
    GrowingRunIsNew(world, inputs, steps, j);
    HeldIsPrepared(world, inputs, sys, winners, i);
    HeldIsPrepared(world, inputs, sys, winners, j);
    SameName(world, inputs[i], sys.importers[i], inputs[j], sys.importers[j]);
  }

  lemma PlayNext(world: World, inputs: seq<Bytes>, steps: seq<Step>, step: Step)
    ensures PlaySteps(world, inputs, steps + [step]) == StepOn(world, inputs, PlaySteps(world, inputs, steps), step)
  {
    hide StepOn;
    assert (steps + [step])[..|steps|] == steps;
  }

  // In every interleaving: an import of the same input, read at the generation
  // at which a committed import read it, is the same run; finishing it is
  // refused and leaves the database as it is.
  lemma RepeatedRunRefused(world: World, inputs: seq<Bytes>, steps: seq<Step>, i: nat, j: nat)
    requires |inputs| < GENERATIONS && i < |inputs| && j < |inputs| && inputs[i] == inputs[j]
    requires var sys := PlaySteps(world, inputs, steps);
             && sys.importers[i].Committed? && sys.importers[j].Ready?
             && sys.importers[i].state.generation == sys.importers[j].state.generation
    ensures var sys, after := PlaySteps(world, inputs, steps), PlaySteps(world, inputs, steps + [Finish(j)]);
            after.store == sys.store && after.importers[j] == Refused(RunExists)
  {
    hide Sound, PlaySteps, BuildOn, LoadedFrom, SetOf, RunIdentity;
    var sys := PlaySteps(world, inputs, steps);
    var winners := AllInterleavingsSound(world, inputs, steps);
    RunsAlwaysKept(world, inputs, steps);
    PlayNext(world, inputs, steps, Finish(j));
    HeldIsPrepared(world, inputs, sys, winners, i);
    HeldIsPrepared(world, inputs, sys, winners, j);
    NameOfRun(world, inputs[i], sys.importers[i].state, Tackler.PreserveOmitted);
    NameOfRun(world, inputs[j], sys.importers[j].state, Tackler.PreserveOmitted);
  }
}
