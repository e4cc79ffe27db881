// Building the artifact of one run from its input and the committed state.
module Builds {
  import opened Results
  import opened Orders
  import opened Ledger
  import opened Framing
  import opened Records
  import opened Ingest
  import Tackler

  // The 64-bit generation counter.
  const GENERATIONS: nat := 0x1_0000_0000_0000_0000

  datatype State = State(schemaVersion: int, generation: nat, identities: seq<RecordIdentity>)

  const STATE_SCHEMA_VERSION := 1

  const EMPTY_STATE := State(STATE_SCHEMA_VERSION, 0, [])

  // What JSON decoding and hashing provide.
  datatype World = World(env: Environment, decode: Bytes -> Option<Batch>)

  datatype Batch = Batch(schemaVersion: int, records: seq<Record>)

  datatype Report = Report(runIdentity: Digest, inputDigest: Digest, preStateGeneration: nat, outcomes: seq<Outcome>)

  datatype Artifact = Artifact(runIdentity: Digest, report: Report, journal: string, nextState: State, hasErrors: bool)

  datatype BuildError = UnsupportedStateVersion | InvalidState | InvalidInput | InvalidOptions | ExportFailed

  // Generation++ on a 64-bit counter.
  function NextGeneration(generation: nat): nat {
    (generation + 1) % GENERATIONS
  }

  predicate GoodIdentity(id: RecordIdentity) {
    (id.kind == EXTERNAL_ID || id.kind == FINGERPRINT) && id.algorithmVersion == IDENTITY_VERSION
  }

  predicate GoodIdentities(ids: seq<RecordIdentity>) {
    forall i | 0 <= i < |ids| :: GoodIdentity(ids[i])
  }

  // validateState
  method ValidateState(state: State) returns (fault: Option<BuildError>)
    ensures fault == if state.schemaVersion != STATE_SCHEMA_VERSION then Some(UnsupportedStateVersion)
                     else if !GoodIdentities(state.identities) then Some(InvalidState) else None
  {
    if state.schemaVersion != STATE_SCHEMA_VERSION {
      return Some(UnsupportedStateVersion);
    }
    for index := 0 to |state.identities|
      invariant forall i | 0 <= i < index :: GoodIdentity(state.identities[i])
    {
      var identity := state.identities[index];
      if identity.kind != EXTERNAL_ID && identity.kind != FINGERPRINT {
        return Some(InvalidState);
      }
      if identity.algorithmVersion != IDENTITY_VERSION {
        return Some(InvalidState);
      }
    }
    return None;
  }

  // The part of DecodeState after the JSON: versions, kinds and order.
  method DecodeState(state: State) returns (r: Result<State, BuildError>)
    ensures r == if state.schemaVersion != STATE_SCHEMA_VERSION then Err(UnsupportedStateVersion)
                 else if GoodIdentities(state.identities) && Increasing(state.identities, IdentityLess) then Ok(state)
                 else Err(InvalidState)
  {
    hide IdentityLess;
    var fault := ValidateState(state);
    if fault.Some? {
      return Err(fault.value);
    }
    var canonical := CanonicalIdentities(state.identities);
    CanonicalCheck(state.identities);
    if state.identities != canonical {
      return Err(InvalidState);
    }
    return Ok(state);
  }

  // canonicalState
  ghost function CanonicalState(state: State): State {
    state.(schemaVersion := if state.schemaVersion == 0 then STATE_SCHEMA_VERSION else state.schemaVersion,
           identities := Canonical(state.identities))
  }

  method MakeCanonical(state: State) returns (r: State)
    ensures r == CanonicalState(state)
  {
    hide Canonical;
    var ids := CanonicalIdentities(state.identities);
    r := state.(schemaVersion := if state.schemaVersion == 0 then STATE_SCHEMA_VERSION else state.schemaVersion, identities := ids);
  }

  // ------------------------------------------------------------ run identity

  function ModeNumber(mode: Tackler.OmittedAmounts): int {
    match mode
    case PreserveOmitted => 1
    case FillOmitted => 2
    case UnknownMode => 0
  }

  function RunFields(inputDigest: Digest, generation: nat, mode: Tackler.OmittedAmounts): seq<string> {
    ["bokiccio.run-identity", "v1", inputDigest, Itoa(generation), Itoa(ModeNumber(mode))]
  }

  // resolveRunIdentity
  function RunIdentity(env: Environment, input: Bytes, generation: nat, mode: Tackler.OmittedAmounts): Digest {
    env.sha(Stream(RunFields(env.sha(input), generation, mode)))
  }

  // The digest of an input fits in memory: it has 64 characters, and a
  // generation at most 20.
  ghost predicate ShortDigest(env: Environment, input: Bytes) {
    forall g: nat, m :: g < GENERATIONS ==> InMemory(RunFields(env.sha(input), g, m))
  }

  // A run's name determines its input, the generation it started from and its
  // export mode.
  lemma RunIdentityDecides(
    env: Environment, a: Bytes, g: nat, m: Tackler.OmittedAmounts, b: Bytes, h: nat, n: Tackler.OmittedAmounts)
    requires InjectiveSha(env) && ShortDigest(env, a) && ShortDigest(env, b) && g < GENERATIONS && h < GENERATIONS
    ensures RunIdentity(env, a, g, m) == RunIdentity(env, b, h, n) <==> a == b && g == h && m == n
  {
    hide Stream, InMemory, Itoa;
    var f, k := RunFields(env.sha(a), g, m), RunFields(env.sha(b), h, n);
    if RunIdentity(env, a, g, m) == RunIdentity(env, b, h, n) {
      assert InMemory(f) && InMemory(k);
      StreamInjective(f, k);
      assert f[2] == k[2] && f[3] == k[3] && f[4] == k[4];
      ItoaInjective(g, h);
      ItoaInjective(ModeNumber(m), ModeNumber(n));
    }
  }

  // ---------------------------------------------------------------- building

  // Decoding resolves the identity of every record.
  function Resolved(env: Environment, batch: Batch): seq<Record> {
    seq(|batch.records|, i requires 0 <= i < |batch.records| =>
      batch.records[i].(identity := IdentityOf(env, batch.schemaVersion, batch.records[i])))
  }

  method ResolveRecords(env: Environment, batch: Batch) returns (records: seq<Record>)
    ensures records == Resolved(env, batch)
  {
    hide IdentityOf;
    records := [];
    for i := 0 to |batch.records|
      invariant records == Resolved(env, batch)[..i]
    {
      var identity := ResolveIdentity(env, batch.schemaVersion, batch.records[i]);
      records := records + [batch.records[i].(identity := identity)];
    }
  }

  lemma ResolvedAreGood(env: Environment, batch: Batch)
    ensures forall r | r in Resolved(env, batch) :: GoodIdentity(r.identity)
  {
    hide Stream, IdentityFields;
  }

  // The identities accepted by a list of outcomes, in order.
  function AcceptedOf(outcomes: seq<Outcome>): seq<RecordIdentity> {
    if outcomes == [] then []
    else
      var last := outcomes[|outcomes| - 1];
      AcceptedOf(outcomes[..|outcomes| - 1]) + (if Accepted(last) then [last.identity] else [])
  }

  ghost function NextState(state: State, outcomes: seq<Outcome>): State {
    var ids := Canonical(state.identities + AcceptedOf(outcomes));
    state.(identities := ids,
           generation := if |ids| > |state.identities| then NextGeneration(state.generation) else state.generation)
  }

  function Journal(entries: seq<JournalEntry>, mode: Tackler.OmittedAmounts): Result<string, Tackler.ExportFault> {
    if entries == [] then Ok("") else Tackler.Export(entries, mode)
  }

  ghost predicate AnyFailed(outcomes: seq<Outcome>) {
    exists i :: 0 <= i < |outcomes| && outcomes[i].status == Failed
  }

  ghost function ArtifactOf(world: World, input: Bytes, state: State, mode: Tackler.OmittedAmounts, batch: Batch): Artifact
    requires mode != Tackler.UnknownMode
  {
    var records := Resolved(world.env, batch);
    var outcomes := OutcomesOf(records, SetOf(state.identities), |records|);
    var run := RunIdentity(world.env, input, state.generation, mode);
    ExportSucceeds(records, SetOf(state.identities), mode);
    Artifact(run, Report(run, world.env.sha(input), state.generation, outcomes), Journal(EntriesOf(outcomes), mode).value,
             NextState(state, outcomes), AnyFailed(outcomes))
  }

  // Build on a committed state.
  ghost function BuildOn(world: World, input: Bytes, given: State, mode: Tackler.OmittedAmounts): Result<Artifact, BuildError> {
    var state := CanonicalState(given);
    if state.schemaVersion != STATE_SCHEMA_VERSION then Err(UnsupportedStateVersion)
    else if !GoodIdentities(state.identities) then Err(InvalidState)
    else if world.decode(input).None? then Err(InvalidInput)
    else if mode == Tackler.UnknownMode then Err(InvalidOptions)
    else Ok(ArtifactOf(world, input, state, mode, world.decode(input).value))
  }

  // Every accepted entry is valid, so exporting the journal cannot fail.
  lemma ExportSucceeds(records: seq<Record>, committed: set<RecordIdentity>, mode: Tackler.OmittedAmounts)
    requires mode != Tackler.UnknownMode
    ensures Journal(EntriesOf(OutcomesOf(records, committed, |records|)), mode).Ok?
  {
    hide OutcomesOf, EntriesOf, Valid, Tackler.DocumentLines, Tackler.FillAll;
    var entries := EntriesOf(OutcomesOf(records, committed, |records|));
    EntriesAreValid(records, committed, |records|);
    Tackler.FirstInvalidNone(entries, 0);
  }

  method CollectAccepted(ids: seq<RecordIdentity>, outcomes: seq<Outcome>) returns (r: seq<RecordIdentity>)
    ensures r == ids + AcceptedOf(outcomes)
  {
    r := ids;
    assert outcomes[..0] == [];
    for i := 0 to |outcomes|
      invariant r == ids + AcceptedOf(outcomes[..i])
    {
      assert outcomes[..i + 1][..i] == outcomes[..i];
      var outcome := outcomes[i];
      if outcome.status == Success || outcome.status == Warned {
        r := r + [outcome.identity];
      }
    }
    assert outcomes[..|outcomes|] == outcomes;
  }

  method FindFailure(outcomes: seq<Outcome>) returns (found: bool)
    ensures found == AnyFailed(outcomes)
  {
    for i := 0 to |outcomes|
      invariant forall j | 0 <= j < i :: outcomes[j].status != Failed
    {
      if outcomes[i].status == Failed {
        return true;
      }
    }
    return false;
  }

  // Build
  method Build(world: World, input: Bytes, given: State, mode: Tackler.OmittedAmounts) returns (r: Result<Artifact, BuildError>)
    ensures r == BuildOn(world, input, given, mode)
  {
    hide Canonical, OutcomesOf, EntriesOf, RunIdentity, Resolved, Tackler.Export, AnyFailed, AcceptedOf, SetOf;
    var state := MakeCanonical(given);
    var fault := ValidateState(state);
    if fault.Some? {
      return Err(fault.value);
    }
    var batch := world.decode(input);
    if batch.None? {
      return Err(InvalidInput);
    }
    if mode != Tackler.PreserveOmitted && mode != Tackler.FillOmitted {
      return Err(InvalidOptions);
    }
    var records := ResolveRecords(world.env, batch.value);
    var processed := Process(records, state.identities);
    ExportSucceeds(records, SetOf(state.identities), mode);
    var journal := "";
    if |processed.entries| > 0 {
      var exported := Tackler.ExportEntries(processed.entries, mode);
      if exported.Err? {
        assert false;
        return Err(ExportFailed);
      }
      journal := exported.value;
    }
    var run := RunIdentity(world.env, input, state.generation, mode);
    var report := Report(run, world.env.sha(input), state.generation, processed.outcomes);
    var grown := CollectAccepted(state.identities, processed.outcomes);
    var ids := CanonicalIdentities(grown);
    var next := state.(identities := ids);
    if |next.identities| > |state.identities| {
      next := next.(generation := NextGeneration(next.generation));
    }
    var failed := FindFailure(processed.outcomes);
    return Ok(Artifact(run, report, journal, next, failed));
  }

  // ------------------------------------------------------- what a build keeps

  // A state as EncodeState writes it.
  predicate GoodState(s: State) {
    && s.schemaVersion == STATE_SCHEMA_VERSION && s.generation < GENERATIONS && GoodIdentities(s.identities)
    && Increasing(s.identities, IdentityLess)
  }

  ghost function Gained(world: World, input: Bytes, state: State): set<RecordIdentity> {
    if world.decode(input).None? then {}
    else AcceptedIds(Resolved(world.env, world.decode(input).value), SetOf(state.identities))
  }

  // The identities accepted among the first n records.
  ghost function AcceptedFirst(records: seq<Record>, committed: set<RecordIdentity>, n: nat): set<RecordIdentity>
    requires n <= |records|
  {
    set i | 0 <= i < n && Accepted(OutcomeOf(records, committed, i)) :: records[i].identity
  }

  lemma AcceptedFirstStep(records: seq<Record>, committed: set<RecordIdentity>, n: nat)
    requires n < |records|
    ensures AcceptedFirst(records, committed, n + 1) == AcceptedFirst(records, committed, n)
          + (if Accepted(OutcomeOf(records, committed, n)) then {records[n].identity} else {})
  {
    hide OutcomeOf, Accepted;
  }

  lemma {:induction false} AcceptedSet(records: seq<Record>, committed: set<RecordIdentity>, n: nat)
    requires n <= |records|
    ensures SetOf(AcceptedOf(OutcomesOf(records, committed, n))) == AcceptedFirst(records, committed, n)
  {
    hide OutcomeOf, Accepted, AcceptedFirst, SetOf;
    if n == 0 {
      NothingAccepted(records, committed);
    } else {
      AcceptedSet(records, committed, n - 1);
      AcceptedFirstStep(records, committed, n - 1);
      var outcomes, last := OutcomesOf(records, committed, n - 1), OutcomeOf(records, committed, n - 1);
      OutcomeIdentity(records, committed, n - 1);
      assert (outcomes + [last])[..|outcomes|] == outcomes;
      SetOfAppend(AcceptedOf(outcomes), if Accepted(last) then [last.identity] else []);
      SetOfOne(last.identity);
    }
  }

  lemma NothingAccepted(records: seq<Record>, committed: set<RecordIdentity>)
    ensures AcceptedFirst(records, committed, 0) == {} && SetOf(AcceptedOf([])) == {}
  {
  }

  lemma SetOfOne<T>(x: T)
    ensures SetOf([x]) == {x} && SetOf<T>([]) == {}
  {
  }

  lemma SetOfAppend<T>(a: seq<T>, b: seq<T>)
    ensures SetOf(a + b) == SetOf(a) + SetOf(b)
  {
  }

  lemma OutcomeIdentity(records: seq<Record>, committed: set<RecordIdentity>, i: nat)
    requires i < |records|
    ensures OutcomeOf(records, committed, i).identity == records[i].identity
  {
    hide Validate, Project;
  }

  lemma {:induction false} DistinctSize(s: seq<RecordIdentity>)
    requires Increasing(s, IdentityLess)
    ensures |SetOf(s)| == |s|
  {
    hide IdentityLess;
    IdentityOrder();
    if s != [] {
      DistinctSize(s[1..]);
      assert s == [s[0]] + s[1..];
      assert SetOf(s) == {s[0]} + SetOf(s[1..]);
      assert s[0] !in SetOf(s[1..]);
    }
  }

  lemma BiggerSet<T>(a: set<T>, b: set<T>)
    requires a !! b
    ensures |a + b| > |a| <==> b != {}
  {
    assert |a + b| == |a| + |b|;
  }

  lemma {:induction false} AcceptedGood(outcomes: seq<Outcome>)
    requires forall i | 0 <= i < |outcomes| :: GoodIdentity(outcomes[i].identity)
    ensures GoodIdentities(AcceptedOf(outcomes))
  {
    hide GoodIdentity;
    if outcomes != [] {
      AcceptedGood(outcomes[..|outcomes| - 1]);
    }
  }

  lemma NextIdentities(records: seq<Record>, state: State)
    requires GoodState(state) && forall i | 0 <= i < |records| :: GoodIdentity(records[i].identity)
    ensures var committed := SetOf(state.identities);
            var next := NextState(state, OutcomesOf(records, committed, |records|));
            var gained := AcceptedIds(records, committed);
            && GoodState(next) && SetOf(next.identities) == committed + gained
            && next.generation == (if gained == {} then state.generation else NextGeneration(state.generation))
            && (gained == {} ==> next == state)
  {
    hide OutcomeOf, Accepted, Canonical, IdentityLess, GoodIdentity, OutcomesOf, AcceptedOf;
    var committed := SetOf(state.identities);
    var outcomes := OutcomesOf(records, committed, |records|);
    var ids := state.identities + AcceptedOf(outcomes);
    AcceptedSet(records, committed, |records|);
    assert AcceptedFirst(records, committed, |records|) == AcceptedIds(records, committed);
    SetOfAppend(state.identities, AcceptedOf(outcomes));
    CanonicalIs(ids);
    DistinctSize(state.identities);
    DistinctSize(Canonical(ids));
    AcceptedAreNew(records, committed);
    BiggerSet(committed, AcceptedIds(records, committed));
    OutcomesGood(records, committed);
    AcceptedGood(outcomes);
    GoodSet(state.identities, AcceptedOf(outcomes), Canonical(ids));
    if AcceptedIds(records, committed) == {} {
      CanonicalUnique(ids, state.identities);
    }
  }

  lemma OutcomesGood(records: seq<Record>, committed: set<RecordIdentity>)
    requires forall i | 0 <= i < |records| :: GoodIdentity(records[i].identity)
    ensures var outcomes := OutcomesOf(records, committed, |records|);
            forall i | 0 <= i < |outcomes| :: GoodIdentity(outcomes[i].identity)
  {
    hide GoodIdentity, OutcomeOf, OutcomesOf;
    OutcomeCount(records, committed, |records|);
    forall i | 0 <= i < |records|
      ensures GoodIdentity(OutcomesOf(records, committed, |records|)[i].identity)
    {
      OutcomeAt(records, committed, |records|, i);
      OutcomeIdentity(records, committed, i);
    }
  }

  lemma GoodSet(a: seq<RecordIdentity>, b: seq<RecordIdentity>, c: seq<RecordIdentity>)
    requires GoodIdentities(a) && GoodIdentities(b) && SetOf(c) == SetOf(a) + SetOf(b)
    ensures GoodIdentities(c)
  {
    hide GoodIdentity;
    forall i | 0 <= i < |c|
      ensures GoodIdentity(c[i])
    {
      assert c[i] in SetOf(c);
    }
  }

  lemma GoodIsCanonical(state: State)
    requires GoodState(state)
    ensures CanonicalState(state) == state
  {
    hide IdentityLess, Canonical;
    CanonicalCheck(state.identities);
  }

  // The next state is strictly sorted and is exactly the old identities plus
  // the newly accepted ones, which are disjoint from them; the generation moves
  // exactly when something was accepted.
  lemma BuildAdds(world: World, input: Bytes, state: State, mode: Tackler.OmittedAmounts)
    requires GoodState(state) && BuildOn(world, input, state, mode).Ok?
    ensures var next, gained := BuildOn(world, input, state, mode).value.nextState, Gained(world, input, state);
            && GoodState(next) && SetOf(next.identities) == SetOf(state.identities) + gained
            && gained !! SetOf(state.identities)
            && next.generation == (if gained == {} then state.generation else NextGeneration(state.generation))
            && (gained == {} ==> next == state)
  {
    hide OutcomesOf, AcceptedIds, GoodState, SetOf, NextState, CanonicalState, RunIdentity, Journal, AnyFailed, Resolved;
    GoodIsCanonical(state);
    var batch := world.decode(input).value;
    var records := Resolved(world.env, batch);
    ResolvedAreGood(world.env, batch);
    NextIdentities(records, state);
    AcceptedAreNew(records, SetOf(state.identities));
  }

  // A build is refused for a state of an unknown version, for an identity of an
  // unknown kind or version in it, for an input that does not decode, or for an
  // unknown mode, in that order; the order of the given identities is irrelevant.
  lemma BuildRefusedIff(world: World, input: Bytes, given: State, mode: Tackler.OmittedAmounts)
    ensures var known := forall id | id in given.identities :: id.kind in {EXTERNAL_ID, FINGERPRINT} && id.algorithmVersion == 1;
            BuildOn(world, input, given, mode).Err? <==>
              given.schemaVersion !in {0, 1} || !known || world.decode(input) == None || mode == Tackler.UnknownMode
    ensures var known := forall id | id in given.identities :: id.kind in {EXTERNAL_ID, FINGERPRINT} && id.algorithmVersion == 1;
            BuildOn(world, input, given, mode).Err? ==>
              BuildOn(world, input, given, mode).error ==
              if given.schemaVersion !in {0, 1} then UnsupportedStateVersion else if !known then InvalidState
              else if world.decode(input) == None then InvalidInput else InvalidOptions
    ensures forall other: State | other.schemaVersion == given.schemaVersion && other.generation == given.generation
              && SetOf(other.identities) == SetOf(given.identities) ::
              BuildOn(world, input, other, mode) == BuildOn(world, input, given, mode)
  {
    hide Canonical, ArtifactOf, IdentityLess;
    CanonicalIs(given.identities);
    forall other: State | other.schemaVersion == given.schemaVersion && other.generation == given.generation
      && SetOf(other.identities) == SetOf(given.identities)
      ensures CanonicalState(other) == CanonicalState(given)
    {
      CanonicalIs(other.identities);
      CanonicalUnique(other.identities, Canonical(given.identities));
    }
    var ids := Canonical(given.identities);
    assert forall id :: id in SetOf(ids) <==> id in SetOf(given.identities);
    assert forall id :: id in SetOf(ids) <==> id in ids;
    assert forall id :: id in SetOf(given.identities) <==> id in given.identities;
    assert forall i | 0 <= i < |ids| :: ids[i] in ids;
  }

  // The record would enter the ledger if its entry were valid.
  ghost predicate IsFirst(records: seq<Record>, committed: seq<RecordIdentity>, i: nat)
    requires i < |records|
  {
    records[i].identity !in committed && forall j | 0 <= j < i :: records[j].identity != records[i].identity
  }

  // An artifact reports on its own input and starting generation, one outcome a
  // record, and has errors exactly when some record with an identity neither
  // committed nor earlier in the batch projects to an invalid entry.
  lemma BuildReports(world: World, input: Bytes, state: State, mode: Tackler.OmittedAmounts)
    requires GoodState(state) && BuildOn(world, input, state, mode).Ok?
    ensures var a, records := BuildOn(world, input, state, mode).value, Resolved(world.env, world.decode(input).value);
            && a.report.runIdentity == a.runIdentity == RunIdentity(world.env, input, state.generation, mode)
            && a.report.inputDigest == world.env.sha(input) && a.report.preStateGeneration == state.generation
            && |a.report.outcomes| == |records|
            && (a.hasErrors <==> exists i: nat :: i < |records| && IsFirst(records, state.identities, i) && !Valid(Project(records[i])))
            && (a.journal != "" <==> exists i: nat :: i < |records| && IsFirst(records, state.identities, i) && Valid(Project(records[i])))
  {
    hide OutcomesOf, Resolved, RunIdentity, GoodState, NextState, CanonicalState, Valid, Project, EntriesOf, Tackler.Export, OutcomeOf, Accepted;
    GoodIsCanonical(state);
    var records, committed := Resolved(world.env, world.decode(input).value), SetOf(state.identities);
    var outcomes := OutcomesOf(records, committed, |records|);
    OutcomeCount(records, committed, |records|);
    forall i: nat | i < |records|
      ensures IsFirst(records, state.identities, i) <==> records[i].identity !in committed && !EarlierInBatch(records, i)
      ensures outcomes[i].status == Failed <==> IsFirst(records, state.identities, i) && !Valid(Project(records[i]))
      ensures Accepted(OutcomeOf(records, committed, i)) <==> IsFirst(records, state.identities, i) && Valid(Project(records[i]))
    {
      StatusIff(records, committed, i);
      AcceptedIff(records, committed, i);
    }
    EntriesIffAccepted(records, committed, |records|);
    ExportSucceeds(records, committed, mode);
    JournalHasText(EntriesOf(outcomes), mode);
  }

  lemma JournalHasText(entries: seq<JournalEntry>, mode: Tackler.OmittedAmounts)
    requires Journal(entries, mode).Ok?
    ensures Journal(entries, mode).value == "" <==> entries == []
  {
    hide Tackler.FirstInvalid, Tackler.EntryLines, Filled;
    if entries != [] {
      Tackler.FirstInvalidNone(entries, 0);
      var written := if mode == Tackler.FillOmitted then Tackler.FillAll(entries) else entries;
      assert written != [];
      var lines := Tackler.DocumentLines(written);
      assert Tackler.EntryLines(written[|written| - 1]) != [] by {
        HasHeaderLine(written[|written| - 1]);
      }
      assert lines != [];
    }
  }

  lemma HasHeaderLine(e: JournalEntry)
    ensures Tackler.EntryLines(e) != []
  {
  }

  // Building the same input again on the state it produced accepts nothing,
  // yields no journal and leaves the state as it is.
  lemma RerunIsNoOp(world: World, input: Bytes, state: State, mode: Tackler.OmittedAmounts)
    requires GoodState(state) && BuildOn(world, input, state, mode).Ok?
    ensures var next := BuildOn(world, input, state, mode).value.nextState;
            var again := BuildOn(world, input, next, mode);
            again.Ok? && again.value.journal == "" && again.value.nextState == next && Gained(world, input, next) == {}
  {
    hide OutcomesOf, OutcomeOf, AcceptedIds, GoodIdentities, SetOf, NextState, CanonicalState, RunIdentity, AnyFailed, Resolved, Accepted, Tackler.Export, EntriesOf;
    BuildAdds(world, input, state, mode);
    var next := BuildOn(world, input, state, mode).value.nextState;
    GoodIsCanonical(next);
    var records := Resolved(world.env, world.decode(input).value);
    NothingGained(records, SetOf(state.identities));
    EntriesIffAccepted(records, SetOf(next.identities), |records|);
    BuildAdds(world, input, next, mode);
  }

  lemma NothingGained(records: seq<Record>, committed: set<RecordIdentity>)
    ensures var after := committed + AcceptedIds(records, committed);
            && AcceptedIds(records, after) == {}
            && forall i | 0 <= i < |records| :: !Accepted(OutcomeOf(records, after, i))
  {
    hide OutcomeOf, Accepted;
    forall i | 0 <= i < |records|
      ensures !Accepted(OutcomeOf(records, committed + AcceptedIds(records, committed), i))
    {
      NothingLeft(records, committed, i);
    }
  }
}
