// Processing one batch of records against the committed identities.
module Ingest {
  import opened Results
  import opened Orders
  import opened Ledger
  import opened Records

  // --------------------------------------------------------- identity order

  // compareIdentity
  predicate IdentityLess(a: RecordIdentity, b: RecordIdentity) {
    || TextLess(a.kind, b.kind)
    || (a.kind == b.kind && (a.algorithmVersion < b.algorithmVersion
                             || (a.algorithmVersion == b.algorithmVersion && TextLess(a.digest, b.digest))))
  }

  predicate NotAfter(a: RecordIdentity, b: RecordIdentity) {
    !IdentityLess(b, a)
  }

  lemma IdentityOrder()
    ensures StrictTotal(IdentityLess) && TotalPreorder(NotAfter)
  {
    hide TextLess;
    TextOrder();
    forall x, y, z
      ensures IdentityLess(x, y) && IdentityLess(y, z) ==> IdentityLess(x, z)
      ensures IdentityLess(x, y) || x == y || IdentityLess(y, x)
      ensures !IdentityLess(x, x)
    {
    }
    forall x, y, z | NotAfter(x, y) && NotAfter(y, z)
      ensures NotAfter(x, z)
    {
    }
  }

  ghost function SetOf<T>(s: seq<T>): set<T> {
    set x | x in s
  }

  // The distinct identities in order.
  ghost function Canonical(ids: seq<RecordIdentity>): seq<RecordIdentity> {
    IdentityOrder();
    Sorted(SetOf(ids), IdentityLess)
  }

  lemma CanonicalIs(ids: seq<RecordIdentity>)
    ensures Increasing(Canonical(ids), IdentityLess) && SetOf(Canonical(ids)) == SetOf(ids)
  {
    hide IdentityLess;
    IdentityOrder();
  }

  lemma CanonicalUnique(ids: seq<RecordIdentity>, r: seq<RecordIdentity>)
    requires Increasing(r, IdentityLess) && SetOf(r) == SetOf(ids)
    ensures r == Canonical(ids)
  {
    hide IdentityLess;
    IdentityOrder();
    assert forall x :: x in r <==> x in SetOf(r);
    assert forall x :: x in Canonical(ids) <==> x in SetOf(ids);
    IncreasingUnique(r, Canonical(ids), IdentityLess);
  }

  // The order check of DecodeState accepts exactly canonical lists.
  lemma CanonicalCheck(ids: seq<RecordIdentity>)
    ensures Canonical(ids) == ids <==> Increasing(ids, IdentityLess)
  {
    hide IdentityLess;
    CanonicalIs(ids);
    if Increasing(ids, IdentityLess) {
      CanonicalUnique(ids, ids);
    }
  }

  // The compacted part holds the distinct identities read so far.
  ghost predicate Compacted(kept: seq<RecordIdentity>, sorted: seq<RecordIdentity>, read: nat)
    requires read <= |sorted|
  {
    Increasing(kept, IdentityLess) && SetOf(kept) == SetOf(sorted[..read]) && (read > 0 ==> kept != [] && kept[|kept| - 1] == sorted[read - 1])
  }

  lemma CompactStep(kept: seq<RecordIdentity>, sorted: seq<RecordIdentity>, read: nat)
    requires read < |sorted| && OrderedBy(sorted, NotAfter) && Compacted(kept, sorted, read)
    ensures kept != [] && kept[|kept| - 1] == sorted[read] ==> Compacted(kept, sorted, read + 1)
    ensures !(kept != [] && kept[|kept| - 1] == sorted[read]) ==> Compacted(kept + [sorted[read]], sorted, read + 1)
  {
    hide IdentityLess;
    IdentityOrder();
    var x := sorted[read];
    assert sorted[..read + 1] == sorted[..read] + [x];
    assert SetOf(sorted[..read + 1]) == SetOf(sorted[..read]) + {x};
    if kept != [] && kept[|kept| - 1] == x {
      assert x in SetOf(kept);
    } else {
      var next := kept + [x];
      assert SetOf(next) == SetOf(kept) + {x};
      if read > 0 {
        assert NotAfter(sorted[read - 1], x);
      } else {
        assert sorted[..0] == [];
        assert SetOf(kept) == {};
        assert kept == [] by { NothingIn(kept); }
      }
    }
  }

  lemma NothingIn<T>(s: seq<T>)
    ensures SetOf(s) == {} ==> s == []
  {
    if s != [] {
      assert s[0] in SetOf(s);
    }
  }

  // canonicalState: sort a copy, then compact it in place behind a write index.
  method CanonicalIdentities(ids: seq<RecordIdentity>) returns (r: seq<RecordIdentity>)
    ensures r == Canonical(ids)
  {
    hide IdentityLess, NotAfter, Compacted;
    var sorted := SortBy(ids, NotAfter);
    SortedIdentities(ids);
    var a := new RecordIdentity[|sorted|](i requires 0 <= i < |sorted| => sorted[i]);
    assert a[..] == sorted;
    var write := 0;
    NothingCompacted(sorted);
    for read := 0 to a.Length
      invariant 0 <= write <= read
      invariant a[read..] == sorted[read..]
      invariant Compacted(a[..write], sorted, read)
    {
      assert a[read] == a[read..][0] == sorted[read];
      CompactStep(a[..write], sorted, read);
      var identity := a[read];
      assert a[read + 1..] == a[read..][1..] == sorted[read + 1..];
      if write > 0 && a[write - 1] == identity {
        continue;
      }
      a[write] := identity;
      write := write + 1;
      assert a[..write] == a[..write - 1] + [identity];
    }
    r := a[..write];
    CompactedAll(r, sorted);
    SameSets(sorted, ids);
    CanonicalUnique(ids, r);
  }

  lemma SortedIdentities(ids: seq<RecordIdentity>)
    ensures OrderedBy(SortBy(ids, NotAfter), NotAfter) && forall x :: x in SortBy(ids, NotAfter) <==> x in ids
  {
    hide NotAfter;
    IdentityOrder();
    SortByOrdered(ids, NotAfter);
    SortByMembers(ids, NotAfter);
  }

  lemma NothingCompacted(sorted: seq<RecordIdentity>)
    ensures Compacted([], sorted, 0)
  {
  }

  lemma CompactedAll(kept: seq<RecordIdentity>, sorted: seq<RecordIdentity>)
    requires Compacted(kept, sorted, |sorted|)
    ensures Increasing(kept, IdentityLess) && SetOf(kept) == SetOf(sorted)
  {
    assert sorted[..|sorted|] == sorted;
  }

  lemma SameSets<T>(a: seq<T>, b: seq<T>)
    requires forall x :: x in a <==> x in b
    ensures SetOf(a) == SetOf(b)
  {
  }

  // ------------------------------------------------------ projecting a record

  datatype Status = Success | Warned | Failed | Duplicate

  datatype Diagnostic = AlreadyCommitted | DuplicateInBatch | Candidate(warning: CandidateWarning) | Rejected(fault: Fault)

  datatype Outcome = Outcome(
    recordIndex: nat, identity: RecordIdentity, source: Source, status: Status, diagnostics: seq<Diagnostic>,
    entry: Option<JournalEntry>)

  datatype ProcessResult = ProcessResult(outcomes: seq<Outcome>, entries: seq<JournalEntry>)

  function WarningText(w: CandidateWarning): string {
    "WARN [" + w.code + "]: " + w.message
  }

  function Noted(comment: string, note: string): string {
    if comment == "" then note else comment + " / " + note
  }

  predicate Aims(w: CandidateWarning, k: int, count: nat) {
    w.postingIndex == Some(k) && 0 <= k < count
  }

  // A posting's comment followed by the warnings aimed at it.
  function CommentAt(comment: string, warnings: seq<CandidateWarning>, k: nat): string {
    if warnings == [] then comment
    else
      var before, last := CommentAt(comment, warnings[..|warnings| - 1], k), warnings[|warnings| - 1];
      if last.postingIndex == Some(k) then Noted(before, WarningText(last)) else before
  }

  // The warnings that are about no posting of the entry.
  function EntryNotes(warnings: seq<CandidateWarning>, count: nat): seq<string> {
    if warnings == [] then []
    else
      var before, last := EntryNotes(warnings[..|warnings| - 1], count), warnings[|warnings| - 1];
      if last.postingIndex.Some? && Aims(last, last.postingIndex.value, count) then before else before + [WarningText(last)]
  }

  function PostingAt(r: Record, warnings: seq<CandidateWarning>, k: nat): Posting
    requires k < |r.postings|
  {
    var p := r.postings[k];
    Posting(p.account, p.amount, p.totalPrice, CommentAt(p.comment, warnings, k))
  }

  function ProjectWith(r: Record, warnings: seq<CandidateWarning>): JournalEntry {
    JournalEntry(r.occurredAt, r.description,
                 ["source: " + r.source.display] + r.comments + EntryNotes(warnings, |r.postings|),
                 seq(|r.postings|, k requires 0 <= k < |r.postings| => PostingAt(r, warnings, k)))
  }

  // The journal entry a record becomes.
  function Project(r: Record): JournalEntry {
    ProjectWith(r, r.warnings)
  }

  function Candidates(warnings: seq<CandidateWarning>): seq<Diagnostic> {
    seq(|warnings|, i requires 0 <= i < |warnings| => Candidate(warnings[i]))
  }

  lemma WarningStep(r: Record, n: nat)
    requires n < |r.warnings|
    ensures var w, count := r.warnings[n], |r.postings|;
            var before, after := ProjectWith(r, r.warnings[..n]), ProjectWith(r, r.warnings[..n + 1]);
            && |before.postings| == count
            && (if w.postingIndex.Some? && Aims(w, w.postingIndex.value, count)
                then after == before.(postings := before.postings[w.postingIndex.value :=
                       before.postings[w.postingIndex.value].(comment :=
                         Noted(before.postings[w.postingIndex.value].comment, WarningText(w)))])
                else after == before.(comments := before.comments + [WarningText(w)]))
  {
    hide WarningText, Noted;
    assert r.warnings[..n + 1][..n] == r.warnings[..n];
    var w, count := r.warnings[n], |r.postings|;
    var before, after := ProjectWith(r, r.warnings[..n]), ProjectWith(r, r.warnings[..n + 1]);
    forall k | 0 <= k < count
      ensures after.postings[k] == if w.postingIndex == Some(k)
                                   then before.postings[k].(comment := Noted(before.postings[k].comment, WarningText(w)))
                                   else before.postings[k]
    {
    }
  }

  lemma NoWarnings(r: Record)
    ensures ProjectWith(r, []) ==
            JournalEntry(r.occurredAt, r.description, ["source: " + r.source.display] + r.comments,
                         seq(|r.postings|, k requires 0 <= k < |r.postings| =>
                           Posting(r.postings[k].account, r.postings[k].amount, r.postings[k].totalPrice, r.postings[k].comment)))
  {
  }

  // projectRecord: warnings are written into the comments in place.
  method ProjectRecord(r: Record) returns (entry: JournalEntry, diagnostics: seq<Diagnostic>)
    ensures entry == Project(r) && diagnostics == Candidates(r.warnings)
  {
    hide ProjectWith, WarningText, Noted;
    entry := JournalEntry(
      r.occurredAt, r.description, ["source: " + r.source.display] + r.comments,
      seq(|r.postings|, k requires 0 <= k < |r.postings| =>
        Posting(r.postings[k].account, r.postings[k].amount, r.postings[k].totalPrice, r.postings[k].comment)));
    diagnostics := [];
    NoWarnings(r);
    assert r.warnings[..0] == [];
    for n := 0 to |r.warnings|
      invariant entry == ProjectWith(r, r.warnings[..n])
      invariant diagnostics == Candidates(r.warnings[..n])
    {
      var warning := r.warnings[n];
      WarningStep(r, n);
      diagnostics := diagnostics + [Candidate(warning)];
      assert Candidates(r.warnings[..n + 1]) == Candidates(r.warnings[..n]) + [Candidate(warning)];
      var comment := WarningText(warning);
      if warning.postingIndex.Some? && 0 <= warning.postingIndex.value < |entry.postings| {
        var index := warning.postingIndex.value;
        var posting := entry.postings[index];
        entry := entry.(postings := entry.postings[index := posting.(comment := Noted(posting.comment, comment))]);
        continue;
      }
      entry := entry.(comments := entry.comments + [comment]);
    }
    assert r.warnings[..|r.warnings|] == r.warnings;
  }

  // Whether a text is contained in another.
  ghost predicate Contains(text: string, part: string) {
    exists before, after :: text == before + part + after
  }

  lemma NotedContains(comment: string, note: string, part: string)
    ensures Contains(Noted(comment, note), note)
    ensures Contains(comment, part) ==> Contains(Noted(comment, note), part)
  {
    if comment == "" {
      assert note == "" + note + "";
      if Contains(comment, part) {
        assert part == "";
        assert note == "" + part + note;
      }
    } else {
      var text := comment + " / " + note;
      assert text == comment + " / " + note + "";
      if Contains(comment, part) {
        var before, after :| comment == before + part + after;
        assert text == before + part + (after + " / " + note);
      }
    }
  }

  lemma {:induction false} AimedIsShown(comment: string, warnings: seq<CandidateWarning>, k: nat, i: nat)
    requires i < |warnings| && warnings[i].postingIndex == Some(k)
    ensures Contains(CommentAt(comment, warnings, k), WarningText(warnings[i]))
  {
    hide Contains, Noted, WarningText;
    var n := |warnings| - 1;
    var before := CommentAt(comment, warnings[..n], k);
    if i == n {
      NotedContains(before, WarningText(warnings[n]), "");
    } else {
      AimedIsShown(comment, warnings[..n], k, i);
      NotedContains(before, WarningText(warnings[n]), WarningText(warnings[i]));
    }
  }

  lemma {:induction false} NoteIsListed(warnings: seq<CandidateWarning>, count: nat, i: nat)
    requires i < |warnings|
    requires !(warnings[i].postingIndex.Some? && Aims(warnings[i], warnings[i].postingIndex.value, count))
    ensures WarningText(warnings[i]) in EntryNotes(warnings, count)
  {
    hide WarningText;
    if i < |warnings| - 1 {
      NoteIsListed(warnings[..|warnings| - 1], count, i);
    }
  }

  // No warning is lost: it is found in the comment of the posting it names, or
  // else among the comments of the entry. Everything that is balanced and
  // classified is taken over from the record unchanged.
  lemma WarningsAreKept(r: Record, i: nat)
    requires i < |r.warnings|
    ensures var w, e := r.warnings[i], Project(r);
            && |e.postings| == |r.postings|
            && (if w.postingIndex.Some? && 0 <= w.postingIndex.value < |r.postings|
                then Contains(e.postings[w.postingIndex.value].comment, WarningText(w))
                else WarningText(w) in e.comments)
            && forall k | 0 <= k < |r.postings| ::
                 && e.postings[k].account == r.postings[k].account && e.postings[k].amount == r.postings[k].amount
                 && e.postings[k].totalPrice == r.postings[k].totalPrice
  {
    hide Contains, CommentAt, EntryNotes, WarningText;
    var w := r.warnings[i];
    if w.postingIndex.Some? && 0 <= w.postingIndex.value < |r.postings| {
      AimedIsShown(r.postings[w.postingIndex.value].comment, r.warnings, w.postingIndex.value, i);
    } else {
      NoteIsListed(r.warnings, |r.postings|, i);
    }
  }

  // -------------------------------------------------------------- processing

  predicate OccursBefore(records: seq<Record>, n: nat, id: RecordIdentity)
    requires n <= |records|
  {
    exists j :: 0 <= j < n && records[j].identity == id
  }

  predicate EarlierInBatch(records: seq<Record>, i: nat)
    requires i < |records|
  {
    OccursBefore(records, i, records[i].identity)
  }

  // The outcome of record i, given the committed identities.
  ghost function OutcomeOf(records: seq<Record>, committed: set<RecordIdentity>, i: nat): Outcome
    requires i < |records|
  {
    var r := records[i];
    var fault := Validate(Project(r));
    if r.identity in committed then Outcome(i, r.identity, r.source, Duplicate, [AlreadyCommitted], None)
    else if EarlierInBatch(records, i) then Outcome(i, r.identity, r.source, Duplicate, [DuplicateInBatch], None)
    else if fault.Some?
    then Outcome(i, r.identity, r.source, Failed, Candidates(r.warnings) + [Rejected(fault.value)], None)
    else
      Outcome(i, r.identity, r.source, if r.warnings == [] then Success else Warned, Candidates(r.warnings), Some(Project(r)))
  }

  // Outcomes of the first n records.
  ghost function OutcomesOf(records: seq<Record>, committed: set<RecordIdentity>, n: nat): seq<Outcome>
    requires n <= |records|
  {
    if n == 0 then [] else OutcomesOf(records, committed, n - 1) + [OutcomeOf(records, committed, n - 1)]
  }

  predicate Accepted(o: Outcome) {
    o.status == Success || o.status == Warned
  }

  function EntriesOf(outcomes: seq<Outcome>): seq<JournalEntry> {
    if outcomes == [] then []
    else
      var last := outcomes[|outcomes| - 1];
      EntriesOf(outcomes[..|outcomes| - 1]) + (if last.entry.Some? then [last.entry.value] else [])
  }

  lemma {:induction false} OutcomeAt(records: seq<Record>, committed: set<RecordIdentity>, n: nat, i: nat)
    requires i < n <= |records|
    ensures |OutcomesOf(records, committed, n)| == n && OutcomesOf(records, committed, n)[i] == OutcomeOf(records, committed, i)
  {
    hide OutcomeOf;
    if i < n - 1 {
      OutcomeAt(records, committed, n - 1, i);
    } else if n > 1 {
      OutcomeAt(records, committed, n - 1, 0);
    }
  }

  lemma OutcomeCount(records: seq<Record>, committed: set<RecordIdentity>, n: nat)
    requires n <= |records|
    ensures |OutcomesOf(records, committed, n)| == n
  {
    hide OutcomeOf;
    if n > 0 {
      OutcomeAt(records, committed, n, 0);
    }
  }

  ghost predicate SeenIs(seen: set<RecordIdentity>, records: seq<Record>, committed: set<RecordIdentity>, n: nat)
    requires n <= |records|
  {
    forall x :: x in seen <==> x !in committed && OccursBefore(records, n, x)
  }

  lemma SeenStep(seen: set<RecordIdentity>, records: seq<Record>, committed: set<RecordIdentity>, n: nat)
    requires n < |records| && SeenIs(seen, records, committed, n)
    ensures var id := records[n].identity;
            && (id !in committed ==> (id in seen <==> EarlierInBatch(records, n)))
            && (id in committed || id in seen ==> SeenIs(seen, records, committed, n + 1))
            && (id !in committed ==> SeenIs(seen + {id}, records, committed, n + 1))
  {
    var id := records[n].identity;
    forall x
      ensures OccursBefore(records, n + 1, x) <==> x == id || OccursBefore(records, n, x)
    {
      if x == id {
        assert records[n].identity == x;
      }
    }
  }

  lemma EntriesStep(outcomes: seq<Outcome>, o: Outcome)
    ensures EntriesOf(outcomes + [o]) == EntriesOf(outcomes) + (if o.entry.Some? then [o.entry.value] else [])
  {
    assert (outcomes + [o])[..|outcomes|] == outcomes;
  }

  // One record: its outcome, and what was seen afterwards.
  method ProcessRecord(records: seq<Record>, index: nat, committed: set<RecordIdentity>, seen: set<RecordIdentity>)
      returns (outcome: Outcome, seen': set<RecordIdentity>)
    requires index < |records| && SeenIs(seen, records, committed, index)
    ensures outcome == OutcomeOf(records, committed, index) && SeenIs(seen', records, committed, index + 1)
  {
    hide SeenIs, Project, Validate, Candidates, EarlierInBatch;
    SeenStep(seen, records, committed, index);
    seen' := seen;
    var record := records[index];
    if record.identity in committed {
      outcome := Outcome(index, record.identity, record.source, Duplicate, [AlreadyCommitted], None);
      return;
    }
    if record.identity in seen {
      outcome := Outcome(index, record.identity, record.source, Duplicate, [DuplicateInBatch], None);
      return;
    }
    seen' := seen + {record.identity};
    var entry, diagnostics := ProjectRecord(record);
    var fault := ValidateEntry(entry);
    if fault.Some? {
      outcome := Outcome(index, record.identity, record.source, Failed, diagnostics + [Rejected(fault.value)], None);
      return;
    }
    CandidateCount(record.warnings);
    var status := if |diagnostics| > 0 then Warned else Success;
    outcome := Outcome(index, record.identity, record.source, status, diagnostics, Some(entry));
  }

  lemma CandidateCount(warnings: seq<CandidateWarning>)
    ensures |Candidates(warnings)| == |warnings|
  {
  }

  // Process
  method Process(records: seq<Record>, committed: seq<RecordIdentity>) returns (r: ProcessResult)
    ensures r.outcomes == OutcomesOf(records, SetOf(committed), |records|)
    ensures r.entries == EntriesOf(r.outcomes)
  {
    hide OutcomeOf, SeenIs, SetOf;
    var committedSet := ToSet(committed);
    var seen: set<RecordIdentity> := {};
    var outcomes: seq<Outcome> := [];
    var entries: seq<JournalEntry> := [];
    NothingSeen(records, committedSet);
    for index := 0 to |records|
      invariant SeenIs(seen, records, committedSet, index)
      invariant outcomes == OutcomesOf(records, committedSet, index)
      invariant entries == EntriesOf(outcomes)
    {
      var outcome, next := ProcessRecord(records, index, committedSet, seen);
      EntriesStep(outcomes, outcome);
      outcomes, seen := outcomes + [outcome], next;
      if outcome.entry.Some? {
        entries := entries + [outcome.entry.value];
      }
    }
    return ProcessResult(outcomes, entries);
  }

  lemma NothingSeen(records: seq<Record>, committed: set<RecordIdentity>)
    ensures SeenIs({}, records, committed, 0)
  {
  }

  method ToSet(ids: seq<RecordIdentity>) returns (r: set<RecordIdentity>)
    ensures r == SetOf(ids)
  {
    r := {};
    for i := 0 to |ids|
      invariant forall x :: x in r <==> x in ids[..i]
    {
      assert ids[..i + 1] == ids[..i] + [ids[i]];
      r := r + {ids[i]};
    }
    assert ids[..|ids|] == ids;
  }

  // ------------------------------------------------------ what a batch accepts

  // The identities a batch newly accepts.
  ghost function AcceptedIds(records: seq<Record>, committed: set<RecordIdentity>): set<RecordIdentity> {
    set i | 0 <= i < |records| && Accepted(OutcomeOf(records, committed, i)) :: records[i].identity
  }

  // An outcome is a duplicate exactly when its identity was committed or
  // occurred earlier in the batch, whatever became of that occurrence.
  lemma DuplicateIff(records: seq<Record>, committed: set<RecordIdentity>, i: nat)
    requires i < |records|
    ensures var outcomes := OutcomesOf(records, committed, |records|);
            && |outcomes| == |records| && outcomes[i].identity == records[i].identity
            && (outcomes[i].status == Duplicate <==>
                  records[i].identity in committed || exists j :: 0 <= j < i && records[j].identity == records[i].identity)
  {
    hide Validate, Project;
    OutcomeAt(records, committed, |records|, i);
  }

  // What becomes of a record: nothing else than a duplicate when its identity
  // was committed or occurred earlier in the batch; otherwise a failure exactly
  // when its entry is invalid, and else a success, with a warning when the
  // parser left one.
  lemma StatusIff(records: seq<Record>, committed: set<RecordIdentity>, i: nat)
    requires i < |records|
    ensures var r, outcomes := records[i], OutcomesOf(records, committed, |records|);
            var isNew := r.identity !in committed && forall j | 0 <= j < i :: records[j].identity != r.identity;
            && |outcomes| == |records| && outcomes[i].recordIndex == i && outcomes[i].source == r.source
            && (r.identity in committed ==> outcomes[i].status == Duplicate && outcomes[i].diagnostics == [AlreadyCommitted])
            && (r.identity !in committed && !isNew ==>
                  outcomes[i].status == Duplicate && outcomes[i].diagnostics == [DuplicateInBatch])
            && (isNew && !Valid(Project(r)) ==>
                  && outcomes[i].status == Failed && |outcomes[i].diagnostics| == |r.warnings| + 1
                  && outcomes[i].diagnostics[|r.warnings|] == Rejected(Validate(Project(r)).value))
            && (isNew && Valid(Project(r)) && r.warnings == [] ==> outcomes[i].status == Success)
            && (isNew && Valid(Project(r)) && r.warnings != [] ==> outcomes[i].status == Warned)
            && outcomes[i].entry == if isNew && Valid(Project(r)) then Some(Project(r)) else None
  {
    hide Validate, Project;
    OutcomeAt(records, committed, |records|, i);
    CandidateCount(records[i].warnings);
  }

  // Only the first occurrence of a new identity can be accepted.
  lemma AcceptedIff(records: seq<Record>, committed: set<RecordIdentity>, i: nat)
    requires i < |records|
    ensures Accepted(OutcomeOf(records, committed, i)) <==>
            && records[i].identity !in committed && !EarlierInBatch(records, i) && Valid(Project(records[i]))
    ensures OutcomeOf(records, committed, i).entry == if Accepted(OutcomeOf(records, committed, i)) then Some(Project(records[i])) else None
  {
    hide Validate, Project;
  }

  lemma {:induction false} EntriesAreValid(records: seq<Record>, committed: set<RecordIdentity>, n: nat)
    requires n <= |records|
    ensures forall e | e in EntriesOf(OutcomesOf(records, committed, n)) :: Valid(e)
  {
    hide OutcomeOf, Valid, Project, EntriesOf;
    if n == 0 {
      NoEntries();
    } else {
      EntriesAreValid(records, committed, n - 1);
      AcceptedIff(records, committed, n - 1);
      EntriesStep(OutcomesOf(records, committed, n - 1), OutcomeOf(records, committed, n - 1));
    }
  }

  lemma NoEntries()
    ensures EntriesOf([]) == []
  {
  }

  // The journal is empty exactly when nothing is accepted.
  lemma {:induction false} EntriesIffAccepted(records: seq<Record>, committed: set<RecordIdentity>, n: nat)
    requires n <= |records|
    ensures EntriesOf(OutcomesOf(records, committed, n)) == [] <==>
            forall i | 0 <= i < n :: !Accepted(OutcomeOf(records, committed, i))
  {
    hide OutcomeOf, Valid, Project, EntriesOf, Accepted;
    if n == 0 {
      NoEntries();
    } else {
      EntriesIffAccepted(records, committed, n - 1);
      AcceptedIff(records, committed, n - 1);
      EntriesStep(OutcomesOf(records, committed, n - 1), OutcomeOf(records, committed, n - 1));
    }
  }

  // Once everything a batch accepts is committed, it accepts nothing more.
  lemma NothingLeft(records: seq<Record>, committed: set<RecordIdentity>, i: nat)
    requires i < |records|
    ensures !Accepted(OutcomeOf(records, committed + AcceptedIds(records, committed), i))
  {
    hide OutcomeOf, Valid, Project;
    AcceptedIff(records, committed, i);
    AcceptedIff(records, committed + AcceptedIds(records, committed), i);
  }

  // No committed identity is accepted again.
  lemma AcceptedAreNew(records: seq<Record>, committed: set<RecordIdentity>)
    ensures AcceptedIds(records, committed) !! committed
  {
    hide OutcomeOf, Valid, Project;
    forall i | 0 <= i < |records|
      ensures Accepted(OutcomeOf(records, committed, i)) ==> records[i].identity !in committed
    {
      AcceptedIff(records, committed, i);
    }
  }
}
