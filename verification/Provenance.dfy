// Which postings stand behind a report: every contribution is one posting of
// one ledger entry, and no posting is counted twice.
module Provenance {
  import opened Results
  import opened Decimals
  import opened Calendar
  import opened Ledger
  import opened EntryRules
  import opened Configurations
  import opened Movements
  import opened CarryForward
  import opened Reports

  // ------------------------------------------------------- one contribution

  // x is posting i of entry e: its account as classified, and the price, else
  // the stated amount, else what balances the other postings.
  ghost predicate IsPosting(x: Contribution, e: Entry, i: nat, cs: seq<Classification>) {
    && i < |e.entry.postings| && x.entry == e && x.postingIndex == i
    && var ps := e.entry.postings;
    && x.key.account == ps[i].account && x.key.category == Classify(cs, ps[i].account)
    && match ps[i].totalPrice
       case Some(price) => x.key.commodity == price.commodity && x.value == price.value
       case None =>
         match ps[i].amount
         case Some(amount) => x.key.commodity == amount.commodity && x.value == amount.value
         case None =>
           && i == |ps| - 1 && ps[0].amount.Some? && x.key.commodity == BalanceCommodity(ps[0])
           && x.value == Fixed(-BalanceAt(ps, LargestScale(ps)), LargestScale(ps))
  }

  lemma InferredPlainly(e: JournalEntry)
    requires Valid(e) && Omits(e)
    ensures var ps := e.postings;
            && InferFinalAmount(e).Ok? && |ps| >= 2 && ps[0].amount.Some?
            && InferFinalAmount(e).value.commodity == BalanceCommodity(ps[0])
            && InferFinalAmount(e).value.value == Fixed(-BalanceAt(ps, LargestScale(ps)), LargestScale(ps))
  {
    hide Validate, BalanceAt, LargestScale, StatedValues, MaxScale, ScaledSum;
    var ps := e.postings;
    ValidPostings(e);
    GoodIsPlain(ps);
    InferenceSucceeds(e);
    OmittedLast(ps);
    PricesAreStated(ps);
    PlainSum(ps, LargestScale(ps));
  }

  lemma PricesAreStated(ps: seq<Posting>)
    requires PlainPostings(ps)
    ensures PricesStated(ps)
  {
    hide ValidAccount, ValidCommodity;
    forall k | 0 <= k < |ps| && ps[k].totalPrice.Some?
      ensures ps[k].amount.Some?
    {
      assert PlainPosting(ps[k]);
    }
  }

  lemma ItemIsPosting(e: Entry, cs: seq<Classification>, role: Role, i: nat)
    requires Valid(e.entry) && i < |e.entry.postings|
    ensures IsPosting(ItemAt(e, cs, role, i), e, i, cs) && ItemAt(e, cs, role, i).role == role
  {
    hide Valid, Classify, InferFinalAmount, BalanceAt, LargestScale, BalanceCommodity;
    if e.entry.postings[i].amount.None? {
      LastOmitted(e.entry, i);
      InferredPlainly(e.entry);
    }
  }

  lemma PostingIsItem(x: Contribution, e: Entry, cs: seq<Classification>, i: nat)
    requires Valid(e.entry) && IsPosting(x, e, i, cs)
    ensures x == ItemAt(e, cs, x.role, i)
  {
    hide Valid, Classify, BalanceAt, LargestScale, BalanceCommodity, AmountOf;
    ItemIsPosting(e, cs, x.role, i);
  }

  lemma EntryMembers(e: Entry, cs: seq<Classification>, role: Role, x: Contribution)
    requires Valid(e.entry)
    ensures x in EntryItems(e, cs, role) <==> x.role == role && exists i: nat :: IsPosting(x, e, i, cs)
  {
    hide Valid, IsPosting, ItemAt;
    var items := EntryItems(e, cs, role);
    if x in items {
      var i: nat :| i < |items| && items[i] == x;
      ItemIsPosting(e, cs, role, i);
    }
    if i: nat :| x.role == role && IsPosting(x, e, i, cs) {
      PostingInRange(x, e, i, cs);
      PostingIsItem(x, e, cs, i);
      assert items[i] == x;
    }
  }

  lemma PostingInRange(x: Contribution, e: Entry, i: nat, cs: seq<Classification>)
    requires IsPosting(x, e, i, cs)
    ensures i < |e.entry.postings| && x.entry == e && x.postingIndex == i
  {
  }

  // --------------------------------------------------------- movements

  // x is a posting of an entry of the list, dated in the period, whose
  // identifier is not among the excluded ones.
  ghost predicate IsMovement(x: Contribution, e: Entry, entries: seq<Entry>, p: Period, excluded: seq<string>, cs: seq<Classification>) {
    && e in entries && e.id !in excluded
    && !Before(e.entry.date.date, p.startDate) && !Before(p.endDate, e.entry.date.date)
    && exists i: nat :: IsPosting(x, e, i, cs)
  }

  lemma SelectedMembers(e: Entry, p: Period, excluded: seq<string>, cs: seq<Classification>, role: Role, x: Contribution)
    requires Valid(e.entry)
    ensures x in SelectedItems(e, p, excluded, cs, role) <==> x.role == role && IsMovement(x, e, [e], p, excluded, cs)
  {
    hide Valid, IsPosting, EntryItems;
    EntryMembers(e, cs, role, x);
    assert e in [e];
  }

  // The movements of a period are exactly these postings.
  lemma {:induction false} MovementMembers(
    entries: seq<Entry>, p: Period, excluded: seq<string>, cs: seq<Classification>, role: Role, x: Contribution)
    requires AllEntriesValid(entries)
    ensures x in MovementItems(entries, p, excluded, cs, role) <==>
            x.role == role && exists e :: IsMovement(x, e, entries, p, excluded, cs)
  {
    hide Valid, IsPosting, SelectedItems;
    if entries != [] {
      var front, last := entries[..|entries| - 1], entries[|entries| - 1];
      assert entries == front + [last];
      MovementMembers(front, p, excluded, cs, role, x);
      SelectedMembers(last, p, excluded, cs, role, x);
      if x.role == role && IsMovement(x, last, [last], p, excluded, cs) {
        assert IsMovement(x, last, entries, p, excluded, cs);
      }
      if e :| IsMovement(x, e, front, p, excluded, cs) {
        assert IsMovement(x, e, entries, p, excluded, cs);
      }
      if e :| IsMovement(x, e, entries, p, excluded, cs) {
        assert IsMovement(x, e, front, p, excluded, cs) || IsMovement(x, e, [last], p, excluded, cs);
        if e == last {
          assert IsMovement(x, last, [last], p, excluded, cs);
        }
      }
    }
  }

  // What a trial balance, an income statement or a trend counts as movement of
  // the selected period.
  lemma PeriodMembers(years: seq<FiscalYear>, s: Selection, entries: seq<Entry>, cs: seq<Classification>, x: Contribution)
    requires s.index < |years| && AllEntriesValid(entries)
    ensures x in PeriodItems(years, s, entries, cs) <==>
            x.role == MovementRole && exists e :: IsMovement(x, e, entries, s.period.period, years[s.index].openingEntryIDs, cs)
  {
    hide AllEntriesValid, MovementItems, IsMovement;
    MovementMembers(entries, s.period.period, years[s.index].openingEntryIDs, cs, MovementRole, x);
  }

  // ---------------------------------------------------------- the opening

  ghost predicate IsOpeningPosting(x: Contribution, e: Entry, entries: seq<Entry>, ids: seq<string>, cs: seq<Classification>) {
    e in entries && e.id in ids && exists i: nat :: IsPosting(x, e, i, cs)
  }

  lemma {:induction false} OpeningMembers(ids: seq<string>, entries: seq<Entry>, cs: seq<Classification>, x: Contribution)
    requires GoodEntries(entries)
    ensures x in OpeningEntryItems(ids, entries, cs) <==>
            x.role == OpeningRole && exists e :: IsOpeningPosting(x, e, entries, ids, cs)
  {
    hide Valid, IsPosting, EntryItems, ById;
    if ids != [] {
      var front, id := ids[..|ids| - 1], ids[|ids| - 1];
      assert ids == front + [id];
      OpeningMembers(front, entries, cs, x);
      OneOpening(id, entries, cs, x);
      if e :| IsOpeningPosting(x, e, entries, ids, cs) {
        assert IsOpeningPosting(x, e, entries, front, cs) || IsOpeningPosting(x, e, entries, [id], cs);
      }
      if e :| IsOpeningPosting(x, e, entries, front, cs) {
        assert IsOpeningPosting(x, e, entries, ids, cs);
      }
      if e :| IsOpeningPosting(x, e, entries, [id], cs) {
        assert IsOpeningPosting(x, e, entries, ids, cs);
      }
    }
  }

  lemma OneOpening(id: string, entries: seq<Entry>, cs: seq<Classification>, x: Contribution)
    requires GoodEntries(entries)
    ensures (id in ById(entries) && Valid(ById(entries)[id].entry) && x in EntryItems(ById(entries)[id], cs, OpeningRole)) <==>
            x.role == OpeningRole && exists e :: IsOpeningPosting(x, e, entries, [id], cs)
  {
    hide Valid, IsPosting, EntryItems, ById, GoodEntries;
    ByIdMembers(entries);
    if id in ById(entries) {
      ByIdValid(entries, id);
      EntryMembers(ById(entries)[id], cs, OpeningRole, x);
      if e :| IsOpeningPosting(x, e, entries, [id], cs) {
        assert e == ById(entries)[id];
      }
      if x.role == OpeningRole && x in EntryItems(ById(entries)[id], cs, OpeningRole) {
        assert IsOpeningPosting(x, ById(entries)[id], entries, [id], cs);
      }
    }
  }

  // A posting of year k that is not one of its opening entries.
  ghost predicate IsYearMovement(
    x: Contribution, k: nat, e: Entry, years: seq<FiscalYear>, entries: seq<Entry>, cs: seq<Classification>)
    requires k < |years|
  {
    IsMovement(x, e, entries, YearPeriod(years[k]), years[k].openingEntryIDs, cs)
  }

  lemma {:induction false} SinceMembers(
    years: seq<FiscalYear>, from: nat, t: nat, entries: seq<Entry>, cs: seq<Classification>, x: Contribution)
    requires from <= t <= |years| && AllEntriesValid(entries)
    ensures x in MovementsSince(years, from, t, entries, cs) <==>
            x.role == OpeningRole && exists k: nat, e :: from <= k < t && IsYearMovement(x, k, e, years, entries, cs)
    decreases t
  {
    hide AllEntriesValid, MovementItems, IsMovement, YearPeriod;
    if from < t {
      SinceMembers(years, from, t - 1, entries, cs, x);
      MovementMembers(entries, YearPeriod(years[t - 1]), years[t - 1].openingEntryIDs, cs, OpeningRole, x);
      if x in YearItems(years[t - 1], entries, cs) {
        var e :| IsMovement(x, e, entries, YearPeriod(years[t - 1]), years[t - 1].openingEntryIDs, cs);
        assert IsYearMovement(x, t - 1, e, years, entries, cs);
      }
    }
  }

  // What a year opens with, posting by posting: on asset, liability and equity
  // accounts only, the postings of the opening entries of the last year that
  // was reset, and the movements of every year since.
  lemma CarriedMembers(years: seq<FiscalYear>, t: nat, entries: seq<Entry>, cs: seq<Classification>, x: Contribution)
    requires t < |years| && GoodEntries(entries) && AllEntriesValid(entries) && OpeningExists(years, t, entries, cs)
    ensures var r := LastReset(years, t);
            x in Carried(years, t, entries, cs) <==>
              && x.role == OpeningRole && x.key.category in {Asset, Liability, Equity}
              && (|| (r >= 0 && exists e :: IsOpeningPosting(x, e, entries, years[r].openingEntryIDs, cs))
                  || exists k: nat, e :: From(r) <= k < t && IsYearMovement(x, k, e, years, entries, cs))
  {
    hide AllEntriesValid, GoodEntries, OpeningExists, Carried, MovementsSince, OpeningEntryItems, IsOpeningPosting, IsYearMovement, Keep, Permanent;
    var r := LastReset(years, t);
    CarriedClosedForm(years, t, entries, cs);
    KeepMembers(History(years, t, entries, cs), OnBalanceAccount, x);
    SinceMembers(years, From(r), t, entries, cs, x);
    if r >= 0 {
      OpeningMembers(years[r].openingEntryIDs, entries, cs, x);
    }
  }

  // A ledger is accepted exactly when its identifiers are there and distinct
  // and each of its entries is in order.
  lemma EntriesAccepted(entries: seq<Entry>)
    ensures GoodEntries(entries) <==>
            && (forall i | 0 <= i < |entries| ::
                  && entries[i].id != "" && PlainHeader(entries[i].entry) && PlainPostings(entries[i].entry.postings)
                  && PlainBalance(entries[i].entry.postings))
            && forall i, j | 0 <= i < j < |entries| :: entries[i].id != entries[j].id
  {
    hide Valid, PlainHeader, PlainPostings, PlainBalance;
    forall i | 0 <= i < |entries|
      ensures PlainPostings(entries[i].entry.postings) ==> entries[i].entry.postings != []
      ensures Valid(entries[i].entry) <==>
              PlainHeader(entries[i].entry) && PlainPostings(entries[i].entry.postings) && PlainBalance(entries[i].entry.postings)
    {
      EntryAccepted(entries[i].entry);
      if entries[i].entry.postings == [] {
        FewPostings([]);
      }
    }
  }

  // ----------------------------------------------------- nothing counted twice

  // No posting of an entry occurs twice.
  ghost predicate NoRepeat(items: seq<Contribution>) {
    forall i, j | 0 <= i < j < |items| ::
      items[i].entry.id != items[j].entry.id || items[i].postingIndex != items[j].postingIndex
  }

  ghost predicate Apart(a: seq<Contribution>, b: seq<Contribution>) {
    forall x, y | x in a && y in b :: x.entry.id != y.entry.id
  }

  lemma NoRepeatAppend(a: seq<Contribution>, b: seq<Contribution>)
    requires NoRepeat(a) && NoRepeat(b) && Apart(a, b)
    ensures NoRepeat(a + b)
  {
    var items := a + b;
    forall i, j | 0 <= i < j < |items|
      ensures items[i].entry.id != items[j].entry.id || items[i].postingIndex != items[j].postingIndex
    {
      if i < |a| && j >= |a| {
        assert items[i] in a && items[j] in b;
      }
    }
  }

  lemma {:induction false} NoRepeatKeep(items: seq<Contribution>, f: Contribution -> bool)
    requires NoRepeat(items)
    ensures NoRepeat(Keep(items, f))
  {
    if items != [] {
      var front, last := items[..|items| - 1], items[|items| - 1];
      NoRepeatKeep(front, f);
      forall i | 0 <= i < |Keep(front, f)|
        ensures Keep(front, f)[i].entry.id != last.entry.id || Keep(front, f)[i].postingIndex != last.postingIndex
      {
        KeepMembers(front, f, Keep(front, f)[i]);
        var j :| 0 <= j < |front| && front[j] == Keep(front, f)[i];
        assert items[j] == front[j];
      }
    }
  }

  lemma EntryNoRepeat(e: Entry, cs: seq<Classification>, role: Role)
    requires Valid(e.entry)
    ensures NoRepeat(EntryItems(e, cs, role)) && forall x | x in EntryItems(e, cs, role) :: x.entry == e
  {
    hide Valid, AmountOf, Classify;
  }

  lemma GoodFront(entries: seq<Entry>)
    requires GoodEntries(entries) && entries != []
    ensures GoodEntries(entries[..|entries| - 1]) && AllEntriesValid(entries)
    ensures forall e | e in entries[..|entries| - 1] :: e.id != entries[|entries| - 1].id
  {
    hide Valid;
    var front := entries[..|entries| - 1];
    forall e | e in front
      ensures e.id != entries[|entries| - 1].id
    {
      var i :| 0 <= i < |front| && front[i] == e;
      assert entries[i] == e;
    }
  }

  lemma {:induction false} MovementsNoRepeat(
    entries: seq<Entry>, p: Period, excluded: seq<string>, cs: seq<Classification>, role: Role)
    requires GoodEntries(entries) && AllEntriesValid(entries)
    ensures NoRepeat(MovementItems(entries, p, excluded, cs, role))
    ensures forall x | x in MovementItems(entries, p, excluded, cs, role) :: x.entry in entries
  {
    hide Valid, EntryItems, Selected, GoodEntries, NoRepeat;
    if entries == [] {
      NothingRepeats();
    } else {
      var front, last := entries[..|entries| - 1], entries[|entries| - 1];
      assert entries == front + [last];
      GoodFront(entries);
      MovementsNoRepeat(front, p, excluded, cs, role);
      EntryNoRepeat(last, cs, role);
      NothingRepeats();
      NoRepeatAppend(MovementItems(front, p, excluded, cs, role), SelectedItems(last, p, excluded, cs, role));
    }
  }

  lemma NothingRepeats()
    ensures NoRepeat([])
  {
  }

  lemma {:induction false} OpeningsNoRepeat(ids: seq<string>, entries: seq<Entry>, cs: seq<Classification>)
    requires GoodEntries(entries) && forall i, j | 0 <= i < j < |ids| :: ids[i] != ids[j]
    ensures NoRepeat(OpeningEntryItems(ids, entries, cs))
    ensures forall x | x in OpeningEntryItems(ids, entries, cs) :: x.entry in entries && x.entry.id in ids
  {
    hide Valid, EntryItems, GoodEntries, NoRepeat, ById;
    NothingRepeats();
    if ids != [] {
      var front, id := ids[..|ids| - 1], ids[|ids| - 1];
      assert ids == front + [id];
      OpeningsNoRepeat(front, entries, cs);
      forall k | k in front
        ensures k != id
      {
        var i :| 0 <= i < |front| && front[i] == k;
      }
      if id in ById(entries) && Valid(ById(entries)[id].entry) {
        ByIdValid(entries, id);
        EntryNoRepeat(ById(entries)[id], cs, OpeningRole);
        NoRepeatAppend(OpeningEntryItems(front, entries, cs), EntryItems(ById(entries)[id], cs, OpeningRole));
      } else {
        assert OpeningEntryItems(front, entries, cs) + [] == OpeningEntryItems(front, entries, cs);
      }
    }
  }

  lemma OneEntry(entries: seq<Entry>, e: Entry, f: Entry)
    requires GoodEntries(entries) && e in entries && f in entries && e.id == f.id
    ensures e == f
  {
    hide Valid;
  }

  lemma MovementDates(entries: seq<Entry>, p: Period, excluded: seq<string>, cs: seq<Classification>, role: Role, x: Contribution)
    requires AllEntriesValid(entries) && x in MovementItems(entries, p, excluded, cs, role)
    ensures x.entry in entries && x.entry.id !in excluded && InPeriod(x.entry.entry.date.date, p)
  {
    hide AllEntriesValid, IsPosting;
    MovementMembers(entries, p, excluded, cs, role, x);
    var e :| IsMovement(x, e, entries, p, excluded, cs);
    var i: nat :| IsPosting(x, e, i, cs);
    PostingInRange(x, e, i, cs);
  }

  // What is carried into a year comes from entries dated before it, or from its
  // own opening entries.
  ghost predicate DatedBefore(items: seq<Contribution>, entries: seq<Entry>, year: FiscalYear) {
    forall x | x in items ::
      && x.entry in entries && AtMost(x.entry.entry.date.date, SpanOf(year).start)
      && (Before(x.entry.entry.date.date, SpanOf(year).start) || x.entry.id in year.openingEntryIDs)
  }

  lemma BeforeMovement(
    items: seq<Contribution>, entries: seq<Entry>, year: FiscalYear, p: Period, cs: seq<Classification>, role: Role)
    requires GoodEntries(entries) && AllEntriesValid(entries) && DatedBefore(items, entries, year)
    requires AtMost(SpanOf(year).start, p.startDate)
    ensures Apart(items, MovementItems(entries, p, year.openingEntryIDs, cs, role))
  {
    hide AllEntriesValid, GoodEntries, MovementItems, SpanOf;
    var movement := MovementItems(entries, p, year.openingEntryIDs, cs, role);
    forall x, y | x in items && y in movement
      ensures x.entry.id != y.entry.id
    {
      MovementDates(entries, p, year.openingEntryIDs, cs, role, y);
      BeforeIsOrder(x.entry.entry.date.date, SpanOf(year).start, p.startDate);
      BeforeIsOrder(x.entry.entry.date.date, p.startDate, y.entry.entry.date.date);
      if x.entry.id == y.entry.id {
        OneEntry(entries, x.entry, y.entry);
      }
    }
  }

  lemma YearEndsBefore(years: seq<FiscalYear>, startMonth: int, t: nat, d: Date)
    requires GoodYears(years, startMonth) && 0 < t < |years| && ValidDate(d)
    ensures GoodSpan(SpanOf(years[t - 1])) && GoodSpan(SpanOf(years[t]))
    ensures AtMost(d, SpanOf(years[t - 1]).end) ==> Before(d, SpanOf(years[t]).start)
  {
    hide ParseFiscalYear, SpanOf, GoodOpening, NextDay, AtMost, Before, FirstOfMonth, LastOfMonth, MonthIndex;
    ParsedSpan(years[t - 1], startMonth);
    ParsedSpan(years[t], startMonth);
    assert Follows(years, t);
    var end := SpanOf(years[t - 1]).end;
    NextIsSuccessor(d, end);
  }

  lemma BeforeMeansAtMost(a: Date, b: Date)
    ensures Before(a, b) ==> AtMost(a, b)
  {
  }

  lemma OpeningsDated(years: seq<FiscalYear>, t: nat, entries: seq<Entry>, cs: seq<Classification>, x: Contribution)
    requires t < |years| && GoodEntries(entries) && OpeningExists(years, t, entries, cs)
    requires years[t].openingMode == OpeningEntries && x in OpeningEntryItems(years[t].openingEntryIDs, entries, cs)
    ensures x.entry in entries && x.entry.id in years[t].openingEntryIDs && x.entry.entry.date.date == SpanOf(years[t]).start
  {
    hide GoodEntries, IsPosting, SpanOf, ById, Valid, EntryItems;
    var ids := years[t].openingEntryIDs;
    OpeningMembers(ids, entries, cs, x);
    var e :| IsOpeningPosting(x, e, entries, ids, cs);
    var i: nat :| IsPosting(x, e, i, cs);
    PostingInRange(x, e, i, cs);
    var j :| 0 <= j < |ids| && ids[j] == e.id;
    assert GoodOpeningEntries(years[t], entries, cs);
    assert GoodOpeningEntry(ids[j], years[t], entries, cs);
    ByIdMembers(entries);
  }

  lemma EarlierYear(years: seq<FiscalYear>, startMonth: int, t: nat, entries: seq<Entry>, cs: seq<Classification>, x: Contribution)
    requires 0 < t < |years| && GoodYears(years, startMonth) && AllEntriesValid(entries)
    requires DatedBefore(Carried(years, t - 1, entries, cs), entries, years[t - 1])
    requires x in Carried(years, t - 1, entries, cs) + YearItems(years[t - 1], entries, cs)
    ensures x.entry in entries && Before(x.entry.entry.date.date, SpanOf(years[t]).start)
  {
    hide AllEntriesValid, MovementItems, Carried, SpanOf, GoodYears, Before, AtMost, GoodSpan;
    var d := x.entry.entry.date.date;
    YearEndsBefore(years, startMonth, t, d);
    if x in YearItems(years[t - 1], entries, cs) {
      MovementDates(entries, YearPeriod(years[t - 1]), years[t - 1].openingEntryIDs, cs, OpeningRole, x);
    } else {
      YearIsForward(SpanOf(years[t - 1]), d);
    }
  }

  lemma YearIsForward(span: Span, d: Date)
    requires GoodSpan(span) && AtMost(d, span.start)
    ensures AtMost(d, span.end)
  {
    hide GoodSpan;
    SpanForward(span);
    BeforeIsOrder(d, span.start, span.end);
  }

  lemma {:induction false} CarriedNoRepeat(
    years: seq<FiscalYear>, startMonth: int, t: nat, entries: seq<Entry>, cs: seq<Classification>)
    requires t < |years| && GoodYears(years, startMonth) && GoodEntries(entries) && AllEntriesValid(entries)
    requires OpeningExists(years, t, entries, cs)
    ensures NoRepeat(Carried(years, t, entries, cs)) && DatedBefore(Carried(years, t, entries, cs), entries, years[t])
  {
    hide AllEntriesValid, GoodEntries, GoodYears, MovementItems, OpeningEntryItems, NoRepeat, SpanOf, Keep, Before, AtMost, GoodOpeningEntries;
    NothingRepeats();
    if years[t].openingMode == OpeningEntries {
      DistinctIDs(years, startMonth, t);
      OpeningsNoRepeat(years[t].openingEntryIDs, entries, cs);
      forall x | x in OpeningEntryItems(years[t].openingEntryIDs, entries, cs)
        ensures x.entry in entries && x.entry.id in years[t].openingEntryIDs && AtMost(x.entry.entry.date.date, SpanOf(years[t]).start)
      {
        OpeningsDated(years, t, entries, cs, x);
        AtMostSelf(SpanOf(years[t]).start);
      }
    } else if t > 0 {
      var y := years[t - 1];
      CarriedNoRepeat(years, startMonth, t - 1, entries, cs);
      MovementsNoRepeat(entries, YearPeriod(y), y.openingEntryIDs, cs, OpeningRole);
      AtMostSelf(SpanOf(y).start);
      var before, year := Carried(years, t - 1, entries, cs), YearItems(y, entries, cs);
      BeforeMovement(before, entries, y, YearPeriod(y), cs, OpeningRole);
      NoRepeatAppend(before, year);
      NoRepeatKeep(before + year, IsPermanent);
      forall x | x in Permanent(before + year)
        ensures x.entry in entries && AtMost(x.entry.entry.date.date, SpanOf(years[t]).start)
             && Before(x.entry.entry.date.date, SpanOf(years[t]).start)
      {
        KeepMembers(before + year, IsPermanent, x);
        EarlierYear(years, startMonth, t, entries, cs, x);
        BeforeMeansAtMost(x.entry.entry.date.date, SpanOf(years[t]).start);
      }
    }
  }

  lemma AtMostSelf(d: Date)
    ensures AtMost(d, d)
  {
  }

  lemma DistinctIDs(years: seq<FiscalYear>, startMonth: int, t: nat)
    requires t < |years| && GoodYears(years, startMonth)
    ensures var ids := years[t].openingEntryIDs; forall i, j | 0 <= i < j < |ids| :: ids[i] != ids[j]
  {
    hide ParseFiscalYear, Follows;
    assert GoodOpening(years[t]);
  }

  // Earlier movements of the year and those of the period itself.
  lemma PeriodNoRepeat(years: seq<FiscalYear>, startMonth: int, s: Selection, entries: seq<Entry>, cs: seq<Classification>)
    requires s.index < |years| && GoodYears(years, startMonth) && GoodEntries(entries) && AllEntriesValid(entries)
    requires OpeningExists(years, s.index, entries, cs) && s.period in PeriodsOf(SpanOf(years[s.index]))
    ensures NoRepeat(OpeningItems(years, s, entries, cs) + PeriodItems(years, s, entries, cs))
  {
    hide AllEntriesValid, GoodEntries, GoodYears, MovementItems, NoRepeat, SpanOf, Before, AtMost, PeriodsOf, GoodSpan, Carried, OpeningExists, PrevDay, DatedBefore, Apart;
    var year := years[s.index];
    var carried, earlier, movement := Carried(years, s.index, entries, cs), EarlierItems(s, year, entries, cs), PeriodItems(years, s, entries, cs);
    CarriedNoRepeat(years, startMonth, s.index, entries, cs);
    YearIsParsed(years, startMonth, s.index);
    PeriodIsText(s, SpanOf(year));
    MovementsNoRepeat(entries, s.period.period, year.openingEntryIDs, cs, MovementRole);
    BeforeMovement(carried, entries, year, s.period.period, cs, MovementRole);
    NothingRepeats();
    NothingApart(carried);
    NothingApart(movement);
    if s.period.period.startDate != s.period.fiscalYearStart {
      var p := Period(s.period.fiscalYearStart, PrevDay(s.period.period.startDate));
      MovementsNoRepeat(entries, p, year.openingEntryIDs, cs, OpeningRole);
      AtMostSelf(SpanOf(year).start);
      BeforeMovement(carried, entries, year, p, cs, OpeningRole);
      EarlierApart(s, year, entries, cs);
    }
    NoRepeatAppend(carried, earlier);
    ApartAppend(carried, earlier, movement);
    NoRepeatAppend(carried + earlier, movement);
  }

  lemma NothingApart(items: seq<Contribution>)
    ensures Apart(items, []) && Apart([], items)
  {
  }

  lemma ApartAppend(a: seq<Contribution>, b: seq<Contribution>, c: seq<Contribution>)
    requires Apart(a, c) && Apart(b, c)
    ensures Apart(a + b, c)
  {
  }

  lemma YearIsParsed(years: seq<FiscalYear>, startMonth: int, i: nat)
    requires GoodYears(years, startMonth) && i < |years|
    ensures GoodSpan(SpanOf(years[i]))
  {
    hide ParseFiscalYear, SpanOf, GoodSpan, Follows, GoodOpening;
    ParsedSpan(years[i], startMonth);
  }

  lemma EarlierApart(s: Selection, year: FiscalYear, entries: seq<Entry>, cs: seq<Classification>)
    requires GoodEntries(entries) && AllEntriesValid(entries) && ValidDate(s.period.period.startDate)
    requires s.period.period.startDate != s.period.fiscalYearStart
    ensures Apart(EarlierItems(s, year, entries, cs), MovementItems(entries, s.period.period, year.openingEntryIDs, cs, MovementRole))
  {
    hide AllEntriesValid, GoodEntries, MovementItems, PrevDay, Before, AtMost;
    var start, ids := s.period.period.startDate, year.openingEntryIDs;
    var p := Period(s.period.fiscalYearStart, PrevDay(start));
    forall x, y | x in EarlierItems(s, year, entries, cs) && y in MovementItems(entries, s.period.period, ids, cs, MovementRole)
      ensures x.entry.id != y.entry.id
    {
      MovementDates(entries, p, ids, cs, OpeningRole, x);
      MovementDates(entries, s.period.period, ids, cs, MovementRole, y);
      var d := x.entry.entry.date.date;
      NextPrev(start);
      NextIsSuccessor(d, PrevDay(start));
      BeforeIsOrder(d, start, y.entry.entry.date.date);
      if x.entry.id == y.entry.id {
        OneEntry(entries, x.entry, y.entry);
        NotBeforeSelf(d);
      }
    }
  }

  lemma NotBeforeSelf(d: Date)
    ensures !Before(d, d)
  {
  }

  // In a valid configuration, with entries that are accepted and openings that
  // exist, no posting is counted twice in a report: not as opening and again as
  // movement, not in two years, not in two parts of a year.
  lemma NothingCountedTwice(config: Configuration, entries: seq<Entry>, selected: PeriodText)
    requires ValidConfiguration(config) && GoodEntries(entries) && AllEntriesValid(entries)
    requires var years, cs := SortYears(config.fiscalYears), SortClassifications(config.classifications);
             var choice := SelectPeriod(years, 0, selected);
             choice.Some? && choice.value.index < |years| && OpeningExists(years, choice.value.index, entries, cs)
    ensures var years, cs := SortYears(config.fiscalYears), SortClassifications(config.classifications);
            var s := SelectPeriod(years, 0, selected).value;
            NoRepeat(OpeningItems(years, s, entries, cs) + PeriodItems(years, s, entries, cs))
  {
    hide ValidConfiguration, SortYears, SortClassifications, SelectPeriod, AllEntriesValid, GoodEntries, GoodYears, OpeningExists, OpeningItems, PeriodItems, PeriodsOf, NoRepeat;
    var years, cs := SortYears(config.fiscalYears), SortClassifications(config.classifications);
    ValidYears(config);
    SelectedPeriod(years, 0, selected);
    PeriodNoRepeat(years, config.startMonth, SelectPeriod(years, 0, selected).value, entries, cs);
  }

  // ------------------------------------------------- when an opening exists

  // An identifier of an opening entry that is in order.
  ghost predicate PlainOpening(id: string, start: Date, e: Entry, entries: seq<Entry>, cs: seq<Classification>) {
    && e in entries && e.id == id && e.entry.date.date == start
    && forall i | 0 <= i < |e.entry.postings| :: Classify(cs, e.entry.postings[i].account) in {Asset, Liability, Equity}
  }

  lemma OpeningEntryIff(id: string, y: FiscalYear, entries: seq<Entry>, cs: seq<Classification>)
    requires GoodEntries(entries)
    ensures GoodOpeningEntry(id, y, entries, cs) <==> exists e :: PlainOpening(id, SpanOf(y).start, e, entries, cs)
  {
    hide Valid, ById, SpanOf, EntryItems, IsPermanent, GoodEntries, Classify;
    ByIdMembers(entries);
    if id in ById(entries) {
      ByIdValid(entries, id);
      var e := ById(entries)[id];
      OpeningPostings(e, cs);
      if GoodOpeningEntry(id, y, entries, cs) {
        assert PlainOpening(id, SpanOf(y).start, e, entries, cs);
      }
    }
  }

  lemma OpeningPostings(e: Entry, cs: seq<Classification>)
    requires Valid(e.entry)
    ensures (forall x | x in EntryItems(e, cs, OpeningRole) :: IsPermanent(x)) <==>
            forall i | 0 <= i < |e.entry.postings| :: Classify(cs, e.entry.postings[i].account) in {Asset, Liability, Equity}
  {
    hide Valid, AmountOf, Classify;
    var items := EntryItems(e, cs, OpeningRole);
    forall i | 0 <= i < |items|
      ensures items[i].key.category == Classify(cs, e.entry.postings[i].account) && items[i] in items
    {
    }
    if forall x | x in items :: IsPermanent(x) {
      assert forall i | 0 <= i < |items| :: IsPermanent(items[i]);
    }
  }

  // The opening of a year can be built exactly when, in it and in every earlier
  // year that is reset, each listed opening entry is in the ledger, is dated on
  // the first day of its year and posts to asset, liability and equity accounts
  // only.
  lemma OpeningExistsIff(years: seq<FiscalYear>, t: nat, entries: seq<Entry>, cs: seq<Classification>)
    requires t < |years| && GoodEntries(entries)
    ensures OpeningExists(years, t, entries, cs) <==>
            forall k, id | 0 <= k <= t && years[k].openingMode == OpeningEntries && id in years[k].openingEntryIDs ::
              exists e :: PlainOpening(id, SpanOf(years[k]).start, e, entries, cs)
  {
    hide GoodEntries, SpanOf, GoodOpeningEntry, PlainOpening;
    forall k, id | 0 <= k <= t
      ensures GoodOpeningEntry(id, years[k], entries, cs) <==> exists e :: PlainOpening(id, SpanOf(years[k]).start, e, entries, cs)
    {
      OpeningEntryIff(id, years[k], entries, cs);
    }
    if forall k, id | 0 <= k <= t && years[k].openingMode == OpeningEntries && id in years[k].openingEntryIDs ::
      GoodOpeningEntry(id, years[k], entries, cs)
    {
      forall k | 0 <= k <= t && years[k].openingMode == OpeningEntries
        ensures GoodOpeningEntries(years[k], entries, cs)
      {
        assert forall i | 0 <= i < |years[k].openingEntryIDs| :: years[k].openingEntryIDs[i] in years[k].openingEntryIDs;
      }
    }
    if OpeningExists(years, t, entries, cs) {
      forall k, id | 0 <= k <= t && years[k].openingMode == OpeningEntries && id in years[k].openingEntryIDs
        ensures GoodOpeningEntry(id, years[k], entries, cs)
      {
        assert GoodOpeningEntries(years[k], entries, cs);
        var i :| 0 <= i < |years[k].openingEntryIDs| && years[k].openingEntryIDs[i] == id;
      }
    }
  }
}
