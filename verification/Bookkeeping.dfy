// The mutable side of the reports: the running amount map, the provenance
// collector that must mirror it, and the loops that feed both.
module Bookkeeping {
  import opened Results
  import opened Decimals
  import opened Orders
  import opened Calendar
  import opened Ledger
  import opened Accumulators
  import opened Configurations
  import opened Movements
  import opened CarryForward

  // amountMap: running totals, updated in place.
  class AmountMap {
    var sums: Totals

    constructor ()
      ensures sums == map[]
    {
      sums := map[];
    }

    method Add(key: AmountKey, value: Decimal)
      modifies this
      ensures sums == AddTo(old(sums), key, value)
    {
      var sum := if key in sums then sums[key] else Unset;
      sum := Plus(sum, Of(value));
      sums := sums[key := sum];
    }

    // A fresh map holding only the permanent accounts.
    method PermanentOnly() returns (r: AmountMap)
      ensures fresh(r) && r.sums == PermanentTotals(sums)
      ensures r.sums == map k | k in sums && k.category in {Asset, Liability, Equity} :: sums[k]
    {
      r := new AmountMap();
      var todo := sums.Keys;
      while todo != {}
        invariant todo <= sums.Keys
        invariant r.sums == map k | k in sums && k !in todo && IsPermanentCategory(k.category) :: sums[k]
      {
        var key :| key in todo;
        if IsPermanentCategory(key.category) {
          r.sums := r.sums[key := sums[key]];
        }
        todo := todo - {key};
      }
    }

    // cloneAmounts
    method Clone() returns (r: AmountMap)
      ensures fresh(r) && r.sums == sums
    {
      r := new AmountMap();
      var todo := sums.Keys;
      while todo != {}
        invariant todo <= sums.Keys
        invariant r.sums == map k | k in sums && k !in todo :: sums[k]
      {
        var key :| key in todo;
        r.sums := r.sums[key := sums[key]];
        todo := todo - {key};
      }
    }
  }

  // provenanceCollector: the contributions behind the totals.
  class ProvenanceCollector {
    var items: seq<Contribution>

    constructor ()
      ensures items == []
    {
      items := [];
    }

    method Add(item: Contribution)
      modifies this
      ensures items == old(items) + [item]
    {
      items := items + [item];
    }

    method Reset()
      modifies this
      ensures items == []
    {
      items := [];
    }

    // Filters the items in place, keeping their order.
    method PermanentOnly()
      modifies this
      ensures items == Permanent(old(items))
      ensures items == Keep(old(items), OnBalanceAccount)
    {
      PermanentMeans(items);
      var source := items;
      var kept := [];
      assert source[..0] == [];
      for n := 0 to |source|
        invariant kept == Permanent(source[..n])
        invariant items == source
      {
        assert source[..n + 1][..n] == source[..n];
        if IsPermanentCategory(source[n].key.category) {
          kept := kept + [source[n]];
        }
      }
      assert source[..|source|] == source;
      items := kept;
    }
  }

  // The leading contributions up to the first one to a temporary account.
  function AdmittedItems(items: seq<Contribution>, permanentOnly: bool): (r: seq<Contribution>) {
    if items == [] || (permanentOnly && !IsPermanent(items[0])) then []
    else [items[0]] + AdmittedItems(items[1..], permanentOnly)
  }

  lemma {:induction false} AdmittedPrefix(items: seq<Contribution>, permanentOnly: bool, n: nat)
    requires n <= |items|
    requires forall i | 0 <= i < n :: permanentOnly ==> IsPermanent(items[i])
    ensures n < |items| && permanentOnly && !IsPermanent(items[n]) ==> AdmittedItems(items, permanentOnly) == items[..n]
    ensures n == |items| ==> AdmittedItems(items, permanentOnly) == items
  {
    if n > 0 {
      AdmittedPrefix(items[1..], permanentOnly, n - 1);
      if n < |items| {
        assert items[1..][n - 1] == items[n];
      }
    }
  }

  // The amount one posting contributes, found as the source finds it.
  method PostingAmount(e: JournalEntry, i: nat, inferred: Option<Amount>) returns (amount: Amount)
    requires Valid(e) && i < |e.postings|
    requires inferred == if e.postings[|e.postings| - 1].amount.None? then Some(LastAmount(e)) else None
    ensures amount == AmountOf(e, i)
  {
    hide Validate, InferFinalAmount;
    var p := e.postings[i];
    if p.totalPrice.Some? {
      return p.totalPrice.value;
    }
    if p.amount.None? {
      LastOmitted(e, i);
      return inferred.value;
    }
    return p.amount.value;
  }

  function LastAmount(e: JournalEntry): Amount
    requires Valid(e) && Omits(e)
  {
    InferenceSucceeds(e);
    InferFinalAmount(e).value
  }

  method InferredAmountOf(e: JournalEntry) returns (inferred: Option<Amount>)
    requires Valid(e)
    ensures e.postings != []
    ensures inferred == if e.postings[|e.postings| - 1].amount.None? then Some(LastAmount(e)) else None
  {
    hide Validate, InferFinalAmount;
    ValidPostings(e);
    InferenceSucceeds(e);
    if e.postings[|e.postings| - 1].amount.Some? {
      return None;
    }
    var amount := InferFinal(e);
    return Some(amount.value);
  }

  // addEntryCollected: both paths receive the same contributions, in posting
  // order, up to a refused temporary account.
  method AddEntryCollected(
    target: AmountMap, item: Entry, cs: seq<Classification>, permanentOnly: bool, role: Role, collector: ProvenanceCollector?)
      returns (ok: bool)
    requires Valid(item.entry)
    modifies target, collector
    ensures ok <==> !permanentOnly || forall x | x in EntryItems(item, cs, role) :: IsPermanent(x)
    ensures ok <==> !permanentOnly || forall i | 0 <= i < |item.entry.postings| ::
                      Classify(cs, item.entry.postings[i].account) in {Asset, Liability, Equity}
    ensures target.sums == Post(old(target.sums), AdmittedItems(EntryItems(item, cs, role), permanentOnly))
    ensures collector != null ==>
              collector.items == old(collector.items) + AdmittedItems(EntryItems(item, cs, role), permanentOnly)
    ensures ok ==> AdmittedItems(EntryItems(item, cs, role), permanentOnly) == EntryItems(item, cs, role)
  {
    hide Valid, AmountOf, Classify, AddTo, IsPermanent, Post, AdmittedItems;
    PermanentPostings(item, cs, role);
    ghost var items := EntryItems(item, cs, role);
    var inferred := InferredAmountOf(item.entry);
    var ps := item.entry.postings;
    assert items[..0] == [];
    PostNothing(target.sums);
    for index := 0 to |ps|
      invariant target.sums == Post(old(target.sums), items[..index])
      invariant collector != null ==> collector.items == old(collector.items) + items[..index]
      invariant forall i | 0 <= i < index :: permanentOnly ==> IsPermanent(items[i])
    {
      var category := Classify(cs, ps[index].account);
      var amount := PostingAmount(item.entry, index, inferred);
      var key := AmountKey(amount.commodity, category, ps[index].account);
      ghost var x := ItemAt(item, cs, role, index);
      assert x == items[index] && x.key == key && x.value == amount.value;
      AdmittedPrefix(items, permanentOnly, index);
      assert IsPermanent(x) <==> IsPermanentCategory(category) by { PermanentByCategory(x); }
      if permanentOnly && !IsPermanentCategory(category) {
        assert items[index] in items;
        return false;
      }
      assert items[..index + 1] == items[..index] + [x];
      PostOne(old(target.sums), items[..index], x);
      target.Add(key, amount.value);
      if collector != null {
        collector.Add(Contribution(item, index, key, amount.value, role));
      }
    }
    assert items[..|ps|] == items;
    AdmittedPrefix(items, permanentOnly, |items|);
    return true;
  }

  lemma PermanentByCategory(x: Contribution)
    ensures IsPermanent(x) <==> IsPermanentCategory(x.key.category)
  {
  }

  lemma PermanentPostings(item: Entry, cs: seq<Classification>, role: Role)
    requires Valid(item.entry)
    ensures (forall x | x in EntryItems(item, cs, role) :: IsPermanent(x)) <==>
            forall i | 0 <= i < |item.entry.postings| :: Classify(cs, item.entry.postings[i].account) in {Asset, Liability, Equity}
  {
    hide Valid, AmountOf, Classify;
    var items := EntryItems(item, cs, role);
    forall i | 0 <= i < |items|
      ensures items[i].key.category == Classify(cs, item.entry.postings[i].account) && items[i] in items
    {
    }
    if forall x | x in items :: IsPermanent(x) {
      assert forall i | 0 <= i < |items| :: IsPermanent(items[i]);
    }
  }

  lemma AllAdmitted(items: seq<Contribution>)
    ensures AdmittedItems(items, false) == items
  {
    AdmittedPrefix(items, false, |items|);
  }

  // Periods as they are compared with entry dates: through their texts.
  predicate TextPeriod(p: Period) {
    && ValidDate(p.startDate) && ValidDate(p.endDate)
    && 0 <= p.startDate.year <= 9999 && 0 <= p.endDate.year <= 9999
  }

  // The date filter of every movement loop, on ten-character texts.
  method OutsidePeriod(item: Entry, p: Period) returns (outside: bool)
    requires TextPeriod(p)
    ensures outside <==> !InPeriod(item.entry.date.date, p)
  {
    hide FormatDate, TextLess, IsClock;
    ParseInvertsTimeText(item.entry.date);
    DateTextOrder(item.entry.date.date, p.startDate);
    DateTextOrder(p.endDate, item.entry.date.date);
    var date := TimeText(item.entry.date)[..10];
    outside := TextLess(date, FormatDate(p.startDate)) || TextLess(FormatDate(p.endDate), date);
  }

  method ExcludedSet(excluded: seq<string>) returns (exclude: set<string>)
    ensures forall id :: id in exclude <==> id in excluded
  {
    exclude := {};
    for n := 0 to |excluded|
      invariant forall id :: id in exclude <==> id in excluded[..n]
    {
      assert excluded[..n + 1] == excluded[..n] + [excluded[n]];
      exclude := exclude + {excluded[n]};
    }
    assert excluded[..|excluded|] == excluded;
  }

  lemma MovementStep(entries: seq<Entry>, n: nat, p: Period, excluded: seq<string>, cs: seq<Classification>, role: Role)
    requires AllEntriesValid(entries) && n < |entries|
    ensures MovementItems(entries[..n + 1], p, excluded, cs, role)
         == MovementItems(entries[..n], p, excluded, cs, role) + SelectedItems(entries[n], p, excluded, cs, role)
  {
    hide SelectedItems, Valid;
    assert entries[..n + 1][..n] == entries[..n];
  }

  // addMovementsCollected
  method AddMovementsCollected(
    target: AmountMap, entries: seq<Entry>, p: Period, excluded: seq<string>, cs: seq<Classification>, role: Role,
    collector: ProvenanceCollector?)
    requires AllEntriesValid(entries) && TextPeriod(p)
    modifies target, collector
    ensures target.sums == Post(old(target.sums), MovementItems(entries, p, excluded, cs, role))
    ensures collector != null ==> collector.items == old(collector.items) + MovementItems(entries, p, excluded, cs, role)
  {
    hide Valid, Post, EntryItems, InPeriod, TextPeriod, AdmittedItems, WellFormedTime;
    var exclude := ExcludedSet(excluded);
    ghost var start := target.sums;
    assert entries[..0] == [];
    PostNothing(start);
    for n := 0 to |entries|
      invariant target.sums == Post(start, MovementItems(entries[..n], p, excluded, cs, role))
      invariant collector != null ==>
                  collector.items == old(collector.items) + MovementItems(entries[..n], p, excluded, cs, role)
    {
      var item := entries[n];
      MovementStep(entries, n, p, excluded, cs, role);
      assert Valid(item.entry);
      ghost var done, more := MovementItems(entries[..n], p, excluded, cs, role), SelectedItems(item, p, excluded, cs, role);
      PostAppend(start, done, more);
      var outside := OutsidePeriod(item, p);
      if item.id in exclude || outside {
        assert done + [] == done;
        continue;
      }
      AllAdmitted(EntryItems(item, cs, role));
      var ok := AddEntryCollected(target, item, cs, false, role, collector);
    }
    assert entries[..|entries|] == entries;
  }

  lemma PostNothing(m: Totals)
    ensures Post(m, []) == m
  {
  }

  // ------------------------------------------------------- debits and credits

  lemma DebitStep(items: seq<Contribution>, n: nat)
    requires n < |items|
    ensures Debits(items[..n + 1]) == if IsDebit(items[n]) then Debits(items[..n]) + [items[n]] else Debits(items[..n])
    ensures Credits(items[..n + 1]) == if IsCredit(items[n]) then Credits(items[..n]) + [items[n]] else Credits(items[..n])
  {
    assert items[..n + 1][..n] == items[..n];
  }

  method CollectEntry(
    debits: AmountMap, credits: AmountMap, item: Entry, cs: seq<Classification>, collector: ProvenanceCollector?)
    requires Valid(item.entry) && debits != credits
    modifies debits, credits, collector
    ensures var items := EntryItems(item, cs, MovementRole);
            && debits.sums == Post(old(debits.sums), Debits(items))
            && credits.sums == Post(old(credits.sums), Credits(items))
            && (collector != null ==> collector.items == old(collector.items) + items)
  {
    hide Valid, AmountOf, Classify, AddTo, IsDebit, IsCredit, Post, Debits, Credits, Sign;
    ghost var items := EntryItems(item, cs, MovementRole);
    var inferred := InferredAmountOf(item.entry);
    var ps := item.entry.postings;
    assert items[..0] == [];
    NoSides();
    PostNothing(debits.sums);
    PostNothing(credits.sums);
    for index := 0 to |ps|
      invariant debits.sums == Post(old(debits.sums), Debits(items[..index]))
      invariant credits.sums == Post(old(credits.sums), Credits(items[..index]))
      invariant collector != null ==> collector.items == old(collector.items) + items[..index]
    {
      var category := Classify(cs, ps[index].account);
      var amount := PostingAmount(item.entry, index, inferred);
      var key := AmountKey(amount.commodity, category, ps[index].account);
      ghost var x := ItemAt(item, cs, MovementRole, index);
      assert x == items[index] && x.key == key && x.value == amount.value;
      DebitStep(items, index);
      SideOf(x);
      if Sign(amount.value) >= 0 {
        PostOne(old(debits.sums), Debits(items[..index]), x);
        debits.Add(key, amount.value);
      } else {
        PostOne(old(credits.sums), Credits(items[..index]), x);
        credits.Add(key, amount.value);
      }
      if collector != null {
        collector.Add(Contribution(item, index, key, amount.value, MovementRole));
      }
    }
    assert items[..|ps|] == items;
  }

  lemma SideOf(x: Contribution)
    ensures IsDebit(x) <==> Sign(x.value) >= 0
    ensures IsCredit(x) <==> Sign(x.value) < 0
  {
  }

  lemma PostOne(m: Totals, items: seq<Contribution>, x: Contribution)
    ensures Post(m, items + [x]) == AddTo(Post(m, items), x.key, x.value)
  {
    assert (items + [x])[..|items|] == items;
  }

  // collectMovementsCollected: debit and credit turnover of a period, apart.
  method CollectMovementsCollected(
    entries: seq<Entry>, p: Period, excluded: seq<string>, cs: seq<Classification>, collector: ProvenanceCollector?)
      returns (debits: AmountMap, credits: AmountMap)
    requires AllEntriesValid(entries) && TextPeriod(p)
    modifies collector
    ensures fresh(debits) && fresh(credits) && debits != credits
    ensures debits.sums == Tally(Debits(MovementItems(entries, p, excluded, cs, MovementRole)))
    ensures credits.sums == Tally(Credits(MovementItems(entries, p, excluded, cs, MovementRole)))
    ensures collector != null ==>
              collector.items == old(collector.items) + MovementItems(entries, p, excluded, cs, MovementRole)
  {
    hide Valid, Post, EntryItems, InPeriod, TextPeriod, Debits, Credits;
    debits := new AmountMap();
    credits := new AmountMap();
    var exclude := ExcludedSet(excluded);
    assert entries[..0] == [];
    NoSides();
    PostNothing(map[]);
    for n := 0 to |entries|
      invariant fresh(debits) && fresh(credits)
      invariant debits.sums == Tally(Debits(MovementItems(entries[..n], p, excluded, cs, MovementRole)))
      invariant credits.sums == Tally(Credits(MovementItems(entries[..n], p, excluded, cs, MovementRole)))
      invariant collector != null ==>
                  collector.items == old(collector.items) + MovementItems(entries[..n], p, excluded, cs, MovementRole)
    {
      var item := entries[n];
      MovementStep(entries, n, p, excluded, cs, MovementRole);
      assert Valid(item.entry);
      ghost var done := MovementItems(entries[..n], p, excluded, cs, MovementRole);
      ghost var more := SelectedItems(item, p, excluded, cs, MovementRole);
      var outside := OutsidePeriod(item, p);
      if item.id in exclude || outside {
        assert done + [] == done;
        continue;
      }
      SidesAppend(done, more);
      CollectEntry(debits, credits, item, cs, collector);
    }
    assert entries[..|entries|] == entries;
  }

  lemma NoSides()
    ensures Debits([]) == [] && Credits([]) == []
  {
  }

  lemma SidesAppend(a: seq<Contribution>, b: seq<Contribution>)
    ensures Tally(Debits(a + b)) == Post(Tally(Debits(a)), Debits(b))
    ensures Tally(Credits(a + b)) == Post(Tally(Credits(a)), Credits(b))
  {
    hide Keep, Post;
    KeepAppend(a, b, IsDebit);
    KeepAppend(a, b, IsCredit);
    PostAppend(map[], Debits(a), Debits(b));
    PostAppend(map[], Credits(a), Credits(b));
  }

  // ------------------------------------------------------------ the opening

  // validateEntries
  method ValidateEntries(entries: seq<Entry>) returns (r: Option<map<string, Entry>>)
    ensures r == if GoodEntries(entries) then Some(ById(entries)) else None
  {
    hide Validate;
    var result: map<string, Entry> := map[];
    assert entries[..0] == [];
    for n := 0 to |entries|
      invariant GoodEntries(entries[..n])
      invariant result == ById(entries[..n])
      invariant forall id :: id in result <==> exists i :: 0 <= i < n && entries[i].id == id
    {
      var item := entries[n];
      assert entries[..n + 1][..n] == entries[..n];
      if item.id == "" {
        return None;
      }
      if item.id in result {
        return None;
      }
      var fault := ValidateEntry(item.entry);
      if fault.Some? {
        return None;
      }
      result := result[item.id := item];
    }
    assert entries[..|entries|] == entries;
    return Some(result);
  }

  // The entries opening a year, added in the order the year lists them.
  method AddOpeningEntries(
    opening: AmountMap, year: FiscalYear, validated: map<string, Entry>, ghost entries: seq<Entry>, cs: seq<Classification>,
    collector: ProvenanceCollector?) returns (ok: bool)
    requires GoodEntries(entries) && validated == ById(entries)
    modifies opening, collector
    ensures ok <==> GoodOpeningEntries(year, entries, cs)
    ensures ok ==> opening.sums == Post(old(opening.sums), OpeningEntryItems(year.openingEntryIDs, entries, cs))
    ensures ok && collector != null ==>
              collector.items == old(collector.items) + OpeningEntryItems(year.openingEntryIDs, entries, cs)
  {
    hide Valid, Post, EntryItems, ById, IsPermanent, SpanOf, GoodEntries, AdmittedItems, WellFormedTime;
    var ids := year.openingEntryIDs;
    ghost var start := opening.sums;
    assert ids[..0] == [];
    PostNothing(start);
    for n := 0 to |ids|
      invariant forall i | 0 <= i < n :: GoodOpeningEntry(ids[i], year, entries, cs)
      invariant opening.sums == Post(start, OpeningEntryItems(ids[..n], entries, cs))
      invariant collector != null ==> collector.items == old(collector.items) + OpeningEntryItems(ids[..n], entries, cs)
    {
      var id := ids[n];
      assert ids[..n + 1][..n] == ids[..n];
      if id !in validated {
        assert !GoodOpeningEntry(ids[n], year, entries, cs);
        return false;
      }
      ByIdValid(entries, id);
      var entry := validated[id];
      if entry.entry.date.date != SpanOf(year).start {
        assert !GoodOpeningEntry(ids[n], year, entries, cs);
        return false;
      }
      ghost var done := OpeningEntryItems(ids[..n], entries, cs);
      PostAppend(start, done, EntryItems(entry, cs, OpeningRole));
      ok := AddEntryCollected(opening, entry, cs, true, OpeningRole, collector);
      if !ok {
        assert !GoodOpeningEntry(ids[n], year, entries, cs);
        return;
      }
      assert GoodOpeningEntry(ids[n], year, entries, cs);
    }
    assert ids[..|ids|] == ids;
    return true;
  }

  lemma YearTextPeriod(year: FiscalYear)
    ensures TextPeriod(YearPeriod(year))
  {
    hide ParseDate;
    assert ValidDate(Date(1, 1, 1));
  }

  method AddYear(opening: AmountMap, year: FiscalYear, entries: seq<Entry>, cs: seq<Classification>, collector: ProvenanceCollector?)
    requires AllEntriesValid(entries)
    modifies opening, collector
    ensures opening.sums == Post(old(opening.sums), YearItems(year, entries, cs))
    ensures collector != null ==> collector.items == old(collector.items) + YearItems(year, entries, cs)
  {
    hide AllEntriesValid, Post, MovementItems, TextPeriod;
    YearTextPeriod(year);
    AddMovementsCollected(opening, entries, YearPeriod(year), year.openingEntryIDs, cs, OpeningRole, collector);
  }

  // buildFiscalOpeningCollected: the loop over the years up to the target. The
  // collector ends with exactly the contributions behind the opening totals.
  method BuildFiscalOpeningCollected(
    years: seq<FiscalYear>, targetIndex: nat, validated: map<string, Entry>, entries: seq<Entry>, cs: seq<Classification>,
    collector: ProvenanceCollector?) returns (ok: bool, opening: AmountMap)
    requires targetIndex < |years| && GoodEntries(entries) && validated == ById(entries)
    modifies collector
    ensures fresh(opening)
    ensures AllEntriesValid(entries)
    ensures ok <==> OpeningExists(years, targetIndex, entries, cs)
    ensures ok ==> opening.sums == Tally(Carried(years, targetIndex, entries, cs))
    ensures ok && collector != null ==> collector.items == Carried(years, targetIndex, entries, cs)
  {
    hide GoodOpeningEntries, GoodEntries, Post, OpeningEntryItems, YearItems, Permanent, PermanentTotals, AllEntriesValid, ById, TextPeriod;
    GoodAreValid(entries);
    opening := new AmountMap();
    ghost var balance: seq<Contribution> := [];
    var index := 0;
    while index <= targetIndex
      invariant 0 <= index <= targetIndex + 1
      invariant fresh(opening)
      invariant forall i | 0 <= i < index && years[i].openingMode == OpeningEntries :: GoodOpeningEntries(years[i], entries, cs)
      invariant 0 < index <= targetIndex ==>
                  balance == Carried(years, index - 1, entries, cs) + YearItems(years[index - 1], entries, cs)
      invariant index == targetIndex + 1 ==> balance == Carried(years, targetIndex, entries, cs)
      invariant index > 0 ==> opening.sums == Tally(balance) && (collector != null ==> collector.items == balance)
    {
      var year := years[index];
      ghost var carried := Carried(years, index, entries, cs);
      if year.openingMode == OpeningEntries {
        opening := new AmountMap();
        if collector != null {
          collector.Reset();
        }
        ok := AddOpeningEntries(opening, year, validated, entries, cs, collector);
        if !ok {
          return;
        }
        assert [] + carried == carried;
      } else if index == 0 {
        opening := new AmountMap();
        if collector != null {
          collector.Reset();
        }
        PostNothing(map[]);
      } else {
        PermanentCommutes(balance);
        opening := opening.PermanentOnly();
        if collector != null {
          collector.PermanentOnly();
        }
      }
      balance := carried;
      if index < targetIndex {
        AddYear(opening, year, entries, cs, collector);
        balance := carried + YearItems(year, entries, cs);
        PostAppend(map[], carried, YearItems(year, entries, cs));
      }
      index := index + 1;
    }
    return true, opening;
  }
}
