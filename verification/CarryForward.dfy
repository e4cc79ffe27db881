// The fiscal opening: balances carried from year to year, reset by opening
// entries and restricted to asset, liability and equity accounts.
module CarryForward {
  import opened Ledger
  import opened Accumulators
  import opened Configurations
  import opened Movements

  // The entry carrying each identifier.
  function ById(entries: seq<Entry>): map<string, Entry> {
    if entries == [] then map[]
    else ById(entries[..|entries| - 1])[entries[|entries| - 1].id := entries[|entries| - 1]]
  }

  // What validateEntries accepts.
  predicate GoodEntries(entries: seq<Entry>) {
    && (forall i | 0 <= i < |entries| :: entries[i].id != "" && Valid(entries[i].entry))
    && (forall i, j | 0 <= i < j < |entries| :: entries[i].id != entries[j].id)
  }

  lemma {:induction false} ByIdMembers(entries: seq<Entry>)
    requires GoodEntries(entries)
    ensures forall id :: id in ById(entries) <==> exists e :: e in entries && e.id == id
    ensures forall e | e in entries :: e.id in ById(entries) && ById(entries)[e.id] == e
  {
    hide Valid;
    if entries != [] {
      var front, last := entries[..|entries| - 1], entries[|entries| - 1];
      ByIdMembers(front);
      assert entries == front + [last];
    }
  }

  lemma ByIdValid(entries: seq<Entry>, id: string)
    requires GoodEntries(entries) && id in ById(entries)
    ensures ById(entries)[id] in entries && ById(entries)[id].id == id && Valid(ById(entries)[id].entry)
  {
    hide Valid;
    ByIdMembers(entries);
    var e :| e in entries && e.id == id;
    var i :| 0 <= i < |entries| && entries[i] == e;
  }

  function YearPeriod(y: FiscalYear): Period {
    WholeYear(SpanOf(y))
  }

  // An opening entry exists, is dated on the first day of its year and posts
  // only to asset, liability and equity accounts.
  predicate GoodOpeningEntry(id: string, y: FiscalYear, entries: seq<Entry>, cs: seq<Classification>) {
    && id in ById(entries) && Valid(ById(entries)[id].entry)
    && ById(entries)[id].entry.date.date == SpanOf(y).start
    && forall x | x in EntryItems(ById(entries)[id], cs, OpeningRole) :: IsPermanent(x)
  }

  predicate GoodOpeningEntries(y: FiscalYear, entries: seq<Entry>, cs: seq<Classification>) {
    forall i | 0 <= i < |y.openingEntryIDs| :: GoodOpeningEntry(y.openingEntryIDs[i], y, entries, cs)
  }

  // The contributions of the opening entries, in the order they are listed.
  function OpeningEntryItems(ids: seq<string>, entries: seq<Entry>, cs: seq<Classification>): seq<Contribution> {
    if ids == [] then []
    else
      var id := ids[|ids| - 1];
      OpeningEntryItems(ids[..|ids| - 1], entries, cs)
      + (if id in ById(entries) && Valid(ById(entries)[id].entry) then EntryItems(ById(entries)[id], cs, OpeningRole) else [])
  }

  // The movements of one fiscal year as they enter the next year's opening.
  function YearItems(y: FiscalYear, entries: seq<Entry>, cs: seq<Classification>): seq<Contribution>
    requires AllEntriesValid(entries)
  {
    MovementItems(entries, YearPeriod(y), y.openingEntryIDs, cs, OpeningRole)
  }

  // The opening of year t, year by year.
  function Carried(years: seq<FiscalYear>, t: nat, entries: seq<Entry>, cs: seq<Classification>): seq<Contribution>
    requires t < |years| && AllEntriesValid(entries)
  {
    if years[t].openingMode == OpeningEntries then OpeningEntryItems(years[t].openingEntryIDs, entries, cs)
    else if t == 0 then []
    else Permanent(Carried(years, t - 1, entries, cs) + YearItems(years[t - 1], entries, cs))
  }

  // The opening can be built: every year up to t that resets has good opening entries.
  predicate OpeningExists(years: seq<FiscalYear>, t: nat, entries: seq<Entry>, cs: seq<Classification>)
    requires t < |years|
  {
    forall i | 0 <= i <= t && years[i].openingMode == OpeningEntries :: GoodOpeningEntries(years[i], entries, cs)
  }

  lemma GoodAreValid(entries: seq<Entry>)
    requires GoodEntries(entries)
    ensures AllEntriesValid(entries)
  {
  }

  // ------------------------------------------------------------ closed form

  // The last year up to t that starts from opening entries, or -1.
  function LastReset(years: seq<FiscalYear>, t: nat): (r: int)
    requires t < |years|
    ensures -1 <= r <= t
    ensures r >= 0 ==> years[r].openingMode == OpeningEntries
    ensures forall i | r < i <= t :: years[i].openingMode != OpeningEntries
  {
    if years[t].openingMode == OpeningEntries then t else if t == 0 then -1 else LastReset(years, t - 1)
  }

  // The movements of the years from `from` up to but excluding t.
  function MovementsSince(years: seq<FiscalYear>, from: nat, t: nat, entries: seq<Entry>, cs: seq<Classification>)
      : seq<Contribution>
    requires from <= t <= |years| && AllEntriesValid(entries)
    decreases t
  {
    if from == t then []
    else MovementsSince(years, from, t - 1, entries, cs) + YearItems(years[t - 1], entries, cs)
  }

  function From(r: int): nat {
    if r < 0 then 0 else r
  }

  // Opening entries of the last reset year followed by everything since.
  function History(years: seq<FiscalYear>, t: nat, entries: seq<Entry>, cs: seq<Classification>): seq<Contribution>
    requires t < |years| && AllEntriesValid(entries)
  {
    var r := LastReset(years, t);
    (if r < 0 then [] else OpeningEntryItems(years[r].openingEntryIDs, entries, cs))
    + MovementsSince(years, From(r), t, entries, cs)
  }

  lemma {:induction false} OpeningItemsPermanent(ids: seq<string>, y: FiscalYear, entries: seq<Entry>, cs: seq<Classification>)
    requires forall i | 0 <= i < |ids| :: GoodOpeningEntry(ids[i], y, entries, cs)
    ensures forall x | x in OpeningEntryItems(ids, entries, cs) :: IsPermanent(x)
  {
    hide EntryItems, Valid, IsPermanent, ById;
    if ids != [] {
      OpeningItemsPermanent(ids[..|ids| - 1], y, entries, cs);
      assert GoodOpeningEntry(ids[|ids| - 1], y, entries, cs);
    }
  }

  predicate OnBalanceAccount(x: Contribution) {
    x.key.category in {Asset, Liability, Equity}
  }

  lemma PermanentMeans(items: seq<Contribution>)
    ensures Permanent(items) == Keep(items, OnBalanceAccount)
  {
    SameKept(items, IsPermanent, OnBalanceAccount);
  }

  lemma {:induction false} SameKept(items: seq<Contribution>, f: Contribution -> bool, g: Contribution -> bool)
    requires forall x :: f(x) == g(x)
    ensures Keep(items, f) == Keep(items, g)
  {
    if items != [] {
      SameKept(items[..|items| - 1], f, g);
    }
  }

  // The opening of year t is exactly the part of the history since the last
  // reset that lies on asset, liability and equity accounts; nothing before
  // that reset year matters.
  lemma CarriedClosedForm(years: seq<FiscalYear>, t: nat, entries: seq<Entry>, cs: seq<Classification>)
    requires t < |years| && AllEntriesValid(entries) && OpeningExists(years, t, entries, cs)
    ensures Carried(years, t, entries, cs) == Keep(History(years, t, entries, cs), OnBalanceAccount)
    ensures forall x | x in Carried(years, t, entries, cs) :: x.key.category in {Asset, Liability, Equity}
    ensures Carried(years, t, entries, cs) == Permanent(History(years, t, entries, cs))
    ensures forall x | x in Carried(years, t, entries, cs) :: IsPermanent(x)
  {
    hide AllEntriesValid, History, Carried, Keep, OpeningExists;
    CarriedIsPermanent(years, t, entries, cs);
    PermanentMeans(History(years, t, entries, cs));
    forall x | x in Carried(years, t, entries, cs)
      ensures x.key.category in {Asset, Liability, Equity}
    {
      KeepMembers(History(years, t, entries, cs), OnBalanceAccount, x);
    }
  }

  lemma {:induction false} CarriedIsPermanent(years: seq<FiscalYear>, t: nat, entries: seq<Entry>, cs: seq<Classification>)
    requires t < |years| && AllEntriesValid(entries) && OpeningExists(years, t, entries, cs)
    ensures Carried(years, t, entries, cs) == Permanent(History(years, t, entries, cs))
    ensures forall x | x in Carried(years, t, entries, cs) :: IsPermanent(x)
  {
    hide AllEntriesValid, YearItems, OpeningEntryItems, GoodOpeningEntry, IsPermanent, Permanent;
    if years[t].openingMode == OpeningEntries {
      assert GoodOpeningEntries(years[t], entries, cs);
      var opening := OpeningEntryItems(years[t].openingEntryIDs, entries, cs);
      OpeningItemsPermanent(years[t].openingEntryIDs, years[t], entries, cs);
      PermanentOfPermanent(opening);
      assert History(years, t, entries, cs) == opening + [] == opening;
    } else if t == 0 {
      assert History(years, t, entries, cs) == [] + [] == [];
      EmptyPermanent();
    } else {
      CarriedIsPermanent(years, t - 1, entries, cs);
      var before, year := History(years, t - 1, entries, cs), YearItems(years[t - 1], entries, cs);
      HistoryStep(years, t, entries, cs);
      PermanentAgain(before, year);
      AllPermanent(before + year);
    }
  }

  lemma HistoryStep(years: seq<FiscalYear>, t: nat, entries: seq<Entry>, cs: seq<Classification>)
    requires 0 < t < |years| && AllEntriesValid(entries) && years[t].openingMode != OpeningEntries
    ensures History(years, t, entries, cs) == History(years, t - 1, entries, cs) + YearItems(years[t - 1], entries, cs)
  {
    hide AllEntriesValid, YearItems, OpeningEntryItems;
    var r := LastReset(years, t);
    assert r == LastReset(years, t - 1);
    assert From(r) <= t - 1;
  }

  lemma EmptyPermanent()
    ensures Permanent([]) == []
  {
  }

  lemma PermanentOfPermanent(items: seq<Contribution>)
    requires forall x | x in items :: IsPermanent(x)
    ensures Permanent(items) == items
  {
    KeepAll(items, IsPermanent);
  }

  lemma AllPermanent(items: seq<Contribution>)
    ensures forall x | x in Permanent(items) :: IsPermanent(x)
  {
    hide Keep, IsPermanent;
    forall x | x in Permanent(items)
      ensures IsPermanent(x)
    {
      KeepMembers(items, IsPermanent, x);
    }
  }

  lemma PermanentAgain(before: seq<Contribution>, year: seq<Contribution>)
    ensures Permanent(Permanent(before) + year) == Permanent(before + year)
  {
    hide Keep;
    KeepAppend(Permanent(before), year, IsPermanent);
    KeepAppend(before, year, IsPermanent);
    KeepTwice(before, IsPermanent);
  }

  // --------------------------------------------------------------- balance

  ghost predicate BalancedItems(items: seq<Contribution>) {
    forall c :: IsZero(ItemSum(items, OfCommodity(c)))
  }

  ghost predicate BalancedTotals(m: Totals) {
    forall c :: IsZero(TotalSum(m, OfCommodity(c)))
  }

  lemma TallyBalanced(items: seq<Contribution>)
    ensures BalancedTotals(Tally(items)) <==> BalancedItems(items)
  {
    hide IsZero, OfCommodity, Tally;
    forall c
      ensures TotalSum(Tally(items), OfCommodity(c)) == ItemSum(items, OfCommodity(c))
    {
      TallySum(items, OfCommodity(c));
    }
  }

  lemma BalancedAppend(a: seq<Contribution>, b: seq<Contribution>)
    requires BalancedItems(a) && BalancedItems(b)
    ensures BalancedItems(a + b)
  {
    hide OfCommodity, Plus, IsZero;
    forall c
      ensures IsZero(ItemSum(a + b, OfCommodity(c)))
    {
      ItemSumAppend(a, b, OfCommodity(c));
      PlusZero(ItemSum(a, OfCommodity(c)), ItemSum(b, OfCommodity(c)));
    }
  }

  lemma EntryItemsBalanced(item: Entry, cs: seq<Classification>, role: Role)
    requires Valid(item.entry)
    ensures BalancedItems(EntryItems(item, cs, role))
  {
    hide EntryItems, Valid, OfCommodity;
    forall c
      ensures IsZero(ItemSum(EntryItems(item, cs, role), OfCommodity(c)))
    {
      EntryBalanced(item, cs, role, c);
    }
  }

  lemma EmptyBalanced()
    ensures BalancedItems([])
  {
  }

  lemma {:induction false} OpeningEntriesBalanced(ids: seq<string>, entries: seq<Entry>, cs: seq<Classification>)
    ensures BalancedItems(OpeningEntryItems(ids, entries, cs))
  {
    hide EntryItems, BalancedItems, Valid, ById;
    EmptyBalanced();
    if ids != [] {
      OpeningEntriesBalanced(ids[..|ids| - 1], entries, cs);
      var id := ids[|ids| - 1];
      var front := OpeningEntryItems(ids[..|ids| - 1], entries, cs);
      if id in ById(entries) && Valid(ById(entries)[id].entry) {
        EntryItemsBalanced(ById(entries)[id], cs, OpeningRole);
        BalancedAppend(front, EntryItems(ById(entries)[id], cs, OpeningRole));
      } else {
        assert front + [] == front;
      }
    }
  }

  lemma MovementItemsBalanced(entries: seq<Entry>, p: Period, excluded: seq<string>, cs: seq<Classification>, role: Role)
    requires AllEntriesValid(entries)
    ensures BalancedItems(MovementItems(entries, p, excluded, cs, role))
  {
    hide MovementItems, AllEntriesValid, OfCommodity;
    forall c
      ensures IsZero(ItemSum(MovementItems(entries, p, excluded, cs, role), OfCommodity(c)))
    {
      MovementsBalanced(entries, p, excluded, cs, role, c);
    }
  }

  lemma {:induction false} SinceBalanced(years: seq<FiscalYear>, from: nat, t: nat, entries: seq<Entry>, cs: seq<Classification>)
    requires from <= t <= |years| && AllEntriesValid(entries)
    ensures BalancedItems(MovementsSince(years, from, t, entries, cs))
    decreases t
  {
    hide BalancedItems, AllEntriesValid, MovementItems;
    EmptyBalanced();
    if from < t {
      SinceBalanced(years, from, t - 1, entries, cs);
      MovementItemsBalanced(entries, YearPeriod(years[t - 1]), years[t - 1].openingEntryIDs, cs, OpeningRole);
      BalancedAppend(MovementsSince(years, from, t - 1, entries, cs), YearItems(years[t - 1], entries, cs));
    }
  }

  lemma HistoryBalanced(years: seq<FiscalYear>, t: nat, entries: seq<Entry>, cs: seq<Classification>)
    requires t < |years| && AllEntriesValid(entries)
    ensures BalancedItems(History(years, t, entries, cs))
  {
    hide BalancedItems, AllEntriesValid, OpeningEntryItems, MovementsSince;
    var r := LastReset(years, t);
    EmptyBalanced();
    SinceBalanced(years, From(r), t, entries, cs);
    if r >= 0 {
      OpeningEntriesBalanced(years[r].openingEntryIDs, entries, cs);
    }
    BalancedAppend(if r < 0 then [] else OpeningEntryItems(years[r].openingEntryIDs, entries, cs),
                   MovementsSince(years, From(r), t, entries, cs));
  }

  // Splitting a commodity's sum into its permanent and temporary accounts.
  lemma PermanentSplit(items: seq<Contribution>, c: string)
    ensures ItemSum(items, OfCommodity(c))
         == Plus(ItemSum(Permanent(items), OfCommodity(c)), ItemSum(items, OfCommodity(c) * TemporaryKeys()))
  {
    hide Plus, Keep;
    var K := OfCommodity(c);
    KeepSum(items, IsPermanent, PermanentKeys(), K);
    ItemSumSplit(items, K * PermanentKeys(), K * TemporaryKeys());
    EveryKey();
    assert K == K * PermanentKeys() + K * TemporaryKeys();
  }

  lemma EveryKey()
    ensures forall k: AmountKey :: k in PermanentKeys() || k in TemporaryKeys()
  {
    forall k: AmountKey
      ensures k in PermanentKeys() || k in TemporaryKeys()
    {
      match k.category
      case Asset => assert k in PermanentKeys();
      case Liability => assert k in PermanentKeys();
      case Equity => assert k in PermanentKeys();
      case Revenue => assert k in TemporaryKeys();
      case Expense => assert k in TemporaryKeys();
      case Unclassified => assert k in TemporaryKeys();
    }
  }

  // Revenue, expense and unclassified movements of every commodity net to zero.
  ghost predicate TemporaryNetZero(items: seq<Contribution>) {
    forall c :: IsZero(ItemSum(items, OfCommodity(c) * TemporaryKeys()))
  }

  lemma OpeningHasNoTemporary(years: seq<FiscalYear>, t: nat, entries: seq<Entry>, cs: seq<Classification>, c: string)
    requires t < |years| && AllEntriesValid(entries) && OpeningExists(years, t, entries, cs)
    ensures ItemSum(History(years, t, entries, cs), OfCommodity(c) * TemporaryKeys())
         == ItemSum(MovementsSince(years, From(LastReset(years, t)), t, entries, cs), OfCommodity(c) * TemporaryKeys())
  {
    hide AllEntriesValid, OpeningEntryItems, MovementsSince, Plus, GoodOpeningEntry;
    var r := LastReset(years, t);
    var K := OfCommodity(c) * TemporaryKeys();
    var opening := if r < 0 then [] else OpeningEntryItems(years[r].openingEntryIDs, entries, cs);
    var since := MovementsSince(years, From(r), t, entries, cs);
    ItemSumAppend(opening, since, K);
    if r >= 0 {
      assert GoodOpeningEntries(years[r], entries, cs);
      OpeningItemsPermanent(years[r].openingEntryIDs, years[r], entries, cs);
    }
    ItemSumOutside(opening, K);
    PlusUnset(ItemSum(since, K));
  }

  // The opening balances exactly when the temporary movements since the last
  // reset net to zero in every commodity.
  lemma OpeningBalancedIff(years: seq<FiscalYear>, t: nat, entries: seq<Entry>, cs: seq<Classification>)
    requires t < |years| && AllEntriesValid(entries) && OpeningExists(years, t, entries, cs)
    ensures BalancedTotals(Tally(Carried(years, t, entries, cs)))
       <==> TemporaryNetZero(MovementsSince(years, From(LastReset(years, t)), t, entries, cs))
  {
    hide AllEntriesValid, MovementsSince, Plus, History, Carried, Permanent, OfCommodity, TemporaryKeys, OpeningExists, Tally;
    CarriedClosedForm(years, t, entries, cs);
    HistoryBalanced(years, t, entries, cs);
    TallyBalanced(Carried(years, t, entries, cs));
    var history := History(years, t, entries, cs);
    forall c
      ensures IsZero(ItemSum(Permanent(history), OfCommodity(c)))
         <==> IsZero(ItemSum(history, OfCommodity(c) * TemporaryKeys()))
    {
      PermanentSplit(history, c);
      assert IsZero(ItemSum(history, OfCommodity(c)));
      SumZeroSides(ItemSum(Permanent(history), OfCommodity(c)), ItemSum(history, OfCommodity(c) * TemporaryKeys()));
    }
    forall c
      ensures ItemSum(history, OfCommodity(c) * TemporaryKeys())
           == ItemSum(MovementsSince(years, From(LastReset(years, t)), t, entries, cs), OfCommodity(c) * TemporaryKeys())
    {
      OpeningHasNoTemporary(years, t, entries, cs, c);
    }
  }

  lemma SumZeroSides(a: Accumulator, b: Accumulator)
    requires IsZero(Plus(a, b))
    ensures IsZero(a) <==> IsZero(b)
  {
    hide Plus;
    if IsZero(b) {
      PlusZero(a, b);
    }
    if IsZero(a) {
      PlusCommutes(a, b);
      PlusZero(b, a);
    }
  }

  // A year that starts from opening entries always starts balanced.
  lemma ResetIsBalanced(years: seq<FiscalYear>, t: nat, entries: seq<Entry>, cs: seq<Classification>)
    requires t < |years| && AllEntriesValid(entries) && years[t].openingMode == OpeningEntries
    ensures BalancedTotals(Tally(Carried(years, t, entries, cs)))
  {
    hide AllEntriesValid, BalancedItems, BalancedTotals, OpeningEntryItems;
    OpeningEntriesBalanced(years[t].openingEntryIDs, entries, cs);
    TallyBalanced(Carried(years, t, entries, cs));
  }
}
