// The trial balance of a selected period, and what is true of its figures.
module Reports {
  import opened Results
  import opened Orders
  import opened Calendar
  import opened Ledger
  import opened Accumulators
  import opened Accounts
  import opened Configurations
  import opened Movements
  import opened CarryForward
  import opened Bookkeeping
  import opened Rows
  import opened TrialBalances
  import opened Sections

  // -------------------------------------------------------- period selection

  // A requested period as the two date texts the caller sends.
  datatype PeriodText = PeriodText(startDate: string, endDate: string)

  datatype Selection = Selection(period: FiscalPeriod, index: nat)

  predicate IsPeriod(p: Period, selected: PeriodText) {
    TextPeriod(p) && FormatDate(p.startDate) == selected.startDate && FormatDate(p.endDate) == selected.endDate
  }

  function FindPeriod(periods: seq<FiscalPeriod>, selected: PeriodText): Option<FiscalPeriod> {
    if periods == [] then None
    else if IsPeriod(periods[0].period, selected) then Some(periods[0])
    else FindPeriod(periods[1..], selected)
  }

  // The first matching year or month in year order.
  function SelectPeriod(years: seq<FiscalYear>, from: nat, selected: PeriodText): Option<Selection>
    requires from <= |years|
    decreases |years| - from
  {
    if from == |years| then None
    else
      var found := FindPeriod(PeriodsOf(SpanOf(years[from])), selected);
      if found.Some? then Some(Selection(found.value, from)) else SelectPeriod(years, from + 1, selected)
  }

  lemma {:induction false} FoundPeriod(periods: seq<FiscalPeriod>, selected: PeriodText)
    requires FindPeriod(periods, selected).Some?
    ensures FindPeriod(periods, selected).value in periods && IsPeriod(FindPeriod(periods, selected).value.period, selected)
  {
    hide IsPeriod;
    if !IsPeriod(periods[0].period, selected) {
      FoundPeriod(periods[1..], selected);
    }
  }

  lemma {:induction false} SelectedPeriod(years: seq<FiscalYear>, from: nat, selected: PeriodText)
    requires from <= |years| && SelectPeriod(years, from, selected).Some?
    ensures var s := SelectPeriod(years, from, selected).value;
            && from <= s.index < |years| && s.period in PeriodsOf(SpanOf(years[s.index]))
            && IsPeriod(s.period.period, selected)
    decreases |years| - from
  {
    hide IsPeriod, FindPeriod, PeriodsOf, SpanOf;
    var found := FindPeriod(PeriodsOf(SpanOf(years[from])), selected);
    if found.Some? {
      FoundPeriod(PeriodsOf(SpanOf(years[from])), selected);
    } else {
      SelectedPeriod(years, from + 1, selected);
    }
  }

  lemma ValidYears(config: Configuration)
    requires ValidConfiguration(config)
    ensures GoodYears(SortYears(config.fiscalYears), config.startMonth)
  {
  }

  method FindInYear(periods: seq<FiscalPeriod>, selected: PeriodText) returns (r: Option<FiscalPeriod>)
    ensures r == FindPeriod(periods, selected)
  {
    hide IsPeriod;
    assert periods[0..] == periods;
    for i := 0 to |periods|
      invariant FindPeriod(periods, selected) == FindPeriod(periods[i..], selected)
    {
      assert periods[i..][1..] == periods[i + 1..];
      if IsPeriod(periods[i].period, selected) {
        return Some(periods[i]);
      }
    }
    return None;
  }

  // selectPeriod as a search through the periods of each year.
  method ChoosePeriod(startMonth: int, years: seq<FiscalYear>, selected: PeriodText) returns (r: Option<Selection>)
    requires GoodYears(years, startMonth)
    ensures r == SelectPeriod(years, 0, selected)
  {
    hide FindPeriod, PeriodsOf, SpanOf, ParseFiscalYear, GoodOpening, Follows;
    for index := 0 to |years|
      invariant SelectPeriod(years, 0, selected) == SelectPeriod(years, index, selected)
    {
      var periods := FiscalPeriods(years[index], startMonth);
      if periods.None? {
        assert false;
        return None;
      }
      var found := FindInYear(periods.value, selected);
      if found.Some? {
        return Some(Selection(found.value, index));
      }
    }
    return None;
  }

  // ------------------------------------------------------- what is reported

  // Contributions dated from the start of the fiscal year up to the day before
  // the period; none when the period starts the year.
  function EarlierItems(s: Selection, year: FiscalYear, entries: seq<Entry>, cs: seq<Classification>): seq<Contribution>
    requires AllEntriesValid(entries)
  {
    if s.period.period.startDate == s.period.fiscalYearStart then []
    else
      MovementItems(entries, Period(s.period.fiscalYearStart, PrevDay(s.period.period.startDate)), year.openingEntryIDs, cs,
                    OpeningRole)
  }

  // Everything behind the opening column of the selected period.
  function OpeningItems(years: seq<FiscalYear>, s: Selection, entries: seq<Entry>, cs: seq<Classification>): seq<Contribution>
    requires s.index < |years| && AllEntriesValid(entries)
  {
    Carried(years, s.index, entries, cs) + EarlierItems(s, years[s.index], entries, cs)
  }

  // Everything behind the turnover columns.
  function PeriodItems(years: seq<FiscalYear>, s: Selection, entries: seq<Entry>, cs: seq<Classification>): seq<Contribution>
    requires s.index < |years| && AllEntriesValid(entries)
  {
    MovementItems(entries, s.period.period, years[s.index].openingEntryIDs, cs, MovementRole)
  }

  // The report on given opening and movement contributions.
  ghost function ReportOn(revision: int, period: FiscalPeriod, opening: seq<Contribution>, movement: seq<Contribution>): TrialBalance {
    TrialBalanceOf(revision, period, Tally(opening), Tally(Debits(movement)), Tally(Credits(movement)))
  }

  ghost predicate ReportOnFits(opening: seq<Contribution>, movement: seq<Contribution>) {
    ReportFits(Tally(opening), Tally(Debits(movement)), Tally(Credits(movement)))
  }

  ghost function TrialBalanceFor(config: Configuration, entries: seq<Entry>, selected: PeriodText): Result<TrialBalance, ReportError> {
    if !ValidConfiguration(config) then Err(BadConfiguration)
    else
      var years, cs := SortYears(config.fiscalYears), SortClassifications(config.classifications);
      var choice := SelectPeriod(years, 0, selected);
      if choice.None? then Err(InvalidPeriod)
      else if !GoodEntries(entries) then Err(InvalidEntries)
      else
        var s := choice.value;
        SelectedPeriod(years, 0, selected);
        GoodAreValid(entries);
        if !OpeningExists(years, s.index, entries, cs) then Err(BadConfiguration)
        else
          var opening, movement := OpeningItems(years, s, entries, cs), PeriodItems(years, s, entries, cs);
          if ReportOnFits(opening, movement) then Ok(ReportOn(config.revision, s.period, opening, movement))
          else Err(AmountOverflow)
  }

  // A period inside its year, with dates that print, and the days before it too.
  ghost predicate InsideYear(p: Period, span: Span) {
    && TextPeriod(p) && ValidDate(p.startDate) && ValidDate(p.endDate)
    && AtMost(span.start, p.startDate) && AtMost(p.endDate, span.end)
    && (p.startDate != span.start ==> TextPeriod(Period(span.start, PrevDay(p.startDate))))
  }

  lemma PeriodIsText(s: Selection, span: Span)
    requires GoodSpan(span) && s.period in PeriodsOf(span)
    ensures InsideYear(s.period.period, span)
    ensures s.period.fiscalYearStart == span.start && s.period.fiscalYearEnd == span.end
  {
    hide FirstOfMonth, LastOfMonth, InsideYear;
    var periods := PeriodsOf(span);
    var i :| 0 <= i < |periods| && periods[i] == s.period;
    if i > 0 {
      MonthInside(span, i);
    } else {
      YearInside(span);
    }
  }

  lemma YearInside(span: Span)
    requires GoodSpan(span)
    ensures InsideYear(WholeYear(span), span)
  {
    hide FirstOfMonth, LastOfMonth, PrevDay;
    SpanForward(span);
    YearBetween(span.start, span.start, span.end);
    YearBetween(span.start, span.end, span.end);
  }

  lemma MonthInside(span: Span, month: nat)
    requires GoodSpan(span) && 1 <= month <= 12
    ensures InsideYear(MonthOf(span, month), span)
  {
    hide FirstOfMonth, LastOfMonth, PrevDay, NextDay, Before, AtMost;
    var p := MonthOf(span, month);
    var base := MonthIndex(span.start);
    FirstOfOwnMonth(span.start);
    MonthBounds(p.startDate, base);
    MonthBounds(p.startDate, base + 11);
    MonthBounds(p.endDate, base);
    MonthBounds(p.endDate, base + 11);
    YearBetween(span.start, p.startDate, span.end);
    YearBetween(span.start, p.endDate, span.end);
    if p.startDate != span.start {
      DayBeforeInside(span, p.startDate);
    }
  }

  lemma YearBetween(a: Date, d: Date, b: Date)
    requires AtMost(a, d) && AtMost(d, b)
    ensures a.year <= d.year <= b.year
  {
  }

  lemma DayBeforeInside(span: Span, d: Date)
    requires GoodSpan(span) && ValidDate(d) && AtMost(span.start, d) && AtMost(d, span.end) && d != span.start
    ensures TextPeriod(Period(span.start, PrevDay(d))) && AtMost(span.start, PrevDay(d)) && AtMost(PrevDay(d), span.end)
  {
    hide FirstOfMonth, LastOfMonth, PrevDay, NextDay;
    NextPrev(d);
    NextIsSuccessor(span.start, PrevDay(d));
    BeforeIsOrder(PrevDay(d), d, span.end);
    NextIsSuccessor(PrevDay(d), PrevDay(d));
    YearBetween(span.start, PrevDay(d), span.end);
  }

  lemma YearIsGood(config: Configuration, index: nat)
    requires ValidConfiguration(config) && index < |SortYears(config.fiscalYears)|
    ensures GoodSpan(SpanOf(SortYears(config.fiscalYears)[index]))
  {
    hide NoOverlap, GoodClassification, ParseFiscalYear, GoodSpan, SortYears;
    ParsedSpan(SortYears(config.fiscalYears)[index], config.startMonth);
  }

  // The opening column: the carried balance plus what came earlier in the year.
  method AddEarlier(
    opening: AmountMap, s: Selection, year: FiscalYear, entries: seq<Entry>, cs: seq<Classification>,
    collector: ProvenanceCollector?)
    requires AllEntriesValid(entries) && GoodSpan(SpanOf(year)) && s.period in PeriodsOf(SpanOf(year))
    modifies opening, collector
    ensures opening.sums == Post(old(opening.sums), EarlierItems(s, year, entries, cs))
    ensures collector != null ==> collector.items == old(collector.items) + EarlierItems(s, year, entries, cs)
  {
    hide AllEntriesValid, MovementItems, TextPeriod, GoodSpan, PeriodsOf, Post, PrevDay, SpanOf, AddDate, AtMost;
    PeriodIsText(s, SpanOf(year));
    PostNothing(opening.sums);
    if s.period.period.startDate != s.period.fiscalYearStart {
      var previous := AddDate(s.period.period.startDate, 0, 0, -1);
      PrevDayByAddDate(s.period.period.startDate);
      AddMovementsCollected(opening, entries, Period(s.period.fiscalYearStart, previous), year.openingEntryIDs, cs, OpeningRole,
                            collector);
    }
  }

  lemma PrevDayByAddDate(d: Date)
    requires ValidDate(d)
    ensures AddDate(d, 0, 0, -1) == PrevDay(d)
  {
    var first := FirstOfMonth(MonthIndex(d));
    if d.day == 1 {
      FirstOfOwnMonth(d);
      assert AddDays(d, -1) == PrevDay(d);
    } else {
      AddDaysWithin(first, d.day - 2);
    }
  }

  // BuildTrialBalance
  method BuildTrialBalance(config: Configuration, entries: seq<Entry>, selected: PeriodText)
      returns (r: Result<TrialBalance, ReportError>)
    ensures r == TrialBalanceFor(config, entries, selected)
  {
    hide ValidConfiguration, GoodYears, SortYears, SortClassifications, SelectPeriod, GoodEntries, AllEntriesValid, PeriodsOf, TrialBalanceOf, ReportFits, Carried, EarlierItems, MovementItems, SidedTotals, Post, TextPeriod, GoodSpan, OpeningExists;
    var fault := ValidateConfiguration(config);
    if fault.Some? {
      return Err(BadConfiguration);
    }
    var years, cs := SortYears(config.fiscalYears), SortClassifications(config.classifications);
    ValidYears(config);
    var choice := ChoosePeriod(config.startMonth, years, selected);
    if choice.None? {
      return Err(InvalidPeriod);
    }
    SelectedPeriod(years, 0, selected);
    var s := choice.value;
    var validated := ValidateEntries(entries);
    if validated.None? {
      return Err(InvalidEntries);
    }
    var ok, opening := BuildFiscalOpeningCollected(years, s.index, validated.value, entries, cs, null);
    if !ok {
      return Err(BadConfiguration);
    }
    YearIsGood(config, s.index);
    PeriodIsText(s, SpanOf(years[s.index]));
    opening := opening.Clone();
    AddEarlier(opening, s, years[s.index], entries, cs, null);
    PostAppend(map[], Carried(years, s.index, entries, cs), EarlierItems(s, years[s.index], entries, cs));
    var debits, credits := CollectMovementsCollected(entries, s.period.period, years[s.index].openingEntryIDs, cs, null);
    SidesAreSided(PeriodItems(years, s, entries, cs));
    r := AssembleTrialBalance(config.revision, s.period, opening.sums, debits.sums, credits.sums);
  }

  // ----------------------------------------------------- meaning of the figures

  // A figure computed straight from the contributions.
  ghost function ItemRow(opening: seq<Contribution>, movement: seq<Contribution>, K: iset<AmountKey>): RowSums {
    Combined(ItemSum(opening, K), ItemSum(Debits(movement), K), ItemSum(Credits(movement), K))
  }

  lemma RowOverIsItemRow(opening: seq<Contribution>, movement: seq<Contribution>, K: iset<AmountKey>)
    ensures RowOver(Tally(opening), Tally(Debits(movement)), Tally(Credits(movement)), K) == ItemRow(opening, movement, K)
  {
    hide Plus, Tally, TotalSum, ItemSum, Debits, Credits;
    TallySum(opening, K);
    TallySum(Debits(movement), K);
    TallySum(Credits(movement), K);
  }

  // Roll-up: a row's subtotal is the sum of everything posted at or below its
  // account, its direct figure the sum of what is posted on the account itself,
  // and the group total the sum over the whole category.
  lemma RollUp(commodity: string, category: Category, opening: seq<Contribution>, movement: seq<Contribution>, name: string)
    ensures var direct := DirectRows(commodity, category, Tally(opening), Tally(Debits(movement)), Tally(Credits(movement)));
            && Subtotal(direct, name) == ItemRow(opening, movement, Cell(commodity, category, Subtree(name)))
            && GetRow(direct, name) == ItemRow(opening, movement, Cell(commodity, category, Just(name)))
            && SumRows(direct, direct.Keys) == ItemRow(opening, movement, Cell(commodity, category, AnyAccount()))
  {
    hide SumRows, DirectRows, RowOver, ItemRow, Tally, Debits, Credits, Under, Cell, Just;
    var o, d, c := Tally(opening), Tally(Debits(movement)), Tally(Credits(movement));
    var direct := DirectRows(commodity, category, o, d, c);
    DirectSum(commodity, category, o, d, c, Subtree(name));
    BelowIsSubtree(direct, name);
    RowOverIsItemRow(opening, movement, Cell(commodity, category, Subtree(name)));
    WholeGroup(commodity, category, o, d, c);
    RowOverIsItemRow(opening, movement, Cell(commodity, category, AnyAccount()));
    DirectSum(commodity, category, o, d, c, Just(name));
    RowOverIsItemRow(opening, movement, Cell(commodity, category, Just(name)));
    OneRow(direct, name);
  }

  ghost function Just(name: string): iset<string> {
    iset{name}
  }

  lemma BelowIsSubtree(direct: RowMap, name: string)
    ensures Below(direct.Keys, name) == set a | a in direct && a in Subtree(name)
  {
    hide Under;
  }

  lemma OneRow(direct: RowMap, name: string)
    ensures SumRows(direct, set a | a in direct && a in Just(name)) == GetRow(direct, name)
  {
    hide SumRows, AddRows;
    var S := set a | a in direct && a in Just(name);
    if name in direct {
      assert S == {} + {name};
      SumRowsInsert(direct, {}, name);
      SumRowsEmpty(direct);
      AddNoSums(direct[name]);
    } else {
      assert S == {};
      SumRowsEmpty(direct);
    }
  }

  // Total debit turnover equals total credit turnover in every commodity.
  lemma TurnoverBalances(
    entries: seq<Entry>, p: Period, excluded: seq<string>, cs: seq<Classification>, commodity: string)
    requires AllEntriesValid(entries)
    ensures var movement := MovementItems(entries, p, excluded, cs, MovementRole);
            var K := OfCommodity(commodity);
            IsZero(Plus(ItemSum(Debits(movement), K), ItemSum(Credits(movement), K)))
  {
    hide Plus, AllEntriesValid, MovementItems, Debits, Credits;
    DebitCreditSum(MovementItems(entries, p, excluded, cs, MovementRole), OfCommodity(commodity));
    MovementsBalanced(entries, p, excluded, cs, MovementRole, commodity);
  }

  // ------------------------------------------------ independence of entry order

  lemma GoodEntriesPermute(entries: seq<Entry>, other: seq<Entry>)
    requires multiset(entries) == multiset(other) && GoodEntries(entries)
    ensures GoodEntries(other) && ById(other) == ById(entries)
  {
    hide Valid;
    SameMembers(entries, other);
    forall i | 0 <= i < |other|
      ensures other[i].id != "" && Valid(other[i].entry)
    {
      assert other[i] in entries;
    }
    forall i, j | 0 <= i < j < |other|
      ensures other[i].id != other[j].id
    {
      assert other[i] in entries && other[j] in entries;
      if other[i] == other[j] {
        CountTwo(other, i, j);
        EntryOnce(entries, other[i]);
      }
    }
    ByIdMembers(entries);
    ByIdMembers(other);
  }

  lemma EntryOnce(entries: seq<Entry>, e: Entry)
    requires GoodEntries(entries) && e in entries
    ensures multiset(entries)[e] == 1
  {
    hide Valid;
    CountOne(entries, e);
  }

  lemma {:induction false} OpeningItemsPermute(ids: seq<string>, entries: seq<Entry>, other: seq<Entry>, cs: seq<Classification>)
    requires ById(entries) == ById(other)
    ensures OpeningEntryItems(ids, entries, cs) == OpeningEntryItems(ids, other, cs)
  {
    hide EntryItems, Valid, ById;
    if ids != [] {
      OpeningItemsPermute(ids[..|ids| - 1], entries, other, cs);
    }
  }

  lemma {:induction false} CarriedPermute(years: seq<FiscalYear>, t: nat, entries: seq<Entry>, other: seq<Entry>, cs: seq<Classification>)
    requires t < |years| && AllEntriesValid(entries) && AllEntriesValid(other)
    requires multiset(entries) == multiset(other) && ById(entries) == ById(other)
    ensures multiset(Carried(years, t, entries, cs)) == multiset(Carried(years, t, other, cs))
  {
    hide OpeningEntryItems, MovementItems, AllEntriesValid, Keep, ById;
    if years[t].openingMode == OpeningEntries {
      OpeningItemsPermute(years[t].openingEntryIDs, entries, other, cs);
    } else if t > 0 {
      CarriedPermute(years, t - 1, entries, other, cs);
      var y := years[t - 1];
      MovementsPermute(entries, other, YearPeriod(y), y.openingEntryIDs, cs, OpeningRole);
      KeepPermute(Carried(years, t - 1, entries, cs) + YearItems(y, entries, cs),
                  Carried(years, t - 1, other, cs) + YearItems(y, other, cs), IsPermanent);
    }
  }

  lemma OpeningExistsPermute(years: seq<FiscalYear>, t: nat, entries: seq<Entry>, other: seq<Entry>, cs: seq<Classification>)
    requires t < |years| && ById(entries) == ById(other)
    ensures OpeningExists(years, t, entries, cs) <==> OpeningExists(years, t, other, cs)
  {
    hide EntryItems, Valid, ById, SpanOf;
    forall i | 0 <= i <= t
      ensures GoodOpeningEntries(years[i], entries, cs) <==> GoodOpeningEntries(years[i], other, cs)
    {
      forall j | 0 <= j < |years[i].openingEntryIDs|
        ensures GoodOpeningEntry(years[i].openingEntryIDs[j], years[i], entries, cs)
           <==> GoodOpeningEntry(years[i].openingEntryIDs[j], years[i], other, cs)
      {
      }
    }
  }

  // The trial balance, text and warnings included, is the same for every order
  // of the entries.
  lemma TrialBalancePermutes(config: Configuration, entries: seq<Entry>, other: seq<Entry>, selected: PeriodText)
    requires multiset(entries) == multiset(other)
    ensures TrialBalanceFor(config, entries, selected) == TrialBalanceFor(config, other, selected)
  {
    hide ValidConfiguration, SortYears, SortClassifications, SelectPeriod, GoodEntries, AllEntriesValid, TrialBalanceOf, ReportFits, Carried, MovementItems, OpeningExists, Tally, Keep, ById;
    if GoodEntries(entries) {
      GoodEntriesPermute(entries, other);
    }
    if GoodEntries(other) {
      GoodEntriesPermute(other, entries);
    }
    var years, cs := SortYears(config.fiscalYears), SortClassifications(config.classifications);
    var choice := SelectPeriod(years, 0, selected);
    if GoodEntries(entries) && choice.Some? {
      SelectedPeriod(years, 0, selected);
      GoodAreValid(entries);
      GoodAreValid(other);
      var s := choice.value;
      OpeningExistsPermute(years, s.index, entries, other, cs);
      ItemsPermute(years, s, entries, other, cs);
    }
  }

  lemma ItemsPermute(years: seq<FiscalYear>, s: Selection, entries: seq<Entry>, other: seq<Entry>, cs: seq<Classification>)
    requires s.index < |years| && AllEntriesValid(entries) && AllEntriesValid(other)
    requires multiset(entries) == multiset(other) && ById(entries) == ById(other)
    ensures Tally(OpeningItems(years, s, entries, cs)) == Tally(OpeningItems(years, s, other, cs))
    ensures Tally(Debits(PeriodItems(years, s, entries, cs))) == Tally(Debits(PeriodItems(years, s, other, cs)))
    ensures Tally(Credits(PeriodItems(years, s, entries, cs))) == Tally(Credits(PeriodItems(years, s, other, cs)))
  {
    hide AllEntriesValid, Carried, MovementItems, Tally, Keep, ById;
    var year := years[s.index];
    CarriedPermute(years, s.index, entries, other, cs);
    MovementsPermute(entries, other, Period(s.period.fiscalYearStart, PrevDay(s.period.period.startDate)), year.openingEntryIDs,
                     cs, OpeningRole);
    TallyPermute(OpeningItems(years, s, entries, cs), OpeningItems(years, s, other, cs));
    var a, b := PeriodItems(years, s, entries, cs), PeriodItems(years, s, other, cs);
    MovementsPermute(entries, other, s.period.period, year.openingEntryIDs, cs, MovementRole);
    KeepPermute(a, b, IsDebit);
    KeepPermute(a, b, IsCredit);
    TallyPermute(Debits(a), Debits(b));
    TallyPermute(Credits(a), Credits(b));
  }

  // --------------------------------------------------------- stitching of months

  // Movements from the start of the year through the end of month m.
  function ThroughMonth(span: Span, m: nat): Period {
    Period(span.start, MonthOf(span, m).endDate)
  }

  lemma ThroughCuts(span: Span, m: nat)
    requires GoodSpan(span) && 1 <= m <= 11
    ensures CutsInTwo(ThroughMonth(span, m + 1), ThroughMonth(span, m), MonthOf(span, m + 1))
  {
    hide FirstOfMonth, LastOfMonth, AtMost, MonthIndex;
    var base := MonthIndex(span.start);
    FirstOfOwnMonth(span.start);
    forall d | ValidDate(d)
      ensures InPeriod(d, ThroughMonth(span, m + 1)) <==> InPeriod(d, ThroughMonth(span, m)) || InPeriod(d, MonthOf(span, m + 1))
      ensures !(InPeriod(d, ThroughMonth(span, m)) && InPeriod(d, MonthOf(span, m + 1)))
    {
      MonthBounds(d, base);
      MonthBounds(d, base + m);
      MonthBounds(d, base + m - 1);
    }
  }

  lemma FirstMonthThrough(span: Span)
    requires GoodSpan(span)
    ensures ThroughMonth(span, 1) == MonthOf(span, 1) && ThroughMonth(span, 12) == WholeYear(span)
  {
    MonthChain(span);
  }

  function MonthSelection(years: seq<FiscalYear>, index: nat, m: nat): (s: Selection)
    requires index < |years| && m <= 12
    ensures s.index == index
  {
    Selection(PeriodsOf(SpanOf(years[index]))[m], index)
  }

  // Month m + 1 opens with the opening of month m and the movements of month m:
  // its opening column is the closing column of month m for every account.
  lemma MonthsStitchOpening(
    years: seq<FiscalYear>, index: nat, m: nat, entries: seq<Entry>, cs: seq<Classification>, K: iset<AmountKey>)
    requires index < |years| && AllEntriesValid(entries) && GoodSpan(SpanOf(years[index])) && 1 <= m <= 11
    ensures ItemSum(OpeningItems(years, MonthSelection(years, index, m + 1), entries, cs), K)
         == ItemRow(OpeningItems(years, MonthSelection(years, index, m), entries, cs),
                    PeriodItems(years, MonthSelection(years, index, m), entries, cs), K).closing
  {
    hide Plus, AllEntriesValid, Carried, MovementItems, ItemSum, Debits, Credits, GoodSpan, EarlierItems, MonthSelection, MonthOf;
    var here, next := MonthSelection(years, index, m), MonthSelection(years, index, m + 1);
    var carried := Carried(years, index, entries, cs);
    SelectionIs(years, index, m);
    SelectionIs(years, index, m + 1);
    var movement := PeriodItems(years, here, entries, cs);
    ItemSumAppend(carried, EarlierItems(next, years[index], entries, cs), K);
    ItemSumAppend(carried, EarlierItems(here, years[index], entries, cs), K);
    DebitCreditSum(movement, K);
    EarlierStep(years, index, m, entries, cs, K);
    Regroup(ItemSum(carried, K), ItemSum(EarlierItems(here, years[index], entries, cs), K), ItemSum(Debits(movement), K),
            ItemSum(Credits(movement), K));
  }

  lemma SelectionIs(years: seq<FiscalYear>, index: nat, m: nat)
    requires index < |years| && 1 <= m <= 12
    ensures MonthSelection(years, index, m).index == index
    ensures MonthSelection(years, index, m).period.period == MonthOf(SpanOf(years[index]), m)
  {
    hide MonthOf;
  }

  lemma Regroup(a: Accumulator, e: Accumulator, d: Accumulator, c: Accumulator)
    ensures Plus(Plus(Plus(a, e), d), c) == Plus(a, Plus(e, Plus(d, c)))
  {
    hide Plus;
    PlusAssociates(Plus(a, e), d, c);
    PlusAssociates(a, e, Plus(d, c));
  }

  // What counts as earlier in the year for month m.
  lemma EarlierThrough(span: Span, m: nat)
    requires GoodSpan(span) && 1 <= m <= 12
    ensures var p := PeriodsOf(span)[m];
            && p.period == MonthOf(span, m) && p.fiscalYearStart == span.start
            && (m == 1 <==> p.period.startDate == p.fiscalYearStart)
            && (m > 1 ==> Period(p.fiscalYearStart, PrevDay(p.period.startDate)) == ThroughMonth(span, m - 1))
  {
    hide PrevDay, NextDay, FirstOfMonth, LastOfMonth;
    FirstOfOwnMonth(span.start);
    if m > 1 {
      DayAfterMonth(MonthIndex(span.start) + m - 2);
      NextPrev(MonthOf(span, m - 1).endDate);
      assert MonthIndex(MonthOf(span, m).startDate) == MonthIndex(span.start) + m - 1;
    }
  }

  lemma EarlierIs(years: seq<FiscalYear>, index: nat, m: nat, entries: seq<Entry>, cs: seq<Classification>)
    requires index < |years| && AllEntriesValid(entries) && GoodSpan(SpanOf(years[index])) && 1 <= m <= 12
    ensures EarlierItems(MonthSelection(years, index, m), years[index], entries, cs)
         == if m == 1 then []
            else MovementItems(entries, ThroughMonth(SpanOf(years[index]), m - 1), years[index].openingEntryIDs, cs, OpeningRole)
  {
    hide AllEntriesValid, MovementItems, GoodSpan, ThroughMonth, PrevDay, SpanOf, PeriodsOf;
    EarlierThrough(SpanOf(years[index]), m);
  }

  lemma EarlierStep(years: seq<FiscalYear>, index: nat, m: nat, entries: seq<Entry>, cs: seq<Classification>, K: iset<AmountKey>)
    requires index < |years| && AllEntriesValid(entries) && GoodSpan(SpanOf(years[index])) && 1 <= m <= 11
    ensures ItemSum(EarlierItems(MonthSelection(years, index, m + 1), years[index], entries, cs), K)
         == Plus(ItemSum(EarlierItems(MonthSelection(years, index, m), years[index], entries, cs), K),
                 ItemSum(MovementItems(entries, MonthOf(SpanOf(years[index]), m), years[index].openingEntryIDs, cs, MovementRole), K))
  {
    hide Plus, AllEntriesValid, MovementItems, ItemSum, GoodSpan, ThroughMonth, MonthOf, EarlierItems, MonthSelection, SpanOf;
    var span, ids := SpanOf(years[index]), years[index].openingEntryIDs;
    EarlierIs(years, index, m, entries, cs);
    EarlierIs(years, index, m + 1, entries, cs);
    var month := MovementItems(entries, MonthOf(span, m), ids, cs, OpeningRole);
    RoleIrrelevant(entries, MonthOf(span, m), ids, cs, OpeningRole, MovementRole);
    SameValuesSameSum(month, MovementItems(entries, MonthOf(span, m), ids, cs, MovementRole), K);
    if m == 1 {
      FirstMonthThrough(span);
      EmptyItemSum(K);
      PlusUnset(ItemSum(month, K));
    } else {
      ThroughCuts(span, m - 1);
      MovementsStitch(entries, ThroughMonth(span, m), ThroughMonth(span, m - 1), MonthOf(span, m), ids, cs, OpeningRole);
      ItemSumUnion(MovementItems(entries, ThroughMonth(span, m), ids, cs, OpeningRole),
                   MovementItems(entries, ThroughMonth(span, m - 1), ids, cs, OpeningRole), month, K);
    }
  }

  // The sum of the first m monthly figures of a filtered movement.
  ghost function MonthlySum(
    span: Span, m: nat, ids: seq<string>, entries: seq<Entry>, cs: seq<Classification>, f: Contribution -> bool, K: iset<AmountKey>)
      : Accumulator
    requires AllEntriesValid(entries)
  {
    if m == 0 then Unset
    else
      Plus(MonthlySum(span, m - 1, ids, entries, cs, f, K),
           ItemSum(Keep(MovementItems(entries, MonthOf(span, m), ids, cs, MovementRole), f), K))
  }

  // Year-to-date figures are the sums of the monthly ones, for any selection of
  // contributions (debits, credits or all) and any choice of accounts.
  lemma {:induction false} MonthlyAddsUp(
    span: Span, m: nat, ids: seq<string>, entries: seq<Entry>, cs: seq<Classification>, f: Contribution -> bool, K: iset<AmountKey>)
    requires AllEntriesValid(entries) && GoodSpan(span) && 1 <= m <= 12
    ensures ItemSum(Keep(MovementItems(entries, ThroughMonth(span, m), ids, cs, MovementRole), f), K)
         == MonthlySum(span, m, ids, entries, cs, f, K)
  {
    hide Plus, AllEntriesValid, MovementItems, ItemSum, GoodSpan, ThroughMonth, MonthOf, Keep;
    if m == 1 {
      FirstMonthThrough(span);
      assert MonthlySum(span, 0, ids, entries, cs, f, K) == Unset;
      PlusUnset(ItemSum(Keep(MovementItems(entries, MonthOf(span, 1), ids, cs, MovementRole), f), K));
    } else {
      MonthlyAddsUp(span, m - 1, ids, entries, cs, f, K);
      ThroughCuts(span, m - 1);
      var whole := MovementItems(entries, ThroughMonth(span, m), ids, cs, MovementRole);
      var left := MovementItems(entries, ThroughMonth(span, m - 1), ids, cs, MovementRole);
      var right := MovementItems(entries, MonthOf(span, m), ids, cs, MovementRole);
      MovementsStitch(entries, ThroughMonth(span, m), ThroughMonth(span, m - 1), MonthOf(span, m), ids, cs, MovementRole);
      KeepUnion(whole, left, right, f);
      ItemSumUnion(Keep(whole, f), Keep(left, f), Keep(right, f), K);
    }
  }

  // Full-year debit and credit turnover of every account is the sum of the
  // twelve monthly turnovers.
  lemma YearTurnover(span: Span, ids: seq<string>, entries: seq<Entry>, cs: seq<Classification>, K: iset<AmountKey>)
    requires AllEntriesValid(entries) && GoodSpan(span)
    ensures var year := MovementItems(entries, WholeYear(span), ids, cs, MovementRole);
            && ItemSum(Debits(year), K) == MonthlySum(span, 12, ids, entries, cs, IsDebit, K)
            && ItemSum(Credits(year), K) == MonthlySum(span, 12, ids, entries, cs, IsCredit, K)
  {
    hide AllEntriesValid, MovementItems, ItemSum, GoodSpan, ThroughMonth, MonthOf, Keep, MonthlySum;
    FirstMonthThrough(span);
    MonthlyAddsUp(span, 12, ids, entries, cs, IsDebit, K);
    MonthlyAddsUp(span, 12, ids, entries, cs, IsCredit, K);
  }
}
