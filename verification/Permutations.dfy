// No statement depends on the order in which the entries are supplied.
module Permutations {
  import opened Configurations
  import opened Movements
  import opened CarryForward
  import opened Reports
  import opened Statements
  import opened Incomes
  import opened Trends

  // Carried balances and the movements of any period tally the same.
  lemma BalancesPermute(years: seq<FiscalYear>, t: nat, entries: seq<Entry>, other: seq<Entry>, cs: seq<Classification>, p: Period)
    requires t < |years| && AllEntriesValid(entries) && AllEntriesValid(other)
    requires multiset(entries) == multiset(other) && ById(entries) == ById(other)
    ensures Tally(Carried(years, t, entries, cs)) == Tally(Carried(years, t, other, cs))
    ensures Tally(MovementItems(entries, p, years[t].openingEntryIDs, cs, MovementRole)) ==
            Tally(MovementItems(other, p, years[t].openingEntryIDs, cs, MovementRole))
    ensures Tally(Carried(years, t, entries, cs) + MovementItems(entries, p, years[t].openingEntryIDs, cs, MovementRole)) ==
            Tally(Carried(years, t, other, cs) + MovementItems(other, p, years[t].openingEntryIDs, cs, MovementRole))
  {
    hide AllEntriesValid, Carried, MovementItems, Tally, ById;
    var a, b := Carried(years, t, entries, cs), Carried(years, t, other, cs);
    var c := MovementItems(entries, p, years[t].openingEntryIDs, cs, MovementRole);
    var d := MovementItems(other, p, years[t].openingEntryIDs, cs, MovementRole);
    CarriedPermute(years, t, entries, other, cs);
    MovementsPermute(entries, other, p, years[t].openingEntryIDs, cs, MovementRole);
    TallyPermute(a, b);
    TallyPermute(c, d);
    assert multiset(a + c) == multiset(a) + multiset(c) && multiset(b + d) == multiset(b) + multiset(d);
    TallyPermute(a + c, b + d);
  }

  lemma BothGood(entries: seq<Entry>, other: seq<Entry>)
    requires multiset(entries) == multiset(other)
    ensures GoodEntries(entries) <==> GoodEntries(other)
    ensures GoodEntries(entries) ==> AllEntriesValid(entries) && AllEntriesValid(other) && ById(entries) == ById(other)
  {
    hide GoodEntries, AllEntriesValid, ById;
    if GoodEntries(entries) {
      GoodEntriesPermute(entries, other);
      GoodAreValid(entries);
      GoodAreValid(other);
    }
    if GoodEntries(other) {
      GoodEntriesPermute(other, entries);
    }
  }

  lemma ClosingSheetPermutes(config: Configuration, entries: seq<Entry>, other: seq<Entry>, selected: PeriodText)
    requires multiset(entries) == multiset(other)
    ensures ClosingBalanceSheetFor(config, entries, selected) == ClosingBalanceSheetFor(config, other, selected)
  {
    hide ValidConfiguration, SortYears, SortClassifications, SelectPeriod, GoodEntries, AllEntriesValid, OpeningExists, BalancedTotals, ClosingFits, ClosingOf, Carried, MovementItems, Tally, ById, YearPeriod;
    BothGood(entries, other);
    var years, cs := SortYears(config.fiscalYears), SortClassifications(config.classifications);
    var choice := SelectPeriod(years, 0, selected);
    if GoodEntries(entries) && choice.Some? {
      SelectedPeriod(years, 0, selected);
      var index := choice.value.index;
      OpeningExistsPermute(years, index, entries, other, cs);
      BalancesPermute(years, index, entries, other, cs, YearPeriod(years[index]));
    }
  }

  lemma IncomeStatementPermutes(config: Configuration, entries: seq<Entry>, other: seq<Entry>, selected: PeriodText)
    requires multiset(entries) == multiset(other)
    ensures IncomeStatementFor(config, entries, selected) == IncomeStatementFor(config, other, selected)
  {
    hide ValidConfiguration, SortYears, SortClassifications, SelectIncomePeriod, GoodEntries, AllEntriesValid, IncomeFits, IncomeReport, FilterTotals, MovementItems, Tally, ById, Carried;
    BothGood(entries, other);
    var years, cs := SortYears(config.fiscalYears), SortClassifications(config.classifications);
    var choice := SelectIncomePeriod(years, selected);
    if GoodEntries(entries) && choice.Some? {
      SelectedIncomePeriod(years, selected);
      var s := choice.value;
      BalancesPermute(years, s.index, entries, other, cs, s.period.period);
    }
  }

  lemma MonthsPermute(years: seq<FiscalYear>, index: nat, entries: seq<Entry>, other: seq<Entry>, cs: seq<Classification>)
    requires index < |years| && AllEntriesValid(entries) && AllEntriesValid(other)
    requires multiset(entries) == multiset(other) && ById(entries) == ById(other)
    ensures TrendMonths(years, index, entries, cs) == TrendMonths(years, index, other, cs)
  {
    hide AllEntriesValid, Carried, MovementItems, Tally, ById, SpanOf, ThroughMonth;
    forall m: nat | 1 <= m <= 12
      ensures TrendTotals(years, index, m, entries, cs) == TrendTotals(years, index, m, other, cs)
    {
      BalancesPermute(years, index, entries, other, cs, ThroughMonth(SpanOf(years[index]), m));
    }
    var a, b := TrendMonths(years, index, entries, cs), TrendMonths(years, index, other, cs);
    forall i | 0 <= i < 12
      ensures a[i] == b[i]
    {
      assert a[i] == TrendTotals(years, index, i + 1, entries, cs);
    }
  }

  lemma BalanceTrendPermutes(config: Configuration, entries: seq<Entry>, other: seq<Entry>, selected: PeriodText)
    requires multiset(entries) == multiset(other)
    ensures BalanceTrendFor(config, entries, selected) == BalanceTrendFor(config, other, selected)
  {
    hide ValidConfiguration, SortYears, SortClassifications, SelectPeriod, GoodEntries, AllEntriesValid, OpeningExists, BalancedTotals, PointsFit, TrendOf, Carried, Tally, ById, TrendMonths, SpanOf;
    BothGood(entries, other);
    var years, cs := SortYears(config.fiscalYears), SortClassifications(config.classifications);
    var choice := SelectPeriod(years, 0, selected);
    if GoodEntries(entries) && choice.Some? {
      SelectedPeriod(years, 0, selected);
      var index := choice.value.index;
      OpeningExistsPermute(years, index, entries, other, cs);
      BalancesPermute(years, index, entries, other, cs, YearPeriod(years[index]));
      MonthsPermute(years, index, entries, other, cs);
    }
  }
}
