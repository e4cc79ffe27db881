// How the statements of one ledger fit together: the year's net income is the
// closing sheet's current earnings, and longer income periods are the sums of
// their months.
module Articulation {
  import opened Results
  import opened Accumulators
  import opened Configurations
  import opened Movements
  import opened CarryForward
  import opened Bookkeeping
  import opened StatementRows
  import opened Reports
  import opened Statements
  import opened Incomes
  import opened Selections

  lemma EarningKeys(commodity: string)
    ensures InCategories(commodity, EarningCategories) !! PermanentKeys()
    ensures InCategories(commodity, EarningCategories) * (iset k: AmountKey | k.category in IncomeCategories)
         == InCategories(commodity, EarningCategories)
  {
  }

  // Restricting to income categories keeps the earnings.
  lemma FilteredEarnings(m: Totals, commodity: string)
    ensures Earnings(FilterTotals(m, IncomeCategories), commodity) == Earnings(m, commodity)
  {
    hide TotalSum, FilterTotals, InCategories;
    EarningKeys(commodity);
    FilterSum(m, IncomeCategories, InCategories(commodity, EarningCategories));
  }

  lemma EarningsOfItems(items: seq<Contribution>, commodity: string)
    ensures Earnings(FilterTotals(Tally(items), IncomeCategories), commodity) ==
            ItemSum(items, InCategories(commodity, EarningCategories))
    ensures Earnings(Tally(items), commodity) == ItemSum(items, InCategories(commodity, EarningCategories))
  {
    hide TotalSum, FilterTotals, InCategories, Tally, ItemSum;
    FilteredEarnings(Tally(items), commodity);
    TallySum(items, InCategories(commodity, EarningCategories));
  }

  // Nothing is carried forward on revenue and expense accounts, so the
  // earnings of the closing amounts are those of the year's movements.
  lemma ClosingEarnings(years: seq<FiscalYear>, index: nat, entries: seq<Entry>, cs: seq<Classification>, commodity: string)
    requires index < |years| && AllEntriesValid(entries) && OpeningExists(years, index, entries, cs)
    ensures Earnings(Tally(ClosingItems(years, index, entries, cs)), commodity) ==
            ItemSum(MovementItems(entries, YearPeriod(years[index]), years[index].openingEntryIDs, cs, MovementRole),
                    InCategories(commodity, EarningCategories))
  {
    hide Plus, InCategories, Tally, ItemSum, Carried, MovementItems, AllEntriesValid, OpeningExists, PermanentKeys, Earnings, History, Permanent;
    var carried := Carried(years, index, entries, cs);
    var movement := MovementItems(entries, YearPeriod(years[index]), years[index].openingEntryIDs, cs, MovementRole);
    var K := InCategories(commodity, EarningCategories);
    EarningsOfItems(carried + movement, commodity);
    ItemSumAppend(carried, movement, K);
    CarriedClosedForm(years, index, entries, cs);
    EarningKeys(commodity);
    forall x | x in carried
      ensures x.key !in K
    {
      PermanentKey(x);
    }
    ItemSumOutside(carried, K);
    PlusUnset(ItemSum(movement, K));
  }

  lemma PermanentKey(x: Contribution)
    ensures IsPermanent(x) <==> x.key in PermanentKeys()
  {
  }

  // ------------------------------------------------------ reading the reports

  lemma {:induction false} IncomeAt(names: seq<string>, m: Totals, i: nat)
    requires i < |names|
    ensures |IncomeCommodities(names, m)| == |names| && IncomeCommodities(names, m)[i] == IncomeCommodityOf(names[i], m)
  {
    hide IncomeCommodityOf;
    if i < |names| - 1 {
      IncomeAt(names[..|names| - 1], m, i);
    } else if |names| > 1 {
      IncomeAt(names[..|names| - 1], m, 0);
    }
  }

  lemma {:induction false} ClosingAt(names: seq<string>, m: Totals, i: nat)
    requires i < |names|
    ensures |ClosingCommodities(names, m)| == |names| && ClosingCommodities(names, m)[i] == ClosingCommodityOf(names[i], m)
  {
    hide ClosingCommodityOf;
    if i < |names| - 1 {
      ClosingAt(names[..|names| - 1], m, i);
    } else if |names| > 1 {
      ClosingAt(names[..|names| - 1], m, 0);
    }
  }

  lemma IncomeNamed(commodity: string, m: Totals)
    ensures IncomeCommodityOf(commodity, m).section.commodity == commodity
    ensures IncomeCommodityOf(commodity, m).netIncome == BalanceText(Earnings(m, commodity))
  {
    hide StatementOf;
    StatementNamed(commodity, m);
  }

  lemma CommodityListed(m: Totals, commodity: string)
    ensures commodity in CommoditiesIn(m) <==> exists k :: k in m && k.commodity == commodity
  {
    assert commodity in CommoditiesIn(m) <==> commodity in (set k | k in m :: k.commodity);
  }

  // Every commodity with movements in the period is in the closing amounts.
  lemma MovedIsClosing(years: seq<FiscalYear>, index: nat, entries: seq<Entry>, cs: seq<Classification>, commodity: string)
    requires index < |years| && AllEntriesValid(entries)
    requires var movement := MovementItems(entries, YearPeriod(years[index]), years[index].openingEntryIDs, cs, MovementRole);
             commodity in CommoditiesIn(FilterTotals(Tally(movement), IncomeCategories))
    ensures commodity in CommoditiesIn(Tally(ClosingItems(years, index, entries, cs)))
  {
    hide CommoditiesIn, Post, Carried, MovementItems, AllEntriesValid;
    var carried := Carried(years, index, entries, cs);
    var movement := MovementItems(entries, YearPeriod(years[index]), years[index].openingEntryIDs, cs, MovementRole);
    CommodityListed(FilterTotals(Tally(movement), IncomeCategories), commodity);
    var k :| k in Tally(movement) && k.commodity == commodity;
    PostKeys(map[], movement, k);
    PostKeys(map[], carried + movement, k);
    CommodityListed(Tally(ClosingItems(years, index, entries, cs)), commodity);
  }

  // ------------------------------------------- current earnings is net income

  // What the two builders say when they succeed.
  lemma IncomeIs(config: Configuration, entries: seq<Entry>, selected: PeriodText, report: IncomeStatement)
    requires IncomeStatementFor(config, entries, selected) == Ok(report)
    ensures ValidConfiguration(config) && GoodEntries(entries) && AllEntriesValid(entries)
    ensures var years, cs := SortYears(config.fiscalYears), SortClassifications(config.classifications);
            var choice := SelectIncomePeriod(years, selected);
            && choice.Some? && choice.value.index < |years|
            && var m := IncomeTotals(years, choice.value, entries, cs);
            IncomeFits(m) && report.period == choice.value.period && report.commodities == IncomeCommodities(CommoditiesIn(m), m)
  {
    hide ValidConfiguration, SortYears, SortClassifications, SelectIncomePeriod, GoodEntries, AllEntriesValid, IncomeTotals, IncomeFits, IncomeCommodities, CommoditiesIn, StatementsOf;
    SelectedIncomePeriod(SortYears(config.fiscalYears), selected);
    GoodAreValid(entries);
  }

  lemma ClosingIs(config: Configuration, entries: seq<Entry>, selected: PeriodText, report: ClosingBalanceSheet)
    requires ClosingBalanceSheetFor(config, entries, selected) == Ok(report)
    ensures ValidConfiguration(config) && GoodEntries(entries) && AllEntriesValid(entries)
    ensures var years, cs := SortYears(config.fiscalYears), SortClassifications(config.classifications);
            var choice := SelectPeriod(years, 0, selected);
            && choice.Some? && choice.value.index < |years|
            && choice.value.period.period == YearPeriod(years[choice.value.index])
            && OpeningExists(years, choice.value.index, entries, cs)
            && var m := Tally(ClosingItems(years, choice.value.index, entries, cs));
            report.commodities == ClosingCommodities(CommoditiesIn(m), m)
  {
    hide ValidConfiguration, SortYears, SortClassifications, SelectPeriod, GoodEntries, AllEntriesValid, OpeningExists, ClosingItems, ClosingFits, ClosingCommodities, CommoditiesIn, StatementsOf, PeriodsOf, TextPeriod, Tally, Carried, YearPeriod;
    var years := SortYears(config.fiscalYears);
    SelectedPeriod(years, 0, selected);
    WholeYearSelected(years, SelectPeriod(years, 0, selected).value);
    GoodAreValid(entries);
  }

  // The statements articulate: for every commodity of the year's income
  // statement the closing balance sheet of the same year shows current
  // earnings equal, to the last character, to the net income.
  lemma StatementsArticulate(
    config: Configuration, entries: seq<Entry>, selected: PeriodText, sheet: ClosingBalanceSheet, income: IncomeStatement, i: nat)
    requires ClosingBalanceSheetFor(config, entries, selected) == Ok(sheet)
    requires IncomeStatementFor(config, entries, selected) == Ok(income)
    requires i < |income.commodities|
    ensures exists j :: 0 <= j < |sheet.commodities|
              && sheet.commodities[j].commodity == income.commodities[i].section.commodity
              && sheet.commodities[j].currentEarnings == income.commodities[i].netIncome
  {
    hide ValidConfiguration, SortYears, SortClassifications, SelectPeriod, GoodEntries, AllEntriesValid, OpeningExists, ClosingItems, IncomeFits, ClosingCommodities, IncomeCommodities, CommoditiesIn, FilterTotals, Earnings, IncomeStatementFor, ClosingBalanceSheetFor, MovementItems, BalanceText, ItemSum, TotalSum, InCategories, StatementOf, Tally, YearPeriod, OfCommodity;
    IncomeIs(config, entries, selected, income);
    ClosingIs(config, entries, selected, sheet);
    var years, cs := SortYears(config.fiscalYears), SortClassifications(config.classifications);
    var s := SelectPeriod(years, 0, selected).value;
    var m, closing := IncomeTotals(years, s, entries, cs), Tally(ClosingItems(years, s.index, entries, cs));
    IncomeCount(CommoditiesIn(m), m);
    IncomeAt(CommoditiesIn(m), m, i);
    var c := CommoditiesIn(m)[i];
    IncomeNamed(c, m);
    MovedIsClosing(years, s.index, entries, cs, c);
    var j :| 0 <= j < |CommoditiesIn(closing)| && CommoditiesIn(closing)[j] == c;
    ClosingAt(CommoditiesIn(closing), closing, j);
    ClosingEarnings(years, s.index, entries, cs, c);
    EarningsOfItems(PeriodItems(years, s, entries, cs), c);
    assert sheet.commodities[j].commodity == c;
  }

  lemma IncomeCount(names: seq<string>, m: Totals)
    ensures |IncomeCommodities(names, m)| == |names|
  {
    if names != [] {
      IncomeAt(names, m, 0);
    }
  }

  // ------------------------------------------------------------ years to date

  // The net income a statement shows for a commodity, nothing when it has none.
  function NetIncome(commodities: seq<IncomeCommodity>, commodity: string): Accumulator {
    if commodities == [] then Sum(0, 0)
    else if commodities[|commodities| - 1].section.commodity == commodity
    then ParseBalance(commodities[|commodities| - 1].netIncome)
    else NetIncome(commodities[..|commodities| - 1], commodity)
  }

  lemma {:induction false} NetIncomeListed(names: seq<string>, m: Totals, commodity: string)
    requires forall c | c in names :: Fits(Earnings(m, c))
    ensures NetIncome(IncomeCommodities(names, m), commodity) ==
            if commodity in names then Norm(Earnings(m, commodity)) else Sum(0, 0)
  {
    hide Earnings, Fits, ParseBalance, BalanceText, Norm, StatementOf, IncomeCommodityOf;
    if names != [] {
      var front, last := names[..|names| - 1], names[|names| - 1];
      assert names == front + [last];
      NetIncomeListed(front, m, commodity);
      IncomeNamed(last, m);
      ReparseBalance(Earnings(m, last));
      assert IncomeCommodities(names, m)[..|IncomeCommodities(names, m)| - 1] == IncomeCommodities(front, m);
    }
  }

  // Reading the net income off a report gives the exact earnings of its period.
  lemma NetIncomeReads(m: Totals, commodity: string)
    requires IncomeFits(m)
    ensures NetIncome(IncomeCommodities(CommoditiesIn(m), m), commodity) == Norm(Earnings(m, commodity))
  {
    hide NetIncome, IncomeCommodities, CommoditiesIn, Plus, SumOver, AllStatementsFit, Fits;
    NetIncomeListed(CommoditiesIn(m), m, commodity);
    CommodityListed(m, commodity);
    if commodity !in CommoditiesIn(m) {
      assert (set k | k in m && k in InCategories(commodity, EarningCategories)) == {};
      EmptySum(m);
    }
  }

  function SumNetIncome(reports: seq<IncomeStatement>, commodity: string): Accumulator {
    if reports == [] then Sum(0, 0)
    else Plus(SumNetIncome(reports[..|reports| - 1], commodity), NetIncome(reports[|reports| - 1].commodities, commodity))
  }

  predicate Every(x: Contribution) {
    true
  }

  lemma PeriodNetIncome(
    config: Configuration, entries: seq<Entry>, selected: PeriodText, report: IncomeStatement, commodity: string)
    requires IncomeStatementFor(config, entries, selected) == Ok(report)
    ensures ValidConfiguration(config) && AllEntriesValid(entries)
    ensures var years, cs := SortYears(config.fiscalYears), SortClassifications(config.classifications);
            var choice := SelectIncomePeriod(years, selected);
            && choice.Some? && choice.value.index < |years|
            && var items := PeriodItems(years, choice.value, entries, cs);
            NetIncome(report.commodities, commodity) == Norm(ItemSum(items, InCategories(commodity, EarningCategories)))
  {
    hide ValidConfiguration, SortYears, SortClassifications, SelectIncomePeriod, GoodEntries, AllEntriesValid, IncomeFits, IncomeCommodities, CommoditiesIn, FilterTotals, Earnings, IncomeStatementFor, PeriodItems, ItemSum, InCategories, Tally, NetIncome, Norm;
    IncomeIs(config, entries, selected, report);
    var years, cs := SortYears(config.fiscalYears), SortClassifications(config.classifications);
    var s := SelectIncomePeriod(years, selected).value;
    NetIncomeReads(IncomeTotals(years, s, entries, cs), commodity);
    EarningsOfItems(PeriodItems(years, s, entries, cs), commodity);
  }

  lemma {:induction false} MonthsNetIncome(
    config: Configuration, entries: seq<Entry>, index: nat, months: seq<IncomeStatement>, commodity: string)
    requires ValidConfiguration(config) && AllEntriesValid(entries) && index < |SortYears(config.fiscalYears)|
    requires |months| <= 12 && forall i | 0 <= i < |months| :: MonthStatement(config, entries, index, i + 1, months[i])
    ensures var years, cs := SortYears(config.fiscalYears), SortClassifications(config.classifications);
            SumNetIncome(months, commodity) ==
            Norm(MonthlySum(SpanOf(years[index]), |months|, years[index].openingEntryIDs, entries, cs, Every,
                            InCategories(commodity, EarningCategories)))
  {
    hide ValidConfiguration, SortYears, SortClassifications, AllEntriesValid, Plus, ItemSum, MovementItems, NetIncome, InCategories, Norm, SpanOf, MonthOf, Keep;
    NormOfUnset();
    if months != [] {
      var n, years, cs := |months|, SortYears(config.fiscalYears), SortClassifications(config.classifications);
      var K := InCategories(commodity, EarningCategories);
      MonthsNetIncome(config, entries, index, months[..n - 1], commodity);
      assert MonthStatement(config, entries, index, n, months[n - 1]);
      MonthNetIncome(config, entries, index, n, months[n - 1], commodity);
      var items := MovementItems(entries, MonthOf(SpanOf(years[index]), n), years[index].openingEntryIDs, cs, MovementRole);
      NormPlus(MonthlySum(SpanOf(years[index]), n - 1, years[index].openingEntryIDs, entries, cs, Every, K),
               ItemSum(Keep(items, Every), K));
    }
  }

  lemma MonthNetIncome(
    config: Configuration, entries: seq<Entry>, index: nat, m: nat, report: IncomeStatement, commodity: string)
    requires ValidConfiguration(config) && AllEntriesValid(entries) && index < |SortYears(config.fiscalYears)| && 1 <= m <= 12
    requires MonthStatement(config, entries, index, m, report)
    ensures var years, cs := SortYears(config.fiscalYears), SortClassifications(config.classifications);
            var items := MovementItems(entries, MonthOf(SpanOf(years[index]), m), years[index].openingEntryIDs, cs, MovementRole);
            NetIncome(report.commodities, commodity) ==
            Norm(ItemSum(Keep(items, Every), InCategories(commodity, EarningCategories)))
  {
    hide ValidConfiguration, SortYears, SortClassifications, AllEntriesValid, ItemSum, MovementItems, NetIncome, InCategories, Norm, SpanOf, MonthOf, Keep, SelectIncomePeriod, IncomeStatementFor, TextPeriod, TextOf, MonthSelection, SelectPeriod;
    PeriodSelectable(config, index, m);
    var years, cs := SortYears(config.fiscalYears), SortClassifications(config.classifications);
    var p := MonthOf(SpanOf(years[index]), m);
    SelectionIs(years, index, m);
    PeriodNetIncome(config, entries, TextOf(p), report, commodity);
    KeepAll(MovementItems(entries, p, years[index].openingEntryIDs, cs, MovementRole), Every);
  }

  // The income statement built for month m of the year, asked for by its dates.
  ghost predicate MonthStatement(config: Configuration, entries: seq<Entry>, index: nat, m: nat, report: IncomeStatement)
    requires index < |SortYears(config.fiscalYears)|
  {
    var p := MonthOf(SpanOf(SortYears(config.fiscalYears)[index]), m);
    TextPeriod(p) && IncomeStatementFor(config, entries, TextOf(p)) == Ok(report)
  }

  // The income statement from the first day of the year through month m.
  ghost predicate ToDateStatement(config: Configuration, entries: seq<Entry>, index: nat, m: nat, report: IncomeStatement)
    requires index < |SortYears(config.fiscalYears)|
  {
    var p := ThroughMonth(SpanOf(SortYears(config.fiscalYears)[index]), m);
    TextPeriod(p) && IncomeStatementFor(config, entries, TextOf(p)) == Ok(report)
  }

  // Net income adds up: the year to date through month m is the sum of the
  // first m months, and with m = 12 the full year is the sum of all twelve, in
  // every commodity and as read off the printed statements.
  lemma NetIncomeAddsUp(
    config: Configuration, entries: seq<Entry>, index: nat, months: seq<IncomeStatement>, whole: IncomeStatement,
    commodity: string)
    requires ValidConfiguration(config) && index < |SortYears(config.fiscalYears)| && 1 <= |months| <= 12
    requires forall i | 0 <= i < |months| :: MonthStatement(config, entries, index, i + 1, months[i])
    requires ToDateStatement(config, entries, index, |months|, whole)
    ensures NetIncome(whole.commodities, commodity) == SumNetIncome(months, commodity)
  {
    hide ValidConfiguration, SortYears, SortClassifications, AllEntriesValid, ItemSum, MovementItems, NetIncome, InCategories, Norm, SpanOf, MonthStatement, Keep, SelectIncomePeriod, IncomeStatementFor, TextPeriod, TextOf, SelectPeriod, ThroughMonth, MonthlySum, SumNetIncome, GoodSpan;
    var years, cs := SortYears(config.fiscalYears), SortClassifications(config.classifications);
    var m, span, K := |months|, SpanOf(years[index]), InCategories(commodity, EarningCategories);
    var p := ThroughMonth(span, m);
    YearToDateSelectable(config, index, m);
    PeriodNetIncome(config, entries, TextOf(p), whole, commodity);
    MonthsNetIncome(config, entries, index, months, commodity);
    YearIsGood(config, index);
    MonthlyAddsUp(span, m, years[index].openingEntryIDs, entries, cs, Every, K);
    KeepAll(MovementItems(entries, p, years[index].openingEntryIDs, cs, MovementRole), Every);
  }

  // The through-month-12 period is the fiscal year itself.
  lemma ToDateTwelveIsYear(config: Configuration, index: nat)
    requires ValidConfiguration(config) && index < |SortYears(config.fiscalYears)|
    ensures ThroughMonth(SpanOf(SortYears(config.fiscalYears)[index]), 12) == YearPeriod(SortYears(config.fiscalYears)[index])
  {
    hide ValidConfiguration, SortYears, ThroughMonth, GoodSpan, SpanOf;
    YearIsGood(config, index);
    FirstMonthThrough(SpanOf(SortYears(config.fiscalYears)[index]));
  }
}
