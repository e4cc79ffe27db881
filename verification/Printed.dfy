// What a reader can check on printed trial balances: every row adds up, the
// turnover of every commodity balances, and months add up to the year.
module Printed {
  import opened Results
  import opened Accumulators
  import opened Accounts
  import opened Configurations
  import opened Movements
  import opened CarryForward
  import opened Bookkeeping
  import opened Rows
  import opened TrialBalances
  import opened Sections
  import opened StatementRows
  import opened Reports
  import opened Targets
  import opened Statements
  import opened Incomes
  import opened Warnings
  import opened Selections
  import opened TrendRefinement
  import opened Explanations

  // What a trial balance that was built says about its contributions.
  lemma TrialReportIs(config: Configuration, entries: seq<Entry>, selected: PeriodText, report: TrialBalance)
    requires TrialBalanceFor(config, entries, selected) == Ok(report)
    ensures ValidConfiguration(config) && AllEntriesValid(entries)
    ensures var years, cs := SortYears(config.fiscalYears), SortClassifications(config.classifications);
            var choice := SelectPeriod(years, 0, selected);
            && choice.Some? && choice.value.index < |years|
            && var opening, movement := OpeningItems(years, choice.value, entries, cs), PeriodItems(years, choice.value, entries, cs);
            ReportOnFits(opening, movement) && report == ReportOn(config.revision, choice.value.period, opening, movement)
  {
    hide ValidConfiguration, SortYears, SortClassifications, SelectPeriod, GoodEntries, AllEntriesValid, OpeningExists, ReportOn, ReportOnFits, OpeningItems, PeriodItems, PeriodsOf, TextPeriod;
    SelectedPeriod(SortYears(config.fiscalYears), 0, selected);
    GoodAreValid(entries);
  }

  // ------------------------------------------------------- rows that add up

  // The printed figures of a row, read back: closing is opening plus debit
  // turnover minus credit turnover.
  predicate Reconciles(a: Amounts) {
    ParseBalance(a.closing)
    == Plus(Plus(ParseBalance(a.opening), ParseAccumulator(a.debitTurnover)), Negate(ParseAccumulator(a.creditTurnover)))
  }

  predicate GroupReconciles(g: CategoryGroup) {
    && Reconciles(g.total)
    && forall k | 0 <= k < |g.accounts| :: Reconciles(g.accounts[k].direct) && Reconciles(g.accounts[k].subtotal)
  }

  predicate SectionReconciles(s: CommoditySection) {
    Reconciles(s.total) && forall j | 0 <= j < |s.groups| :: GroupReconciles(s.groups[j])
  }

  lemma FigureReconciles(o: Totals, d: Totals, c: Totals, K: iset<AmountKey>)
    requires SidedTotals(d, c) && RowFits(RowOver(o, d, c, K))
    ensures Reconciles(RowText(RowOver(o, d, c, K)))
  {
    hide TotalSum, Plus, ParseBalance, ParseAccumulator, RowText, Negate, Sided, RowFits;
    RowOverSided(o, d, c, K);
    PrintedRowReconciles(TotalSum(o, K), TotalSum(d, K), TotalSum(c, K));
  }

  // The figures of one category as sums over accounts.
  lemma RowFigures(commodity: string, category: Category, o: Totals, d: Totals, c: Totals, name: string)
    ensures var direct := DirectRows(commodity, category, o, d, c);
            && Subtotal(direct, name) == RowOver(o, d, c, Cell(commodity, category, Subtree(name)))
            && GetRow(direct, name) == RowOver(o, d, c, Cell(commodity, category, Just(name)))
            && SumRows(direct, direct.Keys) == RowOver(o, d, c, Cell(commodity, category, AnyAccount()))
  {
    hide SumRows, DirectRows, RowOver, Under, Cell, Just;
    var direct := DirectRows(commodity, category, o, d, c);
    DirectSum(commodity, category, o, d, c, Subtree(name));
    BelowIsSubtree(direct, name);
    WholeGroup(commodity, category, o, d, c);
    DirectSum(commodity, category, o, d, c, Just(name));
    OneRow(direct, name);
  }

  lemma GroupAddsUp(commodity: string, category: Category, o: Totals, d: Totals, c: Totals)
    requires SidedTotals(d, c) && GroupFits(DirectRows(commodity, category, o, d, c))
    ensures GroupReconciles(GroupOf(commodity, category, DirectRows(commodity, category, o, d, c)))
  {
    hide SumRows, DirectRows, RowOver, Cell, Just, Subtree, SidedTotals, RowFits, RowText, Reconciles, Names, Subtotal, GetRow, RowWarnings, AccountLess;
    var direct := DirectRows(commodity, category, o, d, c);
    RowFigures(commodity, category, o, d, c, "");
    FigureReconciles(o, d, c, Cell(commodity, category, AnyAccount()));
    var names := RowNames(direct);
    forall k | 0 <= k < |names|
      ensures Reconciles(GroupRows(commodity, category, direct)[k].direct)
           && Reconciles(GroupRows(commodity, category, direct)[k].subtotal)
    {
      assert names[k] in names;
      RowFigures(commodity, category, o, d, c, names[k]);
      FigureReconciles(o, d, c, Cell(commodity, category, Just(names[k])));
      FigureReconciles(o, d, c, Cell(commodity, category, Subtree(names[k])));
    }
  }

  lemma SectionAddsUp(commodity: string, o: Totals, d: Totals, c: Totals)
    requires SidedTotals(d, c) && SectionFits(commodity, o, d, c)
    ensures SectionReconciles(SectionOf(commodity, o, d, c).section)
  {
    hide DirectRows, RowOver, OfCommodity, SidedTotals, RowFits, RowText, Reconciles, GroupReconciles, GroupOf, GroupFits, Groups, GroupWarnings;
    FigureReconciles(o, d, c, OfCommodity(commodity));
    GroupsListed(commodity, o, d, c, 6);
    var groups := Groups(commodity, o, d, c, 6);
    forall j | 0 <= j < |groups|
      ensures GroupReconciles(groups[j])
    {
      assert groups[j] in groups;
      var x :| x < 6 && IsGroup(groups[j], commodity, x, o, d, c);
      GroupAddsUp(commodity, CategoryOrder[x], o, d, c);
    }
  }

  // Every figure a trial balance prints reconciles: each account's direct and
  // subtotal amounts, each group total and each section total.
  lemma ReportReconciles(config: Configuration, entries: seq<Entry>, selected: PeriodText, report: TrialBalance)
    requires TrialBalanceFor(config, entries, selected) == Ok(report)
    ensures forall i | 0 <= i < |report.commodities| :: SectionReconciles(report.commodities[i])
  {
    hide TrialBalanceFor, OpeningItems, PeriodItems, SelectPeriod, SortYears, SortClassifications, AllEntriesValid, ValidConfiguration, Tally, Debits, Credits, SidedTotals, SectionOf, SectionFits, SectionReconciles, CommodityNames, SectionsOf, SectionWarnings, AllComplete;
    TrialReportIs(config, entries, selected, report);
    var years, cs := SortYears(config.fiscalYears), SortClassifications(config.classifications);
    var s := SelectPeriod(years, 0, selected).value;
    var opening, movement := OpeningItems(years, s, entries, cs), PeriodItems(years, s, entries, cs);
    var o, d, c := Tally(opening), Tally(Debits(movement)), Tally(Credits(movement));
    SidesAreSided(movement);
    var names := CommodityNames(o, d, c);
    TrialSectionCount(names, o, d, c);
    forall i | 0 <= i < |names|
      ensures SectionReconciles(report.commodities[i])
    {
      TrialSectionAt(names, o, d, c, i);
      assert SectionFits(names[i], o, d, c);
      SectionAddsUp(names[i], o, d, c);
    }
  }

  // ----------------------------------------------------- turnover that balances

  // The printed debit and credit turnover are numerically equal.
  predicate TurnoverEqual(a: Amounts) {
    IsZero(Plus(ParseAccumulator(a.debitTurnover), Negate(ParseAccumulator(a.creditTurnover))))
  }

  lemma ItemTurnoverEqual(opening: seq<Contribution>, movement: seq<Contribution>, commodity: string)
    requires BalancedItems(movement)
    requires RowFits(ItemRow(opening, movement, OfCommodity(commodity)))
    ensures TurnoverEqual(RowText(ItemRow(opening, movement, OfCommodity(commodity))))
  {
    hide Plus, ParseBalance, ParseAccumulator, RowText, Negate, Sided, RowFits, IsZero, Norm, Debits, Credits, ItemSum, Tally, SidedTotals, RowOver, OfCommodity;
    var K := OfCommodity(commodity);
    var row := ItemRow(opening, movement, K);
    SidesAreSided(movement);
    RowOverIsItemRow(opening, movement, K);
    RowOverSided(Tally(opening), Tally(Debits(movement)), Tally(Credits(movement)), K);
    ReparseRow(row);
    DebitCreditSum(movement, K);
    NormPlus(row.debit, row.credit);
    NormText(Plus(row.debit, row.credit));
    assert SumsFromAmounts(RowText(row)) == NormRow(row);
  }

  // In every commodity section the printed total debit turnover equals the
  // printed total credit turnover.
  lemma ReportTurnoverBalances(config: Configuration, entries: seq<Entry>, selected: PeriodText, report: TrialBalance)
    requires TrialBalanceFor(config, entries, selected) == Ok(report)
    ensures forall i | 0 <= i < |report.commodities| :: TurnoverEqual(report.commodities[i].total)
  {
    hide TrialBalanceFor, OpeningItems, MovementItems, SelectPeriod, SortYears, SortClassifications, AllEntriesValid, ValidConfiguration, Tally, Debits, Credits, CommodityNames, SectionsOf, SectionWarnings, AllComplete, TurnoverEqual, BalancedItems, RowOver, OfCommodity, RowFits, RowText, Groups, GroupWarnings, DirectRows, GroupFits, ItemRow;
    TrialReportIs(config, entries, selected, report);
    var years, cs := SortYears(config.fiscalYears), SortClassifications(config.classifications);
    var s := SelectPeriod(years, 0, selected).value;
    var opening, movement := OpeningItems(years, s, entries, cs), PeriodItems(years, s, entries, cs);
    var o, d, c := Tally(opening), Tally(Debits(movement)), Tally(Credits(movement));
    MovementItemsBalanced(entries, s.period.period, years[s.index].openingEntryIDs, cs, MovementRole);
    var names := CommodityNames(o, d, c);
    TrialSectionCount(names, o, d, c);
    forall i | 0 <= i < |names|
      ensures TurnoverEqual(report.commodities[i].total)
    {
      TrialSectionAt(names, o, d, c, i);
      assert SectionFits(names[i], o, d, c);
      RowOverIsItemRow(opening, movement, OfCommodity(names[i]));
      ItemTurnoverEqual(opening, movement, names[i]);
    }
  }

  // ------------------------------------------------- months add up to the year

  // The amounts a report shows for an account, none when it has no such row.
  ghost function ShownAmounts(sections: seq<CommoditySection>, q: Query): Option<Amounts> {
    if value :| Answers(sections, q, value) then Some(value) else None
  }

  ghost function ShownDebit(report: TrialBalance, q: Query): Accumulator {
    var shown := ShownAmounts(report.commodities, q);
    if shown.None? then Sum(0, 0) else ParseAccumulator(shown.value.debitTurnover)
  }

  ghost function ShownCredit(report: TrialBalance, q: Query): Accumulator {
    var shown := ShownAmounts(report.commodities, q);
    if shown.None? then Sum(0, 0) else Negate(ParseAccumulator(shown.value.creditTurnover))
  }

  ghost function SumDebits(reports: seq<TrialBalance>, q: Query): Accumulator {
    if reports == [] then Sum(0, 0)
    else Plus(SumDebits(reports[..|reports| - 1], q), ShownDebit(reports[|reports| - 1], q))
  }

  ghost function SumCredits(reports: seq<TrialBalance>, q: Query): Accumulator {
    if reports == [] then Sum(0, 0)
    else Plus(SumCredits(reports[..|reports| - 1], q), ShownCredit(reports[|reports| - 1], q))
  }

  // The answer to a query is unique.
  lemma OneAnswer(o: Totals, d: Totals, c: Totals, q: Query)
    ensures ShownAmounts(SectionsOf(CommodityNames(o, d, c), o, d, c), q) == TrialTarget(o, d, c, q)
  {
    hide SectionsOf, CommodityNames, TrialTarget, AnswersAt;
    var sections := SectionsOf(CommodityNames(o, d, c), o, d, c);
    if value :| Answers(sections, q, value) {
      var shown := ShownAmounts(sections, q).value;
      var i, j, k :| AnswersAt(sections, q, i, j, k, shown);
      AnswerIsTarget(o, d, c, q, i, j, k, shown);
    } else if TrialTarget(o, d, c, q).Some? {
      TargetIsAnswered(o, d, c, q);
      assert Answers(sections, q, TrialTarget(o, d, c, q).value);
    }
  }

  // The row a query asks about, whether it is listed or not.
  lemma QueriedRow(opening: seq<Contribution>, movement: seq<Contribution>, q: Query)
    ensures var target := TrialTarget(Tally(opening), Tally(Debits(movement)), Tally(Credits(movement)), q);
            var row := ItemRow(opening, movement, QueryKeys(q));
            && (target.Some? ==> target.value == RowText(row))
            && (target.None? ==> row == NoSums)
            && (target.Some? && ReportOnFits(opening, movement) ==> RowFits(row))
  {
    hide DirectRows, ReportFits, Tally, Debits, Credits, ItemRow, RowFits, RowText, Names, Subtotal, GetRow, Cell, Just, Subtree, SumRows;
    var o, d, c := Tally(opening), Tally(Debits(movement)), Tally(Credits(movement));
    RollUp(q.commodity, q.category, opening, movement, q.account);
    var direct := DirectRows(q.commodity, q.category, o, d, c);
    if q.account !in Names(direct.Keys) {
      AbsentRow(direct, q.account);
    } else if ReportOnFits(opening, movement) {
      TargetFits(o, d, c, q);
    }
  }

  // The printed turnover of an account is the exact sum of its movements.
  lemma ShownTurnover(revision: int, period: FiscalPeriod, opening: seq<Contribution>, movement: seq<Contribution>, q: Query)
    requires ReportOnFits(opening, movement)
    ensures var report := ReportOn(revision, period, opening, movement);
            && ShownDebit(report, q) == Norm(ItemSum(Debits(movement), QueryKeys(q)))
            && ShownCredit(report, q) == Norm(ItemSum(Credits(movement), QueryKeys(q)))
  {
    hide ReportFits, Tally, Debits, Credits, RowFits, Norm, ItemSum, QueryKeys, ParseAccumulator, ParseBalance, Negate, TrialTarget, ShownAmounts, SectionsOf, CommodityNames, SectionWarnings, AllComplete, SidedTotals, RowOver, Plus, Sided, BalanceText, AbsoluteText;
    var o, d, c := Tally(opening), Tally(Debits(movement)), Tally(Credits(movement));
    OneAnswer(o, d, c, q);
    QueriedRow(opening, movement, q);
    var row := ItemRow(opening, movement, QueryKeys(q));
    NormOfUnset();
    if TrialTarget(o, d, c, q).Some? {
      SidesAreSided(movement);
      RowOverIsItemRow(opening, movement, QueryKeys(q));
      RowOverSided(o, d, c, QueryKeys(q));
      ReparseRow(row);
      assert SumsFromAmounts(RowText(row)) == NormRow(row);
    }
  }

  // The trial balance of the whole year, asked for by its dates.
  ghost predicate YearTrial(config: Configuration, entries: seq<Entry>, index: nat, report: TrialBalance)
    requires index < |SortYears(config.fiscalYears)|
  {
    var p := YearPeriod(SortYears(config.fiscalYears)[index]);
    TextPeriod(p) && TrialBalanceFor(config, entries, TextOf(p)) == Ok(report)
  }

  lemma MonthTurnover(config: Configuration, entries: seq<Entry>, index: nat, m: nat, report: TrialBalance, q: Query)
    requires ValidConfiguration(config) && AllEntriesValid(entries) && index < |SortYears(config.fiscalYears)| && 1 <= m <= 12
    requires MonthTrial(config, entries, index, m, report)
    ensures var years, cs := SortYears(config.fiscalYears), SortClassifications(config.classifications);
            var items := MovementItems(entries, MonthOf(SpanOf(years[index]), m), years[index].openingEntryIDs, cs, MovementRole);
            && ShownDebit(report, q) == Norm(ItemSum(Debits(items), QueryKeys(q)))
            && ShownCredit(report, q) == Norm(ItemSum(Credits(items), QueryKeys(q)))
  {
    hide TrialBalanceFor, OpeningItems, MovementItems, SelectPeriod, SortYears, SortClassifications, AllEntriesValid, ValidConfiguration, Debits, Credits, ShownDebit, ShownCredit, QueryKeys, Norm, ItemSum, ReportOn, ReportOnFits, SpanOf, MonthOf, TextPeriod, TextOf, SelectIncomePeriod, MonthSelection;
    var years, cs := SortYears(config.fiscalYears), SortClassifications(config.classifications);
    PeriodSelectable(config, index, m);
    SelectionIs(years, index, m);
    var p := MonthOf(SpanOf(years[index]), m);
    TrialReportIs(config, entries, TextOf(p), report);
    var s := MonthSelection(years, index, m);
    ShownTurnover(config.revision, s.period, OpeningItems(years, s, entries, cs), PeriodItems(years, s, entries, cs), q);
  }

  lemma {:induction false} MonthsTurnover(
    config: Configuration, entries: seq<Entry>, index: nat, months: seq<TrialBalance>, q: Query)
    requires ValidConfiguration(config) && AllEntriesValid(entries) && index < |SortYears(config.fiscalYears)|
    requires |months| <= 12 && forall i | 0 <= i < |months| :: MonthTrial(config, entries, index, i + 1, months[i])
    ensures var years, cs := SortYears(config.fiscalYears), SortClassifications(config.classifications);
            var span, ids, n := SpanOf(years[index]), years[index].openingEntryIDs, |months|;
            && SumDebits(months, q) == Norm(MonthlySum(span, n, ids, entries, cs, IsDebit, QueryKeys(q)))
            && SumCredits(months, q) == Norm(MonthlySum(span, n, ids, entries, cs, IsCredit, QueryKeys(q)))
  {
    hide SortYears, SortClassifications, AllEntriesValid, ValidConfiguration, MovementItems, ShownDebit, ShownCredit, QueryKeys, Norm, ItemSum, SpanOf, MonthOf, MonthTrial, Plus, Keep;
    NormOfUnset();
    if months != [] {
      var years, cs := SortYears(config.fiscalYears), SortClassifications(config.classifications);
      var span, ids, n := SpanOf(years[index]), years[index].openingEntryIDs, |months|;
      MonthsTurnover(config, entries, index, months[..n - 1], q);
      MonthTurnover(config, entries, index, n, months[n - 1], q);
      var items := MovementItems(entries, MonthOf(span, n), ids, cs, MovementRole);
      NormPlus(MonthlySum(span, n - 1, ids, entries, cs, IsDebit, QueryKeys(q)), ItemSum(Keep(items, IsDebit), QueryKeys(q)));
      NormPlus(MonthlySum(span, n - 1, ids, entries, cs, IsCredit, QueryKeys(q)), ItemSum(Keep(items, IsCredit), QueryKeys(q)));
    }
  }

  // As printed, for every account, commodity and category, direct or with its
  // subtree: the year's debit and credit turnover are the sums of the twelve
  // monthly ones, a missing row counting as nothing.
  lemma PrintedYearTurnover(
    config: Configuration, entries: seq<Entry>, index: nat, months: seq<TrialBalance>, year: TrialBalance, q: Query)
    requires ValidConfiguration(config) && index < |SortYears(config.fiscalYears)|
    requires |months| == 12 && forall i | 0 <= i < 12 :: MonthTrial(config, entries, index, i + 1, months[i])
    requires YearTrial(config, entries, index, year)
    ensures ShownDebit(year, q) == SumDebits(months, q) && ShownCredit(year, q) == SumCredits(months, q)
  {
    hide TrialBalanceFor, OpeningItems, MovementItems, SelectPeriod, SortYears, SortClassifications, AllEntriesValid, ValidConfiguration, ShownDebit, ShownCredit, QueryKeys, Norm, ItemSum, ReportOn, ReportOnFits, SpanOf, TextPeriod, TextOf, SelectIncomePeriod, MonthSelection, MonthTrial, SumDebits, SumCredits, MonthlySum, Keep, GoodSpan;
    var years, cs := SortYears(config.fiscalYears), SortClassifications(config.classifications);
    PeriodSelectable(config, index, 0);
    WholeIs(years, index);
    TrialReportIs(config, entries, TextOf(YearPeriod(years[index])), year);
    var s := MonthSelection(years, index, 0);
    ShownTurnover(config.revision, s.period, OpeningItems(years, s, entries, cs), PeriodItems(years, s, entries, cs), q);
    MonthsTurnover(config, entries, index, months, q);
    YearIsGood(config, index);
    YearTurnover(SpanOf(years[index]), years[index].openingEntryIDs, entries, cs, QueryKeys(q));
  }

  // -------------------------------------------------------------- warnings

  // The warnings of a built trial balance, in terms of what it reports on.
  lemma TrialWarnings(config: Configuration, entries: seq<Entry>, selected: PeriodText, report: TrialBalance, w: Warning)
    requires TrialBalanceFor(config, entries, selected) == Ok(report)
    ensures ValidConfiguration(config) && AllEntriesValid(entries)
    ensures var years, cs := SortYears(config.fiscalYears), SortClassifications(config.classifications);
            var choice := SelectPeriod(years, 0, selected);
            && choice.Some? && choice.value.index < |years|
            && var movement := PeriodItems(years, choice.value, entries, cs);
            var o, d, c := Tally(OpeningItems(years, choice.value, entries, cs)), Tally(Debits(movement)), Tally(Credits(movement));
            w in report.warnings <==> exists k, r :: PostedAs(k, o, d, c, r) && Warns(k, r, w)
  {
    hide TrialBalanceFor, OpeningItems, PeriodItems, SelectPeriod, SortYears, SortClassifications, AllEntriesValid, ValidConfiguration, Tally, Debits, Credits, Warns, PostedAs, TrialBalanceOf, ReportFits;
    TrialReportIs(config, entries, selected, report);
    var years, cs := SortYears(config.fiscalYears), SortClassifications(config.classifications);
    var s := SelectPeriod(years, 0, selected).value;
    var movement := PeriodItems(years, s, entries, cs);
    ReportWarningsExact(config.revision, s.period, Tally(OpeningItems(years, s, entries, cs)), Tally(Debits(movement)),
                        Tally(Credits(movement)), w);
  }

  lemma ClosingParts(config: Configuration, entries: seq<Entry>, selected: PeriodText, report: ClosingBalanceSheet)
    requires ClosingBalanceSheetFor(config, entries, selected) == Ok(report)
    ensures ValidConfiguration(config) && AllEntriesValid(entries)
    ensures var years, cs := SortYears(config.fiscalYears), SortClassifications(config.classifications);
            var choice := SelectPeriod(years, 0, selected);
            && choice.Some? && choice.value.index < |years|
            && var kept := FilterTotals(Tally(ClosingItems(years, choice.value.index, entries, cs)), BalanceCategories);
            AllStatementsFit(kept) && report.warnings == StatementsOf(kept).warnings
  {
    hide ValidConfiguration, SortYears, SortClassifications, SelectPeriod, GoodEntries, AllEntriesValid, OpeningExists, ClosingItems, ClosingCommodities, CommoditiesIn, StatementsOf, FilterTotals, PeriodsOf, TextPeriod, Tally, Carried, YearPeriod, AllStatementsFit, BalancedTotals, Fits, Earnings, TotalSum;
    SelectedPeriod(SortYears(config.fiscalYears), 0, selected);
    GoodAreValid(entries);
  }

  // The warnings of a built closing balance sheet: those of its balance
  // accounts, revenue and expense left aside.
  lemma ClosingWarnings(
    config: Configuration, entries: seq<Entry>, selected: PeriodText, report: ClosingBalanceSheet, w: Warning)
    requires ClosingBalanceSheetFor(config, entries, selected) == Ok(report)
    ensures ValidConfiguration(config) && AllEntriesValid(entries)
    ensures var years, cs := SortYears(config.fiscalYears), SortClassifications(config.classifications);
            var choice := SelectPeriod(years, 0, selected);
            && choice.Some? && choice.value.index < |years|
            && var m := Tally(ClosingItems(years, choice.value.index, entries, cs));
            w in report.warnings <==>
              exists k :: k in m && k.category in {Asset, Liability, Equity, Unclassified} && StatementWarns(k, m[k], w)
  {
    hide ClosingBalanceSheetFor, ValidConfiguration, SortYears, SortClassifications, SelectPeriod, AllEntriesValid, ClosingItems, StatementsOf, FilterTotals, Tally, AllStatementsFit, StatementWarns;
    ClosingParts(config, entries, selected, report);
    var years, cs := SortYears(config.fiscalYears), SortClassifications(config.classifications);
    var m := Tally(ClosingItems(years, SelectPeriod(years, 0, selected).value.index, entries, cs));
    NamedCategories();
    FilteredWarnings(m, {Asset, Liability, Equity, Unclassified}, w);
  }

  // The warnings of statement sections restricted to some categories.
  lemma FilteredWarnings(m: Totals, C: set<Category>, w: Warning)
    requires AllStatementsFit(FilterTotals(m, C))
    ensures w in StatementsOf(FilterTotals(m, C)).warnings <==>
            exists k :: k in m && k.category in C && StatementWarns(k, m[k], w)
  {
    hide StatementsOf, AllStatementsFit, StatementWarns;
    StatementsWarningsExact(FilterTotals(m, C), w);
    if k :| k in m && k.category in C && StatementWarns(k, m[k], w) {
      assert k in FilterTotals(m, C) && FilterTotals(m, C)[k] == m[k];
    }
  }

  lemma NamedCategories()
    ensures BalanceCategories == {Asset, Liability, Equity, Unclassified} && IncomeCategories == {Revenue, Expense, Unclassified}
  {
  }

  // The warnings of a built income statement.
  lemma IncomeWarnings(config: Configuration, entries: seq<Entry>, selected: PeriodText, report: IncomeStatement, w: Warning)
    requires IncomeStatementFor(config, entries, selected) == Ok(report)
    ensures ValidConfiguration(config) && AllEntriesValid(entries)
    ensures var years, cs := SortYears(config.fiscalYears), SortClassifications(config.classifications);
            var choice := SelectIncomePeriod(years, selected);
            && choice.Some? && choice.value.index < |years|
            && var m := Tally(PeriodItems(years, choice.value, entries, cs));
            w in report.warnings <==> exists k :: k in m && k.category in {Revenue, Expense, Unclassified} && StatementWarns(k, m[k], w)
  {
    hide ValidConfiguration, SortYears, SortClassifications, SelectIncomePeriod, GoodEntries, AllEntriesValid, PeriodItems, IncomeCommodities, CommoditiesIn, StatementsOf, FilterTotals, Tally, AllStatementsFit, StatementWarns, Fits, Earnings;
    SelectedIncomePeriod(SortYears(config.fiscalYears), selected);
    GoodAreValid(entries);
    var years, cs := SortYears(config.fiscalYears), SortClassifications(config.classifications);
    var m := Tally(PeriodItems(years, SelectIncomePeriod(years, selected).value, entries, cs));
    NamedCategories();
    FilteredWarnings(m, {Revenue, Expense, Unclassified}, w);
  }
}
