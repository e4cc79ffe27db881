// The income statement of a year, a month or a year to date, and how it
// articulates with the closing balance sheet.
module Incomes {
  import opened Results
  import opened Accumulators
  import opened Configurations
  import opened Movements
  import opened CarryForward
  import opened Bookkeeping
  import opened Rows
  import opened TrialBalances
  import opened Sections
  import opened StatementRows
  import opened Reports
  import opened Statements

  datatype IncomeCommodity = IncomeCommodity(section: StatementSection, netIncome: Balance)

  datatype IncomeStatement = IncomeStatement(
    revision: int, period: FiscalPeriod, classificationComplete: bool, warnings: seq<Warning>,
    commodities: seq<IncomeCommodity>)

  const IncomeCategories: set<Category> := {Revenue, Expense, Unclassified}

  // -------------------------------------------------------- period selection

  // The year to date through months 2 to 11; one month and the whole year are
  // ordinary periods.
  function YearToDate(span: Span, month: nat): FiscalPeriod {
    FiscalPeriod(ThroughMonth(span, month), span.start, span.end, month)
  }

  function YearToDates(span: Span): seq<FiscalPeriod> {
    seq(10, i requires 0 <= i < 10 => YearToDate(span, i + 2))
  }

  function SelectYearToDate(years: seq<FiscalYear>, from: nat, selected: PeriodText): Option<Selection>
    requires from <= |years|
    decreases |years| - from
  {
    if from == |years| then None
    else
      var found := FindPeriod(YearToDates(SpanOf(years[from])), selected);
      if found.Some? then Some(Selection(found.value, from)) else SelectYearToDate(years, from + 1, selected)
  }

  // A plain period, or else a year to date.
  function SelectIncomePeriod(years: seq<FiscalYear>, selected: PeriodText): Option<Selection> {
    var plain := SelectPeriod(years, 0, selected);
    if plain.Some? then plain else SelectYearToDate(years, 0, selected)
  }

  lemma {:induction false} SelectedYearToDate(years: seq<FiscalYear>, from: nat, selected: PeriodText)
    requires from <= |years| && SelectYearToDate(years, from, selected).Some?
    ensures var s := SelectYearToDate(years, from, selected).value;
            && from <= s.index < |years| && s.period in YearToDates(SpanOf(years[s.index]))
            && IsPeriod(s.period.period, selected)
    decreases |years| - from
  {
    hide IsPeriod, FindPeriod, YearToDates, SpanOf;
    var found := FindPeriod(YearToDates(SpanOf(years[from])), selected);
    if found.Some? {
      FoundPeriod(YearToDates(SpanOf(years[from])), selected);
    } else {
      SelectedYearToDate(years, from + 1, selected);
    }
  }

  lemma SelectedIncomePeriod(years: seq<FiscalYear>, selected: PeriodText)
    requires SelectIncomePeriod(years, selected).Some?
    ensures var s := SelectIncomePeriod(years, selected).value;
            s.index < |years| && IsPeriod(s.period.period, selected)
  {
    hide PeriodsOf, YearToDates, SpanOf, SelectPeriod, SelectYearToDate, IsPeriod;
    if SelectPeriod(years, 0, selected).Some? {
      SelectedPeriod(years, 0, selected);
    } else {
      SelectedYearToDate(years, 0, selected);
    }
  }

  lemma ToDateStep(span: Span, month: nat)
    requires 2 <= month <= 11
    ensures |YearToDates(span)| == 10
    ensures YearToDates(span)[month - 2..] == [YearToDate(span, month)] + YearToDates(span)[month - 1..]
  {
    hide ThroughMonth;
  }

  lemma PeriodsAt(span: Span, month: nat)
    requires 1 <= month <= 12
    ensures |PeriodsOf(span)| == 13 && PeriodsOf(span)[month].period == MonthOf(span, month)
    ensures PeriodsOf(span)[0] == FiscalPeriod(WholeYear(span), span.start, span.end, 0)
  {
    hide MonthOf;
  }

  method FindToDateInYear(span: Span, periods: seq<FiscalPeriod>, selected: PeriodText) returns (r: Option<FiscalPeriod>)
    requires periods == PeriodsOf(span)
    ensures r == FindPeriod(YearToDates(span), selected)
  {
    hide IsPeriod, PeriodsOf, YearToDates, MonthOf;
    ToDateStep(span, 2);
    assert YearToDates(span)[0..] == YearToDates(span);
    for endingMonth := 2 to 12
      invariant FindPeriod(YearToDates(span), selected) == FindPeriod(YearToDates(span)[endingMonth - 2..], selected)
    {
      ToDateStep(span, endingMonth);
      PeriodsAt(span, endingMonth);
      var candidate := FiscalPeriod(Period(span.start, periods[endingMonth].period.endDate), span.start, span.end, endingMonth);
      assert candidate == YearToDate(span, endingMonth);
      if IsPeriod(candidate.period, selected) {
        return Some(candidate);
      }
    }
    return None;
  }

  // selectIncomeStatementPeriod as a search through years and ending months.
  method ChooseIncomePeriod(startMonth: int, years: seq<FiscalYear>, selected: PeriodText) returns (r: Option<Selection>)
    requires GoodYears(years, startMonth)
    ensures r == SelectIncomePeriod(years, selected)
  {
    hide FindPeriod, PeriodsOf, SpanOf, ParseFiscalYear, GoodOpening, Follows, YearToDates, SelectPeriod;
    r := ChoosePeriod(startMonth, years, selected);
    if r.Some? {
      return;
    }
    for index := 0 to |years|
      invariant SelectYearToDate(years, 0, selected) == SelectYearToDate(years, index, selected)
    {
      var periods := FiscalPeriods(years[index], startMonth);
      if periods.None? {
        assert false;
        return None;
      }
      var found := FindToDateInYear(SpanOf(years[index]), periods.value, selected);
      if found.Some? {
        return Some(Selection(found.value, index));
      }
    }
    return None;
  }

  // ------------------------------------------------------------- net movements

  function NetOf(d: Totals, c: Totals): Totals {
    map k | k in d.Keys + c.Keys :: Plus(Get(d, k), Get(c, k))
  }

  // netMovements
  method NetMovements(debits: Totals, credits: Totals) returns (r: Totals)
    ensures r == NetOf(debits, credits)
  {
    hide Plus;
    r := debits;
    var todo := credits.Keys;
    forall k
      ensures Plus(Get(debits, k), Unset) == Get(debits, k)
    {
      PlusUnset(Get(debits, k));
    }
    while todo != {}
      invariant todo <= credits.Keys
      invariant r.Keys == debits.Keys + (credits.Keys - todo)
      invariant forall k | k in r :: r[k] == if k in todo then debits[k] else Plus(Get(debits, k), Get(credits, k))
    {
      var key :| key in todo;
      r := r[key := Plus(Get(r, key), credits[key])];
      todo := todo - {key};
    }
  }

  // Debit and credit turnover together are the movement itself.
  lemma NetIsTally(items: seq<Contribution>)
    ensures NetOf(Tally(Debits(items)), Tally(Credits(items))) == Tally(items)
  {
    hide Plus, Tally, Debits, Credits, ItemSum;
    var d, c, m := Tally(Debits(items)), Tally(Credits(items)), Tally(items);
    forall k: AmountKey
      ensures k in m <==> k in d || k in c
      ensures Plus(Get(d, k), Get(c, k)) == Get(m, k)
    {
      KeyHasSum(Debits(items), k);
      KeyHasSum(Credits(items), k);
      KeyHasSum(items, k);
      DebitCreditSum(items, iset{k});
      SetIff(ItemSum(Debits(items), iset{k}), ItemSum(Credits(items), iset{k}));
    }
    SameTotals(NetOf(d, c), m);
  }

  // ----------------------------------------------------------------- net income

  // The printed totals of the groups in C, read back and added.
  function GroupsBalance(groups: seq<StatementGroup>, C: set<Category>): Accumulator {
    if groups == [] then Unset
    else
      var last, before := groups[|groups| - 1], GroupsBalance(groups[..|groups| - 1], C);
      if last.category in C then Plus(before, ParseBalance(last.total)) else before
  }

  // categoryBalance over revenue and expense
  method CategoryBalance(section: StatementSection, categories: seq<Category>) returns (r: Result<Balance, ReportError>)
    requires forall i, j | 0 <= i < j < |categories| :: categories[i] != categories[j]
    ensures r == FormatBalance(GroupsBalance(section.groups, set x | x in categories))
  {
    hide Plus, ParseBalance, FormatBalance;
    var total: Accumulator := Unset;
    var groups := section.groups;
    ghost var C := set x | x in categories;
    assert groups[..0] == [];
    for i := 0 to |groups|
      invariant total == GroupsBalance(groups[..i], C)
    {
      ghost var before := total;
      var group := groups[i];
      assert groups[..i + 1][..i] == groups[..i];
      for j := 0 to |categories|
        invariant total ==
          if group.category in categories[..j] then Plus(before, ParseBalance(group.total)) else before
      {
        assert categories[..j + 1] == categories[..j] + [categories[j]];
        if group.category == categories[j] {
          total := Plus(total, ParseBalance(group.total));
        }
      }
      assert categories[..|categories|] == categories;
    }
    assert groups[..|groups|] == groups;
    return FormatBalance(total);
  }

  lemma {:induction false} NetIncomeStep(commodity: string, m: Totals, n: nat, C: set<Category>)
    requires n <= 6 && forall i | 0 <= i < n :: StatementGroupFits(DirectSums(commodity, CategoryOrder[i], m))
    ensures Norm(GroupsBalance(StatementGroups(commodity, m, n), C)) ==
            Norm(TotalSum(m, UpTo(commodity, n) * InCategories(commodity, C)))
  {
    hide Plus, TotalSum, Norm, ParseBalance, BalanceText, DirectSums, StatementGroupFits, StatementGroupOf, UpTo, InCategories, StatementGroups, GroupsBalance, SumOver;
    if n == 0 {
      StatementBase(commodity, m);
      assert UpTo(commodity, 0) == iset{} by { NothingUpTo(commodity); }
      assert UpTo(commodity, 0) * InCategories(commodity, C) == UpTo(commodity, 0);
      NoGroupsBalance(C);
    } else {
      NetIncomeStep(commodity, m, n - 1, C);
      NetIncomeGroup(commodity, m, n - 1, C, GroupsBalance(StatementGroups(commodity, m, n - 1), C));
      StatementGroupStep(commodity, n - 1, m);
      var direct := DirectSums(commodity, CategoryOrder[n - 1], m);
      if direct != map[] {
        GroupsBalanceStep(StatementGroups(commodity, m, n - 1), StatementGroupOf(commodity, CategoryOrder[n - 1], direct), C);
      }
    }
  }

  lemma NoGroupsBalance(C: set<Category>)
    ensures GroupsBalance([], C) == Unset
  {
  }

  lemma NothingUpTo(commodity: string)
    ensures UpTo(commodity, 0) == iset{}
  {
  }

  lemma GroupsBalanceStep(groups: seq<StatementGroup>, g: StatementGroup, C: set<Category>)
    ensures GroupsBalance(groups + [g], C) ==
            if g.category in C then Plus(GroupsBalance(groups, C), ParseBalance(g.total)) else GroupsBalance(groups, C)
  {
    hide Plus, ParseBalance;
    assert (groups + [g])[..|groups|] == groups;
  }

  lemma UpToWithin(commodity: string, n: nat, C: set<Category>)
    requires n < 6
    ensures var cell := Cell(commodity, CategoryOrder[n], AnyAccount());
            var here, next := UpTo(commodity, n) * InCategories(commodity, C), UpTo(commodity, n + 1) * InCategories(commodity, C);
            && next == (if CategoryOrder[n] in C then here + cell else here)
            && here !! cell
  {
    hide UpTo;
    UpToStep(commodity, n);
  }

  lemma NetIncomeGroup(commodity: string, m: Totals, n: nat, C: set<Category>, sum: Accumulator)
    requires n < 6 && StatementGroupFits(DirectSums(commodity, CategoryOrder[n], m))
    requires Norm(sum) == Norm(TotalSum(m, UpTo(commodity, n) * InCategories(commodity, C)))
    ensures var direct := DirectSums(commodity, CategoryOrder[n], m);
            var group := StatementGroupOf(commodity, CategoryOrder[n], direct);
            var next := UpTo(commodity, n + 1) * InCategories(commodity, C);
            && group.category == CategoryOrder[n]
            && (direct == map[] || CategoryOrder[n] !in C ==> Norm(sum) == Norm(TotalSum(m, next)))
            && (CategoryOrder[n] in C ==> Norm(Plus(sum, ParseBalance(group.total))) == Norm(TotalSum(m, next)))
  {
    hide Plus, SumOver, TotalSum, DirectSums, UpTo, Cell, Norm, Fits, BalanceText, ParseBalance, InCategories, StatementRowsOf, StatementGroupFits;
    var direct := DirectSums(commodity, CategoryOrder[n], m);
    var total := SumOver(direct, direct.Keys);
    var before := TotalSum(m, UpTo(commodity, n) * InCategories(commodity, C));
    WholeCell(commodity, CategoryOrder[n], m);
    UpToWithin(commodity, n, C);
    StatementGroupTotal(commodity, CategoryOrder[n], direct);
    ReparseBalance(total);
    NormPlus(sum, Norm(total));
    NormTwice(total);
    NormPlus(before, total);
    TotalSumSplit(m, UpTo(commodity, n) * InCategories(commodity, C), Cell(commodity, CategoryOrder[n], AnyAccount()));
    if direct == map[] {
      assert direct.Keys == {};
      EmptySum(direct);
      PlusUnset(before);
    }
  }

  // Net income read off the printed group totals is the exact sum of all
  // revenue and expense contributions.
  lemma NetIncomeIsExact(commodity: string, m: Totals)
    requires StatementFits(commodity, m)
    ensures Norm(GroupsBalance(StatementGroups(commodity, m, 6), EarningCategories)) == Norm(Earnings(m, commodity))
  {
    hide Plus, TotalSum, Norm, StatementGroups, StatementGroupFits, DirectSums, UpTo, GroupsBalance;
    NetIncomeStep(commodity, m, 6, EarningCategories);
    UpToAll(commodity);
    assert OfCommodity(commodity) * InCategories(commodity, EarningCategories) == InCategories(commodity, EarningCategories);
  }

  // ------------------------------------------------------- the income statement

  ghost function IncomeCommodityOf(commodity: string, m: Totals): IncomeCommodity {
    IncomeCommodity(StatementOf(commodity, m).section, BalanceText(Earnings(m, commodity)))
  }

  ghost function IncomeCommodities(names: seq<string>, m: Totals): seq<IncomeCommodity> {
    if names == [] then []
    else IncomeCommodities(names[..|names| - 1], m) + [IncomeCommodityOf(names[|names| - 1], m)]
  }

  ghost predicate IncomeFits(m: Totals) {
    AllStatementsFit(m) && forall c | c in CommoditiesIn(m) :: Fits(Earnings(m, c))
  }

  ghost function IncomeReport(revision: int, period: FiscalPeriod, m: Totals): IncomeStatement {
    var statements := StatementsOf(m);
    IncomeStatement(revision, period, statements.complete, statements.warnings, IncomeCommodities(CommoditiesIn(m), m))
  }

  // What an income statement covers: revenue, expense and unclassified
  // movements of the period.
  function IncomeTotals(years: seq<FiscalYear>, s: Selection, entries: seq<Entry>, cs: seq<Classification>): Totals
    requires s.index < |years| && AllEntriesValid(entries)
  {
    FilterTotals(Tally(PeriodItems(years, s, entries, cs)), IncomeCategories)
  }

  ghost function IncomeStatementFor(config: Configuration, entries: seq<Entry>, selected: PeriodText)
      : Result<IncomeStatement, ReportError>
  {
    if !ValidConfiguration(config) then Err(BadConfiguration)
    else
      var years, cs := SortYears(config.fiscalYears), SortClassifications(config.classifications);
      var choice := SelectIncomePeriod(years, selected);
      if choice.None? then Err(InvalidPeriod)
      else if !GoodEntries(entries) then Err(InvalidEntries)
      else
        SelectedIncomePeriod(years, selected);
        GoodAreValid(entries);
        var m := IncomeTotals(years, choice.value, entries, cs);
        if IncomeFits(m) then Ok(IncomeReport(config.revision, choice.value.period, m)) else Err(AmountOverflow)
  }

  // The loop over the sections that adds the net income of each.
  method AddNetIncome(m: Totals, sections: seq<StatementSection>, ghost names: seq<string>)
      returns (r: Result<seq<IncomeCommodity>, ReportError>)
    requires names == CommoditiesIn(m) && sections == StatementSections(names, m) && AllStatementsFit(m)
    ensures r.Ok? <==> forall c | c in names :: Fits(Earnings(m, c))
    ensures r.Ok? ==> r.value == IncomeCommodities(names, m)
    ensures r.Err? ==> r.error == AmountOverflow
  {
    hide StatementOf, StatementFits, Earnings, Fits, CommoditiesIn, StatementSections, BalanceText;
    var commodities: seq<IncomeCommodity> := [];
    assert names[..0] == [];
    SectionCount(names, m);
    for i := 0 to |sections|
      invariant commodities == IncomeCommodities(names[..i], m)
      invariant forall j | 0 <= j < i :: Fits(Earnings(m, names[j]))
    {
      assert names[..i + 1][..i] == names[..i];
      SectionAt(names, m, i);
      NetIncomeText(names[i], m);
      var netIncome := CategoryBalance(sections[i], [Revenue, Expense]);
      assert (set x | x in [Revenue, Expense]) == EarningCategories;
      if netIncome.Err? {
        assert names[i] in names;
        return Err(AmountOverflow);
      }
      commodities := commodities + [IncomeCommodity(sections[i], netIncome.value)];
    }
    assert names[..|names|] == names;
    return Ok(commodities);
  }

  lemma SectionCount(names: seq<string>, m: Totals)
    ensures |StatementSections(names, m)| == |names|
  {
    hide StatementOf;
    if names != [] {
      SectionAt(names, m, 0);
    }
  }

  lemma NetIncomeText(commodity: string, m: Totals)
    requires StatementFits(commodity, m)
    ensures FormatBalance(GroupsBalance(StatementOf(commodity, m).section.groups, EarningCategories)) ==
            if Fits(Earnings(m, commodity)) then Ok(BalanceText(Earnings(m, commodity))) else Err(AmountOverflow)
  {
    hide Earnings, GroupsBalance, Norm, BalanceText, Fits, StatementGroups, StatementFits, TotalSum;
    NetIncomeIsExact(commodity, m);
    NormText(GroupsBalance(StatementGroups(commodity, m, 6), EarningCategories));
    NormText(Earnings(m, commodity));
  }

  // BuildIncomeStatement
  method BuildIncomeStatement(config: Configuration, entries: seq<Entry>, selected: PeriodText)
      returns (r: Result<IncomeStatement, ReportError>)
    ensures r == IncomeStatementFor(config, entries, selected)
  {
    hide ValidConfiguration, GoodYears, SortYears, SortClassifications, SelectIncomePeriod, GoodEntries, AllEntriesValid, StatementsOf, AllStatementsFit, MovementItems, Tally, TextPeriod, Earnings, CommoditiesIn, IncomeCommodities, FilterTotals, NetOf;
    var fault := ValidateConfiguration(config);
    if fault.Some? {
      return Err(BadConfiguration);
    }
    var years, cs := SortYears(config.fiscalYears), SortClassifications(config.classifications);
    ValidYears(config);
    var choice := ChooseIncomePeriod(config.startMonth, years, selected);
    if choice.None? {
      return Err(InvalidPeriod);
    }
    SelectedIncomePeriod(years, selected);
    var s := choice.value;
    var validated := ValidateEntries(entries);
    if validated.None? {
      return Err(InvalidEntries);
    }
    GoodAreValid(entries);
    var debits, credits := CollectMovementsCollected(entries, s.period.period, years[s.index].openingEntryIDs, cs, null);
    var net := NetMovements(debits.sums, credits.sums);
    NetIsTally(PeriodItems(years, s, entries, cs));
    var amounts := FilterAmounts(net, IncomeCategories);
    var statements := AssembleStatements(amounts);
    if statements.Err? {
      return Err(AmountOverflow);
    }
    NamedSections(amounts);
    var commodities := AddNetIncome(amounts, statements.value.sections, CommoditiesIn(amounts));
    if commodities.Err? {
      return Err(AmountOverflow);
    }
    return Ok(IncomeStatement(config.revision, s.period, statements.value.complete, statements.value.warnings,
                              commodities.value));
  }

  lemma NamedSections(m: Totals)
    ensures StatementsOf(m).sections == StatementSections(CommoditiesIn(m), m)
  {
  }
}
