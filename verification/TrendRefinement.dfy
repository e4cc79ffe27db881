// The trend against the trial balances built independently for each month.
module TrendRefinement {
  import opened Results
  import opened Accumulators
  import opened Accounts
  import opened Configurations
  import opened Movements
  import opened CarryForward
  import opened Bookkeeping
  import opened Rows
  import opened TrialBalances
  import opened Sections
  import opened StatementRows
  import opened Reports
  import opened Targets
  import opened Incomes
  import opened Selections
  import opened Trends

  // Movements through month m are those before the month and those of it.
  lemma ThroughSplit(years: seq<FiscalYear>, index: nat, m: nat, entries: seq<Entry>, cs: seq<Classification>, K: iset<AmountKey>)
    requires index < |years| && AllEntriesValid(entries) && GoodSpan(SpanOf(years[index])) && 1 <= m <= 12
    ensures ItemSum(MovementItems(entries, ThroughMonth(SpanOf(years[index]), m), years[index].openingEntryIDs, cs, MovementRole), K)
         == Plus(ItemSum(EarlierItems(MonthSelection(years, index, m), years[index], entries, cs), K),
                 ItemSum(PeriodItems(years, MonthSelection(years, index, m), entries, cs), K))
  {
    hide Plus, AllEntriesValid, MovementItems, ItemSum, GoodSpan, ThroughMonth, MonthOf, EarlierItems, MonthSelection, SpanOf;
    var span, ids := SpanOf(years[index]), years[index].openingEntryIDs;
    EarlierIs(years, index, m, entries, cs);
    SelectionIs(years, index, m);
    var month := MovementItems(entries, MonthOf(span, m), ids, cs, MovementRole);
    if m == 1 {
      FirstMonthThrough(span);
      EmptyItemSum(K);
      PlusUnset(ItemSum(month, K));
    } else {
      ThroughCuts(span, m - 1);
      var before := MovementItems(entries, ThroughMonth(span, m - 1), ids, cs, MovementRole);
      MovementsStitch(entries, ThroughMonth(span, m), ThroughMonth(span, m - 1), MonthOf(span, m), ids, cs, MovementRole);
      ItemSumUnion(MovementItems(entries, ThroughMonth(span, m), ids, cs, MovementRole), before, month, K);
      RoleIrrelevant(entries, ThroughMonth(span, m - 1), ids, cs, MovementRole, OpeningRole);
      SameValuesSameSum(before, MovementItems(entries, ThroughMonth(span, m - 1), ids, cs, OpeningRole), K);
    }
  }

  ghost function MonthRow(
    years: seq<FiscalYear>, index: nat, m: nat, entries: seq<Entry>, cs: seq<Classification>, K: iset<AmountKey>): RowSums
    requires index < |years| && AllEntriesValid(entries) && m <= 12
  {
    ItemRow(OpeningItems(years, MonthSelection(years, index, m), entries, cs),
            PeriodItems(years, MonthSelection(years, index, m), entries, cs), K)
  }

  // For any choice of accounts, the single pass arrives at the closing column
  // of the month's own trial balance.
  lemma TrendIsClosing(years: seq<FiscalYear>, index: nat, m: nat, entries: seq<Entry>, cs: seq<Classification>, K: iset<AmountKey>)
    requires index < |years| && AllEntriesValid(entries) && GoodSpan(SpanOf(years[index])) && 1 <= m <= 12
    ensures TotalSum(TrendTotals(years, index, m, entries, cs), K) == MonthRow(years, index, m, entries, cs, K).closing
  {
    hide Plus, AllEntriesValid, MovementItems, ItemSum, GoodSpan, ThroughMonth, EarlierItems, MonthSelection, SpanOf, Carried, Debits, Credits, TotalSum, Tally, PeriodItems;
    var s, carried := MonthSelection(years, index, m), Carried(years, index, entries, cs);
    SelectionIs(years, index, m);
    var through := MovementItems(entries, ThroughMonth(SpanOf(years[index]), m), years[index].openingEntryIDs, cs, MovementRole);
    var earlier, movement := EarlierItems(s, years[index], entries, cs), PeriodItems(years, s, entries, cs);
    TallySum(carried + through, K);
    ItemSumAppend(carried, through, K);
    ThroughSplit(years, index, m, entries, cs, K);
    ItemSumAppend(carried, earlier, K);
    DebitCreditSum(movement, K);
    Regroup(ItemSum(carried, K), ItemSum(earlier, K), ItemSum(Debits(movement), K), ItemSum(Credits(movement), K));
  }

  lemma ClosingHasKey(opening: seq<Contribution>, movement: seq<Contribution>, k: AmountKey)
    ensures ItemRow(opening, movement, iset{k}).closing.Sum? <==>
            k in Tally(opening) || k in Tally(Debits(movement)) || k in Tally(Credits(movement))
  {
    hide Plus, ItemSum, Tally, Debits, Credits;
    var o, d, c := ItemSum(opening, iset{k}), ItemSum(Debits(movement), iset{k}), ItemSum(Credits(movement), iset{k});
    KeyHasSum(opening, k);
    KeyHasSum(Debits(movement), k);
    KeyHasSum(Credits(movement), k);
    SetIff(o, d);
    SetIff(Plus(o, d), c);
  }

  // What a month's trial balance lists, the trend point has a total for.
  lemma KeyInTrend(years: seq<FiscalYear>, index: nat, m: nat, entries: seq<Entry>, cs: seq<Classification>, k: AmountKey)
    requires index < |years| && AllEntriesValid(entries) && GoodSpan(SpanOf(years[index])) && 1 <= m <= 12
    ensures var s := MonthSelection(years, index, m);
            var movement := PeriodItems(years, s, entries, cs);
            k in Tally(OpeningItems(years, s, entries, cs)) || k in Tally(Debits(movement)) || k in Tally(Credits(movement)) <==>
            k in TrendTotals(years, index, m, entries, cs)
  {
    hide AllEntriesValid, ItemSum, GoodSpan, MonthSelection, SpanOf, OpeningItems, Debits, Credits, TotalSum, Tally, PeriodItems, ItemRow, TrendItems;
    SelectionIs(years, index, m);
    var s := MonthSelection(years, index, m);
    TrendIsClosing(years, index, m, entries, cs, iset{k});
    ClosingHasKey(OpeningItems(years, s, entries, cs), PeriodItems(years, s, entries, cs), k);
    TallySum(TrendItems(years, index, m, entries, cs), iset{k});
    KeyHasSum(TrendItems(years, index, m, entries, cs), k);
  }

  lemma MoreNames(a: set<string>, b: set<string>, name: string)
    requires a <= b && name in Names(a)
    ensures name in Names(b)
  {
  }

  // Direct and rolled-up balances of a point as sums over accounts.
  lemma RolledIsCell(commodity: string, category: Category, m: Totals, name: string)
    ensures var direct := DirectSums(commodity, category, m);
            && Rolled(direct, name) == TotalSum(m, Cell(commodity, category, Subtree(name)))
            && Get(direct, name) == TotalSum(m, Cell(commodity, category, Just(name)))
  {
    hide SumOver, TotalSum, DirectSums, Under, Cell, Just;
    var direct := DirectSums(commodity, category, m);
    DirectSumsTotal(commodity, category, m, Subtree(name));
    assert Below(direct.Keys, name) == set a | a in direct && a in Subtree(name);
    DirectSumsTotal(commodity, category, m, Just(name));
    OneSum(direct, name);
  }

  lemma OneSum(direct: AccountSums, name: string)
    ensures SumOver(direct, set a | a in direct && a in Just(name)) == Get(direct, name)
  {
    hide SumOver, Plus;
    var S := set a | a in direct && a in Just(name);
    if name in direct {
      assert S == {name};
      SumOverSingle(direct, name);
    } else {
      assert S == {};
      EmptySum(direct);
    }
  }

  lemma KeysKept(ms: seq<Totals>, i: nat, k: AmountKey)
    requires i < |ms| && k in ms[i]
    ensures k in PointTotals(ms, i)
  {
    hide KeysOf;
  }

  lemma PostedInPoint(
    years: seq<FiscalYear>, index: nat, m: nat, entries: seq<Entry>, cs: seq<Classification>, commodity: string, category: Category)
    requires index < |years| && AllEntriesValid(entries) && GoodSpan(SpanOf(years[index])) && 1 <= m <= 12
    ensures var s := MonthSelection(years, index, m);
            var movement := PeriodItems(years, s, entries, cs);
            var direct := DirectRows(commodity, category, Tally(OpeningItems(years, s, entries, cs)), Tally(Debits(movement)),
                                     Tally(Credits(movement)));
            direct.Keys <= DirectSums(commodity, category, PointTotals(TrendMonths(years, index, entries, cs), m - 1)).Keys
  {
    hide AllEntriesValid, GoodSpan, MonthSelection, SpanOf, OpeningItems, Debits, Credits, Tally, PeriodItems, TrendTotals, PointTotals, Get, RowOf;
    SelectionIs(years, index, m);
    var s, ms := MonthSelection(years, index, m), TrendMonths(years, index, entries, cs);
    var o := Tally(OpeningItems(years, s, entries, cs));
    var d, c := Tally(Debits(PeriodItems(years, s, entries, cs))), Tally(Credits(PeriodItems(years, s, entries, cs)));
    forall a | a in Posted(commodity, category, o, d, c)
      ensures a in AccountsIn(commodity, category, PointTotals(ms, m - 1))
    {
      var k :| k in o.Keys + d.Keys + c.Keys && k.commodity == commodity && k.category == category && k.account == a;
      KeyInTrend(years, index, m, entries, cs, k);
      KeysKept(ms, m - 1, k);
    }
  }

  lemma PointFigure(years: seq<FiscalYear>, index: nat, m: nat, entries: seq<Entry>, cs: seq<Classification>, K: iset<AmountKey>)
    requires index < |years| && AllEntriesValid(entries) && GoodSpan(SpanOf(years[index])) && 1 <= m <= 12
    ensures TotalSum(PointTotals(TrendMonths(years, index, entries, cs), m - 1), K) ==
            MonthRow(years, index, m, entries, cs, K).closing
  {
    hide AllEntriesValid, GoodSpan, SpanOf, TrendTotals, TotalSum, MonthRow, Aligned, KeysOf;
    var ms := TrendMonths(years, index, entries, cs);
    AlignedSum(ms[m - 1], KeysOf(ms), K);
    TrendIsClosing(years, index, m, entries, cs, K);
  }

  // Figure by figure, in the totals behind the two reports.
  lemma TargetsAgree(years: seq<FiscalYear>, index: nat, m: nat, entries: seq<Entry>, cs: seq<Classification>, q: Query)
    requires index < |years| && AllEntriesValid(entries) && GoodSpan(SpanOf(years[index])) && 1 <= m <= 12
    ensures var s := MonthSelection(years, index, m);
            var movement := PeriodItems(years, s, entries, cs);
            var target := TrialTarget(Tally(OpeningItems(years, s, entries, cs)), Tally(Debits(movement)),
                                      Tally(Credits(movement)), q);
            var shown := SectionTarget(PointTotals(TrendMonths(years, index, entries, cs), m - 1), q);
            && (target.Some? ==> shown == Some(target.value.closing))
            && (target.None? ==> shown == None || shown == Some(Balance("0", "0")))
  {
    hide AllEntriesValid, GoodSpan, MonthSelection, SpanOf, OpeningItems, Debits, Credits, Tally, PeriodItems, TrendMonths, PointTotals, Get, GetRow, Subtotal, Rolled, DirectRows, DirectSums, Names, TotalSum, ItemRow, Cell, Just, Subtree, BalanceText, AbsoluteText;
    SelectionIs(years, index, m);
    var s := MonthSelection(years, index, m);
    var opening, movement := OpeningItems(years, s, entries, cs), PeriodItems(years, s, entries, cs);
    var point := PointTotals(TrendMonths(years, index, entries, cs), m - 1);
    var direct := DirectRows(q.commodity, q.category, Tally(opening), Tally(Debits(movement)), Tally(Credits(movement)));
    var sums := DirectSums(q.commodity, q.category, point);
    RollUp(q.commodity, q.category, opening, movement, q.account);
    RolledIsCell(q.commodity, q.category, point, q.account);
    PointFigure(years, index, m, entries, cs, Cell(q.commodity, q.category, Subtree(q.account)));
    PointFigure(years, index, m, entries, cs, Cell(q.commodity, q.category, Just(q.account)));
    if q.account in Names(direct.Keys) {
      PostedInPoint(years, index, m, entries, cs, q.commodity, q.category);
      MoreNames(direct.Keys, sums.Keys, q.account);
    } else {
      AbsentRow(direct, q.account);
      NothingText();
    }
  }

  lemma NothingText()
    ensures BalanceText(Unset) == Balance("0", "0")
  {
  }

  // ------------------------------------------------------------ on the reports

  lemma TrendIs(config: Configuration, entries: seq<Entry>, index: nat, trend: BalanceTrend)
    requires ValidConfiguration(config) && index < |SortYears(config.fiscalYears)|
    requires YearTrend(config, entries, index, trend)
    ensures AllEntriesValid(entries) && GoodEntries(entries) && GoodSpan(SpanOf(SortYears(config.fiscalYears)[index]))
    ensures var years, cs := SortYears(config.fiscalYears), SortClassifications(config.classifications);
            trend == TrendOf(config.revision, SpanOf(years[index]), TrendMonths(years, index, entries, cs))
  {
    hide ValidConfiguration, SortYears, SortClassifications, SelectPeriod, GoodEntries, AllEntriesValid, OpeningExists, Tally, TrendMonths, PointsFit, TrendOf, SpanOf, TextOf, TextPeriod, GoodSpan, SelectIncomePeriod, BalancedTotals, PeriodsOf;
    var years := SortYears(config.fiscalYears);
    PeriodSelectable(config, index, 0);
    YearIsGood(config, index);
    WholeIs(years, index);
    SelectedPeriod(years, 0, TextOf(YearPeriod(years[index])));
    GoodAreValid(entries);
  }

  lemma WholeIs(years: seq<FiscalYear>, index: nat)
    requires index < |years|
    ensures MonthSelection(years, index, 0).period.period == YearPeriod(years[index])
    ensures MonthSelection(years, index, 0).index == index
  {
    hide MonthOf, SpanOf;
  }

  ghost predicate YearTrend(config: Configuration, entries: seq<Entry>, index: nat, trend: BalanceTrend)
    requires index < |SortYears(config.fiscalYears)|
  {
    var p := YearPeriod(SortYears(config.fiscalYears)[index]);
    TextPeriod(p) && BalanceTrendFor(config, entries, TextOf(p)) == Ok(trend)
  }

  ghost predicate MonthTrial(config: Configuration, entries: seq<Entry>, index: nat, m: nat, report: TrialBalance)
    requires index < |SortYears(config.fiscalYears)|
  {
    var p := MonthOf(SpanOf(SortYears(config.fiscalYears)[index]), m);
    TextPeriod(p) && TrialBalanceFor(config, entries, TextOf(p)) == Ok(report)
  }

  lemma TrialIs(config: Configuration, entries: seq<Entry>, index: nat, m: nat, report: TrialBalance)
    requires ValidConfiguration(config) && index < |SortYears(config.fiscalYears)| && AllEntriesValid(entries) && 1 <= m <= 12
    requires MonthTrial(config, entries, index, m, report)
    ensures var years, cs := SortYears(config.fiscalYears), SortClassifications(config.classifications);
            var s := MonthSelection(years, index, m);
            report == ReportOn(config.revision, s.period, OpeningItems(years, s, entries, cs), PeriodItems(years, s, entries, cs))
  {
    hide ValidConfiguration, SortYears, SortClassifications, SelectPeriod, GoodEntries, AllEntriesValid, OpeningExists, ReportOn, ReportOnFits, OpeningItems, PeriodItems, SpanOf, TextOf, TextPeriod, SelectIncomePeriod, MonthSelection, PeriodsOf, MonthOf;
    var years := SortYears(config.fiscalYears);
    PeriodSelectable(config, index, m);
    SelectionIs(years, index, m);
    SelectedPeriod(years, 0, TextOf(MonthOf(SpanOf(years[index]), m)));
  }

  // Every balance a month's trial balance closes with is printed, character by
  // character, at the same account of the trend's point for that month.
  lemma TrendShowsClosing(
    config: Configuration, entries: seq<Entry>, index: nat, m: nat, trend: BalanceTrend, report: TrialBalance, q: Query,
    value: Amounts)
    requires ValidConfiguration(config) && index < |SortYears(config.fiscalYears)| && 1 <= m <= 12
    requires YearTrend(config, entries, index, trend) && MonthTrial(config, entries, index, m, report)
    requires Answers(report.commodities, q, value)
    ensures |trend.points| == 12 && Shows(trend.points[m - 1].commodities, q, value.closing)
  {
    hide ValidConfiguration, SortYears, SortClassifications, AllEntriesValid, GoodEntries, GoodSpan, SpanOf, OpeningItems, PeriodItems, SectionsOf, CommodityNames, AnswersAt, ShowsAt, YearTrend, MonthTrial, MonthSelection, Tally, Debits, Credits, TrendMonths, SectionTarget, TrialTarget, PointTotals, PointsOf, StatementSections, CommoditiesIn, StatementsWarnings, StatementsComplete, PeriodsOf, DatedWarnings, AllComplete, SectionWarnings;
    TrendIs(config, entries, index, trend);
    TrialIs(config, entries, index, m, report);
    var years, cs := SortYears(config.fiscalYears), SortClassifications(config.classifications);
    var s, ms := MonthSelection(years, index, m), TrendMonths(years, index, entries, cs);
    var opening, movement := OpeningItems(years, s, entries, cs), PeriodItems(years, s, entries, cs);
    var i, j, k :| AnswersAt(report.commodities, q, i, j, k, value);
    AnswerIsTarget(Tally(opening), Tally(Debits(movement)), Tally(Credits(movement)), q, i, j, k, value);
    TargetsAgree(years, index, m, entries, cs, q);
    PointCount(SpanOf(years[index]), ms, 12);
    TargetIsShown(PointTotals(ms, m - 1), q);
  }

  // And conversely: a balance the trend's point prints is the closing balance
  // of that account in the month's trial balance, or the account is not listed
  // there and the trend shows it, for the sake of alignment, with nothing.
  lemma TrendRowsAreClosing(
    config: Configuration, entries: seq<Entry>, index: nat, m: nat, trend: BalanceTrend, report: TrialBalance, q: Query,
    balance: Balance)
    requires ValidConfiguration(config) && index < |SortYears(config.fiscalYears)| && 1 <= m <= 12
    requires YearTrend(config, entries, index, trend) && MonthTrial(config, entries, index, m, report)
    requires m <= |trend.points| && Shows(trend.points[m - 1].commodities, q, balance)
    ensures ClosesWith(report.commodities, q, balance)
         || (balance == Balance("0", "0") && forall value :: !Answers(report.commodities, q, value))
  {
    hide ValidConfiguration, SortYears, SortClassifications, AllEntriesValid, GoodEntries, GoodSpan, SpanOf, OpeningItems, PeriodItems, SectionsOf, CommodityNames, AnswersAt, ShowsAt, YearTrend, MonthTrial, MonthSelection, Tally, Debits, Credits, TrendMonths, SectionTarget, TrialTarget, PointTotals, PointsOf, StatementSections, CommoditiesIn, StatementsWarnings, StatementsComplete, PeriodsOf, DatedWarnings, AllComplete, SectionWarnings;
    TrendIs(config, entries, index, trend);
    TrialIs(config, entries, index, m, report);
    var years, cs := SortYears(config.fiscalYears), SortClassifications(config.classifications);
    var s, ms := MonthSelection(years, index, m), TrendMonths(years, index, entries, cs);
    var opening, movement := OpeningItems(years, s, entries, cs), PeriodItems(years, s, entries, cs);
    var o, d, c := Tally(opening), Tally(Debits(movement)), Tally(Credits(movement));
    PointCount(SpanOf(years[index]), ms, 12);
    var i, j, k :| ShowsAt(trend.points[m - 1].commodities, q, i, j, k, balance);
    ShownIsTarget(PointTotals(ms, m - 1), q, i, j, k, balance);
    TargetsAgree(years, index, m, entries, cs, q);
    if TrialTarget(o, d, c, q).Some? {
      TargetIsAnswered(o, d, c, q);
      assert Answers(report.commodities, q, TrialTarget(o, d, c, q).value);
    } else {
      forall value
        ensures !Answers(report.commodities, q, value)
      {
        if Answers(report.commodities, q, value) {
          var i, j, k :| AnswersAt(report.commodities, q, i, j, k, value);
          AnswerIsTarget(o, d, c, q, i, j, k, value);
        }
      }
    }
  }

  ghost predicate ClosesWith(sections: seq<CommoditySection>, q: Query, closing: Balance) {
    exists value :: Answers(sections, q, value) && value.closing == closing
  }
}
