// Consecutive trial balances join without a seam: month after month, and year
// after year on the accounts that are carried forward.
module Stitching {
  import opened Accumulators
  import opened Configurations
  import opened Movements
  import opened CarryForward
  import opened Bookkeeping
  import opened Rows
  import opened TrialBalances
  import opened Sections
  import opened Reports
  import opened Targets
  import opened Selections
  import opened TrendRefinement
  import opened Printed

  // An account listed in one month is listed in the next month's opening.
  lemma KeyCarriesOver(years: seq<FiscalYear>, index: nat, m: nat, entries: seq<Entry>, cs: seq<Classification>, k: AmountKey)
    requires index < |years| && AllEntriesValid(entries) && GoodSpan(SpanOf(years[index])) && 1 <= m <= 11
    ensures var here, next := MonthSelection(years, index, m), MonthSelection(years, index, m + 1);
            var movement := PeriodItems(years, here, entries, cs);
            k in Tally(OpeningItems(years, here, entries, cs)) || k in Tally(Debits(movement)) || k in Tally(Credits(movement)) <==>
            k in Tally(OpeningItems(years, next, entries, cs))
  {
    hide AllEntriesValid, ItemSum, GoodSpan, MonthSelection, SpanOf, OpeningItems, Debits, Credits, Tally, PeriodItems, ItemRow;
    var here, next := MonthSelection(years, index, m), MonthSelection(years, index, m + 1);
    MonthsStitchOpening(years, index, m, entries, cs, iset{k});
    ClosingHasKey(OpeningItems(years, here, entries, cs), PeriodItems(years, here, entries, cs), k);
    KeyHasSum(OpeningItems(years, next, entries, cs), k);
  }

  lemma PostedCarriesOver(
    years: seq<FiscalYear>, index: nat, m: nat, entries: seq<Entry>, cs: seq<Classification>, commodity: string, category: Category)
    requires index < |years| && AllEntriesValid(entries) && GoodSpan(SpanOf(years[index])) && 1 <= m <= 11
    ensures var here, next := MonthSelection(years, index, m), MonthSelection(years, index, m + 1);
            var a, b := PeriodItems(years, here, entries, cs), PeriodItems(years, next, entries, cs);
            Posted(commodity, category, Tally(OpeningItems(years, here, entries, cs)), Tally(Debits(a)), Tally(Credits(a))) <=
            Posted(commodity, category, Tally(OpeningItems(years, next, entries, cs)), Tally(Debits(b)), Tally(Credits(b)))
  {
    hide AllEntriesValid, GoodSpan, MonthSelection, SpanOf, OpeningItems, Debits, Credits, Tally, PeriodItems;
    var here, next := MonthSelection(years, index, m), MonthSelection(years, index, m + 1);
    var o := Tally(OpeningItems(years, here, entries, cs));
    var d, c := Tally(Debits(PeriodItems(years, here, entries, cs))), Tally(Credits(PeriodItems(years, here, entries, cs)));
    forall k | k in o.Keys + d.Keys + c.Keys
      ensures k in Tally(OpeningItems(years, next, entries, cs))
    {
      KeyCarriesOver(years, index, m, entries, cs, k);
    }
  }

  // Figure by figure: what month m closes with, month m + 1 opens with.
  lemma TargetsStitch(years: seq<FiscalYear>, index: nat, m: nat, entries: seq<Entry>, cs: seq<Classification>, q: Query)
    requires index < |years| && AllEntriesValid(entries) && GoodSpan(SpanOf(years[index])) && 1 <= m <= 11
    ensures var here, next := MonthSelection(years, index, m), MonthSelection(years, index, m + 1);
            var a, b := PeriodItems(years, here, entries, cs), PeriodItems(years, next, entries, cs);
            var before := TrialTarget(Tally(OpeningItems(years, here, entries, cs)), Tally(Debits(a)), Tally(Credits(a)), q);
            var after := TrialTarget(Tally(OpeningItems(years, next, entries, cs)), Tally(Debits(b)), Tally(Credits(b)), q);
            before.Some? ==> after.Some? && after.value.opening == before.value.closing
  {
    hide AllEntriesValid, GoodSpan, MonthSelection, SpanOf, OpeningItems, Debits, Credits, Tally, PeriodItems, GetRow, Subtotal, Names, ItemSum, Cell, Just, Subtree, BalanceText, AbsoluteText, RowOf, Posted, Plus;
    var here, next := MonthSelection(years, index, m), MonthSelection(years, index, m + 1);
    var o, p := OpeningItems(years, here, entries, cs), OpeningItems(years, next, entries, cs);
    var a, b := PeriodItems(years, here, entries, cs), PeriodItems(years, next, entries, cs);
    var direct := DirectRows(q.commodity, q.category, Tally(o), Tally(Debits(a)), Tally(Credits(a)));
    var later := DirectRows(q.commodity, q.category, Tally(p), Tally(Debits(b)), Tally(Credits(b)));
    if q.account in Names(direct.Keys) {
      PostedCarriesOver(years, index, m, entries, cs, q.commodity, q.category);
      MoreNames(direct.Keys, later.Keys, q.account);
      RollUp(q.commodity, q.category, o, a, q.account);
      RollUp(q.commodity, q.category, p, b, q.account);
      MonthsStitchOpening(years, index, m, entries, cs, Cell(q.commodity, q.category, Subtree(q.account)));
      MonthsStitchOpening(years, index, m, entries, cs, Cell(q.commodity, q.category, Just(q.account)));
    }
  }

  ghost predicate OpensWith(sections: seq<CommoditySection>, q: Query, opening: Balance) {
    exists value :: Answers(sections, q, value) && value.opening == opening
  }

  // Every balance printed as a month's closing is printed, character by
  // character, as the same account's opening in the next month's report.
  lemma MonthsStitch(
    config: Configuration, entries: seq<Entry>, index: nat, m: nat, report: TrialBalance, next: TrialBalance, q: Query,
    value: Amounts)
    requires ValidConfiguration(config) && index < |SortYears(config.fiscalYears)| && 1 <= m <= 11 && GoodEntries(entries)
    requires MonthTrial(config, entries, index, m, report) && MonthTrial(config, entries, index, m + 1, next)
    requires Answers(report.commodities, q, value)
    ensures OpensWith(next.commodities, q, value.closing)
  {
    hide ValidConfiguration, SortYears, SortClassifications, AllEntriesValid, GoodEntries, GoodSpan, SpanOf, OpeningItems, PeriodItems, SectionsOf, CommodityNames, AnswersAt, MonthTrial, MonthSelection, Tally, Debits, Credits, TrialTarget, AllComplete, SectionWarnings;
    GoodAreValid(entries);
    YearIsGood(config, index);
    TrialIs(config, entries, index, m, report);
    TrialIs(config, entries, index, m + 1, next);
    var years, cs := SortYears(config.fiscalYears), SortClassifications(config.classifications);
    var s, t := MonthSelection(years, index, m), MonthSelection(years, index, m + 1);
    var a, b := PeriodItems(years, s, entries, cs), PeriodItems(years, t, entries, cs);
    var i, j, k :| AnswersAt(report.commodities, q, i, j, k, value);
    AnswerIsTarget(Tally(OpeningItems(years, s, entries, cs)), Tally(Debits(a)), Tally(Credits(a)), q, i, j, k, value);
    TargetsStitch(years, index, m, entries, cs, q);
    TargetIsAnswered(Tally(OpeningItems(years, t, entries, cs)), Tally(Debits(b)), Tally(Credits(b)), q);
    var found := TrialTarget(Tally(OpeningItems(years, t, entries, cs)), Tally(Debits(b)), Tally(Credits(b)), q).value;
    assert Answers(next.commodities, q, found);
  }

  // ------------------------------------------------------- year after year

  lemma WholeYearItems(years: seq<FiscalYear>, index: nat, entries: seq<Entry>, cs: seq<Classification>)
    requires index < |years| && AllEntriesValid(entries)
    ensures OpeningItems(years, MonthSelection(years, index, 0), entries, cs) == Carried(years, index, entries, cs)
    ensures PeriodItems(years, MonthSelection(years, index, 0), entries, cs) ==
            MovementItems(entries, YearPeriod(years[index]), years[index].openingEntryIDs, cs, MovementRole)
  {
    hide AllEntriesValid, Carried, MovementItems, SpanOf, MonthOf;
    WholeIs(years, index);
    assert Carried(years, index, entries, cs) + [] == Carried(years, index, entries, cs);
  }

  // On asset, liability and equity accounts an automatic year opens with what
  // the year before closes with; on all others it opens with nothing.
  lemma YearCarries(
    years: seq<FiscalYear>, index: nat, entries: seq<Entry>, cs: seq<Classification>, K: iset<AmountKey>)
    requires index + 1 < |years| && AllEntriesValid(entries) && years[index + 1].openingMode != OpeningEntries
    ensures (forall k | k in K :: k.category in {Asset, Liability, Equity}) ==>
              ItemSum(OpeningItems(years, MonthSelection(years, index + 1, 0), entries, cs), K) ==
              ItemRow(OpeningItems(years, MonthSelection(years, index, 0), entries, cs),
                      PeriodItems(years, MonthSelection(years, index, 0), entries, cs), K).closing
    ensures (forall k | k in K :: k.category in {Revenue, Expense, Unclassified}) ==>
              ItemSum(OpeningItems(years, MonthSelection(years, index + 1, 0), entries, cs), K) == Unset
  {
    hide AllEntriesValid, MovementItems, SpanOf, MonthSelection, OpeningItems, PeriodItems, Keep, ItemSum, Plus, YearPeriod;
    WholeYearItems(years, index, entries, cs);
    WholeYearItems(years, index + 1, entries, cs);
    var y := years[index];
    var carried, year := Carried(years, index, entries, cs), YearItems(y, entries, cs);
    var movement := MovementItems(entries, YearPeriod(y), y.openingEntryIDs, cs, MovementRole);
    KeepSum(carried + year, IsPermanent, PermanentKeys(), K);
    if forall k | k in K :: k.category in {Asset, Liability, Equity} {
      assert K * PermanentKeys() == K;
      ItemSumAppend(carried, year, K);
      RoleIrrelevant(entries, YearPeriod(y), y.openingEntryIDs, cs, OpeningRole, MovementRole);
      SameValuesSameSum(year, movement, K);
      DebitCreditSum(movement, K);
      PlusAssociates(ItemSum(carried, K), ItemSum(Debits(movement), K), ItemSum(Credits(movement), K));
    }
    if forall k | k in K :: k.category in {Revenue, Expense, Unclassified} {
      assert K * PermanentKeys() == iset{};
      NothingSelected(carried + year);
    }
  }

  lemma NothingSelected(items: seq<Contribution>)
    ensures ItemSum(items, iset{}) == Unset
  {
    ItemSumOutside(items, iset{});
  }

  lemma CarriedKey(years: seq<FiscalYear>, index: nat, entries: seq<Entry>, cs: seq<Classification>, k: AmountKey)
    requires index + 1 < |years| && AllEntriesValid(entries) && years[index + 1].openingMode != OpeningEntries
    requires k.category in {Asset, Liability, Equity}
    ensures var here, next := MonthSelection(years, index, 0), MonthSelection(years, index + 1, 0);
            var movement := PeriodItems(years, here, entries, cs);
            k in Tally(OpeningItems(years, here, entries, cs)) || k in Tally(Debits(movement)) || k in Tally(Credits(movement)) <==>
            k in Tally(OpeningItems(years, next, entries, cs))
  {
    hide AllEntriesValid, ItemSum, MonthSelection, SpanOf, OpeningItems, Debits, Credits, Tally, PeriodItems, ItemRow;
    var here, next := MonthSelection(years, index, 0), MonthSelection(years, index + 1, 0);
    YearCarries(years, index, entries, cs, iset{k});
    ClosingHasKey(OpeningItems(years, here, entries, cs), PeriodItems(years, here, entries, cs), k);
    KeyHasSum(OpeningItems(years, next, entries, cs), k);
  }

  lemma CarriedPosted(
    years: seq<FiscalYear>, index: nat, entries: seq<Entry>, cs: seq<Classification>, commodity: string, category: Category)
    requires index + 1 < |years| && AllEntriesValid(entries) && years[index + 1].openingMode != OpeningEntries
    requires category in {Asset, Liability, Equity}
    ensures var here, next := MonthSelection(years, index, 0), MonthSelection(years, index + 1, 0);
            var a, b := PeriodItems(years, here, entries, cs), PeriodItems(years, next, entries, cs);
            Posted(commodity, category, Tally(OpeningItems(years, here, entries, cs)), Tally(Debits(a)), Tally(Credits(a))) <=
            Posted(commodity, category, Tally(OpeningItems(years, next, entries, cs)), Tally(Debits(b)), Tally(Credits(b)))
  {
    hide AllEntriesValid, MonthSelection, SpanOf, OpeningItems, Debits, Credits, Tally, PeriodItems;
    var here, next := MonthSelection(years, index, 0), MonthSelection(years, index + 1, 0);
    var o := Tally(OpeningItems(years, here, entries, cs));
    var d, c := Tally(Debits(PeriodItems(years, here, entries, cs))), Tally(Credits(PeriodItems(years, here, entries, cs)));
    forall k | k in o.Keys + d.Keys + c.Keys && k.category == category
      ensures k in Tally(OpeningItems(years, next, entries, cs))
    {
      CarriedKey(years, index, entries, cs, k);
    }
  }

  lemma CellCategory(commodity: string, category: Category, A: iset<string>)
    ensures forall k | k in Cell(commodity, category, A) :: k.category == category
  {
  }

  lemma TargetsCarry(years: seq<FiscalYear>, index: nat, entries: seq<Entry>, cs: seq<Classification>, q: Query)
    requires index + 1 < |years| && AllEntriesValid(entries) && years[index + 1].openingMode != OpeningEntries
    ensures var here, next := MonthSelection(years, index, 0), MonthSelection(years, index + 1, 0);
            var a, b := PeriodItems(years, here, entries, cs), PeriodItems(years, next, entries, cs);
            var before := TrialTarget(Tally(OpeningItems(years, here, entries, cs)), Tally(Debits(a)), Tally(Credits(a)), q);
            var after := TrialTarget(Tally(OpeningItems(years, next, entries, cs)), Tally(Debits(b)), Tally(Credits(b)), q);
            && (q.category in {Asset, Liability, Equity} && before.Some? ==>
                  after.Some? && after.value.opening == before.value.closing)
            && (q.category in {Revenue, Expense, Unclassified} && after.Some? ==> after.value.opening == Balance("0", "0"))
  {
    hide AllEntriesValid, MonthSelection, SpanOf, OpeningItems, Debits, Credits, Tally, PeriodItems, GetRow, Subtotal, Names, ItemSum, Cell, Just, Subtree, BalanceText, AbsoluteText, RowOf, Posted, Plus;
    var here, next := MonthSelection(years, index, 0), MonthSelection(years, index + 1, 0);
    var o, p := OpeningItems(years, here, entries, cs), OpeningItems(years, next, entries, cs);
    var a, b := PeriodItems(years, here, entries, cs), PeriodItems(years, next, entries, cs);
    var direct := DirectRows(q.commodity, q.category, Tally(o), Tally(Debits(a)), Tally(Credits(a)));
    var later := DirectRows(q.commodity, q.category, Tally(p), Tally(Debits(b)), Tally(Credits(b)));
    var K, L := Cell(q.commodity, q.category, Subtree(q.account)), Cell(q.commodity, q.category, Just(q.account));
    CellCategory(q.commodity, q.category, Subtree(q.account));
    CellCategory(q.commodity, q.category, Just(q.account));
    YearCarries(years, index, entries, cs, K);
    YearCarries(years, index, entries, cs, L);
    RollUp(q.commodity, q.category, o, a, q.account);
    RollUp(q.commodity, q.category, p, b, q.account);
    if q.category in {Asset, Liability, Equity} && q.account in Names(direct.Keys) {
      CarriedPosted(years, index, entries, cs, q.commodity, q.category);
      MoreNames(direct.Keys, later.Keys, q.account);
    }
    NothingText();
  }

  // Every asset, liability and equity balance printed as a year's closing is
  // printed as the same account's opening of the next year, when that year
  // opens automatically; revenue, expense and unclassified accounts open with
  // nothing.
  lemma YearsStitch(
    config: Configuration, entries: seq<Entry>, index: nat, report: TrialBalance, next: TrialBalance, q: Query, value: Amounts)
    requires ValidConfiguration(config) && index + 1 < |SortYears(config.fiscalYears)|
    requires SortYears(config.fiscalYears)[index + 1].openingMode == Automatic
    requires YearTrial(config, entries, index, report) && YearTrial(config, entries, index + 1, next)
    ensures q.category in {Asset, Liability, Equity} && Answers(report.commodities, q, value) ==>
              OpensWith(next.commodities, q, value.closing)
    ensures q.category in {Revenue, Expense, Unclassified} && Answers(next.commodities, q, value) ==>
              value.opening == Balance("0", "0")
  {
    hide ValidConfiguration, SortYears, SortClassifications, AllEntriesValid, SpanOf, OpeningItems, PeriodItems, SectionsOf, CommodityNames, AnswersAt, MonthSelection, Tally, Debits, Credits, TrialTarget, AllComplete, SectionWarnings, YearTrial;
    YearTrialIs(config, entries, index, report);
    YearTrialIs(config, entries, index + 1, next);
    var years, cs := SortYears(config.fiscalYears), SortClassifications(config.classifications);
    var s, t := MonthSelection(years, index, 0), MonthSelection(years, index + 1, 0);
    var a, b := PeriodItems(years, s, entries, cs), PeriodItems(years, t, entries, cs);
    var o, p := OpeningItems(years, s, entries, cs), OpeningItems(years, t, entries, cs);
    TargetsCarry(years, index, entries, cs, q);
    if q.category in {Asset, Liability, Equity} && Answers(report.commodities, q, value) {
      var i, j, k :| AnswersAt(report.commodities, q, i, j, k, value);
      AnswerIsTarget(Tally(o), Tally(Debits(a)), Tally(Credits(a)), q, i, j, k, value);
      TargetIsAnswered(Tally(p), Tally(Debits(b)), Tally(Credits(b)), q);
      assert Answers(next.commodities, q, TrialTarget(Tally(p), Tally(Debits(b)), Tally(Credits(b)), q).value);
    }
    if q.category in {Revenue, Expense, Unclassified} && Answers(next.commodities, q, value) {
      var i, j, k :| AnswersAt(next.commodities, q, i, j, k, value);
      AnswerIsTarget(Tally(p), Tally(Debits(b)), Tally(Credits(b)), q, i, j, k, value);
    }
  }

  lemma YearTrialIs(config: Configuration, entries: seq<Entry>, index: nat, report: TrialBalance)
    requires ValidConfiguration(config) && index < |SortYears(config.fiscalYears)|
    requires YearTrial(config, entries, index, report)
    ensures AllEntriesValid(entries)
    ensures var years, cs := SortYears(config.fiscalYears), SortClassifications(config.classifications);
            var s := MonthSelection(years, index, 0);
            report == ReportOn(config.revision, s.period, OpeningItems(years, s, entries, cs), PeriodItems(years, s, entries, cs))
  {
    hide ValidConfiguration, SortYears, SortClassifications, SelectPeriod, AllEntriesValid, OpeningItems, PeriodItems, SpanOf, TextOf, TextPeriod, MonthSelection, MonthOf, TrialBalanceFor, ReportOn, ReportOnFits;
    var years := SortYears(config.fiscalYears);
    PeriodSelectable(config, index, 0);
    WholeIs(years, index);
    TrialReportIs(config, entries, TextOf(YearPeriod(years[index])), report);
  }
}
