// A ledger whose reports print while the drill-down into them overflows: two
// entries that each post the largest amount twice to an account and take it
// back from another, in opposite directions.
module OverflowExamples {
  import opened Results
  import opened Texts
  import opened Decimals
  import opened Orders
  import opened Calendar
  import opened Ledger
  import opened Accumulators
  import opened Configurations
  import opened Movements
  import opened CarryForward
  import opened Bookkeeping
  import opened Rows
  import opened TrialBalances
  import opened Sections
  import opened StatementRows
  import opened Reports
  import opened Statements
  import opened Incomes
  import opened Targets
  import opened Selections
  import opened Explanations
  import opened DrillDowns
  import opened IncomeDrillDowns
  import opened Overflows

  // Any first day of a month in the years 2 to 9998.
  type Start = d: Date | ValidDate(d) && d.day == 1 && 2 <= d.year <= 9998 witness Date(2024, 1, 1)

  const LARGEST: Decimal := Fixed(MAX_COEFFICIENT, 0)

  const NEGATED: Decimal := Fixed(0 - MAX_COEFFICIENT, 0)

  function JpyPosting(account: string, value: Decimal): Posting {
    Posting(account, Some(Amount(value, "JPY")), None, "")
  }

  // Twice `value` to A, and as often its negation to B.
  function Swing(start: Start, value: Decimal, negated: Decimal): JournalEntry {
    JournalEntry(EntryDate(start), "d", [], [JpyPosting("A", value), JpyPosting("A", value), JpyPosting("B", negated), JpyPosting("B", negated)])
  }

  function SwingEntries(start: Start): seq<Entry> {
    [Entry("1", Swing(start, LARGEST, NEGATED)), Entry("2", Swing(start, NEGATED, LARGEST))]
  }

  // ------------------------------------------------------------ they are valid

  lemma SwingPostings(start: Start, value: Decimal, negated: Decimal)
    ensures GoodPostings(Swing(start, value, negated).postings)
  {
    hide Split;
    SplitWhole("A", ':');
    SplitWhole("B", ':');
  }

  lemma {:induction false} WholeSum(values: seq<Decimal>)
    requires forall i | 0 <= i < |values| :: values[i].scale == 0
    ensures MaxScale(values) == 0 && ScaledSum(values, 0) == Coefficients(values)
  {
    assert Pow10(0) == 1;
    if values != [] {
      WholeSum(values[..|values| - 1]);
    }
  }

  function Coefficients(values: seq<Decimal>): int {
    if values == [] then 0 else Coefficients(values[..|values| - 1]) + values[|values| - 1].coefficient
  }

  lemma FourCoefficients(a: Decimal, b: Decimal)
    ensures Coefficients([a, a, b, b]) == 2 * a.coefficient + 2 * b.coefficient
  {
    NextCoefficient([], a);
    NextCoefficient([a], a);
    NextCoefficient([a, a], b);
    NextCoefficient([a, a, b], b);
    assert [] + [a] == [a] && [a] + [a] == [a, a] && [a, a] + [b] == [a, a, b] && [a, a, b] + [b] == [a, a, b, b];
  }

  lemma NextCoefficient(values: seq<Decimal>, v: Decimal)
    ensures Coefficients(values + [v]) == Coefficients(values) + v.coefficient && Coefficients([]) == 0
  {
    assert (values + [v])[..|values|] == values;
  }

  lemma FourStated(start: Start, value: Decimal, negated: Decimal)
    ensures StatedValues(Swing(start, value, negated).postings) == [value, value, negated, negated]
  {
    var p, q := JpyPosting("A", value), JpyPosting("B", negated);
    var none: seq<Posting> := [];
    assert StatedValues(none) == [];
    assert [p, p, q, q][..3] == [p, p, q] && [p, p, q][..2] == [p, p] && [p, p][..1] == [p] && [p][..0] == none;
    assert StatedValues([p]) == [value];
    assert StatedValues([p, p]) == [value, value];
    assert StatedValues([p, p, q]) == [value, value, negated];
  }

  lemma SwingHeader(start: Start, value: Decimal, negated: Decimal)
    ensures HeaderFault(Swing(start, value, negated)) == None
  {
    assert Swing(start, value, negated).description[0] == 'd';
  }

  lemma SwingIsValid(start: Start, value: Decimal, negated: Decimal)
    requires value.scale == 0 && negated == Fixed(-value.coefficient, 0)
    ensures Valid(Swing(start, value, negated))
  {
    hide GoodPostings, FirstPostingFault, StatedValues, HeaderFault, MaxScale, ScaledSum;
    var e := Swing(start, value, negated);
    SwingHeader(start, value, negated);
    SwingPostings(start, value, negated);
    GoodPostingsIff(e.postings);
    FourStated(start, value, negated);
    WholeSum([value, value, negated, negated]);
    FourCoefficients(value, negated);
  }

  lemma SwingEntriesAreGood(start: Start)
    ensures GoodEntries(SwingEntries(start)) && AllEntriesValid(SwingEntries(start))
  {
    hide Valid, Swing;
    SwingIsValid(start, LARGEST, NEGATED);
    SwingIsValid(start, NEGATED, LARGEST);
    GoodAreValid(SwingEntries(start));
  }

  // ------------------------------------------------------- what they post

  function KeyFor(account: string): AmountKey {
    AmountKey("JPY", Unclassified, account)
  }

  lemma SwingItems(start: Start, item: Entry, value: Decimal, negated: Decimal, role: Role)
    requires Valid(item.entry) && item.entry == Swing(start, value, negated)
    ensures var items := EntryItems(item, [], role);
            && |items| == 4
            && items == [Contribution(item, 0, KeyFor("A"), value, role), Contribution(item, 1, KeyFor("A"), value, role),
                         Contribution(item, 2, KeyFor("B"), negated, role), Contribution(item, 3, KeyFor("B"), negated, role)]
  {
    hide Valid;
    forall i | 0 <= i < 4
      ensures AmountOf(item.entry, i) == item.entry.postings[i].amount.value
    {
    }
  }

  lemma FourShares(a: Contribution, b: Contribution, c: Contribution, d: Contribution, K: iset<AmountKey>)
    ensures ItemSum([a, b, c, d], K) == Plus(Plus(Plus(Share(a, K), Share(b, K)), Share(c, K)), Share(d, K))
  {
    hide Plus, Share;
    OneMore([], a, K);
    OneMore([a], b, K);
    OneMore([a, b], c, K);
    OneMore([a, b, c], d, K);
    assert [] + [a] == [a] && [a] + [b] == [a, b] && [a, b] + [c] == [a, b, c] && [a, b, c] + [d] == [a, b, c, d];
    EmptyItemSum(K);
    PlusUnset(Share(a, K));
  }

  lemma WholePlus(x: int, y: int)
    ensures Plus(Sum(x, 0), Sum(y, 0)) == Sum(x + y, 0)
  {
    assert Pow10(0) == 1;
  }

  // One entry puts 2 * value on A and 2 * negated on B.
  lemma SwingSum(start: Start, item: Entry, value: Decimal, negated: Decimal, role: Role, k: AmountKey)
    requires Valid(item.entry) && item.entry == Swing(start, value, negated) && value.scale == 0 && negated.scale == 0
    ensures ItemSum(EntryItems(item, [], role), iset{k}) ==
            if k == KeyFor("A") then Sum(2 * value.coefficient, 0)
            else if k == KeyFor("B") then Sum(2 * negated.coefficient, 0) else Unset
  {
    hide Plus, Valid, EntryItems;
    var items := EntryItems(item, [], role);
    SwingItems(start, item, value, negated, role);
    FourShares(items[0], items[1], items[2], items[3], iset{k});
    assert items == [items[0], items[1], items[2], items[3]];
    WholePlus(value.coefficient, value.coefficient);
    WholePlus(negated.coefficient, negated.coefficient);
    PlusUnset(Sum(2 * value.coefficient, 0));
    PlusUnset(Of(negated));
    PlusUnset(Unset);
  }

  function SwingContributions(start: Start, role: Role): seq<Contribution> {
    SwingEntriesAreGood(start);
    EntryItems(SwingEntries(start)[0], [], role) + EntryItems(SwingEntries(start)[1], [], role)
  }

  // Together they leave every account at exactly zero.
  lemma SwingsCancel(start: Start, role: Role)
    ensures forall k | k in Tally(SwingContributions(start, role)) :: Nil(Tally(SwingContributions(start, role))[k])
  {
    hide Plus, Valid, EntryItems, Post, Swing, ItemSum;
    SwingEntriesAreGood(start);
    var a, b := SwingEntries(start)[0], SwingEntries(start)[1];
    forall k | k in Tally(SwingContributions(start, role))
      ensures Nil(Tally(SwingContributions(start, role))[k])
    {
      KeyHasSum(SwingContributions(start, role), k);
      ItemSumAppend(EntryItems(a, [], role), EntryItems(b, [], role), iset{k});
      SwingSum(start, a, LARGEST, NEGATED, role, k);
      SwingSum(start, b, NEGATED, LARGEST, role, k);
      WholePlus(2 * MAX_COEFFICIENT, -2 * MAX_COEFFICIENT);
      WholePlus(-2 * MAX_COEFFICIENT, 2 * MAX_COEFFICIENT);
      PlusUnset(Unset);
    }
  }

  // ----------------------------------------------- reports on nothing but zero

  lemma NilPlus(a: Accumulator, b: Accumulator)
    requires Nil(a) && Nil(b)
    ensures Nil(Plus(a, b))
  {
    assert Pow10(0) == 1;
  }

  lemma {:induction false} NilSum<K>(m: map<K, Accumulator>, S: set<K>)
    requires forall k | k in m :: Nil(m[k])
    ensures Nil(SumOver(m, S))
    decreases |S|
  {
    hide Plus, SumOver;
    if S == {} {
      EmptySum(m);
    } else {
      var k :| k in S;
      NilSum(m, S - {k});
      SumOverRemove(m, S, k);
      NilPlus(Get(m, k), SumOver(m, S - {k}));
    }
  }

  predicate NilRow(r: RowSums) {
    Nil(r.opening) && Nil(r.debit) && Nil(r.credit) && Nil(r.closing)
  }

  lemma NilRowFits(r: RowSums)
    requires NilRow(r)
    ensures RowFits(r)
  {
    hide Fits;
    NilFits(r.opening);
    NilFits(r.debit);
    NilFits(r.credit);
    NilFits(r.closing);
  }

  lemma NilRows(direct: RowMap)
    requires forall a | a in direct :: NilRow(direct[a])
    ensures GroupFits(direct)
  {
    hide Plus, SumOver, RowFits, Names, Below;
    forall name
      ensures RowFits(GetRow(direct, name)) && RowFits(Subtotal(direct, name))
    {
      NilRowFits(GetRow(direct, name));
      NilSums(direct, Below(direct.Keys, name));
    }
    NilSums(direct, direct.Keys);
  }

  lemma NilSums(direct: RowMap, S: set<string>)
    requires forall a | a in direct :: NilRow(direct[a])
    ensures RowFits(SumRows(direct, S))
  {
    hide Plus, SumOver, RowFits;
    NilSum(OpeningsOf(direct), S);
    NilSum(DebitsOf(direct), S);
    NilSum(CreditsOf(direct), S);
    NilSum(ClosingsOf(direct), S);
    NilRowFits(SumRows(direct, S));
  }

  lemma NilFigure(o: Totals, K: iset<AmountKey>)
    requires forall k | k in o :: Nil(o[k])
    ensures NilRow(RowOver(o, map[], map[], K))
  {
    hide Plus, SumOver;
    var none: Totals := map[];
    NilSum(o, set k | k in o && k in K);
    NilSum(none, set k | k in none && k in K);
    PlusOfNils(TotalSum(o, K), TotalSum(none, K));
  }

  lemma PlusOfNils(a: Accumulator, b: Accumulator)
    requires Nil(a) && Nil(b)
    ensures Nil(Plus(Plus(a, b), b))
  {
    hide Plus;
    NilPlus(a, b);
    NilPlus(Plus(a, b), b);
  }

  lemma NilReport(o: Totals)
    requires forall k | k in o :: Nil(o[k])
    ensures ReportFits(o, map[], map[])
  {
    hide Plus, RowOver, RowFits, GroupFits, CommodityNames, DirectRows;
    forall commodity
      ensures SectionFits(commodity, o, map[], map[])
    {
      NilFigure(o, OfCommodity(commodity));
      NilRowFits(RowOver(o, map[], map[], OfCommodity(commodity)));
      forall n | 0 <= n < 6
        ensures GroupFits(DirectRows(commodity, CategoryOrder[n], o, map[], map[]))
      {
        NilDirect(commodity, CategoryOrder[n], o);
        NilRows(DirectRows(commodity, CategoryOrder[n], o, map[], map[]));
      }
    }
  }

  lemma NilDirect(commodity: string, category: Category, o: Totals)
    requires forall k | k in o :: Nil(o[k])
    ensures forall a | a in DirectRows(commodity, category, o, map[], map[]) ::
              NilRow(DirectRows(commodity, category, o, map[], map[])[a])
  {
    hide Plus, Posted;
    forall a
      ensures NilRow(RowOf(commodity, category, o, map[], map[], a))
    {
      PlusOfNils(Get(o, AmountKey(commodity, category, a)), Unset);
    }
  }

  lemma NilStatement(m: Totals)
    requires forall k | k in m :: Nil(m[k])
    ensures AllStatementsFit(m) && forall c :: Fits(Earnings(m, c))
  {
    hide Plus, SumOver, Fits, CommoditiesIn, StatementGroupFits, DirectSums;
    forall commodity
      ensures StatementFits(commodity, m) && Fits(Earnings(m, commodity))
    {
      NilSum(m, set k | k in m && k in OfCommodity(commodity));
      NilFits(TotalSum(m, OfCommodity(commodity)));
      NilSum(m, set k | k in m && k in InCategories(commodity, EarningCategories));
      NilFits(Earnings(m, commodity));
      forall n | 0 <= n < 6
        ensures StatementGroupFits(DirectSums(commodity, CategoryOrder[n], m))
      {
        NilAccounts(commodity, CategoryOrder[n], m);
      }
    }
  }

  lemma NilAccounts(commodity: string, category: Category, m: Totals)
    requires forall k | k in m :: Nil(m[k])
    ensures StatementGroupFits(DirectSums(commodity, category, m))
  {
    hide Plus, SumOver, Fits, Names, Below;
    var direct := DirectSums(commodity, category, m);
    assert forall a | a in direct :: Nil(direct[a]);
    NilSum(direct, direct.Keys);
    NilFits(SumOver(direct, direct.Keys));
    forall name
      ensures Fits(Get(direct, name)) && Fits(Rolled(direct, name))
    {
      NilFits(Get(direct, name));
      NilSum(direct, Below(direct.Keys, name));
      NilFits(Rolled(direct, name));
    }
  }

  // ------------------------------------------------------------ the ledger

  function SwingYear(start: Start): FiscalYear {
    FiscalYear(FormatDate(start), FormatDate(LastOfMonth(MonthIndex(start) + 11)), Automatic, [])
  }

  // One year, without classifications.
  function SwingConfiguration(start: Start): Configuration {
    Configuration(1, start.month, [], [SwingYear(start)])
  }

  lemma YearEndIsDate(start: Start)
    ensures var end := LastOfMonth(MonthIndex(start) + 11);
            ValidDate(end) && 0 <= end.year <= 9999
  {
  }

  lemma SwingSpan(start: Start)
    ensures ParseFiscalYear(SwingYear(start), start.month).Some?
    ensures SpanOf(SwingYear(start)).start == start && GoodSpan(SpanOf(SwingYear(start)))
  {
    hide FormatDate, ParseDate, AddDate, LastOfMonth, MonthIndex, GoodSpan;
    var end := LastOfMonth(MonthIndex(start) + 11);
    YearEndIsDate(start);
    ParseInvertsFormatDate(start);
    ParseInvertsFormatDate(end);
    YearEnd(start);
    ParsedSpan(SwingYear(start), start.month);
  }

  lemma SwingYears(start: Start)
    ensures SortYears(SwingConfiguration(start).fiscalYears) == [SwingYear(start)]
    ensures SortClassifications(SwingConfiguration(start).classifications) == []
  {
    hide SwingYear, ByStartDate;
    var years := [SwingYear(start)];
    assert years[1..] == [];
    assert SortBy(years[1..], ByStartDate) == [];
    assert [SwingYear(start)] + [] == years;
  }

  lemma SwingIsConfigured(start: Start)
    ensures ValidConfiguration(SwingConfiguration(start))
  {
    hide SortYears, ParseFiscalYear, SpanOf, FormatDate, LastOfMonth;
    SwingSpan(start);
    SwingYears(start);
  }

  // Both entries are dated on the first day of the year.
  lemma FirstDayDates(start: Start)
    ensures InPeriod(start, MonthOf(SpanOf(SwingYear(start)), 1))
    ensures !InPeriod(start, MonthOf(SpanOf(SwingYear(start)), 2))
  {
    hide FirstOfMonth, LastOfMonth, SwingYear, SpanOf, GoodSpan;
    SwingSpan(start);
    var base := MonthIndex(start);
    MonthBounds(start, base);
    MonthBounds(start, base + 1);
  }

  lemma SwingMovements(start: Start, role: Role)
    ensures AllEntriesValid(SwingEntries(start))
    ensures MovementItems(SwingEntries(start), MonthOf(SpanOf(SwingYear(start)), 1), [], [], role) == SwingContributions(start, role)
    ensures MovementItems(SwingEntries(start), MonthOf(SpanOf(SwingYear(start)), 2), [], [], role) == []
  {
    hide SwingYear, SpanOf, MonthOf, Valid, EntryItems, InPeriod;
    SwingEntriesAreGood(start);
    FirstDayDates(start);
    var es := SwingEntries(start);
    TwoMovements(es[0], es[1], MonthOf(SpanOf(SwingYear(start)), 1), role);
    TwoMovements(es[0], es[1], MonthOf(SpanOf(SwingYear(start)), 2), role);
    assert es == [es[0], es[1]];
  }

  lemma TwoMovements(a: Entry, b: Entry, p: Period, role: Role)
    requires Valid(a.entry) && Valid(b.entry)
    ensures AllEntriesValid([a, b])
    ensures MovementItems([a, b], p, [], [], role) == SelectedItems(a, p, [], [], role) + SelectedItems(b, p, [], [], role)
  {
    hide Valid, SelectedItems;
    var none: seq<Entry> := [];
    assert [a, b][..1] == [a] && [a][..0] == none;
    assert MovementItems(none, p, [], [], role) == [];
    assert MovementItems([a], p, [], [], role) == SelectedItems(a, p, [], [], role);
  }

  // ------------------------------------------------- what the reports show

  function MonthText(start: Start, m: nat): PeriodText
    requires 1 <= m <= 12
  {
    SwingSpan(start);
    SwingMonthText(start, m);
    TextOf(MonthOf(SpanOf(SwingYear(start)), m))
  }

  lemma SwingMonthText(start: Start, m: nat)
    requires 1 <= m <= 12
    ensures TextPeriod(MonthOf(SpanOf(SwingYear(start)), m))
  {
    hide SwingYear, SpanOf, MonthOf, GoodSpan, TextPeriod;
    SwingSpan(start);
    MonthInside(SpanOf(SwingYear(start)), m);
  }

  // The question about account A alone.
  function SwingQuery(start: Start, m: nat): Query
    requires 1 <= m <= 12
  {
    Query(MonthText(start, m), "JPY", Unclassified, "A", DirectScope)
  }

  lemma SwingQueryIsGood(start: Start, m: nat)
    requires 1 <= m <= 12
    ensures GoodQuery(SwingQuery(start, m))
  {
    hide MonthText, Split;
    SplitWhole("A", ':');
  }

  // In the second month both entries have become part of the opening.
  lemma SecondMonthItems(start: Start)
    ensures AllEntriesValid(SwingEntries(start))
    ensures var s := MonthSelection([SwingYear(start)], 0, 2);
            && OpeningItems([SwingYear(start)], s, SwingEntries(start), []) == SwingContributions(start, OpeningRole)
            && PeriodItems([SwingYear(start)], s, SwingEntries(start), []) == []
  {
    hide SpanOf, MonthOf, EarlierItems, MonthSelection, GoodSpan, AllEntriesValid, FormatDate, LastOfMonth, ThroughMonth, MovementItems;
    SwingSpan(start);
    var years := [SwingYear(start)];
    SwingMovements(start, OpeningRole);
    SwingMovements(start, MovementRole);
    SelectionIs(years, 0, 2);
    EarlierIs(years, 0, 2, SwingEntries(start), []);
    FirstMonthThrough(SpanOf(years[0]));
    assert Carried(years, 0, SwingEntries(start), []) == [];
  }

  // What the first entry contributes to account A.
  lemma SwingQueried(start: Start, role: Role, q: Query, g: Contribution -> bool)
    requires q.commodity == "JPY" && q.category == Unclassified && q.account == "A" && q.scope == DirectScope
    requires forall x: Contribution | x.role == role :: g(x) <==> x.entry.id == "1"
    ensures ItemSum(Keep(Keep(SwingContributions(start, role), MatchOf(q)), g), AllKeys()) == Sum(2 * MAX_COEFFICIENT, 0)
  {
    hide Plus, Valid, EntryItems, Swing, ItemSum, Keep, MatchOf, QueryKeys;
    SwingEntriesAreGood(start);
    var es, f := SwingEntries(start), MatchOf(q);
    var a, b := EntryItems(es[0], [], role), EntryItems(es[1], [], role);
    KeepAppend(a, b, f);
    KeepAppend(Keep(a, f), Keep(b, f), g);
    EntryItemsOf(es[0], role);
    EntryItemsOf(es[1], role);
    KeptFrom(a, f);
    KeptFrom(b, f);
    KeepAll(Keep(a, f), g);
    NoneKept(Keep(b, f), g);
    assert Keep(a, f) + [] == Keep(a, f);
    MatchedSum(a, q);
    OneQueried(q);
    SwingSum(start, es[0], LARGEST, NEGATED, role, KeyFor("A"));
  }

  lemma EntryItemsOf(item: Entry, role: Role)
    requires Valid(item.entry)
    ensures forall x | x in EntryItems(item, [], role) :: x.entry == item && x.role == role
  {
    hide Valid, AmountOf, Classify;
  }

  lemma KeptFrom(items: seq<Contribution>, f: Contribution -> bool)
    ensures forall x | x in Keep(items, f) :: x in items
  {
    hide Keep;
    forall x | x in Keep(items, f)
      ensures x in items
    {
      KeepMembers(items, f, x);
    }
  }

  lemma OneQueried(q: Query)
    requires q.commodity == "JPY" && q.category == Unclassified && q.account == "A" && q.scope == DirectScope
    ensures QueryKeys(q) == iset{KeyFor("A")}
  {
  }

  lemma TooLarge()
    ensures !Fits(Sum(2 * MAX_COEFFICIENT, 0))
  {
  }

  lemma SwingPosted(start: Start, role: Role)
    ensures KeyFor("A") in Tally(SwingContributions(start, role))
  {
    hide Valid, EntryItems, Swing, Post;
    SwingEntriesAreGood(start);
    var item := SwingEntries(start)[0];
    SwingItems(start, item, LARGEST, NEGATED, role);
    assert EntryItems(item, [], role)[0] in SwingContributions(start, role);
    PostKeys(map[], SwingContributions(start, role), KeyFor("A"));
  }

  lemma PostedTarget(o: Totals, q: Query)
    requires q.scope == DirectScope && AmountKey(q.commodity, q.category, q.account) in o
    ensures TrialTarget(o, map[], map[], q).Some?
  {
    hide RowOf, GetRow, Subtotal, RowText;
    var none: Totals := map[];
    PostedHas(q.commodity, q.category, o, none, none);
    DirectEntries(q.commodity, q.category, o, none, none);
    var direct := DirectRows(q.commodity, q.category, o, none, none);
    assert q.account in direct;
    NamesAreAncestors(direct.Keys, q.account);
    UnderSelf(q.account);
  }

  lemma NothingTallied()
    ensures Tally(Debits([])) == map[] && Tally(Credits([])) == map[]
  {
  }

  // The second month's trial balance is printed and lists the account.
  lemma SecondMonthIsPrinted(start: Start) returns (report: TrialBalance, value: Amounts)
    ensures TrialBalanceFor(SwingConfiguration(start), SwingEntries(start), MonthText(start, 2)) == Ok(report)
    ensures Answers(report.commodities, SwingQuery(start, 2), value)
  {
    hide SwingYear, SpanOf, MonthOf, Post, ReportFits, TrialTarget, SectionsOf, CommodityNames, SectionWarnings, AllComplete, AnswersAt, ValidConfiguration, SortYears, SortClassifications, SelectPeriod, SelectIncomePeriod, OpeningItems, PeriodItems, MonthSelection, Debits, Credits, GoodEntries, AllEntriesValid, PeriodsOf, TextPeriod, TextOf;
    var config, entries, q := SwingConfiguration(start), SwingEntries(start), SwingQuery(start, 2);
    var s := MonthSelection([SwingYear(start)], 0, 2);
    SwingIsConfigured(start);
    SwingYears(start);
    SwingEntriesAreGood(start);
    PeriodSelectable(config, 0, 2);
    SelectionIs([SwingYear(start)], 0, 2);
    SelectedPeriod([SwingYear(start)], 0, MonthText(start, 2));
    SwingOpens(start);
    SecondMonthItems(start);
    NothingTallied();
    SwingsCancel(start, OpeningRole);
    var o := Tally(SwingContributions(start, OpeningRole));
    NilReport(o);
    SwingPosted(start, OpeningRole);
    PostedTarget(o, q);
    TargetIsAnswered(o, map[], map[], q);
    report := ReportOn(1, s.period, SwingContributions(start, OpeningRole), []);
    value := TrialTarget(o, map[], map[], q).value;
  }

  lemma SwingOpens(start: Start)
    ensures OpeningExists([SwingYear(start)], 0, SwingEntries(start), [])
  {
  }

  // The trial balance of the second month is printed, with a row of zeros for
  // account A. The drill-down into that row fails: each entry moved more than
  // can be printed.
  lemma TrialDrillDownCanOverflow(start: Start)
    ensures TrialBalanceFor(SwingConfiguration(start), SwingEntries(start), SwingQuery(start, 2).period).Ok?
    ensures TrialDrillDownFor(SwingConfiguration(start), SwingEntries(start), SwingQuery(start, 2)) == Err(AmountOverflow)
  {
    hide SwingYear, SpanOf, MonthOf, TrialBalanceFor, TrialDrillDownFor, ItemSum, Fits, Answers, ValidConfiguration, AllEntriesValid, SelectPeriod, OpeningItems, PeriodItems, SortYears, SortClassifications, Keep, MatchOf, MonthText, MonthSelection, Swing, SelectIncomePeriod;
    var report, value := SecondMonthIsPrinted(start);
    var q := SwingQuery(start, 2);
    SwingQueryIsGood(start, 2);
    SwingIsConfigured(start);
    SwingYears(start);
    DrillDownOverflowsIff(SwingConfiguration(start), SwingEntries(start), q, report, value);
    SecondMonthSelected(start);
    SecondMonthItems(start);
    var g := ForKey(RoleKey(OpeningRole, "1"));
    OfFirst();
    SwingQueried(start, OpeningRole, q, g);
    TooLarge();
    assert !Fits(ItemSum(OpeningOf(SwingContributions(start, OpeningRole), q, "1"), AllKeys()));
  }

  lemma OfFirst()
    ensures forall x: Contribution | x.role == OpeningRole :: ForKey(RoleKey(OpeningRole, "1"))(x) <==> x.entry.id == "1"
  {
    forall x: Contribution | x.role == OpeningRole
      ensures ForKey(RoleKey(OpeningRole, "1"))(x) <==> x.entry.id == "1"
    {
      assert ByRole()(x) == RoleKey(x.role, x.entry.id);
    }
  }

  lemma SecondMonthSelected(start: Start)
    ensures SelectPeriod([SwingYear(start)], 0, MonthText(start, 2)) == Some(MonthSelection([SwingYear(start)], 0, 2))
  {
    hide SwingYear, SpanOf, MonthOf, ValidConfiguration, SelectPeriod, SelectIncomePeriod, SortYears, SortClassifications, MonthSelection, TextPeriod, TextOf;
    SwingIsConfigured(start);
    SwingYears(start);
    PeriodSelectable(SwingConfiguration(start), 0, 2);
    SelectionIs([SwingYear(start)], 0, 2);
  }

  // ------------------------------------------------------ income statements

  lemma FilteredNil(m: Totals, C: set<Category>)
    requires forall k | k in m :: Nil(m[k])
    ensures forall k | k in FilterTotals(m, C) :: Nil(FilterTotals(m, C)[k])
  {
  }

  lemma PostedSection(m: Totals, q: Query)
    requires AmountKey(q.commodity, q.category, q.account) in m && q.category in IncomeCategories
    ensures SectionTarget(FilterTotals(m, IncomeCategories), q).Some?
  {
    hide BalanceText, Get, Rolled;
    var k := AmountKey(q.commodity, q.category, q.account);
    var n := FilterTotals(m, IncomeCategories);
    assert k in n;
    var direct := DirectSums(q.commodity, q.category, n);
    assert q.account in direct;
    NamesAreAncestors(direct.Keys, q.account);
    UnderSelf(q.account);
  }

  function IsFirst(): Contribution -> bool {
    (x: Contribution) => x.entry.id == "1"
  }

  lemma FirstEntryTooLarge(start: Start, q: Query)
    requires q.commodity == "JPY" && q.category == Unclassified && q.account == "A" && q.scope == DirectScope
    ensures !IncomeEntriesFit(Keep(SwingContributions(start, MovementRole), MatchOf(q)))
  {
    hide ItemSum, Fits, Keep, MatchOf, Swing, SumOf, FirstKeys, SwingContributions;
    var kept := Keep(SwingContributions(start, MovementRole), MatchOf(q));
    SwingQueried(start, MovementRole, q, IsFirst());
    MembersByFilter(kept, ByEntry(), "1", IsFirst());
    var group := Members(kept, ByEntry(), "1");
    TooLarge();
    SumOfIsItemSum(group);
    if group == [] {
      EmptyItemSum(AllKeys());
    }
    GroupsNonempty(kept, ByEntry(), "1");
    var i :| 0 <= i < |FirstKeys(kept, ByEntry())| && FirstKeys(kept, ByEntry())[i] == "1";
    assert GroupAt(kept, ByEntry(), i) == group;
  }

  lemma FirstMonthItems(start: Start)
    ensures AllEntriesValid(SwingEntries(start))
    ensures SelectIncomePeriod([SwingYear(start)], MonthText(start, 1)) == Some(MonthSelection([SwingYear(start)], 0, 1))
    ensures PeriodItems([SwingYear(start)], MonthSelection([SwingYear(start)], 0, 1), SwingEntries(start), []) == SwingContributions(start, MovementRole)
  {
    hide SpanOf, MonthOf, ValidConfiguration, SelectPeriod, SelectIncomePeriod, SortYears, SortClassifications, MonthSelection, TextPeriod, TextOf, AllEntriesValid, FormatDate, LastOfMonth, MovementItems;
    SwingIsConfigured(start);
    SwingYears(start);
    PeriodSelectable(SwingConfiguration(start), 0, 1);
    SelectionIs([SwingYear(start)], 0, 1);
    SwingMovements(start, MovementRole);
  }

  // The same for the income statement of the first month: it is printed, and
  // the drill-down into account A overflows.
  lemma IncomeDrillDownCanOverflow(start: Start)
    ensures IncomeStatementFor(SwingConfiguration(start), SwingEntries(start), SwingQuery(start, 1).period).Ok?
    ensures IncomeDrillDownFor(SwingConfiguration(start), SwingEntries(start), SwingQuery(start, 1)) == Err(AmountOverflow)
  {
    hide SwingYear, SpanOf, MonthOf, ItemSum, Fits, Earnings, ValidConfiguration, AllEntriesValid, GoodEntries, SelectIncomePeriod, PeriodItems, SortYears, SortClassifications, Keep, MatchOf, MonthText, MonthSelection, Swing, SwingContributions, Post, AllStatementsFit, StatementsOf, IncomeCommodities, CommoditiesIn, FilterTotals, SectionTarget, IncomeEntriesFit, SwingEntries, ValidAccount, TextPeriod;
    var q := SwingQuery(start, 1);
    SwingQueryIsGood(start, 1);
    SwingIsConfigured(start);
    SwingYears(start);
    SwingEntriesAreGood(start);
    FirstMonthItems(start);
    SelectedIncomePeriod([SwingYear(start)], MonthText(start, 1));
    var m := Tally(SwingContributions(start, MovementRole));
    SwingsCancel(start, MovementRole);
    FilteredNil(m, IncomeCategories);
    NilStatement(FilterTotals(m, IncomeCategories));
    SwingPosted(start, MovementRole);
    PostedSection(m, q);
    FirstEntryTooLarge(start, q);
  }
}
