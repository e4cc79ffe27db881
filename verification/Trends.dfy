// The twelve-month balance trend: one pass over the date-sorted entries,
// refining the month-by-month definition.
module Trends {
  import opened Results
  import opened Orders
  import opened Calendar
  import opened Ledger
  import opened Accumulators
  import opened Configurations
  import opened Movements
  import opened CarryForward
  import opened Bookkeeping
  import opened Rows
  import opened TrialBalances
  import opened StatementRows
  import opened Reports
  import opened Statements

  datatype TrendPoint = TrendPoint(
    period: FiscalPeriod, classificationComplete: bool, warnings: seq<Warning>, commodities: seq<StatementSection>)

  datatype DatedWarning = DatedWarning(warning: Warning, periodEnd: Date)

  datatype BalanceTrend = BalanceTrend(
    revision: int, fiscalYear: Period, classificationComplete: bool, warnings: seq<DatedWarning>, points: seq<TrendPoint>)

  // ----------------------------------------------------------- sorting entries

  function DateText(item: Entry): string {
    ParseInvertsTimeText(item.entry.date);
    TimeText(item.entry.date)[..10]
  }

  // The order of monthlyClosingAmounts: by date text, then by identifier.
  predicate EntryBefore(a: Entry, b: Entry) {
    TextLess(DateText(a), DateText(b)) || (DateText(a) == DateText(b) && !TextLess(b.id, a.id))
  }

  lemma EntryOrder()
    ensures TotalPreorder(EntryBefore)
  {
    hide DateText, TextLess;
    TextOrder();
    forall x, y
      ensures EntryBefore(x, y) || EntryBefore(y, x)
    {
    }
    forall x, y, z | EntryBefore(x, y) && EntryBefore(y, z)
      ensures EntryBefore(x, z)
    {
    }
  }

  lemma DateTextCompares(item: Entry, d: Date)
    requires ValidDate(d) && 0 <= d.year <= 9999
    ensures TextLess(DateText(item), FormatDate(d)) <==> Before(item.entry.date.date, d)
    ensures TextLess(FormatDate(d), DateText(item)) <==> Before(d, item.entry.date.date)
  {
    hide FormatDate, TextLess, IsClock;
    ParseInvertsTimeText(item.entry.date);
    DateTextOrder(item.entry.date.date, d);
    DateTextOrder(d, item.entry.date.date);
  }

  lemma SortedDates(sorted: seq<Entry>, i: nat, j: nat, end: Date)
    requires OrderedBy(sorted, EntryBefore) && i <= j < |sorted| && ValidDate(end) && 0 <= end.year <= 9999
    requires Before(end, sorted[i].entry.date.date)
    ensures Before(end, sorted[j].entry.date.date)
  {
    hide FormatDate, TextLess, DateText;
    DateTextCompares(sorted[i], end);
    DateTextCompares(sorted[j], end);
    TextOrder();
    if i < j {
      assert EntryBefore(sorted[i], sorted[j]);
    }
  }

  // ------------------------------------------------------------ prefixes

  // A prefix holding exactly the entries of q among those of p.
  lemma {:induction false} CutPrefix(
    sorted: seq<Entry>, n: nat, p: Period, q: Period, excluded: seq<string>, cs: seq<Classification>, role: Role)
    requires AllEntriesValid(sorted) && n <= |sorted|
    requires forall i | 0 <= i < n :: InPeriod(sorted[i].entry.date.date, p) <==> InPeriod(sorted[i].entry.date.date, q)
    requires forall i | n <= i < |sorted| :: !InPeriod(sorted[i].entry.date.date, q)
    ensures AllEntriesValid(sorted[..n])
    ensures MovementItems(sorted[..n], p, excluded, cs, role) == MovementItems(sorted, q, excluded, cs, role)
  {
    hide EntryItems, InPeriod, Valid;
    if n < |sorted| {
      var front := sorted[..|sorted| - 1];
      CutPrefix(front, n, p, q, excluded, cs, role);
      assert front[..n] == sorted[..n];
      assert MovementItems(front, q, excluded, cs, role) + [] == MovementItems(front, q, excluded, cs, role);
    } else if n > 0 {
      var front := sorted[..n - 1];
      CutPrefix(front, n - 1, p, q, excluded, cs, role);
      assert front[..n - 1] == front && sorted[..n] == sorted;
    } else {
      assert sorted[..0] == [];
    }
  }

  // Being in the year up to the end of month m is being in the year at all,
  // for entries not dated after that month.
  lemma ThroughIsCut(span: Span, m: nat, d: Date)
    requires GoodSpan(span) && 1 <= m <= 12 && ValidDate(d)
    ensures !Before(MonthOf(span, m).endDate, d) ==> (InPeriod(d, WholeYear(span)) <==> InPeriod(d, ThroughMonth(span, m)))
    ensures Before(MonthOf(span, m).endDate, d) ==> !InPeriod(d, ThroughMonth(span, m))
  {
    hide FirstOfMonth, LastOfMonth;
    MonthBounds(MonthOf(span, m).endDate, MonthIndex(span.start) + 11);
    BeforeIsOrder(d, MonthOf(span, m).endDate, span.end);
  }

  // ----------------------------------------------------------- monthly amounts

  // Everything posted by the end of month m of the year.
  function TrendItems(years: seq<FiscalYear>, index: nat, m: nat, entries: seq<Entry>, cs: seq<Classification>): seq<Contribution>
    requires index < |years| && AllEntriesValid(entries)
  {
    Carried(years, index, entries, cs)
    + MovementItems(entries, ThroughMonth(SpanOf(years[index]), m), years[index].openingEntryIDs, cs, MovementRole)
  }

  ghost predicate SortedCopy(sorted: seq<Entry>, entries: seq<Entry>) {
    multiset(sorted) == multiset(entries) && OrderedBy(sorted, EntryBefore) && AllEntriesValid(sorted)
  }

  lemma SortGives(entries: seq<Entry>)
    requires AllEntriesValid(entries)
    ensures SortedCopy(SortBy(entries, EntryBefore), entries)
  {
    hide EntryBefore, Valid;
    EntryOrder();
    SortByMembers(entries, EntryBefore);
    SortByOrdered(entries, EntryBefore);
    var sorted := SortBy(entries, EntryBefore);
    forall i | 0 <= i < |sorted|
      ensures Valid(sorted[i].entry)
    {
      assert sorted[i] in entries;
    }
  }

  // The cursor stands after the last entry dated by the end of month m.
  ghost predicate CursorAt(sorted: seq<Entry>, n: nat, span: Span, m: nat) {
    && n <= |sorted|
    && (forall i | 0 <= i < n :: !Before(MonthOf(span, m).endDate, sorted[i].entry.date.date))
    && (forall i | n <= i < |sorted| :: Before(MonthOf(span, m).endDate, sorted[i].entry.date.date))
  }

  lemma CursorMeans(
    entries: seq<Entry>, sorted: seq<Entry>, n: nat, span: Span, m: nat, excluded: seq<string>, cs: seq<Classification>)
    requires GoodSpan(span) && 1 <= m <= 12 && AllEntriesValid(entries)
    requires SortedCopy(sorted, entries) && CursorAt(sorted, n, span, m)
    ensures AllEntriesValid(sorted[..n])
    ensures multiset(MovementItems(sorted[..n], WholeYear(span), excluded, cs, MovementRole))
         == multiset(MovementItems(entries, ThroughMonth(span, m), excluded, cs, MovementRole))
  {
    hide GoodSpan, MonthOf, ThroughMonth, WholeYear, OrderedBy, InPeriod, Before, MovementItems, Valid, ValidDate;
    forall i | 0 <= i < |sorted|
      ensures i < n ==> (InPeriod(sorted[i].entry.date.date, WholeYear(span)) <==>
                         InPeriod(sorted[i].entry.date.date, ThroughMonth(span, m)))
      ensures i >= n ==> !InPeriod(sorted[i].entry.date.date, ThroughMonth(span, m))
    {
      ThroughIsCut(span, m, sorted[i].entry.date.date);
    }
    CutPrefix(sorted, n, WholeYear(span), ThroughMonth(span, m), excluded, cs, MovementRole);
    MovementsPermute(sorted, entries, ThroughMonth(span, m), excluded, cs, MovementRole);
  }

  lemma TallyAfter(a: seq<Contribution>, b: seq<Contribution>, c: seq<Contribution>)
    requires multiset(b) == multiset(c)
    ensures Post(Tally(a), b) == Tally(a + c)
  {
    hide Post;
    assert multiset(a + b) == multiset(a) + multiset(b);
    assert multiset(a + c) == multiset(a) + multiset(c);
    PostAppend(map[], a, b);
    TallyPermute(a + b, a + c);
  }

  // The amounts at the cursor are everything posted by the end of the month.
  lemma PointSums(
    entries: seq<Entry>, sorted: seq<Entry>, n: nat, years: seq<FiscalYear>, index: nat, m: nat, cs: seq<Classification>)
    requires index < |years| && GoodSpan(SpanOf(years[index])) && 1 <= m <= 12 && AllEntriesValid(entries)
    requires SortedCopy(sorted, entries) && n <= |sorted| && CursorAt(sorted, n, SpanOf(years[index]), m)
    ensures AllEntriesValid(sorted[..n])
    ensures Post(Tally(Carried(years, index, entries, cs)),
                 MovementItems(sorted[..n], WholeYear(SpanOf(years[index])), years[index].openingEntryIDs, cs, MovementRole)) ==
            Tally(TrendItems(years, index, m, entries, cs))
  {
    hide GoodSpan, AllEntriesValid, MovementItems, Post, Carried, SpanOf, CursorAt, SortedCopy;
    var span, excluded := SpanOf(years[index]), years[index].openingEntryIDs;
    CursorMeans(entries, sorted, n, span, m, excluded, cs);
    TallyAfter(Carried(years, index, entries, cs), MovementItems(sorted[..n], WholeYear(span), excluded, cs, MovementRole),
               MovementItems(entries, ThroughMonth(span, m), excluded, cs, MovementRole));
  }

  // Advances the cursor to the end of one month, posting what it passes.
  method AdvanceMonth(
    running: AmountMap, sorted: seq<Entry>, entryIndex: nat, span: Span, m: nat, excluded: seq<string>, exclude: set<string>,
    cs: seq<Classification>, ghost opening: Totals) returns (n: nat)
    requires GoodSpan(span) && 1 <= m <= 12 && AllEntriesValid(sorted) && OrderedBy(sorted, EntryBefore)
    requires forall id :: id in exclude <==> id in excluded
    requires entryIndex <= |sorted|
    requires forall i | 0 <= i < entryIndex :: !Before(MonthOf(span, m).endDate, sorted[i].entry.date.date)
    requires TextPeriod(MonthOf(span, m)) && TextPeriod(WholeYear(span))
    requires running.sums == Post(opening, MovementItems(sorted[..entryIndex], WholeYear(span), excluded, cs, MovementRole))
    modifies running
    ensures entryIndex <= n <= |sorted| && CursorAt(sorted, n, span, m)
    ensures running.sums == Post(opening, MovementItems(sorted[..n], WholeYear(span), excluded, cs, MovementRole))
  {
    hide GoodSpan, MonthOf, WholeYear, OrderedBy, InPeriod, MovementItems, Valid, Post, EntryItems, FormatDate, Before, TextLess, DateText, ValidDate, AtMost;
    n := entryIndex;
    var year := WholeYear(span);
    while n < |sorted|
      invariant entryIndex <= n <= |sorted|
      invariant forall i | 0 <= i < n :: !Before(MonthOf(span, m).endDate, sorted[i].entry.date.date)
      invariant running.sums == Post(opening, MovementItems(sorted[..n], year, excluded, cs, MovementRole))
    {
      var item := sorted[n];
      DateTextCompares(item, MonthOf(span, m).endDate);
      if TextLess(FormatDate(MonthOf(span, m).endDate), DateText(item)) {
        forall j | n <= j < |sorted|
          ensures Before(MonthOf(span, m).endDate, sorted[j].entry.date.date)
        {
          SortedDates(sorted, n, j, MonthOf(span, m).endDate);
        }
        return;
      }
      MovementStep(sorted, n, year, excluded, cs, MovementRole);
      assert Valid(item.entry);
      ghost var done, more := MovementItems(sorted[..n], year, excluded, cs, MovementRole), SelectedItems(item, year, excluded, cs, MovementRole);
      PostAppend(opening, done, more);
      n := n + 1;
      var outside := OutsidePeriod(item, year);
      if outside || item.id in exclude {
        assert done + [] == done;
        continue;
      }
      AllAdmitted(EntryItems(item, cs, MovementRole));
      var ok := AddEntryCollected(running, item, cs, false, MovementRole, null);
    }
  }

  lemma CursorMoves(sorted: seq<Entry>, n: nat, span: Span, m: nat)
    requires GoodSpan(span) && 1 <= m <= 11 && CursorAt(sorted, n, span, m)
    ensures forall i | 0 <= i < n :: !Before(MonthOf(span, m + 1).endDate, sorted[i].entry.date.date)
  {
    hide FirstOfMonth, LastOfMonth, Before, GoodSpan, MonthIndex;
    forall i | 0 <= i < n
      ensures !Before(MonthOf(span, m + 1).endDate, sorted[i].entry.date.date)
    {
      MonthEndsGrow(span, m, sorted[i].entry.date.date);
    }
  }

  lemma MonthEndsGrow(span: Span, m: nat, d: Date)
    requires 1 <= m <= 11 && ValidDate(d) && !Before(MonthOf(span, m).endDate, d)
    ensures !Before(MonthOf(span, m + 1).endDate, d)
  {
    hide FirstOfMonth, LastOfMonth;
    MonthBounds(d, MonthIndex(span.start) + m - 1);
    MonthBounds(d, MonthIndex(span.start) + m);
  }

  lemma TrendPeriodsAreText(span: Span, m: nat)
    requires GoodSpan(span) && 1 <= m <= 12
    ensures TextPeriod(MonthOf(span, m)) && TextPeriod(WholeYear(span))
  {
    hide FirstOfMonth, LastOfMonth, GoodSpan;
    MonthInside(span, m);
    YearInside(span);
  }

  // The totals of month m of the trend.
  ghost function TrendTotals(years: seq<FiscalYear>, index: nat, m: nat, entries: seq<Entry>, cs: seq<Classification>): Totals
    requires index < |years| && AllEntriesValid(entries)
  {
    Tally(TrendItems(years, index, m, entries, cs))
  }

  // The running totals after m months.
  ghost predicate Passed(
    sums: Totals, sorted: seq<Entry>, n: nat, years: seq<FiscalYear>, index: nat, m: nat, entries: seq<Entry>,
    cs: seq<Classification>)
    requires index < |years| && AllEntriesValid(entries) && AllEntriesValid(sorted)
  {
    && n <= |sorted| && (if m == 0 then n == 0 else CursorAt(sorted, n, SpanOf(years[index]), m))
    && sums == Post(Tally(Carried(years, index, entries, cs)),
                    MovementItems(sorted[..n], WholeYear(SpanOf(years[index])), years[index].openingEntryIDs, cs, MovementRole))
  }

  method NextMonth(
    running: AmountMap, sorted: seq<Entry>, entryIndex: nat, exclude: set<string>, years: seq<FiscalYear>, index: nat, m: nat,
    ghost entries: seq<Entry>, cs: seq<Classification>) returns (n: nat)
    requires index < |years| && GoodSpan(SpanOf(years[index])) && 1 <= m <= 12
    requires AllEntriesValid(entries) && AllEntriesValid(sorted) && SortedCopy(sorted, entries)
    requires forall id :: id in exclude <==> id in years[index].openingEntryIDs
    requires Passed(running.sums, sorted, entryIndex, years, index, m - 1, entries, cs)
    modifies running
    ensures Passed(running.sums, sorted, n, years, index, m, entries, cs)
    ensures running.sums == TrendTotals(years, index, m, entries, cs)
  {
    hide GoodSpan, MonthOf, WholeYear, AllEntriesValid, MovementItems, Post, Carried, SpanOf, CursorAt, OrderedBy, TextPeriod, Before;
    var span := SpanOf(years[index]);
    if m > 1 {
      CursorMoves(sorted, entryIndex, span, m - 1);
    }
    TrendPeriodsAreText(span, m);
    n := AdvanceMonth(running, sorted, entryIndex, span, m, years[index].openingEntryIDs, exclude, cs,
                      Tally(Carried(years, index, entries, cs)));
    PointSums(entries, sorted, n, years, index, m, cs);
  }

  ghost predicate PointsAre(
    points: seq<AmountMap>, years: seq<FiscalYear>, index: nat, entries: seq<Entry>, cs: seq<Classification>, m: nat)
    requires index < |years| && AllEntriesValid(entries)
    reads points
  {
    && |points| == m
    && (forall i, j | 0 <= i < j < m :: points[i] != points[j])
    && (forall i | 0 <= i < m :: points[i].sums == TrendTotals(years, index, i + 1, entries, cs))
  }

  lemma NothingPassed(
    sorted: seq<Entry>, years: seq<FiscalYear>, index: nat, entries: seq<Entry>, cs: seq<Classification>)
    requires index < |years| && AllEntriesValid(entries) && AllEntriesValid(sorted)
    ensures Passed(Tally(Carried(years, index, entries, cs)), sorted, 0, years, index, 0, entries, cs)
  {
    hide Carried, SpanOf, Valid;
    assert sorted[..0] == [];
    PostNothing(Tally(Carried(years, index, entries, cs)));
  }

  // monthlyClosingAmounts: point m of the single pass is the opening plus every
  // movement of the year up to the end of month m, whatever the entry order and
  // whatever lies outside the year.
  method MonthlyClosingAmounts(
    opening: AmountMap, entries: seq<Entry>, years: seq<FiscalYear>, index: nat, cs: seq<Classification>)
      returns (result: seq<AmountMap>)
    requires index < |years| && AllEntriesValid(entries) && GoodSpan(SpanOf(years[index]))
    requires opening.sums == Tally(Carried(years, index, entries, cs))
    ensures PointsAre(result, years, index, entries, cs, 12) && forall p | p in result :: fresh(p)
  {
    hide GoodSpan, AllEntriesValid, Post, Carried, SpanOf, SortedCopy, Passed, TrendTotals;
    var exclude := ExcludedSet(years[index].openingEntryIDs);
    var sorted := SortBy(entries, EntryBefore);
    SortGives(entries);
    SortedHas(sorted, entries);
    NothingPassed(sorted, years, index, entries, cs);
    var running := opening.Clone();
    result := [];
    var entryIndex: nat := 0;
    for m := 1 to 13
      invariant fresh(running) && running !in result && forall p | p in result :: fresh(p)
      invariant Passed(running.sums, sorted, entryIndex, years, index, m - 1, entries, cs)
      invariant PointsAre(result, years, index, entries, cs, m - 1)
    {
      entryIndex := NextMonth(running, sorted, entryIndex, exclude, years, index, m, entries, cs);
      var point := running.Clone();
      result := result + [point];
    }
  }

  lemma SortedHas(sorted: seq<Entry>, entries: seq<Entry>)
    requires SortedCopy(sorted, entries)
    ensures OrderedBy(sorted, EntryBefore) && AllEntriesValid(sorted)
  {
  }

  // ------------------------------------------------------------- alignment

  function KeysOf(ms: seq<Totals>): set<AmountKey> {
    if ms == [] then {} else KeysOf(ms[..|ms| - 1]) + ms[|ms| - 1].Keys
  }

  // Missing keys added without a value.
  function Aligned(m: Totals, keys: set<AmountKey>): Totals {
    map k | k in m.Keys + keys :: Get(m, k)
  }

  lemma AlignedSum(m: Totals, keys: set<AmountKey>, K: iset<AmountKey>)
    ensures TotalSum(Aligned(m, keys), K) == TotalSum(m, K)
  {
    hide Plus, SumOver;
    var n := Aligned(m, keys);
    var S, T := set k | k in m && k in K, set k | k in n && k in K;
    SumOverMore(n, S, T);
    SumOverSame(m, n, S);
  }

  method AlignPoint(point: AmountMap, keys: set<AmountKey>)
    modifies point
    ensures point.sums == Aligned(old(point.sums), keys)
  {
    ghost var before := point.sums;
    var todo := keys;
    while todo != {}
      invariant todo <= keys
      invariant point.sums == Aligned(before, keys - todo)
    {
      var key :| key in todo;
      if key !in point.sums {
        point.sums := point.sums[key := Unset];
      }
      todo := todo - {key};
    }
  }

  method CollectKeys(points: seq<AmountMap>, ghost ms: seq<Totals>) returns (keys: set<AmountKey>)
    requires |ms| == |points| && forall i | 0 <= i < |ms| :: points[i].sums == ms[i]
    ensures keys == KeysOf(ms)
  {
    keys := {};
    assert ms[..0] == [];
    for i := 0 to |points|
      invariant keys == KeysOf(ms[..i])
    {
      assert ms[..i + 1][..i] == ms[..i];
      var todo := points[i].sums.Keys;
      while todo != {}
        invariant todo <= points[i].sums.Keys
        invariant keys == KeysOf(ms[..i]) + (points[i].sums.Keys - todo)
      {
        var key :| key in todo;
        keys := keys + {key};
        todo := todo - {key};
      }
    }
    assert ms[..|ms|] == ms;
  }

  // alignStatementAmounts: every point receives every key, in place.
  method AlignStatementAmounts(points: seq<AmountMap>, ghost ms: seq<Totals>)
    requires |ms| == |points| && forall i | 0 <= i < |ms| :: points[i].sums == ms[i]
    requires forall i, j | 0 <= i < j < |points| :: points[i] != points[j]
    modifies points
    ensures forall i | 0 <= i < |ms| :: points[i].sums == Aligned(ms[i], KeysOf(ms))
  {
    hide Aligned, KeysOf;
    var keys := CollectKeys(points, ms);
    for n := 0 to |points|
      invariant forall i | 0 <= i < n :: points[i].sums == Aligned(ms[i], keys)
      invariant forall i | n <= i < |ms| :: points[i].sums == ms[i]
    {
      AlignPoint(points[n], keys);
    }
  }

  // ------------------------------------------------------------- the trend

  ghost function TrendMonths(years: seq<FiscalYear>, index: nat, entries: seq<Entry>, cs: seq<Classification>): (ms: seq<Totals>)
    requires index < |years| && AllEntriesValid(entries)
    ensures |ms| == 12
  {
    seq(12, i requires 0 <= i < 12 => TrendTotals(years, index, i + 1, entries, cs))
  }

  ghost function PointTotals(ms: seq<Totals>, i: nat): Totals
    requires i < |ms|
  {
    Aligned(ms[i], KeysOf(ms))
  }

  ghost function PointOf(span: Span, ms: seq<Totals>, i: nat): TrendPoint
    requires i < |ms| <= 12
  {
    var statements := StatementsOf(PointTotals(ms, i));
    TrendPoint(PeriodsOf(span)[i + 1], statements.complete, statements.warnings, statements.sections)
  }

  ghost function PointsOf(span: Span, ms: seq<Totals>, n: nat): seq<TrendPoint>
    requires n <= |ms| <= 12
  {
    if n == 0 then [] else PointsOf(span, ms, n - 1) + [PointOf(span, ms, n - 1)]
  }

  function Dated(warnings: seq<Warning>, periodEnd: Date): seq<DatedWarning> {
    seq(|warnings|, i requires 0 <= i < |warnings| => DatedWarning(warnings[i], periodEnd))
  }

  function DatedWarnings(points: seq<TrendPoint>): seq<DatedWarning> {
    if points == [] then []
    else
      var last := points[|points| - 1];
      DatedWarnings(points[..|points| - 1]) + Dated(last.warnings, last.period.period.endDate)
  }

  ghost predicate PointsFit(ms: seq<Totals>, n: nat)
    requires n <= |ms|
  {
    forall i | 0 <= i < n :: AllStatementsFit(PointTotals(ms, i))
  }

  ghost function TrendOf(revision: int, span: Span, ms: seq<Totals>): BalanceTrend
    requires |ms| == 12
  {
    var points := PointsOf(span, ms, 12);
    BalanceTrend(revision, WholeYear(span), forall i | 0 <= i < |points| :: points[i].classificationComplete,
                 DatedWarnings(points), points)
  }

  ghost function BalanceTrendFor(config: Configuration, entries: seq<Entry>, selected: PeriodText)
      : Result<BalanceTrend, ReportError>
  {
    if !ValidConfiguration(config) then Err(BadConfiguration)
    else
      var years, cs := SortYears(config.fiscalYears), SortClassifications(config.classifications);
      var choice := SelectPeriod(years, 0, selected);
      if choice.None? || choice.value.period.month != 0 then Err(InvalidPeriod)
      else if !GoodEntries(entries) then Err(InvalidEntries)
      else
        var index := choice.value.index;
        SelectedPeriod(years, 0, selected);
        GoodAreValid(entries);
        if !OpeningExists(years, index, entries, cs) then Err(BadConfiguration)
        else if !BalancedTotals(Tally(Carried(years, index, entries, cs))) then Err(OpeningUnbalanced)
        else
          var ms := TrendMonths(years, index, entries, cs);
          if PointsFit(ms, 12) then Ok(TrendOf(config.revision, SpanOf(years[index]), ms)) else Err(AmountOverflow)
  }

  // Every point of a trend with a balanced opening is balanced.
  lemma PointBalanced(years: seq<FiscalYear>, index: nat, m: nat, entries: seq<Entry>, cs: seq<Classification>, keys: set<AmountKey>)
    requires index < |years| && AllEntriesValid(entries)
    requires BalancedTotals(Tally(Carried(years, index, entries, cs)))
    ensures BalancedTotals(Aligned(TrendTotals(years, index, m, entries, cs), keys))
  {
    hide BalancedItems, Carried, MovementItems, AllEntriesValid, Aligned, TotalSum, Post, SpanOf;
    var carried := Carried(years, index, entries, cs);
    var p := ThroughMonth(SpanOf(years[index]), m);
    var movement := MovementItems(entries, p, years[index].openingEntryIDs, cs, MovementRole);
    TallyBalanced(carried);
    MovementItemsBalanced(entries, p, years[index].openingEntryIDs, cs, MovementRole);
    BalancedAppend(carried, movement);
    TallyBalanced(carried + movement);
    var total := TrendTotals(years, index, m, entries, cs);
    forall c
      ensures TotalSum(Aligned(total, keys), OfCommodity(c)) == TotalSum(total, OfCommodity(c))
    {
      AlignedSum(total, keys, OfCommodity(c));
    }
  }

  // The point loop of BuildBalanceTrend; its balance check never fires.
  method BuildPoints(points: seq<AmountMap>, periods: seq<FiscalPeriod>, ghost span: Span, ghost ms: seq<Totals>)
      returns (r: Result<seq<TrendPoint>, ReportError>, warnings: seq<DatedWarning>, complete: bool)
    requires |ms| == 12 && |points| == 12 && periods == PeriodsOf(span)
    requires forall i | 0 <= i < 12 :: points[i].sums == PointTotals(ms, i) && BalancedTotals(PointTotals(ms, i))
    ensures r.Ok? <==> PointsFit(ms, 12)
    ensures r.Ok? ==> r.value == PointsOf(span, ms, 12) && warnings == DatedWarnings(r.value)
    ensures r.Ok? ==> (complete <==> forall i | 0 <= i < |r.value| :: r.value[i].classificationComplete)
    ensures r.Err? ==> r.error == AmountOverflow
  {
    hide PointTotals, BalancedTotals, AllStatementsFit, StatementsOf, PeriodsOf;
    var list: seq<TrendPoint> := [];
    warnings, complete := [], true;
    PeriodCount(span);
    for index := 0 to 12
      invariant list == PointsOf(span, ms, index) && |list| == index
      invariant warnings == DatedWarnings(list)
      invariant complete <==> forall i | 0 <= i < index :: list[i].classificationComplete
      invariant PointsFit(ms, index)
    {
      var balanced := AmountsBalanced(points[index].sums);
      if !balanced {
        assert false;
        return Err(OpeningUnbalanced), [], false;
      }
      var statements := AssembleStatements(points[index].sums);
      if statements.Err? {
        return Err(AmountOverflow), [], false;
      }
      var period := periods[index + 1];
      var point := TrendPoint(period, statements.value.complete, statements.value.warnings, statements.value.sections);
      assert point == PointOf(span, ms, index);
      assert (list + [point])[..index] == list;
      list := list + [point];
      warnings := warnings + Dated(statements.value.warnings, period.period.endDate);
      complete := complete && statements.value.complete;
    }
    return Ok(list), warnings, complete;
  }

  lemma PeriodCount(span: Span)
    ensures |PeriodsOf(span)| == 13
  {
    hide MonthOf;
  }

  lemma {:induction false} PointCount(span: Span, ms: seq<Totals>, n: nat)
    requires n <= |ms| <= 12
    ensures |PointsOf(span, ms, n)| == n && forall i | 0 <= i < n :: PointsOf(span, ms, n)[i] == PointOf(span, ms, i)
  {
    hide PointOf;
    if n > 0 {
      PointCount(span, ms, n - 1);
    }
  }

  method TrendOpening(years: seq<FiscalYear>, index: nat, entries: seq<Entry>, cs: seq<Classification>, opening: AmountMap)
      returns (refused: bool)
    requires index < |years| && AllEntriesValid(entries) && opening.sums == Tally(Carried(years, index, entries, cs))
    ensures refused <==> !BalancedTotals(Tally(Carried(years, index, entries, cs)))
  {
    hide BalancedTotals, Carried, AllEntriesValid, Post;
    if years[index].openingMode == OpeningEntries {
      ResetIsBalanced(years, index, entries, cs);
    }
    if years[index].openingMode != OpeningEntries {
      var balanced := AmountsBalanced(opening.sums);
      return !balanced;
    }
    return false;
  }

  // The twelve aligned points of the year.
  method TrendAmounts(opening: AmountMap, entries: seq<Entry>, years: seq<FiscalYear>, index: nat, cs: seq<Classification>)
      returns (points: seq<AmountMap>)
    requires index < |years| && AllEntriesValid(entries) && GoodSpan(SpanOf(years[index]))
    requires opening.sums == Tally(Carried(years, index, entries, cs))
    ensures var ms := TrendMonths(years, index, entries, cs);
            |points| == 12 && forall i | 0 <= i < 12 :: points[i].sums == PointTotals(ms, i)
  {
    hide AllEntriesValid, Carried, GoodSpan, SpanOf, TrendTotals, Aligned, KeysOf, Post;
    points := MonthlyClosingAmounts(opening, entries, years, index, cs);
    ghost var ms := TrendMonths(years, index, entries, cs);
    assert forall i | 0 <= i < 12 :: points[i] in points;
    AlignStatementAmounts(points, ms);
  }

  // BuildBalanceTrend
  method BuildBalanceTrend(config: Configuration, entries: seq<Entry>, selected: PeriodText)
      returns (r: Result<BalanceTrend, ReportError>)
    ensures r == BalanceTrendFor(config, entries, selected)
  {
    hide ValidConfiguration, GoodYears, SortYears, SortClassifications, SelectPeriod, GoodEntries, AllEntriesValid, PeriodsOf, PointTotals, Carried, MovementItems, Post, TextPeriod, OpeningExists, BalancedTotals, PointsOf, TrendTotals, GoodSpan, DatedWarnings, ById;
    var fault := ValidateConfiguration(config);
    if fault.Some? {
      return Err(BadConfiguration);
    }
    var years, cs := SortYears(config.fiscalYears), SortClassifications(config.classifications);
    ValidYears(config);
    var choice := ChoosePeriod(config.startMonth, years, selected);
    if choice.None? || choice.value.period.month != 0 {
      return Err(InvalidPeriod);
    }
    SelectedPeriod(years, 0, selected);
    var index := choice.value.index;
    var validated := ValidateEntries(entries);
    if validated.None? {
      return Err(InvalidEntries);
    }
    var ok, opening := BuildFiscalOpeningCollected(years, index, validated.value, entries, cs, null);
    if !ok {
      return Err(BadConfiguration);
    }
    var refused := TrendOpening(years, index, entries, cs, opening);
    if refused {
      return Err(OpeningUnbalanced);
    }
    YearIsGood(config, index);
    var points := TrendAmounts(opening, entries, years, index, cs);
    r := AssembleTrend(config.revision, years, index, entries, cs, points);
  }

  method AssembleTrend(
    revision: int, years: seq<FiscalYear>, index: nat, ghost entries: seq<Entry>, ghost cs: seq<Classification>,
    points: seq<AmountMap>) returns (r: Result<BalanceTrend, ReportError>)
    requires index < |years| && AllEntriesValid(entries)
    requires BalancedTotals(Tally(Carried(years, index, entries, cs)))
    requires var ms := TrendMonths(years, index, entries, cs);
             |points| == 12 && forall i | 0 <= i < 12 :: points[i].sums == PointTotals(ms, i)
    ensures var ms := TrendMonths(years, index, entries, cs);
            r == if PointsFit(ms, 12) then Ok(TrendOf(revision, SpanOf(years[index]), ms)) else Err(AmountOverflow)
  {
    hide AllEntriesValid, PeriodsOf, Carried, MovementItems, Post, BalancedTotals, PointsOf, TrendTotals, DatedWarnings, SpanOf, Aligned, KeysOf;
    ghost var ms := TrendMonths(years, index, entries, cs);
    var span := SpanOf(years[index]);
    forall i | 0 <= i < 12
      ensures BalancedTotals(PointTotals(ms, i))
    {
      PointBalanced(years, index, i + 1, entries, cs, KeysOf(ms));
    }
    var built, warnings, complete := BuildPoints(points, PeriodsOf(span), span, ms);
    if built.Err? {
      return Err(AmountOverflow);
    }
    PointCount(span, ms, 12);
    return Ok(BalanceTrend(revision, WholeYear(span), complete, warnings, built.value));
  }
}
