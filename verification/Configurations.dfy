// Reporting configuration: classification of accounts, fiscal years and the
// reporting periods they contain.
module Configurations {
  import opened Results
  import opened Orders
  import opened Calendar
  import opened Ledger
  import opened Accounts

  datatype Category = Asset | Liability | Equity | Revenue | Expense | Unclassified

  datatype Classification = Classification(account: string, category: Category)

  datatype OpeningMode = Automatic | OpeningEntries | UnknownOpening

  datatype FiscalYear = FiscalYear(startDate: string, endDate: string, openingMode: OpeningMode, openingEntryIDs: seq<string>)

  datatype Configuration = Configuration(
    revision: int, startMonth: int, classifications: seq<Classification>, fiscalYears: seq<FiscalYear>)

  datatype ConfigurationError =
    | InvalidRevision
    | InvalidStartMonth
    | MissingFiscalYears
    | InvalidClassificationAccount
    | InvalidClassificationCategory
    | OverlappingAccounts
    | InvalidFiscalYear
    | NoncontiguousYears
    | InvalidOpeningMode
    | MissingOpeningEntries
    | InvalidOpeningEntries

  // --------------------------------------------------------- classifications

  predicate Matches(c: Classification, account: string) {
    Under(account, c.account)
  }

  // The first matching classification in list order.
  function Classify(items: seq<Classification>, account: string): Category {
    if items == [] then Unclassified
    else if Matches(items[0], account) then items[0].category
    else Classify(items[1..], account)
  }

  ghost predicate GoodClassification(c: Classification) {
    ValidAccount(c.account) && c.category != Unclassified
  }

  // No classification is repeated and none lies under another.
  ghost predicate NoOverlap(items: seq<Classification>) {
    && (forall x | x in items :: multiset(items)[x] == 1)
    && (forall x, y | x in items && y in items && x != y :: !Under(x.account, y.account))
  }

  predicate ByAccount(a: Classification, b: Classification) {
    !TextLess(b.account, a.account)
  }

  // newClassifier sorts its items by account.
  function SortClassifications(items: seq<Classification>): seq<Classification> {
    SortBy(items, ByAccount)
  }

  lemma ByAccountTransitive(a: Classification, b: Classification, c: Classification)
    requires ByAccount(a, b) && ByAccount(b, c)
    ensures ByAccount(a, c)
  {
    hide TextLess;
    TextTrichotomy(a.account, b.account);
    if TextLess(c.account, a.account) && a.account != b.account {
      TextTransitive(c.account, a.account, b.account);
    }
  }

  lemma ByAccountOrder()
    ensures TotalPreorder(ByAccount)
  {
    hide TextLess;
    forall x, y
      ensures ByAccount(x, y) || ByAccount(y, x)
    {
      if TextLess(x.account, y.account) && TextLess(y.account, x.account) {
        TextTransitive(x.account, y.account, x.account);
        TextTrichotomy(x.account, x.account);
      }
    }
    forall x, y, z | ByAccount(x, y) && ByAccount(y, z)
      ensures ByAccount(x, z)
    {
      ByAccountTransitive(x, y, z);
    }
  }

  // At most one classification matches any account.
  lemma MatchUnique(items: seq<Classification>, x: Classification, y: Classification, account: string)
    requires NoOverlap(items) && x in items && y in items
    requires Matches(x, account) && Matches(y, account)
    ensures x == y
  {
    AncestorsChain(account, x.account, y.account);
  }

  lemma {:induction false} ClassifyFindsMatch(items: seq<Classification>, account: string)
    ensures (exists x :: x in items && Matches(x, account) && Classify(items, account) == x.category)
         || (Classify(items, account) == Unclassified && forall x | x in items :: !Matches(x, account))
  {
    if items != [] && !Matches(items[0], account) {
      ClassifyFindsMatch(items[1..], account);
      assert items == [items[0]] + items[1..];
    } else if items != [] {
      assert items[0] in items;
    }
  }

  // Classification does not depend on the order of the items, so the lookup
  // in configuration order and the lookup in sorted order agree.
  lemma ClassifyOrderIrrelevant(items: seq<Classification>, other: seq<Classification>, account: string)
    requires NoOverlap(items) && multiset(other) == multiset(items)
    ensures Classify(items, account) == Classify(other, account)
  {
    hide Classify, Matches;
    ClassifyFindsMatch(items, account);
    ClassifyFindsMatch(other, account);
    assert forall x :: x in items <==> x in multiset(items);
    assert forall x :: x in other <==> x in multiset(other);
    if x :| x in items && Matches(x, account) && Classify(items, account) == x.category {
      if y :| y in other && Matches(y, account) && Classify(other, account) == y.category {
        MatchUnique(items, x, y, account);
      }
    }
  }

  lemma SortedClassifierAgrees(items: seq<Classification>, account: string)
    requires NoOverlap(items)
    ensures Classify(SortClassifications(items), account) == Classify(items, account)
  {
    SortByMembers(items, ByAccount);
    ClassifyOrderIrrelevant(items, SortClassifications(items), account);
  }

  lemma AncestorBefore(account: string, ancestor: string)
    requires Under(account, ancestor) && account != ancestor
    ensures TextLess(ancestor, account)
  {
    ProperPrefixLess(ancestor, account);
  }

  lemma {:induction false} ProperPrefixLess(p: string, s: string)
    requires p <= s && p != s
    ensures TextLess(p, s)
  {
    if p != "" {
      ProperPrefixLess(p[1..], s[1..]);
    }
  }

  lemma {:induction false} CountTwo<T>(s: seq<T>, i: nat, j: nat)
    requires i < j < |s| && s[i] == s[j]
    ensures multiset(s)[s[i]] >= 2
  {
    assert s == s[..j] + s[j..];
    assert s[i] in s[..j] && s[j] in s[j..];
  }

  lemma {:induction false} CountOne<T>(s: seq<T>, x: T)
    requires x in s && forall i, j | 0 <= i < j < |s| :: s[i] != s[j]
    ensures multiset(s)[x] == 1
  {
    var i :| 0 <= i < |s| && s[i] == x;
    assert s == s[..i] + [s[i]] + s[i + 1..];
    assert x !in s[..i] && x !in s[i + 1..];
  }

  // In sorted order an earlier account never lies under a later one.
  lemma EarlierIsNoDescendant(x: Classification, y: Classification)
    requires ByAccount(x, y) && !Under(y.account, x.account)
    ensures !Under(x.account, y.account)
  {
    hide TextLess;
    if Under(x.account, y.account) && x.account != y.account {
      AncestorBefore(x.account, y.account);
    }
  }

  // The one-directional check over the sorted list finds every overlap.
  lemma SortedCheckComplete(sorted: seq<Classification>)
    requires OrderedBy(sorted, ByAccount)
    requires forall p, q | 0 <= p < q < |sorted| :: !Under(sorted[q].account, sorted[p].account)
    ensures NoOverlap(sorted)
  {
    hide TextLess, ByAccount;
    forall x | x in sorted
      ensures multiset(sorted)[x] == 1
    {
      assert forall a: Classification :: Under(a.account, a.account);
      CountOne(sorted, x);
    }
    forall x, y | x in sorted && y in sorted && x != y
      ensures !Under(x.account, y.account)
    {
      var i :| 0 <= i < |sorted| && sorted[i] == x;
      var j :| 0 <= j < |sorted| && sorted[j] == y;
      if i < j {
        assert ByAccount(sorted[i], sorted[j]);
        EarlierIsNoDescendant(x, y);
      }
    }
  }

  predicate ClassificationFault(items: seq<Classification>, fault: ConfigurationError) {
    || (fault.InvalidClassificationAccount? && exists x :: x in items && !ValidAccount(x.account))
    || (fault.InvalidClassificationCategory? && exists x :: x in items && x.category == Unclassified)
    || (fault.OverlappingAccounts? && exists x, y ::
          x in items && y in items && Under(x.account, y.account) && (x == y ==> multiset(items)[x] > 1))
  }

  // What is wrong with classification i of the sorted list, seen after those
  // before it.
  function ClassificationFaultAt(sorted: seq<Classification>, i: nat): Option<ConfigurationError>
    requires i < |sorted|
  {
    if !ValidAccount(sorted[i].account) then Some(InvalidClassificationAccount)
    else if sorted[i].category == Unclassified then Some(InvalidClassificationCategory)
    else if exists p :: 0 <= p < i && Under(sorted[i].account, sorted[p].account) then Some(OverlappingAccounts)
    else None
  }

  function FirstClassificationFault(sorted: seq<Classification>, i: nat): Option<ConfigurationError>
    requires i <= |sorted|
    decreases |sorted| - i
  {
    if i == |sorted| then None
    else if ClassificationFaultAt(sorted, i).Some? then ClassificationFaultAt(sorted, i)
    else FirstClassificationFault(sorted, i + 1)
  }

  // The sorted pairwise check; it reports the first fault in sorted order, and
  // a reported fault is really present.
  method CheckClassifications(items: seq<Classification>) returns (fault: Option<ConfigurationError>)
    ensures fault.None? <==> (forall x | x in items :: GoodClassification(x)) && NoOverlap(items)
    ensures fault.Some? ==> ClassificationFault(items, fault.value)
    ensures fault == FirstClassificationFault(SortClassifications(items), 0)
  {
    hide Under, ValidAccount, SortBy, OrderedBy, TotalPreorder, NoOverlap;
    var sorted := SortClassifications(items);
    ByAccountOrder();
    SortByOrdered(items, ByAccount);
    SortByMembers(items, ByAccount);
    for index := 0 to |sorted|
      invariant FirstClassificationFault(sorted, 0) == FirstClassificationFault(sorted, index)
      invariant forall p | 0 <= p < index :: GoodClassification(sorted[p])
      invariant forall p, q | 0 <= p < q < index :: !Under(sorted[q].account, sorted[p].account)
    {
      var c := sorted[index];
      assert c in sorted;
      if !ValidAccount(c.account) {
        return Some(InvalidClassificationAccount);
      }
      if c.category == Unclassified {
        return Some(InvalidClassificationCategory);
      }
      for previous := 0 to index
        invariant forall p | 0 <= p < previous :: !Under(c.account, sorted[p].account)
      {
        if Under(c.account, sorted[previous].account) {
          OverlapFound(items, sorted, previous, index);
          return Some(OverlappingAccounts);
        }
      }
    }
    SortedCheckComplete(sorted);
    OverlapPermutes(items, sorted);
    return None;
  }

  lemma OverlapPermutes(items: seq<Classification>, other: seq<Classification>)
    requires multiset(items) == multiset(other)
    ensures NoOverlap(items) <==> NoOverlap(other)
  {
    SameMembers(items, other);
  }

  lemma OverlapFound(items: seq<Classification>, sorted: seq<Classification>, p: nat, q: nat)
    requires multiset(items) == multiset(sorted) && p < q < |sorted|
    requires Under(sorted[q].account, sorted[p].account)
    ensures !NoOverlap(items) && ClassificationFault(items, OverlappingAccounts)
  {
    hide Under;
    SameMembers(items, sorted);
    assert sorted[p] in sorted && sorted[q] in sorted;
    if sorted[p] == sorted[q] {
      CountTwo(sorted, p, q);
    }
  }

  // ------------------------------------------------------------ fiscal years

  datatype Span = Span(start: Date, end: Date)

  // parseFiscalYear: the year starts on the first of the start month and ends
  // on the day before that date a year later.
  function ParseFiscalYear(year: FiscalYear, startMonth: int): Option<Span> {
    var start, end := ParseDate(year.startDate), ParseDate(year.endDate);
    if start.None? || start.value.month != startMonth || start.value.day != 1 then None
    else if end != Some(AddDate(start.value, 1, 0, -1)) then None
    else Some(Span(start.value, end.value))
  }

  // The span of a year that parses.
  function SpanOf(year: FiscalYear): Span {
    var start, end := ParseDate(year.startDate), ParseDate(year.endDate);
    if start.Some? && end.Some? then Span(start.value, end.value) else Span(Date(1, 1, 1), Date(1, 1, 1))
  }

  predicate GoodSpan(span: Span) {
    && ValidDate(span.start) && ValidDate(span.end) && span.start.day == 1
    && span.start.year >= 0 && span.end.year <= 9999
    && span.end == LastOfMonth(MonthIndex(span.start) + 11)
  }

  lemma YearEnd(start: Date)
    requires start.day == 1 && ValidDate(start)
    ensures AddDate(start, 1, 0, -1) == LastOfMonth(MonthIndex(start) + 11)
  {
  }

  lemma ParsedSpan(year: FiscalYear, startMonth: int)
    requires ParseFiscalYear(year, startMonth).Some?
    ensures ParseFiscalYear(year, startMonth).value == SpanOf(year) && GoodSpan(SpanOf(year))
    ensures SpanOf(year).start.month == startMonth
    ensures FormatDate(SpanOf(year).start) == year.startDate && FormatDate(SpanOf(year).end) == year.endDate
  {
    hide AddDate, ParseDate, FormatDate;
    YearEnd(SpanOf(year).start);
    FormatInvertsParseDate(year.startDate);
    FormatInvertsParseDate(year.endDate);
  }

  // ----------------------------------------------------------------- periods

  datatype Period = Period(startDate: Date, endDate: Date)

  datatype FiscalPeriod = FiscalPeriod(period: Period, fiscalYearStart: Date, fiscalYearEnd: Date, month: nat)

  predicate InPeriod(d: Date, p: Period) {
    AtMost(p.startDate, d) && AtMost(d, p.endDate)
  }

  // Month number `month` (1 to 12) of a fiscal year.
  function MonthOf(span: Span, month: nat): Period {
    var index := MonthIndex(span.start) + month - 1;
    Period(FirstOfMonth(index), LastOfMonth(index))
  }

  function WholeYear(span: Span): Period {
    Period(span.start, span.end)
  }

  // The whole year first, then its twelve months.
  function PeriodsOf(span: Span): seq<FiscalPeriod> {
    [FiscalPeriod(WholeYear(span), span.start, span.end, 0)]
    + seq(12, i requires 0 <= i < 12 => FiscalPeriod(MonthOf(span, i + 1), span.start, span.end, i + 1))
  }

  lemma MonthArithmetic(start: Date, month: nat)
    requires ValidDate(start) && start.day == 1 && month >= 1
    ensures var first := AddDate(start, 0, month - 1, 0);
            first == FirstOfMonth(MonthIndex(start) + month - 1)
            && AddDate(first, 0, 1, -1) == LastOfMonth(MonthIndex(start) + month - 1)
  {
  }

  lemma MonthWithinYear(span: Span, month: nat)
    requires GoodSpan(span) && 1 <= month <= 12
    ensures MonthOf(span, month).startDate == AddDate(span.start, 0, month - 1, 0)
    ensures MonthOf(span, month).endDate == AddDate(MonthOf(span, month).startDate, 0, 1, -1)
    ensures !Before(span.end, MonthOf(span, month).endDate)
  {
    hide AddDate, FirstOfMonth, LastOfMonth;
    MonthArithmetic(span.start, month);
    MonthBounds(MonthOf(span, month).endDate, MonthIndex(span.start) + 11);
  }

  lemma PeriodsStep(span: Span, month: nat)
    requires 1 <= month <= 12
    ensures |PeriodsOf(span)| == 13
    ensures PeriodsOf(span)[..month + 1]
         == PeriodsOf(span)[..month] + [FiscalPeriod(MonthOf(span, month), span.start, span.end, month)]
  {
    hide MonthOf;
  }

  // The month loop with AddDate; its guard against a month ending after the
  // year never fires.
  method FiscalPeriods(year: FiscalYear, startMonth: int) returns (r: Option<seq<FiscalPeriod>>)
    ensures r == if ParseFiscalYear(year, startMonth).None? then None else Some(PeriodsOf(SpanOf(year)))
  {
    hide ParseFiscalYear, SpanOf, PeriodsOf, GoodSpan;
    var parsed := ParseFiscalYear(year, startMonth);
    if parsed.None? {
      return None;
    }
    ParsedSpan(year, startMonth);
    r := PeriodsWithin(parsed.value);
  }

  method PeriodsWithin(span: Span) returns (r: Option<seq<FiscalPeriod>>)
    requires GoodSpan(span)
    ensures r == Some(PeriodsOf(span))
  {
    hide AddDate, PeriodsOf, MonthOf, Before, GoodSpan;
    var periods := [FiscalPeriod(Period(span.start, span.end), span.start, span.end, 0)];
    PeriodsStep(span, 12);
    WholeYearFirst(span);
    for month := 1 to 13
      invariant periods == PeriodsOf(span)[..month]
    {
      MonthWithinYear(span, month);
      PeriodsStep(span, month);
      var monthStart := AddDate(span.start, 0, month - 1, 0);
      var monthEnd := AddDate(monthStart, 0, 1, -1);
      if Before(span.end, monthEnd) {
        assert false;
        return None;
      }
      assert Period(monthStart, monthEnd) == MonthOf(span, month);
      periods := periods + [FiscalPeriod(Period(monthStart, monthEnd), span.start, span.end, month)];
    }
    assert PeriodsOf(span)[..13] == PeriodsOf(span);
    return Some(periods);
  }

  lemma WholeYearFirst(span: Span)
    ensures PeriodsOf(span)[..1] == [FiscalPeriod(WholeYear(span), span.start, span.end, 0)]
  {
  }

  // The months tile the year: consecutive, starting and ending with it, and
  // every day of the year lies in exactly one of them.
  lemma MonthsTile(span: Span)
    requires GoodSpan(span)
    ensures MonthOf(span, 1).startDate == span.start && MonthOf(span, 12).endDate == span.end
    ensures forall m | 1 <= m <= 11 :: MonthOf(span, m + 1).startDate == NextDay(MonthOf(span, m).endDate)
    ensures forall d | ValidDate(d) && InPeriod(d, WholeYear(span)) ::
              exists m: nat :: 1 <= m <= 12 && InPeriod(d, MonthOf(span, m))
    ensures forall d, m: nat, n: nat | ValidDate(d) && InPeriod(d, MonthOf(span, m)) && InPeriod(d, MonthOf(span, n)) :: m == n
    ensures forall d, m: nat | ValidDate(d) && 1 <= m <= 12 && InPeriod(d, MonthOf(span, m)) :: InPeriod(d, WholeYear(span))
  {
    hide FirstOfMonth, LastOfMonth;
    var base := MonthIndex(span.start);
    MonthChain(span);
    forall d | ValidDate(d) && InPeriod(d, WholeYear(span))
      ensures exists m: nat :: 1 <= m <= 12 && InPeriod(d, MonthOf(span, m))
    {
      DayMonth(span, d);
      var m: nat := MonthIndex(d) - base + 1;
      MonthBounds(d, base + m - 1);
      assert InPeriod(d, MonthOf(span, m));
    }
    forall d, m: nat, n: nat | ValidDate(d) && InPeriod(d, MonthOf(span, m)) && InPeriod(d, MonthOf(span, n))
      ensures m == n
    {
      MonthBounds(d, base + m - 1);
      MonthBounds(d, base + n - 1);
    }
    forall d, m: nat | ValidDate(d) && 1 <= m <= 12 && InPeriod(d, MonthOf(span, m))
      ensures InPeriod(d, WholeYear(span))
    {
      MonthBounds(d, base + m - 1);
      DayMonth(span, d);
    }
  }

  lemma MonthChain(span: Span)
    requires GoodSpan(span)
    ensures MonthOf(span, 1).startDate == span.start && MonthOf(span, 12).endDate == span.end
    ensures forall m | 1 <= m <= 11 :: MonthOf(span, m + 1).startDate == NextDay(MonthOf(span, m).endDate)
  {
    hide FirstOfMonth, LastOfMonth, NextDay;
    FirstOfOwnMonth(span.start);
    forall m | 1 <= m <= 11
      ensures MonthOf(span, m + 1).startDate == NextDay(MonthOf(span, m).endDate)
    {
      DayAfterMonth(MonthIndex(span.start) + m - 1);
    }
  }

  lemma DayAfterMonth(index: int)
    ensures NextDay(LastOfMonth(index)) == FirstOfMonth(index + 1)
  {
  }

  // Lying in the year is having one of its twelve month indices.
  lemma DayMonth(span: Span, d: Date)
    requires GoodSpan(span) && ValidDate(d)
    ensures InPeriod(d, WholeYear(span)) <==> MonthIndex(span.start) <= MonthIndex(d) <= MonthIndex(span.start) + 11
  {
    hide FirstOfMonth, LastOfMonth, AtMost, MonthIndex;
    MonthBounds(d, MonthIndex(span.start));
    MonthBounds(d, MonthIndex(span.start) + 11);
    FirstOfOwnMonth(span.start);
  }

  lemma FirstOfOwnMonth(d: Date)
    requires ValidDate(d) && d.day == 1
    ensures FirstOfMonth(MonthIndex(d)) == d
  {
  }

  // ------------------------------------------------- validating the whole

  predicate DuplicateOrEmpty(values: seq<string>) {
    "" in values || exists i, j :: 0 <= i < j < |values| && values[i] == values[j]
  }

  method HasDuplicateOrEmpty(values: seq<string>) returns (found: bool)
    ensures found == DuplicateOrEmpty(values)
  {
    var seen: set<string> := {};
    for n := 0 to |values|
      invariant forall x :: x in seen <==> x in values[..n]
      invariant !DuplicateOrEmpty(values[..n])
    {
      assert values[..n + 1] == values[..n] + [values[n]];
      if values[n] == "" {
        return true;
      }
      if values[n] in seen {
        var i :| 0 <= i < n && values[..n][i] == values[n];
        assert values[i] == values[n];
        return true;
      }
      seen := seen + {values[n]};
    }
    assert values[..|values|] == values;
    return false;
  }

  predicate GoodOpening(year: FiscalYear) {
    && year.openingMode != UnknownOpening
    && (year.openingMode == OpeningEntries ==> year.openingEntryIDs != [])
    && !DuplicateOrEmpty(year.openingEntryIDs)
  }

  predicate ByStartDate(a: FiscalYear, b: FiscalYear) {
    !TextLess(b.startDate, a.startDate)
  }

  // sortedFiscalYears
  function SortYears(years: seq<FiscalYear>): seq<FiscalYear> {
    SortBy(years, ByStartDate)
  }

  // Every year parses and opens properly, and each starts the day after the
  // one before it ends.
  predicate GoodYears(years: seq<FiscalYear>, startMonth: int) {
    && (forall i | 0 <= i < |years| :: ParseFiscalYear(years[i], startMonth).Some? && GoodOpening(years[i]))
    && (forall i | 1 <= i < |years| :: Follows(years, i))
  }

  ghost predicate ValidConfiguration(c: Configuration) {
    && c.revision >= 1
    && 1 <= c.startMonth <= 12
    && c.fiscalYears != []
    && (forall x | x in c.classifications :: GoodClassification(x)) && NoOverlap(c.classifications)
    && GoodYears(SortYears(c.fiscalYears), c.startMonth)
  }

  predicate YearFault(years: seq<FiscalYear>, startMonth: int, fault: ConfigurationError) {
    || (fault.InvalidFiscalYear? && exists y :: y in years && ParseFiscalYear(y, startMonth).None?)
    || (fault.InvalidOpeningMode? && exists y :: y in years && y.openingMode == UnknownOpening)
    || (fault.MissingOpeningEntries? && exists y :: y in years && y.openingMode == OpeningEntries && y.openingEntryIDs == [])
    || (fault.InvalidOpeningEntries? && exists y :: y in years && DuplicateOrEmpty(y.openingEntryIDs))
    || (fault.NoncontiguousYears? &&
          exists i :: 1 <= i < |years| && !Follows(years, i))
  }

  function OpeningFault(year: FiscalYear): Option<ConfigurationError> {
    if year.openingMode == UnknownOpening then Some(InvalidOpeningMode)
    else if year.openingMode == OpeningEntries && year.openingEntryIDs == [] then Some(MissingOpeningEntries)
    else if DuplicateOrEmpty(year.openingEntryIDs) then Some(InvalidOpeningEntries)
    else None
  }

  // What is wrong with year i of the sorted years, seen after those before it.
  function YearFaultAt(years: seq<FiscalYear>, i: nat, startMonth: int): Option<ConfigurationError>
    requires i < |years|
  {
    if ParseFiscalYear(years[i], startMonth).None? then Some(InvalidFiscalYear)
    else if i > 0 && !Follows(years, i) then Some(NoncontiguousYears)
    else OpeningFault(years[i])
  }

  function FirstYearFault(years: seq<FiscalYear>, i: nat, startMonth: int): Option<ConfigurationError>
    requires i <= |years|
    decreases |years| - i
  {
    if i == |years| then None
    else if YearFaultAt(years, i, startMonth).Some? then YearFaultAt(years, i, startMonth)
    else FirstYearFault(years, i + 1, startMonth)
  }

  // The fault a configuration is refused for, in the order of the checks.
  function ConfigurationFault(c: Configuration): Option<ConfigurationError> {
    if c.revision < 1 then Some(InvalidRevision)
    else if c.startMonth < 1 || c.startMonth > 12 then Some(InvalidStartMonth)
    else if c.fiscalYears == [] then Some(MissingFiscalYears)
    else
      var classifications := FirstClassificationFault(SortClassifications(c.classifications), 0);
      if classifications.Some? then classifications
      else FirstYearFault(SortYears(c.fiscalYears), 0, c.startMonth)
  }

  method CheckOpening(year: FiscalYear) returns (fault: Option<ConfigurationError>)
    ensures fault == OpeningFault(year)
    ensures fault.None? <==> GoodOpening(year)
    ensures fault.Some? ==> YearFault([year], 1, fault.value) && !fault.value.InvalidFiscalYear? && !fault.value.NoncontiguousYears?
  {
    hide ParseFiscalYear, DuplicateOrEmpty;
    assert year in [year];
    if year.openingMode != Automatic && year.openingMode != OpeningEntries {
      return Some(InvalidOpeningMode);
    }
    if year.openingMode == OpeningEntries && year.openingEntryIDs == [] {
      return Some(MissingOpeningEntries);
    }
    var bad := HasDuplicateOrEmpty(year.openingEntryIDs);
    return if bad then Some(InvalidOpeningEntries) else None;
  }

  predicate Follows(years: seq<FiscalYear>, i: nat)
    requires 1 <= i < |years|
  {
    SpanOf(years[i]).start == NextDay(SpanOf(years[i - 1]).end)
  }

  method CheckFollows(years: seq<FiscalYear>, i: nat, startMonth: int) returns (b: bool)
    requires 1 <= i < |years|
    requires ParseFiscalYear(years[i - 1], startMonth).Some?
    ensures b == Follows(years, i)
  {
    hide ParseFiscalYear, SpanOf, NextDay, AddDate, GoodSpan;
    var previousEnd := SpanOf(years[i - 1]).end;
    ParsedSpan(years[i - 1], startMonth);
    SpanForward(SpanOf(years[i - 1]));
    NextDayByAddDate(previousEnd);
    b := AddDate(previousEnd, 0, 0, 1) == SpanOf(years[i]).start;
  }

  lemma FaultAt(years: seq<FiscalYear>, i: nat, startMonth: int)
    requires i < |years|
    ensures ParseFiscalYear(years[i], startMonth).None? ==> YearFault(years, startMonth, InvalidFiscalYear)
    ensures i > 0 && !Follows(years, i) ==> YearFault(years, startMonth, NoncontiguousYears)
    ensures forall f: ConfigurationError | !f.InvalidFiscalYear? && !f.NoncontiguousYears? && YearFault([years[i]], 1, f) ::
              YearFault(years, startMonth, f)
  {
    hide ParseFiscalYear, Follows, DuplicateOrEmpty;
    assert years[i] in years;
  }

  method CheckYears(years: seq<FiscalYear>, startMonth: int) returns (fault: Option<ConfigurationError>)
    ensures fault.None? <==> GoodYears(years, startMonth)
    ensures fault.Some? ==> YearFault(years, startMonth, fault.value)
    ensures fault == FirstYearFault(years, 0, startMonth)
  {
    hide ParseFiscalYear, GoodOpening, Follows, GoodSpan, Before, YearFault, SpanOf, OpeningFault;
    for index := 0 to |years|
      invariant FirstYearFault(years, 0, startMonth) == FirstYearFault(years, index, startMonth)
      invariant forall i | 0 <= i < index :: ParseFiscalYear(years[i], startMonth).Some? && GoodOpening(years[i])
      invariant forall i | 1 <= i < index :: Follows(years, i)
    {
      var year := years[index];
      var parsed := ParseFiscalYear(year, startMonth);
      FaultAt(years, index, startMonth);
      if parsed.None? {
        return Some(InvalidFiscalYear);
      }
      if index > 0 {
        var follows := CheckFollows(years, index, startMonth);
        if !follows {
          return Some(NoncontiguousYears);
        }
      }
      fault := CheckOpening(year);
      if fault.Some? {
        return;
      }
      ParsedSpan(year, startMonth);
      SpanForward(parsed.value);
      if Before(parsed.value.end, parsed.value.start) {
        assert false;
        return Some(InvalidOpeningEntries);
      }
    }
    return None;
  }

  lemma {:induction false} AddDaysWithin(d: Date, n: nat)
    requires ValidDate(d) && d.day + n <= DaysIn(d.year, d.month)
    ensures AddDays(d, n) == d.(day := d.day + n)
    decreases n
  {
    if n > 0 {
      AddDaysWithin(NextDay(d), n - 1);
    }
  }

  lemma {:induction false} AddDaysSum(d: Date, a: nat, b: nat)
    ensures AddDays(AddDays(d, a), b) == AddDays(d, a + b)
    decreases a
  {
    if a > 0 {
      AddDaysSum(NextDay(d), a - 1, b);
    }
  }

  lemma NextDayByAddDate(d: Date)
    requires ValidDate(d)
    ensures AddDate(d, 0, 0, 1) == NextDay(d)
  {
    var first := FirstOfMonth(MonthIndex(d));
    AddDaysWithin(first, d.day - 1);
    AddDaysSum(first, d.day - 1, 1);
    assert AddDays(d, 1) == NextDay(d);
  }

  lemma SpanForward(span: Span)
    requires GoodSpan(span)
    ensures !Before(span.end, span.start) && ValidDate(span.start) && ValidDate(span.end)
  {
    MonthBounds(span.end, MonthIndex(span.start));
  }

  // ValidateConfiguration
  method ValidateConfiguration(c: Configuration) returns (fault: Option<ConfigurationError>)
    ensures fault.None? <==> ValidConfiguration(c)
    ensures fault == ConfigurationFault(c)
  {
    hide NoOverlap, GoodClassification, GoodYears, FirstClassificationFault, FirstYearFault;
    if c.revision < 1 {
      return Some(InvalidRevision);
    }
    if c.startMonth < 1 || c.startMonth > 12 {
      return Some(InvalidStartMonth);
    }
    if c.fiscalYears == [] {
      return Some(MissingFiscalYears);
    }
    fault := CheckClassifications(c.classifications);
    if fault.Some? {
      return;
    }
    fault := CheckYears(SortYears(c.fiscalYears), c.startMonth);
  }
}
