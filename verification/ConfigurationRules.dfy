// What an accepted reporting configuration looks like, in plain terms.
module ConfigurationRules {
  import opened Results
  import opened Orders
  import opened Calendar
  import opened Ledger
  import opened EntryRules
  import opened Configurations

  // --------------------------------------------------------- classifications

  // No classified account lies at or below another, the same one listed twice
  // included.
  ghost predicate PlainAccounts(cs: seq<Classification>) {
    && (forall i | 0 <= i < |cs| ::
          PlainName(cs[i].account, AtStart) && cs[i].category in {Asset, Liability, Equity, Revenue, Expense})
    && forall i, j | 0 <= i < |cs| && 0 <= j < |cs| && i != j ::
         cs[i].account != cs[j].account && !(cs[j].account + ":" <= cs[i].account)
  }

  lemma GoodClassificationIff(c: Classification)
    ensures GoodClassification(c) <==>
            PlainName(c.account, AtStart) && c.category in {Asset, Liability, Equity, Revenue, Expense}
  {
    hide ValidAccount, PlainName;
    AccountIff(c.account);
  }

  lemma ApartIff(cs: seq<Classification>)
    ensures NoOverlap(cs) <==>
            forall i, j | 0 <= i < |cs| && 0 <= j < |cs| && i != j ::
              cs[i].account != cs[j].account && !(cs[j].account + ":" <= cs[i].account)
  {
    if NoOverlap(cs) {
      forall i, j | 0 <= i < |cs| && 0 <= j < |cs| && i != j
        ensures cs[i].account != cs[j].account && !(cs[j].account + ":" <= cs[i].account)
      {
        assert cs[i] in cs && cs[j] in cs;
        if cs[i] == cs[j] {
          CountTwo(cs, if i < j then i else j, if i < j then j else i);
        }
      }
    } else if forall i, j | 0 <= i < |cs| && 0 <= j < |cs| && i != j ::
      cs[i].account != cs[j].account && !(cs[j].account + ":" <= cs[i].account)
    {
      forall x | x in cs
        ensures multiset(cs)[x] == 1
      {
        CountOne(cs, x);
      }
      assert false;
    }
  }

  lemma AccountsAccepted(cs: seq<Classification>)
    ensures (forall x | x in cs :: GoodClassification(x)) && NoOverlap(cs) <==> PlainAccounts(cs)
  {
    hide GoodClassification, NoOverlap, PlainName;
    ApartIff(cs);
    forall i | 0 <= i < |cs|
      ensures GoodClassification(cs[i]) <==>
              PlainName(cs[i].account, AtStart) && cs[i].category in {Asset, Liability, Equity, Revenue, Expense}
    {
      GoodClassificationIff(cs[i]);
    }
    assert forall i | 0 <= i < |cs| :: cs[i] in cs;
  }

  ghost predicate Covers(c: Classification, account: string) {
    account == c.account || c.account + ":" <= account
  }

  // An account has the category of the one classification that covers it, and
  // is unclassified when none does.
  lemma ClassifiedIff(c: Configuration, account: string, category: Category)
    requires ValidConfiguration(c)
    ensures Classify(SortClassifications(c.classifications), account) == category <==>
            if category == Unclassified then forall x | x in c.classifications :: !Covers(x, account)
            else exists x :: x in c.classifications && x.category == category && Covers(x, account)
  {
    hide GoodYears, NoOverlap, SortClassifications, Classify;
    SortedClassifierAgrees(c.classifications, account);
    ClassifyFindsMatch(c.classifications, account);
    forall x | x in c.classifications
      ensures Covers(x, account) <==> Matches(x, account)
      ensures x.category != Unclassified
    {
      GoodClassificationIff(x);
    }
    if x, y :| x in c.classifications && y in c.classifications && Matches(x, account) && Matches(y, account) && x != y {
      MatchUnique(c.classifications, x, y, account);
    }
  }

  // ------------------------------------------------------------ fiscal years

  // The day before the first of the month a year later.
  function EndOfYear(year: int, startMonth: int): Date {
    if startMonth == 1 then Date(year, 12, 31) else Date(year + 1, startMonth - 1, DaysIn(year + 1, startMonth - 1))
  }

  // A fiscal year that runs for twelve months from the first of the start
  // month, and opens automatically or from distinct, named entries.
  ghost predicate PlainYear(y: FiscalYear, year: int, startMonth: int) {
    && ParseDate(y.startDate) == Some(Date(year, startMonth, 1))
    && ParseDate(y.endDate) == Some(EndOfYear(year, startMonth))
    && (y.openingMode == Automatic || (y.openingMode == OpeningEntries && |y.openingEntryIDs| > 0))
    && "" !in y.openingEntryIDs
    && forall i, j | 0 <= i < j < |y.openingEntryIDs| :: y.openingEntryIDs[i] != y.openingEntryIDs[j]
  }

  lemma LastDayIs(year: int, startMonth: int)
    requires 1 <= startMonth <= 12
    ensures AddDate(Date(year, startMonth, 1), 1, 0, -1) == EndOfYear(year, startMonth)
    ensures NextDay(EndOfYear(year, startMonth)) == Date(year + 1, startMonth, 1)
  {
    YearEnd(Date(year, startMonth, 1));
  }

  lemma YearIff(y: FiscalYear, startMonth: int)
    requires 1 <= startMonth <= 12
    ensures ParseFiscalYear(y, startMonth).Some? && GoodOpening(y) <==>
            ParseDate(y.startDate).Some? && PlainYear(y, ParseDate(y.startDate).value.year, startMonth)
  {
    hide ParseDate, AddDate;
    if ParseDate(y.startDate).Some? {
      LastDayIs(ParseDate(y.startDate).value.year, startMonth);
    }
  }

  lemma FollowsIff(years: seq<FiscalYear>, i: nat, startMonth: int, a: int, b: int)
    requires 1 <= i < |years| && 1 <= startMonth <= 12
    requires PlainYear(years[i - 1], a, startMonth) && PlainYear(years[i], b, startMonth)
    ensures Follows(years, i) <==> b == a + 1
  {
    hide ParseDate, NextDay, EndOfYear;
    LastDayIs(a, startMonth);
  }

  // The years, in order of their first days, one after the other.
  ghost predicate PlainYears(years: seq<FiscalYear>, startMonth: int) {
    && |years| > 0 && ParseDate(years[0].startDate).Some?
    && forall i | 0 <= i < |years| :: PlainYear(years[i], ParseDate(years[0].startDate).value.year + i, startMonth)
  }

  lemma {:induction false} YearsInARow(years: seq<FiscalYear>, startMonth: int, i: nat)
    requires i < |years| && 1 <= startMonth <= 12 && GoodYears(years, startMonth)
    ensures ParseDate(years[0].startDate).Some?
    ensures PlainYear(years[i], ParseDate(years[0].startDate).value.year + i, startMonth)
  {
    hide ParseDate, ParseFiscalYear, GoodOpening, PlainYear, Follows;
    YearIff(years[i], startMonth);
    YearIff(years[0], startMonth);
    if i > 0 {
      YearsInARow(years, startMonth, i - 1);
      assert Follows(years, i);
      FollowsIff(years, i, startMonth, ParseDate(years[0].startDate).value.year + i - 1, ParseDate(years[i].startDate).value.year);
    }
  }

  lemma YearsAccepted(years: seq<FiscalYear>, startMonth: int)
    requires years != [] && 1 <= startMonth <= 12
    ensures GoodYears(years, startMonth) <==> PlainYears(years, startMonth)
  {
    hide ParseDate, ParseFiscalYear, GoodOpening, PlainYear, Follows;
    if GoodYears(years, startMonth) {
      forall i | 0 <= i < |years|
        ensures ParseDate(years[0].startDate).Some?
        ensures PlainYear(years[i], ParseDate(years[0].startDate).value.year + i, startMonth)
      {
        YearsInARow(years, startMonth, i);
      }
      YearsInARow(years, startMonth, 0);
    }
    if PlainYears(years, startMonth) {
      var first := ParseDate(years[0].startDate).value.year;
      forall i | 0 <= i < |years|
        ensures ParseFiscalYear(years[i], startMonth).Some? && GoodOpening(years[i])
      {
        PlainStart(years[i], first + i, startMonth);
        YearIff(years[i], startMonth);
      }
      forall i | 1 <= i < |years|
        ensures Follows(years, i)
      {
        assert PlainYear(years[i - 1], first + (i - 1), startMonth);
        FollowsIff(years, i, startMonth, first + i - 1, first + i);
      }
    }
  }

  lemma PlainStart(y: FiscalYear, year: int, startMonth: int)
    requires PlainYear(y, year, startMonth)
    ensures ParseDate(y.startDate) == Some(Date(year, startMonth, 1))
  {
  }

  lemma SortedYears(years: seq<FiscalYear>)
    ensures multiset(SortYears(years)) == multiset(years) && |SortYears(years)| == |years|
    ensures forall i, j | 0 <= i < j < |SortYears(years)| :: !TextLess(SortYears(years)[j].startDate, SortYears(years)[i].startDate)
  {
    hide TextLess, SortBy;
    TextOrder();
    SortByMembers(years, ByStartDate);
    assert TotalPreorder(ByStartDate);
    SortByOrdered(years, ByStartDate);
    var sorted := SortYears(years);
    forall i, j | 0 <= i < j < |sorted|
      ensures !TextLess(sorted[j].startDate, sorted[i].startDate)
    {
      assert ByStartDate(sorted[i], sorted[j]);
    }
  }

  // Month m of a fiscal year is a calendar month, m - 1 months after the start
  // month, from its first to its last day.
  lemma MonthIsCalendarMonth(span: Span, m: nat)
    requires GoodSpan(span) && 1 <= m <= 12
    ensures var p, n := MonthOf(span, m), span.start.month + m - 1;
            var year, month := if n <= 12 then span.start.year else span.start.year + 1, if n <= 12 then n else n - 12;
            p.startDate == Date(year, month, 1) && p.endDate == Date(year, month, DaysIn(year, month))
  {
  }

  // The periods of a year: the whole of it, numbered 0, and its months.
  lemma PeriodFields(span: Span, p: FiscalPeriod)
    requires GoodSpan(span)
    ensures p in PeriodsOf(span) <==>
            && p.fiscalYearStart == span.start && p.fiscalYearEnd == span.end && p.month <= 12
            && p.period == if p.month == 0 then Period(span.start, span.end) else MonthOf(span, p.month)
  {
    hide MonthOf, GoodSpan;
    var periods := PeriodsOf(span);
    if p in periods {
      var i :| 0 <= i < |periods| && periods[i] == p;
    }
    if p.fiscalYearStart == span.start && p.fiscalYearEnd == span.end && p.month <= 12
       && p.period == if p.month == 0 then Period(span.start, span.end) else MonthOf(span, p.month) {
      assert periods[p.month] == p;
    }
  }

  // A configuration is accepted exactly when its revision is positive, its
  // start month is a month, its classified accounts are names of which none
  // lies at or below another, each with one of the five categories, and its
  // years, sorted by their first days, are consecutive years of twelve months.
  lemma ConfigurationAccepted(c: Configuration)
    ensures ValidConfiguration(c) <==>
            c.revision >= 1 && 1 <= c.startMonth <= 12 && PlainAccounts(c.classifications)
            && PlainYears(SortYears(c.fiscalYears), c.startMonth)
    ensures multiset(SortYears(c.fiscalYears)) == multiset(c.fiscalYears)
    ensures var years := SortYears(c.fiscalYears);
            forall i, j | 0 <= i < j < |years| :: !TextLess(years[j].startDate, years[i].startDate)
  {
    hide GoodClassification, NoOverlap, PlainAccounts, PlainYear, GoodYears, SortYears, TextLess;
    AccountsAccepted(c.classifications);
    SortedYears(c.fiscalYears);
    if c.fiscalYears != [] && 1 <= c.startMonth <= 12 {
      YearsAccepted(SortYears(c.fiscalYears), c.startMonth);
    }
  }
}
