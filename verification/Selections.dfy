// Every year, month and year to date of a valid configuration can be asked for
// by its two date texts, and the texts select exactly that period.
module Selections {
  import opened Results
  import opened Calendar
  import opened Configurations
  import opened Bookkeeping
  import opened Reports
  import opened Incomes

  function TextOf(p: Period): PeriodText
    requires TextPeriod(p)
  {
    PeriodText(FormatDate(p.startDate), FormatDate(p.endDate))
  }

  lemma SameText(p: Period, q: Period)
    requires TextPeriod(p)
    ensures IsPeriod(q, TextOf(p)) <==> p == q
  {
    hide FormatDate, ParseDate;
    ParseInvertsFormatDate(p.startDate);
    ParseInvertsFormatDate(p.endDate);
    if IsPeriod(q, TextOf(p)) {
      ParseInvertsFormatDate(q.startDate);
      ParseInvertsFormatDate(q.endDate);
    }
  }

  // The first period with the given dates is found.
  lemma {:induction false} FindFirst(periods: seq<FiscalPeriod>, p: Period, k: nat)
    requires TextPeriod(p) && k <= |periods|
    requires forall j | 0 <= j < k :: periods[j].period != p
    ensures k == |periods| ==> FindPeriod(periods, TextOf(p)) == None
    ensures k < |periods| && periods[k].period == p ==> FindPeriod(periods, TextOf(p)) == Some(periods[k])
  {
    hide IsPeriod, TextPeriod, TextOf;
    if periods != [] {
      SameText(p, periods[0].period);
      if k > 0 {
        FindFirst(periods[1..], p, k - 1);
      }
    }
  }

  // ----------------------------------------------- periods as month intervals

  lemma MonthEnds(index: int)
    ensures MonthIndex(FirstOfMonth(index)) == index && MonthIndex(LastOfMonth(index)) == index
  {
  }

  // Years are numbered by the months they start with.
  lemma {:induction false} YearBase(years: seq<FiscalYear>, startMonth: int, i: nat)
    requires GoodYears(years, startMonth) && i < |years|
    ensures GoodSpan(SpanOf(years[i]))
    ensures MonthIndex(SpanOf(years[i]).start) == MonthIndex(SpanOf(years[0]).start) + 12 * i
  {
    hide GoodYears, ParseFiscalYear, SpanOf, GoodSpan, Follows, MonthIndex;
    YearParses(years, startMonth, i);
    if i > 0 {
      YearBase(years, startMonth, i - 1);
      NextYear(years, i);
    }
  }

  lemma YearParses(years: seq<FiscalYear>, startMonth: int, i: nat)
    requires GoodYears(years, startMonth) && i < |years|
    ensures GoodSpan(SpanOf(years[i])) && (i > 0 ==> Follows(years, i))
  {
    hide ParseFiscalYear, SpanOf, GoodOpening, GoodSpan, Follows;
    ParsedSpan(years[i], startMonth);
  }

  lemma NextYear(years: seq<FiscalYear>, i: nat)
    requires 1 <= i < |years| && GoodSpan(SpanOf(years[i - 1])) && Follows(years, i)
    ensures MonthIndex(SpanOf(years[i]).start) == MonthIndex(SpanOf(years[i - 1]).start) + 12
  {
    hide SpanOf, FirstOfMonth, LastOfMonth, NextDay, MonthIndex;
    DayAfterMonth(MonthIndex(SpanOf(years[i - 1]).start) + 11);
    MonthEnds(MonthIndex(SpanOf(years[i - 1]).start) + 12);
  }

  lemma PeriodEnds(span: Span, k: nat)
    requires GoodSpan(span) && k <= 12
    ensures |PeriodsOf(span)| == 13
    ensures var p, base := PeriodsOf(span)[k].period, MonthIndex(span.start);
            && MonthIndex(p.startDate) == base + (if k == 0 then 0 else k - 1)
            && MonthIndex(p.endDate) == base + (if k == 0 then 11 else k - 1)
  {
    hide FirstOfMonth, LastOfMonth, MonthIndex;
    MonthEnds(MonthIndex(span.start) + 11);
    MonthEnds(MonthIndex(span.start) + k - 1);
  }

  lemma ToDateEnds(span: Span, m: nat)
    requires GoodSpan(span) && 1 <= m <= 12
    ensures MonthIndex(ThroughMonth(span, m).startDate) == MonthIndex(span.start)
    ensures MonthIndex(ThroughMonth(span, m).endDate) == MonthIndex(span.start) + m - 1
  {
    hide FirstOfMonth, LastOfMonth, MonthIndex;
    MonthEnds(MonthIndex(span.start) + m - 1);
  }

  // No year or month is a period whose start lies in another year or which is
  // a year to date.
  lemma NotAmong(span: Span, p: Period, k: nat)
    requires GoodSpan(span) && k <= 12
    requires var base, a, b := MonthIndex(span.start), MonthIndex(p.startDate), MonthIndex(p.endDate);
             a < base || base + 11 < a || (a == base && base < b < base + 11)
    ensures |PeriodsOf(span)| == 13 && PeriodsOf(span)[k].period != p
  {
    hide PeriodsOf, MonthIndex, GoodSpan;
    PeriodEnds(span, k);
  }

  lemma NotAmongAll(span: Span, p: Period)
    requires GoodSpan(span) && TextPeriod(p)
    requires var base, a, b := MonthIndex(span.start), MonthIndex(p.startDate), MonthIndex(p.endDate);
             a < base || base + 11 < a || (a == base && base < b < base + 11)
    ensures FindPeriod(PeriodsOf(span), TextOf(p)) == None
  {
    hide PeriodsOf, MonthIndex, GoodSpan, TextPeriod, TextOf, FindPeriod;
    NotAmong(span, p, 0);
    forall k | 0 <= k < 13
      ensures PeriodsOf(span)[k].period != p
    {
      NotAmong(span, p, k);
    }
    FindFirst(PeriodsOf(span), p, 13);
  }

  // Selecting from year `from` on, when the period's first month lies in year
  // `index` and the year itself answers with `found`.
  lemma {:induction false} SelectFrom(
    years: seq<FiscalYear>, startMonth: int, from: nat, index: nat, p: Period, found: Option<FiscalPeriod>)
    requires GoodYears(years, startMonth) && from <= |years| && index < |years| && TextPeriod(p)
    requires var base := MonthIndex(SpanOf(years[index]).start); base <= MonthIndex(p.startDate) <= base + 11
    requires FindPeriod(PeriodsOf(SpanOf(years[index])), TextOf(p)) == found
    ensures SelectPeriod(years, from, TextOf(p)) ==
            if from <= index && found.Some? then Some(Selection(found.value, index)) else None
    decreases |years| - from
  {
    hide PeriodsOf, MonthIndex, GoodSpan, TextPeriod, TextOf, FindPeriod, SpanOf, GoodYears;
    if from < |years| {
      YearBase(years, startMonth, from);
      YearBase(years, startMonth, index);
      if from != index {
        NotAmongAll(SpanOf(years[from]), p);
      }
      SelectFrom(years, startMonth, from + 1, index, p, found);
    }
  }

  lemma PeriodsAreTexts(span: Span, k: nat)
    requires GoodSpan(span) && k <= 12
    ensures |PeriodsOf(span)| == 13 && TextPeriod(PeriodsOf(span)[k].period)
  {
    hide FirstOfMonth, LastOfMonth, GoodSpan, MonthOf, TextPeriod;
    PeriodIsText(Selection(PeriodsOf(span)[k], 0), span);
  }

  lemma FoundInYear(span: Span, k: nat)
    requires GoodSpan(span) && k <= 12
    ensures |PeriodsOf(span)| == 13 && TextPeriod(PeriodsOf(span)[k].period)
    ensures FindPeriod(PeriodsOf(span), TextOf(PeriodsOf(span)[k].period)) == Some(PeriodsOf(span)[k])
  {
    hide PeriodsOf, MonthIndex, GoodSpan, TextPeriod, TextOf, FindPeriod;
    PeriodsAreTexts(span, k);
    var p := PeriodsOf(span)[k].period;
    forall j | 0 <= j < k
      ensures PeriodsOf(span)[j].period != p
    {
      PeriodEnds(span, j);
      PeriodEnds(span, k);
    }
    FindFirst(PeriodsOf(span), p, k);
  }

  // The whole year (k = 0) and each month k of every fiscal year is selected
  // by its own dates.
  lemma PeriodSelectable(config: Configuration, index: nat, k: nat)
    requires ValidConfiguration(config) && index < |SortYears(config.fiscalYears)| && k <= 12
    ensures var years := SortYears(config.fiscalYears);
            var p := MonthSelection(years, index, k).period.period;
            && TextPeriod(p)
            && SelectPeriod(years, 0, TextOf(p)) == Some(MonthSelection(years, index, k))
            && SelectIncomePeriod(years, TextOf(p)) == Some(MonthSelection(years, index, k))
  {
    hide NoOverlap, GoodClassification, SortYears, PeriodsOf, MonthIndex, GoodSpan, TextPeriod, TextOf, FindPeriod, SpanOf, GoodYears, SelectPeriod;
    var years := SortYears(config.fiscalYears);
    var span := SpanOf(years[index]);
    YearBase(years, config.startMonth, index);
    FoundInYear(span, k);
    PeriodEnds(span, k);
    SelectFrom(years, config.startMonth, 0, index, PeriodsOf(span)[k].period, Some(PeriodsOf(span)[k]));
  }

  // --------------------------------------------------------- years to date

  lemma ToDateIsText(span: Span, m: nat)
    requires GoodSpan(span) && 1 <= m <= 12
    ensures TextPeriod(ThroughMonth(span, m))
  {
    hide FirstOfMonth, LastOfMonth, GoodSpan, MonthOf;
    PeriodIsText(Selection(PeriodsOf(span)[m], 0), span);
    PeriodIsText(Selection(PeriodsOf(span)[0], 0), span);
  }

  lemma FindToDate(span: Span, p: Period, m: nat)
    requires GoodSpan(span) && TextPeriod(p)
    ensures MonthIndex(p.startDate) != MonthIndex(span.start) ==> FindPeriod(YearToDates(span), TextOf(p)) == None
    ensures 2 <= m <= 11 && p == ThroughMonth(span, m) ==> FindPeriod(YearToDates(span), TextOf(p)) == Some(YearToDate(span, m))
  {
    hide MonthIndex, GoodSpan, TextPeriod, TextOf, FindPeriod, ThroughMonth;
    var periods := YearToDates(span);
    if MonthIndex(p.startDate) != MonthIndex(span.start) {
      forall j | 0 <= j < 10
        ensures periods[j].period != p
      {
        ToDateEnds(span, j + 2);
      }
      FindFirst(periods, p, 10);
    }
    if 2 <= m <= 11 && p == ThroughMonth(span, m) {
      forall j | 0 <= j < m - 2
        ensures periods[j].period != p
      {
        ToDateEnds(span, j + 2);
        ToDateEnds(span, m);
      }
      FindFirst(periods, p, m - 2);
    }
  }

  lemma {:induction false} SelectToDateFrom(years: seq<FiscalYear>, startMonth: int, from: nat, index: nat, m: nat)
    requires GoodYears(years, startMonth) && from <= index < |years| && 2 <= m <= 11
    requires TextPeriod(ThroughMonth(SpanOf(years[index]), m))
    ensures SelectYearToDate(years, from, TextOf(ThroughMonth(SpanOf(years[index]), m))) ==
            Some(Selection(YearToDate(SpanOf(years[index]), m), index))
    decreases index - from
  {
    hide YearToDates, MonthIndex, GoodSpan, TextPeriod, TextOf, FindPeriod, SpanOf, GoodYears, ThroughMonth;
    var p := ThroughMonth(SpanOf(years[index]), m);
    YearBase(years, startMonth, from);
    YearBase(years, startMonth, index);
    ToDateEnds(SpanOf(years[index]), m);
    FindToDate(SpanOf(years[from]), p, m);
    if from != index {
      SelectToDateFrom(years, startMonth, from + 1, index, m);
    }
  }

  // The year to date through month m of every fiscal year is selected by its
  // own dates, for the income statement.
  lemma YearToDateSelectable(config: Configuration, index: nat, m: nat)
    requires ValidConfiguration(config) && index < |SortYears(config.fiscalYears)| && 1 <= m <= 12
    ensures var years := SortYears(config.fiscalYears);
            var p := ThroughMonth(SpanOf(years[index]), m);
            && TextPeriod(p) && SelectIncomePeriod(years, TextOf(p)).Some?
            && SelectIncomePeriod(years, TextOf(p)).value.index == index
            && SelectIncomePeriod(years, TextOf(p)).value.period.period == p
  {
    hide NoOverlap, GoodClassification, SortYears, MonthIndex, GoodSpan, TextPeriod, TextOf, FindPeriod, SpanOf, GoodYears, SelectPeriod, SelectYearToDate, ThroughMonth, MonthOf;
    var years := SortYears(config.fiscalYears);
    var span := SpanOf(years[index]);
    YearBase(years, config.startMonth, index);
    ToDateIsText(span, m);
    ToDateEnds(span, m);
    FirstMonthThrough(span);
    if m == 1 {
      PeriodSelectable(config, index, 1);
    } else if m == 12 {
      PeriodSelectable(config, index, 0);
    } else {
      NotAmongAll(span, ThroughMonth(span, m));
      SelectFrom(years, config.startMonth, 0, index, ThroughMonth(span, m), None);
      SelectToDateFrom(years, config.startMonth, 0, index, m);
    }
  }
}
