// Civil dates: validity, order, the YYYY-MM-DD text and the date arithmetic of
// time.Time.AddDate on dates.
module Calendar {
  import opened Results
  import opened Decimals
  import opened Orders

  datatype Date = Date(year: int, month: int, day: int)

  predicate IsLeap(year: int) {
    year % 4 == 0 && (year % 100 != 0 || year % 400 == 0)
  }

  function DaysIn(year: int, month: int): (n: int)
    ensures 28 <= n <= 31
  {
    if month == 2 then (if IsLeap(year) then 29 else 28)
    else if month == 4 || month == 6 || month == 9 || month == 11 then 30
    else 31
  }

  predicate ValidDate(d: Date) {
    1 <= d.month <= 12 && 1 <= d.day <= DaysIn(d.year, d.month)
  }

  predicate Before(a: Date, b: Date) {
    a.year < b.year || (a.year == b.year && (a.month < b.month || (a.month == b.month && a.day < b.day)))
  }

  predicate AtMost(a: Date, b: Date) {
    !Before(b, a)
  }

  // ------------------------------------------------------------ arithmetic

  // Months since the start of year 0; the inverse is FirstOfMonth.
  function MonthIndex(d: Date): int {
    12 * d.year + d.month - 1
  }

  function FirstOfMonth(index: int): (d: Date)
    ensures ValidDate(d) && d.day == 1 && MonthIndex(d) == index
  {
    Date(index / 12, index % 12 + 1, 1)
  }

  function LastOfMonth(index: int): (d: Date)
    ensures ValidDate(d) && MonthIndex(d) == index
  {
    var first := FirstOfMonth(index);
    first.(day := DaysIn(first.year, first.month))
  }

  function NextDay(d: Date): Date {
    if d.day < DaysIn(d.year, d.month) then d.(day := d.day + 1) else FirstOfMonth(MonthIndex(d) + 1)
  }

  function PrevDay(d: Date): Date {
    if d.day > 1 then d.(day := d.day - 1) else LastOfMonth(MonthIndex(d) - 1)
  }

  function AddDays(d: Date, n: int): Date
    decreases if n < 0 then -n else n
  {
    if n == 0 then d else if n > 0 then AddDays(NextDay(d), n - 1) else AddDays(PrevDay(d), n + 1)
  }

  // time.Time.AddDate: years and months are applied first, and an overlong day
  // number then runs on into the following month.
  function AddDate(d: Date, years: int, months: int, days: int): Date {
    AddDays(FirstOfMonth(MonthIndex(d) + 12 * years + months), d.day - 1 + days)
  }

  // ------------------------------------------------------ counting the days

  // The years completed by the first of March before the date: March starts
  // the year here, so that leap days come last.
  function MarchYear(d: Date): int {
    if d.month >= 3 then d.year else d.year - 1
  }

  // Days from the first of March to the first of the month, February last.
  function DaysSinceMarch(month: int): int {
    match month
    case 3 => 0
    case 4 => 31
    case 5 => 61
    case 6 => 92
    case 7 => 122
    case 8 => 153
    case 9 => 184
    case 10 => 214
    case 11 => 245
    case 12 => 275
    case 1 => 306
    case _ => 337
  }

  // The number of a date in the Gregorian calendar: 365 days a year and a leap
  // day every fourth year, except in centuries not divisible by 400.
  function DayNumber(d: Date): int {
    var y := MarchYear(d);
    365 * y + y / 4 - y / 100 + y / 400 + DaysSinceMarch(d.month) + d.day
  }

  lemma LeapDays(y: int)
    ensures y / 4 - (y - 1) / 4 == (if y % 4 == 0 then 1 else 0)
    ensures y / 100 - (y - 1) / 100 == (if y % 100 == 0 then 1 else 0)
    ensures y / 400 - (y - 1) / 400 == (if y % 400 == 0 then 1 else 0)
    ensures y % 400 == 0 ==> y % 100 == 0
    ensures y % 100 == 0 ==> y % 4 == 0
  {
  }

  // The first of the next month.
  function MonthAfter(d: Date): Date {
    if d.month == 12 then Date(d.year + 1, 1, 1) else Date(d.year, d.month + 1, 1)
  }

  lemma MonthAfterIs(d: Date)
    requires ValidDate(d)
    ensures FirstOfMonth(MonthIndex(d) + 1) == MonthAfter(d)
  {
  }

  lemma LastDayNumber(d: Date)
    requires ValidDate(d) && d.day == DaysIn(d.year, d.month)
    ensures DayNumber(MonthAfter(d)) == DayNumber(d) + 1
  {
    LeapDays(d.year);
  }

  // The next day has the next number, leap days included.
  lemma NextDayNumber(d: Date)
    requires ValidDate(d)
    ensures DayNumber(NextDay(d)) == DayNumber(d) + 1
  {
    hide DaysSinceMarch;
    if d.day == DaysIn(d.year, d.month) {
      MonthAfterIs(d);
      LastDayNumber(d);
    }
  }

  // AddDate moves by whole months to a first of a month and then by days.
  lemma {:induction false} AddDaysNumber(d: Date, n: int)
    requires ValidDate(d)
    ensures ValidDate(AddDays(d, n)) && DayNumber(AddDays(d, n)) == DayNumber(d) + n
    decreases if n < 0 then -n else n
  {
    hide DayNumber, NextDay, PrevDay;
    NextPrev(d);
    if n > 0 {
      NextDayNumber(d);
      AddDaysNumber(NextDay(d), n - 1);
    } else if n < 0 {
      NextDayNumber(PrevDay(d));
      AddDaysNumber(PrevDay(d), n + 1);
    }
  }

  lemma NextPrev(d: Date)
    requires ValidDate(d)
    ensures ValidDate(NextDay(d)) && PrevDay(NextDay(d)) == d
    ensures ValidDate(PrevDay(d)) && NextDay(PrevDay(d)) == d
  {
  }

  // No date lies strictly between a date and its successor.
  lemma NextIsSuccessor(d: Date, e: Date)
    requires ValidDate(d) && ValidDate(e)
    ensures AtMost(d, e) <==> Before(d, NextDay(e))
  {
  }

  lemma BeforeIsOrder(a: Date, b: Date, c: Date)
    ensures Before(a, b) && AtMost(b, c) ==> Before(a, c)
    ensures AtMost(a, b) && AtMost(b, c) ==> AtMost(a, c)
    ensures AtMost(a, b) && AtMost(b, a) <==> a == b
  {
  }

  // A valid date belongs to the month its index names.
  lemma MonthBounds(d: Date, index: int)
    requires ValidDate(d)
    ensures AtMost(FirstOfMonth(index), d) && AtMost(d, LastOfMonth(index)) <==> MonthIndex(d) == index
    ensures AtMost(FirstOfMonth(index), d) <==> index <= MonthIndex(d)
    ensures AtMost(d, LastOfMonth(index)) <==> MonthIndex(d) <= index
  {
  }

  // ------------------------------------------------------------------ text

  function Pad(n: nat, width: nat): string {
    var digits := Digits(n);
    if |digits| < width then Zeros(width - |digits|) + digits else digits
  }

  // Format(time.DateOnly) for years from 0 on.
  function FormatDate(d: Date): string
    requires d.year >= 0 && ValidDate(d)
  {
    Pad(d.year, 4) + "-" + Pad(d.month, 2) + "-" + Pad(d.day, 2)
  }

  // Parse(time.DateOnly): four, two and two digits, and an existing day.
  function ParseDate(text: string): (r: Option<Date>)
    ensures r.Some? ==> ValidDate(r.value) && 0 <= r.value.year <= 9999
  {
    if |text| == 10 && AllDigits(text[..4]) && text[4] == '-' && AllDigits(text[5..7]) && text[7] == '-'
       && AllDigits(text[8..])
    then
      NumberBound(text[..4]);
      var d := Date(Number(text[..4]), Number(text[5..7]), Number(text[8..]));
      assert Pow10(4) == 10000;
      if ValidDate(d) then Some(d) else None
    else None
  }

  lemma {:induction false} DigitsLength(n: nat, width: nat)
    requires width > 0 && n < Pow10(width)
    ensures |Digits(n)| <= width
  {
    if n >= 10 {
      assert Pow10(width) == 10 * Pow10(width - 1);
      assert width > 1 by {
        assert Pow10(1) == 10 * Pow10(0);
      }
      DigitsLength(n / 10, width - 1);
    }
  }

  lemma ZerosPrefix(zeros: string, digits: string)
    requires AllDigits(zeros) && AllDigits(digits) && Number(zeros) == 0
    ensures AllDigits(zeros + digits) && Number(zeros + digits) == Number(digits)
  {
    NumberAppend(zeros, digits);
  }

  lemma PadNumber(n: nat, width: nat)
    requires width > 0 && n < Pow10(width)
    ensures |Pad(n, width)| == width && AllDigits(Pad(n, width)) && Number(Pad(n, width)) == n
  {
    DigitsLength(n, width);
    NumberOfDigits(n);
    var digits := Digits(n);
    if |digits| < width {
      NumberOfZeros(width - |digits|);
      ZerosPrefix(Zeros(width - |digits|), digits);
    }
  }

  lemma SmallPowers()
    ensures Pow10(2) == 100 && Pow10(4) == 10000
  {
  }

  lemma DateFields(y: string, m: string, d: string)
    requires |y| == 4 && |m| == 2 && |d| == 2
    ensures var t := y + "-" + m + "-" + d;
            |t| == 10 && t[..4] == y && t[4] == '-' && t[5..7] == m && t[7] == '-' && t[8..] == d
  {
  }

  // Parsing inverts formatting on every representable date.
  lemma ParseInvertsFormatDate(d: Date)
    requires ValidDate(d) && 0 <= d.year <= 9999
    ensures |FormatDate(d)| == 10 && ParseDate(FormatDate(d)) == Some(d)
  {
    SmallPowers();
    PadNumber(d.year, 4);
    PadNumber(d.month, 2);
    PadNumber(d.day, 2);
    DateFields(Pad(d.year, 4), Pad(d.month, 2), Pad(d.day, 2));
  }

  // ... and a text that parses is the format of its date.
  lemma FormatInvertsParseDate(text: string)
    requires ParseDate(text).Some?
    ensures FormatDate(ParseDate(text).value) == text
  {
    SmallPowers();
    PadOfNumber(text[..4]);
    PadOfNumber(text[5..7]);
    PadOfNumber(text[8..]);
    assert text == text[..4] + "-" + text[5..7] + "-" + text[8..];
  }

  lemma {:induction false} PadOfNumber(s: string)
    requires AllDigits(s) && s != ""
    ensures Pad(Number(s), |s|) == s
  {
    NumberBound(s);
    PadNumber(Number(s), |s|);
    NumberInjective(s, Pad(Number(s), |s|));
  }

  lemma {:induction false} NumberInjective(s: string, t: string)
    requires AllDigits(s) && AllDigits(t) && |s| == |t| && Number(s) == Number(t)
    ensures s == t
  {
    if s != "" {
      NumberInjective(s[..|s| - 1], t[..|t| - 1]);
      assert DigitValue(s[|s| - 1]) == DigitValue(t[|t| - 1]);
      assert s == s[..|s| - 1] + [s[|s| - 1]] && t == t[..|t| - 1] + [t[|t| - 1]];
    }
  }

  // --------------------------------------------------- order of date texts

  lemma {:induction false} CommonPrefix(p: string, a: string, b: string)
    ensures TextLess(p + a, p + b) <==> TextLess(a, b)
  {
    if p == "" {
      assert p + a == a && p + b == b;
    } else {
      assert (p + a)[1..] == p[1..] + a && (p + b)[1..] == p[1..] + b;
      CommonPrefix(p[1..], a, b);
    }
  }

  lemma {:induction false} DistinctPrefix(p: string, q: string, a: string, b: string)
    requires |p| == |q| && p != q
    ensures TextLess(p + a, q + b) <==> TextLess(p, q)
  {
    if p == "" {
    } else {
      assert (p + a)[1..] == p[1..] + a && (q + b)[1..] == q[1..] + b;
      if p[0] == q[0] {
        assert p[1..] != q[1..] by {
          assert p == [p[0]] + p[1..] && q == [q[0]] + q[1..];
        }
        DistinctPrefix(p[1..], q[1..], a, b);
      }
    }
  }

  lemma {:induction false} NumeralOrder(s: string, t: string)
    requires AllDigits(s) && AllDigits(t) && |s| == |t|
    ensures TextLess(s, t) <==> Number(s) < Number(t)
  {
    if s != "" {
      var p, q := s[..|s| - 1], t[..|t| - 1];
      NumeralOrder(p, q);
      assert s == p + s[|s| - 1..] && t == q + t[|t| - 1..];
      if p == q {
        CommonPrefix(p, s[|s| - 1..], t[|t| - 1..]);
      } else {
        DistinctPrefix(p, q, s[|s| - 1..], t[|t| - 1..]);
        if Number(p) == Number(q) {
          NumberInjective(p, q);
        }
      }
    }
  }

  lemma PadOrder(a: nat, b: nat, width: nat)
    requires width > 0 && a < Pow10(width) && b < Pow10(width)
    ensures TextLess(Pad(a, width), Pad(b, width)) <==> a < b
    ensures Pad(a, width) == Pad(b, width) <==> a == b
  {
    PadNumber(a, width);
    PadNumber(b, width);
    NumeralOrder(Pad(a, width), Pad(b, width));
  }

  lemma FieldOrder(a: nat, b: nat, width: nat, s: string, t: string)
    requires width > 0 && a < Pow10(width) && b < Pow10(width)
    ensures TextLess(Pad(a, width) + s, Pad(b, width) + t) <==> a < b || (a == b && TextLess(s, t))
  {
    PadOrder(a, b, width);
    PadNumber(a, width);
    PadNumber(b, width);
    if a == b {
      CommonPrefix(Pad(a, width), s, t);
    } else {
      DistinctPrefix(Pad(a, width), Pad(b, width), s, t);
    }
  }

  // Comparing the ten-character texts compares the dates, so `date < startDate`
  // on strings is the calendar order.
  lemma DateTextOrder(a: Date, b: Date)
    requires ValidDate(a) && ValidDate(b) && 0 <= a.year <= 9999 && 0 <= b.year <= 9999
    ensures TextLess(FormatDate(a), FormatDate(b)) <==> Before(a, b)
  {
    hide Pad, TextLess;
    SmallPowers();
    var sa, sb := "-" + Pad(a.day, 2), "-" + Pad(b.day, 2);
    var ta, tb := "-" + (Pad(a.month, 2) + sa), "-" + (Pad(b.month, 2) + sb);
    assert FormatDate(a) == Pad(a.year, 4) + ta;
    assert FormatDate(b) == Pad(b.year, 4) + tb;
    FieldOrder(a.year, b.year, 4, ta, tb);
    CommonPrefix("-", Pad(a.month, 2) + sa, Pad(b.month, 2) + sb);
    FieldOrder(a.month, b.month, 2, sa, sb);
    CommonPrefix("-", Pad(a.day, 2), Pad(b.day, 2));
    PadOrder(a.day, b.day, 2);
  }
}
