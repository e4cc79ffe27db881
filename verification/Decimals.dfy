// Fixed-point decimals of internal/ledger/decimal.go: a coefficient below
// 2^96 in magnitude together with a retained scale of at most 28 digits.
module Decimals {
  import opened Results
  import opened Texts

  const MAX_SCALE: nat := 28
  const MAX_COEFFICIENT: nat := 79228162514264337593543950335
  // Number of decimal digits of MAX_COEFFICIENT.
  const MAX_DIGITS: nat := 29

  datatype Fixed = Fixed(coefficient: int, scale: nat)

  type Decimal = d: Fixed | InRange(d.coefficient, d.scale) witness Fixed(0, 0)

  datatype DecimalError = InvalidDecimal | DecimalOverflow

  function Abs(x: int): nat {
    if x < 0 then -x else x
  }

  function Max(a: nat, b: nat): nat {
    if a < b then b else a
  }

  function Signed(negative: bool, n: nat): int {
    if negative then -(n as int) else n
  }

  predicate InRange(coefficient: int, scale: nat) {
    scale <= MAX_SCALE && Abs(coefficient) <= MAX_COEFFICIENT
  }

  function Pow10(n: nat): (p: nat)
    ensures p > 0
  {
    if n == 0 then 1 else 10 * Pow10(n - 1)
  }

  lemma {:induction false} Pow10Add(a: nat, b: nat)
    ensures Pow10(a + b) == Pow10(a) * Pow10(b)
  {
    if a == 0 {
    } else {
      Pow10Add(a - 1, b);
      assert Pow10(a + b) == 10 * (Pow10(a - 1) * Pow10(b));
    }
  }

  // ---------------------------------------------------------------- digits

  predicate IsDigit(c: char) {
    '0' <= c <= '9'
  }

  predicate AllDigits(s: string) {
    forall i | 0 <= i < |s| :: IsDigit(s[i])
  }

  function DigitChar(n: nat): (c: char)
    requires n < 10
    ensures IsDigit(c)
  {
    ('0' as int + n) as char
  }

  function DigitValue(c: char): (n: nat)
    requires IsDigit(c)
    ensures n < 10 && DigitChar(n) == c
  {
    c as int - '0' as int
  }

  // The decimal numeral of n without leading zeros.
  function Digits(n: nat): (s: string)
    ensures s != [] && AllDigits(s)
  {
    if n < 10 then [DigitChar(n)] else Digits(n / 10) + [DigitChar(n % 10)]
  }

  // The number a digit string denotes.
  function Number(s: string): nat
    requires AllDigits(s)
  {
    if s == [] then 0 else 10 * Number(s[..|s| - 1]) + DigitValue(s[|s| - 1])
  }

  function Zeros(n: nat): (s: string)
    ensures |s| == n && AllDigits(s)
  {
    if n == 0 then "" else "0" + Zeros(n - 1)
  }

  lemma {:induction false} NumberOfDigits(n: nat)
    ensures Number(Digits(n)) == n
  {
    if n < 10 {
      assert Number([DigitChar(n)]) == DigitValue(DigitChar(n));
    } else {
      NumberOfDigits(n / 10);
      var s := Digits(n);
      assert s[..|s| - 1] == Digits(n / 10);
    }
  }

  lemma TenTimes(m: nat, p: nat)
    ensures 10 * (m * p) == m * (10 * p)
  {
  }

  lemma {:induction false} NumberAppend(s: string, t: string)
    requires AllDigits(s) && AllDigits(t)
    ensures AllDigits(s + t)
    ensures Number(s + t) == Number(s) * Pow10(|t|) + Number(t)
  {
    if t == [] {
      assert s + t == s;
    } else {
      var u := t[..|t| - 1];
      NumberAppend(s, u);
      assert (s + t)[..|s + t| - 1] == s + u;
      TenTimes(Number(s), Pow10(|u|));
    }
  }

  lemma {:induction false} NumberOfZeros(n: nat)
    ensures Number(Zeros(n)) == 0
  {
    if n > 0 {
      NumberOfZeros(n - 1);
      NumberAppend("0", Zeros(n - 1));
      assert Number("0") == 0;
    }
  }

  lemma {:induction false} NumberBound(s: string)
    requires AllDigits(s)
    ensures Number(s) < Pow10(|s|)
    ensures s != [] && s[0] != '0' ==> Number(s) >= Pow10(|s| - 1)
  {
    if |s| > 1 {
      NumberBound(s[..|s| - 1]);
    } else if |s| == 1 {
      assert Number(s) == 10 * Number(s[..0]) + DigitValue(s[0]);
    }
  }

  // ---------------------------------------------------------------- printing

  // formatFixedPoint on a non-negative coefficient: at least one digit before
  // the point and exactly `scale` digits after it.
  function PaddedDigits(n: nat, scale: nat): (s: string)
    ensures |s| > scale && AllDigits(s)
  {
    var digits := Digits(n);
    if |digits| <= scale then Zeros(scale - |digits| + 1) + digits else digits
  }

  function FormatUnsigned(n: nat, scale: nat): string {
    var digits := PaddedDigits(n, scale);
    var split := |digits| - scale;
    if scale == 0 then digits else digits[..split] + "." + digits[split..]
  }

  function FormatFixed(coefficient: int, scale: nat): string {
    if coefficient < 0 then "-" + FormatUnsigned(-coefficient, scale) else FormatUnsigned(coefficient, scale)
  }

  function ToString(d: Fixed): string {
    FormatFixed(d.coefficient, d.scale)
  }

  // ---------------------------------------------------------------- parsing

  // decimalFromCoefficient
  function FromCoefficient(coefficient: int, scale: nat): Result<Decimal, DecimalError> {
    if InRange(coefficient, scale) then Ok(Fixed(coefficient, scale)) else Err(DecimalOverflow)
  }

  // The accepted language and its value, stated on the parts of the text:
  // an optional minus, at least one digit, optionally a point followed by at
  // least one digit.
  function ParseDecimal(value: string): Result<Decimal, DecimalError> {
    var negative := value != "" && value[0] == '-';
    ParseUnsigned(negative, if negative then value[1..] else value)
  }

  function ParseUnsigned(negative: bool, body: string): Result<Decimal, DecimalError> {
    var dot := IndexOf(body, '.');
    if dot < |body| then
      if body[dot + 1..] == "" then Err(InvalidDecimal) else ParseParts(negative, body[..dot], body[dot + 1..])
    else
      ParseParts(negative, body, "")
  }

  function ParseParts(negative: bool, integer: string, fraction: string): Result<Decimal, DecimalError> {
    if integer == "" || !AllDigits(integer) || !AllDigits(fraction) then Err(InvalidDecimal)
    else FromCoefficient(Signed(negative, Number(integer + fraction)), |fraction|)
  }

  method IsASCIIDigits(value: string) returns (b: bool)
    ensures b <==> AllDigits(value)
  {
    var i := 0;
    while i < |value|
      invariant i <= |value|
      invariant forall j | 0 <= j < i :: IsDigit(value[j])
    {
      if value[i] < '0' || value[i] > '9' {
        return false;
      }
      i := i + 1;
    }
    return true;
  }

  function CountOf(s: string, c: char): nat {
    if s == [] then 0 else (if s[0] == c then 1 else 0) + CountOf(s[1..], c)
  }

  lemma {:induction false} CountPositive(s: string, i: nat)
    requires i < |s|
    ensures CountOf(s, s[i]) >= 1
  {
    if i > 0 {
      CountPositive(s[1..], i - 1);
    }
  }

  lemma {:induction false} SecondOccurrence(s: string, c: char)
    ensures CountOf(s, c) > 1 ==> IndexOf(s, c) < |s| && c in s[IndexOf(s, c) + 1..]
    ensures CountOf(s, c) <= 1 && IndexOf(s, c) < |s| ==> c !in s[IndexOf(s, c) + 1..]
  {
    if s == [] {
    } else if s[0] == c {
      assert s[0 + 1..] == s[1..];
      if c in s[1..] {
        var i :| 0 <= i < |s[1..]| && s[1..][i] == c;
        CountPositive(s[1..], i);
      } else {
        CountAbsent(s[1..], c);
      }
    } else {
      SecondOccurrence(s[1..], c);
      var i := IndexOf(s[1..], c);
      if i < |s[1..]| {
        assert s[1..][i + 1..] == s[i + 2..];
      }
    }
  }

  lemma {:induction false} CountAbsent(s: string, c: char)
    requires c !in s
    ensures CountOf(s, c) == 0
  {
    if s != [] {
      assert s[0] in s;
      assert forall x | x in s[1..] :: x in s;
      CountAbsent(s[1..], c);
    }
  }

  function TrimLeftZeros(s: string): string {
    if s != [] && s[0] == '0' then TrimLeftZeros(s[1..]) else s
  }

  lemma {:induction false} TrimmedNumber(s: string)
    requires AllDigits(s)
    ensures AllDigits(TrimLeftZeros(s)) && Number(TrimLeftZeros(s)) == Number(s)
    ensures TrimLeftZeros(s) != [] ==> TrimLeftZeros(s)[0] != '0'
  {
    if s != [] && s[0] == '0' {
      TrimmedNumber(s[1..]);
      assert s == "0" + s[1..];
      NumberAppend("0", s[1..]);
      assert Number("0") == 0;
    }
  }

  lemma Pow10Of29()
    ensures Pow10(29) == 100000000000000000000000000000
  {
    assert Pow10(5) == 100000;
    assert Pow10(10) == 10000000000 by { Pow10Add(5, 5); }
    assert Pow10(20) == 100000000000000000000 by { Pow10Add(10, 10); }
    assert Pow10(4) == 10000;
    assert Pow10(9) == 1000000000 by { Pow10Add(5, 4); }
    Pow10Add(20, 9);
  }

  lemma {:induction false} Pow10Monotone(a: nat, b: nat)
    requires a <= b
    ensures Pow10(a) <= Pow10(b)
  {
    if a < b {
      Pow10Monotone(a, b - 1);
    }
  }

  // The step-by-step parser: counting points, trimming leading zeros and
  // rejecting more than 29 significant digits before converting decides the
  // same language with the same values.
  method ParseDecimalText(value: string) returns (r: Result<Decimal, DecimalError>)
    ensures r == ParseDecimal(value)
  {
    if value == "" {
      return Err(InvalidDecimal);
    }
    var negative := value[0] == '-';
    var body := value;
    if negative {
      body := value[1..];
      if body == "" {
        return Err(InvalidDecimal);
      }
    }
    if CountOf(body, '.') > 1 {
      TwoPointsInvalid(negative, body);
      return Err(InvalidDecimal);
    }
    var integerPart := body;
    var fractionPart := "";
    var dot := IndexOf(body, '.');
    if dot < |body| {
      integerPart := body[..dot];
      fractionPart := body[dot + 1..];
      if fractionPart == "" {
        return Err(InvalidDecimal);
      }
    }
    assert ParseDecimal(value) == ParseParts(negative, integerPart, fractionPart);
    r := ParsePartsText(negative, integerPart, fractionPart);
  }

  lemma TwoPointsInvalid(negative: bool, body: string)
    requires CountOf(body, '.') > 1
    ensures ParseUnsigned(negative, body) == Err(InvalidDecimal)
  {
    SecondOccurrence(body, '.');
    var fraction := body[IndexOf(body, '.') + 1..];
    var i :| 0 <= i < |fraction| && fraction[i] == '.';
  }

  method ParsePartsText(negative: bool, integerPart: string, fractionPart: string)
      returns (r: Result<Decimal, DecimalError>)
    ensures r == ParseParts(negative, integerPart, fractionPart)
  {
    var integerDigits := IsASCIIDigits(integerPart);
    var fractionDigits := IsASCIIDigits(fractionPart);
    if integerPart == "" || !integerDigits || !fractionDigits {
      return Err(InvalidDecimal);
    }
    if |fractionPart| > MAX_SCALE {
      return Err(DecimalOverflow);
    }
    var digits := TrimLeftZeros(integerPart + fractionPart);
    TrimmedNumber(integerPart + fractionPart);
    if digits == "" {
      digits := "0";
      assert Number("0") == Number("");
    }
    if |digits| > MAX_DIGITS {
      TooManyDigits(digits);
      return Err(DecimalOverflow);
    }
    var coefficient: int := Number(digits);
    if coefficient > MAX_COEFFICIENT {
      return Err(DecimalOverflow);
    }
    if negative && coefficient != 0 {
      coefficient := -coefficient;
    }
    return Ok(Fixed(coefficient, |fractionPart|));
  }

  lemma TooManyDigits(digits: string)
    requires AllDigits(digits) && |digits| > MAX_DIGITS && digits[0] != '0'
    ensures Number(digits) > MAX_COEFFICIENT
  {
    NumberBound(digits);
    Pow10Of29();
    Pow10Monotone(29, |digits| - 1);
  }

  // ------------------------------------------------------------- round trip

  lemma {:induction false} PaddedNumber(n: nat, scale: nat)
    ensures Number(PaddedDigits(n, scale)) == n
  {
    var digits := Digits(n);
    NumberOfDigits(n);
    if |digits| <= scale {
      var z := Zeros(scale - |digits| + 1);
      NumberOfZeros(scale - |digits| + 1);
      NumberAppend(z, digits);
    }
  }

  // The digits before and after the point.
  function IntegerDigits(n: nat, scale: nat): string {
    PaddedDigits(n, scale)[..|PaddedDigits(n, scale)| - scale]
  }

  function FractionDigits(n: nat, scale: nat): string {
    PaddedDigits(n, scale)[|PaddedDigits(n, scale)| - scale..]
  }

  lemma FormatShape(n: nat, scale: nat)
    ensures var integer, fraction := IntegerDigits(n, scale), FractionDigits(n, scale);
            && integer != "" && AllDigits(integer) && AllDigits(fraction) && |fraction| == scale
            && AllDigits(integer + fraction) && Number(integer + fraction) == n
            && FormatUnsigned(n, scale) == WithPoint(integer, fraction)
            && IsDigit(FormatUnsigned(n, scale)[0])
  {
    PaddedNumber(n, scale);
    var digits := PaddedDigits(n, scale);
    assert IntegerDigits(n, scale) + FractionDigits(n, scale) == digits;
    if scale == 0 {
      assert IntegerDigits(n, 0) == digits;
    }
  }

  function WithPoint(integer: string, fraction: string): string {
    if fraction == "" then integer else integer + "." + fraction
  }

  function WithSign(negative: bool, body: string): string {
    if negative then "-" + body else body
  }

  // Where the point of a well-formed body is found.
  lemma SplitBody(integer: string, fraction: string)
    requires AllDigits(integer)
    requires AllDigits(fraction)
    ensures var body := WithPoint(integer, fraction);
            if fraction == "" then body == integer && IndexOf(body, '.') == |body|
            else IndexOf(body, '.') == |integer| < |body| && body[..|integer|] == integer && body[|integer| + 1..] == fraction
  {
    var body := WithPoint(integer, fraction);
    if fraction != "" {
      assert body[|integer|] == '.';
      assert forall j | 0 <= j < |integer| :: body[j] == integer[j];
      IndexOfUnique(body, '.', |integer|);
    }
  }

  // Acceptance on well-formed text is exactly the scale and coefficient range.
  lemma AcceptanceIsRange(negative: bool, integer: string, fraction: string)
    requires integer != "" && AllDigits(integer) && AllDigits(fraction)
    ensures AllDigits(integer + fraction)
    ensures ParseDecimal(WithSign(negative, WithPoint(integer, fraction))) ==
            if |fraction| <= 28 && Number(integer + fraction) < 0x1_0000_0000_0000_0000_0000_0000
            then Ok(Fixed(Signed(negative, Number(integer + fraction)), |fraction|))
            else Err(DecimalOverflow)
  {
    NumberAppend(integer, fraction);
    UnsignedWellFormed(negative, integer, fraction);
    SignedText(negative, WithPoint(integer, fraction));
  }

  lemma SignedText(negative: bool, body: string)
    requires body != "" && IsDigit(body[0])
    ensures ParseDecimal(WithSign(negative, body)) == ParseUnsigned(negative, body)
  {
    assert ("-" + body)[1..] == body;
  }

  lemma UnsignedWellFormed(negative: bool, integer: string, fraction: string)
    requires integer != "" && AllDigits(integer) && AllDigits(fraction)
    ensures ParseUnsigned(negative, WithPoint(integer, fraction)) == ParseParts(negative, integer, fraction)
  {
    SplitBody(integer, fraction);
  }

  // ParseDecimal inverts String on every decimal, scale included.
  lemma ParseInvertsFormat(d: Decimal)
    ensures ParseDecimal(ToString(d)) == Ok(d)
  {
    var n, scale := Abs(d.coefficient), d.scale;
    FormatShape(n, scale);
    var integer, fraction := IntegerDigits(n, scale), FractionDigits(n, scale);
    assert ToString(d) == WithSign(d.coefficient < 0, WithPoint(integer, fraction));
    AcceptanceIsRange(d.coefficient < 0, integer, fraction);
  }

  // The printed text determines the coefficient and the scale.
  lemma FormatUnsignedInjective(n1: nat, s1: nat, n2: nat, s2: nat)
    requires FormatUnsigned(n1, s1) == FormatUnsigned(n2, s2)
    ensures n1 == n2 && s1 == s2
  {
    FormatShape(n1, s1);
    FormatShape(n2, s2);
    SplitBody(IntegerDigits(n1, s1), FractionDigits(n1, s1));
    SplitBody(IntegerDigits(n2, s2), FractionDigits(n2, s2));
  }

  // Printing is injective on the whole unbounded domain of coefficients.
  lemma FormatInjective(c1: int, s1: nat, c2: int, s2: nat)
    requires FormatFixed(c1, s1) == FormatFixed(c2, s2)
    ensures c1 == c2 && s1 == s2
  {
    FormatShape(Abs(c1), s1);
    FormatShape(Abs(c2), s2);
    var t := FormatFixed(c1, s1);
    assert ("-" + FormatUnsigned(Abs(c1), s1))[1..] == FormatUnsigned(Abs(c1), s1);
    assert FormatUnsigned(Abs(c1), s1) == if t[0] == '-' then t[1..] else t;
    assert FormatUnsigned(Abs(c2), s2) == if t[0] == '-' then t[1..] else t;
    FormatUnsignedInjective(Abs(c1), s1, Abs(c2), s2);
  }

  // ------------------------------------------------------------- arithmetic

  function Scaled(d: Fixed, scale: nat): int
    requires d.scale <= scale
  {
    d.coefficient * Pow10(scale - d.scale)
  }

  function Sign(d: Fixed): int {
    if d.coefficient < 0 then -1 else if d.coefficient == 0 then 0 else 1
  }

  function Cmp(a: Fixed, b: Fixed): int {
    var scale := Max(a.scale, b.scale);
    var left, right := Scaled(a, scale), Scaled(b, scale);
    if left < right then -1 else if left == right then 0 else 1
  }

  predicate Equal(a: Fixed, b: Fixed) {
    Cmp(a, b) == 0
  }

  // The comparison does not depend on the common scale chosen.
  lemma CmpAtAnyScale(a: Fixed, b: Fixed, scale: nat)
    requires a.scale <= scale && b.scale <= scale
    ensures Cmp(a, b) == (if Scaled(a, scale) < Scaled(b, scale) then -1
                          else if Scaled(a, scale) == Scaled(b, scale) then 0 else 1)
  {
    var m := Max(a.scale, b.scale);
    var p := Pow10(scale - m);
    Rescale(a, m, scale);
    Rescale(b, m, scale);
    var left, right := Scaled(a, m), Scaled(b, m);
    if left < right {
      MulMonotone(left, right, p);
    } else if right < left {
      MulMonotone(right, left, p);
    }
  }

  lemma MulMonotone(x: int, y: int, p: nat)
    requires x < y && p > 0
    ensures x * p < y * p
  {
  }

  lemma Rescale(a: Fixed, m: nat, scale: nat)
    requires a.scale <= m <= scale
    ensures Scaled(a, scale) == Scaled(a, m) * Pow10(scale - m)
  {
    Pow10Add(m - a.scale, scale - m);
    MulAssociative(a.coefficient, Pow10(m - a.scale), Pow10(scale - m));
  }

  lemma MulAssociative(x: int, y: int, z: int)
    ensures x * (y * z) == x * y * z
  {
  }

  // Numeric equality is an equivalence although it ignores the scale.
  lemma EqualTransitive(a: Fixed, b: Fixed, c: Fixed)
    requires Equal(a, b) && Equal(b, c)
    ensures Equal(a, c) && Equal(c, a)
  {
    var scale := Max(Max(a.scale, b.scale), c.scale);
    CmpAtAnyScale(a, b, scale);
    CmpAtAnyScale(b, c, scale);
    CmpAtAnyScale(a, c, scale);
    CmpAtAnyScale(c, a, scale);
  }

  // -------------------------------------------------------- canonical text

  function TrimRightZeros(s: string): string {
    if s != [] && s[|s| - 1] == '0' then TrimRightZeros(s[..|s| - 1]) else s
  }

  function TrimSuffixPoint(s: string): string {
    if s != [] && s[|s| - 1] == '.' then s[..|s| - 1] else s
  }

  // canonicalDecimal of internal/ingest/identity.go.
  function CanonicalDecimal(d: Fixed): string {
    if d.coefficient == 0 then "0"
    else
      var text := ToString(d);
      if '.' in text then TrimSuffixPoint(TrimRightZeros(text)) else text
  }

  // The value with all removable trailing fractional zeros removed.
  function Reduced(d: Fixed): Fixed
    decreases d.scale
  {
    if d.coefficient == 0 then Fixed(0, 0)
    else if d.scale > 0 && d.coefficient % 10 == 0 then Reduced(Fixed(d.coefficient / 10, d.scale - 1))
    else d
  }

  lemma {:induction false} ReducedEqual(d: Fixed)
    ensures Equal(d, Reduced(d)) && Reduced(d).scale <= d.scale
    ensures var r := Reduced(d); r.scale > 0 ==> r.coefficient % 10 != 0
    decreases d.scale
  {
    if d.coefficient == 0 {
    } else if d.scale > 0 && d.coefficient % 10 == 0 {
      var e := Fixed(d.coefficient / 10, d.scale - 1);
      ReducedEqual(e);
      assert Pow10(1) == 10 * Pow10(0);
      assert Scaled(e, d.scale) == d.coefficient && Scaled(d, d.scale) == d.coefficient;
      CmpAtAnyScale(d, e, d.scale);
      EqualTransitive(d, e, Reduced(e));
    } else {
      CmpAtAnyScale(d, d, d.scale);
    }
  }

  lemma MultipleOfTen(c: int, p: nat)
    ensures (c * (10 * p)) % 10 == 0
  {
    assert c * (10 * p) == 10 * (c * p);
  }

  lemma ReducedUnique(a: Fixed, b: Fixed)
    requires Equal(a, b) && a.scale <= b.scale
    requires b.scale > 0 ==> b.coefficient % 10 != 0
    ensures a == b
  {
    assert Pow10(0) == 1;
    CmpAtAnyScale(a, b, b.scale);
    assert Scaled(b, b.scale) == b.coefficient;
    if a.scale < b.scale {
      MultipleOfTen(a.coefficient, Pow10(b.scale - a.scale - 1));
      assert false;
    }
  }

  lemma DigitsOfMultiple(n: nat)
    requires n > 0
    ensures Digits(10 * n) == Digits(n) + "0"
  {
    assert 10 * n / 10 == n && 10 * n % 10 == 0;
  }

  lemma {:induction false} DigitsLast(n: nat)
    ensures Digits(n)[|Digits(n)| - 1] == DigitChar(n % 10)
  {
    if n < 10 {
    } else {
    }
  }

  lemma PaddedOfMultiple(n: nat, scale: nat)
    requires n > 0 && scale > 0
    ensures PaddedDigits(10 * n, scale) == PaddedDigits(n, scale - 1) + "0"
  {
    DigitsOfMultiple(n);
    var digits := Digits(n);
    if |digits| <= scale - 1 {
      assert |Digits(10 * n)| <= scale;
      var z := Zeros(scale - |digits|);
      assert z + (digits + "0") == (z + digits) + "0";
    }
  }

  lemma FormatOfMultiple(n: nat, scale: nat)
    requires n > 0 && scale > 0
    ensures FormatUnsigned(10 * n, scale) == FormatUnsigned(n, scale - 1) + (if scale == 1 then ".0" else "0")
  {
    PaddedOfMultiple(n, scale);
    var p := PaddedDigits(n, scale - 1);
    var q := p + "0";
    var split := |q| - scale;
    assert q[..split] == p[..split];
    assert q[split..] == p[split..] + "0";
    if scale == 1 {
      assert p[..split] == p && p[split..] == "";
    } else {
      assert p[..split] + "." + (p[split..] + "0") == (p[..split] + "." + p[split..]) + "0";
    }
  }

  lemma FormatEnds(n: nat, scale: nat)
    requires n % 10 != 0
    ensures var t := FormatUnsigned(n, scale); t != "" && t[|t| - 1] != '0' && t[|t| - 1] != '.'
  {
    DigitsLast(n);
    var digits := PaddedDigits(n, scale);
    assert digits[|digits| - 1] == DigitChar(n % 10);
    assert DigitValue(DigitChar(n % 10)) == n % 10;
  }

  lemma PointPresent(n: nat, scale: nat)
    ensures '.' in FormatUnsigned(n, scale) <==> scale > 0
  {
    var digits := PaddedDigits(n, scale);
    if scale > 0 {
      assert FormatUnsigned(n, scale)[|digits| - scale] == '.';
    }
  }

  lemma PointPresentSigned(c: int, scale: nat)
    ensures '.' in FormatFixed(c, scale) <==> scale > 0
  {
    PointPresent(Abs(c), scale);
    assert forall x :: x in "-" + FormatUnsigned(Abs(c), scale) <==> x == '-' || x in FormatUnsigned(Abs(c), scale);
  }

  lemma TrimRightAppend(t: string)
    ensures TrimRightZeros(t + "0") == TrimRightZeros(t)
    ensures TrimRightZeros(t + ".0") == t + "."
    ensures TrimSuffixPoint(t + ".") == t
  {
    assert (t + "0")[..|t|] == t;
    assert (t + ".0")[..|t + ".0"| - 1] == t + ".";
    assert (t + ".")[..|t|] == t;
  }

  lemma ToStringOfMultiple(c: int, scale: nat)
    requires c != 0 && scale > 0
    ensures FormatFixed(10 * c, scale) == FormatFixed(c, scale - 1) + (if scale == 1 then ".0" else "0")
  {
    FormatOfMultiple(Abs(c), scale);
    assert Abs(10 * c) == 10 * Abs(c);
  }

  lemma CanonicalStep(c: int, scale: nat)
    requires c != 0 && scale > 0
    ensures CanonicalDecimal(Fixed(10 * c, scale)) == CanonicalDecimal(Fixed(c, scale - 1))
  {
    ToStringOfMultiple(c, scale);
    PointPresentSigned(10 * c, scale);
    PointPresentSigned(c, scale - 1);
    TrimRightAppend(FormatFixed(c, scale - 1));
  }

  lemma CanonicalBase(d: Fixed)
    requires d.coefficient != 0 && (d.scale == 0 || d.coefficient % 10 != 0)
    ensures CanonicalDecimal(d) == ToString(d)
  {
    PointPresentSigned(d.coefficient, d.scale);
    if d.scale > 0 {
      AbsMod(d.coefficient);
      FormatEnds(Abs(d.coefficient), d.scale);
    }
  }

  lemma ZeroText()
    ensures FormatFixed(0, 0) == "0"
  {
    assert Digits(0) == [DigitChar(0)];
  }

  // The canonical text is the print of the reduced value.
  lemma {:induction false} CanonicalIsReduced(d: Fixed)
    ensures CanonicalDecimal(d) == ToString(Reduced(d))
    decreases d.scale
  {
    if d.coefficient == 0 {
      ZeroText();
    } else if d.scale == 0 || d.coefficient % 10 != 0 {
      CanonicalBase(d);
    } else {
      var c := d.coefficient / 10;
      assert d == Fixed(10 * c, d.scale);
      CanonicalStep(c, d.scale);
      CanonicalIsReduced(Fixed(c, d.scale - 1));
    }
  }

  lemma AbsMod(c: int)
    ensures c % 10 == 0 <==> Abs(c) % 10 == 0
  {
  }

  // Two amounts get the same canonical text exactly when they are numerically equal.
  lemma CanonicalDecidesEqual(a: Fixed, b: Fixed)
    ensures CanonicalDecimal(a) == CanonicalDecimal(b) <==> Equal(a, b)
  {
    CanonicalIsReduced(a);
    CanonicalIsReduced(b);
    var r, s := Reduced(a), Reduced(b);
    ReducedEqual(a);
    ReducedEqual(b);
    if CanonicalDecimal(a) == CanonicalDecimal(b) {
      FormatInjective(r.coefficient, r.scale, s.coefficient, s.scale);
      EqualSymmetric(b, r);
      EqualTransitive(a, r, b);
    }
    if Equal(a, b) {
      EqualSymmetric(a, r);
      EqualTransitive(r, a, b);
      EqualTransitive(r, b, s);
      EqualSymmetric(r, s);
      if r.scale <= s.scale {
        ReducedUnique(r, s);
      } else {
        ReducedUnique(s, r);
      }
    }
  }

  lemma EqualSymmetric(a: Fixed, b: Fixed)
    ensures Equal(a, b) <==> Equal(b, a)
  {
    var scale := Max(a.scale, b.scale);
    CmpAtAnyScale(a, b, scale);
    CmpAtAnyScale(b, a, scale);
  }
}
