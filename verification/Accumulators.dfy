// Exact running sums of internal/reporting: an accumulator has no value yet or
// an unbounded coefficient at the largest scale added so far. Adding is a
// commutative monoid, so sums over maps do not depend on any order.
module Accumulators {
  import opened Results
  import opened Decimals

  datatype Accumulator = Unset | Sum(coefficient: int, scale: nat)

  function Of(d: Fixed): Accumulator {
    Sum(d.coefficient, d.scale)
  }

  function Widened(coefficient: int, from: nat, to: nat): int
    requires from <= to
  {
    coefficient * Pow10(to - from)
  }

  // addAccumulator, and `add` with the right operand a decimal.
  function Plus(a: Accumulator, b: Accumulator): Accumulator {
    if a.Unset? then b
    else if b.Unset? then a
    else
      var scale := Max(a.scale, b.scale);
      Sum(Widened(a.coefficient, a.scale, scale) + Widened(b.coefficient, b.scale, scale), scale)
  }

  function Negate(a: Accumulator): Accumulator {
    if a.Unset? then a else Sum(-a.coefficient, a.scale)
  }

  predicate IsZero(a: Accumulator) {
    a.Sum? ==> a.coefficient == 0
  }

  function SignOf(a: Accumulator): int {
    if a.Unset? || a.coefficient == 0 then 0 else if a.coefficient < 0 then -1 else 1
  }

  // ----------------------------------------------------------- monoid laws

  function ScaleOf(a: Accumulator): nat {
    if a.Unset? then 0 else a.scale
  }

  // The value at a scale no smaller than the retained one.
  function At(a: Accumulator, scale: nat): int
    requires ScaleOf(a) <= scale
  {
    if a.Unset? then 0 else Widened(a.coefficient, a.scale, scale)
  }

  lemma WidenTwice(coefficient: int, from: nat, via: nat, to: nat)
    requires from <= via <= to
    ensures Widened(Widened(coefficient, from, via), via, to) == Widened(coefficient, from, to)
  {
    Pow10Add(via - from, to - via);
    MulAssociative(coefficient, Pow10(via - from), Pow10(to - via));
  }

  lemma Distribute(x: int, y: int, p: int)
    ensures (x + y) * p == x * p + y * p
  {
  }

  lemma PlusAt(a: Accumulator, b: Accumulator, scale: nat)
    requires ScaleOf(a) <= scale && ScaleOf(b) <= scale
    ensures ScaleOf(Plus(a, b)) == Max(ScaleOf(a), ScaleOf(b)) <= scale
    ensures At(Plus(a, b), scale) == At(a, scale) + At(b, scale)
  {
    if a.Sum? && b.Sum? {
      var m := Max(a.scale, b.scale);
      WidenTwice(a.coefficient, a.scale, m, scale);
      WidenTwice(b.coefficient, b.scale, m, scale);
      Distribute(Widened(a.coefficient, a.scale, m), Widened(b.coefficient, b.scale, m), Pow10(scale - m));
    }
  }

  lemma AtOwnScale(a: Accumulator)
    requires a.Sum?
    ensures At(a, a.scale) == a.coefficient
  {
    assert Pow10(0) == 1;
  }

  lemma PlusCommutes(a: Accumulator, b: Accumulator)
    ensures Plus(a, b) == Plus(b, a)
  {
  }

  lemma PlusAssociates(a: Accumulator, b: Accumulator, c: Accumulator)
    ensures Plus(Plus(a, b), c) == Plus(a, Plus(b, c))
  {
    hide Plus;
    var l, r := Plus(Plus(a, b), c), Plus(a, Plus(b, c));
    var m := Max(Max(ScaleOf(a), ScaleOf(b)), ScaleOf(c));
    PlusAt(a, b, m);
    PlusAt(Plus(a, b), c, m);
    PlusAt(b, c, m);
    PlusAt(a, Plus(b, c), m);
    SetIff(a, b);
    SetIff(Plus(a, b), c);
    SetIff(b, c);
    SetIff(a, Plus(b, c));
    if l.Sum? {
      AtOwnScale(l);
      AtOwnScale(r);
    }
  }

  lemma SetIff(a: Accumulator, b: Accumulator)
    ensures Plus(a, b).Sum? <==> a.Sum? || b.Sum?
  {
  }

  lemma PlusRotates(a: Accumulator, b: Accumulator, c: Accumulator)
    ensures Plus(a, Plus(b, c)) == Plus(b, Plus(a, c))
  {
    hide Plus;
    PlusAssociates(a, b, c);
    PlusCommutes(a, b);
    PlusAssociates(b, a, c);
  }

  // (a + b) + (c + d) == (a + c) + (b + d)
  lemma PlusExchanges(a: Accumulator, b: Accumulator, c: Accumulator, d: Accumulator)
    ensures Plus(Plus(a, b), Plus(c, d)) == Plus(Plus(a, c), Plus(b, d))
  {
    hide Plus;
    PlusAssociates(a, b, Plus(c, d));
    PlusRotates(b, c, d);
    PlusAssociates(a, c, Plus(b, d));
  }

  lemma WidenedZero(coefficient: int, from: nat, to: nat)
    requires from <= to
    ensures Widened(coefficient, from, to) == 0 <==> coefficient == 0
  {
    var p := Pow10(to - from);
    if coefficient > 0 {
      MulMonotone(0, coefficient, p);
    } else if coefficient < 0 {
      MulMonotone(coefficient, 0, p);
    }
  }

  // Zero values cancel out of every sum.
  lemma PlusZero(a: Accumulator, b: Accumulator)
    requires IsZero(b)
    ensures IsZero(Plus(a, b)) <==> IsZero(a)
  {
    if a.Sum? && b.Sum? {
      var m := Max(a.scale, b.scale);
      WidenedZero(a.coefficient, a.scale, m);
      WidenedZero(b.coefficient, b.scale, m);
    }
  }

  // ------------------------------------------------------------ sums of maps

  function Get<K>(m: map<K, Accumulator>, k: K): Accumulator {
    if k in m then m[k] else Unset
  }

  ghost function SumOver<K>(m: map<K, Accumulator>, S: set<K>): Accumulator {
    if S == {} then Unset
    else
      var k :| k in S;
      Plus(Get(m, k), SumOver(m, S - {k}))
  }

  lemma {:induction false} SumOverRemove<K>(m: map<K, Accumulator>, S: set<K>, k: K)
    requires k in S
    ensures SumOver(m, S) == Plus(Get(m, k), SumOver(m, S - {k}))
    decreases |S|
  {
    hide Plus;
    var x :| x in S && SumOver(m, S) == Plus(Get(m, x), SumOver(m, S - {x}));
    if x != k {
      SumOverRemove(m, S - {x}, k);
      SumOverRemove(m, S - {k}, x);
      assert S - {x} - {k} == S - {k} - {x};
      PlusRotates(Get(m, x), Get(m, k), SumOver(m, S - {x} - {k}));
    }
  }

  lemma SumOverInsert<K>(m: map<K, Accumulator>, S: set<K>, k: K)
    requires k !in S
    ensures SumOver(m, S + {k}) == Plus(SumOver(m, S), Get(m, k))
  {
    hide Plus;
    SumOverRemove(m, S + {k}, k);
    assert S + {k} - {k} == S;
    PlusCommutes(Get(m, k), SumOver(m, S));
  }

  lemma {:induction false} SumOverUnion<K>(m: map<K, Accumulator>, S: set<K>, T: set<K>)
    requires S !! T
    ensures SumOver(m, S + T) == Plus(SumOver(m, S), SumOver(m, T))
    decreases |T|
  {
    hide Plus, SumOver;
    if T == {} {
      assert S + T == S;
      EmptySum(m);
      PlusUnset(SumOver(m, S));
    } else {
      var k :| k in T;
      SumOverUnion(m, S, T - {k});
      SumOverInsert(m, S + (T - {k}), k);
      SumOverInsert(m, T - {k}, k);
      assert S + T == S + (T - {k}) + {k} && T == T - {k} + {k};
      PlusAssociates(SumOver(m, S), SumOver(m, T - {k}), Get(m, k));
    }
  }

  lemma EmptySum<K>(m: map<K, Accumulator>)
    ensures SumOver(m, {}) == Unset
  {
  }

  lemma PlusUnset(a: Accumulator)
    ensures Plus(a, Unset) == a && Plus(Unset, a) == a
  {
  }

  lemma {:induction false} SumOverSame<K>(m: map<K, Accumulator>, n: map<K, Accumulator>, S: set<K>)
    requires forall k | k in S :: Get(m, k) == Get(n, k)
    ensures SumOver(m, S) == SumOver(n, S)
    decreases |S|
  {
    hide Plus;
    if S != {} {
      var k :| k in S;
      SumOverSame(m, n, S - {k});
      SumOverRemove(m, S, k);
      SumOverRemove(n, S, k);
    }
  }

  lemma {:induction false} SumOverUnset<K>(m: map<K, Accumulator>, S: set<K>)
    requires forall k | k in S :: Get(m, k) == Unset
    ensures SumOver(m, S) == Unset
    decreases |S|
  {
    if S != {} {
      var k :| k in S;
      SumOverUnset(m, S - {k});
      SumOverRemove(m, S, k);
    }
  }

  // Sums add key by key.
  lemma {:induction false} SumOverPlus<K>(l: map<K, Accumulator>, r: map<K, Accumulator>, m: map<K, Accumulator>, S: set<K>)
    requires forall k | k in S :: Get(m, k) == Plus(Get(l, k), Get(r, k))
    ensures SumOver(m, S) == Plus(SumOver(l, S), SumOver(r, S))
    decreases |S|
  {
    hide Plus, Get;
    if S == {} {
      PlusUnset(Unset);
    } else {
      var k :| k in S;
      SumOverPlus(l, r, m, S - {k});
      SumOverRemove(l, S, k);
      SumOverRemove(r, S, k);
      SumOverRemove(m, S, k);
      PlusExchanges(Get(l, k), Get(r, k), SumOver(l, S - {k}), SumOver(r, S - {k}));
    }
  }

  lemma SumOverSingle<K>(m: map<K, Accumulator>, k: K)
    ensures SumOver(m, {k}) == Get(m, k)
  {
    hide Plus;
    SumOverRemove(m, {k}, k);
    assert {k} - {k} == {};
    PlusUnset(Get(m, k));
  }

  // --------------------------------------------------- printing and re-reading

  datatype Balance = Balance(debit: string, credit: string)

  // Whether absoluteString succeeds: scale at most 28, magnitude below 2^96.
  predicate Fits(a: Accumulator) {
    a.Sum? ==> InRange(a.coefficient, a.scale)
  }

  function AbsoluteText(a: Accumulator): string {
    if a.Unset? then "0" else FormatUnsigned(Abs(a.coefficient), a.scale)
  }

  // formatBalance, when it succeeds.
  function BalanceText(a: Accumulator): Balance {
    if SignOf(a) < 0 then Balance("0", AbsoluteText(a)) else Balance(AbsoluteText(a), "0")
  }

  function ParseAccumulator(text: string): Accumulator {
    var value := ParseDecimal(text);
    if value.Ok? then Of(value.value) else Sum(0, 0)
  }

  function ParseBalance(b: Balance): Accumulator {
    if b.credit != "0" then Negate(ParseAccumulator(b.credit)) else ParseAccumulator(b.debit)
  }

  // Reading back cannot tell "no value" from a zero without decimals.
  function Norm(a: Accumulator): Accumulator {
    if a.Unset? then Sum(0, 0) else a
  }

  lemma NormPlus(a: Accumulator, b: Accumulator)
    ensures Norm(Plus(a, b)) == Plus(Norm(a), Norm(b))
  {
    assert Pow10(0) == 1;
    ZeroWidened(ScaleOf(a));
    ZeroWidened(ScaleOf(b));
  }

  lemma ZeroWidened(scale: nat)
    ensures Widened(0, 0, scale) == 0
  {
  }

  lemma NormOfUnset()
    ensures Norm(Unset) == Sum(0, 0)
  {
  }

  lemma NormText(a: Accumulator)
    ensures BalanceText(Norm(a)) == BalanceText(a) && AbsoluteText(Norm(a)) == AbsoluteText(a)
    ensures Fits(Norm(a)) <==> Fits(a)
    ensures IsZero(Norm(a)) <==> IsZero(a)
  {
    if a.Unset? {
      ZeroText();
      assert FormatFixed(0, 0) == FormatUnsigned(0, 0);
    }
  }

  // The parse error discarded when totals are read back never occurs.
  lemma ReparseAbsolute(a: Accumulator)
    requires Fits(a)
    ensures ParseDecimal(AbsoluteText(a)).Ok?
    ensures ParseAccumulator(AbsoluteText(a)) == Sum(Abs(Norm(a).coefficient), Norm(a).scale)
  {
    NormText(a);
    var n := Norm(a);
    var d: Decimal := Fixed(Abs(n.coefficient), n.scale);
    ParseInvertsFormat(d);
    assert ToString(d) == AbsoluteText(n);
  }

  lemma UnsignedZeroText(n: nat, scale: nat)
    requires FormatUnsigned(n, scale) == "0"
    ensures n == 0 && scale == 0
  {
    ZeroText();
    assert FormatFixed(0, 0) == FormatUnsigned(0, 0);
    FormatUnsignedInjective(n, scale, 0, 0);
  }

  // Printing a balance and reading it back keeps value and scale.
  lemma ReparseBalance(a: Accumulator)
    requires Fits(a)
    ensures ParseBalance(BalanceText(a)) == Norm(a)
  {
    hide ParseAccumulator, FormatUnsigned;
    ReparseAbsolute(a);
    if SignOf(a) < 0 {
      if AbsoluteText(a) == "0" {
        UnsignedZeroText(Abs(a.coefficient), a.scale);
      }
    }
  }

  // What fits, in numbers.
  lemma FitsIff(a: Accumulator)
    ensures Fits(a) <==>
            a == Unset || (a.scale <= 28 && -0x1_0000_0000_0000_0000_0000_0000 < a.coefficient < 0x1_0000_0000_0000_0000_0000_0000)
  {
  }

  // A balance is printed on the debit side when it is zero or more and on the
  // credit side, without its sign, when it is less; the other side shows "0".
  lemma BalanceReads(a: Accumulator)
    requires Fits(a)
    ensures a == Unset ==> BalanceText(a) == Balance("0", "0")
    ensures a.Sum? && a.coefficient >= 0 ==>
              ParseDecimal(BalanceText(a).debit) == Ok(Fixed(a.coefficient, a.scale)) && BalanceText(a).credit == "0"
    ensures a.Sum? && a.coefficient < 0 ==>
              ParseDecimal(BalanceText(a).credit) == Ok(Fixed(-a.coefficient, a.scale)) && BalanceText(a).debit == "0"
  {
    hide ParseDecimal, FormatUnsigned;
    if a.Sum? {
      var d: Decimal := Fixed(Abs(a.coefficient), a.scale);
      ParseInvertsFormat(d);
      assert ToString(d) == AbsoluteText(a);
    }
  }

  // The printed balance determines the value and the scale.
  lemma BalanceTextInjective(a: Accumulator, b: Accumulator)
    requires BalanceText(a) == BalanceText(b)
    ensures Norm(a) == Norm(b)
  {
    hide FormatUnsigned;
    NormText(a);
    NormText(b);
    var x, y := Norm(a), Norm(b);
    assert BalanceText(x) == BalanceText(y);
    if SignOf(x) < 0 && SignOf(y) >= 0 {
      UnsignedZeroText(Abs(x.coefficient), x.scale);
    } else if SignOf(y) < 0 && SignOf(x) >= 0 {
      UnsignedZeroText(Abs(y.coefficient), y.scale);
    }
    FormatUnsignedInjective(Abs(x.coefficient), x.scale, Abs(y.coefficient), y.scale);
  }
}
