// The figures of a trial balance row: four exact sums, how they add up over
// accounts, and what survives printing and reading back.
module Rows {
  import opened Results
  import opened Decimals
  import opened Accumulators
  import opened Configurations
  import opened Movements
  import opened Accounts

  datatype RowSums = RowSums(opening: Accumulator, debit: Accumulator, credit: Accumulator, closing: Accumulator)

  datatype Amounts = Amounts(opening: Balance, debitTurnover: string, creditTurnover: string, closing: Balance)

  const NoSums := RowSums(Unset, Unset, Unset, Unset)

  function AddRows(l: RowSums, r: RowSums): RowSums {
    RowSums(Plus(l.opening, r.opening), Plus(l.debit, r.debit), Plus(l.credit, r.credit), Plus(l.closing, r.closing))
  }

  type RowMap = map<string, RowSums>

  function GetRow(m: RowMap, account: string): RowSums {
    if account in m then m[account] else NoSums
  }

  // ------------------------------------------------------------ sums of rows

  function OpeningsOf(m: RowMap): map<string, Accumulator> {
    map a | a in m :: m[a].opening
  }

  function DebitsOf(m: RowMap): map<string, Accumulator> {
    map a | a in m :: m[a].debit
  }

  function CreditsOf(m: RowMap): map<string, Accumulator> {
    map a | a in m :: m[a].credit
  }

  function ClosingsOf(m: RowMap): map<string, Accumulator> {
    map a | a in m :: m[a].closing
  }

  ghost function SumRows(m: RowMap, S: set<string>): RowSums {
    RowSums(SumOver(OpeningsOf(m), S), SumOver(DebitsOf(m), S), SumOver(CreditsOf(m), S), SumOver(ClosingsOf(m), S))
  }

  lemma SumRowsInsert(m: RowMap, S: set<string>, account: string)
    requires account !in S
    ensures SumRows(m, S + {account}) == AddRows(SumRows(m, S), GetRow(m, account))
  {
    hide Plus, SumOver;
    SumOverInsert(OpeningsOf(m), S, account);
    SumOverInsert(DebitsOf(m), S, account);
    SumOverInsert(CreditsOf(m), S, account);
    SumOverInsert(ClosingsOf(m), S, account);
  }

  lemma SumRowsUnion(m: RowMap, S: set<string>, T: set<string>)
    requires S !! T
    ensures SumRows(m, S + T) == AddRows(SumRows(m, S), SumRows(m, T))
  {
    hide Plus, SumOver;
    SumOverUnion(OpeningsOf(m), S, T);
    SumOverUnion(DebitsOf(m), S, T);
    SumOverUnion(CreditsOf(m), S, T);
    SumOverUnion(ClosingsOf(m), S, T);
  }

  lemma SumRowsEmpty(m: RowMap)
    ensures SumRows(m, {}) == NoSums
  {
    EmptySum(OpeningsOf(m));
    EmptySum(DebitsOf(m));
    EmptySum(CreditsOf(m));
    EmptySum(ClosingsOf(m));
  }

  lemma AddNoSums(r: RowSums)
    ensures AddRows(r, NoSums) == r && AddRows(NoSums, r) == r
  {
    hide Plus;
    PlusUnset(r.opening);
    PlusUnset(r.debit);
    PlusUnset(r.credit);
    PlusUnset(r.closing);
  }

  // ------------------------------------------------- the meaning of a figure

  // The figures for the accounts in K: exact sums of the opening totals, of
  // the debit and credit turnover, and their combination.
  ghost function RowOver(o: Totals, d: Totals, c: Totals, K: iset<AmountKey>): RowSums {
    Combined(TotalSum(o, K), TotalSum(d, K), TotalSum(c, K))
  }

  function Combined(opening: Accumulator, debit: Accumulator, credit: Accumulator): RowSums {
    RowSums(opening, debit, credit, Plus(Plus(opening, debit), credit))
  }

  // The keys of one commodity and category whose account is in A.
  ghost function Cell(commodity: string, category: Category, A: iset<string>): iset<AmountKey> {
    iset k: AmountKey | k.commodity == commodity && k.category == category && k.account in A
  }

  ghost function AnyAccount(): iset<string> {
    iset a: string | |a| >= 0
  }

  ghost function Subtree(ancestor: string): iset<string> {
    iset a: string | Under(a, ancestor)
  }

  // The accounts of one commodity and category that appear in any total.
  ghost function Posted(commodity: string, category: Category, o: Totals, d: Totals, c: Totals): set<string> {
    set k | k in o.Keys + d.Keys + c.Keys && k.commodity == commodity && k.category == category :: k.account
  }

  ghost function RowOf(commodity: string, category: Category, o: Totals, d: Totals, c: Totals, account: string): RowSums {
    var k := AmountKey(commodity, category, account);
    Combined(Get(o, k), Get(d, k), Get(c, k))
  }

  // The directly posted rows of one commodity and category.
  ghost function DirectRows(commodity: string, category: Category, o: Totals, d: Totals, c: Totals): RowMap {
    map a | a in Posted(commodity, category, o, d, c) :: RowOf(commodity, category, o, d, c, a)
  }

  function KeyOf(commodity: string, category: Category, account: string): AmountKey {
    AmountKey(commodity, category, account)
  }

  lemma {:induction false} SumOverImage(
    rows: map<string, Accumulator>, m: Totals, commodity: string, category: Category, S: set<string>)
    requires forall a | a in S :: Get(rows, a) == Get(m, KeyOf(commodity, category, a))
    ensures SumOver(rows, S) == SumOver(m, set a | a in S :: KeyOf(commodity, category, a))
    decreases |S|
  {
    hide Plus, SumOver, Get;
    if S == {} {
      EmptySum(rows);
      EmptySum(m);
      assert (set a | a in S :: KeyOf(commodity, category, a)) == {};
    } else {
      var x :| x in S;
      var R := S - {x};
      SumOverImage(rows, m, commodity, category, R);
      var image := set a | a in R :: KeyOf(commodity, category, a);
      assert S == R + {x};
      assert (set a | a in S :: KeyOf(commodity, category, a)) == image + {KeyOf(commodity, category, x)};
      SumOverInsert(rows, R, x);
      SumOverInsert(m, image, KeyOf(commodity, category, x));
    }
  }

  lemma SumOverMore<K>(m: map<K, Accumulator>, S: set<K>, T: set<K>)
    requires S <= T && forall k | k in T - S :: Get(m, k) == Unset
    ensures SumOver(m, S) == SumOver(m, T)
  {
    hide Plus, SumOver, Get;
    SumOverUnion(m, S, T - S);
    SumOverUnset(m, T - S);
    assert T == S + (T - S);
    PlusUnset(SumOver(m, S));
  }

  // Summing one column of the direct rows over a set of accounts.
  lemma ColumnSum(
    rows: map<string, Accumulator>, m: Totals, commodity: string, category: Category, posted: set<string>, A: iset<string>)
    requires forall k | k in m && k.commodity == commodity && k.category == category :: k.account in posted
    requires rows.Keys == posted && forall a | a in posted :: rows[a] == Get(m, KeyOf(commodity, category, a))
    ensures SumOver(rows, set a | a in posted && a in A) == TotalSum(m, Cell(commodity, category, A))
  {
    hide Plus, SumOver;
    var S := set a | a in posted && a in A;
    SumOverImage(rows, m, commodity, category, S);
    var image := set a | a in S :: KeyOf(commodity, category, a);
    var keys := set k | k in m && k in Cell(commodity, category, A);
    forall k | k in keys
      ensures k in image
    {
      assert k == KeyOf(commodity, category, k.account) && k.account in S;
    }
    SumOverMore(m, keys, image);
  }

  lemma DirectColumns(commodity: string, category: Category, o: Totals, d: Totals, c: Totals)
    ensures var direct, posted := DirectRows(commodity, category, o, d, c), Posted(commodity, category, o, d, c);
            && direct.Keys == OpeningsOf(direct).Keys == DebitsOf(direct).Keys == CreditsOf(direct).Keys == posted
            && (forall a | a in posted :: OpeningsOf(direct)[a] == Get(o, KeyOf(commodity, category, a)))
            && (forall a | a in posted :: DebitsOf(direct)[a] == Get(d, KeyOf(commodity, category, a)))
            && (forall a | a in posted :: CreditsOf(direct)[a] == Get(c, KeyOf(commodity, category, a)))
            && (forall a | a in direct :: direct[a] == Combined(direct[a].opening, direct[a].debit, direct[a].credit))
  {
    hide Plus, Posted, Get;
  }

  lemma PostedHas(commodity: string, category: Category, o: Totals, d: Totals, c: Totals)
    ensures forall k | k in o || k in d || k in c :: k.commodity == commodity && k.category == category ==>
              k.account in Posted(commodity, category, o, d, c)
  {
  }

  // The sum of the direct rows over any choice of accounts is the figure those
  // accounts have in the totals.
  lemma DirectSum(commodity: string, category: Category, o: Totals, d: Totals, c: Totals, A: iset<string>)
    ensures var direct := DirectRows(commodity, category, o, d, c);
            SumRows(direct, set a | a in direct && a in A) == RowOver(o, d, c, Cell(commodity, category, A))
  {
    hide Plus, SumOver, TotalSum, Cell, Get, DirectRows, Posted, OpeningsOf, DebitsOf, CreditsOf, ClosingsOf;
    var direct := DirectRows(commodity, category, o, d, c);
    var posted := Posted(commodity, category, o, d, c);
    DirectColumns(commodity, category, o, d, c);
    PostedHas(commodity, category, o, d, c);
    var S := set a | a in direct && a in A;
    assert S == set a | a in posted && a in A;
    ColumnSum(OpeningsOf(direct), o, commodity, category, posted, A);
    ColumnSum(DebitsOf(direct), d, commodity, category, posted, A);
    ColumnSum(CreditsOf(direct), c, commodity, category, posted, A);
    ClosingColumn(direct, S);
  }

  lemma ClosingColumn(direct: RowMap, S: set<string>)
    requires forall a | a in direct :: direct[a] == Combined(direct[a].opening, direct[a].debit, direct[a].credit)
    ensures SumRows(direct, S).closing
         == Plus(Plus(SumRows(direct, S).opening, SumRows(direct, S).debit), SumRows(direct, S).credit)
  {
    hide Plus, SumOver;
    var turnover := map a | a in direct :: Plus(direct[a].opening, direct[a].debit);
    PlusUnset(Unset);
    SumOverPlus(OpeningsOf(direct), DebitsOf(direct), turnover, S);
    SumOverPlus(turnover, CreditsOf(direct), ClosingsOf(direct), S);
  }

  // ------------------------------------------------------------- printing

  predicate RowFits(r: RowSums) {
    Fits(r.opening) && Fits(r.debit) && Fits(r.credit) && Fits(r.closing)
  }

  function RowText(r: RowSums): Amounts {
    Amounts(BalanceText(r.opening), AbsoluteText(r.debit), AbsoluteText(r.credit), BalanceText(r.closing))
  }

  datatype ReportError =
    | AmountOverflow
    | BadConfiguration
    | InvalidPeriod
    | InvalidEntries
    | OpeningUnbalanced
    | ClosingUnbalanced
    | InvalidDrillDown
    | InvalidEntry

  // formatAmounts
  function FormatAmounts(r: RowSums): Result<Amounts, ReportError> {
    if RowFits(r) then Ok(RowText(r)) else Err(AmountOverflow)
  }

  // sumsFromAmounts: reading a printed group total back.
  function SumsFromAmounts(a: Amounts): RowSums {
    RowSums(ParseBalance(a.opening), ParseAccumulator(a.debitTurnover), Negate(ParseAccumulator(a.creditTurnover)),
            ParseBalance(a.closing))
  }

  function NormRow(r: RowSums): RowSums {
    RowSums(Norm(r.opening), Norm(r.debit), Norm(r.credit), Norm(r.closing))
  }

  // Debit turnover is never negative and credit turnover never positive.
  predicate Sided(r: RowSums) {
    SignOf(r.debit) >= 0 && SignOf(r.credit) <= 0
  }

  // Nothing is lost by printing a row and reading it back.
  lemma ReparseRow(r: RowSums)
    requires RowFits(r) && Sided(r)
    ensures SumsFromAmounts(RowText(r)) == NormRow(r)
  {
    hide ParseAccumulator, ParseBalance, AbsoluteText, BalanceText, Fits, Norm, SignOf, Negate;
    ReparseBalance(r.opening);
    ReparseBalance(r.closing);
    ReparseTurnover(r.debit);
    ReparseTurnover(r.credit);
  }

  lemma ReparseTurnover(a: Accumulator)
    requires Fits(a)
    ensures SignOf(a) >= 0 ==> ParseAccumulator(AbsoluteText(a)) == Norm(a)
    ensures SignOf(a) <= 0 ==> Negate(ParseAccumulator(AbsoluteText(a))) == Norm(a)
  {
    hide ParseAccumulator, AbsoluteText, ParseDecimal;
    ReparseAbsolute(a);
  }

  lemma NormAddRows(l: RowSums, r: RowSums)
    ensures NormRow(AddRows(l, r)) == AddRows(NormRow(l), NormRow(r))
  {
    hide Plus, Norm;
    NormPlus(l.opening, r.opening);
    NormPlus(l.debit, r.debit);
    NormPlus(l.credit, r.credit);
    NormPlus(l.closing, r.closing);
  }

  lemma NormRowText(r: RowSums)
    ensures RowText(NormRow(r)) == RowText(r) && (RowFits(NormRow(r)) <==> RowFits(r))
    ensures NormRow(NormRow(r)) == NormRow(r)
  {
    hide BalanceText, AbsoluteText, Fits;
    NormText(r.opening);
    NormText(r.debit);
    NormText(r.credit);
    NormText(r.closing);
  }

  // The printed figures of one row reconcile exactly:
  // closing = opening + debit turnover - credit turnover.
  lemma PrintedRowReconciles(o: Accumulator, d: Accumulator, c: Accumulator)
    requires RowFits(Combined(o, d, c)) && Sided(Combined(o, d, c))
    ensures ParseBalance(RowText(Combined(o, d, c)).closing)
         == Plus(Plus(ParseBalance(RowText(Combined(o, d, c)).opening),
                      ParseAccumulator(RowText(Combined(o, d, c)).debitTurnover)),
                 Negate(ParseAccumulator(RowText(Combined(o, d, c)).creditTurnover)))
  {
    hide ParseAccumulator, ParseBalance, Plus, Norm, RowText, Negate;
    ReparseRow(Combined(o, d, c));
    NormPlus(Plus(o, d), c);
    NormPlus(o, d);
    assert SumsFromAmounts(RowText(Combined(o, d, c))) == NormRow(Combined(o, d, c));
  }

  // ------------------------------------------------------------- signs of sums

  lemma PlusKeepsSign(a: Accumulator, b: Accumulator)
    ensures SignOf(a) >= 0 && SignOf(b) >= 0 ==> SignOf(Plus(a, b)) >= 0
    ensures SignOf(a) <= 0 && SignOf(b) <= 0 ==> SignOf(Plus(a, b)) <= 0
  {
    if a.Sum? && b.Sum? {
      var m := Max(a.scale, b.scale);
      WidenedSign(a.coefficient, a.scale, m);
      WidenedSign(b.coefficient, b.scale, m);
    }
  }

  lemma WidenedSign(x: int, from: nat, to: nat)
    requires from <= to
    ensures x >= 0 ==> Widened(x, from, to) >= 0
    ensures x <= 0 ==> Widened(x, from, to) <= 0
  {
    var p := Pow10(to - from);
    if x > 0 {
      MulMonotone(0, x, p);
    } else if x < 0 {
      MulMonotone(x, 0, p);
    }
  }

  lemma {:induction false} SumOverSign<K>(m: map<K, Accumulator>, S: set<K>)
    ensures (forall k | k in m :: SignOf(m[k]) >= 0) ==> SignOf(SumOver(m, S)) >= 0
    ensures (forall k | k in m :: SignOf(m[k]) <= 0) ==> SignOf(SumOver(m, S)) <= 0
    decreases |S|
  {
    hide Plus, SignOf, SumOver;
    if S == {} {
      EmptySum(m);
      UnsetSign();
    } else {
      var k :| k in S;
      SumOverSign(m, S - {k});
      SumOverRemove(m, S, k);
      UnsetSign();
      PlusKeepsSign(Get(m, k), SumOver(m, S - {k}));
    }
  }

  lemma UnsetSign()
    ensures SignOf(Unset) == 0
  {
  }

  ghost predicate SidedTotals(d: Totals, c: Totals) {
    (forall k | k in d :: SignOf(d[k]) >= 0) && (forall k | k in c :: SignOf(c[k]) <= 0)
  }

  lemma RowOverSided(o: Totals, d: Totals, c: Totals, K: iset<AmountKey>)
    requires SidedTotals(d, c)
    ensures Sided(RowOver(o, d, c, K))
  {
    hide Plus, SumOver, SignOf;
    SumOverSign(d, set k | k in d && k in K);
    SumOverSign(c, set k | k in c && k in K);
  }

  lemma {:induction false} TallySign(items: seq<Contribution>)
    ensures (forall x | x in items :: Sign(x.value) >= 0) ==> forall k | k in Tally(items) :: SignOf(Tally(items)[k]) >= 0
    ensures (forall x | x in items :: Sign(x.value) <= 0) ==> forall k | k in Tally(items) :: SignOf(Tally(items)[k]) <= 0
  {
    hide Plus;
    if items != [] {
      var front, last := items[..|items| - 1], items[|items| - 1];
      assert items == front + [last];
      TallySign(front);
      PlusKeepsSign(Get(Tally(front), last.key), Of(last.value));
      UnsetSign();
    }
  }

  lemma SidesAreSided(items: seq<Contribution>)
    ensures SidedTotals(Tally(Debits(items)), Tally(Credits(items)))
  {
    hide Keep, Tally, SignOf;
    forall x | x in Debits(items)
      ensures Sign(x.value) >= 0
    {
      KeepMembers(items, IsDebit, x);
    }
    forall x | x in Credits(items)
      ensures Sign(x.value) <= 0
    {
      KeepMembers(items, IsCredit, x);
    }
    TallySign(Debits(items));
    TallySign(Credits(items));
  }
}
