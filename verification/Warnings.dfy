// What the warnings and the completeness flag of a report mean, in terms of
// what the report prints and of what was posted.
module Warnings {
  import opened Results
  import opened Decimals
  import opened Accumulators
  import opened Accounts
  import opened Configurations
  import opened Movements
  import opened Rows
  import opened TrialBalances
  import opened Sections
  import opened StatementRows
  import opened Targets

  // The side on which a printed balance shows an amount other than zero.
  function ShownSide(b: Balance): Option<Side> {
    if IsZero(ParseBalance(b)) then None else if b.credit != "0" then Some(CreditSide) else Some(DebitSide)
  }

  // The side on which an account of a category normally stands: assets and
  // expenses on the debit side, liabilities, equity and revenue on the credit
  // side.
  ghost predicate Abnormal(category: Category, side: Side) {
    || (side == CreditSide && (category == Asset || category == Expense))
    || (side == DebitSide && (category == Liability || category == Equity || category == Revenue))
  }

  lemma ShownIsSign(a: Accumulator)
    requires Fits(a)
    ensures ShownSide(BalanceText(a)) == (if IsZero(a) then None else Some(SideOfSum(a)))
  {
    hide ParseAccumulator, FormatUnsigned;
    ReparseBalance(a);
    NormText(a);
    if SignOf(a) < 0 && AbsoluteText(a) == "0" {
      UnsignedZeroText(Abs(a.coefficient), a.scale);
    }
  }

  lemma OppositeExact(commodity: string, account: string, category: Category, name: BalanceName, a: Accumulator, w: Warning)
    requires Fits(a) && category != Unclassified
    ensures w in OppositeWarning(commodity, account, category, name, a) <==>
            && w.OppositeNormalBalance? && w.account == account && w.commodity == commodity && w.balance == name
            && ShownSide(BalanceText(a)) == Some(w.side) && Abnormal(category, w.side)
  {
    hide ShownSide, BalanceText;
    ShownIsSign(a);
  }

  // The warnings of a trial balance row: nothing for accounts that are only
  // ancestors; one for an unclassified account; otherwise one for each printed
  // opening or closing balance that stands on the abnormal side.
  lemma RowWarningsExact(commodity: string, account: string, category: Category, r: RowSums, posted: bool, w: Warning)
    requires RowFits(r)
    ensures w in RowWarnings(commodity, account, category, r, posted) <==>
            && posted && w.account == account && w.commodity == commodity
            && (if category == Unclassified then w.UnclassifiedAccount?
                else
                  && w.OppositeNormalBalance? && Abnormal(category, w.side)
                  && (|| (w.balance == OpeningBalance && ShownSide(RowText(r).opening) == Some(w.side))
                      || (w.balance == ClosingBalance && ShownSide(RowText(r).closing) == Some(w.side))))
  {
    hide ShownSide, BalanceText, AbsoluteText, OppositeWarning, Abnormal;
    if category != Unclassified {
      OppositeExact(commodity, account, category, OpeningBalance, r.opening, w);
      OppositeExact(commodity, account, category, ClosingBalance, r.closing, w);
    }
  }

  // The same for a statement row and its direct balance.
  lemma StatementWarningsExact(commodity: string, account: string, category: Category, a: Accumulator, posted: bool, w: Warning)
    requires Fits(a)
    ensures w in StatementWarnings(commodity, account, category, a, posted) <==>
            && posted && w.account == account && w.commodity == commodity
            && (if category == Unclassified then w.UnclassifiedAccount?
                else
                  && w.OppositeNormalBalance? && w.balance == StatementBalance && Abnormal(category, w.side)
                  && ShownSide(BalanceText(a)) == Some(w.side))
  {
    hide ShownSide, BalanceText, OppositeWarning, Abnormal;
    if category != Unclassified {
      OppositeExact(commodity, account, category, StatementBalance, a, w);
    }
  }

  // ------------------------------------------------- the warnings of a report

  // What a report warns about for one posted key with the given direct figures.
  ghost predicate Warns(k: AmountKey, r: RowSums, w: Warning) {
    && w.account == k.account && w.commodity == k.commodity
    && (if k.category == Unclassified then w.UnclassifiedAccount?
        else
          && w.OppositeNormalBalance? && Abnormal(k.category, w.side)
          && (|| (w.balance == OpeningBalance && ShownSide(RowText(r).opening) == Some(w.side))
              || (w.balance == ClosingBalance && ShownSide(RowText(r).closing) == Some(w.side))))
  }

  lemma {:induction false} RowsWarn(rows: seq<AccountRow>, w: Warning)
    ensures w in WarningsOf(rows) <==> exists i :: 0 <= i < |rows| && w in rows[i].warnings
  {
    if rows != [] {
      RowsWarn(rows[..|rows| - 1], w);
    }
  }

  lemma {:induction false} GroupsWarn(groups: seq<CategoryGroup>, w: Warning)
    ensures w in GroupWarnings(groups) <==> exists i :: 0 <= i < |groups| && w in WarningsOf(groups[i].accounts)
  {
    hide WarningsOf;
    if groups != [] {
      GroupsWarn(groups[..|groups| - 1], w);
    }
  }

  lemma {:induction false} SectionsWarn(names: seq<string>, o: Totals, d: Totals, c: Totals, w: Warning)
    ensures w in SectionWarnings(names, o, d, c) <==> exists i :: 0 <= i < |names| && w in SectionOf(names[i], o, d, c).warnings
  {
    hide SectionOf;
    if names != [] {
      SectionsWarn(names[..|names| - 1], o, d, c, w);
    }
  }

  lemma DirectIsName(direct: RowMap, account: string)
    requires account in direct
    ensures account in Names(direct.Keys)
  {
    NamesAreAncestors(direct.Keys, account);
    assert Under(account, account);
  }

  ghost predicate GroupWarns(commodity: string, category: Category, direct: RowMap, w: Warning) {
    exists a :: a in direct && Warns(KeyOf(commodity, category, a), direct[a], w)
  }

  lemma GroupWarningsExact(commodity: string, category: Category, direct: RowMap, w: Warning)
    requires GroupFits(direct)
    ensures w in WarningsOf(GroupRows(commodity, category, direct)) <==> GroupWarns(commodity, category, direct, w)
  {
    hide Names, RowText, Subtotal, RowWarnings, RowFits, AccountLess, WarningsOf, SumRows, ShownSide, Abnormal;
    var rows, names := GroupRows(commodity, category, direct), RowNames(direct);
    RowsWarn(rows, w);
    if i :| 0 <= i < |rows| && w in rows[i].warnings {
      var name := names[i];
      assert name in names;
      RowWarningsExact(commodity, name, category, GetRow(direct, name), name in direct, w);
      assert Warns(KeyOf(commodity, category, name), direct[name], w);
    }
    if a :| a in direct && Warns(KeyOf(commodity, category, a), direct[a], w) {
      DirectIsName(direct, a);
      assert a in names;
      var i :| 0 <= i < |names| && names[i] == a;
      RowWarningsExact(commodity, a, category, GetRow(direct, a), true, w);
      assert w in rows[i].warnings;
    }
  }

  // The groups of a section stand for the categories that were posted to.
  lemma SectionWarningsExact(commodity: string, o: Totals, d: Totals, c: Totals, w: Warning)
    requires SectionFits(commodity, o, d, c)
    ensures w in SectionOf(commodity, o, d, c).warnings <==>
            exists x :: 0 <= x < 6 && GroupWarns(commodity, CategoryOrder[x], DirectRows(commodity, CategoryOrder[x], o, d, c), w)
  {
    hide DirectRows, GroupFits, GroupRows, SumRows, RowText, Groups, GroupWarnings, WarningsOf, RowOver, RowFits, Warns;
    var groups := Groups(commodity, o, d, c, 6);
    GroupsWarn(groups, w);
    GroupsListed(commodity, o, d, c, 6);
    if i :| 0 <= i < |groups| && w in WarningsOf(groups[i].accounts) {
      assert groups[i] in groups;
      var x :| x < 6 && IsGroup(groups[i], commodity, x, o, d, c);
      GroupWarningsExact(commodity, CategoryOrder[x], DirectRows(commodity, CategoryOrder[x], o, d, c), w);
    }
    if x :| 0 <= x < 6 && GroupWarns(commodity, CategoryOrder[x], DirectRows(commodity, CategoryOrder[x], o, d, c), w) {
      var direct := DirectRows(commodity, CategoryOrder[x], o, d, c);
      GroupWarningsExact(commodity, CategoryOrder[x], direct, w);
      var i :| 0 <= i < |groups| && groups[i] == GroupOf(commodity, CategoryOrder[x], direct);
    }
  }

  // A posted key with its direct figures in the report.
  ghost predicate PostedAs(k: AmountKey, o: Totals, d: Totals, c: Totals, r: RowSums) {
    k in o.Keys + d.Keys + c.Keys && r == RowOf(k.commodity, k.category, o, d, c, k.account)
  }

  lemma WarnedIsPosted(commodity: string, category: Category, o: Totals, d: Totals, c: Totals, a: string)
    requires a in DirectRows(commodity, category, o, d, c)
    ensures PostedAs(KeyOf(commodity, category, a), o, d, c, DirectRows(commodity, category, o, d, c)[a])
  {
    hide RowOf, DirectRows;
    DirectEntries(commodity, category, o, d, c);
    var k :| k in o.Keys + d.Keys + c.Keys && k.commodity == commodity && k.category == category && k.account == a;
    assert k == KeyOf(commodity, category, a);
  }

  lemma PostedIsWarned(k: AmountKey, o: Totals, d: Totals, c: Totals, r: RowSums)
    requires PostedAs(k, o, d, c, r)
    ensures var direct := DirectRows(k.commodity, k.category, o, d, c);
            k.account in direct && direct[k.account] == r
  {
    hide RowOf, DirectRows;
    DirectEntries(k.commodity, k.category, o, d, c);
    PostedHas(k.commodity, k.category, o, d, c);
  }

  lemma GroupWarnsPosted(commodity: string, category: Category, o: Totals, d: Totals, c: Totals, w: Warning)
    ensures GroupWarns(commodity, category, DirectRows(commodity, category, o, d, c), w) <==>
            exists k, r :: PostedAs(k, o, d, c, r) && InCell(k, commodity, category) && Warns(k, r, w)
  {
    hide Warns, PostedAs, DirectRows;
    var direct := DirectRows(commodity, category, o, d, c);
    if a :| a in direct && Warns(KeyOf(commodity, category, a), direct[a], w) {
      WarnedIsPosted(commodity, category, o, d, c, a);
    }
    if k, r :| PostedAs(k, o, d, c, r) && InCell(k, commodity, category) && Warns(k, r, w) {
      PostedIsWarned(k, o, d, c, r);
      assert k == KeyOf(commodity, category, k.account);
    }
  }

  // A trial balance warns about exactly the unclassified accounts that were
  // posted to and the opening and closing balances that posted accounts print
  // on their abnormal side.
  lemma ReportWarningsExact(revision: int, period: FiscalPeriod, o: Totals, d: Totals, c: Totals, w: Warning)
    requires ReportFits(o, d, c)
    ensures w in TrialBalanceOf(revision, period, o, d, c).warnings <==>
            exists k, r :: PostedAs(k, o, d, c, r) && Warns(k, r, w)
  {
    hide Warns, RowOf, SectionOf, SectionFits, CommodityNames, SectionsOf, AllComplete, SectionWarnings, GroupWarns, DirectRows;
    var names := CommodityNames(o, d, c);
    SectionsWarn(names, o, d, c, w);
    if i :| 0 <= i < |names| && w in SectionOf(names[i], o, d, c).warnings {
      assert SectionFits(names[i], o, d, c);
      SectionWarningsExact(names[i], o, d, c, w);
      var x :| 0 <= x < 6 && GroupWarns(names[i], CategoryOrder[x], DirectRows(names[i], CategoryOrder[x], o, d, c), w);
      GroupWarnsPosted(names[i], CategoryOrder[x], o, d, c, w);
    }
    if k, r :| PostedAs(k, o, d, c, r) && Warns(k, r, w) {
      ListedCommodity(o, d, c, k);
      var i :| 0 <= i < |names| && names[i] == k.commodity;
      assert SectionFits(names[i], o, d, c);
      var x := CategoryListed(k.category);
      GroupWarnsPosted(names[i], CategoryOrder[x], o, d, c, w);
      SectionWarningsExact(names[i], o, d, c, w);
    }
  }

  // ----------------------------------------------- the warnings of a statement

  ghost predicate StatementWarns(k: AmountKey, a: Accumulator, w: Warning) {
    && w.account == k.account && w.commodity == k.commodity
    && (if k.category == Unclassified then w.UnclassifiedAccount?
        else
          && w.OppositeNormalBalance? && w.balance == StatementBalance && Abnormal(k.category, w.side)
          && ShownSide(BalanceText(a)) == Some(w.side))
  }

  lemma {:induction false} StatementRowsWarn(rows: seq<StatementRow>, w: Warning)
    ensures w in RowsWarnings(rows) <==> exists i :: 0 <= i < |rows| && w in rows[i].warnings
  {
    if rows != [] {
      StatementRowsWarn(rows[..|rows| - 1], w);
    }
  }

  lemma {:induction false} StatementGroupsWarn(groups: seq<StatementGroup>, w: Warning)
    ensures w in StatementGroupWarnings(groups) <==> exists i :: 0 <= i < |groups| && w in RowsWarnings(groups[i].accounts)
  {
    hide RowsWarnings;
    if groups != [] {
      StatementGroupsWarn(groups[..|groups| - 1], w);
    }
  }

  lemma {:induction false} StatementsWarn(names: seq<string>, m: Totals, w: Warning)
    ensures w in StatementsWarnings(names, m) <==> exists i :: 0 <= i < |names| && w in StatementOf(names[i], m).warnings
  {
    hide StatementOf;
    if names != [] {
      StatementsWarn(names[..|names| - 1], m, w);
    }
  }

  ghost predicate SumsWarn(commodity: string, category: Category, direct: AccountSums, w: Warning) {
    exists a :: a in direct && StatementWarns(KeyOf(commodity, category, a), direct[a], w)
  }

  lemma DirectSumIsName(direct: AccountSums, account: string)
    requires account in direct
    ensures account in Names(direct.Keys)
  {
    NamesAreAncestors(direct.Keys, account);
    assert Under(account, account);
  }

  lemma StatementGroupWarningsExact(commodity: string, category: Category, direct: AccountSums, w: Warning)
    requires StatementGroupFits(direct)
    ensures w in RowsWarnings(StatementRowsOf(commodity, category, direct)) <==> SumsWarn(commodity, category, direct, w)
  {
    hide Names, BalanceText, Rolled, StatementWarnings, Fits, AccountLess, RowsWarnings, SumOver, ShownSide, Abnormal;
    var rows, names := StatementRowsOf(commodity, category, direct), StatementNames(direct);
    StatementRowsWarn(rows, w);
    if i :| 0 <= i < |rows| && w in rows[i].warnings {
      var name := names[i];
      assert name in names;
      StatementWarningsExact(commodity, name, category, Get(direct, name), name in direct, w);
      assert StatementWarns(KeyOf(commodity, category, name), direct[name], w);
    }
    if a :| a in direct && StatementWarns(KeyOf(commodity, category, a), direct[a], w) {
      DirectSumIsName(direct, a);
      assert a in names;
      var i :| 0 <= i < |names| && names[i] == a;
      StatementWarningsExact(commodity, a, category, Get(direct, a), true, w);
      assert w in rows[i].warnings;
    }
  }

  lemma StatementSectionWarningsExact(commodity: string, m: Totals, w: Warning)
    requires StatementFits(commodity, m)
    ensures w in StatementOf(commodity, m).warnings <==>
            exists x :: 0 <= x < 6 && SumsWarn(commodity, CategoryOrder[x], DirectSums(commodity, CategoryOrder[x], m), w)
  {
    hide DirectSums, StatementGroupFits, StatementRowsOf, SumOver, BalanceText, StatementGroups, StatementGroupWarnings, RowsWarnings, TotalSum, Fits, StatementWarns;
    var groups := StatementGroups(commodity, m, 6);
    StatementGroupsWarn(groups, w);
    StatementGroupsListed(commodity, m, 6);
    if i :| 0 <= i < |groups| && w in RowsWarnings(groups[i].accounts) {
      assert groups[i] in groups;
      var x :| x < 6 && IsStatementGroup(groups[i], commodity, x, m);
      StatementGroupWarningsExact(commodity, CategoryOrder[x], DirectSums(commodity, CategoryOrder[x], m), w);
    }
    if x :| 0 <= x < 6 && SumsWarn(commodity, CategoryOrder[x], DirectSums(commodity, CategoryOrder[x], m), w) {
      var direct := DirectSums(commodity, CategoryOrder[x], m);
      StatementGroupWarningsExact(commodity, CategoryOrder[x], direct, w);
      var i :| 0 <= i < |groups| && groups[i] == StatementGroupOf(commodity, CategoryOrder[x], direct);
    }
  }

  lemma SumsWarnPosted(commodity: string, category: Category, m: Totals, w: Warning)
    ensures SumsWarn(commodity, category, DirectSums(commodity, category, m), w) <==>
            exists k :: k in m && InCell(k, commodity, category) && StatementWarns(k, m[k], w)
  {
    hide StatementWarns;
    var direct := DirectSums(commodity, category, m);
    if a :| a in direct && StatementWarns(KeyOf(commodity, category, a), direct[a], w) {
      var k :| k in m && InCell(k, commodity, category) && k.account == a;
      assert k == KeyOf(commodity, category, a);
    }
    if k :| k in m && InCell(k, commodity, category) && StatementWarns(k, m[k], w) {
      assert k.account in direct && k == KeyOf(commodity, category, k.account);
    }
  }

  // Statement sections warn about exactly the unclassified accounts and the
  // balances printed on the abnormal side.
  lemma StatementsWarningsExact(m: Totals, w: Warning)
    requires AllStatementsFit(m)
    ensures w in StatementsOf(m).warnings <==> exists k :: k in m && StatementWarns(k, m[k], w)
  {
    hide StatementWarns, StatementOf, StatementFits, CommoditiesIn, StatementSections, StatementsComplete, StatementsWarnings, SumsWarn, DirectSums;
    var names := CommoditiesIn(m);
    StatementsWarn(names, m, w);
    if i :| 0 <= i < |names| && w in StatementOf(names[i], m).warnings {
      assert StatementFits(names[i], m);
      StatementSectionWarningsExact(names[i], m, w);
      var x :| 0 <= x < 6 && SumsWarn(names[i], CategoryOrder[x], DirectSums(names[i], CategoryOrder[x], m), w);
      SumsWarnPosted(names[i], CategoryOrder[x], m, w);
    }
    if k :| k in m && StatementWarns(k, m[k], w) {
      NamedIn(m, k);
      var i :| 0 <= i < |names| && names[i] == k.commodity;
      assert StatementFits(names[i], m);
      var x := CategoryListed(k.category);
      SumsWarnPosted(names[i], CategoryOrder[x], m, w);
      StatementSectionWarningsExact(names[i], m, w);
    }
  }

  lemma NamedIn(m: Totals, k: AmountKey)
    requires k in m
    ensures k.commodity in CommoditiesIn(m)
  {
    assert k.commodity in (set k | k in m :: k.commodity);
  }

  // ------------------------------------------------------------ completeness

  lemma ListedCommodity(o: Totals, d: Totals, c: Totals, k: AmountKey)
    requires k in o || k in d || k in c
    ensures k.commodity in CommodityNames(o, d, c)
  {
    assert k in o.Keys + d.Keys + c.Keys;
    assert k.commodity in (set k | k in o.Keys + d.Keys + c.Keys :: k.commodity);
  }

  lemma NoUnclassified(commodity: string, o: Totals, d: Totals, c: Totals)
    ensures DirectRows(commodity, Unclassified, o, d, c) == map[] <==>
            forall k | k in o.Keys + d.Keys + c.Keys :: !InCell(k, commodity, Unclassified)
  {
    hide RowOf;
    DirectEntries(commodity, Unclassified, o, d, c);
    var direct := DirectRows(commodity, Unclassified, o, d, c);
    if k :| k in o.Keys + d.Keys + c.Keys && InCell(k, commodity, Unclassified) {
      assert k.account in Posted(commodity, Unclassified, o, d, c);
      assert k.account in direct;
    }
    if a :| a in direct {
      assert a in Posted(commodity, Unclassified, o, d, c);
    }
  }

  // A trial balance is complete exactly when nothing in it is unclassified.
  lemma CompleteIff(revision: int, period: FiscalPeriod, o: Totals, d: Totals, c: Totals)
    ensures TrialBalanceOf(revision, period, o, d, c).classificationComplete <==>
            forall k | k in o.Keys + d.Keys + c.Keys :: k.category != Unclassified
  {
    hide DirectRows, CommodityNames, Groups, GroupWarnings, SectionsOf, SectionWarnings, RowOver;
    var names := CommodityNames(o, d, c);
    forall i | 0 <= i < |names|
      ensures SectionOf(names[i], o, d, c).complete <==>
              forall k | k in o.Keys + d.Keys + c.Keys :: !InCell(k, names[i], Unclassified)
    {
      NoUnclassified(names[i], o, d, c);
    }
    forall k | k in o.Keys + d.Keys + c.Keys
      ensures exists i :: 0 <= i < |names| && names[i] == k.commodity
    {
      ListedCommodity(o, d, c, k);
    }
  }
}
