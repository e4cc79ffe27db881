// Statement sections: one balance per account with roll-ups, shared by the
// balance sheets, the income statement and the balance trend.
module StatementRows {
  import opened Results
  import Texts
  import opened Orders
  import opened Accumulators
  import opened Accounts
  import opened Configurations
  import opened Movements
  import opened Rows
  import opened TrialBalances
  import opened Sections

  datatype StatementRow = StatementRow(
    account: string, labelText: string, depth: nat, direct: Balance, subtotal: Balance, warnings: seq<Warning>)

  datatype StatementGroup = StatementGroup(category: Category, total: Balance, accounts: seq<StatementRow>)

  datatype StatementSection = StatementSection(commodity: string, total: Balance, groups: seq<StatementGroup>)

  type AccountSums = map<string, Accumulator>

  // formatBalance
  function FormatBalance(a: Accumulator): Result<Balance, ReportError> {
    if Fits(a) then Ok(BalanceText(a)) else Err(AmountOverflow)
  }

  // statementWarnings
  function StatementWarnings(commodity: string, account: string, category: Category, a: Accumulator, posted: bool): seq<Warning> {
    if !posted then []
    else if category == Unclassified then [UnclassifiedAccount(account, commodity)]
    else OppositeWarning(commodity, account, category, StatementBalance, a)
  }

  // ------------------------------------------------------- meaning of a group

  ghost function Rolled(direct: AccountSums, name: string): Accumulator {
    SumOver(direct, Below(direct.Keys, name))
  }

  ghost function StatementNames(direct: AccountSums): seq<string> {
    AccountOrder();
    Sorted(Names(direct.Keys), AccountLess)
  }

  ghost function StatementRowOf(commodity: string, category: Category, direct: AccountSums, name: string): StatementRow {
    StatementRow(name, Parts(name)[Depth(name)], Depth(name), BalanceText(Get(direct, name)), BalanceText(Rolled(direct, name)),
                 StatementWarnings(commodity, name, category, Get(direct, name), name in direct))
  }

  ghost function StatementRowsOf(commodity: string, category: Category, direct: AccountSums): seq<StatementRow> {
    var names := StatementNames(direct);
    seq(|names|, i requires 0 <= i < |names| => StatementRowOf(commodity, category, direct, names[i]))
  }

  ghost function StatementGroupOf(commodity: string, category: Category, direct: AccountSums): StatementGroup {
    StatementGroup(category, BalanceText(SumOver(direct, direct.Keys)), StatementRowsOf(commodity, category, direct))
  }

  ghost predicate StatementGroupFits(direct: AccountSums) {
    && (forall name | name in Names(direct.Keys) :: Fits(Get(direct, name)) && Fits(Rolled(direct, name)))
    && Fits(SumOver(direct, direct.Keys))
  }

  function RowsWarnings(rows: seq<StatementRow>): seq<Warning> {
    if rows == [] then [] else RowsWarnings(rows[..|rows| - 1]) + rows[|rows| - 1].warnings
  }

  // ------------------------------------------------------- building a group

  ghost predicate SumsAre(nodes: AccountSums, direct: AccountSums, done: set<string>, account: string, n: nat)
    requires n <= |Parts(account)|
  {
    && nodes.Keys == Names(done) + FirstPrefixes(account, n)
    && forall name | name in nodes :: nodes[name] == SumOver(direct, NodeSet(done, account, n, name))
  }

  lemma PrefixIsNew(account: string, n: nat)
    requires n < |Parts(account)|
    ensures FirstPrefixes(account, n + 1) == FirstPrefixes(account, n) + {Prefix(account, n)}
    ensures Prefix(account, n) !in FirstPrefixes(account, n)
  {
    hide Prefix;
    forall i | 0 <= i < n
      ensures Prefix(account, i) != Prefix(account, n)
    {
      PrefixesDistinct(account, i, n);
    }
  }

  lemma SumStep(nodes: AccountSums, direct: AccountSums, done: set<string>, account: string, n: nat)
    requires n < |Parts(account)| && account !in done && SumsAre(nodes, direct, done, account, n)
    ensures var name := Prefix(account, n);
            SumsAre(nodes[name := Plus(Get(nodes, name), Get(direct, account))], direct, done, account, n + 1)
  {
    hide Plus, SumOver, Names, Prefix, Below, FirstPrefixes;
    var name := Prefix(account, n);
    var next := nodes[name := Plus(Get(nodes, name), Get(direct, account))];
    PrefixIsNew(account, n);
    forall other | other in next
      ensures next[other] == SumOver(direct, NodeSet(done, account, n + 1, other))
    {
      if other == name {
        assert NodeSet(done, account, n + 1, name) == Below(done, name) + {account};
        assert account !in Below(done, name) by { BelowWithin(done, name); }
        SumOverInsert(direct, Below(done, name), account);
        if name in nodes {
          assert NodeSet(done, account, n, name) == Below(done, name);
        } else {
          NothingBelow(done, name);
          EmptySum(direct);
        }
      } else {
        assert NodeSet(done, account, n + 1, other) == NodeSet(done, account, n, other);
      }
    }
  }

  lemma BelowWithin(done: set<string>, name: string)
    ensures Below(done, name) <= done
  {
  }

  lemma SumsFinish(nodes: AccountSums, direct: AccountSums, done: set<string>, account: string)
    requires SumsAre(nodes, direct, done, account, |Parts(account)|)
    ensures SumsAre(nodes, direct, done + {account}, "", 0)
  {
    hide SumOver, Under, Prefix;
    var n := |Parts(account)|;
    assert Names(done + {account}) == Names(done) + FirstPrefixes(account, n);
    forall name | name in nodes
      ensures NodeSet(done, account, n, name) == NodeSet(done + {account}, "", 0, name)
    {
      PrefixIffUnder(account, name);
    }
  }

  lemma SumsStart(nodes: AccountSums, direct: AccountSums, done: set<string>, account: string)
    requires SumsAre(nodes, direct, done, "", 0)
    ensures SumsAre(nodes, direct, done, account, 0)
  {
    hide SumOver, Under, Names;
    assert forall name :: NodeSet(done, "", 0, name) == NodeSet(done, account, 0, name);
  }

  lemma NoSums0(direct: AccountSums)
    ensures SumsAre(map[], direct, {}, "", 0)
  {
    hide SumOver, Under;
    assert Names({}) == {};
  }

  lemma SumsDone(nodes: AccountSums, direct: AccountSums)
    requires SumsAre(nodes, direct, direct.Keys, "", 0)
    ensures nodes.Keys == Names(direct.Keys) && forall name | name in nodes :: nodes[name] == Rolled(direct, name)
  {
    hide SumOver, Under, Names;
    forall name | name in nodes
      ensures nodes[name] == Rolled(direct, name)
    {
      assert NodeSet(direct.Keys, "", 0, name) == Below(direct.Keys, name);
    }
  }

  method BuildSums(direct: AccountSums) returns (nodes: AccountSums)
    ensures nodes.Keys == Names(direct.Keys)
    ensures forall name | name in nodes :: nodes[name] == Rolled(direct, name)
  {
    hide Plus, SumOver, Under, Prefix, SumsAre;
    nodes := map[];
    var todo := direct.Keys;
    NoSums0(direct);
    assert direct.Keys - todo == {};
    while todo != {}
      invariant todo <= direct.Keys
      invariant SumsAre(nodes, direct, direct.Keys - todo, "", 0)
    {
      var account :| account in todo;
      ghost var done := direct.Keys - todo;
      SumsStart(nodes, direct, done, account);
      var parts := SplitAccount(account);
      for index := 0 to |parts|
        invariant SumsAre(nodes, direct, done, account, index)
      {
        var prefix := JoinAccount(parts[..index + 1]);
        assert prefix == Prefix(account, index) by { PrefixIsJoin(account, index); }
        SumStep(nodes, direct, done, account, index);
        nodes := nodes[prefix := Plus(Get(nodes, prefix), direct[account])];
      }
      SumsFinish(nodes, direct, done, account);
      todo := todo - {account};
      assert direct.Keys - todo == done + {account};
    }
    assert direct.Keys - todo == direct.Keys;
    SumsDone(nodes, direct);
  }

  lemma PrefixIsJoin(account: string, i: nat)
    requires i < |Parts(account)|
    ensures Prefix(account, i) == Texts.Join(Parts(account)[..i + 1], ':')
  {
  }

  // The accounts covered by the top-level names among the first n.
  ghost function CoveredBy(accounts: set<string>, names: seq<string>, n: nat): set<string>
    requires n <= |names|
  {
    set a | a in accounts && exists j :: 0 <= j < n && Depth(names[j]) == 0 && Under(a, names[j])
  }

  lemma CoverNext(direct: AccountSums, names: seq<string>, n: nat)
    requires n < |names| && forall i, j | 0 <= i < j < |names| :: names[i] != names[j]
    ensures Depth(names[n]) == 0 ==>
              SumOver(direct, CoveredBy(direct.Keys, names, n + 1)) ==
              Plus(SumOver(direct, CoveredBy(direct.Keys, names, n)), Rolled(direct, names[n]))
    ensures Depth(names[n]) != 0 ==> CoveredBy(direct.Keys, names, n + 1) == CoveredBy(direct.Keys, names, n)
  {
    hide Plus, SumOver, Under, Depth;
    if Depth(names[n]) == 0 {
      var before, root := CoveredBy(direct.Keys, names, n), Below(direct.Keys, names[n]);
      forall a | a in before
        ensures a !in root
      {
        var j :| 0 <= j < n && Depth(names[j]) == 0 && Under(a, names[j]);
        RootUnique(a, names[j]);
        RootUnique(a, names[n]);
      }
      SumOverUnion(direct, before, root);
      assert CoveredBy(direct.Keys, names, n + 1) == before + root;
    }
  }

  lemma CoverAll(accounts: set<string>, names: seq<string>)
    requires forall x :: x in names <==> x in Names(accounts)
    ensures CoveredBy(accounts, names, |names|) == accounts
  {
    hide Under, Depth, Names, Parts;
    forall a | a in accounts
      ensures a in CoveredBy(accounts, names, |names|)
    {
      var root := Parts(a)[0];
      RootUnique(a, root);
      NamesAreAncestors(accounts, root);
      var j :| 0 <= j < |names| && names[j] == root;
    }
  }

  lemma CoverNone(direct: AccountSums, names: seq<string>)
    ensures SumOver(direct, CoveredBy(direct.Keys, names, 0)) == Unset
  {
    assert CoveredBy(direct.Keys, names, 0) == {};
    EmptySum(direct);
  }

  method BuildStatementRow(commodity: string, category: Category, direct: AccountSums, account: string, rolled: Accumulator)
      returns (r: Result<StatementRow, ReportError>)
    requires rolled == Rolled(direct, account)
    ensures r == if Fits(Get(direct, account)) && Fits(Rolled(direct, account))
                 then Ok(StatementRowOf(commodity, category, direct, account)) else Err(AmountOverflow)
  {
    hide SumOver, BalanceText, Fits, StatementWarnings, Below;
    var value := Get(direct, account);
    var rowWarnings := StatementWarnings(commodity, account, category, value, account in direct);
    var directBalance := FormatBalance(value);
    if directBalance.Err? {
      return Err(AmountOverflow);
    }
    var subtotalBalance := FormatBalance(rolled);
    if subtotalBalance.Err? {
      return Err(AmountOverflow);
    }
    var parts := SplitAccount(account);
    return Ok(StatementRow(account, parts[|parts| - 1], |parts| - 1, directBalance.value, subtotalBalance.value, rowWarnings));
  }

  lemma StatementRowsStep(commodity: string, category: Category, direct: AccountSums, i: nat)
    requires i < |StatementNames(direct)|
    ensures var rows, names := StatementRowsOf(commodity, category, direct), StatementNames(direct);
            && |rows| == |names| && rows[i] == StatementRowOf(commodity, category, direct, names[i])
            && RowsWarnings(rows[..i + 1]) == RowsWarnings(rows[..i]) + rows[i].warnings
  {
    hide StatementNames, StatementRowOf;
    var rows := StatementRowsOf(commodity, category, direct);
    assert rows[..i + 1][..i] == rows[..i];
  }

  lemma StatementRowCount(commodity: string, category: Category, direct: AccountSums)
    ensures |StatementRowsOf(commodity, category, direct)| == |StatementNames(direct)|
    ensures RowsWarnings(StatementRowsOf(commodity, category, direct)[..0]) == []
  {
    hide StatementNames, StatementRowOf;
    assert StatementRowsOf(commodity, category, direct)[..0] == [];
  }

  method StatementNamesInOrder(direct: AccountSums, names: set<string>) returns (accounts: seq<string>)
    requires names == Names(direct.Keys)
    ensures accounts == StatementNames(direct)
    ensures forall i, j | 0 <= i < j < |accounts| :: accounts[i] != accounts[j]
    ensures forall x :: x in accounts <==> x in names
  {
    hide AccountLess, Names, StrictTotal;
    accounts := SortedNames(names);
    NamesDistinct(accounts);
  }

  datatype StatementGroupResult = StatementGroupResult(group: StatementGroup, warnings: seq<Warning>)

  // buildStatementCategoryGroup
  method BuildStatementGroup(commodity: string, category: Category, direct: AccountSums)
      returns (r: Result<StatementGroupResult, ReportError>)
    ensures r.Ok? <==> StatementGroupFits(direct)
    ensures r.Ok? ==> r.value == StatementGroupResult(StatementGroupOf(commodity, category, direct),
                                                      RowsWarnings(StatementRowsOf(commodity, category, direct)))
    ensures r.Err? ==> r.error == AmountOverflow
  {
    hide Plus, SumOver, BalanceText, Fits, StatementRowOf, Names, CoveredBy, Rolled, StatementRowsOf, StatementNames, RowsWarnings, Get, Depth;
    var nodes := BuildSums(direct);
    var accounts := StatementNamesInOrder(direct, nodes.Keys);
    ghost var spec := StatementRowsOf(commodity, category, direct);
    StatementRowCount(commodity, category, direct);
    var rows: seq<StatementRow> := [];
    var warnings: seq<Warning> := [];
    var groupTotal: Accumulator := Unset;
    CoverNone(direct, accounts);
    for i := 0 to |accounts|
      invariant rows == spec[..i]
      invariant warnings == RowsWarnings(spec[..i])
      invariant groupTotal == SumOver(direct, CoveredBy(direct.Keys, accounts, i))
      invariant forall j | 0 <= j < i :: Fits(Get(direct, accounts[j])) && Fits(Rolled(direct, accounts[j]))
    {
      var account := accounts[i];
      assert account in accounts && account in nodes;
      var row := BuildStatementRow(commodity, category, direct, account, nodes[account]);
      if row.Err? {
        return Err(AmountOverflow);
      }
      StatementRowsStep(commodity, category, direct, i);
      rows := rows + [row.value];
      warnings := warnings + row.value.warnings;
      CoverNext(direct, accounts, i);
      DepthOfParts(account);
      if |Parts(account)| == 1 {
        groupTotal := Plus(groupTotal, nodes[account]);
      }
    }
    assert spec[..|accounts|] == spec;
    CoverAll(direct.Keys, accounts);
    var total := FormatBalance(groupTotal);
    if total.Err? {
      return Err(AmountOverflow);
    }
    assert forall name | name in Names(direct.Keys) :: name in accounts;
    return Ok(StatementGroupResult(StatementGroup(category, total.value, rows), warnings));
  }

  // ------------------------------------------------------------- one section

  // The accounts of one commodity and category in the totals.
  ghost function AccountsIn(commodity: string, category: Category, m: Totals): set<string> {
    set k | k in m && InCell(k, commodity, category) :: k.account
  }

  ghost function DirectSums(commodity: string, category: Category, m: Totals): AccountSums {
    map a | a in AccountsIn(commodity, category, m) :: Get(m, KeyOf(commodity, category, a))
  }

  method CollectSums(commodity: string, category: Category, m: Totals) returns (direct: AccountSums)
    ensures direct == DirectSums(commodity, category, m)
  {
    hide DirectSums;
    direct := map[];
    var todo := m.Keys;
    assert Restrict(m, m.Keys - todo) == map[];
    NothingSummed(commodity, category);
    while todo != {}
      invariant todo <= m.Keys
      invariant direct == DirectSums(commodity, category, Restrict(m, m.Keys - todo))
    {
      var key :| key in todo;
      DirectSumsStep(commodity, category, Restrict(m, m.Keys - todo), key, m[key]);
      assert Restrict(m, m.Keys - (todo - {key})) == Restrict(m, m.Keys - todo)[key := m[key]];
      if InCell(key, commodity, category) {
        direct := direct[key.account := Plus(Get(direct, key.account), m[key])];
      }
      todo := todo - {key};
    }
    assert Restrict(m, m.Keys - todo) == m;
  }

  lemma NothingSummed(commodity: string, category: Category)
    ensures DirectSums(commodity, category, map[]) == map[]
  {
  }

  lemma DirectSumsStep(commodity: string, category: Category, m: Totals, k: AmountKey, value: Accumulator)
    requires k !in m
    ensures var direct := DirectSums(commodity, category, m);
            DirectSums(commodity, category, m[k := value]) ==
            if InCell(k, commodity, category) then direct[k.account := Plus(Get(direct, k.account), value)] else direct
  {
    hide Plus;
    PlusUnset(value);
    var n := m[k := value];
    assert AccountsIn(commodity, category, n)
        == AccountsIn(commodity, category, m) + (if InCell(k, commodity, category) then {k.account} else {});
    if InCell(k, commodity, category) {
      assert k.account !in AccountsIn(commodity, category, m);
    }
    forall a | a in AccountsIn(commodity, category, m)
      ensures Get(n, KeyOf(commodity, category, a)) == Get(m, KeyOf(commodity, category, a))
    {
    }
  }

  // The sum of the direct balances over a choice of accounts.
  lemma DirectSumsTotal(commodity: string, category: Category, m: Totals, A: iset<string>)
    ensures var direct := DirectSums(commodity, category, m);
            SumOver(direct, set a | a in direct && a in A) == TotalSum(m, Cell(commodity, category, A))
  {
    hide Plus, SumOver, TotalSum, Cell, Get;
    var direct := DirectSums(commodity, category, m);
    var posted := AccountsIn(commodity, category, m);
    assert direct.Keys == posted;
    assert (set a | a in direct && a in A) == (set a | a in posted && a in A);
    ColumnSum(direct, m, commodity, category, posted, A);
  }

  lemma WholeCell(commodity: string, category: Category, m: Totals)
    ensures var direct := DirectSums(commodity, category, m);
            SumOver(direct, direct.Keys) == TotalSum(m, Cell(commodity, category, AnyAccount()))
  {
    hide SumOver, TotalSum, DirectSums, Cell;
    var direct := DirectSums(commodity, category, m);
    DirectSumsTotal(commodity, category, m, AnyAccount());
    assert (set a | a in direct && a in AnyAccount()) == direct.Keys;
  }

  ghost function StatementGroups(commodity: string, m: Totals, n: nat): seq<StatementGroup>
    requires n <= 6
  {
    if n == 0 then []
    else
      var direct := DirectSums(commodity, CategoryOrder[n - 1], m);
      StatementGroups(commodity, m, n - 1)
      + (if direct == map[] then [] else [StatementGroupOf(commodity, CategoryOrder[n - 1], direct)])
  }

  function StatementGroupWarnings(groups: seq<StatementGroup>): seq<Warning> {
    if groups == [] then []
    else StatementGroupWarnings(groups[..|groups| - 1]) + RowsWarnings(groups[|groups| - 1].accounts)
  }

  datatype StatementResult = StatementResult(section: StatementSection, warnings: seq<Warning>, complete: bool)

  ghost function StatementOf(commodity: string, m: Totals): StatementResult {
    var groups := StatementGroups(commodity, m, 6);
    StatementResult(StatementSection(commodity, BalanceText(TotalSum(m, OfCommodity(commodity))), groups),
                    StatementGroupWarnings(groups), DirectSums(commodity, Unclassified, m) == map[])
  }

  ghost predicate StatementFits(commodity: string, m: Totals) {
    && (forall n | 0 <= n < 6 :: StatementGroupFits(DirectSums(commodity, CategoryOrder[n], m)))
    && Fits(TotalSum(m, OfCommodity(commodity)))
  }

  lemma StatementStep(commodity: string, n: nat, m: Totals, sum: Accumulator)
    requires n < 6 && Norm(sum) == Norm(TotalSum(m, UpTo(commodity, n)))
    ensures var direct := DirectSums(commodity, CategoryOrder[n], m);
            var total := SumOver(direct, direct.Keys);
            && (direct == map[] ==> Norm(sum) == Norm(TotalSum(m, UpTo(commodity, n + 1))))
            && (Fits(total) ==> Norm(Plus(sum, ParseBalance(BalanceText(total)))) == Norm(TotalSum(m, UpTo(commodity, n + 1))))
  {
    hide Plus, SumOver, TotalSum, DirectSums, UpTo, Cell, Norm, Fits, BalanceText, ParseBalance;
    var direct := DirectSums(commodity, CategoryOrder[n], m);
    var total := SumOver(direct, direct.Keys);
    var before := TotalSum(m, UpTo(commodity, n));
    WholeCell(commodity, CategoryOrder[n], m);
    UpToStep(commodity, n);
    TotalSumSplit(m, UpTo(commodity, n), Cell(commodity, CategoryOrder[n], AnyAccount()));
    if direct == map[] {
      assert direct.Keys == {};
      EmptySum(direct);
      PlusUnset(before);
    }
    if Fits(total) {
      ReparseBalance(total);
      NormPlus(sum, Norm(total));
      NormTwice(total);
      NormPlus(before, total);
    }
  }

  lemma NormTwice(a: Accumulator)
    ensures Norm(Norm(a)) == Norm(a)
  {
  }

  lemma StatementGroupStep(commodity: string, n: nat, m: Totals)
    requires n < 6
    ensures var direct := DirectSums(commodity, CategoryOrder[n], m);
            var groups, next := StatementGroups(commodity, m, n), StatementGroups(commodity, m, n + 1);
            && (direct == map[] ==> next == groups)
            && (direct != map[] ==> next == groups + [StatementGroupOf(commodity, CategoryOrder[n], direct)])
            && (direct != map[] ==>
                  StatementGroupWarnings(next) ==
                  StatementGroupWarnings(groups) + RowsWarnings(StatementRowsOf(commodity, CategoryOrder[n], direct)))
  {
    hide DirectSums, StatementRowsOf, SumOver, BalanceText;
    var direct := DirectSums(commodity, CategoryOrder[n], m);
    var groups, next := StatementGroups(commodity, m, n), StatementGroups(commodity, m, n + 1);
    if direct == map[] {
      assert groups + [] == groups;
    } else {
      assert next[..|next| - 1] == groups;
    }
  }

  lemma StatementBase(commodity: string, m: Totals)
    ensures TotalSum(m, UpTo(commodity, 0)) == Unset
    ensures StatementGroups(commodity, m, 0) == [] && StatementGroupWarnings([]) == []
    ensures StatementGroupFits(map[])
  {
    hide Plus;
    assert UpTo(commodity, 0) == iset{};
    assert (set k | k in m && k in UpTo(commodity, 0)) == {};
    EmptySum(m);
    var none: AccountSums := map[];
    assert none.Keys == {};
    assert Names(none.Keys) == {};
    EmptySum(none);
  }

  lemma StatementGroupTotal(commodity: string, category: Category, direct: AccountSums)
    requires StatementGroupFits(direct)
    ensures StatementGroupOf(commodity, category, direct).total == BalanceText(SumOver(direct, direct.Keys))
    ensures Fits(SumOver(direct, direct.Keys))
  {
  }

  // buildStatementCommodity: the section total adds up the group totals as
  // they are read back from their printed form.
  method BuildStatementCommodity(commodity: string, m: Totals) returns (r: Result<StatementResult, ReportError>)
    ensures r.Ok? <==> StatementFits(commodity, m)
    ensures r.Ok? ==> r.value == StatementOf(commodity, m)
    ensures r.Err? ==> r.error == AmountOverflow
  {
    hide DirectSums, StatementGroupOf, StatementRowsOf, StatementGroupFits, SumOver, TotalSum, Plus, Norm, Fits, BalanceText, ParseBalance, UpTo, OfCommodity, StatementGroups, StatementGroupWarnings, RowsWarnings;
    var groups: seq<StatementGroup> := [];
    var warnings: seq<Warning> := [];
    var complete := true;
    var sectionTotal: Accumulator := Unset;
    StatementBase(commodity, m);
    for n := 0 to 6
      invariant groups == StatementGroups(commodity, m, n) && warnings == StatementGroupWarnings(groups)
      invariant forall i | 0 <= i < n :: StatementGroupFits(DirectSums(commodity, CategoryOrder[i], m))
      invariant Norm(sectionTotal) == Norm(TotalSum(m, UpTo(commodity, n)))
      invariant complete == (n == 6 ==> DirectSums(commodity, Unclassified, m) == map[])
    {
      var category := CategoryOrder[n];
      var direct := CollectSums(commodity, category, m);
      StatementStep(commodity, n, m, sectionTotal);
      StatementGroupStep(commodity, n, m);
      if direct == map[] {
        continue;
      }
      var group := BuildStatementGroup(commodity, category, direct);
      if group.Err? {
        return Err(AmountOverflow);
      }
      StatementGroupTotal(commodity, category, direct);
      groups := groups + [group.value.group];
      warnings := warnings + group.value.warnings;
      sectionTotal := Plus(sectionTotal, ParseBalance(group.value.group.total));
      if category == Unclassified {
        complete := false;
      }
    }
    UpToAll(commodity);
    NormText(sectionTotal);
    NormText(TotalSum(m, OfCommodity(commodity)));
    var total := FormatBalance(sectionTotal);
    if total.Err? {
      return Err(AmountOverflow);
    }
    return Ok(StatementResult(StatementSection(commodity, total.value, groups), warnings, complete));
  }

  // ------------------------------------------------------------- all sections

  ghost function CommoditiesIn(m: Totals): seq<string> {
    TextOrder();
    Sorted((set k | k in m :: k.commodity), TextLess)
  }

  ghost function StatementSections(names: seq<string>, m: Totals): seq<StatementSection> {
    if names == [] then []
    else StatementSections(names[..|names| - 1], m) + [StatementOf(names[|names| - 1], m).section]
  }

  ghost function StatementsWarnings(names: seq<string>, m: Totals): seq<Warning> {
    if names == [] then []
    else StatementsWarnings(names[..|names| - 1], m) + StatementOf(names[|names| - 1], m).warnings
  }

  ghost predicate StatementsComplete(names: seq<string>, m: Totals) {
    forall i | 0 <= i < |names| :: StatementOf(names[i], m).complete
  }

  ghost predicate StatementsFit(names: seq<string>, m: Totals) {
    forall i | 0 <= i < |names| :: StatementFits(names[i], m)
  }

  datatype Statements = Statements(sections: seq<StatementSection>, warnings: seq<Warning>, complete: bool)

  ghost function StatementsOf(m: Totals): Statements {
    var names := CommoditiesIn(m);
    Statements(StatementSections(names, m), StatementsWarnings(names, m), StatementsComplete(names, m))
  }

  ghost predicate AllStatementsFit(m: Totals) {
    StatementsFit(CommoditiesIn(m), m)
  }

  method SortedCommoditiesIn(m: Totals) returns (names: seq<string>)
    ensures names == CommoditiesIn(m)
  {
    hide TextLess, StrictTotal;
    names := SortedCommodities(m, map[], map[]);
    var none: Totals := map[];
    assert m.Keys + none.Keys + none.Keys == m.Keys;
  }

  // assembleStatementCommodities
  method AssembleStatements(m: Totals) returns (r: Result<Statements, ReportError>)
    ensures r.Ok? <==> AllStatementsFit(m)
    ensures r.Ok? ==> r.value == StatementsOf(m)
    ensures r.Err? ==> r.error == AmountOverflow
  {
    hide StatementOf, StatementFits, CommoditiesIn;
    var names := SortedCommoditiesIn(m);
    var sections: seq<StatementSection> := [];
    var warnings: seq<Warning> := [];
    var complete := true;
    assert names[..0] == [];
    for n := 0 to |names|
      invariant sections == StatementSections(names[..n], m)
      invariant warnings == StatementsWarnings(names[..n], m)
      invariant complete == StatementsComplete(names[..n], m)
      invariant StatementsFit(names[..n], m)
    {
      assert names[..n + 1][..n] == names[..n];
      var section := BuildStatementCommodity(names[n], m);
      if section.Err? {
        return Err(AmountOverflow);
      }
      sections := sections + [section.value.section];
      warnings := warnings + section.value.warnings;
      complete := complete && section.value.complete;
    }
    assert names[..|names|] == names;
    return Ok(Statements(sections, warnings, complete));
  }
}
