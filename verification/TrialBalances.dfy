// Trial balances: account rows with roll-ups, category groups, commodity
// sections and the report, first as a meaning and then as the source builds them.
module TrialBalances {
  import opened Results
  import opened Orders
  import opened Accumulators
  import opened Accounts
  import opened Configurations
  import opened Rows

  datatype BalanceName = OpeningBalance | ClosingBalance | StatementBalance

  datatype Side = DebitSide | CreditSide

  datatype Warning =
    | UnclassifiedAccount(account: string, commodity: string)
    | OppositeNormalBalance(account: string, commodity: string, balance: BalanceName, side: Side)

  datatype AccountRow = AccountRow(
    account: string, labelText: string, depth: nat, direct: Amounts, subtotal: Amounts, warnings: seq<Warning>)

  datatype CategoryGroup = CategoryGroup(category: Category, total: Amounts, accounts: seq<AccountRow>)

  datatype CommoditySection = CommoditySection(commodity: string, total: Amounts, groups: seq<CategoryGroup>)

  datatype TrialBalance = TrialBalance(
    revision: int, period: FiscalPeriod, classificationComplete: bool, warnings: seq<Warning>,
    commodities: seq<CommoditySection>)

  function NormalSide(category: Category): Side {
    if category == Asset || category == Expense then DebitSide else CreditSide
  }

  function SideOfSum(a: Accumulator): Side {
    if SignOf(a) < 0 then CreditSide else DebitSide
  }

  function OppositeWarning(commodity: string, account: string, category: Category, name: BalanceName, a: Accumulator)
      : seq<Warning>
  {
    if SignOf(a) == 0 || NormalSide(category) == SideOfSum(a) then []
    else [OppositeNormalBalance(account, commodity, name, SideOfSum(a))]
  }

  // warningsForRow
  function RowWarnings(commodity: string, account: string, category: Category, r: RowSums, posted: bool): seq<Warning> {
    if !posted then []
    else if category == Unclassified then [UnclassifiedAccount(account, commodity)]
    else
      OppositeWarning(commodity, account, category, OpeningBalance, r.opening)
      + OppositeWarning(commodity, account, category, ClosingBalance, r.closing)
  }

  // ------------------------------------------------------- meaning of a group

  // Every account with a posting at or below it.
  ghost function Names(accounts: set<string>): set<string> {
    set a, i | a in accounts && 0 <= i < |Parts(a)| :: Prefix(a, i)
  }

  lemma NamesAreAncestors(accounts: set<string>, name: string)
    ensures name in Names(accounts) <==> exists a :: a in accounts && Under(a, name)
  {
    if name in Names(accounts) {
      var a, i :| a in accounts && 0 <= i < |Parts(a)| && Prefix(a, i) == name;
      PrefixIsUnder(a, i);
    }
    if a :| a in accounts && Under(a, name) {
      UnderIsPrefix(a, name);
      assert Prefix(a, |Parts(name)| - 1) in Names(accounts);
    }
  }

  // The accounts of a set lying at or below an ancestor.
  ghost function Below(accounts: set<string>, ancestor: string): set<string> {
    set a | a in accounts && Under(a, ancestor)
  }

  ghost function Subtotal(direct: RowMap, name: string): RowSums {
    SumRows(direct, Below(direct.Keys, name))
  }

  ghost function RowNames(direct: RowMap): seq<string> {
    AccountOrder();
    Sorted(Names(direct.Keys), AccountLess)
  }

  ghost function AccountRowOf(commodity: string, category: Category, direct: RowMap, name: string): AccountRow {
    AccountRow(name, Parts(name)[Depth(name)], Depth(name), RowText(GetRow(direct, name)), RowText(Subtotal(direct, name)),
               RowWarnings(commodity, name, category, GetRow(direct, name), name in direct))
  }

  ghost function GroupRows(commodity: string, category: Category, direct: RowMap): seq<AccountRow> {
    var names := RowNames(direct);
    seq(|names|, i requires 0 <= i < |names| => AccountRowOf(commodity, category, direct, names[i]))
  }

  ghost function GroupOf(commodity: string, category: Category, direct: RowMap): CategoryGroup {
    CategoryGroup(category, RowText(SumRows(direct, direct.Keys)), GroupRows(commodity, category, direct))
  }

  // Every printed figure of the group is in range.
  ghost predicate GroupFits(direct: RowMap) {
    && (forall name | name in Names(direct.Keys) :: RowFits(GetRow(direct, name)) && RowFits(Subtotal(direct, name)))
    && RowFits(SumRows(direct, direct.Keys))
  }

  function WarningsOf(rows: seq<AccountRow>): seq<Warning> {
    if rows == [] then [] else WarningsOf(rows[..|rows| - 1]) + rows[|rows| - 1].warnings
  }

  // ------------------------------------------------------ building the nodes

  // Node sums when the accounts in `done` have been spread over their
  // ancestors, and the first n prefixes of one more account.
  ghost function NodeSet(done: set<string>, account: string, n: nat, name: string): set<string>
    requires n <= |Parts(account)|
  {
    Below(done, name) + (if name in FirstPrefixes(account, n) then {account} else {})
  }

  ghost function FirstPrefixes(account: string, n: nat): set<string>
    requires n <= |Parts(account)|
  {
    set i | 0 <= i < n :: Prefix(account, i)
  }

  ghost predicate NodesAre(nodes: RowMap, direct: RowMap, done: set<string>, account: string, n: nat)
    requires n <= |Parts(account)|
  {
    && nodes.Keys == Names(done) + FirstPrefixes(account, n)
    && forall name | name in nodes :: nodes[name] == SumRows(direct, NodeSet(done, account, n, name))
  }

  lemma PrefixesDistinct(account: string, i: nat, j: nat)
    requires i < j < |Parts(account)|
    ensures Prefix(account, i) != Prefix(account, j)
  {
    var parts := Parts(account);
    SplitOfPrefix(account, i);
    SplitOfPrefix(account, j);
  }

  lemma SplitOfPrefix(account: string, i: nat)
    requires i < |Parts(account)|
    ensures Parts(Prefix(account, i)) == Parts(account)[..i + 1]
  {
    PrefixParts(Parts(account)[..i + 1]);
  }

  lemma NodeStep(nodes: RowMap, direct: RowMap, done: set<string>, account: string, n: nat)
    requires n < |Parts(account)| && account !in done
    requires NodesAre(nodes, direct, done, account, n)
    ensures var name := Prefix(account, n);
            NodesAre(nodes[name := AddRows(GetRow(nodes, name), GetRow(direct, account))], direct, done, account, n + 1)
  {
    hide AddRows, SumRows, Names, Prefix;
    var name := Prefix(account, n);
    var next := nodes[name := AddRows(GetRow(nodes, name), GetRow(direct, account))];
    assert FirstPrefixes(account, n + 1) == FirstPrefixes(account, n) + {name};
    assert name !in FirstPrefixes(account, n) by {
      forall i | 0 <= i < n
        ensures Prefix(account, i) != name
      {
        PrefixesDistinct(account, i, n);
      }
    }
    forall other | other in next
      ensures next[other] == SumRows(direct, NodeSet(done, account, n + 1, other))
    {
      if other == name {
        assert NodeSet(done, account, n + 1, name) == Below(done, name) + {account};
        SumRowsInsert(direct, Below(done, name), account);
        if name in nodes {
          assert NodeSet(done, account, n, name) == Below(done, name);
        } else {
          NothingBelow(done, name);
          SumRowsEmpty(direct);
        }
      } else {
        assert NodeSet(done, account, n + 1, other) == NodeSet(done, account, n, other);
      }
    }
  }

  lemma NothingBelow(done: set<string>, name: string)
    requires name !in Names(done)
    ensures Below(done, name) == {}
  {
    hide Under, Names;
    NamesAreAncestors(done, name);
  }

  // All prefixes spread: the account joins the done ones.
  lemma NodesFinish(nodes: RowMap, direct: RowMap, done: set<string>, account: string)
    requires NodesAre(nodes, direct, done, account, |Parts(account)|)
    ensures NodesAre(nodes, direct, done + {account}, account, 0)
  {
    hide SumRows, Under, Prefix;
    var n := |Parts(account)|;
    assert Names(done + {account}) == Names(done) + FirstPrefixes(account, n);
    forall name | name in nodes
      ensures NodeSet(done, account, n, name) == NodeSet(done + {account}, account, 0, name)
    {
      PrefixIffUnder(account, name);
    }
  }

  // The nested loops over accounts and their prefixes, accounts in any order.
  method BuildNodes(direct: RowMap) returns (nodes: RowMap)
    ensures nodes.Keys == Names(direct.Keys)
    ensures forall name | name in nodes :: nodes[name] == Subtotal(direct, name)
  {
    hide AddRows, SumRows, Under, Prefix, Parts, NodesAre;
    nodes := map[];
    var todo := direct.Keys;
    StartNodes(direct);
    while todo != {}
      invariant todo <= direct.Keys
      invariant NodesAre(nodes, direct, direct.Keys - todo, "", 0)
    {
      var account :| account in todo;
      ghost var done := direct.Keys - todo;
      SwitchAccount(nodes, direct, done, "", account);
      for index := 0 to |Parts(account)|
        invariant NodesAre(nodes, direct, done, account, index)
      {
        var prefix := Prefix(account, index);
        NodeStep(nodes, direct, done, account, index);
        nodes := nodes[prefix := AddRows(GetRow(nodes, prefix), direct[account])];
      }
      NodesFinish(nodes, direct, done, account);
      todo := todo - {account};
      assert direct.Keys - todo == done + {account};
      SwitchAccount(nodes, direct, done + {account}, account, "");
    }
    assert direct.Keys - todo == direct.Keys;
    FinishNodes(nodes, direct);
  }

  lemma StartNodes(direct: RowMap)
    ensures NodesAre(map[], direct, direct.Keys - direct.Keys, "", 0)
  {
    hide SumRows, Under;
    assert Names(direct.Keys - direct.Keys) == {};
  }

  lemma SwitchAccount(nodes: RowMap, direct: RowMap, done: set<string>, a: string, b: string)
    requires NodesAre(nodes, direct, done, a, 0)
    ensures NodesAre(nodes, direct, done, b, 0)
  {
    hide SumRows, Under, Names;
    assert forall name :: NodeSet(done, a, 0, name) == NodeSet(done, b, 0, name);
  }

  lemma FinishNodes(nodes: RowMap, direct: RowMap)
    requires NodesAre(nodes, direct, direct.Keys, "", 0)
    ensures nodes.Keys == Names(direct.Keys)
    ensures forall name | name in nodes :: nodes[name] == Subtotal(direct, name)
  {
    hide SumRows, Under, Names;
    forall name | name in nodes
      ensures nodes[name] == Subtotal(direct, name)
    {
      assert NodeSet(direct.Keys, "", 0, name) == Below(direct.Keys, name);
    }
  }

  // ------------------------------------------------------- rows of one group

  method SortedNames(names: set<string>) returns (accounts: seq<string>)
    ensures StrictTotal(AccountLess)
    ensures accounts == Sorted(names, AccountLess)
  {
    hide AccountLess;
    AccountOrder();
    var listed: seq<string> := [];
    var todo := names;
    while todo != {}
      invariant todo <= names
      invariant forall x :: x in listed <==> x in names && x !in todo
      invariant forall i, j | 0 <= i < j < |listed| :: listed[i] != listed[j]
    {
      var name :| name in todo;
      listed := listed + [name];
      todo := todo - {name};
    }
    accounts := SortDistinct(listed, AccountLess);
    assert (set x | x in listed) == names;
  }

  // The accounts covered by the top-level names among the first n.
  ghost function Covered(direct: RowMap, names: seq<string>, n: nat): set<string>
    requires n <= |names|
  {
    set a | a in direct && exists j :: 0 <= j < n && Depth(names[j]) == 0 && Under(a, names[j])
  }

  lemma CoverStep(direct: RowMap, names: seq<string>, n: nat)
    requires n < |names| && forall i, j | 0 <= i < j < |names| :: names[i] != names[j]
    ensures Depth(names[n]) == 0 ==>
              Covered(direct, names, n + 1) == Covered(direct, names, n) + Below(direct.Keys, names[n])
              && Covered(direct, names, n) !! Below(direct.Keys, names[n])
    ensures Depth(names[n]) != 0 ==> Covered(direct, names, n + 1) == Covered(direct, names, n)
  {
    hide Under, Depth;
    if Depth(names[n]) == 0 {
      forall a | a in Covered(direct, names, n)
        ensures !Under(a, names[n])
      {
        var j :| 0 <= j < n && Depth(names[j]) == 0 && Under(a, names[j]);
        RootUnique(a, names[j]);
        RootUnique(a, names[n]);
      }
    }
  }

  lemma AllCovered(direct: RowMap, names: seq<string>)
    requires forall x :: x in names <==> x in Names(direct.Keys)
    ensures Covered(direct, names, |names|) == direct.Keys
  {
    hide Under, Depth, Names, Parts;
    forall a | a in direct
      ensures a in Covered(direct, names, |names|)
    {
      var root := Parts(a)[0];
      RootUnique(a, root);
      NamesAreAncestors(direct.Keys, root);
      var j :| 0 <= j < |names| && names[j] == root;
    }
  }

  datatype GroupResult = GroupResult(group: CategoryGroup, warnings: seq<Warning>)

  method BuildRow(commodity: string, category: Category, direct: RowMap, account: string, subtotal: RowSums)
      returns (r: Result<AccountRow, ReportError>)
    requires subtotal == Subtotal(direct, account)
    ensures r == if RowFits(GetRow(direct, account)) && RowFits(Subtotal(direct, account))
                 then Ok(AccountRowOf(commodity, category, direct, account)) else Err(AmountOverflow)
  {
    hide SumRows, RowText, RowFits, RowWarnings, Below;
    var directSums := GetRow(direct, account);
    var directAmounts := FormatAmounts(directSums);
    if directAmounts.Err? {
      return Err(AmountOverflow);
    }
    var subtotalAmounts := FormatAmounts(subtotal);
    if subtotalAmounts.Err? {
      return Err(AmountOverflow);
    }
    var rowWarnings := RowWarnings(commodity, account, category, directSums, account in direct);
    var parts := Parts(account);
    return Ok(AccountRow(account, parts[|parts| - 1], |parts| - 1, directAmounts.value, subtotalAmounts.value, rowWarnings));
  }

  lemma RowsStep(commodity: string, category: Category, direct: RowMap, i: nat)
    requires i < |RowNames(direct)|
    ensures var rows, names := GroupRows(commodity, category, direct), RowNames(direct);
            && |rows| == |names| && rows[i] == AccountRowOf(commodity, category, direct, names[i])
            && WarningsOf(rows[..i + 1]) == WarningsOf(rows[..i]) + rows[i].warnings
  {
    hide RowNames, AccountRowOf;
    var rows := GroupRows(commodity, category, direct);
    assert rows[..i + 1][..i] == rows[..i];
  }

  // buildCategoryGroup: nodes, sorted rows, and the total taken from the
  // top-level rows.
  method BuildCategoryGroup(commodity: string, category: Category, direct: RowMap) returns (r: Result<GroupResult, ReportError>)
    ensures r.Ok? <==> GroupFits(direct)
    ensures r.Ok? ==> r.value == GroupResult(GroupOf(commodity, category, direct), WarningsOf(GroupRows(commodity, category, direct)))
    ensures r.Err? ==> r.error == AmountOverflow
  {
    hide AddRows, SumRows, RowText, RowFits, AccountRowOf, Names, Covered, Increasing, StrictTotal, Subtotal, GroupRows, RowNames, WarningsOf, Below, GetRow, Depth;
    var nodes := BuildNodes(direct);
    var accounts := NamesInOrder(direct, nodes.Keys);
    ghost var spec := GroupRows(commodity, category, direct);
    RowCount(commodity, category, direct);
    var rows: seq<AccountRow> := [];
    var warnings: seq<Warning> := [];
    var groupSums := NoSums;
    NoneCovered(direct, accounts);
    for i := 0 to |accounts|
      invariant rows == spec[..i]
      invariant warnings == WarningsOf(spec[..i])
      invariant groupSums == SumRows(direct, Covered(direct, accounts, i))
      invariant forall j | 0 <= j < i :: RowFits(GetRow(direct, accounts[j])) && RowFits(Subtotal(direct, accounts[j]))
    {
      var account := accounts[i];
      assert account in accounts && account in nodes;
      var row := BuildRow(commodity, category, direct, account, nodes[account]);
      if row.Err? {
        return Err(AmountOverflow);
      }
      RowsStep(commodity, category, direct, i);
      warnings := warnings + row.value.warnings;
      rows := rows + [row.value];
      CoverStep(direct, accounts, i);
      DepthOfParts(account);
      if |Parts(account)| == 1 {
        CoverRoot(direct, accounts, i);
        groupSums := AddRows(groupSums, nodes[account]);
      }
    }
    assert spec[..|accounts|] == spec;
    AllCovered(direct, accounts);
    var total := FormatAmounts(groupSums);
    if total.Err? {
      return Err(AmountOverflow);
    }
    assert forall name | name in Names(direct.Keys) :: name in accounts;
    return Ok(GroupResult(CategoryGroup(category, total.value, rows), warnings));
  }

  lemma CoverRoot(direct: RowMap, names: seq<string>, n: nat)
    requires n < |names| && forall i, j | 0 <= i < j < |names| :: names[i] != names[j]
    requires Depth(names[n]) == 0
    ensures SumRows(direct, Covered(direct, names, n + 1))
         == AddRows(SumRows(direct, Covered(direct, names, n)), Subtotal(direct, names[n]))
  {
    hide SumRows, AddRows, Covered, Below, Depth;
    CoverStep(direct, names, n);
    SumRowsUnion(direct, Covered(direct, names, n), Below(direct.Keys, names[n]));
  }

  lemma RowCount(commodity: string, category: Category, direct: RowMap)
    ensures |GroupRows(commodity, category, direct)| == |RowNames(direct)|
    ensures WarningsOf(GroupRows(commodity, category, direct)[..0]) == []
  {
    hide RowNames, AccountRowOf;
    assert GroupRows(commodity, category, direct)[..0] == [];
  }

  method NamesInOrder(direct: RowMap, names: set<string>) returns (accounts: seq<string>)
    requires names == Names(direct.Keys)
    ensures accounts == RowNames(direct)
    ensures forall i, j | 0 <= i < j < |accounts| :: accounts[i] != accounts[j]
    ensures forall x :: x in accounts <==> x in names
  {
    hide AccountLess, Names, StrictTotal;
    accounts := SortedNames(names);
    NamesDistinct(accounts);
  }

  lemma NamesDistinct(names: seq<string>)
    requires StrictTotal(AccountLess) && Increasing(names, AccountLess)
    ensures forall i, j | 0 <= i < j < |names| :: names[i] != names[j]
  {
    hide AccountLess;
  }

  lemma NoneCovered(direct: RowMap, names: seq<string>)
    ensures SumRows(direct, Covered(direct, names, 0)) == NoSums
  {
    hide SumRows;
    assert Covered(direct, names, 0) == {};
    SumRowsEmpty(direct);
  }

  lemma DepthOfParts(account: string)
    ensures |Parts(account)| == Depth(account) + 1
  {
  }
}
