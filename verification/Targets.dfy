// Looking up the figure of one account in a report.
module Targets {
  import opened Results
  import opened Accumulators
  import opened Accounts
  import opened Configurations
  import opened Movements
  import opened Rows
  import opened TrialBalances
  import opened Sections
  import opened StatementRows
  import opened Reports
  import opened Statements

  datatype Scope = DirectScope | SubtreeScope | UnknownScope

  datatype Query = Query(period: PeriodText, commodity: string, category: Category, account: string, scope: Scope)

  // ----------------------------------------------------- in a trial balance

  function PickAmounts(row: AccountRow, q: Query): Amounts {
    if q.scope == DirectScope then row.direct else row.subtotal
  }

  // The asked figure: defined when the account or a descendant was posted.
  ghost function TrialTarget(o: Totals, d: Totals, c: Totals, q: Query): Option<Amounts> {
    var direct := DirectRows(q.commodity, q.category, o, d, c);
    if q.account !in Names(direct.Keys) then None
    else Some(RowText(if q.scope == DirectScope then GetRow(direct, q.account) else Subtotal(direct, q.account)))
  }

  // A row of the report that answers the query.
  ghost predicate AnswersAt(sections: seq<CommoditySection>, q: Query, i: int, j: int, k: int, value: Amounts) {
    && 0 <= i < |sections| && sections[i].commodity == q.commodity
    && 0 <= j < |sections[i].groups| && sections[i].groups[j].category == q.category
    && 0 <= k < |sections[i].groups[j].accounts| && sections[i].groups[j].accounts[k].account == q.account
    && value == PickAmounts(sections[i].groups[j].accounts[k], q)
  }

  ghost predicate Answers(sections: seq<CommoditySection>, q: Query, value: Amounts) {
    exists i, j, k :: AnswersAt(sections, q, i, j, k, value)
  }

  method FindInRows(rows: seq<AccountRow>, q: Query) returns (r: Option<Amounts>)
    ensures r.Some? ==> exists k :: 0 <= k < |rows| && rows[k].account == q.account && r.value == PickAmounts(rows[k], q)
    ensures r.None? ==> forall k | 0 <= k < |rows| :: rows[k].account != q.account
  {
    for k := 0 to |rows|
      invariant forall n | 0 <= n < k :: rows[n].account != q.account
    {
      if rows[k].account == q.account {
        return Some(if q.scope == DirectScope then rows[k].direct else rows[k].subtotal);
      }
    }
    return None;
  }

  // trialBalanceTarget
  method TrialBalanceTarget(sections: seq<CommoditySection>, q: Query) returns (r: Option<Amounts>)
    ensures r.Some? ==> exists i, j, k :: AnswersAt(sections, q, i, j, k, r.value)
    ensures r.None? ==> forall i, j, k, value :: !AnswersAt(sections, q, i, j, k, value)
  {
    for i := 0 to |sections|
      invariant forall x, j, k, value | x < i :: !AnswersAt(sections, q, x, j, k, value)
    {
      if sections[i].commodity != q.commodity {
        continue;
      }
      var groups := sections[i].groups;
      for j := 0 to |groups|
        invariant forall y, k, value | y < j :: !AnswersAt(sections, q, i, y, k, value)
      {
        if groups[j].category != q.category {
          continue;
        }
        var found := FindInRows(groups[j].accounts, q);
        if found.Some? {
          ghost var k :| 0 <= k < |groups[j].accounts| && groups[j].accounts[k].account == q.account
                         && found.value == PickAmounts(groups[j].accounts[k], q);
          assert AnswersAt(sections, q, i, j, k, found.value);
          return found;
        }
      }
    }
    return None;
  }

  lemma {:induction false} TrialSectionAt(names: seq<string>, o: Totals, d: Totals, c: Totals, i: nat)
    requires i < |names|
    ensures |SectionsOf(names, o, d, c)| == |names| && SectionsOf(names, o, d, c)[i] == SectionOf(names[i], o, d, c).section
  {
    hide SectionOf;
    if i < |names| - 1 {
      TrialSectionAt(names[..|names| - 1], o, d, c, i);
    } else if |names| > 1 {
      TrialSectionAt(names[..|names| - 1], o, d, c, 0);
    }
  }

  lemma TrialSectionCount(names: seq<string>, o: Totals, d: Totals, c: Totals)
    ensures |SectionsOf(names, o, d, c)| == |names|
  {
    hide SectionOf;
    if names != [] {
      TrialSectionAt(names, o, d, c, 0);
    }
  }

  ghost predicate IsGroup(g: CategoryGroup, commodity: string, x: int, o: Totals, d: Totals, c: Totals) {
    && 0 <= x < 6 && DirectRows(commodity, CategoryOrder[x], o, d, c) != map[]
    && g == GroupOf(commodity, CategoryOrder[x], DirectRows(commodity, CategoryOrder[x], o, d, c))
  }

  lemma GroupIs(commodity: string, x: nat, o: Totals, d: Totals, c: Totals)
    requires x < 6
    ensures var direct := DirectRows(commodity, CategoryOrder[x], o, d, c);
            direct != map[] ==> IsGroup(GroupOf(commodity, CategoryOrder[x], direct), commodity, x, o, d, c)
  {
    hide DirectRows, GroupOf;
  }

  // The groups are those of the categories that were posted to.
  lemma {:induction false} GroupsListed(commodity: string, o: Totals, d: Totals, c: Totals, n: nat)
    requires n <= 6
    ensures forall g | g in Groups(commodity, o, d, c, n) :: exists x :: x < n && IsGroup(g, commodity, x, o, d, c)
    ensures forall x | 0 <= x < n && DirectRows(commodity, CategoryOrder[x], o, d, c) != map[] ::
              GroupOf(commodity, CategoryOrder[x], DirectRows(commodity, CategoryOrder[x], o, d, c)) in Groups(commodity, o, d, c, n)
  {
    hide DirectRows, GroupOf, Groups, GroupWarnings, WarningsOf, GroupRows, IsGroup;
    NoGroups(commodity, o, d, c);
    if n > 0 {
      GroupsListed(commodity, o, d, c, n - 1);
      GroupStep(commodity, n - 1, o, d, c);
      GroupIs(commodity, n - 1, o, d, c);
    }
  }

  lemma RowListed(commodity: string, category: Category, direct: RowMap, name: string)
    ensures (exists k :: 0 <= k < |GroupRows(commodity, category, direct)|
              && GroupRows(commodity, category, direct)[k].account == name) <==> name in Names(direct.Keys)
    ensures forall k | 0 <= k < |GroupRows(commodity, category, direct)|
              && GroupRows(commodity, category, direct)[k].account == name ::
              GroupRows(commodity, category, direct)[k] == AccountRowOf(commodity, category, direct, name)
  {
    hide Names, GetRow, RowText, Subtotal, RowWarnings, AccountLess;
    var names := RowNames(direct);
    assert name in names <==> name in Names(direct.Keys);
    forall k | 0 <= k < |names|
      ensures GroupRows(commodity, category, direct)[k].account == names[k]
    {
    }
    if name in names {
      var k :| 0 <= k < |names| && names[k] == name;
      assert GroupRows(commodity, category, direct)[k].account == name;
    }
  }

  lemma CategoryListed(category: Category) returns (x: int)
    ensures 0 <= x < 6 && CategoryOrder[x] == category
  {
    match category
    case Asset => x := 0;
    case Liability => x := 1;
    case Equity => x := 2;
    case Revenue => x := 3;
    case Expense => x := 4;
    case Unclassified => x := 5;
  }

  // What a found row shows is the asked figure.
  lemma AnswerIsTarget(o: Totals, d: Totals, c: Totals, q: Query, i: int, j: int, k: int, value: Amounts)
    requires AnswersAt(SectionsOf(CommodityNames(o, d, c), o, d, c), q, i, j, k, value)
    ensures TrialTarget(o, d, c, q) == Some(value)
  {
    hide DirectRows, SectionsOf, CommodityNames, Groups, GroupRows, SumRows, Names, RowText, Subtotal, GetRow, RowWarnings;
    var names := CommodityNames(o, d, c);
    TrialSectionCount(names, o, d, c);
    TrialSectionAt(names, o, d, c, i);
    GroupsListed(names[i], o, d, c, 6);
    var groups := Groups(names[i], o, d, c, 6);
    var g := groups[j];
    assert g in groups;
    var x :| x < 6 && IsGroup(g, names[i], x, o, d, c);
    RowListed(names[i], CategoryOrder[x], DirectRows(names[i], CategoryOrder[x], o, d, c), q.account);
  }

  lemma PostedCommodity(o: Totals, d: Totals, c: Totals, q: Query)
    requires DirectRows(q.commodity, q.category, o, d, c) != map[]
    ensures q.commodity in CommodityNames(o, d, c)
  {
    var direct := DirectRows(q.commodity, q.category, o, d, c);
    var a :| a in direct;
    var k :| k in o.Keys + d.Keys + c.Keys && k.commodity == q.commodity && k.category == q.category && k.account == a;
    assert k.commodity in (set k | k in o.Keys + d.Keys + c.Keys :: k.commodity);
  }

  lemma SomeDirect(direct: RowMap, name: string)
    requires name in Names(direct.Keys)
    ensures direct != map[]
  {
    NamesAreAncestors(direct.Keys, name);
  }

  // A figure that exists is found.
  lemma TargetIsAnswered(o: Totals, d: Totals, c: Totals, q: Query)
    requires TrialTarget(o, d, c, q).Some?
    ensures exists i, j, k ::
              AnswersAt(SectionsOf(CommodityNames(o, d, c), o, d, c), q, i, j, k, TrialTarget(o, d, c, q).value)
  {
    hide DirectRows, SectionsOf, CommodityNames, Groups, GroupRows, SumRows, Names, RowText, Subtotal, GetRow, RowWarnings;
    var names, sections := CommodityNames(o, d, c), SectionsOf(CommodityNames(o, d, c), o, d, c);
    var direct := DirectRows(q.commodity, q.category, o, d, c);
    SomeDirect(direct, q.account);
    PostedCommodity(o, d, c, q);
    var i :| 0 <= i < |names| && names[i] == q.commodity;
    TrialSectionAt(names, o, d, c, i);
    var x := CategoryListed(q.category);
    GroupsListed(names[i], o, d, c, 6);
    var groups := Groups(names[i], o, d, c, 6);
    var j :| 0 <= j < |groups| && groups[j] == GroupOf(q.commodity, q.category, direct);
    RowListed(q.commodity, q.category, direct, q.account);
    var rows := GroupRows(q.commodity, q.category, direct);
    var k :| 0 <= k < |rows| && rows[k].account == q.account;
    assert AnswersAt(sections, q, i, j, k, TrialTarget(o, d, c, q).value);
  }

  // The lookup in a trial balance finds exactly the asked figure.
  method FindTrialTarget(sections: seq<CommoditySection>, q: Query, ghost o: Totals, ghost d: Totals, ghost c: Totals)
      returns (r: Option<Amounts>)
    requires sections == SectionsOf(CommodityNames(o, d, c), o, d, c)
    ensures r == TrialTarget(o, d, c, q)
  {
    hide SectionsOf, CommodityNames, TrialTarget, AnswersAt;
    r := TrialBalanceTarget(sections, q);
    if r.Some? {
      ghost var i, j, k :| AnswersAt(sections, q, i, j, k, r.value);
      AnswerIsTarget(o, d, c, q, i, j, k, r.value);
    } else if TrialTarget(o, d, c, q).Some? {
      TargetIsAnswered(o, d, c, q);
    }
  }

  // An account without a row has no figures.
  lemma AbsentRow(direct: RowMap, name: string)
    requires name !in Names(direct.Keys)
    ensures GetRow(direct, name) == NoSums && Subtotal(direct, name) == NoSums
  {
    hide SumRows, Under;
    assert Under(name, name) by { UnderSelf(name); }
    NamesAreAncestors(direct.Keys, name);
    assert Below(direct.Keys, name) == {};
    SumRowsEmpty(direct);
  }

  lemma UnderSelf(name: string)
    ensures Under(name, name)
  {
  }

  // A figure that appears in a report that was printed is in range.
  lemma TargetFits(o: Totals, d: Totals, c: Totals, q: Query)
    requires ReportFits(o, d, c) && TrialTarget(o, d, c, q).Some?
    ensures var direct := DirectRows(q.commodity, q.category, o, d, c);
            RowFits(GetRow(direct, q.account)) && RowFits(Subtotal(direct, q.account))
  {
    hide DirectRows, CommodityNames, RowFits, RowOver, SumRows, Subtotal, GetRow, Names, RowText;
    var direct := DirectRows(q.commodity, q.category, o, d, c);
    SomeDirect(direct, q.account);
    PostedCommodity(o, d, c, q);
    var names := CommodityNames(o, d, c);
    var i :| 0 <= i < |names| && names[i] == q.commodity;
    assert SectionFits(names[i], o, d, c);
    var x := CategoryListed(q.category);
    assert GroupFits(DirectRows(q.commodity, CategoryOrder[x], o, d, c));
  }

  // ----------------------------------------------------- in statement sections

  function PickBalance(row: StatementRow, q: Query): Balance {
    if q.scope == DirectScope then row.direct else row.subtotal
  }

  ghost function SectionTarget(m: Totals, q: Query): Option<Balance> {
    var direct := DirectSums(q.commodity, q.category, m);
    if q.account !in Names(direct.Keys) then None
    else Some(BalanceText(if q.scope == DirectScope then Get(direct, q.account) else Rolled(direct, q.account)))
  }

  ghost predicate ShowsAt(sections: seq<StatementSection>, q: Query, i: int, j: int, k: int, value: Balance) {
    && 0 <= i < |sections| && sections[i].commodity == q.commodity
    && 0 <= j < |sections[i].groups| && sections[i].groups[j].category == q.category
    && 0 <= k < |sections[i].groups[j].accounts| && sections[i].groups[j].accounts[k].account == q.account
    && value == PickBalance(sections[i].groups[j].accounts[k], q)
  }

  ghost predicate Shows(sections: seq<StatementSection>, q: Query, value: Balance) {
    exists i, j, k :: ShowsAt(sections, q, i, j, k, value)
  }

  method FindInStatementRows(rows: seq<StatementRow>, q: Query) returns (r: Option<Balance>)
    ensures r.Some? ==> exists k :: 0 <= k < |rows| && rows[k].account == q.account && r.value == PickBalance(rows[k], q)
    ensures r.None? ==> forall k | 0 <= k < |rows| :: rows[k].account != q.account
  {
    for k := 0 to |rows|
      invariant forall n | 0 <= n < k :: rows[n].account != q.account
    {
      if rows[k].account == q.account {
        return Some(if q.scope == DirectScope then rows[k].direct else rows[k].subtotal);
      }
    }
    return None;
  }

  // statementTarget
  method StatementTarget(sections: seq<StatementSection>, q: Query) returns (r: Option<Balance>)
    ensures r.Some? ==> exists i, j, k :: ShowsAt(sections, q, i, j, k, r.value)
    ensures r.None? ==> forall i, j, k, value :: !ShowsAt(sections, q, i, j, k, value)
  {
    for i := 0 to |sections|
      invariant forall x, j, k, value | x < i :: !ShowsAt(sections, q, x, j, k, value)
    {
      if sections[i].commodity != q.commodity {
        continue;
      }
      var groups := sections[i].groups;
      for j := 0 to |groups|
        invariant forall y, k, value | y < j :: !ShowsAt(sections, q, i, y, k, value)
      {
        if groups[j].category != q.category {
          continue;
        }
        var found := FindInStatementRows(groups[j].accounts, q);
        if found.Some? {
          ghost var k :| 0 <= k < |groups[j].accounts| && groups[j].accounts[k].account == q.account
                         && found.value == PickBalance(groups[j].accounts[k], q);
          assert ShowsAt(sections, q, i, j, k, found.value);
          return found;
        }
      }
    }
    return None;
  }

  ghost predicate IsStatementGroup(g: StatementGroup, commodity: string, x: int, m: Totals) {
    && 0 <= x < 6 && DirectSums(commodity, CategoryOrder[x], m) != map[]
    && g == StatementGroupOf(commodity, CategoryOrder[x], DirectSums(commodity, CategoryOrder[x], m))
  }

  lemma StatementGroupIs(commodity: string, x: nat, m: Totals)
    requires x < 6
    ensures var direct := DirectSums(commodity, CategoryOrder[x], m);
            direct != map[] ==> IsStatementGroup(StatementGroupOf(commodity, CategoryOrder[x], direct), commodity, x, m)
  {
    hide DirectSums, StatementGroupOf;
  }

  lemma {:induction false} StatementGroupsListed(commodity: string, m: Totals, n: nat)
    requires n <= 6
    ensures forall g | g in StatementGroups(commodity, m, n) :: exists x :: x < n && IsStatementGroup(g, commodity, x, m)
    ensures forall x | 0 <= x < n && DirectSums(commodity, CategoryOrder[x], m) != map[] ::
              StatementGroupOf(commodity, CategoryOrder[x], DirectSums(commodity, CategoryOrder[x], m))
              in StatementGroups(commodity, m, n)
  {
    hide DirectSums, StatementGroupOf, StatementGroups, StatementGroupWarnings, RowsWarnings, StatementRowsOf, IsStatementGroup;
    StatementBase(commodity, m);
    if n > 0 {
      StatementGroupsListed(commodity, m, n - 1);
      StatementGroupStep(commodity, n - 1, m);
      StatementGroupIs(commodity, n - 1, m);
    }
  }

  lemma StatementRowListed(commodity: string, category: Category, direct: AccountSums, name: string)
    ensures (exists k :: 0 <= k < |StatementRowsOf(commodity, category, direct)|
              && StatementRowsOf(commodity, category, direct)[k].account == name) <==> name in Names(direct.Keys)
    ensures forall k | 0 <= k < |StatementRowsOf(commodity, category, direct)|
              && StatementRowsOf(commodity, category, direct)[k].account == name ::
              StatementRowsOf(commodity, category, direct)[k] == StatementRowOf(commodity, category, direct, name)
  {
    hide Names, Get, BalanceText, Rolled, StatementWarnings, AccountLess;
    var names := StatementNames(direct);
    assert name in names <==> name in Names(direct.Keys);
    forall k | 0 <= k < |names|
      ensures StatementRowsOf(commodity, category, direct)[k].account == names[k]
    {
    }
    if name in names {
      var k :| 0 <= k < |names| && names[k] == name;
      assert StatementRowsOf(commodity, category, direct)[k].account == name;
    }
  }

  lemma ShownIsTarget(m: Totals, q: Query, i: int, j: int, k: int, value: Balance)
    requires ShowsAt(StatementSections(CommoditiesIn(m), m), q, i, j, k, value)
    ensures SectionTarget(m, q) == Some(value)
  {
    hide DirectSums, StatementSections, CommoditiesIn, StatementGroups, StatementRowsOf, SumOver, Names, BalanceText, Rolled, Get, StatementWarnings, TotalSum;
    var names := CommoditiesIn(m);
    SectionsCounted(names, m);
    SectionAt(names, m, i);
    StatementNamed(names[i], m);
    StatementGroupsListed(names[i], m, 6);
    var groups := StatementGroups(names[i], m, 6);
    var g := groups[j];
    assert g in groups;
    var x :| x < 6 && IsStatementGroup(g, names[i], x, m);
    StatementRowListed(names[i], CategoryOrder[x], DirectSums(names[i], CategoryOrder[x], m), q.account);
  }

  lemma SectionsCounted(names: seq<string>, m: Totals)
    ensures |StatementSections(names, m)| == |names|
  {
    hide StatementOf;
    if names != [] {
      SectionAt(names, m, 0);
    }
  }

  lemma SummedCommodity(m: Totals, q: Query)
    requires q.account in Names(DirectSums(q.commodity, q.category, m).Keys)
    ensures DirectSums(q.commodity, q.category, m) != map[] && q.commodity in CommoditiesIn(m)
  {
    hide Under;
    NamesAreAncestors(DirectSums(q.commodity, q.category, m).Keys, q.account);
    var a :| a in DirectSums(q.commodity, q.category, m);
    var k :| k in m && k.commodity == q.commodity && k.category == q.category && k.account == a;
    assert k.commodity in (set k | k in m :: k.commodity);
  }

  lemma TargetIsShown(m: Totals, q: Query)
    requires SectionTarget(m, q).Some?
    ensures exists i, j, k :: ShowsAt(StatementSections(CommoditiesIn(m), m), q, i, j, k, SectionTarget(m, q).value)
  {
    hide DirectSums, StatementSections, CommoditiesIn, StatementGroups, StatementRowsOf, SumOver, Names, BalanceText, Rolled, Get, StatementWarnings, TotalSum;
    var names, sections := CommoditiesIn(m), StatementSections(CommoditiesIn(m), m);
    var direct := DirectSums(q.commodity, q.category, m);
    SummedCommodity(m, q);
    var i :| 0 <= i < |names| && names[i] == q.commodity;
    SectionAt(names, m, i);
    var x := CategoryListed(q.category);
    StatementGroupsListed(names[i], m, 6);
    var groups := StatementGroups(names[i], m, 6);
    var j :| 0 <= j < |groups| && groups[j] == StatementGroupOf(q.commodity, q.category, direct);
    StatementRowListed(q.commodity, q.category, direct, q.account);
    var rows := StatementRowsOf(q.commodity, q.category, direct);
    var k :| 0 <= k < |rows| && rows[k].account == q.account;
    assert ShowsAt(sections, q, i, j, k, SectionTarget(m, q).value);
  }

  // The lookup in statement sections finds exactly the asked figure.
  method FindSectionTarget(sections: seq<StatementSection>, q: Query, ghost m: Totals) returns (r: Option<Balance>)
    requires sections == StatementSections(CommoditiesIn(m), m)
    ensures r == SectionTarget(m, q)
  {
    hide StatementSections, CommoditiesIn, SectionTarget, ShowsAt;
    r := StatementTarget(sections, q);
    if r.Some? {
      ghost var i, j, k :| ShowsAt(sections, q, i, j, k, r.value);
      ShownIsTarget(m, q, i, j, k, r.value);
    } else if SectionTarget(m, q).Some? {
      TargetIsShown(m, q);
    }
  }
}
