// Commodity sections and the whole trial balance report.
module Sections {
  import opened Results
  import opened Orders
  import opened Accumulators
  import opened Configurations
  import opened Movements
  import opened Rows
  import opened TrialBalances

  // ------------------------------------------------------- collecting the rows

  ghost function Restrict(m: Totals, S: set<AmountKey>): Totals {
    map k | k in m && k in S :: m[k]
  }

  predicate InCell(k: AmountKey, commodity: string, category: Category) {
    k.commodity == commodity && k.category == category
  }

  function WithOpening(row: RowSums, value: Accumulator): RowSums {
    row.(opening := Plus(row.opening, value), closing := Plus(row.closing, value))
  }

  function WithDebit(row: RowSums, value: Accumulator): RowSums {
    row.(debit := Plus(row.debit, value), closing := Plus(row.closing, value))
  }

  function WithCredit(row: RowSums, value: Accumulator): RowSums {
    row.(credit := Plus(row.credit, value), closing := Plus(row.closing, value))
  }

  lemma PostedStep(commodity: string, category: Category, o: Totals, d: Totals, c: Totals, o': Totals, d': Totals, c': Totals, k: AmountKey)
    requires o'.Keys + d'.Keys + c'.Keys == o.Keys + d.Keys + c.Keys + {k}
    ensures Posted(commodity, category, o', d', c')
         == Posted(commodity, category, o, d, c) + (if InCell(k, commodity, category) then {k.account} else {})
  {
  }

  // Changing the totals of one key changes at most the row of its account.
  lemma DirectUpdate(
    commodity: string, category: Category, o: Totals, d: Totals, c: Totals, o': Totals, d': Totals, c': Totals, k: AmountKey)
    requires o'.Keys + d'.Keys + c'.Keys == o.Keys + d.Keys + c.Keys + {k}
    requires forall j | j != k :: Get(o, j) == Get(o', j) && Get(d, j) == Get(d', j) && Get(c, j) == Get(c', j)
    ensures DirectRows(commodity, category, o', d', c') ==
            if InCell(k, commodity, category)
            then DirectRows(commodity, category, o, d, c)[k.account := RowOf(commodity, category, o', d', c', k.account)]
            else DirectRows(commodity, category, o, d, c)
  {
    hide Posted, RowOf, DirectRows;
    PostedStep(commodity, category, o, d, c, o', d', c', k);
    SameRows(commodity, category, o, d, c, o', d', c', k);
    DirectEntries(commodity, category, o, d, c);
    DirectEntries(commodity, category, o', d', c');
    var direct, next := DirectRows(commodity, category, o, d, c), DirectRows(commodity, category, o', d', c');
    forall a | a in next && (InCell(k, commodity, category) ==> a != k.account)
      ensures a in direct && next[a] == direct[a]
    {
      assert KeyOf(commodity, category, a) != k;
    }
  }

  lemma DirectEntries(commodity: string, category: Category, o: Totals, d: Totals, c: Totals)
    ensures var direct := DirectRows(commodity, category, o, d, c);
            && direct.Keys == Posted(commodity, category, o, d, c)
            && forall a | a in direct :: direct[a] == RowOf(commodity, category, o, d, c, a)
  {
    hide Posted, RowOf;
  }

  lemma RowNow(commodity: string, category: Category, o: Totals, d: Totals, c: Totals, k: AmountKey)
    requires InCell(k, commodity, category)
    ensures GetRow(DirectRows(commodity, category, o, d, c), k.account) == Combined(Get(o, k), Get(d, k), Get(c, k))
  {
    hide Plus, Get, Posted;
    NotPosted(commodity, category, o, d, c, k);
    PlusUnset(Unset);
  }

  lemma DirectAddOpening(commodity: string, category: Category, o: Totals, k: AmountKey, value: Accumulator)
    requires k !in o
    ensures var direct := DirectRows(commodity, category, o, map[], map[]);
            DirectRows(commodity, category, o[k := value], map[], map[]) ==
            if InCell(k, commodity, category) then direct[k.account := WithOpening(GetRow(direct, k.account), value)] else direct
  {
    hide Plus, DirectRows;
    DirectUpdate(commodity, category, o, map[], map[], o[k := value], map[], map[], k);
    if InCell(k, commodity, category) {
      RowNow(commodity, category, o, map[], map[], k);
    }
    PlusUnset(value);
    PlusUnset(Unset);
  }

  lemma DirectAddDebit(commodity: string, category: Category, o: Totals, d: Totals, k: AmountKey, value: Accumulator)
    requires k !in d
    ensures var direct := DirectRows(commodity, category, o, d, map[]);
            DirectRows(commodity, category, o, d[k := value], map[]) ==
            if InCell(k, commodity, category) then direct[k.account := WithDebit(GetRow(direct, k.account), value)] else direct
  {
    hide Plus, DirectRows;
    DirectUpdate(commodity, category, o, d, map[], o, d[k := value], map[], k);
    if InCell(k, commodity, category) {
      RowNow(commodity, category, o, d, map[], k);
    }
    PlusUnset(value);
    PlusUnset(Get(o, k));
    PlusUnset(Plus(Get(o, k), value));
  }

  lemma DirectAddCredit(commodity: string, category: Category, o: Totals, d: Totals, c: Totals, k: AmountKey, value: Accumulator)
    requires k !in c
    ensures var direct := DirectRows(commodity, category, o, d, c);
            DirectRows(commodity, category, o, d, c[k := value]) ==
            if InCell(k, commodity, category) then direct[k.account := WithCredit(GetRow(direct, k.account), value)] else direct
  {
    hide Plus, DirectRows;
    DirectUpdate(commodity, category, o, d, c, o, d, c[k := value], k);
    if InCell(k, commodity, category) {
      RowNow(commodity, category, o, d, c, k);
    }
    PlusUnset(value);
    PlusUnset(Plus(Get(o, k), Get(d, k)));
  }

  lemma NotPosted(commodity: string, category: Category, o: Totals, d: Totals, c: Totals, k: AmountKey)
    ensures InCell(k, commodity, category) && k.account !in Posted(commodity, category, o, d, c) ==>
              Get(o, k) == Unset && Get(d, k) == Unset && Get(c, k) == Unset
  {
    PostedHas(commodity, category, o, d, c);
  }

  // Rows of other accounts do not change.
  lemma SameRows(
    commodity: string, category: Category, o: Totals, d: Totals, c: Totals, o': Totals, d': Totals, c': Totals, k: AmountKey)
    requires forall j | j != k :: Get(o, j) == Get(o', j) && Get(d, j) == Get(d', j) && Get(c, j) == Get(c', j)
    ensures forall a | KeyOf(commodity, category, a) != k ::
              RowOf(commodity, category, o, d, c, a) == RowOf(commodity, category, o', d', c', a)
  {
    hide Plus, Get;
  }

  // The three loops of buildCommodity that gather the rows of one category,
  // each map visited in any order.
  method CollectDirect(commodity: string, category: Category, o: Totals, d: Totals, c: Totals) returns (direct: RowMap)
    ensures direct == DirectRows(commodity, category, o, d, c)
  {
    hide DirectRows, WithOpening, WithDebit, WithCredit, InCell;
    direct := map[];
    NothingDirect(commodity, category);
    var todo := o.Keys;
    assert Restrict(o, o.Keys - todo) == map[];
    while todo != {}
      invariant todo <= o.Keys
      invariant direct == DirectRows(commodity, category, Restrict(o, o.Keys - todo), map[], map[])
    {
      var key :| key in todo;
      DirectAddOpening(commodity, category, Restrict(o, o.Keys - todo), key, o[key]);
      assert Restrict(o, o.Keys - (todo - {key})) == Restrict(o, o.Keys - todo)[key := o[key]];
      if InCell(key, commodity, category) {
        direct := direct[key.account := WithOpening(GetRow(direct, key.account), o[key])];
      }
      todo := todo - {key};
    }
    assert Restrict(o, o.Keys - todo) == o;
    todo := d.Keys;
    assert Restrict(d, d.Keys - todo) == map[];
    while todo != {}
      invariant todo <= d.Keys
      invariant direct == DirectRows(commodity, category, o, Restrict(d, d.Keys - todo), map[])
    {
      var key :| key in todo;
      DirectAddDebit(commodity, category, o, Restrict(d, d.Keys - todo), key, d[key]);
      assert Restrict(d, d.Keys - (todo - {key})) == Restrict(d, d.Keys - todo)[key := d[key]];
      if InCell(key, commodity, category) {
        direct := direct[key.account := WithDebit(GetRow(direct, key.account), d[key])];
      }
      todo := todo - {key};
    }
    assert Restrict(d, d.Keys - todo) == d;
    todo := c.Keys;
    assert Restrict(c, c.Keys - todo) == map[];
    while todo != {}
      invariant todo <= c.Keys
      invariant direct == DirectRows(commodity, category, o, d, Restrict(c, c.Keys - todo))
    {
      var key :| key in todo;
      DirectAddCredit(commodity, category, o, d, Restrict(c, c.Keys - todo), key, c[key]);
      assert Restrict(c, c.Keys - (todo - {key})) == Restrict(c, c.Keys - todo)[key := c[key]];
      if InCell(key, commodity, category) {
        direct := direct[key.account := WithCredit(GetRow(direct, key.account), c[key])];
      }
      todo := todo - {key};
    }
    assert Restrict(c, c.Keys - todo) == c;
  }

  lemma NothingDirect(commodity: string, category: Category)
    ensures DirectRows(commodity, category, map[], map[], map[]) == map[]
  {
  }

  // ---------------------------------------------------- meaning of a section

  const CategoryOrder: seq<Category> := [Asset, Liability, Equity, Revenue, Expense, Unclassified]

  // The groups of the first n categories that have any posting.
  ghost function Groups(commodity: string, o: Totals, d: Totals, c: Totals, n: nat): seq<CategoryGroup>
    requires n <= 6
  {
    if n == 0 then []
    else
      var direct := DirectRows(commodity, CategoryOrder[n - 1], o, d, c);
      Groups(commodity, o, d, c, n - 1)
      + (if direct == map[] then [] else [GroupOf(commodity, CategoryOrder[n - 1], direct)])
  }

  function GroupWarnings(groups: seq<CategoryGroup>): seq<Warning> {
    if groups == [] then [] else GroupWarnings(groups[..|groups| - 1]) + WarningsOf(groups[|groups| - 1].accounts)
  }

  datatype SectionResult = SectionResult(section: CommoditySection, warnings: seq<Warning>, complete: bool)

  ghost function SectionOf(commodity: string, o: Totals, d: Totals, c: Totals): SectionResult {
    var groups := Groups(commodity, o, d, c, 6);
    SectionResult(CommoditySection(commodity, RowText(RowOver(o, d, c, OfCommodity(commodity))), groups),
                  GroupWarnings(groups), DirectRows(commodity, Unclassified, o, d, c) == map[])
  }

  ghost predicate SectionFits(commodity: string, o: Totals, d: Totals, c: Totals) {
    && (forall n | 0 <= n < 6 :: GroupFits(DirectRows(commodity, CategoryOrder[n], o, d, c)))
    && RowFits(RowOver(o, d, c, OfCommodity(commodity)))
  }

  // The keys of a commodity in the first n categories.
  ghost function UpTo(commodity: string, n: nat): iset<AmountKey>
    requires n <= 6
  {
    iset k: AmountKey | k.commodity == commodity && k.category in CategoryOrder[..n]
  }

  lemma TotalSumSplit(m: Totals, K: iset<AmountKey>, L: iset<AmountKey>)
    requires K !! L
    ensures TotalSum(m, K + L) == Plus(TotalSum(m, K), TotalSum(m, L))
  {
    hide Plus, SumOver;
    var S, T := set k | k in m && k in K, set k | k in m && k in L;
    SumOverUnion(m, S, T);
    assert S + T == set k | k in m && k in K + L;
  }

  lemma RowOverSplit(o: Totals, d: Totals, c: Totals, K: iset<AmountKey>, L: iset<AmountKey>)
    requires K !! L
    ensures RowOver(o, d, c, K + L) == AddRows(RowOver(o, d, c, K), RowOver(o, d, c, L))
  {
    hide Plus, TotalSum;
    TotalSumSplit(o, K, L);
    TotalSumSplit(d, K, L);
    TotalSumSplit(c, K, L);
    PlusExchanges(TotalSum(o, K), TotalSum(o, L), TotalSum(d, K), TotalSum(d, L));
    PlusExchanges(Plus(TotalSum(o, K), TotalSum(d, K)), Plus(TotalSum(o, L), TotalSum(d, L)), TotalSum(c, K), TotalSum(c, L));
  }

  lemma UpToStep(commodity: string, n: nat)
    requires n < 6
    ensures UpTo(commodity, n + 1) == UpTo(commodity, n) + Cell(commodity, CategoryOrder[n], AnyAccount())
    ensures UpTo(commodity, n) !! Cell(commodity, CategoryOrder[n], AnyAccount())
  {
    assert CategoryOrder[..n + 1] == CategoryOrder[..n] + [CategoryOrder[n]];
    assert CategoryOrder[n] !in CategoryOrder[..n];
  }

  lemma UpToAll(commodity: string)
    ensures UpTo(commodity, 6) == OfCommodity(commodity)
  {
    assert CategoryOrder[..6] == CategoryOrder;
    assert forall x: Category :: x in CategoryOrder by {
      forall x: Category
        ensures x in CategoryOrder
      {
        match x
        case Asset => assert CategoryOrder[0] == x;
        case Liability => assert CategoryOrder[1] == x;
        case Equity => assert CategoryOrder[2] == x;
        case Revenue => assert CategoryOrder[3] == x;
        case Expense => assert CategoryOrder[4] == x;
        case Unclassified => assert CategoryOrder[5] == x;
      }
    }
  }

  lemma WholeGroup(commodity: string, category: Category, o: Totals, d: Totals, c: Totals)
    ensures var direct := DirectRows(commodity, category, o, d, c);
            SumRows(direct, direct.Keys) == RowOver(o, d, c, Cell(commodity, category, AnyAccount()))
  {
    hide SumRows, RowOver, DirectRows, Cell;
    var direct := DirectRows(commodity, category, o, d, c);
    DirectSum(commodity, category, o, d, c, AnyAccount());
    assert (set a | a in direct && a in AnyAccount()) == direct.Keys;
  }

  // Reading a printed group total back and adding it to the section sums gives
  // the section's exact sums, up to telling "no value" from zero.
  lemma SectionStep(commodity: string, n: nat, o: Totals, d: Totals, c: Totals, sums: RowSums)
    requires n < 6 && SidedTotals(d, c)
    requires NormRow(sums) == NormRow(RowOver(o, d, c, UpTo(commodity, n)))
    ensures var direct := DirectRows(commodity, CategoryOrder[n], o, d, c);
            var total := SumRows(direct, direct.Keys);
            && (direct == map[] ==> NormRow(sums) == NormRow(RowOver(o, d, c, UpTo(commodity, n + 1))))
            && (RowFits(total) ==>
                  NormRow(AddRows(sums, SumsFromAmounts(RowText(total)))) == NormRow(RowOver(o, d, c, UpTo(commodity, n + 1))))
  {
    hide SumRows, RowOver, DirectRows, UpTo, Cell, AddRows, NormRow, RowFits, RowText, SumsFromAmounts, Sided;
    var direct := DirectRows(commodity, CategoryOrder[n], o, d, c);
    var total := SumRows(direct, direct.Keys);
    var cell := Cell(commodity, CategoryOrder[n], AnyAccount());
    var before := RowOver(o, d, c, UpTo(commodity, n));
    WholeGroup(commodity, CategoryOrder[n], o, d, c);
    RowOverSided(o, d, c, cell);
    UpToStep(commodity, n);
    RowOverSplit(o, d, c, UpTo(commodity, n), cell);
    if direct == map[] {
      assert direct.Keys == {};
      SumRowsEmpty(direct);
      AddNoSums(before);
    }
    if RowFits(total) {
      ReparseRow(total);
      NormAddRows(sums, SumsFromAmounts(RowText(total)));
      NormRowText(total);
      NormAddRows(before, total);
    }
  }

  lemma NothingYet(commodity: string, o: Totals, d: Totals, c: Totals)
    ensures RowOver(o, d, c, UpTo(commodity, 0)) == NoSums
  {
    hide Plus;
    assert UpTo(commodity, 0) == iset{};
    EmptySum(o);
    EmptySum(d);
    EmptySum(c);
    assert (set k | k in o && k in UpTo(commodity, 0)) == {};
    assert (set k | k in d && k in UpTo(commodity, 0)) == {};
    assert (set k | k in c && k in UpTo(commodity, 0)) == {};
    PlusUnset(Unset);
  }

  lemma GroupStep(commodity: string, n: nat, o: Totals, d: Totals, c: Totals)
    requires n < 6
    ensures var direct := DirectRows(commodity, CategoryOrder[n], o, d, c);
            var groups, next := Groups(commodity, o, d, c, n), Groups(commodity, o, d, c, n + 1);
            && (direct == map[] ==> next == groups)
            && (direct != map[] ==> next == groups + [GroupOf(commodity, CategoryOrder[n], direct)])
            && (direct != map[] ==>
                  GroupWarnings(next) == GroupWarnings(groups) + WarningsOf(GroupRows(commodity, CategoryOrder[n], direct)))
  {
    hide DirectRows, GroupRows, SumRows, RowText;
    var direct := DirectRows(commodity, CategoryOrder[n], o, d, c);
    var groups, next := Groups(commodity, o, d, c, n), Groups(commodity, o, d, c, n + 1);
    if direct == map[] {
      assert groups + [] == groups;
    } else {
      assert next[..|next| - 1] == groups;
    }
  }

  lemma EmptyGroupFits()
    ensures GroupFits(map[])
  {
    hide SumRows;
    var none: RowMap := map[];
    assert none.Keys == {};
    assert Names(none.Keys) == {};
    SumRowsEmpty(none);
    assert RowFits(NoSums);
  }

  // buildCommodity: one group per category, the section total read back from
  // the printed group totals.
  method BuildCommodity(commodity: string, o: Totals, d: Totals, c: Totals) returns (r: Result<SectionResult, ReportError>)
    requires SidedTotals(d, c)
    ensures r.Ok? <==> SectionFits(commodity, o, d, c)
    ensures r.Ok? ==> r.value == SectionOf(commodity, o, d, c)
    ensures r.Err? ==> r.error == AmountOverflow
  {
    hide DirectRows, GroupOf, GroupRows, GroupFits, SumRows, RowOver, AddRows, NormRow, RowFits, RowText, SumsFromAmounts, SidedTotals, UpTo, OfCommodity, Groups, GroupWarnings, WarningsOf;
    var groups: seq<CategoryGroup> := [];
    var warnings: seq<Warning> := [];
    var complete := true;
    var sectionSums := NoSums;
    NothingYet(commodity, o, d, c);
    NoGroups(commodity, o, d, c);
    EmptyGroupFits();
    for n := 0 to 6
      invariant groups == Groups(commodity, o, d, c, n) && warnings == GroupWarnings(groups)
      invariant forall i | 0 <= i < n :: GroupFits(DirectRows(commodity, CategoryOrder[i], o, d, c))
      invariant NormRow(sectionSums) == NormRow(RowOver(o, d, c, UpTo(commodity, n)))
      invariant complete == (n == 6 ==> DirectRows(commodity, Unclassified, o, d, c) == map[])
    {
      var category := CategoryOrder[n];
      var direct := CollectDirect(commodity, category, o, d, c);
      SectionStep(commodity, n, o, d, c, sectionSums);
      GroupStep(commodity, n, o, d, c);
      if direct == map[] {
        continue;
      }
      var group := BuildCategoryGroup(commodity, category, direct);
      if group.Err? {
        return Err(AmountOverflow);
      }
      GroupTotal(commodity, category, direct);
      groups := groups + [group.value.group];
      warnings := warnings + group.value.warnings;
      if category == Unclassified {
        complete := false;
      }
      sectionSums := AddRows(sectionSums, SumsFromAmounts(group.value.group.total));
    }
    UpToAll(commodity);
    NormRowText(sectionSums);
    NormRowText(RowOver(o, d, c, OfCommodity(commodity)));
    var total := FormatAmounts(sectionSums);
    if total.Err? {
      return Err(AmountOverflow);
    }
    return Ok(SectionResult(CommoditySection(commodity, total.value, groups), warnings, complete));
  }

  lemma NoGroups(commodity: string, o: Totals, d: Totals, c: Totals)
    ensures Groups(commodity, o, d, c, 0) == [] && GroupWarnings([]) == []
  {
  }

  lemma GroupTotal(commodity: string, category: Category, direct: RowMap)
    requires GroupFits(direct)
    ensures GroupOf(commodity, category, direct).total == RowText(SumRows(direct, direct.Keys))
    ensures RowFits(SumRows(direct, direct.Keys))
  {
  }

  // ------------------------------------------------------------- the report

  ghost function CommodityNames(o: Totals, d: Totals, c: Totals): seq<string> {
    TextOrder();
    Sorted((set k | k in o.Keys + d.Keys + c.Keys :: k.commodity), TextLess)
  }

  ghost function SectionsOf(names: seq<string>, o: Totals, d: Totals, c: Totals): seq<CommoditySection> {
    if names == [] then []
    else SectionsOf(names[..|names| - 1], o, d, c) + [SectionOf(names[|names| - 1], o, d, c).section]
  }

  ghost function SectionWarnings(names: seq<string>, o: Totals, d: Totals, c: Totals): seq<Warning> {
    if names == [] then []
    else SectionWarnings(names[..|names| - 1], o, d, c) + SectionOf(names[|names| - 1], o, d, c).warnings
  }

  ghost predicate AllComplete(names: seq<string>, o: Totals, d: Totals, c: Totals) {
    forall i | 0 <= i < |names| :: SectionOf(names[i], o, d, c).complete
  }

  ghost predicate AllFit(names: seq<string>, o: Totals, d: Totals, c: Totals) {
    forall i | 0 <= i < |names| :: SectionFits(names[i], o, d, c)
  }

  // The trial balance of given opening, debit and credit totals.
  ghost function TrialBalanceOf(revision: int, period: FiscalPeriod, o: Totals, d: Totals, c: Totals): TrialBalance {
    var names := CommodityNames(o, d, c);
    TrialBalance(revision, period, AllComplete(names, o, d, c), SectionWarnings(names, o, d, c), SectionsOf(names, o, d, c))
  }

  ghost predicate ReportFits(o: Totals, d: Totals, c: Totals) {
    AllFit(CommodityNames(o, d, c), o, d, c)
  }

  method SortedCommodities(o: Totals, d: Totals, c: Totals) returns (names: seq<string>)
    ensures names == CommodityNames(o, d, c)
  {
    hide TextLess, StrictTotal;
    TextOrder();
    var keys := o.Keys + d.Keys + c.Keys;
    var listed: seq<string> := [];
    var seen: set<string> := {};
    var todo := keys;
    while todo != {}
      invariant todo <= keys
      invariant seen == set k | k in keys - todo :: k.commodity
      invariant forall x :: x in listed <==> x in seen
      invariant forall i, j | 0 <= i < j < |listed| :: listed[i] != listed[j]
    {
      var key :| key in todo;
      if key.commodity !in seen {
        listed := listed + [key.commodity];
        seen := seen + {key.commodity};
      }
      todo := todo - {key};
    }
    assert keys - todo == keys;
    names := SortDistinct(listed, TextLess);
    assert (set x | x in listed) == (set k | k in keys :: k.commodity);
  }

  // assembleTrialBalance
  method AssembleTrialBalance(revision: int, period: FiscalPeriod, o: Totals, d: Totals, c: Totals)
      returns (r: Result<TrialBalance, ReportError>)
    requires SidedTotals(d, c)
    ensures r.Ok? <==> ReportFits(o, d, c)
    ensures r.Ok? ==> r.value == TrialBalanceOf(revision, period, o, d, c)
    ensures r.Err? ==> r.error == AmountOverflow
  {
    hide SectionOf, SectionFits, SidedTotals, CommodityNames;
    var names := SortedCommodities(o, d, c);
    var commodities: seq<CommoditySection> := [];
    var warnings: seq<Warning> := [];
    var complete := true;
    assert names[..0] == [];
    for n := 0 to |names|
      invariant commodities == SectionsOf(names[..n], o, d, c)
      invariant warnings == SectionWarnings(names[..n], o, d, c)
      invariant complete == AllComplete(names[..n], o, d, c)
      invariant AllFit(names[..n], o, d, c)
    {
      assert names[..n + 1][..n] == names[..n];
      var section := BuildCommodity(names[n], o, d, c);
      if section.Err? {
        return Err(AmountOverflow);
      }
      commodities := commodities + [section.value.section];
      warnings := warnings + section.value.warnings;
      complete := complete && section.value.complete;
    }
    assert names[..|names|] == names;
    return Ok(TrialBalance(revision, period, complete, warnings, commodities));
  }
}
