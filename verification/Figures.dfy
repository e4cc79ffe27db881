// What every printed line of a trial balance means, in terms of the
// contributions: which lines there are, and what each of their figures reads
// back as.
module Figures {
  import opened Results
  import opened Texts
  import opened Orders
  import opened Calendar
  import opened Accumulators
  import opened Accounts
  import opened Configurations
  import opened Movements
  import opened Bookkeeping
  import opened Rows
  import opened TrialBalances
  import opened Sections
  import opened Reports
  import opened Targets
  import opened Printed

  // --------------------------------------------------------- choices of keys

  ghost function OnAccount(commodity: string, category: Category, account: string): iset<AmountKey> {
    iset k: AmountKey | k.commodity == commodity && k.category == category && k.account == account
  }

  // The account and everything below it.
  ghost function AtOrBelow(commodity: string, category: Category, account: string): iset<AmountKey> {
    iset k: AmountKey | k.commodity == commodity && k.category == category
                        && (k.account == account || account + ":" <= k.account)
  }

  ghost function InCategory(commodity: string, category: Category): iset<AmountKey> {
    iset k: AmountKey | k.commodity == commodity && k.category == category
  }

  ghost function InCommodity(commodity: string): iset<AmountKey> {
    iset k: AmountKey | k.commodity == commodity
  }

  ghost predicate Touched(items: seq<Contribution>, K: iset<AmountKey>) {
    exists x :: x in items && x.key in K
  }

  // --------------------------------------------------------- shape of a line

  // The last part of the account, indented by the number of parts above it.
  ghost predicate IsLabelled(account: string, labelText: string, depth: nat) {
    && ':' !in labelText && depth == multiset(account)[':']
    && (if depth == 0 then account == labelText
        else |account| > |labelText| && account[|account| - |labelText| - 1..] == ":" + labelText)
  }

  lemma {:induction false} PartCount(s: string)
    ensures |Split(s, ':')| == multiset(s)[':'] + 1
    decreases |s|
  {
    hide IndexOf;
    var i := IndexOf(s, ':');
    if i < |s| {
      assert s == s[..i] + [':'] + s[i + 1..];
      PartCount(s[i + 1..]);
    }
  }

  lemma {:induction false} LastPart(s: string)
    ensures var parts := Split(s, ':');
            var last := parts[|parts| - 1];
            if |parts| == 1 then s == last else |s| > |last| && s[|s| - |last| - 1..] == ":" + last
    decreases |s|
  {
    hide IndexOf;
    var i := IndexOf(s, ':');
    if i < |s| {
      var rest := s[i + 1..];
      LastPart(rest);
      var last := Split(rest, ':')[|Split(rest, ':')| - 1];
      if |Split(rest, ':')| > 1 {
        assert s[|s| - |last| - 1..] == rest[|rest| - |last| - 1..];
      }
    }
  }

  lemma LabelOfAccount(account: string)
    ensures IsLabelled(account, Parts(account)[Depth(account)], Depth(account))
  {
    PartCount(account);
    LastPart(account);
  }

  // The order of the categories in a report.
  function Place(category: Category): nat {
    match category
    case Asset => 1
    case Liability => 2
    case Equity => 3
    case Revenue => 4
    case Expense => 5
    case Unclassified => 6
  }

  lemma OrderOfPlace(x: int)
    requires 0 <= x < 6
    ensures Place(CategoryOrder[x]) == x + 1
  {
  }

  // ---------------------------------------------------- figures of one line

  predicate NotNegative(x: Contribution) {
    x.value.coefficient >= 0
  }

  predicate Negative(x: Contribution) {
    x.value.coefficient < 0
  }

  // Read back, the four printed figures are the exact sums of the opening, of
  // the movements of zero or more, of the negative movements without their
  // sign, and of everything.
  ghost predicate ReadsAmounts(a: Amounts, opening: seq<Contribution>, movement: seq<Contribution>, K: iset<AmountKey>) {
    && ParseBalance(a.opening) == Norm(ItemSum(opening, K))
    && ParseAccumulator(a.debitTurnover) == Norm(ItemSum(Keep(movement, NotNegative), K))
    && Negate(ParseAccumulator(a.creditTurnover)) == Norm(ItemSum(Keep(movement, Negative), K))
    && ParseBalance(a.closing) == Norm(ItemSum(opening + movement, K))
  }

  lemma {:induction false} SameKeep(items: seq<Contribution>, f: Contribution -> bool, g: Contribution -> bool)
    requires forall x | x in items :: f(x) <==> g(x)
    ensures Keep(items, f) == Keep(items, g)
  {
    if items != [] {
      assert items == items[..|items| - 1] + [items[|items| - 1]];
      SameKeep(items[..|items| - 1], f, g);
    }
  }

  lemma SidesOf(movement: seq<Contribution>)
    ensures Debits(movement) == Keep(movement, NotNegative) && Credits(movement) == Keep(movement, Negative)
  {
    hide Keep;
    SameKeep(movement, IsDebit, NotNegative);
    SameKeep(movement, IsCredit, Negative);
  }

  lemma ClosingIsAll(opening: seq<Contribution>, movement: seq<Contribution>, K: iset<AmountKey>)
    ensures ItemRow(opening, movement, K).closing == ItemSum(opening + movement, K)
  {
    hide Plus, ItemSum, Debits, Credits;
    ItemSumAppend(opening, movement, K);
    DebitCreditSum(movement, K);
    PlusAssociates(ItemSum(opening, K), ItemSum(Debits(movement), K), ItemSum(Credits(movement), K));
  }

  lemma LineReads(opening: seq<Contribution>, movement: seq<Contribution>, K: iset<AmountKey>)
    requires RowFits(ItemRow(opening, movement, K))
    ensures ReadsAmounts(RowText(ItemRow(opening, movement, K)), opening, movement, K)
  {
    hide Plus, ItemSum, Debits, Credits, Keep, Tally, ParseBalance, ParseAccumulator, RowText, RowFits, Norm, Negate, Sided, RowOver, SidedTotals;
    SidesOf(movement);
    SidesAreSided(movement);
    RowOverIsItemRow(opening, movement, K);
    RowOverSided(Tally(opening), Tally(Debits(movement)), Tally(Credits(movement)), K);
    var row := ItemRow(opening, movement, K);
    ReparseRow(row);
    assert SumsFromAmounts(RowText(row)) == NormRow(row);
    ClosingIsAll(opening, movement, K);
  }

  // ------------------------------------------------------ lines of a group

  ghost predicate RowIsRight(
    row: AccountRow, commodity: string, category: Category, opening: seq<Contribution>, movement: seq<Contribution>) {
    && ReadsAmounts(row.direct, opening, movement, OnAccount(commodity, category, row.account))
    && ReadsAmounts(row.subtotal, opening, movement, AtOrBelow(commodity, category, row.account))
    && IsLabelled(row.account, row.labelText, row.depth)
  }

  ghost predicate ListsAccounts(listed: seq<string>, commodity: string, category: Category, items: seq<Contribution>) {
    && (forall a :: a in listed <==> Touched(items, AtOrBelow(commodity, category, a)))
    && forall k, l | 0 <= k < l < |listed| :: PathLess(Split(listed[k], ':'), Split(listed[l], ':'))
  }

  function RowAccounts(rows: seq<AccountRow>): seq<string> {
    seq(|rows|, i requires 0 <= i < |rows| => rows[i].account)
  }

  // The group shows its whole category, and one line for every account that is
  // posted to or lies above one that is, in account order.
  ghost predicate GroupIsRight(g: CategoryGroup, commodity: string, opening: seq<Contribution>, movement: seq<Contribution>) {
    && ReadsAmounts(g.total, opening, movement, InCategory(commodity, g.category))
    && ListsAccounts(RowAccounts(g.accounts), commodity, g.category, opening + movement)
    && forall k | 0 <= k < |g.accounts| :: RowIsRight(g.accounts[k], commodity, g.category, opening, movement)
  }

  lemma KeysOfCells(commodity: string, category: Category, account: string)
    ensures Cell(commodity, category, Subtree(account)) == AtOrBelow(commodity, category, account)
    ensures Cell(commodity, category, Just(account)) == OnAccount(commodity, category, account)
    ensures Cell(commodity, category, AnyAccount()) == InCategory(commodity, category)
  {
  }

  // A key has a total on some side exactly when something was posted to it.
  lemma TalliedIff(opening: seq<Contribution>, movement: seq<Contribution>, k: AmountKey)
    ensures k in Tally(opening) || k in Tally(Debits(movement)) || k in Tally(Credits(movement)) <==>
            Touched(opening + movement, iset{k})
  {
    hide Post, Keep;
    PostKeys(map[], opening, k);
    PostKeys(map[], Debits(movement), k);
    PostKeys(map[], Credits(movement), k);
    forall x
      ensures x in Debits(movement) || x in Credits(movement) <==> x in movement
    {
      KeepMembers(movement, IsDebit, x);
      KeepMembers(movement, IsCredit, x);
    }
    assert forall x :: x in opening + movement <==> x in opening || x in movement;
  }

  lemma PostedIff(
    commodity: string, category: Category, opening: seq<Contribution>, movement: seq<Contribution>, account: string)
    ensures account in Posted(commodity, category, Tally(opening), Tally(Debits(movement)), Tally(Credits(movement))) <==>
            Touched(opening + movement, OnAccount(commodity, category, account))
  {
    hide Tally, Debits, Credits;
    var k := AmountKey(commodity, category, account);
    TalliedIff(opening, movement, k);
    assert OnAccount(commodity, category, account) == iset{k};
  }

  lemma NamedIff(commodity: string, category: Category, opening: seq<Contribution>, movement: seq<Contribution>, name: string)
    ensures var direct := DirectRows(commodity, category, Tally(opening), Tally(Debits(movement)), Tally(Credits(movement)));
            name in Names(direct.Keys) <==> Touched(opening + movement, AtOrBelow(commodity, category, name))
  {
    hide Tally, Debits, Credits, Names, Posted, RowOf;
    var direct := DirectRows(commodity, category, Tally(opening), Tally(Debits(movement)), Tally(Credits(movement)));
    NamesAreAncestors(direct.Keys, name);
    if name in Names(direct.Keys) {
      var a :| a in direct.Keys && Under(a, name);
      PostedIff(commodity, category, opening, movement, a);
      var x :| x in opening + movement && x.key in OnAccount(commodity, category, a);
      assert x.key in AtOrBelow(commodity, category, name);
    }
    if x :| x in opening + movement && x.key in AtOrBelow(commodity, category, name) {
      assert x.key in OnAccount(commodity, category, x.key.account);
      PostedIff(commodity, category, opening, movement, x.key.account);
      assert Under(x.key.account, name);
    }
  }

  lemma RowsListed(commodity: string, category: Category, opening: seq<Contribution>, movement: seq<Contribution>)
    ensures var direct := DirectRows(commodity, category, Tally(opening), Tally(Debits(movement)), Tally(Credits(movement)));
            ListsAccounts(RowAccounts(GroupRows(commodity, category, direct)), commodity, category, opening + movement)
  {
    hide Tally, Debits, Credits, Names, DirectRows, Touched, PathLess, Split, RowText, Subtotal, GetRow, RowWarnings;
    var direct := DirectRows(commodity, category, Tally(opening), Tally(Debits(movement)), Tally(Credits(movement)));
    var names := RowNames(direct);
    assert RowAccounts(GroupRows(commodity, category, direct)) == names;
    forall a
      ensures a in names <==> Touched(opening + movement, AtOrBelow(commodity, category, a))
    {
      NamedIff(commodity, category, opening, movement, a);
    }
  }

  lemma GroupRight(commodity: string, category: Category, opening: seq<Contribution>, movement: seq<Contribution>)
    requires GroupFits(DirectRows(commodity, category, Tally(opening), Tally(Debits(movement)), Tally(Credits(movement))))
    ensures var direct := DirectRows(commodity, category, Tally(opening), Tally(Debits(movement)), Tally(Credits(movement)));
            GroupIsRight(GroupOf(commodity, category, direct), commodity, opening, movement)
  {
    hide Tally, Debits, Credits, Names, DirectRows, Touched, RowText, RowFits, Subtotal, GetRow, SumRows, RowWarnings, ItemRow, ReadsAmounts, IsLabelled, ListsAccounts, Cell, Just, Subtree, AtOrBelow, OnAccount, InCategory, AccountLess, Depth;
    var direct := DirectRows(commodity, category, Tally(opening), Tally(Debits(movement)), Tally(Credits(movement)));
    RowsListed(commodity, category, opening, movement);
    RollUp(commodity, category, opening, movement, "");
    KeysOfCells(commodity, category, "");
    LineReads(opening, movement, InCategory(commodity, category));
    var names := RowNames(direct);
    forall k | 0 <= k < |names|
      ensures RowIsRight(GroupRows(commodity, category, direct)[k], commodity, category, opening, movement)
    {
      assert names[k] in names;
      RollUp(commodity, category, opening, movement, names[k]);
      KeysOfCells(commodity, category, names[k]);
      LineReads(opening, movement, OnAccount(commodity, category, names[k]));
      LineReads(opening, movement, AtOrBelow(commodity, category, names[k]));
      LabelOfAccount(names[k]);
    }
  }

  // --------------------------------------------------- groups of a commodity

  function GroupCategories(groups: seq<CategoryGroup>): seq<Category> {
    seq(|groups|, i requires 0 <= i < |groups| => groups[i].category)
  }

  ghost predicate ListsCategories(listed: seq<Category>, commodity: string, items: seq<Contribution>) {
    && (forall c :: c in listed <==> Touched(items, InCategory(commodity, c)))
    && forall i, j | 0 <= i < j < |listed| :: Place(listed[i]) < Place(listed[j])
  }

  // One group for every category that is posted to, assets first and
  // unclassified accounts last.
  ghost predicate SectionIsRight(s: CommoditySection, opening: seq<Contribution>, movement: seq<Contribution>) {
    && ReadsAmounts(s.total, opening, movement, InCommodity(s.commodity))
    && ListsCategories(GroupCategories(s.groups), s.commodity, opening + movement)
    && forall j | 0 <= j < |s.groups| :: GroupIsRight(s.groups[j], s.commodity, opening, movement)
  }

  lemma RowsExistIff(commodity: string, category: Category, opening: seq<Contribution>, movement: seq<Contribution>)
    ensures DirectRows(commodity, category, Tally(opening), Tally(Debits(movement)), Tally(Credits(movement))) != map[] <==>
            Touched(opening + movement, InCategory(commodity, category))
  {
    hide Tally, Debits, Credits, Posted, RowOf;
    var direct := DirectRows(commodity, category, Tally(opening), Tally(Debits(movement)), Tally(Credits(movement)));
    if direct != map[] {
      var a :| a in direct.Keys;
      PostedIff(commodity, category, opening, movement, a);
      var x :| x in opening + movement && x.key in OnAccount(commodity, category, a);
      assert x.key in InCategory(commodity, category);
    }
    if x :| x in opening + movement && x.key in InCategory(commodity, category) {
      assert x.key in OnAccount(commodity, category, x.key.account);
      PostedIff(commodity, category, opening, movement, x.key.account);
      assert x.key.account in direct.Keys;
    }
  }

  ghost predicate ListedSoFar(listed: seq<Category>, n: nat, commodity: string, items: seq<Contribution>) {
    && (forall c :: c in listed <==> Place(c) <= n && Touched(items, InCategory(commodity, c)))
    && forall i, j | 0 <= i < j < |listed| :: Place(listed[i]) < Place(listed[j])
  }

  lemma ListOneMore(listed: seq<Category>, n: nat, commodity: string, items: seq<Contribution>)
    requires n < 6 && ListedSoFar(listed, n, commodity, items)
    ensures Touched(items, InCategory(commodity, CategoryOrder[n])) ==>
              ListedSoFar(listed + [CategoryOrder[n]], n + 1, commodity, items)
    ensures !Touched(items, InCategory(commodity, CategoryOrder[n])) ==> ListedSoFar(listed, n + 1, commodity, items)
  {
    hide Touched, InCategory;
    OrderOfPlace(n);
    forall c | Place(c) == n + 1
      ensures c == CategoryOrder[n]
    {
    }
    var longer := listed + [CategoryOrder[n]];
    assert forall i | 0 <= i < |listed| :: listed[i] in listed;
    assert forall c :: c in longer <==> c in listed || c == CategoryOrder[n];
  }

  lemma {:induction false} GroupsCategorised(
    commodity: string, opening: seq<Contribution>, movement: seq<Contribution>, n: nat)
    requires n <= 6
    ensures var groups := Groups(commodity, Tally(opening), Tally(Debits(movement)), Tally(Credits(movement)), n);
            ListedSoFar(GroupCategories(groups), n, commodity, opening + movement)
  {
    hide Tally, Debits, Credits, DirectRows, GroupRows, SumRows, RowText, Touched, InCategory, Groups, GroupWarnings, WarningsOf, ListedSoFar;
    var o, d, c := Tally(opening), Tally(Debits(movement)), Tally(Credits(movement));
    if n == 0 {
      NoGroups(commodity, o, d, c);
      NoneListed(commodity, opening + movement);
      assert GroupCategories([]) == [];
    } else {
      var groups := Groups(commodity, o, d, c, n - 1);
      GroupsCategorised(commodity, opening, movement, n - 1);
      GroupStep(commodity, n - 1, o, d, c);
      RowsExistIff(commodity, CategoryOrder[n - 1], opening, movement);
      ListOneMore(GroupCategories(groups), n - 1, commodity, opening + movement);
      if DirectRows(commodity, CategoryOrder[n - 1], o, d, c) != map[] {
        assert GroupCategories(Groups(commodity, o, d, c, n)) == GroupCategories(groups) + [CategoryOrder[n - 1]];
      }
    }
  }

  lemma NoneListed(commodity: string, items: seq<Contribution>)
    ensures ListedSoFar([], 0, commodity, items)
  {
  }

  lemma AllListed(listed: seq<Category>, commodity: string, items: seq<Contribution>)
    requires ListedSoFar(listed, 6, commodity, items)
    ensures ListsCategories(listed, commodity, items)
  {
    hide Touched, InCategory;
    assert forall c :: Place(c) <= 6;
  }

  lemma SectionRight(commodity: string, opening: seq<Contribution>, movement: seq<Contribution>)
    requires SectionFits(commodity, Tally(opening), Tally(Debits(movement)), Tally(Credits(movement)))
    ensures SectionIsRight(SectionOf(commodity, Tally(opening), Tally(Debits(movement)), Tally(Credits(movement))).section,
                           opening, movement)
  {
    hide Tally, Debits, Credits, DirectRows, GroupRows, SumRows, RowText, RowFits, RowOver, GroupFits, ItemRow, Touched, Groups, GroupOf, GroupWarnings, WarningsOf, ListedSoFar, ListsCategories, GroupIsRight, ReadsAmounts, GroupCategories;
    var o, d, c := Tally(opening), Tally(Debits(movement)), Tally(Credits(movement));
    assert OfCommodity(commodity) == InCommodity(commodity);
    RowOverIsItemRow(opening, movement, InCommodity(commodity));
    LineReads(opening, movement, InCommodity(commodity));
    var groups := Groups(commodity, o, d, c, 6);
    GroupsCategorised(commodity, opening, movement, 6);
    AllListed(GroupCategories(groups), commodity, opening + movement);
    GroupsListed(commodity, o, d, c, 6);
    forall j | 0 <= j < |groups|
      ensures GroupIsRight(groups[j], commodity, opening, movement)
    {
      assert groups[j] in groups;
      var x :| x < 6 && IsGroup(groups[j], commodity, x, o, d, c);
      GroupRight(commodity, CategoryOrder[x], opening, movement);
    }
  }

  // ------------------------------------------------------------- the report

  function SectionNames(sections: seq<CommoditySection>): seq<string> {
    seq(|sections|, i requires 0 <= i < |sections| => sections[i].commodity)
  }

  ghost predicate ListsCommodities(listed: seq<string>, items: seq<Contribution>) {
    && (forall c :: c in listed <==> Touched(items, InCommodity(c)))
    && forall i, j | 0 <= i < j < |listed| :: TextLess(listed[i], listed[j])
  }

  // One section for every commodity that is posted to, in text order.
  ghost predicate ReportIsRight(report: TrialBalance, opening: seq<Contribution>, movement: seq<Contribution>) {
    && ListsCommodities(SectionNames(report.commodities), opening + movement)
    && forall i | 0 <= i < |report.commodities| :: SectionIsRight(report.commodities[i], opening, movement)
  }

  lemma CommoditiesListed(opening: seq<Contribution>, movement: seq<Contribution>)
    ensures ListsCommodities(CommodityNames(Tally(opening), Tally(Debits(movement)), Tally(Credits(movement))), opening + movement)
  {
    hide Tally, Debits, Credits, TextLess;
    var o, d, c := Tally(opening), Tally(Debits(movement)), Tally(Credits(movement));
    forall name
      ensures name in CommodityNames(o, d, c) <==> Touched(opening + movement, InCommodity(name))
    {
      if name in CommodityNames(o, d, c) {
        var k :| k in o.Keys + d.Keys + c.Keys && k.commodity == name;
        TalliedIff(opening, movement, k);
        var x :| x in opening + movement && x.key in iset{k};
        assert x.key in InCommodity(name);
      }
      if x :| x in opening + movement && x.key in InCommodity(name) {
        TalliedIff(opening, movement, x.key);
        assert x.key in iset{x.key};
        assert x.key.commodity in (set k | k in o.Keys + d.Keys + c.Keys :: k.commodity);
      }
    }
  }

  lemma ReportRight(revision: int, period: FiscalPeriod, opening: seq<Contribution>, movement: seq<Contribution>)
    requires ReportOnFits(opening, movement)
    ensures ReportIsRight(ReportOn(revision, period, opening, movement), opening, movement)
  {
    hide Tally, Debits, Credits, CommodityNames, SectionOf, SectionFits, SectionIsRight, ListsCommodities, AllComplete, SectionWarnings, SectionsOf;
    var o, d, c := Tally(opening), Tally(Debits(movement)), Tally(Credits(movement));
    var names := CommodityNames(o, d, c);
    CommoditiesListed(opening, movement);
    TrialSectionCount(names, o, d, c);
    forall i | 0 <= i < |names|
      ensures SectionsOf(names, o, d, c)[i].commodity == names[i]
      ensures SectionIsRight(SectionsOf(names, o, d, c)[i], opening, movement)
    {
      TrialSectionAt(names, o, d, c, i);
      SectionRight(names[i], opening, movement);
      TrialSectionNamed(names[i], o, d, c);
    }
    assert SectionNames(SectionsOf(names, o, d, c)) == names;
  }

  lemma TrialSectionNamed(commodity: string, o: Totals, d: Totals, c: Totals)
    ensures SectionOf(commodity, o, d, c).section.commodity == commodity
  {
  }

  // Every built trial balance: the period asked for, and on it the right lines
  // with the right figures.
  lemma TrialFigures(config: Configuration, entries: seq<Entry>, selected: PeriodText, report: TrialBalance)
    requires TrialBalanceFor(config, entries, selected) == Ok(report)
    ensures ValidConfiguration(config) && AllEntriesValid(entries)
    ensures report.revision == config.revision
    ensures TextPeriod(report.period.period)
    ensures FormatDate(report.period.period.startDate) == selected.startDate
    ensures FormatDate(report.period.period.endDate) == selected.endDate
    ensures var years, cs := SortYears(config.fiscalYears), SortClassifications(config.classifications);
            var choice := SelectPeriod(years, 0, selected);
            && choice.Some? && choice.value.index < |years| && choice.value.period == report.period
            && report.period in PeriodsOf(SpanOf(years[choice.value.index]))
            && ReportIsRight(report, OpeningItems(years, choice.value, entries, cs), PeriodItems(years, choice.value, entries, cs))
  {
    hide TrialBalanceFor, OpeningItems, PeriodItems, SelectPeriod, SortYears, SortClassifications, AllEntriesValid, ValidConfiguration, ReportIsRight, ReportOnFits, TextPeriod, PeriodsOf, SpanOf, Tally, Debits, Credits, AllComplete, SectionWarnings, SectionsOf, CommodityNames;
    TrialReportIs(config, entries, selected, report);
    var years, cs := SortYears(config.fiscalYears), SortClassifications(config.classifications);
    SelectedPeriod(years, 0, selected);
    var s := SelectPeriod(years, 0, selected).value;
    ReportRight(config.revision, s.period, OpeningItems(years, s, entries, cs), PeriodItems(years, s, entries, cs));
  }
}
