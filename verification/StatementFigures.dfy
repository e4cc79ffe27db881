// What every printed line of an income statement, a closing balance sheet and a
// balance trend means, in terms of the contributions.
module StatementFigures {
  import opened Results
  import opened Texts
  import opened Orders
  import opened Calendar
  import opened Accumulators
  import opened Accounts
  import opened Configurations
  import opened Movements
  import opened CarryForward
  import opened Bookkeeping
  import opened Rows
  import opened TrialBalances
  import opened Sections
  import opened StatementRows
  import opened Reports
  import opened Provenance
  import opened Targets
  import opened Statements
  import opened Incomes
  import opened Trends
  import opened TrendRefinement
  import opened Warnings
  import opened Articulation
  import opened Figures

  // ------------------------------------------------------ lines of a section

  // Read back, the printed balance is the exact sum over the keys.
  ghost predicate ReadsSum(b: Balance, items: seq<Contribution>, K: iset<AmountKey>) {
    ParseBalance(b) == Norm(ItemSum(items, K))
  }

  ghost predicate LineIsRight(row: StatementRow, commodity: string, category: Category, items: seq<Contribution>) {
    && ReadsSum(row.direct, items, OnAccount(commodity, category, row.account))
    && ReadsSum(row.subtotal, items, AtOrBelow(commodity, category, row.account))
    && IsLabelled(row.account, row.labelText, row.depth)
  }

  function LineAccounts(rows: seq<StatementRow>): seq<string> {
    seq(|rows|, i requires 0 <= i < |rows| => rows[i].account)
  }

  function StatementCategories(groups: seq<StatementGroup>): seq<Category> {
    seq(|groups|, i requires 0 <= i < |groups| => groups[i].category)
  }

  // The figures add up `items`; what is listed is what `posted` posts to.
  ghost predicate StatementGroupIsRight(
    g: StatementGroup, commodity: string, items: seq<Contribution>, posted: seq<Contribution>) {
    && ReadsSum(g.total, items, InCategory(commodity, g.category))
    && ListsAccounts(LineAccounts(g.accounts), commodity, g.category, posted)
    && forall k | 0 <= k < |g.accounts| :: LineIsRight(g.accounts[k], commodity, g.category, items)
  }

  ghost predicate GroupsAreRight(
    groups: seq<StatementGroup>, commodity: string, items: seq<Contribution>, posted: seq<Contribution>) {
    && ListsCategories(StatementCategories(groups), commodity, posted)
    && forall j | 0 <= j < |groups| :: StatementGroupIsRight(groups[j], commodity, items, posted)
  }

  ghost predicate StatementSectionIsRight(s: StatementSection, items: seq<Contribution>, posted: seq<Contribution>) {
    ReadsSum(s.total, items, InCommodity(s.commodity)) && GroupsAreRight(s.groups, s.commodity, items, posted)
  }

  // The totals of some contributions, with an entry for every posted key.
  ghost predicate TotalsOf(m: Totals, items: seq<Contribution>, posted: seq<Contribution>) {
    && (forall K: iset<AmountKey> :: TotalSum(m, K) == ItemSum(items, K))
    && forall k :: k in m <==> Touched(posted, iset{k})
  }

  lemma SummedIff(m: Totals, items: seq<Contribution>, posted: seq<Contribution>, commodity: string, category: Category, account: string)
    requires TotalsOf(m, items, posted)
    ensures account in DirectSums(commodity, category, m) <==> Touched(posted, OnAccount(commodity, category, account))
  {
    hide TotalSum, ItemSum, Touched, Get;
    var k := AmountKey(commodity, category, account);
    assert OnAccount(commodity, category, account) == iset{k};
    assert k in m <==> Touched(posted, iset{k});
    assert account in AccountsIn(commodity, category, m) <==> k in m;
  }

  lemma NameSummedIff(m: Totals, items: seq<Contribution>, posted: seq<Contribution>, commodity: string, category: Category, name: string)
    requires TotalsOf(m, items, posted)
    ensures name in Names(DirectSums(commodity, category, m).Keys) <==> Touched(posted, AtOrBelow(commodity, category, name))
  {
    hide TotalsOf, Names, DirectSums;
    var direct := DirectSums(commodity, category, m);
    NamesAreAncestors(direct.Keys, name);
    if name in Names(direct.Keys) {
      var a :| a in direct.Keys && Under(a, name);
      SummedIff(m, items, posted, commodity, category, a);
      var x :| x in posted && x.key in OnAccount(commodity, category, a);
      assert x.key in AtOrBelow(commodity, category, name);
    }
    if x :| x in posted && x.key in AtOrBelow(commodity, category, name) {
      assert x.key in OnAccount(commodity, category, x.key.account);
      SummedIff(m, items, posted, commodity, category, x.key.account);
      assert x.key.account in direct.Keys && Under(x.key.account, name);
    }
  }

  lemma LinesListed(m: Totals, items: seq<Contribution>, posted: seq<Contribution>, commodity: string, category: Category)
    requires TotalsOf(m, items, posted)
    ensures var direct := DirectSums(commodity, category, m);
            ListsAccounts(LineAccounts(StatementRowsOf(commodity, category, direct)), commodity, category, posted)
  {
    hide TotalsOf, Names, DirectSums, Touched, PathLess, Split, BalanceText, Rolled, Get, StatementWarnings;
    var direct := DirectSums(commodity, category, m);
    var names := StatementNames(direct);
    assert LineAccounts(StatementRowsOf(commodity, category, direct)) == names;
    forall a
      ensures a in names <==> Touched(posted, AtOrBelow(commodity, category, a))
    {
      NameSummedIff(m, items, posted, commodity, category, a);
    }
  }

  lemma SumReads(m: Totals, items: seq<Contribution>, posted: seq<Contribution>, K: iset<AmountKey>)
    requires TotalsOf(m, items, posted) && Fits(TotalSum(m, K))
    ensures ReadsSum(BalanceText(TotalSum(m, K)), items, K)
  {
    hide Fits, BalanceText, ParseBalance, Norm, ItemSum;
    ReparseBalance(TotalSum(m, K));
  }

  lemma StatementGroupRight(
    m: Totals, items: seq<Contribution>, posted: seq<Contribution>, commodity: string, category: Category)
    requires TotalsOf(m, items, posted) && StatementGroupFits(DirectSums(commodity, category, m))
    ensures StatementGroupIsRight(StatementGroupOf(commodity, category, DirectSums(commodity, category, m)), commodity, items, posted)
  {
    hide TotalsOf, Names, DirectSums, Touched, BalanceText, Rolled, Get, StatementWarnings, Fits, SumOver, TotalSum, ReadsSum, IsLabelled, ListsAccounts, Cell, Just, Subtree, AtOrBelow, OnAccount, InCategory, AccountLess, Depth;
    var direct := DirectSums(commodity, category, m);
    LinesListed(m, items, posted, commodity, category);
    WholeCell(commodity, category, m);
    KeysOfCells(commodity, category, "");
    SumReads(m, items, posted, InCategory(commodity, category));
    var names := StatementNames(direct);
    forall k | 0 <= k < |names|
      ensures LineIsRight(StatementRowsOf(commodity, category, direct)[k], commodity, category, items)
    {
      assert names[k] in names;
      RolledIsCell(commodity, category, m, names[k]);
      KeysOfCells(commodity, category, names[k]);
      SumReads(m, items, posted, OnAccount(commodity, category, names[k]));
      SumReads(m, items, posted, AtOrBelow(commodity, category, names[k]));
      LabelOfAccount(names[k]);
    }
  }

  lemma SumsExistIff(m: Totals, items: seq<Contribution>, posted: seq<Contribution>, commodity: string, category: Category)
    requires TotalsOf(m, items, posted)
    ensures DirectSums(commodity, category, m) != map[] <==> Touched(posted, InCategory(commodity, category))
  {
    hide TotalsOf, DirectSums;
    var direct := DirectSums(commodity, category, m);
    if direct != map[] {
      var a :| a in direct.Keys;
      SummedIff(m, items, posted, commodity, category, a);
      var x :| x in posted && x.key in OnAccount(commodity, category, a);
      assert x.key in InCategory(commodity, category);
    }
    if x :| x in posted && x.key in InCategory(commodity, category) {
      assert x.key in OnAccount(commodity, category, x.key.account);
      SummedIff(m, items, posted, commodity, category, x.key.account);
      assert x.key.account in direct.Keys;
    }
  }

  lemma {:induction false} StatementGroupsCategorised(
    m: Totals, items: seq<Contribution>, posted: seq<Contribution>, commodity: string, n: nat)
    requires n <= 6 && TotalsOf(m, items, posted)
    ensures ListedSoFar(StatementCategories(StatementGroups(commodity, m, n)), n, commodity, posted)
  {
    hide TotalsOf, DirectSums, SumOver, BalanceText, Touched, InCategory, StatementGroups, StatementGroupWarnings, RowsWarnings, StatementRowsOf, ListedSoFar;
    if n == 0 {
      StatementBase(commodity, m);
      NoneListed(commodity, posted);
      assert StatementCategories([]) == [];
    } else {
      var groups := StatementGroups(commodity, m, n - 1);
      StatementGroupsCategorised(m, items, posted, commodity, n - 1);
      StatementGroupStep(commodity, n - 1, m);
      SumsExistIff(m, items, posted, commodity, CategoryOrder[n - 1]);
      ListOneMore(StatementCategories(groups), n - 1, commodity, posted);
      if DirectSums(commodity, CategoryOrder[n - 1], m) != map[] {
        assert StatementCategories(StatementGroups(commodity, m, n)) == StatementCategories(groups) + [CategoryOrder[n - 1]];
      }
    }
  }

  lemma GroupsRight(m: Totals, items: seq<Contribution>, posted: seq<Contribution>, commodity: string)
    requires TotalsOf(m, items, posted) && StatementFits(commodity, m)
    ensures GroupsAreRight(StatementGroups(commodity, m, 6), commodity, items, posted)
  {
    hide TotalsOf, DirectSums, SumOver, BalanceText, StatementGroups, ListedSoFar, ListsCategories, StatementGroupIsRight, StatementCategories, StatementGroupFits, Fits, TotalSum;
    var groups := StatementGroups(commodity, m, 6);
    StatementGroupsCategorised(m, items, posted, commodity, 6);
    AllListed(StatementCategories(groups), commodity, posted);
    StatementGroupsListed(commodity, m, 6);
    forall j | 0 <= j < |groups|
      ensures StatementGroupIsRight(groups[j], commodity, items, posted)
    {
      assert groups[j] in groups;
      var x :| x < 6 && IsStatementGroup(groups[j], commodity, x, m);
      StatementGroupRight(m, items, posted, commodity, CategoryOrder[x]);
    }
  }

  lemma StatementSectionRight(m: Totals, items: seq<Contribution>, posted: seq<Contribution>, commodity: string)
    requires TotalsOf(m, items, posted) && StatementFits(commodity, m)
    ensures StatementSectionIsRight(StatementOf(commodity, m).section, items, posted)
  {
    hide TotalsOf, StatementGroups, GroupsAreRight, Fits, TotalSum, ReadsSum, BalanceText, StatementGroupFits, DirectSums, StatementGroupWarnings;
    GroupsRight(m, items, posted, commodity);
    assert OfCommodity(commodity) == InCommodity(commodity);
    SumReads(m, items, posted, InCommodity(commodity));
  }

  lemma CommoditiesPosted(m: Totals, items: seq<Contribution>, posted: seq<Contribution>)
    requires TotalsOf(m, items, posted)
    ensures ListsCommodities(CommoditiesIn(m), posted)
  {
    hide TotalSum, ItemSum, TextLess, CommoditiesIn;
    forall name
      ensures name in CommoditiesIn(m) <==> Touched(posted, InCommodity(name))
    {
      CommodityListed(m, name);
      if name in CommoditiesIn(m) {
        var k :| k in m && k.commodity == name;
        assert Touched(posted, iset{k});
        var x :| x in posted && x.key in iset{k};
        assert x.key in InCommodity(name);
      }
      if x :| x in posted && x.key in InCommodity(name) {
        assert x.key in iset{x.key};
        assert Touched(posted, iset{x.key});
      }
    }
    CommoditiesOrdered(m);
  }

  lemma CommoditiesOrdered(m: Totals)
    ensures forall i, j | 0 <= i < j < |CommoditiesIn(m)| :: TextLess(CommoditiesIn(m)[i], CommoditiesIn(m)[j])
  {
  }

  // A section for every commodity that is posted to, in text order.
  ghost predicate SectionsAreRight(sections: seq<StatementSection>, items: seq<Contribution>, posted: seq<Contribution>) {
    && ListsCommodities(seq(|sections|, i requires 0 <= i < |sections| => sections[i].commodity), posted)
    && forall i | 0 <= i < |sections| :: StatementSectionIsRight(sections[i], items, posted)
  }

  lemma SectionsRight(m: Totals, items: seq<Contribution>, posted: seq<Contribution>)
    requires TotalsOf(m, items, posted) && AllStatementsFit(m)
    ensures SectionsAreRight(StatementSections(CommoditiesIn(m), m), items, posted)
  {
    hide TotalsOf, StatementOf, StatementFits, CommoditiesIn, StatementSectionIsRight, ListsCommodities, StatementSections;
    var names := CommoditiesIn(m);
    var sections := StatementSections(names, m);
    CommoditiesPosted(m, items, posted);
    SectionsCounted(names, m);
    forall i | 0 <= i < |names|
      ensures sections[i].commodity == names[i] && StatementSectionIsRight(sections[i], items, posted)
    {
      SectionAt(names, m, i);
      StatementNamed(names[i], m);
      StatementSectionRight(m, items, posted, names[i]);
    }
    assert seq(|sections|, i requires 0 <= i < |sections| => sections[i].commodity) == names;
  }

  // ------------------------------------------------- totals of contributions

  lemma TallyOf(items: seq<Contribution>)
    ensures TotalsOf(Tally(items), items, items)
  {
    hide TotalSum, ItemSum, Post;
    forall K: iset<AmountKey>
      ensures TotalSum(Tally(items), K) == ItemSum(items, K)
    {
      TallySum(items, K);
    }
    forall k
      ensures k in Tally(items) <==> Touched(items, iset{k})
    {
      PostKeys(map[], items, k);
      assert forall x: Contribution :: x.key in iset{k} <==> x.key == k;
    }
  }

  // Keeping some categories of the totals is keeping their contributions.
  lemma FilteredOf(items: seq<Contribution>, C: set<Category>, f: Contribution -> bool)
    requires forall x: Contribution :: f(x) <==> x.key.category in C
    ensures TotalsOf(FilterTotals(Tally(items), C), Keep(items, f), Keep(items, f))
  {
    hide TotalSum, ItemSum, Tally, Keep;
    var m, kept, F := FilterTotals(Tally(items), C), Keep(items, f), iset k: AmountKey | k.category in C;
    TallyOf(items);
    forall K: iset<AmountKey>
      ensures TotalSum(m, K) == ItemSum(kept, K)
    {
      FilterSum(Tally(items), C, K);
      KeepSum(items, f, F, K);
    }
    forall k
      ensures k in m <==> Touched(kept, iset{k})
    {
      assert k in Tally(items) <==> Touched(items, iset{k});
      TouchedKept(items, f, k);
    }
  }

  lemma TouchedKept(items: seq<Contribution>, f: Contribution -> bool, k: AmountKey)
    ensures Touched(Keep(items, f), iset{k}) <==> exists x :: x in items && x.key == k && f(x)
  {
    hide Keep;
    forall x
      ensures x in Keep(items, f) <==> x in items && f(x)
    {
      KeepMembers(items, f, x);
    }
    assert forall x: Contribution :: x.key in iset{k} <==> x.key == k;
  }

  // Sections are complete exactly when nothing in them is unclassified.
  lemma StatementsCompleteIff(m: Totals)
    ensures StatementsOf(m).complete <==> forall k | k in m :: k.category != Unclassified
  {
    hide CommoditiesIn, StatementGroups, StatementGroupWarnings, StatementSections, StatementsWarnings, TotalSum, BalanceText, Get;
    var names := CommoditiesIn(m);
    forall i | 0 <= i < |names|
      ensures StatementOf(names[i], m).complete <==> forall k | k in m && k.commodity == names[i] :: k.category != Unclassified
    {
      var direct := DirectSums(names[i], Unclassified, m);
      if k :| k in m && k.commodity == names[i] && k.category == Unclassified {
        assert k.account in direct;
      }
      if a :| a in direct {
        assert a in AccountsIn(names[i], Unclassified, m);
      }
    }
    forall k | k in m
      ensures exists i :: 0 <= i < |names| && names[i] == k.commodity
    {
      CommodityListed(m, k.commodity);
    }
  }

  // ---------------------------------------------------- income statements

  predicate OnIncomeStatement(x: Contribution) {
    x.key.category in {Revenue, Expense, Unclassified}
  }

  function IncomeSections(commodities: seq<IncomeCommodity>): seq<StatementSection> {
    seq(|commodities|, i requires 0 <= i < |commodities| => commodities[i].section)
  }

  lemma IncomeSectionsAre(names: seq<string>, m: Totals)
    ensures IncomeSections(IncomeCommodities(names, m)) == StatementSections(names, m)
  {
    hide StatementOf, Earnings, BalanceText;
    IncomeCount(names, m);
    SectionsCounted(names, m);
    forall i | 0 <= i < |names|
      ensures IncomeSections(IncomeCommodities(names, m))[i] == StatementSections(names, m)[i]
    {
      IncomeAt(names, m, i);
      SectionAt(names, m, i);
    }
  }

  // Every built income statement: the period asked for, a line for everything
  // the period posts to on revenue, expense and unclassified accounts, with the
  // exact sums, and the exact net income.
  lemma IncomeFigures(config: Configuration, entries: seq<Entry>, selected: PeriodText, report: IncomeStatement)
    requires IncomeStatementFor(config, entries, selected) == Ok(report)
    ensures ValidConfiguration(config) && AllEntriesValid(entries)
    ensures report.revision == config.revision && IsPeriod(report.period.period, selected)
    ensures var years, cs := SortYears(config.fiscalYears), SortClassifications(config.classifications);
            var choice := SelectIncomePeriod(years, selected);
            && choice.Some? && choice.value.index < |years| && choice.value.period == report.period
            && var items := PeriodItems(years, choice.value, entries, cs);
            var kept := Keep(items, OnIncomeStatement);
            && SectionsAreRight(IncomeSections(report.commodities), kept, kept)
            && (report.classificationComplete <==> forall x | x in items :: x.key.category != Unclassified)
            && forall i | 0 <= i < |report.commodities| ::
                 ReadsSum(report.commodities[i].netIncome, items, InCategories(report.commodities[i].section.commodity, {Revenue, Expense}))
  {
    hide ValidConfiguration, SortYears, SortClassifications, SelectIncomePeriod, GoodEntries, AllEntriesValid, PeriodItems, IsPeriod, Keep, SectionsAreRight, IncomeSections, StatementsOf, AllStatementsFit, IncomeCommodities, CommoditiesIn, Tally, Fits, Earnings, FilterTotals, ReadsSum;
    SelectedIncomePeriod(SortYears(config.fiscalYears), selected);
    GoodAreValid(entries);
    var years, cs := SortYears(config.fiscalYears), SortClassifications(config.classifications);
    var items := PeriodItems(years, SelectIncomePeriod(years, selected).value, entries, cs);
    IncomeLines(items);
    IncomeIsComplete(items);
    var m := FilterTotals(Tally(items), IncomeCategories);
    var names := CommoditiesIn(m);
    IncomeCount(names, m);
    forall i | 0 <= i < |names|
      ensures ReadsSum(IncomeCommodities(names, m)[i].netIncome, items, InCategories(IncomeCommodities(names, m)[i].section.commodity, {Revenue, Expense}))
    {
      IncomeAt(names, m, i);
      IncomeNamed(names[i], m);
      assert names[i] in names;
      NetIncomeSum(items, names[i]);
    }
  }

  // The period of an income statement: a fiscal year, one of its months, or the
  // year to date through month 2 to 11.
  lemma IncomePeriodIs(years: seq<FiscalYear>, selected: PeriodText)
    requires SelectIncomePeriod(years, selected).Some?
    ensures var s := SelectIncomePeriod(years, selected).value;
            && s.index < |years|
            && var span := SpanOf(years[s.index]);
            || s.period in PeriodsOf(span)
            || (2 <= s.period.month <= 11
                && s.period == FiscalPeriod(Period(span.start, MonthOf(span, s.period.month).endDate), span.start, span.end, s.period.month))
  {
    hide PeriodsOf, SpanOf, SelectPeriod, SelectYearToDate, IsPeriod, MonthOf;
    if SelectPeriod(years, 0, selected).Some? {
      SelectedPeriod(years, 0, selected);
    } else {
      SelectedYearToDate(years, 0, selected);
    }
  }

  lemma IncomeLines(items: seq<Contribution>)
    requires AllStatementsFit(FilterTotals(Tally(items), IncomeCategories))
    ensures var m, kept := FilterTotals(Tally(items), IncomeCategories), Keep(items, OnIncomeStatement);
            SectionsAreRight(IncomeSections(IncomeCommodities(CommoditiesIn(m), m)), kept, kept)
  {
    hide Tally, FilterTotals, TotalsOf, SectionsAreRight, AllStatementsFit, Keep, CommoditiesIn, IncomeSections;
    var m, kept := FilterTotals(Tally(items), IncomeCategories), Keep(items, OnIncomeStatement);
    FilteredOf(items, IncomeCategories, OnIncomeStatement);
    SectionsRight(m, kept, kept);
    IncomeSectionsAre(CommoditiesIn(m), m);
  }

  lemma IncomeIsComplete(items: seq<Contribution>)
    ensures StatementsOf(FilterTotals(Tally(items), IncomeCategories)).complete <==>
            forall x | x in items :: x.key.category != Unclassified
  {
    hide Post, StatementsOf;
    StatementsCompleteIff(FilterTotals(Tally(items), IncomeCategories));
    forall k
      ensures k in Tally(items) <==> exists x :: x in items && x.key == k
    {
      PostKeys(map[], items, k);
    }
  }

  lemma NetIncomeSum(items: seq<Contribution>, commodity: string)
    requires Fits(Earnings(FilterTotals(Tally(items), IncomeCategories), commodity))
    ensures ReadsSum(BalanceText(Earnings(FilterTotals(Tally(items), IncomeCategories), commodity)), items, InCategories(commodity, {Revenue, Expense}))
  {
    hide Tally, FilterTotals, Earnings, Fits, BalanceText, ParseBalance, ItemSum, Norm;
    EarningsOfItems(items, commodity);
    ReparseBalance(Earnings(FilterTotals(Tally(items), IncomeCategories), commodity));
  }

  ghost predicate HasGroup(s: StatementSection, c: Category) {
    exists j :: 0 <= j < |s.groups| && s.groups[j].category == c
  }

  ghost predicate PostsTo(items: seq<Contribution>, commodity: string, c: Category) {
    exists x :: x in items && x.key.commodity == commodity && x.key.category == c
  }

  // In particular: a group stands for a commodity and category exactly when the
  // category is revenue, expense or unclassified and the period posts to it,
  // and the section total is the exact sum over these three.
  lemma IncomeGroups(config: Configuration, entries: seq<Entry>, selected: PeriodText, report: IncomeStatement, i: nat)
    requires IncomeStatementFor(config, entries, selected) == Ok(report) && i < |report.commodities|
    ensures ValidConfiguration(config) && AllEntriesValid(entries)
    ensures var years, cs := SortYears(config.fiscalYears), SortClassifications(config.classifications);
            var choice := SelectIncomePeriod(years, selected);
            && choice.Some? && choice.value.index < |years|
            && var items, section := PeriodItems(years, choice.value, entries, cs), report.commodities[i].section;
            && ParseBalance(section.total) ==
               Norm(ItemSum(items, InCategories(section.commodity, {Revenue, Expense, Unclassified})))
            && forall c :: HasGroup(section, c) <==> c in {Revenue, Expense, Unclassified} && PostsTo(items, section.commodity, c)
  {
    hide IncomeStatementFor, ValidConfiguration, SortYears, SortClassifications, SelectIncomePeriod, AllEntriesValid, PeriodItems, IsPeriod, Keep, ParseBalance, ItemSum, Norm;
    IncomeFigures(config, entries, selected, report);
    var years, cs := SortYears(config.fiscalYears), SortClassifications(config.classifications);
    var items := PeriodItems(years, SelectIncomePeriod(years, selected).value, entries, cs);
    var section := IncomeSections(report.commodities)[i];
    assert section == report.commodities[i].section;
    SectionMeans(items, OnIncomeStatement, {Revenue, Expense, Unclassified}, section);
  }

  lemma SectionMeans(items: seq<Contribution>, f: Contribution -> bool, C: set<Category>, s: StatementSection)
    requires forall x: Contribution :: f(x) <==> x.key.category in C
    requires StatementSectionIsRight(s, Keep(items, f), Keep(items, f))
    ensures ParseBalance(s.total) == Norm(ItemSum(items, InCategories(s.commodity, C)))
    ensures forall c :: HasGroup(s, c) <==> c in C && PostsTo(items, s.commodity, c)
  {
    hide Keep, ParseBalance, ItemSum, Norm, StatementGroupIsRight, HasGroup, PostsTo;
    KeepSum(items, f, (iset k: AmountKey | k.category in C), InCommodity(s.commodity));
    assert InCommodity(s.commodity) * (iset k: AmountKey | k.category in C)
        == InCategories(s.commodity, C);
    forall c
      ensures HasGroup(s, c) <==> c in C && PostsTo(items, s.commodity, c)
    {
      CategoryMeans(items, f, C, s, c);
    }
  }

  lemma CategoryMeans(items: seq<Contribution>, f: Contribution -> bool, C: set<Category>, s: StatementSection, c: Category)
    requires forall x: Contribution :: f(x) <==> x.key.category in C
    requires ListsCategories(StatementCategories(s.groups), s.commodity, Keep(items, f))
    ensures HasGroup(s, c) <==> c in C && PostsTo(items, s.commodity, c)
  {
    hide Keep;
    var listed := StatementCategories(s.groups);
    assert c in listed <==> HasGroup(s, c) by {
      if j :| 0 <= j < |s.groups| && s.groups[j].category == c {
        assert listed[j] == c;
      }
    }
    assert c in listed <==> Touched(Keep(items, f), InCategory(s.commodity, c));
    forall x
      ensures x in Keep(items, f) <==> x in items && f(x)
    {
      KeepMembers(items, f, x);
    }
    if x :| c in C && x in items && x.key.commodity == s.commodity && x.key.category == c {
      assert x in Keep(items, f) && x.key in InCategory(s.commodity, c);
    }
  }

  // ------------------------------------------------- closing balance sheets

  predicate OnBalanceSheet(x: Contribution) {
    x.key.category in {Asset, Liability, Equity, Unclassified}
  }

  // One commodity of the sheet: the balance accounts line by line, the earnings
  // apart, and a total that is the exact sum of everything and is zero.
  ghost predicate ClosingIsRight(c: ClosingCommodity, items: seq<Contribution>) {
    && GroupsAreRight(c.groups, c.commodity, Keep(items, OnBalanceSheet), Keep(items, OnBalanceSheet))
    && ReadsSum(c.currentEarnings, items, InCategories(c.commodity, {Revenue, Expense}))
    && ReadsSum(c.total, items, InCommodity(c.commodity)) && IsZero(ParseBalance(c.total))
  }

  // No groups are needed for a commodity without balance accounts.
  lemma EveryCommodityFits(m: Totals, commodity: string)
    requires AllStatementsFit(m)
    ensures StatementFits(commodity, m)
  {
    hide StatementGroupFits, DirectSums, TotalSum, Fits, CommoditiesIn;
    FittingSections(m, commodity);
    if commodity in CommoditiesIn(m) {
      var i :| 0 <= i < |CommoditiesIn(m)| && CommoditiesIn(m)[i] == commodity;
      assert StatementFits(CommoditiesIn(m)[i], m);
    } else {
      StatementBase(commodity, m);
      forall n | 0 <= n < 6
        ensures DirectSums(commodity, CategoryOrder[n], m) == map[]
      {
        NoSumsFor(m, commodity, CategoryOrder[n]);
      }
    }
  }

  lemma NoSumsFor(m: Totals, commodity: string, category: Category)
    requires commodity !in CommoditiesIn(m)
    ensures DirectSums(commodity, category, m) == map[]
  {
    hide CommoditiesIn;
    CommodityListed(m, commodity);
    assert AccountsIn(commodity, category, m) == {};
  }

  lemma ClosingCommodityRight(items: seq<Contribution>, commodity: string)
    requires BalancedTotals(Tally(items)) && ClosingFits(Tally(items)) && commodity in CommoditiesIn(Tally(items))
    ensures ClosingIsRight(ClosingCommodityOf(commodity, Tally(items)), items)
  {
    hide Tally, FilterTotals, AllStatementsFit, StatementFits, CommoditiesIn, TotalSum, ItemSum, Fits, BalanceText, ParseBalance, GroupsAreRight, StatementGroups, Norm, Earnings, Keep, TotalsOf;
    var m, kept := Tally(items), Keep(items, OnBalanceSheet);
    FilteredOf(items, BalanceCategories, OnBalanceSheet);
    EveryCommodityFits(FilterTotals(m, BalanceCategories), commodity);
    GroupsRight(FilterTotals(m, BalanceCategories), kept, kept, commodity);
    EarningsOfItems(items, commodity);
    ReparseBalance(Earnings(m, commodity));
    TallySum(items, InCommodity(commodity));
    assert OfCommodity(commodity) == InCommodity(commodity);
    ReparseBalance(TotalSum(m, OfCommodity(commodity)));
    NormText(TotalSum(m, OfCommodity(commodity)));
  }

  function ClosingNames(commodities: seq<ClosingCommodity>): seq<string> {
    seq(|commodities|, i requires 0 <= i < |commodities| => commodities[i].commodity)
  }

  lemma ClosingCommoditiesRight(items: seq<Contribution>)
    requires BalancedTotals(Tally(items)) && ClosingFits(Tally(items))
    ensures var m := Tally(items);
            var commodities := ClosingCommodities(CommoditiesIn(m), m);
            && ListsCommodities(ClosingNames(commodities), items)
            && forall i | 0 <= i < |commodities| :: ClosingIsRight(commodities[i], items)
  {
    hide Tally, CommoditiesIn, ClosingIsRight, ListsCommodities, BalancedTotals, ClosingFits, TotalsOf, Earnings, BalanceText, TotalSum, StatementOf, FilterTotals;
    var m := Tally(items);
    var names := CommoditiesIn(m);
    TallyOf(items);
    CommoditiesPosted(m, items, items);
    ClosingCount(names, m);
    forall i | 0 <= i < |names|
      ensures ClosingCommodities(names, m)[i].commodity == names[i] && ClosingIsRight(ClosingCommodities(names, m)[i], items)
    {
      ClosingAt(names, m, i);
      assert names[i] in names;
      ClosingCommodityRight(items, names[i]);
    }
    assert ClosingNames(ClosingCommodities(names, m)) == names;
  }

  lemma ClosingCount(names: seq<string>, m: Totals)
    ensures |ClosingCommodities(names, m)| == |names|
  {
    hide ClosingCommodityOf;
    if names != [] {
      ClosingAt(names, m, 0);
    }
  }

  // Every built closing balance sheet: the year asked for and its last day, a
  // section for everything carried into the year or posted in it, with the
  // exact sums.
  lemma ClosingFigures(config: Configuration, entries: seq<Entry>, selected: PeriodText, report: ClosingBalanceSheet)
    requires ClosingBalanceSheetFor(config, entries, selected) == Ok(report)
    ensures ValidConfiguration(config) && AllEntriesValid(entries)
    ensures report.revision == config.revision && IsPeriod(report.fiscalYear, selected) && report.asOf == report.fiscalYear.endDate
    ensures var years, cs := SortYears(config.fiscalYears), SortClassifications(config.classifications);
            var choice := SelectPeriod(years, 0, selected);
            && choice.Some? && choice.value.index < |years| && choice.value.period.month == 0
            && report.fiscalYear == YearPeriod(years[choice.value.index])
            && var items := ClosingItems(years, choice.value.index, entries, cs);
            && ListsCommodities(ClosingNames(report.commodities), items)
            && (report.classificationComplete <==> forall x | x in items :: x.key.category != Unclassified)
            && forall i | 0 <= i < |report.commodities| :: ClosingIsRight(report.commodities[i], items)
  {
    hide ValidConfiguration, SortYears, SortClassifications, SelectPeriod, GoodEntries, AllEntriesValid, OpeningExists, ClosingItems, IsPeriod, Carried, BalancedTotals, ClosingFits, StatementsOf, ClosingCommodities, CommoditiesIn, Tally, ClosingIsRight, ListsCommodities, ClosingNames, YearPeriod, PeriodsOf, FilterTotals, SpanOf;
    var years, cs := SortYears(config.fiscalYears), SortClassifications(config.classifications);
    SelectedPeriod(years, 0, selected);
    GoodAreValid(entries);
    var s := SelectPeriod(years, 0, selected).value;
    WholeYearSelected(years, s);
    ClosingBalanced(years, s.index, entries, cs);
    var items := ClosingItems(years, s.index, entries, cs);
    ClosingCommoditiesRight(items);
    ClosingIsComplete(items);
  }

  lemma ClosingIsComplete(items: seq<Contribution>)
    ensures StatementsOf(FilterTotals(Tally(items), BalanceCategories)).complete <==>
            forall x | x in items :: x.key.category != Unclassified
  {
    hide Post, StatementsOf;
    StatementsCompleteIff(FilterTotals(Tally(items), BalanceCategories));
    forall k
      ensures k in Tally(items) <==> exists x :: x in items && x.key == k
    {
      PostKeys(map[], items, k);
    }
  }

  // ------------------------------------------------------------ balance trends

  lemma {:induction false} EndsGrow(span: Span, m: nat, n: nat, d: Date)
    requires 1 <= m <= n <= 12 && ValidDate(d) && !Before(MonthOf(span, m).endDate, d)
    ensures !Before(MonthOf(span, n).endDate, d)
  {
    hide MonthOf, Before;
    if m < n {
      EndsGrow(span, m, n - 1, d);
      MonthEndsGrow(span, n - 1, d);
    }
  }

  // What is in an earlier point is in the last one.
  lemma TrendGrows(
    years: seq<FiscalYear>, index: nat, m: nat, entries: seq<Entry>, cs: seq<Classification>, x: Contribution)
    requires index < |years| && AllEntriesValid(entries) && 1 <= m <= 12
    requires x in TrendItems(years, index, m, entries, cs)
    ensures x in TrendItems(years, index, 12, entries, cs)
  {
    hide AllEntriesValid, Carried, MovementItems, SpanOf, MonthOf, IsPosting, Before;
    var span, ids := SpanOf(years[index]), years[index].openingEntryIDs;
    var p, q := ThroughMonth(span, m), ThroughMonth(span, 12);
    MovementMembers(entries, p, ids, cs, MovementRole, x);
    MovementMembers(entries, q, ids, cs, MovementRole, x);
    if x in MovementItems(entries, p, ids, cs, MovementRole) {
      var e :| IsMovement(x, e, entries, p, ids, cs);
      EndsGrow(span, m, 12, e.entry.date.date);
      assert IsMovement(x, e, entries, q, ids, cs);
    }
  }

  lemma {:induction false} KeysOfMonths(ms: seq<Totals>, k: AmountKey)
    ensures k in KeysOf(ms) <==> exists i :: 0 <= i < |ms| && k in ms[i]
  {
    if ms != [] {
      KeysOfMonths(ms[..|ms| - 1], k);
      assert ms == ms[..|ms| - 1] + [ms[|ms| - 1]];
    }
  }

  // Every point has a key for whatever is posted by the end of the year.
  lemma PointKeys(years: seq<FiscalYear>, index: nat, m: nat, entries: seq<Entry>, cs: seq<Classification>, k: AmountKey)
    requires index < |years| && AllEntriesValid(entries) && 1 <= m <= 12
    ensures k in PointTotals(TrendMonths(years, index, entries, cs), m - 1) <==>
            Touched(TrendItems(years, index, 12, entries, cs), iset{k})
  {
    hide AllEntriesValid, TrendItems, Tally, TotalSum, ItemSum, KeysOf, Touched;
    var ms := TrendMonths(years, index, entries, cs);
    KeysOfMonths(ms, k);
    forall i | 0 <= i < 12
      ensures k in ms[i] <==> Touched(TrendItems(years, index, i + 1, entries, cs), iset{k})
      ensures Touched(TrendItems(years, index, i + 1, entries, cs), iset{k}) ==>
              Touched(TrendItems(years, index, 12, entries, cs), iset{k})
    {
      TallyOf(TrendItems(years, index, i + 1, entries, cs));
      TouchedGrows(years, index, i + 1, entries, cs, k);
    }
    assert ms[11] == TrendTotals(years, index, 12, entries, cs);
  }

  lemma TouchedGrows(years: seq<FiscalYear>, index: nat, m: nat, entries: seq<Entry>, cs: seq<Classification>, k: AmountKey)
    requires index < |years| && AllEntriesValid(entries) && 1 <= m <= 12
    ensures Touched(TrendItems(years, index, m, entries, cs), iset{k}) ==>
            Touched(TrendItems(years, index, 12, entries, cs), iset{k})
  {
    hide AllEntriesValid, TrendItems;
    if x :| x in TrendItems(years, index, m, entries, cs) && x.key in iset{k} {
      TrendGrows(years, index, m, entries, cs, x);
    }
  }

  lemma PointOfItems(years: seq<FiscalYear>, index: nat, m: nat, entries: seq<Entry>, cs: seq<Classification>)
    requires index < |years| && AllEntriesValid(entries) && 1 <= m <= 12
    ensures TotalsOf(PointTotals(TrendMonths(years, index, entries, cs), m - 1),
                     TrendItems(years, index, m, entries, cs), TrendItems(years, index, 12, entries, cs))
  {
    hide AllEntriesValid, TrendItems, Tally, TotalSum, ItemSum, KeysOf, Touched, Aligned;
    var ms, items := TrendMonths(years, index, entries, cs), TrendItems(years, index, m, entries, cs);
    forall K: iset<AmountKey>
      ensures TotalSum(PointTotals(ms, m - 1), K) == ItemSum(items, K)
    {
      AlignedSum(ms[m - 1], KeysOf(ms), K);
      TallySum(items, K);
    }
    forall k
      ensures k in PointTotals(ms, m - 1) <==> Touched(TrendItems(years, index, 12, entries, cs), iset{k})
    {
      PointKeys(years, index, m, entries, cs, k);
    }
  }

  // The point of month m: a line for everything carried into the year or posted
  // in it, showing what is posted by the end of the month.
  ghost predicate PointIsRight(
    p: TrendPoint, years: seq<FiscalYear>, index: nat, m: nat, entries: seq<Entry>, cs: seq<Classification>)
    requires index < |years| && AllEntriesValid(entries)
  {
    var span, posted := SpanOf(years[index]), TrendItems(years, index, 12, entries, cs);
    && p.period == FiscalPeriod(MonthOf(span, m), span.start, span.end, m)
    && SectionsAreRight(p.commodities, TrendItems(years, index, m, entries, cs), posted)
    && (p.classificationComplete <==> forall x | x in posted :: x.key.category != Unclassified)
  }

  lemma CompleteOf(m: Totals, items: seq<Contribution>, posted: seq<Contribution>)
    requires TotalsOf(m, items, posted)
    ensures StatementsOf(m).complete <==> forall x | x in posted :: x.key.category != Unclassified
  {
    hide StatementsOf, TotalSum, ItemSum;
    StatementsCompleteIff(m);
    if x :| x in posted && x.key.category == Unclassified {
      assert x.key in iset{x.key};
      assert Touched(posted, iset{x.key});
      assert x.key in m;
    }
    if k :| k in m && k.category == Unclassified {
      assert Touched(posted, iset{k});
    }
  }

  lemma PointRight(years: seq<FiscalYear>, index: nat, m: nat, entries: seq<Entry>, cs: seq<Classification>)
    requires index < |years| && AllEntriesValid(entries) && 1 <= m <= 12
    requires AllStatementsFit(PointTotals(TrendMonths(years, index, entries, cs), m - 1))
    ensures PointIsRight(PointOf(SpanOf(years[index]), TrendMonths(years, index, entries, cs), m - 1), years, index, m, entries, cs)
  {
    hide AllEntriesValid, TrendItems, TotalsOf, SectionsAreRight, PointTotals, TrendMonths, AllStatementsFit, StatementSections, StatementsWarnings, StatementsComplete, CommoditiesIn, SpanOf, MonthOf;
    var ms := TrendMonths(years, index, entries, cs);
    var items, posted := TrendItems(years, index, m, entries, cs), TrendItems(years, index, 12, entries, cs);
    PointOfItems(years, index, m, entries, cs);
    SectionsRight(PointTotals(ms, m - 1), items, posted);
    CompleteOf(PointTotals(ms, m - 1), items, posted);
    PeriodsAt(SpanOf(years[index]), m);
  }

  // Every built trend: the year asked for, and its twelve points.
  lemma TrendFigures(config: Configuration, entries: seq<Entry>, selected: PeriodText, report: BalanceTrend)
    requires BalanceTrendFor(config, entries, selected) == Ok(report)
    ensures ValidConfiguration(config) && AllEntriesValid(entries)
    ensures report.revision == config.revision && IsPeriod(report.fiscalYear, selected) && |report.points| == 12
    ensures var years, cs := SortYears(config.fiscalYears), SortClassifications(config.classifications);
            var choice := SelectPeriod(years, 0, selected);
            && choice.Some? && choice.value.index < |years| && choice.value.period.month == 0
            && (forall i | 0 <= i < 12 :: PointIsRight(report.points[i], years, choice.value.index, i + 1, entries, cs))
            && (report.classificationComplete <==>
                forall x | x in TrendItems(years, choice.value.index, 12, entries, cs) :: x.key.category != Unclassified)
  {
    hide ValidConfiguration, SortYears, SortClassifications, SelectPeriod, GoodEntries, AllEntriesValid, OpeningExists, IsPeriod, Carried, BalancedTotals, TrendMonths, PointsOf, PointOf, TrendItems, PeriodsOf, SpanOf, DatedWarnings, AllStatementsFit, PointTotals, SectionsAreRight, MonthOf;
    var years, cs := SortYears(config.fiscalYears), SortClassifications(config.classifications);
    SelectedPeriod(years, 0, selected);
    GoodAreValid(entries);
    var s := SelectPeriod(years, 0, selected).value;
    WholeYearSelected(years, s);
    var ms := TrendMonths(years, s.index, entries, cs);
    PointCount(SpanOf(years[s.index]), ms, 12);
    forall i | 0 <= i < 12
      ensures PointIsRight(report.points[i], years, s.index, i + 1, entries, cs)
    {
      PointRight(years, s.index, i + 1, entries, cs);
    }
    assert PointIsRight(report.points[0], years, s.index, 1, entries, cs);
  }

  // The point of a month warns about w.
  ghost predicate PointWarns(items: seq<Contribution>, posted: seq<Contribution>, k: AmountKey, w: Warning) {
    Touched(posted, iset{k}) && StatementWarns(k, ItemSum(items, iset{k}), w)
  }

  ghost predicate MonthWarns(
    years: seq<FiscalYear>, index: nat, m: nat, entries: seq<Entry>, cs: seq<Classification>, w: Warning)
    requires index < |years| && AllEntriesValid(entries)
  {
    var items, posted := TrendItems(years, index, m, entries, cs), TrendItems(years, index, 12, entries, cs);
    exists k :: PointWarns(items, posted, k, w)
  }

  lemma PointWarningsAre(m: Totals, items: seq<Contribution>, posted: seq<Contribution>, w: Warning)
    requires TotalsOf(m, items, posted) && AllStatementsFit(m)
    ensures w in StatementsOf(m).warnings <==> exists k :: PointWarns(items, posted, k, w)
  {
    hide StatementsOf, AllStatementsFit, TotalSum, ItemSum, Touched, StatementWarns;
    StatementsWarningsExact(m, w);
    forall k | k in m
      ensures m[k] == ItemSum(items, iset{k})
    {
      TotalSumOne(m, k);
    }
    if k :| k in m && StatementWarns(k, m[k], w) {
      assert PointWarns(items, posted, k, w);
    }
  }

  lemma {:induction false} DatedIff(points: seq<TrendPoint>, w: DatedWarning)
    ensures w in DatedWarnings(points) <==>
            exists i :: 0 <= i < |points| && w.warning in points[i].warnings && w.periodEnd == points[i].period.period.endDate
  {
    if points != [] {
      var front, last := points[..|points| - 1], points[|points| - 1];
      DatedIff(front, w);
      assert points == front + [last];
      OneDated(last.warnings, last.period.period.endDate, w);
      if i :| 0 <= i < |front| && w.warning in front[i].warnings && w.periodEnd == front[i].period.period.endDate {
        assert points[i] == front[i];
      }
    }
  }

  lemma OneDated(warnings: seq<Warning>, end: Date, w: DatedWarning)
    ensures w in Dated(warnings, end) <==> w.warning in warnings && w.periodEnd == end
  {
    if w.warning in warnings && w.periodEnd == end {
      var i :| 0 <= i < |warnings| && warnings[i] == w.warning;
      assert Dated(warnings, end)[i] == w;
    }
  }

  // The trend's warnings are those of its points, each with the last day of
  // the point's month: unclassified accounts, and balances printed on the
  // abnormal side.
  lemma TrendWarnings(config: Configuration, entries: seq<Entry>, selected: PeriodText, report: BalanceTrend, w: DatedWarning)
    requires BalanceTrendFor(config, entries, selected) == Ok(report)
    ensures ValidConfiguration(config) && AllEntriesValid(entries)
    ensures var years, cs := SortYears(config.fiscalYears), SortClassifications(config.classifications);
            var choice := SelectPeriod(years, 0, selected);
            && choice.Some? && choice.value.index < |years|
            && var index := choice.value.index;
            w in report.warnings <==>
              exists m :: 1 <= m <= 12 && w.periodEnd == MonthOf(SpanOf(years[index]), m).endDate
                && MonthWarns(years, index, m, entries, cs, w.warning)
  {
    hide ValidConfiguration, SortYears, SortClassifications, SelectPeriod, GoodEntries, AllEntriesValid, OpeningExists, IsPeriod, Carried, BalancedTotals, TrendMonths, PointsOf, PointWarns, TrendItems, PeriodsOf, SpanOf, DatedWarnings, AllStatementsFit, PointTotals, SectionsAreRight, MonthOf, StatementsOf, TotalsOf;
    var years, cs := SortYears(config.fiscalYears), SortClassifications(config.classifications);
    SelectedPeriod(years, 0, selected);
    GoodAreValid(entries);
    var index := SelectPeriod(years, 0, selected).value.index;
    var span, ms := SpanOf(years[index]), TrendMonths(years, index, entries, cs);
    PointCount(span, ms, 12);
    DatedIff(report.points, w);
    forall i | 0 <= i < 12
      ensures report.points[i].period.period == MonthOf(span, i + 1)
      ensures w.warning in report.points[i].warnings <==> MonthWarns(years, index, i + 1, entries, cs, w.warning)
    {
      PeriodsAt(span, i + 1);
      PointOfItems(years, index, i + 1, entries, cs);
      PointWarningsAre(PointTotals(ms, i), TrendItems(years, index, i + 1, entries, cs), TrendItems(years, index, 12, entries, cs), w.warning);
    }
    if i :| 0 <= i < 12 && w.warning in report.points[i].warnings && w.periodEnd == report.points[i].period.period.endDate {
      assert w.periodEnd == MonthOf(span, i + 1).endDate && MonthWarns(years, index, i + 1, entries, cs, w.warning);
    }
    if m :| 1 <= m <= 12 && w.periodEnd == MonthOf(span, m).endDate && MonthWarns(years, index, m, entries, cs, w.warning) {
      assert w.warning in report.points[m - 1].warnings;
    }
  }
}
