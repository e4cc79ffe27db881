// The income statement's drill-down, and what every drill-down says.
module IncomeDrillDowns {
  import opened Results
  import opened Ledger
  import opened Accumulators
  import opened Accounts
  import opened Configurations
  import opened Movements
  import opened CarryForward
  import opened Bookkeeping
  import opened Rows
  import opened TrialBalances
  import opened Sections
  import opened StatementRows
  import opened Reports
  import opened Statements
  import opened Targets
  import opened TrendRefinement
  import opened Incomes
  import opened Explanations
  import opened DrillDowns

  function ByEntry(): Contribution -> string {
    (x: Contribution) => x.entry.id
  }

  function SumOf(items: seq<Contribution>): Accumulator {
    if items == [] then Unset else Plus(SumOf(items[..|items| - 1]), Of(items[|items| - 1].value))
  }

  lemma {:induction false} SumOfIsItemSum(items: seq<Contribution>)
    ensures SumOf(items) == ItemSum(items, AllKeys())
  {
    hide Plus, Of, Share;
    if items != [] {
      SumOfIsItemSum(items[..|items| - 1]);
      ShareOfAll(items[|items| - 1]);
    }
  }

  lemma SumOfStep(items: seq<Contribution>, x: Contribution)
    ensures SumOf(items + [x]) == Plus(SumOf(items), Of(x.value)) && SumOf([]) == Unset
  {
    hide Plus, Of;
    assert (items + [x])[..|items|] == items;
  }

  function IncomeDraft(group: seq<Contribution>): IncomeEntry
    requires group != []
  {
    var first := group[0].entry;
    IncomeEntry(first.id, TimeText(first.entry.date), first.entry.description, ShownPostings(group), NoBalance)
  }

  function IncomeEntryOf(group: seq<Contribution>): IncomeEntry
    requires group != []
  {
    IncomeDraft(group).(balance := BalanceText(SumOf(group)))
  }

  function IncomeEntries(items: seq<Contribution>): seq<IncomeEntry> {
    var n := |FirstKeys(items, ByEntry())|;
    seq(n, i requires 0 <= i < n => IncomeEntryOf(GroupAt(items, ByEntry(), i)))
  }

  predicate IncomeEntriesFit(items: seq<Contribution>) {
    forall i | 0 <= i < |FirstKeys(items, ByEntry())| :: Fits(SumOf(GroupAt(items, ByEntry(), i)))
  }

  ghost predicate IncomeSoFar(result: seq<IncomeEntry>, sums: seq<Accumulator>, indexes: map<string, nat>, items: seq<Contribution>) {
    var keys := FirstKeys(items, ByEntry());
    && |result| == |sums| == |keys|
    && Indexed(indexes, items, ByEntry())
    && (forall i | 0 <= i < |keys| :: result[i] == IncomeDraft(GroupAt(items, ByEntry(), i)))
    && (forall i | 0 <= i < |keys| :: sums[i] == SumOf(GroupAt(items, ByEntry(), i)))
  }

  lemma IncomeDraftStep(group: seq<Contribution>, x: Contribution)
    requires group != []
    ensures IncomeDraft(group + [x]) == IncomeDraft(group).(contributions := IncomeDraft(group).contributions + [ShownPosting(x)])
  {
    hide ShownPostings, ShownPosting;
    ShownStep(group, x);
    assert (group + [x])[0] == group[0];
  }

  lemma IncomeDraftOne(x: Contribution)
    ensures IncomeDraft([x]) ==
            IncomeEntry(x.entry.id, TimeText(x.entry.entry.date), x.entry.entry.description, [ShownPosting(x)], NoBalance)
    ensures SumOf([x]) == Plus(Unset, Of(x.value))
  {
    hide ShownPosting, Plus;
    assert [x][..0] == [];
  }

  lemma IncomeKnown(
    result: seq<IncomeEntry>, sums: seq<Accumulator>, indexes: map<string, nat>, items: seq<Contribution>, x: Contribution)
    requires IncomeSoFar(result, sums, indexes, items) && ByEntry()(x) in indexes
    ensures var index := indexes[ByEntry()(x)];
            && index < |result| == |sums|
            && IncomeSoFar(result[index := result[index].(contributions := result[index].contributions + [ShownPosting(x)])],
                           sums[index := Plus(sums[index], Of(x.value))], indexes, items + [x])
  {
    hide FirstKeys, GroupAt, IncomeDraft, SumOf, Plus, Of, ShownPosting, ByEntry, Indexed;
    IndexedNew(indexes, items, x, ByEntry());
    var index := indexes[ByEntry()(x)];
    GroupsKnown(items, x, ByEntry(), index);
    IncomeDraftStep(GroupAt(items, ByEntry(), index), x);
    SumOfStep(GroupAt(items, ByEntry(), index), x);
  }

  lemma IncomeNew(
    result: seq<IncomeEntry>, sums: seq<Accumulator>, indexes: map<string, nat>, items: seq<Contribution>, x: Contribution)
    requires IncomeSoFar(result, sums, indexes, items) && ByEntry()(x) !in indexes
    ensures IncomeSoFar(result + [IncomeDraft([x])], sums + [Plus(Unset, Of(x.value))], indexes[ByEntry()(x) := |result|], items + [x])
  {
    hide FirstKeys, GroupAt, IncomeDraft, SumOf, Plus, Of, ShownPosting, ByEntry, Indexed;
    IndexedNew(indexes, items, x, ByEntry());
    GroupsNew(items, x, ByEntry());
    IncomeDraftOne(x);
    var more, n := items + [x], |result|;
    forall i | 0 <= i < n + 1
      ensures (result + [IncomeDraft([x])])[i] == IncomeDraft(GroupAt(more, ByEntry(), i))
      ensures (sums + [Plus(Unset, Of(x.value))])[i] == SumOf(GroupAt(more, ByEntry(), i))
    {
      if i < n {
        assert GroupAt(more, ByEntry(), i) == GroupAt(items, ByEntry(), i);
      }
    }
  }

  lemma IncomeSizes(result: seq<IncomeEntry>, sums: seq<Accumulator>, indexes: map<string, nat>, items: seq<Contribution>)
    requires IncomeSoFar(result, sums, indexes, items)
    ensures |result| == |sums|
  {
  }

  method AddIncomeContribution(
    result: seq<IncomeEntry>, sums: seq<Accumulator>, indexes: map<string, nat>, ghost items: seq<Contribution>, x: Contribution)
      returns (result': seq<IncomeEntry>, sums': seq<Accumulator>, indexes': map<string, nat>)
    requires IncomeSoFar(result, sums, indexes, items)
    ensures IncomeSoFar(result', sums', indexes', items + [x])
  {
    hide IncomeSoFar, IncomeDraft, Plus, Of, ShownPosting, FirstKeys, GroupAt;
    result', sums', indexes' := result, sums, indexes;
    var id := x.entry.id;
    assert id == ByEntry()(x);
    if id !in indexes {
      indexes' := indexes[id := |result|];
      result' := result + [IncomeEntry(id, TimeText(x.entry.entry.date), x.entry.entry.description, [], NoBalance)];
      sums' := sums + [Unset];
      IncomeNew(result, sums, indexes, items, x);
      IncomeDraftOne(x);
      IncomeSizes(result, sums, indexes, items);
    } else {
      IncomeKnown(result, sums, indexes, items, x);
    }
    var index := indexes'[id];
    result' := result'[index := result'[index].(contributions := result'[index].contributions + [ShownPosting(x)])];
    sums' := sums'[index := Plus(sums'[index], Of(x.value))];
    if id !in indexes {
      ghost var none: seq<PostingContribution> := [];
      assert none + [ShownPosting(x)] == [ShownPosting(x)];
      assert result' == result + [IncomeDraft([x])];
      assert sums' == sums + [Plus(Unset, Of(x.value))];
    }
  }

  lemma NoIncomeSoFar()
    ensures IncomeSoFar([], [], map[], []) && SumOf([]) == Unset
  {
  }

  method GroupIncome(items: seq<Contribution>, q: Query)
      returns (result: seq<IncomeEntry>, sums: seq<Accumulator>, total: Accumulator, ghost indexes: map<string, nat>)
    ensures IncomeSoFar(result, sums, indexes, Keep(items, MatchOf(q)))
    ensures total == SumOf(Keep(items, MatchOf(q)))
  {
    hide IncomeSoFar, Keep, Plus, Of, SumOf, ContributionMatches;
    result, sums, total := [], [], Unset;
    var known: map<string, nat> := map[];
    ghost var f := MatchOf(q);
    assert items[..0] == [];
    NothingKeptOf(f);
    NoIncomeSoFar();
    for n := 0 to |items|
      invariant IncomeSoFar(result, sums, known, Keep(items[..n], f))
      invariant total == SumOf(Keep(items[..n], f))
    {
      var item := items[n];
      KeepStep(items, f, n);
      SumOfStep(Keep(items[..n], f), item);
      if !ContributionMatches(item, q) {
        continue;
      }
      result, sums, known := AddIncomeContribution(result, sums, known, Keep(items[..n], f), item);
      total := Plus(total, Of(item.value));
    }
    assert items[..|items|] == items;
    indexes := known;
  }

  lemma IncomeFilled(items: seq<Contribution>, i: nat)
    requires i < |FirstKeys(items, ByEntry())|
    ensures |IncomeEntries(items)| == |FirstKeys(items, ByEntry())|
    ensures IncomeEntries(items)[i] ==
            IncomeDraft(GroupAt(items, ByEntry(), i)).(balance := BalanceText(SumOf(GroupAt(items, ByEntry(), i))))
  {
    hide FirstKeys, GroupAt, IncomeDraft, SumOf, BalanceText;
  }

  lemma IncomeEntryCount(items: seq<Contribution>)
    ensures |IncomeEntries(items)| == |FirstKeys(items, ByEntry())|
  {
    hide FirstKeys, GroupAt, IncomeEntryOf;
  }

  datatype IncomeExplanation = IncomeExplanation(entries: seq<IncomeEntry>, balance: Balance)

  // incomeStatementContributionEntries
  method IncomeContributionEntries(items: seq<Contribution>, q: Query) returns (r: Result<IncomeExplanation, ReportError>)
    ensures var kept := Keep(items, MatchOf(q));
            r == if IncomeEntriesFit(kept) && Fits(SumOf(kept))
                 then Ok(IncomeExplanation(IncomeEntries(kept), BalanceText(SumOf(kept)))) else Err(AmountOverflow)
  {
    hide FirstKeys, GroupAt, IncomeDraft, SumOf, BalanceText, Fits, IncomeEntries, Keep, Indexed, MatchOf;
    var result, sums, total, indexes := GroupIncome(items, q);
    ghost var kept := Keep(items, MatchOf(q));
    ghost var drafts := result;
    IncomeEntryCount(kept);
    for index := 0 to |result|
      invariant |result| == |drafts|
      invariant forall i | 0 <= i < index :: result[i] == IncomeEntries(kept)[i]
      invariant forall i | index <= i < |drafts| :: result[i] == drafts[i]
      invariant forall i | 0 <= i < index :: Fits(SumOf(GroupAt(kept, ByEntry(), i)))
    {
      var balance := FormatBalance(sums[index]);
      if balance.Err? {
        return Err(AmountOverflow);
      }
      IncomeFilled(kept, index);
      result := result[index := result[index].(balance := balance.value)];
    }
    assert result == IncomeEntries(kept);
    var balance := FormatBalance(total);
    if balance.Err? {
      return Err(AmountOverflow);
    }
    return Ok(IncomeExplanation(result, balance.value));
  }

  // ---------------------------------------------------- the rebuilt balance

  lemma SectionTargetFits(m: Totals, q: Query)
    requires AllStatementsFit(m) && SectionTarget(m, q).Some?
    ensures var direct := DirectSums(q.commodity, q.category, m);
            Fits(Get(direct, q.account)) && Fits(Rolled(direct, q.account))
  {
    hide DirectSums, CommoditiesIn, Fits, TotalSum, SumOver, Rolled, Get, Names, BalanceText;
    SummedCommodity(m, q);
    var names := CommoditiesIn(m);
    var i :| 0 <= i < |names| && names[i] == q.commodity;
    assert StatementFits(names[i], m);
    var x := CategoryListed(q.category);
    assert StatementGroupFits(DirectSums(q.commodity, CategoryOrder[x], m));
  }

  lemma FilteredCategory(m: Totals, C: set<Category>, q: Query)
    requires SectionTarget(FilterTotals(m, C), q).Some?
    ensures q.category in C
  {
    hide Names;
    var direct := DirectSums(q.commodity, q.category, FilterTotals(m, C));
    NamesAreAncestors(direct.Keys, q.account);
    var a :| a in direct;
  }

  lemma CellInCategories(q: Query, C: set<Category>)
    requires q.category in C
    ensures QueryKeys(q) * (iset k: AmountKey | k.category in C) == QueryKeys(q)
  {
    hide Under;
  }

  lemma QueryFigure(m: Totals, q: Query)
    requires q.scope != UnknownScope
    ensures var direct := DirectSums(q.commodity, q.category, m);
            (if q.scope == DirectScope then Get(direct, q.account) else Rolled(direct, q.account)) == TotalSum(m, QueryKeys(q))
  {
    hide DirectSums, TotalSum, Cell, Get, Rolled, Just;
    RolledIsCell(q.commodity, q.category, m, q.account);
  }

  lemma RebuiltIsBalance(items: seq<Contribution>, q: Query)
    requires q.scope != UnknownScope
    ensures var m := FilterTotals(Tally(items), IncomeCategories);
            var rebuilt := SumOf(Keep(items, MatchOf(q)));
            && (SectionTarget(m, q).Some? ==> SectionTarget(m, q).value == BalanceText(rebuilt))
            && (SectionTarget(m, q).Some? && AllStatementsFit(m) ==> Fits(rebuilt))
  {
    hide DirectSums, Tally, Keep, MatchOf, SumOf, ItemSum, TotalSum, BalanceText, Names, Rolled, Get, QueryKeys, FilterTotals, AllStatementsFit, Fits;
    var m, kept := FilterTotals(Tally(items), IncomeCategories), Keep(items, MatchOf(q));
    if SectionTarget(m, q).Some? {
      FilteredCategory(Tally(items), IncomeCategories, q);
      CellInCategories(q, IncomeCategories);
      FilterSum(Tally(items), IncomeCategories, QueryKeys(q));
      TallySum(items, QueryKeys(q));
      MatchedSum(items, q);
      SumOfIsItemSum(kept);
      QueryFigure(m, q);
      if AllStatementsFit(m) {
        SectionTargetFits(m, q);
      }
    }
  }

  ghost function IncomeDrillDownOn(revision: int, period: FiscalPeriod, q: Query, items: seq<Contribution>)
      : Result<IncomeDrillDown, ReportError>
  {
    var m := FilterTotals(Tally(items), IncomeCategories);
    if !AllStatementsFit(m) then Err(AmountOverflow)
    else
      var target, kept := SectionTarget(m, q), Keep(items, MatchOf(q));
      if target.None? then Err(InvalidDrillDown)
      else if !IncomeEntriesFit(kept) then Err(AmountOverflow)
      else Ok(IncomeDrillDown(revision, period, q, target.value, IncomeEntries(kept)))
  }

  ghost function IncomeDrillDownFor(config: Configuration, entries: seq<Entry>, q: Query): Result<IncomeDrillDown, ReportError> {
    if !ValidConfiguration(config) then Err(BadConfiguration)
    else if !GoodQuery(q) then Err(InvalidDrillDown)
    else
      var years, cs := SortYears(config.fiscalYears), SortClassifications(config.classifications);
      var choice := SelectIncomePeriod(years, q.period);
      if choice.None? then Err(InvalidPeriod)
      else if !GoodEntries(entries) then Err(InvalidEntries)
      else
        SelectedIncomePeriod(years, q.period);
        GoodAreValid(entries);
        IncomeDrillDownOn(config.revision, choice.value.period, q, PeriodItems(years, choice.value, entries, cs))
  }

  method CompareIncome(
    revision: int, period: FiscalPeriod, q: Query, amounts: Totals, sections: seq<StatementSection>, items: seq<Contribution>)
      returns (r: Result<IncomeDrillDown, ReportError>)
    requires q.scope != UnknownScope && amounts == FilterTotals(Tally(items), IncomeCategories)
    requires AllStatementsFit(amounts) && sections == StatementSections(CommoditiesIn(amounts), amounts)
    ensures r == IncomeDrillDownOn(revision, period, q, items)
    ensures r != Err(InvalidEntry)
  {
    hide Tally, Keep, MatchOf, SumOf, BalanceText, FilterTotals, AllStatementsFit, Fits, CommoditiesIn, StatementSections, SectionTarget, IncomeEntries, IncomeEntriesFit;
    var target := FindSectionTarget(sections, q, amounts);
    if target.None? {
      return Err(InvalidDrillDown);
    }
    RebuiltIsBalance(items, q);
    var explained := IncomeContributionEntries(items, q);
    if explained.Err? {
      return Err(AmountOverflow);
    }
    if explained.value.balance != target.value {
      assert false;
      return Err(InvalidEntry);
    }
    return Ok(IncomeDrillDown(revision, period, q, target.value, explained.value.entries));
  }

  // BuildIncomeStatementDrillDown: the rebuilt balance always equals the row.
  method BuildIncomeStatementDrillDown(config: Configuration, entries: seq<Entry>, q: Query)
      returns (r: Result<IncomeDrillDown, ReportError>)
    ensures r == IncomeDrillDownFor(config, entries, q)
    ensures r != Err(InvalidEntry)
  {
    hide ValidConfiguration, GoodYears, SortYears, SortClassifications, SelectIncomePeriod, GoodEntries, AllEntriesValid, StatementsOf, AllStatementsFit, MovementItems, Tally, TextPeriod, CommoditiesIn, FilterTotals, NetOf, IncomeDrillDownOn, ValidAccount, StatementSections;
    var fault := ValidateConfiguration(config);
    if fault.Some? {
      return Err(BadConfiguration);
    }
    if !GoodQuery(q) {
      return Err(InvalidDrillDown);
    }
    var years, cs := SortYears(config.fiscalYears), SortClassifications(config.classifications);
    ValidYears(config);
    var choice := ChooseIncomePeriod(config.startMonth, years, q.period);
    if choice.None? {
      return Err(InvalidPeriod);
    }
    SelectedIncomePeriod(years, q.period);
    var s := choice.value;
    var validated := ValidateEntries(entries);
    if validated.None? {
      return Err(InvalidEntries);
    }
    GoodAreValid(entries);
    r := DrillIntoIncome(config.revision, q, years, s, entries, cs);
  }

  method DrillIntoIncome(
    revision: int, q: Query, years: seq<FiscalYear>, s: Selection, entries: seq<Entry>, cs: seq<Classification>)
      returns (r: Result<IncomeDrillDown, ReportError>)
    requires s.index < |years| && AllEntriesValid(entries) && q.scope != UnknownScope && TextPeriod(s.period.period)
    ensures r == IncomeDrillDownOn(revision, s.period, q, PeriodItems(years, s, entries, cs))
    ensures r != Err(InvalidEntry)
  {
    hide AllEntriesValid, AllStatementsFit, MovementItems, Tally, TextPeriod, CommoditiesIn, FilterTotals, NetOf, StatementSections, SectionTarget, Keep, StatementsWarnings, StatementsComplete;
    var collector := new ProvenanceCollector();
    var debits, credits := CollectMovementsCollected(entries, s.period.period, years[s.index].openingEntryIDs, cs, collector);
    ghost var items := PeriodItems(years, s, entries, cs);
    assert [] + items == items;
    var net := NetMovements(debits.sums, credits.sums);
    NetIsTally(items);
    var amounts := FilterAmounts(net, IncomeCategories);
    var statements := AssembleStatements(amounts);
    if statements.Err? {
      return Err(AmountOverflow);
    }
    r := CompareIncome(revision, s.period, q, amounts, statements.value.sections, collector.items);
  }

  // -------------------------------------------- what a drill-down says

  // The listed balances of the entries, read back and added.
  function ListedBalance(entries: seq<IncomeEntry>): Accumulator {
    if entries == [] then Sum(0, 0)
    else Plus(ListedBalance(entries[..|entries| - 1]), ParseBalance(entries[|entries| - 1].balance))
  }

  lemma {:induction false} ListedIsGroups(items: seq<Contribution>, n: nat)
    requires IncomeEntriesFit(items) && n <= |FirstKeys(items, ByEntry())|
    ensures |IncomeEntries(items)| == |FirstKeys(items, ByEntry())|
    ensures ListedBalance(IncomeEntries(items)[..n]) ==
            Norm(GroupTotals(items, ByEntry(), FirstKeys(items, ByEntry())[..n], AllKeys()))
  {
    hide Plus, Norm, ParseBalance, BalanceText, SumOf, ItemSum, FirstKeys, Fits, IncomeDraft;
    IncomeEntryCount(items);
    var keys, listed := FirstKeys(items, ByEntry()), IncomeEntries(items);
    NormOfUnset();
    if n > 0 {
      ListedIsGroups(items, n - 1);
      IncomeFilled(items, n - 1);
      var group := GroupAt(items, ByEntry(), n - 1);
      SumOfIsItemSum(group);
      ReparseBalance(SumOf(group));
      assert listed[..n][..n - 1] == listed[..n - 1] && keys[..n][..n - 1] == keys[..n - 1];
      NormPlus(GroupTotals(items, ByEntry(), keys[..n - 1], AllKeys()), ItemSum(group, AllKeys()));
    }
  }

  // A drill-down into an income statement lists its figure completely: the
  // printed balances of its entries add up exactly to the printed balance.
  lemma IncomeDrillDownAddsUp(config: Configuration, entries: seq<Entry>, q: Query, report: IncomeDrillDown)
    requires IncomeDrillDownFor(config, entries, q) == Ok(report)
    ensures ListedBalance(report.entries) == ParseBalance(report.balance)
  {
    hide ValidConfiguration, SortYears, SortClassifications, SelectIncomePeriod, GoodEntries, AllEntriesValid, PeriodItems, IncomeDrillDownOn, ListedBalance, ParseBalance, ValidAccount;
    var years, cs := SortYears(config.fiscalYears), SortClassifications(config.classifications);
    SelectedIncomePeriod(years, q.period);
    GoodAreValid(entries);
    var s := SelectIncomePeriod(years, q.period).value;
    IncomeListAddsUp(config.revision, s.period, q, PeriodItems(years, s, entries, cs), report);
  }

  lemma IncomeListAddsUp(revision: int, period: FiscalPeriod, q: Query, items: seq<Contribution>, report: IncomeDrillDown)
    requires q.scope != UnknownScope && IncomeDrillDownOn(revision, period, q, items) == Ok(report)
    ensures ListedBalance(report.entries) == ParseBalance(report.balance)
  {
    hide Plus, Norm, ParseBalance, BalanceText, SumOf, ItemSum, FirstKeys, Fits, AllStatementsFit, Tally, SectionTarget, Keep, MatchOf, IncomeEntries, IncomeEntriesFit, ListedBalance, FilterTotals;
    var kept := Keep(items, MatchOf(q));
    RebuiltIsBalance(items, q);
    var n := |FirstKeys(kept, ByEntry())|;
    ListedIsGroups(kept, n);
    assert FirstKeys(kept, ByEntry())[..n] == FirstKeys(kept, ByEntry());
    assert IncomeEntries(kept)[..n] == IncomeEntries(kept);
    GroupsAddUp(kept, ByEntry(), AllKeys());
    SumOfIsItemSum(kept);
    ReparseBalance(SumOf(kept));
  }
}
