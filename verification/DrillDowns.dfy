// Drill-downs: a figure of a report with the entries and postings behind it,
// rebuilt from the collected contributions and compared with the report.
module DrillDowns {
  import opened Results
  import opened Decimals
  import opened Ledger
  import opened Accumulators
  import opened Configurations
  import opened Movements
  import opened CarryForward
  import opened Bookkeeping
  import opened Rows
  import opened TrialBalances
  import opened Sections
  import opened Reports
  import opened Targets
  import opened Explanations

  datatype PostingContribution = PostingContribution(postingIndex: nat, account: string, amount: string, commodity: string)

  datatype TrialEntry = TrialEntry(
    id: string, occurredAt: string, description: string, role: Role, contributions: seq<PostingContribution>, amounts: Amounts)

  datatype TrialBalanceDrillDown = TrialBalanceDrillDown(
    revision: int, period: FiscalPeriod, query: Query, amounts: Amounts, entries: seq<TrialEntry>)

  datatype IncomeEntry = IncomeEntry(
    id: string, occurredAt: string, description: string, contributions: seq<PostingContribution>, balance: Balance)

  datatype IncomeDrillDown = IncomeDrillDown(
    revision: int, period: FiscalPeriod, query: Query, balance: Balance, entries: seq<IncomeEntry>)

  // validateDrillDownQuery, after the configuration.
  predicate GoodQuery(q: Query) {
    ValidAccount(q.account) && q.commodity != "" && !HasLineBreak(q.commodity) && q.scope != UnknownScope
  }

  function ShownPosting(x: Contribution): PostingContribution {
    PostingContribution(x.postingIndex, x.key.account, ToString(x.value), x.key.commodity)
  }

  function ShownPostings(items: seq<Contribution>): seq<PostingContribution> {
    seq(|items|, i requires 0 <= i < |items| => ShownPosting(items[i]))
  }

  lemma ShownStep(items: seq<Contribution>, x: Contribution)
    ensures ShownPostings(items + [x]) == ShownPostings(items) + [ShownPosting(x)]
    ensures ShownPostings([]) == []
  {
    hide ShownPosting;
  }

  // ------------------------------------------------- entries of a trial balance

  datatype RoleKey = RoleKey(role: Role, id: string)

  function ByRole(): Contribution -> RoleKey {
    (x: Contribution) => RoleKey(x.role, x.entry.id)
  }

  const NoBalance := Balance("", "")

  const NoAmounts := Amounts(NoBalance, "", "", NoBalance)

  function TrialDraft(group: seq<Contribution>): TrialEntry
    requires group != []
  {
    var first := group[0].entry;
    TrialEntry(first.id, TimeText(first.entry.date), first.entry.description, group[0].role, ShownPostings(group), NoAmounts)
  }

  function TrialEntryOf(group: seq<Contribution>): TrialEntry
    requires group != []
  {
    TrialDraft(group).(amounts := RowText(Explained(group)))
  }

  function GroupAt<K(==)>(items: seq<Contribution>, key: Contribution -> K, i: nat): (group: seq<Contribution>)
    requires i < |FirstKeys(items, key)|
    ensures group != []
  {
    GroupsNonempty(items, key, FirstKeys(items, key)[i]);
    Members(items, key, FirstKeys(items, key)[i])
  }

  // The entries explaining a figure, in order of first appearance.
  function TrialEntries(items: seq<Contribution>): seq<TrialEntry> {
    var n := |FirstKeys(items, ByRole())|;
    seq(n, i requires 0 <= i < n => TrialEntryOf(GroupAt(items, ByRole(), i)))
  }

  predicate EntriesFit(items: seq<Contribution>) {
    forall i | 0 <= i < |FirstKeys(items, ByRole())| :: RowFits(Explained(GroupAt(items, ByRole(), i)))
  }

  // Where each group stands in the lists built so far.
  ghost predicate Indexed<K(!new)>(indexes: map<K, nat>, items: seq<Contribution>, key: Contribution -> K) {
    var keys := FirstKeys(items, key);
    && (forall k :: k in indexes <==> k in keys)
    && (forall k | k in indexes :: indexes[k] < |keys| && keys[indexes[k]] == k)
  }

  // What adding one contribution does to the groups.
  lemma GroupsStep<K>(items: seq<Contribution>, x: Contribution, key: Contribution -> K)
    ensures var keys, next := FirstKeys(items, key), FirstKeys(items + [x], key);
            && |keys| <= |next| && next[..|keys|] == keys
            && (if key(x) in keys then next == keys else next == keys + [key(x)])
    ensures forall i | 0 <= i < |FirstKeys(items, key)| ::
              GroupAt(items + [x], key, i) ==
              (if FirstKeys(items, key)[i] == key(x) then GroupAt(items, key, i) + [x] else GroupAt(items, key, i))
    ensures key(x) !in FirstKeys(items, key) ==> GroupAt(items + [x], key, |FirstKeys(items, key)|) == [x]
  {
    hide Members, FirstKeys;
    FirstKeysStep(items, x, key);
    var keys := FirstKeys(items, key);
    forall i | 0 <= i < |keys|
      ensures GroupAt(items + [x], key, i) ==
              (if keys[i] == key(x) then GroupAt(items, key, i) + [x] else GroupAt(items, key, i))
    {
      MembersStep(items, x, key, keys[i]);
    }
    MembersStep(items, x, key, key(x));
    GroupsNonempty(items, key, key(x));
    assert key(x) !in keys ==> [] + [x] == [x];
  }

  lemma GroupsNew<K>(items: seq<Contribution>, x: Contribution, key: Contribution -> K)
    requires key(x) !in FirstKeys(items, key)
    ensures FirstKeys(items + [x], key) == FirstKeys(items, key) + [key(x)]
    ensures forall i | 0 <= i < |FirstKeys(items, key)| :: GroupAt(items + [x], key, i) == GroupAt(items, key, i)
    ensures GroupAt(items + [x], key, |FirstKeys(items, key)|) == [x]
  {
    hide FirstKeys, GroupAt;
    GroupsStep(items, x, key);
    assert forall i | 0 <= i < |FirstKeys(items, key)| :: FirstKeys(items, key)[i] in FirstKeys(items, key);
  }

  lemma GroupsKnown<K>(items: seq<Contribution>, x: Contribution, key: Contribution -> K, index: nat)
    requires index < |FirstKeys(items, key)| && FirstKeys(items, key)[index] == key(x)
    ensures FirstKeys(items + [x], key) == FirstKeys(items, key)
    ensures forall i | 0 <= i < |FirstKeys(items, key)| && i != index :: GroupAt(items + [x], key, i) == GroupAt(items, key, i)
    ensures GroupAt(items + [x], key, index) == GroupAt(items, key, index) + [x]
  {
    hide FirstKeys, GroupAt;
    GroupsStep(items, x, key);
    KeysApart(items, key);
  }

  ghost predicate TrialSoFar(result: seq<TrialEntry>, sums: seq<RowSums>, indexes: map<RoleKey, nat>, items: seq<Contribution>) {
    var keys := FirstKeys(items, ByRole());
    && |result| == |sums| == |keys|
    && Indexed(indexes, items, ByRole())
    && (forall i | 0 <= i < |keys| :: result[i] == TrialDraft(GroupAt(items, ByRole(), i)))
    && (forall i | 0 <= i < |keys| :: sums[i] == Explained(GroupAt(items, ByRole(), i)))
  }

  lemma DraftStep(group: seq<Contribution>, x: Contribution)
    requires group != []
    ensures TrialDraft(group + [x]) == TrialDraft(group).(contributions := TrialDraft(group).contributions + [ShownPosting(x)])
  {
    hide ShownPostings, ShownPosting;
    ShownStep(group, x);
    assert (group + [x])[0] == group[0];
  }

  lemma DraftOne(x: Contribution)
    ensures TrialDraft([x]) ==
            TrialEntry(x.entry.id, TimeText(x.entry.entry.date), x.entry.entry.description, x.role, [ShownPosting(x)], NoAmounts)
    ensures Explained([x]) == ExplainStep(NoSums, x)
  {
    hide ShownPosting, ExplainStep;
    assert [x][..0] == [];
  }

  // Registers the group of a contribution when it is its first.
  lemma IndexedNew<K(!new)>(indexes: map<K, nat>, items: seq<Contribution>, x: Contribution, key: Contribution -> K)
    requires Indexed(indexes, items, key)
    ensures key(x) in indexes <==> key(x) in FirstKeys(items, key)
    ensures key(x) in indexes ==>
              indexes[key(x)] < |FirstKeys(items, key)| && FirstKeys(items, key)[indexes[key(x)]] == key(x)
    ensures key(x) in indexes ==> Indexed(indexes, items + [x], key)
    ensures key(x) !in indexes ==> Indexed(indexes[key(x) := |FirstKeys(items, key)|], items + [x], key)
  {
    hide FirstKeys;
    FirstKeysStep(items, x, key);
  }

  lemma TrialKnown(
    result: seq<TrialEntry>, sums: seq<RowSums>, indexes: map<RoleKey, nat>, items: seq<Contribution>, x: Contribution)
    requires TrialSoFar(result, sums, indexes, items) && ByRole()(x) in indexes
    ensures var index := indexes[ByRole()(x)];
            && index < |result| == |sums|
            && TrialSoFar(result[index := result[index].(contributions := result[index].contributions + [ShownPosting(x)])],
                          sums[index := ExplainStep(sums[index], x)], indexes, items + [x])
  {
    hide FirstKeys, GroupAt, TrialDraft, Explained, ExplainStep, ShownPosting, ByRole, Indexed;
    IndexedNew(indexes, items, x, ByRole());
    var index := indexes[ByRole()(x)];
    GroupsKnown(items, x, ByRole(), index);
    DraftStep(GroupAt(items, ByRole(), index), x);
    ExplainedStep(GroupAt(items, ByRole(), index), x);
  }

  lemma TrialNew(
    result: seq<TrialEntry>, sums: seq<RowSums>, indexes: map<RoleKey, nat>, items: seq<Contribution>, x: Contribution)
    requires TrialSoFar(result, sums, indexes, items) && ByRole()(x) !in indexes
    ensures TrialSoFar(result + [TrialDraft([x])], sums + [ExplainStep(NoSums, x)], indexes[ByRole()(x) := |result|], items + [x])
  {
    hide FirstKeys, GroupAt, TrialDraft, Explained, ExplainStep, ShownPosting, ByRole, Indexed;
    IndexedNew(indexes, items, x, ByRole());
    GroupsNew(items, x, ByRole());
    DraftOne(x);
    var more, n := items + [x], |result|;
    forall i | 0 <= i < n + 1
      ensures (result + [TrialDraft([x])])[i] == TrialDraft(GroupAt(more, ByRole(), i))
      ensures (sums + [ExplainStep(NoSums, x)])[i] == Explained(GroupAt(more, ByRole(), i))
    {
      if i < n {
        assert GroupAt(more, ByRole(), i) == GroupAt(items, ByRole(), i);
      }
    }
  }

  // One contribution enters the lists.
  method AddTrialContribution(
    result: seq<TrialEntry>, sums: seq<RowSums>, indexes: map<RoleKey, nat>, ghost items: seq<Contribution>, x: Contribution)
      returns (result': seq<TrialEntry>, sums': seq<RowSums>, indexes': map<RoleKey, nat>)
    requires TrialSoFar(result, sums, indexes, items)
    ensures TrialSoFar(result', sums', indexes', items + [x])
  {
    hide TrialSoFar, TrialDraft, ExplainStep, ShownPosting, FirstKeys, GroupAt;
    result', sums', indexes' := result, sums, indexes;
    var groupKey := RoleKey(x.role, x.entry.id);
    assert groupKey == ByRole()(x);
    if groupKey !in indexes {
      indexes' := indexes[groupKey := |result|];
      result' := result + [TrialEntry(x.entry.id, TimeText(x.entry.entry.date), x.entry.entry.description, x.role, [], NoAmounts)];
      sums' := sums + [NoSums];
      TrialNew(result, sums, indexes, items, x);
      DraftOne(x);
      TrialSizes(result, sums, indexes, items);
    } else {
      TrialKnown(result, sums, indexes, items, x);
    }
    var index := indexes'[groupKey];
    result' := result'[index := result'[index].(contributions := result'[index].contributions + [ShownPosting(x)])];
    sums' := sums'[index := ExplainStep(sums'[index], x)];
    if groupKey !in indexes {
      ghost var none: seq<PostingContribution> := [];
      assert none + [ShownPosting(x)] == [ShownPosting(x)];
      assert result' == result + [TrialDraft([x])];
      assert sums' == sums + [ExplainStep(NoSums, x)];
    }
  }

  lemma TrialSizes(result: seq<TrialEntry>, sums: seq<RowSums>, indexes: map<RoleKey, nat>, items: seq<Contribution>)
    requires TrialSoFar(result, sums, indexes, items)
    ensures |result| == |sums|
  {
  }

  lemma NothingSoFar()
    ensures TrialSoFar([], [], map[], [])
  {
  }

  datatype TrialExplanation = TrialExplanation(entries: seq<TrialEntry>, amounts: Amounts)

  lemma KeepStep(items: seq<Contribution>, f: Contribution -> bool, n: nat)
    requires n < |items|
    ensures Keep(items[..n + 1], f) == (if f(items[n]) then Keep(items[..n], f) + [items[n]] else Keep(items[..n], f))
  {
    assert items[..n + 1][..n] == items[..n];
  }

  method GroupTrial(items: seq<Contribution>, q: Query)
      returns (result: seq<TrialEntry>, sums: seq<RowSums>, total: RowSums, ghost indexes: map<RoleKey, nat>)
    ensures TrialSoFar(result, sums, indexes, Keep(items, MatchOf(q)))
    ensures total == Explained(Keep(items, MatchOf(q)))
  {
    hide TrialSoFar, Keep, ExplainStep, Explained, ContributionMatches;
    result, sums, total := [], [], NoSums;
    var known: map<RoleKey, nat> := map[];
    ghost var f := MatchOf(q);
    assert items[..0] == [];
    NothingKeptOf(f);
    NothingSoFar();
    NoneExplained();
    for n := 0 to |items|
      invariant TrialSoFar(result, sums, known, Keep(items[..n], f))
      invariant total == Explained(Keep(items[..n], f))
    {
      var item := items[n];
      KeepStep(items, f, n);
      if !ContributionMatches(item, q) {
        continue;
      }
      ExplainedStep(Keep(items[..n], f), item);
      result, sums, known := AddTrialContribution(result, sums, known, Keep(items[..n], f), item);
      total := ExplainStep(total, item);
    }
    assert items[..|items|] == items;
    indexes := known;
  }

  lemma NothingKeptOf(f: Contribution -> bool)
    ensures Keep([], f) == []
  {
  }

  lemma DraftFilled(items: seq<Contribution>, i: nat)
    requires i < |FirstKeys(items, ByRole())|
    ensures |TrialEntries(items)| == |FirstKeys(items, ByRole())|
    ensures TrialEntries(items)[i] ==
            TrialDraft(GroupAt(items, ByRole(), i)).(amounts := RowText(Explained(GroupAt(items, ByRole(), i))))
  {
    hide FirstKeys, GroupAt, TrialDraft, Explained, RowText;
  }

  lemma TrialEntryCount(items: seq<Contribution>)
    ensures |TrialEntries(items)| == |FirstKeys(items, ByRole())|
  {
    hide FirstKeys, GroupAt, TrialEntryOf;
  }

  // trialBalanceContributionEntries
  method TrialContributionEntries(items: seq<Contribution>, q: Query) returns (r: Result<TrialExplanation, ReportError>)
    ensures var kept := Keep(items, MatchOf(q));
            r == if EntriesFit(kept) && RowFits(Explained(kept))
                 then Ok(TrialExplanation(TrialEntries(kept), RowText(Explained(kept)))) else Err(AmountOverflow)
  {
    hide FirstKeys, GroupAt, TrialDraft, Explained, RowText, RowFits, TrialEntries, Keep, Indexed, MatchOf;
    var result, sums, total, indexes := GroupTrial(items, q);
    ghost var kept := Keep(items, MatchOf(q));
    ghost var drafts := result;
    TrialEntryCount(kept);
    for index := 0 to |result|
      invariant |result| == |drafts|
      invariant forall i | 0 <= i < index :: result[i] == TrialEntries(kept)[i]
      invariant forall i | index <= i < |drafts| :: result[i] == drafts[i]
      invariant forall i | 0 <= i < index :: RowFits(Explained(GroupAt(kept, ByRole(), i)))
    {
      var amounts := FormatAmounts(sums[index]);
      if amounts.Err? {
        return Err(AmountOverflow);
      }
      DraftFilled(kept, index);
      result := result[index := result[index].(amounts := amounts.value)];
    }
    assert result == TrialEntries(kept);
    var amounts := FormatAmounts(total);
    if amounts.Err? {
      return Err(AmountOverflow);
    }
    return Ok(TrialExplanation(result, amounts.value));
  }

  // ---------------------------------------------------- the trial drill-down

  // The figure rebuilt from the matching contributions is the report's figure.
  lemma RebuiltIsTarget(opening: seq<Contribution>, movement: seq<Contribution>, q: Query)
    requires q.scope != UnknownScope && AllInRole(opening, OpeningRole) && AllInRole(movement, MovementRole)
    ensures var o, d, c := Tally(opening), Tally(Debits(movement)), Tally(Credits(movement));
            var rebuilt := Explained(Keep(opening + movement, MatchOf(q)));
            && (TrialTarget(o, d, c, q).Some? ==> TrialTarget(o, d, c, q).value == RowText(rebuilt))
            && (TrialTarget(o, d, c, q).Some? && ReportFits(o, d, c) ==> RowFits(rebuilt))
  {
    hide DirectRows, ReportFits, Tally, Debits, Credits, Keep, MatchOf, Explained, ItemRow, RowFits, RowText, Names, Subtotal, GetRow, Cell, AllInRole;
    var o, d, c := Tally(opening), Tally(Debits(movement)), Tally(Credits(movement));
    MatchesExplainRow(opening, movement, q);
    RollUp(q.commodity, q.category, opening, movement, q.account);
    if TrialTarget(o, d, c, q).Some? && ReportFits(o, d, c) {
      TargetFits(o, d, c, q);
    }
  }

  ghost function DrillDownOn(
    revision: int, period: FiscalPeriod, q: Query, opening: seq<Contribution>, movement: seq<Contribution>)
      : Result<TrialBalanceDrillDown, ReportError>
  {
    if !ReportOnFits(opening, movement) then Err(AmountOverflow)
    else
      var target := TrialTarget(Tally(opening), Tally(Debits(movement)), Tally(Credits(movement)), q);
      var kept := Keep(opening + movement, MatchOf(q));
      if target.None? then Err(InvalidDrillDown)
      else if !EntriesFit(kept) then Err(AmountOverflow)
      else Ok(TrialBalanceDrillDown(revision, period, q, target.value, TrialEntries(kept)))
  }

  ghost function TrialDrillDownFor(config: Configuration, entries: seq<Entry>, q: Query): Result<TrialBalanceDrillDown, ReportError> {
    if !ValidConfiguration(config) then Err(BadConfiguration)
    else if !GoodQuery(q) then Err(InvalidDrillDown)
    else
      var years, cs := SortYears(config.fiscalYears), SortClassifications(config.classifications);
      var choice := SelectPeriod(years, 0, q.period);
      if choice.None? then Err(InvalidPeriod)
      else if !GoodEntries(entries) then Err(InvalidEntries)
      else
        var s := choice.value;
        SelectedPeriod(years, 0, q.period);
        GoodAreValid(entries);
        if !OpeningExists(years, s.index, entries, cs) then Err(BadConfiguration)
        else
          DrillDownOn(config.revision, s.period, q, OpeningItems(years, s, entries, cs), PeriodItems(years, s, entries, cs))
  }

  // The comparison of the report's figure with the rebuilt one.
  method CompareTrial(
    revision: int, period: FiscalPeriod, q: Query, sections: seq<CommoditySection>, opening: seq<Contribution>,
    movement: seq<Contribution>) returns (r: Result<TrialBalanceDrillDown, ReportError>)
    requires q.scope != UnknownScope && AllInRole(opening, OpeningRole) && AllInRole(movement, MovementRole)
    requires ReportOnFits(opening, movement)
    requires sections == ReportOn(revision, period, opening, movement).commodities
    ensures r == DrillDownOn(revision, period, q, opening, movement)
    ensures r != Err(InvalidEntry)
  {
    hide AllInRole, ReportFits, Tally, Debits, Credits, SectionsOf, CommodityNames, TrialTarget, Keep, MatchOf, Explained, RowText, RowFits, EntriesFit, TrialEntries, SectionWarnings, AllComplete;
    ghost var o, d, c := Tally(opening), Tally(Debits(movement)), Tally(Credits(movement));
    var target := FindTrialTarget(sections, q, o, d, c);
    if target.None? {
      return Err(InvalidDrillDown);
    }
    RebuiltIsTarget(opening, movement, q);
    var explained := TrialContributionEntries(opening + movement, q);
    if explained.Err? {
      return Err(AmountOverflow);
    }
    if explained.value.amounts != target.value {
      assert false;
      return Err(InvalidEntry);
    }
    return Ok(TrialBalanceDrillDown(revision, period, q, target.value, explained.value.entries));
  }

  // BuildTrialBalanceDrillDown: the rebuilt amounts always equal the row.
  method BuildTrialBalanceDrillDown(config: Configuration, entries: seq<Entry>, q: Query)
      returns (r: Result<TrialBalanceDrillDown, ReportError>)
    ensures r == TrialDrillDownFor(config, entries, q)
    ensures r != Err(InvalidEntry)
  {
    hide ValidConfiguration, GoodYears, SortYears, SortClassifications, SelectPeriod, GoodEntries, AllEntriesValid, PeriodsOf, TrialBalanceOf, ReportFits, Carried, EarlierItems, MovementItems, SidedTotals, Post, TextPeriod, GoodSpan, OpeningExists, ValidAccount, DrillDownOn;
    var fault := ValidateConfiguration(config);
    if fault.Some? {
      return Err(BadConfiguration);
    }
    if !GoodQuery(q) {
      return Err(InvalidDrillDown);
    }
    var years, cs := SortYears(config.fiscalYears), SortClassifications(config.classifications);
    ValidYears(config);
    var choice := ChoosePeriod(config.startMonth, years, q.period);
    if choice.None? {
      return Err(InvalidPeriod);
    }
    SelectedPeriod(years, 0, q.period);
    var s := choice.value;
    var validated := ValidateEntries(entries);
    if validated.None? {
      return Err(InvalidEntries);
    }
    var openingCollector := new ProvenanceCollector();
    var ok, opening := BuildFiscalOpeningCollected(years, s.index, validated.value, entries, cs, openingCollector);
    if !ok {
      return Err(BadConfiguration);
    }
    YearIsGood(config, s.index);
    r := DrillIntoTrial(config.revision, q, years, s, entries, cs, opening, openingCollector);
  }

  method DrillIntoTrial(
    revision: int, q: Query, years: seq<FiscalYear>, s: Selection, entries: seq<Entry>, cs: seq<Classification>,
    opening: AmountMap, openingCollector: ProvenanceCollector) returns (r: Result<TrialBalanceDrillDown, ReportError>)
    requires s.index < |years| && AllEntriesValid(entries) && q.scope != UnknownScope
    requires GoodSpan(SpanOf(years[s.index])) && s.period in PeriodsOf(SpanOf(years[s.index]))
    requires opening.sums == Tally(Carried(years, s.index, entries, cs))
    requires openingCollector.items == Carried(years, s.index, entries, cs)
    modifies opening, openingCollector
    ensures r == DrillDownOn(revision, s.period, q, OpeningItems(years, s, entries, cs), PeriodItems(years, s, entries, cs))
    ensures r != Err(InvalidEntry)
  {
    hide AllEntriesValid, PeriodsOf, TrialBalanceOf, ReportFits, Carried, EarlierItems, MovementItems, SidedTotals, Post, TextPeriod, GoodSpan, AllInRole, TrialTarget, EntriesFit, SpanOf, Keep;
    PeriodIsText(s, SpanOf(years[s.index]));
    AddEarlier(opening, s, years[s.index], entries, cs, openingCollector);
    PostAppend(map[], Carried(years, s.index, entries, cs), EarlierItems(s, years[s.index], entries, cs));
    var movementCollector := new ProvenanceCollector();
    var debits, credits := CollectMovementsCollected(entries, s.period.period, years[s.index].openingEntryIDs, cs, movementCollector);
    assert [] + PeriodItems(years, s, entries, cs) == PeriodItems(years, s, entries, cs);
    SidesAreSided(PeriodItems(years, s, entries, cs));
    var report := AssembleTrialBalance(revision, s.period, opening.sums, debits.sums, credits.sums);
    if report.Err? {
      return Err(AmountOverflow);
    }
    SelectionRoles(years, s, entries, cs);
    r := CompareTrial(revision, s.period, q, report.value.commodities, openingCollector.items, movementCollector.items);
  }

  // -------------------------------------------- what a drill-down says

  // The listed amounts of the entries, read back and added column by column.
  function ListedAmounts(entries: seq<TrialEntry>): RowSums {
    if entries == [] then NormRow(NoSums)
    else AddRows(ListedAmounts(entries[..|entries| - 1]), SumsFromAmounts(entries[|entries| - 1].amounts))
  }

  lemma {:induction false} ListedIsTotals(items: seq<Contribution>, n: nat)
    requires EntriesFit(items) && n <= |FirstKeys(items, ByRole())|
    ensures |TrialEntries(items)| == |FirstKeys(items, ByRole())|
    ensures ListedAmounts(TrialEntries(items)[..n]) == NormRow(GroupRowTotals(items, ByRole(), FirstKeys(items, ByRole())[..n]))
  {
    hide NormRow, AddRows, SumsFromAmounts, RowText, Explained, FirstKeys, RowFits, TrialDraft, Sided;
    TrialEntryCount(items);
    var keys, listed := FirstKeys(items, ByRole()), TrialEntries(items);
    if n > 0 {
      ListedIsTotals(items, n - 1);
      DraftFilled(items, n - 1);
      var group := GroupAt(items, ByRole(), n - 1);
      ExplainedIsSided(group);
      ReparseRow(Explained(group));
      assert listed[..n][..n - 1] == listed[..n - 1] && keys[..n][..n - 1] == keys[..n - 1];
      NormAddRows(GroupRowTotals(items, ByRole(), keys[..n - 1]), Explained(group));
    }
  }

  lemma ListAddsUp(
    revision: int, period: FiscalPeriod, q: Query, opening: seq<Contribution>, movement: seq<Contribution>,
    report: TrialBalanceDrillDown)
    requires q.scope != UnknownScope && AllInRole(opening, OpeningRole) && AllInRole(movement, MovementRole)
    requires DrillDownOn(revision, period, q, opening, movement) == Ok(report)
    ensures ListedAmounts(report.entries) == SumsFromAmounts(report.amounts)
  {
    hide NormRow, AddRows, SumsFromAmounts, RowText, Explained, FirstKeys, RowFits, AllInRole, ReportFits, Tally, Debits, Credits, TrialTarget, Keep, MatchOf, TrialEntries, EntriesFit, ListedAmounts, Sided;
    var kept := Keep(opening + movement, MatchOf(q));
    RebuiltIsTarget(opening, movement, q);
    var n := |FirstKeys(kept, ByRole())|;
    ListedIsTotals(kept, n);
    assert FirstKeys(kept, ByRole())[..n] == FirstKeys(kept, ByRole());
    assert TrialEntries(kept)[..n] == TrialEntries(kept);
    GroupRowsAddUp(kept, ByRole());
    ExplainedIsSided(kept);
    ReparseRow(Explained(kept));
  }

  // A drill-down lists its figures completely: in every column, opening, debit,
  // credit and closing, the printed amounts of its entries add up exactly to
  // the printed amount of the row.
  lemma DrillDownAddsUp(config: Configuration, entries: seq<Entry>, q: Query, report: TrialBalanceDrillDown)
    requires TrialDrillDownFor(config, entries, q) == Ok(report)
    ensures ListedAmounts(report.entries) == SumsFromAmounts(report.amounts)
  {
    hide ValidConfiguration, SortYears, SortClassifications, SelectPeriod, GoodEntries, AllEntriesValid, OpeningItems, PeriodItems, DrillDownOn, ListedAmounts, SumsFromAmounts, OpeningExists, ValidAccount, AllInRole, PeriodsOf, TextPeriod;
    var years, cs := SortYears(config.fiscalYears), SortClassifications(config.classifications);
    SelectedPeriod(years, 0, q.period);
    GoodAreValid(entries);
    var s := SelectPeriod(years, 0, q.period).value;
    SelectionRoles(years, s, entries, cs);
    ListAddsUp(config.revision, s.period, q, OpeningItems(years, s, entries, cs), PeriodItems(years, s, entries, cs), report);
  }
}
