// What a drill-down lists: real postings of the ledger, with their amounts,
// adding up to what is printed for each entry.
module Listings {
  import opened Results
  import opened Decimals
  import opened Ledger
  import opened EntryRules
  import opened Accumulators
  import opened Configurations
  import opened Movements
  import opened CarryForward
  import opened Bookkeeping
  import opened Rows
  import opened TrialBalances
  import opened Sections
  import opened StatementRows
  import opened Reports
  import opened Provenance
  import opened Targets
  import opened Statements
  import opened Incomes
  import opened Explanations
  import opened DrillDowns
  import opened IncomeDrillDowns
  import opened Figures
  import opened StatementFigures

  // --------------------------------------------------- one listed posting

  // The listed line shows the posting of e with its index: the account, and the
  // price, else the stated amount, else what balances the other postings.
  ghost predicate ShowsPosting(c: PostingContribution, e: Entry) {
    && c.postingIndex < |e.entry.postings|
    && var ps := e.entry.postings;
    var p := ps[c.postingIndex];
    && c.account == p.account
    && match p.totalPrice
       case Some(price) => c.commodity == price.commodity && ParseDecimal(c.amount) == Ok(price.value)
       case None =>
         match p.amount
         case Some(amount) => c.commodity == amount.commodity && ParseDecimal(c.amount) == Ok(amount.value)
         case None =>
           && ps[0].amount.Some? && c.commodity == BalanceCommodity(ps[0])
           && var sum: Fixed := Fixed(-BalanceAt(ps, LargestScale(ps)), LargestScale(ps));
           ParseDecimal(c.amount).Ok? && ParseDecimal(c.amount).value == sum
  }

  lemma PostingIsShown(x: Contribution, e: Entry, i: nat, cs: seq<Classification>)
    requires IsPosting(x, e, i, cs)
    ensures ShowsPosting(ShownPosting(x), e)
  {
    hide ParseDecimal, ToString, Classify, BalanceAt, LargestScale, BalanceCommodity;
    ParseInvertsFormat(x.value);
  }

  // The listed line lies in the queried accounts.
  ghost predicate IsQueried(c: PostingContribution, q: Query) {
    && c.commodity == q.commodity
    && (c.account == q.account || (q.scope == SubtreeScope && q.account + ":" <= c.account))
  }

  // Every contribution comes from a posting of the ledger.
  ghost predicate FromLedger(items: seq<Contribution>, entries: seq<Entry>, cs: seq<Classification>) {
    forall x | x in items :: x.entry in entries && exists i: nat :: IsPosting(x, x.entry, i, cs)
  }

  lemma MovementsFromLedger(entries: seq<Entry>, p: Period, excluded: seq<string>, cs: seq<Classification>, role: Role)
    requires AllEntriesValid(entries)
    ensures FromLedger(MovementItems(entries, p, excluded, cs, role), entries, cs)
  {
    hide AllEntriesValid, MovementItems, IsPosting;
    forall x | x in MovementItems(entries, p, excluded, cs, role)
      ensures x.entry in entries && exists i: nat :: IsPosting(x, x.entry, i, cs)
    {
      MovementMembers(entries, p, excluded, cs, role, x);
      var e :| IsMovement(x, e, entries, p, excluded, cs);
      var i: nat :| IsPosting(x, e, i, cs);
      PostingInRange(x, e, i, cs);
    }
  }

  lemma CarriedFromLedger(years: seq<FiscalYear>, t: nat, entries: seq<Entry>, cs: seq<Classification>)
    requires t < |years| && GoodEntries(entries) && AllEntriesValid(entries) && OpeningExists(years, t, entries, cs)
    ensures FromLedger(Carried(years, t, entries, cs), entries, cs)
  {
    hide AllEntriesValid, GoodEntries, Carried, IsPosting, OpeningExists, YearPeriod;
    forall x | x in Carried(years, t, entries, cs)
      ensures x.entry in entries && exists i: nat :: IsPosting(x, x.entry, i, cs)
    {
      CarriedMembers(years, t, entries, cs, x);
      var r := LastReset(years, t);
      if r >= 0 && exists e :: IsOpeningPosting(x, e, entries, years[r].openingEntryIDs, cs) {
        var e :| IsOpeningPosting(x, e, entries, years[r].openingEntryIDs, cs);
        var i: nat :| IsPosting(x, e, i, cs);
        PostingInRange(x, e, i, cs);
      } else {
        var k: nat, e :| From(r) <= k < t && IsYearMovement(x, k, e, years, entries, cs);
        var i: nat :| IsPosting(x, e, i, cs);
        PostingInRange(x, e, i, cs);
      }
    }
  }

  lemma OpeningFromLedger(years: seq<FiscalYear>, s: Selection, entries: seq<Entry>, cs: seq<Classification>)
    requires s.index < |years| && GoodEntries(entries) && AllEntriesValid(entries) && OpeningExists(years, s.index, entries, cs)
    ensures FromLedger(OpeningItems(years, s, entries, cs), entries, cs)
  {
    hide AllEntriesValid, GoodEntries, Carried, IsPosting, OpeningExists, MovementItems, Calendar.PrevDay;
    CarriedFromLedger(years, s.index, entries, cs);
    var p := Period(s.period.fiscalYearStart, Calendar.PrevDay(s.period.period.startDate));
    MovementsFromLedger(entries, p, years[s.index].openingEntryIDs, cs, OpeningRole);
  }

  // ---------------------------------------------------- the listed amounts

  // The listed amounts, read back and added.
  function ReadBack(lines: seq<PostingContribution>): Accumulator {
    if lines == [] then Unset else Plus(ReadBack(lines[..|lines| - 1]), ParseAccumulator(lines[|lines| - 1].amount))
  }

  lemma {:induction false} ReadBackIsSum(items: seq<Contribution>)
    ensures ReadBack(ShownPostings(items)) == SumOf(items)
  {
    hide Plus, ParseDecimal, ToString;
    if items != [] {
      var front, last := items[..|items| - 1], items[|items| - 1];
      assert items == front + [last];
      ReadBackIsSum(front);
      ShownStep(front, last);
      ParseInvertsFormat(last.value);
    }
  }

  lemma SumIsSet(items: seq<Contribution>)
    requires items != []
    ensures SumOf(items).Sum?
  {
    SetIff(SumOf(items[..|items| - 1]), Of(items[|items| - 1].value));
  }

  // ------------------------------------------------ trial balance drill-downs

  // A listed entry is a ledger entry, and its lines are postings of it that lie
  // in the queried accounts and add up to its printed closing amount.
  ghost predicate ListsEntry(listed: TrialEntry, e: Entry, q: Query) {
    && listed.id == e.id && listed.occurredAt == TimeText(e.entry.date) && listed.description == e.entry.description
    && (forall c | c in listed.contributions :: ShowsPosting(c, e) && IsQueried(c, q))
    && ReadBack(listed.contributions) == ParseBalance(listed.amounts.closing)
    && (if listed.role == OpeningRole
        then listed.amounts == Amounts(listed.amounts.closing, "0", "0", listed.amounts.closing)
        else listed.amounts.opening == Balance("0", "0"))
  }

  // The contributions of one group.
  lemma GroupMember<K>(items: seq<Contribution>, key: Contribution -> K, i: nat, x: Contribution)
    requires i < |FirstKeys(items, key)|
    ensures x in GroupAt(items, key, i) <==> x in items && key(x) == FirstKeys(items, key)[i]
  {
    hide FirstKeys;
    KeepMembers(items, y => key(y) == FirstKeys(items, key)[i], x);
  }

  lemma ShownMember(items: seq<Contribution>, c: PostingContribution)
    ensures c in ShownPostings(items) <==> exists x :: x in items && c == ShownPosting(x)
  {
    hide ShownPosting;
    if x :| x in items && c == ShownPosting(x) {
      var i :| 0 <= i < |items| && items[i] == x;
      assert ShownPostings(items)[i] == c;
    }
  }

  // All contributions of one group belong to the same ledger entry.
  lemma ListedGroup(entries: seq<Entry>, cs: seq<Classification>, group: seq<Contribution>, q: Query)
    requires GoodEntries(entries) && group != [] && FromLedger(group, entries, cs)
    requires forall x | x in group :: ContributionMatches(x, q) && x.entry.id == group[0].entry.id
    ensures group[0].entry in entries
    ensures forall c | c in ShownPostings(group) :: ShowsPosting(c, group[0].entry) && IsQueried(c, q)
  {
    hide GoodEntries, IsPosting, ShowsPosting, ShownPostings, ToString;
    assert group[0] in group;
    forall c | c in ShownPostings(group)
      ensures ShowsPosting(c, group[0].entry) && IsQueried(c, q)
    {
      ShownMember(group, c);
      var x :| x in group && c == ShownPosting(x);
      OneEntry(entries, x.entry, group[0].entry);
      var i: nat :| IsPosting(x, x.entry, i, cs);
      PostingIsShown(x, x.entry, i, cs);
    }
  }

  lemma TrialEntryIsListed(entries: seq<Entry>, cs: seq<Classification>, items: seq<Contribution>, q: Query, i: nat)
    requires GoodEntries(entries) && FromLedger(items, entries, cs)
    requires var kept := Keep(items, MatchOf(q)); EntriesFit(kept) && i < |FirstKeys(kept, ByRole())|
    ensures var kept := Keep(items, MatchOf(q));
            && |TrialEntries(kept)| == |FirstKeys(kept, ByRole())|
            && exists e :: e in entries && ListsEntry(TrialEntries(kept)[i], e, q)
  {
    hide GoodEntries, IsPosting, ShowsPosting, ShownPostings, FirstKeys, Keep, GroupAt, Fits, Explained, ParseBalance, BalanceText, AbsoluteText, Norm, ReadBack, SumOf, ItemSum, IsQueried, ContributionMatches;
    var kept := Keep(items, MatchOf(q));
    var group := GroupAt(kept, ByRole(), i);
    forall x | x in group
      ensures ContributionMatches(x, q) && x in items && x.entry.id == FirstKeys(kept, ByRole())[i].id
      ensures x.role == FirstKeys(kept, ByRole())[i].role
    {
      GroupMember(kept, ByRole(), i, x);
      KeepMembers(items, MatchOf(q), x);
      assert ByRole()(x) == RoleKey(x.role, x.entry.id);
    }
    assert group[0] in group;
    ListedGroup(entries, cs, group, q);
    DraftFilled(kept, i);
    ReadBackIsSum(group);
    SumIsSet(group);
    SumOfIsItemSum(group);
    ExplainedClosing(group);
    ReparseBalance(Explained(group).closing);
    NormOfSet(SumOf(group));
    RoleColumns(group);
    assert ListsEntry(TrialEntries(kept)[i], group[0].entry, q);
  }

  lemma NormOfSet(a: Accumulator)
    requires a.Sum?
    ensures Norm(a) == a
  {
  }

  // An opening has no turnover, a movement no opening.
  lemma RoleColumns(group: seq<Contribution>)
    requires group != [] && forall x | x in group :: x.role == group[0].role
    ensures var amounts := RowText(Explained(group));
            if group[0].role == OpeningRole then amounts == Amounts(amounts.closing, "0", "0", amounts.closing)
            else amounts.opening == Balance("0", "0")
  {
    hide Explained, ItemSum, Debits, Credits, Plus;
    assert BalanceText(Unset) == Balance("0", "0") && AbsoluteText(Unset) == "0";
    if group[0].role == OpeningRole {
      ExplainedOpening(group);
    } else {
      assert [] + group == group;
      ExplainedRow([], group);
      EmptyItemSum(AllKeys());
    }
  }

  lemma ExplainedClosing(items: seq<Contribution>)
    ensures Explained(items).closing == ItemSum(items, AllKeys())
  {
    hide Explained, ItemSum;
    ExplainedColumns(items);
  }

  // Every entry listed by a drill-down into a trial balance.
  lemma TrialListing(config: Configuration, entries: seq<Entry>, q: Query, report: TrialBalanceDrillDown)
    requires TrialDrillDownFor(config, entries, q) == Ok(report)
    ensures forall listed | listed in report.entries :: exists e :: e in entries && ListsEntry(listed, e, q)
  {
    hide ValidConfiguration, SortYears, SortClassifications, SelectPeriod, GoodEntries, AllEntriesValid, OpeningItems, PeriodItems, OpeningExists, ValidAccount, PeriodsOf, TextPeriod, ListsEntry, EntriesFit, TrialEntries, Keep, MatchOf, TrialTarget, ReportOnFits, Tally, Debits, Credits, FirstKeys, FromLedger;
    var years, cs := SortYears(config.fiscalYears), SortClassifications(config.classifications);
    SelectedPeriod(years, 0, q.period);
    GoodAreValid(entries);
    var s := SelectPeriod(years, 0, q.period).value;
    var opening, movement := OpeningItems(years, s, entries, cs), PeriodItems(years, s, entries, cs);
    LedgerItems(years, s, entries, cs);
    var kept := Keep(opening + movement, MatchOf(q));
    TrialEntryCount(kept);
    forall listed | listed in report.entries
      ensures exists e :: e in entries && ListsEntry(listed, e, q)
    {
      var i :| 0 <= i < |report.entries| && report.entries[i] == listed;
      TrialEntryIsListed(entries, cs, opening + movement, q, i);
    }
  }

  // The listing is complete and lists nothing twice.
  ghost predicate ListsAll(listed: seq<TrialEntry>, items: seq<Contribution>, q: Query) {
    && (forall x | x in items && IsQueried(ShownPosting(x), q) && x.key.category == q.category ::
          exists i :: 0 <= i < |listed| && listed[i].id == x.entry.id && listed[i].role == x.role
            && ShownPosting(x) in listed[i].contributions)
    && (forall i, j | 0 <= i < j < |listed| :: listed[i].id != listed[j].id || listed[i].role != listed[j].role)
    && forall i | 0 <= i < |listed| :: OncePerPosting(listed[i].contributions)
  }

  ghost predicate OncePerPosting(lines: seq<PostingContribution>) {
    forall j, k | 0 <= j < k < |lines| :: lines[j].postingIndex != lines[k].postingIndex
  }

  lemma GroupOnce<K>(items: seq<Contribution>, key: Contribution -> K, i: nat)
    requires NoRepeat(items) && i < |FirstKeys(items, key)|
    requires forall x, y :: key(x) == key(y) ==> x.entry.id == y.entry.id
    ensures OncePerPosting(ShownPostings(GroupAt(items, key, i)))
  {
    hide FirstKeys;
    var group := GroupAt(items, key, i);
    NoRepeatKeep(items, x => key(x) == FirstKeys(items, key)[i]);
    forall j, k | 0 <= j < k < |group|
      ensures group[j].postingIndex != group[k].postingIndex
    {
      assert group[j] in group && group[k] in group;
      GroupMember(items, key, i, group[j]);
      GroupMember(items, key, i, group[k]);
    }
  }

  lemma MatchIsQueried(x: Contribution, q: Query)
    ensures ContributionMatches(x, q) <==> x.key.category == q.category && IsQueried(ShownPosting(x), q)
  {
  }

  lemma MatchInGroup<K>(items: seq<Contribution>, key: Contribution -> K, x: Contribution) returns (i: nat)
    requires x in items
    ensures i < |FirstKeys(items, key)| && FirstKeys(items, key)[i] == key(x) && x in GroupAt(items, key, i)
  {
    hide FirstKeys;
    GroupsNonempty(items, key, key(x));
    KeepMembers(items, y => key(y) == key(x), x);
    i :| 0 <= i < |FirstKeys(items, key)| && FirstKeys(items, key)[i] == key(x);
    GroupMember(items, key, i, x);
  }

  lemma TrialListsAll(items: seq<Contribution>, q: Query)
    requires NoRepeat(items)
    ensures ListsAll(TrialEntries(Keep(items, MatchOf(q))), items, q)
  {
    hide Keep, FirstKeys, GroupAt, ShownPosting, ShownPostings, RowText, Explained, IsQueried, NoRepeat, OncePerPosting;
    var kept := Keep(items, MatchOf(q));
    var listed := TrialEntries(kept);
    TrialEntryCount(kept);
    KeysApart(kept, ByRole());
    NoRepeatKeep(items, MatchOf(q));
    forall i | 0 <= i < |listed|
      ensures RoleKey(listed[i].role, listed[i].id) == FirstKeys(kept, ByRole())[i] && OncePerPosting(listed[i].contributions)
    {
      DraftFilled(kept, i);
      GroupOnce(kept, ByRole(), i);
      var group := GroupAt(kept, ByRole(), i);
      GroupMember(kept, ByRole(), i, group[0]);
    }
    forall x | x in items && IsQueried(ShownPosting(x), q) && x.key.category == q.category
      ensures exists i :: 0 <= i < |listed| && listed[i].id == x.entry.id && listed[i].role == x.role
                && ShownPosting(x) in listed[i].contributions
    {
      MatchIsQueried(x, q);
      KeepMembers(items, MatchOf(q), x);
      var i := MatchInGroup(kept, ByRole(), x);
      DraftFilled(kept, i);
      ShownMember(GroupAt(kept, ByRole(), i), ShownPosting(x));
      assert listed[i].id == x.entry.id;
    }
  }

  // A drill-down lists every posting behind the figure, each of them once.
  lemma TrialListingComplete(config: Configuration, entries: seq<Entry>, q: Query, report: TrialBalanceDrillDown)
    requires TrialDrillDownFor(config, entries, q) == Ok(report)
    ensures ValidConfiguration(config) && AllEntriesValid(entries) && report.query == q
    ensures var years, cs := SortYears(config.fiscalYears), SortClassifications(config.classifications);
            var choice := SelectPeriod(years, 0, q.period);
            && choice.Some? && choice.value.index < |years|
            && ListsAll(report.entries, OpeningItems(years, choice.value, entries, cs) + PeriodItems(years, choice.value, entries, cs), q)
  {
    hide ValidConfiguration, SortYears, SortClassifications, SelectPeriod, GoodEntries, AllEntriesValid, OpeningItems, PeriodItems, OpeningExists, ValidAccount, PeriodsOf, TextPeriod, ListsAll, EntriesFit, TrialEntries, Keep, MatchOf, TrialTarget, ReportOnFits, Tally, Debits, Credits, NoRepeat;
    var years, cs := SortYears(config.fiscalYears), SortClassifications(config.classifications);
    SelectedPeriod(years, 0, q.period);
    GoodAreValid(entries);
    NothingCountedTwice(config, entries, q.period);
    var s := SelectPeriod(years, 0, q.period).value;
    TrialListsAll(OpeningItems(years, s, entries, cs) + PeriodItems(years, s, entries, cs), q);
  }

  lemma LedgerItems(years: seq<FiscalYear>, s: Selection, entries: seq<Entry>, cs: seq<Classification>)
    requires s.index < |years| && GoodEntries(entries) && AllEntriesValid(entries) && OpeningExists(years, s.index, entries, cs)
    ensures FromLedger(OpeningItems(years, s, entries, cs) + PeriodItems(years, s, entries, cs), entries, cs)
  {
    hide GoodEntries, AllEntriesValid, OpeningItems, MovementItems, OpeningExists, IsPosting;
    OpeningFromLedger(years, s, entries, cs);
    MovementsFromLedger(entries, s.period.period, years[s.index].openingEntryIDs, cs, MovementRole);
  }

  // ---------------------------------------------- income statement drill-downs

  ghost predicate ListsIncome(listed: IncomeEntry, e: Entry, q: Query) {
    && listed.id == e.id && listed.occurredAt == TimeText(e.entry.date) && listed.description == e.entry.description
    && (forall c | c in listed.contributions :: ShowsPosting(c, e) && IsQueried(c, q))
    && ReadBack(listed.contributions) == ParseBalance(listed.balance)
  }

  lemma IncomeEntryIsListed(entries: seq<Entry>, cs: seq<Classification>, items: seq<Contribution>, q: Query, i: nat)
    requires GoodEntries(entries) && FromLedger(items, entries, cs)
    requires var kept := Keep(items, MatchOf(q)); IncomeEntriesFit(kept) && i < |FirstKeys(kept, ByEntry())|
    ensures var kept := Keep(items, MatchOf(q));
            && |IncomeEntries(kept)| == |FirstKeys(kept, ByEntry())|
            && exists e :: e in entries && ListsIncome(IncomeEntries(kept)[i], e, q)
  {
    hide GoodEntries, IsPosting, ShowsPosting, ShownPostings, FirstKeys, Keep, GroupAt, Fits, ParseBalance, BalanceText, Norm, ReadBack, SumOf, IsQueried, ContributionMatches;
    var kept := Keep(items, MatchOf(q));
    var group := GroupAt(kept, ByEntry(), i);
    forall x | x in group
      ensures ContributionMatches(x, q) && x in items && x.entry.id == FirstKeys(kept, ByEntry())[i]
    {
      GroupMember(kept, ByEntry(), i, x);
      KeepMembers(items, MatchOf(q), x);
      assert ByEntry()(x) == x.entry.id;
    }
    assert group[0] in group;
    ListedGroup(entries, cs, group, q);
    IncomeFilled(kept, i);
    ReadBackIsSum(group);
    SumIsSet(group);
    ReparseBalance(SumOf(group));
    NormOfSet(SumOf(group));
    assert ListsIncome(IncomeEntries(kept)[i], group[0].entry, q);
  }

  // Every entry listed by a drill-down into an income statement.
  lemma IncomeListing(config: Configuration, entries: seq<Entry>, q: Query, report: IncomeDrillDown)
    requires IncomeDrillDownFor(config, entries, q) == Ok(report)
    ensures forall listed | listed in report.entries :: exists e :: e in entries && ListsIncome(listed, e, q)
  {
    hide ValidConfiguration, SortYears, SortClassifications, SelectIncomePeriod, GoodEntries, AllEntriesValid, MovementItems, ValidAccount, TextPeriod, ListsIncome, IncomeEntriesFit, IncomeEntries, Keep, MatchOf, SectionTarget, AllStatementsFit, Tally, FilterTotals, FirstKeys, FromLedger;
    var years, cs := SortYears(config.fiscalYears), SortClassifications(config.classifications);
    SelectedIncomePeriod(years, q.period);
    GoodAreValid(entries);
    var s := SelectIncomePeriod(years, q.period).value;
    MovementsFromLedger(entries, s.period.period, years[s.index].openingEntryIDs, cs, MovementRole);
    var items := PeriodItems(years, s, entries, cs);
    IncomeEntryCount(Keep(items, MatchOf(q)));
    forall listed | listed in report.entries
      ensures exists e :: e in entries && ListsIncome(listed, e, q)
    {
      var i :| 0 <= i < |report.entries| && report.entries[i] == listed;
      IncomeEntryIsListed(entries, cs, items, q, i);
    }
  }

  ghost predicate ListsAllIncome(listed: seq<IncomeEntry>, items: seq<Contribution>, q: Query) {
    && (forall x | x in items && IsQueried(ShownPosting(x), q) && x.key.category == q.category ::
          exists i :: 0 <= i < |listed| && listed[i].id == x.entry.id && ShownPosting(x) in listed[i].contributions)
    && (forall i, j | 0 <= i < j < |listed| :: listed[i].id != listed[j].id)
    && forall i | 0 <= i < |listed| :: OncePerPosting(listed[i].contributions)
  }

  lemma IncomeListsAll(items: seq<Contribution>, q: Query)
    requires NoRepeat(items)
    ensures ListsAllIncome(IncomeEntries(Keep(items, MatchOf(q))), items, q)
  {
    hide Keep, FirstKeys, GroupAt, ShownPosting, ShownPostings, BalanceText, SumOf, IsQueried, NoRepeat, OncePerPosting;
    var kept := Keep(items, MatchOf(q));
    var listed := IncomeEntries(kept);
    IncomeEntryCount(kept);
    KeysApart(kept, ByEntry());
    NoRepeatKeep(items, MatchOf(q));
    forall i | 0 <= i < |listed|
      ensures listed[i].id == FirstKeys(kept, ByEntry())[i] && OncePerPosting(listed[i].contributions)
    {
      IncomeFilled(kept, i);
      GroupOnce(kept, ByEntry(), i);
      var group := GroupAt(kept, ByEntry(), i);
      GroupMember(kept, ByEntry(), i, group[0]);
    }
    forall x | x in items && IsQueried(ShownPosting(x), q) && x.key.category == q.category
      ensures exists i :: 0 <= i < |listed| && listed[i].id == x.entry.id && ShownPosting(x) in listed[i].contributions
    {
      MatchIsQueried(x, q);
      KeepMembers(items, MatchOf(q), x);
      var i := MatchInGroup(kept, ByEntry(), x);
      IncomeFilled(kept, i);
      ShownMember(GroupAt(kept, ByEntry(), i), ShownPosting(x));
      assert listed[i].id == x.entry.id;
    }
  }

  // A drill-down into an income statement lists every posting behind the
  // balance, each of them once.
  lemma IncomeListingComplete(config: Configuration, entries: seq<Entry>, q: Query, report: IncomeDrillDown)
    requires IncomeDrillDownFor(config, entries, q) == Ok(report)
    ensures ValidConfiguration(config) && AllEntriesValid(entries) && report.query == q
    ensures var years, cs := SortYears(config.fiscalYears), SortClassifications(config.classifications);
            var choice := SelectIncomePeriod(years, q.period);
            && choice.Some? && choice.value.index < |years|
            && ListsAllIncome(report.entries, PeriodItems(years, choice.value, entries, cs), q)
  {
    hide ValidConfiguration, SortYears, SortClassifications, SelectIncomePeriod, GoodEntries, AllEntriesValid, MovementItems, ValidAccount, IsPeriod, ListsAllIncome, IncomeEntriesFit, IncomeEntries, Keep, MatchOf, SectionTarget, AllStatementsFit, Tally, FilterTotals, NoRepeat;
    var years, cs := SortYears(config.fiscalYears), SortClassifications(config.classifications);
    SelectedIncomePeriod(years, q.period);
    GoodAreValid(entries);
    var s := SelectIncomePeriod(years, q.period).value;
    MovementsNoRepeat(entries, s.period.period, years[s.index].openingEntryIDs, cs, MovementRole);
    IncomeListsAll(PeriodItems(years, s, entries, cs), q);
  }

  // ------------------------------------------------- what can be drilled into

  // A query names an account, a commodity without line breaks, and one of the
  // two scopes.
  ghost predicate PlainQuery(q: Query) {
    && PlainName(q.account, AtStart) && q.commodity != "" && '\r' !in q.commodity && '\n' !in q.commodity
    && q.scope in {DirectScope, SubtreeScope}
  }

  lemma QueryIff(q: Query)
    ensures GoodQuery(q) <==> PlainQuery(q)
  {
    hide ValidAccount, PlainName;
    AccountIff(q.account);
  }

  // A drill-down into a trial balance that could be printed is refused as
  // invalid exactly when the query is malformed or nothing was posted at or
  // below its account.
  lemma TrialRefusedIff(config: Configuration, entries: seq<Entry>, q: Query, selected: TrialBalance)
    requires TrialBalanceFor(config, entries, q.period) == Ok(selected)
    ensures ValidConfiguration(config) && AllEntriesValid(entries)
    ensures var years, cs := SortYears(config.fiscalYears), SortClassifications(config.classifications);
            var choice := SelectPeriod(years, 0, q.period);
            && choice.Some? && choice.value.index < |years|
            && var items := OpeningItems(years, choice.value, entries, cs) + PeriodItems(years, choice.value, entries, cs);
            TrialDrillDownFor(config, entries, q) == Err(InvalidDrillDown) <==>
              !PlainQuery(q) || !Touched(items, AtOrBelow(q.commodity, q.category, q.account))
  {
    hide ValidConfiguration, SortYears, SortClassifications, SelectPeriod, GoodEntries, AllEntriesValid, OpeningItems, PeriodItems, OpeningExists, ValidAccount, PeriodsOf, TextPeriod, EntriesFit, TrialEntries, Keep, MatchOf, ReportFits, Tally, Debits, Credits, DirectRows, Names, GoodQuery, PlainQuery, RowText, GetRow, Subtotal, AtOrBelow, Touched, ReportOn;
    var years, cs := SortYears(config.fiscalYears), SortClassifications(config.classifications);
    SelectedPeriod(years, 0, q.period);
    GoodAreValid(entries);
    QueryIff(q);
    var s := SelectPeriod(years, 0, q.period).value;
    NamedIff(q.commodity, q.category, OpeningItems(years, s, entries, cs), PeriodItems(years, s, entries, cs), q.account);
  }

  // The same for an income statement, on revenue, expense and unclassified
  // accounts.
  lemma IncomeRefusedIff(config: Configuration, entries: seq<Entry>, q: Query, selected: IncomeStatement)
    requires IncomeStatementFor(config, entries, q.period) == Ok(selected)
    ensures ValidConfiguration(config) && AllEntriesValid(entries)
    ensures var years, cs := SortYears(config.fiscalYears), SortClassifications(config.classifications);
            var choice := SelectIncomePeriod(years, q.period);
            && choice.Some? && choice.value.index < |years|
            && var items := Keep(PeriodItems(years, choice.value, entries, cs), OnIncomeStatement);
            IncomeDrillDownFor(config, entries, q) == Err(InvalidDrillDown) <==>
              !PlainQuery(q) || !Touched(items, AtOrBelow(q.commodity, q.category, q.account))
  {
    hide ValidConfiguration, SortYears, SortClassifications, SelectIncomePeriod, GoodEntries, AllEntriesValid, PeriodItems, IsPeriod, IncomeEntriesFit, IncomeEntries, Keep, MatchOf, AllStatementsFit, Tally, DirectSums, Names, GoodQuery, PlainQuery, BalanceText, Get, Rolled, AtOrBelow, Touched, FilterTotals, IncomeReport, TotalsOf, Earnings, Fits, CommoditiesIn;
    var years, cs := SortYears(config.fiscalYears), SortClassifications(config.classifications);
    SelectedIncomePeriod(years, q.period);
    GoodAreValid(entries);
    QueryIff(q);
    var items := PeriodItems(years, SelectIncomePeriod(years, q.period).value, entries, cs);
    var kept := Keep(items, OnIncomeStatement);
    FilteredOf(items, IncomeCategories, OnIncomeStatement);
    NameSummedIff(FilterTotals(Tally(items), IncomeCategories), kept, kept, q.commodity, q.category, q.account);
  }
}
