// When a drill-down into a printed figure overflows.
module Overflows {
  import opened Results
  import opened Decimals
  import opened Ledger
  import opened Accumulators
  import opened Configurations
  import opened Movements
  import opened CarryForward
  import opened Bookkeeping
  import opened Rows
  import opened TrialBalances
  import opened Sections
  import opened StatementRows
  import opened Reports
  import opened Statements
  import opened Incomes
  import opened Targets
  import opened Explanations
  import opened DrillDowns
  import opened IncomeDrillDowns
  import opened Printed

  // ------------------------------------------------------ parts of one side

  lemma SignAt(a: Accumulator, s: nat)
    requires ScaleOf(a) <= s
    ensures SignOf(a) >= 0 ==> At(a, s) >= 0
    ensures SignOf(a) <= 0 ==> At(a, s) <= 0
  {
    if a.Sum? {
      WidenedSign(a.coefficient, a.scale, s);
    }
  }

  lemma ScalesOfSum(a: Accumulator, b: Accumulator)
    ensures ScaleOf(a) <= ScaleOf(Plus(a, b)) && ScaleOf(b) <= ScaleOf(Plus(a, b))
  {
  }

  // Some of the contributions of one side add up to no more than all of them.
  lemma PartOfSide(items: seq<Contribution>, f: Contribution -> bool, K: iset<AmountKey>, s: nat)
    requires ScaleOf(ItemSum(items, K)) <= s
    ensures ScaleOf(ItemSum(Keep(items, f), K)) <= s
    ensures (forall x | x in items :: Sign(x.value) >= 0) ==> 0 <= At(ItemSum(Keep(items, f), K), s) <= At(ItemSum(items, K), s)
    ensures (forall x | x in items :: Sign(x.value) <= 0) ==> At(ItemSum(items, K), s) <= At(ItemSum(Keep(items, f), K), s) <= 0
  {
    hide Plus, ItemSum, Keep, SignOf, At, Sign, ScaleOf;
    var g := (x: Contribution) => !f(x);
    var kept, rest := Keep(items, f), Keep(items, g);
    KeepSplits(items, f, g, x => true, K);
    KeepAll(items, x => true);
    ScalesOfSum(ItemSum(kept, K), ItemSum(rest, K));
    PlusAt(ItemSum(kept, K), ItemSum(rest, K), s);
    forall x | x in kept || x in rest
      ensures x in items
    {
      KeepMembers(items, f, x);
      KeepMembers(items, g, x);
    }
    ItemSign(kept, K);
    ItemSign(rest, K);
    SignAt(ItemSum(kept, K), s);
    SignAt(ItemSum(rest, K), s);
  }

  lemma WidenedGrows(x: int, from: nat, to: nat)
    requires from <= to
    ensures Abs(x) <= Abs(Widened(x, from, to))
  {
    var p := Pow10(to - from);
    if x > 0 {
      if p > 1 {
        MulMonotone(1, p, x);
      }
      assert x * p >= x;
    } else if x < 0 {
      if p > 1 {
        MulMonotone(1, p, -x);
      }
      assert -x * p >= -x;
    }
  }

  lemma FitsAt(a: Accumulator, s: nat)
    requires ScaleOf(a) <= s <= MAX_SCALE && Abs(At(a, s)) <= MAX_COEFFICIENT
    ensures Fits(a)
  {
    if a.Sum? {
      WidenedGrows(a.coefficient, a.scale, s);
    }
  }

  // Two sides that cancel and are both in range are in range at their common
  // scale.
  lemma CancellingSides(d: Accumulator, c: Accumulator) returns (s: nat)
    requires Fits(d) && Fits(c) && IsZero(Plus(d, c))
    ensures ScaleOf(d) <= s && ScaleOf(c) <= s <= MAX_SCALE
    ensures At(d, s) == -At(c, s) && Abs(At(d, s)) <= MAX_COEFFICIENT
  {
    hide Plus;
    s := Max(ScaleOf(d), ScaleOf(c));
    PlusAt(d, c, s);
    SetIff(d, c);
    if Plus(d, c).Sum? {
      AtOwnScale(Plus(d, c));
    }
    if d.Sum? {
      AtOwnScale(d);
    }
    if c.Sum? {
      AtOwnScale(c);
    }
  }

  // ------------------------------------------------------- movement groups

  // Within balanced movements whose debit and credit totals are in range, what
  // any entry contributes to any accounts of the commodity is in range too.
  lemma MovementPartFits(movement: seq<Contribution>, f: Contribution -> bool, g: Contribution -> bool, K: iset<AmountKey>)
    requires IsZero(Plus(ItemSum(Debits(movement), K), ItemSum(Credits(movement), K)))
    requires Fits(ItemSum(Debits(movement), K)) && Fits(ItemSum(Credits(movement), K))
    ensures var part := Keep(Keep(movement, f), g);
            RowFits(Combined(Unset, ItemSum(Debits(part), K), ItemSum(Credits(part), K)))
  {
    hide Plus, ItemSum, Keep, SignOf, At, Sign, ScaleOf, Fits, IsZero;
    var d, c := Debits(movement), Credits(movement);
    var s := CancellingSides(ItemSum(d, K), ItemSum(c, K));
    SidesHaveSigns(movement);
    SidesHaveSigns(Keep(movement, f));
    KeepSwap(movement, f, IsDebit);
    KeepSwap(movement, f, IsCredit);
    KeepSwap(Keep(movement, f), g, IsDebit);
    KeepSwap(Keep(movement, f), g, IsCredit);
    PartOfSide(d, f, K, s);
    PartOfSide(c, f, K, s);
    PartOfSide(Keep(d, f), g, K, s);
    PartOfSide(Keep(c, f), g, K, s);
    var e, h := ItemSum(Keep(Keep(d, f), g), K), ItemSum(Keep(Keep(c, f), g), K);
    PlusAt(e, h, s);
    FitsAt(e, s);
    FitsAt(h, s);
    FitsAt(Plus(e, h), s);
    PlusUnset(e);
    NilFits(Unset);
  }

  lemma SidesHaveSigns(items: seq<Contribution>)
    ensures forall x | x in Debits(items) :: Sign(x.value) >= 0
    ensures forall x | x in Credits(items) :: Sign(x.value) <= 0
  {
    hide Keep;
    forall x
      ensures x in Debits(items) ==> Sign(x.value) >= 0
      ensures x in Credits(items) ==> Sign(x.value) <= 0
    {
      KeepMembers(items, IsDebit, x);
      KeepMembers(items, IsCredit, x);
    }
  }

  // Nothing, or exactly zero without decimals.
  predicate Nil(a: Accumulator) {
    a == Unset || a == Sum(0, 0)
  }

  lemma NilFits(a: Accumulator)
    requires Nil(a)
    ensures Fits(a)
  {
  }

  function ForKey(k: RoleKey): Contribution -> bool {
    x => ByRole()(x) == k
  }

  lemma GroupParts(opening: seq<Contribution>, movement: seq<Contribution>, q: Query, k: RoleKey)
    requires AllInRole(opening, OpeningRole) && AllInRole(movement, MovementRole)
    ensures Members(Keep(opening + movement, MatchOf(q)), ByRole(), k) ==
            if k.role == MovementRole then Keep(Keep(movement, MatchOf(q)), ForKey(k))
            else Keep(Keep(opening, MatchOf(q)), ForKey(k))
  {
    hide Keep, MatchOf;
    var f, g := MatchOf(q), ForKey(k);
    KeepAppend(opening, movement, f);
    KeepAppend(Keep(opening, f), Keep(movement, f), g);
    MembersByFilter(Keep(opening + movement, f), ByRole(), k, g);
    KeptInRole(opening, f, OpeningRole);
    KeptInRole(movement, f, MovementRole);
    if k.role == MovementRole {
      OtherRole(Keep(opening, f), OpeningRole, k);
    } else {
      OtherRole(Keep(movement, f), MovementRole, k);
      assert Keep(Keep(opening, f), g) + [] == Keep(Keep(opening, f), g);
    }
  }

  lemma {:induction false} MembersByFilter<K>(items: seq<Contribution>, key: Contribution -> K, k: K, g: Contribution -> bool)
    requires forall x :: g(x) <==> key(x) == k
    ensures Members(items, key, k) == Keep(items, g)
  {
    hide Members;
    if items == [] {
      NoMembers(key, k);
    } else {
      var front, last := items[..|items| - 1], items[|items| - 1];
      assert items == front + [last];
      MembersByFilter(front, key, k, g);
      MembersStep(front, last, key, k);
    }
  }

  lemma NoMembers<K>(key: Contribution -> K, k: K)
    ensures Members([], key, k) == []
  {
  }

  lemma OtherRole(items: seq<Contribution>, role: Role, k: RoleKey)
    requires AllInRole(items, role) && k.role != role
    ensures Keep(items, ForKey(k)) == []
  {
    hide Keep;
    forall x | x in items
      ensures !ForKey(k)(x)
    {
      assert x.role == role;
      assert ByRole()(x).role == x.role;
    }
    NoneKept(items, ForKey(k));
  }

  lemma {:induction false} NoneKept(items: seq<Contribution>, f: Contribution -> bool)
    requires forall x | x in items :: !f(x)
    ensures Keep(items, f) == []
  {
    if items != [] {
      NoneKept(items[..|items| - 1], f);
    }
  }

  lemma AllOfCommodity(items: seq<Contribution>, q: Query, g: Contribution -> bool, h: Contribution -> bool)
    ensures var part := Keep(Keep(Keep(items, MatchOf(q)), g), h);
            ItemSum(part, AllKeys()) == ItemSum(part, OfCommodity(q.commodity))
  {
    hide Keep, ItemSum;
    var part := Keep(Keep(Keep(items, MatchOf(q)), g), h);
    forall x | x in part
      ensures x.key in OfCommodity(q.commodity)
    {
      KeepMembers(Keep(Keep(items, MatchOf(q)), g), h, x);
      KeepMembers(Keep(items, MatchOf(q)), g, x);
      KeepMembers(items, MatchOf(q), x);
    }
    SameKeys(part, AllKeys(), OfCommodity(q.commodity));
  }

  lemma {:induction false} SameKeys(items: seq<Contribution>, K: iset<AmountKey>, L: iset<AmountKey>)
    requires forall x | x in items :: x.key in K <==> x.key in L
    ensures ItemSum(items, K) == ItemSum(items, L)
  {
    hide Plus, Of;
    if items != [] {
      SameKeys(items[..|items| - 1], K, L);
    }
  }

  lemma SectionTurnoverFits(opening: seq<Contribution>, movement: seq<Contribution>, q: Query)
    requires ReportOnFits(opening, movement)
    requires TrialTarget(Tally(opening), Tally(Debits(movement)), Tally(Credits(movement)), q).Some?
    ensures var K := OfCommodity(q.commodity);
            Fits(ItemSum(Debits(movement), K)) && Fits(ItemSum(Credits(movement), K))
  {
    hide DirectRows, CommodityNames, RowOver, SumRows, Subtotal, GetRow, Names, RowText, Tally, Debits, Credits, ItemSum, OfCommodity, GroupFits, Fits, Plus;
    var o, d, c := Tally(opening), Tally(Debits(movement)), Tally(Credits(movement));
    SomeDirect(DirectRows(q.commodity, q.category, o, d, c), q.account);
    PostedCommodity(o, d, c, q);
    var names := CommodityNames(o, d, c);
    var i :| 0 <= i < |names| && names[i] == q.commodity;
    assert SectionFits(names[i], o, d, c);
    RowOverIsItemRow(opening, movement, OfCommodity(q.commodity));
  }

  // Once the report is printed, what one entry moved is always in range: the
  // section's debit and credit turnover are, and they cancel.
  lemma MovementGroupFits(opening: seq<Contribution>, movement: seq<Contribution>, q: Query, k: RoleKey)
    requires AllInRole(opening, OpeningRole) && AllInRole(movement, MovementRole) && BalancedItems(movement)
    requires ReportOnFits(opening, movement) && k.role == MovementRole
    requires TrialTarget(Tally(opening), Tally(Debits(movement)), Tally(Credits(movement)), q).Some?
    ensures RowFits(Explained(Members(Keep(opening + movement, MatchOf(q)), ByRole(), k)))
  {
    hide Keep, ItemSum, Plus, Explained, AllInRole, ReportOnFits, TrialTarget, Tally, MatchOf, OfCommodity, IsZero, Fits, ForKey;
    var f, g, K := MatchOf(q), ForKey(k), OfCommodity(q.commodity);
    var part := Keep(Keep(movement, f), g);
    GroupParts(opening, movement, q, k);
    SectionTurnoverFits(opening, movement, q);
    DebitCreditSum(movement, K);
    MovementPartFits(movement, f, g, K);
    AllOfCommodity(movement, q, g, IsDebit);
    AllOfCommodity(movement, q, g, IsCredit);
    KeptInRole(movement, f, MovementRole);
    KeptInRole(Keep(movement, f), g, MovementRole);
    NothingInRole();
    ExplainedRow([], part);
    assert [] + part == part;
    NoSidesSum();
  }

  lemma NothingInRole()
    ensures AllInRole([], OpeningRole)
  {
  }

  // -------------------------------------------------- the exact condition

  // What one carried or earlier entry contributes to the queried accounts.
  function OpeningOf(opening: seq<Contribution>, q: Query, id: string): seq<Contribution> {
    Keep(Keep(opening, MatchOf(q)), ForKey(RoleKey(OpeningRole, id)))
  }

  lemma OpeningGroup(opening: seq<Contribution>, movement: seq<Contribution>, q: Query, id: string)
    requires AllInRole(opening, OpeningRole) && AllInRole(movement, MovementRole)
    ensures var group := Members(Keep(opening + movement, MatchOf(q)), ByRole(), RoleKey(OpeningRole, id));
            && group == OpeningOf(opening, q, id)
            && (RowFits(Explained(group)) <==> Fits(ItemSum(group, AllKeys())))
  {
    hide Keep, ItemSum, AllInRole, MatchOf, ForKey, Explained, Fits;
    var k := RoleKey(OpeningRole, id);
    GroupParts(opening, movement, q, k);
    KeptInRole(opening, MatchOf(q), OpeningRole);
    KeptInRole(Keep(opening, MatchOf(q)), ForKey(k), OpeningRole);
    ExplainedOpening(OpeningOf(opening, q, id));
    NilFits(Unset);
  }

  // A drill-down into a printed report overflows exactly when some entry's
  // opening contributions to the queried accounts leave the range. Movements
  // never do.
  lemma EntriesFitIff(opening: seq<Contribution>, movement: seq<Contribution>, q: Query)
    requires AllInRole(opening, OpeningRole) && AllInRole(movement, MovementRole) && BalancedItems(movement)
    requires ReportOnFits(opening, movement)
    requires TrialTarget(Tally(opening), Tally(Debits(movement)), Tally(Credits(movement)), q).Some?
    ensures EntriesFit(Keep(opening + movement, MatchOf(q))) <==> forall id :: Fits(ItemSum(OpeningOf(opening, q, id), AllKeys()))
  {
    hide Keep, ItemSum, Explained, AllInRole, ReportOnFits, TrialTarget, Tally, MatchOf, BalancedItems, Fits, FirstKeys, OpeningOf, RowFits;
    var kept := Keep(opening + movement, MatchOf(q));
    var keys := FirstKeys(kept, ByRole());
    forall i | 0 <= i < |keys|
      ensures GroupAt(kept, ByRole(), i) == Members(kept, ByRole(), keys[i])
      ensures keys[i].role == MovementRole ==> RowFits(Explained(GroupAt(kept, ByRole(), i)))
      ensures keys[i].role == OpeningRole ==>
                (RowFits(Explained(GroupAt(kept, ByRole(), i))) <==> Fits(ItemSum(OpeningOf(opening, q, keys[i].id), AllKeys())))
    {
      if keys[i].role == MovementRole {
        MovementGroupFits(opening, movement, q, keys[i]);
      } else {
        OpeningGroup(opening, movement, q, keys[i].id);
      }
    }
    if EntriesFit(kept) {
      forall id
        ensures Fits(ItemSum(OpeningOf(opening, q, id), AllKeys()))
      {
        OpeningGroup(opening, movement, q, id);
        GroupsNonempty(kept, ByRole(), RoleKey(OpeningRole, id));
        if OpeningOf(opening, q, id) == [] {
          EmptyItemSum(AllKeys());
          NilFits(Unset);
        } else {
          var i :| 0 <= i < |keys| && keys[i] == RoleKey(OpeningRole, id);
          assert RowFits(Explained(GroupAt(kept, ByRole(), i)));
        }
      }
    }
  }

  // For every configuration, ledger and query whose report can be printed and
  // lists the account: the drill-down fails exactly when the opening
  // contributions of some entry are out of range, and then with an overflow.
  lemma DrillDownOverflowsIff(config: Configuration, entries: seq<Entry>, q: Query, report: TrialBalance, value: Amounts)
    requires GoodQuery(q) && TrialBalanceFor(config, entries, q.period) == Ok(report) && Answers(report.commodities, q, value)
    ensures ValidConfiguration(config) && AllEntriesValid(entries)
    ensures var years, cs := SortYears(config.fiscalYears), SortClassifications(config.classifications);
            var choice := SelectPeriod(years, 0, q.period);
            && choice.Some? && choice.value.index < |years|
            && var opening := OpeningItems(years, choice.value, entries, cs);
            var fits := forall id :: Fits(ItemSum(OpeningOf(opening, q, id), AllKeys()));
            && (TrialDrillDownFor(config, entries, q).Ok? <==> fits)
            && (!fits ==> TrialDrillDownFor(config, entries, q) == Err(AmountOverflow))
  {
    hide ValidConfiguration, SortYears, SortClassifications, SelectPeriod, AllEntriesValid, OpeningItems, MovementItems, GoodEntries, OpeningExists, PeriodsOf, TextPeriod, AllInRole, Fits, ItemSum, OpeningOf, EntriesFit, ReportFits, Tally, Debits, Credits, TrialTarget, Keep, MatchOf, SectionsOf, CommodityNames, AllComplete, SectionWarnings, AnswersAt, ValidAccount, BalancedItems, TrialEntries;
    TrialReportIs(config, entries, q.period, report);
    var years, cs := SortYears(config.fiscalYears), SortClassifications(config.classifications);
    SelectedPeriod(years, 0, q.period);
    var s := SelectPeriod(years, 0, q.period).value;
    var opening, movement := OpeningItems(years, s, entries, cs), PeriodItems(years, s, entries, cs);
    SelectionRoles(years, s, entries, cs);
    MovementItemsBalanced(entries, s.period.period, years[s.index].openingEntryIDs, cs, MovementRole);
    var i, j, k :| AnswersAt(report.commodities, q, i, j, k, value);
    AnswerIsTarget(Tally(opening), Tally(Debits(movement)), Tally(Credits(movement)), q, i, j, k, value);
    EntriesFitIff(opening, movement, q);
  }

  // ------------------------------------------------------ income statements

  function ForEntry(id: string): Contribution -> bool {
    (x: Contribution) => x.entry.id == id
  }

  // What one entry contributes to the queried accounts in the period.
  function MovementOf(items: seq<Contribution>, q: Query, id: string): seq<Contribution> {
    Keep(Keep(items, MatchOf(q)), ForEntry(id))
  }

  lemma IncomeEntriesFitIff(items: seq<Contribution>, q: Query)
    ensures IncomeEntriesFit(Keep(items, MatchOf(q))) <==> forall id :: Fits(ItemSum(MovementOf(items, q, id), AllKeys()))
  {
    hide Keep, ItemSum, SumOf, MatchOf, Fits, FirstKeys;
    var kept := Keep(items, MatchOf(q));
    var keys := FirstKeys(kept, ByEntry());
    forall id
      ensures Members(kept, ByEntry(), id) == MovementOf(items, q, id)
      ensures SumOf(Members(kept, ByEntry(), id)) == ItemSum(MovementOf(items, q, id), AllKeys())
    {
      MembersByFilter(kept, ByEntry(), id, ForEntry(id));
      SumOfIsItemSum(Members(kept, ByEntry(), id));
    }
    if IncomeEntriesFit(kept) {
      forall id
        ensures Fits(ItemSum(MovementOf(items, q, id), AllKeys()))
      {
        GroupsNonempty(kept, ByEntry(), id);
        if MovementOf(items, q, id) == [] {
          EmptyItemSum(AllKeys());
          NilFits(Unset);
        } else {
          var i :| 0 <= i < |keys| && keys[i] == id;
          assert Fits(SumOf(GroupAt(kept, ByEntry(), i)));
        }
      }
    } else {
      var i :| 0 <= i < |keys| && !Fits(SumOf(GroupAt(kept, ByEntry(), i)));
      assert GroupAt(kept, ByEntry(), i) == Members(kept, ByEntry(), keys[i]);
      assert !Fits(ItemSum(MovementOf(items, q, keys[i]), AllKeys()));
    }
  }

  // For every configuration, ledger and query whose income statement can be
  // printed and lists the account: the drill-down fails exactly when the net
  // contribution of some entry is out of range, and then with an overflow.
  lemma IncomeDrillDownOverflowsIff(config: Configuration, entries: seq<Entry>, q: Query)
    requires GoodQuery(q) && IncomeStatementFor(config, entries, q.period).Ok?
    ensures ValidConfiguration(config) && AllEntriesValid(entries)
    ensures var years, cs := SortYears(config.fiscalYears), SortClassifications(config.classifications);
            var choice := SelectIncomePeriod(years, q.period);
            && choice.Some? && choice.value.index < |years|
            && var items := PeriodItems(years, choice.value, entries, cs);
            var fits := forall id :: Fits(ItemSum(MovementOf(items, q, id), AllKeys()));
            SectionTarget(FilterTotals(Tally(items), IncomeCategories), q).Some? ==>
              && (IncomeDrillDownFor(config, entries, q).Ok? <==> fits)
              && (!fits ==> IncomeDrillDownFor(config, entries, q) == Err(AmountOverflow))
  {
    hide ValidConfiguration, SortYears, SortClassifications, SelectIncomePeriod, AllEntriesValid, PeriodItems, GoodEntries, TextPeriod, Fits, ItemSum, MovementOf, IncomeEntriesFit, Tally, SectionTarget, Keep, MatchOf, FilterTotals, AllStatementsFit, IncomeEntries, ValidAccount, Earnings, StatementsOf, CommoditiesIn, IncomeCommodities;
    var years, cs := SortYears(config.fiscalYears), SortClassifications(config.classifications);
    SelectedIncomePeriod(years, q.period);
    GoodAreValid(entries);
    IncomeEntriesFitIff(PeriodItems(years, SelectIncomePeriod(years, q.period).value, entries, cs), q);
  }
}
