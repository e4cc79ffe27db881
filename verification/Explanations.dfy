// Explaining a figure by the contributions behind it: which ones match, how
// they are grouped by entry, and what they add up to.
module Explanations {
  import opened Decimals
  import opened Calendar
  import opened Ledger
  import opened Accumulators
  import opened Configurations
  import opened Movements
  import opened CarryForward
  import opened Rows
  import opened Reports
  import opened Targets

  // ------------------------------------------------------------- matching

  // contributionMatches
  predicate ContributionMatches(x: Contribution, q: Query) {
    && x.key.commodity == q.commodity && x.key.category == q.category
    && (x.key.account == q.account || (q.scope == SubtreeScope && q.account + ":" <= x.key.account))
  }

  function MatchOf(q: Query): Contribution -> bool {
    x => ContributionMatches(x, q)
  }

  // The accounts a query asks about.
  ghost function QueryKeys(q: Query): iset<AmountKey> {
    Cell(q.commodity, q.category, if q.scope == DirectScope then Just(q.account) else Subtree(q.account))
  }

  // The text-prefix test selects exactly the accounts rolled up in the row.
  lemma MatchIsKey(x: Contribution, q: Query)
    requires q.scope != UnknownScope
    ensures MatchOf(q)(x) <==> x.key in QueryKeys(q)
  {
  }

  ghost function AllKeys(): iset<AmountKey> {
    iset k: AmountKey | |k.account| >= 0
  }

  lemma MatchedSum(items: seq<Contribution>, q: Query)
    requires q.scope != UnknownScope
    ensures ItemSum(Keep(items, MatchOf(q)), AllKeys()) == ItemSum(items, QueryKeys(q))
  {
    hide MatchOf, QueryKeys, Keep, ItemSum;
    forall x | x in items
      ensures MatchOf(q)(x) <==> x.key in QueryKeys(q)
    {
      MatchIsKey(x, q);
    }
    KeepSum(items, MatchOf(q), QueryKeys(q), AllKeys());
    assert AllKeys() * QueryKeys(q) == QueryKeys(q);
  }

  lemma {:induction false} KeepSwap(items: seq<Contribution>, f: Contribution -> bool, g: Contribution -> bool)
    ensures Keep(Keep(items, f), g) == Keep(Keep(items, g), f)
  {
    if items != [] {
      var front, last := items[..|items| - 1], items[|items| - 1];
      KeepSwap(front, f, g);
      KeepAppend(Keep(front, f), if f(last) then [last] else [], g);
      KeepAppend(Keep(front, g), if g(last) then [last] else [], f);
      KeepOne(last, f);
      KeepOne(last, g);
    }
  }

  lemma KeepOne(x: Contribution, f: Contribution -> bool)
    ensures Keep([x], f) == (if f(x) then [x] else []) && Keep([], f) == []
  {
    assert [x][..0] == [];
    assert Keep([], f) == [];
  }

  // ------------------------------------------------------- the explained sums

  function ExplainStep(sums: RowSums, x: Contribution): RowSums {
    var value := Of(x.value);
    var closed := sums.(closing := Plus(sums.closing, value));
    if x.role == OpeningRole then closed.(opening := Plus(sums.opening, value))
    else if Sign(x.value) >= 0 then closed.(debit := Plus(sums.debit, value))
    else closed.(credit := Plus(sums.credit, value))
  }

  // The figures rebuilt by adding the contributions one by one.
  function Explained(items: seq<Contribution>): RowSums {
    if items == [] then NoSums else ExplainStep(Explained(items[..|items| - 1]), items[|items| - 1])
  }

  predicate AllInRole(items: seq<Contribution>, role: Role) {
    forall x | x in items :: x.role == role
  }

  lemma ShareOfAll(x: Contribution)
    ensures Share(x, AllKeys()) == Of(x.value)
  {
  }

  lemma NoneExplained()
    ensures Explained([]) == NoSums
  {
  }

  lemma ExplainedStep(items: seq<Contribution>, x: Contribution)
    ensures Explained(items + [x]) == ExplainStep(Explained(items), x)
  {
    assert (items + [x])[..|items|] == items;
  }

  lemma {:induction false} ExplainedOpening(items: seq<Contribution>)
    requires AllInRole(items, OpeningRole)
    ensures Explained(items) == RowSums(ItemSum(items, AllKeys()), Unset, Unset, ItemSum(items, AllKeys()))
  {
    hide Plus, Of, Share;
    if items != [] {
      var front, last := items[..|items| - 1], items[|items| - 1];
      assert items == front + [last];
      ExplainedOpening(front);
      ShareOfAll(last);
    }
  }

  // Opening contributions followed by movements explain a whole row.
  lemma {:induction false} ExplainedRow(a: seq<Contribution>, b: seq<Contribution>)
    requires AllInRole(a, OpeningRole) && AllInRole(b, MovementRole)
    ensures Explained(a + b) == Combined(ItemSum(a, AllKeys()), ItemSum(Debits(b), AllKeys()), ItemSum(Credits(b), AllKeys()))
  {
    hide Plus, Of, Share, Sign, ItemSum, Explained, Debits, Credits;
    if b == [] {
      assert a + b == a;
      ExplainedOpening(a);
      NoSidesSum();
      PlusUnset(ItemSum(a, AllKeys()));
    } else {
      var front, last := b[..|b| - 1], b[|b| - 1];
      assert b == front + [last] && a + b == (a + front) + [last];
      ExplainedRow(a, front);
      ExplainedStep(a + front, last);
      assert last.role == MovementRole;
      SideStep(front, last);
      ShareOfAll(last);
      var o, d, c, v := ItemSum(a, AllKeys()), ItemSum(Debits(front), AllKeys()), ItemSum(Credits(front), AllKeys()), Of(last.value);
      PlusAssociates(Plus(o, d), c, v);
      PlusCommutes(c, v);
      PlusAssociates(Plus(o, d), v, c);
      PlusAssociates(o, d, v);
    }
  }

  lemma NoSidesSum()
    ensures Debits([]) == [] && Credits([]) == [] && ItemSum([], AllKeys()) == Unset
  {
  }

  lemma SideStep(front: seq<Contribution>, x: Contribution)
    ensures var d, c := ItemSum(Debits(front), AllKeys()), ItemSum(Credits(front), AllKeys());
            && ItemSum(Debits(front + [x]), AllKeys()) == (if Sign(x.value) >= 0 then Plus(d, Share(x, AllKeys())) else d)
            && ItemSum(Credits(front + [x]), AllKeys()) == (if Sign(x.value) >= 0 then c else Plus(c, Share(x, AllKeys())))
  {
    hide Plus, Share, ItemSum, Sign, Keep;
    KeepAppend(front, [x], IsDebit);
    KeepAppend(front, [x], IsCredit);
    KeepOne(x, IsDebit);
    KeepOne(x, IsCredit);
    assert Debits(front) + [] == Debits(front) && Credits(front) + [] == Credits(front);
    OneMore(Debits(front), x, AllKeys());
    OneMore(Credits(front), x, AllKeys());
  }

  lemma KeptInRole(items: seq<Contribution>, f: Contribution -> bool, role: Role)
    requires AllInRole(items, role)
    ensures AllInRole(Keep(items, f), role)
  {
    forall x | x in Keep(items, f)
      ensures x.role == role
    {
      KeepMembers(items, f, x);
    }
  }

  // The matching contributions rebuild exactly the row of the query.
  lemma MatchesExplainRow(opening: seq<Contribution>, movement: seq<Contribution>, q: Query)
    requires q.scope != UnknownScope && AllInRole(opening, OpeningRole) && AllInRole(movement, MovementRole)
    ensures Explained(Keep(opening + movement, MatchOf(q))) == ItemRow(opening, movement, QueryKeys(q))
  {
    hide Plus, Explained, ItemSum, Keep, MatchOf, QueryKeys, AllInRole;
    var f := MatchOf(q);
    KeepAppend(opening, movement, f);
    KeptInRole(opening, f, OpeningRole);
    KeptInRole(movement, f, MovementRole);
    ExplainedRow(Keep(opening, f), Keep(movement, f));
    MatchedSum(opening, q);
    KeepSwap(movement, f, IsDebit);
    KeepSwap(movement, f, IsCredit);
    MatchedSum(Debits(movement), q);
    MatchedSum(Credits(movement), q);
  }

  // ------------------------------------------------------------- the roles

  lemma {:induction false} MovementsInRole(
    entries: seq<Entry>, p: Period, excluded: seq<string>, cs: seq<Classification>, role: Role)
    requires AllEntriesValid(entries)
    ensures AllInRole(MovementItems(entries, p, excluded, cs, role), role)
  {
    hide Valid, AmountOf, Classify, Selected;
    if entries != [] {
      MovementsInRole(entries[..|entries| - 1], p, excluded, cs, role);
    }
  }

  lemma {:induction false} OpeningsInRole(ids: seq<string>, entries: seq<Entry>, cs: seq<Classification>)
    ensures AllInRole(OpeningEntryItems(ids, entries, cs), OpeningRole)
  {
    hide Valid, AmountOf, Classify, ById;
    if ids != [] {
      OpeningsInRole(ids[..|ids| - 1], entries, cs);
    }
  }

  lemma {:induction false} CarriedInRole(years: seq<FiscalYear>, t: nat, entries: seq<Entry>, cs: seq<Classification>)
    requires t < |years| && AllEntriesValid(entries)
    ensures AllInRole(Carried(years, t, entries, cs), OpeningRole)
  {
    hide AllEntriesValid, MovementItems, OpeningEntryItems, Keep, YearPeriod;
    if years[t].openingMode == OpeningEntries {
      OpeningsInRole(years[t].openingEntryIDs, entries, cs);
    } else if t > 0 {
      CarriedInRole(years, t - 1, entries, cs);
      var y := years[t - 1];
      MovementsInRole(entries, YearPeriod(y), y.openingEntryIDs, cs, OpeningRole);
      KeptInRole(Carried(years, t - 1, entries, cs) + YearItems(y, entries, cs), IsPermanent, OpeningRole);
    }
  }

  lemma SelectionRoles(years: seq<FiscalYear>, s: Selection, entries: seq<Entry>, cs: seq<Classification>)
    requires s.index < |years| && AllEntriesValid(entries)
    ensures AllInRole(OpeningItems(years, s, entries, cs), OpeningRole)
    ensures AllInRole(PeriodItems(years, s, entries, cs), MovementRole)
  {
    hide AllEntriesValid, MovementItems, Carried, PrevDay;
    CarriedInRole(years, s.index, entries, cs);
    var year := years[s.index];
    MovementsInRole(entries, s.period.period, year.openingEntryIDs, cs, MovementRole);
    MovementsInRole(entries, Period(s.period.fiscalYearStart, PrevDay(s.period.period.startDate)), year.openingEntryIDs, cs, OpeningRole);
  }

  // -------------------------------------------------------------- grouping

  // The groups in order of first appearance.
  function FirstKeys<K(==)>(items: seq<Contribution>, key: Contribution -> K): seq<K> {
    if items == [] then []
    else
      var before, k := FirstKeys(items[..|items| - 1], key), key(items[|items| - 1]);
      if k in before then before else before + [k]
  }

  // The contributions of one group, in order.
  function Members<K(==)>(items: seq<Contribution>, key: Contribution -> K, k: K): seq<Contribution> {
    Keep(items, x => key(x) == k)
  }

  lemma FirstKeysStep<K>(items: seq<Contribution>, x: Contribution, key: Contribution -> K)
    ensures FirstKeys(items + [x], key) ==
            if key(x) in FirstKeys(items, key) then FirstKeys(items, key) else FirstKeys(items, key) + [key(x)]
  {
    assert (items + [x])[..|items|] == items;
  }

  lemma MembersStep<K>(items: seq<Contribution>, x: Contribution, key: Contribution -> K, k: K)
    ensures Members(items + [x], key, k) == (if key(x) == k then Members(items, key, k) + [x] else Members(items, key, k))
  {
    assert (items + [x])[..|items|] == items;
    assert Members(items, key, k) + [] == Members(items, key, k);
  }

  lemma {:induction false} GroupsNonempty<K>(items: seq<Contribution>, key: Contribution -> K, k: K)
    ensures k in FirstKeys(items, key) <==> Members(items, key, k) != []
    ensures forall i, j | 0 <= i < j < |FirstKeys(items, key)| :: FirstKeys(items, key)[i] != FirstKeys(items, key)[j]
  {
    if items != [] {
      var front, last := items[..|items| - 1], items[|items| - 1];
      assert items == front + [last];
      GroupsNonempty(front, key, k);
      MembersStep(front, last, key, k);
      FirstKeysStep(front, last, key);
    }
  }

  // ------------------------------------------------- groups add up to the whole

  // The sum of the groups named by the first n keys.
  ghost function GroupTotals<K>(items: seq<Contribution>, key: Contribution -> K, keys: seq<K>, L: iset<AmountKey>): Accumulator {
    if keys == [] then Unset
    else
      Plus(GroupTotals(items, key, keys[..|keys| - 1], L), ItemSum(Members(items, key, keys[|keys| - 1]), L))
  }

  function InKeys<K(==)>(key: Contribution -> K, keys: seq<K>): Contribution -> bool {
    x => key(x) in keys
  }

  lemma {:induction false} KeepSplits(
    items: seq<Contribution>, f: Contribution -> bool, g: Contribution -> bool, h: Contribution -> bool, L: iset<AmountKey>)
    requires forall x :: h(x) <==> f(x) || g(x)
    requires forall x :: !(f(x) && g(x))
    ensures ItemSum(Keep(items, h), L) == Plus(ItemSum(Keep(items, f), L), ItemSum(Keep(items, g), L))
  {
    hide Plus, Share, ItemSum;
    EmptyItemSum(L);
    if items == [] {
      PlusUnset(Unset);
    } else {
      var front, last := items[..|items| - 1], items[|items| - 1];
      KeepSplits(front, f, g, h, L);
      var a, b, s := ItemSum(Keep(front, f), L), ItemSum(Keep(front, g), L), Share(last, L);
      OneMore(Keep(front, h), last, L);
      OneMore(Keep(front, f), last, L);
      OneMore(Keep(front, g), last, L);
      assert Keep(front, h) + [] == Keep(front, h);
      assert Keep(front, f) + [] == Keep(front, f);
      assert Keep(front, g) + [] == Keep(front, g);
      PlusAssociates(a, b, s);
      PlusCommutes(b, s);
      PlusAssociates(a, s, b);
    }
  }

  lemma {:induction false} GroupTotalsSum<K>(items: seq<Contribution>, key: Contribution -> K, keys: seq<K>, L: iset<AmountKey>)
    requires forall i, j | 0 <= i < j < |keys| :: keys[i] != keys[j]
    ensures GroupTotals(items, key, keys, L) == ItemSum(Keep(items, InKeys(key, keys)), L)
  {
    hide Plus, ItemSum, Keep;
    if keys == [] {
      NothingKept(items, InKeys(key, keys));
      EmptyItemSum(L);
    } else {
      var front, last := keys[..|keys| - 1], keys[|keys| - 1];
      assert keys == front + [last];
      GroupTotalsSum(items, key, front, L);
      KeepSplits(items, InKeys(key, front), x => key(x) == last, InKeys(key, keys), L);
    }
  }

  lemma {:induction false} NothingKept(items: seq<Contribution>, f: Contribution -> bool)
    requires forall x :: !f(x)
    ensures Keep(items, f) == []
  {
    if items != [] {
      NothingKept(items[..|items| - 1], f);
    }
  }

  // Listing the contributions by entry loses nothing: the groups add up to the
  // whole, for every choice of accounts.
  lemma GroupsAddUp<K>(items: seq<Contribution>, key: Contribution -> K, L: iset<AmountKey>)
    ensures GroupTotals(items, key, FirstKeys(items, key), L) == ItemSum(items, L)
  {
    hide Plus, ItemSum, GroupTotals;
    var keys := FirstKeys(items, key);
    KeysApart(items, key);
    GroupTotalsSum(items, key, keys, L);
    forall x | x in items
      ensures InKeys(key, keys)(x)
    {
      GroupsNonempty(items, key, key(x));
      KeepMembers(items, y => key(y) == key(x), x);
    }
    KeepAll(items, InKeys(key, keys));
  }

  // ------------------------------------------------- the columns of a group

  predicate IsOpening(x: Contribution) {
    x.role == OpeningRole
  }

  predicate IsDebitMovement(x: Contribution) {
    x.role == MovementRole && Sign(x.value) >= 0
  }

  predicate IsCreditMovement(x: Contribution) {
    x.role == MovementRole && Sign(x.value) < 0
  }

  lemma KeepNext(front: seq<Contribution>, x: Contribution, f: Contribution -> bool)
    ensures ItemSum(Keep(front + [x], f), AllKeys()) ==
            if f(x) then Plus(ItemSum(Keep(front, f), AllKeys()), Of(x.value)) else ItemSum(Keep(front, f), AllKeys())
  {
    hide Plus, Of, ItemSum, Share;
    KeepAppend(front, [x], f);
    KeepOne(x, f);
    assert Keep(front, f) + [] == Keep(front, f);
    OneMore(Keep(front, f), x, AllKeys());
    ShareOfAll(x);
  }

  // The explained figures column by column.
  lemma {:induction false} ExplainedColumns(items: seq<Contribution>)
    ensures Explained(items) ==
            RowSums(ItemSum(Keep(items, IsOpening), AllKeys()), ItemSum(Keep(items, IsDebitMovement), AllKeys()),
                    ItemSum(Keep(items, IsCreditMovement), AllKeys()), ItemSum(items, AllKeys()))
  {
    hide Plus, Of, Share, Sign, Keep;
    if items == [] {
      NothingKept0();
    } else {
      var front, last := items[..|items| - 1], items[|items| - 1];
      assert items == front + [last];
      ExplainedColumns(front);
      KeepNext(front, last, IsOpening);
      KeepNext(front, last, IsDebitMovement);
      KeepNext(front, last, IsCreditMovement);
      ShareOfAll(last);
    }
  }

  lemma NothingKept0()
    ensures Keep([], IsOpening) == [] && Keep([], IsDebitMovement) == [] && Keep([], IsCreditMovement) == []
  {
  }

  lemma ExplainedIsSided(items: seq<Contribution>)
    ensures Sided(Explained(items))
  {
    hide Keep, Explained, SignOf, ItemSum;
    ExplainedColumns(items);
    forall x | x in Keep(items, IsDebitMovement)
      ensures Sign(x.value) >= 0
    {
      KeepMembers(items, IsDebitMovement, x);
    }
    forall x | x in Keep(items, IsCreditMovement)
      ensures Sign(x.value) <= 0
    {
      KeepMembers(items, IsCreditMovement, x);
    }
    ItemSign(Keep(items, IsDebitMovement), AllKeys());
    ItemSign(Keep(items, IsCreditMovement), AllKeys());
  }

  lemma {:induction false} ItemSign(items: seq<Contribution>, K: iset<AmountKey>)
    ensures (forall x | x in items :: Sign(x.value) >= 0) ==> SignOf(ItemSum(items, K)) >= 0
    ensures (forall x | x in items :: Sign(x.value) <= 0) ==> SignOf(ItemSum(items, K)) <= 0
  {
    hide Plus;
    UnsetSign();
    if items != [] {
      var front, last := items[..|items| - 1], items[|items| - 1];
      assert items == front + [last];
      ItemSign(front, K);
      PlusKeepsSign(ItemSum(front, K), Share(last, K));
    }
  }

  // The explained rows of the groups named by the keys, added up.
  ghost function GroupRowTotals<K>(items: seq<Contribution>, key: Contribution -> K, keys: seq<K>): RowSums {
    if keys == [] then NoSums
    else
      AddRows(GroupRowTotals(items, key, keys[..|keys| - 1]), Explained(Members(items, key, keys[|keys| - 1])))
  }

  lemma {:induction false} RowTotalColumns<K>(items: seq<Contribution>, key: Contribution -> K, keys: seq<K>)
    ensures GroupRowTotals(items, key, keys) ==
            RowSums(GroupTotals(Keep(items, IsOpening), key, keys, AllKeys()),
                    GroupTotals(Keep(items, IsDebitMovement), key, keys, AllKeys()),
                    GroupTotals(Keep(items, IsCreditMovement), key, keys, AllKeys()), GroupTotals(items, key, keys, AllKeys()))
  {
    hide Plus, ItemSum, Keep, Explained;
    if keys != [] {
      var k := keys[|keys| - 1];
      RowTotalColumns(items, key, keys[..|keys| - 1]);
      ExplainedColumns(Members(items, key, k));
      MembersOfKept(items, key, k, IsOpening);
      MembersOfKept(items, key, k, IsDebitMovement);
      MembersOfKept(items, key, k, IsCreditMovement);
    }
  }

  lemma MembersOfKept<K>(items: seq<Contribution>, key: Contribution -> K, k: K, f: Contribution -> bool)
    ensures Members(Keep(items, f), key, k) == Keep(Members(items, key, k), f)
  {
    hide Keep;
    KeepSwap(items, f, x => key(x) == k);
  }

  lemma KeyNamed<K>(items: seq<Contribution>, key: Contribution -> K, f: Contribution -> bool)
    ensures Keep(Keep(items, f), InKeys(key, FirstKeys(items, key))) == Keep(items, f)
  {
    hide Keep, FirstKeys;
    var keys := FirstKeys(items, key);
    forall x | x in Keep(items, f)
      ensures InKeys(key, keys)(x)
    {
      KeepMembers(items, f, x);
      GroupsNonempty(items, key, key(x));
      KeepMembers(items, y => key(y) == key(x), x);
    }
    KeepAll(Keep(items, f), InKeys(key, keys));
  }

  lemma KeysApart<K>(items: seq<Contribution>, key: Contribution -> K)
    ensures forall i, j | 0 <= i < j < |FirstKeys(items, key)| :: FirstKeys(items, key)[i] != FirstKeys(items, key)[j]
  {
    hide FirstKeys;
    var keys := FirstKeys(items, key);
    forall i, j | 0 <= i < j < |keys|
      ensures keys[i] != keys[j]
    {
      GroupsNonempty(items, key, keys[i]);
    }
  }

  // In every column the groups add up to the whole.
  lemma GroupRowsAddUp<K>(items: seq<Contribution>, key: Contribution -> K)
    ensures GroupRowTotals(items, key, FirstKeys(items, key)) == Explained(items)
  {
    hide Plus, ItemSum, Keep, Explained, FirstKeys, GroupTotals;
    var keys := FirstKeys(items, key);
    KeysApart(items, key);
    RowTotalColumns(items, key, keys);
    ExplainedColumns(items);
    GroupTotalsSum(Keep(items, IsOpening), key, keys, AllKeys());
    GroupTotalsSum(Keep(items, IsDebitMovement), key, keys, AllKeys());
    GroupTotalsSum(Keep(items, IsCreditMovement), key, keys, AllKeys());
    KeyNamed(items, key, IsOpening);
    KeyNamed(items, key, IsDebitMovement);
    KeyNamed(items, key, IsCreditMovement);
    GroupsAddUp(items, key, AllKeys());
  }
}
