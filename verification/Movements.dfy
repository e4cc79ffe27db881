// What reports add up: the contributions of validated entries, the totals they
// accumulate to per commodity, category and account, and the carry-forward of
// balances from one fiscal year to the next.
module Movements {
  import opened Results
  import opened Decimals
  import opened Orders
  import opened Calendar
  import opened Ledger
  import opened Accumulators
  import opened Configurations

  datatype Entry = Entry(id: string, entry: JournalEntry)

  datatype AmountKey = AmountKey(commodity: string, category: Category, account: string)

  datatype Role = OpeningRole | MovementRole

  // One posting's amount with the entry it came from.
  datatype Contribution = Contribution(entry: Entry, postingIndex: nat, key: AmountKey, value: Decimal, role: Role)

  type Totals = map<AmountKey, Accumulator>

  // ------------------------------------------------------ sums of contributions

  function AddTo(m: Totals, key: AmountKey, value: Fixed): Totals {
    m[key := Plus(Get(m, key), Of(value))]
  }

  // Adding contributions one after the other.
  function Post(m: Totals, items: seq<Contribution>): Totals {
    if items == [] then m
    else AddTo(Post(m, items[..|items| - 1]), items[|items| - 1].key, items[|items| - 1].value)
  }

  function Tally(items: seq<Contribution>): Totals {
    Post(map[], items)
  }

  ghost function Share(item: Contribution, K: iset<AmountKey>): Accumulator {
    if item.key in K then Of(item.value) else Unset
  }

  // The exact sum of the contributions to the accounts in K.
  ghost function ItemSum(items: seq<Contribution>, K: iset<AmountKey>): Accumulator {
    if items == [] then Unset
    else Plus(ItemSum(items[..|items| - 1], K), Share(items[|items| - 1], K))
  }

  // The exact sum of the totals kept for the accounts in K.
  ghost function TotalSum(m: Totals, K: iset<AmountKey>): Accumulator {
    SumOver(m, set k | k in m && k in K)
  }

  lemma AddToSum(m: Totals, key: AmountKey, value: Fixed, K: iset<AmountKey>)
    ensures TotalSum(AddTo(m, key, value), K) == Plus(TotalSum(m, K), if key in K then Of(value) else Unset)
  {
    hide Plus, Of;
    var n := AddTo(m, key, value);
    var S, T := set k | k in m && k in K, set k | k in n && k in K;
    var R := S - {key};
    SumOverSame(m, n, R);
    if key in K {
      assert T == R + {key};
      SumOverInsert(n, R, key);
      PlusAssociates(SumOver(m, R), Get(m, key), Of(value));
      if key in m {
        assert S == R + {key};
        SumOverInsert(m, R, key);
      } else {
        assert S == R;
        PlusUnset(SumOver(m, R));
      }
    } else {
      assert S == T == R;
      PlusUnset(SumOver(m, S));
    }
  }

  // The bridge between the two bookkeeping paths: for every choice of
  // accounts, the totals and the contributions have the same exact sum.
  lemma {:induction false} PostSum(m: Totals, items: seq<Contribution>, K: iset<AmountKey>)
    ensures TotalSum(Post(m, items), K) == Plus(TotalSum(m, K), ItemSum(items, K))
  {
    hide Plus, TotalSum, AddTo, Of;
    if items == [] {
      PlusUnset(TotalSum(m, K));
    } else {
      var front, last := items[..|items| - 1], items[|items| - 1];
      PostSum(m, front, K);
      AddToSum(Post(m, front), last.key, last.value, K);
      PlusAssociates(TotalSum(m, K), ItemSum(front, K), Share(last, K));
    }
  }

  lemma TallySum(items: seq<Contribution>, K: iset<AmountKey>)
    ensures TotalSum(Tally(items), K) == ItemSum(items, K)
  {
    hide Plus, Post;
    var none: Totals := map[];
    PostSum(none, items, K);
    assert (set k | k in none && k in K) == {};
    EmptySum(none);
    PlusUnset(ItemSum(items, K));
  }

  lemma {:induction false} PostKeys(m: Totals, items: seq<Contribution>, key: AmountKey)
    ensures key in Post(m, items) <==> key in m || exists x :: x in items && x.key == key
  {
    hide Plus, Of;
    if items != [] {
      var front, last := items[..|items| - 1], items[|items| - 1];
      PostKeys(m, front, key);
      assert items == front + [last];
    }
  }

  lemma TotalSumOne(m: Totals, key: AmountKey)
    ensures TotalSum(m, iset{key}) == Get(m, key)
  {
    hide Plus;
    var K := iset{key};
    var S := set k | k in m && k in K;
    assert TotalSum(m, K) == SumOver(m, S);
    if key in m {
      assert S == {key};
      SumOverSingle(m, key);
    } else {
      assert S == {};
      EmptySum(m);
    }
  }

  lemma PostGet(m: Totals, items: seq<Contribution>, key: AmountKey)
    ensures Get(Post(m, items), key) == Plus(Get(m, key), ItemSum(items, iset{key}))
  {
    hide Plus, TotalSum, Post;
    PostSum(m, items, iset{key});
    TotalSumOne(m, key);
    TotalSumOne(Post(m, items), key);
  }

  // Totals are determined by their keys and the sum of each.
  lemma SameTotals(m: Totals, n: Totals)
    requires forall k :: k in m <==> k in n
    requires forall k | k in m :: Get(m, k) == Get(n, k)
    ensures m == n
  {
    assert m.Keys == n.Keys;
    assert forall k | k in m :: m[k] == Get(m, k) && n[k] == Get(n, k);
  }

  lemma {:induction false} PostAppend(m: Totals, a: seq<Contribution>, b: seq<Contribution>)
    ensures Post(m, a + b) == Post(Post(m, a), b)
  {
    hide AddTo;
    if b == [] {
      assert a + b == a;
    } else {
      assert (a + b)[..|a + b| - 1] == a + b[..|b| - 1];
      PostAppend(m, a, b[..|b| - 1]);
    }
  }

  lemma {:induction false} ItemSumAppend(a: seq<Contribution>, b: seq<Contribution>, K: iset<AmountKey>)
    ensures ItemSum(a + b, K) == Plus(ItemSum(a, K), ItemSum(b, K))
  {
    hide Plus, Share;
    if b == [] {
      assert a + b == a;
      PlusUnset(ItemSum(a, K));
    } else {
      assert (a + b)[..|a + b| - 1] == a + b[..|b| - 1];
      ItemSumAppend(a, b[..|b| - 1], K);
      PlusAssociates(ItemSum(a, K), ItemSum(b[..|b| - 1], K), Share(b[|b| - 1], K));
    }
  }

  // Disjoint choices of accounts add up.
  lemma {:induction false} ItemSumSplit(items: seq<Contribution>, K: iset<AmountKey>, L: iset<AmountKey>)
    requires K !! L
    ensures ItemSum(items, K + L) == Plus(ItemSum(items, K), ItemSum(items, L))
  {
    hide Plus, Of;
    if items == [] {
      PlusUnset(Unset);
    } else {
      var front, last := items[..|items| - 1], items[|items| - 1];
      ItemSumSplit(front, K, L);
      PlusExchanges(ItemSum(front, K), ItemSum(front, L), Share(last, K), Share(last, L));
      PlusUnset(Share(last, K));
      PlusUnset(Share(last, L));
    }
  }

  // ------------------------------------------------------------- selecting items

  function Keep(items: seq<Contribution>, f: Contribution -> bool): seq<Contribution> {
    if items == [] then []
    else Keep(items[..|items| - 1], f) + (if f(items[|items| - 1]) then [items[|items| - 1]] else [])
  }

  lemma {:induction false} KeepAppend(a: seq<Contribution>, b: seq<Contribution>, f: Contribution -> bool)
    ensures Keep(a + b, f) == Keep(a, f) + Keep(b, f)
  {
    if b == [] {
      assert a + b == a;
    } else {
      assert (a + b)[..|a + b| - 1] == a + b[..|b| - 1];
      KeepAppend(a, b[..|b| - 1], f);
    }
  }

  lemma {:induction false} KeepMembers(items: seq<Contribution>, f: Contribution -> bool, x: Contribution)
    ensures x in Keep(items, f) <==> x in items && f(x)
  {
    if items != [] {
      KeepMembers(items[..|items| - 1], f, x);
      assert items == items[..|items| - 1] + [items[|items| - 1]];
    }
  }

  lemma {:induction false} KeepAll(items: seq<Contribution>, f: Contribution -> bool)
    requires forall x | x in items :: f(x)
    ensures Keep(items, f) == items
  {
    if items != [] {
      KeepAll(items[..|items| - 1], f);
    }
  }

  lemma {:induction false} KeepTwice(items: seq<Contribution>, f: Contribution -> bool)
    ensures Keep(Keep(items, f), f) == Keep(items, f)
  {
    forall x | x in Keep(items, f)
      ensures f(x)
    {
      KeepMembers(items, f, x);
    }
    KeepAll(Keep(items, f), f);
  }

  // Keeping what lies in F is summing over K restricted to F.
  lemma {:induction false} KeepSum(items: seq<Contribution>, f: Contribution -> bool, F: iset<AmountKey>, K: iset<AmountKey>)
    requires forall x | x in items :: f(x) <==> x.key in F
    ensures ItemSum(Keep(items, f), K) == ItemSum(items, K * F)
  {
    hide Plus, Of;
    if items != [] {
      var front, last := items[..|items| - 1], items[|items| - 1];
      assert items == front + [last];
      KeepSum(front, f, F, K);
      if f(last) {
        OneMore(Keep(front, f), last, K);
        assert Share(last, K) == Share(last, K * F);
      } else {
        assert Keep(front, f) + [] == Keep(front, f);
        PlusUnset(ItemSum(front, K * F));
      }
    }
  }

  lemma OneMore(items: seq<Contribution>, x: Contribution, K: iset<AmountKey>)
    ensures ItemSum(items + [x], K) == Plus(ItemSum(items, K), Share(x, K))
  {
    assert (items + [x])[..|items|] == items;
  }

  predicate IsPermanentCategory(c: Category) {
    c == Asset || c == Liability || c == Equity
  }

  predicate IsPermanent(x: Contribution) {
    IsPermanentCategory(x.key.category)
  }

  predicate IsDebit(x: Contribution) {
    Sign(x.value) >= 0
  }

  predicate IsCredit(x: Contribution) {
    Sign(x.value) < 0
  }

  function Permanent(items: seq<Contribution>): seq<Contribution> {
    Keep(items, IsPermanent)
  }

  function Debits(items: seq<Contribution>): seq<Contribution> {
    Keep(items, IsDebit)
  }

  function Credits(items: seq<Contribution>): seq<Contribution> {
    Keep(items, IsCredit)
  }

  // Debits and credits split every sum.
  lemma {:induction false} DebitCreditSum(items: seq<Contribution>, K: iset<AmountKey>)
    ensures ItemSum(items, K) == Plus(ItemSum(Debits(items), K), ItemSum(Credits(items), K))
  {
    hide Plus, Share;
    if items == [] {
      PlusUnset(Unset);
    } else {
      var front, last := items[..|items| - 1], items[|items| - 1];
      DebitCreditSum(front, K);
      var d, c, s := ItemSum(Debits(front), K), ItemSum(Credits(front), K), Share(last, K);
      if IsDebit(last) {
        OneMore(Debits(front), last, K);
        assert Credits(front) + [] == Credits(front);
        PlusAssociates(d, c, s);
        PlusCommutes(c, s);
        PlusAssociates(d, s, c);
      } else {
        OneMore(Credits(front), last, K);
        assert Debits(front) + [] == Debits(front);
        PlusAssociates(d, c, s);
      }
    }
  }

  ghost function PermanentKeys(): iset<AmountKey> {
    iset k: AmountKey | k.category in {Asset, Liability, Equity}
  }

  ghost function TemporaryKeys(): iset<AmountKey> {
    iset k: AmountKey | k.category in {Revenue, Expense, Unclassified}
  }

  ghost function OfCommodity(commodity: string): iset<AmountKey> {
    iset k: AmountKey | k.commodity == commodity
  }

  // permanentOnly on the map and on the contributions.
  function PermanentTotals(m: Totals): Totals {
    map k | k in m && IsPermanentCategory(k.category) :: m[k]
  }

  lemma {:induction false} PermanentCommutes(items: seq<Contribution>)
    ensures PermanentTotals(Tally(items)) == Tally(Permanent(items))
  {
    hide Plus, Of;
    if items == [] {
    } else {
      var front, last := items[..|items| - 1], items[|items| - 1];
      PermanentCommutes(front);
      var m := Tally(front);
      if IsPermanent(last) {
        assert (Permanent(front) + [last])[..|Permanent(front)|] == Permanent(front);
        assert Get(PermanentTotals(m), last.key) == Get(m, last.key);
        assert PermanentTotals(AddTo(m, last.key, last.value)) == AddTo(PermanentTotals(m), last.key, last.value);
      } else {
        assert Permanent(front) + [] == Permanent(front);
        assert PermanentTotals(AddTo(m, last.key, last.value)) == PermanentTotals(m);
      }
    }
  }

  // --------------------------------------------------- contributions of entries

  // The amount posting i puts on its account: the total price when there is
  // one, the stated amount otherwise, the inferred amount when none is stated.
  function AmountOf(e: JournalEntry, i: nat): Amount
    requires Valid(e) && i < |e.postings|
  {
    var p := e.postings[i];
    if p.totalPrice.Some? then p.totalPrice.value
    else if p.amount.Some? then p.amount.value
    else
      LastOmitted(e, i);
      InferenceSucceeds(e);
      InferFinalAmount(e).value
  }

  lemma LastOmitted(e: JournalEntry, i: nat)
    requires Valid(e) && i < |e.postings| && e.postings[i].amount.None?
    ensures i == |e.postings| - 1 && Omits(e) && e.postings[i].totalPrice.None?
  {
    hide Validate;
    ValidPostings(e);
    assert ValidatePosting(e.postings[i]) == None;
  }

  function ItemAt(item: Entry, cs: seq<Classification>, role: Role, i: nat): Contribution
    requires Valid(item.entry) && i < |item.entry.postings|
  {
    var amount, account := AmountOf(item.entry, i), item.entry.postings[i].account;
    Contribution(item, i, AmountKey(amount.commodity, Classify(cs, account), account), amount.value, role)
  }

  function EntryItems(item: Entry, cs: seq<Classification>, role: Role): seq<Contribution>
    requires Valid(item.entry)
  {
    seq(|item.entry.postings|, i requires 0 <= i < |item.entry.postings| => ItemAt(item, cs, role, i))
  }

  // The values of an entry's contributions are those of the filled-in entry.
  lemma AmountIsEffective(e: JournalEntry, i: nat)
    requires Valid(e) && i < |e.postings|
    ensures |Filled(e).postings| == |e.postings|
    ensures Effective(Filled(e).postings[i]) == Some(AmountOf(e, i))
  {
    hide Validate, InferFinalAmount;
    InferenceSucceeds(e);
    if e.postings[i].amount.None? {
      LastOmitted(e, i);
    } else if Omits(e) && i == |e.postings| - 1 {
      assert false;
    }
  }

  ghost function FoldSum(values: seq<Decimal>): Accumulator {
    if values == [] then Unset else Plus(FoldSum(values[..|values| - 1]), Of(values[|values| - 1]))
  }

  lemma {:induction false} ScaledSumWiden(values: seq<Decimal>, via: nat, to: nat)
    requires MaxScale(values) <= via <= to
    ensures ScaledSum(values, to) == Widened(ScaledSum(values, via), via, to)
  {
    if values == [] {
    } else {
      var front, last := values[..|values| - 1], values[|values| - 1];
      ScaledSumWiden(front, via, to);
      WidenTwice(last.coefficient, last.scale, via, to);
      Distribute(ScaledSum(front, via), Scaled(last, via), Pow10(to - via));
    }
  }

  lemma FoldStep(front: seq<Decimal>, last: Decimal)
    requires front != []
    ensures Plus(Of(ExactSum(front)), Of(last)) == Of(ExactSum(front + [last]))
  {
    var values := front + [last];
    assert values[..|front|] == front;
    ScaledSumWiden(front, MaxScale(front), MaxScale(values));
  }

  // Adding accumulators step by step gives the ledger's exact sum.
  lemma {:induction false} FoldIsExactSum(values: seq<Decimal>)
    requires values != []
    ensures FoldSum(values) == Of(ExactSum(values))
  {
    hide Plus;
    var front, last := values[..|values| - 1], values[|values| - 1];
    assert values == front + [last];
    if front == [] {
      SingleSum(last);
      PlusUnset(Of(last));
      assert FoldSum(front) == Unset;
    } else {
      FoldIsExactSum(front);
      FoldStep(front, last);
    }
  }

  lemma SingleSum(v: Decimal)
    ensures ExactSum([v]) == v
  {
    var none: seq<Decimal> := [];
    assert [v][..0] == none;
    assert MaxScale(none) == 0;
    assert MaxScale([v]) == v.scale;
    assert ScaledSum(none, v.scale) == 0;
    assert Pow10(0) == 1;
  }

  lemma {:induction false} ItemSumIsFold(items: seq<Contribution>, values: seq<Decimal>, K: iset<AmountKey>)
    requires |items| == |values| && forall i | 0 <= i < |items| :: items[i].key in K && items[i].value == values[i]
    ensures ItemSum(items, K) == FoldSum(values)
  {
    hide Plus, Of;
    if items != [] {
      ItemSumIsFold(items[..|items| - 1], values[..|values| - 1], K);
    }
  }

  lemma {:induction false} ItemSumOutside(items: seq<Contribution>, K: iset<AmountKey>)
    requires forall x | x in items :: x.key !in K
    ensures ItemSum(items, K) == Unset
  {
    if items != [] {
      ItemSumOutside(items[..|items| - 1], K);
      PlusUnset(Unset);
    }
  }

  // Every validated entry adds exactly zero to each commodity.
  lemma EntryBalanced(item: Entry, cs: seq<Classification>, role: Role, commodity: string)
    requires Valid(item.entry)
    ensures IsZero(ItemSum(EntryItems(item, cs, role), OfCommodity(commodity)))
  {
    hide Plus, Validate, Filled, ExactSum, FoldSum, AmountOf, Classify;
    var e, items := item.entry, EntryItems(item, cs, role);
    Conservation(e);
    var ps := Filled(e).postings;
    ValidPostings(e);
    AmountIsEffective(e, 0);
    StatedCount(ps);
    forall i | 0 <= i < |items|
      ensures items[i].value == StatedValues(ps)[i] && items[i].key.commodity == Effective(ps[0]).value.commodity
    {
      AmountIsEffective(e, i);
    }
    if commodity == Effective(ps[0]).value.commodity {
      ItemSumIsFold(items, StatedValues(ps), OfCommodity(commodity));
      FoldIsExactSum(StatedValues(ps));
    } else {
      ItemSumOutside(items, OfCommodity(commodity));
    }
  }

  // ------------------------------------------------------- movements of a period

  predicate AllEntriesValid(entries: seq<Entry>) {
    forall i | 0 <= i < |entries| :: Valid(entries[i].entry)
  }

  predicate Selected(item: Entry, p: Period, excluded: seq<string>) {
    item.id !in excluded && InPeriod(item.entry.date.date, p)
  }

  function SelectedItems(item: Entry, p: Period, excluded: seq<string>, cs: seq<Classification>, role: Role): seq<Contribution>
    requires Valid(item.entry)
  {
    if Selected(item, p, excluded) then EntryItems(item, cs, role) else []
  }

  // The contributions of the entries dated in the period and not excluded, in entry order.
  function MovementItems(entries: seq<Entry>, p: Period, excluded: seq<string>, cs: seq<Classification>, role: Role)
      : seq<Contribution>
    requires AllEntriesValid(entries)
  {
    if entries == [] then []
    else
      MovementItems(entries[..|entries| - 1], p, excluded, cs, role)
      + SelectedItems(entries[|entries| - 1], p, excluded, cs, role)
  }

  lemma {:induction false} MovementsBalanced(
    entries: seq<Entry>, p: Period, excluded: seq<string>, cs: seq<Classification>, role: Role, commodity: string)
    requires AllEntriesValid(entries)
    ensures IsZero(ItemSum(MovementItems(entries, p, excluded, cs, role), OfCommodity(commodity)))
  {
    hide EntryItems, Plus, Selected, OfCommodity;
    if entries != [] {
      var front, last := entries[..|entries| - 1], entries[|entries| - 1];
      MovementsBalanced(front, p, excluded, cs, role, commodity);
      EntryBalanced(last, cs, role, commodity);
      var items, more := MovementItems(front, p, excluded, cs, role), SelectedItems(last, p, excluded, cs, role);
      ItemSumAppend(items, more, OfCommodity(commodity));
      PlusZero(ItemSum(items, OfCommodity(commodity)), ItemSum(more, OfCommodity(commodity)));
    }
  }

  lemma EmptyItemSum(K: iset<AmountKey>)
    ensures ItemSum([], K) == Unset
  {
  }

  // ------------------------------------------- order of entries, cuts of periods

  function Without<T>(s: seq<T>, i: nat): seq<T>
    requires i < |s|
  {
    s[..i] + s[i + 1..]
  }

  lemma FindAndRemove<T>(front: seq<T>, last: T, other: seq<T>) returns (i: nat)
    requires multiset(front + [last]) == multiset(other)
    ensures i < |other| && other[i] == last && multiset(front) == multiset(Without(other, i))
    ensures multiset(other) == multiset(Without(other, i)) + multiset{last}
  {
    assert last in multiset(other);
    i :| 0 <= i < |other| && other[i] == last;
    assert other == other[..i] + [last] + other[i + 1..];
    assert multiset(front) == multiset(front + [last]) - multiset{last};
    assert multiset(Without(other, i)) == multiset(other) - multiset{last};
  }

  lemma {:induction false} ItemSumWithout(items: seq<Contribution>, i: nat, K: iset<AmountKey>)
    requires i < |items|
    ensures ItemSum(items, K) == Plus(ItemSum(Without(items, i), K), Share(items[i], K))
  {
    hide Plus, Share;
    var n, rest := |items| - 1, Without(items, i);
    if i == n {
      assert rest == items[..n];
    } else {
      ItemSumWithout(items[..n], i, K);
      assert rest[..|rest| - 1] == Without(items[..n], i) && rest[|rest| - 1] == items[n];
      MoveLast(ItemSum(Without(items[..n], i), K), Share(items[i], K), Share(items[n], K));
    }
  }

  lemma MoveLast(a: Accumulator, b: Accumulator, c: Accumulator)
    ensures Plus(Plus(a, b), c) == Plus(Plus(a, c), b)
  {
    hide Plus;
    PlusAssociates(a, b, c);
    PlusCommutes(b, c);
    PlusAssociates(a, c, b);
  }

  // Exact sums depend only on the multiset of contributions.
  lemma {:induction false} ItemSumPermute(a: seq<Contribution>, b: seq<Contribution>, K: iset<AmountKey>)
    requires multiset(a) == multiset(b)
    ensures ItemSum(a, K) == ItemSum(b, K)
  {
    hide Plus, Share, Without;
    SameMembers(a, b);
    if a != [] {
      var front, last := a[..|a| - 1], a[|a| - 1];
      assert a == front + [last];
      var i := FindAndRemove(front, last, b);
      ItemSumPermute(front, Without(b, i), K);
      ItemSumWithout(b, i, K);
    }
  }

  lemma ItemSumUnion(a: seq<Contribution>, b: seq<Contribution>, c: seq<Contribution>, K: iset<AmountKey>)
    requires multiset(a) == multiset(b) + multiset(c)
    ensures ItemSum(a, K) == Plus(ItemSum(b, K), ItemSum(c, K))
  {
    hide Plus;
    assert multiset(b + c) == multiset(b) + multiset(c);
    ItemSumPermute(a, b + c, K);
    ItemSumAppend(b, c, K);
  }

  lemma {:induction false} KeepCount(items: seq<Contribution>, f: Contribution -> bool, x: Contribution)
    ensures multiset(Keep(items, f))[x] == if f(x) then multiset(items)[x] else 0
  {
    if items != [] {
      var front, last := items[..|items| - 1], items[|items| - 1];
      KeepCount(front, f, x);
      assert items == front + [last];
    }
  }

  lemma KeepPermute(a: seq<Contribution>, b: seq<Contribution>, f: Contribution -> bool)
    requires multiset(a) == multiset(b)
    ensures multiset(Keep(a, f)) == multiset(Keep(b, f))
  {
    forall x
      ensures multiset(Keep(a, f))[x] == multiset(Keep(b, f))[x]
    {
      KeepCount(a, f, x);
      KeepCount(b, f, x);
    }
  }

  lemma KeepUnion(a: seq<Contribution>, b: seq<Contribution>, c: seq<Contribution>, f: Contribution -> bool)
    requires multiset(a) == multiset(b) + multiset(c)
    ensures multiset(Keep(a, f)) == multiset(Keep(b, f)) + multiset(Keep(c, f))
  {
    hide Keep;
    assert multiset(b + c) == multiset(b) + multiset(c);
    KeepPermute(a, b + c, f);
    KeepAppend(b, c, f);
  }

  // A key has a total exactly when some contribution gave it a value.
  lemma KeyHasSum(items: seq<Contribution>, key: AmountKey)
    ensures key in Tally(items) <==> ItemSum(items, iset{key}).Sum?
    ensures key in Tally(items) ==> Tally(items)[key] == ItemSum(items, iset{key})
  {
    hide Plus, Post;
    var none: Totals := map[];
    PostGet(none, items, key);
    PlusUnset(ItemSum(items, iset{key}));
    TotalsSet(items, key);
  }

  lemma {:induction false} TotalsSet(items: seq<Contribution>, key: AmountKey)
    ensures key in Tally(items) ==> Tally(items)[key].Sum?
  {
    if items != [] {
      TotalsSet(items[..|items| - 1], key);
      SetIff(Get(Tally(items[..|items| - 1]), key), Of(items[|items| - 1].value));
    }
  }

  // Totals depend only on the multiset of contributions.
  lemma TallyPermute(a: seq<Contribution>, b: seq<Contribution>)
    requires multiset(a) == multiset(b)
    ensures Tally(a) == Tally(b)
  {
    hide Post, ItemSum;
    forall k: AmountKey
      ensures k in Tally(a) <==> k in Tally(b)
      ensures k in Tally(a) ==> Tally(a)[k] == Tally(b)[k]
    {
      ItemSumPermute(a, b, iset{k});
      KeyHasSum(a, k);
      KeyHasSum(b, k);
    }
  }

  lemma MovementLast(entries: seq<Entry>, p: Period, excluded: seq<string>, cs: seq<Classification>, role: Role)
    requires AllEntriesValid(entries) && entries != []
    ensures AllEntriesValid(entries[..|entries| - 1]) && Valid(entries[|entries| - 1].entry)
    ensures multiset(MovementItems(entries, p, excluded, cs, role))
         == multiset(MovementItems(entries[..|entries| - 1], p, excluded, cs, role))
          + multiset(SelectedItems(entries[|entries| - 1], p, excluded, cs, role))
  {
    hide SelectedItems, Valid;
  }

  lemma {:induction false} MovementsRemove(
    entries: seq<Entry>, i: nat, p: Period, excluded: seq<string>, cs: seq<Classification>, role: Role)
    requires AllEntriesValid(entries) && i < |entries|
    ensures AllEntriesValid(Without(entries, i)) && Valid(entries[i].entry)
    ensures multiset(MovementItems(entries, p, excluded, cs, role))
         == multiset(MovementItems(Without(entries, i), p, excluded, cs, role))
          + multiset(SelectedItems(entries[i], p, excluded, cs, role))
  {
    hide SelectedItems, MovementItems, Valid;
    var n, rest := |entries| - 1, Without(entries, i);
    MovementLast(entries, p, excluded, cs, role);
    if i == n {
      assert rest == entries[..n];
    } else {
      MovementsRemove(entries[..n], i, p, excluded, cs, role);
      assert rest[..|rest| - 1] == Without(entries[..n], i) && rest[|rest| - 1] == entries[n];
      MovementLast(rest, p, excluded, cs, role);
    }
  }

  // Movements depend, up to order, only on the multiset of entries.
  lemma {:induction false} MovementsPermute(
    entries: seq<Entry>, other: seq<Entry>, p: Period, excluded: seq<string>, cs: seq<Classification>, role: Role)
    requires multiset(entries) == multiset(other) && AllEntriesValid(entries) && AllEntriesValid(other)
    ensures multiset(MovementItems(entries, p, excluded, cs, role)) == multiset(MovementItems(other, p, excluded, cs, role))
  {
    hide SelectedItems, AllEntriesValid, Without, MovementItems;
    SameMembers(entries, other);
    if entries == [] {
      assert other == [];
    } else {
      var front, last := entries[..|entries| - 1], entries[|entries| - 1];
      assert entries == front + [last];
      var i := FindAndRemove(front, last, other);
      MovementLast(entries, p, excluded, cs, role);
      MovementsRemove(other, i, p, excluded, cs, role);
      MovementsPermute(front, Without(other, i), p, excluded, cs, role);
    }
  }

  // left and right cover the whole period and share no day.
  ghost predicate CutsInTwo(whole: Period, left: Period, right: Period) {
    && (forall d | ValidDate(d) :: InPeriod(d, whole) <==> InPeriod(d, left) || InPeriod(d, right))
    && (forall d | ValidDate(d) :: !(InPeriod(d, left) && InPeriod(d, right)))
  }

  lemma SelectedStitch(
    item: Entry, whole: Period, left: Period, right: Period, excluded: seq<string>, cs: seq<Classification>, role: Role)
    requires Valid(item.entry) && CutsInTwo(whole, left, right)
    ensures multiset(SelectedItems(item, whole, excluded, cs, role))
         == multiset(SelectedItems(item, left, excluded, cs, role)) + multiset(SelectedItems(item, right, excluded, cs, role))
  {
    hide EntryItems, InPeriod, Valid;
    var d := item.entry.date.date;
    assert InPeriod(d, whole) <==> InPeriod(d, left) || InPeriod(d, right);
  }

  // A period cut in two adjacent parts has the movements of both parts.
  lemma {:induction false} MovementsStitch(
    entries: seq<Entry>, whole: Period, left: Period, right: Period, excluded: seq<string>, cs: seq<Classification>,
    role: Role)
    requires AllEntriesValid(entries) && CutsInTwo(whole, left, right)
    ensures multiset(MovementItems(entries, whole, excluded, cs, role))
         == multiset(MovementItems(entries, left, excluded, cs, role))
          + multiset(MovementItems(entries, right, excluded, cs, role))
  {
    hide SelectedItems, CutsInTwo, AllEntriesValid, MovementItems;
    if entries == [] {
      NoMovements(whole, excluded, cs, role);
      NoMovements(left, excluded, cs, role);
      NoMovements(right, excluded, cs, role);
    } else {
      MovementLast(entries, whole, excluded, cs, role);
      MovementLast(entries, left, excluded, cs, role);
      MovementLast(entries, right, excluded, cs, role);
      MovementsStitch(entries[..|entries| - 1], whole, left, right, excluded, cs, role);
      SelectedStitch(entries[|entries| - 1], whole, left, right, excluded, cs, role);
    }
  }

  lemma NoMovements(p: Period, excluded: seq<string>, cs: seq<Classification>, role: Role)
    ensures AllEntriesValid([]) && MovementItems([], p, excluded, cs, role) == []
  {
  }

  // The role a contribution is collected under does not change any sum.
  lemma {:induction false} RoleIrrelevant(
    entries: seq<Entry>, p: Period, excluded: seq<string>, cs: seq<Classification>, r1: Role, r2: Role)
    requires AllEntriesValid(entries)
    ensures var a, b := MovementItems(entries, p, excluded, cs, r1), MovementItems(entries, p, excluded, cs, r2);
            |a| == |b| && forall i | 0 <= i < |a| :: a[i].key == b[i].key && a[i].value == b[i].value
  {
    hide Valid, AmountOf, Classify;
    if entries != [] {
      RoleIrrelevant(entries[..|entries| - 1], p, excluded, cs, r1, r2);
    }
  }

  lemma {:induction false} SameValuesSameSum(a: seq<Contribution>, b: seq<Contribution>, K: iset<AmountKey>)
    requires |a| == |b| && forall i | 0 <= i < |a| :: a[i].key == b[i].key && a[i].value == b[i].value
    ensures ItemSum(a, K) == ItemSum(b, K)
  {
    hide Plus, Of;
    if a != [] {
      SameValuesSameSum(a[..|a| - 1], b[..|b| - 1], K);
    }
  }
}
