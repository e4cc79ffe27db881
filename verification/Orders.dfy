// Strict total orders, sorted sequences and the lexicographic orders the
// repository sorts by.
module Orders {

  ghost predicate StrictTotal<T(!new)>(less: (T, T) -> bool) {
    && (forall x :: !less(x, x))
    && (forall x, y, z :: less(x, y) && less(y, z) ==> less(x, z))
    && (forall x, y :: less(x, y) || x == y || less(y, x))
  }

  predicate Increasing<T>(s: seq<T>, less: (T, T) -> bool) {
    forall i, j | 0 <= i < j < |s| :: less(s[i], s[j])
  }

  lemma {:induction false} LeastExists<T(!new)>(S: set<T>, less: (T, T) -> bool) returns (m: T)
    requires StrictTotal(less) && S != {}
    ensures m in S && forall y | y in S :: y == m || less(m, y)
  {
    m :| m in S;
    if S != {m} {
      var n := LeastExists(S - {m}, less);
      assert forall y | y in S :: y == m || y in S - {m};
      if less(n, m) {
        m := n;
      }
    }
  }

  // The elements of a finite set in increasing order.
  ghost function Sorted<T(!new)>(S: set<T>, less: (T, T) -> bool): (s: seq<T>)
    requires StrictTotal(less)
    ensures Increasing(s, less)
    ensures forall x :: x in s <==> x in S
    decreases |S|
  {
    if S == {} then []
    else
      assert exists m :: m in S && forall y | y in S :: y == m || less(m, y) by {
        var m := LeastExists(S, less);
      }
      var m :| m in S && forall y | y in S :: y == m || less(m, y);
      [m] + Sorted(S - {m}, less)
  }

  // Two increasing sequences with the same elements are equal.
  lemma {:induction false} IncreasingUnique<T(!new)>(s: seq<T>, t: seq<T>, less: (T, T) -> bool)
    requires StrictTotal(less) && Increasing(s, less) && Increasing(t, less)
    requires forall x :: x in s <==> x in t
    ensures s == t
  {
    if s == [] {
      assert forall i | 0 <= i < |t| :: t[i] in s;
    } else {
      assert s[0] in t && s[0] in s;
      assert t != [];
      assert t[0] in s;
      assert s[0] == t[0] by {
        var i :| 0 <= i < |t| && t[i] == s[0];
        var j :| 0 <= j < |s| && s[j] == t[0];
      }
      forall x
        ensures x in s[1..] <==> x in t[1..]
      {
        TailElements(s, less, x);
        TailElements(t, less, x);
      }
      IncreasingUnique(s[1..], t[1..], less);
    }
  }

  lemma TailElements<T(!new)>(s: seq<T>, less: (T, T) -> bool, x: T)
    requires StrictTotal(less) && Increasing(s, less) && s != []
    ensures x in s[1..] <==> x in s && x != s[0]
  {
    assert s == [s[0]] + s[1..];
  }

  // sort.Slice over distinct values.
  method SortDistinct<T(!new)>(values: seq<T>, less: (T, T) -> bool) returns (s: seq<T>)
    requires StrictTotal(less)
    requires forall i, j | 0 <= i < j < |values| :: values[i] != values[j]
    ensures s == Sorted((set x | x in values), less)
  {
    s := [];
    var n := 0;
    while n < |values|
      invariant 0 <= n <= |values|
      invariant Increasing(s, less)
      invariant forall x :: x in s <==> x in values[..n]
    {
      var x := values[n];
      assert x !in values[..n];
      s := Insert(x, s, less);
      assert values[..n + 1] == values[..n] + [x];
      n := n + 1;
    }
    assert values[..|values|] == values;
    IncreasingUnique(s, Sorted((set x | x in values), less), less);
  }

  method Insert<T(!new)>(x: T, s: seq<T>, less: (T, T) -> bool) returns (t: seq<T>)
    requires StrictTotal(less) && Increasing(s, less) && x !in s
    ensures Increasing(t, less)
    ensures forall y :: y in t <==> y == x || y in s
  {
    var i := 0;
    while i < |s| && less(s[i], x)
      invariant 0 <= i <= |s|
      invariant forall j | 0 <= j < i :: less(s[j], x)
    {
      i := i + 1;
    }
    t := s[..i] + [x] + s[i..];
    assert s == s[..i] + s[i..];
    assert forall j | i <= j < |s| :: less(x, s[j]) by {
      forall j | i <= j < |s|
        ensures less(x, s[j])
      {
        assert s[i] in s;
      }
    }
  }

  // ------------------------------------------------------- sorting by a key

  // A total preorder: ties are allowed.
  ghost predicate TotalPreorder<T(!new)>(before: (T, T) -> bool) {
    && (forall x, y :: before(x, y) || before(y, x))
    && (forall x, y, z :: before(x, y) && before(y, z) ==> before(x, z))
  }

  predicate OrderedBy<T>(s: seq<T>, before: (T, T) -> bool) {
    forall i, j | 0 <= i < j < |s| :: before(s[i], s[j])
  }

  function InsertBy<T>(x: T, s: seq<T>, before: (T, T) -> bool): seq<T> {
    if s == [] || before(x, s[0]) then [x] + s else [s[0]] + InsertBy(x, s[1..], before)
  }

  // A stable insertion sort, standing for sort.Slice and sort.SliceStable.
  function SortBy<T>(s: seq<T>, before: (T, T) -> bool): seq<T> {
    if s == [] then [] else InsertBy(s[0], SortBy(s[1..], before), before)
  }

  lemma {:induction false} InsertByMembers<T>(x: T, s: seq<T>, before: (T, T) -> bool)
    ensures multiset(InsertBy(x, s, before)) == multiset([x] + s)
  {
    if s == [] || before(x, s[0]) {
    } else {
      InsertByMembers(x, s[1..], before);
      assert s == [s[0]] + s[1..];
    }
  }

  lemma {:induction false} SortByMembers<T>(s: seq<T>, before: (T, T) -> bool)
    ensures multiset(SortBy(s, before)) == multiset(s) && |SortBy(s, before)| == |s|
    ensures forall x :: x in SortBy(s, before) <==> x in s
  {
    if s != [] {
      SortByMembers(s[1..], before);
      InsertByMembers(s[0], SortBy(s[1..], before), before);
      assert s == [s[0]] + s[1..];
    }
    SameMembers(SortBy(s, before), s);
  }

  lemma SameMembers<T>(a: seq<T>, b: seq<T>)
    requires multiset(a) == multiset(b)
    ensures |a| == |b| && forall x :: x in a <==> x in b
  {
    assert |multiset(a)| == |a| && |multiset(b)| == |b|;
    assert forall x :: x in a <==> x in multiset(a);
    assert forall x :: x in b <==> x in multiset(b);
  }

  lemma {:induction false} InsertByOrdered<T(!new)>(x: T, s: seq<T>, before: (T, T) -> bool)
    requires TotalPreorder(before) && OrderedBy(s, before)
    ensures OrderedBy(InsertBy(x, s, before), before)
  {
    if s == [] {
    } else if before(x, s[0]) {
      assert forall j | 0 <= j < |s| :: before(x, s[j]) by {
        assert forall j | 0 < j < |s| :: before(s[0], s[j]);
      }
    } else {
      InsertByOrdered(x, s[1..], before);
      var rest := InsertBy(x, s[1..], before);
      InsertByMembers(x, s[1..], before);
      SameMembers(rest, [x] + s[1..]);
      forall j | 0 <= j < |rest|
        ensures before(s[0], rest[j])
      {
        assert rest[j] in [x] + s[1..];
      }
    }
  }

  lemma {:induction false} SortByOrdered<T(!new)>(s: seq<T>, before: (T, T) -> bool)
    requires TotalPreorder(before)
    ensures OrderedBy(SortBy(s, before), before)
  {
    if s != [] {
      SortByOrdered(s[1..], before);
      InsertByOrdered(s[0], SortBy(s[1..], before), before);
    }
  }

  // --------------------------------------------------- lexicographic orders

  // Byte order of UTF-8 text is the order of its code points.
  predicate TextLess(a: string, b: string) {
    b != "" && (a == "" || a[0] < b[0] || (a[0] == b[0] && TextLess(a[1..], b[1..])))
  }

  lemma {:induction false} TextTransitive(a: string, b: string, c: string)
    requires TextLess(a, b) && TextLess(b, c)
    ensures TextLess(a, c)
  {
    if a != "" && a[0] == b[0] && b[0] == c[0] {
      TextTransitive(a[1..], b[1..], c[1..]);
    }
  }

  lemma {:induction false} TextTrichotomy(a: string, b: string)
    ensures TextLess(a, b) || a == b || TextLess(b, a)
    ensures !TextLess(a, a)
  {
    if a != "" {
      TextTrichotomy(a[1..], a[1..]);
      if b != "" && a[0] == b[0] {
        TextTrichotomy(a[1..], b[1..]);
        assert a == [a[0]] + a[1..] && b == [b[0]] + b[1..];
      }
    }
  }

  lemma TextOrder()
    ensures StrictTotal(TextLess)
  {
    forall x, y, z | TextLess(x, y) && TextLess(y, z)
      ensures TextLess(x, z)
    {
      TextTransitive(x, y, z);
    }
    forall x, y
      ensures TextLess(x, y) || x == y || TextLess(y, x)
      ensures !TextLess(x, x)
    {
      TextTrichotomy(x, y);
    }
  }

  // slices.Compare over account parts.
  predicate PathLess(a: seq<string>, b: seq<string>) {
    b != [] && (a == [] || TextLess(a[0], b[0]) || (a[0] == b[0] && PathLess(a[1..], b[1..])))
  }

  lemma {:induction false} PathTransitive(a: seq<string>, b: seq<string>, c: seq<string>)
    requires PathLess(a, b) && PathLess(b, c)
    ensures PathLess(a, c)
  {
    TextOrder();
    if a != [] && a[0] == b[0] && b[0] == c[0] {
      PathTransitive(a[1..], b[1..], c[1..]);
    }
  }

  lemma {:induction false} PathTrichotomy(a: seq<string>, b: seq<string>)
    ensures PathLess(a, b) || a == b || PathLess(b, a)
    ensures !PathLess(a, a)
  {
    TextOrder();
    if a != [] {
      PathTrichotomy(a[1..], a[1..]);
      if b != [] && a[0] == b[0] {
        PathTrichotomy(a[1..], b[1..]);
        assert a == [a[0]] + a[1..] && b == [b[0]] + b[1..];
      }
    }
  }
}
