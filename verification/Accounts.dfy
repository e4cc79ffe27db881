// Account names: parts separated by colons, ancestors, and the order in which
// account rows are listed.
module Accounts {
  import opened Texts
  import opened Orders

  function Parts(account: string): (parts: seq<string>)
    ensures parts != []
  {
    Split(account, ':')
  }

  // The i-th prefix of an account, counted in parts.
  function Prefix(account: string, i: nat): string
    requires i < |Parts(account)|
  {
    Join(Parts(account)[..i + 1], ':')
  }

  function Depth(account: string): nat {
    |Parts(account)| - 1
  }

  // account is `ancestor` or lies below it: the test used by classification
  // and by drill-down selection.
  predicate Under(account: string, ancestor: string) {
    account == ancestor || ancestor + ":" <= account
  }

  lemma {:induction false} JoinTakeDrop(parts: seq<string>, k: nat)
    requires 0 < k < |parts|
    ensures Join(parts, ':') == Join(parts[..k], ':') + ":" + Join(parts[k..], ':')
  {
    if k == 1 {
      assert parts[..1] == [parts[0]];
    } else {
      JoinTakeDrop(parts[1..], k - 1);
      assert parts[1..][..k - 1] == parts[..k][1..];
      assert parts[1..][k - 1..] == parts[k..];
      assert parts[..k][0] == parts[0];
    }
  }

  // Split/join prefixes are exactly the ancestors the prefix test recognises.
  lemma PrefixIffUnder(account: string, ancestor: string)
    ensures (exists i | 0 <= i < |Parts(account)| :: Prefix(account, i) == ancestor) <==> Under(account, ancestor)
    ensures Under(account, ancestor) ==>
              |Parts(ancestor)| <= |Parts(account)| && Prefix(account, |Parts(ancestor)| - 1) == ancestor
              && Parts(ancestor) <= Parts(account)
  {
    var parts := Parts(account);
    JoinOfSplit(account, ':');
    if i :| 0 <= i < |parts| && Prefix(account, i) == ancestor {
      PrefixIsUnder(account, i);
    }
    if Under(account, ancestor) {
      UnderIsPrefix(account, ancestor);
    }
  }

  lemma PrefixParts(parts: seq<string>)
    requires parts != [] && forall i | 0 <= i < |parts| :: ':' !in parts[i]
    ensures Parts(Join(parts, ':')) == parts
  {
    SplitOfJoin(parts, ':');
  }

  lemma PrefixIsUnder(account: string, i: nat)
    requires i < |Parts(account)|
    ensures Under(account, Prefix(account, i))
  {
    var parts := Parts(account);
    JoinOfSplit(account, ':');
    if i + 1 == |parts| {
      assert parts[..i + 1] == parts;
    } else {
      JoinTakeDrop(parts, i + 1);
    }
  }

  lemma UnderIsPrefix(account: string, ancestor: string)
    requires Under(account, ancestor)
    ensures Parts(ancestor) <= Parts(account) && Prefix(account, |Parts(ancestor)| - 1) == ancestor
  {
    var n := |Parts(ancestor)|;
    JoinOfSplit(ancestor, ':');
    if account == ancestor {
      assert Parts(account)[..n] == Parts(ancestor);
    } else {
      var rest := account[|ancestor| + 1..];
      assert account == ancestor + ":" + rest;
      SplitAppend(ancestor, ':', rest);
      assert Parts(account)[..n] == Parts(ancestor);
    }
  }

  // Being under an account is being an extension of its parts.
  lemma UnderIffExtends(account: string, ancestor: string)
    ensures Under(account, ancestor) <==> Parts(ancestor) <= Parts(account)
  {
    if Under(account, ancestor) {
      UnderIsPrefix(account, ancestor);
    }
    if Parts(ancestor) <= Parts(account) {
      var n := |Parts(ancestor)|;
      assert Parts(account)[..n] == Parts(ancestor);
      JoinOfSplit(ancestor, ':');
      PrefixIsUnder(account, n - 1);
    }
  }

  lemma PartsInjective(a: string, b: string)
    requires Parts(a) == Parts(b)
    ensures a == b
  {
    JoinOfSplit(a, ':');
    JoinOfSplit(b, ':');
  }

  // Each account has exactly one ancestor of depth zero.
  lemma RootUnique(account: string, root: string)
    ensures Under(account, root) && Depth(root) == 0 <==> root == Parts(account)[0]
  {
    UnderIffExtends(account, root);
    var first := Parts(account)[0];
    SplitWhole(first, ':');
    if Under(account, root) && Depth(root) == 0 {
      assert Parts(root) == [first];
      PartsInjective(root, first);
    }
  }

  // The ancestors of one account are comparable with each other.
  lemma AncestorsChain(a: string, p: string, q: string)
    requires Under(a, p) && Under(a, q)
    ensures Under(p, q) || Under(q, p)
  {
    UnderIffExtends(a, p);
    UnderIffExtends(a, q);
    UnderIffExtends(p, q);
    UnderIffExtends(q, p);
  }

  // --------------------------------------------------------------- row order

  // accountLess: account names compared part by part.
  predicate AccountLess(a: string, b: string) {
    PathLess(Parts(a), Parts(b))
  }

  lemma AccountOrder()
    ensures StrictTotal(AccountLess)
  {
    forall x, y, z | AccountLess(x, y) && AccountLess(y, z)
      ensures AccountLess(x, z)
    {
      PathTransitive(Parts(x), Parts(y), Parts(z));
    }
    forall x, y
      ensures AccountLess(x, y) || x == y || AccountLess(y, x)
      ensures !AccountLess(x, x)
    {
      PathTrichotomy(Parts(x), Parts(y));
      if Parts(x) == Parts(y) {
        PartsInjective(x, y);
      }
    }
  }

  lemma {:induction false} ExtensionFollows(p: seq<string>, q: seq<string>)
    requires p <= q && p != q
    ensures PathLess(p, q)
  {
    if p != [] {
      ExtensionFollows(p[1..], q[1..]);
    }
  }

  // Whatever lies between two extensions of p extends p.
  lemma {:induction false} ExtensionsContiguous(p: seq<string>, x: seq<string>, q: seq<string>)
    requires p <= q && PathLess(x, q) && (PathLess(p, x) || p == x)
    ensures p <= x
  {
    TextOrder();
    if p != [] && p != x {
      if TextLess(p[0], x[0]) {
        assert false;
      }
      ExtensionsContiguous(p[1..], x[1..], q[1..]);
      assert p == [p[0]] + p[1..] && x == [x[0]] + x[1..];
    }
  }

  lemma DescendantFollows(account: string, ancestor: string)
    requires Under(account, ancestor) && account != ancestor
    ensures AccountLess(ancestor, account)
  {
    UnderIffExtends(account, ancestor);
    if Parts(account) == Parts(ancestor) {
      PartsInjective(account, ancestor);
    }
    ExtensionFollows(Parts(ancestor), Parts(account));
  }

  lemma BetweenExtends(ancestor: string, x: string, account: string)
    requires Under(account, ancestor) && AccountLess(ancestor, x) && AccountLess(x, account)
    ensures Under(x, ancestor)
  {
    UnderIffExtends(account, ancestor);
    UnderIffExtends(x, ancestor);
    ExtensionsContiguous(Parts(ancestor), Parts(x), Parts(account));
  }

  lemma EarlierNotUnder(earlier: string, account: string)
    requires AccountLess(earlier, account)
    ensures !Under(earlier, account)
  {
    hide AccountLess, Under;
    AccountOrder();
    if Under(earlier, account) {
      if earlier != account {
        DescendantFollows(earlier, account);
      }
    }
  }

  // In the listing order an account is followed at once by a contiguous block
  // of exactly its descendants.
  lemma Preorder(names: seq<string>, i: nat, k: nat)
    requires Increasing(names, AccountLess)
    requires i < k < |names| && Under(names[k], names[i])
    ensures forall j | i <= j <= k :: Under(names[j], names[i])
    ensures forall j | 0 <= j < i :: !Under(names[j], names[i])
  {
    hide AccountLess;
    forall j | i <= j <= k
      ensures Under(names[j], names[i])
    {
      if i < j < k {
        BetweenExtends(names[i], names[j], names[k]);
      }
    }
    forall j | 0 <= j < i
      ensures !Under(names[j], names[i])
    {
      EarlierNotUnder(names[j], names[i]);
    }
  }

  lemma NextPart(account: string, start: nat, index: nat)
    requires start <= index < |account| && account[index] == ':'
    requires forall j | start <= j < index :: account[j] != ':'
    ensures Parts(account[start..]) == [account[start..index]] + Parts(account[index + 1..])
  {
    hide Split, IndexOf;
    var part := account[start..index];
    assert account[start..] == part + ":" + account[index + 1..];
    SplitFirst(part, ':', account[index + 1..]);
  }

  // splitAccount of statements.go, which scans for colons itself.
  method SplitAccount(account: string) returns (parts: seq<string>)
    ensures parts == Parts(account)
  {
    hide Split, IndexOf;
    parts := [];
    var start := 0;
    assert account[0..] == account;
    for index := 0 to |account|
      invariant 0 <= start <= index
      invariant forall j | start <= j < index :: account[j] != ':'
      invariant Parts(account) == parts + Parts(account[start..])
    {
      if account[index] == ':' {
        var part := account[start..index];
        NextPart(account, start, index);
        parts := parts + [part];
        start := index + 1;
      }
    }
    assert forall c | c in account[start..] :: c != ':';
    SplitWhole(account[start..], ':');
    parts := parts + [account[start..]];
  }

  // joinAccount of statements.go.
  method JoinAccount(parts: seq<string>) returns (result: string)
    requires parts != []
    ensures result == Join(parts, ':')
  {
    result := parts[0];
    assert parts[..1] == [parts[0]];
    for i := 1 to |parts|
      invariant result == Join(parts[..i], ':')
    {
      assert parts[..i + 1][..i] == parts[..i] && parts[..i + 1][i..] == [parts[i]];
      JoinTakeDrop(parts[..i + 1], i);
      result := result + ":" + parts[i];
    }
    assert parts[..|parts|] == parts;
  }

  // accountLess of statements.go: compare the common parts, then the lengths.
  method CompareAccounts(left: string, right: string) returns (less: bool)
    ensures less == AccountLess(left, right)
  {
    TextOrder();
    var leftParts := SplitAccount(left);
    var rightParts := SplitAccount(right);
    var limit := if |rightParts| < |leftParts| then |rightParts| else |leftParts|;
    assert leftParts[0..] == leftParts && rightParts[0..] == rightParts;
    for index := 0 to limit
      invariant AccountLess(left, right) == PathLess(leftParts[index..], rightParts[index..])
    {
      if leftParts[index] != rightParts[index] {
        return TextLess(leftParts[index], rightParts[index]);
      }
      assert leftParts[index..][1..] == leftParts[index + 1..];
      assert rightParts[index..][1..] == rightParts[index + 1..];
    }
    return |leftParts| < |rightParts|;
  }
}
