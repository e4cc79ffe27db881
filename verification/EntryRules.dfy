// What an accepted journal entry looks like, in plain terms.
module EntryRules {
  import opened Results
  import opened Texts
  import opened Decimals
  import opened Calendar
  import opened Ledger

  // ------------------------------------------------------------- identifiers

  // Where in an account name the next character stands.
  datatype Place = AtStart | AfterColon | InPart

  // Read from left to right: the name starts with a letter, every later part
  // with a letter or a digit, and no part is empty.
  predicate PlainName(s: string, place: Place) {
    if s == "" then place == InPart
    else
      match place
      case AtStart => IsNameStart(s[0]) && PlainName(s[1..], InPart)
      case AfterColon => (IsNameStart(s[0]) || '0' <= s[0] <= '9') && PlainName(s[1..], InPart)
      case InPart => if s[0] == ':' then PlainName(s[1..], AfterColon) else IsNameChar(s[0]) && PlainName(s[1..], InPart)
  }

  lemma StartsAreChars(c: char)
    ensures IsNameStart(c) || IsDigit(c) ==> IsNameChar(c)
    ensures IsNameChar(c) ==> c != ':'
  {
  }

  lemma SplitColon(s: string)
    requires s != "" && s[0] == ':'
    ensures Split(s, ':') == [""] + Split(s[1..], ':')
  {
    hide Split;
    assert s == "" + ":" + s[1..];
    SplitFirst("", ':', s[1..]);
  }

  lemma SplitChar(s: string)
    requires s != "" && s[0] != ':'
    ensures Split(s, ':') == [[s[0]] + Split(s[1..], ':')[0]] + Split(s[1..], ':')[1..]
  {
    hide Split;
    var t := s[1..];
    var n := IndexOf(t, ':');
    if n == |t| {
      SplitWhole(t, ':');
      SplitWhole(s, ':');
      assert s == [s[0]] + t;
    } else {
      assert t == t[..n] + ":" + t[n + 1..];
      SplitFirst(t[..n], ':', t[n + 1..]);
      assert s == ([s[0]] + t[..n]) + ":" + t[n + 1..];
      SplitFirst([s[0]] + t[..n], ':', t[n + 1..]);
    }
  }

  predicate LaterParts(parts: seq<string>) {
    forall i | 0 <= i < |parts| :: ValidIdentifierPart(parts[i], true)
  }

  predicate AllNameChars(s: string) {
    forall i | 0 <= i < |s| :: IsNameChar(s[i])
  }

  // The rest of a name that is inside a part.
  lemma {:induction false} InsidePart(s: string)
    ensures PlainName(s, InPart) <==> AllNameChars(Split(s, ':')[0]) && LaterParts(Split(s, ':')[1..])
    ensures PlainName(s, AfterColon) <==> LaterParts(Split(s, ':'))
    decreases |s|
  {
    hide Split, IsNameStart, IsNameChar;
    var parts := Split(s, ':');
    FirstAndLater(parts);
    if s == "" {
      SplitWhole(s, ':');
    } else {
      InsidePart(s[1..]);
      StartsAreChars(s[0]);
      if s[0] == ':' {
        SplitColon(s);
      } else {
        SplitChar(s);
        CharsCons(s[0], Split(s[1..], ':')[0]);
      }
    }
  }

  lemma FirstAndLater(parts: seq<string>)
    requires parts != []
    ensures LaterParts(parts) <==> ValidIdentifierPart(parts[0], true) && LaterParts(parts[1..])
  {
    hide ValidIdentifierPart;
    if LaterParts(parts[1..]) && ValidIdentifierPart(parts[0], true) {
      forall i | 0 <= i < |parts|
        ensures ValidIdentifierPart(parts[i], true)
      {
        assert i > 0 ==> parts[i] == parts[1..][i - 1];
      }
    }
  }

  lemma CharsCons(c: char, t: string)
    ensures AllNameChars([c] + t) <==> IsNameChar(c) && AllNameChars(t)
    ensures ValidIdentifierPart([c] + t, true) <==> (IsNameStart(c) || IsDigit(c)) && AllNameChars(t)
    ensures ValidIdentifierPart([c] + t, false) <==> IsNameStart(c) && AllNameChars(t)
  {
    hide IsNameStart, IsNameChar;
    var s := [c] + t;
    assert forall i | 0 <= i < |t| :: s[i + 1] == t[i];
    if AllNameChars(s) || ValidIdentifierPart(s, true) || ValidIdentifierPart(s, false) {
      forall i | 0 <= i < |t|
        ensures IsNameChar(t[i])
      {
        assert s[i + 1] == t[i];
      }
    }
    assert s[0] == c;
    if IsNameChar(c) && AllNameChars(t) {
      forall i | 0 <= i < |s|
        ensures IsNameChar(s[i])
      {
        assert i > 0 ==> s[i] == t[i - 1];
      }
    }
  }

  lemma AccountIff(account: string)
    ensures ValidAccount(account) <==> PlainName(account, AtStart)
  {
    hide Split, IsNameStart, IsNameChar, ValidIdentifierPart;
    var parts := Split(account, ':');
    FirstOfAccount(account);
    if account == "" {
      SplitWhole(account, ':');
      EmptyPart();
    } else {
      InsidePart(account[1..]);
      StartsAreChars(account[0]);
      if account[0] == ':' {
        SplitColon(account);
        EmptyPart();
      } else {
        SplitChar(account);
        CharsCons(account[0], Split(account[1..], ':')[0]);
      }
    }
  }

  lemma EmptyPart()
    ensures !ValidIdentifierPart("", true) && !ValidIdentifierPart("", false)
  {
  }

  lemma FirstOfAccount(account: string)
    ensures ValidAccount(account) <==> ValidIdentifierPart(Split(account, ':')[0], false) && LaterParts(Split(account, ':')[1..])
  {
    hide ValidIdentifierPart, Split;
    var parts := Split(account, ':');
    if ValidAccount(account) {
      forall i | 0 <= i < |parts[1..]|
        ensures ValidIdentifierPart(parts[1..][i], true)
      {
        assert ValidIdentifierPart(parts[i + 1], i + 1 > 0);
      }
    }
    if ValidIdentifierPart(parts[0], false) && LaterParts(parts[1..]) {
      forall i | 0 <= i < |parts|
        ensures ValidIdentifierPart(parts[i], i > 0)
      {
        assert i > 0 ==> parts[i] == parts[1..][i - 1];
      }
    }
  }

  // A commodity is a name of one part.
  lemma CommodityIff(commodity: string)
    ensures ValidCommodity(commodity) <==> PlainName(commodity, AtStart) && ':' !in commodity
  {
    hide Split, IsNameStart, IsNameChar, ValidIdentifierPart;
    AccountIff(commodity);
    if ':' !in commodity {
      SplitWhole(commodity, ':');
      var parts := Split(commodity, ':');
      assert parts == [commodity] && ValidIdentifierPart(commodity, false) == ValidIdentifierPart(parts[0], 0 > 0);
    } else if ValidCommodity(commodity) {
      HasNoColon(commodity);
    }
  }

  lemma HasNoColon(part: string)
    requires ValidIdentifierPart(part, false)
    ensures ':' !in part
  {
    forall i | 0 <= i < |part|
      ensures part[i] != ':'
    {
      StartsAreChars(part[i]);
    }
  }

  // Within ASCII a name is written in letters and dollar signs, and after the
  // first character in digits, underscores and hyphens too.
  lemma AsciiNames(c: char)
    requires c < '\U{0080}'
    ensures IsNameStart(c) <==> 'a' <= c <= 'z' || 'A' <= c <= 'Z' || c == '$'
    ensures IsNameChar(c) <==>
            'a' <= c <= 'z' || 'A' <= c <= 'Z' || c == '$' || '0' <= c <= '9' || c == '_' || c == '-'
  {
  }

  // ----------------------------------------------------------------- balance

  // The value a stated posting balances with: its price when it has one.
  function BalanceValue(p: Posting): Decimal
    requires p.amount.Some?
  {
    match p.totalPrice
    case Some(price) => price.value
    case None => p.amount.value.value
  }

  // The largest number of decimals among the stated postings.
  function LargestScale(ps: seq<Posting>): nat {
    if ps == [] then 0
    else
      var before, last := LargestScale(ps[..|ps| - 1]), ps[|ps| - 1];
      if last.amount.Some? && BalanceValue(last).scale > before then BalanceValue(last).scale else before
  }

  // The sum of the stated postings in units of 10 to the minus `scale`.
  function BalanceAt(ps: seq<Posting>, scale: nat): int
    requires LargestScale(ps) <= scale
  {
    if ps == [] then 0
    else
      var before, last := BalanceAt(ps[..|ps| - 1], scale), ps[|ps| - 1];
      if last.amount.Some? then before + BalanceValue(last).coefficient * Pow10(scale - BalanceValue(last).scale) else before
  }

  ghost predicate PricesStated(ps: seq<Posting>) {
    forall k | 0 <= k < |ps| && ps[k].totalPrice.Some? :: ps[k].amount.Some?
  }

  lemma StatedNext(ps: seq<Posting>)
    requires ps != [] && PricesStated(ps)
    ensures var last := ps[|ps| - 1];
            StatedValues(ps) == StatedValues(ps[..|ps| - 1]) + (if last.amount.Some? then [BalanceValue(last)] else [])
  {
  }

  lemma SumNext(values: seq<Decimal>, v: Decimal, scale: nat)
    ensures MaxScale(values + [v]) == Max(MaxScale(values), v.scale)
    ensures MaxScale(values + [v]) <= scale ==> ScaledSum(values + [v], scale) == ScaledSum(values, scale) + Scaled(v, scale)
  {
    assert (values + [v])[..|values|] == values;
  }

  lemma {:induction false} PlainSum(ps: seq<Posting>, scale: nat)
    requires PricesStated(ps)
    ensures MaxScale(StatedValues(ps)) == LargestScale(ps)
    ensures LargestScale(ps) <= scale ==> ScaledSum(StatedValues(ps), scale) == BalanceAt(ps, scale)
  {
    hide StatedValues, MaxScale, ScaledSum, BalanceValue;
    if ps == [] {
      NothingStated(scale);
    } else {
      var front, last := ps[..|ps| - 1], ps[|ps| - 1];
      PlainSum(front, scale);
      StatedNext(ps);
      if last.amount.Some? {
        SumNext(StatedValues(front), BalanceValue(last), scale);
      } else {
        assert StatedValues(front) + [] == StatedValues(front);
      }
    }
  }

  lemma NothingStated(scale: nat)
    ensures StatedValues([]) == [] && MaxScale([]) == 0 && ScaledSum([], scale) == 0
  {
  }

  // An entry with all amounts stated sums to zero; one that leaves out the last
  // amount leaves a difference that can be written as a decimal.
  predicate PlainBalance(ps: seq<Posting>)
    requires ps != []
  {
    var sum := BalanceAt(ps, LargestScale(ps));
    if ps[|ps| - 1].amount.Some? then sum == 0
    else LargestScale(ps) <= 28 && -0x1_0000_0000_0000_0000_0000_0000 < sum < 0x1_0000_0000_0000_0000_0000_0000
  }

  lemma BalanceIff(ps: seq<Posting>)
    requires PlainPostings(ps)
    ensures BalanceFault(ps) == None <==> PlainBalance(ps)
  {
    hide StatedValues, MaxScale, ScaledSum, BalanceAt, LargestScale, ValidAccount, ValidCommodity;
    forall k | 0 <= k < |ps| && ps[k].totalPrice.Some?
      ensures ps[k].amount.Some?
    {
      assert PlainPosting(ps[k]);
    }
    PlainSum(ps, LargestScale(ps));
  }

  // ------------------------------------------------------------- the entry

  predicate PlainHeader(e: JournalEntry) {
    && 1 <= e.date.date.year <= 9999 && e.date != EntryDate(Date(1, 1, 1))
    && TrimSpace(e.description) != "" && '\r' !in e.description && '\n' !in e.description
    && forall i | 0 <= i < |e.comments| :: '\r' !in e.comments[i] && '\n' !in e.comments[i]
  }

  lemma {:induction false} NoBrokenComment(comments: seq<string>, i: nat)
    requires i <= |comments|
    ensures FirstLineBreak(comments, i) == None <==> forall k | i <= k < |comments| :: '\r' !in comments[k] && '\n' !in comments[k]
    decreases |comments| - i
  {
    if i < |comments| {
      NoBrokenComment(comments, i + 1);
    }
  }

  lemma HeaderIff(e: JournalEntry)
    ensures HeaderFault(e) == None <==> PlainHeader(e)
  {
    hide TrimSpace, FirstLineBreak, IsClock;
    NoBrokenComment(e.comments, 0);
  }

  // An entry is accepted exactly when its header is in order, its postings are
  // well formed and balance in one commodity, and the sum is right.
  lemma EntryAccepted(e: JournalEntry)
    ensures Valid(e) <==> PlainHeader(e) && PlainPostings(e.postings) && PlainBalance(e.postings)
  {
    hide HeaderFault, PlainHeader, PlainPostings, GoodPostings, BalanceFault, PlainBalance, FirstPostingFault;
    HeaderIff(e);
    if |e.postings| >= 2 {
      GoodPostingsIff(e.postings);
      if PlainPostings(e.postings) {
        BalanceIff(e.postings);
      }
    } else {
      FewPostings(e.postings);
    }
  }

  lemma FewPostings(ps: seq<Posting>)
    requires |ps| < 2
    ensures !PlainPostings(ps)
  {
  }
}
