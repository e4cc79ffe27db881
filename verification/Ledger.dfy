// Journal entries of internal/ledger: entry times, postings, validation and
// inference of an omitted final amount.
module Ledger {
  import opened Results
  import opened Texts
  import opened Decimals
  import opened Calendar

  // ------------------------------------------------------------ entry times

  // A calendar date, or a date with the clock part of a timestamp kept as
  // opaque canonical text.
  datatype RawTime = EntryDate(date: Date) | EntryDateTime(date: Date, clock: string)

  predicate ClockChar(c: char) {
    IsDigit(c) || c == 'T' || c == ':' || c == '.' || c == '+' || c == '-' || c == 'Z'
  }

  predicate IsClock(s: string) {
    |s| > 1 && s[0] == 'T' && forall i | 0 <= i < |s| :: ClockChar(s[i])
  }

  predicate WellFormedTime(t: RawTime) {
    ValidDate(t.date) && 0 <= t.date.year <= 9999 && (t.EntryDateTime? ==> IsClock(t.clock) && t.date.year >= 1)
  }

  type EntryTime = t: RawTime | WellFormedTime(t) witness EntryDate(Date(1, 1, 1))

  function TimeText(t: EntryTime): string {
    FormatDate(t.date) + (if t.EntryDateTime? then t.clock else "")
  }

  function ParseEntryTime(text: string): Option<EntryTime> {
    if |text| < 10 then None
    else
      var date := ParseDate(text[..10]);
      if date.None? then None
      else if |text| == 10 then Some(EntryDate(date.value))
      else if IsClock(text[10..]) && date.value.year >= 1 then Some(EntryDateTime(date.value, text[10..]))
      else None
  }

  lemma ParseInvertsTimeText(t: EntryTime)
    ensures |TimeText(t)| >= 10 && TimeText(t)[..10] == FormatDate(t.date)
    ensures ParseEntryTime(TimeText(t)) == Some(t)
  {
    ParseInvertsFormatDate(t.date);
    var text := TimeText(t);
    assert text[..10] == FormatDate(t.date);
    assert text[10..] == if t.EntryDateTime? then t.clock else "";
  }

  // EntryTime.validate: years 1 to 9999, and not the zero time.
  predicate ValidTime(t: EntryTime) {
    t.date.year >= 1 && (t.EntryDate? ==> t.date != Date(1, 1, 1))
  }

  // --------------------------------------------------------------- entries

  datatype Amount = Amount(value: Decimal, commodity: string)

  datatype Posting = Posting(account: string, amount: Option<Amount>, totalPrice: Option<Amount>, comment: string)

  datatype JournalEntry = JournalEntry(date: EntryTime, description: string, comments: seq<string>, postings: seq<Posting>)

  datatype PostingFault =
    | InvalidAccount
    | LineBreakInPostingComment
    | InvalidCommodity
    | PriceOfOmittedAmount
    | InvalidPriceCommodity
    | PriceInSameCommodity
    | PriceSignMismatch
    | InvalidOmitted
    | CommodityMismatch
    | InferredOverflow

  datatype Fault =
    | InvalidTime
    | EmptyDescription
    | LineBreakInDescription
    | LineBreakInComment(index: nat)
    | TooFewPostings
    | InPosting(index: nat, fault: PostingFault)
    | Unbalanced

  predicate HasLineBreak(s: string) {
    '\r' in s || '\n' in s
  }

  // ----------------------------------------------------------- identifiers

  predicate IsNameStart(c: char) {
    || c == '$' || '\U{00A2}' <= c <= '\U{00A5}' || c == '\U{00B5}' || c == '\U{00B9}' || c == '\U{00B2}'
    || c == '\U{00B3}' || c == '\U{00B0}' || '\U{00BC}' <= c <= '\U{00BE}'
    || 'A' <= c <= 'Z' || 'a' <= c <= 'z'
    || '\U{00C0}' <= c <= '\U{00D6}' || '\U{00D8}' <= c <= '\U{00F6}' || '\U{00F8}' <= c <= '\U{02FF}'
    || '\U{0370}' <= c <= '\U{037D}' || '\U{037F}' <= c <= '\U{1FFF}' || '\U{200C}' <= c <= '\U{200D}'
    || '\U{2070}' <= c <= '\U{218F}' || '\U{2C00}' <= c <= '\U{2FEF}' || '\U{3001}' <= c <= '\U{D7FF}'
    || '\U{F900}' <= c <= '\U{FDCF}' || '\U{FDF0}' <= c <= '\U{FFFD}'
  }

  predicate IsNameChar(c: char) {
    || IsNameStart(c) || IsDigit(c) || c == '_' || c == '-' || c == '\U{00B7}'
    || '\U{0300}' <= c <= '\U{036F}' || '\U{203F}' <= c <= '\U{2040}'
  }

  predicate ValidIdentifierPart(s: string, mayStartWithDigit: bool) {
    && s != ""
    && (IsNameStart(s[0]) || (mayStartWithDigit && IsDigit(s[0])))
    && forall i | 1 <= i < |s| :: IsNameChar(s[i])
  }

  predicate ValidAccount(account: string) {
    var parts := Split(account, ':');
    forall i | 0 <= i < |parts| :: ValidIdentifierPart(parts[i], i > 0)
  }

  predicate ValidCommodity(commodity: string) {
    ValidIdentifierPart(commodity, false)
  }

  // -------------------------------------------------------------- postings

  function ValidatePosting(p: Posting): Option<PostingFault> {
    if !ValidAccount(p.account) then Some(InvalidAccount)
    else if HasLineBreak(p.comment) then Some(LineBreakInPostingComment)
    else if p.amount.Some? && !ValidCommodity(p.amount.value.commodity) then Some(InvalidCommodity)
    else if p.totalPrice.None? then None
    else if p.amount.None? then Some(PriceOfOmittedAmount)
    else if !ValidCommodity(p.totalPrice.value.commodity) then Some(InvalidPriceCommodity)
    else if p.amount.value.commodity == p.totalPrice.value.commodity then Some(PriceInSameCommodity)
    else if Sign(p.amount.value.value) != Sign(p.totalPrice.value.value) then Some(PriceSignMismatch)
    else None
  }

  // The amount a posting contributes to the balance, if it states one.
  function Effective(p: Posting): Option<Amount> {
    if p.totalPrice.Some? then p.totalPrice else p.amount
  }

  // What is wrong with posting i, given that no earlier posting is at fault.
  function PostingFaultAt(ps: seq<Posting>, i: nat): Option<PostingFault>
    requires i < |ps|
  {
    var own := ValidatePosting(ps[i]);
    if own.Some? then own
    else if ps[i].amount.None? then (if i == |ps| - 1 then None else Some(InvalidOmitted))
    else if ps[0].amount.Some? && Effective(ps[i]).value.commodity != Effective(ps[0]).value.commodity
    then Some(CommodityMismatch)
    else None
  }

  function FirstPostingFault(ps: seq<Posting>, i: nat): Option<Fault>
    requires i <= |ps|
    decreases |ps| - i
  {
    if i == |ps| then None
    else if PostingFaultAt(ps, i).Some? then Some(InPosting(i, PostingFaultAt(ps, i).value))
    else FirstPostingFault(ps, i + 1)
  }

  function FirstLineBreak(comments: seq<string>, i: nat): Option<Fault>
    requires i <= |comments|
    decreases |comments| - i
  {
    if i == |comments| then None
    else if HasLineBreak(comments[i]) then Some(LineBreakInComment(i))
    else FirstLineBreak(comments, i + 1)
  }

  // ------------------------------------------------------------------ sums

  // The stated amounts of the postings, in order.
  function StatedValues(ps: seq<Posting>): seq<Decimal> {
    if ps == [] then []
    else
      var last := ps[|ps| - 1];
      StatedValues(ps[..|ps| - 1]) + (if last.amount.Some? then [Effective(last).value.value] else [])
  }

  function MaxScale(values: seq<Decimal>): nat {
    if values == [] then 0 else Max(MaxScale(values[..|values| - 1]), values[|values| - 1].scale)
  }

  function ScaledSum(values: seq<Decimal>, scale: nat): int
    requires MaxScale(values) <= scale
  {
    if values == [] then 0
    else ScaledSum(values[..|values| - 1], scale) + Scaled(values[|values| - 1], scale)
  }

  // exactSum: the unbounded sum at the largest scale present.
  function ExactSum(values: seq<Decimal>): Fixed {
    Fixed(ScaledSum(values, MaxScale(values)), MaxScale(values))
  }

  lemma {:induction false} ScaleWithin(values: seq<Decimal>, i: nat)
    requires i < |values|
    ensures values[i].scale <= MaxScale(values)
  {
    if i < |values| - 1 {
      ScaleWithin(values[..|values| - 1], i);
    }
  }

  lemma {:induction false} MaxScaleMonotone(values: seq<Decimal>, n: nat)
    requires n <= |values|
    ensures MaxScale(values[..n]) <= MaxScale(values)
  {
    if n == |values| {
      assert values[..n] == values;
    } else {
      MaxScaleMonotone(values[..|values| - 1], n);
      assert values[..|values| - 1][..n] == values[..n];
    }
  }

  method ExactSumOf(values: seq<Decimal>) returns (sum: Fixed)
    ensures sum == ExactSum(values)
  {
    var scale := 0;
    for i := 0 to |values|
      invariant scale == MaxScale(values[..i])
    {
      assert values[..i + 1][..i] == values[..i];
      scale := Max(scale, values[i].scale);
    }
    assert values[..|values|] == values;
    var total := 0;
    for i := 0 to |values|
      invariant MaxScale(values[..i]) <= scale
      invariant total == ScaledSum(values[..i], scale)
    {
      MaxScaleMonotone(values, i + 1);
      assert values[..i + 1][..i] == values[..i];
      ScaleWithin(values, i);
      total := total + Scaled(values[i], scale);
    }
    sum := Fixed(total, scale);
  }

  // ------------------------------------------------------------ validation

  function Validate(entry: JournalEntry): Option<Fault> {
    if HeaderFault(entry).Some? then HeaderFault(entry) else PostingsFault(entry.postings)
  }

  function HeaderFault(entry: JournalEntry): Option<Fault> {
    if !ValidTime(entry.date) then Some(InvalidTime)
    else if TrimSpace(entry.description) == "" then Some(EmptyDescription)
    else if HasLineBreak(entry.description) then Some(LineBreakInDescription)
    else FirstLineBreak(entry.comments, 0)
  }

  function PostingsFault(ps: seq<Posting>): Option<Fault> {
    if |ps| < 2 then Some(TooFewPostings)
    else if FirstPostingFault(ps, 0).Some? then FirstPostingFault(ps, 0)
    else BalanceFault(ps)
  }

  function BalanceFault(ps: seq<Posting>): Option<Fault>
    requires ps != []
  {
    var sum := ExactSum(StatedValues(ps));
    if ps[|ps| - 1].amount.None? then
      if FromCoefficient(-sum.coefficient, sum.scale).Err? then Some(InPosting(|ps| - 1, InferredOverflow)) else None
    else if sum.coefficient != 0 then Some(Unbalanced)
    else None
  }

  predicate Valid(entry: JournalEntry) {
    Validate(entry) == None
  }

  // The single pass over the comments and postings finds the first fault.
  method ValidateEntry(entry: JournalEntry) returns (fault: Option<Fault>)
    ensures fault == Validate(entry)
  {
    if !ValidTime(entry.date) {
      return Some(InvalidTime);
    }
    if TrimSpace(entry.description) == "" {
      return Some(EmptyDescription);
    }
    if HasLineBreak(entry.description) {
      return Some(LineBreakInDescription);
    }
    var i := 0;
    while i < |entry.comments|
      invariant 0 <= i <= |entry.comments|
      invariant FirstLineBreak(entry.comments, 0) == FirstLineBreak(entry.comments, i)
    {
      if HasLineBreak(entry.comments[i]) {
        return Some(LineBreakInComment(i));
      }
      i := i + 1;
    }
    if |entry.postings| < 2 {
      return Some(TooFewPostings);
    }
    fault := ValidatePostings(entry.postings);
  }

  method ValidatePostings(ps: seq<Posting>) returns (fault: Option<Fault>)
    requires |ps| >= 2
    ensures fault == PostingsFault(ps)
  {
    var commodity, values := "", [];
    var omitted := -1;
    var i := 0;
    while i < |ps|
      invariant 0 <= i <= |ps|
      invariant FirstPostingFault(ps, 0) == FirstPostingFault(ps, i)
      invariant omitted == if i == |ps| && ps[i - 1].amount.None? then i - 1 else -1
      invariant commodity == "" <==> i == 0
      invariant i > 0 ==> ps[0].amount.Some? && commodity == Effective(ps[0]).value.commodity
      invariant values == StatedValues(ps[..i])
    {
      StatedStep(ps, i);
      var own := ValidatePosting(ps[i]);
      if own.Some? {
        return Some(InPosting(i, own.value));
      }
      if ps[i].amount.None? {
        if omitted >= 0 || i != |ps| - 1 {
          return Some(InPosting(i, InvalidOmitted));
        }
        omitted := i;
      } else {
        EffectiveCommodityValid(ps[i]);
        var effective := Effective(ps[i]).value;
        if commodity == "" {
          commodity := effective.commodity;
        } else if commodity != effective.commodity {
          return Some(InPosting(i, CommodityMismatch));
        }
        values := values + [effective.value];
      }
      i := i + 1;
    }
    assert ps[..|ps|] == ps;
    var sum := ExactSumOf(values);
    if omitted >= 0 {
      if FromCoefficient(-sum.coefficient, sum.scale).Err? {
        return Some(InPosting(omitted, InferredOverflow));
      }
      return None;
    }
    if sum.coefficient != 0 {
      return Some(Unbalanced);
    }
    return None;
  }

  lemma StatedStep(ps: seq<Posting>, i: nat)
    requires i < |ps|
    ensures StatedValues(ps[..i + 1]) ==
            StatedValues(ps[..i]) + (if ps[i].amount.Some? then [Effective(ps[i]).value.value] else [])
  {
    assert ps[..i + 1][..i] == ps[..i];
  }

  lemma {:induction false} NoPostingFault(ps: seq<Posting>, i: nat, k: nat)
    requires i <= k < |ps|
    requires FirstPostingFault(ps, i) == None
    ensures PostingFaultAt(ps, k) == None
    decreases k - i
  {
    if i < k {
      NoPostingFault(ps, i + 1, k);
    }
  }

  lemma {:induction false} AllPostingsFine(ps: seq<Posting>, i: nat)
    requires i <= |ps|
    requires forall k | i <= k < |ps| :: PostingFaultAt(ps, k) == None
    ensures FirstPostingFault(ps, i) == None
    decreases |ps| - i
  {
    if i < |ps| {
      AllPostingsFine(ps, i + 1);
    }
  }

  // What acceptance of the postings means.
  ghost predicate GoodPostings(ps: seq<Posting>) {
    && |ps| >= 2
    && ps[0].amount.Some?
    && (forall k | 0 <= k < |ps| :: ValidatePosting(ps[k]) == None)
    && (forall k | 0 <= k < |ps| - 1 :: ps[k].amount.Some?)
    && (forall k | 0 <= k < |ps| && ps[k].amount.Some? ::
          Effective(ps[k]).value.commodity == Effective(ps[0]).value.commodity)
  }

  lemma FineIffGood(ps: seq<Posting>)
    requires |ps| >= 2
    ensures (forall k | 0 <= k < |ps| :: PostingFaultAt(ps, k) == None) <==> GoodPostings(ps)
  {
    if forall k | 0 <= k < |ps| :: PostingFaultAt(ps, k) == None {
      assert PostingFaultAt(ps, 0) == None;
      forall k | 0 <= k < |ps|
        ensures ValidatePosting(ps[k]) == None && (k < |ps| - 1 ==> ps[k].amount.Some?)
        ensures ps[k].amount.Some? ==> Effective(ps[k]).value.commodity == Effective(ps[0]).value.commodity
      {
        assert PostingFaultAt(ps, k) == None;
      }
    }
  }

  // The same in plain terms, posting by posting.
  predicate PlainPosting(p: Posting) {
    && ValidAccount(p.account) && '\r' !in p.comment && '\n' !in p.comment
    && (p.amount.Some? ==> ValidCommodity(p.amount.value.commodity))
    && (p.totalPrice.Some? ==>
          && p.amount.Some? && ValidCommodity(p.totalPrice.value.commodity)
          && p.totalPrice.value.commodity != p.amount.value.commodity
          && var a, b := p.amount.value.value.coefficient, p.totalPrice.value.value.coefficient;
          (a > 0 && b > 0) || (a < 0 && b < 0) || (a == 0 && b == 0))
  }

  lemma PostingAccepted(p: Posting)
    ensures ValidatePosting(p) == None <==> PlainPosting(p)
  {
    hide ValidAccount, ValidCommodity;
  }

  // The commodity a stated posting balances in: its price's when it has one.
  function BalanceCommodity(p: Posting): string
    requires p.amount.Some?
  {
    match p.totalPrice
    case Some(price) => price.commodity
    case None => p.amount.value.commodity
  }

  ghost predicate PlainPostings(ps: seq<Posting>) {
    && |ps| >= 2
    && (forall k | 0 <= k < |ps| :: PlainPosting(ps[k]))
    && (forall k | 0 <= k < |ps| - 1 :: ps[k].amount.Some?)
    && (forall k, l | 0 <= k < l < |ps| && ps[k].amount.Some? && ps[l].amount.Some? ::
          BalanceCommodity(ps[k]) == BalanceCommodity(ps[l]))
  }

  lemma GoodIsPlain(ps: seq<Posting>)
    ensures GoodPostings(ps) <==> PlainPostings(ps)
  {
    hide ValidatePosting, PlainPosting;
    forall p: Posting
      ensures ValidatePosting(p) == None <==> PlainPosting(p)
    {
      PostingAccepted(p);
    }
    forall p: Posting | p.amount.Some?
      ensures Effective(p).Some? && Effective(p).value.commodity == BalanceCommodity(p)
    {
    }
    if PlainPostings(ps) {
      assert forall k | 0 < k < |ps| && ps[k].amount.Some? :: BalanceCommodity(ps[0]) == BalanceCommodity(ps[k]);
    }
  }

  // The postings of an entry pass exactly when there are two or more, each is
  // well formed, only the last leaves out its amount, and all balance in one
  // commodity.
  lemma GoodPostingsIff(ps: seq<Posting>)
    requires |ps| >= 2
    ensures FirstPostingFault(ps, 0) == None <==> PlainPostings(ps)
    ensures FirstPostingFault(ps, 0) == None <==> GoodPostings(ps)
  {
    GoodIsPlain(ps);
    FineIffGood(ps);
    if FirstPostingFault(ps, 0) == None {
      forall k | 0 <= k < |ps|
        ensures PostingFaultAt(ps, k) == None
      {
        NoPostingFault(ps, 0, k);
      }
    }
    if GoodPostings(ps) {
      AllPostingsFine(ps, 0);
    }
  }

  // --------------------------------------------------------------- inference

  datatype InferFault = NotValid(fault: Fault) | NothingOmitted | OutOfRange

  function InferFinalAmount(entry: JournalEntry): Result<Amount, InferFault> {
    if !Valid(entry) then Err(NotValid(Validate(entry).value))
    else
      var ps := entry.postings;
      if ps[|ps| - 1].amount.Some? then Err(NothingOmitted)
      else
        GoodPostingsIff(ps);
        var sum := ExactSum(StatedValues(ps[..|ps| - 1]));
        var value := FromCoefficient(-sum.coefficient, sum.scale);
        if value.Err? then Err(OutOfRange)
        else Ok(Amount(value.value, Effective(ps[0]).value.commodity))
  }

  method ValuesOf(ps: seq<Posting>) returns (values: seq<Decimal>)
    requires forall k | 0 <= k < |ps| :: ps[k].amount.Some?
    ensures values == StatedValues(ps)
  {
    values := [];
    for i := 0 to |ps|
      invariant values == StatedValues(ps[..i])
    {
      StatedStep(ps, i);
      values := values + [Effective(ps[i]).value.value];
    }
    assert ps[..|ps|] == ps;
  }

  method InferFinal(entry: JournalEntry) returns (r: Result<Amount, InferFault>)
    ensures r == InferFinalAmount(entry)
  {
    hide Validate, ExactSum, FromCoefficient, StatedValues, BalanceFault;
    var fault := ValidateEntry(entry);
    if fault.Some? {
      return Err(NotValid(fault.value));
    }
    ValidPostings(entry);
    var ps := entry.postings;
    if ps[|ps| - 1].amount.Some? {
      return Err(NothingOmitted);
    }
    var commodity := Effective(ps[0]).value.commodity;
    var values := ValuesOf(ps[..|ps| - 1]);
    var sum := ExactSumOf(values);
    var value := FromCoefficient(-sum.coefficient, sum.scale);
    if value.Err? {
      return Err(OutOfRange);
    }
    return Ok(Amount(value.value, commodity));
  }

  predicate Omits(entry: JournalEntry)
    requires Valid(entry)
  {
    entry.postings[|entry.postings| - 1].amount.None?
  }

  lemma ValidPostings(entry: JournalEntry)
    requires Valid(entry)
    ensures GoodPostings(entry.postings) && BalanceFault(entry.postings) == None
  {
    GoodPostingsIff(entry.postings);
  }

  lemma OmittedLast(ps: seq<Posting>)
    requires ps != [] && ps[|ps| - 1].amount.None?
    ensures StatedValues(ps) == StatedValues(ps[..|ps| - 1])
  {
  }

  // After validation, inference neither fails on a fault nor on its own range check.
  lemma InferenceSucceeds(entry: JournalEntry)
    requires Valid(entry)
    ensures InferFinalAmount(entry) == Err(NothingOmitted) <==> !Omits(entry)
    ensures InferFinalAmount(entry).Ok? <==> Omits(entry)
  {
    hide Validate, StatedValues, ExactSum, FromCoefficient, FirstPostingFault;
    ValidPostings(entry);
    if Omits(entry) {
      OmittedLast(entry.postings);
    }
  }

  // The entry with its omitted final amount written out.
  function Filled(entry: JournalEntry): JournalEntry
    requires Valid(entry)
  {
    InferenceSucceeds(entry);
    if !Omits(entry) then entry
    else
      entry.(postings := FillLast(entry.postings, InferFinalAmount(entry).value))
  }

  lemma AppendNegatedSum(values: seq<Decimal>, d: Decimal)
    requires d == Fixed(-ExactSum(values).coefficient, ExactSum(values).scale)
    ensures ExactSum(values + [d]).coefficient == 0
  {
    var all := values + [d];
    assert all[..|all| - 1] == values;
    assert MaxScale(all) == MaxScale(values);
    assert Pow10(0) == 1;
  }

  lemma {:induction false} StatedCount(ps: seq<Posting>)
    requires forall k | 0 <= k < |ps| :: ps[k].amount.Some?
    ensures |StatedValues(ps)| == |ps|
    ensures forall k | 0 <= k < |ps| :: StatedValues(ps)[k] == Effective(ps[k]).value.value
  {
    if ps != [] {
      StatedCount(ps[..|ps| - 1]);
    }
  }

  function FillLast(ps: seq<Posting>, amount: Amount): seq<Posting>
    requires ps != []
  {
    ps[|ps| - 1 := ps[|ps| - 1].(amount := Some(amount))]
  }

  lemma FillGood(ps: seq<Posting>, amount: Amount)
    requires GoodPostings(ps) && ps[|ps| - 1].amount.None?
    requires amount.commodity == Effective(ps[0]).value.commodity
    ensures GoodPostings(FillLast(ps, amount))
    ensures Effective(FillLast(ps, amount)[|ps| - 1]) == Some(amount)
  {
    var n, filled := |ps| - 1, FillLast(ps, amount);
    assert ValidatePosting(ps[n]) == None;
    EffectiveCommodityValid(ps[0]);
    assert ValidatePosting(filled[n]) == None;
    assert forall k | 0 <= k < n :: filled[k] == ps[k];
  }

  lemma FillBalanced(ps: seq<Posting>, amount: Amount)
    requires GoodPostings(ps) && ps[|ps| - 1].amount.None?
    requires amount.commodity == Effective(ps[0]).value.commodity
    requires var sum := ExactSum(StatedValues(ps[..|ps| - 1])); amount.value == Fixed(-sum.coefficient, sum.scale)
    ensures ExactSum(StatedValues(FillLast(ps, amount))).coefficient == 0
  {
    FillGood(ps, amount);
    var n, filled := |ps| - 1, FillLast(ps, amount);
    assert filled[..n] == ps[..n];
    AppendNegatedSum(StatedValues(ps[..n]), amount.value);
  }

  ghost predicate BalancedPostings(ps: seq<Posting>) {
    GoodPostings(ps) && ps[|ps| - 1].amount.Some? && ExactSum(StatedValues(ps)).coefficient == 0
  }

  lemma StatedBalanced(ps: seq<Posting>)
    requires GoodPostings(ps) && BalanceFault(ps) == None && ps[|ps| - 1].amount.Some?
    ensures BalancedPostings(ps)
  {
  }

  lemma FilledBalanced(entry: JournalEntry)
    requires Valid(entry) && Omits(entry) && InferFinalAmount(entry).Ok?
    ensures BalancedPostings(FillLast(entry.postings, InferFinalAmount(entry).value))
  {
    InferredAmount(entry);
    FillGood(entry.postings, InferFinalAmount(entry).value);
    FillBalanced(entry.postings, InferFinalAmount(entry).value);
  }

  // The filled-in postings are acceptable and their stated amounts cancel.
  lemma FilledPostings(entry: JournalEntry)
    requires Valid(entry)
    ensures BalancedPostings(Filled(entry).postings)
  {
    hide Validate, GoodPostings, BalancedPostings, BalanceFault;
    ValidPostings(entry);
    InferenceSucceeds(entry);
    if Omits(entry) {
      FilledBalanced(entry);
    } else {
      StatedBalanced(entry.postings);
    }
  }

  lemma InferredAmount(entry: JournalEntry)
    requires Valid(entry) && Omits(entry)
    ensures GoodPostings(entry.postings) && InferFinalAmount(entry).Ok?
    ensures var ps, amount := entry.postings, InferFinalAmount(entry).value;
            && amount.commodity == Effective(ps[0]).value.commodity
            && var sum := ExactSum(StatedValues(ps[..|ps| - 1])); amount.value == Fixed(-sum.coefficient, sum.scale)
  {
    ValidPostings(entry);
    InferenceSucceeds(entry);
  }

  lemma FilledHeader(entry: JournalEntry)
    requires Valid(entry)
    ensures HeaderFault(Filled(entry)) == None
  {
    hide HeaderFault;
    assert HeaderFault(Filled(entry)) == HeaderFault(entry) by {
      SameHeader(entry, Filled(entry));
    }
  }

  lemma SameHeader(e: JournalEntry, f: JournalEntry)
    requires e.date == f.date && e.description == f.description && e.comments == f.comments
    ensures HeaderFault(e) == HeaderFault(f)
  {
  }

  // Conservation: the effective amounts of an accepted entry, with the
  // inferred one written out, are all stated in one commodity and sum to
  // exactly zero, and the filled-in entry is itself accepted.
  lemma Conservation(entry: JournalEntry)
    requires Valid(entry)
    ensures var ps := Filled(entry).postings;
            && (forall k | 0 <= k < |ps| :: ps[k].amount.Some?
                  && Effective(ps[k]).value.commodity == Effective(ps[0]).value.commodity)
            && |StatedValues(ps)| == |ps|
            && ExactSum(StatedValues(ps)).coefficient == 0
    ensures Valid(Filled(entry)) && !Omits(Filled(entry)) && Filled(Filled(entry)) == Filled(entry)
  {
    hide StatedValues, ExactSum, TrimSpace;
    FilledPostings(entry);
    FilledHeader(entry);
    GoodPostingsIff(Filled(entry).postings);
    StatedCount(Filled(entry).postings);
  }

  lemma EffectiveCommodityValid(p: Posting)
    requires ValidatePosting(p) == None && p.amount.Some?
    ensures ValidCommodity(Effective(p).value.commodity)
  {
  }
}
