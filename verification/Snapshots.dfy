// The identity of a reporting snapshot: one field stream over the
// configuration revision and every approved entry.
module Snapshots {
  import opened Results
  import opened Decimals
  import opened Ledger
  import opened Movements
  import opened Framing
  import opened Records

  function AmountFields(a: Option<Amount>, present: string, absent: string): seq<string> {
    if a.None? then [absent] else [present, ToString(a.value.value), a.value.commodity]
  }

  function SnapshotPosting(p: Posting): seq<string> {
    [p.account, p.comment] + AmountFields(p.amount, "amount", "no-amount")
    + AmountFields(p.totalPrice, "total-price", "no-total-price")
  }

  function SnapshotPostings(ps: seq<Posting>): seq<string> {
    if ps == [] then [] else SnapshotPosting(ps[0]) + SnapshotPostings(ps[1..])
  }

  function Precision(t: EntryTime): int {
    if t.EntryDate? then 1 else 2
  }

  function SnapshotEntry(item: Entry): seq<string> {
    [item.id, Itoa(Precision(item.entry.date)), TimeText(item.entry.date), item.entry.description, Itoa(|item.entry.comments|)]
    + item.entry.comments + [Itoa(|item.entry.postings|)] + SnapshotPostings(item.entry.postings)
  }

  function SnapshotEntries(entries: seq<Entry>): seq<string> {
    if entries == [] then [] else SnapshotEntry(entries[0]) + SnapshotEntries(entries[1..])
  }

  // Everything written to the hash.
  function SnapshotFields(revision: int, entries: seq<Entry>): seq<string> {
    ["bokiccio.reporting-snapshot", "v1", Itoa(revision)] + SnapshotEntries(entries)
  }

  // -------------------------------------------------------------- streaming

  lemma {:induction false} StreamConcat(a: seq<string>, b: seq<string>)
    ensures Stream(a + b) == Stream(a) + Stream(b)
  {
    hide Frame;
    if a == [] {
      assert a + b == b;
    } else {
      assert (a + b)[1..] == a[1..] + b;
      StreamConcat(a[1..], b);
    }
  }

  lemma {:induction false} PostingsSnoc(ps: seq<Posting>, p: Posting)
    ensures SnapshotPostings(ps + [p]) == SnapshotPostings(ps) + SnapshotPosting(p)
  {
    hide SnapshotPosting;
    if ps == [] {
      assert ps + [p] == [p] && [p][1..] == [];
      assert SnapshotPostings([p]) == SnapshotPosting(p);
    } else {
      assert (ps + [p])[1..] == ps[1..] + [p];
      PostingsSnoc(ps[1..], p);
    }
  }

  lemma {:induction false} EntriesSnoc(es: seq<Entry>, e: Entry)
    ensures SnapshotEntries(es + [e]) == SnapshotEntries(es) + SnapshotEntry(e)
  {
    hide SnapshotEntry;
    if es == [] {
      assert es + [e] == [e] && [e][1..] == [];
      assert SnapshotEntries([e]) == SnapshotEntry(e);
    } else {
      assert (es + [e])[1..] == es[1..] + [e];
      EntriesSnoc(es[1..], e);
    }
  }

  // The hash state: the bytes written so far.
  class HashState {
    var written: Bytes

    constructor ()
      ensures written == []
    {
      written := [];
    }

    // writeSnapshotField
    method WriteField(value: string)
      modifies this
      ensures written == old(written) + Frame(value)
    {
      written := written + BigEndian(|Utf8(value)|, 8);
      written := written + Utf8(value);
    }
  }

  method WriteFields(hash: HashState, fields: seq<string>)
    modifies hash
    ensures hash.written == old(hash.written) + Stream(fields)
  {
    hide Frame;
    assert fields[..0] == [];
    for i := 0 to |fields|
      invariant hash.written == old(hash.written) + Stream(fields[..i])
    {
      assert fields[..i + 1] == fields[..i] + [fields[i]];
      StreamAppend(fields[..i], fields[i]);
      hash.WriteField(fields[i]);
    }
    assert fields[..|fields|] == fields;
  }

  method WriteAmount(hash: HashState, a: Option<Amount>, present: string, absent: string)
    modifies hash
    ensures hash.written == old(hash.written) + Stream(AmountFields(a, present, absent))
  {
    hide ToString;
    if a.None? {
      WriteFields(hash, [absent]);
    } else {
      WriteFields(hash, [present, ToString(a.value.value), a.value.commodity]);
    }
  }

  method WritePosting(hash: HashState, p: Posting)
    modifies hash
    ensures hash.written == old(hash.written) + Stream(SnapshotPosting(p))
  {
    hide AmountFields, Stream;
    WriteFields(hash, [p.account, p.comment]);
    WriteAmount(hash, p.amount, "amount", "no-amount");
    WriteAmount(hash, p.totalPrice, "total-price", "no-total-price");
    StreamConcat([p.account, p.comment], AmountFields(p.amount, "amount", "no-amount"));
    StreamConcat([p.account, p.comment] + AmountFields(p.amount, "amount", "no-amount"),
                 AmountFields(p.totalPrice, "total-price", "no-total-price"));
  }

  method WriteEntry(hash: HashState, item: Entry)
    modifies hash
    ensures hash.written == old(hash.written) + Stream(SnapshotEntry(item))
  {
    hide SnapshotPosting, Stream, Itoa, TimeText;
    var ps := item.entry.postings;
    var header := [item.id, Itoa(Precision(item.entry.date)), TimeText(item.entry.date), item.entry.description, Itoa(|item.entry.comments|)];
    WriteFields(hash, header);
    WriteFields(hash, item.entry.comments);
    StreamConcat(header, item.entry.comments);
    hash.WriteField(Itoa(|ps|));
    StreamAppend(header + item.entry.comments, Itoa(|ps|));
    ghost var fields := header + item.entry.comments + [Itoa(|ps|)];
    assert ps[..0] == [];
    assert fields + [] == fields;
    for i := 0 to |ps|
      invariant hash.written == old(hash.written) + Stream(fields + SnapshotPostings(ps[..i]))
    {
      assert ps[..i + 1] == ps[..i] + [ps[i]];
      PostingsSnoc(ps[..i], ps[i]);
      StreamConcat(fields + SnapshotPostings(ps[..i]), SnapshotPosting(ps[i]));
      assert fields + SnapshotPostings(ps[..i + 1]) == fields + SnapshotPostings(ps[..i]) + SnapshotPosting(ps[i]);
      WritePosting(hash, ps[i]);
    }
    assert ps[..|ps|] == ps;
  }

  // reportingSnapshotIdentity
  method SnapshotIdentity(env: Environment, revision: int, entries: seq<Entry>) returns (digest: Digest)
    ensures digest == env.sha(Stream(SnapshotFields(revision, entries)))
  {
    hide SnapshotEntry, Stream, Itoa;
    var hash := new HashState();
    var header := ["bokiccio.reporting-snapshot", "v1", Itoa(revision)];
    WriteFields(hash, header);
    assert entries[..0] == [];
    assert header + [] == header;
    for i := 0 to |entries|
      invariant hash.written == Stream(header + SnapshotEntries(entries[..i]))
    {
      assert entries[..i + 1] == entries[..i] + [entries[i]];
      EntriesSnoc(entries[..i], entries[i]);
      StreamConcat(header + SnapshotEntries(entries[..i]), SnapshotEntry(entries[i]));
      assert header + SnapshotEntries(entries[..i + 1]) == header + SnapshotEntries(entries[..i]) + SnapshotEntry(entries[i]);
      WriteEntry(hash, entries[i]);
    }
    assert entries[..|entries|] == entries;
    return env.sha(hash.written);
  }

  // --------------------------------------------------------------- decoding

  lemma AmountDecodes(a: Option<Amount>, rest: seq<string>, b: Option<Amount>, tail: seq<string>, present: string, absent: string)
    requires present != absent && AmountFields(a, present, absent) + rest == AmountFields(b, present, absent) + tail
    ensures a == b && rest == tail
  {
    hide ToString;
    var f, g := AmountFields(a, present, absent), AmountFields(b, present, absent);
    assert (f + rest)[0] == f[0] && (g + tail)[0] == g[0];
    assert |f| == |g|;
    assert (f + rest)[..|f|] == f && (g + tail)[..|g|] == g;
    assert (f + rest)[|f|..] == rest && (g + tail)[|g|..] == tail;
    if a.Some? {
      assert f[1] == g[1] && f[2] == g[2];
      DecimalText(a.value.value, b.value.value);
    }
  }

  lemma DecimalText(a: Decimal, b: Decimal)
    requires ToString(a) == ToString(b)
    ensures a == b
  {
    hide ParseDecimal;
    ParseInvertsFormat(a);
    ParseInvertsFormat(b);
  }

  lemma AmountTags()
    ensures "amount" != "no-amount" && "total-price" != "no-total-price"
  {
    assert |"amount"| != |"no-amount"| && |"total-price"| != |"no-total-price"|;
  }

  lemma SnapshotPostingDecodes(p: Posting, rest: seq<string>, q: Posting, tail: seq<string>)
    requires SnapshotPosting(p) + rest == SnapshotPosting(q) + tail
    ensures p == q && rest == tail
  {
    hide AmountFields;
    AmountTags();
    var a, b := AmountFields(p.amount, "amount", "no-amount"), AmountFields(q.amount, "amount", "no-amount");
    var c, d := AmountFields(p.totalPrice, "total-price", "no-total-price"), AmountFields(q.totalPrice, "total-price", "no-total-price");
    var f, g := SnapshotPosting(p) + rest, SnapshotPosting(q) + tail;
    assert f == [p.account, p.comment] + (a + (c + rest)) && g == [q.account, q.comment] + (b + (d + tail));
    assert f[0] == p.account && f[1] == p.comment && f[2..] == a + (c + rest);
    assert g[0] == q.account && g[1] == q.comment && g[2..] == b + (d + tail);
    AmountDecodes(p.amount, c + rest, q.amount, d + tail, "amount", "no-amount");
    AmountDecodes(p.totalPrice, rest, q.totalPrice, tail, "total-price", "no-total-price");
  }

  lemma {:induction false} SnapshotPostingsDecode(ps: seq<Posting>, rest: seq<string>, qs: seq<Posting>, tail: seq<string>)
    requires |ps| == |qs| && SnapshotPostings(ps) + rest == SnapshotPostings(qs) + tail
    ensures ps == qs && rest == tail
  {
    hide SnapshotPosting;
    if ps == [] {
      assert SnapshotPostings(ps) + rest == rest && SnapshotPostings(qs) + tail == tail;
    } else {
      var r, t := SnapshotPostings(ps[1..]) + rest, SnapshotPostings(qs[1..]) + tail;
      assert SnapshotPostings(ps) + rest == SnapshotPosting(ps[0]) + r;
      assert SnapshotPostings(qs) + tail == SnapshotPosting(qs[0]) + t;
      SnapshotPostingDecodes(ps[0], r, qs[0], t);
      SnapshotPostingsDecode(ps[1..], rest, qs[1..], tail);
      assert ps == [ps[0]] + ps[1..] && qs == [qs[0]] + qs[1..];
    }
  }

  lemma TimeTextInjective(a: EntryTime, b: EntryTime)
    requires TimeText(a) == TimeText(b)
    ensures a == b
  {
    hide ParseEntryTime;
    ParseInvertsTimeText(a);
    ParseInvertsTimeText(b);
  }

  lemma HeaderSplits(header: seq<string>, comments: seq<string>, count: string, body: seq<string>)
    requires |header| == 5
    ensures var f := header + comments + [count] + body;
            && f[..5] == header && |f| == 6 + |comments| + |body|
            && f[5..5 + |comments|] == comments && f[5 + |comments|] == count && f[6 + |comments|..] == body
  {
  }

  lemma SnapshotEntryDecodes(e: Entry, rest: seq<string>, f: Entry, tail: seq<string>)
    requires SnapshotEntry(e) + rest == SnapshotEntry(f) + tail
    ensures e == f && rest == tail
  {
    hide SnapshotPostings, Itoa, TimeText;
    var j, k := e.entry, f.entry;
    var h := [e.id, Itoa(Precision(j.date)), TimeText(j.date), j.description, Itoa(|j.comments|)];
    var g := [f.id, Itoa(Precision(k.date)), TimeText(k.date), k.description, Itoa(|k.comments|)];
    var b, c := SnapshotPostings(j.postings) + rest, SnapshotPostings(k.postings) + tail;
    HeaderSplits(h, j.comments, Itoa(|j.postings|), b);
    HeaderSplits(g, k.comments, Itoa(|k.postings|), c);
    assert SnapshotEntry(e) + rest == h + j.comments + [Itoa(|j.postings|)] + b;
    assert SnapshotEntry(f) + tail == g + k.comments + [Itoa(|k.postings|)] + c;
    assert h[0] == g[0] && h[2] == g[2] && h[3] == g[3] && h[4] == g[4];
    ItoaInjective(|j.comments|, |k.comments|);
    TimeTextInjective(j.date, k.date);
    ItoaInjective(|j.postings|, |k.postings|);
    SnapshotPostingsDecode(j.postings, rest, k.postings, tail);
  }

  lemma {:induction false} SnapshotEntriesDecode(es: seq<Entry>, fs: seq<Entry>)
    requires SnapshotEntries(es) == SnapshotEntries(fs)
    ensures es == fs
  {
    hide SnapshotEntry;
    if es == [] || fs == [] {
      EntriesNonempty(es);
      EntriesNonempty(fs);
    } else {
      SnapshotEntryDecodes(es[0], SnapshotEntries(es[1..]), fs[0], SnapshotEntries(fs[1..]));
      SnapshotEntriesDecode(es[1..], fs[1..]);
      assert es == [es[0]] + es[1..] && fs == [fs[0]] + fs[1..];
    }
  }

  lemma EntriesNonempty(es: seq<Entry>)
    ensures SnapshotEntries(es) == [] <==> es == []
  {
  }

  // Equal snapshot identities mean the same configuration revision and the
  // same entries, down to retained decimal places and comments.
  lemma SnapshotDecides(env: Environment, revision: int, entries: seq<Entry>, other: int, others: seq<Entry>)
    requires InjectiveSha(env)
    requires InMemory(SnapshotFields(revision, entries)) && InMemory(SnapshotFields(other, others))
    ensures env.sha(Stream(SnapshotFields(revision, entries))) == env.sha(Stream(SnapshotFields(other, others)))
       <==> revision == other && entries == others
  {
    hide Stream, InMemory, SnapshotEntries, Itoa;
    var f, g := SnapshotFields(revision, entries), SnapshotFields(other, others);
    if env.sha(Stream(f)) == env.sha(Stream(g)) {
      StreamInjective(f, g);
      assert f[2] == Itoa(revision) && g[2] == Itoa(other);
      assert f[3..] == SnapshotEntries(entries) && g[3..] == SnapshotEntries(others);
      ItoaInjective(revision, other);
      SnapshotEntriesDecode(entries, others);
    }
  }
}
