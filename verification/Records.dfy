// Decoded import records and their identities: which fields are hashed, and
// when two records have the same identity.
module Records {
  import opened Results
  import opened Texts
  import opened Decimals
  import opened Calendar
  import opened Ledger
  import opened Framing

  datatype Source = Source(namespace: string, display: string, externalID: string)

  datatype CandidateWarning = CandidateWarning(code: string, message: string, fieldPath: string, postingIndex: Option<int>)

  datatype CandidatePosting = CandidatePosting(account: string, amount: Option<Amount>, totalPrice: Option<Amount>, comment: string)

  // A digest in its hexadecimal form, whose text order is its byte order.
  type Digest = string

  datatype RecordIdentity = RecordIdentity(kind: string, algorithmVersion: int, digest: Digest)

  datatype Record = Record(
    source: Source, identity: RecordIdentity, occurredAt: EntryTime, description: string, comments: seq<string>,
    warnings: seq<CandidateWarning>, postings: seq<CandidatePosting>)

  const EXTERNAL_ID := "external_id"
  const FINGERPRINT := "fingerprint"
  const IDENTITY_VERSION := 1
  const SCHEMA_VERSION := 2

  // What stays outside the model: SHA-256 and the UTC form of a timestamp.
  datatype Environment = Environment(sha: Bytes -> Digest, utc: EntryTime -> string)

  ghost predicate InjectiveSha(env: Environment) {
    forall a, b :: env.sha(a) == env.sha(b) ==> a == b
  }

  // strconv.Itoa
  function Itoa(n: int): string {
    FormatFixed(n, 0)
  }

  // canonicalEntryTime
  function CanonicalTime(env: Environment, t: EntryTime): string {
    if t.EntryDate? then "date:" + TimeText(t) else "datetime:" + env.utc(t)
  }

  // ---------------------------------------------------------- hashed fields

  function ExternalFields(source: Source): seq<string> {
    ["bokiccio.record-identity.external-id", "v1", source.namespace, source.externalID]
  }

  function PriceFields(price: Option<Amount>): seq<string> {
    if price.None? then ["no_total_price", "", ""]
    else ["total_price", CanonicalDecimal(price.value.value), price.value.commodity]
  }

  function PostingFields(schemaVersion: int, p: CandidatePosting): seq<string> {
    ["posting", p.account]
    + (if p.amount.None? then ["omitted", "", ""]
       else
         ["explicit", CanonicalDecimal(p.amount.value.value), p.amount.value.commodity]
         + (if schemaVersion >= SCHEMA_VERSION then PriceFields(p.totalPrice) else []))
  }

  function PostingsFields(schemaVersion: int, ps: seq<CandidatePosting>): seq<string> {
    if ps == [] then []
    else PostingFields(schemaVersion, ps[0]) + PostingsFields(schemaVersion, ps[1..])
  }

  function HeaderFields(env: Environment, schemaVersion: int, r: Record): seq<string> {
    ["bokiccio.record-identity.fingerprint", "v1", Itoa(schemaVersion), r.source.namespace, CanonicalTime(env, r.occurredAt),
     TrimSpace(r.description)]
  }

  // The fields hashed for a record.
  function IdentityFields(env: Environment, schemaVersion: int, r: Record): seq<string> {
    if r.source.externalID != "" then ExternalFields(r.source)
    else HeaderFields(env, schemaVersion, r) + PostingsFields(schemaVersion, r.postings)
  }

  function IdentityKind(r: Record): string {
    if r.source.externalID != "" then EXTERNAL_ID else FINGERPRINT
  }

  // The identity given to a decoded record.
  function IdentityOf(env: Environment, schemaVersion: int, r: Record): RecordIdentity {
    RecordIdentity(IdentityKind(r), IDENTITY_VERSION, env.sha(Stream(IdentityFields(env, schemaVersion, r))))
  }

  lemma {:induction false} PostingsFieldsAppend(schemaVersion: int, ps: seq<CandidatePosting>, p: CandidatePosting)
    ensures PostingsFields(schemaVersion, ps + [p]) == PostingsFields(schemaVersion, ps) + PostingFields(schemaVersion, p)
  {
    hide PostingFields;
    if ps == [] {
      assert ps + [p] == [p];
      assert [p][1..] == [];
      assert PostingsFields(schemaVersion, [p]) == PostingFields(schemaVersion, p);
    } else {
      assert (ps + [p])[1..] == ps[1..] + [p];
      PostingsFieldsAppend(schemaVersion, ps[1..], p);
    }
  }

  lemma {:induction false} StreamAppend(a: seq<string>, b: string)
    ensures Stream(a + [b]) == Stream(a) + Frame(b)
  {
    hide Frame;
    if a == [] {
      assert a + [b] == [b];
      assert [b][1..] == [];
      assert Stream([b]) == Frame(b);
    } else {
      assert (a + [b])[1..] == a[1..] + [b];
      StreamAppend(a[1..], b);
    }
  }

  // hashIdentity: the fields are fed to the hash one after the other.
  method HashIdentity(env: Environment, kind: string, fields: seq<string>) returns (r: RecordIdentity)
    ensures r == RecordIdentity(kind, IDENTITY_VERSION, env.sha(Stream(fields)))
  {
    hide Frame;
    var written: Bytes := [];
    assert fields[..0] == [];
    for i := 0 to |fields|
      invariant written == Stream(fields[..i])
    {
      assert fields[..i + 1] == fields[..i] + [fields[i]];
      StreamAppend(fields[..i], fields[i]);
      written := written + Frame(fields[i]);
    }
    assert fields[..|fields|] == fields;
    return RecordIdentity(kind, IDENTITY_VERSION, env.sha(written));
  }

  method AppendPosting(fields: seq<string>, schemaVersion: int, posting: CandidatePosting) returns (r: seq<string>)
    ensures r == fields + PostingFields(schemaVersion, posting)
  {
    hide CanonicalDecimal;
    r := fields + ["posting", posting.account];
    if posting.amount.None? {
      r := r + ["omitted", "", ""];
      return;
    }
    r := r + ["explicit", CanonicalDecimal(posting.amount.value.value), posting.amount.value.commodity];
    if schemaVersion >= SCHEMA_VERSION {
      if posting.totalPrice.None? {
        r := r + ["no_total_price", "", ""];
      } else {
        r := r + ["total_price", CanonicalDecimal(posting.totalPrice.value.value), posting.totalPrice.value.commodity];
      }
    }
  }

  // resolveIdentity
  method ResolveIdentity(env: Environment, schemaVersion: int, r: Record) returns (identity: RecordIdentity)
    ensures identity == IdentityOf(env, schemaVersion, r)
  {
    hide HeaderFields, PostingFields, Stream;
    if r.source.externalID != "" {
      identity := HashIdentity(env, EXTERNAL_ID, ExternalFields(r.source));
      return;
    }
    var fields := HeaderFields(env, schemaVersion, r);
    ghost var header := fields;
    assert r.postings[..0] == [];
    for i := 0 to |r.postings|
      invariant fields == header + PostingsFields(schemaVersion, r.postings[..i])
    {
      assert r.postings[..i + 1] == r.postings[..i] + [r.postings[i]];
      PostingsFieldsAppend(schemaVersion, r.postings[..i], r.postings[i]);
      fields := AppendPosting(fields, schemaVersion, r.postings[i]);
    }
    assert r.postings[..|r.postings|] == r.postings;
    identity := HashIdentity(env, FINGERPRINT, fields);
  }

  // ------------------------------------------------- when identities coincide

  predicate SameAmount(a: Amount, b: Amount) {
    Equal(a.value, b.value) && a.commodity == b.commodity
  }

  predicate SameOptional(a: Option<Amount>, b: Option<Amount>) {
    if a.Some? && b.Some? then SameAmount(a.value, b.value) else a.None? && b.None?
  }

  // The same account and amounts up to numeric equality; prices count from
  // schema version 2 on and only beside a stated amount.
  predicate SamePosting(schemaVersion: int, p: CandidatePosting, q: CandidatePosting) {
    && p.account == q.account && SameOptional(p.amount, q.amount)
    && (schemaVersion >= 2 && p.amount.Some? ==> SameOptional(p.totalPrice, q.totalPrice))
  }

  predicate SamePostings(schemaVersion: int, ps: seq<CandidatePosting>, qs: seq<CandidatePosting>) {
    |ps| == |qs| && forall i | 0 <= i < |ps| :: SamePosting(schemaVersion, ps[i], qs[i])
  }

  predicate SameRecord(env: Environment, v: int, a: Record, w: int, b: Record) {
    if a.source.externalID != "" || b.source.externalID != ""
    then a.source.namespace == b.source.namespace && a.source.externalID == b.source.externalID
    else
      && v == w && a.source.namespace == b.source.namespace
      && CanonicalTime(env, a.occurredAt) == CanonicalTime(env, b.occurredAt)
      && TrimSpace(a.description) == TrimSpace(b.description) && SamePostings(v, a.postings, b.postings)
  }

  lemma TextsDistinct()
    ensures "omitted" != "explicit" && "no_total_price" != "total_price"
    ensures "bokiccio.record-identity.external-id" != "bokiccio.record-identity.fingerprint"
  {
    assert |"omitted"| != |"explicit"| && |"no_total_price"| != |"total_price"|;
    assert "bokiccio.record-identity.external-id"[25] != "bokiccio.record-identity.fingerprint"[25];
  }

  lemma DecimalField(a: Amount, b: Amount)
    ensures CanonicalDecimal(a.value) == CanonicalDecimal(b.value) && a.commodity == b.commodity <==> SameAmount(a, b)
  {
    hide CanonicalDecimal, Equal;
    CanonicalDecidesEqual(a.value, b.value);
  }

  lemma PriceField(p: Option<Amount>, q: Option<Amount>)
    ensures |PriceFields(p)| == |PriceFields(q)| == 3
    ensures PriceFields(p) == PriceFields(q) <==> SameOptional(p, q)
  {
    hide CanonicalDecimal, SameAmount;
    TextsDistinct();
    if p.Some? && q.Some? {
      DecimalField(p.value, q.value);
      assert PriceFields(p)[1] == CanonicalDecimal(p.value.value) && PriceFields(p)[2] == p.value.commodity;
      assert PriceFields(q)[1] == CanonicalDecimal(q.value.value) && PriceFields(q)[2] == q.value.commodity;
    } else {
      assert PriceFields(p)[0] == PriceFields(q)[0] <==> (p.Some? <==> q.Some?);
    }
  }

  function WidthOf(schemaVersion: int, p: CandidatePosting): nat {
    if p.amount.Some? && schemaVersion >= SCHEMA_VERSION then 8 else 5
  }

  lemma PostingShape(v: int, p: CandidatePosting)
    ensures var f := PostingFields(v, p);
            && |f| == WidthOf(v, p) && f[0] == "posting" && f[1] == p.account
            && f[2] == (if p.amount.Some? then "explicit" else "omitted")
            && f[3] == (if p.amount.Some? then CanonicalDecimal(p.amount.value.value) else "")
            && f[4] == (if p.amount.Some? then p.amount.value.commodity else "")
            && f[5..] == (if |f| == 8 then PriceFields(p.totalPrice) else [])
  {
    hide CanonicalDecimal;
  }

  // The fields of a posting start a longer stream unambiguously.
  lemma PostingDecodes(v: int, p: CandidatePosting, rest: seq<string>, q: CandidatePosting, tail: seq<string>)
    ensures PostingFields(v, p) + rest == PostingFields(v, q) + tail <==> SamePosting(v, p, q) && rest == tail
  {
    hide CanonicalDecimal, PostingFields, PriceFields, SameAmount;
    TextsDistinct();
    PostingShape(v, p);
    PostingShape(v, q);
    PriceField(p.totalPrice, q.totalPrice);
    var f, g := PostingFields(v, p), PostingFields(v, q);
    if p.amount.Some? && q.amount.Some? {
      DecimalField(p.amount.value, q.amount.value);
    }
    if f + rest == g + tail {
      assert forall i | 0 <= i < 5 :: (f + rest)[i] == f[i] && (g + tail)[i] == g[i];
      assert (f + rest)[..|f|] == f && (g + tail)[..|g|] == g;
      assert f[2] == g[2];
      assert (f + rest)[|f|..] == rest && (g + tail)[|g|..] == tail;
      assert f[5..] == g[5..];
    }
    if SamePosting(v, p, q) {
      SameFields(f, g);
    }
  }

  lemma SameFields(f: seq<string>, g: seq<string>)
    requires |f| == |g| >= 5 && f[5..] == g[5..] && forall i | 0 <= i < 5 :: f[i] == g[i]
    ensures f == g
  {
    assert f == f[..5] + f[5..] && g == g[..5] + g[5..];
    assert f[..5] == g[..5];
  }

  lemma {:induction false} PostingsDecode(v: int, ps: seq<CandidatePosting>, qs: seq<CandidatePosting>)
    ensures PostingsFields(v, ps) == PostingsFields(v, qs) <==> SamePostings(v, ps, qs)
  {
    hide PostingFields, SamePosting;
    if ps == [] || qs == [] {
      if ps != [] {
        PostingShape(v, ps[0]);
      }
      if qs != [] {
        PostingShape(v, qs[0]);
      }
    } else {
      PostingDecodes(v, ps[0], PostingsFields(v, ps[1..]), qs[0], PostingsFields(v, qs[1..]));
      PostingsDecode(v, ps[1..], qs[1..]);
      SamePostingsCons(v, ps, qs);
    }
  }

  lemma SamePostingsCons(v: int, ps: seq<CandidatePosting>, qs: seq<CandidatePosting>)
    requires ps != [] && qs != []
    ensures SamePostings(v, ps, qs) <==> SamePosting(v, ps[0], qs[0]) && SamePostings(v, ps[1..], qs[1..])
  {
    hide SamePosting;
    if SamePosting(v, ps[0], qs[0]) && SamePostings(v, ps[1..], qs[1..]) {
      forall i | 0 <= i < |ps|
        ensures SamePosting(v, ps[i], qs[i])
      {
        if i > 0 {
          assert ps[i] == ps[1..][i - 1] && qs[i] == qs[1..][i - 1];
        }
      }
    }
    if SamePostings(v, ps, qs) {
      assert SamePosting(v, ps[0], qs[0]);
      forall i | 0 <= i < |ps[1..]|
        ensures SamePosting(v, ps[1..][i], qs[1..][i])
      {
        var j := i + 1;
        assert SamePosting(v, ps[j], qs[j]);
      }
    }
  }

  lemma ItoaInjective(v: int, w: int)
    requires Itoa(v) == Itoa(w)
    ensures v == w
  {
    hide FormatFixed;
    FormatInjective(v, 0, w, 0);
  }

  lemma HeaderDecodes(env: Environment, v: int, a: Record, w: int, b: Record)
    ensures |HeaderFields(env, v, a)| == 6
    ensures HeaderFields(env, v, a) == HeaderFields(env, w, b) <==>
            && v == w && a.source.namespace == b.source.namespace
            && CanonicalTime(env, a.occurredAt) == CanonicalTime(env, b.occurredAt)
            && TrimSpace(a.description) == TrimSpace(b.description)
  {
    hide CanonicalTime, TrimSpace, Itoa;
    var f, g := HeaderFields(env, v, a), HeaderFields(env, w, b);
    if f == g {
      assert f[2] == g[2] && f[3] == g[3] && f[4] == g[4] && f[5] == g[5];
      ItoaInjective(v, w);
    }
  }

  // The hashed fields agree exactly for records that are the same.
  lemma FieldsAgree(env: Environment, v: int, a: Record, w: int, b: Record)
    ensures IdentityFields(env, v, a) == IdentityFields(env, w, b) <==> SameRecord(env, v, a, w, b)
  {
    hide HeaderFields, PostingsFields, CanonicalTime, TrimSpace, SamePostings;
    TextsDistinct();
    HeaderDecodes(env, v, a, w, b);
    HeaderDecodes(env, w, b, v, a);
    HeaderTag(env, v, a);
    HeaderTag(env, w, b);
    var f, g := IdentityFields(env, v, a), IdentityFields(env, w, b);
    if a.source.externalID == "" && b.source.externalID == "" {
      assert f[..6] == HeaderFields(env, v, a) && g[..6] == HeaderFields(env, w, b);
      assert f[6..] == PostingsFields(v, a.postings) && g[6..] == PostingsFields(w, b.postings);
      PostingsDecode(v, a.postings, b.postings);
    } else if a.source.externalID != "" && b.source.externalID != "" {
      assert f[2] == a.source.namespace && f[3] == a.source.externalID;
      assert g[2] == b.source.namespace && g[3] == b.source.externalID;
    } else {
      assert f[0] != g[0];
    }
  }

  lemma HeaderTag(env: Environment, v: int, a: Record)
    ensures |HeaderFields(env, v, a)| == 6 && HeaderFields(env, v, a)[0] == "bokiccio.record-identity.fingerprint"
  {
    hide CanonicalTime, TrimSpace, Itoa;
  }

  // Two records get the same identity exactly when they are the same record:
  // the same namespace and external identifier, or both without one and equal
  // in schema version, namespace, canonical time, trimmed description and
  // postings up to numeric equality.
  lemma IdentityDecides(env: Environment, v: int, a: Record, w: int, b: Record)
    requires InjectiveSha(env)
    requires InMemory(IdentityFields(env, v, a)) && InMemory(IdentityFields(env, w, b))
    ensures IdentityOf(env, v, a) == IdentityOf(env, w, b) <==> SameRecord(env, v, a, w, b)
    ensures IdentityOf(env, v, a).kind == (if a.source.externalID == "" then "fingerprint" else "external_id")
    ensures IdentityOf(env, v, a).algorithmVersion == 1
  {
    hide IdentityFields, SameRecord, Stream, InMemory;
    FieldsAgree(env, v, a, w, b);
    var f, g := IdentityFields(env, v, a), IdentityFields(env, w, b);
    if IdentityOf(env, v, a) == IdentityOf(env, w, b) {
      assert env.sha(Stream(f)) == env.sha(Stream(g));
      StreamInjective(f, g);
    }
    if SameRecord(env, v, a, w, b) {
      assert IdentityKind(a) == IdentityKind(b) by { SameKind(env, v, a, w, b); }
    }
  }

  lemma SameKind(env: Environment, v: int, a: Record, w: int, b: Record)
    requires SameRecord(env, v, a, w, b)
    ensures IdentityKind(a) == IdentityKind(b)
  {
  }

  lemma TimeTag(env: Environment, t: EntryTime)
    ensures |CanonicalTime(env, t)| > 4
    ensures CanonicalTime(env, t)[4] == if t.EntryDate? then ':' else 't'
  {
  }

  // A date and a timestamp never share an identity time.
  lemma PrecisionsDiffer(env: Environment, a: EntryTime, b: EntryTime)
    requires CanonicalTime(env, a) == CanonicalTime(env, b)
    ensures a.EntryDate? <==> b.EntryDate?
    ensures a.EntryDate? ==> a == b
  {
    hide IsClock, FormatDate;
    var s, t := CanonicalTime(env, a), CanonicalTime(env, b);
    TimeTag(env, a);
    TimeTag(env, b);
    if a.EntryDate? && b.EntryDate? {
      assert s[5..] == TimeText(a) && t[5..] == TimeText(b);
      ParseInvertsTimeText(a);
      ParseInvertsTimeText(b);
    }
  }
}
