// Length-prefixed field streams: every field is written as the eight-byte
// big-endian number of its UTF-8 bytes followed by those bytes.
module Framing {

  newtype Byte = n: int | 0 <= n < 256

  type Bytes = seq<Byte>

  // ------------------------------------------------------------------ UTF-8

  function Continuation(n: nat): (b: Byte) {
    (128 + n % 64) as Byte
  }

  function EncodeChar(c: char): (bytes: Bytes)
    ensures 1 <= |bytes| <= 4
  {
    var n := c as int;
    if n < 0x80 then [n as Byte]
    else if n < 0x800 then [(192 + n / 64) as Byte, Continuation(n)]
    else if n < 0x1_0000 then [(224 + n / 4096) as Byte, Continuation(n / 64), Continuation(n)]
    else [(240 + n / 262144) as Byte, Continuation(n / 4096), Continuation(n / 64), Continuation(n)]
  }

  function Utf8(text: string): Bytes {
    if text == "" then [] else EncodeChar(text[0]) + Utf8(text[1..])
  }

  // The number of bytes of a character follows from its first byte.
  function Width(first: Byte): nat {
    if first < 128 then 1 else if first < 224 then 2 else if first < 240 then 3 else 4
  }

  lemma CharRange(c: char)
    ensures 0 <= c as int < 0x11_0000
  {
  }

  lemma WidthOfChar(c: char)
    ensures Width(EncodeChar(c)[0]) == |EncodeChar(c)|
  {
    CharRange(c);
  }

  // Splitting a number into base-64 digits determines it.
  lemma Base64(n: nat, m: nat)
    requires n / 64 == m / 64 && Continuation(n) == Continuation(m)
    ensures n == m
  {
    assert n == n / 64 * 64 + n % 64 && m == m / 64 * 64 + m % 64;
  }

  lemma DivTwice(n: nat)
    ensures n / 64 / 64 == n / 4096 && n / 4096 / 64 == n / 262144
  {
  }

  lemma LowBits(n: nat)
    ensures var b := Continuation(n) as int; 0x80 <= b < 0xC0 && n == n / 64 * 64 + (b - 0x80)
  {
  }

  // The bytes of a character as UTF-8 defines them in section 3 of RFC 3629:
  // the first byte tells their number, and their payload bits, six in each
  // later byte, are the code point.
  lemma CharDecodes(c: char)
    ensures var n, bytes := c as int, EncodeChar(c);
            && (n < 0x80 ==> |bytes| == 1 && bytes[0] as int == n)
            && (0x80 <= n < 0x800 ==>
                  && |bytes| == 2 && 0xC0 <= bytes[0] as int < 0xE0
                  && n == (bytes[0] as int - 0xC0) * 64 + (bytes[1] as int - 0x80))
            && (0x800 <= n < 0x1_0000 ==>
                  && |bytes| == 3 && 0xE0 <= bytes[0] as int < 0xF0
                  && n == ((bytes[0] as int - 0xE0) * 64 + (bytes[1] as int - 0x80)) * 64 + (bytes[2] as int - 0x80))
            && (0x1_0000 <= n ==>
                  && |bytes| == 4 && 0xF0 <= bytes[0] as int < 0xF8
                  && n == (((bytes[0] as int - 0xF0) * 64 + (bytes[1] as int - 0x80)) * 64 + (bytes[2] as int - 0x80)) * 64
                          + (bytes[3] as int - 0x80))
    ensures forall i | 1 <= i < |EncodeChar(c)| :: 0x80 <= EncodeChar(c)[i] as int < 0xC0
  {
    hide Continuation;
    var n := c as int;
    CharRange(c);
    DivTwice(n);
    LowBits(n);
    LowBits(n / 64);
    LowBits(n / 4096);
  }

  lemma CharInjective(c: char, d: char)
    requires EncodeChar(c) == EncodeChar(d)
    ensures c == d
  {
    hide Continuation;
    var n, m := c as int, d as int;
    DivTwice(n);
    DivTwice(m);
    if n < 0x80 {
    } else if n < 0x800 {
      assert EncodeChar(c)[1] == EncodeChar(d)[1];
      Base64(n, m);
    } else if n < 0x1_0000 {
      assert EncodeChar(c)[0] == EncodeChar(d)[0] && EncodeChar(c)[1] == EncodeChar(d)[1] && EncodeChar(c)[2] == EncodeChar(d)[2];
      Base64(n / 64, m / 64);
      Base64(n, m);
    } else {
      assert EncodeChar(c)[0] == EncodeChar(d)[0] && EncodeChar(c)[1] == EncodeChar(d)[1];
      assert EncodeChar(c)[2] == EncodeChar(d)[2] && EncodeChar(c)[3] == EncodeChar(d)[3];
      Base64(n / 4096, m / 4096);
      Base64(n / 64, m / 64);
      Base64(n, m);
    }
  }

  // Texts with the same bytes are the same text.
  lemma {:induction false} Utf8Injective(s: string, t: string)
    requires Utf8(s) == Utf8(t)
    ensures s == t
  {
    hide EncodeChar;
    if s != "" && t != "" {
      var a, b := EncodeChar(s[0]), EncodeChar(t[0]);
      assert Utf8(s)[0] == a[0] && Utf8(t)[0] == b[0];
      WidthOfChar(s[0]);
      WidthOfChar(t[0]);
      assert Utf8(s)[..|a|] == a && Utf8(t)[..|b|] == b;
      CharInjective(s[0], t[0]);
      assert Utf8(s)[|a|..] == Utf8(s[1..]) && Utf8(t)[|b|..] == Utf8(t[1..]);
      Utf8Injective(s[1..], t[1..]);
      assert s == [s[0]] + s[1..] && t == [t[0]] + t[1..];
    }
  }

  // ----------------------------------------------------------------- frames

  // PutUint64: the low `width` bytes of n, most significant first.
  function BigEndian(n: nat, width: nat): (bytes: Bytes)
    ensures |bytes| == width
  {
    if width == 0 then [] else BigEndian(n / 256, width - 1) + [(n % 256) as Byte]
  }

  function Capacity(width: nat): (p: nat)
    ensures p > 0
  {
    if width == 0 then 1 else 256 * Capacity(width - 1)
  }

  lemma {:induction false} BigEndianInjective(n: nat, m: nat, width: nat)
    requires n < Capacity(width) && m < Capacity(width) && BigEndian(n, width) == BigEndian(m, width)
    ensures n == m
  {
    if width > 0 {
      var a, b := BigEndian(n, width), BigEndian(m, width);
      assert a[..width - 1] == BigEndian(n / 256, width - 1) && b[..width - 1] == BigEndian(m / 256, width - 1);
      assert a[width - 1] == b[width - 1];
      BigEndianInjective(n / 256, m / 256, width - 1);
    }
  }

  function Frame(field: string): Bytes {
    BigEndian(|Utf8(field)|, 8) + Utf8(field)
  }

  function Stream(fields: seq<string>): Bytes {
    if fields == [] then [] else Frame(fields[0]) + Stream(fields[1..])
  }

  // The length of a string in memory is a non-negative 63-bit number.
  predicate InMemory(fields: seq<string>) {
    forall i | 0 <= i < |fields| :: |Utf8(fields[i])| < 0x8000_0000_0000_0000
  }

  lemma EightBytes()
    ensures Capacity(8) == 0x1_0000_0000_0000_0000
  {
    assert Capacity(1) == 256 && Capacity(2) == 0x1_0000 && Capacity(3) == 0x100_0000;
    assert Capacity(4) == 0x1_0000_0000 && Capacity(5) == 0x100_0000_0000 && Capacity(6) == 0x1_0000_0000_0000;
  }

  lemma FrameFirst(field: string, rest: Bytes, other: string, tail: Bytes)
    requires |Utf8(field)| < 0x8000_0000_0000_0000 && |Utf8(other)| < 0x8000_0000_0000_0000
    requires Frame(field) + rest == Frame(other) + tail
    ensures field == other && rest == tail
  {
    hide Utf8, BigEndian, Capacity;
    var a, b := Frame(field) + rest, Frame(other) + tail;
    assert a[..8] == BigEndian(|Utf8(field)|, 8) && b[..8] == BigEndian(|Utf8(other)|, 8);
    EightBytes();
    BigEndianInjective(|Utf8(field)|, |Utf8(other)|, 8);
    var n := |Utf8(field)|;
    assert a[8..8 + n] == Utf8(field) && b[8..8 + n] == Utf8(other);
    Utf8Injective(field, other);
    assert a[8 + n..] == rest && b[8 + n..] == tail;
  }

  // A stream determines its fields.
  lemma {:induction false} StreamInjective(a: seq<string>, b: seq<string>)
    requires InMemory(a) && InMemory(b) && Stream(a) == Stream(b)
    ensures a == b
  {
    hide Utf8, BigEndian;
    if a != [] && b != [] {
      FrameFirst(a[0], Stream(a[1..]), b[0], Stream(b[1..]));
      StreamInjective(a[1..], b[1..]);
      assert a == [a[0]] + a[1..] && b == [b[0]] + b[1..];
    }
  }
}
