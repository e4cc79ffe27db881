// The string operations the parsers rely on: white space, words, cutting and
// splitting. Text is a sequence of Unicode scalar values.
module Texts {

  // Position of the first occurrence of c, or |s|.
  function IndexOf(s: string, c: char): (i: nat)
    ensures i <= |s|
    ensures forall j | 0 <= j < i :: s[j] != c
    ensures i < |s| ==> s[i] == c
  {
    if s == [] || s[0] == c then 0 else 1 + IndexOf(s[1..], c)
  }

  lemma IndexOfUnique(s: string, c: char, i: nat)
    requires i < |s| && s[i] == c
    requires forall j | 0 <= j < i :: s[j] != c
    ensures IndexOf(s, c) == i
  {
  }

  // ----------------------------------------------------------- white space

  // unicode.IsSpace
  predicate IsSpace(c: char) {
    || '\U{0009}' <= c <= '\U{000D}' || c == ' ' || c == '\U{0085}' || c == '\U{00A0}'
    || c == '\U{1680}' || '\U{2000}' <= c <= '\U{200A}' || c == '\U{2028}' || c == '\U{2029}'
    || c == '\U{202F}' || c == '\U{205F}' || c == '\U{3000}'
  }

  predicate NoSpace(s: string) {
    forall i | 0 <= i < |s| :: !IsSpace(s[i])
  }

  // A nonempty run of non-space characters.
  predicate IsWord(s: string) {
    s != "" && NoSpace(s)
  }

  function TrimLeft(s: string): (t: string)
    ensures |t| <= |s| && t == s[|s| - |t|..]
    ensures t != "" ==> !IsSpace(t[0])
  {
    if s != "" && IsSpace(s[0]) then TrimLeft(s[1..]) else s
  }

  function TrimRight(s: string): (t: string)
    ensures |t| <= |s| && t == s[..|t|]
    ensures t != "" ==> !IsSpace(t[|t| - 1])
  {
    if s != "" && IsSpace(s[|s| - 1]) then TrimRight(s[..|s| - 1]) else s
  }

  // strings.TrimSpace
  function TrimSpace(s: string): (t: string)
    ensures Trimmed(t)
    ensures Trimmed(s) ==> t == s
  {
    TrimRight(TrimLeft(s))
  }

  predicate Trimmed(s: string) {
    s == "" || (!IsSpace(s[0]) && !IsSpace(s[|s| - 1]))
  }

  predicate Spaces(s: string) {
    forall i | 0 <= i < |s| :: IsSpace(s[i])
  }

  lemma {:induction false} TrimLeftPadding(pad: string, s: string)
    requires Spaces(pad)
    ensures TrimLeft(pad + s) == TrimLeft(s)
  {
    if pad == "" {
      assert pad + s == s;
    } else {
      assert (pad + s)[1..] == pad[1..] + s;
      TrimLeftPadding(pad[1..], s);
    }
  }

  lemma {:induction false} TrimRightPadding(s: string, pad: string)
    requires Spaces(pad)
    ensures TrimRight(s + pad) == TrimRight(s)
  {
    if pad == "" {
      assert s + pad == s;
    } else {
      assert (s + pad)[..|s + pad| - 1] == s + pad[..|pad| - 1];
      TrimRightPadding(s, pad[..|pad| - 1]);
    }
  }

  // Padding around a trimmed text is exactly what trimming removes.
  lemma TrimPadded(left: string, s: string, right: string)
    requires Spaces(left) && Spaces(right) && Trimmed(s)
    ensures TrimSpace(left + s + right) == s
  {
    assert left + s + right == left + (s + right);
    TrimLeftPadding(left, s + right);
    if s == "" {
      assert s + right == right + "";
      TrimLeftPadding(right, "");
    } else {
      TrimRightPadding(s, right);
    }
  }

  // ----------------------------------------------------------------- words

  function WordLength(s: string): (n: nat)
    ensures n <= |s| && NoSpace(s[..n])
    ensures n < |s| ==> IsSpace(s[n])
    ensures s != "" && !IsSpace(s[0]) ==> n > 0
  {
    if s == "" || IsSpace(s[0]) then 0
    else
      assert forall i | 0 < i <= WordLength(s[1..]) :: s[i] == s[1..][i - 1];
      1 + WordLength(s[1..])
  }

  predicate AllWords(words: seq<string>) {
    forall i | 0 <= i < |words| :: IsWord(words[i])
  }

  // strings.Fields
  function Fields(s: string): (words: seq<string>)
    decreases |s|
  {
    var t := TrimLeft(s);
    var n := WordLength(t);
    if n == 0 then [] else [t[..n]] + Fields(t[n..])
  }

  lemma {:induction false} FieldsAreWords(s: string)
    ensures AllWords(Fields(s))
    decreases |s|
  {
    var t := TrimLeft(s);
    var n := WordLength(t);
    if n > 0 {
      FieldsAreWords(t[n..]);
      AllWordsCons(t[..n], Fields(t[n..]));
    }
  }

  lemma AllWordsCons(w: string, words: seq<string>)
    requires IsWord(w) && AllWords(words)
    ensures AllWords([w] + words)
  {
  }

  lemma {:induction false} WordLengthOf(w: string, rest: string)
    requires NoSpace(w) && (rest == "" || IsSpace(rest[0]))
    ensures WordLength(w + rest) == |w|
  {
    if w == "" {
      assert w + rest == rest;
    } else {
      assert (w + rest)[1..] == w[1..] + rest;
      WordLengthOf(w[1..], rest);
    }
  }

  // A word followed by white space, or by nothing, is the first field.
  lemma FieldsCons(pad: string, w: string, rest: string)
    requires Spaces(pad) && IsWord(w) && (rest == "" || IsSpace(rest[0]))
    ensures Fields(pad + w + rest) == [w] + Fields(rest)
  {
    var s := w + rest;
    assert pad + w + rest == pad + s;
    TrimLeftPadding(pad, s);
    assert TrimLeft(s) == s;
    WordLengthOf(w, rest);
    assert s[..|w|] == w && s[|w|..] == rest;
  }

  lemma FieldsOfSpaces(pad: string)
    requires Spaces(pad)
    ensures Fields(pad) == []
  {
    assert pad + "" == pad;
    TrimLeftPadding(pad, "");
  }

  // Words laid out with padding in front of each.
  function Layout(pads: seq<string>, words: seq<string>): string
    requires |pads| == |words|
  {
    if words == [] then "" else pads[0] + words[0] + Layout(pads[1..], words[1..])
  }

  ghost predicate GoodLayout(pads: seq<string>, words: seq<string>) {
    && |pads| == |words| && AllWords(words)
    && (forall i | 0 <= i < |pads| :: Spaces(pads[i]) && (i > 0 ==> pads[i] != ""))
  }

  // Fields recovers the words whatever the padding, also before white space.
  lemma {:induction false} FieldsOfLayout(pads: seq<string>, words: seq<string>, tail: string)
    requires GoodLayout(pads, words) && Spaces(tail)
    ensures Fields(Layout(pads, words) + tail) == words
  {
    hide IsSpace, Fields;
    if words == [] {
      assert "" + tail == tail;
      FieldsOfSpaces(tail);
    } else {
      FieldsOfLayout(pads[1..], words[1..], tail);
      var rest := Layout(pads[1..], words[1..]) + tail;
      assert Layout(pads, words) + tail == pads[0] + words[0] + rest;
      assert rest != "" ==> IsSpace(rest[0]) by {
        if |words| > 1 {
          assert IsSpace(pads[1][0]);
        }
      }
      FieldsCons(pads[0], words[0], rest);
    }
  }

  lemma {:induction false} LayoutAvoids(pads: seq<string>, words: seq<string>, c: char)
    requires |pads| == |words|
    requires forall i | 0 <= i < |words| :: c !in pads[i] && c !in words[i]
    ensures c !in Layout(pads, words)
  {
    if words != [] {
      LayoutAvoids(pads[1..], words[1..], c);
    }
  }

  lemma {:induction false} LayoutEnds(pads: seq<string>, words: seq<string>)
    requires GoodLayout(pads, words) && words != []
    ensures var s := Layout(pads, words); s != "" && !IsSpace(s[|s| - 1])
  {
    if |words| == 1 {
      assert Layout(pads[1..], words[1..]) == "";
    } else {
      LayoutEnds(pads[1..], words[1..]);
    }
  }

  // ------------------------------------------------------- cutting, splitting

  // strings.Cut at a single character.
  datatype Halves = Halves(before: string, after: string, found: bool)

  function Cut(s: string, c: char): Halves {
    var i := IndexOf(s, c);
    if i < |s| then Halves(s[..i], s[i + 1..], true) else Halves(s, "", false)
  }

  lemma CutAt(before: string, c: char, after: string)
    requires c !in before
    ensures Cut(before + [c] + after, c) == Halves(before, after, true)
  {
    var s := before + [c] + after;
    assert forall j | 0 <= j < |before| :: s[j] == before[j];
    IndexOfUnique(s, c, |before|);
    assert s[..|before|] == before && s[|before| + 1..] == after;
  }

  // strings.Split at a single character.
  function Split(s: string, c: char): (parts: seq<string>)
    ensures parts != []
    ensures forall i | 0 <= i < |parts| :: c !in parts[i]
    decreases |s|
  {
    var i := IndexOf(s, c);
    if i < |s| then [s[..i]] + Split(s[i + 1..], c) else [s]
  }

  function Join(parts: seq<string>, c: char): string
    requires parts != []
  {
    if |parts| == 1 then parts[0] else parts[0] + [c] + Join(parts[1..], c)
  }

  lemma SplitFirst(a: string, c: char, rest: string)
    requires c !in a
    ensures Split(a + [c] + rest, c) == [a] + Split(rest, c)
  {
    CutAt(a, c, rest);
  }

  lemma SplitWhole(a: string, c: char)
    requires c !in a
    ensures Split(a, c) == [a]
  {
  }

  lemma {:induction false} JoinOfSplit(s: string, c: char)
    ensures Join(Split(s, c), c) == s
    decreases |s|
  {
    var i := IndexOf(s, c);
    if i < |s| {
      JoinOfSplit(s[i + 1..], c);
      assert s == s[..i] + [c] + s[i + 1..];
      assert Split(s, c)[1..] == Split(s[i + 1..], c);
    }
  }

  lemma {:induction false} SplitOfJoin(parts: seq<string>, c: char)
    requires parts != [] && forall i | 0 <= i < |parts| :: c !in parts[i]
    ensures Split(Join(parts, c), c) == parts
  {
    if |parts| == 1 {
      SplitWhole(parts[0], c);
    } else {
      SplitOfJoin(parts[1..], c);
      SplitFirst(parts[0], c, Join(parts[1..], c));
    }
  }

  lemma {:induction false} SplitAppend(s: string, c: char, t: string)
    ensures Split(s + [c] + t, c) == Split(s, c) + Split(t, c)
    decreases |s|
  {
    hide IndexOf;
    var i := IndexOf(s, c);
    if i < |s| {
      var u := s[i + 1..];
      SplitAppend(u, c, t);
      assert s + [c] + t == s[..i] + [c] + (u + [c] + t);
      SplitFirst(s[..i], c, u + [c] + t);
    } else {
      SplitFirst(s, c, t);
    }
  }
}
