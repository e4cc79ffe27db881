// Parse and Export undo each other: what the parser can return, and what
// becomes of exported text when it is parsed again.
module TacklerRoundTrip {
  import opened Results
  import opened Texts
  import opened Decimals
  import opened Calendar
  import opened Ledger
  import opened Tackler

  // The entries the text format can carry unchanged. Identifiers that pass
  // validation can contain exactly one white-space character, U+1680.
  ghost predicate Canonical(e: JournalEntry) {
    && Trimmed(e.description)
    && (forall i | 0 <= i < |e.comments| :: CanonicalComment(e.comments[i]))
    && (forall i | 0 <= i < |e.postings| :: CanonicalPosting(e.postings[i]))
  }

  predicate CanonicalComment(comment: string) {
    comment != "" && Trimmed(comment)
  }

  predicate CanonicalPosting(p: Posting) {
    && NoSpace(p.account) && Trimmed(p.comment)
    && (p.amount.Some? ==> NoSpace(p.amount.value.commodity))
    && (p.totalPrice.Some? ==> NoSpace(p.totalPrice.value.commodity))
  }

  ghost predicate AllCanonical(es: seq<JournalEntry>) {
    forall i | 0 <= i < |es| :: Canonical(es[i])
  }

  // ---------------------------------------------------------- identifiers

  lemma NameSpace(c: char)
    requires IsNameChar(c) && IsSpace(c)
    ensures c == '\U{1680}'
  {
  }

  lemma PartSpace(part: string, mayStartWithDigit: bool)
    requires ValidIdentifierPart(part, mayStartWithDigit)
    ensures NoSpace(part) <==> '\U{1680}' !in part
  {
    hide IsNameStart;
    forall i | 0 <= i < |part| && IsSpace(part[i])
      ensures part[i] == '\U{1680}'
    {
      NameSpace(part[i]);
    }
  }

  lemma {:induction false} JoinSpace(parts: seq<string>)
    requires parts != [] && forall i | 0 <= i < |parts| :: NoSpace(parts[i]) <==> '\U{1680}' !in parts[i]
    ensures NoSpace(Join(parts, ':')) <==> '\U{1680}' !in Join(parts, ':')
  {
    if |parts| > 1 {
      JoinSpace(parts[1..]);
      assert Join(parts, ':') == parts[0] + ":" + Join(parts[1..], ':');
      ConcatSpace(parts[0], ":" + Join(parts[1..], ':'));
      ConcatSpace(":", Join(parts[1..], ':'));
      assert parts[0] + ":" + Join(parts[1..], ':') == parts[0] + (":" + Join(parts[1..], ':'));
    }
  }

  lemma ConcatSpace(a: string, b: string)
    requires NoSpace(a) <==> '\U{1680}' !in a
    requires NoSpace(b) <==> '\U{1680}' !in b
    ensures NoSpace(a + b) <==> '\U{1680}' !in a + b
  {
    hide IsSpace;
    var s := a + b;
    assert forall i | 0 <= i < |a| :: a[i] == s[i];
    assert forall i | 0 <= i < |b| :: b[i] == s[|a| + i];
  }

  // The only white space a valid account or commodity can hold is U+1680.
  lemma AccountSpace(account: string)
    requires ValidAccount(account)
    ensures NoSpace(account) <==> '\U{1680}' !in account
  {
    hide ValidIdentifierPart;
    var parts := Split(account, ':');
    forall i | 0 <= i < |parts|
      ensures NoSpace(parts[i]) <==> '\U{1680}' !in parts[i]
    {
      PartSpace(parts[i], i > 0);
    }
    JoinSpace(parts);
    JoinOfSplit(account, ':');
  }

  lemma IdentifierAvoids(part: string, mayStartWithDigit: bool)
    requires ValidIdentifierPart(part, mayStartWithDigit)
    ensures ';' !in part && '\'' !in part && '\n' !in part && '\r' !in part && part != ""
    ensures !mayStartWithDigit ==> !IsDigit(part[0])
  {
    forall i | 0 <= i < |part|
      ensures part[i] != ';' && part[i] != '\'' && part[i] != '\n' && part[i] != '\r'
    {
      assert IsNameChar(part[i]);
    }
  }

  lemma {:induction false} JoinAvoids(parts: seq<string>, c: char)
    requires parts != [] && c != ':' && forall i | 0 <= i < |parts| :: c !in parts[i]
    ensures c !in Join(parts, ':')
  {
    if |parts| > 1 {
      JoinAvoids(parts[1..], c);
    }
  }

  lemma AccountAvoids(account: string)
    requires ValidAccount(account)
    ensures ';' !in account && '\'' !in account && '\n' !in account && '\r' !in account
    ensures account != "" && !IsDigit(account[0])
  {
    hide ValidIdentifierPart;
    var parts := Split(account, ':');
    forall i | 0 <= i < |parts|
      ensures ';' !in parts[i] && '\'' !in parts[i] && '\n' !in parts[i] && '\r' !in parts[i]
    {
      IdentifierAvoids(parts[i], i > 0);
    }
    IdentifierAvoids(parts[0], false);
    JoinAvoids(parts, ';');
    JoinAvoids(parts, '\'');
    JoinAvoids(parts, '\n');
    JoinAvoids(parts, '\r');
    JoinOfSplit(account, ':');
  }

  // ------------------------------------- everything the parser returns is canonical

  ghost predicate CanonicalState(st: State) {
    && AllCanonical(st.entries) && (st.current.Some? ==> Canonical(st.current.value))
  }

  lemma HeaderCanonical(line: string)
    requires ParseHeader(line).Ok?
    ensures Canonical(ParseHeader(line).value)
  {
    hide IsSpace, TrimSpace, Cut, ParseEntryTime, CanonicalPosting, CanonicalComment;
  }

  lemma FieldsCanonical(fields: seq<string>, comment: string)
    requires AllWords(fields) && Trimmed(comment) && PostingOfFields(fields, comment).Ok?
    ensures CanonicalPosting(PostingOfFields(fields, comment).value)
  {
    hide IsSpace, ParseDecimal;
  }

  lemma PostingCanonical(line: string)
    requires ParsePosting(line).Ok?
    ensures CanonicalPosting(ParsePosting(line).value)
  {
    hide IsSpace, Cut, CanonicalPosting, PostingOfFields;
    var halves := Cut(TrimSpace(line), ';');
    FieldsAreWords(halves.before);
    FieldsCanonical(Fields(halves.before), TrimSpace(halves.after));
  }

  lemma CloseKeepsCanonical(st: State, validate: bool)
    requires CanonicalState(st) && Close(st, validate).Ok?
    ensures AllCanonical(Close(st, validate).value.entries)
  {
    hide Canonical, Valid, Validate;
  }

  lemma AddKeepsCanonical(e: JournalEntry, comment: string, p: Posting)
    requires Canonical(e)
    ensures CanonicalComment(comment) ==> Canonical(AddComment(e, comment))
    ensures CanonicalPosting(p) ==> Canonical(AddPosting(e, p))
  {
    hide CanonicalPosting, CanonicalComment, Trimmed;
  }

  lemma LineKeepsCanonical(line: string, number: nat, st: State, validate: bool)
    requires CanonicalState(st) && ParseLine(line, number, st, validate).Ok?
    ensures CanonicalState(ParseLine(line, number, st, validate).value)
  {
    hide TrimSpace, IsHeaderLine, ParseHeader, ParsePosting, Canonical, Close, AddComment, AddPosting;
    if TrimSpace(line) == "" {
    } else if IsHeaderLine(line) {
      HeaderCanonical(line);
      CloseKeepsCanonical(st, validate);
    } else if st.current.None? {
    } else if ";" <= TrimSpace(line) {
      AddKeepsCanonical(st.current.value, TrimSpace(TrimSpace(line)[1..]), Posting("", None, None, ""));
    } else {
      PostingCanonical(line);
      AddKeepsCanonical(st.current.value, "", ParsePosting(line).value);
    }
  }

  lemma {:induction false} LinesKeepCanonical(lines: seq<string>, number: nat, st: State, validate: bool)
    requires CanonicalState(st) && ParseLines(lines, number, st, validate).Ok?
    ensures CanonicalState(ParseLines(lines, number, st, validate).value)
  {
    hide ParseLine, CanonicalState;
    if lines != [] {
      LineKeepsCanonical(lines[0], number, st, validate);
      LinesKeepCanonical(lines[1..], number + 1, ParseLine(lines[0], number, st, validate).value, validate);
    }
  }

  lemma LineKeepsValid(line: string, number: nat, st: State)
    requires AllValid(st.entries) && ParseLine(line, number, st, true).Ok?
    ensures AllValid(ParseLine(line, number, st, true).value.entries)
  {
    hide TrimSpace, IsHeaderLine, ParseHeader, ParsePosting, Valid, Validate;
  }

  lemma {:induction false} LinesKeepValid(lines: seq<string>, number: nat, st: State)
    requires AllValid(st.entries) && ParseLines(lines, number, st, true).Ok?
    ensures AllValid(ParseLines(lines, number, st, true).value.entries)
  {
    hide ParseLine, AllValid;
    if lines != [] {
      LineKeepsValid(lines[0], number, st);
      LinesKeepValid(lines[1..], number + 1, ParseLine(lines[0], number, st, true).value);
    }
  }

  // Parse accepts only validated, canonical entries, and at least one.
  lemma ParseRange(input: string)
    requires Parse(input).Ok?
    ensures Parse(input).value != [] && AllValid(Parse(input).value) && AllCanonical(Parse(input).value)
  {
    hide InputLines, Valid, Validate, Canonical, ParseLines;
    LinesKeepCanonical(InputLines(input), 1, State([], None), true);
    LinesKeepValid(InputLines(input), 1, State([], None));
  }

  // ------------------------------------------------------ the three line kinds

  predicate TimeChar(c: char) {
    ClockChar(c)
  }

  lemma TimeCharPlain(c: char)
    requires TimeChar(c)
    ensures !IsSpace(c) && c != '\'' && c != '\n' && c != '\r'
  {
  }

  lemma TimeTextChars(t: EntryTime)
    ensures var s := TimeText(t);
            |s| >= 10 && LooksLikeEntryTime(s) && IsDigit(s[0]) && forall i | 0 <= i < |s| :: TimeChar(s[i])
  {
    hide FormatDate, IsClock;
    DateChars(t.date);
    var s, d := TimeText(t), FormatDate(t.date);
    if t.EntryDateTime? {
      assert s == d + t.clock;
      ClockChars(t.clock);
      assert s[..4] == d[..4] && s[5..7] == d[5..7] && s[8..10] == d[8..10];
    } else {
      assert s == d;
    }
    assert s[0] == s[..4][0];
  }

  lemma ClockChars(clock: string)
    requires IsClock(clock)
    ensures clock[0] == 'T' && forall i | 0 <= i < |clock| :: TimeChar(clock[i])
  {
  }

  lemma DateTextChars(t: EntryTime)
    ensures var s := TimeText(t);
            && IsWord(s) && LooksLikeEntryTime(s) && '\'' !in s && '\n' !in s && '\r' !in s && IsDigit(s[0])
  {
    hide IsSpace, TimeChar, TimeText, LooksLikeEntryTime;
    TimeTextChars(t);
    var s := TimeText(t);
    forall i | 0 <= i < |s|
      ensures !IsSpace(s[i]) && s[i] != '\'' && s[i] != '\n' && s[i] != '\r'
    {
      TimeCharPlain(s[i]);
    }
  }

  lemma DateChars(d: Date)
    requires ValidDate(d) && 0 <= d.year <= 9999
    ensures var s := FormatDate(d);
            LooksLikeEntryTime(s) && |s| == 10 && forall i | 0 <= i < |s| :: TimeChar(s[i])
  {
    hide FormatDate;
    ParseInvertsFormatDate(d);
    var s := FormatDate(d);
    forall i | 0 <= i < |s|
      ensures IsDigit(s[i]) || s[i] == '-'
    {
      if i < 4 {
        assert s[i] == s[..4][i];
      } else if 5 <= i < 7 {
        assert s[i] == s[5..7][i - 5];
      } else if 8 <= i {
        assert s[i] == s[8..][i - 8];
      }
    }
    assert s[8..10] == s[8..];
  }

  lemma HeaderEnds(t: string, d: string)
    requires IsWord(t) && IsDigit(t[0]) && d != "" && Trimmed(d)
    ensures var line := t + "  '" + d; Trimmed(line) && TrimBlanks(line) == line && '\'' in line && !(";" <= line)
  {
    hide IsSpace;
    var line := t + "  '" + d;
    assert line[0] == t[0] && line[|line| - 1] == d[|d| - 1];
    assert line[|t| + 2] == '\'';
  }

  lemma HeaderLineIsHeader(e: JournalEntry)
    requires e.description != "" && Trimmed(e.description)
    ensures Trimmed(HeaderText(e)) && IsHeaderLine(HeaderText(e))
  {
    hide IsSpace, TimeText, LooksLikeEntryTime, Trimmed, TrimBlanks, Fields;
    var t, d, line := TimeText(e.date), e.description, HeaderText(e);
    DateTextChars(e.date);
    BlankIsSpace();
    HeaderEnds(t, d);
    assert "" + t + ("  '" + d) == line;
    FieldsCons("", t, "  '" + d);
  }

  lemma HeaderCut(t: string, d: string)
    requires IsWord(t) && '\'' !in t && d != "" && Trimmed(d) && Trimmed(t + "  '" + d)
    ensures var halves := Cut(TrimSpace(t + "  '" + d), '\'');
            halves.found && TrimSpace(halves.before) == t && TrimSpace(halves.after) == d
  {
    hide IsSpace, IndexOf, TrimSpace;
    assert t + "  '" + d == (t + "  ") + "'" + d;
    CutAt(t + "  ", '\'', d);
    BlankIsSpace();
    assert "" + t + "  " == t + "  ";
    TrimPadded("", t, "  ");
  }

  lemma HeaderLineParses(e: JournalEntry)
    requires e.description != "" && Trimmed(e.description)
    ensures ParseHeader(HeaderText(e)) == Ok(JournalEntry(e.date, e.description, [], []))
  {
    hide IsSpace, TimeText, ParseEntryTime, IsHeaderLine, IndexOf, TrimSpace, Cut, Trimmed;
    DateTextChars(e.date);
    ParseInvertsTimeText(e.date);
    HeaderLineIsHeader(e);
    HeaderCut(TimeText(e.date), e.description);
  }

  lemma BlankIsSpace()
    ensures Spaces(" ") && Spaces("  ") && Spaces("    ") && Spaces("     ") && Spaces("")
    ensures IsSpace(' ') && IsSpace('\t')
  {
  }

  lemma CommentLineParses(comment: string)
    requires CanonicalComment(comment)
    ensures var line := CommentText(comment);
            && TrimSpace(line) == "; " + comment && !IsHeaderLine(line)
            && TrimSpace(TrimSpace(line)[1..]) == comment
  {
    hide IsSpace, Fields;
    var line, inner := CommentText(comment), "; " + comment;
    BlankIsSpace();
    SemicolonNotSpace();
    assert inner[0] == ';' && inner[|inner| - 1] == comment[|comment| - 1];
    assert "    " + inner + "" == line;
    TrimPadded("    ", inner, "");
    assert inner[1..] == " " + comment + "";
    TrimPadded(" ", comment, "");
    TrimFourBlanks(inner);
    assert "    " + inner == line;
  }

  lemma SemicolonNotSpace()
    ensures !IsSpace(';') && !IsSpace('=') && !IsSpace('\'')
  {
  }

  lemma TrimFourBlanks(s: string)
    requires s != "" && s[0] != ' ' && s[0] != '\t'
    ensures TrimBlanks("    " + s) == s
  {
    assert ("    " + s)[1..] == "   " + s;
    assert ("   " + s)[1..] == "  " + s;
    assert ("  " + s)[1..] == " " + s;
    assert (" " + s)[1..] == s;
    assert TrimBlanks(s) == s;
    assert TrimBlanks("  " + s) == TrimBlanks(" " + s) == s;
    assert TrimBlanks("    " + s) == TrimBlanks("   " + s) == TrimBlanks("  " + s);
  }

  lemma DecimalWord(d: Decimal)
    ensures var s := ToString(d);
            && IsWord(s) && ';' !in s && '\'' !in s && '\n' !in s && '\r' !in s
            && TrimPlus(s) == s && ParseDecimal(TrimPlus(s)) == Ok(d)
  {
    ParseInvertsFormat(d);
    DecimalChars(d);
    assert IsWord(ToString(d)) by {
      hide ToString;
    }
  }

  lemma DecimalChars(d: Decimal)
    ensures var s := ToString(d);
            && s != "" && s[0] != '+'
            && forall i | 0 <= i < |s| :: IsDigit(s[i]) || s[i] == '.' || s[i] == '-'
  {
    var n := Abs(d.coefficient);
    FormatShape(n, d.scale);
    var body := FormatUnsigned(n, d.scale);
    var integer, fraction := IntegerDigits(n, d.scale), FractionDigits(n, d.scale);
    BodyChars(integer, fraction);
    SignChars(d.coefficient < 0, body);
    assert ToString(d) == WithSign(d.coefficient < 0, body);
  }

  lemma BodyChars(integer: string, fraction: string)
    requires AllDigits(integer) && AllDigits(fraction)
    ensures var s := WithPoint(integer, fraction); forall i | 0 <= i < |s| :: IsDigit(s[i]) || s[i] == '.'
  {
  }

  lemma SignChars(negative: bool, body: string)
    requires body != "" && IsDigit(body[0]) && forall i | 0 <= i < |body| :: IsDigit(body[i]) || body[i] == '.'
    ensures var s := WithSign(negative, body);
            && s != "" && s[0] != '+'
            && forall i | 0 <= i < |s| :: IsDigit(s[i]) || s[i] == '.' || s[i] == '-'
  {
  }

  // The words of a printed posting and the padding in front of each.
  function BodyWords(p: Posting): seq<string> {
    [p.account]
    + (if p.amount.Some? then [ToString(p.amount.value.value), p.amount.value.commodity] else [])
    + (if p.totalPrice.Some? then ["=", ToString(p.totalPrice.value.value), p.totalPrice.value.commodity] else [])
  }

  function BodyPads(p: Posting): seq<string> {
    [""] + (if p.amount.Some? then ["  ", " "] else []) + (if p.totalPrice.Some? then [" ", " ", " "] else [])
  }

  lemma ThreeWords(a: string, p: string, b: string, q: string, c: string)
    ensures Layout(["", p, q], [a, b, c]) == a + (p + b + q + c)
  {
    assert Layout([q], [c]) == q + c;
    assert [p, q][1..] == [q] && [b, c][1..] == [c];
    assert ["", p, q][1..] == [p, q] && [a, b, c][1..] == [b, c];
  }

  lemma LayoutAppend(pads: seq<string>, words: seq<string>, pads': seq<string>, words': seq<string>)
    requires |pads| == |words| && |pads'| == |words'|
    ensures Layout(pads + pads', words + words') == Layout(pads, words) + Layout(pads', words')
  {
    if words == [] {
      assert pads + pads' == pads' && words + words' == words';
    } else {
      assert (pads + pads')[1..] == pads[1..] + pads' && (words + words')[1..] == words[1..] + words';
      LayoutAppend(pads[1..], words[1..], pads', words');
    }
  }

  lemma BodyIsLayout(p: Posting)
    requires p.totalPrice.Some? ==> p.amount.Some?
    ensures |BodyPads(p)| == |BodyWords(p)| && Layout(BodyPads(p), BodyWords(p)) == PostingBody(p)
  {
    hide ToString;
    if p.amount.None? {
      assert Layout([""], [p.account]) == p.account;
    } else {
      var v, c := ToString(p.amount.value.value), p.amount.value.commodity;
      ThreeWords(p.account, "  ", v, " ", c);
      if p.totalPrice.Some? {
        var w, d := ToString(p.totalPrice.value.value), p.totalPrice.value.commodity;
        PriceLayout(w, d);
        LayoutAppend(["", "  ", " "], [p.account, v, c], [" ", " ", " "], ["=", w, d]);
        assert BodyPads(p) == ["", "  ", " "] + [" ", " ", " "];
        assert BodyWords(p) == [p.account, v, c] + ["=", w, d];
        assert PostingBody(p) == p.account + ("  " + v + " " + c) + (" = " + w + " " + d);
      } else {
        assert BodyPads(p) == ["", "  ", " "];
        assert BodyWords(p) == [p.account, v, c];
      }
    }
  }

  lemma PriceLayout(w: string, d: string)
    ensures Layout([" ", " ", " "], ["=", w, d]) == " = " + w + " " + d
  {
    assert [" ", " ", " "][1..] == [" ", " "] && ["=", w, d][1..] == [w, d];
    assert [" ", " "][1..] == [" "] && [w, d][1..] == [d];
    assert Layout([" "], [d]) == " " + d;
    assert Layout([" ", " "], [w, d]) == " " + w + (" " + d);
  }

  ghost predicate PlainWord(w: string) {
    IsWord(w) && ';' !in w && '\n' !in w && '\r' !in w
  }

  lemma WordsArePlain(p: Posting)
    requires ValidatePosting(p) == None && CanonicalPosting(p)
    ensures p.totalPrice.Some? ==> p.amount.Some?
    ensures PlainWord(p.account)
    ensures p.amount.Some? ==> PlainWord(ToString(p.amount.value.value)) && PlainWord(p.amount.value.commodity)
    ensures p.totalPrice.Some? ==>
              PlainWord(ToString(p.totalPrice.value.value)) && PlainWord(p.totalPrice.value.commodity)
  {
    hide IsSpace, ValidAccount, ValidIdentifierPart, ToString;
    AccountAvoids(p.account);
    if p.amount.Some? {
      DecimalWord(p.amount.value.value);
      IdentifierAvoids(p.amount.value.commodity, false);
    }
    if p.totalPrice.Some? {
      DecimalWord(p.totalPrice.value.value);
      IdentifierAvoids(p.totalPrice.value.commodity, false);
    }
  }

  lemma BodyGood(p: Posting)
    requires ValidatePosting(p) == None && CanonicalPosting(p)
    ensures p.totalPrice.Some? ==> p.amount.Some?
    ensures GoodLayout(BodyPads(p), BodyWords(p))
    ensures ';' !in PostingBody(p)
    ensures '\n' !in PostingBody(p) && '\r' !in PostingBody(p)
  {
    hide IsSpace, ToString, ValidatePosting, PostingBody;
    WordsArePlain(p);
    BodyIsLayout(p);
    GoodWords(p);
    LayoutAvoids(BodyPads(p), BodyWords(p), ';');
    LayoutAvoids(BodyPads(p), BodyWords(p), '\n');
    LayoutAvoids(BodyPads(p), BodyWords(p), '\r');
  }

  lemma GoodWords(p: Posting)
    requires IsWord(p.account)
    requires p.amount.Some? ==> IsWord(ToString(p.amount.value.value)) && IsWord(p.amount.value.commodity)
    requires p.totalPrice.Some? ==>
               p.amount.Some? && IsWord(ToString(p.totalPrice.value.value)) && IsWord(p.totalPrice.value.commodity)
    ensures GoodLayout(BodyPads(p), BodyWords(p))
  {
    hide ToString, IsSpace;
    BlankIsSpace();
    SemicolonNotSpace();
    assert IsWord("=");
  }

  lemma PostingOfWords(p: Posting)
    requires p.totalPrice.Some? ==> p.amount.Some?
    ensures PostingOfFields(BodyWords(p), p.comment) == Ok(p)
  {
    hide ToString, ParseDecimal;
    if p.amount.Some? {
      DecimalWord(p.amount.value.value);
    }
    if p.totalPrice.Some? {
      DecimalWord(p.totalPrice.value.value);
    }
  }

  lemma PostingCut(p: Posting, body: string)
    requires ';' !in body && Trimmed(p.comment)
    ensures var halves := Cut(body + (if p.comment == "" then "" else "     ; " + p.comment), ';');
            && halves.before == body + (if p.comment == "" then "" else "     ")
            && TrimSpace(halves.after) == p.comment
  {
    hide IsSpace, IndexOf, TrimSpace;
    BlankIsSpace();
    if p.comment == "" {
      assert body + "" == body;
    } else {
      assert body + ("     ; " + p.comment) == (body + "     ") + ";" + (" " + p.comment);
      NoSemicolon(body);
      CutAt(body + "     ", ';', " " + p.comment);
      assert " " + p.comment == " " + p.comment + "";
      TrimPadded(" ", p.comment, "");
    }
  }

  lemma BodyFields(p: Posting, tail: string)
    requires ValidatePosting(p) == None && CanonicalPosting(p) && Spaces(tail)
    ensures PostingOfFields(Fields(PostingBody(p) + tail), p.comment) == Ok(p)
  {
    hide IsSpace, PostingBody, PostingOfFields, ValidatePosting, BodyWords, BodyPads, CanonicalPosting, Fields;
    BodyGood(p);
    BodyIsLayout(p);
    FieldsOfLayout(BodyPads(p), BodyWords(p), tail);
    PostingOfWords(p);
  }

  lemma PostingLineParses(p: Posting)
    requires ValidatePosting(p) == None && CanonicalPosting(p)
    ensures var line := PostingText(p);
            && TrimSpace(line) != "" && !(";" <= TrimSpace(line)) && !IsHeaderLine(line)
            && ParsePosting(line) == Ok(p)
  {
    hide IsSpace, PostingBody, PostingOfFields, ValidatePosting, IsHeaderLine, Cut, TrimSpace, Fields;
    BodyGood(p);
    PostingTrimmed(p);
    PostingNotHeader(p);
    BlankIsSpace();
    PostingCut(p, PostingBody(p));
    BodyFields(p, if p.comment == "" then "" else "     ");
  }

  lemma NoSemicolon(body: string)
    requires ';' !in body
    ensures ';' !in body + "     "
  {
  }

  lemma BodyStart(p: Posting)
    requires ValidatePosting(p) == None && CanonicalPosting(p)
    ensures var body := PostingBody(p);
            && body != "" && p.account <= body && !IsSpace(body[0]) && body[0] != ';' && !IsSpace(body[|body| - 1])
    ensures p.account != "" && !IsDigit(p.account[0])
  {
    AccountAvoids(p.account);
    BodyGood(p);
    BodyIsLayout(p);
    LayoutEnds(BodyPads(p), BodyWords(p));
    assert p.account[0] == PostingBody(p)[0];
  }

  lemma PostingTrimmed(p: Posting)
    requires ValidatePosting(p) == None && CanonicalPosting(p)
    ensures var inner := PostingBody(p) + (if p.comment == "" then "" else "     ; " + p.comment);
            TrimSpace(PostingText(p)) == inner && inner != "" && !(";" <= inner)
  {
    hide IsSpace, PostingBody, ValidatePosting;
    BodyStart(p);
    var body := PostingBody(p);
    var inner := body + (if p.comment == "" then "" else "     ; " + p.comment);
    assert inner[0] == body[0];
    assert inner[|inner| - 1] == if p.comment == "" then body[|body| - 1] else p.comment[|p.comment| - 1];
    BlankIsSpace();
    assert PostingText(p) == "    " + inner + "";
    TrimPadded("    ", inner, "");
  }

  lemma AfterAccount(p: Posting)
    ensures var inner := PostingBody(p) + (if p.comment == "" then "" else "     ; " + p.comment);
            && |p.account| <= |inner| && inner[..|p.account|] == p.account
            && (inner[|p.account|..] != "" ==> inner[|p.account|] == ' ')
  {
    hide ToString;
  }

  lemma NotDateLike(s: string)
    requires s != "" && !IsDigit(s[0])
    ensures !LooksLikeEntryTime(s)
  {
    if |s| >= 4 {
      assert s[..4][0] == s[0];
    }
  }

  lemma PostingNotHeader(p: Posting)
    requires ValidatePosting(p) == None && CanonicalPosting(p)
    ensures !IsHeaderLine(PostingText(p))
  {
    hide IsSpace, ValidatePosting, PostingBody, LooksLikeEntryTime, Fields, TrimBlanks;
    BodyStart(p);
    AfterAccount(p);
    BlankIsSpace();
    var inner := PostingBody(p) + (if p.comment == "" then "" else "     ; " + p.comment);
    assert PostingText(p) == "    " + inner;
    TrimFourBlanks(inner);
    var rest := inner[|p.account|..];
    assert inner == "" + p.account + rest;
    FieldsCons("", p.account, rest);
    NotDateLike(p.account);
  }

  // --------------------------------------------------------- whole documents

  // Lines as the exporter writes them are free of line breaks.
  predicate OneLine(s: string) {
    '\n' !in s && '\r' !in s
  }

  ghost predicate AllOneLine(lines: seq<string>) {
    forall i | 0 <= i < |lines| :: OneLine(lines[i])
  }

  lemma {:induction false} UnixNewlinesId(s: string)
    requires '\r' !in s
    ensures UnixNewlines(s) == s
  {
    if s != "" {
      UnixNewlinesId(s[1..]);
      assert s == [s[0]] + s[1..];
    }
  }

  lemma {:induction false} UnlinesClean(lines: seq<string>)
    requires AllOneLine(lines)
    ensures '\r' !in Unlines(lines)
    ensures Split(Unlines(lines), '\n') == lines + [""]
  {
    hide IndexOf, Split;
    if lines == [] {
      SplitWhole("", '\n');
    } else {
      UnlinesClean(lines[1..]);
      assert OneLine(lines[0]);
      assert lines == [lines[0]] + lines[1..];
      UnlinesAppend([lines[0]], lines[1..]);
      UnlinesOne(lines[0]);
      SplitFirst(lines[0], '\n', Unlines(lines[1..]));
    }
  }

  // The lines of exported text are read back as written, plus one empty line.
  lemma LinesReadBack(lines: seq<string>)
    requires AllOneLine(lines)
    ensures InputLines(Unlines(lines)) == lines + [""]
  {
    UnlinesClean(lines);
    UnixNewlinesId(Unlines(lines));
  }

  lemma EntryOneLine(e: JournalEntry)
    requires Valid(e) && Canonical(e)
    ensures AllOneLine(EntryLines(e))
  {
    hide IsSpace, ValidatePosting, PostingBody, TimeText, CanonicalPosting, CanonicalComment;
    DateTextChars(e.date);
    ValidPostings(e);
    NoLineBreaks(e);
    forall i | 0 <= i < |e.postings|
      ensures OneLine(PostingText(e.postings[i]))
    {
      BodyGood(e.postings[i]);
      PostingOneLine(e.postings[i]);
    }
  }

  lemma PostingOneLine(p: Posting)
    requires ValidatePosting(p) == None && OneLine(PostingBody(p))
    ensures OneLine(PostingText(p))
  {
    hide PostingBody, ValidAccount;
  }

  lemma NoLineBreaks(e: JournalEntry)
    requires Valid(e)
    ensures e.description != "" && OneLine(e.description)
    ensures forall i | 0 <= i < |e.comments| :: OneLine(e.comments[i])
  {
    hide PostingsFault, IsSpace;
    forall i | 0 <= i < |e.comments|
      ensures OneLine(e.comments[i])
    {
      CommentOneLine(e.comments, 0, i);
    }
  }

  lemma {:induction false} CommentOneLine(comments: seq<string>, i: nat, k: nat)
    requires i <= k < |comments| && FirstLineBreak(comments, i) == None
    ensures OneLine(comments[k])
    decreases k - i
  {
    if i < k {
      CommentOneLine(comments, i + 1, k);
    }
  }

  lemma {:induction false} DocumentOneLine(es: seq<JournalEntry>)
    requires AllValid(es) && AllCanonical(es)
    ensures AllOneLine(DocumentLines(es))
  {
    hide Valid, Canonical, EntryLines;
    if es != [] {
      DocumentOneLine(es[..|es| - 1]);
      assert Valid(es[|es| - 1]);
      EntryOneLine(es[|es| - 1]);
    }
  }

  // ------------------------------------------------------- parsing one entry

  lemma CommentStep(comment: string, number: nat, st: State)
    requires CanonicalComment(comment) && st.current.Some?
    ensures ParseLine(CommentText(comment), number, st, true)
         == Ok(st.(current := Some(AddComment(st.current.value, comment))))
  {
    hide TrimSpace, IsHeaderLine, ParseHeader, ParsePosting, Close;
    CommentLineParses(comment);
  }

  lemma PostingStep(p: Posting, number: nat, st: State)
    requires ValidatePosting(p) == None && CanonicalPosting(p) && st.current.Some?
    ensures ParseLine(PostingText(p), number, st, true)
         == Ok(st.(current := Some(AddPosting(st.current.value, p))))
  {
    hide TrimSpace, IsHeaderLine, ParseHeader, ParsePosting, Close, ValidatePosting, CanonicalPosting, PostingText;
    PostingLineParses(p);
  }

  lemma HeaderStep(e: JournalEntry, number: nat, st: State)
    requires e.description != "" && Trimmed(e.description) && Close(st, true).Ok?
    ensures ParseLine(HeaderText(e), number, st, true)
         == Ok(State(Close(st, true).value.entries, Some(JournalEntry(e.date, e.description, [], []))))
  {
    hide TrimSpace, IsHeaderLine, ParseHeader, ParsePosting, Close, TimeText;
    HeaderLineIsHeader(e);
    HeaderLineParses(e);
    assert HeaderText(e) != "";
  }

  lemma {:induction false} CommentsParse(comments: seq<string>, number: nat, st: State)
    requires st.current.Some? && forall i | 0 <= i < |comments| :: CanonicalComment(comments[i])
    ensures ParseLines(CommentLines(comments), number, st, true)
         == Ok(st.(current := Some(st.current.value.(comments := st.current.value.comments + comments))))
  {
    hide ParseLine, CommentText, CanonicalComment;
    var e := st.current.value;
    if comments == [] {
      assert e.comments + [] == e.comments;
    } else {
      assert CommentLines(comments)[1..] == CommentLines(comments[1..]);
      CommentStep(comments[0], number, st);
      var next := st.(current := Some(AddComment(e, comments[0])));
      CommentsParse(comments[1..], number + 1, next);
      assert e.comments + [comments[0]] + comments[1..] == e.comments + comments;
    }
  }

  lemma {:induction false} PostingsParse(ps: seq<Posting>, number: nat, st: State)
    requires st.current.Some?
    requires forall i | 0 <= i < |ps| :: ValidatePosting(ps[i]) == None && CanonicalPosting(ps[i])
    ensures ParseLines(PostingLines(ps), number, st, true)
         == Ok(st.(current := Some(st.current.value.(postings := st.current.value.postings + ps))))
  {
    hide ParseLine, PostingText, CanonicalPosting, ValidatePosting;
    var e := st.current.value;
    if ps == [] {
      assert e.postings + [] == e.postings;
    } else {
      assert PostingLines(ps)[1..] == PostingLines(ps[1..]);
      PostingStep(ps[0], number, st);
      var next := st.(current := Some(AddPosting(e, ps[0])));
      PostingsParse(ps[1..], number + 1, next);
      assert e.postings + [ps[0]] + ps[1..] == e.postings + ps;
    }
  }

  lemma CanonicalParts(e: JournalEntry)
    requires Valid(e) && Canonical(e)
    ensures e.description != "" && Trimmed(e.description)
    ensures forall i | 0 <= i < |e.comments| :: CanonicalComment(e.comments[i])
    ensures forall i | 0 <= i < |e.postings| :: ValidatePosting(e.postings[i]) == None && CanonicalPosting(e.postings[i])
  {
    hide Valid, ValidatePosting, CanonicalPosting, CanonicalComment;
    NoLineBreaks(e);
    ValidPostings(e);
  }

  // The printed lines of an entry, read after any closable state, make that
  // entry the open one.
  lemma EntryParses(e: JournalEntry, number: nat, st: State)
    requires Valid(e) && Canonical(e) && Close(st, true).Ok?
    ensures ParseLines(EntryLines(e), number, st, true) == Ok(State(Close(st, true).value.entries, Some(e)))
  {
    hide ParseLine, ParseLines, Close, Valid, Canonical, Trimmed, ValidatePosting, CanonicalPosting, CanonicalComment, HeaderText, CommentLines, PostingLines;
    CanonicalParts(e);
    HeaderStep(e, number, st);
    var s1 := State(Close(st, true).value.entries, Some(JournalEntry(e.date, e.description, [], [])));
    var header, comments, postings := [HeaderText(e)], CommentLines(e.comments), PostingLines(e.postings);
    CommentsParse(e.comments, number + 1, s1);
    var s2 := s1.(current := Some(JournalEntry(e.date, e.description, [] + e.comments, [])));
    assert [] + e.comments == e.comments;
    PostingsParse(e.postings, number + 1 + |comments|, s2);
    assert [] + e.postings == e.postings;
    ParseLinesAppend(header + comments, postings, number, st, true);
    ParseLinesAppend(header, comments, number, st, true);
    OneLineRun(HeaderText(e), number, st);
  }

  lemma OneLineRun(line: string, number: nat, st: State)
    ensures ParseLines([line], number, st, true) == ParseLine(line, number, st, true)
  {
    hide ParseLine;
    var next := ParseLine(line, number, st, true);
    assert [line][1..] == [];
    if next.Ok? {
      assert ParseLines([], number + 1, next.value, true) == next;
    }
  }

  lemma EmptyLineRun(number: nat, st: State)
    ensures ParseLines([""], number, st, true) == Ok(st)
  {
    hide IsSpace;
    OneLineRun("", number, st);
  }

  // After n printed entries the first n - 1 are finished and the last is open.
  lemma {:induction false} DocumentParses(es: seq<JournalEntry>)
    requires es != [] && AllValid(es) && AllCanonical(es)
    ensures ParseLines(DocumentLines(es), 1, State([], None), true)
         == Ok(State(es[..|es| - 1], Some(es[|es| - 1])))
  {
    hide ParseLine, EntryLines, Valid, Canonical;
    var front, last := es[..|es| - 1], es[|es| - 1];
    assert Valid(last) && Canonical(last);
    var init := State([], None);
    if front == [] {
      assert DocumentLines(es) == EntryLines(last) by {
        assert [] + [] + EntryLines(last) == EntryLines(last);
      }
      EntryParses(last, 1, init);
    } else {
      DocumentParses(front);
      var lines := DocumentLines(front);
      var st := State(front[..|front| - 1], Some(front[|front| - 1]));
      ParseLinesAppend(lines, [""], 1, init, true);
      EmptyLineRun(1 + |lines|, st);
      ParseLinesAppend(lines + [""], EntryLines(last), 1, init, true);
      assert Valid(front[|front| - 1]);
      assert front[..|front| - 1] + [front[|front| - 1]] == front;
      EntryParses(last, 1 + |lines + [""]|, st);
    }
  }

  // ------------------------------------------------------------ main results

  // Exactly the nonempty canonical entry lists survive export and parsing.
  lemma ParseInvertsExport(es: seq<JournalEntry>)
    requires Export(es, PreserveOmitted).Ok?
    ensures Parse(Export(es, PreserveOmitted).value) == Ok(es) <==> es != [] && AllCanonical(es)
  {
    hide Valid, Canonical, DocumentLines, ParseLines, Unlines, InputLines;
    FirstInvalidNone(es, 0);
    var text := Export(es, PreserveOmitted).value;
    if es != [] && AllCanonical(es) {
      DocumentOneLine(es);
      LinesReadBack(DocumentLines(es));
      DocumentParses(es);
      var lines := DocumentLines(es);
      var st := State(es[..|es| - 1], Some(es[|es| - 1]));
      ParseLinesAppend(lines, [""], 1, State([], None), true);
      EmptyLineRun(1 + |lines|, st);
      assert Valid(es[|es| - 1]);
      assert es[..|es| - 1] + [es[|es| - 1]] == es;
    }
    if Parse(text) == Ok(es) {
      ParseRange(text);
    }
  }

  // Whatever text was accepted, printing the result and parsing it again
  // gives the same entries.
  lemma ReparseIsStable(input: string)
    requires Parse(input).Ok?
    ensures Export(Parse(input).value, PreserveOmitted).Ok?
    ensures Parse(Export(Parse(input).value, PreserveOmitted).value) == Parse(input)
  {
    hide Parse, Valid, Canonical;
    ParseRange(input);
    FirstInvalidNone(Parse(input).value, 0);
    ParseInvertsExport(Parse(input).value);
  }

  // The same condition in terms a caller can check on validated entries.
  lemma CanonicalIsCheckable(e: JournalEntry)
    requires Valid(e)
    ensures Canonical(e) <==>
            && TrimSpace(e.description) == e.description
            && (forall i | 0 <= i < |e.comments| :: e.comments[i] != "" && TrimSpace(e.comments[i]) == e.comments[i])
            && (forall i | 0 <= i < |e.postings| :: CheckablePosting(e.postings[i]))
  {
    hide IsSpace, TrimSpace, CanonicalPosting, CheckablePosting, ValidatePosting;
    ValidPostings(e);
    TrimmedIff(e.description);
    forall i | 0 <= i < |e.comments|
      ensures CanonicalComment(e.comments[i]) <==> e.comments[i] != "" && TrimSpace(e.comments[i]) == e.comments[i]
    {
      TrimmedIff(e.comments[i]);
    }
    forall i | 0 <= i < |e.postings|
      ensures CanonicalPosting(e.postings[i]) <==> CheckablePosting(e.postings[i])
    {
      PostingCheckable(e.postings[i]);
    }
  }

  predicate CheckablePosting(p: Posting) {
    && '\U{1680}' !in p.account && TrimSpace(p.comment) == p.comment
    && (p.amount.Some? ==> '\U{1680}' !in p.amount.value.commodity)
    && (p.totalPrice.Some? ==> '\U{1680}' !in p.totalPrice.value.commodity)
  }

  lemma TrimmedIff(s: string)
    ensures Trimmed(s) <==> TrimSpace(s) == s
  {
  }

  lemma PostingCheckable(p: Posting)
    requires ValidatePosting(p) == None
    ensures CanonicalPosting(p) <==> CheckablePosting(p)
  {
    hide IsSpace, NoSpace, TrimSpace, ValidAccount, ValidIdentifierPart;
    AccountSpace(p.account);
    TrimmedIff(p.comment);
    if p.amount.Some? {
      PartSpace(p.amount.value.commodity, false);
    }
    if p.totalPrice.Some? {
      PartSpace(p.totalPrice.value.commodity, false);
    }
  }

  // ------------------------------------------------- what does not survive

  // A valid entry whose account contains the one white-space character that
  // identifiers admit.
  function SpacedEntry(): JournalEntry {
    JournalEntry(EntryDate(Date(2024, 1, 2)), "d", [],
                 [Posting("a\U{1680}b", Some(Amount(Fixed(1, 0), "JPY")), None, ""),
                  Posting("c", Some(Amount(Fixed(-1, 0), "JPY")), None, "")])
  }

  lemma SpacedPostings()
    ensures GoodPostings(SpacedEntry().postings)
  {
    hide Split;
    SplitWhole("a\U{1680}b", ':');
    SplitWhole("c", ':');
  }

  lemma SpacedHeader()
    ensures HeaderFault(SpacedEntry()) == None
  {
    assert SpacedEntry().description[0] == 'd';
  }

  lemma SpacedIsValid()
    ensures Valid(SpacedEntry())
  {
    hide GoodPostings, FirstPostingFault, ExactSum, StatedValues, HeaderFault;
    var e := SpacedEntry();
    SpacedHeader();
    SpacedPostings();
    GoodPostingsIff(e.postings);
    SpacedBalanced(e.postings[0], e.postings[1]);
    assert e.postings == [e.postings[0], e.postings[1]];
  }

  lemma SpacedBalanced(p: Posting, q: Posting)
    requires p.amount == Some(Amount(Fixed(1, 0), "JPY")) && q.amount == Some(Amount(Fixed(-1, 0), "JPY"))
    requires p.totalPrice == None && q.totalPrice == None
    ensures ExactSum(StatedValues([p, q])).coefficient == 0
  {
    hide ExactSum;
    var none: seq<Posting> := [];
    assert [p, q][..1] == [p] && [p][..0] == none;
    var one: Decimal := Fixed(1, 0);
    assert StatedValues(none) == [] && StatedValues([p]) == [one];
    assert StatedValues([p, q]) == [one] + [Fixed(-1, 0)];
    OneValue(one);
    AppendNegatedSum([one], Fixed(-1, 0));
  }

  lemma OneValue(v: Decimal)
    ensures ExactSum([v]) == v
  {
    var none: seq<Decimal> := [];
    assert [v][..0] == none;
    assert MaxScale([v]) == v.scale && ScaledSum(none, v.scale) == 0;
    assert Pow10(0) == 1;
  }

  // Exporting that entry and parsing the text does not give it back.
  lemma SpaceIsLost()
    ensures Export([SpacedEntry()], PreserveOmitted).Ok?
    ensures Parse(Export([SpacedEntry()], PreserveOmitted).value) != Ok([SpacedEntry()])
  {
    hide Valid, Parse, DocumentLines;
    var es := [SpacedEntry()];
    SpacedIsValid();
    FirstInvalidNone(es, 0);
    ParseInvertsExport(es);
    var account := SpacedEntry().postings[0].account;
    assert IsSpace(account[1]);
    assert !NoSpace(account);
    assert !CanonicalPosting(SpacedEntry().postings[0]);
  }

  // ------------------------------------------------------------ how it looks

  // An entry with everything an entry can have.
  function SampleEntry(): JournalEntry {
    var spent := Posting("Food", Some(Amount(Fixed(10, 0), "USD")), Some(Amount(Fixed(150050, 2), "JPY")), "lunch");
    JournalEntry(EntryDate(Date(2024, 3, 1)), "Market", ["note"], [spent, Posting("Cash", None, None, "")])
  }

  lemma SampleAmount()
    ensures ToString(Fixed(10, 0)) == "10"
  {
    assert Digits(1) == "1" && Digits(10) == "10";
  }

  lemma SampleDigits()
    ensures Digits(1500) == "1500" && Digits(150050) == "150050"
  {
    assert Digits(1) == "1" && Digits(15) == "15" && Digits(150) == "150";
    assert Digits(15005) == Digits(1500) + "5";
    assert Digits(150050) == Digits(15005) + "0";
  }

  lemma SamplePrice()
    ensures ToString(Fixed(150050, 2)) == "1500.50"
  {
    hide Digits;
    SampleDigits();
    assert PaddedDigits(150050, 2) == "150050";
  }

  lemma SampleYear()
    ensures Pad(2024, 4) == "2024"
  {
    assert Digits(2) == "2" && Digits(20) == "20" && Digits(202) == "202";
  }

  lemma SampleDate()
    ensures FormatDate(Date(2024, 3, 1)) == "2024-03-01"
  {
    SampleYear();
    assert Digits(3) == "3" && Digits(1) == "1" && Zeros(1) == "0";
    assert Pad(3, 2) == "03" && Pad(1, 2) == "01";
  }

  lemma SampleBody(p: Posting)
    requires p == SampleEntry().postings[0]
    ensures PostingBody(p) == "Food  10 USD = 1500.50 JPY"
  {
    hide ToString;
    SampleAmount();
    SamplePrice();
    var amount, price := "  " + "10" + " " + "USD", " = " + "1500.50" + " " + "JPY";
    assert amount == "  10 USD" && price == " = 1500.50 JPY";
    assert "Food" + amount + price == "Food  10 USD = 1500.50 JPY";
  }

  lemma SamplePosting(p: Posting)
    requires p == SampleEntry().postings[0]
    ensures PostingText(p) == "    " + "Food  10 USD = 1500.50 JPY" + "     ; lunch"
  {
    hide PostingBody;
    SampleBody(p);
    assert "     ; " + p.comment == "     ; lunch";
  }

  lemma BarePosting(p: Posting)
    requires p == Posting("Cash", None, None, "")
    ensures PostingText(p) == "    Cash"
  {
  }

  lemma SamplePostings()
    ensures PostingLines(SampleEntry().postings) == ["    " + "Food  10 USD = 1500.50 JPY" + "     ; lunch", "    Cash"]
  {
    hide ToString, PostingText;
    var ps := SampleEntry().postings;
    SamplePosting(ps[0]);
    assert PostingText(ps[1]) == "    Cash" by { BarePosting(ps[1]); }
    assert PostingLines(ps) == [PostingText(ps[0]), PostingText(ps[1])];
  }

  // The lines of an exported entry, to the character.
  lemma SampleIsWritten()
    ensures EntryLines(SampleEntry()) ==
            ["2024-03-01  'Market", "    ; note", "    " + "Food  10 USD = 1500.50 JPY" + "     ; lunch", "    Cash"]
  {
    hide FormatDate, ToString, PostingLines;
    SampleDate();
    SamplePostings();
    var e := SampleEntry();
    assert HeaderText(e) == "2024-03-01  'Market";
    assert CommentText("note") == "    ; note";
    assert CommentLines(["note"]) == [CommentText("note")];
  }

  // Two exports joined are one export with a blank line between them.
  lemma {:induction false} BlankBetween(a: seq<JournalEntry>, b: seq<JournalEntry>)
    requires a != [] && b != []
    ensures DocumentLines(a + b) == DocumentLines(a) + [""] + DocumentLines(b)
  {
    hide EntryLines;
    var front, last := b[..|b| - 1], b[|b| - 1];
    assert (a + b)[..|a + b| - 1] == a + front;
    if front == [] {
      assert a + front == a;
      assert DocumentLines(front) == [];
    } else {
      BlankBetween(a, front);
    }
  }
}
