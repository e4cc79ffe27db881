// Which fault the Tackler parser reports, and for which line or entry.
module TacklerFaults {
  import opened Results
  import opened Texts
  import opened Ledger
  import opened Tackler

  const Start := State([], None)

  predicate AllBlank(lines: seq<string>) {
    forall i | 0 <= i < |lines| :: TrimSpace(lines[i]) == ""
  }

  // ------------------------------------------------------------- line ends

  lemma NewlinesStep(c: char, s: string)
    ensures c != '\r' ==> UnixNewlines([c] + s) == [c] + UnixNewlines(s)
    ensures s == "" || s[0] != '\n' ==> UnixNewlines("\r" + s) == "\n" + UnixNewlines(s)
    ensures UnixNewlines("\r\n" + s) == "\n" + UnixNewlines(s)
  {
    assert ([c] + s)[1..] == s && ("\r" + s)[1..] == s && ("\r\n" + s)[2..] == s;
  }

  // Texts are rewritten piece by piece, unless a pair is torn apart.
  lemma {:induction false} NewlinesAfter(a: string, t: string)
    requires a == "" || a[|a| - 1] != '\r' || t == "" || t[0] != '\n'
    ensures UnixNewlines(a + t) == UnixNewlines(a) + UnixNewlines(t)
    decreases |a|
  {
    hide UnixNewlines;
    if a == "" {
      assert a + t == t;
      NoNewlines();
    } else {
      var n := if a[0] == '\r' && |a| > 1 && a[1] == '\n' then 2 else 1;
      var rest := a[n..];
      NewlinesAfter(rest, t);
      NewlinesStep(a[0], rest);
      NewlinesStep(a[0], rest + t);
      if n == 2 {
        assert a == "\r\n" + rest && a + t == "\r\n" + (rest + t);
      } else {
        assert a == [a[0]] + rest && a + t == [a[0]] + (rest + t);
        assert a[0] == '\r' ==> [a[0]] == "\r";
      }
    }
  }

  lemma NoNewlines()
    ensures UnixNewlines("") == ""
  {
  }

  // Lines are separated by a line feed, by a carriage return, or by a carriage
  // return and a line feed.
  lemma LineEnds(a: string, b: string)
    ensures a == "" || a[|a| - 1] != '\r' ==> InputLines(a + "\n" + b) == InputLines(a) + InputLines(b)
    ensures b == "" || b[0] != '\n' ==> InputLines(a + "\r" + b) == InputLines(a) + InputLines(b)
    ensures InputLines(a + "\r\n" + b) == InputLines(a) + InputLines(b)
  {
    hide UnixNewlines, Split;
    NewlinesStep('\n', b);
    SplitAppend(UnixNewlines(a), '\n', UnixNewlines(b));
    if a == "" || a[|a| - 1] != '\r' {
      NewlinesAfter(a, "\n" + b);
      assert a + "\n" + b == a + ("\n" + b);
    }
    if b == "" || b[0] != '\n' {
      NewlinesAfter(a, "\r" + b);
      assert a + "\r" + b == a + ("\r" + b);
    }
    NewlinesAfter(a, "\r\n" + b);
    assert a + "\r\n" + b == a + ("\r\n" + b);
    assert UnixNewlines(a) + ("\n" + UnixNewlines(b)) == UnixNewlines(a) + "\n" + UnixNewlines(b);
  }

  // ------------------------------------------------------------ one line more

  lemma OneLine(line: string, number: nat, st: State, validate: bool)
    ensures ParseLines([line], number, st, validate) == ParseLine(line, number, st, validate)
  {
    hide ParseLine;
    var next := ParseLine(line, number, st, validate);
    assert [line][1..] == [];
    if next.Ok? {
      assert ParseLines([], number + 1, next.value, validate) == next;
    }
  }

  lemma NextLine(lines: seq<string>, n: nat, validate: bool)
    requires n < |lines|
    ensures var before := ParseLines(lines[..n], 1, Start, validate);
            ParseLines(lines[..n + 1], 1, Start, validate) ==
            if before.Err? then before else ParseLine(lines[n], n + 1, before.value, validate)
  {
    hide ParseLine, ParseLines;
    assert lines[..n + 1] == lines[..n] + [lines[n]];
    ParseLinesAppend(lines[..n], [lines[n]], 1, Start, validate);
    var before := ParseLines(lines[..n], 1, Start, validate);
    if before.Ok? {
      OneLine(lines[n], 1 + n, before.value, validate);
    }
  }

  lemma NoLines(validate: bool)
    ensures ParseLines([], 1, Start, validate) == Ok(Start)
  {
  }

  // The run over the first n lines is the start of the run over all.
  lemma Onwards(lines: seq<string>, n: nat, validate: bool)
    requires n <= |lines| && ParseLines(lines[..n], 1, Start, validate).Err?
    ensures ParseLines(lines, 1, Start, validate) == ParseLines(lines[..n], 1, Start, validate)
  {
    hide ParseLines;
    assert lines == lines[..n] + lines[n..];
    ParseLinesAppend(lines[..n], lines[n..], 1, Start, validate);
  }

  // ---------------------------------------------------- before any entry

  // Blank lines leave the parser where it starts; the first other line is a
  // header or a fault.
  lemma {:induction false} BlankStart(lines: seq<string>, n: nat, validate: bool)
    requires n <= |lines|
    ensures AllBlank(lines[..n]) ==> ParseLines(lines[..n], 1, Start, validate) == Ok(Start)
    ensures !AllBlank(lines[..n]) && ParseLines(lines[..n], 1, Start, validate).Ok? ==>
              ParseLines(lines[..n], 1, Start, validate).value.current.Some?
  {
    hide ParseLines, ParseHeader, ParsePosting, IsHeaderLine, TrimSpace, Close, Valid;
    if n == 0 {
      NoLines(validate);
      assert lines[..0] == [];
    } else {
      BlankStart(lines, n - 1, validate);
      NextLine(lines, n - 1, validate);
      assert lines[..n] == lines[..n - 1] + [lines[n - 1]];
    }
  }

  // A line without an entry before it is reported exactly when it is the first
  // line that is not blank and is no header.
  lemma MissingHeaderIff(input: string, validate: bool, n: nat)
    ensures var lines := InputLines(input);
            ParseWith(input, validate) == Err(AtLine(n, MissingHeader)) <==>
              && 1 <= n <= |lines| && AllBlank(lines[..n - 1])
              && TrimSpace(lines[n - 1]) != "" && !IsHeaderLine(lines[n - 1])
  {
    hide ParseLines, ParseHeader, ParsePosting, IsHeaderLine, TrimSpace, InputLines, AllBlank;
    var lines := InputLines(input);
    if 1 <= n <= |lines| && AllBlank(lines[..n - 1]) && TrimSpace(lines[n - 1]) != "" && !IsHeaderLine(lines[n - 1]) {
      BlankStart(lines, n - 1, validate);
      NextLine(lines, n - 1, validate);
      Onwards(lines, n, validate);
    }
    assert lines[..|lines|] == lines;
    if ParseWith(input, validate) == Err(AtLine(n, MissingHeader)) {
      FaultIsFirst(lines, |lines|, validate, AtLine(n, MissingHeader));
      HeaderFaultKinds(lines[n - 1]);
      BlankStart(lines, n - 1, validate);
    }
  }

  lemma HeaderFaultKinds(line: string)
    ensures ParseHeader(line).Err? ==> ParseHeader(line).error in {HeaderWithoutDescription, EmptyHeaderPart, InvalidHeaderTime}
    ensures ParsePosting(line).Err? ==> ParsePosting(line).error != MissingHeader
  {
    hide Cut, TrimSpace, Fields, ParseEntryTime, TrimPlus;
  }

  // An input without entries is one of blank lines.
  lemma EmptyInputIff(input: string, validate: bool)
    ensures ParseWith(input, validate) == Err(EmptyInput) <==> AllBlank(InputLines(input))
  {
    hide ParseLines, InputLines, AllBlank, Valid, Validate;
    var lines := InputLines(input);
    assert lines[..|lines|] == lines;
    BlankStart(lines, |lines|, validate);
    if ParseWith(input, validate) == Err(EmptyInput) && ParseLines(lines, 1, Start, validate).Err? {
      LineFaultKinds(lines, |lines|, validate);
    }
  }

  lemma {:induction false} LineFaultKinds(lines: seq<string>, n: nat, validate: bool)
    requires n <= |lines|
    ensures ParseLines(lines[..n], 1, Start, validate) != Err(EmptyInput)
  {
    hide ParseLines, ParseHeader, ParsePosting, IsHeaderLine, TrimSpace, Valid, Validate;
    if n == 0 {
      NoLines(validate);
      assert lines[..0] == [];
    } else {
      LineFaultKinds(lines, n - 1, validate);
      NextLine(lines, n - 1, validate);
    }
  }

  // ------------------------------------------------------- faults of a line

  // The line a fault names is the first one that cannot be parsed: everything
  // before it can.
  lemma {:induction false} FaultIsFirst(lines: seq<string>, m: nat, validate: bool, fault: InputFault)
    requires m <= |lines| && fault.AtLine? && ParseLines(lines[..m], 1, Start, validate) == Err(fault)
    ensures 1 <= fault.line <= m && ParseLines(lines[..fault.line - 1], 1, Start, validate).Ok?
    ensures ParseLine(lines[fault.line - 1], fault.line, ParseLines(lines[..fault.line - 1], 1, Start, validate).value, validate) == Err(fault)
  {
    hide ParseLines, ParseLine;
    if m == 0 {
      assert lines[..0] == [];
      NoLines(validate);
    } else {
      NextLine(lines, m - 1, validate);
      var before := ParseLines(lines[..m - 1], 1, Start, validate);
      if before.Err? {
        FaultIsFirst(lines, m - 1, validate, fault);
      } else {
        LineNumber(lines[m - 1], m, before.value, validate);
      }
    }
  }

  lemma LineNumber(line: string, number: nat, st: State, validate: bool)
    ensures ParseLine(line, number, st, validate).Err? && ParseLine(line, number, st, validate).error.AtLine? ==>
              ParseLine(line, number, st, validate).error.line == number
  {
    hide ParseHeader, ParsePosting, IsHeaderLine, TrimSpace, Valid, Validate;
  }

  // A header line is refused for what its header lacks, any other line of an
  // entry for its posting.
  lemma LineFaultIff(input: string, n: nat, problem: LineFault)
    requires problem != MissingHeader
    ensures var lines := InputLines(input);
            ParseWith(input, false) == Err(AtLine(n, problem)) <==>
              && 1 <= n <= |lines| && ParseLines(lines[..n - 1], 1, Start, false).Ok? && TrimSpace(lines[n - 1]) != ""
              && (if IsHeaderLine(lines[n - 1]) then ParseHeader(lines[n - 1]) == Err(problem)
                  else
                    && ParseLines(lines[..n - 1], 1, Start, false).value.current.Some?
                    && !(";" <= TrimSpace(lines[n - 1])) && ParsePosting(lines[n - 1]) == Err(problem))
  {
    hide ParseLines, ParseHeader, ParsePosting, IsHeaderLine, TrimSpace, InputLines;
    var lines := InputLines(input);
    assert lines[..|lines|] == lines;
    if 1 <= n <= |lines| && ParseLines(lines[..n - 1], 1, Start, false).Ok? {
      NextLine(lines, n - 1, false);
      if ParseLines(lines[..n], 1, Start, false).Err? {
        Onwards(lines, n, false);
      }
    }
    if ParseWith(input, false) == Err(AtLine(n, problem)) {
      FaultIsFirst(lines, |lines|, false, AtLine(n, problem));
    }
  }

  // ------------------------------------------------------ faults of an entry

  ghost predicate FirstInvalidAt(es: seq<JournalEntry>, k: int, fault: Fault) {
    0 <= k < |es| && Validate(es[k]) == Some(fault) && forall j | 0 <= j < k :: Valid(es[j])
  }

  // How the run that validates relates to the one that does not.
  ghost predicate Judges(strict: Result<State, InputFault>, st: State) {
    && ((forall k | 0 <= k < |st.entries| :: Valid(st.entries[k])) ==> strict == Ok(st))
    && forall k, fault | FirstInvalidAt(st.entries, k, fault) :: strict == Err(AtEntry(k + 1, fault))
  }

  lemma SomeInvalid(es: seq<JournalEntry>) returns (k: nat)
    requires exists i :: 0 <= i < |es| && !Valid(es[i])
    ensures k < |es| && Validate(es[k]).Some? && FirstInvalidAt(es, k, Validate(es[k]).value)
  {
    hide Validate;
    k := 0;
    while Valid(es[k])
      invariant k < |es| && forall j | 0 <= j < k :: Valid(es[j])
      invariant exists i :: k <= i < |es| && !Valid(es[i])
      decreases |es| - k
    {
      k := k + 1;
    }
  }

  lemma OneFirst(es: seq<JournalEntry>, more: seq<JournalEntry>, k: int, fault: Fault, l: int, other: Fault)
    requires FirstInvalidAt(es, k, fault) && FirstInvalidAt(es + more, l, other)
    ensures l == k && other == fault
  {
    hide Validate;
    assert (es + more)[k] == es[k];
    assert forall j | 0 <= j < k :: (es + more)[j] == es[j];
  }

  // Entries are only ever added.
  lemma JudgedOnce(strict: Result<State, InputFault>, st: State, next: State)
    requires Judges(strict, st) && strict.Err? && st.entries <= next.entries
    ensures Judges(strict, next)
  {
    hide Validate;
    assert exists i :: 0 <= i < |st.entries| && !Valid(st.entries[i]);
    var k := SomeInvalid(st.entries);
    assert next.entries == st.entries + next.entries[|st.entries|..];
    forall l, other | FirstInvalidAt(next.entries, l, other)
      ensures strict == Err(AtEntry(l + 1, other))
    {
      OneFirst(st.entries, next.entries[|st.entries|..], k, Validate(st.entries[k]).value, l, other);
    }
    assert next.entries[k] == st.entries[k];
  }

  lemma JudgeLine(line: string, number: nat, st: State)
    requires (forall k | 0 <= k < |st.entries| :: Valid(st.entries[k])) && ParseLine(line, number, st, false).Ok?
    ensures Judges(ParseLine(line, number, st, true), ParseLine(line, number, st, false).value)
    ensures st.entries <= ParseLine(line, number, st, false).value.entries
  {
    hide ParseHeader, ParsePosting, IsHeaderLine, TrimSpace, Validate;
    var next := ParseLine(line, number, st, false).value;
    if IsHeaderLine(line) && TrimSpace(line) != "" && st.current.Some? {
      var e, n := st.current.value, |st.entries|;
      assert next.entries == st.entries + [e] && next.entries[n] == e;
      assert forall k | 0 <= k < n :: next.entries[k] == st.entries[k];
      forall k, fault | FirstInvalidAt(next.entries, k, fault)
        ensures k == n && fault == Validate(e).value
      {
      }
    } else {
      assert next.entries == st.entries;
    }
  }

  lemma LineAdds(line: string, number: nat, st: State)
    requires ParseLine(line, number, st, false).Ok?
    ensures st.entries <= ParseLine(line, number, st, false).value.entries
  {
    hide ParseHeader, ParsePosting, IsHeaderLine, TrimSpace, Validate;
  }

  lemma {:induction false} RunsJudge(lines: seq<string>, n: nat)
    requires n <= |lines| && ParseLines(lines[..n], 1, Start, false).Ok?
    ensures Judges(ParseLines(lines[..n], 1, Start, true), ParseLines(lines[..n], 1, Start, false).value)
  {
    hide ParseLines, ParseLine, Validate;
    if n == 0 {
      assert lines[..0] == [];
      NoLines(false);
      NoLines(true);
    } else {
      NextLine(lines, n - 1, false);
      NextLine(lines, n - 1, true);
      RunsJudge(lines, n - 1);
      var st := ParseLines(lines[..n - 1], 1, Start, false).value;
      var strict := ParseLines(lines[..n - 1], 1, Start, true);
      if forall k | 0 <= k < |st.entries| :: Valid(st.entries[k]) {
        JudgeLine(lines[n - 1], n, st);
      } else {
        var k := SomeInvalid(st.entries);
        LineAdds(lines[n - 1], n, st);
        JudgedOnce(strict, st, ParseLine(lines[n - 1], n, st, false).value);
      }
    }
  }

  lemma JudgeEnd(st: State, strict: Result<State, InputFault>, es: seq<JournalEntry>)
    requires Judges(strict, st) && Finish(Ok(st), false) == Ok(es)
    ensures st.entries <= es
    ensures (forall k | 0 <= k < |es| :: Valid(es[k])) ==> Finish(strict, true) == Ok(es)
    ensures forall k, fault | FirstInvalidAt(es, k, fault) :: Finish(strict, true) == Err(AtEntry(k + 1, fault))
  {
    hide Validate;
    if forall k | 0 <= k < |st.entries| :: Valid(st.entries[k]) {
      forall k, fault | FirstInvalidAt(es, k, fault)
        ensures Finish(strict, true) == Err(AtEntry(k + 1, fault))
      {
        assert st.current.Some? && es == st.entries + [st.current.value] && k == |st.entries|;
      }
      if forall k | 0 <= k < |es| :: Valid(es[k]) {
        assert st.current.Some? ==> es[|st.entries|] == st.current.value;
      }
    } else {
      var k := SomeInvalid(st.entries);
      JudgedOnce(strict, st, State(es, None));
      assert es[k] == st.entries[k];
    }
  }

  // With validation the parser accepts what it accepts without, if every entry
  // is valid, and otherwise reports the first invalid entry, counted from one,
  // with the fault of that entry.
  lemma ValidationIsFirstFault(input: string, es: seq<JournalEntry>)
    requires ParseWith(input, false) == Ok(es)
    ensures (forall k | 0 <= k < |es| :: Valid(es[k])) ==> Parse(input) == Ok(es)
    ensures forall k, fault | FirstInvalidAt(es, k, fault) :: Parse(input) == Err(AtEntry(k + 1, fault))
  {
    hide ParseLines, InputLines, Validate, Judges, Valid;
    var lines := InputLines(input);
    assert lines[..|lines|] == lines;
    RunsJudge(lines, |lines|);
    JudgeEnd(ParseLines(lines, 1, Start, false).value, ParseLines(lines, 1, Start, true), es);
  }
}
