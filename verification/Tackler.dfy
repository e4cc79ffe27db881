// The Tackler-compatible text format of internal/tacklerfmt: the line-based
// parser, the exporter, and the proof that they undo each other.
module Tackler {
  import opened Results
  import opened Texts
  import opened Decimals
  import opened Ledger

  // ---------------------------------------------------------------- parsing

  datatype LineFault =
    | MissingHeader
    | HeaderWithoutDescription
    | EmptyHeaderPart
    | InvalidHeaderTime
    | PostingShape
    | InvalidAmount(error: DecimalError)
    | UnsupportedPosition
    | InvalidTotalPrice(error: DecimalError)

  datatype InputFault =
    | AtLine(line: nat, problem: LineFault)
    | AtEntry(entry: nat, fault: Fault)
    | EmptyInput

  // ReplaceAll "\r\n" by "\n", then "\r" by "\n".
  function UnixNewlines(s: string): string {
    if s == "" then ""
    else if s[0] == '\r' then "\n" + UnixNewlines(if |s| > 1 && s[1] == '\n' then s[2..] else s[1..])
    else [s[0]] + UnixNewlines(s[1..])
  }

  function InputLines(input: string): seq<string> {
    Split(UnixNewlines(input), '\n')
  }

  // strings.TrimLeft(line, " \t")
  function TrimBlanks(s: string): string {
    if s != "" && (s[0] == ' ' || s[0] == '\t') then TrimBlanks(s[1..]) else s
  }

  predicate LooksLikeEntryTime(s: string) {
    && |s| >= 10
    && AllDigits(s[..4]) && s[4] == '-' && AllDigits(s[5..7]) && s[7] == '-' && AllDigits(s[8..10])
    && (|s| == 10 || s[10] == 'T')
  }

  predicate IsHeaderLine(line: string) {
    var trimmed := TrimBlanks(line);
    && '\'' in trimmed && !(";" <= trimmed)
    && Fields(trimmed) != [] && LooksLikeEntryTime(Fields(trimmed)[0])
  }

  function ParseHeader(line: string): Result<JournalEntry, LineFault> {
    var halves := Cut(TrimSpace(line), '\'');
    var occurredAt, description := TrimSpace(halves.before), TrimSpace(halves.after);
    if !halves.found then Err(HeaderWithoutDescription)
    else if occurredAt == "" || description == "" then Err(EmptyHeaderPart)
    else
      var time := ParseEntryTime(occurredAt);
      if time.None? then Err(InvalidHeaderTime) else Ok(JournalEntry(time.value, description, [], []))
  }

  function TrimPlus(s: string): string {
    if s != "" && s[0] == '+' then s[1..] else s
  }

  function ParsePosting(line: string): Result<Posting, LineFault> {
    var halves := Cut(TrimSpace(line), ';');
    PostingOfFields(Fields(halves.before), TrimSpace(halves.after))
  }

  function PostingOfFields(fields: seq<string>, comment: string): Result<Posting, LineFault> {
    if |fields| != 1 && |fields| != 3 && |fields| != 6 then Err(PostingShape)
    else if |fields| == 1 then Ok(Posting(fields[0], None, None, comment))
    else
      var value := ParseDecimal(TrimPlus(fields[1]));
      if value.Err? then Err(InvalidAmount(value.error))
      else
        var amount := Some(Amount(value.value, fields[2]));
        if |fields| == 3 then Ok(Posting(fields[0], amount, None, comment))
        else if fields[3] != "=" then Err(UnsupportedPosition)
        else
          var price := ParseDecimal(TrimPlus(fields[4]));
          if price.Err? then Err(InvalidTotalPrice(price.error))
          else Ok(Posting(fields[0], amount, Some(Amount(price.value, fields[5])), comment))
  }

  // The parser's state between lines: the finished entries and the open one.
  datatype State = State(entries: seq<JournalEntry>, current: Option<JournalEntry>)

  // Finishing the open entry, validating it when asked to.
  function Close(st: State, validate: bool): Result<State, InputFault> {
    if st.current.None? then Ok(st)
    else if validate && !Valid(st.current.value) then Err(AtEntry(|st.entries| + 1, Validate(st.current.value).value))
    else Ok(State(st.entries + [st.current.value], None))
  }

  function ParseLine(line: string, number: nat, st: State, validate: bool): Result<State, InputFault> {
    if TrimSpace(line) == "" then Ok(st)
    else if IsHeaderLine(line) then
      var closed := Close(st, validate);
      if closed.Err? then closed
      else
        var header := ParseHeader(line);
        if header.Err? then Err(AtLine(number, header.error))
        else Ok(State(closed.value.entries, Some(header.value)))
    else if st.current.None? then Err(AtLine(number, MissingHeader))
    else if ";" <= TrimSpace(line) then
      var comment := TrimSpace(TrimSpace(line)[1..]);
      Ok(if comment == "" then st else st.(current := Some(AddComment(st.current.value, comment))))
    else
      var posting := ParsePosting(line);
      if posting.Err? then Err(AtLine(number, posting.error))
      else Ok(st.(current := Some(AddPosting(st.current.value, posting.value))))
  }

  function AddComment(e: JournalEntry, comment: string): JournalEntry {
    e.(comments := e.comments + [comment])
  }

  function AddPosting(e: JournalEntry, posting: Posting): JournalEntry {
    e.(postings := e.postings + [posting])
  }

  function ParseLines(lines: seq<string>, number: nat, st: State, validate: bool): Result<State, InputFault> {
    if lines == [] then Ok(st)
    else
      var next := ParseLine(lines[0], number, st, validate);
      if next.Err? then next else ParseLines(lines[1..], number + 1, next.value, validate)
  }

  function Finish(run: Result<State, InputFault>, validate: bool): Result<seq<JournalEntry>, InputFault> {
    if run.Err? then Err(run.error)
    else
      var closed := Close(run.value, validate);
      if closed.Err? then Err(closed.error)
      else if closed.value.entries == [] then Err(EmptyInput)
      else Ok(closed.value.entries)
  }

  function ParseWith(input: string, validate: bool): Result<seq<JournalEntry>, InputFault> {
    Finish(ParseLines(InputLines(input), 1, State([], None), validate), validate)
  }

  function Parse(input: string): Result<seq<JournalEntry>, InputFault> {
    ParseWith(input, true)
  }

  // The line loop of `parse`, which keeps the open entry in `current`.
  method ParseText(input: string, validate: bool) returns (r: Result<seq<JournalEntry>, InputFault>)
    ensures r == ParseWith(input, validate)
  {
    hide IsHeaderLine, ParseHeader, ParsePosting, Validate, InputLines, TrimSpace;
    var lines := InputLines(input);
    var entries: seq<JournalEntry> := [];
    var current: Option<JournalEntry> := None;
    assert lines[0..] == lines;
    for index := 0 to |lines|
      invariant ParseLines(lines, 1, State([], None), validate)
             == ParseLines(lines[index..], index + 1, State(entries, current), validate)
    {
      var line, number := lines[index], index + 1;
      assert lines[index..][1..] == lines[index + 1..];
      if TrimSpace(line) == "" {
        continue;
      }
      if IsHeaderLine(line) {
        if current.Some? {
          if validate {
            var fault := ValidateEntry(current.value);
            if fault.Some? {
              return Err(AtEntry(|entries| + 1, fault.value));
            }
          }
          entries := entries + [current.value];
        }
        var header := ParseHeader(line);
        if header.Err? {
          return Err(AtLine(number, header.error));
        }
        current := Some(header.value);
        continue;
      }
      if current.None? {
        return Err(AtLine(number, MissingHeader));
      }
      var trimmed := TrimSpace(line);
      if ";" <= trimmed {
        var comment := TrimSpace(trimmed[1..]);
        if comment != "" {
          current := Some(AddComment(current.value, comment));
        }
        continue;
      }
      var posting := ParsePosting(line);
      if posting.Err? {
        return Err(AtLine(number, posting.error));
      }
      current := Some(AddPosting(current.value, posting.value));
    }
    if current.Some? {
      if validate {
        var fault := ValidateEntry(current.value);
        if fault.Some? {
          return Err(AtEntry(|entries| + 1, fault.value));
        }
      }
      entries := entries + [current.value];
    }
    if entries == [] {
      return Err(EmptyInput);
    }
    return Ok(entries);
  }

  lemma {:induction false} ParseLinesAppend(a: seq<string>, b: seq<string>, number: nat, st: State, validate: bool)
    ensures ParseLines(a + b, number, st, validate) ==
            var first := ParseLines(a, number, st, validate);
            if first.Err? then first else ParseLines(b, number + |a|, first.value, validate)
  {
    hide ParseLine;
    if a == [] {
      assert a + b == b;
    } else {
      assert (a + b)[1..] == a[1..] + b;
      var next := ParseLine(a[0], number, st, validate);
      if next.Ok? {
        ParseLinesAppend(a[1..], b, number + 1, next.value, validate);
      }
    }
  }

  // --------------------------------------------------------------- exporting

  datatype OmittedAmounts = PreserveOmitted | FillOmitted | UnknownMode

  datatype ExportFault = InvalidOptions | InvalidEntry(index: nat, fault: Fault)

  function HeaderText(e: JournalEntry): string {
    TimeText(e.date) + "  '" + e.description
  }

  function CommentText(comment: string): string {
    "    ; " + comment
  }

  function PostingText(p: Posting): string {
    "    " + PostingBody(p) + (if p.comment == "" then "" else "     ; " + p.comment)
  }

  function PostingBody(p: Posting): string {
    p.account
    + (if p.amount.Some? then "  " + ToString(p.amount.value.value) + " " + p.amount.value.commodity else "")
    + (if p.totalPrice.Some? then " = " + ToString(p.totalPrice.value.value) + " " + p.totalPrice.value.commodity else "")
  }

  function CommentLines(comments: seq<string>): seq<string> {
    seq(|comments|, i requires 0 <= i < |comments| => CommentText(comments[i]))
  }

  function PostingLines(ps: seq<Posting>): seq<string> {
    seq(|ps|, i requires 0 <= i < |ps| => PostingText(ps[i]))
  }

  function EntryLines(e: JournalEntry): seq<string> {
    [HeaderText(e)] + CommentLines(e.comments) + PostingLines(e.postings)
  }

  // One blank line between consecutive entries.
  function DocumentLines(es: seq<JournalEntry>): seq<string> {
    if es == [] then []
    else
      DocumentLines(es[..|es| - 1]) + (if |es| > 1 then [""] else []) + EntryLines(es[|es| - 1])
  }

  // Every line is terminated by a newline.
  function Unlines(lines: seq<string>): string {
    if lines == [] then "" else Unlines(lines[..|lines| - 1]) + lines[|lines| - 1] + "\n"
  }

  function FirstInvalid(es: seq<JournalEntry>, i: nat): Option<ExportFault>
    requires i <= |es|
    decreases |es| - i
  {
    if i == |es| then None
    else if !Valid(es[i]) then Some(InvalidEntry(i, Validate(es[i]).value))
    else FirstInvalid(es, i + 1)
  }

  predicate AllValid(es: seq<JournalEntry>) {
    forall i | 0 <= i < |es| :: Valid(es[i])
  }

  function FillAll(es: seq<JournalEntry>): seq<JournalEntry>
    requires AllValid(es)
  {
    seq(|es|, i requires 0 <= i < |es| => Filled(es[i]))
  }

  lemma {:induction false} FirstInvalidNone(es: seq<JournalEntry>, i: nat)
    requires i <= |es|
    ensures FirstInvalid(es, i) == None <==> forall k | i <= k < |es| :: Valid(es[k])
    decreases |es| - i
  {
    hide Validate;
    if i < |es| {
      FirstInvalidNone(es, i + 1);
    }
  }

  function Export(es: seq<JournalEntry>, mode: OmittedAmounts): Result<string, ExportFault> {
    FirstInvalidNone(es, 0);
    if mode == UnknownMode then Err(InvalidOptions)
    else if FirstInvalid(es, 0).Some? then Err(FirstInvalid(es, 0).value)
    else Ok(Unlines(DocumentLines(if mode == FillOmitted then FillAll(es) else es)))
  }

  lemma {:induction false} UnlinesAppend(a: seq<string>, b: seq<string>)
    ensures Unlines(a + b) == Unlines(a) + Unlines(b)
  {
    if b == [] {
      assert a + b == a;
    } else {
      assert (a + b)[..|a + b| - 1] == a + b[..|b| - 1];
      UnlinesAppend(a, b[..|b| - 1]);
    }
  }

  lemma EmptyUnlines()
    ensures Unlines([]) == ""
  {
  }

  lemma UnlinesOne(line: string)
    ensures Unlines([line]) == line + "\n"
  {
    assert [line][..0] == [];
    assert Unlines([]) + line + "\n" == line + "\n";
  }

  // What is printed for a final posting without a stated amount.
  function Written(e: JournalEntry, inferred: Option<Amount>): JournalEntry
    requires e.postings != []
  {
    if inferred.None? || e.postings[|e.postings| - 1].amount.Some? then e
    else e.(postings := FillLast(e.postings, inferred.value))
  }

  // What one entry contributes to the output buffer, given the inferred amount.
  method AppendEntry(output: string, e: JournalEntry, inferred: Option<Amount>) returns (r: string)
    requires e.postings != [] && (forall k | 0 <= k < |e.postings| - 1 :: e.postings[k].amount.Some?)
    ensures r == output + Unlines(EntryLines(Written(e, inferred)))
  {
    hide PostingText, TimeText;
    r := output + TimeText(e.date) + "  '" + e.description + "\n";
    ghost var head := [HeaderText(e)];
    UnlinesOne(HeaderText(e));
    assert r == output + Unlines(head);
    ghost var comments := CommentLines(e.comments);
    assert head + comments[..0] == head;
    for i := 0 to |e.comments|
      invariant r == output + Unlines(head + comments[..i])
    {
      AppendLine(head, comments, i);
      r := r + "    ; " + e.comments[i] + "\n";
    }
    assert comments[..|comments|] == comments;
    r := AppendPostings(output, head + comments, r, e.postings, inferred);
  }

  method AppendPostings(output: string, ghost head: seq<string>, start: string, ps: seq<Posting>, inferred: Option<Amount>)
      returns (r: string)
    requires ps != [] && (forall k | 0 <= k < |ps| - 1 :: ps[k].amount.Some?)
    requires start == output + Unlines(head)
    ensures r == output + Unlines(head + PostingLines(
                   if inferred.None? || ps[|ps| - 1].amount.Some? then ps else FillLast(ps, inferred.value)))
  {
    hide PostingText, Unlines;
    r := start;
    ghost var written := if inferred.None? || ps[|ps| - 1].amount.Some? then ps else FillLast(ps, inferred.value);
    ghost var lines := PostingLines(written);
    assert head + lines[..0] == head;
    for i := 0 to |ps|
      invariant r == output + Unlines(head + lines[..i])
    {
      AppendLine(head, lines, i);
      var line := PostingLine(ps[i], if ps[i].amount.Some? then ps[i].amount else inferred);
      assert lines[i] == line;
      r := r + line + "\n";
    }
    assert lines[..|ps|] == lines;
  }

  lemma AppendLine(head: seq<string>, lines: seq<string>, i: nat)
    requires i < |lines|
    ensures Unlines(head + lines[..i + 1]) == Unlines(head + lines[..i]) + lines[i] + "\n"
  {
    var all := head + lines[..i + 1];
    assert all[..|all| - 1] == head + lines[..i];
  }

  method PostingLine(p: Posting, amount: Option<Amount>) returns (line: string)
    ensures line == PostingText(p.(amount := amount))
  {
    hide ToString;
    line := "    " + p.account;
    if amount.Some? {
      line := line + ("  " + ToString(amount.value.value) + " " + amount.value.commodity);
    }
    if p.totalPrice.Some? {
      line := line + (" = " + ToString(p.totalPrice.value.value) + " " + p.totalPrice.value.commodity);
    }
    if p.comment != "" {
      line := line + ("     ; " + p.comment);
    }
  }

  // Export: validate and infer first, then append to the buffer.
  method ExportEntries(es: seq<JournalEntry>, mode: OmittedAmounts) returns (r: Result<string, ExportFault>)
    ensures r == Export(es, mode)
  {
    hide Validate, Valid, InferFinalAmount, Filled, EntryLines;
    if mode == UnknownMode {
      return Err(InvalidOptions);
    }
    FirstInvalidNone(es, 0);
    var inferred: seq<Option<Amount>> := [];
    for i := 0 to |es|
      invariant |inferred| == i
      invariant FirstInvalid(es, 0) == FirstInvalid(es, i)
      invariant forall k | 0 <= k < i :: Valid(es[k]) && inferred[k] == ToFill(es[k], mode)
    {
      var fault := ValidateEntry(es[i]);
      ValidMeansNoFault(es[i]);
      if fault.Some? {
        return Err(InvalidEntry(i, fault.value));
      }
      var amount := AmountToFill(es[i], mode);
      inferred := inferred + [amount];
    }
    var output := AppendAll(es, mode, inferred);
    return Ok(output);
  }

  lemma ValidMeansNoFault(e: JournalEntry)
    ensures Valid(e) <==> Validate(e) == None
  {
  }

  method AmountToFill(e: JournalEntry, mode: OmittedAmounts) returns (amount: Option<Amount>)
    requires Valid(e)
    ensures amount == ToFill(e, mode)
  {
    hide Validate, InferFinalAmount;
    ValidPostings(e);
    InferenceSucceeds(e);
    if e.postings[|e.postings| - 1].amount.None? && mode == FillOmitted {
      var final := InferFinal(e);
      return Some(final.value);
    }
    return None;
  }

  method AppendAll(es: seq<JournalEntry>, mode: OmittedAmounts, inferred: seq<Option<Amount>>) returns (output: string)
    requires AllValid(es) && |inferred| == |es|
    requires forall k | 0 <= k < |es| :: inferred[k] == ToFill(es[k], mode)
    ensures output == Unlines(DocumentLines(if mode == FillOmitted then FillAll(es) else es))
  {
    hide Valid, ToFill, Filled, EntryLines, Written, Unlines, DocumentLines;
    ghost var written := if mode == FillOmitted then FillAll(es) else es;
    output := "";
    assert written[..0] == [];
    EmptyUnlines();
    NoDocument();
    for i := 0 to |es|
      invariant output == Unlines(DocumentLines(written[..i]))
    {
      ghost var lines := DocumentLines(written[..i]);
      if i > 0 {
        output := output + "\n";
        UnlinesAppend(lines, [""]);
        UnlinesOne("");
      } else {
        assert lines + [] == lines;
      }
      ghost var gap := if i > 0 then [""] else [];
      assert output == Unlines(lines + gap);
      assert Valid(es[i]);
      ValidPostings(es[i]);
      FillEffect(es[i], mode);
      output := AppendEntry(output, es[i], inferred[i]);
      assert written[i] == Written(es[i], inferred[i]);
      UnlinesAppend(lines + gap, EntryLines(written[i]));
      DocumentStep(written, i);
    }
    assert written[..|es|] == written;
  }

  lemma NoDocument()
    ensures DocumentLines([]) == []
  {
  }

  lemma DocumentStep(es: seq<JournalEntry>, i: nat)
    requires i < |es|
    ensures DocumentLines(es[..i + 1]) == DocumentLines(es[..i]) + (if i > 0 then [""] else []) + EntryLines(es[i])
  {
    hide EntryLines;
    assert es[..i + 1][..i] == es[..i];
  }

  function ToFill(e: JournalEntry, mode: OmittedAmounts): Option<Amount>
    requires Valid(e)
  {
    InferenceSucceeds(e);
    if Omits(e) && mode == FillOmitted then Some(InferFinalAmount(e).value) else None
  }

  lemma FillEffect(e: JournalEntry, mode: OmittedAmounts)
    requires Valid(e)
    ensures e.postings != [] && Written(e, ToFill(e, mode)) == (if mode == FillOmitted then Filled(e) else e)
  {
    hide Validate, InferFinalAmount;
    ValidPostings(e);
    InferenceSucceeds(e);
  }

  // Writing omitted amounts out while exporting is exporting the filled entries.
  lemma FillIsPreserveOfFilled(es: seq<JournalEntry>)
    requires AllValid(es)
    ensures AllValid(FillAll(es))
    ensures Export(es, FillOmitted) == Export(FillAll(es), PreserveOmitted)
  {
    forall i | 0 <= i < |es|
      ensures Valid(FillAll(es)[i])
    {
      Conservation(es[i]);
    }
    FirstInvalidNone(es, 0);
    FirstInvalidNone(FillAll(es), 0);
  }
}
