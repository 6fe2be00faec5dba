/** Printing and parsing of the NATS/1.0 header block (lib/codec.ml). */
module HeaderBlock {
  import opened Base
  import opened Text
  import Decimal
  import opened Header
  import opened Op

  datatype BlockError =
    | InvalidHeaderBlock
    | InvalidStatus
    | InvalidHeader(error: HeaderError)

  const VERSION: string := "NATS/1.0"

  predicate ValidStatus(status: Option<Status>) {
    status.Some? ==> 100 <= status.value.code <= 999 && !LineBreak(status.value.description)
  }

  // ---- Printing ----

  function StatusLine(status: Option<Status>): string {
    match status
    case None => VERSION
    case Some(s) => VERSION + " " + Decimal.PrintInt(s.code) + (if s.description == "" then "" else " " + s.description)
  }

  function FieldLine(e: Entry): string {
    e.name + ": " + e.value
  }

  function FieldLines(entries: seq<Entry>): string {
    if entries == [] then "" else FieldLine(entries[0]) + CRLF + FieldLines(entries[1..])
  }

  function Block(status: Option<Status>, headers: Headers): string {
    StatusLine(status) + CRLF + FieldLines(ToList(headers)) + CRLF
  }

  lemma {:induction false} FieldLinesSnoc(entries: seq<Entry>, e: Entry)
    ensures FieldLines(entries + [e]) == FieldLines(entries) + (FieldLine(e) + CRLF)
  {
    if entries == [] {
      assert [e][1..] == [];
      assert FieldLines([e]) == FieldLine(e) + CRLF + FieldLines([]);
      assert entries + [e] == [e];
    } else {
      assert (entries + [e])[1..] == entries[1..] + [e];
      FieldLinesSnoc(entries[1..], e);
      Assoc(FieldLine(entries[0]) + CRLF, FieldLines(entries[1..]), FieldLine(e) + CRLF);
    }
  }

  lemma Appended(buffer: string, e: Entry)
    ensures buffer + e.name + ": " + e.value + CRLF == buffer + (FieldLine(e) + CRLF)
  {
    Assoc(buffer, e.name, ": ");
    Assoc(buffer, e.name + ": ", e.value);
    Assoc(buffer, FieldLine(e), CRLF);
  }

  /** `header_block`, filling a buffer. */
  method PrintBlock(status: Option<Status>, headers: Headers) returns (buffer: string)
    ensures buffer == Block(status, headers)
  {
    buffer := VERSION;
    if status.Some? {
      buffer := buffer + " ";
      buffer := buffer + Decimal.PrintInt(status.value.code);
      if status.value.description != "" {
        buffer := buffer + " ";
        buffer := buffer + status.value.description;
        Assoc(VERSION + " " + Decimal.PrintInt(status.value.code), " ", status.value.description);
      }
    }
    assert buffer == StatusLine(status);
    buffer := buffer + CRLF;
    var entries := ToList(headers);
    ghost var first := buffer;
    for i := 0 to |entries|
      invariant buffer == first + FieldLines(entries[..i])
    {
      FieldLinesSnoc(entries[..i], entries[i]);
      assert entries[..i + 1] == entries[..i] + [entries[i]];
      Appended(buffer, entries[i]);
      Assoc(first, FieldLines(entries[..i]), FieldLine(entries[i]) + CRLF);
      buffer := buffer + entries[i].name;
      buffer := buffer + ": ";
      buffer := buffer + entries[i].value;
      buffer := buffer + CRLF;
    }
    assert entries[..|entries|] == entries;
    buffer := buffer + CRLF;
  }

  // ---- Parsing ----

  function ParseStatus(line: string): Result<Option<Status>, BlockError> {
    if line == VERSION then Ok(None)
    else if VERSION + " " <= line then
      var rest := line[9..];
      var (codeValue, description) :=
        match IndexOf(rest, ' ')
        case None => (rest, "")
        case Some(i) => (rest[..i], rest[i + 1..]);
      if |codeValue| != 3 then Error(InvalidStatus)
      else match Decimal.Parse(codeValue)
        case Some(code) =>
          if !(100 <= code <= 999) || LineBreak(description) then Error(InvalidStatus)
          else Ok(Some(Status(code, description)))
        case None => Error(InvalidStatus)
    else Error(InvalidStatus)
  }

  function ParseField(line: string): Option<Entry> {
    match IndexOf(line, ':')
    case None => None
    case Some(i) =>
      if i == 0 then None
      else
        var start := if i + 1 < |line| && line[i + 1] == ' ' then i + 2 else i + 1;
        Some(Entry(line[..i], line[start..]))
  }

  /** The header field that starts at a position, and where the next one would. */
  function NextField(block: string, position: nat, fieldsEnd: nat): (r: Option<(Entry, nat)>)
    ensures r.Some? ==> r.value.1 > position
  {
    match FindCrlf(block, position)
    case None => None
    case Some(lineEnd) =>
      if lineEnd > fieldsEnd || lineEnd == position then None
      else match ParseField(block[position..lineEnd])
        case None => None
        case Some(field) => Some((field, lineEnd + 2))
  }

  /** The header fields between a position and the blank line that ends the block. */
  function ParseFields(block: string, position: nat, fieldsEnd: nat): Option<seq<Entry>>
    decreases fieldsEnd - position
  {
    if position >= fieldsEnd then if position == fieldsEnd then Some([]) else None
    else match NextField(block, position, fieldsEnd)
      case None => None
      case Some((field, next)) =>
        match ParseFields(block, next, fieldsEnd)
        case None => None
        case Some(fields) => Some([field] + fields)
  }

  function WithFields(status: Option<Status>, fields: Option<seq<Entry>>): Result<(Option<Status>, Headers), BlockError> {
    if fields.None? then Error(InvalidHeaderBlock)
    else match OfList(fields.value)
      case Ok(headers) => Ok((status, headers))
      case Error(e) => Error(InvalidHeader(e))
  }

  function ParseBlock(block: string): Result<(Option<Status>, Headers), BlockError> {
    if |block| < 2 || block[|block| - 2..] != CRLF then Error(InvalidHeaderBlock)
    else match FindCrlf(block, 0)
      case None => Error(InvalidHeaderBlock)
      case Some(firstEnd) =>
        var status :- ParseStatus(block[..firstEnd]);
        WithFields(status, ParseFields(block, firstEnd + 2, |block| - 2))
  }

  lemma ReverseCons(e: Entry, fields: seq<Entry>, rest: seq<Entry>)
    ensures Reverse([e] + fields) + rest == Reverse(fields) + ([e] + rest)
  {
    assert ([e] + fields)[1..] == fields;
  }

  /** The fields found from a position on, put before those already collected newest first. */
  ghost function Onto(fields: seq<Entry>, rest: Option<seq<Entry>>): Option<seq<Entry>> {
    if rest.None? then None else Some(Reverse(fields) + rest.value)
  }

  lemma NextFieldIs(block: string, position: nat, fieldsEnd: nat, lineEnd: nat, line: string, e: Entry)
    requires FindCrlf(block, position) == Some(lineEnd) && position < lineEnd <= fieldsEnd && lineEnd <= |block|
    requires line == block[position..lineEnd] && ParseField(line) == Some(e)
    ensures NextField(block, position, fieldsEnd) == Some((e, lineEnd + 2))
  {
    assert NextField(block, position, fieldsEnd) ==
           match ParseField(line) case None => None case Some(field) => Some((field, lineEnd + 2));
  }

  /** The fields collected so far, newest first, and those still to be found make up the total. */
  ghost predicate Collected(total: Option<seq<Entry>>, fields: seq<Entry>, block: string, position: nat, fieldsEnd: nat) {
    total == Onto(fields, ParseFields(block, position, fieldsEnd))
  }

  lemma CollectedStep(total: Option<seq<Entry>>, fields: seq<Entry>, block: string, position: nat, fieldsEnd: nat,
                      lineEnd: nat, e: Entry)
    requires Collected(total, fields, block, position, fieldsEnd) && position < lineEnd <= fieldsEnd && lineEnd <= |block|
    requires FindCrlf(block, position) == Some(lineEnd) && ParseField(block[position..lineEnd]) == Some(e)
    ensures Collected(total, [e] + fields, block, lineEnd + 2, fieldsEnd)
  {
    NextFieldIs(block, position, fieldsEnd, lineEnd, block[position..lineEnd], e);
    var rest := ParseFields(block, lineEnd + 2, fieldsEnd);
    if rest.Some? {
      ReverseCons(e, fields, rest.value);
    }
  }

  lemma CollectedStuck(total: Option<seq<Entry>>, fields: seq<Entry>, block: string, position: nat, fieldsEnd: nat)
    requires Collected(total, fields, block, position, fieldsEnd) && position < fieldsEnd
    requires NextField(block, position, fieldsEnd).None?
    ensures total.None?
  {
  }

  /** The loop over the field lines, newest field first. */
  method CollectFields(block: string, start: nat, fieldsEnd: nat) returns (result: Option<seq<Entry>>)
    ensures result == ParseFields(block, start, fieldsEnd)
  {
    var fields: seq<Entry> := [];
    var position := start;
    var invalid := false;
    ghost var total := ParseFields(block, start, fieldsEnd);
    assert total.Some? ==> Reverse(fields) + total.value == total.value;
    while !invalid && position < fieldsEnd
      invariant if invalid then total.None? else Collected(total, fields, block, position, fieldsEnd)
      decreases !invalid, |block| - position
    {
      var lineEnd := FindCrlfFrom(block, position);
      if lineEnd.None? || lineEnd.value > fieldsEnd {
        CollectedStuck(total, fields, block, position, fieldsEnd);
        invalid := true;
      } else {
        var line := block[position..lineEnd.value];
        var field := ParseField(line);
        if |line| == 0 || field.None? {
          CollectedStuck(total, fields, block, position, fieldsEnd);
          invalid := true;
        } else {
          CollectedStep(total, fields, block, position, fieldsEnd, lineEnd.value, field.value);
          fields := [field.value] + fields;
          position := lineEnd.value + 2;
        }
      }
    }
    if invalid || position != fieldsEnd {
      return None;
    }
    assert Reverse(fields) + [] == Reverse(fields);
    return Some(Reverse(fields));
  }

  /** `parse_header_block`. */
  method ParseBlockLoop(block: string) returns (result: Result<(Option<Status>, Headers), BlockError>)
    ensures result == ParseBlock(block)
  {
    if |block| < 2 || block[|block| - 2..] != CRLF {
      return Error(InvalidHeaderBlock);
    }
    var first := FindCrlfFrom(block, 0);
    if first.None? {
      return Error(InvalidHeaderBlock);
    }
    var status := ParseStatus(block[..first.value]);
    if status.Error? {
      return Error(status.error);
    }
    var fields := CollectFields(block, first.value + 2, |block| - 2);
    if fields.None? {
      return Error(InvalidHeaderBlock);
    }
    var headers := OfList(fields.value);
    return match headers case Ok(h) => Ok((status.value, h)) case Error(e) => Error(InvalidHeader(e));
  }

  // ---- Parsing undoes printing ----

  lemma StatusRoundTrip(status: Option<Status>)
    requires ValidStatus(status)
    ensures ParseStatus(StatusLine(status)) == Ok(status)
    ensures '\r' !in StatusLine(status) && '\n' !in StatusLine(status)
  {
    if status.Some? {
      var s := status.value;
      var code := Decimal.Print(s.code);
      assert |code| == 3 by {
        assert |Decimal.Print(s.code / 10)| == 2;
      }
      Decimal.DigitsAvoid(code, ' ');
      Decimal.DigitsAvoid(code, '\r');
      Decimal.DigitsAvoid(code, '\n');
      var line := StatusLine(status);
      var rest := code + (if s.description == "" then "" else " " + s.description);
      assert line == VERSION + " " + rest;
      assert line[9..] == rest;
      if s.description != "" {
        assert rest == code + [' '] + s.description;
        IndexAfter(code, ' ', s.description);
        assert rest[..3] == code && rest[4..] == s.description;
      } else {
        assert rest == code;
      }
    }
  }

  lemma FieldRoundTrip(e: Entry)
    requires GoodEntry(e)
    ensures ParseField(FieldLine(e)) == Some(e)
    ensures FieldLine(e) != "" && '\r' !in FieldLine(e) && '\n' !in FieldLine(e)
  {
    var line := FieldLine(e);
    assert line == e.name + [':'] + (" " + e.value);
    IndexAfter(e.name, ':', " " + e.value);
    assert line[..|e.name|] == e.name && line[|e.name| + 2..] == e.value;
  }

  lemma FieldsStep(block: string, position: nat, fieldsEnd: nat, e: Entry, next: nat)
    requires position < fieldsEnd && NextField(block, position, fieldsEnd) == Some((e, next))
    ensures ParseFields(block, position, fieldsEnd) ==
            match ParseFields(block, next, fieldsEnd) case None => None case Some(fields) => Some([e] + fields)
  {
  }

  /** The parser finds the printed field, and nothing else, on the line at `position`. */
  lemma FieldsSuffix(block: string, position: nat, e: Entry, rest: string) returns (next: nat)
    requires position <= |block| && block[position..] == FieldLine(e) + CRLF + rest + CRLF && GoodEntry(e)
    ensures |block| - 2 > position && NextField(block, position, |block| - 2) == Some((e, next))
    ensures next <= |block| && block[next..] == rest + CRLF
  {
    var line := FieldLine(e);
    next := position + |line| + 2;
    FieldRoundTrip(e);
    Assoc(line + CRLF, rest, CRLF);
    Assoc(line, CRLF, rest + CRLF);
    LineAt(block, position, line, rest + CRLF);
    NextFieldIs(block, position, |block| - 2, position + |line|, line, e);
  }

  lemma FieldLinesHead(entries: seq<Entry>)
    requires entries != []
    ensures FieldLines(entries) + CRLF == FieldLine(entries[0]) + CRLF + FieldLines(entries[1..]) + CRLF
  {
  }

  lemma FieldsHead(block: string, position: nat, entries: seq<Entry>) returns (next: nat)
    requires entries != [] && GoodEntry(entries[0])
    requires position <= |block| && block[position..] == FieldLines(entries) + CRLF
    ensures |block| - 2 > position && NextField(block, position, |block| - 2) == Some((entries[0], next))
    ensures next <= |block| && block[next..] == FieldLines(entries[1..]) + CRLF
  {
    FieldLinesHead(entries);
    next := FieldsSuffix(block, position, entries[0], FieldLines(entries[1..]));
  }

  lemma {:induction false} FieldsParsed(block: string, position: nat, entries: seq<Entry>)
    requires position <= |block| && block[position..] == FieldLines(entries) + CRLF
    requires forall e <- entries :: GoodEntry(e)
    ensures ParseFields(block, position, |block| - 2) == Some(entries)
    decreases |entries|
  {
    if entries != [] {
      assert entries[0] in entries;
      var next := FieldsHead(block, position, entries);
      FieldsParsed(block, next, entries[1..]);
      FieldsStep(block, position, |block| - 2, entries[0], next);
      assert entries == [entries[0]] + entries[1..];
    }
  }

  lemma FirstLine(line: string, fields: string, block: string)
    requires '\r' !in line && block == line + CRLF + fields + CRLF
    ensures |block| >= 2 && block[|block| - 2..] == CRLF
    ensures FindCrlf(block, 0) == Some(|line|) && |line| + 2 <= |block| && block[..|line|] == line
    ensures block[|line| + 2..] == fields + CRLF
  {
    Assoc(line + CRLF, fields, CRLF);
    Assoc(line, CRLF, fields + CRLF);
    assert block[0..] == block;
    LineAt(block, 0, line, fields + CRLF);
    assert block[..|line|] == block[0..|line|];
  }

  lemma BlockParts(line: string, headers: Headers, block: string)
    requires '\r' !in line && block == line + CRLF + FieldLines(ToList(headers)) + CRLF
    ensures |block| >= 2 && block[|block| - 2..] == CRLF
    ensures FindCrlf(block, 0) == Some(|line|) && |line| <= |block| && block[..|line|] == line
    ensures ParseFields(block, |line| + 2, |block| - 2) == Some(ToList(headers))
  {
    FirstLine(line, FieldLines(ToList(headers)), block);
    FieldsParsed(block, |line| + 2, ToList(headers));
  }

  lemma BlockStep(block: string, firstEnd: nat, status: Option<Status>)
    requires |block| >= 2 && block[|block| - 2..] == CRLF && FindCrlf(block, 0) == Some(firstEnd) && firstEnd <= |block|
    requires ParseStatus(block[..firstEnd]) == Ok(status)
    ensures ParseBlock(block) == WithFields(status, ParseFields(block, firstEnd + 2, |block| - 2))
  {
  }

  lemma BlockParses(line: string, status: Option<Status>, headers: Headers, block: string)
    requires '\r' !in line && ParseStatus(line) == Ok(status)
    requires block == line + CRLF + FieldLines(ToList(headers)) + CRLF
    ensures ParseBlock(block) == Ok((status, headers))
  {
    BlockParts(line, headers, block);
    OfListToList(headers);
    BlockStep(block, |line|, status);
  }

  /** Parsing a printed block gives back the status and every header, in order, repeats and spaces included. */
  lemma BlockRoundTrip(status: Option<Status>, headers: Headers)
    requires ValidStatus(status)
    ensures ParseBlock(Block(status, headers)) == Ok((status, headers))
  {
    StatusRoundTrip(status);
    BlockParses(StatusLine(status), status, headers, Block(status, headers));
  }

  // ---- What the parts of a block are ----

  /** A field is a name, a colon, and a value; one space after the colon does not count. */
  lemma FieldExactly(line: string, e: Entry)
    ensures ParseField(line) == Some(e) <==>
            && e.name != "" && ':' !in e.name
            && (line == e.name + ": " + e.value || (line == e.name + ":" + e.value && (e.value == "" || e.value[0] != ' ')))
  {
    if ParseField(line) == Some(e) {
      FieldSplits(line, e);
    }
    if e.name != "" && ':' !in e.name && line == e.name + ": " + e.value {
      assert line == e.name + [':'] + (" " + e.value);
      IndexAfter(e.name, ':', " " + e.value);
      assert line[|e.name| + 2..] == e.value && line[..|e.name|] == e.name;
    } else if e.name != "" && ':' !in e.name && line == e.name + ":" + e.value && (e.value == "" || e.value[0] != ' ') {
      assert line == e.name + [':'] + e.value;
      IndexAfter(e.name, ':', e.value);
      assert line[|e.name| + 1..] == e.value && line[..|e.name|] == e.name;
    }
  }

  lemma FieldSplits(line: string, e: Entry)
    requires ParseField(line) == Some(e)
    ensures e.name != "" && ':' !in e.name
    ensures line == e.name + ": " + e.value || (line == e.name + ":" + e.value && (e.value == "" || e.value[0] != ' '))
  {
    var i := IndexOf(line, ':').value;
    assert line == line[..i] + [':'] + line[i + 1..];
    if i + 1 < |line| && line[i + 1] == ' ' {
      assert line[i + 1..] == " " + line[i + 2..];
    }
  }

  /** A status line is the version alone, or with a three-digit code from 100 on and perhaps a description. */
  ghost predicate StatusText(line: string, status: Option<Status>) {
    match status
    case None => line == "NATS/1.0"
    case Some(s) =>
      && 100 <= s.code <= 999 && '\r' !in s.description && '\n' !in s.description
      && (|| (line == "NATS/1.0 " + Decimal.Print(s.code) && s.description == "")
          || line == "NATS/1.0 " + (Decimal.Print(s.code) + (" " + s.description)))
  }

  lemma CodeLength(code: nat)
    requires 100 <= code <= 999
    ensures |Decimal.Print(code)| == 3 && ' ' !in Decimal.Print(code) && Decimal.Parse(Decimal.Print(code)) == Some(code)
  {
    assert |Decimal.Print(code / 10)| == 2;
    Decimal.DigitsAvoid(Decimal.Print(code), ' ');
    Decimal.ParsePrint(code);
  }

  lemma CodeText(text: string)
    requires |text| == 3 && Decimal.Parse(text).Some? && Decimal.Parse(text).value >= 100
    ensures text == Decimal.Print(Decimal.Value(text))
  {
    var a, b := text[..2], text[..1];
    assert a[..1] == b && b[..0] == "";
    assert Decimal.Value(text) == 10 * Decimal.Value(a) + Decimal.DigitValue(text[2]);
    assert Decimal.Value(a) == 10 * Decimal.Value(b) + Decimal.DigitValue(text[1]);
    assert Decimal.Value(b) == Decimal.DigitValue(text[0]);
    Decimal.PrintValue(text);
  }

  lemma StatusParsed(line: string, status: Option<Status>)
    requires ParseStatus(line) == Ok(status)
    ensures StatusText(line, status)
  {
    if line != VERSION {
      var rest := line[9..];
      assert line == "NATS/1.0 " + rest;
      match IndexOf(rest, ' ')
      case None => CodeText(rest);
      case Some(i) =>
        CodeText(rest[..i]);
        assert rest == rest[..i] + (" " + rest[i + 1..]);
    }
  }

  lemma StatusReads(line: string, rest: string, s: Status)
    requires line == "NATS/1.0 " + rest && 100 <= s.code <= 999 && !LineBreak(s.description)
    requires (rest == Decimal.Print(s.code) && s.description == "") || rest == Decimal.Print(s.code) + (" " + s.description)
    ensures ParseStatus(line) == Ok(Some(s))
  {
    var code := Decimal.Print(s.code);
    CodeLength(s.code);
    assert line[9..] == rest && VERSION + " " <= line;
    if rest != code {
      assert rest == code + [' '] + s.description;
      IndexAfter(code, ' ', s.description);
      assert rest[..3] == code && rest[4..] == s.description;
    }
  }

  /** Exactly which status lines are read, and as what; any other is an invalid status. */
  lemma StatusExactly(line: string, status: Option<Status>)
    ensures ParseStatus(line) == Ok(status) <==> StatusText(line, status)
    ensures ParseStatus(line).Error? ==> ParseStatus(line).error == InvalidStatus
  {
    if ParseStatus(line) == Ok(status) {
      StatusParsed(line, status);
    }
    if StatusText(line, status) && status.Some? {
      var s := status.value;
      if line == "NATS/1.0 " + Decimal.Print(s.code) && s.description == "" {
        StatusReads(line, Decimal.Print(s.code), s);
      } else {
        StatusReads(line, Decimal.Print(s.code) + (" " + s.description), s);
      }
    }
  }
}
