/** Whole streams of operations: encoded, cut anywhere, and read back. */
module Stream {
  import opened Base
  import opened Text
  import opened Op
  import opened Packet
  import opened Framing
  import opened Codec
  import opened Reader
  import RoundTrip

  lemma OutputParts(out: Packet, tail: string)
    requires !LineBreak(out.line)
    ensures var data := ToString(out) + tail;
            && FindCrlf(data, 0) == Some(|out.line|) && |out.line| + 2 <= |data| && data[..|out.line|] == out.line
            && (!out.framing.Line? ==> SuffixIs(data, |out.line| + 2, out.body + (CRLF + tail)))
  {
    var data := ToString(out) + tail;
    var after := if out.framing.Line? then tail else out.body + (CRLF + tail);
    if out.framing.Line? {
      Assoc(out.line, CRLF, tail);
    } else {
      Assoc(out.line + CRLF + out.body, CRLF, tail);
      Assoc(out.line + CRLF, out.body, CRLF + tail);
      Assoc(out.line, CRLF, out.body + (CRLF + tail));
    }
    assert data[0..] == data;
    LineAt(data, 0, out.line, after);
    assert data[..|out.line|] == data[0..|out.line|];
  }

  ghost predicate SuffixIs(s: string, p: nat, t: string) {
    p <= |s| && s[p..] == t
  }

  /** What an output within the limits puts on the wire is read back as that output, whatever follows. */
  lemma OutputReads(out: Packet, tail: string, eod: bool, limits: Limits)
    requires CheckLimits(limits, out).None? && RoomForLine(limits)
    requires !LineBreak(out.line) && Classify(out.line, limits) == Ok(out.framing)
    ensures CleanLine(ToString(out) + tail) && ReadBytes(ToString(out) + tail, eod, limits) == Ok(out)
  {
    var data, lineEnd := ToString(out) + tail, |out.line|;
    OutputParts(out, tail);
    PacketSizeExact(lineEnd, out.framing);
    var frame := Frame(out.framing, WireSize(lineEnd, out.framing));
    assert FrameLine(out.line, limits) == Ok(frame);
    assert Cut(data, lineEnd, frame) == Ok(out) by {
      if !out.framing.Line? {
        var stop := lineEnd + 2 + |out.body|;
        SuffixSplit(data, lineEnd + 2, out.body, CRLF + tail);
        SuffixSplit(data, stop, CRLF, tail);
        assert data[stop..stop + 2][0] == data[stop] && data[stop..stop + 2][1] == data[stop + 1];
      }
    }
  }

  /** An encoded operation is read back from any cutting of the stream it starts. */
  lemma EncodedReads(op: Op, wire: string, tail: string, slices: seq<string>, eod: bool, limits: Limits)
    requires Encode(limits, op) == Ok(wire) && Representable(op) && RoomForLine(limits)
    requires NonEmpty(slices) && Flatten(slices) == wire + tail
    ensures var (result, rest) := ReadOp(slices, eod, limits);
            result == Ok(op) && NonEmpty(rest) && Flatten(rest) == tail
  {
    var out := MakeOutput(op).value;
    RoundTrip.OutputFaithful(op, limits);
    OutputReads(out, tail, eod, limits);
    SlicesIrrelevant(slices, eod, limits);
    Conserves(slices, eod, limits);
    var rest := Read(slices, eod, limits).1;
    assert (wire + tail)[|wire|..] == tail;
    assert (wire + Flatten(rest))[|wire|..] == Flatten(rest);
  }

  /** The operation a receiver decodes from one piece of client output. */
  function Received(wire: string): Option<Op> {
    match ReadBytes(wire, true, WIDEST_LIMITS)
    case Error(_) => None
    case Ok(packet) => match Decode(packet) case Ok(op) => Some(op) case Error(_) => None
  }

  const WIDEST_LIMITS := Limits(MAX_INT - 2, MAX_INT, MAX_INT, MAX_INT)

  /** Whatever limits an operation was encoded under, the receiver gets that operation. */
  lemma ReceivedIs(op: Op, wire: string, limits: Limits)
    requires Encode(limits, op) == Ok(wire) && Representable(op) && RoomForLine(limits)
    ensures Received(wire) == Some(op)
  {
    var out := MakeOutput(op).value;
    assert CheckLimits(WIDEST_LIMITS, out).None?;
    RoundTrip.OutputFaithful(op, WIDEST_LIMITS);
    OutputReads(out, "", true, WIDEST_LIMITS);
    assert ToString(out) + "" == wire;
  }

  // ---- Streams ----

  /** The bytes of a list of operations, if every one of them encodes. */
  function EncodeStream(limits: Limits, ops: seq<Op>): Result<string, CodecError> {
    if ops == [] then Ok("")
    else
      var first :- Encode(limits, ops[0]);
      var rest :- EncodeStream(limits, ops[1..]);
      Ok(first + rest)
  }

  /** Read operations until the first error. */
  function ReadMany(slices: seq<string>, eod: bool, limits: Limits): (seq<Op>, CodecError, seq<string>)
    requires NonEmpty(slices)
    decreases |Flatten(slices)|
  {
    Conserves(slices, eod, limits);
    var (result, rest) := ReadOp(slices, eod, limits);
    match result
    case Error(e) => ([], e, rest)
    case Ok(op) =>
      var (ops, e, left) := ReadMany(rest, eod, limits);
      ([op] + ops, e, left)
  }

  lemma FlattenNone(slices: seq<string>)
    requires NonEmpty(slices)
    ensures Flatten(slices) == "" <==> slices == []
  {
    if slices != [] {
      assert slices[0] in slices;
      assert |Flatten(slices)| >= |slices[0]|;
    }
  }

  lemma EmptyReads(slices: seq<string>, eod: bool, limits: Limits)
    requires ValidLimits(limits) && RoomForLine(limits) && NonEmpty(slices) && Flatten(slices) == ""
    ensures ReadMany(slices, eod, limits) == ([], PacketFailure(Starved(eod, EndOfInput)), [])
  {
    FlattenNone(slices);
    assert FindCrlf("", 0).None? && !InternalBreak("");
    assert Read(slices, eod, limits) == (Error(Starved(eod, EndOfInput)), []);
  }

  lemma ManyStep(slices: seq<string>, op: Op, rest: seq<string>, eod: bool, limits: Limits)
    requires NonEmpty(slices) && NonEmpty(rest) && ReadOp(slices, eod, limits) == (Ok(op), rest)
    ensures ReadMany(slices, eod, limits) ==
            var (ops, e, left) := ReadMany(rest, eod, limits); ([op] + ops, e, left)
  {
  }

  lemma EncodeStep(ops: seq<Op>, wire: string, limits: Limits) returns (first: string, tail: string)
    requires ops != [] && EncodeStream(limits, ops) == Ok(wire)
    ensures Encode(limits, ops[0]) == Ok(first) && EncodeStream(limits, ops[1..]) == Ok(tail) && wire == first + tail
  {
    first := Encode(limits, ops[0]).value;
    tail := EncodeStream(limits, ops[1..]).value;
  }

  lemma {:induction false} StreamReads(ops: seq<Op>, wire: string, slices: seq<string>, eod: bool, limits: Limits)
    requires ValidLimits(limits) && RoomForLine(limits)
    requires EncodeStream(limits, ops) == Ok(wire) && forall op <- ops :: Representable(op)
    requires NonEmpty(slices) && Flatten(slices) == wire
    ensures ReadMany(slices, eod, limits) == (ops, PacketFailure(Starved(eod, EndOfInput)), [])
    decreases ops
  {
    if ops == [] {
      EmptyReads(slices, eod, limits);
    } else {
      assert ops[0] in ops;
      var first, tail := EncodeStep(ops, wire, limits);
      var rest := ReadOp(slices, eod, limits).1;
      EncodedReads(ops[0], first, tail, slices, eod, limits);
      StreamReads(ops[1..], tail, rest, eod, limits);
      ManyStep(slices, ops[0], rest, eod, limits);
      assert ops == [ops[0]] + ops[1..];
    }
  }

  lemma NoRoomReadsNothing(slices: seq<string>, eod: bool, limits: Limits)
    requires ValidLimits(limits) && !RoomForLine(limits) && NonEmpty(slices)
    ensures ReadMany(slices, eod, limits).1 == PacketFailure(LineTooLong(limits.maxLine))
  {
    assert FindCrlf("", 0).None? && !InternalBreak("");
  }

  /** Every list of encodable operations, concatenated and cut anywhere, is read back in order and then the input
      is exhausted; that is so exactly when the line bound leaves room for the line terminator. */
  lemma StreamRoundTrip(ops: seq<Op>, wire: string, slices: seq<string>, eod: bool, limits: Limits)
    requires ValidLimits(limits)
    requires EncodeStream(limits, ops) == Ok(wire) && forall op <- ops :: Representable(op)
    requires NonEmpty(slices) && Flatten(slices) == wire
    ensures ReadMany(slices, eod, limits) == (ops, PacketFailure(Starved(eod, EndOfInput)), []) <==> RoomForLine(limits)
  {
    if RoomForLine(limits) {
      StreamReads(ops, wire, slices, eod, limits);
    } else {
      NoRoomReadsNothing(slices, eod, limits);
    }
  }

  /** `Codec.read`. */
  method ReadOperation(reader: ByteReader, eod: bool, limits: Limits) returns (result: Result<Op, CodecError>)
    requires reader.Valid()
    modifies reader
    ensures reader.Valid()
    ensures (result, reader.slices) == ReadOp(old(reader.slices), eod, limits)
  {
    var packet := ReadPacket(reader, eod, limits);
    if packet.Error? {
      return Error(PacketFailure(packet.error));
    }
    return Decode(packet.value);
  }
}
