/** The byte reader and the buffered, pushing-back packet read over it (lib/packet.ml). */
module Reader {
  import opened Base
  import opened Text
  import opened Packet
  import opened Framing

  /** A reader hands out non-empty slices, takes slices back, and may receive more. */
  class ByteReader {
    var slices: seq<string>

    ghost predicate Valid()
      reads this
    {
      NonEmpty(slices)
    }

    ghost function Remaining(): string
      reads this
    {
      Flatten(slices)
    }

    constructor (slices: seq<string>)
      requires NonEmpty(slices)
      ensures Valid() && this.slices == slices
    {
      this.slices := slices;
    }

    /** The next slice; the empty one marks the end of the data. */
    method ReadSlice() returns (slice: string)
      requires Valid()
      modifies this
      ensures Valid()
      ensures slice == "" <==> old(slices) == []
      ensures if old(slices) == [] then slice == "" && slices == []
              else slice == old(slices)[0] && slices == old(slices)[1..]
    {
      if slices == [] {
        return "";
      }
      slice := slices[0];
      assert slice in slices;
      assert forall s <- slices[1..] :: s in slices;
      slices := slices[1..];
    }

    method PushBack(slice: string)
      requires Valid() && slice != ""
      modifies this
      ensures Valid() && slices == [slice] + old(slices)
    {
      slices := [slice] + slices;
    }

    /** More data arrives from the transport. */
    method Receive(arrived: seq<string>)
      requires Valid() && NonEmpty(arrived)
      modifies this
      ensures Valid() && slices == old(slices) + arrived
      ensures Remaining() == old(Remaining()) + Flatten(arrived)
    {
      FlattenAppend(slices, arrived);
      slices := slices + arrived;
    }
  }

  method RestoreTo(reader: ByteReader, text: string)
    requires reader.Valid()
    modifies reader
    ensures reader.Valid() && reader.slices == Restore(text, old(reader.slices))
  {
    if |text| > 0 {
      reader.PushBack(text);
    }
  }

  method ReadLineInto(reader: ByteReader, eod: bool, limits: Limits)
    returns (outcome: Result<nat, PacketError>, buffer: string)
    requires reader.Valid()
    modifies reader
    ensures reader.Valid()
    ensures Scan(outcome, buffer, reader.slices) == ScanLine("", old(reader.slices), eod, limits)
  {
    buffer := "";
    while true
      invariant reader.Valid()
      invariant ScanLine(buffer, reader.slices, eod, limits) == ScanLine("", old(reader.slices), eod, limits)
      decreases |reader.slices|
    {
      var lineEnd := FindCrlfFrom(buffer, 0);
      if lineEnd.Some? {
        return Ok(lineEnd.value), buffer;
      }
      var broken := ContainsInternalLineBreak(buffer);
      if broken {
        return Error(MalformedLine), buffer;
      }
      if |buffer| >= LineCap(limits) {
        return Error(LineTooLong(limits.maxLine)), buffer;
      }
      var slice := reader.ReadSlice();
      if slice == "" {
        return Error(if !eod then NeedMore else if |buffer| == 0 then EndOfInput else UnexpectedEnd), buffer;
      }
      buffer := buffer + slice;
    }
  }

  method ReadBodyInto(reader: ByteReader, start: string, size: nat, eod: bool)
    returns (outcome: Result<(), PacketError>, buffer: string)
    requires reader.Valid()
    modifies reader
    ensures reader.Valid()
    ensures Scan(outcome, buffer, reader.slices) == ScanBody(start, old(reader.slices), size, eod)
  {
    buffer := start;
    while |buffer| < size
      invariant reader.Valid()
      invariant ScanBody(buffer, reader.slices, size, eod) == ScanBody(start, old(reader.slices), size, eod)
      decreases |reader.slices|
    {
      var slice := reader.ReadSlice();
      if slice == "" {
        return Error(if eod then UnexpectedEnd else NeedMore), buffer;
      }
      buffer := buffer + slice;
    }
    return Ok(()), buffer;
  }

  /** `Packet.read`. */
  method ReadPacket(reader: ByteReader, eod: bool, limits: Limits) returns (result: Result<Packet, PacketError>)
    requires reader.Valid()
    modifies reader
    ensures reader.Valid()
    ensures (result, reader.slices) == Read(old(reader.slices), eod, limits)
    ensures result.Error? ==> reader.Remaining() == old(reader.Remaining())
    ensures result.Ok? ==> old(reader.Remaining()) == ToString(result.value) + reader.Remaining()
                           && Within(result.value, limits)
    ensures CleanLine(old(reader.Remaining())) ==> result == ReadBytes(old(reader.Remaining()), eod, limits)
  {
    Conserves(reader.slices, eod, limits);
    if CleanLine(reader.Remaining()) {
      SlicesIrrelevant(reader.slices, eod, limits);
    }
    if !ValidLimits(limits) {
      return Error(InvalidLimits);
    }
    var scanned, buffer := ReadLineInto(reader, eod, limits);
    if scanned.Error? {
      RestoreTo(reader, buffer);
      return Error(scanned.error);
    }
    var lineEnd := scanned.value;
    var framed := FrameLine(buffer[..lineEnd], limits);
    if framed.Error? {
      RestoreTo(reader, buffer);
      return Error(framed.error);
    }
    var frame := framed.value;
    var complete: string;
    var body: Result<(), PacketError>;
    body, complete := ReadBodyInto(reader, buffer, frame.size, eod);
    if body.Error? {
      RestoreTo(reader, complete);
      return Error(body.error);
    }
    result := Cut(complete, lineEnd, frame);
    RestoreTo(reader, if result.Ok? then complete[frame.size..] else complete);
  }
}
