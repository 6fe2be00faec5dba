/** What one packet read does to the byte stream, and when the cutting into slices matters. */
module Framing {
  import opened Base
  import opened Text
  import Decimal
  import opened Packet

  predicate NonEmpty(slices: seq<string>) {
    forall s <- slices :: s != ""
  }

  /** A packet whose line, header, payload and total sizes respect the limits. */
  predicate Within(p: Packet, limits: Limits) {
    && |p.line| <= limits.maxLine
    && |ToString(p)| <= limits.maxPacket
    && (p.framing.Payload? ==> |p.body| <= limits.maxPayload)
    && (p.framing.Headers? ==> p.framing.headerBytes <= limits.maxHeader
                               && |p.body| - p.framing.headerBytes <= limits.maxPayload)
  }

  lemma FlattenRestore(s: string, slices: seq<string>)
    ensures Flatten(Restore(s, slices)) == s + Flatten(slices)
    ensures NonEmpty(slices) ==> NonEmpty(Restore(s, slices))
  {
  }

  /** The limits a framed packet is held to. */
  lemma FrameWithin(p: Packet, frame: Frame, limits: Limits)
    requires FrameLine(p.line, limits) == Ok(frame) && p.framing == frame.framing && |ToString(p)| == frame.size
    ensures Within(p, limits)
  {
    ClassifyBounds(p.line, limits);
  }

  lemma CutExact(buffer: string, lineEnd: nat, frame: Frame)
    requires CrlfAt(buffer, lineEnd) && Fits(lineEnd, frame) && frame.size <= |buffer|
    requires Cut(buffer, lineEnd, frame).Ok?
    ensures var p := Cut(buffer, lineEnd, frame).value;
            ToString(p) == buffer[..frame.size] && p.line == buffer[..lineEnd] && p.framing == frame.framing
  {
    var p := Cut(buffer, lineEnd, frame).value;
    assert buffer[..lineEnd + 2] == p.line + CRLF;
    if !frame.framing.Line? {
      assert buffer[..frame.size] == buffer[..lineEnd + 2] + p.body + buffer[frame.size - 2..frame.size];
      assert buffer[frame.size - 2..frame.size] == CRLF;
    }
  }

  /** Cutting the first bytes off a buffer that is followed by slices. */
  lemma CutOff(buffer: string, size: nat, slices: seq<string>)
    requires size <= |buffer|
    ensures buffer + Flatten(slices) == buffer[..size] + Flatten(Restore(buffer[size..], slices))
  {
    FlattenRestore(buffer[size..], slices);
    Assoc(buffer[..size], buffer[size..], Flatten(slices));
    assert buffer == buffer[..size] + buffer[size..];
  }

  lemma FrameConserves(buffer: string, slices: seq<string>, lineEnd: nat, frame: Frame, eod: bool)
    requires NonEmpty(slices) && CrlfAt(buffer, lineEnd) && Fits(lineEnd, frame)
    ensures var (result, rest) := ReadFrame(buffer, slices, lineEnd, frame, eod);
            NonEmpty(rest)
            && match result
               case Error(_) => Flatten(rest) == buffer + Flatten(slices)
               case Ok(p) => buffer + Flatten(slices) == ToString(p) + Flatten(rest) && |ToString(p)| == frame.size
                             && p.line == buffer[..lineEnd] && p.framing == frame.framing
  {
    var body := ScanBody(buffer, slices, frame.size, eod);
    BodyKeeps(buffer, slices, lineEnd, frame.size, eod);
    FlattenRestore(body.buffer, body.rest);
    if body.outcome.Ok? && Cut(body.buffer, lineEnd, frame).Ok? {
      CutExact(body.buffer, lineEnd, frame);
      FlattenRestore(body.buffer[frame.size..], body.rest);
      CutOff(body.buffer, frame.size, body.rest);
    }
  }

  lemma BodyKeeps(buffer: string, slices: seq<string>, lineEnd: nat, size: nat, eod: bool)
    requires NonEmpty(slices) && CrlfAt(buffer, lineEnd)
    ensures var body := ScanBody(buffer, slices, size, eod);
            NonEmpty(body.rest) && CrlfAt(body.buffer, lineEnd) && lineEnd <= |body.buffer|
            && body.buffer[..lineEnd] == buffer[..lineEnd]
            && body.buffer + Flatten(body.rest) == buffer + Flatten(slices)
  {
    ScanBodyExact(buffer, slices, size, eod);
    var body := ScanBody(buffer, slices, size, eod);
    assert forall s <- body.rest :: s in slices;
    var kept := body.buffer[..|buffer|];
    assert kept[lineEnd] == body.buffer[lineEnd] && kept[lineEnd + 1] == body.buffer[lineEnd + 1];
    assert body.buffer[..lineEnd] == kept[..lineEnd];
  }

  /** No read invents or loses a byte: an error leaves the stream as it was, a success takes off exactly the
      returned packet's own text, which fits the limits. */
  lemma Conserves(slices: seq<string>, eod: bool, limits: Limits)
    requires NonEmpty(slices)
    ensures var (result, rest) := Read(slices, eod, limits);
            NonEmpty(rest)
            && match result
               case Error(_) => Flatten(rest) == Flatten(slices)
               case Ok(p) => Flatten(slices) == ToString(p) + Flatten(rest) && Within(p, limits)
  {
    if ValidLimits(limits) {
      var line := ScanLine("", slices, eod, limits);
      ScanLineExact("", slices, eod, limits);
      assert "" + Flatten(slices) == Flatten(slices);
      assert forall s <- line.rest :: s in slices;
      FlattenRestore(line.buffer, line.rest);
      if line.outcome.Ok? {
        var lineEnd := line.outcome.value;
        var framed := FrameLine(line.buffer[..lineEnd], limits);
        if framed.Ok? {
          FrameConserves(line.buffer, line.rest, lineEnd, framed.value, eod);
          var result := ReadFrame(line.buffer, line.rest, lineEnd, framed.value, eod).0;
          if result.Ok? {
            FrameWithin(result.value, framed.value, limits);
          }
        }
      }
    }
  }

  /** A prefix holds the same first CRLF, or none. */
  lemma CrlfPrefix(data: string, n: nat)
    requires n <= |data|
    ensures FindCrlf(data[..n], 0).Some? ==> FindCrlf(data, 0) == FindCrlf(data[..n], 0)
    ensures FindCrlf(data, 0).Some? && FindCrlf(data, 0).value + 2 <= n ==> FindCrlf(data[..n], 0) == FindCrlf(data, 0)
  {
    var whole, part := FindCrlf(data, 0), FindCrlf(data[..n], 0);
    assert forall i: nat :: CrlfAt(data[..n], i) <==> i + 2 <= n && CrlfAt(data, i);
    if part.Some? {
      assert CrlfAt(data, part.value);
    }
    if whole.Some? && whole.value + 2 <= n {
      assert CrlfAt(data[..n], whole.value);
    }
  }

  // ---- The read as a function of the bytes alone ----

  function ReadLine(data: string, lineEnd: nat, eod: bool, limits: Limits): Result<Packet, PacketError>
    requires FindCrlf(data, 0) == Some(lineEnd)
  {
    var frame :- FrameLine(data[..lineEnd], limits);
    if |data| < frame.size then Error(Starved(eod, UnexpectedEnd)) else Cut(data, lineEnd, frame)
  }

  /** No line bound is so close to the integer range that adding two wraps. */
  predicate RoomForLine(limits: Limits) {
    limits.maxLine <= MAX_INT - 2
  }

  /** What a read makes of bytes that arrive in one piece. */
  function ReadBytes(data: string, eod: bool, limits: Limits): Result<Packet, PacketError> {
    if !ValidLimits(limits) then Error(InvalidLimits)
    else if !RoomForLine(limits) then Error(LineTooLong(limits.maxLine))
    else match FindCrlf(data, 0)
      case Some(lineEnd) => ReadLine(data, lineEnd, eod, limits)
      case None =>
        if InternalBreak(data) then Error(MalformedLine)
        else if |data| >= limits.maxLine + 2 then Error(LineTooLong(limits.maxLine))
        else Error(Starved(eod, if data == "" then EndOfInput else UnexpectedEnd))
  }

  /** No bare CR or LF stands before the first CRLF; a final CR may be the start of one. */
  predicate CleanLine(data: string) {
    match FindCrlf(data, 0)
    case Some(lineEnd) => !LineBreak(data[..lineEnd])
    case None => !InternalBreak(data)
  }

  /** The scan reached the bytes of the stream up to some slice boundary. */
  ghost predicate Follows(buffer: string, rest: seq<string>, data: string) {
    buffer + Flatten(rest) == data
  }

  lemma CleanPrefix(data: string, n: nat)
    requires n <= |data| && CleanLine(data) && FindCrlf(data[..n], 0).None?
    ensures !InternalBreak(data[..n])
  {
    var part := data[..n];
    CrlfPrefix(data, n);
    if InternalBreak(part) {
      var i :| 0 <= i < |part| && BreakAt(part, i);
      assert BreakAt(data, i);
    }
  }

  /** On a clean line every cutting is scanned alike. */
  lemma {:induction false} ScanClean(buffer: string, slices: seq<string>, eod: bool, limits: Limits, data: string)
    requires Follows(buffer, slices, data) && CleanLine(data) && NonEmpty(slices)
    requires ValidLimits(limits) && RoomForLine(limits)
    ensures var r := ScanLine(buffer, slices, eod, limits);
            match r.outcome
            case Ok(lineEnd) => FindCrlf(data, 0) == Some(lineEnd)
            case Error(e) => ReadBytes(data, eod, limits) == Error(e)
    decreases |slices|
  {
    assert data[..|buffer|] == buffer;
    CrlfPrefix(data, |buffer|);
    if FindCrlf(buffer, 0).None? {
      CleanPrefix(data, |buffer|);
      if |buffer| >= LineCap(limits) {
        LongLine(data, |buffer|, eod, limits);
      } else if slices == [] {
        assert data == buffer;
      } else {
        assert data == buffer + slices[0] + Flatten(slices[1..]);
        assert forall s <- slices[1..] :: s in slices;
        ScanClean(buffer + slices[0], slices[1..], eod, limits, data);
      }
    }
  }

  lemma LongLine(data: string, n: nat, eod: bool, limits: Limits)
    requires n <= |data| && FindCrlf(data[..n], 0).None? && n >= limits.maxLine + 2
    requires ValidLimits(limits) && RoomForLine(limits) && CleanLine(data)
    ensures ReadBytes(data, eod, limits) == Error(LineTooLong(limits.maxLine))
  {
    CrlfPrefix(data, n);
  }

  /** On a clean line the result is the same for every cutting. */
  lemma SlicesIrrelevant(slices: seq<string>, eod: bool, limits: Limits)
    requires NonEmpty(slices) && CleanLine(Flatten(slices))
    ensures Read(slices, eod, limits).0 == ReadBytes(Flatten(slices), eod, limits)
  {
    var data := Flatten(slices);
    if ValidLimits(limits) && !RoomForLine(limits) {
      assert !InternalBreak("");
    } else if ValidLimits(limits) {
      assert "" + data == data;
      ScanClean("", slices, eod, limits, data);
      if ScanLine("", slices, eod, limits).outcome.Ok? {
        FramedAlike(slices, eod, limits);
      }
    }
  }

  /** Once the scan has found the line of the whole stream, the rest of the read depends on the bytes alone. */
  lemma FramedAlike(slices: seq<string>, eod: bool, limits: Limits)
    requires ValidLimits(limits) && RoomForLine(limits)
    requires ScanLine("", slices, eod, limits).outcome.Ok?
    ensures Read(slices, eod, limits).0 == ReadBytes(Flatten(slices), eod, limits)
  {
    var data := Flatten(slices);
    var line := ScanLine("", slices, eod, limits);
    ScanLineExact("", slices, eod, limits);
    var lineEnd := line.outcome.value;
    assert "" + data == data == line.buffer + Flatten(line.rest);
    assert data[..|line.buffer|] == line.buffer;
    CrlfPrefix(data, |line.buffer|);
    assert line.buffer[..lineEnd] == data[..lineEnd];
    var framed := FrameLine(data[..lineEnd], limits);
    if framed.Ok? {
      FrameAlike(line.buffer, line.rest, lineEnd, framed.value, eod);
    }
  }

  lemma FrameAlike(buffer: string, slices: seq<string>, lineEnd: nat, frame: Frame, eod: bool)
    requires Fits(lineEnd, frame) && CrlfAt(buffer, lineEnd)
    ensures var data := buffer + Flatten(slices);
            ReadFrame(buffer, slices, lineEnd, frame, eod).0 ==
            if |data| < frame.size then Error(Starved(eod, UnexpectedEnd)) else Cut(data, lineEnd, frame)
  {
    var data := buffer + Flatten(slices);
    var body := ScanBody(buffer, slices, frame.size, eod);
    ScanBodyExact(buffer, slices, frame.size, eod);
    ScanBodyEnough(buffer, slices, frame.size, eod);
    if body.outcome.Ok? {
      assert body.buffer == data[..|body.buffer|];
      CutAlike(body.buffer, data, lineEnd, frame);
    }
  }

  lemma CutAlike(buffer: string, data: string, lineEnd: nat, frame: Frame)
    requires |buffer| <= |data| && buffer == data[..|buffer|]
    requires lineEnd <= |buffer| && frame.size <= |buffer| && Fits(lineEnd, frame)
    ensures Cut(buffer, lineEnd, frame) == Cut(data, lineEnd, frame)
  {
    var stop := lineEnd + 2 + BodyLength(frame.framing);
    assert buffer[..lineEnd] == data[..lineEnd];
    assert buffer[lineEnd + 2..stop] == data[lineEnd + 2..stop];
  }

  lemma {:induction false} ScanBodyEnough(buffer: string, slices: seq<string>, size: nat, eod: bool)
    ensures var r := ScanBody(buffer, slices, size, eod);
            if |buffer| + |Flatten(slices)| >= size then r.outcome.Ok?
            else r.outcome == Error(Starved(eod, UnexpectedEnd))
    decreases |slices|
  {
    if |buffer| < size && slices != [] {
      ScanBodyEnough(buffer + slices[0], slices[1..], size, eod);
    }
  }

  // ---- Exactly when the cutting does not matter ----

  function Min(a: int, b: int): int {
    if a < b then a else b
  }

  /** The line is clean; or it is refused as malformed anyway; or the break shows before the line bound. */
  predicate CuttingHidden(data: string, limits: Limits) {
    || CleanLine(data)
    || match FindCrlf(data, 0)
       case Some(lineEnd) => lineEnd <= limits.maxLine && Classify(data[..lineEnd], limits) == Error(MalformedLine)
       case None => limits.maxLine >= 0 && InternalBreak(data[..Min(|data|, limits.maxLine + 2)])
  }

  ghost predicate Uncuttable(data: string, eod: bool, limits: Limits) {
    forall slices :: NonEmpty(slices) && Flatten(slices) == data ==>
      Read(slices, eod, limits).0 == ReadBytes(data, eod, limits)
  }

  lemma HiddenReads(slices: seq<string>, eod: bool, limits: Limits)
    requires NonEmpty(slices) && ValidLimits(limits) && RoomForLine(limits) && CuttingHidden(Flatten(slices), limits)
    ensures Read(slices, eod, limits).0 == ReadBytes(Flatten(slices), eod, limits)
  {
    if CleanLine(Flatten(slices)) {
      SlicesIrrelevant(slices, eod, limits);
    } else {
      HiddenIrrelevant(slices, eod, limits, Flatten(slices));
    }
  }

  /** The result depends on the bytes alone for exactly these streams. */
  lemma CuttingMattersExactly(data: string, eod: bool, limits: Limits)
    requires ValidLimits(limits) && RoomForLine(limits)
    ensures Uncuttable(data, eod, limits) <==> CuttingHidden(data, limits)
  {
    if CuttingHidden(data, limits) {
      forall slices | NonEmpty(slices) && Flatten(slices) == data
        ensures Read(slices, eod, limits).0 == ReadBytes(data, eod, limits)
      {
        HiddenReads(slices, eod, limits);
      }
    } else {
      var slices := RevealingCut(data, eod, limits);
    }
  }

  /** How far into an unclean stream a bare break is sure to show. */
  function BreakShown(data: string): nat {
    match FindCrlf(data, 0)
    case Some(lineEnd) => lineEnd + 1
    case None => |data|
  }

  lemma BreakShows(data: string, n: nat)
    requires !CleanLine(data) && BreakShown(data) <= n <= |data|
    ensures InternalBreak(data[..n])
  {
    match FindCrlf(data, 0)
    case None =>
      assert data[..n] == data;
    case Some(lineEnd) =>
      var i :| 0 <= i < lineEnd && (data[..lineEnd][i] == '\r' || data[..lineEnd][i] == '\n');
      assert BreakAt(data[..n], i);
  }

  lemma HiddenIrrelevant(slices: seq<string>, eod: bool, limits: Limits, data: string)
    requires NonEmpty(slices) && Flatten(slices) == data
    requires ValidLimits(limits) && RoomForLine(limits) && !CleanLine(data) && CuttingHidden(data, limits)
    ensures Read(slices, eod, limits).0 == ReadBytes(data, eod, limits)
  {
    assert "" + data == data;
    var shown := if FindCrlf(data, 0).Some? then BreakShown(data) else Min(|data|, limits.maxLine + 2);
    BreakShows(data, BreakShown(data));
    ScanHidden("", slices, eod, limits, data, shown);
    if ScanLine("", slices, eod, limits).outcome.Ok? {
      FramedAlike(slices, eod, limits);
    }
  }

  lemma {:induction false} ScanHidden(buffer: string, slices: seq<string>, eod: bool, limits: Limits, data: string, shown: nat)
    requires Follows(buffer, slices, data) && NonEmpty(slices)
    requires ValidLimits(limits) && RoomForLine(limits)
    requires shown <= |data| && shown <= limits.maxLine + 2 && InternalBreak(data[..shown])
    ensures var r := ScanLine(buffer, slices, eod, limits); r.outcome.Ok? || r.outcome == Error(MalformedLine)
    decreases |slices|
  {
    if FindCrlf(buffer, 0).None? && !InternalBreak(buffer) {
      assert data[..|buffer|] == buffer;
      if |buffer| >= shown {
        BreakGrows(data, shown, |buffer|);
      } else {
        assert slices != [];
        assert data == buffer + slices[0] + Flatten(slices[1..]);
        assert forall s <- slices[1..] :: s in slices;
        ScanHidden(buffer + slices[0], slices[1..], eod, limits, data, shown);
      }
    }
  }

  lemma BreakGrows(data: string, m: nat, n: nat)
    requires m <= n <= |data| && InternalBreak(data[..m])
    ensures InternalBreak(data[..n])
  {
    var i :| 0 <= i < m && BreakAt(data[..m], i);
    assert BreakAt(data[..n], i);
  }

  lemma FlattenTwo(a: string, b: string)
    ensures Flatten([a, b]) == a + b
  {
    assert [a, b][1..] == [b];
    assert Flatten([b]) == b + Flatten([]);
  }

  /** A buffer that shows neither a CRLF nor a break takes the next slice. */
  lemma ScanMore(buffer: string, slices: seq<string>, eod: bool, limits: Limits)
    requires FindCrlf(buffer, 0).None? && !InternalBreak(buffer) && |buffer| < LineCap(limits) && slices != []
    ensures ScanLine(buffer, slices, eod, limits) == ScanLine(buffer + slices[0], slices[1..], eod, limits)
  {
  }

  /** A first slice that shows a bare CR or LF is refused. */
  lemma CutRefused(first: string, rest: seq<string>, eod: bool, limits: Limits)
    requires ValidLimits(limits) && RoomForLine(limits)
    requires FindCrlf(first, 0).None? && InternalBreak(first)
    ensures Read([first] + rest, eod, limits).0 == Error(MalformedLine)
  {
    assert FindCrlf("", 0).None? && !InternalBreak("");
    ScanMore("", [first] + rest, eod, limits);
    assert "" + first == first && ([first] + rest)[1..] == rest;
  }

  /** A first slice that fills the line bound and shows nothing is too long. */
  lemma CutTooLong(first: string, rest: seq<string>, eod: bool, limits: Limits)
    requires ValidLimits(limits) && RoomForLine(limits)
    requires FindCrlf(first, 0).None? && !InternalBreak(first) && |first| >= limits.maxLine + 2
    ensures Read([first] + rest, eod, limits).0 == Error(LineTooLong(limits.maxLine))
  {
    assert FindCrlf("", 0).None? && !InternalBreak("");
    ScanMore("", [first] + rest, eod, limits);
    assert "" + first == first && ([first] + rest)[1..] == rest;
  }

  /** The break stands before a CRLF and the line is not refused as malformed: a cut behind the break refuses it. */
  lemma CutBehindBreak(data: string, eod: bool, limits: Limits)
    requires ValidLimits(limits) && RoomForLine(limits) && !CuttingHidden(data, limits) && FindCrlf(data, 0).Some?
    ensures var n := BreakShown(data);
            0 < n < |data| && Read([data[..n]] + [data[n..]], eod, limits).0 != ReadBytes(data, eod, limits)
  {
    var n := BreakShown(data);
    BreakShows(data, n);
    CrlfPrefix(data, n);
    CutRefused(data[..n], [data[n..]], eod, limits);
    if ReadLine(data, n - 1, eod, limits) == Error(MalformedLine) {
      RefusedLine(data, n - 1, eod, limits);
    }
  }

  /** No CRLF is in sight and the break stands beyond the line bound: a cut at the bound finds the line too long. */
  lemma CutAtBound(data: string, eod: bool, limits: Limits)
    requires ValidLimits(limits) && RoomForLine(limits) && !CuttingHidden(data, limits) && FindCrlf(data, 0).None?
    ensures var n := limits.maxLine + 2;
            0 < n < |data| && Read([data[..n]] + [data[n..]], eod, limits).0 != ReadBytes(data, eod, limits)
  {
    var n := limits.maxLine + 2;
    assert data[..|data|] == data;
    CrlfPrefix(data, n);
    CutTooLong(data[..n], [data[n..]], eod, limits);
  }

  lemma TwoPieces(data: string, n: nat)
    requires 0 < n < |data|
    ensures NonEmpty([data[..n]] + [data[n..]]) && Flatten([data[..n]] + [data[n..]]) == data
  {
    FlattenTwo(data[..n], data[n..]);
    assert [data[..n]] + [data[n..]] == [data[..n], data[n..]] && data == data[..n] + data[n..];
  }

  /** A cutting that gives another result. */
  lemma RevealingCut(data: string, eod: bool, limits: Limits) returns (slices: seq<string>)
    requires ValidLimits(limits) && RoomForLine(limits) && !CuttingHidden(data, limits)
    ensures NonEmpty(slices) && Flatten(slices) == data
    ensures Read(slices, eod, limits).0 != ReadBytes(data, eod, limits)
  {
    var n := if FindCrlf(data, 0).Some? then BreakShown(data) else limits.maxLine + 2;
    if FindCrlf(data, 0).Some? {
      CutBehindBreak(data, eod, limits);
    } else {
      CutAtBound(data, eod, limits);
    }
    TwoPieces(data, n);
    slices := [data[..n]] + [data[n..]];
  }

  lemma RefusedLine(data: string, lineEnd: nat, eod: bool, limits: Limits)
    requires FindCrlf(data, 0) == Some(lineEnd) && ReadLine(data, lineEnd, eod, limits) == Error(MalformedLine)
    ensures lineEnd <= limits.maxLine && Classify(data[..lineEnd], limits) == Error(MalformedLine)
  {
    var line := data[..lineEnd];
    var classified := Classify(line, limits);
    if lineEnd <= limits.maxLine && classified.Ok? {
      PacketSizeExact(|line|, classified.value);
    }
  }

  /** Retrying after `Need_more`, once more bytes have come, is one read of everything received. */
  lemma RetryIsOneRead(slices: seq<string>, arrived: seq<string>, eod: bool, limits: Limits)
    requires NonEmpty(slices) && NonEmpty(arrived)
    requires Read(slices, false, limits).0 == Error(NeedMore)
    requires CuttingHidden(Flatten(slices) + Flatten(arrived), limits)
    ensures var kept := Read(slices, false, limits).1;
            Read(kept + arrived, eod, limits).0 == ReadBytes(Flatten(slices) + Flatten(arrived), eod, limits)
  {
    NeedsRoom(slices, limits);
    Conserves(slices, false, limits);
    var kept := Read(slices, false, limits).1;
    FlattenAppend(kept, arrived);
    HiddenReads(kept + arrived, eod, limits);
  }

  /** Without valid limits, or without room for the terminator, no read asks for more. */
  lemma NeedsRoom(slices: seq<string>, limits: Limits)
    requires Read(slices, false, limits).0 == Error(NeedMore)
    ensures ValidLimits(limits) && RoomForLine(limits)
  {
    assert FindCrlf("", 0).None? && !InternalBreak("");
  }

  /** However the bytes are cut and wherever the first read has to stop, the retry is one read of everything. */
  ghost predicate Retriable(data: string, eod: bool, limits: Limits) {
    forall slices, arrived ::
      NonEmpty(slices) && NonEmpty(arrived) && Flatten(slices) + Flatten(arrived) == data
      && Read(slices, false, limits).0 == Error(NeedMore) ==>
        Read(Read(slices, false, limits).1 + arrived, eod, limits).0 == ReadBytes(data, eod, limits)
  }

  /** Retrying after `Need_more` is one read of everything for exactly the streams on which cutting does not matter. */
  lemma RetryExactly(data: string, eod: bool, limits: Limits)
    requires ValidLimits(limits) && RoomForLine(limits)
    ensures Retriable(data, eod, limits) <==> CuttingHidden(data, limits)
  {
    if CuttingHidden(data, limits) {
      forall slices, arrived | NonEmpty(slices) && NonEmpty(arrived) && Flatten(slices) + Flatten(arrived) == data
                               && Read(slices, false, limits).0 == Error(NeedMore)
        ensures Read(Read(slices, false, limits).1 + arrived, eod, limits).0 == ReadBytes(data, eod, limits)
      {
        RetryIsOneRead(slices, arrived, eod, limits);
      }
    } else {
      var arrived := RevealingCut(data, eod, limits);
      NothingYet(limits);
      assert [] + arrived == arrived && Flatten([]) + Flatten(arrived) == data;
      assert !Retriable(data, eod, limits);
    }
  }

  /** An empty reader needs more. */
  lemma NothingYet(limits: Limits)
    requires ValidLimits(limits) && RoomForLine(limits)
    ensures Read([], false, limits) == (Error(NeedMore), [])
  {
    assert FindCrlf("", 0).None? && !InternalBreak("");
  }

  lemma ThreeWords(line: string, a: string, b: string, c: string)
    requires ' ' !in a && ' ' !in b && ' ' !in c && line == a + [' '] + (b + [' '] + c)
    ensures Words(line) == [a, b, c] && FirstWord(line) == a
  {
    SplitCons(a, ' ', b + [' '] + c);
    SplitCons(b, ' ', c);
    SplitOne(c, ' ');
    FirstWordIsFirst(line);
  }

  lemma BareWords(line: string)
    requires line == "PUB a\rb 0"
    ensures Words(line) == ["PUB", "a\rb", "0"] && FirstWord(line) == "PUB"
  {
    ThreeWords(line, "PUB", "a\rb", "0");
  }

  lemma BareLine(line: string)
    requires line == "PUB a\rb 0"
    ensures FrameLine(line, DEFAULT_LIMITS) == Ok(Frame(Payload(0), 13))
  {
    BareWords(line);
    Decimal.ParsePrint(0);
    PacketSizeExact(|line|, Payload(0));
  }

  lemma BareFound(data: string)
    requires data == "PUB a\rb 0\r\n\r\n"
    ensures FindCrlf(data, 0) == Some(9) && |data| == 13 && data[..9] == "PUB a\rb 0"
    ensures data[11] == '\r' && data[12] == '\n'
  {
    assert CrlfAt(data, 9) && forall j :: 0 <= j < 9 ==> !CrlfAt(data, j);
  }

  lemma BareCut(data: string, frame: Frame)
    requires |data| == 13 && data[11] == '\r' && data[12] == '\n' && frame == Frame(Payload(0), 13)
    ensures Cut(data, 9, frame) == Ok(Packet(data[..9], "", Payload(0)))
  {
    assert data[11..11] == "";
  }

  lemma BareWhole(data: string, line: string, eod: bool)
    requires data == "PUB a\rb 0\r\n\r\n" && line == "PUB a\rb 0"
    ensures ReadBytes(data, eod, DEFAULT_LIMITS) == Ok(Packet(line, "", Payload(0)))
  {
    BareFound(data);
    BareLine(line);
    BareCut(data, Frame(Payload(0), 13));
  }

  lemma BareBreaks(first: string, grown: string)
    requires first == "PUB a" && grown == "PUB a\rb"
    ensures FindCrlf(first, 0).None? && !InternalBreak(first) && FindCrlf(grown, 0).None? && InternalBreak(grown)
  {
    assert BreakAt(grown, 5);
    assert forall j :: 0 <= j < |grown| ==> !CrlfAt(grown, j);
    assert forall j :: 0 <= j < |first| ==> !CrlfAt(first, j);
  }

  lemma BareStops(first: string)
    requires first == "PUB a" && FindCrlf(first, 0).None? && !InternalBreak(first)
    ensures Read([first], false, DEFAULT_LIMITS) == (Error(NeedMore), [first])
  {
    assert FindCrlf("", 0).None? && !InternalBreak("");
    ScanMore("", [first], false, DEFAULT_LIMITS);
    assert "" + first == first && [first][1..] == [] && [first] + [] == [first];
    assert ScanLine(first, [], false, DEFAULT_LIMITS) == Scan(Error(NeedMore), first, []);
  }

  lemma BareRetried(first: string, second: string, rest: seq<string>, eod: bool)
    requires first == "PUB a" && second == "\rb"
    ensures Read([first], false, DEFAULT_LIMITS) == (Error(NeedMore), [first])
    ensures Read([first] + ([second] + rest), eod, DEFAULT_LIMITS).0 == Error(MalformedLine)
  {
    var slices := [first] + ([second] + rest);
    BareBreaks(first, first + second);
    BareStops(first);
    assert FindCrlf("", 0).None? && !InternalBreak("");
    ScanMore("", slices, eod, DEFAULT_LIMITS);
    assert "" + first == first && slices[1..] == [second] + rest;
    ScanMore(first, [second] + rest, eod, DEFAULT_LIMITS);
  }

  /** A PUB line with a bare CR in its subject: in one piece it is a packet; stopped before the CR and retried, it is
      refused. */
  lemma BareReturn(eod: bool)
    ensures var first, arrived := "PUB a", ["\rb", " 0\r\n\r\n"];
            && ReadBytes(first + Flatten(arrived), eod, DEFAULT_LIMITS) == Ok(Packet("PUB a\rb 0", "", Payload(0)))
            && Read([first], false, DEFAULT_LIMITS) == (Error(NeedMore), [first])
            && Read([first] + arrived, eod, DEFAULT_LIMITS).0 == Error(MalformedLine)
  {
    var first, second, third := "PUB a", "\rb", " 0\r\n\r\n";
    FlattenTwo(second, third);
    assert first + (second + third) == "PUB a\rb 0\r\n\r\n";
    BareWhole(first + (second + third), "PUB a\rb 0", eod);
    BareRetried(first, second, [third], eod);
    assert [second] + [third] == [second, third];
  }
}
