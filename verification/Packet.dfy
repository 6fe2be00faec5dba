/** Framing of the line-oriented protocol (lib/packet.ml). */
module Packet {
  import opened Base
  import opened Text
  import Decimal

  datatype Limits = Limits(maxLine: int63, maxHeader: int63, maxPayload: int63, maxPacket: int63)

  const DEFAULT_LIMITS := Limits(4 * 1024, 64 * 1024, 1024 * 1024, 2 * 1024 * 1024)

  predicate ValidLimits(limits: Limits) {
    limits.maxLine > 0 && limits.maxHeader > 0 && limits.maxPayload >= 0 && limits.maxPacket > 0
  }

  datatype Framing =
    | Line
    | Payload(bytes: nat)
    | Headers(headerBytes: nat, totalBytes: nat)

  datatype RawPacket = Packet(line: string, body: string, framing: Framing)

  datatype PacketError =
    | EndOfInput
    | NeedMore
    | UnexpectedEnd
    | InvalidLimits
    | LineTooLong(limit: int)
    | PacketTooLarge(size: int, limit: int)
    | HeadersTooLarge(size: int, limit: int)
    | PayloadTooLarge(size: int, limit: int)
    | MalformedLine
    | InvalidLength(keyword: string, value: string)
    | InvalidLengths(keyword: string)
    | InvalidTerminator
    | UnknownOperation(keyword: string)

  function BodyLength(framing: Framing): nat {
    match framing
    case Line => 0
    case Payload(bytes) => bytes
    case Headers(_, total) => total
  }

  /** The packets the abstract type holds: the body has the framed length. */
  predicate Coherent(p: RawPacket) {
    |p.body| == BodyLength(p.framing) && (p.framing.Headers? ==> p.framing.headerBytes <= p.framing.totalBytes)
  }

  type Packet = p: RawPacket | Coherent(p) witness Packet("", "", Line)

  function ToString(p: Packet): string {
    if p.framing.Line? then p.line + CRLF else p.line + CRLF + p.body + CRLF
  }

  // ---- Classification of a control line ----

  function FirstWord(line: string): string {
    match IndexOf(line, ' ')
    case None => line
    case Some(i) => line[..i]
  }

  function Words(line: string): seq<string> {
    Split(line, ' ')
  }

  lemma FirstWordIsFirst(line: string)
    ensures Words(line)[0] == FirstWord(line)
  {
  }

  function ParseLength(keyword: string, value: string): Result<nat, PacketError> {
    match Decimal.Parse(value)
    case Some(n) => Ok(n)
    case None => Error(InvalidLength(keyword, value))
  }

  function PayloadFraming(keyword: string, value: string, limits: Limits): Result<Framing, PacketError> {
    var bytes :- ParseLength(keyword, value);
    if bytes > limits.maxPayload then Error(PayloadTooLarge(bytes, limits.maxPayload)) else Ok(Payload(bytes))
  }

  function HeadersFraming(keyword: string, header: string, total: string, limits: Limits): Result<Framing, PacketError> {
    var headerBytes :- ParseLength(keyword, header);
    var totalBytes :- ParseLength(keyword, total);
    if headerBytes > totalBytes then Error(InvalidLengths(keyword))
    else if headerBytes > limits.maxHeader then Error(HeadersTooLarge(headerBytes, limits.maxHeader))
    else if totalBytes - headerBytes > limits.maxPayload then
      Error(PayloadTooLarge(totalBytes - headerBytes, limits.maxPayload))
    else Ok(Headers(headerBytes, totalBytes))
  }

  function Classify(line: string, limits: Limits): Result<Framing, PacketError> {
    ClassifyWords(FirstWord(line), Words(line), limits)
  }

  function ClassifyWords(keyword: string, w: seq<string>, limits: Limits): Result<Framing, PacketError> {
    if keyword == "PUB" then
      if |w| == 3 then PayloadFraming(keyword, w[2], limits)
      else if |w| == 4 then PayloadFraming(keyword, w[3], limits)
      else Error(MalformedLine)
    else if keyword == "HPUB" then
      if |w| == 4 then HeadersFraming(keyword, w[2], w[3], limits)
      else if |w| == 5 then HeadersFraming(keyword, w[3], w[4], limits)
      else Error(MalformedLine)
    else if keyword == "MSG" then
      if |w| == 4 then PayloadFraming(keyword, w[3], limits)
      else if |w| == 5 then PayloadFraming(keyword, w[4], limits)
      else Error(MalformedLine)
    else if keyword == "HMSG" then
      if |w| == 5 then HeadersFraming(keyword, w[3], w[4], limits)
      else if |w| == 6 then HeadersFraming(keyword, w[4], w[5], limits)
      else Error(MalformedLine)
    else if keyword in ["INFO", "CONNECT", "SUB", "UNSUB", "PING", "PONG", "+OK", "-ERR"] then Ok(Line)
    else Error(UnknownOperation(keyword))
  }

  function AddSize(left: nat, right: nat): Result<nat, PacketError> {
    if left > MAX_INT - right then Error(InvalidLength("packet", "overflow")) else Ok(left + right)
  }

  function PacketSize(lineLength: nat, framing: Framing): Result<nat, PacketError> {
    var lineBytes :- AddSize(lineLength, 2);
    if framing.Line? then Ok(lineBytes)
    else
      var bodyBytes :- AddSize(BodyLength(framing), 2);
      AddSize(lineBytes, bodyBytes)
  }

  /** The exact number of bytes a framed packet occupies on the wire. */
  function WireSize(lineLength: nat, framing: Framing): nat {
    if framing.Line? then lineLength + 2 else lineLength + 2 + BodyLength(framing) + 2
  }

  /** The guarded additions yield the wire size exactly when it is a machine integer. */
  lemma PacketSizeExact(lineLength: nat, framing: Framing)
    ensures PacketSize(lineLength, framing) ==
            if WireSize(lineLength, framing) <= MAX_INT then Ok(WireSize(lineLength, framing))
            else Error(InvalidLength("packet", "overflow"))
  {
  }

  lemma ClassifyBounds(line: string, limits: Limits)
    requires Classify(line, limits).Ok?
    ensures match Classify(line, limits).value
            case Line => true
            case Payload(bytes) => bytes <= limits.maxPayload
            case Headers(header, total) => header <= total && header <= limits.maxHeader && total - header <= limits.maxPayload
  {
  }

  // ---- One read, as a function of the reader's slices ----

  /** The bound `max_line_bytes + 2`, in machine arithmetic. */
  function LineCap(limits: Limits): int {
    WrapAdd(limits.maxLine, 2)
  }

  function Starved(eod: bool, more: PacketError): PacketError {
    if eod then more else NeedMore
  }

  datatype Scan<T> = Scan(outcome: Result<T, PacketError>, buffer: string, rest: seq<string>)

  function ScanLine(buffer: string, slices: seq<string>, eod: bool, limits: Limits): (r: Scan<nat>)
    ensures r.outcome.Ok? ==> FindCrlf(r.buffer, 0) == Some(r.outcome.value)
    decreases |slices|
  {
    match FindCrlf(buffer, 0)
    case Some(lineEnd) => Scan(Ok(lineEnd), buffer, slices)
    case None =>
      if InternalBreak(buffer) then Scan(Error(MalformedLine), buffer, slices)
      else if |buffer| >= LineCap(limits) then Scan(Error(LineTooLong(limits.maxLine)), buffer, slices)
      else if slices == [] then
        Scan(Error(Starved(eod, if buffer == "" then EndOfInput else UnexpectedEnd)), buffer, slices)
      else ScanLine(buffer + slices[0], slices[1..], eod, limits)
  }

  function ScanBody(buffer: string, slices: seq<string>, size: nat, eod: bool): (r: Scan<()>)
    ensures r.outcome.Ok? ==> |r.buffer| >= size
    decreases |slices|
  {
    if |buffer| >= size then Scan(Ok(()), buffer, slices)
    else if slices == [] then Scan(Error(Starved(eod, UnexpectedEnd)), buffer, slices)
    else ScanBody(buffer + slices[0], slices[1..], size, eod)
  }

  /** `push_back` of a possibly empty string. */
  function Restore(s: string, slices: seq<string>): seq<string> {
    if s == "" then slices else [s] + slices
  }

  datatype Frame = Frame(framing: Framing, size: nat)

  /** The frame fits a line of `lineEnd` bytes. */
  predicate Fits(lineEnd: nat, frame: Frame) {
    frame.size == WireSize(lineEnd, frame.framing)
    && (frame.framing.Headers? ==> frame.framing.headerBytes <= frame.framing.totalBytes)
  }

  /** The decisions taken on a complete control line, before its body is read. */
  function FrameLine(line: string, limits: Limits): (r: Result<Frame, PacketError>)
    ensures r.Ok? ==> Fits(|line|, r.value) && r.value.size <= limits.maxPacket
  {
    if |line| > limits.maxLine then Error(LineTooLong(limits.maxLine))
    else
      var framing :- Classify(line, limits);
      var size :- PacketSize(|line|, framing);
      ClassifyBounds(line, limits);
      if size > limits.maxPacket then Error(PacketTooLarge(size, limits.maxPacket)) else Ok(Frame(framing, size))
  }

  /** The packet held by a buffer with `frame.size` bytes or more. */
  function Cut(buffer: string, lineEnd: nat, frame: Frame): Result<Packet, PacketError>
    requires lineEnd <= |buffer| && frame.size <= |buffer|
    requires Fits(lineEnd, frame)
  {
    if !frame.framing.Line? && !(buffer[frame.size - 2] == '\r' && buffer[frame.size - 1] == '\n') then
      Error(InvalidTerminator)
    else
      Ok(Packet(buffer[..lineEnd], buffer[lineEnd + 2..lineEnd + 2 + BodyLength(frame.framing)], frame.framing))
  }

  /** The read after its control line has been framed. */
  function ReadFrame(buffer: string, slices: seq<string>, lineEnd: nat, frame: Frame, eod: bool)
    : (Result<Packet, PacketError>, seq<string>)
    requires Fits(lineEnd, frame)
  {
    var body := ScanBody(buffer, slices, frame.size, eod);
    match body.outcome
    case Error(e) => (Error(e), Restore(body.buffer, body.rest))
    case Ok(_) =>
      match Cut(body.buffer, lineEnd, frame)
      case Error(e) => (Error(e), Restore(body.buffer, body.rest))
      case Ok(packet) => (Ok(packet), Restore(body.buffer[frame.size..], body.rest))
  }

  /** One `Packet.read`: its result and the slices left in the reader. */
  function Read(slices: seq<string>, eod: bool, limits: Limits): (Result<Packet, PacketError>, seq<string>) {
    if !ValidLimits(limits) then (Error(InvalidLimits), slices)
    else
      var line := ScanLine("", slices, eod, limits);
      match line.outcome
      case Error(e) => (Error(e), Restore(line.buffer, line.rest))
      case Ok(lineEnd) =>
        match FrameLine(line.buffer[..lineEnd], limits)
        case Error(e) => (Error(e), Restore(line.buffer, line.rest))
        case Ok(frame) => ReadFrame(line.buffer, line.rest, lineEnd, frame, eod)
  }

  /** Moving the first slice into the buffer, and then perhaps more, loses no byte. */
  lemma MovedSlice(buffer: string, slices: seq<string>, grown: string, rest: seq<string>)
    requires slices != [] && |rest| <= |slices| - 1
    requires grown + Flatten(rest) == (buffer + slices[0]) + Flatten(slices[1..])
    requires rest == slices[1..][|slices| - 1 - |rest|..]
    ensures grown + Flatten(rest) == buffer + Flatten(slices) && rest == slices[|slices| - |rest|..]
  {
    Assoc(buffer, slices[0], Flatten(slices[1..]));
  }

  /** The line scan only moves bytes from the slices into the buffer. */
  lemma {:induction false} ScanLineExact(buffer: string, slices: seq<string>, eod: bool, limits: Limits)
    ensures var r := ScanLine(buffer, slices, eod, limits);
            r.buffer + Flatten(r.rest) == buffer + Flatten(slices)
            && |r.rest| <= |slices| && r.rest == slices[|slices| - |r.rest|..]
    decreases |slices|
  {
    if slices != [] {
      ScanLineExact(buffer + slices[0], slices[1..], eod, limits);
      var r := ScanLine(buffer + slices[0], slices[1..], eod, limits);
      MovedSlice(buffer, slices, r.buffer, r.rest);
    }
  }

  lemma {:induction false} ScanBodyExact(buffer: string, slices: seq<string>, size: nat, eod: bool)
    ensures var r := ScanBody(buffer, slices, size, eod);
            r.buffer + Flatten(r.rest) == buffer + Flatten(slices)
            && |r.buffer| >= |buffer| && r.buffer[..|buffer|] == buffer
            && |r.rest| <= |slices| && r.rest == slices[|slices| - |r.rest|..]
    decreases |slices|
  {
    if |buffer| < size && slices != [] {
      ScanBodyExact(buffer + slices[0], slices[1..], size, eod);
      var r := ScanBody(buffer + slices[0], slices[1..], size, eod);
      MovedSlice(buffer, slices, r.buffer, r.rest);
      assert r.buffer[..|buffer|] == r.buffer[..|buffer + slices[0]|][..|buffer|];
    }
  }
}
