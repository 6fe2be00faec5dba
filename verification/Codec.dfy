/** Encoding and decoding of the protocol operations (lib/codec.ml). */
module Codec {
  import opened Base
  import opened Text
  import Decimal
  import Subject
  import Header
  import HeaderBlock
  import opened Op
  import opened Packet

  datatype CodecError =
    | PacketFailure(packet: PacketError)
    | InvalidOperation(keyword: string)
    | InvalidFieldCount(keyword: string)
    | InvalidSubject(subject: Subject.SubjectError)
    | InvalidBlock(block: HeaderBlock.BlockError)
    | InvalidStatus
    | InvalidSid(value: string)
    | InvalidMaxMessages(value: string)
    | InvalidValue(keyword: string)
    | MessageHasHeaders
    | BadLimits

  // ---- Decoding ----

  function Rest(line: string, keyword: string): Option<string> {
    if |line| > |keyword| && line[|keyword|] == ' ' then Some(line[|keyword| + 1..]) else None
  }

  function ExpectLine(p: Packet, keyword: string): Result<(), CodecError> {
    if FirstWord(p.line) == keyword && p.framing.Line? then Ok(()) else Error(InvalidOperation(keyword))
  }

  function ParseSid(value: string): Result<int, CodecError> {
    match Decimal.Parse(value)
    case Some(sid) => if sid > 0 then Ok(sid) else Error(InvalidSid(value))
    case None => Error(InvalidSid(value))
  }

  function ParseMaxMessages(value: string): Result<int, CodecError> {
    match Decimal.Parse(value)
    case Some(count) => Ok(count)
    case None => Error(InvalidMaxMessages(value))
  }

  function SubjectOf(value: string): Result<Subject.Subject, CodecError> {
    match Subject.OfString(value)
    case Ok(s) => Ok(s)
    case Error(e) => Error(InvalidSubject(e))
  }

  function FilterOf(value: string): Result<Subject.Filter, CodecError> {
    match Subject.FilterOfString(value)
    case Ok(s) => Ok(s)
    case Error(e) => Error(InvalidSubject(e))
  }

  /** The reply subject of a line; an empty word stands for none. */
  function ReplyOf(value: string): Result<Option<Subject.Subject>, CodecError> {
    if value == "" then Ok(None)
    else match SubjectOf(value)
      case Ok(s) => Ok(Some(s))
      case Error(e) => Error(e)
  }

  function MessageOf(subject: string, reply: string, headers: Header.Headers, payload: string): Result<Message, CodecError> {
    var s :- SubjectOf(subject);
    var r :- ReplyOf(reply);
    Ok(Message(s, r, headers, payload))
  }

  /** The value of an operation that carries the rest of its line. */
  function TextValue(p: Packet, keyword: string): Result<string, CodecError> {
    var _ :- ExpectLine(p, keyword);
    match Rest(p.line, keyword)
    case Some(text) => Ok(text)
    case None => Error(InvalidValue(keyword))
  }

  function DecodeSub(p: Packet): Result<Op, CodecError> {
    var _ :- ExpectLine(p, "SUB");
    var w := Words(p.line);
    if |w| == 3 then
      var subject :- FilterOf(w[1]);
      var sid :- ParseSid(w[2]);
      Ok(Sub(subject, None, sid))
    else if |w| == 4 then
      var subject :- FilterOf(w[1]);
      var queueGroup :- SubjectOf(w[2]);
      var sid :- ParseSid(w[3]);
      Ok(Sub(subject, Some(queueGroup), sid))
    else Error(InvalidFieldCount("SUB"))
  }

  function DecodeUnsub(p: Packet): Result<Op, CodecError> {
    var _ :- ExpectLine(p, "UNSUB");
    var w := Words(p.line);
    if |w| == 2 then
      var sid :- ParseSid(w[1]);
      Ok(Unsub(sid, None))
    else if |w| == 3 then
      var sid :- ParseSid(w[1]);
      var max :- ParseMaxMessages(w[2]);
      Ok(Unsub(sid, Some(max)))
    else Error(InvalidFieldCount("UNSUB"))
  }

  function DecodePub(p: Packet): Result<Op, CodecError> {
    var w := Words(p.line);
    if !p.framing.Payload? then Error(InvalidOperation("PUB"))
    else if |w| == 3 then
      var message :- MessageOf(w[1], "", [], p.body);
      if Decimal.Parse(w[2]).Some? then Ok(Pub(message)) else Error(InvalidValue("PUB"))
    else if |w| == 4 then
      var message :- MessageOf(w[1], w[2], [], p.body);
      Ok(Pub(message))
    else Error(InvalidFieldCount("PUB"))
  }

  function DecodeMsg(p: Packet): Result<Op, CodecError> {
    var w := Words(p.line);
    if !p.framing.Payload? then Error(InvalidOperation("MSG"))
    else if |w| == 4 || |w| == 5 then
      var sid :- ParseSid(w[2]);
      var message :- MessageOf(w[1], if |w| == 5 then w[3] else "", [], p.body);
      Ok(Msg(sid, message))
    else Error(InvalidFieldCount("MSG"))
  }

  /** The status and message of a packet with a header block. */
  function HeaderMessage(p: Packet, subject: string, reply: string): Result<(Message, Option<Status>), CodecError>
    requires p.framing.Headers?
  {
    match HeaderBlock.ParseBlock(p.body[..p.framing.headerBytes])
    case Error(e) => Error(InvalidBlock(e))
    case Ok((status, headers)) =>
      var message :- MessageOf(subject, reply, headers, p.body[p.framing.headerBytes..]);
      Ok((message, status))
  }

  function DecodeHpub(p: Packet): Result<Op, CodecError> {
    var w := Words(p.line);
    if !p.framing.Headers? then Error(InvalidOperation("HPUB"))
    else if |w| == 4 || |w| == 5 then
      var (message, status) :- HeaderMessage(p, w[1], if |w| == 5 then w[2] else "");
      Ok(Hpub(message, status))
    else Error(InvalidFieldCount("HPUB"))
  }

  function DecodeHmsg(p: Packet): Result<Op, CodecError> {
    var w := Words(p.line);
    if !p.framing.Headers? then Error(InvalidOperation("HMSG"))
    else if |w| == 5 || |w| == 6 then
      var sid :- ParseSid(w[2]);
      var (message, status) :- HeaderMessage(p, w[1], if |w| == 6 then w[3] else "");
      Ok(Hmsg(sid, message, status))
    else Error(InvalidFieldCount("HMSG"))
  }

  function Decode(p: Packet): Result<Op, CodecError> {
    var keyword := FirstWord(p.line);
    if keyword == "HMSG" then DecodeHmsg(p)
    else if keyword == "MSG" then DecodeMsg(p)
    else if keyword == "HPUB" then DecodeHpub(p)
    else if keyword == "PUB" then DecodePub(p)
    else if keyword == "UNSUB" then DecodeUnsub(p)
    else if keyword == "SUB" then DecodeSub(p)
    else if keyword == "INFO" then var json :- TextValue(p, keyword); Ok(Info(json))
    else if keyword == "CONNECT" then var json :- TextValue(p, keyword); Ok(Connect(json))
    else if keyword == "-ERR" then var text :- TextValue(p, keyword); Ok(ServerError(text))
    else if keyword == "PING" then var _ :- ExpectLine(p, keyword); Ok(Ping)
    else if keyword == "PONG" then var _ :- ExpectLine(p, keyword); Ok(Pong)
    else if keyword == "+OK" then var _ :- ExpectLine(p, keyword); Ok(PlusOk)
    else Error(InvalidOperation(keyword))
  }

  // ---- Encoding ----

  function SidSuffix(sid: Option<int>): string {
    if sid.None? then "" else " " + Decimal.PrintInt(sid.value)
  }

  function ReplySuffix(reply: Option<Subject.Subject>): string {
    if reply.None? then "" else " " + reply.value
  }

  /** The line of a message operation, up to the sizes it ends with. */
  function MessageLine(keyword: string, sid: Option<int>, m: Message, sizes: string): string {
    keyword + (" " + (m.subject + (SidSuffix(sid) + (ReplySuffix(m.replyTo) + sizes))))
  }

  function PayloadOutput(keyword: string, sid: Option<int>, m: Message): Packet {
    var size := |m.payload|;
    Packet(MessageLine(keyword, sid, m, " " + Decimal.Print(size)), m.payload, Payload(size))
  }

  function HeadersPacket(keyword: string, sid: Option<int>, m: Message, block: string): Packet {
    var head, total := |block|, |block| + |m.payload|;
    Packet(MessageLine(keyword, sid, m, " " + (Decimal.Print(head) + (" " + Decimal.Print(total)))),
           block + m.payload, Headers(head, total))
  }

  function HeadersOutput(keyword: string, sid: Option<int>, m: Message, status: Option<Status>): Packet {
    HeadersPacket(keyword, sid, m, HeaderBlock.Block(status, m.headers))
  }

  function TextOutput(keyword: string, text: string): Result<Packet, CodecError> {
    if |text| == 0 || LineBreak(text) then Error(InvalidValue(keyword))
    else Ok(Packet(keyword + (" " + text), "", Line))
  }

  function SubLine(subject: string, queueGroup: Option<Subject.Subject>, sid: int): string {
    "SUB" + (" " + (subject + (ReplySuffix(queueGroup) + (" " + Decimal.PrintInt(sid)))))
  }

  function UnsubLine(sid: int, max: Option<int>): string {
    "UNSUB" + (" " + (Decimal.PrintInt(sid) + SidSuffix(max)))
  }

  /** The line, body and framing an operation is sent as. */
  function MakeOutput(op: Op): Result<Packet, CodecError> {
    match op
    case Info(json) => TextOutput("INFO", json)
    case Connect(json) => TextOutput("CONNECT", json)
    case Pub(m) => if m.headers != [] then Error(MessageHasHeaders) else Ok(PayloadOutput("PUB", None, m))
    case Hpub(m, status) =>
      if !HeaderBlock.ValidStatus(status) then Error(InvalidStatus) else Ok(HeadersOutput("HPUB", None, m, status))
    case Sub(subject, queueGroup, sid) =>
      if sid <= 0 then Error(InvalidSid(Decimal.PrintInt(sid)))
      else Ok(Packet(SubLine(subject, queueGroup, sid), "", Line))
    case Unsub(sid, max) =>
      if sid <= 0 then Error(InvalidSid(Decimal.PrintInt(sid)))
      else if max.Some? && max.value < 0 then Error(InvalidMaxMessages(Decimal.PrintInt(max.value)))
      else Ok(Packet(UnsubLine(sid, max), "", Line))
    case Msg(sid, m) =>
      if sid <= 0 then Error(InvalidSid(Decimal.PrintInt(sid)))
      else if m.headers != [] then Error(MessageHasHeaders)
      else Ok(PayloadOutput("MSG", Some(sid), m))
    case Hmsg(sid, m, status) =>
      if sid <= 0 then Error(InvalidSid(Decimal.PrintInt(sid)))
      else if !HeaderBlock.ValidStatus(status) then Error(InvalidStatus)
      else Ok(HeadersOutput("HMSG", Some(sid), m, status))
    case Ping => Ok(Packet("PING", "", Line))
    case Pong => Ok(Packet("PONG", "", Line))
    case PlusOk => Ok(Packet("+OK", "", Line))
    case ServerError(text) => TextOutput("-ERR", text)
  }

  /** The limit an output breaks, if any; header and payload together count against the payload bound. */
  function CheckLimits(limits: Limits, out: Packet): Option<CodecError> {
    var headerBytes := if out.framing.Headers? then out.framing.headerBytes else 0;
    var size := WireSize(|out.line|, out.framing);
    if !ValidLimits(limits) then Some(BadLimits)
    else if |out.line| > limits.maxLine then Some(PacketFailure(LineTooLong(limits.maxLine)))
    else if headerBytes > limits.maxHeader then Some(PacketFailure(HeadersTooLarge(headerBytes, limits.maxHeader)))
    else if BodyLength(out.framing) > limits.maxPayload then
      Some(PacketFailure(PayloadTooLarge(BodyLength(out.framing), limits.maxPayload)))
    else if size > limits.maxPacket then Some(PacketFailure(PacketTooLarge(size, limits.maxPacket)))
    else None
  }

  function Encode(limits: Limits, op: Op): Result<string, CodecError> {
    var out :- MakeOutput(op);
    match CheckLimits(limits, out)
    case Some(e) => Error(e)
    case None => Ok(ToString(out))
  }

  /** One `Codec.read` of the reader's slices. */
  function ReadOp(slices: seq<string>, eod: bool, limits: Limits): (Result<Op, CodecError>, seq<string>) {
    var (result, rest) := Read(slices, eod, limits);
    match result
    case Ok(packet) => (Decode(packet), rest)
    case Error(e) => (Error(PacketFailure(e)), rest)
  }
}
