/** What goes on the wire for each operation, word by word, and when nothing does. */
module Wording {
  import opened Base
  import opened Text
  import Decimal
  import Subject
  import HeaderBlock
  import opened Op
  import opened Packet
  import opened Codec
  import RoundTrip

  function OneWord(name: Option<Subject.Subject>): seq<string> {
    if name.None? then [] else [name.value]
  }

  function CountWord(count: Option<int>): seq<string> {
    if count.None? then [] else [Decimal.PrintInt(count.value)]
  }

  /** The header block of an operation that has one. */
  function BlockOf(op: Op): string {
    match op
    case Hpub(m, status) => HeaderBlock.Block(status, m.headers)
    case Hmsg(_, m, status) => HeaderBlock.Block(status, m.headers)
    case _ => ""
  }

  function BodyOf(op: Op): string {
    BodyWith(op, BlockOf(op))
  }

  function BodyWith(op: Op, block: string): string {
    match op
    case Pub(m) => m.payload
    case Msg(_, m) => m.payload
    case Hpub(m, _) => block + m.payload
    case Hmsg(_, m, _) => block + m.payload
    case _ => ""
  }

  /** The words of the control line; INFO, CONNECT and -ERR carry a text instead. */
  function LineWords(op: Op): seq<string> {
    WordsWith(op, |BlockOf(op)|, |BodyOf(op)|)
  }

  function WordsWith(op: Op, blockSize: nat, bodySize: nat): seq<string> {
    var size, block := Decimal.Print(bodySize), Decimal.Print(blockSize);
    match op
    case Info(text) => ["INFO", text]
    case Connect(text) => ["CONNECT", text]
    case ServerError(text) => ["-ERR", text]
    case Pub(m) => ["PUB", m.subject] + (OneWord(m.replyTo) + [size])
    case Hpub(m, _) => ["HPUB", m.subject] + (OneWord(m.replyTo) + [block, size])
    case Msg(sid, m) => ["MSG", m.subject, Decimal.PrintInt(sid)] + (OneWord(m.replyTo) + [size])
    case Hmsg(sid, m, _) => ["HMSG", m.subject, Decimal.PrintInt(sid)] + (OneWord(m.replyTo) + [block, size])
    case Sub(subject, queueGroup, sid) => ["SUB", subject] + (OneWord(queueGroup) + [Decimal.PrintInt(sid)])
    case Unsub(sid, max) => ["UNSUB", Decimal.PrintInt(sid)] + CountWord(max)
    case Ping => ["PING"]
    case Pong => ["PONG"]
    case PlusOk => ["+OK"]
  }

  predicate HasBody(op: Op) {
    op.Pub? || op.Hpub? || op.Msg? || op.Hmsg?
  }

  /** The words with one space between them, a CRLF, and the body with another. */
  function WireText(op: Op): string {
    Join(LineWords(op), ' ') + "\r\n" + if HasBody(op) then BodyOf(op) + "\r\n" else ""
  }

  // ---- Operations that cannot be sent ----

  predicate TextFault(text: string) {
    text == "" || '\r' in text || '\n' in text
  }

  predicate StatusFault(status: Option<Status>) {
    status.Some? && !(100 <= status.value.code <= 999 && '\r' !in status.value.description && '\n' !in status.value.description)
  }

  function SidFault(sid: int): Option<CodecError> {
    if sid <= 0 then Some(InvalidSid(Decimal.PrintInt(sid))) else None
  }

  /** What is wrong with an operation itself. */
  function OpFault(op: Op): Option<CodecError> {
    match op
    case Info(text) => if TextFault(text) then Some(InvalidValue("INFO")) else None
    case Connect(text) => if TextFault(text) then Some(InvalidValue("CONNECT")) else None
    case ServerError(text) => if TextFault(text) then Some(InvalidValue("-ERR")) else None
    case Pub(m) => if m.headers != [] then Some(MessageHasHeaders) else None
    case Hpub(_, status) => if StatusFault(status) then Some(InvalidStatus) else None
    case Sub(_, _, sid) => SidFault(sid)
    case Unsub(sid, max) =>
      if SidFault(sid).Some? then SidFault(sid)
      else if max.Some? && max.value < 0 then Some(InvalidMaxMessages(Decimal.PrintInt(max.value))) else None
    case Msg(sid, m) =>
      if SidFault(sid).Some? then SidFault(sid) else if m.headers != [] then Some(MessageHasHeaders) else None
    case Hmsg(sid, _, status) =>
      if SidFault(sid).Some? then SidFault(sid) else if StatusFault(status) then Some(InvalidStatus) else None
    case Ping | Pong | PlusOk => None
  }

  /** What is wrong with its size; header block and payload count against the payload bound together. */
  function SizeFault(limits: Limits, op: Op): Option<CodecError> {
    var line := |Join(LineWords(op), ' ')|;
    if limits.maxLine <= 0 || limits.maxHeader <= 0 || limits.maxPayload < 0 || limits.maxPacket <= 0 then Some(BadLimits)
    else if line > limits.maxLine then Some(PacketFailure(LineTooLong(limits.maxLine)))
    else if |BlockOf(op)| > limits.maxHeader then
      Some(PacketFailure(HeadersTooLarge(|BlockOf(op)|, limits.maxHeader)))
    else if |BodyOf(op)| > limits.maxPayload then
      Some(PacketFailure(PayloadTooLarge(|BodyOf(op)|, limits.maxPayload)))
    else if |WireText(op)| > limits.maxPacket then
      Some(PacketFailure(PacketTooLarge(|WireText(op)|, limits.maxPacket)))
    else None
  }

  // ---- The encoder ----

  lemma {:induction false} JoinSpaced(first: string, words: seq<string>)
    ensures Join([first] + words, ' ') == first + RoundTrip.Spaced(words)
    decreases words
  {
    if words == [] {
      assert [first] + words == [first];
      assert first + RoundTrip.Spaced([]) == first;
    } else {
      JoinSpaced(words[0], words[1..]);
      assert ([first] + words)[1..] == words && [words[0]] + words[1..] == words;
      assert first + [' '] + Join(words, ' ') == first + (" " + Join(words, ' '));
    }
  }

  /** The packet made for an operation is what its words and body make. */
  predicate Worded(out: Packet, op: Op) {
    WordedWith(out, op, BlockOf(op))
  }

  lemma MessageJoined(keyword: string, sid: Option<int>, m: Message, sizes: seq<string>)
    ensures MessageLine(keyword, sid, m, RoundTrip.Spaced(sizes)) ==
            Join([keyword] + ([m.subject] + (CountWord(sid) + (OneWord(m.replyTo) + sizes))), ' ')
  {
    RoundTrip.MessageSpaced(keyword, sid, m, sizes);
    JoinSpaced(keyword, [m.subject] + (CountWord(sid) + (OneWord(m.replyTo) + sizes)));
    assert RoundTrip.SidWords(sid) == CountWord(sid) && RoundTrip.ReplyWords(m.replyTo) == OneWord(m.replyTo);
  }

  lemma PayloadWorded(keyword: string, sid: Option<int>, m: Message)
    ensures PayloadOutput(keyword, sid, m).line ==
            Join([keyword] + ([m.subject] + (CountWord(sid) + (OneWord(m.replyTo) + [Decimal.Print(|m.payload|)]))), ' ')
  {
    RoundTrip.SpacedOne(Decimal.Print(|m.payload|));
    MessageJoined(keyword, sid, m, [Decimal.Print(|m.payload|)]);
  }

  lemma HeadersWorded(keyword: string, sid: Option<int>, m: Message, block: string, sizes: seq<string>)
    requires sizes == [Decimal.Print(|block|), Decimal.Print(|block| + |m.payload|)]
    ensures HeadersPacket(keyword, sid, m, block).line ==
            Join([keyword] + ([m.subject] + (CountWord(sid) + (OneWord(m.replyTo) + sizes))), ' ')
  {
    RoundTrip.PacketText(keyword, sid, m, block);
    MessageJoined(keyword, sid, m, sizes);
  }

  lemma Flatter(keyword: string, subject: string, sid: Option<int>, tail: seq<string>)
    ensures [keyword] + ([subject] + (CountWord(sid) + tail)) ==
            (if sid.None? then [keyword, subject] else [keyword, subject, Decimal.PrintInt(sid.value)]) + tail
  {
  }

  /** The packet made with a given header block. */
  predicate WordedWith(out: Packet, op: Op, block: string) {
    && out.line == Join(WordsWith(op, |block|, |BodyWith(op, block)|), ' ') && out.body == BodyWith(op, block)
    && out.framing == if op.Pub? || op.Msg? then Payload(|BodyWith(op, block)|)
                      else if op.Hpub? || op.Hmsg? then Headers(|block|, |BodyWith(op, block)|) else Line
  }

  lemma PubWorded(m: Message)
    ensures WordedWith(PayloadOutput("PUB", None, m), Pub(m), "")
  {
    PayloadWorded("PUB", None, m);
    Flatter("PUB", m.subject, None, OneWord(m.replyTo) + [Decimal.Print(|m.payload|)]);
  }

  lemma MsgWorded(sid: int, m: Message)
    ensures WordedWith(PayloadOutput("MSG", Some(sid), m), Msg(sid, m), "")
  {
    PayloadWorded("MSG", Some(sid), m);
    Flatter("MSG", m.subject, Some(sid), OneWord(m.replyTo) + [Decimal.Print(|m.payload|)]);
  }

  lemma HpubWords(m: Message, status: Option<Status>, block: nat, size: nat)
    ensures ["HPUB"] + ([m.subject] + (CountWord(None) + (OneWord(m.replyTo) + [Decimal.Print(block), Decimal.Print(size)])))
            == WordsWith(Hpub(m, status), block, size)
  {
    Flatter("HPUB", m.subject, None, OneWord(m.replyTo) + [Decimal.Print(block), Decimal.Print(size)]);
  }

  lemma HpubWorded(m: Message, status: Option<Status>, block: string)
    ensures WordedWith(HeadersPacket("HPUB", None, m, block), Hpub(m, status), block)
  {
    HeadersWorded("HPUB", None, m, block, [Decimal.Print(|block|), Decimal.Print(|block| + |m.payload|)]);
    HpubWords(m, status, |block|, |block| + |m.payload|);
  }

  lemma HmsgWords(sid: int, m: Message, status: Option<Status>, block: nat, size: nat)
    ensures ["HMSG"] + ([m.subject] + (CountWord(Some(sid)) + (OneWord(m.replyTo) + [Decimal.Print(block), Decimal.Print(size)])))
            == WordsWith(Hmsg(sid, m, status), block, size)
  {
    Flatter("HMSG", m.subject, Some(sid), OneWord(m.replyTo) + [Decimal.Print(block), Decimal.Print(size)]);
  }

  lemma HmsgWorded(sid: int, m: Message, status: Option<Status>, block: string)
    ensures WordedWith(HeadersPacket("HMSG", Some(sid), m, block), Hmsg(sid, m, status), block)
  {
    HeadersWorded("HMSG", Some(sid), m, block, [Decimal.Print(|block|), Decimal.Print(|block| + |m.payload|)]);
    HmsgWords(sid, m, status, |block|, |block| + |m.payload|);
  }

  lemma SubWorded(subject: Subject.Filter, queueGroup: Option<Subject.Subject>, sid: int)
    ensures SubLine(subject, queueGroup, sid) == Join(LineWords(Sub(subject, queueGroup, sid)), ' ')
  {
    var number := Decimal.PrintInt(sid);
    RoundTrip.SpacedOne(number);
    RoundTrip.ReplySpaced(queueGroup, [number]);
    RoundTrip.SpacedCons(subject, OneWord(queueGroup) + [number]);
    JoinSpaced("SUB", [subject] + (OneWord(queueGroup) + [number]));
    assert RoundTrip.ReplyWords(queueGroup) == OneWord(queueGroup);
    assert ["SUB"] + ([subject] + (OneWord(queueGroup) + [number])) == LineWords(Sub(subject, queueGroup, sid));
  }

  lemma UnsubWorded(sid: int, max: Option<int>)
    ensures UnsubLine(sid, max) == Join(LineWords(Unsub(sid, max)), ' ')
  {
    var number := Decimal.PrintInt(sid);
    RoundTrip.SidSpaced(max, []);
    assert SidSuffix(max) + "" == SidSuffix(max);
    RoundTrip.SpacedCons(number, CountWord(max) + []);
    JoinSpaced("UNSUB", [number] + (CountWord(max) + []));
    assert RoundTrip.SidWords(max) == CountWord(max);
    assert ["UNSUB"] + ([number] + (CountWord(max) + [])) == LineWords(Unsub(sid, max));
  }

  lemma TextWorded(keyword: string, text: string)
    ensures Join([keyword, text], ' ') == keyword + (" " + text)
  {
    JoinSpaced(keyword, [text]);
    RoundTrip.SpacedOne(text);
    assert [keyword] + [text] == [keyword, text];
  }

  lemma TextMade(keyword: string, text: string)
    ensures TextOutput(keyword, text) ==
            if TextFault(text) then Error(InvalidValue(keyword)) else Ok(Packet(Join([keyword, text], ' '), "", Line))
  {
    TextWorded(keyword, text);
  }

  lemma TextsMade(op: Op)
    requires op.Info? || op.Connect? || op.ServerError?
    ensures match OpFault(op)
            case Some(e) => MakeOutput(op) == Error(e)
            case None => MakeOutput(op).Ok? && WordedWith(MakeOutput(op).value, op, "")
  {
    match op
    case Info(text) => TextMade("INFO", text);
    case Connect(text) => TextMade("CONNECT", text);
    case ServerError(text) => TextMade("-ERR", text);
  }

  lemma LinesMade(op: Op)
    requires op.Sub? || op.Unsub? || op.Ping? || op.Pong? || op.PlusOk?
    ensures match OpFault(op)
            case Some(e) => MakeOutput(op) == Error(e)
            case None => MakeOutput(op).Ok? && WordedWith(MakeOutput(op).value, op, "")
  {
    match op
    case Sub(subject, queueGroup, sid) => SubWorded(subject, queueGroup, sid);
    case Unsub(sid, max) => UnsubWorded(sid, max);
    case _ =>
  }

  lemma PayloadsMade(op: Op)
    requires op.Pub? || op.Msg?
    ensures match OpFault(op)
            case Some(e) => MakeOutput(op) == Error(e)
            case None => MakeOutput(op).Ok? && WordedWith(MakeOutput(op).value, op, "")
  {
    match op
    case Pub(m) => PubWorded(m);
    case Msg(sid, m) => MsgWorded(sid, m);
  }

  lemma StatusChecked(status: Option<Status>)
    ensures HeaderBlock.ValidStatus(status) <==> !StatusFault(status)
  {
  }

  lemma HpubMade(m: Message, status: Option<Status>)
    ensures MakeOutput(Hpub(m, status)) ==
            if StatusFault(status) then Error(InvalidStatus)
            else Ok(HeadersPacket("HPUB", None, m, BlockOf(Hpub(m, status))))
  {
    StatusChecked(status);
  }

  lemma HmsgMade(sid: int, m: Message, status: Option<Status>)
    ensures MakeOutput(Hmsg(sid, m, status)) ==
            if sid <= 0 then Error(InvalidSid(Decimal.PrintInt(sid)))
            else if StatusFault(status) then Error(InvalidStatus)
            else Ok(HeadersPacket("HMSG", Some(sid), m, BlockOf(Hmsg(sid, m, status))))
  {
    StatusChecked(status);
  }

  lemma HeadersMade(op: Op, block: string)
    requires (op.Hpub? || op.Hmsg?) && block == BlockOf(op)
    ensures match OpFault(op)
            case Some(e) => MakeOutput(op) == Error(e)
            case None => MakeOutput(op).Ok? && WordedWith(MakeOutput(op).value, op, block)
  {
    match op
    case Hpub(m, status) =>
      HpubMade(m, status);
      HpubWorded(m, status, block);
    case Hmsg(sid, m, status) =>
      HmsgMade(sid, m, status);
      HmsgWorded(sid, m, status, block);
  }

  /** An operation is made into a packet exactly when nothing is wrong with it. */
  lemma Made(op: Op)
    ensures match OpFault(op)
            case Some(e) => MakeOutput(op) == Error(e)
            case None => MakeOutput(op).Ok? && Worded(MakeOutput(op).value, op)
  {
    if op.Info? || op.Connect? || op.ServerError? {
      TextsMade(op);
    } else if op.Pub? || op.Msg? {
      PayloadsMade(op);
    } else if op.Hpub? || op.Hmsg? {
      HeadersMade(op, BlockOf(op));
    } else {
      LinesMade(op);
    }
  }

  lemma WordedText(out: Packet, op: Op)
    requires Worded(out, op)
    ensures ToString(out) == WireText(op) && WireSize(|out.line|, out.framing) == |WireText(op)|
  {
    if HasBody(op) {
      assert out.line + CRLF + out.body + CRLF == out.line + CRLF + (out.body + CRLF);
    } else {
      assert out.line + CRLF == out.line + "\r\n" + "";
    }
  }

  lemma WordedChecked(limits: Limits, out: Packet, op: Op)
    requires Worded(out, op)
    ensures CheckLimits(limits, out) == SizeFault(limits, op)
  {
    WordedText(out, op);
    assert !HasBody(op) ==> BlockOf(op) == "" && BodyOf(op) == "";
    assert op.Pub? || op.Msg? ==> BlockOf(op) == "";
  }

  /** Encoding gives the text of the operation if nothing is wrong with it or its size, and the first fault if
      something is. */
  lemma EncodeExactly(limits: Limits, op: Op)
    ensures Encode(limits, op) ==
            if OpFault(op).Some? then Error(OpFault(op).value)
            else if SizeFault(limits, op).Some? then Error(SizeFault(limits, op).value)
            else Ok(WireText(op))
  {
    Made(op);
    if OpFault(op).None? {
      WordedText(MakeOutput(op).value, op);
      WordedChecked(limits, MakeOutput(op).value, op);
    }
  }
}
