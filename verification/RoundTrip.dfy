/** Decoding undoes encoding, on the wire and under the same limits. */
module RoundTrip {
  import opened Base
  import opened Text
  import Decimal
  import Subject
  import Header
  import HeaderBlock
  import opened Op
  import opened Packet
  import opened Codec

  // ---- Lines as spaced words ----

  function Spaced(words: seq<string>): string {
    if words == [] then "" else " " + (words[0] + Spaced(words[1..]))
  }

  predicate Word(w: string) {
    ' ' !in w && '\r' !in w && '\n' !in w
  }

  lemma SpacedStep(first: string, tail: string, rest: seq<string>)
    requires Word(first) && Words(tail) == rest && !LineBreak(tail)
    ensures Words(first + (" " + tail)) == [first] + rest && !LineBreak(first + (" " + tail))
  {
    assert first + (" " + tail) == first + [' '] + tail;
    SplitCons(first, ' ', tail);
  }

  ghost predicate AllWords(words: seq<string>) {
    forall i :: 0 <= i < |words| ==> Word(words[i])
  }

  lemma AllWordsPlus(a: seq<string>, b: seq<string>)
    requires AllWords(a) && AllWords(b)
    ensures AllWords(a + b)
  {
  }

  lemma {:induction false} SpacedWords(first: string, words: seq<string>)
    requires Word(first) && AllWords(words)
    ensures Words(first + Spaced(words)) == [first] + words
    ensures !LineBreak(first + Spaced(words))
    decreases words
  {
    if words == [] {
      assert first + Spaced(words) == first;
      SplitOne(first, ' ');
    } else {
      SpacedWords(words[0], words[1..]);
      SpacedStep(first, words[0] + Spaced(words[1..]), words);
    }
  }

  function OptionalWord(w: Option<string>): seq<string> {
    if w.None? then [] else [w.value]
  }

  lemma SpacedCons(w: string, words: seq<string>)
    ensures Spaced([w] + words) == " " + (w + Spaced(words))
  {
    assert ([w] + words)[1..] == words;
  }

  lemma SpacedOptional(w: Option<string>, words: seq<string>)
    ensures Spaced(OptionalWord(w) + words) == (if w.None? then "" else " " + w.value) + Spaced(words)
  {
    if w.None? {
      assert OptionalWord(w) + words == words;
    } else {
      SpacedCons(w.value, words);
      Assoc(" ", w.value, Spaced(words));
    }
  }

  lemma SpacedOne(w: string)
    ensures Spaced([w]) == " " + w
  {
    assert [w][1..] == [];
    assert w + Spaced([]) == w;
  }

  lemma NumberWord(n: nat)
    ensures Word(Decimal.Print(n))
  {
    Decimal.DigitsAvoid(Decimal.Print(n), ' ');
    Decimal.DigitsAvoid(Decimal.Print(n), '\r');
    Decimal.DigitsAvoid(Decimal.Print(n), '\n');
  }

  lemma SubjectWord(s: Subject.Subject)
    ensures Word(s) && s != "" && SubjectOf(s) == Ok(s) && ReplyOf(s) == Ok(Some(s))
  {
    Subject.NameChars(false, s);
  }

  lemma FilterWord(s: Subject.Filter)
    ensures Word(s) && FilterOf(s) == Ok(s)
  {
    Subject.NameChars(true, s);
  }

  lemma SidWord(sid: int)
    requires 0 < sid
    ensures Word(Decimal.PrintInt(sid)) && (sid <= MAX_INT ==> ParseSid(Decimal.PrintInt(sid)) == Ok(sid))
  {
    NumberWord(sid);
    Decimal.ParsePrint(sid);
  }

  /** A line whose words are known. */
  ghost predicate HasWords(line: string, words: seq<string>) {
    Words(line) == words && !LineBreak(line) && FirstWord(line) == words[0]
  }

  lemma SpacedHasWords(line: string, first: string, words: seq<string>)
    requires line == first + Spaced(words)
    requires Word(first) && AllWords(words)
    ensures HasWords(line, [first] + words)
  {
    SpacedWords(first, words);
    FirstWordIsFirst(line);
  }

  // ---- The words of each line ----

  function SidWords(sid: Option<int>): seq<string> {
    if sid.None? then [] else [Decimal.PrintInt(sid.value)]
  }

  function ReplyWords(reply: Option<Subject.Subject>): seq<string> {
    if reply.None? then [] else [reply.value]
  }

  lemma SidSpaced(sid: Option<int>, words: seq<string>)
    ensures SidSuffix(sid) + Spaced(words) == Spaced(SidWords(sid) + words)
  {
    SpacedOptional(if sid.None? then None else Some(Decimal.PrintInt(sid.value)), words);
  }

  lemma ReplySpaced(reply: Option<Subject.Subject>, words: seq<string>)
    ensures ReplySuffix(reply) + Spaced(words) == Spaced(ReplyWords(reply) + words)
  {
    SpacedOptional(if reply.None? then None else Some(reply.value), words);
  }

  /** The words of a message operation's line, given the sizes it ends with. */
  ghost predicate MessageWords(line: string, keyword: string, sid: Option<int>, m: Message, sizes: seq<string>) {
    !LineBreak(line) && FirstWord(line) == keyword && Shape(Words(line), sid, m, sizes)
  }

  ghost predicate Shape(w: seq<string>, sid: Option<int>, m: Message, sizes: seq<string>) {
    var sids, replies := |SidWords(sid)|, |ReplyWords(m.replyTo)|;
    && |w| == 2 + sids + replies + |sizes|
    && w[1] == m.subject
    && (sid.Some? ==> w[2] == Decimal.PrintInt(sid.value))
    && (m.replyTo.Some? ==> w[2 + sids] == m.replyTo.value)
    && (|sizes| >= 1 ==> w[|w| - 1] == sizes[|sizes| - 1])
    && (|sizes| >= 2 ==> w[|w| - 2] == sizes[|sizes| - 2])
  }

  lemma ShapeOf(keyword: string, sid: Option<int>, m: Message, sizes: seq<string>)
    ensures Shape([keyword] + ([m.subject] + (SidWords(sid) + (ReplyWords(m.replyTo) + sizes))), sid, m, sizes)
  {
    var tail := ReplyWords(m.replyTo) + sizes;
    var rest := SidWords(sid) + tail;
    assert sid.Some? ==> rest[0] == Decimal.PrintInt(sid.value);
    assert m.replyTo.Some? ==> rest[|SidWords(sid)|] == tail[0];
  }

  lemma MessageSpaced(keyword: string, sid: Option<int>, m: Message, sizes: seq<string>)
    ensures MessageLine(keyword, sid, m, Spaced(sizes)) ==
            keyword + Spaced([m.subject] + (SidWords(sid) + (ReplyWords(m.replyTo) + sizes)))
  {
    ReplySpaced(m.replyTo, sizes);
    SidSpaced(sid, ReplyWords(m.replyTo) + sizes);
    SpacedCons(m.subject, SidWords(sid) + (ReplyWords(m.replyTo) + sizes));
  }

  lemma MessageWordsAre(keyword: string, sid: Option<int>, m: Message, sizes: seq<string>)
    requires Word(keyword) && (sid.Some? ==> sid.value > 0) && AllWords(sizes)
    ensures MessageWords(MessageLine(keyword, sid, m, Spaced(sizes)), keyword, sid, m, sizes)
  {
    var words := [m.subject] + (SidWords(sid) + (ReplyWords(m.replyTo) + sizes));
    MessageSpaced(keyword, sid, m, sizes);
    SubjectWord(m.subject);
    if m.replyTo.Some? {
      SubjectWord(m.replyTo.value);
    }
    if sid.Some? {
      SidWord(sid.value);
    }
    AllWordsPlus(ReplyWords(m.replyTo), sizes);
    AllWordsPlus(SidWords(sid), ReplyWords(m.replyTo) + sizes);
    AllWordsPlus([m.subject], SidWords(sid) + (ReplyWords(m.replyTo) + sizes));
    SpacedHasWords(keyword + Spaced(words), keyword, words);
    ShapeOf(keyword, sid, m, sizes);
  }

  lemma MessageDecodes(m: Message, headers: Header.Headers, payload: string)
    requires headers == m.headers && payload == m.payload
    ensures MessageOf(m.subject, if m.replyTo.Some? then m.replyTo.value else "", headers, payload) == Ok(m)
  {
    SubjectWord(m.subject);
    if m.replyTo.Some? {
      SubjectWord(m.replyTo.value);
    }
  }

  // ---- Each kind of output ----

  /** Classification finds the framing the output was made with, and decoding finds the operation. */
  ghost predicate Faithful(out: Packet, op: Op, limits: Limits) {
    && !LineBreak(out.line)
    && Classify(out.line, limits) == Ok(out.framing)
    && Decode(out) == Ok(op)
  }

  lemma DecodesPub(p: Packet)
    requires FirstWord(p.line) == "PUB"
    ensures Decode(p) == DecodePub(p)
  {
  }

  lemma DecodesMsg(p: Packet)
    requires FirstWord(p.line) == "MSG"
    ensures Decode(p) == DecodeMsg(p)
  {
  }

  lemma DecodesHpub(p: Packet)
    requires FirstWord(p.line) == "HPUB"
    ensures Decode(p) == DecodeHpub(p)
  {
  }

  lemma DecodesHmsg(p: Packet)
    requires FirstWord(p.line) == "HMSG"
    ensures Decode(p) == DecodeHmsg(p)
  {
  }

  lemma PayloadLine(keyword: string, sid: Option<int>, m: Message)
    requires Word(keyword) && (sid.Some? ==> sid.value > 0)
    ensures MessageWords(PayloadOutput(keyword, sid, m).line, keyword, sid, m, [Decimal.Print(|m.payload|)])
  {
    NumberWord(|m.payload|);
    SpacedOne(Decimal.Print(|m.payload|));
    MessageWordsAre(keyword, sid, m, [Decimal.Print(|m.payload|)]);
  }

  lemma PayloadFramed(keyword: string, out: Packet, limits: Limits)
    requires out.framing.Payload? && CheckLimits(limits, out).None?
    ensures PayloadFraming(keyword, Decimal.Print(out.framing.bytes), limits) == Ok(out.framing)
  {
    Decimal.ParsePrint(out.framing.bytes);
  }

  lemma HeadersFramed(keyword: string, out: Packet, limits: Limits)
    requires out.framing.Headers? && CheckLimits(limits, out).None?
    ensures HeadersFraming(keyword, Decimal.Print(out.framing.headerBytes), Decimal.Print(out.framing.totalBytes), limits)
            == Ok(out.framing)
  {
    Decimal.ParsePrint(out.framing.headerBytes);
    Decimal.ParsePrint(out.framing.totalBytes);
  }

  /** The words of a message line with their number right are classified by the last ones. */
  lemma LastWords(w: seq<string>, limits: Limits)
    ensures 3 <= |w| <= 4 ==> ClassifyWords("PUB", w, limits) == PayloadFraming("PUB", w[|w| - 1], limits)
    ensures 4 <= |w| <= 5 ==> ClassifyWords("MSG", w, limits) == PayloadFraming("MSG", w[|w| - 1], limits)
    ensures 4 <= |w| <= 5 ==> ClassifyWords("HPUB", w, limits) == HeadersFraming("HPUB", w[|w| - 2], w[|w| - 1], limits)
    ensures 5 <= |w| <= 6 ==> ClassifyWords("HMSG", w, limits) == HeadersFraming("HMSG", w[|w| - 2], w[|w| - 1], limits)
  {
  }

  lemma PubClassified(out: Packet, m: Message, limits: Limits)
    requires out.framing.Payload? && MessageWords(out.line, "PUB", None, m, [Decimal.Print(out.framing.bytes)])
    requires CheckLimits(limits, out).None?
    ensures Classify(out.line, limits) == Ok(out.framing)
  {
    LastWords(Words(out.line), limits);
    PayloadFramed("PUB", out, limits);
  }

  lemma MsgClassified(out: Packet, sid: int, m: Message, limits: Limits)
    requires out.framing.Payload? && MessageWords(out.line, "MSG", Some(sid), m, [Decimal.Print(out.framing.bytes)])
    requires CheckLimits(limits, out).None?
    ensures Classify(out.line, limits) == Ok(out.framing)
  {
    LastWords(Words(out.line), limits);
    PayloadFramed("MSG", out, limits);
  }

  lemma PubDecoded(out: Packet, m: Message)
    requires out.framing.Payload? && MessageWords(out.line, "PUB", None, m, [Decimal.Print(out.framing.bytes)])
    requires out.body == m.payload && m.headers == [] && out.framing.bytes <= MAX_INT
    ensures Decode(out) == Ok(Pub(m))
  {
    Decimal.ParsePrint(out.framing.bytes);
    MessageDecodes(m, [], m.payload);
    DecodesPub(out);
  }

  lemma MsgDecoded(out: Packet, sid: int, m: Message)
    requires out.framing.Payload? && 0 < sid <= MAX_INT
    requires MessageWords(out.line, "MSG", Some(sid), m, [Decimal.Print(out.framing.bytes)])
    requires out.body == m.payload && m.headers == []
    ensures Decode(out) == Ok(Msg(sid, m))
  {
    MessageDecodes(m, [], m.payload);
    SidWord(sid);
    DecodesMsg(out);
  }

  lemma PubFaithful(m: Message, limits: Limits)
    requires m.headers == [] && CheckLimits(limits, PayloadOutput("PUB", None, m)).None?
    ensures Faithful(PayloadOutput("PUB", None, m), Pub(m), limits)
  {
    var out := PayloadOutput("PUB", None, m);
    PayloadLine("PUB", None, m);
    PubClassified(out, m, limits);
    PubDecoded(out, m);
  }

  lemma MsgFaithful(sid: int, m: Message, limits: Limits)
    requires m.headers == [] && 0 < sid <= MAX_INT && CheckLimits(limits, PayloadOutput("MSG", Some(sid), m)).None?
    ensures Faithful(PayloadOutput("MSG", Some(sid), m), Msg(sid, m), limits)
  {
    var out := PayloadOutput("MSG", Some(sid), m);
    PayloadLine("MSG", Some(sid), m);
    MsgClassified(out, sid, m, limits);
    MsgDecoded(out, sid, m);
  }

  ghost function Sizes(out: Packet): seq<string>
    requires out.framing.Headers?
  {
    [Decimal.Print(out.framing.headerBytes), Decimal.Print(out.framing.totalBytes)]
  }

  lemma SizesSpaced(head: nat, total: nat)
    ensures Spaced([Decimal.Print(head), Decimal.Print(total)]) == " " + (Decimal.Print(head) + (" " + Decimal.Print(total)))
    ensures AllWords([Decimal.Print(head), Decimal.Print(total)])
  {
    var sizes := [Decimal.Print(head), Decimal.Print(total)];
    NumberWord(head);
    NumberWord(total);
    SpacedOne(sizes[1]);
    SpacedCons(sizes[0], [sizes[1]]);
    assert [sizes[0]] + [sizes[1]] == sizes;
  }

  lemma HeadersLine(keyword: string, sid: Option<int>, m: Message, status: Option<Status>)
    requires Word(keyword) && (sid.Some? ==> sid.value > 0)
    ensures var out := HeadersOutput(keyword, sid, m, status);
            MessageWords(out.line, keyword, sid, m, Sizes(out))
  {
    HeadersText(keyword, sid, m, status);
    MessageWordsAre(keyword, sid, m, Sizes(HeadersOutput(keyword, sid, m, status)));
  }

  lemma HeadersText(keyword: string, sid: Option<int>, m: Message, status: Option<Status>)
    ensures var out := HeadersOutput(keyword, sid, m, status);
            out.line == MessageLine(keyword, sid, m, Spaced(Sizes(out))) && AllWords(Sizes(out))
  {
    PacketText(keyword, sid, m, HeaderBlock.Block(status, m.headers));
  }

  lemma PacketText(keyword: string, sid: Option<int>, m: Message, block: string)
    ensures var out := HeadersPacket(keyword, sid, m, block);
            out.line == MessageLine(keyword, sid, m, Spaced(Sizes(out))) && AllWords(Sizes(out))
  {
    SizesSpaced(|block|, |block| + |m.payload|);
  }

  lemma HeadersDecode(keyword: string, sid: Option<int>, m: Message, status: Option<Status>)
    requires HeaderBlock.ValidStatus(status)
    ensures HeaderMessage(HeadersOutput(keyword, sid, m, status), m.subject, if m.replyTo.Some? then m.replyTo.value else "")
            == Ok((m, status))
  {
    var out := HeadersOutput(keyword, sid, m, status);
    var block := HeaderBlock.Block(status, m.headers);
    assert out.body[..|block|] == block && out.body[|block|..] == m.payload;
    HeaderBlock.BlockRoundTrip(status, m.headers);
    MessageDecodes(m, m.headers, m.payload);
  }

  /** The two sizes of a header packet are read back. */
  lemma HpubClassified(out: Packet, m: Message, limits: Limits)
    requires out.framing.Headers? && MessageWords(out.line, "HPUB", None, m, Sizes(out)) && CheckLimits(limits, out).None?
    ensures Classify(out.line, limits) == Ok(out.framing)
  {
    LastWords(Words(out.line), limits);
    HeadersFramed("HPUB", out, limits);
  }

  lemma HmsgClassified(out: Packet, sid: int, m: Message, limits: Limits)
    requires out.framing.Headers? && MessageWords(out.line, "HMSG", Some(sid), m, Sizes(out)) && CheckLimits(limits, out).None?
    ensures Classify(out.line, limits) == Ok(out.framing)
  {
    LastWords(Words(out.line), limits);
    HeadersFramed("HMSG", out, limits);
  }

  lemma HpubDecoded(out: Packet, m: Message, status: Option<Status>)
    requires out.framing.Headers? && MessageWords(out.line, "HPUB", None, m, Sizes(out))
    requires HeaderMessage(out, m.subject, if m.replyTo.Some? then m.replyTo.value else "") == Ok((m, status))
    ensures Decode(out) == Ok(Hpub(m, status))
  {
    DecodesHpub(out);
  }

  /** What the words of a message line with two sizes are, by position. */
  lemma HmsgWords(w: seq<string>, sid: int, m: Message, sizes: seq<string>)
    requires Shape(w, Some(sid), m, sizes) && |sizes| == 2
    ensures |w| == (if m.replyTo.Some? then 6 else 5) && w[1] == m.subject && w[2] == Decimal.PrintInt(sid)
    ensures (if |w| == 6 then w[3] else "") == (if m.replyTo.Some? then m.replyTo.value else "")
  {
  }

  lemma HmsgFields(p: Packet, sid: int, m: Message, status: Option<Status>)
    requires p.framing.Headers? && (|Words(p.line)| == 5 || |Words(p.line)| == 6) && ParseSid(Words(p.line)[2]) == Ok(sid)
    requires HeaderMessage(p, Words(p.line)[1], if |Words(p.line)| == 6 then Words(p.line)[3] else "") == Ok((m, status))
    ensures DecodeHmsg(p) == Ok(Hmsg(sid, m, status))
  {
  }

  lemma HmsgDecoded(out: Packet, sid: int, m: Message, status: Option<Status>)
    requires out.framing.Headers? && 0 < sid <= MAX_INT && MessageWords(out.line, "HMSG", Some(sid), m, Sizes(out))
    requires HeaderMessage(out, m.subject, if m.replyTo.Some? then m.replyTo.value else "") == Ok((m, status))
    ensures Decode(out) == Ok(Hmsg(sid, m, status))
  {
    SidWord(sid);
    HmsgWords(Words(out.line), sid, m, Sizes(out));
    HmsgFields(out, sid, m, status);
    DecodesHmsg(out);
  }

  lemma HpubFaithful(m: Message, status: Option<Status>, limits: Limits)
    requires HeaderBlock.ValidStatus(status) && CheckLimits(limits, HeadersOutput("HPUB", None, m, status)).None?
    ensures Faithful(HeadersOutput("HPUB", None, m, status), Hpub(m, status), limits)
  {
    var out := HeadersOutput("HPUB", None, m, status);
    HeadersLine("HPUB", None, m, status);
    HpubClassified(out, m, limits);
    HeadersDecode("HPUB", None, m, status);
    HpubDecoded(out, m, status);
  }

  lemma HmsgOutput(out: Packet, sid: int, m: Message, status: Option<Status>, limits: Limits)
    requires out.framing.Headers? && 0 < sid <= MAX_INT && MessageWords(out.line, "HMSG", Some(sid), m, Sizes(out))
    requires HeaderMessage(out, m.subject, if m.replyTo.Some? then m.replyTo.value else "") == Ok((m, status))
    requires CheckLimits(limits, out).None?
    ensures Faithful(out, Hmsg(sid, m, status), limits)
  {
    HmsgClassified(out, sid, m, limits);
    HmsgDecoded(out, sid, m, status);
  }

  lemma HmsgLine(sid: int, m: Message, status: Option<Status>)
    requires sid > 0
    ensures var out := HeadersOutput("HMSG", Some(sid), m, status);
            MessageWords(out.line, "HMSG", Some(sid), m, Sizes(out))
  {
    HeadersLine("HMSG", Some(sid), m, status);
  }

  lemma HmsgFaithful(sid: int, m: Message, status: Option<Status>, limits: Limits)
    requires HeaderBlock.ValidStatus(status) && 0 < sid <= MAX_INT
    requires CheckLimits(limits, HeadersOutput("HMSG", Some(sid), m, status)).None?
    ensures Faithful(HeadersOutput("HMSG", Some(sid), m, status), Hmsg(sid, m, status), limits)
  {
    HmsgLine(sid, m, status);
    HeadersDecode("HMSG", Some(sid), m, status);
    HmsgOutput(HeadersOutput("HMSG", Some(sid), m, status), sid, m, status, limits);
  }

  lemma SubOutputFaithful(op: Op, limits: Limits)
    requires op.Sub? && MakeOutput(op).Ok? && Representable(op)
    ensures Faithful(MakeOutput(op).value, op, limits)
  {
    var sid := Decimal.PrintInt(op.sid);
    SidWord(op.sid);
    FilterWord(op.subject);
    if op.queueGroup.Some? {
      SubjectWord(op.queueGroup.value);
    }
    SpacedOne(sid);
    ReplySpaced(op.queueGroup, [sid]);
    SpacedCons(op.subject, ReplyWords(op.queueGroup) + [sid]);
    SpacedHasWords(SubLine(op.subject, op.queueGroup, op.sid), "SUB", [op.subject] + (ReplyWords(op.queueGroup) + [sid]));
  }

  lemma UnsubOutputFaithful(op: Op, limits: Limits)
    requires op.Unsub? && MakeOutput(op).Ok? && Representable(op)
    ensures Faithful(MakeOutput(op).value, op, limits)
  {
    var sid := Decimal.PrintInt(op.sid);
    SidWord(op.sid);
    if op.maxMessages.Some? {
      NumberWord(op.maxMessages.value);
      Decimal.ParsePrint(op.maxMessages.value);
    }
    SidSpaced(op.maxMessages, []);
    assert SidSuffix(op.maxMessages) + "" == SidSuffix(op.maxMessages);
    SpacedCons(sid, SidWords(op.maxMessages) + []);
    SpacedHasWords(UnsubLine(op.sid, op.maxMessages), "UNSUB", [sid] + (SidWords(op.maxMessages) + []));
  }

  lemma TextLine(keyword: string, text: string, line: string)
    requires Word(keyword) && line == keyword + (" " + text) && !LineBreak(text)
    ensures FirstWord(line) == keyword && Rest(line, keyword) == Some(text) && !LineBreak(line)
  {
    assert line == keyword + [' '] + text;
    IndexAfter(keyword, ' ', text);
    assert line[..|keyword|] == keyword && line[|keyword| + 1..] == text;
  }

  lemma InfoFaithful(json: string, limits: Limits)
    requires TextOutput("INFO", json).Ok?
    ensures Faithful(TextOutput("INFO", json).value, Info(json), limits)
  {
    TextLine("INFO", json, TextOutput("INFO", json).value.line);
  }

  lemma ConnectFaithful(json: string, limits: Limits)
    requires TextOutput("CONNECT", json).Ok?
    ensures Faithful(TextOutput("CONNECT", json).value, Connect(json), limits)
  {
    TextLine("CONNECT", json, TextOutput("CONNECT", json).value.line);
  }

  lemma ServerErrorFaithful(text: string, limits: Limits)
    requires TextOutput("-ERR", text).Ok?
    ensures Faithful(TextOutput("-ERR", text).value, ServerError(text), limits)
  {
    TextLine("-ERR", text, TextOutput("-ERR", text).value.line);
  }

  lemma BareLine(line: string)
    requires Word(line)
    ensures FirstWord(line) == line && !LineBreak(line)
  {
  }

  lemma PingFaithful(limits: Limits)
    ensures Faithful(Packet("PING", "", Line), Ping, limits)
  {
    BareLine("PING");
  }

  lemma PongFaithful(limits: Limits)
    ensures Faithful(Packet("PONG", "", Line), Pong, limits)
  {
    BareLine("PONG");
  }

  lemma OkFaithful(limits: Limits)
    ensures Faithful(Packet("+OK", "", Line), PlusOk, limits)
  {
    BareLine("+OK");
  }

  lemma OutputFaithful(op: Op, limits: Limits)
    requires MakeOutput(op).Ok? && CheckLimits(limits, MakeOutput(op).value).None? && Representable(op)
    ensures Faithful(MakeOutput(op).value, op, limits)
  {
    match op
    case Pub(m) => PubFaithful(m, limits);
    case Msg(sid, m) => MsgFaithful(sid, m, limits);
    case Hpub(m, status) => HpubFaithful(m, status, limits);
    case Hmsg(sid, m, status) => HmsgFaithful(sid, m, status, limits);
    case Sub(_, _, _) => SubOutputFaithful(op, limits);
    case Unsub(_, _) => UnsubOutputFaithful(op, limits);
    case Info(json) => InfoFaithful(json, limits);
    case Connect(json) => ConnectFaithful(json, limits);
    case ServerError(text) => ServerErrorFaithful(text, limits);
    case Ping => PingFaithful(limits);
    case Pong => PongFaithful(limits);
    case PlusOk => OkFaithful(limits);
  }
}
