/** Which packets decode to which operation, and what is wrong with the others. */
module Decoding {
  import opened Base
  import opened Text
  import Decimal
  import Subject
  import Header
  import HeaderBlock
  import opened Op
  import opened Packet
  import opened Codec
  import opened Acceptance

  // ---- Words ----

  predicate Names(text: string, sid: int) {
    sid > 0 && Denotes(text, sid)
  }

  /** A reply word; an empty one stands for none. */
  predicate Replies(text: string, reply: Option<Subject.Subject>) {
    if text == "" then reply.None? else reply == Some(text)
  }

  // ---- What a packet says ----

  /** The text after the keyword and one space. */
  predicate Carries(p: Packet, keyword: string, text: string) {
    p.framing.Line? && p.line == keyword + (" " + text)
  }

  predicate SaysMessage(w: seq<string>, first: nat, sizes: nat, m: Message)
    requires |w| > 1
  {
    && w[1] == m.subject
    && ((|w| == first + sizes && m.replyTo.None?) || (|w| == first + 1 + sizes && Replies(w[first], m.replyTo)))
  }

  ghost predicate SaysBlock(p: Packet, m: Message, status: Option<Status>) {
    && p.framing.Headers?
    && HeaderBlock.ParseBlock(p.body[..p.framing.headerBytes]) == Ok((status, m.headers))
    && p.body[p.framing.headerBytes..] == m.payload
  }

  ghost predicate Says(p: Packet, op: Op) {
    var w := Split(p.line, ' ');
    match op
    case Info(text) => Carries(p, "INFO", text)
    case Connect(text) => Carries(p, "CONNECT", text)
    case ServerError(text) => Carries(p, "-ERR", text)
    case Ping => w[0] == "PING" && p.framing.Line?
    case Pong => w[0] == "PONG" && p.framing.Line?
    case PlusOk => w[0] == "+OK" && p.framing.Line?
    case Sub(subject, queueGroup, sid) =>
      && p.framing.Line? && w[0] == "SUB" && |w| == (if queueGroup.None? then 3 else 4) && w[1] == subject
      && (queueGroup.Some? ==> w[2] == queueGroup.value) && Names(w[|w| - 1], sid)
    case Unsub(sid, max) =>
      && p.framing.Line? && w[0] == "UNSUB" && |w| == (if max.None? then 2 else 3) && Names(w[1], sid)
      && (max.Some? ==> max.value >= 0 && Denotes(w[2], max.value))
    case Pub(m) =>
      && p.framing.Payload? && w[0] == "PUB" && |w| > 1 && SaysMessage(w, 2, 1, m)
      && (|w| == 3 ==> Number(w[2])) && m.headers == [] && m.payload == p.body
    case Msg(sid, m) =>
      && p.framing.Payload? && w[0] == "MSG" && |w| > 2 && SaysMessage(w, 3, 1, m) && Names(w[2], sid)
      && m.headers == [] && m.payload == p.body
    case Hpub(m, status) => w[0] == "HPUB" && |w| > 1 && SaysMessage(w, 2, 2, m) && SaysBlock(p, m, status)
    case Hmsg(sid, m, status) =>
      w[0] == "HMSG" && |w| > 2 && SaysMessage(w, 3, 2, m) && Names(w[2], sid) && SaysBlock(p, m, status)
  }

  // ---- One operation at a time ----

  lemma SidExactly(text: string, sid: int)
    ensures ParseSid(text) == Ok(sid) <==> Names(text, sid)
    ensures ParseSid(text).Error? ==> ParseSid(text).error == InvalidSid(text)
  {
  }

  lemma MessageExactly(subject: string, reply: string, headers: Header.Headers, payload: string, m: Message)
    ensures MessageOf(subject, reply, headers, payload) == Ok(m) <==>
            subject == m.subject && Replies(reply, m.replyTo) && m.headers == headers && m.payload == payload
  {
  }

  lemma TextExactly(p: Packet, keyword: string, text: string)
    requires ' ' !in keyword
    ensures TextValue(p, keyword) == Ok(text) <==> Carries(p, keyword, text)
  {
    if Carries(p, keyword, text) {
      assert p.line == keyword + [' '] + text;
      IndexAfter(keyword, ' ', text);
      assert p.line[..|keyword|] == keyword && p.line[|keyword| + 1..] == text;
    }
    if TextValue(p, keyword) == Ok(text) {
      assert p.line[..|keyword|] == keyword;
      assert p.line == keyword + (" " + text);
    }
  }

  lemma SubExactly(p: Packet, op: Op)
    requires FirstWord(p.line) == "SUB"
    ensures DecodeSub(p) == Ok(op) <==> op.Sub? && Says(p, op)
  {
    FirstWordIsFirst(p.line);
    var w := Words(p.line);
    SidExactly(w[|w| - 1], if op.Sub? then op.sid else 0);
  }

  lemma UnsubExactly(p: Packet, op: Op)
    requires FirstWord(p.line) == "UNSUB"
    ensures DecodeUnsub(p) == Ok(op) <==> op.Unsub? && Says(p, op)
  {
    FirstWordIsFirst(p.line);
  }

  lemma PubExactly(p: Packet, op: Op)
    requires FirstWord(p.line) == "PUB"
    ensures DecodePub(p) == Ok(op) <==> op.Pub? && Says(p, op)
  {
    FirstWordIsFirst(p.line);
    var w := Words(p.line);
    if op.Pub? && |w| == 3 {
      MessageExactly(w[1], "", [], p.body, op.message);
    } else if op.Pub? && |w| == 4 {
      MessageExactly(w[1], w[2], [], p.body, op.message);
    }
  }

  lemma MsgExactly(p: Packet, op: Op)
    requires FirstWord(p.line) == "MSG"
    ensures DecodeMsg(p) == Ok(op) <==> op.Msg? && Says(p, op)
  {
    FirstWordIsFirst(p.line);
    var w := Words(p.line);
    if op.Msg? && (|w| == 4 || |w| == 5) {
      SidExactly(w[2], op.sid);
      MessageExactly(w[1], if |w| == 5 then w[3] else "", [], p.body, op.message);
    }
  }

  lemma BlockExactly(p: Packet, subject: string, reply: string, m: Message, status: Option<Status>)
    requires p.framing.Headers?
    ensures HeaderMessage(p, subject, reply) == Ok((m, status)) <==>
            subject == m.subject && Replies(reply, m.replyTo) && SaysBlock(p, m, status)
  {
    var block := HeaderBlock.ParseBlock(p.body[..p.framing.headerBytes]);
    if block.Ok? {
      MessageExactly(subject, reply, block.value.1, p.body[p.framing.headerBytes..], m);
    }
  }

  lemma HpubExactly(p: Packet, op: Op)
    requires FirstWord(p.line) == "HPUB"
    ensures DecodeHpub(p) == Ok(op) <==> op.Hpub? && Says(p, op)
  {
    FirstWordIsFirst(p.line);
    var w := Words(p.line);
    if op.Hpub? && p.framing.Headers? && (|w| == 4 || |w| == 5) {
      BlockExactly(p, w[1], if |w| == 5 then w[2] else "", op.message, op.status);
    }
  }

  lemma HmsgExactly(p: Packet, op: Op)
    requires FirstWord(p.line) == "HMSG"
    ensures DecodeHmsg(p) == Ok(op) <==> op.Hmsg? && Says(p, op)
  {
    FirstWordIsFirst(p.line);
    var w := Words(p.line);
    if op.Hmsg? && p.framing.Headers? && (|w| == 5 || |w| == 6) {
      SidExactly(w[2], op.sid);
      BlockExactly(p, w[1], if |w| == 6 then w[3] else "", op.message, op.status);
    }
  }

  /** A packet of a text keyword says what its text says. */
  lemma CarriesKeyword(p: Packet, keyword: string, text: string)
    requires Carries(p, keyword, text) && ' ' !in keyword
    ensures Split(p.line, ' ')[0] == keyword
  {
    assert p.line == keyword + [' '] + text;
    SplitCons(keyword, ' ', text);
  }

  function KeywordOf(op: Op): string {
    match op
    case Info(_) => "INFO"
    case Connect(_) => "CONNECT"
    case Pub(_) => "PUB"
    case Hpub(_, _) => "HPUB"
    case Sub(_, _, _) => "SUB"
    case Unsub(_, _) => "UNSUB"
    case Msg(_, _) => "MSG"
    case Hmsg(_, _, _) => "HMSG"
    case Ping => "PING"
    case Pong => "PONG"
    case PlusOk => "+OK"
    case ServerError(_) => "-ERR"
  }

  lemma SaysKeyword(p: Packet, op: Op)
    requires Says(p, op)
    ensures FirstWord(p.line) == KeywordOf(op)
  {
    FirstWordIsFirst(p.line);
    if op.Info? {
      CarriesKeyword(p, "INFO", op.json);
    } else if op.Connect? {
      CarriesKeyword(p, "CONNECT", op.json);
    } else if op.ServerError? {
      CarriesKeyword(p, "-ERR", op.text);
    }
  }

  lemma InfoOperation(p: Packet, op: Op)
    requires FirstWord(p.line) == "INFO"
    ensures Decode(p) == Ok(op) <==> op.Info? && Says(p, op)
  {
    TextExactly(p, "INFO", if op.Info? then op.json else "");
  }

  lemma ConnectOperation(p: Packet, op: Op)
    requires FirstWord(p.line) == "CONNECT"
    ensures Decode(p) == Ok(op) <==> op.Connect? && Says(p, op)
  {
    TextExactly(p, "CONNECT", if op.Connect? then op.json else "");
  }

  lemma ErrorOperation(p: Packet, op: Op)
    requires FirstWord(p.line) == "-ERR"
    ensures Decode(p) == Ok(op) <==> op.ServerError? && Says(p, op)
  {
    TextExactly(p, "-ERR", if op.ServerError? then op.text else "");
  }

  lemma TextOperations(p: Packet, op: Op)
    requires FirstWord(p.line) == "INFO" || FirstWord(p.line) == "CONNECT" || FirstWord(p.line) == "-ERR"
    ensures Decode(p) == Ok(op) <==> (op.Info? || op.Connect? || op.ServerError?) && KeywordOf(op) == FirstWord(p.line) && Says(p, op)
  {
    if FirstWord(p.line) == "INFO" {
      InfoOperation(p, op);
    } else if FirstWord(p.line) == "CONNECT" {
      ConnectOperation(p, op);
    } else {
      ErrorOperation(p, op);
    }
  }

  lemma BareOperations(p: Packet, op: Op)
    requires FirstWord(p.line) == "PING" || FirstWord(p.line) == "PONG" || FirstWord(p.line) == "+OK"
    ensures Decode(p) == Ok(op) <==> (op.Ping? || op.Pong? || op.PlusOk?) && KeywordOf(op) == FirstWord(p.line) && Says(p, op)
  {
    FirstWordIsFirst(p.line);
  }

  lemma WordOperations(p: Packet, op: Op)
    requires FirstWord(p.line) in ["SUB", "UNSUB", "PUB", "HPUB", "MSG", "HMSG"]
    ensures Decode(p) == Ok(op) <==> KeywordOf(op) == FirstWord(p.line) && Says(p, op)
  {
    var keyword := FirstWord(p.line);
    if keyword == "SUB" {
      SubExactly(p, op);
    } else if keyword == "UNSUB" {
      UnsubExactly(p, op);
    } else if keyword == "PUB" {
      PubExactly(p, op);
    } else if keyword == "HPUB" {
      HpubExactly(p, op);
    } else if keyword == "MSG" {
      MsgExactly(p, op);
    } else {
      HmsgExactly(p, op);
    }
  }

  /** Decoding gives an operation if and only if that is what the packet says. */
  lemma DecodeExactly(p: Packet, op: Op)
    ensures Decode(p) == Ok(op) <==> Says(p, op)
  {
    var keyword := FirstWord(p.line);
    if Says(p, op) {
      SaysKeyword(p, op);
    }
    if keyword == "INFO" || keyword == "CONNECT" || keyword == "-ERR" {
      TextOperations(p, op);
    } else if keyword == "PING" || keyword == "PONG" || keyword == "+OK" {
      BareOperations(p, op);
    } else if keyword in ["SUB", "UNSUB", "PUB", "HPUB", "MSG", "HMSG"] {
      WordOperations(p, op);
    }
  }

  // ---- What is wrong with a packet ----

  /** The first fault of a list. */
  function First(faults: seq<Option<CodecError>>): Option<CodecError> {
    if faults == [] then None else if faults[0].Some? then faults[0] else First(faults[1..])
  }

  function NameFault(filter: bool, text: string): Option<CodecError> {
    match Subject.Validate(filter, text)
    case Ok(_) => None
    case Error(e) => Some(InvalidSubject(e))
  }

  function ReplyFault(text: string): Option<CodecError> {
    if text == "" then None else NameFault(false, text)
  }

  function SidFault(text: string): Option<CodecError> {
    if Number(text) && Decimal.Value(text) > 0 then None else Some(InvalidSid(text))
  }

  function NumberFault(text: string, e: CodecError): Option<CodecError> {
    if Number(text) then None else Some(e)
  }

  function BlockFault(p: Packet): Option<CodecError>
    requires p.framing.Headers?
  {
    match HeaderBlock.ParseBlock(p.body[..p.framing.headerBytes])
    case Ok(_) => None
    case Error(e) => Some(InvalidBlock(e))
  }

  function SubFault(w: seq<string>): Option<CodecError> {
    if |w| == 3 then First([NameFault(true, w[1]), SidFault(w[2])])
    else if |w| == 4 then First([NameFault(true, w[1]), NameFault(false, w[2]), SidFault(w[3])])
    else Some(InvalidFieldCount("SUB"))
  }

  function UnsubFault(w: seq<string>): Option<CodecError> {
    if |w| == 2 then SidFault(w[1])
    else if |w| == 3 then First([SidFault(w[1]), NumberFault(w[2], InvalidMaxMessages(w[2]))])
    else Some(InvalidFieldCount("UNSUB"))
  }

  function PubFault(w: seq<string>): Option<CodecError> {
    if |w| == 3 then First([NameFault(false, w[1]), NumberFault(w[2], InvalidValue("PUB"))])
    else if |w| == 4 then First([NameFault(false, w[1]), ReplyFault(w[2])])
    else Some(InvalidFieldCount("PUB"))
  }

  function MsgFault(w: seq<string>): Option<CodecError> {
    if |w| == 4 then First([SidFault(w[2]), NameFault(false, w[1])])
    else if |w| == 5 then First([SidFault(w[2]), NameFault(false, w[1]), ReplyFault(w[3])])
    else Some(InvalidFieldCount("MSG"))
  }

  function HpubFault(p: Packet, w: seq<string>): Option<CodecError>
    requires p.framing.Headers?
  {
    if |w| == 4 then First([BlockFault(p), NameFault(false, w[1])])
    else if |w| == 5 then First([BlockFault(p), NameFault(false, w[1]), ReplyFault(w[2])])
    else Some(InvalidFieldCount("HPUB"))
  }

  function HmsgFault(p: Packet, w: seq<string>): Option<CodecError>
    requires p.framing.Headers?
  {
    if |w| == 5 then First([SidFault(w[2]), BlockFault(p), NameFault(false, w[1])])
    else if |w| == 6 then First([SidFault(w[2]), BlockFault(p), NameFault(false, w[1]), ReplyFault(w[3])])
    else Some(InvalidFieldCount("HMSG"))
  }

  /** The framing a keyword calls for. */
  predicate Fitting(keyword: string, f: Framing) {
    if keyword == "PUB" || keyword == "MSG" then f.Payload?
    else if keyword == "HPUB" || keyword == "HMSG" then f.Headers?
    else f.Line?
  }

  /** The first thing wrong with a packet: its keyword, its framing, its word count, then its words in the order in
      which they are looked at. */
  function Fault(p: Packet): Option<CodecError> {
    var w := Split(p.line, ' ');
    var keyword := w[0];
    if !(Plain(keyword) || Sized(keyword)) || !Fitting(keyword, p.framing) then Some(InvalidOperation(keyword))
    else if keyword == "INFO" || keyword == "CONNECT" || keyword == "-ERR" then
      if p.line == keyword then Some(InvalidValue(keyword)) else None
    else if keyword == "SUB" then SubFault(w)
    else if keyword == "UNSUB" then UnsubFault(w)
    else if keyword == "PUB" then PubFault(w)
    else if keyword == "MSG" then MsgFault(w)
    else if keyword == "HPUB" then HpubFault(p, w)
    else if keyword == "HMSG" then HmsgFault(p, w)
    else None
  }

  function ErrorOf<T>(r: Result<T, CodecError>): Option<CodecError> {
    match r
    case Ok(_) => None
    case Error(e) => Some(e)
  }

  lemma FirstTwo(a: Option<CodecError>, b: Option<CodecError>)
    ensures First([a, b]) == if a.Some? then a else b
  {
    assert [a, b][1..] == [b] && [b][1..] == [];
    assert First([b]) == b;
  }

  lemma FirstThree(a: Option<CodecError>, b: Option<CodecError>, c: Option<CodecError>)
    ensures First([a, b, c]) == if a.Some? then a else if b.Some? then b else c
  {
    assert [a, b, c][1..] == [b, c];
    FirstTwo(b, c);
  }

  lemma FirstFour(a: Option<CodecError>, b: Option<CodecError>, c: Option<CodecError>, d: Option<CodecError>)
    ensures First([a, b, c, d]) == if a.Some? then a else if b.Some? then b else if c.Some? then c else d
  {
    assert [a, b, c, d][1..] == [b, c, d];
    FirstThree(b, c, d);
  }

  lemma NameFaults(text: string)
    ensures ErrorOf(SubjectOf(text)) == NameFault(false, text) && ErrorOf(FilterOf(text)) == NameFault(true, text)
    ensures ErrorOf(ReplyOf(text)) == ReplyFault(text)
  {
  }

  lemma NumberFaults(text: string)
    ensures ErrorOf(ParseSid(text)) == SidFault(text)
    ensures ErrorOf(ParseMaxMessages(text)) == NumberFault(text, InvalidMaxMessages(text))
    ensures Decimal.Parse(text).Some? <==> Number(text)
  {
  }

  lemma MessageFaults(subject: string, reply: string, headers: Header.Headers, payload: string)
    ensures ErrorOf(MessageOf(subject, reply, headers, payload)) ==
            if NameFault(false, subject).Some? then NameFault(false, subject) else ReplyFault(reply)
  {
    NameFaults(subject);
    NameFaults(reply);
  }

  lemma SubFaults(p: Packet)
    requires FirstWord(p.line) == "SUB" && p.framing.Line?
    ensures ErrorOf(DecodeSub(p)) == SubFault(Words(p.line))
  {
    var w := Words(p.line);
    if |w| == 3 {
      NameFaults(w[1]);
      NumberFaults(w[2]);
      FirstTwo(NameFault(true, w[1]), SidFault(w[2]));
    } else if |w| == 4 {
      NameFaults(w[1]);
      NameFaults(w[2]);
      NumberFaults(w[3]);
      FirstThree(NameFault(true, w[1]), NameFault(false, w[2]), SidFault(w[3]));
    }
  }

  lemma UnsubFaults(p: Packet)
    requires FirstWord(p.line) == "UNSUB" && p.framing.Line?
    ensures ErrorOf(DecodeUnsub(p)) == UnsubFault(Words(p.line))
  {
    var w := Words(p.line);
    if |w| == 2 {
      NumberFaults(w[1]);
    } else if |w| == 3 {
      NumberFaults(w[1]);
      NumberFaults(w[2]);
      FirstTwo(SidFault(w[1]), NumberFault(w[2], InvalidMaxMessages(w[2])));
    }
  }

  lemma PubFaults(p: Packet)
    requires p.framing.Payload?
    ensures ErrorOf(DecodePub(p)) == PubFault(Words(p.line))
  {
    var w := Words(p.line);
    if |w| == 3 {
      MessageFaults(w[1], "", [], p.body);
      NumberFaults(w[2]);
      FirstTwo(NameFault(false, w[1]), NumberFault(w[2], InvalidValue("PUB")));
    } else if |w| == 4 {
      MessageFaults(w[1], w[2], [], p.body);
      FirstTwo(NameFault(false, w[1]), ReplyFault(w[2]));
    }
  }

  lemma MsgFaults(p: Packet)
    requires p.framing.Payload?
    ensures ErrorOf(DecodeMsg(p)) == MsgFault(Words(p.line))
  {
    var w := Words(p.line);
    if |w| == 4 {
      NumberFaults(w[2]);
      MessageFaults(w[1], "", [], p.body);
      FirstTwo(SidFault(w[2]), NameFault(false, w[1]));
    } else if |w| == 5 {
      NumberFaults(w[2]);
      MessageFaults(w[1], w[3], [], p.body);
      FirstThree(SidFault(w[2]), NameFault(false, w[1]), ReplyFault(w[3]));
    }
  }

  lemma BlockFaults(p: Packet, subject: string, reply: string)
    requires p.framing.Headers?
    ensures ErrorOf(HeaderMessage(p, subject, reply)) ==
            if BlockFault(p).Some? then BlockFault(p)
            else if NameFault(false, subject).Some? then NameFault(false, subject) else ReplyFault(reply)
  {
    var block := HeaderBlock.ParseBlock(p.body[..p.framing.headerBytes]);
    if block.Ok? {
      MessageFaults(subject, reply, block.value.1, p.body[p.framing.headerBytes..]);
    }
  }

  lemma HpubFaults(p: Packet)
    requires p.framing.Headers?
    ensures ErrorOf(DecodeHpub(p)) == HpubFault(p, Words(p.line))
  {
    var w := Words(p.line);
    if |w| == 4 {
      BlockFaults(p, w[1], "");
      FirstTwo(BlockFault(p), NameFault(false, w[1]));
    } else if |w| == 5 {
      BlockFaults(p, w[1], w[2]);
      FirstThree(BlockFault(p), NameFault(false, w[1]), ReplyFault(w[2]));
    }
  }

  lemma HmsgFaults(p: Packet)
    requires p.framing.Headers?
    ensures ErrorOf(DecodeHmsg(p)) == HmsgFault(p, Words(p.line))
  {
    var w := Words(p.line);
    if |w| == 5 {
      NumberFaults(w[2]);
      BlockFaults(p, w[1], "");
      FirstThree(SidFault(w[2]), BlockFault(p), NameFault(false, w[1]));
    } else if |w| == 6 {
      NumberFaults(w[2]);
      BlockFaults(p, w[1], w[3]);
      FirstFour(SidFault(w[2]), BlockFault(p), NameFault(false, w[1]), ReplyFault(w[3]));
    }
  }

  lemma KeywordPrefix(line: string)
    ensures |FirstWord(line)| <= |line| && (|line| > |FirstWord(line)| ==> line[|FirstWord(line)|] == ' ')
    ensures |line| == |FirstWord(line)| <==> line == FirstWord(line)
  {
  }

  lemma TextFaults(p: Packet)
    requires FirstWord(p.line) == "INFO" || FirstWord(p.line) == "CONNECT" || FirstWord(p.line) == "-ERR"
    ensures ErrorOf(Decode(p)) == Fault(p)
  {
    FirstWordIsFirst(p.line);
    KeywordPrefix(p.line);
    assert ErrorOf(Decode(p)) == ErrorOf(TextValue(p, FirstWord(p.line)));
  }

  lemma BareFaults(p: Packet)
    requires FirstWord(p.line) == "PING" || FirstWord(p.line) == "PONG" || FirstWord(p.line) == "+OK"
    ensures ErrorOf(Decode(p)) == Fault(p)
  {
    FirstWordIsFirst(p.line);
  }

  lemma PlainFaults(p: Packet)
    requires Plain(FirstWord(p.line)) && FirstWord(p.line) != "SUB" && FirstWord(p.line) != "UNSUB"
    ensures ErrorOf(Decode(p)) == Fault(p)
  {
    if FirstWord(p.line) == "PING" || FirstWord(p.line) == "PONG" || FirstWord(p.line) == "+OK" {
      BareFaults(p);
    } else {
      TextFaults(p);
    }
  }

  lemma WordFaults(p: Packet)
    requires FirstWord(p.line) in ["SUB", "UNSUB", "PUB", "HPUB", "MSG", "HMSG"] && Fitting(FirstWord(p.line), p.framing)
    ensures ErrorOf(Decode(p)) == Fault(p)
  {
    FirstWordIsFirst(p.line);
    var keyword := FirstWord(p.line);
    if keyword == "SUB" {
      SubFaults(p);
    } else if keyword == "UNSUB" {
      UnsubFaults(p);
    } else if keyword == "PUB" {
      PubFaults(p);
    } else if keyword == "MSG" {
      MsgFaults(p);
    } else if keyword == "HPUB" {
      HpubFaults(p);
    } else {
      HmsgFaults(p);
    }
  }

  lemma UnfittingFaults(p: Packet)
    requires Sized(FirstWord(p.line)) || FirstWord(p.line) == "SUB" || FirstWord(p.line) == "UNSUB"
    requires !Fitting(FirstWord(p.line), p.framing)
    ensures ErrorOf(Decode(p)) == Fault(p)
  {
    FirstWordIsFirst(p.line);
  }

  lemma UnknownFaults(p: Packet)
    requires !Plain(FirstWord(p.line)) && !Sized(FirstWord(p.line))
    ensures ErrorOf(Decode(p)) == Fault(p)
  {
    FirstWordIsFirst(p.line);
  }

  /** Decoding fails with the first fault, and succeeds if there is none. */
  lemma DecodeFault(p: Packet)
    ensures ErrorOf(Decode(p)) == Fault(p)
  {
    var keyword := FirstWord(p.line);
    if !Plain(keyword) && !Sized(keyword) {
      UnknownFaults(p);
    } else if Sized(keyword) || keyword == "SUB" || keyword == "UNSUB" {
      if Fitting(keyword, p.framing) {
        WordFaults(p);
      } else {
        UnfittingFaults(p);
      }
    } else {
      PlainFaults(p);
    }
  }
}
