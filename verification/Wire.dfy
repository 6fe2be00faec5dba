/** What the server hears: the operations decoded from the client's output. */
module Wire {
  import opened Base
  import HeaderBlock
  import opened Text
  import Decimal
  import opened Packet
  import opened Codec
  import O = Op
  import opened Client
  import opened Invariant
  import opened Stream
  import opened Server

  /** The operations a receiver decodes from pieces of output. */
  function Decoded(outputs: seq<string>): seq<O.Op> {
    if outputs == [] then []
    else (match Received(outputs[0]) case Some(op) => [op] case None => []) + Decoded(outputs[1..])
  }

  lemma DecodedOne(s: State, op: O.Op)
    requires EncodeWith(s, op).Ok? && O.Representable(op)
    ensures Received(EncodeWith(s, op).value) == Some(op) && Decoded([EncodeWith(s, op).value]) == [op]
  {
    var wire := EncodeWith(s, op).value;
    ReceivedIs(op, wire, NegotiatedLimits(s));
    assert [wire][1..] == [];
    assert [op] + [] == [op];
  }

  lemma {:induction false} DecodedAll(s: State, ops: seq<O.Op>)
    requires EncodeAll(s, ops).Ok? && forall op <- ops :: O.Representable(op)
    ensures Decoded(EncodeAll(s, ops).value) == ops
    decreases ops
  {
    if ops != [] {
      var rest := EncodeAll(s, ops[1..]).value;
      DecodedOne(s, ops[0]);
      DecodedAll(s, ops[1..]);
      assert ([EncodeWith(s, ops[0]).value] + rest)[1..] == rest;
      assert ops == [ops[0]] + ops[1..];
    }
  }

  // ---- Replay ----

  function ReplayOne(sub: Subscription): seq<O.Op> {
    var subscribe := O.Sub(sub.subject, sub.queueGroup, sub.sid);
    if sub.remaining.None? then [subscribe] else [subscribe, O.Unsub(sub.sid, sub.remaining)]
  }

  /** Oldest subscription first, each SUB before its UNSUB. */
  function Replay(subs: seq<Subscription>): seq<O.Op> {
    if subs == [] then [] else Replay(subs[1..]) + ReplayOne(subs[0])
  }

  lemma {:induction false} ReplayFoldExact(subs: seq<Subscription>, ops: seq<O.Op>)
    ensures ReplayFold(subs, ops) == Replay(subs) + ops
    decreases subs
  {
    if subs != [] {
      ReplayFoldExact(subs[1..], ReplayOne(subs[0]) + ops);
      assert Replay(subs[1..]) + (ReplayOne(subs[0]) + ops) == Replay(subs) + ops;
    }
  }

  lemma {:induction false} ReplayRepresentable(subs: seq<Subscription>, below: int)
    requires Descending(subs, below) && below <= MAX_INT + 1
    ensures forall op <- Replay(subs) :: O.Representable(op)
  {
    if subs != [] {
      ReplayRepresentable(subs[1..], subs[0].sid);
    }
  }

  /** The table a server should hold for a list of subscriptions. */
  function TableOf(subs: seq<Subscription>): Table {
    if subs == [] then map[]
    else TableOf(subs[1..])[subs[0].sid := ServerSub(subs[0].subject, subs[0].queueGroup, 0, subs[0].remaining)]
  }

  lemma {:induction false} TableBelow(subs: seq<Subscription>, below: int)
    requires Descending(subs, below)
    ensures forall sid <- TableOf(subs) :: sid < below
    ensures forall sid :: sid in TableOf(subs) <==> Find(subs, sid).Some?
    ensures forall sid <- TableOf(subs) :: var sub := Find(subs, sid).value;
              TableOf(subs)[sid] == ServerSub(sub.subject, sub.queueGroup, 0, sub.remaining)
  {
    if subs != [] {
      TableBelow(subs[1..], subs[0].sid);
    }
  }

  lemma {:induction false} ReplayTable(subs: seq<Subscription>, below: int)
    requires Descending(subs, below)
    ensures ProcessAll(map[], Replay(subs)) == TableOf(subs)
  {
    if subs != [] {
      var sub, t := subs[0], TableOf(subs[1..]);
      ReplayTable(subs[1..], sub.sid);
      TableBelow(subs[1..], sub.sid);
      ProcessAllPlus(map[], Replay(subs[1..]), ReplayOne(sub));
      ReplayOneTable(t, sub);
    }
  }

  lemma ReplayOneTable(t: Table, sub: Subscription)
    requires sub.sid !in t && (sub.remaining.Some? ==> sub.remaining.value >= 1)
    ensures ProcessAll(t, ReplayOne(sub)) == t[sub.sid := ServerSub(sub.subject, sub.queueGroup, 0, sub.remaining)]
  {
    var ops := ReplayOne(sub);
    var t1 := Process(t, ops[0]);
    if sub.remaining.None? {
      assert ops[1..] == [];
    } else {
      assert ops[1..] == [ops[1]] && ops[1..][1..] == [];
      assert ProcessAll(t1, ops[1..]) == ProcessAll(Process(t1, ops[1]), []);
    }
  }

  // ---- When a reconnect succeeds ----

  lemma LineEncodes(s: State, op: O.Op)
    requires op.Sub? || op.Unsub? || op.Connect? || op.Ping? || op.Pong?
    requires MakeOutput(op).Ok?
    ensures EncodeWith(s, op).Ok? <==> |MakeOutput(op).value.line| <= DEFAULT_LIMITS.maxLine
  {
  }

  lemma UnsubEncodes(s: State, sid: int, max: Option<int>)
    requires 0 < sid <= MAX_INT && (max.Some? ==> 0 <= max.value <= MAX_INT)
    ensures EncodeWith(s, O.Unsub(sid, max)).Ok?
  {
    Decimal.MachineIntLength(sid);
    if max.Some? {
      Decimal.MachineIntLength(max.value);
    }
    LineEncodes(s, O.Unsub(sid, max));
  }

  lemma PingEncodes(s: State)
    ensures EncodeWith(s, O.Ping).Ok? && EncodeWith(s, O.Pong).Ok?
  {
    LineEncodes(s, O.Ping);
    LineEncodes(s, O.Pong);
  }

  lemma {:induction false} EncodeAllExact(s: State, ops: seq<O.Op>)
    ensures EncodeAll(s, ops).Ok? <==> forall op <- ops :: EncodeWith(s, op).Ok?
    decreases ops
  {
    if ops != [] {
      EncodeAllExact(s, ops[1..]);
      assert ops == [ops[0]] + ops[1..];
    }
  }

  predicate SubFits(sub: Subscription) {
    |SubLine(sub.subject, sub.queueGroup, sub.sid)| <= DEFAULT_LIMITS.maxLine
  }

  lemma ReplayOneEncodes(s: State, sub: Subscription)
    requires 0 < sub.sid <= MAX_INT && (sub.remaining.Some? ==> 1 <= sub.remaining.value <= MAX_INT)
    ensures (forall op <- ReplayOne(sub) :: EncodeWith(s, op).Ok?) <==> SubFits(sub)
  {
    var subscribe := O.Sub(sub.subject, sub.queueGroup, sub.sid);
    assert ReplayOne(sub)[0] == subscribe;
    LineEncodes(s, subscribe);
    if sub.remaining.Some? {
      UnsubEncodes(s, sub.sid, sub.remaining);
      assert ReplayOne(sub) == [subscribe, O.Unsub(sub.sid, sub.remaining)];
    }
  }

  lemma {:induction false} ReplayEncodes(s: State, subs: seq<Subscription>, below: int)
    requires Descending(subs, below) && below <= MAX_INT + 1
    ensures (forall op <- Replay(subs) :: EncodeWith(s, op).Ok?) <==> forall sub <- subs :: SubFits(sub)
  {
    if subs != [] {
      ReplayEncodes(s, subs[1..], subs[0].sid);
      ReplayOneEncodes(s, subs[0]);
      assert subs == [subs[0]] + subs[1..];
    }
  }

  predicate ConnectFits(text: string) {
    text != "" && !LineBreak(text) && |"CONNECT " + text| <= DEFAULT_LIMITS.maxLine
  }

  /** Reconnecting succeeds exactly when the CONNECT text and every SUB line fit a control line. */
  lemma ConnectExactly(json: Json, s: State, credentials: Credentials, tlsRequired: bool)
    requires Inv(s) && s.phase == AwaitingConnect && s.nextSid <= MAX_INT + 1
    ensures OutgoingConnect(json, s, credentials, tlsRequired).Ok? <==>
            var text := json.connectText(ConnectValue(s, s.info.value, credentials, tlsRequired));
            text.Ok? && ConnectFits(text.value) && forall sub <- s.subscriptions :: SubFits(sub)
  {
    var text := json.connectText(ConnectValue(s, s.info.value, credentials, tlsRequired));
    ReplayFoldExact(s.subscriptions, []);
    assert Replay(s.subscriptions) + [] == Replay(s.subscriptions);
    EncodeAllExact(s, Replay(s.subscriptions));
    ReplayEncodes(s, s.subscriptions, s.nextSid);
    if text.Ok? {
      ConnectEncodes(s, text.value);
    }
  }

  lemma ConnectEncodes(s: State, text: string)
    ensures EncodeWith(s, O.Connect(text)).Ok? <==> ConnectFits(text)
  {
    if text != "" && !LineBreak(text) {
      LineEncodes(s, O.Connect(text));
      assert "CONNECT" + (" " + text) == "CONNECT " + text;
    }
  }

  /** The replay of a successful connect, decoded and run on an empty server, rebuilds exactly the client's
      subscriptions with their remaining limits, in creation order. */
  lemma ReplayRebuilds(json: Json, s: State, credentials: Credentials, tlsRequired: bool)
    requires Inv(s) && s.phase == AwaitingConnect && s.nextSid <= MAX_INT + 1
    requires OutgoingConnect(json, s, credentials, tlsRequired).Ok?
    ensures var t := OutgoingConnect(json, s, credentials, tlsRequired).value;
            var heard := Decoded(t.output);
            && t.state == s.(phase := Connected)
            && |heard| > 0 && heard[0].Connect? && heard[1..] == Replay(s.subscriptions)
            && json.connectText(ConnectValue(s, s.info.value, credentials, tlsRequired)) == Ok(heard[0].json)
            && ProcessAll(map[], heard) == TableOf(s.subscriptions)
  {
    var t := OutgoingConnect(json, s, credentials, tlsRequired).value;
    var text := json.connectText(ConnectValue(s, s.info.value, credentials, tlsRequired)).value;
    var replay := Replay(s.subscriptions);
    ReplayFoldExact(s.subscriptions, []);
    assert replay + [] == replay;
    ReplayRepresentable(s.subscriptions, s.nextSid);
    DecodedOne(s, O.Connect(text));
    DecodedAll(s, replay);
    assert t.output[1..] == EncodeAll(s, replay).value;
    assert Decoded(t.output) == [O.Connect(text)] + replay;
    ReplayTable(s.subscriptions, s.nextSid);
    assert ([O.Connect(text)] + replay)[1..] == replay;
  }

  // ---- When a publish succeeds ----

  /** What a header block takes of the payload bound. */
  function BlockSize(m: O.Message): nat {
    if m.headers == [] then 0 else |HeaderBlock.Block(None, m.headers)|
  }

  function PublishLine(m: O.Message): string {
    (if m.headers == [] then PayloadOutput("PUB", None, m) else HeadersOutput("HPUB", None, m, None)).line
  }

  /** The line and the header block fit the library's own bounds. */
  predicate FramingFits(m: O.Message) {
    |PublishLine(m)| <= DEFAULT_LIMITS.maxLine && BlockSize(m) <= DEFAULT_LIMITS.maxHeader
  }

  function PublishOp(m: O.Message): O.Op {
    if m.headers == [] then O.Pub(m) else O.Hpub(m, None)
  }

  lemma PublishMade(m: O.Message)
    ensures MakeOutput(PublishOp(m)).Ok?
    ensures var out := MakeOutput(PublishOp(m)).value;
            && out.line == PublishLine(m) && BodyLength(out.framing) == BlockSize(m) + |m.payload| && !out.framing.Line?
            && (if out.framing.Headers? then out.framing.headerBytes else 0) == BlockSize(m)
  {
  }

  lemma LimitsChecked(limits: Limits, out: Packet)
    requires ValidLimits(limits) && !out.framing.Line?
    ensures var block := if out.framing.Headers? then out.framing.headerBytes else 0;
            var fits, size := |out.line| <= limits.maxLine && block <= limits.maxHeader, BodyLength(out.framing);
            && (fits && size > limits.maxPayload ==>
                  CheckLimits(limits, out) == Some(PacketFailure(PayloadTooLarge(size, limits.maxPayload))))
            && (CheckLimits(limits, out).None? <==>
                  fits && size <= limits.maxPayload && |out.line| + 2 + size + 2 <= limits.maxPacket)
  {
  }

  lemma EncodeChecks(s: State, op: O.Op)
    requires MakeOutput(op).Ok?
    ensures var checked := CheckLimits(NegotiatedLimits(s), MakeOutput(op).value);
            if checked.Some? then EncodeWith(s, op) == Error(CodecFailed(checked.value)) else EncodeWith(s, op).Ok?
  {
  }

  lemma LimitsNegotiated(s: State)
    ensures var limits := NegotiatedLimits(s);
            ValidLimits(limits) && limits == DEFAULT_LIMITS.(maxPayload := limits.maxPayload)
  {
  }

  lemma OutputChecked(s: State, op: O.Op, line: string, block: nat, size: nat)
    requires MakeOutput(op).Ok?
    requires var out := MakeOutput(op).value;
             && out.line == line && BodyLength(out.framing) == size && !out.framing.Line?
             && (if out.framing.Headers? then out.framing.headerBytes else 0) == block
    ensures var fits, limit := |line| <= DEFAULT_LIMITS.maxLine && block <= DEFAULT_LIMITS.maxHeader, NegotiatedLimits(s).maxPayload;
            && (fits && size > limit ==>
                  EncodeWith(s, op) == Error(CodecFailed(PacketFailure(PayloadTooLarge(size, limit)))))
            && (EncodeWith(s, op).Ok? <==> fits && size <= limit && |line| + 2 + size + 2 <= DEFAULT_LIMITS.maxPacket)
  {
    LimitsNegotiated(s);
    LimitsChecked(NegotiatedLimits(s), MakeOutput(op).value);
    EncodeChecks(s, op);
  }

  lemma PublishChecked(s: State, m: O.Message)
    ensures var op := PublishOp(m);
            var size, limit := BlockSize(m) + |m.payload|, NegotiatedLimits(s).maxPayload;
            && (FramingFits(m) && size > limit ==>
                  EncodeWith(s, op) == Error(CodecFailed(PacketFailure(PayloadTooLarge(size, limit)))))
            && (EncodeWith(s, op).Ok? <==>
                  FramingFits(m) && size <= limit && |PublishLine(m)| + 2 + size + 2 <= DEFAULT_LIMITS.maxPacket)
  {
    PublishMade(m);
    OutputChecked(s, PublishOp(m), PublishLine(m), BlockSize(m), BlockSize(m) + |m.payload|);
  }

  predicate PublishPermitted(s: State, m: O.Message) {
    s.phase == Connected && (m.headers == [] || (s.info.Some? && s.info.value.headers))
  }

  lemma PublishEncodes(s: State, m: O.Message)
    ensures OutgoingPublish(s, m).Ok? <==> PublishPermitted(s, m) && EncodeWith(s, PublishOp(m)).Ok?
    ensures forall size, limit ::
              (PublishPermitted(s, m)
               && EncodeWith(s, PublishOp(m)) == Error(CodecFailed(PacketFailure(PayloadTooLarge(size, limit)))))
              ==> OutgoingPublish(s, m) == Error(MaxPayloadExceeded(size, limit))
  {
  }

  /** A publish succeeds exactly on an established connection, with headers only where the server takes them, when
      line and header block fit and header block and payload together stay within the server's payload bound and
      the packet bound; beyond the payload bound the error gives the size and the bound. */
  lemma PublishExactly(s: State, m: O.Message)
    ensures var size := BlockSize(m) + |m.payload|;
            var limit := if s.info.Some? then s.info.value.maxPayload else DEFAULT_LIMITS.maxPayload;
            && (OutgoingPublish(s, m).Ok? <==>
                  PublishPermitted(s, m) && FramingFits(m) && size <= limit
                  && |PublishLine(m)| + 2 + size + 2 <= DEFAULT_LIMITS.maxPacket)
            && (PublishPermitted(s, m) && FramingFits(m) && size > limit ==>
                  OutgoingPublish(s, m) == Error(MaxPayloadExceeded(size, limit)))
  {
    PublishChecked(s, m);
    PublishEncodes(s, m);
  }
}
