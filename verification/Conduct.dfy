/** What each input makes of the client, field by field. */
module Conduct {
  import opened Base
  import opened Codec
  import opened Packet
  import O = Op
  import Subject
  import opened Client
  import opened Invariant
  import opened Wire
  import opened Shape
  import opened Server
  import History

  /** Nothing but the state and the events comes of it. */
  predicate Silent(t: Transition) {
    t.output == [] && t.deliveries == [] && t.subscriptionId.None?
  }

  predicate Nothing(s: State, t: Transition) {
    t.state == s && t.events == [] && Silent(t)
  }

  lemma StartsExactly(config: Config)
    ensures var s := Create(config);
            && s.config == config && s.phase == AwaitingInfo && s.info.None? && s.nextSid == 1 && s.subscriptions == []
            && s.draining == [] && Contents(s.pings) == [] && s.unanswered == 0 && s.nextPing.None?
  {
  }

  // ---- Incoming operations ----

  /** The operations the client takes. */
  predicate Takes(json: Json, s: State, op: O.Op) {
    && s.phase != Closed
    && match op
       case Info(text) => json.infoOf(text).Ok?
       case Ping => true
       case Pong | PlusOk | ServerError(_) | Msg(_, _) | Hmsg(_, _, _) => s.phase == Connected || s.phase == Draining
       case _ => false
  }

  /** Why the client refuses the others. */
  function Refusal(json: Json, s: State, op: O.Op): ClientError
    requires !Takes(json, s, op)
  {
    if s.phase == Closed then IsClosed
    else match op
      case Info(text) => InvalidInfo(json.infoOf(text).error)
      case _ => UnexpectedOperation(op)
  }

  lemma OperationTaken(json: Json, s: State, now: nat, op: O.Op)
    ensures var r := HandleOperation(json, s, now, op);
            if Takes(json, s, op) then r.Ok? else r == Error(Refusal(json, s, op))
  {
    PingEncodes(s);
  }

  /** The new information is kept and announced, with the lame-duck notice exactly when it is flagged. */
  lemma InfoExactly(json: Json, s: State, now: nat, text: string)
    requires s.phase != Closed && json.infoOf(text).Ok?
    ensures HandleOperation(json, s, now, O.Info(text)).Ok?
    ensures var t, info := HandleOperation(json, s, now, O.Info(text)).value, json.infoOf(text).value;
            && t.state == s.(phase := if s.phase == AwaitingInfo then AwaitingConnect else s.phase, info := Some(info),
                             nextPing := t.state.nextPing)
            && t.events == [InfoReceived(info)] + (if info.lameDuckMode then [LameDuckMode] else []) && Silent(t)
  {
  }

  lemma PingAnswered(s: State, now: nat)
    ensures HandlePing(s, now).Ok?
    ensures var t := HandlePing(s, now).value;
            && t.state == s.(nextPing := t.state.nextPing) && t.events == [] && t.deliveries == []
            && t.subscriptionId.None?
  {
    PingEncodes(s);
  }

  lemma PingExactly(json: Json, s: State, now: nat)
    requires s.phase != Closed
    ensures HandleOperation(json, s, now, O.Ping).Ok?
    ensures var t := HandleOperation(json, s, now, O.Ping).value;
            && t.state == s.(nextPing := t.state.nextPing) && t.events == [] && t.deliveries == []
            && t.subscriptionId.None? && Decoded(t.output) == [O.Pong]
  {
    PingAnswered(s, now);
    PongHeard(s, now);
    assert HandleOperation(json, s, now, O.Ping) == HandlePing(s, now);
  }

  /** What the PONG of a barrier takes away. */
  ghost predicate Resolves(s: State, origin: PingOrigin, after: State) {
    match origin
    case Liveness | FlushBarrier => after.subscriptions == s.subscriptions && after.draining == s.draining
    case DrainBarrier => after.subscriptions == [] && after.draining == []
    case SubscriptionDrain(sid) => Forgets(s, sid, after)
  }

  ghost predicate Forgets(s: State, sid: int, after: State) {
    && (forall k :: Find(after.subscriptions, k) == if k == sid then None else Find(s.subscriptions, k))
    && (forall k :: k in after.draining <==> k in s.draining && k != sid)
  }

  lemma ForgetForgets(s: State, sid: int)
    ensures Forgets(s, sid, Forget(s, sid))
    ensures var after := Forget(s, sid); after == s.(subscriptions := after.subscriptions, draining := after.draining)
  {
    forall k ensures Find(Forget(s, sid).subscriptions, k) == if k == sid then None else Find(s.subscriptions, k) {
      FindRemove(s.subscriptions, sid, k);
    }
    WithoutExact(s.draining, sid);
  }

  lemma PongExactly(json: Json, s: State, now: nat)
    requires InSession(s)
    ensures HandleOperation(json, s, now, O.Pong).Ok?
    ensures var t := HandleOperation(json, s, now, O.Pong).value; var waiting := Contents(s.pings);
            && t.state == s.(unanswered := 0, pings := t.state.pings, subscriptions := t.state.subscriptions,
                             draining := t.state.draining, nextPing := t.state.nextPing)
            && Silent(t)
            && if waiting == [] then
                 t.events == [ProtocolNotice(PongNotice)] && Contents(t.state.pings) == []
                 && t.state.subscriptions == s.subscriptions && t.state.draining == s.draining
               else
                 t.events == (if waiting[0] == Liveness then [] else [FlushCompleted])
                 && Contents(t.state.pings) == waiting[1..] && Resolves(s, waiting[0], t.state)
  {
    TakeExact(s.pings);
    if TakePing(s.pings).Some? && TakePing(s.pings).value.0.SubscriptionDrain? {
      ForgetForgets(s.(pings := TakePing(s.pings).value.1, unanswered := 0), TakePing(s.pings).value.0.sid);
    }
  }

  lemma OkExactly(json: Json, s: State, now: nat)
    requires InSession(s)
    ensures HandleOperation(json, s, now, O.PlusOk).Ok?
    ensures var t := HandleOperation(json, s, now, O.PlusOk).value;
            t.state == s.(nextPing := t.state.nextPing) && t.events == [ProtocolNotice(OkNotice)] && Silent(t)
  {
  }

  /** The text of a server error without the quotes around it, if it has them. */
  ghost predicate Unquotes(text: string, inner: string) {
    text == "'" + inner + "'" || (inner == text && !exists x: string :: text == "'" + x + "'")
  }

  lemma StripUnquotes(text: string)
    ensures Unquotes(text, StripQuotes(text))
  {
    if |text| >= 2 && text[0] == '\'' && text[|text| - 1] == '\'' {
      assert text == "'" + StripQuotes(text) + "'";
    }
  }

  lemma ErrorExactly(json: Json, s: State, now: nat, text: string)
    requires InSession(s)
    ensures HandleOperation(json, s, now, O.ServerError(text)).Ok?
    ensures var t := HandleOperation(json, s, now, O.ServerError(text)).value;
            && t.state == s.(nextPing := t.state.nextPing) && Silent(t)
            && |t.events| == 1 && t.events[0].ServerErrorEvent? && Unquotes(text, t.events[0].text)
  {
    StripUnquotes(text);
  }

  /** A message on a live id is delivered as it came and counted; any other is dropped without a trace. */
  lemma MessageExactly(json: Json, s: State, now: nat, op: O.Op)
    requires InSession(s) && (op.Msg? || op.Hmsg?)
    ensures HandleOperation(json, s, now, op).Ok?
    ensures var t, before := HandleOperation(json, s, now, op).value, Find(s.subscriptions, op.sid);
            if before.None? then Nothing(s, t)
            else
              var after := Find(t.state.subscriptions, op.sid);
              && t.state == s.(subscriptions := t.state.subscriptions, nextPing := t.state.nextPing)
              && t.output == [] && t.events == [] && t.subscriptionId.None?
              && t.deliveries == [Delivery(op.sid, op.message, if op.Hmsg? then op.status else None, op.Hmsg?)]
              && (forall k :: k != op.sid ==> Find(t.state.subscriptions, k) == Find(s.subscriptions, k))
              && (after.None? <==> before.value.remaining == Some(1))
              && (after.Some? ==> CountsOne(before.value, after.value))
  {
    var d := Delivery(op.sid, op.message, if op.Hmsg? then op.status else None, op.Hmsg?);
    forall k ensures Find(IncomingMessage(s, now, d).state.subscriptions, k) ==
                     if Find(s.subscriptions, op.sid).Some? && k == op.sid
                     then History.AfterMessage(Find(s.subscriptions, op.sid).value) else Find(s.subscriptions, k)
    {
      History.MessageFind(s, now, d, k);
    }
  }

  predicate CountsOne(before: Subscription, after: Subscription) {
    && after.sid == before.sid && after.subject == before.subject && after.queueGroup == before.queueGroup
    && after.delivered == before.delivered + 1
    && after.remaining == if before.remaining.None? then None else Some(before.remaining.value - 1)
  }

  /** What one read makes of the client when it is not an operation. */
  lemma ReadExactly(json: Json, s: State, now: nat, e: CodecError)
    ensures var r := IncomingResult(json, s, now, Error(e));
            if e == PacketFailure(NeedMore) then r.Ok? && Nothing(s, r.value)
            else if e == PacketFailure(EndOfInput) then r.Ok? && Closes(s, r.value)
            else if e.PacketFailure? then r == Error(PacketFailed(e.packet))
            else r == Error(CodecFailed(e))
  {
  }

  predicate Closes(s: State, t: Transition) {
    t.state == s.(phase := Closed, nextPing := None) && t.events == [ClosedEvent] && Silent(t)
  }

  // ---- Time ----

  lemma TimerExactly(s: State, now: nat)
    ensures var t := Timer(s, now);
            if !(s.phase == Connected && s.nextPing.Some? && s.nextPing.value <= now) then Nothing(s, t)
            else if s.unanswered >= s.config.maxPings then Closes(s, t)
            else
              && t.state == s.(unanswered := s.unanswered + 1, pings := t.state.pings, nextPing := t.state.nextPing)
              && Contents(t.state.pings) == Contents(s.pings) + [Liveness]
              && t.events == [] && t.deliveries == [] && t.subscriptionId.None? && Decoded(t.output) == [O.Ping]
  {
    EnqueueExact(s.pings, Liveness);
    TimerShaped(s, now);
    TimerHeard(s, now);
  }

  // ---- Reconnecting ----

  lemma ReconnectExactly(json: Json, s: State, preserve: bool)
    requires Inv(s)
    ensures var t := Step(json, s, Reconnect(preserve));
            && t.state == s.(phase := AwaitingInfo, info := None, draining := [], unanswered := 0, nextPing := None,
                             pings := t.state.pings)
            && Contents(t.state.pings) == (if preserve then Contents(s.pings) else [])
            && t.events == [] && Silent(t)
  {
  }

  lemma ForgetExactly(json: Json, s: State, sid: int)
    requires Inv(s)
    ensures var t := Step(json, s, Drop(sid));
            && t.state == s.(subscriptions := t.state.subscriptions, draining := t.state.draining)
            && Forgets(s, sid, t.state) && t.events == [] && Silent(t)
  {
    ForgetForgets(s, sid);
  }

  /** What CONNECT says. */
  lemma ConnectSays(s: State, info: ServerInfo, credentials: Credentials, tlsRequired: bool)
    ensures var v := ConnectValue(s, info, credentials, tlsRequired);
            && !v.verbose && !v.pedantic && v.tlsRequired == tlsRequired && v.name == s.config.name
            && v.lang == "ocaml" && v.version == "0.1.0" && v.protocol == 1
            && v.echo == !s.config.noEcho && v.headers == s.config.headers
            && v.noResponders == (s.config.noResponders && info.headers) && v.credentials == credentials
  {
  }

  lemma ReconnectInformed(json: Json, s: State, preserve: bool, now: nat, text: string)
    requires Inv(s) && json.infoOf(text).Ok?
    ensures var s1 := Step(json, s, Reconnect(preserve)).state;
            && Inv(s1)
            && var s2 := Step(json, s1, Receive(now, Ok(O.Info(text)))).state;
            && Inv(s2) && s2.phase == AwaitingConnect && s2.info == Some(json.infoOf(text).value) && s2.config == s.config
            && s2.subscriptions == s.subscriptions && s2.nextSid == s.nextSid
  {
    var s1 := Step(json, s, Reconnect(preserve)).state;
    StepKeeps(json, s, Reconnect(preserve));
    ReconnectExactly(json, s, preserve);
    StepKeeps(json, s1, Receive(now, Ok(O.Info(text))));
    InfoExactly(json, s1, now, text);
  }

  /** The whole cycle, from any state, the closed one included: after a reconnect and a readable INFO, Connect is
      accepted exactly when its text and every SUB line fit, and what the server hears builds the subscriptions the
      client held before. */
  lemma ReconnectCycle(json: Json, s: State, preserve: bool, now: nat, text: string, credentials: Credentials,
                       tlsRequired: bool)
    requires Inv(s) && s.nextSid <= MAX_INT + 1 && json.infoOf(text).Ok?
    ensures var s1 := Step(json, s, Reconnect(preserve)).state;
            && Inv(s1)
            && var s2 := Step(json, s1, Receive(now, Ok(O.Info(text)))).state;
            && Inv(s2) && s2.phase == AwaitingConnect && s2.info == Some(json.infoOf(text).value)
            && s2.subscriptions == s.subscriptions && s2.nextSid == s.nextSid
            && var said := json.connectText(ConnectValue(s, json.infoOf(text).value, credentials, tlsRequired));
               var r := Outgoing(json, s2, Command.Connect(credentials, tlsRequired));
            && (r.Ok? <==> said.Ok? && ConnectFits(said.value) && forall sub <- s.subscriptions :: SubFits(sub))
            && (r.Ok? ==>
                  && r.value.state.phase == Connected && r.value.state.subscriptions == s.subscriptions
                  && r.value.events == [ConnectedEvent]
                  && |Decoded(r.value.output)| > 0 && Decoded(r.value.output)[0] == O.Connect(said.value)
                  && ProcessAll(map[], Decoded(r.value.output)) == TableOf(s.subscriptions))
  {
    var info := json.infoOf(text).value;
    ReconnectInformed(json, s, preserve, now, text);
    var s2 := Step(json, Step(json, s, Reconnect(preserve)).state, Receive(now, Ok(O.Info(text)))).state;
    ConnectsAgain(json, s2, credentials, tlsRequired);
    assert ConnectValue(s2, info, credentials, tlsRequired) == ConnectValue(s, info, credentials, tlsRequired);
  }

  lemma ConnectsAgain(json: Json, s: State, credentials: Credentials, tlsRequired: bool)
    requires Inv(s) && s.phase == AwaitingConnect && s.nextSid <= MAX_INT + 1
    ensures var said := json.connectText(ConnectValue(s, s.info.value, credentials, tlsRequired));
            var r := Outgoing(json, s, Command.Connect(credentials, tlsRequired));
            && (r.Ok? <==> said.Ok? && ConnectFits(said.value) && forall sub <- s.subscriptions :: SubFits(sub))
            && (r.Ok? ==>
                  && r.value.state == s.(phase := Connected) && r.value.events == [ConnectedEvent]
                  && |Decoded(r.value.output)| > 0 && Decoded(r.value.output)[0] == O.Connect(said.value)
                  && ProcessAll(map[], Decoded(r.value.output)) == TableOf(s.subscriptions))
  {
    ConnectExactly(json, s, credentials, tlsRequired);
    if OutgoingConnect(json, s, credentials, tlsRequired).Ok? {
      ReplayRebuilds(json, s, credentials, tlsRequired);
      ConnectShaped(json, s, credentials, tlsRequired);
    }
  }

  /** A publish right after an INFO is held to that INFO. */
  lemma PublishAfterInfo(json: Json, s: State, now: nat, text: string, m: O.Message)
    requires s.phase == Connected && json.infoOf(text).Ok?
    ensures HandleOperation(json, s, now, O.Info(text)).Ok?
    ensures var info := json.infoOf(text).value;
            var r := OutgoingPublish(HandleOperation(json, s, now, O.Info(text)).value.state, m);
            var size := BlockSize(m) + |m.payload|;
            && (r.Ok? <==> (m.headers == [] || info.headers) && FramingFits(m) && size <= info.maxPayload
                           && |PublishLine(m)| + 2 + size + 2 <= 2097152)
            && ((m.headers == [] || info.headers) && FramingFits(m) && size > info.maxPayload ==>
                  r == Error(MaxPayloadExceeded(size, info.maxPayload)))
            && (m.headers != [] && !info.headers ==> r == Error(HeadersNotNegotiated))
  {
    InfoExactly(json, s, now, text);
    var after := HandleOperation(json, s, now, O.Info(text)).value.state;
    PublishExactly(after, m);
    if m.headers != [] && !json.infoOf(text).value.headers {
      PublishUnnegotiated(after, m);
    }
  }

  lemma PublishUnnegotiated(s: State, m: O.Message)
    requires s.phase == Connected && m.headers != [] && (s.info.None? || !s.info.value.headers)
    ensures OutgoingPublish(s, m) == Error(HeadersNotNegotiated)
  {
  }

  // ---- Accepted commands ----

  lemma SubscribeExactly(json: Json, s: State, subject: Subject.Filter, queueGroup: Option<Subject.Subject>)
    requires Inv(s) && Outgoing(json, s, Subscribe(subject, queueGroup)).Ok?
    ensures var t := Outgoing(json, s, Subscribe(subject, queueGroup)).value;
            && t.state == s.(nextSid := s.nextSid + 1,
                             subscriptions := [Subscription(s.nextSid, subject, queueGroup, None, 0)] + s.subscriptions)
            && t.events == [] && t.deliveries == [] && t.subscriptionId == Some(s.nextSid)
  {
    SubscribeShaped(s, Subscribe(subject, queueGroup));
  }

  ghost predicate Unsubscribes(s: State, before: Subscription, max: Option<int>, after: State) {
    && after == s.(subscriptions := after.subscriptions, draining := after.draining)
    && (forall k :: k in after.draining <==> k in s.draining && k != before.sid)
    && (forall k :: k != before.sid ==> Find(after.subscriptions, k) == Find(s.subscriptions, k))
    && Find(after.subscriptions, before.sid) ==
       if max.None? || before.delivered >= max.value then None
       else Some(before.(remaining := Some(max.value - before.delivered)))
  }

  lemma UnsubscribedExactly(s: State, before: Subscription, max: Option<int>)
    requires Find(s.subscriptions, before.sid) == Some(before)
    ensures Unsubscribes(s, before, max, Unsubscribed(s, before, max))
  {
    forall k ensures Find(Limited(s.subscriptions, before, max), k) ==
                     if k != before.sid then Find(s.subscriptions, k)
                     else if max.None? || before.delivered >= max.value then None
                     else Some(before.(remaining := Some(max.value - before.delivered)))
    {
      History.LimitedFind(s.subscriptions, before, max, k);
    }
    WithoutExact(s.draining, before.sid);
  }

  /** Nothing but the subscription itself and its mark as draining changes. */
  lemma UnsubscribeExactly(json: Json, s: State, command: Command)
    requires Inv(s) && (command.Unsubscribe? || command.AutoUnsubscribe?) && Outgoing(json, s, command).Ok?
    ensures Find(s.subscriptions, command.sid).Some?
    ensures var t, max := Outgoing(json, s, command).value, if command.Unsubscribe? then None else Some(command.maxMessages);
            && Unsubscribes(s, Find(s.subscriptions, command.sid).value, max, t.state)
            && t.events == [] && t.deliveries == [] && t.subscriptionId.None?
  {
    var max := if command.Unsubscribe? then None else Some(command.maxMessages);
    UnsubscribeShaped(s, command.sid, max);
    UnsubscribedExactly(s, Find(s.subscriptions, command.sid).value, max);
  }

  lemma DrainSubscriptionExactly(json: Json, s: State, sid: int)
    requires Inv(s) && Outgoing(json, s, DrainSubscription(sid)).Ok?
    ensures var t := Outgoing(json, s, DrainSubscription(sid)).value;
            && t.state == s.(draining := t.state.draining, pings := t.state.pings)
            && (forall k :: k in t.state.draining <==> k in s.draining || k == sid)
            && Contents(t.state.pings) == Contents(s.pings) + [SubscriptionDrain(sid)]
            && t.events == [] && t.deliveries == [] && t.subscriptionId.None?
  {
    DrainSubscriptionShaped(s, sid);
    EnqueueExact(s.pings, SubscriptionDrain(sid));
  }

  lemma FlushExactly(json: Json, s: State)
    requires Inv(s) && Outgoing(json, s, Flush).Ok?
    ensures var t := Outgoing(json, s, Flush).value;
            && t.state == s.(pings := t.state.pings) && Contents(t.state.pings) == Contents(s.pings) + [FlushBarrier]
            && t.events == [] && t.deliveries == [] && t.subscriptionId.None?
  {
    FlushShaped(s);
    EnqueueExact(s.pings, FlushBarrier);
  }

  lemma DrainExactly(json: Json, s: State)
    requires Inv(s) && Outgoing(json, s, Drain).Ok?
    ensures var t := Outgoing(json, s, Drain).value;
            && t.state == s.(phase := Draining, pings := t.state.pings)
            && Contents(t.state.pings) == Contents(s.pings) + [DrainBarrier]
            && t.events == [DrainingEvent] && t.deliveries == [] && t.subscriptionId.None?
  {
    DrainShaped(s);
    EnqueueExact(s.pings, DrainBarrier);
  }

  lemma PublishChangesNothing(json: Json, s: State, m: O.Message)
    requires Inv(s) && Outgoing(json, s, Publish(m)).Ok?
    ensures var t := Outgoing(json, s, Publish(m)).value;
            t.state == s && t.events == [] && t.deliveries == [] && t.subscriptionId.None?
  {
    PublishShaped(s, m);
  }

  lemma CloseExactly(json: Json, s: State)
    requires Inv(s)
    ensures var r := Outgoing(json, s, Close); if s.phase == Closed then r == Error(IsClosed) else r.Ok? && Closes(s, r.value)
  {
  }

  // ---- Refused commands ----

  /** What a command that needs a connection is told without one. */
  predicate NeedsConnection(s: State, e: ClientError) {
    match s.phase
    case AwaitingInfo | AwaitingConnect => e == NotConnected
    case Draining => e == IsDraining
    case Closed => e == IsClosed
    case Connected => false
  }

  /** What a command on subscriptions is told when the connection is being given up. */
  predicate GivenUp(s: State, e: ClientError) {
    (s.phase == Draining && e == IsDraining) || (s.phase == Closed && e == IsClosed)
  }

  lemma ConnectRefused(json: Json, s: State, credentials: Credentials, tlsRequired: bool)
    requires Inv(s)
    ensures var r := Outgoing(json, s, Command.Connect(credentials, tlsRequired));
            match s.phase
            case AwaitingInfo => r == Error(InfoNotReceived)
            case Connected => r == Error(AlreadyConnected)
            case Draining => r == Error(IsDraining)
            case Closed => r == Error(IsClosed)
            case AwaitingConnect =>
              var said := json.connectText(ConnectValue(s, s.info.value, credentials, tlsRequired));
              said.Error? ==> r == Error(InvalidInfo(said.error))
  {
  }

  lemma PublishRefused(json: Json, s: State, m: O.Message)
    requires Inv(s) && s.phase != Connected
    ensures var r := Outgoing(json, s, Publish(m)); r.Error? && NeedsConnection(s, r.error)
  {
  }

  lemma SubscribeRefused(json: Json, s: State, subject: Subject.Filter, queueGroup: Option<Subject.Subject>)
    requires Inv(s) && !Open(s)
    ensures var r := Outgoing(json, s, Subscribe(subject, queueGroup)); r.Error? && GivenUp(s, r.error)
  {
  }

  /** The number is looked at first, then the id, then the phase. */
  lemma UnsubscribeRefused(json: Json, s: State, command: Command)
    requires Inv(s) && (command.Unsubscribe? || command.AutoUnsubscribe?)
    ensures var r := Outgoing(json, s, command);
            if command.AutoUnsubscribe? && command.maxMessages <= 0 then r == Error(InvalidMaxMessagesCount(command.maxMessages))
            else if command.sid <= 0 then r == Error(InvalidSubscriptionId(command.sid))
            else if Find(s.subscriptions, command.sid).None? then r == Error(UnknownSubscription(command.sid))
            else !Open(s) ==> r.Error? && GivenUp(s, r.error)
  {
  }

  lemma DrainSubscriptionRefused(json: Json, s: State, sid: int)
    requires Inv(s)
    ensures var r := Outgoing(json, s, DrainSubscription(sid));
            if s.phase != Connected then r.Error? && NeedsConnection(s, r.error)
            else if sid <= 0 then r == Error(InvalidSubscriptionId(sid))
            else if sid in s.draining then r == Error(IsDraining)
            else Find(s.subscriptions, sid).None? ==> r == Error(UnknownSubscription(sid))
  {
  }

  lemma DrainRefused(json: Json, s: State)
    requires Inv(s) && s.phase != Connected
    ensures var r := Outgoing(json, s, Drain); r.Error? && NeedsConnection(s, r.error)
  {
  }

  lemma FlushRefused(json: Json, s: State)
    requires Inv(s) && s.phase == Closed
    ensures Outgoing(json, s, Flush) == Error(IsClosed)
  {
  }
}
