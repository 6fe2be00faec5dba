/** What each input changes and what the server hears of it, apart from how lines are encoded. */
module Shape {
  import opened Base
  import opened Packet
  import opened Codec
  import O = Op
  import opened Client
  import opened Invariant
  import opened Wire

  ghost predicate Sees(t: Transition, s: State, events: seq<Event>, id: Option<int>) {
    t.state == s && t.events == events && t.deliveries == [] && t.subscriptionId == id
  }

  predicate Open(s: State) {
    s.phase == AwaitingInfo || s.phase == AwaitingConnect || s.phase == Connected
  }

  predicate InSession(s: State) {
    s.phase == Connected || s.phase == Draining
  }

  /** The change an accepted command makes. */
  ghost predicate Accepted(s: State, command: Command, t: Transition) {
    match command
    case Connect(_, _) => s.phase == AwaitingConnect && Sees(t, s.(phase := Connected), [ConnectedEvent], None)
    case Publish(_) => s.phase == Connected && Sees(t, s, [], None)
    case Subscribe(subject, queueGroup) => Open(s) && Sees(t, Subscribed(s, subject, queueGroup), [], Some(s.nextSid))
    case Unsubscribe(sid) =>
      var found := Find(s.subscriptions, sid);
      Open(s) && found.Some? && Sees(t, Unsubscribed(s, found.value, None), [], None)
    case AutoUnsubscribe(sid, max) =>
      var found := Find(s.subscriptions, sid);
      Open(s) && found.Some? && max > 0 && Sees(t, Unsubscribed(s, found.value, Some(max)), [], None)
    case DrainSubscription(sid) =>
      s.phase == Connected && sid !in s.draining && Find(s.subscriptions, sid).Some?
      && Sees(t, SubscriptionDraining(s, sid), [], None)
    case Flush => s.phase != Closed && Sees(t, s.(pings := EnqueuePing(s.pings, FlushBarrier)), [], None)
    case Drain =>
      s.phase == Connected
      && Sees(t, s.(phase := Draining, pings := EnqueuePing(s.pings, DrainBarrier)), [DrainingEvent], None)
    case Close => s.phase != Closed && t == ClosedTransition(s)
  }

  /** The change an accepted operation makes. */
  ghost predicate Handled(s: State, now: nat, op: O.Op, t: Transition) {
    && s.phase != Closed
    && match op
       case Info(_) =>
         var phase := if s.phase == AwaitingInfo then AwaitingConnect else s.phase;
         t.state.info.Some?
         && Sees(t, Touch(s.(phase := phase, info := t.state.info), now), InfoEvents(t.state.info.value), None)
       case Ping => Sees(t, Touch(s, now), [], None)
       case Pong => InSession(s) && t == HandlePong(s, now)
       case PlusOk => InSession(s) && Sees(t, Touch(s, now), [ProtocolNotice(OkNotice)], None)
       case ServerError(text) => InSession(s) && Sees(t, Touch(s, now), [ServerErrorEvent(StripQuotes(text))], None)
       case Msg(sid, message) => InSession(s) && t == IncomingMessage(s, now, Delivery(sid, message, None, false))
       case Hmsg(sid, message, status) => InSession(s) && t == IncomingMessage(s, now, Delivery(sid, message, status, true))
       case _ => false
  }

  ghost predicate Answered(s: State, now: nat, read: Result<O.Op, CodecError>, t: Transition) {
    match read
    case Ok(op) => Handled(s, now, op, t)
    case Error(e) => e == PacketFailure(EndOfInput) && t == ClosedTransition(s)
  }

  predicate PingDue(s: State, now: nat) {
    s.phase == Connected && s.nextPing.Some? && s.nextPing.value <= now
  }

  ghost predicate Ticked(s: State, now: nat, t: Transition) {
    if !PingDue(s, now) then t == Idle(s)
    else if s.unanswered >= s.config.maxPings then t == ClosedTransition(s)
    else Sees(t, Pinged(s, now), [], None)
  }

  ghost predicate Shaped(s: State, input: Input, t: Transition) {
    match input
    case Do(command) => t == Idle(s) || Accepted(s, command, t)
    case Receive(now, read) => t == Idle(s) || Answered(s, now, read, t)
    case Tick(now) => Ticked(s, now, t)
    case Drop(sid) => t == Idle(Forget(s, sid))
    case Reconnect(preserve) => t == Idle(PrepareReconnect(s, preserve))
  }

  lemma SubscribeShaped(s: State, command: Command)
    requires command.Subscribe?
    ensures var r := OutgoingSubscribe(s, command.subject, command.queueGroup); r.Ok? ==> Accepted(s, command, r.value)
  {
  }

  lemma UnsubscribeShaped(s: State, sid: int, max: Option<int>)
    ensures var r := OutgoingUnsubscribe(s, sid, max);
            r.Ok? ==> Open(s) && Find(s.subscriptions, sid).Some?
                      && Sees(r.value, Unsubscribed(s, Find(s.subscriptions, sid).value, max), [], None)
  {
  }

  lemma DrainSubscriptionShaped(s: State, sid: int)
    ensures var r := OutgoingDrainSubscription(s, sid); r.Ok? ==> Accepted(s, DrainSubscription(sid), r.value)
  {
  }

  lemma DrainShaped(s: State)
    ensures var r := OutgoingDrain(s); r.Ok? ==> Accepted(s, Drain, r.value)
  {
  }

  lemma FlushShaped(s: State)
    ensures var r := OutgoingFlush(s); r.Ok? ==> Accepted(s, Flush, r.value)
  {
  }

  lemma PublishShaped(s: State, m: O.Message)
    ensures var r := OutgoingPublish(s, m); r.Ok? ==> Accepted(s, Publish(m), r.value)
  {
  }

  lemma ConnectShaped(json: Json, s: State, credentials: Credentials, tlsRequired: bool)
    requires s.phase == AwaitingConnect ==> s.info.Some?
    ensures var r := OutgoingConnect(json, s, credentials, tlsRequired);
            r.Ok? ==> Accepted(s, Connect(credentials, tlsRequired), r.value)
  {
  }

  lemma CommandShaped(json: Json, s: State, command: Command)
    requires Inv(s)
    ensures var r := Outgoing(json, s, command); r.Ok? ==> Accepted(s, command, r.value)
  {
    match command
    case Connect(credentials, tlsRequired) => ConnectShaped(json, s, credentials, tlsRequired);
    case Publish(m) => PublishShaped(s, m);
    case Subscribe(_, _) => SubscribeShaped(s, command);
    case Unsubscribe(sid) => UnsubscribeShaped(s, sid, None);
    case AutoUnsubscribe(sid, max) => UnsubscribeShaped(s, sid, Some(max));
    case DrainSubscription(sid) => DrainSubscriptionShaped(s, sid);
    case Flush => FlushShaped(s);
    case Drain => DrainShaped(s);
    case Close =>
  }

  /** When a command is accepted, for all but Connect and Publish. */
  predicate Acceptable(s: State, command: Command) {
    match command
    case Subscribe(subject, queueGroup) =>
      Open(s) && (s.phase == Connected ==> SubFits(Subscription(s.nextSid, subject, queueGroup, None, 0)))
    case Unsubscribe(sid) => Open(s) && Find(s.subscriptions, sid).Some?
    case AutoUnsubscribe(sid, max) => Open(s) && Find(s.subscriptions, sid).Some? && max > 0
    case DrainSubscription(sid) => s.phase == Connected && Find(s.subscriptions, sid).Some? && sid !in s.draining
    case Drain => s.phase == Connected
    case _ => s.phase != Closed
  }

  lemma SubscribeAccepted(s: State, command: Command)
    requires command.Subscribe? && s.nextSid >= 1
    ensures OutgoingSubscribe(s, command.subject, command.queueGroup).Ok? <==> Acceptable(s, command)
  {
    LineEncodes(Subscribed(s, command.subject, command.queueGroup), O.Sub(command.subject, command.queueGroup, s.nextSid));
  }

  lemma UnsubscribeAccepted(s: State, sid: int, max: Option<int>)
    requires Inv(s) && s.nextSid <= MAX_INT && (max.Some? ==> 0 < max.value <= MAX_INT)
    ensures OutgoingUnsubscribe(s, sid, max).Ok? <==> Open(s) && Find(s.subscriptions, sid).Some?
  {
    var found := Find(s.subscriptions, sid);
    if found.Some? {
      FindDescending(s.subscriptions, s.nextSid, sid);
      UnsubEncodes(Unsubscribed(s, found.value, max), sid, if Client.Ends(found.value, max) then None else max);
    }
  }

  lemma DrainSubscriptionAccepted(s: State, sid: int)
    requires Inv(s) && s.nextSid <= MAX_INT
    ensures OutgoingDrainSubscription(s, sid).Ok? <==> Acceptable(s, DrainSubscription(sid))
  {
    if Find(s.subscriptions, sid).Some? {
      FindDescending(s.subscriptions, s.nextSid, sid);
      UnsubEncodes(s, sid, None);
      PingEncodes(s);
      EncodeAllExact(s, [O.Unsub(sid, None), O.Ping]);
    }
  }

  lemma {:induction false} UnsubsEncode(s: State, subs: seq<Subscription>, below: int)
    requires Descending(subs, below) && below <= MAX_INT + 1
    ensures forall op <- Unsubs(subs, s.draining) :: EncodeWith(s, op).Ok?
  {
    if subs != [] {
      UnsubsEncode(s, subs[1..], subs[0].sid);
      UnsubEncodes(s, subs[0].sid, None);
    }
  }

  lemma DrainAccepted(s: State)
    requires Inv(s) && s.nextSid <= MAX_INT
    ensures OutgoingDrain(s).Ok? <==> s.phase == Connected
  {
    DrainFoldExact(s.subscriptions, s.draining, [O.Ping]);
    UnsubsEncode(s, s.subscriptions, s.nextSid);
    PingEncodes(s);
    EncodeAllExact(s, Unsubs(s.subscriptions, s.draining) + [O.Ping]);
  }

  /** A command is refused exactly when its phase, its subscription, its count or its line calls for it; no command
      fails because of another subscription or of what is queued. */
  lemma AcceptedExactly(json: Json, s: State, command: Command)
    requires Inv(s) && s.nextSid <= MAX_INT && !command.Connect? && !command.Publish?
    ensures Outgoing(json, s, command).Ok? <==> Acceptable(s, command)
  {
    match command
    case Subscribe(_, _) => SubscribeAccepted(s, command);
    case Unsubscribe(sid) => UnsubscribeAccepted(s, sid, None);
    case AutoUnsubscribe(sid, max) => if max > 0 { UnsubscribeAccepted(s, sid, Some(max)); }
    case DrainSubscription(sid) => DrainSubscriptionAccepted(s, sid);
    case Drain => DrainAccepted(s);
    case Flush => PingEncodes(s);
    case Close =>
  }

  lemma OperationShaped(json: Json, s: State, now: nat, op: O.Op)
    ensures var r := HandleOperation(json, s, now, op); r.Ok? ==> Handled(s, now, op, r.value)
  {
  }

  lemma TimerShaped(s: State, now: nat)
    ensures Ticked(s, now, Timer(s, now))
  {
    PingEncodes(Pinged(s, now));
  }

  /** Every step has the shape of its input. */
  lemma StepShaped(json: Json, s: State, input: Input)
    requires Inv(s)
    ensures Shaped(s, input, Step(json, s, input))
  {
    match input
    case Do(command) => CommandShaped(json, s, command);
    case Receive(now, read) => if read.Ok? { OperationShaped(json, s, now, read.value); }
    case Tick(now) => TimerShaped(s, now);
    case _ =>
  }

  // ---- What the server hears of a step ----

  ghost predicate HearsCommand(s: State, command: Command, heard: seq<O.Op>) {
    match command
    case Connect(_, _) => |heard| > 0 && heard[0].Connect? && heard[1..] == Replay(s.subscriptions)
    case Publish(m) => heard == [if m.headers == [] then O.Pub(m) else O.Hpub(m, None)]
    case Subscribe(subject, queueGroup) =>
      heard == if s.phase == Connected then [O.Sub(subject, queueGroup, s.nextSid)] else []
    case Unsubscribe(sid) => heard == if s.phase == Connected then [O.Unsub(sid, None)] else []
    case AutoUnsubscribe(sid, max) =>
      Find(s.subscriptions, sid).Some?
      && var ends := Ends(Find(s.subscriptions, sid).value, Some(max));
         heard == if s.phase == Connected then [O.Unsub(sid, if ends then None else Some(max))] else []
    case DrainSubscription(sid) => heard == [O.Unsub(sid, None), O.Ping]
    case Flush => heard == [O.Ping]
    case Drain => heard == Unsubs(s.subscriptions, s.draining) + [O.Ping]
    case Close => heard == []
  }

  /** An UNSUB for each subscription not already draining, oldest first. */
  function Unsubs(subs: seq<Subscription>, draining: seq<int>): seq<O.Op> {
    if subs == [] then []
    else Unsubs(subs[1..], draining) + if subs[0].sid in draining then [] else [O.Unsub(subs[0].sid, None)]
  }

  ghost predicate Hears(s: State, input: Input, t: Transition, heard: seq<O.Op>) {
    match input
    case Do(command) => if Accepted(s, command, t) && t != Idle(s) then HearsCommand(s, command, heard) else heard == []
    case Receive(_, read) => heard == if read == Ok(O.Ping) && t != Idle(s) then [O.Pong] else []
    case Tick(now) => heard == if PingDue(s, now) && s.unanswered < s.config.maxPings then [O.Ping] else []
    case _ => heard == []
  }

  lemma {:induction false} DrainFoldExact(subs: seq<Subscription>, draining: seq<int>, ops: seq<O.Op>)
    ensures DrainFold(subs, draining, ops) == Unsubs(subs, draining) + ops
    decreases subs
  {
    if subs != [] {
      var own := if subs[0].sid in draining then [] else [O.Unsub(subs[0].sid, None)];
      DrainFoldExact(subs[1..], draining, own + ops);
      assert own + ops == if subs[0].sid in draining then ops else [O.Unsub(subs[0].sid, None)] + ops;
      assert Unsubs(subs[1..], draining) + (own + ops) == Unsubs(subs, draining) + ops;
    }
  }

  lemma {:induction false} UnsubsRepresentable(subs: seq<Subscription>, draining: seq<int>, below: int)
    requires Descending(subs, below) && below <= MAX_INT + 1
    ensures forall op <- Unsubs(subs, draining) :: O.Representable(op)
  {
    if subs != [] {
      UnsubsRepresentable(subs[1..], draining, subs[0].sid);
    }
  }

  lemma SubscribeHeard(s: State, command: Command)
    requires command.Subscribe? && OutgoingSubscribe(s, command.subject, command.queueGroup).Ok? && s.nextSid <= MAX_INT
    ensures HearsCommand(s, command, Decoded(OutgoingSubscribe(s, command.subject, command.queueGroup).value.output))
  {
    var op := O.Sub(command.subject, command.queueGroup, s.nextSid);
    if s.phase == Connected {
      DecodedOne(Subscribed(s, command.subject, command.queueGroup), op);
    }
  }

  lemma UnsubscribeHeard(s: State, sid: int, max: Option<int>)
    requires Inv(s) && s.nextSid <= MAX_INT && (max.Some? ==> max.value <= MAX_INT) && OutgoingUnsubscribe(s, sid, max).Ok?
    ensures var sub := Find(s.subscriptions, sid);
            sub.Some? && Decoded(OutgoingUnsubscribe(s, sid, max).value.output) ==
            if s.phase == Connected then [O.Unsub(sid, if Ends(sub.value, max) then None else max)] else []
  {
    var sub := Find(s.subscriptions, sid);
    FindDescending(s.subscriptions, s.nextSid, sid);
    if s.phase == Connected {
      DecodedOne(Unsubscribed(s, sub.value, max), O.Unsub(sid, if Ends(sub.value, max) then None else max));
    }
  }

  lemma DrainSubscriptionHeard(s: State, sid: int)
    requires Inv(s) && s.nextSid <= MAX_INT && OutgoingDrainSubscription(s, sid).Ok?
    ensures HearsCommand(s, DrainSubscription(sid), Decoded(OutgoingDrainSubscription(s, sid).value.output))
  {
    FindDescending(s.subscriptions, s.nextSid, sid);
    DecodedAll(s, [O.Unsub(sid, None), O.Ping]);
  }

  lemma DrainHeard(s: State)
    requires Inv(s) && s.nextSid <= MAX_INT && OutgoingDrain(s).Ok?
    ensures HearsCommand(s, Drain, Decoded(OutgoingDrain(s).value.output))
  {
    DrainFoldExact(s.subscriptions, s.draining, [O.Ping]);
    UnsubsRepresentable(s.subscriptions, s.draining, s.nextSid);
    DecodedAll(s, Unsubs(s.subscriptions, s.draining) + [O.Ping]);
  }

  lemma FlushHeard(s: State)
    requires OutgoingFlush(s).Ok?
    ensures HearsCommand(s, Flush, Decoded(OutgoingFlush(s).value.output))
  {
    DecodedOne(s, O.Ping);
  }

  lemma PublishHeard(s: State, m: O.Message)
    requires OutgoingPublish(s, m).Ok?
    ensures HearsCommand(s, Publish(m), Decoded(OutgoingPublish(s, m).value.output))
  {
    DecodedOne(s, if m.headers == [] then O.Pub(m) else O.Hpub(m, None));
  }

  lemma CommandHeard(json: Json, s: State, command: Command)
    requires Inv(s) && s.nextSid <= MAX_INT && Outgoing(json, s, command).Ok?
    ensures HearsCommand(s, command, Decoded(Outgoing(json, s, command).value.output))
  {
    match command
    case Connect(credentials, tlsRequired) =>
      ConnectShaped(json, s, credentials, tlsRequired);
      ReplayRebuilds(json, s, credentials, tlsRequired);
    case Publish(m) => PublishHeard(s, m);
    case Subscribe(_, _) => SubscribeHeard(s, command);
    case Unsubscribe(sid) => UnsubscribeHeard(s, sid, None);
    case AutoUnsubscribe(sid, max) => UnsubscribeHeard(s, sid, Some(max));
    case DrainSubscription(sid) => DrainSubscriptionHeard(s, sid);
    case Flush => FlushHeard(s);
    case Drain => DrainHeard(s);
    case Close =>
  }

  lemma PongHeard(s: State, now: nat)
    requires HandlePing(s, now).Ok?
    ensures Decoded(HandlePing(s, now).value.output) == [O.Pong]
  {
    DecodedOne(s, O.Pong);
  }

  lemma NothingHeard(json: Json, s: State, now: nat, op: O.Op)
    requires HandleOperation(json, s, now, op).Ok? && !op.Ping?
    ensures HandleOperation(json, s, now, op).value.output == []
  {
  }

  lemma OperationHeard(json: Json, s: State, now: nat, op: O.Op)
    requires HandleOperation(json, s, now, op).Ok?
    ensures Decoded(HandleOperation(json, s, now, op).value.output) == if op.Ping? then [O.Pong] else []
  {
    if op.Ping? {
      PongHeard(s, now);
    } else {
      NothingHeard(json, s, now, op);
    }
  }

  lemma TimerHeard(s: State, now: nat)
    ensures Decoded(Timer(s, now).output) ==
            if PingDue(s, now) && s.unanswered < s.config.maxPings then [O.Ping] else []
  {
    PingEncodes(Pinged(s, now));
    DecodedOne(Pinged(s, now), O.Ping);
  }

  lemma DoHeard(json: Json, s: State, command: Command)
    requires Inv(s) && s.nextSid <= MAX_INT
    ensures var t := Settle(s, Outgoing(json, s, command)); Hears(s, Do(command), t, Decoded(t.output))
  {
    CommandShaped(json, s, command);
    if Outgoing(json, s, command).Ok? {
      CommandHeard(json, s, command);
    }
  }

  lemma ReceiveHeard(json: Json, s: State, now: nat, read: Result<O.Op, CodecError>)
    ensures var t := Settle(s, IncomingResult(json, s, now, read)); Hears(s, Receive(now, read), t, Decoded(t.output))
  {
    if read.Ok? && HandleOperation(json, s, now, read.value).Ok? {
      OperationHeard(json, s, now, read.value);
    }
  }

  /** Decoding a step's output gives exactly the operations its input stands for. */
  lemma StepHeard(json: Json, s: State, input: Input)
    requires Inv(s) && s.nextSid <= MAX_INT
    ensures Hears(s, input, Step(json, s, input), Decoded(Step(json, s, input).output))
  {
    match input
    case Do(command) => DoHeard(json, s, command);
    case Receive(now, read) => ReceiveHeard(json, s, now, read);
    case Tick(now) => TimerHeard(s, now);
    case _ =>
  }
}
