/** The I/O-neutral client state machine (lib/client.ml). */
module Client {
  import opened Base
  import Subject
  import opened Packet
  import opened Codec
  import O = Op
  import Stream
  import Reader

  datatype Phase = AwaitingInfo | AwaitingConnect | Connected | Draining | Closed

  // ---- Configuration, server information and the JSON library ----

  datatype RawConfig = Config(
    name: Option<string>,
    headers: bool,
    noEcho: bool,
    noResponders: bool,
    pingInterval: Option<nat>,
    maxPings: int)

  type Config = c: RawConfig | (c.pingInterval.Some? ==> c.pingInterval.value > 0) && c.maxPings > 0
    witness Config(None, true, false, true, Some(30_000_000_000), 2)

  /** The INFO fields the client consults; `rest` stands for the others. */
  datatype RawInfo = Info(maxPayload: int63, headers: bool, lameDuckMode: bool, rest: string)

  type ServerInfo = i: RawInfo | i.maxPayload > 0 witness Info(1, false, false, "")

  datatype InfoError = InvalidJson(text: string) | InvalidMaxPayload(value: int) | InvalidProtocol(value: int)

  datatype Credentials = Credentials(
    authToken: Option<string>,
    user: Option<string>,
    pass: Option<string>,
    jwt: Option<string>,
    nkey: Option<string>,
    signature: Option<string>)

  datatype ConnectJson = ConnectJson(
    verbose: bool,
    pedantic: bool,
    tlsRequired: bool,
    name: Option<string>,
    lang: string,
    version: string,
    protocol: int,
    echo: bool,
    headers: bool,
    noResponders: bool,
    credentials: Credentials)

  /** The JSON library: any way of reading INFO and of writing CONNECT. */
  datatype Json = Json(
    infoOf: string -> Result<ServerInfo, InfoError>,
    connectText: ConnectJson -> Result<string, InfoError>)

  // ---- The FIFO of barriers ----

  datatype PingOrigin = Liveness | FlushBarrier | DrainBarrier | SubscriptionDrain(sid: int)

  datatype PingQueue = PingQueue(front: seq<PingOrigin>, back: seq<PingOrigin>)

  const EMPTY_QUEUE := PingQueue([], [])

  function EnqueuePing(q: PingQueue, origin: PingOrigin): PingQueue {
    q.(back := [origin] + q.back)
  }

  function TakePing(q: PingQueue): Option<(PingOrigin, PingQueue)> {
    if q.front != [] then Some((q.front[0], q.(front := q.front[1..])))
    else
      var rest := Reverse(q.back);
      if rest == [] then None else Some((rest[0], PingQueue(rest[1..], [])))
  }

  /** The barriers in the order their PINGs were sent. */
  function Contents(q: PingQueue): seq<PingOrigin> {
    q.front + Reverse(q.back)
  }

  // ---- State ----

  datatype Subscription = Subscription(
    sid: int,
    subject: Subject.Filter,
    queueGroup: Option<Subject.Subject>,
    remaining: Option<int>,
    delivered: nat)

  /** Subscriptions are kept newest first. */
  datatype State = State(
    config: Config,
    phase: Phase,
    info: Option<ServerInfo>,
    nextSid: int,
    subscriptions: seq<Subscription>,
    draining: seq<int>,
    pings: PingQueue,
    unanswered: int,
    nextPing: Option<nat>)

  datatype Command =
    | Connect(credentials: Credentials, tlsRequired: bool)
    | Publish(message: O.Message)
    | Subscribe(subject: Subject.Filter, queueGroup: Option<Subject.Subject>)
    | Unsubscribe(sid: int)
    | AutoUnsubscribe(sid: int, maxMessages: int63)
    | DrainSubscription(sid: int)
    | Flush
    | Drain
    | Close

  datatype Notice = OkNotice | PongNotice

  datatype Event =
    | InfoReceived(info: ServerInfo)
    | ConnectedEvent
    | LameDuckMode
    | ServerErrorEvent(text: string)
    | ProtocolNotice(notice: Notice)
    | FlushCompleted
    | DrainingEvent
    | ClosedEvent

  datatype ClientError =
    | InvalidInfo(info: InfoError)
    | PacketFailed(packet: PacketError)
    | CodecFailed(codec: CodecError)
    | UnexpectedOperation(op: O.Op)
    | InfoNotReceived
    | AlreadyConnected
    | NotConnected
    | IsDraining
    | IsClosed
    | HeadersNotNegotiated
    | UnknownSubscription(sid: int)
    | InvalidSubscriptionId(sid: int)
    | InvalidMaxMessagesCount(count: int)
    | MaxPayloadExceeded(size: int, limit: int)

  datatype Delivery = Delivery(sid: int, message: O.Message, status: Option<O.Status>, headerBlock: bool)

  datatype Transition = Transition(
    state: State,
    output: seq<string>,
    events: seq<Event>,
    deliveries: seq<Delivery>,
    subscriptionId: Option<int>)

  function Create(config: Config): State {
    State(config, AwaitingInfo, None, 1, [], [], EMPTY_QUEUE, 0, None)
  }

  function PrepareReconnect(s: State, preservePendingPings: bool): State {
    s.(phase := AwaitingInfo, info := None, draining := [],
       pings := if preservePendingPings then s.pings else EMPTY_QUEUE,
       unanswered := 0, nextPing := None)
  }

  function Idle(s: State): Transition {
    Transition(s, [], [], [], None)
  }

  function ClosedTransition(s: State): Transition {
    Transition(s.(phase := Closed, nextPing := None), [], [ClosedEvent], [], None)
  }

  /** The clock counts nanoseconds in 64 bits. */
  const MAX_TIME: nat := 0xFFFF_FFFF_FFFF_FFFF

  function AddSpan(now: nat, span: nat): Option<nat> {
    if now + span > MAX_TIME then None else Some(now + span)
  }

  function NextPing(config: Config, now: nat): Option<nat> {
    if config.pingInterval.None? then None else AddSpan(now, config.pingInterval.value)
  }

  function Touch(s: State, now: nat): State {
    s.(nextPing := NextPing(s.config, now))
  }

  function NegotiatedLimits(s: State): Limits {
    if s.info.None? then DEFAULT_LIMITS else DEFAULT_LIMITS.(maxPayload := s.info.value.maxPayload)
  }

  function EncodeWith(s: State, op: O.Op): Result<string, ClientError> {
    match Encode(NegotiatedLimits(s), op)
    case Ok(wire) => Ok(wire)
    case Error(e) => Error(CodecFailed(e))
  }

  function EncodeAll(s: State, ops: seq<O.Op>): Result<seq<string>, ClientError> {
    if ops == [] then Ok([])
    else
      var first :- EncodeWith(s, ops[0]);
      var rest :- EncodeAll(s, ops[1..]);
      Ok([first] + rest)
  }

  // ---- Subscriptions ----

  function Find(subs: seq<Subscription>, sid: int): (r: Option<Subscription>)
    ensures r.Some? ==> r.value.sid == sid
  {
    if subs == [] then None else if subs[0].sid == sid then Some(subs[0]) else Find(subs[1..], sid)
  }

  function Remove(subs: seq<Subscription>, sid: int): seq<Subscription> {
    if subs == [] then []
    else (if subs[0].sid == sid then [] else [subs[0]]) + Remove(subs[1..], sid)
  }

  /** Every subscription with this id replaced. */
  function Replace(subs: seq<Subscription>, sub: Subscription): seq<Subscription> {
    if subs == [] then [] else [if subs[0].sid == sub.sid then sub else subs[0]] + Replace(subs[1..], sub)
  }

  function Without(sids: seq<int>, sid: int): seq<int> {
    if sids == [] then [] else (if sids[0] == sid then [] else [sids[0]]) + Without(sids[1..], sid)
  }

  function Forget(s: State, sid: int): State {
    s.(subscriptions := Remove(s.subscriptions, sid), draining := Without(s.draining, sid))
  }

  // ---- Incoming operations ----

  function StripQuotes(text: string): string {
    if |text| >= 2 && text[0] == '\'' && text[|text| - 1] == '\'' then text[1..|text| - 1] else text
  }

  function InfoEvents(info: ServerInfo): seq<Event> {
    if info.lameDuckMode then [InfoReceived(info), LameDuckMode] else [InfoReceived(info)]
  }

  /** The subscriptions after one more message on `sub`: the last one allowed ends it. */
  function Counted(subs: seq<Subscription>, sub: Subscription): seq<Subscription> {
    if sub.remaining == Some(1) then Remove(subs, sub.sid)
    else
      var remaining := if sub.remaining.None? then None else Some(sub.remaining.value - 1);
      Replace(subs, sub.(remaining := remaining, delivered := sub.delivered + 1))
  }

  function IncomingMessage(s: State, now: nat, d: Delivery): Transition {
    match Find(s.subscriptions, d.sid)
    case None => Idle(s)
    case Some(sub) =>
      Transition(Touch(s.(subscriptions := Counted(s.subscriptions, sub)), now), [], [], [d], None)
  }

  function HandleInfo(json: Json, s: State, now: nat, text: string): Result<Transition, ClientError> {
    match json.infoOf(text)
    case Error(e) => Error(InvalidInfo(e))
    case Ok(info) =>
      var phase := if s.phase == AwaitingInfo then AwaitingConnect else s.phase;
      Ok(Transition(Touch(s.(phase := phase, info := Some(info)), now), [], InfoEvents(info), [], None))
  }

  function HandlePing(s: State, now: nat): Result<Transition, ClientError> {
    var wire :- EncodeWith(s, O.Pong);
    Ok(Idle(Touch(s, now)).(output := [wire]))
  }

  /** The state and events when a PONG answers the oldest barrier. */
  function Resolve(s: State, origin: PingOrigin): (State, seq<Event>) {
    match origin
    case Liveness => (s, [])
    case FlushBarrier => (s, [FlushCompleted])
    case DrainBarrier => (s.(subscriptions := [], draining := []), [FlushCompleted])
    case SubscriptionDrain(sid) => (Forget(s, sid), [FlushCompleted])
  }

  function HandlePong(s: State, now: nat): Transition {
    var (after, events) :=
      match TakePing(s.pings)
      case None => (s.(unanswered := 0), [ProtocolNotice(PongNotice)])
      case Some((origin, pings)) => Resolve(s.(pings := pings, unanswered := 0), origin);
    Transition(Touch(after, now), [], events, [], None)
  }

  function HandleOperation(json: Json, s: State, now: nat, op: O.Op): Result<Transition, ClientError> {
    match s.phase
    case Closed => Error(IsClosed)
    case AwaitingInfo | AwaitingConnect =>
      (match op
       case Info(text) => HandleInfo(json, s, now, text)
       case Ping => HandlePing(s, now)
       case _ => Error(UnexpectedOperation(op)))
    case Connected | Draining =>
      (match op
       case Info(text) => HandleInfo(json, s, now, text)
       case Ping => HandlePing(s, now)
       case Pong => Ok(HandlePong(s, now))
       case PlusOk => Ok(Transition(Touch(s, now), [], [ProtocolNotice(OkNotice)], [], None))
       case ServerError(text) => Ok(Transition(Touch(s, now), [], [ServerErrorEvent(StripQuotes(text))], [], None))
       case Msg(sid, message) => Ok(IncomingMessage(s, now, Delivery(sid, message, None, false)))
       case Hmsg(sid, message, status) => Ok(IncomingMessage(s, now, Delivery(sid, message, status, true)))
       case _ => Error(UnexpectedOperation(op)))
  }

  /** What `incoming` makes of one codec read. */
  function IncomingResult(json: Json, s: State, now: nat, read: Result<O.Op, CodecError>): Result<Transition, ClientError> {
    match read
    case Ok(op) => HandleOperation(json, s, now, op)
    case Error(PacketFailure(NeedMore)) => Ok(Idle(s))
    case Error(PacketFailure(EndOfInput)) => Ok(ClosedTransition(s))
    case Error(PacketFailure(e)) => Error(PacketFailed(e))
    case Error(e) => Error(CodecFailed(e))
  }

  method Incoming(json: Json, s: State, now: nat, eod: bool, reader: Reader.ByteReader)
    returns (result: Result<Transition, ClientError>)
    requires reader.Valid()
    modifies reader
    ensures reader.Valid()
    ensures var (read, rest) := ReadOp(old(reader.slices), eod, DEFAULT_LIMITS);
            result == IncomingResult(json, s, now, read) && reader.slices == rest
  {
    var read := Stream.ReadOperation(reader, eod, DEFAULT_LIMITS);
    return IncomingResult(json, s, now, read);
  }

  // ---- Commands ----

  function ConnectValue(s: State, info: ServerInfo, credentials: Credentials, tlsRequired: bool): ConnectJson {
    ConnectJson(false, false, tlsRequired, s.config.name, "ocaml", "0.1.0", 1, !s.config.noEcho, s.config.headers,
                s.config.noResponders && info.headers, credentials)
  }

  /** The SUB, and the UNSUB when a limit remains, of each subscription; the fold leaves the oldest first. */
  function ReplayFold(subs: seq<Subscription>, ops: seq<O.Op>): seq<O.Op> {
    if subs == [] then ops
    else
      var sub := subs[0];
      var subscribe := O.Sub(sub.subject, sub.queueGroup, sub.sid);
      ReplayFold(subs[1..],
                 if sub.remaining.None? then [subscribe] + ops else [subscribe, O.Unsub(sub.sid, sub.remaining)] + ops)
  }

  function OutgoingConnect(json: Json, s: State, credentials: Credentials, tlsRequired: bool): Result<Transition, ClientError>
    requires s.phase == AwaitingConnect ==> s.info.Some?
  {
    match s.phase
    case AwaitingInfo => Error(InfoNotReceived)
    case AwaitingConnect =>
      (match json.connectText(ConnectValue(s, s.info.value, credentials, tlsRequired))
       case Error(e) => Error(InvalidInfo(e))
       case Ok(text) =>
         var output :- EncodeWith(s, O.Connect(text));
         var replay :- EncodeAll(s, ReplayFold(s.subscriptions, []));
         Ok(Transition(s.(phase := Connected), [output] + replay, [ConnectedEvent], [], None)))
    case Connected => Error(AlreadyConnected)
    case Draining => Error(IsDraining)
    case Closed => Error(IsClosed)
  }

  function RequireConnected(s: State): Result<(), ClientError> {
    match s.phase
    case Connected => Ok(())
    case AwaitingInfo | AwaitingConnect => Error(NotConnected)
    case Draining => Error(IsDraining)
    case Closed => Error(IsClosed)
  }

  function OutgoingPublish(s: State, m: O.Message): Result<Transition, ClientError> {
    var _ :- RequireConnected(s);
    if m.headers != [] && (s.info.None? || !s.info.value.headers) then Error(HeadersNotNegotiated)
    else match EncodeWith(s, if m.headers == [] then O.Pub(m) else O.Hpub(m, None))
      case Error(CodecFailed(PacketFailure(PayloadTooLarge(size, limit)))) => Error(MaxPayloadExceeded(size, limit))
      case Error(e) => Error(e)
      case Ok(wire) => Ok(Idle(s).(output := [wire]))
  }

  function Subscribed(s: State, subject: Subject.Filter, queueGroup: Option<Subject.Subject>): State {
    s.(nextSid := s.nextSid + 1,
       subscriptions := [Subscription(s.nextSid, subject, queueGroup, None, 0)] + s.subscriptions)
  }

  function OutgoingSubscribe(s: State, subject: Subject.Filter, queueGroup: Option<Subject.Subject>): Result<Transition, ClientError> {
    var sid := s.nextSid;
    var after := Subscribed(s, subject, queueGroup);
    match s.phase
    case AwaitingInfo | AwaitingConnect => Ok(Idle(after).(subscriptionId := Some(sid)))
    case Connected =>
      var wire :- EncodeWith(after, O.Sub(subject, queueGroup, sid));
      Ok(Idle(after).(output := [wire], subscriptionId := Some(sid)))
    case Draining => Error(IsDraining)
    case Closed => Error(IsClosed)
  }

  /** The subscription goes at once: no limit was given, or the limit has been delivered already. */
  predicate Ends(sub: Subscription, maxMessages: Option<int>) {
    maxMessages.None? || sub.delivered >= maxMessages.value
  }

  function Limited(subs: seq<Subscription>, sub: Subscription, maxMessages: Option<int>): seq<Subscription> {
    if Ends(sub, maxMessages) then Remove(subs, sub.sid)
    else Replace(subs, sub.(remaining := Some(maxMessages.value - sub.delivered)))
  }

  function Unsubscribed(s: State, sub: Subscription, maxMessages: Option<int>): State {
    s.(subscriptions := Limited(s.subscriptions, sub, maxMessages), draining := Without(s.draining, sub.sid))
  }

  function OutgoingUnsubscribe(s: State, sid: int, maxMessages: Option<int>): Result<Transition, ClientError> {
    if sid <= 0 then Error(InvalidSubscriptionId(sid))
    else match Find(s.subscriptions, sid)
      case None => Error(UnknownSubscription(sid))
      case Some(sub) =>
        var after := Unsubscribed(s, sub, maxMessages);
        match s.phase
        case AwaitingInfo | AwaitingConnect => Ok(Idle(after))
        case Connected =>
          var wire :- EncodeWith(after, O.Unsub(sid, if Ends(sub, maxMessages) then None else maxMessages));
          Ok(Idle(after).(output := [wire]))
        case Draining => Error(IsDraining)
        case Closed => Error(IsClosed)
  }

  function SubscriptionDraining(s: State, sid: int): State {
    s.(draining := [sid] + s.draining, pings := EnqueuePing(s.pings, SubscriptionDrain(sid)))
  }

  function OutgoingDrainSubscription(s: State, sid: int): Result<Transition, ClientError> {
    var _ :- RequireConnected(s);
    if sid <= 0 then Error(InvalidSubscriptionId(sid))
    else if sid in s.draining then Error(IsDraining)
    else if Find(s.subscriptions, sid).None? then Error(UnknownSubscription(sid))
    else
      var output :- EncodeAll(s, [O.Unsub(sid, None), O.Ping]);
      Ok(Idle(SubscriptionDraining(s, sid)).(output := output))
  }

  function OutgoingFlush(s: State): Result<Transition, ClientError> {
    if s.phase == Closed then Error(IsClosed)
    else
      var wire :- EncodeWith(s, O.Ping);
      Ok(Idle(s.(pings := EnqueuePing(s.pings, FlushBarrier))).(output := [wire]))
  }

  /** An UNSUB for each subscription not already draining, oldest first, before what `ops` holds. */
  function DrainFold(subs: seq<Subscription>, draining: seq<int>, ops: seq<O.Op>): seq<O.Op> {
    if subs == [] then ops
    else DrainFold(subs[1..], draining, if subs[0].sid in draining then ops else [O.Unsub(subs[0].sid, None)] + ops)
  }

  function OutgoingDrain(s: State): Result<Transition, ClientError> {
    var _ :- RequireConnected(s);
    var output :- EncodeAll(s, DrainFold(s.subscriptions, s.draining, [O.Ping]));
    Ok(Transition(s.(phase := Draining, pings := EnqueuePing(s.pings, DrainBarrier)), output, [DrainingEvent], [], None))
  }

  function Outgoing(json: Json, s: State, command: Command): Result<Transition, ClientError>
    requires s.phase == AwaitingConnect ==> s.info.Some?
  {
    match command
    case Connect(credentials, tlsRequired) => OutgoingConnect(json, s, credentials, tlsRequired)
    case Publish(m) => OutgoingPublish(s, m)
    case Subscribe(subject, queueGroup) => OutgoingSubscribe(s, subject, queueGroup)
    case Unsubscribe(sid) => OutgoingUnsubscribe(s, sid, None)
    case AutoUnsubscribe(sid, max) =>
      if max <= 0 then Error(InvalidMaxMessagesCount(max)) else OutgoingUnsubscribe(s, sid, Some(max))
    case DrainSubscription(sid) => OutgoingDrainSubscription(s, sid)
    case Flush => OutgoingFlush(s)
    case Drain => OutgoingDrain(s)
    case Close => if s.phase == Closed then Error(IsClosed) else Ok(ClosedTransition(s))
  }

  // ---- Time ----

  /** The state once another liveness PING is due. */
  function Pinged(s: State, now: nat): State {
    s.(nextPing := NextPing(s.config, now), unanswered := s.unanswered + 1, pings := EnqueuePing(s.pings, Liveness))
  }

  function Timer(s: State, now: nat): Transition {
    if s.phase != Connected || s.nextPing.None? || now < s.nextPing.value then Idle(s)
    else if s.unanswered >= s.config.maxPings then ClosedTransition(s)
    else
      var after := Pinged(s, now);
      match EncodeWith(after, O.Ping)
      case Error(_) => ClosedTransition(after)
      case Ok(wire) => Idle(after).(output := [wire])
  }

  function NextTimeout(s: State): Option<nat> {
    if s.phase == Connected then s.nextPing else None
  }
}
