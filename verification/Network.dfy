/** The client, two first-in first-out links and an abstract server. */
module Network {
  import opened Base
  import Text
  import O = Op
  import opened Client
  import opened Invariant
  import opened Wire
  import opened Shape
  import opened Server

  /** `sent` and `got` record this session's messages as the server put them on the link and as the client
      delivered them; `drained` the ids drained in this session; `aligned` that no barrier was left over from an
      earlier session. */
  datatype Net = Net(
    client: State,
    toServer: seq<O.Op>,
    toClient: seq<O.Op>,
    table: Table,
    drained: set<int>,
    aligned: bool,
    sent: seq<Delivery>,
    got: seq<Delivery>)

  datatype Move =
    | ClientMoves(input: Input)
    | ClientReceives(now: nat)
    | Reconnects(preservePendingPings: bool)
    | ServerProcesses
    | ServerSends(d: Delivery)
    | ServerSays(op: O.Op)

  function Start(config: Config): Net {
    Net(Create(config), [], [], map[], {}, true, [], [])
  }

  function OpOf(d: Delivery): O.Op {
    if d.headerBlock then O.Hmsg(d.sid, d.message, d.status) else O.Msg(d.sid, d.message)
  }

  function DeliveryOf(op: O.Op): Option<Delivery> {
    match op
    case Msg(sid, message) => Some(Delivery(sid, message, None, false))
    case Hmsg(sid, message, status) => Some(Delivery(sid, message, status, true))
    case _ => None
  }

  function DrainedBy(s: State, input: Input, t: Transition): set<int> {
    match input
    case Do(DrainSubscription(sid)) => if t != Idle(s) then {sid} else {}
    case Do(Drain) => if t != Idle(s) then set sub <- s.subscriptions :: sub.sid else {}
    case _ => {}
  }

  function AfterClient(n: Net, input: Input, t: Transition): Net {
    n.(client := t.state, toServer := n.toServer + Decoded(t.output), drained := n.drained + DrainedBy(n.client, input, t))
  }

  /** The client takes the next operation off its link. */
  function AfterReceipt(n: Net, now: nat, t: Transition): Net
    requires n.toClient != []
  {
    AfterClient(n, Receive(now, Ok(n.toClient[0])), t).(toClient := n.toClient[1..], got := n.got + t.deliveries)
  }

  /** The server's moves: it processes what it hears, sends on an id it holds, or says anything else but a PONG. */
  predicate ServerEnabled(n: Net, move: Move) {
    match move
    case ServerProcesses => n.toServer != []
    case ServerSends(d) => d.sid in n.table && (!d.headerBlock ==> d.status.None?)
    case ServerSays(op) => op.Info? || op.Ping? || op.PlusOk? || op.ServerError?
    case _ => false
  }

  function ServerNext(n: Net, move: Move): Net
    requires ServerEnabled(n, move)
  {
    match move
    case ServerProcesses =>
      var op := n.toServer[0];
      n.(toServer := n.toServer[1..], table := Process(n.table, op),
         toClient := n.toClient + if op.Ping? then [O.Pong] else [])
    case ServerSends(d) => n.(table := Send(n.table, d.sid), toClient := n.toClient + [OpOf(d)], sent := n.sent + [d])
    case ServerSays(op) => n.(toClient := n.toClient + [op])
  }

  /** A move of the model. The client's ids stay within the machine range; a session whose next operation the
      client refuses can only be given up. */
  predicate Enabled(json: Json, n: Net, move: Move)
    requires Inv(n.client)
  {
    match move
    case ClientMoves(input) =>
      !input.Reconnect? && !(input.Receive? && input.read.Ok?) && Step(json, n.client, input).state.nextSid <= MAX_INT
    case ClientReceives(now) => n.toClient != [] && HandleOperation(json, n.client, now, n.toClient[0]).Ok?
    case Reconnects(_) => true
    case _ => ServerEnabled(n, move)
  }

  function Reconnected(n: Net, preserve: bool): Net {
    var client := PrepareReconnect(n.client, preserve);
    Net(client, [], [], map[], {}, Contents(client.pings) == [], [], [])
  }

  function Next(json: Json, n: Net, move: Move): Net
    requires Inv(n.client) && Enabled(json, n, move)
  {
    match move
    case ClientMoves(input) => AfterClient(n, input, Step(json, n.client, input))
    case ClientReceives(now) => AfterReceipt(n, now, Step(json, n.client, Receive(now, Ok(n.toClient[0]))))
    case Reconnects(preserve) => Reconnected(n, preserve)
    case _ => ServerNext(n, move)
  }

  // ---- Links, one subscription id at a time ----

  predicate For(op: O.Op, k: int) {
    (op.Sub? && op.sid == k) || (op.Unsub? && op.sid == k)
  }

  predicate NoneFor(ops: seq<O.Op>, k: int) {
    forall i :: 0 <= i < |ops| ==> !For(ops[i], k)
  }

  predicate IsSub(op: O.Op, k: int) {
    op.Sub? && op.sid == k
  }

  predicate HasSub(ops: seq<O.Op>, k: int) {
    ops != [] && (IsSub(ops[0], k) || HasSub(ops[1..], k))
  }

  lemma {:induction false} HasSubPlus(a: seq<O.Op>, b: seq<O.Op>, k: int)
    ensures HasSub(a + b, k) <==> HasSub(a, k) || HasSub(b, k)
  {
    if a == [] {
      assert a + b == b;
    } else {
      assert (a + b)[1..] == a[1..] + b;
      HasSubPlus(a[1..], b, k);
    }
  }

  lemma {:induction false} NoneForNoSub(ops: seq<O.Op>, k: int)
    requires NoneFor(ops, k)
    ensures !HasSub(ops, k)
  {
    if ops != [] {
      NoneForNoSub(ops[1..], k);
    }
  }

  predicate Carries(op: O.Op, k: int) {
    DeliveryOf(op).Some? && DeliveryOf(op).value.sid == k
  }

  predicate Quiet(ops: seq<O.Op>, k: int) {
    forall i :: 0 <= i < |ops| ==> !Carries(ops[i], k)
  }

  /** The messages on an id among the operations on a link. */
  function Messages(ops: seq<O.Op>, k: int): seq<Delivery> {
    if ops == [] then []
    else (if Carries(ops[0], k) then [DeliveryOf(ops[0]).value] else []) + Messages(ops[1..], k)
  }

  function On(log: seq<Delivery>, k: int): seq<Delivery> {
    if log == [] then [] else (if log[0].sid == k then [log[0]] else []) + On(log[1..], k)
  }

  lemma {:induction false} MessagesPlus(a: seq<O.Op>, b: seq<O.Op>, k: int)
    ensures Messages(a + b, k) == Messages(a, k) + Messages(b, k)
  {
    if a == [] {
      assert a + b == b;
    } else {
      var head := if Carries(a[0], k) then [DeliveryOf(a[0]).value] else [];
      assert (a + b)[1..] == a[1..] + b;
      MessagesPlus(a[1..], b, k);
      Text.Assoc(head, Messages(a[1..], k), Messages(b, k));
    }
  }

  lemma {:induction false} OnPlus(a: seq<Delivery>, b: seq<Delivery>, k: int)
    ensures On(a + b, k) == On(a, k) + On(b, k)
  {
    if a == [] {
      assert a + b == b;
    } else {
      var head := if a[0].sid == k then [a[0]] else [];
      assert (a + b)[1..] == a[1..] + b;
      OnPlus(a[1..], b, k);
      Text.Assoc(head, On(a[1..], k), On(b, k));
    }
  }

  lemma {:induction false} QuietMessages(ops: seq<O.Op>, k: int)
    ensures Quiet(ops, k) <==> Messages(ops, k) == []
  {
    if ops != [] {
      QuietMessages(ops[1..], k);
      assert forall i :: 1 <= i < |ops| ==> ops[i] == ops[1..][i - 1];
    }
  }

  lemma {:induction false} OnNone(log: seq<Delivery>, k: int)
    requires forall i :: 0 <= i < |log| ==> log[i].sid != k
    ensures On(log, k) == []
  {
    if log != [] {
      OnNone(log[1..], k);
    }
  }

  // ---- What every reachable net keeps ----

  predicate KnownOp(op: O.Op, bound: int) {
    (op.Sub? ==> 0 < op.sid < bound) && (op.Unsub? ==> 0 < op.sid < bound)
    && (DeliveryOf(op).Some? ==> DeliveryOf(op).value.sid < bound)
  }

  ghost predicate AllKnown(ops: seq<O.Op>, bound: int) {
    forall op <- ops :: KnownOp(op, bound)
  }

  /** Every id in transit, on record or in the table has been issued. */
  ghost predicate Known(n: Net) {
    var bound := n.client.nextSid;
    && Inv(n.client) && bound <= MAX_INT
    && (forall k <- n.table :: k < bound)
    && AllKnown(n.toServer, bound) && AllKnown(n.toClient, bound)
    && (forall d <- n.sent :: d.sid < bound)
    && (forall d <- n.got :: d.sid < bound)
    && (forall k :: SubscriptionDrain(k) in Contents(n.client.pings) ==> k < bound)
  }

  lemma {:induction false} ReplayKnown(subs: seq<Subscription>, below: int)
    requires Descending(subs, below)
    ensures forall op <- Replay(subs) :: KnownOp(op, below)
  {
    if subs != [] {
      ReplayKnown(subs[1..], subs[0].sid);
    }
  }

  lemma {:induction false} UnsubsKnown(subs: seq<Subscription>, draining: seq<int>, below: int)
    requires Descending(subs, below)
    ensures forall op <- Unsubs(subs, draining) :: KnownOp(op, below)
  {
    if subs != [] {
      UnsubsKnown(subs[1..], draining, subs[0].sid);
    }
  }

  lemma KnownPlus(a: seq<O.Op>, b: seq<O.Op>, low: int, bound: int)
    requires AllKnown(a, low) && AllKnown(b, low) && low <= bound
    ensures AllKnown(a + b, bound)
  {
  }

  lemma ConnectKnown(s: State, heard: seq<O.Op>)
    requires Inv(s) && |heard| > 0 && heard[0].Connect? && heard[1..] == Replay(s.subscriptions)
    ensures AllKnown(heard, s.nextSid)
  {
    ReplayKnown(s.subscriptions, s.nextSid);
    assert heard == [heard[0]] + heard[1..];
  }

  lemma DrainKnown(s: State)
    requires Inv(s)
    ensures AllKnown(Unsubs(s.subscriptions, s.draining) + [O.Ping], s.nextSid)
  {
    UnsubsKnown(s.subscriptions, s.draining, s.nextSid);
    KnownPlus(Unsubs(s.subscriptions, s.draining), [O.Ping], s.nextSid, s.nextSid);
  }

  lemma UnsubKnown(s: State, k: int, heard: seq<O.Op>)
    requires Inv(s) && Find(s.subscriptions, k).Some?
    requires forall op <- heard :: op.Ping? || (op.Unsub? && op.sid == k)
    ensures AllKnown(heard, s.nextSid)
  {
    FindDescending(s.subscriptions, s.nextSid, k);
  }

  predicate NamesSid(command: Command) {
    command.Unsubscribe? || command.AutoUnsubscribe? || command.DrainSubscription?
  }

  lemma NamedKnown(s: State, command: Command, heard: seq<O.Op>)
    requires Inv(s) && HearsCommand(s, command, heard)
    requires NamesSid(command) && Find(s.subscriptions, command.sid).Some?
    ensures AllKnown(heard, s.nextSid)
  {
    UnsubKnown(s, command.sid, heard);
  }

  lemma CommandKnown(s: State, command: Command, heard: seq<O.Op>)
    requires Inv(s) && HearsCommand(s, command, heard)
    requires NamesSid(command) ==> Find(s.subscriptions, command.sid).Some?
    ensures AllKnown(heard, if command.Subscribe? then s.nextSid + 1 else s.nextSid)
  {
    match command
    case Unsubscribe(_) => NamedKnown(s, command, heard);
    case AutoUnsubscribe(_, _) => NamedKnown(s, command, heard);
    case DrainSubscription(_) => NamedKnown(s, command, heard);
    case Connect(_, _) => ConnectKnown(s, heard);
    case Drain => DrainKnown(s);
    case _ =>
  }

  lemma HeardKnown(s: State, input: Input, t: Transition, heard: seq<O.Op>)
    requires Inv(s) && Shaped(s, input, t) && Hears(s, input, t, heard)
    ensures AllKnown(heard, t.state.nextSid)
  {
    if input.Do? && t != Idle(s) {
      CommandKnown(s, input.command, heard);
    }
  }

  lemma PingsKnown(s: State, input: Input, t: Transition)
    requires Inv(s) && Shaped(s, input, t)
    requires forall k :: SubscriptionDrain(k) in Contents(s.pings) ==> k < s.nextSid
    ensures forall k :: SubscriptionDrain(k) in Contents(t.state.pings) ==> k < t.state.nextSid
  {
    match input
    case Do(DrainSubscription(k)) =>
      EnqueueExact(s.pings, SubscriptionDrain(k));
      if t != Idle(s) {
        FindDescending(s.subscriptions, s.nextSid, k);
      }
    case Do(Flush) => EnqueueExact(s.pings, FlushBarrier);
    case Do(Drain) => EnqueueExact(s.pings, DrainBarrier);
    case Tick(_) => EnqueueExact(s.pings, Liveness);
    case Receive(now, Ok(Pong)) => TakeExact(s.pings);
    case _ =>
  }

  lemma NextSidKept(s: State, input: Input, t: Transition)
    requires Shaped(s, input, t)
    ensures s.nextSid <= t.state.nextSid <= s.nextSid + 1
    ensures t.state.nextSid == s.nextSid + 1 ==> input.Do? && input.command.Subscribe?
  {
  }

  lemma DeliveredKnown(s: State, input: Input, t: Transition)
    requires Inv(s) && Shaped(s, input, t)
    ensures forall d <- t.deliveries :: d.sid < s.nextSid
  {
    forall d | d in t.deliveries ensures d.sid < s.nextSid {
      FindDescending(s.subscriptions, s.nextSid, d.sid);
    }
  }

  lemma ClientKeepsKnown(json: Json, n: Net, input: Input)
    requires Known(n) && Step(json, n.client, input).state.nextSid <= MAX_INT
    ensures var t := Step(json, n.client, input);
            Known(AfterClient(n, input, t)) && forall d <- t.deliveries :: d.sid < n.client.nextSid
  {
    var t := Step(json, n.client, input);
    StepShaped(json, n.client, input);
    StepHeard(json, n.client, input);
    StepKeeps(json, n.client, input);
    KnownAfter(n, input, t);
  }

  lemma KnownLater(n: Net, s: State, heard: seq<O.Op>, drained: set<int>)
    requires Known(n) && Inv(s) && n.client.nextSid <= s.nextSid <= MAX_INT && AllKnown(heard, s.nextSid)
    requires forall k :: SubscriptionDrain(k) in Contents(s.pings) ==> k < s.nextSid
    ensures Known(n.(client := s, toServer := n.toServer + heard, drained := drained))
  {
  }

  lemma KnownAfter(n: Net, input: Input, t: Transition)
    requires Known(n) && Shaped(n.client, input, t) && Hears(n.client, input, t, Decoded(t.output))
    requires Inv(t.state) && t.state.nextSid <= MAX_INT
    ensures Known(AfterClient(n, input, t)) && forall d <- t.deliveries :: d.sid < n.client.nextSid
  {
    HeardKnown(n.client, input, t, Decoded(t.output));
    PingsKnown(n.client, input, t);
    NextSidKept(n.client, input, t);
    DeliveredKnown(n.client, input, t);
    KnownLater(n, t.state, Decoded(t.output), n.drained + DrainedBy(n.client, input, t));
  }

  lemma ReceiptKeepsKnown(json: Json, n: Net, now: nat)
    requires Known(n) && Enabled(json, n, ClientReceives(now))
    ensures Known(Next(json, n, ClientReceives(now)))
  {
    var input := Receive(now, Ok(n.toClient[0]));
    var t := Step(json, n.client, input);
    StepShaped(json, n.client, input);
    NextSidKept(n.client, input, t);
    ClientKeepsKnown(json, n, input);
    assert AllKnown(n.toClient[1..], n.client.nextSid);
  }

  lemma ServerKeepsKnown(n: Net, move: Move)
    requires Known(n) && ServerEnabled(n, move)
    ensures Known(ServerNext(n, move))
  {
    var bound := n.client.nextSid;
    match move
    case ServerProcesses =>
      assert n.toServer[0] in n.toServer && AllKnown(n.toServer[1..], bound);
      KnownPlus(n.toClient, if n.toServer[0].Ping? then [O.Pong] else [], bound, bound);
    case ServerSends(d) => KnownPlus(n.toClient, [OpOf(d)], bound, bound);
    case ServerSays(op) => KnownPlus(n.toClient, [op], bound, bound);
  }

  lemma NextKeepsKnown(json: Json, n: Net, move: Move)
    requires Known(n) && Enabled(json, n, move)
    ensures Known(Next(json, n, move))
  {
    match move
    case ClientMoves(input) => ClientKeepsKnown(json, n, input);
    case ClientReceives(now) => ReceiptKeepsKnown(json, n, now);
    case Reconnects(preserve) => StepKeeps(json, n.client, Reconnect(preserve));
    case _ => ServerKeepsKnown(n, move);
  }

  // ---- Runs ----

  ghost predicate CanRun(json: Json, n: Net, moves: seq<Move>)
    decreases moves
  {
    Inv(n.client)
    && (moves != [] ==> Enabled(json, n, moves[0]) && CanRun(json, Next(json, n, moves[0]), moves[1..]))
  }

  ghost function RunNet(json: Json, n: Net, moves: seq<Move>): (n': Net)
    requires CanRun(json, n, moves)
    ensures Inv(n'.client)
    decreases moves
  {
    if moves == [] then n else RunNet(json, Next(json, n, moves[0]), moves[1..])
  }

  lemma RunStarts(json: Json, n: Net, moves: seq<Move>, rest: seq<Move>)
    requires moves != [] && moves[1..] == rest && Inv(n.client) && Enabled(json, n, moves[0])
    requires CanRun(json, Next(json, n, moves[0]), rest)
    ensures CanRun(json, n, moves) && RunNet(json, n, moves) == RunNet(json, Next(json, n, moves[0]), rest)
  {
  }

  lemma RunSplits(json: Json, n: Net, moves: seq<Move>)
    requires moves != [] && CanRun(json, n, moves)
    ensures Inv(n.client) && Enabled(json, n, moves[0]) && CanRun(json, Next(json, n, moves[0]), moves[1..])
    ensures RunNet(json, n, moves) == RunNet(json, Next(json, n, moves[0]), moves[1..])
  {
  }

  lemma TailPlus(a: seq<Move>, b: seq<Move>)
    ensures a == [] ==> a + b == b
    ensures a != [] ==> a + b != [] && (a + b)[0] == a[0] && (a + b)[1..] == a[1..] + b
  {
  }

  lemma {:induction false} RunNetPlus(json: Json, n: Net, a: seq<Move>, b: seq<Move>)
    requires CanRun(json, n, a) && CanRun(json, RunNet(json, n, a), b)
    ensures CanRun(json, n, a + b) && RunNet(json, n, a + b) == RunNet(json, RunNet(json, n, a), b)
    decreases |a|
  {
    TailPlus(a, b);
    if a != [] {
      RunSplits(json, n, a);
      RunNetPlus(json, Next(json, n, a[0]), a[1..], b);
      RunStarts(json, n, a + b, a[1..] + b);
    }
  }

  lemma RunThen(json: Json, n: Net, moves: seq<Move>, move: Move)
    requires CanRun(json, n, moves) && Enabled(json, RunNet(json, n, moves), move)
    requires Inv(Next(json, RunNet(json, n, moves), move).client)
    ensures CanRun(json, n, moves + [move])
    ensures RunNet(json, n, moves + [move]) == Next(json, RunNet(json, n, moves), move)
  {
    var last := RunNet(json, n, moves);
    RunStarts(json, last, [move], []);
    RunNetPlus(json, n, moves, [move]);
  }

  // ---- Commands as moves ----

  lemma CommandSteps(json: Json, s: State, command: Command)
    requires Inv(s) && s.nextSid <= MAX_INT && !command.Connect? && !command.Publish? && Acceptable(s, command)
    ensures var t := Step(json, s, Do(command));
            Accepted(s, command, t) && HearsCommand(s, command, Decoded(t.output)) && Inv(t.state)
  {
    AcceptedExactly(json, s, command);
    CommandShaped(json, s, command);
    CommandHeard(json, s, command);
    StepKeeps(json, s, Do(command));
  }

  /** An acceptable command is a move of the network. */
  lemma CommandMoves(json: Json, n: Net, command: Command)
    requires Inv(n.client) && n.client.nextSid + (if command.Subscribe? then 1 else 0) <= MAX_INT && !command.Connect? && !command.Publish?
    requires Acceptable(n.client, command)
    ensures Enabled(json, n, ClientMoves(Do(command)))
    ensures var t := Step(json, n.client, Do(command));
            && Accepted(n.client, command, t) && HearsCommand(n.client, command, Decoded(t.output)) && Inv(t.state)
            && Next(json, n, ClientMoves(Do(command))) == AfterClient(n, Do(command), t)
  {
    CommandSteps(json, n.client, command);
    NextSidKept(n.client, Do(command), Step(json, n.client, Do(command)));
  }
}
