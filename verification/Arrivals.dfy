/** A drain can always be completed: no state of the network leaves its PONG out of reach. */
module Arrivals {
  import opened Base
  import O = Op
  import opened Client
  import opened Invariant
  import opened Wire
  import opened Shape
  import opened Network
  import opened Drains
  import History

  /** What a server says to a client. */
  predicate FromServer(op: O.Op) {
    op.Info? || op.Ping? || op.Pong? || op.PlusOk? || op.ServerError? || op.Msg? || op.Hmsg?
  }

  ghost predicate Spoken(n: Net) {
    forall op <- n.toClient :: FromServer(op)
  }

  ghost predicate Readable(json: Json, ops: seq<O.Op>) {
    forall op <- ops :: op.Info? ==> json.infoOf(op.json).Ok?
  }

  lemma ServerSpeaks(n: Net, move: Move)
    requires Spoken(n) && ServerEnabled(n, move)
    ensures Spoken(ServerNext(n, move))
  {
  }

  lemma {:induction false} RunSpoken(json: Json, n: Net, moves: seq<Move>)
    requires Spoken(n) && CanRun(json, n, moves)
    ensures Spoken(RunNet(json, n, moves))
    decreases moves
  {
    if moves != [] {
      if ServerEnabled(n, moves[0]) {
        ServerSpeaks(n, moves[0]);
      }
      RunSpoken(json, Next(json, n, moves[0]), moves[1..]);
    }
  }

  // ---- The server processes what it has heard ----

  /** The PONG of a barrier in `ends` is on the link, the barriers before it answered first. */
  predicate Due(q: seq<PingOrigin>, down: seq<O.Op>, ends: set<PingOrigin>)
    decreases down
  {
    && down != []
    && if down[0].Pong? then q != [] && (q[0] in ends || Due(q[1..], down[1..], ends)) else Due(q, down[1..], ends)
  }

  lemma {:induction false} GuardDue(q: seq<PingOrigin>, down: seq<O.Op>, held: bool, ends: set<PingOrigin>, o: PingOrigin, k: int)
    requires Guard(q, down, [], held, ends, k) && o in q && o in ends
    ensures Due(q, down, ends)
    decreases down
  {
    if down != [] {
      if !down[0].Pong? {
        GuardDue(q, down[1..], held, ends, o, k);
      } else if q[0] !in ends {
        GuardDue(q[1..], down[1..], held, ends, o, k);
      }
    }
  }

  /** Only the server has moved, and only to process. */
  ghost predicate Caught(json: Json, n: Net, n': Net) {
    n'.client == n.client && n'.aligned == n.aligned && n'.toServer == []
    && (Readable(json, n.toClient) ==> Readable(json, n'.toClient))
  }

  lemma {:induction false} CatchUp(json: Json, n: Net, k: int) returns (moves: seq<Move>)
    requires Known(n) && Ordered(n, k) && Spoken(n)
    ensures CanRun(json, n, moves) && forall m <- moves :: m == ServerProcesses
    ensures var n' := RunNet(json, n, moves); Known(n') && Ordered(n', k) && Spoken(n') && Caught(json, n, n')
    decreases |n.toServer|
  {
    if n.toServer == [] {
      moves := [];
    } else {
      var n1 := ServerNext(n, ServerProcesses);
      assert Next(json, n, ServerProcesses) == n1;
      ServerKeepsKnown(n, ServerProcesses);
      ServerOrdered(n, ServerProcesses, k);
      ServerSpeaks(n, ServerProcesses);
      var rest := CatchUp(json, n1, k);
      moves := [ServerProcesses] + rest;
      RunStarts(json, n, moves, rest);
    }
  }

  // ---- The client receives what was sent ----

  lemma Receivable(json: Json, s: State, now: nat, op: O.Op)
    requires InSession(s) && FromServer(op) && (op.Info? ==> json.infoOf(op.json).Ok?)
    ensures HandleOperation(json, s, now, op).Ok?
  {
    PingEncodes(s);
  }

  /** A subscription without a limit that the next operation does not end. */
  ghost predicate Waiting(s: State, op: O.Op, k: int) {
    && InSession(s)
    && Find(s.subscriptions, k).Some? && Find(s.subscriptions, k).value.remaining.None?
    && (op.Pong? ==> Contents(s.pings) != [] && Contents(s.pings)[0] !in {SubscriptionDrain(k), DrainBarrier})
  }

  lemma PongPasses(s: State, now: nat, k: int)
    requires Waiting(s, O.Pong, k)
    ensures var after := HandlePong(s, now).state;
            Find(after.subscriptions, k) == Find(s.subscriptions, k) && Contents(after.pings) == Contents(s.pings)[1..]
            && after.phase == s.phase
  {
    TakeExact(s.pings);
    if Contents(s.pings)[0].SubscriptionDrain? {
      FindRemove(s.subscriptions, Contents(s.pings)[0].sid, k);
    }
  }

  lemma OperationPasses(s: State, now: nat, op: O.Op, t: Transition, k: int)
    requires Waiting(s, op, k) && Handled(s, now, op, t)
    ensures InSession(t.state) && Find(t.state.subscriptions, k).Some?
            && Find(t.state.subscriptions, k).value.remaining.None?
    ensures Contents(t.state.pings) == if op.Pong? then Contents(s.pings)[1..] else Contents(s.pings)
  {
    if op.Pong? {
      PongPasses(s, now, k);
    } else if DeliveryOf(op).Some? {
      History.MessageFind(s, now, DeliveryOf(op).value, k);
    }
  }

  /** The client's side once everything the server had to say is on the link. */
  ghost predicate Coming(json: Json, n: Net, k: int) {
    && Inv(n.client) && n.aligned && InSession(n.client) && Spoken(n) && Readable(json, n.toClient)
    && Find(n.client.subscriptions, k).Some? && Find(n.client.subscriptions, k).value.remaining.None?
    && Due(Contents(n.client.pings), n.toClient, {SubscriptionDrain(k), DrainBarrier})
    && n.client.nextSid <= MAX_INT
  }

  lemma ReceivesOne(json: Json, n: Net, now: nat, k: int)
    requires Coming(json, n, k) && Waiting(n.client, n.toClient[0], k)
    ensures Enabled(json, n, ClientReceives(now))
    ensures var n' := Next(json, n, ClientReceives(now)); Coming(json, n', k) && n'.toClient == n.toClient[1..]
  {
    var op := n.toClient[0];
    var input := Receive(now, Ok(op));
    assert op in n.toClient;
    Receivable(json, n.client, now, op);
    OperationShaped(json, n.client, now, op);
    StepKeeps(json, n.client, input);
    NextSidKept(n.client, input, Step(json, n.client, input));
    OperationPasses(n.client, now, op, Step(json, n.client, input), k);
  }

  lemma {:induction false} Receives(json: Json, n: Net, now: nat, k: int) returns (moves: seq<Move>)
    requires Coming(json, n, k)
    ensures CanRun(json, n, moves) && forall m <- moves :: m == ClientReceives(now)
    ensures EndsNow(json, RunNet(json, n, moves), now, k)
    decreases |n.toClient|
  {
    var op, q := n.toClient[0], Contents(n.client.pings);
    if op.Pong? && q[0] in {SubscriptionDrain(k), DrainBarrier} {
      Receivable(json, n.client, now, op);
      moves := [];
    } else {
      ReceivesOne(json, n, now, k);
      var rest := Receives(json, Next(json, n, ClientReceives(now)), now, k);
      moves := [ClientReceives(now)] + rest;
      RunStarts(json, n, moves, rest);
    }
  }

  /** The drain of a live subscription without a limit is waiting, in a session begun with no barrier queued. */
  ghost predicate DrainWaits(json: Json, n: Net, k: int) {
    && n.aligned && InSession(n.client) && Readable(json, n.toClient)
    && Find(n.client.subscriptions, k).Some? && Find(n.client.subscriptions, k).value.remaining.None?
    && (SubscriptionDrain(k) in Contents(n.client.pings) || DrainBarrier in Contents(n.client.pings))
  }

  lemma FromThere(json: Json, n: Net, n': Net, now: nat, k: int) returns (moves: seq<Move>)
    requires Known(n') && Ordered(n', k) && Spoken(n') && Caught(json, n, n') && DrainWaits(json, n, k)
    ensures CanRun(json, n', moves) && forall m <- moves :: m == ClientReceives(now)
    ensures EndsNow(json, RunNet(json, n', moves), now, k)
  {
    var q := Contents(n.client.pings);
    var o := if SubscriptionDrain(k) in q then SubscriptionDrain(k) else DrainBarrier;
    GuardDue(q, n'.toClient, k in n'.table, Drains.Ends(n.client, k), o, k);
    moves := Receives(json, n', now, k);
  }

  lemma Completes(json: Json, n: Net, now: nat, k: int) returns (more: seq<Move>)
    requires Known(n) && Ordered(n, k) && Spoken(n) && DrainWaits(json, n, k)
    ensures CanRun(json, n, more) && EndsNow(json, RunNet(json, n, more), now, k)
    ensures forall m <- more :: m == ServerProcesses || m == ClientReceives(now)
  {
    var first := CatchUp(json, n, k);
    var second := FromThere(json, n, RunNet(json, n, first), now, k);
    more := first + second;
    RunNetPlus(json, n, first, second);
  }

  /** In any run from the start: while the drain of a live subscription without a limit is waiting, in a session begun
      with no barrier queued, and the INFO on its way can be read, the run can be continued, by nothing but the server
      processing what it has heard and the client receiving what it was sent, to the PONG that ends it. */
  lemma DrainCompletes(json: Json, config: Config, moves: seq<Move>, now: nat, k: int) returns (more: seq<Move>)
    requires CanRun(json, Start(config), moves) && DrainWaits(json, RunNet(json, Start(config), moves), k)
    ensures CanRun(json, Start(config), moves + more)
    ensures forall m <- more :: m == ServerProcesses || m == ClientReceives(now)
    ensures EndsNow(json, RunNet(json, Start(config), moves + more), now, k)
  {
    RunOrdered(json, Start(config), moves, k);
    RunSpoken(json, Start(config), moves);
    more := Completes(json, RunNet(json, Start(config), moves), now, k);
    RunNetPlus(json, Start(config), moves, more);
  }
}
