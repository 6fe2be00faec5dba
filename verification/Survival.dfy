/** What a caller does decides whether a subscription lives to its drain's PONG: the drain theorems over inputs. */
module Survival {
  import opened Base
  import O = Op
  import opened Client
  import opened Invariant
  import opened Shape
  import opened Network
  import opened Drains
  import opened Barriers
  import History

  /** The input concerns this id: an unsubscribe, a limit or a forget. */
  predicate Touches(input: Input, k: int) {
    match input
    case Do(Unsubscribe(sid)) => sid == k
    case Do(AutoUnsubscribe(sid, _)) => sid == k
    case Drop(sid) => sid == k
    case _ => false
  }

  ghost predicate Untouched(inputs: seq<Input>, k: int) {
    forall input <- inputs :: !Touches(input, k)
  }

  /** No drain of this id, or of the connection, among the barriers. */
  ghost predicate NoDrain(origins: seq<PingOrigin>, k: int) {
    SubscriptionDrain(k) !in origins && DrainBarrier !in origins
  }

  predicate Unlimited(s: State, k: int) {
    Find(s.subscriptions, k).Some? && Find(s.subscriptions, k).value.remaining.None?
  }

  lemma StepSpares(json: Json, s: State, input: Input, k: int)
    requires Inv(s) && Unlimited(s, k) && !Touches(input, k) && NoDrain(ResolvedBy(s, input), k)
    ensures Unlimited(Step(json, s, input).state, k)
  {
    FindDescending(s.subscriptions, s.nextSid, k);
    History.EveryStepEvolves(json, s, input, k);
  }

  /** A subscription without a limit that nobody unsubscribes, limits or forgets lives until the PONG of a drain. */
  lemma {:induction false} UnlimitedLives(json: Json, s: State, inputs: seq<Input>, k: int)
    requires Inv(s) && Unlimited(s, k) && Untouched(inputs, k) && NoDrain(ResolvedOver(json, s, inputs), k)
    ensures Unlimited(Run(json, s, inputs), k)
    decreases inputs
  {
    if inputs != [] {
      assert inputs[0] in inputs;
      StepKeeps(json, s, inputs[0]);
      ResolvedFirst(json, s, inputs, k);
      StepSpares(json, s, inputs[0], k);
      UnlimitedLives(json, Step(json, s, inputs[0]).state, inputs[1..], k);
    }
  }

  lemma ResolvedFirst(json: Json, s: State, inputs: seq<Input>, k: int)
    requires Inv(s) && inputs != [] && Inv(Step(json, s, inputs[0]).state) && NoDrain(ResolvedOver(json, s, inputs), k)
    ensures NoDrain(ResolvedBy(s, inputs[0]), k)
    ensures NoDrain(ResolvedOver(json, Step(json, s, inputs[0]).state, inputs[1..]), k)
  {
    var first, later := ResolvedBy(s, inputs[0]), ResolvedOver(json, Step(json, s, inputs[0]).state, inputs[1..]);
    assert forall o :: o in first || o in later ==> o in first + later;
  }

  // ---- Sessions of the network ----

  ghost predicate WithinSession(moves: seq<Move>) {
    forall m <- moves :: !m.Reconnects?
  }

  lemma SessionStep(json: Json, n: Net, move: Move)
    requires Inv(n.client) && Enabled(json, n, move) && !move.Reconnects?
    ensures OneSession(InputOf(n, move)) && Next(json, n, move).aligned == n.aligned
  {
  }

  lemma SessionPlus(a: seq<Input>, b: seq<Input>)
    requires OneSession(a) && OneSession(b)
    ensures OneSession(a + b)
  {
  }

  lemma {:induction false} SessionInputs(json: Json, n: Net, moves: seq<Move>)
    requires CanRun(json, n, moves) && WithinSession(moves)
    ensures OneSession(InputsOf(json, n, moves)) && RunNet(json, n, moves).aligned == n.aligned
    decreases moves
  {
    if moves != [] {
      assert moves[0] in moves;
      SessionStep(json, n, moves[0]);
      SessionInputs(json, Next(json, n, moves[0]), moves[1..]);
      SessionPlus(InputOf(n, moves[0]), InputsOf(json, Next(json, n, moves[0]), moves[1..]));
    }
  }

  /** The session goes on, and the caller leaves the subscription alone. */
  ghost predicate GoesOn(json: Json, n: Net, later: seq<Move>, k: int) {
    CanRun(json, n, later) && WithinSession(later) && Untouched(InputsOf(json, n, later), k)
  }

  /** The PONG of a drain is at hand. */
  ghost predicate DrainPong(json: Json, n: Net, now: nat, k: int)
    requires Inv(n.client)
  {
    && Enabled(json, n, ClientReceives(now)) && n.toClient[0] == O.Pong && Contents(n.client.pings) != []
    && (Contents(n.client.pings)[0] == SubscriptionDrain(k) || Contents(n.client.pings)[0] == DrainBarrier)
  }

  /** What holds once the PONG at hand has been received, and in every run after that. */
  ghost predicate Complete(json: Json, n: Net, now: nat, k: int, more: seq<Move>)
    requires Inv(n.client) && Enabled(json, n, ClientReceives(now))
    requires CanRun(json, Next(json, n, ClientReceives(now)), more)
  {
    var n' := Next(json, n, ClientReceives(now));
    && On(n.got, k) == On(n.sent, k) && On(n'.got, k) == On(n'.sent, k)
    && k !in n.table && !HasSub(n.toServer, k)
    && Step(json, n.client, Receive(now, Ok(O.Pong))).events == [FlushCompleted]
    && History.Delivered(json, n'.client, InputsOf(json, n', more), k) == 0
    && Find(RunNet(json, n', more).client.subscriptions, k).None?
  }

  lemma StaysUnlimited(json: Json, n: Net, later: seq<Move>, k: int)
    requires CanRun(json, n, later) && Unlimited(n.client, k) && Untouched(InputsOf(json, n, later), k)
    requires NoDrain(ResolvedOver(json, n.client, InputsOf(json, n, later)), k)
    ensures Unlimited(RunNet(json, n, later).client, k)
  {
    ClientRuns(json, n, later);
    UnlimitedLives(json, n.client, InputsOf(json, n, later), k);
  }

  /** Draining loses nothing, over what the caller does. In a session begun with no barrier queued, from any moment
      at which the subscription is live and unlimited: if it is not unsubscribed, limited or forgotten, then the first
      PONG of a drain of it, or of the connection, finds everything the server sent on it delivered, and it is over. */
  lemma FirstDrainLosesNothing(json: Json, config: Config, moves: seq<Move>, later: seq<Move>, now: nat, k: int,
                               more: seq<Move>)
    requires CanRun(json, Start(config), moves)
    requires var n0 := RunNet(json, Start(config), moves);
             && n0.aligned && Unlimited(n0.client, k)
             && GoesOn(json, n0, later, k)
             && NoDrain(ResolvedOver(json, n0.client, InputsOf(json, n0, later)), k)
             && var n := RunNet(json, n0, later);
                DrainPong(json, n, now, k) && CanRun(json, Next(json, n, ClientReceives(now)), more)
    ensures Complete(json, RunNet(json, RunNet(json, Start(config), moves), later), now, k, more)
  {
    var n0 := RunNet(json, Start(config), moves);
    StaysUnlimited(json, n0, later, k);
    SessionInputs(json, n0, later);
    RunNetPlus(json, Start(config), moves, later);
    NothingLost(json, config, moves + later, now, k, more);
  }

  // ---- The PONG that answers a given drain ----

  /** A live unlimited subscription whose drain is waiting is marked as draining. */
  predicate Marked(s: State, k: int) {
    Unlimited(s, k) && SubscriptionDrain(k) in Contents(s.pings) ==> k in s.draining
  }

  lemma CommandMarks(s: State, command: Command, t: Transition, k: int)
    requires Inv(s) && Marked(s, k) && Accepted(s, command, t)
    requires SubscriptionDrain(k) in Contents(s.pings) ==> k < s.nextSid
    ensures Marked(t.state, k)
  {
    match command
    case Subscribe(subject, queueGroup) =>
      var sub := Subscription(s.nextSid, subject, queueGroup, None, 0);
      assert ([sub] + s.subscriptions)[1..] == s.subscriptions;
    case Unsubscribe(j) => UnsubscribedMarks(s, Find(s.subscriptions, j).value, None, k);
    case AutoUnsubscribe(j, max) => UnsubscribedMarks(s, Find(s.subscriptions, j).value, Some(max), k);
    case DrainSubscription(j) => EnqueueExact(s.pings, SubscriptionDrain(j));
    case Flush => EnqueueExact(s.pings, FlushBarrier);
    case Drain => EnqueueExact(s.pings, DrainBarrier);
    case _ =>
  }

  lemma UnsubscribedMarks(s: State, sub: Subscription, max: Option<int>, k: int)
    requires Marked(s, k) && Find(s.subscriptions, sub.sid) == Some(sub)
    ensures Marked(Unsubscribed(s, sub, max), k)
  {
    History.LimitedFind(s.subscriptions, sub, max, k);
    WithoutExact(s.draining, sub.sid);
  }

  lemma ForgetMarks(s: State, sid: int, k: int)
    requires Marked(s, k)
    ensures Marked(Forget(s, sid), k)
  {
    FindRemove(s.subscriptions, sid, k);
    WithoutExact(s.draining, sid);
  }

  lemma PongMarks(s: State, now: nat, k: int)
    requires Marked(s, k)
    ensures Marked(HandlePong(s, now).state, k)
  {
    TakeExact(s.pings);
    if TakePing(s.pings).Some? {
      var (origin, pings) := TakePing(s.pings).value;
      var rest := s.(pings := pings, unanswered := 0);
      assert Marked(rest, k);
      if origin.SubscriptionDrain? {
        ForgetMarks(rest, origin.sid, k);
      }
    }
  }

  lemma HandledMarks(s: State, now: nat, op: O.Op, t: Transition, k: int)
    requires Marked(s, k) && Handled(s, now, op, t)
    ensures Marked(t.state, k)
  {
    if op.Pong? {
      PongMarks(s, now, k);
    } else if DeliveryOf(op).Some? {
      History.MessageFind(s, now, DeliveryOf(op).value, k);
    }
  }

  lemma ShapedMarks(s: State, input: Input, t: Transition, k: int)
    requires Inv(s) && Marked(s, k) && Shaped(s, input, t) && !input.Reconnect?
    requires SubscriptionDrain(k) in Contents(s.pings) ==> k < s.nextSid
    ensures Marked(t.state, k)
  {
    if t != Idle(s) {
      match input
      case Do(command) => CommandMarks(s, command, t, k);
      case Receive(now, read) => if read.Ok? { HandledMarks(s, now, read.value, t, k); }
      case Tick(_) => EnqueueExact(s.pings, Liveness);
      case Drop(sid) => ForgetMarks(s, sid, k);
    }
  }

  lemma NextMarks(json: Json, n: Net, move: Move, k: int)
    requires Known(n) && Enabled(json, n, move) && (n.aligned ==> Marked(n.client, k))
    ensures var n' := Next(json, n, move); n'.aligned ==> Marked(n'.client, k)
  {
    if move.ClientMoves? || move.ClientReceives? {
      var input := InputOf(n, move)[0];
      StepShaped(json, n.client, input);
      if n.aligned {
        ShapedMarks(n.client, input, Step(json, n.client, input), k);
      }
    }
  }

  lemma {:induction false} RunMarks(json: Json, n: Net, moves: seq<Move>, k: int)
    requires Known(n) && CanRun(json, n, moves) && (n.aligned ==> Marked(n.client, k))
    ensures var n' := RunNet(json, n, moves); n'.aligned ==> Marked(n'.client, k)
    decreases moves
  {
    if moves != [] {
      NextKeepsKnown(json, n, moves[0]);
      NextMarks(json, n, moves[0], k);
      RunMarks(json, Next(json, n, moves[0]), moves[1..], k);
    }
  }

  /** The barrier a drain command queues. */
  function BarrierOf(command: Command): PingOrigin
    requires command.DrainSubscription? || command.Drain?
  {
    if command.Drain? then DrainBarrier else SubscriptionDrain(command.sid)
  }

  /** After the PONGs of the barriers that were waiting, the next PONG answers the one queued behind them. */
  lemma ItsTurn(json: Json, s: State, inputs: seq<Input>, before: seq<PingOrigin>, o: PingOrigin)
    requires Inv(s) && OneSession(inputs) && Contents(s.pings) == before + [o]
    requires |ResolvedOver(json, s, inputs)| == |before|
    ensures ResolvedOver(json, s, inputs) == before
    ensures Contents(Run(json, s, inputs).pings) != [] && Contents(Run(json, s, inputs).pings)[0] == o
  {
    RunQueues(json, s, inputs);
    var done, sent, left := ResolvedOver(json, s, inputs), SentOver(json, s, inputs), Contents(Run(json, s, inputs).pings);
    var total := (before + [o]) + sent;
    assert total == done + left;
    assert total[..|before|] == before && total[|before|] == o;
    assert (done + left)[..|before|] == done && (done + left)[|before|] == left[0];
  }

  /** The command drains the subscription: its own drain, or the connection's while its own is not waiting. */
  ghost predicate DrainedWith(json: Json, n: Net, command: Command, k: int)
    requires Inv(n.client)
  {
    && Outgoing(json, n.client, command).Ok?
    && (command == DrainSubscription(k) || (command.Drain? && SubscriptionDrain(k) !in Contents(n.client.pings)))
  }

  lemma DrainQueues(json: Json, n: Net, command: Command, k: int)
    requires Known(n) && Unlimited(n.client, k) && DrainedWith(json, n, command, k)
    ensures var t := Step(json, n.client, Do(command));
            && t.state.nextSid == n.client.nextSid && Unlimited(t.state, k)
            && Contents(t.state.pings) == Contents(n.client.pings) + [BarrierOf(command)]
  {
    CommandShaped(json, n.client, command);
    EnqueueExact(n.client.pings, BarrierOf(command));
  }

  /** A drain command can always be given. */
  lemma DrainEnabled(json: Json, n: Net, command: Command, k: int)
    requires Known(n) && Unlimited(n.client, k) && DrainedWith(json, n, command, k)
    ensures Enabled(json, n, ClientMoves(Do(command)))
    ensures Next(json, n, ClientMoves(Do(command))) == AfterClient(n, Do(command), Step(json, n.client, Do(command)))
  {
    DrainQueues(json, n, command, k);
  }

  lemma NoneWaiting(json: Json, n: Net, command: Command, k: int)
    requires Known(n) && Ordered(n, k) && n.aligned && Marked(n.client, k) && Unlimited(n.client, k)
    requires DrainedWith(json, n, command, k)
    ensures NoDrain(Contents(n.client.pings), k)
  {
    CommandShaped(json, n.client, command);
  }

  /** The network right after the drain command. */
  ghost function Drained(json: Json, n: Net, command: Command): Net
    requires Inv(n.client)
  {
    AfterClient(n, Do(command), Step(json, n.client, Do(command)))
  }

  lemma OwnTurn(json: Json, n0: Net, command: Command, later: seq<Move>, k: int)
    requires Known(n0) && Ordered(n0, k) && n0.aligned && Marked(n0.client, k) && Unlimited(n0.client, k)
    requires DrainedWith(json, n0, command, k)
    requires var n1 := Drained(json, n0, command);
             GoesOn(json, n1, later, k)
             && |ResolvedOver(json, n1.client, InputsOf(json, n1, later))| == |Contents(n0.client.pings)|
    ensures var n1 := Drained(json, n0, command);
            var n := RunNet(json, n1, later);
            && NoDrain(ResolvedOver(json, n1.client, InputsOf(json, n1, later)), k) && Unlimited(n1.client, k)
            && Contents(n.client.pings) != [] && Contents(n.client.pings)[0] == BarrierOf(command)
  {
    var n1 := Drained(json, n0, command);
    DrainQueues(json, n0, command, k);
    NoneWaiting(json, n0, command, k);
    SessionInputs(json, n1, later);
    ItsTurn(json, n1.client, InputsOf(json, n1, later), Contents(n0.client.pings), BarrierOf(command));
    ClientRuns(json, n1, later);
  }

  lemma DrainRuns(json: Json, config: Config, moves: seq<Move>, command: Command, k: int)
    requires CanRun(json, Start(config), moves)
    requires var n0 := RunNet(json, Start(config), moves);
             n0.aligned && Unlimited(n0.client, k) && DrainedWith(json, n0, command, k)
    ensures var step := [ClientMoves(Do(command))];
            CanRun(json, Start(config), moves + step)
            && RunNet(json, Start(config), moves + step) == Drained(json, RunNet(json, Start(config), moves), command)
  {
    var n0 := RunNet(json, Start(config), moves);
    RunOrdered(json, Start(config), moves, k);
    DrainEnabled(json, n0, command, k);
    StepKeeps(json, n0.client, Do(command));
    RunThen(json, Start(config), moves, ClientMoves(Do(command)));
  }

  /** A drain loses nothing, over what the caller does. Let a live, unlimited subscription be drained in a session
      begun with no barrier queued. If it is not unsubscribed, limited or forgotten afterwards, it lives to the PONG
      that answers this very drain (the one after as many PONGs as barriers were waiting), and that PONG finds
      everything the server sent on it delivered, in order; the flush completes, and no later run delivers on it. */
  lemma OwnDrainLosesNothing(json: Json, config: Config, moves: seq<Move>, command: Command, later: seq<Move>, now: nat,
                             k: int, more: seq<Move>)
    requires CanRun(json, Start(config), moves)
    requires var n0 := RunNet(json, Start(config), moves);
             && n0.aligned && Unlimited(n0.client, k) && DrainedWith(json, n0, command, k)
             && var n1 := Drained(json, n0, command);
             && GoesOn(json, n1, later, k)
             && |ResolvedOver(json, n1.client, InputsOf(json, n1, later))| == |Contents(n0.client.pings)|
             && var n := RunNet(json, n1, later);
             && Enabled(json, n, ClientReceives(now)) && n.toClient[0] == O.Pong
             && CanRun(json, Next(json, n, ClientReceives(now)), more)
    ensures var n := RunNet(json, Drained(json, RunNet(json, Start(config), moves), command), later);
            && Contents(n.client.pings) != [] && Contents(n.client.pings)[0] == BarrierOf(command)
            && Find(n.client.subscriptions, k).Some?
            && Complete(json, n, now, k, more)
  {
    var n0 := RunNet(json, Start(config), moves);
    RunOrdered(json, Start(config), moves, k);
    RunMarks(json, Start(config), moves, k);
    OwnTurn(json, n0, command, later, k);
    StaysUnlimited(json, Drained(json, n0, command), later, k);
    DrainRuns(json, config, moves, command, k);
    FirstDrainLosesNothing(json, config, moves + [ClientMoves(Do(command))], later, now, k, more);
  }
}
