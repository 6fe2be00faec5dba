/** Barriers over whole sessions: PONGs resolve PINGs first come, first served, and a silent peer is given up. */
module Barriers {
  import opened Base
  import O = Op
  import opened Client
  import opened Invariant
  import opened Wire
  import opened Shape

  // ---- One step ----

  /** The origin of the PING a step sends, if it sends one. */
  function SentBy(s: State, input: Input, t: Transition): seq<PingOrigin> {
    match input
    case Do(Flush) => if t != Idle(s) then [FlushBarrier] else []
    case Do(Drain) => if t != Idle(s) then [DrainBarrier] else []
    case Do(DrainSubscription(sid)) => if t != Idle(s) then [SubscriptionDrain(sid)] else []
    case Tick(now) => if PingDue(s, now) && s.unanswered < s.config.maxPings then [Liveness] else []
    case _ => []
  }

  /** The origin `take_ping` hands over, if any. */
  function Taken(q: PingQueue): seq<PingOrigin> {
    match TakePing(q)
    case None => []
    case Some((origin, _)) => [origin]
  }

  /** The origin a step resolves: what a PONG takes from the queue. */
  function ResolvedBy(s: State, input: Input): seq<PingOrigin> {
    if input.Receive? && input.read == Ok(O.Pong) && InSession(s) then Taken(s.pings) else []
  }

  /** What is taken is the barrier that has waited longest. */
  lemma TakenFirst(q: PingQueue)
    ensures Taken(q) == if Contents(q) == [] then [] else [Contents(q)[0]]
  {
    TakeExact(q);
  }

  function CountPings(ops: seq<O.Op>): nat {
    if ops == [] then 0 else (if ops[0].Ping? then 1 else 0) + CountPings(ops[1..])
  }

  function CountFlushed(events: seq<Event>): nat {
    if events == [] then 0 else (if events[0].FlushCompleted? then 1 else 0) + CountFlushed(events[1..])
  }

  function CountBarriers(origins: seq<PingOrigin>): nat {
    if origins == [] then 0 else (if origins[0].Liveness? then 0 else 1) + CountBarriers(origins[1..])
  }

  lemma {:induction false} CountPingsPlus(a: seq<O.Op>, b: seq<O.Op>)
    ensures CountPings(a + b) == CountPings(a) + CountPings(b)
  {
    if a == [] {
      assert a + b == b;
    } else {
      assert (a + b)[1..] == a[1..] + b;
      CountPingsPlus(a[1..], b);
    }
  }

  lemma {:induction false} CountBarriersPlus(a: seq<PingOrigin>, b: seq<PingOrigin>)
    ensures CountBarriers(a + b) == CountBarriers(a) + CountBarriers(b)
  {
    if a == [] {
      assert a + b == b;
    } else {
      assert (a + b)[1..] == a[1..] + b;
      CountBarriersPlus(a[1..], b);
    }
  }

  lemma {:induction false} ReplayHasNoPing(subs: seq<Subscription>)
    ensures CountPings(Replay(subs)) == 0
  {
    if subs != [] {
      ReplayHasNoPing(subs[1..]);
      CountPingsPlus(Replay(subs[1..]), ReplayOne(subs[0]));
      CountNone(ReplayOne(subs[0]));
    }
  }

  lemma {:induction false} UnsubsHaveNoPing(subs: seq<Subscription>, draining: seq<int>)
    ensures CountPings(Unsubs(subs, draining)) == 0
  {
    if subs != [] {
      UnsubsHaveNoPing(subs[1..], draining);
      CountPingsPlus(Unsubs(subs[1..], draining), if subs[0].sid in draining then [] else [O.Unsub(subs[0].sid, None)]);
    }
  }

  lemma {:induction false} CountNone(ops: seq<O.Op>)
    requires forall i :: 0 <= i < |ops| ==> !ops[i].Ping?
    ensures CountPings(ops) == 0
  {
    if ops != [] {
      CountNone(ops[1..]);
    }
  }

  /** The queue loses what the step resolves at the front and gains what it sends at the back. */
  ghost predicate Queues(s: State, input: Input, t: Transition) {
    Contents(s.pings) + SentBy(s, input, t) == ResolvedBy(s, input) + Contents(t.state.pings)
  }

  lemma PongQueues(s: State, now: nat)
    ensures Contents(s.pings) == Taken(s.pings) + Contents(HandlePong(s, now).state.pings)
    ensures CountFlushed(HandlePong(s, now).events) == CountBarriers(Taken(s.pings))
  {
    TakeExact(s.pings);
    if TakePing(s.pings).None? {
      assert Taken(s.pings) + Contents(s.pings) == Contents(s.pings);
    } else {
      assert Taken(s.pings)[1..] == [];
    }
  }

  lemma EmptyPlus(q: seq<PingOrigin>)
    ensures q + [] == [] + q
  {
  }

  lemma CommandQueues(s: State, command: Command, t: Transition)
    requires t == Idle(s) || Accepted(s, command, t)
    ensures Queues(s, Do(command), t) && CountFlushed(t.events) == 0
  {
    EmptyPlus(Contents(s.pings));
    CountNoFlush(t.events);
    match command
    case Flush => EnqueueExact(s.pings, FlushBarrier);
    case Drain => EnqueueExact(s.pings, DrainBarrier);
    case DrainSubscription(sid) => EnqueueExact(s.pings, SubscriptionDrain(sid));
    case _ =>
  }

  lemma TickQueues(s: State, now: nat, t: Transition)
    requires Ticked(s, now, t)
    ensures Queues(s, Tick(now), t) && CountFlushed(t.events) == 0
  {
    EmptyPlus(Contents(s.pings));
    EnqueueExact(s.pings, Liveness);
    CountNoFlush(t.events);
  }

  lemma ReceiveQueues(s: State, input: Input, t: Transition)
    requires input.Receive? && (t == Idle(s) || Answered(s, input.now, input.read, t))
    requires input.read == Ok(O.Pong) && InSession(s) ==> t == HandlePong(s, input.now)
    ensures Queues(s, input, t) && CountFlushed(t.events) == CountBarriers(ResolvedBy(s, input))
  {
    EmptyPlus(Contents(s.pings));
    if input.read == Ok(O.Pong) && InSession(s) {
      PongQueues(s, input.now);
    } else {
      CountNoFlush(t.events);
    }
  }

  lemma ShapedQueues(s: State, input: Input, t: Transition)
    requires Shaped(s, input, t) && !input.Reconnect?
    requires input.Receive? && input.read == Ok(O.Pong) && InSession(s) ==> t == HandlePong(s, input.now)
    ensures Queues(s, input, t) && CountFlushed(t.events) == CountBarriers(ResolvedBy(s, input))
  {
    match input
    case Do(command) => CommandQueues(s, command, t);
    case Tick(now) => TickQueues(s, now, t);
    case Receive(_, _) => ReceiveQueues(s, input, t);
    case Drop(_) => EmptyPlus(Contents(s.pings));
  }

  lemma {:induction false} CountNoFlush(events: seq<Event>)
    requires forall i :: 0 <= i < |events| ==> !events[i].FlushCompleted?
    ensures CountFlushed(events) == 0
  {
    if events != [] {
      CountNoFlush(events[1..]);
    }
  }

  lemma HeardPings(s: State, input: Input, t: Transition, heard: seq<O.Op>)
    requires Shaped(s, input, t) && Hears(s, input, t, heard)
    ensures CountPings(heard) == |SentBy(s, input, t)|
  {
    match input
    case Do(Drain) =>
      UnsubsHaveNoPing(s.subscriptions, s.draining);
      CountPingsPlus(Unsubs(s.subscriptions, s.draining), [O.Ping]);
      assert [O.Ping][1..] == [];
    case Do(Connect(_, _)) => ReplayHasNoPing(s.subscriptions);
    case Do(DrainSubscription(sid)) =>
      assert [O.Unsub(sid, None), O.Ping][1..] == [O.Ping];
      assert [O.Ping][1..] == [];
    case _ =>
  }

  lemma StepQueues(json: Json, s: State, input: Input)
    requires Inv(s) && !input.Reconnect?
    ensures var t := Step(json, s, input);
            && Queues(s, input, t)
            && CountFlushed(t.events) == CountBarriers(ResolvedBy(s, input))
            && (s.nextSid <= MAX_INT ==> CountPings(Decoded(t.output)) == |SentBy(s, input, t)|)
  {
    StepShaped(json, s, input);
    ShapedQueues(s, input, Step(json, s, input));
    if s.nextSid <= MAX_INT {
      StepHeard(json, s, input);
      HeardPings(s, input, Step(json, s, input), Decoded(Step(json, s, input).output));
    }
  }

  // ---- Whole sessions ----

  function SentOver(json: Json, s: State, inputs: seq<Input>): seq<PingOrigin>
    requires Inv(s)
    decreases inputs
  {
    if inputs == [] then []
    else
      StepKeeps(json, s, inputs[0]);
      var t := Step(json, s, inputs[0]);
      SentBy(s, inputs[0], t) + SentOver(json, t.state, inputs[1..])
  }

  function ResolvedOver(json: Json, s: State, inputs: seq<Input>): seq<PingOrigin>
    requires Inv(s)
    decreases inputs
  {
    if inputs == [] then []
    else
      StepKeeps(json, s, inputs[0]);
      ResolvedBy(s, inputs[0]) + ResolvedOver(json, Step(json, s, inputs[0]).state, inputs[1..])
  }

  function FlushedOver(json: Json, s: State, inputs: seq<Input>): nat
    requires Inv(s)
    decreases inputs
  {
    if inputs == [] then 0
    else
      StepKeeps(json, s, inputs[0]);
      var t := Step(json, s, inputs[0]);
      CountFlushed(t.events) + FlushedOver(json, t.state, inputs[1..])
  }

  /** The PINGs the server decodes from the output of a run. */
  function PingsOver(json: Json, s: State, inputs: seq<Input>): nat
    requires Inv(s)
    decreases inputs
  {
    if inputs == [] then 0
    else
      StepKeeps(json, s, inputs[0]);
      var t := Step(json, s, inputs[0]);
      CountPings(Decoded(t.output)) + PingsOver(json, t.state, inputs[1..])
  }

  ghost predicate OneSession(inputs: seq<Input>) {
    forall i :: 0 <= i < |inputs| ==> !inputs[i].Reconnect?
  }

  lemma Chain(start: seq<PingOrigin>, sent: seq<PingOrigin>, done: seq<PingOrigin>, middle: seq<PingOrigin>,
              rest: seq<PingOrigin>, later: seq<PingOrigin>, last: seq<PingOrigin>)
    requires start + sent == done + middle && middle + rest == later + last
    ensures start + (sent + rest) == (done + later) + last
  {
    assert start + (sent + rest) == (start + sent) + rest;
    assert (done + middle) + rest == done + (middle + rest);
    assert done + (later + last) == (done + later) + last;
  }

  lemma {:induction false} RunQueues(json: Json, s: State, inputs: seq<Input>)
    requires Inv(s) && OneSession(inputs)
    ensures Contents(s.pings) + SentOver(json, s, inputs) ==
            ResolvedOver(json, s, inputs) + Contents(Run(json, s, inputs).pings)
    ensures FlushedOver(json, s, inputs) == CountBarriers(ResolvedOver(json, s, inputs))
    decreases inputs
  {
    if inputs == [] {
      assert Contents(s.pings) + [] == [] + Contents(s.pings);
    } else {
      StepKeeps(json, s, inputs[0]);
      StepQueues(json, s, inputs[0]);
      var t := Step(json, s, inputs[0]);
      var later := ResolvedOver(json, t.state, inputs[1..]);
      RunQueues(json, t.state, inputs[1..]);
      Chain(Contents(s.pings), SentBy(s, inputs[0], t), ResolvedBy(s, inputs[0]), Contents(t.state.pings),
            SentOver(json, t.state, inputs[1..]), later, Contents(Run(json, s, inputs).pings));
      CountBarriersPlus(ResolvedBy(s, inputs[0]), later);
    }
  }

  /** In a session that begins with no barrier queued, the k-th PONG resolves the k-th PING: the origins resolved
      are the first of those sent and the queue holds the others; a flush completes exactly for each resolved
      barrier that is not a liveness probe. */
  lemma FirstComeFirstServed(json: Json, s: State, inputs: seq<Input>)
    requires Inv(s) && OneSession(inputs) && Contents(s.pings) == []
    ensures var sent, done := SentOver(json, s, inputs), ResolvedOver(json, s, inputs);
            && |done| <= |sent| && done == sent[..|done|] && Contents(Run(json, s, inputs).pings) == sent[|done|..]
            && FlushedOver(json, s, inputs) == CountBarriers(sent[..|done|])
  {
    RunQueues(json, s, inputs);
    assert [] + SentOver(json, s, inputs) == SentOver(json, s, inputs);
  }

  /** As many PINGs reach the wire as origins are recorded. */
  lemma {:induction false} PingsOnTheWire(json: Json, s: State, inputs: seq<Input>)
    requires Inv(s) && OneSession(inputs) && Run(json, s, inputs).nextSid <= MAX_INT
    ensures s.nextSid <= MAX_INT && PingsOver(json, s, inputs) == |SentOver(json, s, inputs)|
    decreases inputs
  {
    if inputs != [] {
      StepKeeps(json, s, inputs[0]);
      StepShaped(json, s, inputs[0]);
      NextSidGrows(s, inputs[0], Step(json, s, inputs[0]));
      PingsOnTheWire(json, Step(json, s, inputs[0]).state, inputs[1..]);
      StepQueues(json, s, inputs[0]);
    }
  }

  lemma NextSidGrows(s: State, input: Input, t: Transition)
    requires Shaped(s, input, t)
    ensures s.nextSid <= t.state.nextSid
  {
  }

  // ---- A silent peer ----

  /** The timer fires exactly when it asked to. */
  function SilentTick(s: State): Transition {
    match NextTimeout(s)
    case None => Idle(s)
    case Some(deadline) => Timer(s, deadline)
  }

  function SilentTicks(s: State, n: nat): State
    decreases n
  {
    if n == 0 then s else SilentTicks(SilentTick(s).state, n - 1)
  }

  /** When the n-th further liveness PING is due, if the clock can express it. */
  function Deadline(s: State, n: nat): Option<nat>
    requires s.nextPing.Some? && s.config.pingInterval.Some?
  {
    var at := s.nextPing.value + n * s.config.pingInterval.value;
    if at > MAX_TIME then None else Some(at)
  }

  ghost predicate Watching(s: State) {
    Inv(s) && s.phase == Connected && s.nextPing.Some? && s.nextPing.value <= MAX_TIME && s.config.pingInterval.Some?
  }

  lemma TickShape(s: State)
    requires Watching(s) && s.unanswered < s.config.maxPings
    ensures SilentTick(s).state == Pinged(s, s.nextPing.value) && SilentTick(s).events == []
  {
    TimerShaped(s, s.nextPing.value);
  }

  lemma TickPings(s: State)
    requires Watching(s) && s.unanswered < s.config.maxPings
    ensures SilentTick(s).state == Pinged(s, s.nextPing.value) && Inv(SilentTick(s).state)
    ensures Decoded(SilentTick(s).output) == [O.Ping] && SilentTick(s).events == []
  {
    TickShape(s);
    TimerHeard(s, s.nextPing.value);
    PingedKeeps(s, s.nextPing.value);
  }

  lemma MulStep(n: int, i: int)
    ensures n * i == i + (n - 1) * i
  {
  }

  lemma MulOne(i: int)
    ensures 1 * i == i
  {
  }

  lemma MulMonotone(m: nat, n: nat, i: nat)
    requires m <= n
    ensures m * i <= n * i
  {
    assert n * i == m * i + (n - m) * i;
  }

  lemma PingedDeadline(s: State, n: nat)
    requires Watching(s) && n > 0
    ensures var next := Pinged(s, s.nextPing.value);
            next.nextPing == Deadline(s, 1) && (next.nextPing.Some? ==> Deadline(next, n - 1) == Deadline(s, n))
  {
    MulStep(n, s.config.pingInterval.value);
  }

  lemma EarlierDeadline(s: State, m: nat, n: nat)
    requires Watching(s) && m <= n && Deadline(s, n).Some?
    ensures Deadline(s, m).Some?
  {
    MulMonotone(m, n, s.config.pingInterval.value);
  }

  ghost predicate SilentFor(s: State, n: nat, q: State)
    requires s.nextPing.Some? && s.config.pingInterval.Some?
  {
    && Inv(q) && q.phase == Connected && q.config == s.config
    && q.unanswered == s.unanswered + n && q.nextPing == Deadline(s, n)
  }

  lemma SilentStep(s: State, n: nat, q: State)
    requires Watching(s) && n > 0 && s.unanswered < s.config.maxPings
    requires var next := Pinged(s, s.nextPing.value); next.nextPing.Some? && SilentFor(next, n - 1, q)
    ensures SilentFor(s, n, q)
  {
    PingedDeadline(s, n);
  }

  lemma PingedOne(s: State)
    requires Watching(s) && s.unanswered < s.config.maxPings
    ensures SilentFor(s, 1, Pinged(s, s.nextPing.value))
  {
    PingedKeeps(s, s.nextPing.value);
    PingedDeadline(s, 1);
  }

  lemma SilentOne(s: State)
    requires Watching(s) && s.unanswered < s.config.maxPings
    ensures SilentFor(s, 1, SilentTicks(s, 1))
  {
    PingedOne(s);
    SilentUnfold(s, 1);
  }

  lemma SilentUnfold(s: State, n: nat)
    requires Watching(s) && s.unanswered < s.config.maxPings && n > 0
    ensures SilentTicks(s, n) == SilentTicks(Pinged(s, s.nextPing.value), n - 1)
  {
    TickShape(s);
  }

  lemma PingedWatching(s: State)
    requires Watching(s) && s.unanswered < s.config.maxPings && Deadline(s, 1).Some?
    ensures Watching(Pinged(s, s.nextPing.value))
  {
    PingedKeeps(s, s.nextPing.value);
    MulOne(s.config.pingInterval.value);
  }

  /** After n silent ticks, n more PINGs wait and the next deadline is n intervals later, while the clock lasts. */
  lemma {:induction false} SilentState(s: State, n: nat)
    requires Watching(s) && n <= s.config.maxPings - s.unanswered && (n > 0 ==> Deadline(s, n - 1).Some?)
    ensures SilentFor(s, n, SilentTicks(s, n))
    decreases n
  {
    if n == 1 {
      SilentOne(s);
    } else if n > 1 {
      EarlierDeadline(s, 1, n - 1);
      PingedWatching(s);
      PingedDeadline(s, n - 1);
      var next := Pinged(s, s.nextPing.value);
      SilentState(next, n - 1);
      SilentStep(s, n, SilentTicks(next, n - 1));
      SilentUnfold(s, n);
    }
  }

  lemma {:induction false} StuckForever(s: State, n: nat)
    requires s.phase == Connected && s.nextPing.None?
    ensures SilentTicks(s, n) == s
    decreases n
  {
    if n > 0 {
      StuckForever(s, n - 1);
    }
  }

  lemma {:induction false} SilentPlus(s: State, m: nat, n: nat)
    ensures SilentTicks(s, m + n) == SilentTicks(SilentTicks(s, m), n)
    decreases m
  {
    if m > 0 {
      SilentPlus(SilentTick(s).state, m - 1, n);
    }
  }

  /** The clock still expresses the deadline at which the peer would be given up. */
  predicate ClockLasts(s: State)
    requires s.nextPing.Some? && s.config.pingInterval.Some? && s.unanswered <= s.config.maxPings
  {
    Deadline(s, s.config.maxPings - s.unanswered).Some?
  }

  lemma LastOne(s: State, left: nat)
    requires Watching(s) && left == s.config.maxPings - s.unanswered && Deadline(s, left).Some?
    ensures NextTimeout(SilentTicks(s, left)) == Deadline(s, left)
    ensures SilentTick(SilentTicks(s, left)) == ClosedTransition(SilentTicks(s, left))
  {
    if left > 0 {
      EarlierDeadline(s, left - 1, left);
    }
    SilentState(s, left);
    TimerShaped(SilentTicks(s, left), Deadline(s, left).value);
  }

  /** With p PINGs unanswered out of at most `maxPings`, a silent peer is sent exactly the remaining ones, one
      interval apart, and the connection closes one interval after the last. */
  lemma DeadPeerClosed(s: State)
    requires Watching(s) && ClockLasts(s)
    ensures var left := s.config.maxPings - s.unanswered;
            && (forall n :: 0 <= n < left ==>
                  && SilentTicks(s, n).phase == Connected
                  && NextTimeout(SilentTicks(s, n)) == Deadline(s, n)
                  && Decoded(SilentTick(SilentTicks(s, n)).output) == [O.Ping])
            && NextTimeout(SilentTicks(s, left)) == Deadline(s, left)
            && SilentTick(SilentTicks(s, left)) == ClosedTransition(SilentTicks(s, left))
  {
    var left := s.config.maxPings - s.unanswered;
    forall n: nat | n < left
      ensures SilentTicks(s, n).phase == Connected && NextTimeout(SilentTicks(s, n)) == Deadline(s, n)
              && Decoded(SilentTick(SilentTicks(s, n)).output) == [O.Ping]
    {
      EarlierDeadline(s, n, left);
      if n > 0 {
        EarlierDeadline(s, n - 1, left);
      }
      SilentState(s, n);
      TickPings(SilentTicks(s, n));
    }
    LastOne(s, left);
  }

  lemma OneMore(s: State, n: nat, t: State)
    requires t == SilentTicks(s, n)
    ensures SilentTicks(s, n + 1) == SilentTick(t).state
  {
    SilentPlus(s, n, 1);
    assert SilentTicks(t, 1) == SilentTicks(SilentTick(t).state, 0);
  }

  lemma ClosesAtLast(s: State)
    requires Watching(s) && ClockLasts(s)
    ensures SilentTicks(s, s.config.maxPings - s.unanswered + 1).phase == Closed
  {
    var left := s.config.maxPings - s.unanswered;
    LastOne(s, left);
    OneMore(s, left, SilentTicks(s, left));
  }

  lemma StaysConnected(s: State, last: nat, n: nat)
    requires Watching(s) && 0 < last <= s.config.maxPings - s.unanswered
    requires Deadline(s, last).None? && Deadline(s, last - 1).Some?
    ensures SilentTicks(s, n).phase == Connected
  {
    if n <= last {
      if n > 0 {
        EarlierDeadline(s, n - 1, last - 1);
      }
      SilentState(s, n);
    } else {
      SilentState(s, last);
      SilentPlus(s, last, n - last);
      StuckForever(SilentTicks(s, last), n - last);
    }
  }

  /** A silent peer is ever given up exactly when the clock lasts that long. */
  lemma DeadPeerExactly(s: State)
    requires Watching(s)
    ensures (exists n: nat :: SilentTicks(s, n).phase == Closed) <==> ClockLasts(s)
  {
    if ClockLasts(s) {
      ClosesAtLast(s);
    } else {
      var last := LastDeadline(s, s.config.maxPings - s.unanswered);
      forall n: nat ensures SilentTicks(s, n).phase != Closed {
        StaysConnected(s, last, n);
      }
    }
  }

  /** The first deadline the clock cannot express. */
  lemma {:induction false} LastDeadline(s: State, n: nat) returns (last: nat)
    requires Watching(s) && Deadline(s, n).None?
    ensures 0 < last <= n && Deadline(s, last).None? && Deadline(s, last - 1).Some?
    decreases n
  {
    assert Deadline(s, 0).Some?;
    if Deadline(s, n - 1).Some? {
      last := n;
    } else {
      last := LastDeadline(s, n - 1);
    }
  }
}
