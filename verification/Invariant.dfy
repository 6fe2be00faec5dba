/** What every step of the client keeps, over every mix of inputs. */
module Invariant {
  import opened Base
  import opened Codec
  import O = Op
  import opened Client

  // ---- Inputs and steps ----

  datatype Input =
    | Do(command: Command)
    | Receive(now: nat, read: Result<O.Op, CodecError>)
    | Tick(now: nat)
    | Drop(sid: int)
    | Reconnect(preservePendingPings: bool)

  /** An input that is refused leaves the state as it was. */
  function Settle(s: State, r: Result<Transition, ClientError>): Transition {
    if r.Ok? then r.value else Idle(s)
  }

  function Step(json: Json, s: State, input: Input): Transition
    requires Inv(s)
  {
    match input
    case Do(command) => Settle(s, Outgoing(json, s, command))
    case Receive(now, read) => Settle(s, IncomingResult(json, s, now, read))
    case Tick(now) => Timer(s, now)
    case Drop(sid) => Idle(Forget(s, sid))
    case Reconnect(preserve) => Idle(PrepareReconnect(s, preserve))
  }

  // ---- The invariant ----

  /** Ids positive, strictly decreasing and below the bound; every limit leaves at least one message. */
  predicate Descending(subs: seq<Subscription>, below: int) {
    subs != [] ==>
      && 0 < subs[0].sid < below
      && (subs[0].remaining.Some? ==> 1 <= subs[0].remaining.value <= MAX_INT)
      && Descending(subs[1..], subs[0].sid)
  }

  function LivenessCount(origins: seq<PingOrigin>): nat {
    if origins == [] then 0 else (if origins[0].Liveness? then 1 else 0) + LivenessCount(origins[1..])
  }

  predicate Inv(s: State) {
    && s.nextSid >= 1
    && Descending(s.subscriptions, s.nextSid)
    && (s.phase.AwaitingConnect? || s.phase.Connected? || s.phase.Draining? ==> s.info.Some?)
    && (forall sid <- s.draining :: SubscriptionDrain(sid) in Contents(s.pings))
    && 0 <= s.unanswered <= s.config.maxPings
    && s.unanswered <= LivenessCount(Contents(s.pings))
  }

  // ---- The barrier queue is a FIFO ----

  lemma EnqueueExact(q: PingQueue, origin: PingOrigin)
    ensures Contents(EnqueuePing(q, origin)) == Contents(q) + [origin]
  {
    assert ([origin] + q.back)[1..] == q.back;
  }

  lemma TakeExact(q: PingQueue)
    ensures TakePing(q).None? <==> Contents(q) == []
    ensures TakePing(q).Some? ==> Contents(q) == [TakePing(q).value.0] + Contents(TakePing(q).value.1)
  {
    if q.front != [] {
      assert q.front == [q.front[0]] + q.front[1..];
    } else if q.back != [] {
      var rest := Reverse(q.back);
      assert rest == [rest[0]] + rest[1..];
      assert rest[1..] + Reverse<PingOrigin>([]) == rest[1..];
    }
  }

  lemma {:induction false} LivenessCountPlus(a: seq<PingOrigin>, b: seq<PingOrigin>)
    ensures LivenessCount(a + b) == LivenessCount(a) + LivenessCount(b)
  {
    if a == [] {
      assert a + b == b;
    } else {
      assert (a + b)[1..] == a[1..] + b;
      LivenessCountPlus(a[1..], b);
    }
  }

  // ---- Subscription lists ----

  lemma {:induction false} DescendingBelow(subs: seq<Subscription>, below: int, higher: int)
    requires Descending(subs, below) && below <= higher
    ensures Descending(subs, higher)
  {
  }

  lemma {:induction false} RemoveDescending(subs: seq<Subscription>, below: int, sid: int)
    requires Descending(subs, below)
    ensures Descending(Remove(subs, sid), below)
  {
    if subs != [] {
      RemoveDescending(subs[1..], subs[0].sid, sid);
      DescendingBelow(Remove(subs[1..], sid), subs[0].sid, below);
      assert ([subs[0]] + Remove(subs[1..], sid))[1..] == Remove(subs[1..], sid);
      assert [] + Remove(subs[1..], sid) == Remove(subs[1..], sid);
    }
  }

  lemma {:induction false} ReplaceDescending(subs: seq<Subscription>, below: int, sub: Subscription)
    requires Descending(subs, below) && (sub.remaining.Some? ==> 1 <= sub.remaining.value <= MAX_INT)
    ensures Descending(Replace(subs, sub), below)
  {
    if subs != [] {
      ReplaceDescending(subs[1..], subs[0].sid, sub);
    }
  }

  lemma {:induction false} FindDescending(subs: seq<Subscription>, below: int, sid: int)
    requires Descending(subs, below) && Find(subs, sid).Some?
    ensures var sub := Find(subs, sid).value;
            0 < sub.sid < below && (sub.remaining.Some? ==> 1 <= sub.remaining.value <= MAX_INT)
  {
    if subs[0].sid != sid {
      FindDescending(subs[1..], subs[0].sid, sid);
    }
  }

  lemma {:induction false} FindIn(subs: seq<Subscription>, sid: int)
    ensures Find(subs, sid).Some? <==> exists sub :: sub in subs && sub.sid == sid
    ensures Find(subs, sid).Some? ==> Find(subs, sid).value in subs
  {
    if subs != [] {
      FindIn(subs[1..], sid);
    }
  }

  lemma {:induction false} FindAbove(subs: seq<Subscription>, below: int, sid: int)
    requires Descending(subs, below) && below <= sid
    ensures Find(subs, sid).None?
  {
    if subs != [] {
      FindAbove(subs[1..], subs[0].sid, sid);
    }
  }

  lemma {:induction false} FindRemove(subs: seq<Subscription>, sid: int, other: int)
    ensures Find(Remove(subs, sid), other) == if other == sid then None else Find(subs, other)
  {
    if subs != [] {
      FindRemove(subs[1..], sid, other);
      if subs[0].sid != sid {
        assert ([subs[0]] + Remove(subs[1..], sid))[1..] == Remove(subs[1..], sid);
      } else {
        assert [] + Remove(subs[1..], sid) == Remove(subs[1..], sid);
      }
    }
  }

  lemma {:induction false} FindReplace(subs: seq<Subscription>, sub: Subscription, other: int)
    ensures Find(Replace(subs, sub), other) ==
            if other == sub.sid && Find(subs, other).Some? then Some(sub) else Find(subs, other)
  {
    if subs != [] {
      FindReplace(subs[1..], sub, other);
    }
  }

  /** What the recursive form of the invariant says by position. */
  lemma {:induction false} DescendingExact(subs: seq<Subscription>, below: int)
    requires Descending(subs, below)
    ensures forall i :: 0 <= i < |subs| ==> 0 < subs[i].sid < below
    ensures forall i, j :: 0 <= i < j < |subs| ==> subs[i].sid > subs[j].sid
    ensures forall i :: 0 <= i < |subs| && subs[i].remaining.Some? ==> 1 <= subs[i].remaining.value
  {
    if subs != [] {
      var rest := subs[1..];
      DescendingExact(rest, subs[0].sid);
      assert forall i :: 1 <= i < |subs| ==> subs[i] == rest[i - 1];
    }
  }

  lemma {:induction false} WithoutExact(sids: seq<int>, sid: int)
    ensures forall x :: x in Without(sids, sid) <==> x in sids && x != sid
  {
    if sids != [] {
      WithoutExact(sids[1..], sid);
    }
  }

  // ---- Each step keeps the invariant ----

  lemma ForgetKeeps(s: State, sid: int)
    requires Inv(s)
    ensures Inv(Forget(s, sid))
  {
    RemoveDescending(s.subscriptions, s.nextSid, sid);
    WithoutExact(s.draining, sid);
  }

  lemma CountedDescending(subs: seq<Subscription>, below: int, sid: int)
    requires Descending(subs, below) && Find(subs, sid).Some?
    ensures Descending(Counted(subs, Find(subs, sid).value), below)
  {
    var sub := Find(subs, sid).value;
    FindDescending(subs, below, sid);
    if sub.remaining == Some(1) {
      RemoveDescending(subs, below, sid);
    } else {
      var remaining := if sub.remaining.None? then None else Some(sub.remaining.value - 1);
      ReplaceDescending(subs, below, sub.(remaining := remaining, delivered := sub.delivered + 1));
    }
  }

  lemma MessageKeeps(s: State, now: nat, d: Delivery)
    requires Inv(s)
    ensures Inv(IncomingMessage(s, now, d).state)
  {
    if Find(s.subscriptions, d.sid).Some? {
      CountedDescending(s.subscriptions, s.nextSid, d.sid);
    }
  }

  lemma PongKeeps(s: State, now: nat)
    requires Inv(s)
    ensures Inv(HandlePong(s, now).state)
  {
    TakeExact(s.pings);
    match TakePing(s.pings)
    case None =>
    case Some((origin, pings)) =>
      RemoveDescending(s.subscriptions, s.nextSid, if origin.SubscriptionDrain? then origin.sid else 0);
      WithoutExact(s.draining, if origin.SubscriptionDrain? then origin.sid else 0);
      var after := Resolve(s.(pings := pings, unanswered := 0), origin).0;
      forall sid | sid in after.draining ensures SubscriptionDrain(sid) in Contents(after.pings) {
        assert SubscriptionDrain(sid) in Contents(s.pings);
      }
  }

  lemma InfoKeeps(json: Json, s: State, now: nat, text: string)
    requires Inv(s)
    ensures Inv(Settle(s, HandleInfo(json, s, now, text)).state)
  {
  }

  lemma PingKeeps(s: State, now: nat)
    requires Inv(s)
    ensures Inv(Settle(s, HandlePing(s, now)).state)
  {
  }

  lemma EarlyKeeps(json: Json, s: State, now: nat, op: O.Op)
    requires Inv(s) && (s.phase == AwaitingInfo || s.phase == AwaitingConnect || s.phase == Closed)
    ensures Inv(Settle(s, HandleOperation(json, s, now, op)).state)
  {
    match op
    case Info(text) => InfoKeeps(json, s, now, text);
    case Ping => PingKeeps(s, now);
    case _ =>
  }

  lemma NoticeKeeps(json: Json, s: State, now: nat, op: O.Op)
    requires Inv(s) && !op.Info? && !op.Ping? && !op.Pong? && !op.Msg? && !op.Hmsg?
    ensures Inv(Settle(s, HandleOperation(json, s, now, op)).state)
  {
  }

  lemma SessionKeeps(json: Json, s: State, now: nat, op: O.Op)
    requires Inv(s) && (s.phase == Connected || s.phase == Draining)
    ensures Inv(Settle(s, HandleOperation(json, s, now, op)).state)
  {
    match op
    case Info(text) => InfoKeeps(json, s, now, text);
    case Ping => PingKeeps(s, now);
    case Pong => PongKeeps(s, now);
    case Msg(sid, message) => MessageKeeps(s, now, Delivery(sid, message, None, false));
    case Hmsg(sid, message, status) => MessageKeeps(s, now, Delivery(sid, message, status, true));
    case _ => NoticeKeeps(json, s, now, op);
  }

  lemma OperationKeeps(json: Json, s: State, now: nat, op: O.Op)
    requires Inv(s)
    ensures Inv(Settle(s, HandleOperation(json, s, now, op)).state)
  {
    if s.phase == Connected || s.phase == Draining {
      SessionKeeps(json, s, now, op);
    } else {
      EarlyKeeps(json, s, now, op);
    }
  }

  lemma EnqueueKeeps(s: State, origin: PingOrigin)
    requires Inv(s)
    ensures Inv(s.(pings := EnqueuePing(s.pings, origin)))
    ensures LivenessCount(Contents(EnqueuePing(s.pings, origin))) ==
            LivenessCount(Contents(s.pings)) + if origin.Liveness? then 1 else 0
  {
    EnqueueExact(s.pings, origin);
    LivenessCountPlus(Contents(s.pings), [origin]);
    assert [origin][1..] == [];
  }

  lemma LimitedDescending(subs: seq<Subscription>, below: int, sub: Subscription, max: Option<int>)
    requires Descending(subs, below) && (max.Some? ==> max.value <= MAX_INT)
    ensures Descending(Limited(subs, sub, max), below)
  {
    if Ends(sub, max) {
      RemoveDescending(subs, below, sub.sid);
    } else {
      ReplaceDescending(subs, below, sub.(remaining := Some(max.value - sub.delivered)));
    }
  }

  lemma UnsubscribedKeeps(s: State, sub: Subscription, max: Option<int>)
    requires Inv(s) && (max.Some? ==> max.value <= MAX_INT)
    ensures Inv(Unsubscribed(s, sub, max))
  {
    LimitedDescending(s.subscriptions, s.nextSid, sub, max);
    WithoutExact(s.draining, sub.sid);
  }

  lemma UnsubscribeKeeps(s: State, sid: int, max: Option<int>)
    requires Inv(s) && (max.Some? ==> max.value <= MAX_INT)
    ensures Inv(Settle(s, OutgoingUnsubscribe(s, sid, max)).state)
  {
    var found := Find(s.subscriptions, sid);
    if found.Some? {
      UnsubscribedKeeps(s, found.value, max);
    }
  }

  lemma SubscribeKeeps(s: State, command: Command)
    requires Inv(s) && command.Subscribe?
    ensures Inv(Settle(s, OutgoingSubscribe(s, command.subject, command.queueGroup)).state)
  {
    var sub := Subscription(s.nextSid, command.subject, command.queueGroup, None, 0);
    assert ([sub] + s.subscriptions)[1..] == s.subscriptions;
  }

  lemma DrainSubscriptionKeeps(s: State, sid: int)
    requires Inv(s)
    ensures Inv(Settle(s, OutgoingDrainSubscription(s, sid)).state)
  {
    EnqueueKeeps(s, SubscriptionDrain(sid));
    EnqueueExact(s.pings, SubscriptionDrain(sid));
  }

  lemma ConnectKeeps(json: Json, s: State, credentials: Credentials, tlsRequired: bool)
    requires Inv(s)
    ensures Inv(Settle(s, OutgoingConnect(json, s, credentials, tlsRequired)).state)
  {
  }

  lemma PublishKeeps(s: State, m: O.Message)
    requires Inv(s)
    ensures Inv(Settle(s, OutgoingPublish(s, m)).state)
  {
  }

  lemma CommandKeeps(json: Json, s: State, command: Command)
    requires Inv(s)
    ensures Inv(Settle(s, Outgoing(json, s, command)).state)
  {
    match command
    case Connect(credentials, tlsRequired) => ConnectKeeps(json, s, credentials, tlsRequired);
    case Publish(m) => PublishKeeps(s, m);
    case Subscribe(_, _) => SubscribeKeeps(s, command);
    case Unsubscribe(sid) => UnsubscribeKeeps(s, sid, None);
    case AutoUnsubscribe(sid, max) => UnsubscribeKeeps(s, sid, Some(max));
    case DrainSubscription(sid) => DrainSubscriptionKeeps(s, sid);
    case Flush => EnqueueKeeps(s, FlushBarrier);
    case Drain => EnqueueKeeps(s, DrainBarrier);
    case Close =>
  }

  lemma PingedKeeps(s: State, now: nat)
    requires Inv(s) && s.unanswered < s.config.maxPings
    ensures Inv(Pinged(s, now))
  {
    EnqueueKeeps(s, Liveness);
  }

  lemma TimerKeeps(s: State, now: nat)
    requires Inv(s)
    ensures Inv(Timer(s, now).state)
  {
    if s.unanswered < s.config.maxPings {
      PingedKeeps(s, now);
    }
  }

  lemma ReceiveKeeps(json: Json, s: State, now: nat, read: Result<O.Op, CodecError>)
    requires Inv(s)
    ensures Inv(Settle(s, IncomingResult(json, s, now, read)).state)
  {
    if read.Ok? {
      OperationKeeps(json, s, now, read.value);
    }
  }

  /** One step of any kind keeps the invariant. */
  lemma StepKeeps(json: Json, s: State, input: Input)
    requires Inv(s)
    ensures Inv(Step(json, s, input).state)
  {
    match input
    case Do(command) => CommandKeeps(json, s, command);
    case Receive(now, read) => ReceiveKeeps(json, s, now, read);
    case Tick(now) => TimerKeeps(s, now);
    case Drop(sid) => ForgetKeeps(s, sid);
    case Reconnect(_) =>
  }

  // ---- Runs ----

  /** The state after a run. */
  function Run(json: Json, s: State, inputs: seq<Input>): (r: State)
    requires Inv(s)
    ensures Inv(r)
    decreases inputs
  {
    if inputs == [] then s
    else
      StepKeeps(json, s, inputs[0]);
      Run(json, Step(json, s, inputs[0]).state, inputs[1..])
  }

  /** Every reachable state satisfies the invariant. */
  lemma Reachable(json: Json, config: Config, inputs: seq<Input>)
    ensures Inv(Create(config)) && Inv(Run(json, Create(config), inputs))
    ensures var s := Run(json, Create(config), inputs);
            && (forall i :: 0 <= i < |s.subscriptions| ==> 0 < s.subscriptions[i].sid < s.nextSid)
            && (forall i, j :: 0 <= i < j < |s.subscriptions| ==> s.subscriptions[i].sid > s.subscriptions[j].sid)
            && (forall i :: 0 <= i < |s.subscriptions| && s.subscriptions[i].remaining.Some? ==>
                  1 <= s.subscriptions[i].remaining.value)
  {
    var s := Run(json, Create(config), inputs);
    DescendingExact(s.subscriptions, s.nextSid);
  }
}
