/** A limited subscription is never starved: what the server may still send, and what is on its way, covers what
    the client still expects, at every point of every run. */
module Feeding {
  import opened Base
  import Text
  import O = Op
  import opened Client
  import opened Invariant
  import opened Wire
  import opened Shape
  import opened Server
  import opened Network
  import History

  /** What the server holds of one id. */
  datatype Stage = Gone | Held(sent: nat, max: Option<int>)

  function StageOf(t: Table, k: int): Stage {
    if k in t then Held(t[k].sent, t[k].max) else Gone
  }

  function Advance(stage: Stage, op: O.Op, k: int): Stage {
    if !For(op, k) then stage
    else if op.Sub? then if stage.Gone? then Held(0, None) else stage
    else if stage.Gone? || op.maxMessages.None? || stage.sent >= op.maxMessages.value then Gone
    else Held(stage.sent, op.maxMessages)
  }

  lemma AdvanceExact(t: Table, op: O.Op, k: int)
    ensures StageOf(Process(t, op), k) == Advance(StageOf(t, k), op, k)
  {
  }

  /** The allowance of a stage together with `f` messages on their way covers `remaining`. */
  predicate Covers(stage: Stage, f: nat, remaining: Option<int>) {
    match stage
    case Gone => remaining.Some? && f >= remaining.value
    case Held(sent, max) => max.None? || (remaining.Some? && max.value - sent + f >= remaining.value)
  }

  /** Every stage the pending operations lead through covers what remains, once the SUB has been heard. */
  predicate Enough(stage: Stage, ops: seq<O.Op>, f: nat, remaining: Option<int>, k: int)
    decreases ops
  {
    && (HasSub(ops, k) || Covers(stage, f, remaining))
    && (ops != [] ==> Enough(Advance(stage, ops[0], k), ops[1..], f, remaining, k))
  }

  /** The stage once the pending operations have been processed. */
  function Final(stage: Stage, ops: seq<O.Op>, k: int): Stage
    decreases ops
  {
    if ops == [] then stage else Final(Advance(stage, ops[0], k), ops[1..], k)
  }

  predicate OneSub(ops: seq<O.Op>, k: int) {
    ops != [] ==> (IsSub(ops[0], k) ==> !HasSub(ops[1..], k)) && OneSub(ops[1..], k)
  }

  predicate OnlyLimits(ops: seq<O.Op>, k: int) {
    forall i :: 0 <= i < |ops| && ops[i].Unsub? && ops[i].sid == k ==> ops[i].maxMessages.Some?
  }

  predicate Fresh(n: Net, k: int) {
    k !in n.table && NoneFor(n.toServer, k) && Messages(n.toClient, k) == []
  }

  predicate Tended(t: Table, ops: seq<O.Op>, f: nat, sub: Subscription, k: int) {
    && (k in t ==> !HasSub(ops, k) && t[k].sent <= sub.delivered + f)
    && OneSub(ops, k) && OnlyLimits(ops, k)
    && Enough(StageOf(t, k), ops, f, sub.remaining, k)
  }

  predicate Fed(n: Net, k: int) {
    var sub := Find(n.client.subscriptions, k);
    sub.Some? && k !in n.drained ==>
      match n.client.phase
      case AwaitingInfo | AwaitingConnect => Fresh(n, k)
      case Connected | Draining => Tended(n.table, n.toServer, |Messages(n.toClient, k)|, sub.value, k)
      case Closed => true
  }

  // ---- Pending operations ----

  predicate Looser(r: Option<int>, r': Option<int>) {
    r.None? || (r'.Some? && r'.value <= r.value)
  }

  lemma {:induction false} EnoughLooser(stage: Stage, ops: seq<O.Op>, f: nat, r: Option<int>, r': Option<int>, k: int)
    requires Enough(stage, ops, f, r, k) && Looser(r, r')
    ensures Enough(stage, ops, f, r', k)
    decreases ops
  {
    if ops != [] {
      EnoughLooser(Advance(stage, ops[0], k), ops[1..], f, r, r', k);
    }
  }

  lemma {:induction false} EnoughFinal(stage: Stage, ops: seq<O.Op>, f: nat, r: Option<int>, k: int)
    requires Enough(stage, ops, f, r, k)
    ensures Covers(Final(stage, ops, k), f, r)
    decreases ops
  {
    if ops != [] {
      EnoughFinal(Advance(stage, ops[0], k), ops[1..], f, r, k);
    }
  }

  lemma {:induction false} FinalSent(stage: Stage, ops: seq<O.Op>, bound: int, k: int)
    requires bound >= 0 && (stage.Held? ==> stage.sent <= bound)
    ensures Final(stage, ops, k).Held? ==> Final(stage, ops, k).sent <= bound
    decreases ops
  {
    if ops != [] {
      FinalSent(Advance(stage, ops[0], k), ops[1..], bound, k);
    }
  }

  lemma {:induction false} EnoughAppend(stage: Stage, ops: seq<O.Op>, op: O.Op, f: nat, r: Option<int>, k: int)
    requires Enough(stage, ops, f, r, k) && !IsSub(op, k)
    requires Covers(Advance(Final(stage, ops, k), op, k), f, r)
    ensures Enough(stage, ops + [op], f, r, k)
    decreases ops
  {
    HasSubPlus(ops, [op], k);
    assert [op][1..] == [];
    if ops == [] {
      assert ops + [op] == [op];
    } else {
      assert (ops + [op])[1..] == ops[1..] + [op];
      EnoughAppend(Advance(stage, ops[0], k), ops[1..], op, f, r, k);
    }
  }

  lemma {:induction false} EnoughTail(stage: Stage, ops: seq<O.Op>, more: seq<O.Op>, f: nat, r: Option<int>, k: int)
    requires Enough(stage, ops, f, r, k) && NoneFor(more, k)
    ensures Enough(stage, ops + more, f, r, k)
    decreases more
  {
    if more == [] {
      assert ops + more == ops;
    } else {
      EnoughFinal(stage, ops, f, r, k);
      EnoughAppend(stage, ops, more[0], f, r, k);
      EnoughTail(stage, ops + [more[0]], more[1..], f, r, k);
      assert (ops + [more[0]]) + more[1..] == ops + more;
    }
  }

  lemma {:induction false} EnoughSkip(stage: Stage, before: seq<O.Op>, ops: seq<O.Op>, f: nat, r: Option<int>, k: int)
    requires NoneFor(before, k) && Enough(stage, ops, f, r, k)
    ensures Enough(stage, before + ops, f, r, k)
    decreases before
  {
    if before == [] {
      assert before + ops == ops;
    } else {
      HasSubPlus(before, ops, k);
      assert (before + ops)[1..] == before[1..] + ops;
      EnoughSkip(stage, before[1..], ops, f, r, k);
    }
  }

  lemma {:induction false} OneSubPlus(a: seq<O.Op>, b: seq<O.Op>, k: int)
    requires OneSub(a, k) && OneSub(b, k) && (!HasSub(a, k) || !HasSub(b, k))
    ensures OneSub(a + b, k)
    decreases a
  {
    if a == [] {
      assert a + b == b;
    } else {
      assert (a + b)[1..] == a[1..] + b;
      HasSubPlus(a[1..], b, k);
      OneSubPlus(a[1..], b, k);
    }
  }

  lemma {:induction false} NoneForOneSub(ops: seq<O.Op>, k: int)
    requires NoneFor(ops, k)
    ensures OneSub(ops, k)
  {
    if ops != [] {
      NoneForNoSub(ops[1..], k);
      NoneForOneSub(ops[1..], k);
    }
  }

  // ---- Moves on the links ----

  lemma TendedTail(t: Table, ops: seq<O.Op>, more: seq<O.Op>, f: nat, sub: Subscription, k: int)
    requires Tended(t, ops, f, sub, k) && NoneFor(more, k)
    ensures Tended(t, ops + more, f, sub, k)
  {
    EnoughTail(StageOf(t, k), ops, more, f, sub.remaining, k);
    NoneForNoSub(more, k);
    NoneForOneSub(more, k);
    HasSubPlus(ops, more, k);
    OneSubPlus(ops, more, k);
  }

  /** A lower limit, absolute on the wire, keeps the subscription fed. */
  lemma TendedLimit(t: Table, ops: seq<O.Op>, f: nat, sub: Subscription, limit: int, k: int)
    requires Tended(t, ops, f, sub, k) && sub.delivered < limit
    requires sub.remaining.Some? ==> limit <= sub.delivered + sub.remaining.value
    ensures Tended(t, ops + [O.Unsub(k, Some(limit))], f, sub.(remaining := Some(limit - sub.delivered)), k)
  {
    var op, left := O.Unsub(k, Some(limit)), Some(limit - sub.delivered);
    var stage := StageOf(t, k);
    EnoughFinal(stage, ops, f, sub.remaining, k);
    FinalSent(stage, ops, sub.delivered + f, k);
    EnoughLooser(stage, ops, f, sub.remaining, left, k);
    EnoughAppend(stage, ops, op, f, left, k);
    assert [op][1..] == [];
    HasSubPlus(ops, [op], k);
    OneSubPlus(ops, [op], k);
  }

  lemma TendedProcess(t: Table, ops: seq<O.Op>, f: nat, sub: Subscription, k: int)
    requires Tended(t, ops, f, sub, k) && ops != []
    ensures Tended(Process(t, ops[0]), ops[1..], f, sub, k)
  {
    AdvanceExact(t, ops[0], k);
  }

  /** The stage after one more message has been sent. */
  function AfterSend(stage: Stage): Stage
    requires stage.Held?
  {
    if stage.max.Some? && stage.sent + 1 >= stage.max.value then Gone else Held(stage.sent + 1, stage.max)
  }

  predicate Behind(stage: Stage, after: Stage, f: nat, r: Option<int>) {
    || (stage.Held? && after == Held(stage.sent + 1, stage.max))
    || (after.Gone? && r.Some? && f + 1 >= r.value)
  }

  lemma {:induction false} EnoughSend(stage: Stage, after: Stage, ops: seq<O.Op>, f: nat, r: Option<int>, k: int)
    requires Enough(stage, ops, f, r, k) && !HasSub(ops, k) && OnlyLimits(ops, k) && Behind(stage, after, f, r)
    ensures Enough(after, ops, f + 1, r, k)
    decreases ops
  {
    if ops != [] {
      EnoughSend(Advance(stage, ops[0], k), Advance(after, ops[0], k), ops[1..], f, r, k);
    }
  }

  lemma TendedSend(t: Table, ops: seq<O.Op>, f: nat, sub: Subscription, k: int)
    requires Tended(t, ops, f, sub, k) && k in t
    ensures Tended(Send(t, k), ops, f + 1, sub, k)
  {
    var stage := StageOf(t, k);
    assert StageOf(Send(t, k), k) == AfterSend(stage);
    EnoughSend(stage, AfterSend(stage), ops, f, sub.remaining, k);
  }

  lemma {:induction false} EnoughDeliver(stage: Stage, ops: seq<O.Op>, f: nat, r: Option<int>, k: int)
    requires Enough(stage, ops, f, r, k) && f > 0
    ensures Enough(stage, ops, f - 1, if r.None? then None else Some(r.value - 1), k)
    decreases ops
  {
    if ops != [] {
      EnoughDeliver(Advance(stage, ops[0], k), ops[1..], f, r, k);
    }
  }

  lemma TendedDeliver(t: Table, ops: seq<O.Op>, f: nat, sub: Subscription, k: int)
    requires Tended(t, ops, f, sub, k) && f > 0 && History.AfterMessage(sub).Some?
    ensures Tended(t, ops, f - 1, History.AfterMessage(sub).value, k)
  {
    EnoughDeliver(StageOf(t, k), ops, f, sub.remaining, k);
  }

  // ---- Replay ----

  lemma {:induction false} ReplayFeeds(subs: seq<Subscription>, below: int, k: int)
    requires Descending(subs, below)
    ensures match Find(subs, k)
            case None => NoneFor(Replay(subs), k)
            case Some(sub) => OneSub(Replay(subs), k) && OnlyLimits(Replay(subs), k) && HasSub(Replay(subs), k)
                              && Enough(Gone, Replay(subs), 0, sub.remaining, k)
  {
    if subs != [] {
      var rest, one := Replay(subs[1..]), ReplayOne(subs[0]);
      ReplayFeeds(subs[1..], subs[0].sid, k);
      HasSubPlus(rest, one, k);
      if subs[0].sid == k {
        FindAbove(subs[1..], k, k);
        ReplayOneFeeds(subs[0]);
        EnoughSkip(Gone, rest, one, 0, subs[0].remaining, k);
        NoneForNoSub(rest, k);
        NoneForOneSub(rest, k);
        OneSubPlus(rest, one, k);
      } else {
        assert NoneFor(one, k);
        NoneForNoSub(one, k);
        NoneForOneSub(one, k);
        if Find(subs[1..], k).Some? {
          EnoughTail(Gone, rest, one, 0, Find(subs[1..], k).value.remaining, k);
          OneSubPlus(rest, one, k);
        }
      }
    }
  }

  lemma ReplayOneFeeds(sub: Subscription)
    ensures var one, k := ReplayOne(sub), sub.sid;
            OneSub(one, k) && OnlyLimits(one, k) && HasSub(one, k) && Enough(Gone, one, 0, sub.remaining, k)
  {
    var one, k := ReplayOne(sub), sub.sid;
    if sub.remaining.None? {
      assert one[1..] == [];
    } else {
      var last := one[1];
      assert one[1..] == [last] && [last][1..] == [];
      assert !HasSub([last], k);
    }
  }

  // ---- Every move keeps the subscription fed ----

  /** A live limit on this id is never raised within a session. */
  predicate Lowers(s: State, input: Input, k: int) {
    input.Do? && input.command.AutoUnsubscribe? && input.command.sid == k && s.phase == Connected ==>
      var sub := Find(s.subscriptions, k);
      sub.Some? && sub.value.remaining.Some? ==>
        input.command.maxMessages <= sub.value.delivered + sub.value.remaining.value
  }

  predicate SamePart(before: Phase, after: Phase) {
    || after == before || after == Closed
    || (before == AwaitingInfo && after == AwaitingConnect)
    || (before == Connected && after == Draining)
  }

  /** A change that leaves this id alone. */
  lemma Unmoved(n: Net, n': Net, more: seq<O.Op>, k: int)
    requires Fed(n, k) && SamePart(n.client.phase, n'.client.phase) && n.drained <= n'.drained
    requires n'.table == n.table && n'.toServer == n.toServer + more && NoneFor(more, k)
    requires Messages(n'.toClient, k) == Messages(n.toClient, k)
    requires Find(n'.client.subscriptions, k) == Find(n.client.subscriptions, k) || Find(n'.client.subscriptions, k).None?
    ensures Fed(n', k)
  {
    var sub := Find(n'.client.subscriptions, k);
    if sub.Some? && k !in n'.drained && (n.client.phase == Connected || n.client.phase == Draining) {
      TendedTail(n.table, n.toServer, more, |Messages(n.toClient, k)|, sub.value, k);
    }
  }

  lemma {:induction false} KnownQuiet(ops: seq<O.Op>, bound: int, k: int)
    requires AllKnown(ops, bound) && bound <= k
    ensures NoneFor(ops, k) && Messages(ops, k) == []
  {
    if ops != [] {
      assert ops[0] in ops;
      assert AllKnown(ops[1..], bound);
      KnownQuiet(ops[1..], bound, k);
      assert forall i :: 1 <= i < |ops| ==> ops[i] == ops[1..][i - 1];
    }
  }

  lemma NewTended(t: Table, ops: seq<O.Op>, op: O.Op, sub: Subscription, k: int)
    requires k !in t && NoneFor(ops, k) && IsSub(op, k) && sub.remaining.None?
    ensures Tended(t, ops + [op], 0, sub, k)
  {
    assert [op][1..] == [];
    NoneForNoSub(ops, k);
    NoneForOneSub(ops, k);
    EnoughSkip(Gone, ops, [op], 0, None, k);
    OneSubPlus(ops, [op], k);
    HasSubPlus(ops, [op], k);
  }

  lemma NewlySubscribed(n: Net, t: Transition, command: Command)
    requires Known(n) && command.Subscribe? && Accepted(n.client, command, t)
    requires HearsCommand(n.client, command, Decoded(t.output)) && DrainedBy(n.client, Do(command), t) == {}
    ensures Fed(AfterClient(n, Do(command), t), n.client.nextSid)
  {
    var k := n.client.nextSid;
    KnownQuiet(n.toServer, k, k);
    KnownQuiet(n.toClient, k, k);
    var n' := AfterClient(n, Do(command), t);
    var sub := Subscription(k, command.subject, command.queueGroup, None, 0);
    assert Find(n'.client.subscriptions, k) == Some(sub);
    assert k !in n.table;
    if n.client.phase == Connected {
      NewTended(n.table, n.toServer, O.Sub(command.subject, command.queueGroup, k), sub, k);
    } else {
      assert n'.toServer == n.toServer;
    }
  }

  lemma SubscribeFed(n: Net, t: Transition, command: Command, k: int)
    requires Known(n) && Fed(n, k) && command.Subscribe? && Accepted(n.client, command, t) && t != Idle(n.client)
    requires HearsCommand(n.client, command, Decoded(t.output))
    ensures Fed(AfterClient(n, Do(command), t), k)
  {
    if k == n.client.nextSid {
      NewlySubscribed(n, t, command);
    } else {
      var sub := Subscription(n.client.nextSid, command.subject, command.queueGroup, None, 0);
      assert ([sub] + n.client.subscriptions)[1..] == n.client.subscriptions;
      Unmoved(n, AfterClient(n, Do(command), t), Decoded(t.output), k);
    }
  }

  lemma LimitFed(n: Net, n': Net, sub: Subscription, limit: int, k: int)
    requires Fed(n, k) && Open(n.client) && Find(n.client.subscriptions, k) == Some(sub) && sub.delivered < limit
    requires n'.client.phase == n.client.phase && n'.table == n.table && n'.toClient == n.toClient
    requires n'.drained == n.drained
    requires Find(n'.client.subscriptions, k) == Some(sub.(remaining := Some(limit - sub.delivered)))
    requires n'.toServer == n.toServer + if n.client.phase == Connected then [O.Unsub(k, Some(limit))] else []
    requires n.client.phase == Connected && sub.remaining.Some? ==> limit <= sub.delivered + sub.remaining.value
    ensures Fed(n', k)
  {
    if n.client.phase == Connected {
      if k !in n.drained {
        TendedLimit(n.table, n.toServer, |Messages(n.toClient, k)|, sub, limit, k);
      }
    } else {
      assert n'.toServer == n.toServer;
    }
  }

  lemma UnsubscribeFed(n: Net, t: Transition, input: Input, j: int, max: Option<int>, k: int)
    requires Known(n) && Fed(n, k) && Open(n.client) && Find(n.client.subscriptions, j).Some?
    requires var sub := Find(n.client.subscriptions, j).value;
             && Sees(t, Unsubscribed(n.client, sub, max), [], None)
             && Decoded(t.output) == (if n.client.phase == Connected
                                      then [O.Unsub(j, if Ends(sub, max) then None else max)] else [])
             && (j == k && n.client.phase == Connected && !Ends(sub, max) && sub.remaining.Some? ==>
                   max.value <= sub.delivered + sub.remaining.value)
    requires DrainedBy(n.client, input, t) == {}
    ensures Fed(AfterClient(n, input, t), k)
  {
    var sub := Find(n.client.subscriptions, j).value;
    var n' := AfterClient(n, input, t);
    History.LimitedFind(n.client.subscriptions, sub, max, k);
    assert n'.drained == n.drained;
    if j != k {
      Unmoved(n, n', Decoded(t.output), k);
    } else if !Ends(sub, max) {
      LimitFed(n, n', sub, max.value, k);
    }
  }

  lemma DrainFed(n: Net, t: Transition, command: Command, k: int)
    requires Known(n) && Fed(n, k) && (command.Drain? || command.DrainSubscription?)
    requires Accepted(n.client, command, t) && t != Idle(n.client) && HearsCommand(n.client, command, Decoded(t.output))
    ensures Fed(AfterClient(n, Do(command), t), k)
  {
    var n' := AfterClient(n, Do(command), t);
    if command.Drain? {
      FindIn(n.client.subscriptions, k);
    } else if command.sid != k {
      Unmoved(n, n', Decoded(t.output), k);
    }
  }

  lemma ReplayTended(t: Table, ops: seq<O.Op>, subs: seq<Subscription>, below: int, k: int)
    requires k !in t && NoneFor(ops, k) && Descending(subs, below) && Find(subs, k).Some?
    ensures Tended(t, ops + Replay(subs), 0, Find(subs, k).value, k)
  {
    ReplayFeeds(subs, below, k);
    EnoughSkip(Gone, ops, Replay(subs), 0, Find(subs, k).value.remaining, k);
    NoneForNoSub(ops, k);
    NoneForOneSub(ops, k);
    OneSubPlus(ops, Replay(subs), k);
  }

  lemma ConnectFed(n: Net, t: Transition, command: Command, k: int)
    requires Known(n) && Fed(n, k) && command.Connect? && Accepted(n.client, command, t)
    requires HearsCommand(n.client, command, Decoded(t.output))
    ensures Fed(AfterClient(n, Do(command), t), k)
  {
    var heard, subs := Decoded(t.output), n.client.subscriptions;
    if Find(subs, k).Some? && k !in n.drained {
      var before := n.toServer + [heard[0]];
      assert heard == [heard[0]] + Replay(subs);
      Text.Assoc(n.toServer, [heard[0]], Replay(subs));
      ReplayTended(n.table, before, subs, n.client.nextSid, k);
    }
  }

  lemma CommandFed(n: Net, t: Transition, command: Command, k: int)
    requires Known(n) && Fed(n, k) && Accepted(n.client, command, t) && t != Idle(n.client)
    requires HearsCommand(n.client, command, Decoded(t.output)) && Lowers(n.client, Do(command), k)
    ensures Fed(AfterClient(n, Do(command), t), k)
  {
    match command
    case Connect(_, _) => ConnectFed(n, t, command, k);
    case Subscribe(_, _) => SubscribeFed(n, t, command, k);
    case Unsubscribe(j) => UnsubscribeFed(n, t, Do(command), j, None, k);
    case AutoUnsubscribe(j, max) => UnsubscribeFed(n, t, Do(command), j, Some(max), k);
    case Drain => DrainFed(n, t, command, k);
    case DrainSubscription(_) => DrainFed(n, t, command, k);
    case _ => Unmoved(n, AfterClient(n, Do(command), t), Decoded(t.output), k);
  }

  lemma ClientFed(n: Net, input: Input, t: Transition, k: int)
    requires Known(n) && Fed(n, k) && !input.Reconnect? && !(input.Receive? && input.read.Ok?)
    requires Shaped(n.client, input, t) && Hears(n.client, input, t, Decoded(t.output)) && Lowers(n.client, input, k)
    ensures Fed(AfterClient(n, input, t), k)
  {
    if input.Do? && t != Idle(n.client) {
      CommandFed(n, t, input.command, k);
    } else {
      if input.Drop? {
        FindRemove(n.client.subscriptions, input.sid, k);
      }
      Unmoved(n, AfterClient(n, input, t), Decoded(t.output), k);
    }
  }

  lemma {:induction false} MessagesHead(ops: seq<O.Op>, k: int)
    requires ops != []
    ensures Messages(ops, k) == (if Carries(ops[0], k) then [DeliveryOf(ops[0]).value] else []) + Messages(ops[1..], k)
  {
  }

  /** What an accepted operation leaves of a subscription. */
  lemma HandledFinds(s: State, now: nat, op: O.Op, t: Transition, k: int)
    requires Handled(s, now, op, t)
    ensures var before, after := Find(s.subscriptions, k), Find(t.state.subscriptions, k);
            && SamePart(s.phase, t.state.phase)
            && (if Carries(op, k) && before.Some? then after == History.AfterMessage(before.value) && InSession(s)
                else after == before || after.None?)
  {
    if op.Pong? {
      PongFinds(s, now, k);
    } else if DeliveryOf(op).Some? {
      History.MessageFind(s, now, DeliveryOf(op).value, k);
    }
  }

  lemma MessageFed(n: Net, n': Net, k: int)
    requires Fed(n, k) && n.toClient != [] && Carries(n.toClient[0], k)
    requires n'.table == n.table && n'.toServer == n.toServer + [] && n'.toClient == n.toClient[1..] && n'.drained == n.drained
    requires n'.client.phase == n.client.phase
    requires var found := Find(n.client.subscriptions, k);
             if found.None? then Find(n'.client.subscriptions, k).None?
             else InSession(n.client) && Find(n'.client.subscriptions, k) == History.AfterMessage(found.value)
    ensures Fed(n', k)
  {
    var found := Find(n.client.subscriptions, k);
    assert n'.toServer == n.toServer;
    MessagesHead(n.toClient, k);
    if found.Some? && k !in n.drained && History.AfterMessage(found.value).Some? {
      TendedDeliver(n.table, n.toServer, |Messages(n.toClient, k)|, found.value, k);
    }
  }

  /** The client takes the next operation off its link. */
  lemma ReceiptFed(n: Net, now: nat, t: Transition, k: int)
    requires Known(n) && Fed(n, k) && n.toClient != [] && Handled(n.client, now, n.toClient[0], t)
    requires Hears(n.client, Receive(now, Ok(n.toClient[0])), t, Decoded(t.output))
    ensures Fed(AfterReceipt(n, now, t), k)
  {
    var op := n.toClient[0];
    var n' := AfterReceipt(n, now, t);
    MessagesHead(n.toClient, k);
    HandledFinds(n.client, now, op, t, k);
    assert NoneFor(Decoded(t.output), k);
    assert n'.drained == n.drained;
    if Carries(op, k) {
      MessageFed(n, n', k);
    } else {
      Unmoved(n, n', Decoded(t.output), k);
    }
  }

  lemma PongFinds(s: State, now: nat, k: int)
    ensures var after := Find(HandlePong(s, now).state.subscriptions, k);
            after == Find(s.subscriptions, k) || after.None?
  {
    var taken := TakePing(s.pings);
    if taken.Some? && taken.value.0.SubscriptionDrain? {
      FindRemove(s.subscriptions, taken.value.0.sid, k);
    }
  }

  lemma ProcessedFed(n: Net, n': Net, k: int)
    requires Fed(n, k) && n.toServer != [] && n'.client == n.client && n'.drained == n.drained
    requires n'.table == Process(n.table, n.toServer[0]) && n'.toServer == n.toServer[1..]
    requires Messages(n'.toClient, k) == Messages(n.toClient, k)
    ensures Fed(n', k)
  {
    var sub := Find(n.client.subscriptions, k);
    AdvanceExact(n.table, n.toServer[0], k);
    if sub.Some? && k !in n.drained && InSession(n.client) {
      TendedProcess(n.table, n.toServer, |Messages(n.toClient, k)|, sub.value, k);
    }
  }

  lemma SentFed(n: Net, n': Net, d: Delivery, k: int)
    requires Fed(n, k) && d.sid in n.table && n'.client == n.client && n'.drained == n.drained
    requires n'.table == Send(n.table, d.sid) && n'.toServer == n.toServer
    requires Messages(n'.toClient, k) == Messages(n.toClient, k) + if d.sid == k then [d] else []
    ensures Fed(n', k)
  {
    var sub := Find(n.client.subscriptions, k);
    if d.sid == k && sub.Some? && k !in n.drained && InSession(n.client) {
      TendedSend(n.table, n.toServer, |Messages(n.toClient, k)|, sub.value, k);
    }
  }

  lemma PutOn(ops: seq<O.Op>, more: seq<O.Op>, k: int)
    requires |more| <= 1
    ensures Messages(ops + more, k) ==
            Messages(ops, k) + if more != [] && Carries(more[0], k) then [DeliveryOf(more[0]).value] else []
  {
    MessagesPlus(ops, more, k);
  }

  lemma ServerFed(n: Net, move: Move, k: int)
    requires Known(n) && Fed(n, k) && ServerEnabled(n, move)
    ensures Fed(ServerNext(n, move), k)
  {
    var n' := ServerNext(n, move);
    match move
    case ServerProcesses =>
      PutOn(n.toClient, if n.toServer[0].Ping? then [O.Pong] else [], k);
      ProcessedFed(n, n', k);
    case ServerSends(d) =>
      PutOn(n.toClient, [OpOf(d)], k);
      assert DeliveryOf(OpOf(d)) == Some(d);
      SentFed(n, n', d, k);
    case ServerSays(op) =>
      PutOn(n.toClient, [op], k);
      assert n'.toServer == n.toServer + [];
      Unmoved(n, n', [], k);
  }

  lemma NextFed(json: Json, n: Net, move: Move, k: int)
    requires Known(n) && Fed(n, k) && Enabled(json, n, move)
    requires move.ClientMoves? ==> Lowers(n.client, move.input, k)
    ensures Fed(Next(json, n, move), k)
  {
    match move
    case ClientMoves(input) =>
      StepShaped(json, n.client, input);
      StepHeard(json, n.client, input);
      ClientFed(n, input, Step(json, n.client, input), k);
    case ClientReceives(now) =>
      var input := Receive(now, Ok(n.toClient[0]));
      OperationShaped(json, n.client, now, n.toClient[0]);
      StepHeard(json, n.client, input);
      ReceiptFed(n, now, Step(json, n.client, input), k);
    case Reconnects(preserve) =>
    case _ => ServerFed(n, move, k);
  }

  // ---- Over whole runs ----

  ghost predicate NeverRaised(json: Json, n: Net, moves: seq<Move>, k: int)
    requires CanRun(json, n, moves)
    decreases moves
  {
    moves != [] ==>
      && (moves[0].ClientMoves? ==> Lowers(n.client, moves[0].input, k))
      && NeverRaised(json, Next(json, n, moves[0]), moves[1..], k)
  }

  lemma {:induction false} RunFed(json: Json, n: Net, moves: seq<Move>, k: int)
    requires Known(n) && Fed(n, k) && CanRun(json, n, moves) && NeverRaised(json, n, moves, k)
    ensures Known(RunNet(json, n, moves)) && Fed(RunNet(json, n, moves), k)
    decreases moves
  {
    if moves != [] {
      NextKeepsKnown(json, n, moves[0]);
      NextFed(json, n, moves[0], k);
      RunFed(json, Next(json, n, moves[0]), moves[1..], k);
    }
  }

  lemma {:induction false} FinalExact(t: Table, ops: seq<O.Op>, k: int)
    ensures StageOf(ProcessAll(t, ops), k) == Final(StageOf(t, k), ops, k)
    decreases ops
  {
    if ops != [] {
      AdvanceExact(t, ops[0], k);
      FinalExact(Process(t, ops[0]), ops[1..], k);
    }
  }

  /** The server, once it has processed what is on its way, may still send (together with what it has sent and the
      client has not seen) at least what the client still expects; an unlimited subscription it holds without limit. */
  ghost predicate Sufficient(n: Net, k: int) {
    var sub := Find(n.client.subscriptions, k);
    sub.Some? && InSession(n.client) && k !in n.drained ==>
      var t := ProcessAll(n.table, n.toServer);
      var coming := |Messages(n.toClient, k)|;
      if sub.value.remaining.None? then k in t && t[k].max.None?
      else if k in t then t[k].max.None? || t[k].max.value - t[k].sent + coming >= sub.value.remaining.value
      else coming >= sub.value.remaining.value
  }

  lemma FedSuffices(n: Net, k: int)
    requires Fed(n, k)
    ensures Sufficient(n, k)
  {
    var sub := Find(n.client.subscriptions, k);
    if sub.Some? && InSession(n.client) && k !in n.drained {
      EnoughFinal(StageOf(n.table, k), n.toServer, |Messages(n.toClient, k)|, sub.value.remaining, k);
      FinalExact(n.table, n.toServer, k);
    }
  }

  /** In a run from the start, with reconnects anywhere and limits on the id never raised within a session: while a
      session lasts and the id is not drained in it, the subscription is not starved. */
  lemma NeverStarved(json: Json, config: Config, moves: seq<Move>, k: int)
    requires CanRun(json, Start(config), moves) && NeverRaised(json, Start(config), moves, k)
    ensures Sufficient(RunNet(json, Start(config), moves), k)
  {
    RunFed(json, Start(config), moves, k);
    FedSuffices(RunNet(json, Start(config), moves), k);
  }

  /** A limit that comes after the server has ended the subscription. */
  lemma LimitTooLate(n: Net, n': Net, limit: int, k: int)
    requires k !in ProcessAll(n.table, n.toServer) && n'.client.phase == Connected && k !in n'.drained
    requires LimitSent(n, n', limit, k)
    ensures Sufficient(n', k) <==> limit <= Find(n.client.subscriptions, k).value.delivered + |Messages(n.toClient, k)|
  {
    ProcessAllPlus(n.table, n.toServer, [O.Unsub(k, Some(limit))]);
    assert [O.Unsub(k, Some(limit))][1..] == [];
  }

  /** A limit, lower or higher, that finds the subscription still held. */
  lemma LimitInTime(n: Net, n': Net, limit: int, k: int)
    requires Fed(n, k) && k in ProcessAll(n.table, n.toServer)
    requires n.client.phase == Connected && k !in n.drained && LimitSent(n, n', limit, k)
    ensures Sufficient(n', k)
  {
    var sub := Find(n.client.subscriptions, k).value;
    FinalSent(StageOf(n.table, k), n.toServer, sub.delivered + |Messages(n.toClient, k)|, k);
    FinalExact(n.table, n.toServer, k);
    ProcessAllPlus(n.table, n.toServer, [O.Unsub(k, Some(limit))]);
    assert [O.Unsub(k, Some(limit))][1..] == [];
  }

  /** The client has accepted a limit not yet used up and sent it. */
  predicate LimitSent(n: Net, n': Net, limit: int, k: int) {
    var sub := Find(n.client.subscriptions, k);
    && sub.Some? && sub.value.delivered < limit
    && Find(n'.client.subscriptions, k) == Some(sub.value.(remaining := Some(limit - sub.value.delivered)))
    && n'.table == n.table && n'.toClient == n.toClient && n'.toServer == n.toServer + [O.Unsub(k, Some(limit))]
  }

  lemma LimitHeard(s: State, heard: seq<O.Op>, limit: int63, k: int)
    requires s.phase == Connected && Find(s.subscriptions, k).Some? && Find(s.subscriptions, k).value.delivered < limit
    requires HearsCommand(s, AutoUnsubscribe(k, limit), heard)
    ensures heard == [O.Unsub(k, Some(limit))]
  {
  }

  lemma LimitKeepsPhase(s: State, t: Transition, limit: int63, k: int)
    requires Accepted(s, AutoUnsubscribe(k, limit), t)
    ensures t.state.phase == s.phase
  {
  }

  lemma LimitSends(n: Net, t: Transition, limit: int63, k: int)
    requires n.client.phase == Connected && Find(n.client.subscriptions, k).Some?
    requires Find(n.client.subscriptions, k).value.delivered < limit
    requires var command := AutoUnsubscribe(k, limit);
             Accepted(n.client, command, t) && HearsCommand(n.client, command, Decoded(t.output))
    ensures var n' := AfterClient(n, Do(AutoUnsubscribe(k, limit)), t);
            LimitSent(n, n', limit, k) && n'.drained == n.drained && n'.client.phase == Connected
  {
    History.AcceptedLimits(n.client, k, limit, t);
    LimitHeard(n.client, Decoded(t.output), limit, k);
    LimitKeepsPhase(n.client, t, limit, k);
    LimitLands(n, t, limit, k);
  }

  lemma LimitLands(n: Net, t: Transition, limit: int63, k: int)
    requires Find(n.client.subscriptions, k).Some? && Find(n.client.subscriptions, k).value.delivered < limit
    requires Find(t.state.subscriptions, k) ==
             Some(Find(n.client.subscriptions, k).value.(remaining := Some(limit - Find(n.client.subscriptions, k).value.delivered)))
    requires Decoded(t.output) == [O.Unsub(k, Some(limit))]
    ensures var n' := AfterClient(n, Do(AutoUnsubscribe(k, limit)), t);
            LimitSent(n, n', limit, k) && n'.drained == n.drained && n'.client == t.state
  {
    assert n.drained + {} == n.drained;
  }

  lemma LimitIsSent(json: Json, n: Net, limit: int63, k: int)
    requires Inv(n.client) && n.client.nextSid <= MAX_INT && n.client.phase == Connected && Find(n.client.subscriptions, k).Some?
    requires Find(n.client.subscriptions, k).value.delivered < limit
    ensures Enabled(json, n, ClientMoves(Do(AutoUnsubscribe(k, limit))))
    ensures var n' := Next(json, n, ClientMoves(Do(AutoUnsubscribe(k, limit))));
            LimitSent(n, n', limit, k) && n'.drained == n.drained && n'.client.phase == Connected
  {
    CommandMoves(json, n, AutoUnsubscribe(k, limit));
    LimitSends(n, Step(json, n.client, Do(AutoUnsubscribe(k, limit))), limit, k);
  }

  /** Why a limit must not be raised within a session: whatever the limit, it leaves the server enough to send exactly
      when the server has not ended the subscription by the time it hears of it, or what is on its way is enough. */
  lemma RaisedExactly(json: Json, n: Net, limit: int63, k: int)
    requires Known(n) && Fed(n, k) && n.client.phase == Connected && k !in n.drained
    requires Find(n.client.subscriptions, k).Some? && Find(n.client.subscriptions, k).value.delivered < limit
    ensures Enabled(json, n, ClientMoves(Do(AutoUnsubscribe(k, limit))))
    ensures Sufficient(Next(json, n, ClientMoves(Do(AutoUnsubscribe(k, limit)))), k) <==>
            || k in ProcessAll(n.table, n.toServer)
            || limit <= Find(n.client.subscriptions, k).value.delivered + |Messages(n.toClient, k)|
  {
    LimitIsSent(json, n, limit, k);
    var n' := Next(json, n, ClientMoves(Do(AutoUnsubscribe(k, limit))));
    if k in ProcessAll(n.table, n.toServer) {
      LimitInTime(n, n', limit, k);
    } else {
      LimitTooLate(n, n', limit, k);
    }
  }
}
