/** Draining loses nothing: when a drain's PONG arrives, everything the server ever sent on the id in this session
    has been delivered, and nothing more will be. */
module Drains {
  import opened Base
  import Text
  import O = Op
  import opened Client
  import opened Invariant
  import opened Wire
  import opened Shape
  import opened Server
  import opened Network
  import Barriers
  import Feeding
  import History

  // ---- PINGs and PONGs on the links against the barriers in the queue ----

  /** Whether the server may hold the id after an operation; a limit may or may not end the subscription. */
  function HeldAfter(held: bool, op: O.Op, k: int): bool {
    if IsSub(op, k) then true else if op == O.Unsub(k, None) then false else held
  }

  function HeldAtLast(held: bool, ops: seq<O.Op>, k: int): bool
    decreases ops
  {
    if ops == [] then held else HeldAtLast(HeldAfter(held, ops[0], k), ops[1..], k)
  }

  /** The PINGs going up are exactly the barriers `q`, in order; past a barrier in `ends` the server has nothing
      more to do with the id. */
  predicate UpGuard(q: seq<PingOrigin>, up: seq<O.Op>, held: bool, ends: set<PingOrigin>, k: int)
    decreases up
  {
    if up == [] then q == []
    else if up[0].Ping? then
      && q != []
      && (q[0] in ends ==> !held && !HasSub(up[1..], k))
      && UpGuard(q[1..], up[1..], held, ends, k)
    else UpGuard(q, up[1..], HeldAfter(held, up[0], k), ends, k)
  }

  /** The PONGs coming down answer the oldest barriers of `q`; no message on the id follows the PONG of a barrier
      in `ends`. */
  predicate Guard(q: seq<PingOrigin>, down: seq<O.Op>, up: seq<O.Op>, held: bool, ends: set<PingOrigin>, k: int)
    decreases down
  {
    if down == [] then UpGuard(q, up, held, ends, k)
    else if down[0].Pong? then
      && q != []
      && (q[0] in ends ==> Quiet(down[1..], k) && !held && !HasSub(up, k))
      && Guard(q[1..], down[1..], up, held, ends, k)
    else Guard(q, down[1..], up, held, ends, k)
  }

  /** The barriers whose PONG ends a live subscription. */
  function Ends(s: State, k: int): set<PingOrigin> {
    if Find(s.subscriptions, k).Some? then {SubscriptionDrain(k), DrainBarrier} else {SubscriptionDrain(k)}
  }

  /** Only a session under way has drains in its queue, and a connection drain is the last. */
  ghost predicate Phased(s: State) {
    && (DrainBarrier in Contents(s.pings) ==> s.phase == Draining || s.phase == Closed)
    && (s.phase == AwaitingInfo || s.phase == AwaitingConnect ==> forall o <- Contents(s.pings) :: !o.SubscriptionDrain?)
  }

  ghost predicate Ordered(n: Net, k: int) {
    n.aligned ==>
      Phased(n.client) && Guard(Contents(n.client.pings), n.toClient, n.toServer, k in n.table, Ends(n.client, k), k)
  }

  /** What the server sent on a live id in this session has been delivered or is on its way. */
  ghost predicate Logged(n: Net, k: int) {
    Find(n.client.subscriptions, k).Some? ==> On(n.sent, k) == On(n.got, k) + Messages(n.toClient, k)
  }

  // ---- How the guard moves ----

  lemma {:induction false} HeldPlus(held: bool, a: seq<O.Op>, b: seq<O.Op>, k: int)
    ensures HeldAtLast(held, a + b, k) == HeldAtLast(HeldAtLast(held, a, k), b, k)
    decreases a
  {
    if a == [] {
      assert a + b == b;
    } else {
      assert (a + b)[1..] == a[1..] + b;
      HeldPlus(HeldAfter(held, a[0], k), a[1..], b, k);
    }
  }

  lemma {:induction false} NeverHeld(ops: seq<O.Op>, k: int)
    requires !HasSub(ops, k)
    ensures !HeldAtLast(false, ops, k)
  {
    if ops != [] {
      NeverHeld(ops[1..], k);
    }
  }

  lemma {:induction false} UpGuardWeaker(q: seq<PingOrigin>, up: seq<O.Op>, held: bool, ends: set<PingOrigin>,
                                         held': bool, ends': set<PingOrigin>, k: int)
    requires UpGuard(q, up, held, ends, k) && (held' ==> held) && forall o <- q :: o in ends' ==> o in ends
    ensures UpGuard(q, up, held', ends', k)
    decreases up
  {
    if up != [] {
      if up[0].Ping? {
        UpGuardWeaker(q[1..], up[1..], held, ends, held', ends', k);
      } else {
        UpGuardWeaker(q, up[1..], HeldAfter(held, up[0], k), ends, HeldAfter(held', up[0], k), ends', k);
      }
    }
  }

  lemma {:induction false} GuardWeaker(q: seq<PingOrigin>, down: seq<O.Op>, up: seq<O.Op>, held: bool, ends: set<PingOrigin>,
                                       held': bool, ends': set<PingOrigin>, k: int)
    requires Guard(q, down, up, held, ends, k) && (held' ==> held) && forall o <- q :: o in ends' ==> o in ends
    ensures Guard(q, down, up, held', ends', k)
    decreases down
  {
    if down == [] {
      UpGuardWeaker(q, up, held, ends, held', ends', k);
    } else {
      GuardWeaker(if down[0].Pong? then q[1..] else q, down[1..], up, held, ends, held', ends', k);
    }
  }

  lemma {:induction false} UpGuardEnds(q: seq<PingOrigin>, up: seq<O.Op>, held: bool, ends: set<PingOrigin>, o: PingOrigin, k: int)
    requires UpGuard(q, up, held, ends, k) && o in q && o in ends
    ensures !HeldAtLast(held, up, k)
    decreases up
  {
    if up != [] {
      if up[0].Ping? {
        if q[0] in ends {
          NeverHeld(up[1..], k);
        } else {
          UpGuardEnds(q[1..], up[1..], held, ends, o, k);
        }
      } else {
        UpGuardEnds(q, up[1..], HeldAfter(held, up[0], k), ends, o, k);
      }
    }
  }

  /** With an ending barrier in the queue, the server will not hold the id once it has heard everything. */
  lemma {:induction false} GuardEnds(q: seq<PingOrigin>, down: seq<O.Op>, up: seq<O.Op>, held: bool, ends: set<PingOrigin>,
                                     o: PingOrigin, k: int)
    requires Guard(q, down, up, held, ends, k) && o in q && o in ends
    ensures !HeldAtLast(held, up, k)
    decreases down
  {
    if down == [] {
      UpGuardEnds(q, up, held, ends, o, k);
    } else if down[0].Pong? {
      if q[0] in ends {
        NeverHeld(up, k);
      } else {
        GuardEnds(q[1..], down[1..], up, held, ends, o, k);
      }
    } else {
      GuardEnds(q, down[1..], up, held, ends, o, k);
    }
  }

  /** The server puts an operation other than a PONG on its link. */
  lemma {:induction false} GuardSays(q: seq<PingOrigin>, down: seq<O.Op>, op: O.Op, up: seq<O.Op>, held: bool,
                                     ends: set<PingOrigin>, k: int)
    requires Guard(q, down, up, held, ends, k) && !op.Pong? && (Carries(op, k) ==> held)
    ensures Guard(q, down + [op], up, held, ends, k)
    decreases down
  {
    if down == [] {
      assert down + [op] == [op] && [op][1..] == [];
    } else {
      assert (down + [op])[1..] == down[1..] + [op];
      GuardSays(if down[0].Pong? then q[1..] else q, down[1..], op, up, held, ends, k);
    }
  }

  lemma {:induction false} GuardHears(q: seq<PingOrigin>, down: seq<O.Op>, up: seq<O.Op>, held: bool, ends: set<PingOrigin>, k: int)
    requires Guard(q, down, up, held, ends, k) && up != [] && !up[0].Ping?
    ensures Guard(q, down, up[1..], HeldAfter(held, up[0], k), ends, k)
    decreases down
  {
    if down != [] {
      GuardHears(if down[0].Pong? then q[1..] else q, down[1..], up, held, ends, k);
    }
  }

  /** A PING that the server answers becomes a PONG behind everything it has sent. */
  lemma {:induction false} GuardAnswers(q: seq<PingOrigin>, down: seq<O.Op>, up: seq<O.Op>, held: bool, ends: set<PingOrigin>, k: int)
    requires Guard(q, down, up, held, ends, k) && up != [] && up[0].Ping?
    ensures Guard(q, down + [O.Pong], up[1..], held, ends, k)
    decreases down
  {
    if down == [] {
      assert down + [O.Pong] == [O.Pong] && [O.Pong][1..] == [];
    } else {
      assert (down + [O.Pong])[1..] == down[1..] + [O.Pong];
      GuardAnswers(if down[0].Pong? then q[1..] else q, down[1..], up, held, ends, k);
    }
  }

  ghost predicate NoPing(ops: seq<O.Op>) {
    forall i :: 0 <= i < |ops| ==> !ops[i].Ping?
  }

  ghost predicate Apart(q: seq<PingOrigin>, ends: set<PingOrigin>) {
    forall o <- q :: o !in ends
  }

  lemma {:induction false} UpGuardPlain(q: seq<PingOrigin>, up: seq<O.Op>, more: seq<O.Op>, held: bool, ends: set<PingOrigin>, k: int)
    requires UpGuard(q, up, held, ends, k) && NoPing(more) && (HasSub(more, k) ==> Apart(q, ends))
    ensures UpGuard(q, up + more, held, ends, k)
    decreases up, more
  {
    if up != [] {
      assert (up + more)[1..] == up[1..] + more;
      HasSubPlus(up[1..], more, k);
      UpGuardPlain(if up[0].Ping? then q[1..] else q, up[1..], more,
                   if up[0].Ping? then held else HeldAfter(held, up[0], k), ends, k);
    } else {
      assert up + more == more;
      if more != [] {
        UpGuardPlain([], [], more[1..], HeldAfter(held, more[0], k), ends, k);
        assert [] + more[1..] == more[1..];
      }
    }
  }

  lemma {:induction false} GuardPlain(q: seq<PingOrigin>, down: seq<O.Op>, up: seq<O.Op>, more: seq<O.Op>, held: bool,
                                      ends: set<PingOrigin>, k: int)
    requires Guard(q, down, up, held, ends, k) && NoPing(more) && (HasSub(more, k) ==> Apart(q, ends))
    ensures Guard(q, down, up + more, held, ends, k)
    decreases down
  {
    if down == [] {
      UpGuardPlain(q, up, more, held, ends, k);
    } else {
      HasSubPlus(up, more, k);
      GuardPlain(if down[0].Pong? then q[1..] else q, down[1..], up, more, held, ends, k);
    }
  }

  lemma {:induction false} UpGuardPing(q: seq<PingOrigin>, up: seq<O.Op>, o: PingOrigin, held: bool, ends: set<PingOrigin>, k: int)
    requires UpGuard(q, up, held, ends, k) && (o in ends ==> !HeldAtLast(held, up, k))
    ensures UpGuard(q + [o], up + [O.Ping], held, ends, k)
    decreases up
  {
    if up == [] {
      assert up + [O.Ping] == [O.Ping] && [O.Ping][1..] == [];
      assert q + [o] == [o] && [o][1..] == [];
    } else {
      assert (up + [O.Ping])[1..] == up[1..] + [O.Ping];
      HasSubPlus(up[1..], [O.Ping], k);
      assert [O.Ping][1..] == [];
      if up[0].Ping? {
        assert (q + [o])[1..] == q[1..] + [o];
        UpGuardPing(q[1..], up[1..], o, held, ends, k);
      } else {
        UpGuardPing(q, up[1..], o, HeldAfter(held, up[0], k), ends, k);
      }
    }
  }

  lemma {:induction false} GuardPing(q: seq<PingOrigin>, down: seq<O.Op>, up: seq<O.Op>, o: PingOrigin, held: bool,
                                     ends: set<PingOrigin>, k: int)
    requires Guard(q, down, up, held, ends, k) && (o in ends ==> !HeldAtLast(held, up, k))
    ensures Guard(q + [o], down, up + [O.Ping], held, ends, k)
    decreases down
  {
    if down == [] {
      UpGuardPing(q, up, o, held, ends, k);
    } else {
      HasSubPlus(up, [O.Ping], k);
      assert [O.Ping][1..] == [];
      if down[0].Pong? {
        assert (q + [o])[1..] == q[1..] + [o];
        GuardPing(q[1..], down[1..], up, o, held, ends, k);
      } else {
        GuardPing(q, down[1..], up, o, held, ends, k);
      }
    }
  }

  lemma {:induction false} NoSub(ops: seq<O.Op>, k: int)
    requires forall op <- ops :: !IsSub(op, k)
    ensures !HasSub(ops, k)
  {
    if ops != [] {
      assert ops[0] in ops;
      NoSub(ops[1..], k);
    }
  }

  /** The client puts operations, and at most one PING behind them, on its link. */
  lemma Emit(q: seq<PingOrigin>, down: seq<O.Op>, up: seq<O.Op>, plain: seq<O.Op>, barrier: seq<PingOrigin>, held: bool,
             ends: set<PingOrigin>, k: int)
    requires Guard(q, down, up, held, ends, k) && NoPing(plain) && (HasSub(plain, k) ==> Apart(q, ends))
    requires |barrier| <= 1
    requires barrier != [] && barrier[0] in ends ==> !HeldAtLast(held, up + plain, k)
    ensures Guard(q + barrier, down, up + (plain + if barrier == [] then [] else [O.Ping]), held, ends, k)
  {
    GuardPlain(q, down, up, plain, held, ends, k);
    if barrier == [] {
      assert q + barrier == q && plain + [] == plain;
    } else {
      GuardPing(q, down, up + plain, barrier[0], held, ends, k);
      assert (up + plain) + [O.Ping] == up + (plain + [O.Ping]);
      assert [barrier[0]] == barrier;
    }
  }

  // ---- What a drain puts on the link ----

  lemma {:induction false} ReplayPlain(subs: seq<Subscription>)
    ensures NoPing(Replay(subs))
  {
    if subs != [] {
      ReplayPlain(subs[1..]);
    }
  }

  lemma {:induction false} UnsubsPlain(subs: seq<Subscription>, draining: seq<int>, k: int)
    ensures NoPing(Unsubs(subs, draining)) && !HasSub(Unsubs(subs, draining), k)
  {
    if subs != [] {
      UnsubsPlain(subs[1..], draining, k);
      HasSubPlus(Unsubs(subs[1..], draining), if subs[0].sid in draining then [] else [O.Unsub(subs[0].sid, None)], k);
    }
  }

  lemma {:induction false} UnsubsRelease(subs: seq<Subscription>, draining: seq<int>, held: bool, k: int)
    requires Find(subs, k).Some? && k !in draining
    ensures !HeldAtLast(held, Unsubs(subs, draining), k)
  {
    var own := if subs[0].sid in draining then [] else [O.Unsub(subs[0].sid, None)];
    HeldPlus(held, Unsubs(subs[1..], draining), own, k);
    if subs[0].sid != k {
      UnsubsRelease(subs[1..], draining, held, k);
    }
    assert own != [] ==> own[1..] == [];
  }

  // ---- The client's moves ----

  /** The step's state has the queue of its input, ends no more, and stays in phase. */
  lemma Kept(n: Net, n': Net, plain: seq<O.Op>, barrier: seq<PingOrigin>, k: int)
    requires Ordered(n, k) && n'.aligned == n.aligned && n'.table == n.table && n'.toClient == n.toClient
    requires |barrier| <= 1 && Contents(n'.client.pings) == Contents(n.client.pings) + barrier
    requires n'.toServer == n.toServer + (plain + if barrier == [] then [] else [O.Ping])
    requires NoPing(plain) && (HasSub(plain, k) ==> n.aligned ==> Apart(Contents(n.client.pings), Ends(n'.client, k)))
    requires n.aligned ==> forall o <- Contents(n.client.pings) :: o in Ends(n'.client, k) ==> o in Ends(n.client, k)
    requires n.aligned && barrier != [] && barrier[0] in Ends(n'.client, k) ==>
               !HeldAtLast(k in n.table, n.toServer + plain, k)
    requires n.aligned ==> Phased(n'.client)
    ensures Ordered(n', k)
  {
    if n.aligned {
      var q, held := Contents(n.client.pings), k in n.table;
      GuardWeaker(q, n.toClient, n.toServer, held, Ends(n.client, k), held, Ends(n'.client, k), k);
      Emit(q, n.toClient, n.toServer, plain, barrier, held, Ends(n'.client, k), k);
    }
  }

  lemma ConnectOrdered(n: Net, t: Transition, command: Command, k: int)
    requires Ordered(n, k) && command.Connect? && Accepted(n.client, command, t)
    requires HearsCommand(n.client, command, Decoded(t.output))
    ensures Ordered(AfterClient(n, Do(command), t), k)
  {
    var heard := Decoded(t.output);
    ReplayPlain(n.client.subscriptions);
    assert heard == [heard[0]] + Replay(n.client.subscriptions);
    assert heard + [] == heard && Contents(n.client.pings) + [] == Contents(n.client.pings);
    Kept(n, AfterClient(n, Do(command), t), heard, [], k);
  }

  /** Operations that start nothing. */
  lemma PlainOrdered(n: Net, n': Net, heard: seq<O.Op>, k: int)
    requires Ordered(n, k) && n'.aligned == n.aligned && n'.table == n.table && n'.toClient == n.toClient
    requires Find(n'.client.subscriptions, k) == Find(n.client.subscriptions, k) || Find(n'.client.subscriptions, k).None?
    requires n'.client.pings == n.client.pings && n'.toServer == n.toServer + heard
    requires |heard| <= 1 && forall op <- heard :: !op.Ping? && !IsSub(op, k)
    requires Feeding.SamePart(n.client.phase, n'.client.phase)
    ensures Ordered(n', k)
  {
    assert heard + [] == heard && Contents(n.client.pings) + [] == Contents(n.client.pings);
    NoSub(heard, k);
    Kept(n, n', heard, [], k);
  }

  /** A new id has no drain waiting. */
  lemma NewApart(n: Net, k: int)
    requires Known(n) && Ordered(n, k) && n.aligned && Open(n.client) && n.client.nextSid <= k
    ensures Apart(Contents(n.client.pings), {SubscriptionDrain(k), DrainBarrier})
  {
  }

  lemma NewOrdered(n: Net, n': Net, heard: seq<O.Op>, k: int)
    requires Known(n) && Ordered(n, k) && n'.aligned == n.aligned && n'.table == n.table && n'.toClient == n.toClient
    requires n'.client.pings == n.client.pings && n'.toServer == n.toServer + heard && NoPing(heard)
    requires Open(n.client) && n'.client.phase == n.client.phase && n.client.nextSid <= k
    ensures Ordered(n', k)
  {
    if n.aligned {
      NewApart(n, k);
    }
    assert heard + [] == heard && Contents(n.client.pings) + [] == Contents(n.client.pings);
    Kept(n, n', heard, [], k);
  }

  lemma SubscribeOrdered(n: Net, t: Transition, command: Command, k: int)
    requires Known(n) && Ordered(n, k) && command.Subscribe? && Accepted(n.client, command, t)
    requires HearsCommand(n.client, command, Decoded(t.output))
    ensures Ordered(AfterClient(n, Do(command), t), k)
  {
    var n' := AfterClient(n, Do(command), t);
    if n.client.nextSid == k {
      NewOrdered(n, n', Decoded(t.output), k);
    } else {
      var sub := Subscription(n.client.nextSid, command.subject, command.queueGroup, None, 0);
      assert ([sub] + n.client.subscriptions)[1..] == n.client.subscriptions;
      PlainOrdered(n, n', Decoded(t.output), k);
    }
  }

  /** A live subscription stays live or goes. */
  lemma LimitedOrdered(n: Net, n': Net, heard: seq<O.Op>, k: int)
    requires Ordered(n, k) && n'.aligned == n.aligned && n'.table == n.table && n'.toClient == n.toClient
    requires Find(n'.client.subscriptions, k).Some? ==> Find(n.client.subscriptions, k).Some?
    requires n'.client.pings == n.client.pings && n'.toServer == n.toServer + heard
    requires |heard| <= 1 && forall op <- heard :: op.Unsub?
    requires n'.client.phase == n.client.phase
    ensures Ordered(n', k)
  {
    assert heard + [] == heard && Contents(n.client.pings) + [] == Contents(n.client.pings);
    assert forall i :: 0 <= i < |heard| ==> heard[i] in heard;
    NoSub(heard, k);
    Kept(n, n', heard, [], k);
  }

  lemma UnsubscribeOrdered(n: Net, t: Transition, input: Input, j: int, max: Option<int>, k: int)
    requires Ordered(n, k) && Open(n.client) && Find(n.client.subscriptions, j).Some?
    requires var sub := Find(n.client.subscriptions, j).value;
             && Sees(t, Unsubscribed(n.client, sub, max), [], None)
             && Decoded(t.output) == (if n.client.phase == Connected
                                      then [O.Unsub(j, if Client.Ends(sub, max) then None else max)] else [])
    ensures Ordered(AfterClient(n, input, t), k)
  {
    var sub := Find(n.client.subscriptions, j).value;
    History.LimitedFind(n.client.subscriptions, sub, max, k);
    LimitedOrdered(n, AfterClient(n, input, t), Decoded(t.output), k);
  }

  lemma DrainingOrdered(n: Net, n': Net, j: int, k: int)
    requires Ordered(n, k) && n'.aligned == n.aligned && n'.table == n.table && n'.toClient == n.toClient
    requires n'.client.subscriptions == n.client.subscriptions && n.client.phase == n'.client.phase == Connected
    requires n'.client.pings == EnqueuePing(n.client.pings, SubscriptionDrain(j))
    requires n'.toServer == n.toServer + [O.Unsub(j, None), O.Ping]
    ensures Ordered(n', k)
  {
    var o, plain := SubscriptionDrain(j), [O.Unsub(j, None)];
    EnqueueExact(n.client.pings, o);
    HeldPlus(k in n.table, n.toServer, plain, k);
    NoSub(plain, k);
    assert plain[1..] == [] && plain + [O.Ping] == [O.Unsub(j, None), O.Ping];
    Kept(n, n', plain, [o], k);
  }

  lemma DrainSubscriptionOrdered(n: Net, t: Transition, command: Command, k: int)
    requires Ordered(n, k) && command.DrainSubscription? && Accepted(n.client, command, t)
    requires HearsCommand(n.client, command, Decoded(t.output))
    ensures Ordered(AfterClient(n, Do(command), t), k)
  {
    DrainingOrdered(n, AfterClient(n, Do(command), t), command.sid, k);
  }

  lemma DrainOrdered(n: Net, t: Transition, command: Command, k: int)
    requires Known(n) && Ordered(n, k) && command.Drain? && Accepted(n.client, command, t)
    requires HearsCommand(n.client, command, Decoded(t.output))
    ensures Ordered(AfterClient(n, Do(command), t), k)
  {
    var s, held := n.client, k in n.table;
    var plain := Unsubs(s.subscriptions, s.draining);
    EnqueueExact(s.pings, DrainBarrier);
    UnsubsPlain(s.subscriptions, s.draining, k);
    HeldPlus(held, n.toServer, plain, k);
    if n.aligned && Find(s.subscriptions, k).Some? {
      if k in s.draining {
        GuardEnds(Contents(s.pings), n.toClient, n.toServer, held, Ends(s, k), SubscriptionDrain(k), k);
        NeverHeld(plain, k);
      } else {
        UnsubsRelease(s.subscriptions, s.draining, HeldAtLast(held, n.toServer, k), k);
      }
    }
    Kept(n, AfterClient(n, Do(command), t), plain, [DrainBarrier], k);
  }

  /** A PING that ends no subscription. */
  lemma PingOrdered(n: Net, n': Net, o: PingOrigin, k: int)
    requires Ordered(n, k) && n'.aligned == n.aligned && n'.table == n.table && n'.toClient == n.toClient
    requires o == FlushBarrier || o == Liveness
    requires n'.client.subscriptions == n.client.subscriptions && n'.client.phase == n.client.phase
    requires n'.client.pings == EnqueuePing(n.client.pings, o) && n'.toServer == n.toServer + [O.Ping]
    ensures Ordered(n', k)
  {
    EnqueueExact(n.client.pings, o);
    assert [] + [O.Ping] == [O.Ping];
    Kept(n, n', [], [o], k);
  }

  lemma CommandOrdered(n: Net, t: Transition, command: Command, k: int)
    requires Known(n) && Ordered(n, k) && Accepted(n.client, command, t) && t != Idle(n.client)
    requires HearsCommand(n.client, command, Decoded(t.output))
    ensures Ordered(AfterClient(n, Do(command), t), k)
  {
    var n' := AfterClient(n, Do(command), t);
    match command
    case Connect(_, _) => ConnectOrdered(n, t, command, k);
    case Subscribe(_, _) => SubscribeOrdered(n, t, command, k);
    case Unsubscribe(j) => UnsubscribeOrdered(n, t, Do(command), j, None, k);
    case AutoUnsubscribe(j, max) => UnsubscribeOrdered(n, t, Do(command), j, Some(max), k);
    case DrainSubscription(_) => DrainSubscriptionOrdered(n, t, command, k);
    case Drain => DrainOrdered(n, t, command, k);
    case Flush => PingOrdered(n, n', FlushBarrier, k);
    case _ => PlainOrdered(n, n', Decoded(t.output), k);
  }

  lemma ClientOrdered(n: Net, input: Input, t: Transition, k: int)
    requires Known(n) && Ordered(n, k) && !input.Reconnect? && !(input.Receive? && input.read.Ok?)
    requires Shaped(n.client, input, t) && Hears(n.client, input, t, Decoded(t.output))
    ensures Ordered(AfterClient(n, input, t), k)
  {
    var n' := AfterClient(n, input, t);
    if input.Do? && t != Idle(n.client) {
      CommandOrdered(n, t, input.command, k);
    } else if input.Tick? && Decoded(t.output) == [O.Ping] {
      PingOrdered(n, n', Liveness, k);
    } else {
      if input.Drop? {
        FindRemove(n.client.subscriptions, input.sid, k);
      }
      PlainOrdered(n, n', Decoded(t.output), k);
    }
  }

  // ---- The other moves ----

  /** A PONG takes the oldest barrier off the queue. */
  lemma PongOrdered(n: Net, now: nat, t: Transition, k: int)
    requires Ordered(n, k) && n.toClient != [] && n.toClient[0].Pong? && Handled(n.client, now, n.toClient[0], t)
    requires Decoded(t.output) == []
    ensures Ordered(AfterReceipt(n, now, t), k)
  {
    if n.aligned {
      var q := Contents(n.client.pings);
      TakeExact(n.client.pings);
      Feeding.PongFinds(n.client, now, k);
      GuardWeaker(q[1..], n.toClient[1..], n.toServer, k in n.table, Ends(n.client, k), k in n.table, Ends(t.state, k), k);
      assert n.toServer + [] == n.toServer;
    }
  }

  lemma ReceivedOrdered(n: Net, n': Net, heard: seq<O.Op>, k: int)
    requires Ordered(n, k) && n.toClient != [] && !n.toClient[0].Pong?
    requires n'.aligned == n.aligned && n'.table == n.table && n'.toClient == n.toClient[1..]
    requires n'.client.pings == n.client.pings && Feeding.SamePart(n.client.phase, n'.client.phase)
    requires Find(n'.client.subscriptions, k).Some? ==> Find(n.client.subscriptions, k).Some?
    requires n'.toServer == n.toServer + heard && NoPing(heard) && NoneFor(heard, k)
    ensures Ordered(n', k)
  {
    if n.aligned {
      var q, held := Contents(n.client.pings), k in n.table;
      GuardPlain(q, n.toClient[1..], n.toServer, heard, held, Ends(n.client, k), k) by { NoneForNoSub(heard, k); }
      GuardWeaker(q, n.toClient[1..], n'.toServer, held, Ends(n.client, k), held, Ends(n'.client, k), k);
    }
  }

  lemma ReceiptOrdered(n: Net, now: nat, t: Transition, k: int)
    requires Ordered(n, k) && n.toClient != [] && Handled(n.client, now, n.toClient[0], t)
    requires Hears(n.client, Receive(now, Ok(n.toClient[0])), t, Decoded(t.output))
    ensures Ordered(AfterReceipt(n, now, t), k)
  {
    var op := n.toClient[0];
    var n' := AfterReceipt(n, now, t);
    if op.Pong? {
      PongOrdered(n, now, t, k);
    } else {
      Feeding.HandledFinds(n.client, now, op, t, k);
      ReceivedOrdered(n, n', Decoded(t.output), k);
    }
  }

  lemma ServerOrdered(n: Net, move: Move, k: int)
    requires Known(n) && Ordered(n, k) && ServerEnabled(n, move)
    ensures Ordered(ServerNext(n, move), k)
  {
    if n.aligned {
      var q, held, ends := Contents(n.client.pings), k in n.table, Ends(n.client, k);
      match move
      case ServerProcesses =>
        if n.toServer[0].Ping? {
          GuardAnswers(q, n.toClient, n.toServer, held, ends, k);
        } else {
          GuardHears(q, n.toClient, n.toServer, held, ends, k);
          GuardWeaker(q, n.toClient, n.toServer[1..], HeldAfter(held, n.toServer[0], k), ends,
                      k in Process(n.table, n.toServer[0]), ends, k);
          assert n.toClient + [] == n.toClient;
        }
      case ServerSends(d) =>
        GuardSays(q, n.toClient, OpOf(d), n.toServer, held, ends, k);
        GuardWeaker(q, n.toClient + [OpOf(d)], n.toServer, held, ends, k in Send(n.table, d.sid), ends, k);
      case ServerSays(op) => GuardSays(q, n.toClient, op, n.toServer, held, ends, k);
    }
  }

  lemma NextOrdered(json: Json, n: Net, move: Move, k: int)
    requires Known(n) && Ordered(n, k) && Enabled(json, n, move)
    ensures Ordered(Next(json, n, move), k)
  {
    match move
    case ClientMoves(input) =>
      StepShaped(json, n.client, input);
      StepHeard(json, n.client, input);
      ClientOrdered(n, input, Step(json, n.client, input), k);
    case ClientReceives(now) =>
      OperationShaped(json, n.client, now, n.toClient[0]);
      StepHeard(json, n.client, Receive(now, Ok(n.toClient[0])));
      ReceiptOrdered(n, now, Step(json, n.client, Receive(now, Ok(n.toClient[0]))), k);
    case Reconnects(preserve) =>
    case _ => ServerOrdered(n, move, k);
  }

  // ---- What the server sent and what the client delivered ----

  /** The server's log and the client's are kept apart only by what is on the link. */
  lemma ClientLogged(n: Net, input: Input, t: Transition, k: int)
    requires Known(n) && Logged(n, k) && !input.Reconnect? && !(input.Receive? && input.read.Ok?)
    requires Shaped(n.client, input, t)
    ensures Logged(AfterClient(n, input, t), k)
  {
    if n.client.nextSid <= k {
      OnNone(n.sent, k);
      OnNone(n.got, k);
      Feeding.KnownQuiet(n.toClient, n.client.nextSid, k);
    } else {
      History.ShapedEvolves(n.client, input, t, k);
    }
  }

  /** One operation moves from the link to the client's log, if it is delivered. */
  lemma MovesOver(sent: seq<Delivery>, got: seq<Delivery>, link: seq<O.Op>, deliveries: seq<Delivery>, k: int)
    requires link != [] && On(sent, k) == On(got, k) + Messages(link, k)
    requires On(deliveries, k) == if Carries(link[0], k) then [DeliveryOf(link[0]).value] else []
    ensures On(sent, k) == On(got + deliveries, k) + Messages(link[1..], k)
  {
    Feeding.MessagesHead(link, k);
    OnPlus(got, deliveries, k);
    Text.Assoc(On(got, k), On(deliveries, k), Messages(link[1..], k));
  }

  lemma ReceiptLogged(n: Net, now: nat, t: Transition, k: int)
    requires Logged(n, k) && n.toClient != [] && Handled(n.client, now, n.toClient[0], t)
    ensures Logged(AfterReceipt(n, now, t), k)
  {
    Feeding.HandledFinds(n.client, now, n.toClient[0], t, k);
    HandledDelivers(n.client, now, n.toClient[0], t, k);
    if Find(t.state.subscriptions, k).Some? {
      MovesOver(n.sent, n.got, n.toClient, t.deliveries, k);
    }
  }

  lemma HandledDelivers(s: State, now: nat, op: O.Op, t: Transition, k: int)
    requires Handled(s, now, op, t)
    ensures On(t.deliveries, k) ==
            if Carries(op, k) && Find(s.subscriptions, k).Some? then [DeliveryOf(op).value] else []
  {
    if op.Pong? {
    } else if DeliveryOf(op).Some? {
      var d := DeliveryOf(op).value;
      History.MessageFind(s, now, d, k);
      assert [d][1..] == [];
    }
  }

  lemma OnOne(d: Delivery, k: int)
    ensures On([d], k) == if d.sid == k then [d] else []
  {
    assert [d][1..] == [];
  }

  lemma SentLogged(n: Net, d: Delivery, k: int)
    requires Logged(n, k) && Find(n.client.subscriptions, k).Some?
    ensures On(n.sent + [d], k) == On(n.got, k) + (Messages(n.toClient, k) + if d.sid == k then [d] else [])
  {
    OnPlus(n.sent, [d], k);
    OnOne(d, k);
    Text.Assoc(On(n.got, k), Messages(n.toClient, k), if d.sid == k then [d] else []);
  }

  lemma ServerLogged(n: Net, move: Move, k: int)
    requires Logged(n, k) && Inv(n.client) && ServerEnabled(n, move)
    ensures Logged(ServerNext(n, move), k)
  {
    match move
    case ServerProcesses =>
      Feeding.PutOn(n.toClient, if n.toServer[0].Ping? then [O.Pong] else [], k);
    case ServerSends(d) =>
      assert DeliveryOf(OpOf(d)) == Some(d);
      Feeding.PutOn(n.toClient, [OpOf(d)], k);
      if Find(n.client.subscriptions, k).Some? {
        SentLogged(n, d, k);
      }
    case ServerSays(op) => Feeding.PutOn(n.toClient, [op], k);
  }

  lemma NextLogged(json: Json, n: Net, move: Move, k: int)
    requires Known(n) && Logged(n, k) && Enabled(json, n, move)
    ensures Logged(Next(json, n, move), k)
  {
    match move
    case ClientMoves(input) =>
      StepShaped(json, n.client, input);
      ClientLogged(n, input, Step(json, n.client, input), k);
    case ClientReceives(now) =>
      OperationShaped(json, n.client, now, n.toClient[0]);
      ReceiptLogged(n, now, Step(json, n.client, Receive(now, Ok(n.toClient[0]))), k);
    case Reconnects(preserve) =>
    case _ => ServerLogged(n, move, k);
  }

  // ---- Whole runs ----

  lemma {:induction false} RunOrdered(json: Json, n: Net, moves: seq<Move>, k: int)
    requires Known(n) && Ordered(n, k) && Logged(n, k) && CanRun(json, n, moves)
    ensures var n' := RunNet(json, n, moves); Known(n') && Ordered(n', k) && Logged(n', k)
    decreases moves
  {
    if moves != [] {
      NextKeepsKnown(json, n, moves[0]);
      NextOrdered(json, n, moves[0], k);
      NextLogged(json, n, moves[0], k);
      RunOrdered(json, Next(json, n, moves[0]), moves[1..], k);
    }
  }

  /** What the client makes of one move. */
  function InputOf(n: Net, move: Move): seq<Input>
    requires move.ClientReceives? ==> n.toClient != []
  {
    match move
    case ClientMoves(input) => [input]
    case ClientReceives(now) => [Receive(now, Ok(n.toClient[0]))]
    case Reconnects(preserve) => [Reconnect(preserve)]
    case _ => []
  }

  /** The inputs a run of the net gives its client. */
  ghost function InputsOf(json: Json, n: Net, moves: seq<Move>): seq<Input>
    requires CanRun(json, n, moves)
    decreases moves
  {
    if moves == [] then [] else InputOf(n, moves[0]) + InputsOf(json, Next(json, n, moves[0]), moves[1..])
  }

  lemma RunOne(json: Json, s: State, input: Input, rest: seq<Input>)
    requires Inv(s) && Inv(Step(json, s, input).state)
    ensures Run(json, s, [input] + rest) == Run(json, Step(json, s, input).state, rest)
  {
    assert ([input] + rest)[1..] == rest;
  }

  lemma ClientSteps(json: Json, n: Net, move: Move, rest: seq<Input>)
    requires Inv(n.client) && Enabled(json, n, move) && Inv(Next(json, n, move).client)
    ensures Run(json, n.client, InputOf(n, move) + rest) == Run(json, Next(json, n, move).client, rest)
  {
    match move
    case ClientMoves(input) => RunOne(json, n.client, input, rest);
    case ClientReceives(now) => RunOne(json, n.client, Receive(now, Ok(n.toClient[0])), rest);
    case Reconnects(preserve) => RunOne(json, n.client, Reconnect(preserve), rest);
    case _ => assert [] + rest == rest;
  }

  /** The client of a net is a client run alone on those inputs. */
  lemma {:induction false} ClientRuns(json: Json, n: Net, moves: seq<Move>)
    requires CanRun(json, n, moves)
    ensures RunNet(json, n, moves).client == Run(json, n.client, InputsOf(json, n, moves))
    decreases moves
  {
    if moves != [] {
      var n' := Next(json, n, moves[0]);
      ClientRuns(json, n', moves[1..]);
      ClientSteps(json, n, moves[0], InputsOf(json, n', moves[1..]));
    }
  }

  /** The PONG at hand ends the live subscription `k`. */
  ghost predicate EndsNow(json: Json, n: Net, now: nat, k: int)
    requires Inv(n.client)
  {
    && n.aligned && Enabled(json, n, ClientReceives(now)) && n.toClient[0] == O.Pong
    && Contents(n.client.pings) != [] && Contents(n.client.pings)[0] in Ends(n.client, k)
    && Find(n.client.subscriptions, k).Some?
  }

  lemma PongEnds(s: State, now: nat, k: int)
    requires Contents(s.pings) != [] && Contents(s.pings)[0] in {SubscriptionDrain(k), DrainBarrier}
    ensures var t := HandlePong(s, now);
            t.events == [FlushCompleted] && t.deliveries == [] && Find(t.state.subscriptions, k).None?
  {
    TakeExact(s.pings);
    FindRemove(s.subscriptions, k, k);
  }

  /** Draining loses nothing. In any run from the start, whatever reconnects came before, in a session begun with no
      barrier queued: when the PONG arrives that ends a live subscription, every message the server sent on it in
      the session has been delivered, in order; the server no longer holds it and no SUB of it is on its way; the
      flush completes; and no run from there on, through any number of sessions, delivers on it again. */
  lemma NothingLost(json: Json, config: Config, moves: seq<Move>, now: nat, k: int, more: seq<Move>)
    requires CanRun(json, Start(config), moves) && EndsNow(json, RunNet(json, Start(config), moves), now, k)
    requires CanRun(json, Next(json, RunNet(json, Start(config), moves), ClientReceives(now)), more)
    ensures var n := RunNet(json, Start(config), moves);
            var n' := Next(json, n, ClientReceives(now));
            && On(n.got, k) == On(n.sent, k) && On(n'.got, k) == On(n'.sent, k)
            && k !in n.table && !HasSub(n.toServer, k)
            && Step(json, n.client, Receive(now, Ok(O.Pong))).events == [FlushCompleted]
            && History.Delivered(json, n'.client, InputsOf(json, n', more), k) == 0
            && Find(RunNet(json, n', more).client.subscriptions, k).None?
  {
    RunOrdered(json, Start(config), moves, k);
    var n := RunNet(json, Start(config), moves);
    var n' := Next(json, n, ClientReceives(now));
    EndsKnown(json, n, now, k);
    History.RetiredForGood(json, n'.client, InputsOf(json, n', more), k);
    ClientRuns(json, n', more);
  }

  /** Past the PONG of an ending barrier there is nothing on the id. */
  lemma EndsQuiet(n: Net, k: int)
    requires Ordered(n, k) && Logged(n, k) && n.aligned && n.toClient != [] && n.toClient[0] == O.Pong
    requires Contents(n.client.pings) != [] && Contents(n.client.pings)[0] in Ends(n.client, k)
    requires Find(n.client.subscriptions, k).Some?
    ensures On(n.got, k) == On(n.sent, k) && k !in n.table && !HasSub(n.toServer, k)
  {
    QuietMessages(n.toClient[1..], k);
    Feeding.MessagesHead(n.toClient, k);
  }

  lemma PongStep(json: Json, n: Net, now: nat)
    requires Inv(n.client) && Enabled(json, n, ClientReceives(now)) && n.toClient[0] == O.Pong
    ensures Step(json, n.client, Receive(now, Ok(O.Pong))) == HandlePong(n.client, now)
    ensures Next(json, n, ClientReceives(now)) == AfterReceipt(n, now, HandlePong(n.client, now))
  {
    OperationShaped(json, n.client, now, O.Pong);
  }

  lemma EndsKnown(json: Json, n: Net, now: nat, k: int)
    requires Known(n) && Ordered(n, k) && Logged(n, k) && EndsNow(json, n, now, k)
    ensures var n' := Next(json, n, ClientReceives(now));
            && On(n.got, k) == On(n.sent, k) && On(n'.got, k) == On(n'.sent, k)
            && k !in n.table && !HasSub(n.toServer, k)
            && Step(json, n.client, Receive(now, Ok(O.Pong))).events == [FlushCompleted]
            && k < n'.client.nextSid && Find(n'.client.subscriptions, k).None?
  {
    PongStep(json, n, now);
    PongEnds(n.client, now, k);
    FindDescending(n.client.subscriptions, n.client.nextSid, k);
    EndsQuiet(n, k);
    assert n.got + [] == n.got;
  }

  // ---- After the PONG of a connection drain ----

  ghost function DeliveredOver(json: Json, s: State, inputs: seq<Input>): seq<Delivery>
    requires Inv(s)
    decreases inputs
  {
    if inputs == [] then []
    else
      StepKeeps(json, s, inputs[0]);
      var t := Step(json, s, inputs[0]);
      t.deliveries + DeliveredOver(json, t.state, inputs[1..])
  }

  ghost predicate Over(s: State) {
    (s.phase == Draining || s.phase == Closed) && s.subscriptions == []
  }

  lemma StaysOver(json: Json, s: State, input: Input)
    requires Inv(s) && Over(s) && !input.Reconnect?
    ensures Over(Step(json, s, input).state) && Step(json, s, input).deliveries == []
  {
    StepShaped(json, s, input);
    ShapedOver(s, input, Step(json, s, input));
  }

  lemma ShapedOver(s: State, input: Input, t: Transition)
    requires Over(s) && !input.Reconnect? && Shaped(s, input, t)
    ensures Over(t.state) && t.deliveries == []
  {
  }

  lemma {:induction false} OverForGood(json: Json, s: State, inputs: seq<Input>)
    requires Inv(s) && Over(s) && Barriers.OneSession(inputs)
    ensures DeliveredOver(json, s, inputs) == [] && Over(Run(json, s, inputs))
    decreases inputs
  {
    if inputs != [] {
      StepKeeps(json, s, inputs[0]);
      StaysOver(json, s, inputs[0]);
      OverForGood(json, Step(json, s, inputs[0]).state, inputs[1..]);
    }
  }

  lemma DrainOver(json: Json, n: Net, now: nat, more: seq<Input>)
    requires Inv(n.client) && Phased(n.client) && Enabled(json, n, ClientReceives(now)) && n.toClient[0] == O.Pong
    requires Contents(n.client.pings) != [] && Contents(n.client.pings)[0] == DrainBarrier && Barriers.OneSession(more)
    ensures var t := Step(json, n.client, Receive(now, Ok(O.Pong)));
            && t.events == [FlushCompleted] && t.state.phase == Draining && Inv(t.state)
            && DeliveredOver(json, t.state, more) == []
  {
    OperationShaped(json, n.client, now, O.Pong);
    StepKeeps(json, n.client, Receive(now, Ok(O.Pong)));
    TakeExact(n.client.pings);
    OverForGood(json, HandlePong(n.client, now).state, more);
  }

  /** After the PONG of a connection drain no message is delivered again in that session, on any id. */
  lemma DrainedForGood(json: Json, config: Config, moves: seq<Move>, now: nat, more: seq<Input>)
    requires CanRun(json, Start(config), moves)
    requires var n := RunNet(json, Start(config), moves);
             && n.aligned && Enabled(json, n, ClientReceives(now)) && n.toClient[0] == O.Pong
             && Contents(n.client.pings) != [] && Contents(n.client.pings)[0] == DrainBarrier
    requires Barriers.OneSession(more)
    ensures var t := Step(json, RunNet(json, Start(config), moves).client, Receive(now, Ok(O.Pong)));
            && t.events == [FlushCompleted] && t.state.phase == Draining && Inv(t.state)
            && DeliveredOver(json, t.state, more) == []
  {
    RunOrdered(json, Start(config), moves, 0);
    DrainOver(json, RunNet(json, Start(config), moves), now, more);
  }
}
