/** Whole runs of the client: subscription ids and auto-unsubscribe limits. */
module History {
  import opened Base
  import O = Op
  import opened Client
  import opened Invariant
  import opened Shape

  function CountSid(deliveries: seq<Delivery>, sid: int): nat {
    if deliveries == [] then 0 else (if deliveries[0].sid == sid then 1 else 0) + CountSid(deliveries[1..], sid)
  }

  /** Messages delivered on an id over a run. */
  function Delivered(json: Json, s: State, inputs: seq<Input>, sid: int): nat
    requires Inv(s)
    decreases inputs
  {
    if inputs == [] then 0
    else
      StepKeeps(json, s, inputs[0]);
      var t := Step(json, s, inputs[0]);
      CountSid(t.deliveries, sid) + Delivered(json, t.state, inputs[1..], sid)
  }

  /** The ids a run hands out. */
  function Issued(json: Json, s: State, inputs: seq<Input>): seq<int>
    requires Inv(s)
    decreases inputs
  {
    if inputs == [] then []
    else
      StepKeeps(json, s, inputs[0]);
      var t := Step(json, s, inputs[0]);
      (if t.subscriptionId.Some? then [t.subscriptionId.value] else []) + Issued(json, t.state, inputs[1..])
  }

  // ---- What one step does to one subscription ----

  /** The step accepts a limit for this id. */
  predicate SetsLimit(input: Input, sid: int, limit: int) {
    input.Do? && input.command.AutoUnsubscribe? && input.command.sid == sid && input.command.maxMessages == limit
  }

  /** How a subscription may change in a step that delivers `count` messages on it. */
  ghost predicate Evolves(before: Option<Subscription>, after: Option<Subscription>, count: nat, input: Input) {
    match before
    case None => after.None? && count == 0
    case Some(sub) =>
      && count <= 1
      && (after.Some? ==>
            var sub' := after.value;
            && sub'.sid == sub.sid && sub'.subject == sub.subject && sub'.queueGroup == sub.queueGroup
            && sub'.delivered == sub.delivered + count
            && (|| sub'.remaining == (if sub.remaining.None? then None else Some(sub.remaining.value - count))
                || (count == 0 && sub'.remaining.Some? && sub'.remaining.value >= 1
                    && SetsLimit(input, sub.sid, sub.delivered + sub'.remaining.value))))
  }

  ghost predicate StepEvolves(s: State, t: Transition, sid: int, input: Input) {
    Evolves(Find(s.subscriptions, sid), Find(t.state.subscriptions, sid), CountSid(t.deliveries, sid), input)
  }

  /** A subscription after one message. */
  function AfterMessage(sub: Subscription): Option<Subscription> {
    if sub.remaining == Some(1) then None
    else Some(sub.(remaining := if sub.remaining.None? then None else Some(sub.remaining.value - 1),
                   delivered := sub.delivered + 1))
  }

  lemma CountedFind(subs: seq<Subscription>, sub: Subscription, sid: int)
    requires Find(subs, sub.sid) == Some(sub)
    ensures Find(Counted(subs, sub), sid) == if sid == sub.sid then AfterMessage(sub) else Find(subs, sid)
  {
    if sub.remaining == Some(1) {
      FindRemove(subs, sub.sid, sid);
    } else {
      FindReplace(subs, AfterMessage(sub).value, sid);
    }
  }

  lemma MessageFind(s: State, now: nat, d: Delivery, sid: int)
    ensures var t := IncomingMessage(s, now, d); var found := Find(s.subscriptions, d.sid);
            && t.deliveries == (if found.Some? then [d] else [])
            && Find(t.state.subscriptions, sid) ==
               if found.Some? && sid == d.sid then AfterMessage(found.value) else Find(s.subscriptions, sid)
  {
    var found := Find(s.subscriptions, d.sid);
    if found.Some? {
      CountedFind(s.subscriptions, found.value, sid);
    }
  }

  lemma MessageEvolves(s: State, now: nat, d: Delivery, sid: int, input: Input)
    requires Inv(s)
    ensures StepEvolves(s, IncomingMessage(s, now, d), sid, input)
  {
    MessageFind(s, now, d, sid);
    assert [d][1..] == [];
  }

  lemma PongEvolves(s: State, now: nat, sid: int, input: Input)
    ensures StepEvolves(s, HandlePong(s, now), sid, input)
  {
    var taken := TakePing(s.pings);
    if taken.Some? && taken.value.0.SubscriptionDrain? {
      FindRemove(s.subscriptions, taken.value.0.sid, sid);
    }
  }

  lemma HandledEvolves(s: State, now: nat, op: O.Op, t: Transition, sid: int, input: Input)
    requires Inv(s) && Handled(s, now, op, t)
    ensures StepEvolves(s, t, sid, input)
  {
    match op
    case Pong => PongEvolves(s, now, sid, input);
    case Msg(k, message) => MessageEvolves(s, now, Delivery(k, message, None, false), sid, input);
    case Hmsg(k, message, status) => MessageEvolves(s, now, Delivery(k, message, status, true), sid, input);
    case _ =>
  }

  lemma LimitedFind(subs: seq<Subscription>, sub: Subscription, max: Option<int>, sid: int)
    requires Find(subs, sub.sid) == Some(sub)
    ensures Find(Limited(subs, sub, max), sid) ==
            if sid != sub.sid then Find(subs, sid)
            else if Ends(sub, max) then None
            else Some(sub.(remaining := Some(max.value - sub.delivered)))
  {
    if Ends(sub, max) {
      FindRemove(subs, sub.sid, sid);
    } else {
      FindReplace(subs, sub.(remaining := Some(max.value - sub.delivered)), sid);
    }
  }

  lemma UnsubscribedEvolves(s: State, sub: Subscription, max: Option<int>, sid: int, input: Input)
    requires Find(s.subscriptions, sub.sid) == Some(sub)
    requires max.Some? ==> SetsLimit(input, sub.sid, max.value)
    ensures StepEvolves(s, Idle(Unsubscribed(s, sub, max)), sid, input)
  {
    LimitedFind(s.subscriptions, sub, max, sid);
  }

  lemma AcceptedEvolves(s: State, command: Command, t: Transition, sid: int)
    requires Inv(s) && sid < s.nextSid && Accepted(s, command, t)
    ensures StepEvolves(s, t, sid, Do(command))
  {
    match command
    case Subscribe(subject, queueGroup) =>
      var sub := Subscription(s.nextSid, subject, queueGroup, None, 0);
      assert ([sub] + s.subscriptions)[1..] == s.subscriptions;
    case Unsubscribe(k) => UnsubscribedEvolves(s, Find(s.subscriptions, k).value, None, sid, Do(command));
    case AutoUnsubscribe(k, max) => UnsubscribedEvolves(s, Find(s.subscriptions, k).value, Some(max), sid, Do(command));
    case _ =>
  }

  lemma ShapedEvolves(s: State, input: Input, t: Transition, sid: int)
    requires Inv(s) && sid < s.nextSid && Shaped(s, input, t)
    ensures StepEvolves(s, t, sid, input)
  {
    if t != Idle(s) {
      match input
      case Do(command) => AcceptedEvolves(s, command, t, sid);
      case Receive(now, read) => if read.Ok? { HandledEvolves(s, now, read.value, t, sid, input); }
      case Drop(k) => FindRemove(s.subscriptions, k, sid);
      case _ =>
    }
  }

  // ---- What ends a subscription ----

  predicate PongEnds(s: State, sid: int) {
    var taken := TakePing(s.pings);
    taken.Some? && (taken.value.0 == SubscriptionDrain(sid) || taken.value.0 == DrainBarrier)
  }

  /** The inputs that end a live subscription: an unsubscribe, a limit already used up, a forget, the last message of
      a limit, or the PONG of its own drain or of the connection's. */
  predicate EndedBy(s: State, input: Input, sub: Subscription) {
    match input
    case Do(Unsubscribe(sid)) => sid == sub.sid && Open(s)
    case Do(AutoUnsubscribe(sid, max)) => sid == sub.sid && Open(s) && 0 < max <= sub.delivered
    case Drop(sid) => sid == sub.sid
    case Receive(_, Ok(Pong)) => InSession(s) && PongEnds(s, sub.sid)
    case Receive(_, Ok(Msg(sid, _))) => sid == sub.sid && InSession(s) && sub.remaining == Some(1)
    case Receive(_, Ok(Hmsg(sid, _, _))) => sid == sub.sid && InSession(s) && sub.remaining == Some(1)
    case _ => false
  }

  lemma AcceptedEnds(s: State, command: Command, t: Transition, sid: int)
    requires Inv(s) && Accepted(s, command, t) && Find(s.subscriptions, sid).Some?
    ensures Find(t.state.subscriptions, sid).None? <==> EndedBy(s, Do(command), Find(s.subscriptions, sid).value)
  {
    match command
    case Subscribe(subject, queueGroup) =>
      FindDescending(s.subscriptions, s.nextSid, sid);
      var sub := Subscription(s.nextSid, subject, queueGroup, None, 0);
      assert ([sub] + s.subscriptions)[1..] == s.subscriptions;
    case Unsubscribe(k) => LimitedFind(s.subscriptions, Find(s.subscriptions, k).value, None, sid);
    case AutoUnsubscribe(k, max) => LimitedFind(s.subscriptions, Find(s.subscriptions, k).value, Some(max), sid);
    case _ =>
  }

  lemma PongEndsExactly(s: State, now: nat, sid: int)
    requires Find(s.subscriptions, sid).Some?
    ensures Find(HandlePong(s, now).state.subscriptions, sid).None? <==> PongEnds(s, sid)
  {
    var taken := TakePing(s.pings);
    if taken.Some? && taken.value.0.SubscriptionDrain? {
      FindRemove(s.subscriptions, taken.value.0.sid, sid);
    }
  }

  lemma HandledEnds(s: State, now: nat, op: O.Op, t: Transition, sid: int)
    requires Handled(s, now, op, t) && Find(s.subscriptions, sid).Some?
    ensures Find(t.state.subscriptions, sid).None? <==>
            EndedBy(s, Receive(now, Ok(op)), Find(s.subscriptions, sid).value)
  {
    match op
    case Pong => PongEndsExactly(s, now, sid);
    case Msg(k, message) => MessageFind(s, now, Delivery(k, message, None, false), sid);
    case Hmsg(k, message, status) => MessageFind(s, now, Delivery(k, message, status, true), sid);
    case _ =>
  }

  lemma ShapedEnds(s: State, input: Input, t: Transition, sid: int)
    requires Inv(s) && Shaped(s, input, t) && Find(s.subscriptions, sid).Some?
    ensures Find(t.state.subscriptions, sid).None? ==> EndedBy(s, input, Find(s.subscriptions, sid).value)
  {
    if t != Idle(s) {
      match input
      case Do(command) => AcceptedEnds(s, command, t, sid);
      case Receive(now, read) => if read.Ok? { HandledEnds(s, now, read.value, t, sid); }
      case Drop(k) => FindRemove(s.subscriptions, k, sid);
      case _ =>
    }
  }

  lemma EveryStepEvolves(json: Json, s: State, input: Input, sid: int)
    requires Inv(s) && sid < s.nextSid
    ensures StepEvolves(s, Step(json, s, input), sid, input)
    ensures Find(s.subscriptions, sid).Some? && Find(Step(json, s, input).state.subscriptions, sid).None? ==>
              EndedBy(s, input, Find(s.subscriptions, sid).value)
  {
    StepShaped(json, s, input);
    ShapedEvolves(s, input, Step(json, s, input), sid);
    if Find(s.subscriptions, sid).Some? {
      ShapedEnds(s, input, Step(json, s, input), sid);
    }
  }

  lemma CommandEnds(json: Json, s: State, command: Command, sid: int)
    requires Inv(s) && s.nextSid <= MAX_INT && Find(s.subscriptions, sid).Some?
    requires EndedBy(s, Do(command), Find(s.subscriptions, sid).value)
    ensures Find(Settle(s, Outgoing(json, s, command)).state.subscriptions, sid).None?
  {
    AcceptedExactly(json, s, command);
    CommandShaped(json, s, command);
    AcceptedEnds(s, command, Outgoing(json, s, command).value, sid);
  }

  lemma OperationEnds(json: Json, s: State, now: nat, op: O.Op, sid: int)
    requires Inv(s) && Find(s.subscriptions, sid).Some?
    requires EndedBy(s, Receive(now, Ok(op)), Find(s.subscriptions, sid).value)
    ensures Find(Settle(s, HandleOperation(json, s, now, op)).state.subscriptions, sid).None?
  {
    assert HandleOperation(json, s, now, op).Ok?;
    OperationShaped(json, s, now, op);
    HandledEnds(s, now, op, HandleOperation(json, s, now, op).value, sid);
  }

  /** A step ends a live subscription exactly when its input is one of those that do. */
  lemma EndedExactly(json: Json, s: State, input: Input, sid: int)
    requires Inv(s) && s.nextSid <= MAX_INT && Find(s.subscriptions, sid).Some?
    ensures Find(Step(json, s, input).state.subscriptions, sid).None? <==>
            EndedBy(s, input, Find(s.subscriptions, sid).value)
  {
    FindDescending(s.subscriptions, s.nextSid, sid);
    EveryStepEvolves(json, s, input, sid);
    if EndedBy(s, input, Find(s.subscriptions, sid).value) {
      match input
      case Do(command) => CommandEnds(json, s, command, sid);
      case Receive(now, read) => OperationEnds(json, s, now, read.value, sid);
      case Drop(k) => FindRemove(s.subscriptions, k, sid);
    }
  }

  ghost predicate IssuesNext(s: State, t: Transition) {
    if t.subscriptionId.Some? then
      t.subscriptionId.value == s.nextSid && t.state.nextSid == s.nextSid + 1 && t.deliveries == []
      && Find(t.state.subscriptions, s.nextSid).Some?
      && Find(t.state.subscriptions, s.nextSid).value.delivered == 0
    else t.state.nextSid == s.nextSid
  }

  lemma ShapedIssues(s: State, input: Input, t: Transition)
    requires Shaped(s, input, t)
    ensures IssuesNext(s, t)
  {
  }

  /** Only a subscribe hands out an id, the next one, for a subscription with nothing delivered. */
  lemma StepIssues(json: Json, s: State, input: Input)
    requires Inv(s)
    ensures IssuesNext(s, Step(json, s, input))
  {
    StepShaped(json, s, input);
    ShapedIssues(s, input, Step(json, s, input));
  }

  ghost predicate DeliversLive(s: State, t: Transition) {
    t.deliveries == [] || exists d :: t.deliveries == [d] && Find(s.subscriptions, d.sid).Some?
  }

  lemma ShapedDelivers(s: State, input: Input, t: Transition)
    requires Shaped(s, input, t)
    ensures DeliversLive(s, t)
  {
  }

  /** A delivery names a subscription that was live before the step. */
  lemma DeliveryIsLive(json: Json, s: State, input: Input)
    requires Inv(s)
    ensures DeliversLive(s, Step(json, s, input))
  {
    StepShaped(json, s, input);
    ShapedDelivers(s, input, Step(json, s, input));
  }

  // ---- Ids over whole runs ----

  /** Ids are handed out one after the other, so none is handed out twice. */
  lemma {:induction false} IssuedExact(json: Json, s: State, inputs: seq<Input>)
    requires Inv(s)
    ensures var ids := Issued(json, s, inputs);
            Run(json, s, inputs).nextSid == s.nextSid + |ids| && forall i :: 0 <= i < |ids| ==> ids[i] == s.nextSid + i
    decreases inputs
  {
    if inputs != [] {
      StepKeeps(json, s, inputs[0]);
      StepIssues(json, s, inputs[0]);
      IssuedExact(json, Step(json, s, inputs[0]).state, inputs[1..]);
    }
  }

  /** An id once retired stays retired: no later message is delivered on it, whatever the server sends. */
  lemma {:induction false} RetiredForGood(json: Json, s: State, inputs: seq<Input>, sid: int)
    requires Inv(s) && sid < s.nextSid && Find(s.subscriptions, sid).None?
    ensures Delivered(json, s, inputs, sid) == 0 && sid !in Issued(json, s, inputs)
    ensures Find(Run(json, s, inputs).subscriptions, sid).None?
    decreases inputs
  {
    if inputs != [] {
      StepKeeps(json, s, inputs[0]);
      StepIssues(json, s, inputs[0]);
      EveryStepEvolves(json, s, inputs[0], sid);
      RetiredForGood(json, Step(json, s, inputs[0]).state, inputs[1..], sid);
    }
  }

  /** A live id keeps its filter and queue group and counts exactly the messages delivered on it. */
  lemma {:induction false} LiveStaysItself(json: Json, s: State, inputs: seq<Input>, sid: int)
    requires Inv(s) && Find(s.subscriptions, sid).Some? && Find(Run(json, s, inputs).subscriptions, sid).Some?
    ensures var sub, sub' := Find(s.subscriptions, sid).value, Find(Run(json, s, inputs).subscriptions, sid).value;
            && sub'.subject == sub.subject && sub'.queueGroup == sub.queueGroup
            && sub'.delivered == sub.delivered + Delivered(json, s, inputs, sid)
    decreases inputs
  {
    if inputs != [] {
      FindDescending(s.subscriptions, s.nextSid, sid);
      StepKeeps(json, s, inputs[0]);
      StepIssues(json, s, inputs[0]);
      EveryStepEvolves(json, s, inputs[0], sid);
      var next := Step(json, s, inputs[0]).state;
      if Find(next.subscriptions, sid).None? {
        RetiredForGood(json, next, inputs[1..], sid);
      } else {
        LiveStaysItself(json, next, inputs[1..], sid);
      }
    }
  }

  lemma ShapedNothing(s: State, t: Transition, sid: int)
    requires Inv(s) && s.nextSid <= sid && IssuesNext(s, t) && DeliversLive(s, t)
    ensures CountSid(t.deliveries, sid) == 0
            && (sid < t.state.nextSid ==> Find(t.state.subscriptions, sid).Some?
                                          && Find(t.state.subscriptions, sid).value.delivered == 0)
  {
    FindAbove(s.subscriptions, s.nextSid, sid);
  }

  lemma NothingBeforeIssue(json: Json, s: State, input: Input, sid: int)
    requires Inv(s) && s.nextSid <= sid
    ensures var t := Step(json, s, input);
            CountSid(t.deliveries, sid) == 0
            && (sid < t.state.nextSid ==> Find(t.state.subscriptions, sid).Some?
                                          && Find(t.state.subscriptions, sid).value.delivered == 0)
  {
    StepIssues(json, s, input);
    DeliveryIsLive(json, s, input);
    ShapedNothing(s, Step(json, s, input), sid);
  }

  /** No message is delivered on an id before it is issued. */
  lemma {:induction false} CountsFromIssue(json: Json, s: State, inputs: seq<Input>, sid: int)
    requires Inv(s) && s.nextSid <= sid && Find(Run(json, s, inputs).subscriptions, sid).Some?
    ensures Find(Run(json, s, inputs).subscriptions, sid).value.delivered == Delivered(json, s, inputs, sid)
    decreases inputs
  {
    FindAbove(s.subscriptions, s.nextSid, sid);
    if inputs != [] {
      StepKeeps(json, s, inputs[0]);
      NothingBeforeIssue(json, s, inputs[0], sid);
      var next := Step(json, s, inputs[0]).state;
      if sid < next.nextSid {
        LiveStaysItself(json, next, inputs[1..], sid);
      } else {
        CountsFromIssue(json, next, inputs[1..], sid);
      }
    }
  }

  /** No input of the run ends the subscription in the state it meets. */
  ghost predicate Spared(json: Json, s: State, inputs: seq<Input>, sid: int)
    requires Inv(s)
    decreases inputs
  {
    if inputs == [] then true
    else
      StepKeeps(json, s, inputs[0]);
      var sub := Find(s.subscriptions, sid);
      (sub.Some? ==> !EndedBy(s, inputs[0], sub.value)) && Spared(json, Step(json, s, inputs[0]).state, inputs[1..], sid)
  }

  /** A live subscription lives through a run exactly when nothing in the run ends it. */
  lemma {:induction false} LivesExactly(json: Json, s: State, inputs: seq<Input>, sid: int)
    requires Inv(s) && Run(json, s, inputs).nextSid <= MAX_INT && Find(s.subscriptions, sid).Some?
    ensures Find(Run(json, s, inputs).subscriptions, sid).Some? <==> Spared(json, s, inputs, sid)
    decreases inputs
  {
    if inputs != [] {
      FindDescending(s.subscriptions, s.nextSid, sid);
      IssuedExact(json, s, inputs);
      StepKeeps(json, s, inputs[0]);
      StepIssues(json, s, inputs[0]);
      EndedExactly(json, s, inputs[0], sid);
      var next := Step(json, s, inputs[0]).state;
      if Find(next.subscriptions, sid).None? {
        RetiredForGood(json, next, inputs[1..], sid);
      } else {
        LivesExactly(json, next, inputs[1..], sid);
      }
    }
  }

  // ---- Limits over whole runs ----

  /** Every limit the run sets for this id is at most `limit`. */
  ghost predicate LimitsAtMost(inputs: seq<Input>, sid: int, limit: int) {
    forall i, m :: 0 <= i < |inputs| && SetsLimit(inputs[i], sid, m) ==> m <= limit
  }

  ghost predicate NoLimit(inputs: seq<Input>, sid: int) {
    forall i, m :: 0 <= i < |inputs| ==> !SetsLimit(inputs[i], sid, m)
  }

  /** Under a limit the deliveries still to come stay within what remains, across any number of sessions. */
  lemma {:induction false} WithinLimit(json: Json, s: State, inputs: seq<Input>, sid: int, limit: int)
    requires Inv(s) && Find(s.subscriptions, sid).Some?
    requires var sub := Find(s.subscriptions, sid).value;
             sub.remaining.Some? && sub.delivered + sub.remaining.value <= limit
    requires LimitsAtMost(inputs, sid, limit)
    ensures Find(s.subscriptions, sid).value.delivered + Delivered(json, s, inputs, sid) <= limit
    decreases inputs
  {
    var sub := Find(s.subscriptions, sid).value;
    FindDescending(s.subscriptions, s.nextSid, sid);
    if inputs != [] {
      StepKeeps(json, s, inputs[0]);
      StepIssues(json, s, inputs[0]);
      EveryStepEvolves(json, s, inputs[0], sid);
      var next := Step(json, s, inputs[0]).state;
      if Find(next.subscriptions, sid).None? {
        RetiredForGood(json, next, inputs[1..], sid);
      } else {
        WithinLimit(json, next, inputs[1..], sid, limit);
      }
    }
  }

  /** While no new limit is set, what was delivered and what remains add up to the limit, in every session. */
  lemma {:induction false} LimitConserved(json: Json, s: State, inputs: seq<Input>, sid: int)
    requires Inv(s) && Find(s.subscriptions, sid).Some? && Find(Run(json, s, inputs).subscriptions, sid).Some?
    requires Find(s.subscriptions, sid).value.remaining.Some? && NoLimit(inputs, sid)
    ensures var sub, sub' := Find(s.subscriptions, sid).value, Find(Run(json, s, inputs).subscriptions, sid).value;
            && sub'.remaining.Some?
            && sub'.delivered + sub'.remaining.value == sub.delivered + sub.remaining.value
            && Delivered(json, s, inputs, sid) + sub'.remaining.value == sub.remaining.value
    decreases inputs
  {
    if inputs != [] {
      FindDescending(s.subscriptions, s.nextSid, sid);
      StepKeeps(json, s, inputs[0]);
      StepIssues(json, s, inputs[0]);
      EveryStepEvolves(json, s, inputs[0], sid);
      var next := Step(json, s, inputs[0]).state;
      if Find(next.subscriptions, sid).None? {
        RetiredForGood(json, next, inputs[1..], sid);
      } else {
        LimitConserved(json, next, inputs[1..], sid);
      }
    }
  }

  lemma {:induction false} RunPlus(json: Json, s: State, a: seq<Input>, b: seq<Input>, sid: int)
    requires Inv(s)
    ensures Run(json, s, a + b) == Run(json, Run(json, s, a), b)
    ensures Delivered(json, s, a + b, sid) == Delivered(json, s, a, sid) + Delivered(json, Run(json, s, a), b, sid)
    decreases a
  {
    if a == [] {
      assert a + b == b;
    } else {
      assert (a + b)[1..] == a[1..] + b;
      StepKeeps(json, s, a[0]);
      RunPlus(json, Step(json, s, a[0]).state, a[1..], b, sid);
    }
  }

  /** Once a limit not yet used up is accepted, the whole run, from the first session on, delivers at most that
      many messages on the id, provided no later limit is higher. */
  lemma AtMostInTotal(json: Json, config: Config, before: seq<Input>, limit: int63, after: seq<Input>, sid: int)
    requires Inv(Create(config))
    requires var s := Run(json, Create(config), before);
             Find(s.subscriptions, sid).Some? && Find(s.subscriptions, sid).value.delivered < limit
             && Outgoing(json, s, AutoUnsubscribe(sid, limit)).Ok?
    requires LimitsAtMost(after, sid, limit)
    ensures Delivered(json, Create(config), before + ([Do(AutoUnsubscribe(sid, limit))] + after), sid) <= limit
  {
    var s0, input := Create(config), Do(AutoUnsubscribe(sid, limit));
    var s := Run(json, s0, before);
    FindDescending(s.subscriptions, s.nextSid, sid);
    CountsFromIssue(json, s0, before, sid);
    RunPlus(json, s0, before, [input] + after, sid);
    assert ([input] + after)[1..] == after;
    StepKeeps(json, s, input);
    LimitAccepted(json, s, sid, limit);
    WithinLimit(json, Step(json, s, input).state, after, sid, limit);
  }

  lemma LimitAccepted(json: Json, s: State, sid: int, limit: int63)
    requires Inv(s) && Find(s.subscriptions, sid).Some? && Find(s.subscriptions, sid).value.delivered < limit
    requires Outgoing(json, s, AutoUnsubscribe(sid, limit)).Ok?
    ensures var t := Step(json, s, Do(AutoUnsubscribe(sid, limit)));
            var sub := Find(s.subscriptions, sid).value;
            && t.deliveries == []
            && Find(t.state.subscriptions, sid) == Some(sub.(remaining := Some(limit - sub.delivered)))
  {
    CommandShaped(json, s, AutoUnsubscribe(sid, limit));
    AcceptedLimits(s, sid, limit, Outgoing(json, s, AutoUnsubscribe(sid, limit)).value);
  }

  lemma AcceptedLimits(s: State, sid: int, limit: int63, t: Transition)
    requires Find(s.subscriptions, sid).Some? && Find(s.subscriptions, sid).value.delivered < limit
    requires Accepted(s, AutoUnsubscribe(sid, limit), t)
    ensures var sub := Find(s.subscriptions, sid).value;
            && t.deliveries == []
            && Find(t.state.subscriptions, sid) == Some(sub.(remaining := Some(limit - sub.delivered)))
  {
    LimitedFind(s.subscriptions, Find(s.subscriptions, sid).value, Some(limit), sid);
  }
}
