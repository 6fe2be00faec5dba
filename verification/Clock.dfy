/** The liveness deadline over whole runs: one interval after the last activity, and what follows for a dead peer. */
module Clock {
  import opened Base
  import opened Codec
  import O = Op
  import opened Client
  import opened Invariant
  import opened Wire
  import opened Shape
  import opened Barriers
  import Conduct

  /** One interval after `now`, if an interval is set and 64 bits can express it. */
  predicate Resets(config: Config, now: nat, deadline: Option<nat>) {
    match config.pingInterval
    case None => deadline.None?
    case Some(interval) =>
      deadline == if now + interval <= 0xFFFF_FFFF_FFFF_FFFF then Some(now + interval) else None
  }

  /** A message on an id that is not live. */
  predicate Stray(s: State, op: O.Op) {
    (op.Msg? || op.Hmsg?) && Find(s.subscriptions, op.sid).None?
  }

  /** Every accepted operation but a stray message moves the deadline; a stray message changes nothing. */
  lemma ActivityExactly(json: Json, s: State, now: nat, op: O.Op)
    requires HandleOperation(json, s, now, op).Ok?
    ensures var after := HandleOperation(json, s, now, op).value.state;
            after.config == s.config && if Stray(s, op) then after == s else Resets(s.config, now, after.nextPing)
  {
    OperationShaped(json, s, now, op);
    var t := HandleOperation(json, s, now, op).value;
    if op.Pong? {
      Conduct.PongExactly(json, s, now);
    }
  }

  predicate TimerDue(s: State, now: nat) {
    s.phase == Connected && s.nextPing.Some? && s.nextPing.value <= now
  }

  /** A timer that finds a PING due, however late, moves the deadline, unless it gives the peer up. */
  lemma TimerActivity(s: State, now: nat)
    ensures var after := Timer(s, now).state;
            && after.config == s.config
            && if !TimerDue(s, now) then after == s
               else if s.unanswered >= s.config.maxPings then after.phase == Closed && after.nextPing.None?
               else after.phase == Connected && Resets(s.config, now, after.nextPing)
  {
    TimerShaped(s, now);
  }

  /** No command moves the deadline; closing drops it. */
  lemma CommandLeavesClock(json: Json, s: State, command: Command)
    requires Inv(s) && Outgoing(json, s, command).Ok?
    ensures var after := Outgoing(json, s, command).value.state;
            && after.config == s.config && after.nextPing == (if command.Close? then None else s.nextPing)
            && (after.phase == Closed <==> command.Close?)
  {
    CommandShaped(json, s, command);
  }

  // ---- Over runs ----

  /** The input shows activity: the peer's, or the client's own liveness PING. */
  predicate Active(json: Json, s: State, input: Input) {
    match input
    case Receive(_, Ok(op)) => Conduct.Takes(json, s, op) && !Stray(s, op)
    case Tick(now) => TimerDue(s, now) && s.unanswered < s.config.maxPings
    case _ => false
  }

  /** The last activity since the last reconnect. */
  function Last(json: Json, s: State, input: Input, last: Option<nat>): Option<nat> {
    if input.Reconnect? then None else if Active(json, s, input) then Some(input.now) else last
  }

  ghost function LastActive(json: Json, s: State, inputs: seq<Input>, last: Option<nat>): Option<nat>
    requires Inv(s)
    decreases inputs
  {
    if inputs == [] then last
    else
      StepKeeps(json, s, inputs[0]);
      LastActive(json, Step(json, s, inputs[0]).state, inputs[1..], Last(json, s, inputs[0], last))
  }

  predicate Stamped(s: State, last: Option<nat>) {
    if s.phase == Closed || last.None? then s.nextPing.None? else Resets(s.config, last.value, s.nextPing)
  }

  lemma ReceiveStamps(json: Json, s: State, now: nat, read: Result<O.Op, CodecError>, last: Option<nat>)
    requires Inv(s) && Stamped(s, last)
    ensures var input := Receive(now, read);
            Stamped(Step(json, s, input).state, Last(json, s, input, last)) && Step(json, s, input).state.config == s.config
  {
    match read
    case Ok(op) =>
      Conduct.OperationTaken(json, s, now, op);
      if HandleOperation(json, s, now, op).Ok? {
        ActivityExactly(json, s, now, op);
        OperationNeverCloses(json, s, now, op);
      }
    case Error(e) => Conduct.ReadExactly(json, s, now, e);
  }

  lemma OperationNeverCloses(json: Json, s: State, now: nat, op: O.Op)
    requires HandleOperation(json, s, now, op).Ok?
    ensures s.phase != Closed && HandleOperation(json, s, now, op).value.state.phase != Closed
  {
    OperationShaped(json, s, now, op);
  }

  lemma StepStamps(json: Json, s: State, input: Input, last: Option<nat>)
    requires Inv(s) && Stamped(s, last)
    ensures Stamped(Step(json, s, input).state, Last(json, s, input, last)) && Step(json, s, input).state.config == s.config
  {
    match input
    case Do(command) =>
      if Outgoing(json, s, command).Ok? {
        CommandLeavesClock(json, s, command);
        ClosedTakesNothing(json, s, command);
      }
    case Receive(now, read) => ReceiveStamps(json, s, now, read, last);
    case Tick(now) => TimerActivity(s, now);
    case Drop(sid) => Conduct.ForgetExactly(json, s, sid);
    case Reconnect(preserve) => Conduct.ReconnectExactly(json, s, preserve);
  }

  lemma ClosedTakesNothing(json: Json, s: State, command: Command)
    requires Inv(s)
    ensures s.phase == Closed ==> Outgoing(json, s, command).Error?
  {
  }

  lemma {:induction false} RunStamps(json: Json, s: State, inputs: seq<Input>, last: Option<nat>)
    requires Inv(s) && Stamped(s, last)
    ensures Stamped(Run(json, s, inputs), LastActive(json, s, inputs, last)) && Run(json, s, inputs).config == s.config
    decreases inputs
  {
    if inputs != [] {
      StepKeeps(json, s, inputs[0]);
      StepStamps(json, s, inputs[0], last);
      RunStamps(json, Step(json, s, inputs[0]).state, inputs[1..], Last(json, s, inputs[0], last));
    }
  }

  /** In every run the connected client asks for a wake-up exactly one interval after the last activity of the
      session; with no interval, or one the clock cannot express, or outside a connection, it asks for none. */
  lemma DeadlineExactly(json: Json, config: Config, inputs: seq<Input>)
    ensures Inv(Create(config))
    ensures var s, last := Run(json, Create(config), inputs), LastActive(json, Create(config), inputs, None);
            if s.phase != Connected || last.None? then NextTimeout(s).None?
            else Resets(config, last.value, NextTimeout(s))
  {
    RunStamps(json, Create(config), inputs, None);
  }

  // ---- A dead peer, from its last activity ----

  function GivenUpAt(s: State, at: nat): int
    requires s.config.pingInterval.Some?
  {
    at + (s.config.maxPings - s.unanswered + 1) * s.config.pingInterval.value
  }

  lemma DeadlineFrom(s: State, at: nat, n: nat)
    requires s.config.pingInterval.Some? && s.nextPing == Some(at + s.config.pingInterval.value)
    ensures var due := at + (n + 1) * s.config.pingInterval.value;
            Deadline(s, n) == if due <= 0xFFFF_FFFF_FFFF_FFFF then Some(due) else None
  {
    MulStep(n + 1, s.config.pingInterval.value);
  }

  lemma Sooner(at: nat, n: nat, i: nat)
    ensures at + i <= at + (n + 1) * i
  {
    MulStep(n + 1, i);
    MulMonotone(0, n, i);
  }

  ghost predicate LastHeard(s: State, at: nat) {
    Inv(s) && s.phase == Connected && s.config.pingInterval.Some? && Resets(s.config, at, s.nextPing)
  }

  lemma HeardWatching(s: State, at: nat)
    requires LastHeard(s, at) && GivenUpAt(s, at) <= 0xFFFF_FFFF_FFFF_FFFF
    ensures Watching(s) && s.nextPing == Some(at + s.config.pingInterval.value) && ClockLasts(s)
  {
    var left := s.config.maxPings - s.unanswered;
    Sooner(at, left, s.config.pingInterval.value);
    DeadlineFrom(s, at, left);
  }

  /** The n-th wake-up of a silent peer comes n+1 intervals after the last activity and sends one more PING. */
  predicate Probes(s: State, at: nat, n: nat)
    requires s.config.pingInterval.Some?
  {
    && SilentTicks(s, n).phase == Connected
    && NextTimeout(SilentTicks(s, n)) == Some(at + (n + 1) * s.config.pingInterval.value)
    && Decoded(SilentTick(SilentTicks(s, n)).output) == [O.Ping]
  }

  lemma ProbesAt(s: State, at: nat, n: nat)
    requires LastHeard(s, at) && GivenUpAt(s, at) <= 0xFFFF_FFFF_FFFF_FFFF && n < s.config.maxPings - s.unanswered
    ensures Probes(s, at, n)
  {
    HeardWatching(s, at);
    EarlierDeadline(s, n, s.config.maxPings - s.unanswered);
    if n > 0 {
      EarlierDeadline(s, n - 1, n);
    }
    SilentState(s, n);
    DeadlineFrom(s, at, n);
    TickPings(SilentTicks(s, n));
  }

  lemma GivesUp(s: State, at: nat)
    requires LastHeard(s, at) && GivenUpAt(s, at) <= 0xFFFF_FFFF_FFFF_FFFF
    ensures var last := SilentTicks(s, s.config.maxPings - s.unanswered);
            last.phase == Connected && NextTimeout(last) == Some(GivenUpAt(s, at)) && Conduct.Closes(last, SilentTick(last))
  {
    var left := s.config.maxPings - s.unanswered;
    HeardWatching(s, at);
    DeadlineFrom(s, at, left);
    LastOne(s, left);
  }

  /** The remaining PINGs go out one interval apart, and the connection closes one interval after the last. */
  ghost predicate SilentUntil(s: State, at: nat)
    requires s.config.pingInterval.Some? && s.unanswered <= s.config.maxPings
  {
    var left := s.config.maxPings - s.unanswered;
    && (forall n :: 0 <= n < left ==> Probes(s, at, n))
    && SilentTicks(s, left).phase == Connected && NextTimeout(SilentTicks(s, left)) == Some(GivenUpAt(s, at))
    && Conduct.Closes(SilentTicks(s, left), SilentTick(SilentTicks(s, left)))
  }

  /** A connection last active at `at` with p PINGs unanswered, whose peer stays silent, sends exactly the remaining
      PINGs, one interval apart, and closes (maxPings - p + 1) intervals after `at`. */
  lemma SilentPeerClosed(s: State, at: nat)
    requires LastHeard(s, at) && GivenUpAt(s, at) <= 0xFFFF_FFFF_FFFF_FFFF
    ensures SilentUntil(s, at)
  {
    forall n: nat | n < s.config.maxPings - s.unanswered ensures Probes(s, at, n) {
      ProbesAt(s, at, n);
    }
    GivesUp(s, at);
  }

  /** It is ever given up if and only if the clock can express that moment. */
  lemma SilentPeerExactly(s: State, at: nat)
    requires LastHeard(s, at)
    ensures (exists n: nat :: SilentTicks(s, n).phase == Closed) <==> GivenUpAt(s, at) <= 0xFFFF_FFFF_FFFF_FFFF
  {
    var left := s.config.maxPings - s.unanswered;
    if s.nextPing.None? {
      Sooner(at, left, s.config.pingInterval.value);
      forall n: nat ensures SilentTicks(s, n).phase != Closed {
        StuckForever(s, n);
      }
    } else {
      DeadlineFrom(s, at, left);
      DeadPeerExactly(s);
    }
  }

  /** The same of any run: what counts is the last activity in it. */
  lemma DeadPeerAfterRun(json: Json, config: Config, inputs: seq<Input>)
    requires config.pingInterval.Some? && Inv(Create(config))
    requires Run(json, Create(config), inputs).phase == Connected && LastActive(json, Create(config), inputs, None).Some?
    ensures var s, at := Run(json, Create(config), inputs), LastActive(json, Create(config), inputs, None).value;
            && s.config == config
            && ((exists n: nat :: SilentTicks(s, n).phase == Closed) <==> GivenUpAt(s, at) <= 0xFFFF_FFFF_FFFF_FFFF)
            && (GivenUpAt(s, at) <= 0xFFFF_FFFF_FFFF_FFFF ==> SilentUntil(s, at))
  {
    RunStamps(json, Create(config), inputs, None);
    var s, at := Run(json, Create(config), inputs), LastActive(json, Create(config), inputs, None).value;
    SilentPeerExactly(s, at);
    if GivenUpAt(s, at) <= 0xFFFF_FFFF_FFFF_FFFF {
      SilentPeerClosed(s, at);
    }
  }
}
