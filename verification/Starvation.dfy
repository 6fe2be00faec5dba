/** A run in which raising a limit starves a subscription: what the theorem on limits leaves out does happen. */
module Starvation {
  import opened Base
  import Subject
  import O = Op
  import opened Client
  import opened Invariant
  import opened Wire
  import opened Shape
  import opened Server
  import opened Network
  import Decimal
  import Feeding

  /** The whole network but for its clocks and logs. */
  ghost predicate At(n: Net, phase: Phase, nextSid: int, subs: seq<Subscription>, up: seq<O.Op>, down: seq<O.Op>, table: Table) {
    && Inv(n.client) && n.client.phase == phase && n.client.nextSid == nextSid && n.client.subscriptions == subs
    && n.toServer == up && n.toClient == down && n.table == table && n.drained == {}
  }

  lemma InfoArrives(json: Json, n: Net, now: nat, text: string)
    requires At(n, AwaitingInfo, 1, [], [], [O.Info(text)], map[]) && json.infoOf(text).Ok?
    ensures Enabled(json, n, ClientReceives(now))
    ensures At(Next(json, n, ClientReceives(now)), AwaitingConnect, 1, [], [], [], map[])
  {
    var input := Receive(now, Ok(O.Info(text)));
    assert HandleOperation(json, n.client, now, O.Info(text)).Ok?;
    StepKeeps(json, n.client, input);
    OperationHeard(json, n.client, now, O.Info(text));
  }

  lemma Connects(json: Json, n: Net, credentials: Credentials)
    requires At(n, AwaitingConnect, 1, [], [], [], map[])
    requires var text := json.connectText(ConnectValue(n.client, n.client.info.value, credentials, false));
             text.Ok? && ConnectFits(text.value)
    ensures Enabled(json, n, ClientMoves(Do(Command.Connect(credentials, false))))
    ensures var n' := Next(json, n, ClientMoves(Do(Command.Connect(credentials, false))));
            At(n', Connected, 1, [], n'.toServer, [], map[]) && |n'.toServer| == 1 && n'.toServer[0].Connect?
  {
    var command := Command.Connect(credentials, false);
    ConnectExactly(json, n.client, credentials, false);
    ReplayRebuilds(json, n.client, credentials, false);
    StepKeeps(json, n.client, Do(command));
  }

  lemma Processes(json: Json, n: Net, nextSid: int, subs: seq<Subscription>, op: O.Op, table: Table)
    requires At(n, Connected, nextSid, subs, [op], [], table) && !op.Ping?
    ensures Enabled(json, n, ServerProcesses)
    ensures At(Next(json, n, ServerProcesses), Connected, nextSid, subs, [], [], Process(table, op))
  {
    assert [op][1..] == [] && n.toClient + [] == n.toClient;
  }

  function First(subject: Subject.Filter): Subscription {
    Subscription(1, subject, None, None, 0)
  }

  lemma Subscribes(json: Json, n: Net, subject: Subject.Filter)
    requires At(n, Connected, 1, [], [], [], map[]) && SubFits(First(subject))
    ensures Enabled(json, n, ClientMoves(Do(Subscribe(subject, None))))
    ensures At(Next(json, n, ClientMoves(Do(Subscribe(subject, None)))), Connected, 2, [First(subject)],
               [O.Sub(subject, None, 1)], [], map[])
  {
    CommandMoves(json, n, Subscribe(subject, None));
  }

  lemma LimitedOne(sub: Subscription)
    requires sub.delivered == 0
    ensures Find([sub], sub.sid) == Some(sub) && Limited([sub], sub, Some(1)) == [sub.(remaining := Some(1))]
  {
    var limited := sub.(remaining := Some(1));
    assert [sub][1..] == [];
    assert Replace([sub], limited) == [limited] + Replace([], limited);
  }

  lemma LimitedState(s: State, sub: Subscription, t: Transition)
    requires s.phase == Connected && s.subscriptions == [sub] && sub.sid == 1 && sub.delivered == 0
    requires Accepted(s, AutoUnsubscribe(1, 1), t)
    ensures t.state.phase == Connected && t.state.nextSid == s.nextSid
            && t.state.subscriptions == [sub.(remaining := Some(1))]
  {
    LimitedOne(sub);
  }

  lemma Limits(json: Json, n: Net, subject: Subject.Filter, table: Table)
    requires At(n, Connected, 2, [First(subject)], [], [], table)
    ensures Enabled(json, n, ClientMoves(Do(AutoUnsubscribe(1, 1))))
    ensures At(Next(json, n, ClientMoves(Do(AutoUnsubscribe(1, 1)))), Connected, 2,
               [First(subject).(remaining := Some(1))], [O.Unsub(1, Some(1))], [], table)
  {
    var command := AutoUnsubscribe(1, 1);
    LimitedOne(First(subject));
    CommandMoves(json, n, command);
    LimitedState(n.client, First(subject), Step(json, n.client, Do(command)));
    Feeding.LimitHeard(n.client, Decoded(Step(json, n.client, Do(command)).output), 1, 1);
  }

  lemma LastSent(json: Json, n: Net, sub: Subscription, subject: Subject.Filter, d: Delivery)
    requires At(n, Connected, 2, [sub], [], [], map[1 := ServerSub(subject, None, 0, Some(1))])
    requires d.sid == 1 && !d.headerBlock && d.status.None?
    ensures Enabled(json, n, ServerSends(d))
    ensures At(Next(json, n, ServerSends(d)), Connected, 2, [sub], [], [OpOf(d)], map[])
  {
    assert map[1 := ServerSub(subject, None, 0, Some(1))] - {1} == map[];
  }

  /** Five messages are asked for when the one message of the old limit is on its way and the server is done. */
  lemma TooLate(json: Json, n: Net, sub: Subscription, d: Delivery)
    requires At(n, Connected, 2, [sub], [], [OpOf(d)], map[]) && sub.sid == 1 && sub.delivered == 0 && d.sid == 1
    requires !d.headerBlock && d.status.None?
    ensures Enabled(json, n, ClientMoves(Do(AutoUnsubscribe(1, 5))))
    ensures !Feeding.Sufficient(Next(json, n, ClientMoves(Do(AutoUnsubscribe(1, 5)))), 1)
  {
    Feeding.LimitIsSent(json, n, 5, 1);
    Feeding.LimitTooLate(n, Next(json, n, ClientMoves(Do(AutoUnsubscribe(1, 5)))), 5, 1);
    Feeding.PutOn([], [OpOf(d)], 1);
    assert [] + [OpOf(d)] == [OpOf(d)];
  }

  // ---- The run ----

  lemma Greets(json: Json, config: Config, text: string) returns (moves: seq<Move>)
    requires json.infoOf(text).Ok?
    ensures CanRun(json, Start(config), moves)
    ensures At(RunNet(json, Start(config), moves), AwaitingConnect, 1, [], [], [], map[])
  {
    var start := Start(config);
    RunThen(json, start, [], ServerSays(O.Info(text)));
    moves := [] + [ServerSays(O.Info(text))];
    InfoArrives(json, RunNet(json, start, moves), 0, text);
    RunThen(json, start, moves, ClientReceives(0));
    moves := moves + [ClientReceives(0)];
  }

  lemma Introduces(json: Json, config: Config, before: seq<Move>, credentials: Credentials) returns (moves: seq<Move>)
    requires CanRun(json, Start(config), before)
    requires At(RunNet(json, Start(config), before), AwaitingConnect, 1, [], [], [], map[])
    requires forall value :: json.connectText(value).Ok? && ConnectFits(json.connectText(value).value)
    ensures CanRun(json, Start(config), moves)
    ensures var n := RunNet(json, Start(config), moves);
            At(n, Connected, 1, [], n.toServer, [], map[]) && |n.toServer| == 1 && n.toServer[0].Connect?
  {
    var connect := ClientMoves(Do(Command.Connect(credentials, false)));
    Connects(json, RunNet(json, Start(config), before), credentials);
    RunThen(json, Start(config), before, connect);
    moves := before + [connect];
  }

  lemma HearsConnect(json: Json, n: Net)
    requires At(n, Connected, 1, [], n.toServer, [], map[]) && |n.toServer| == 1 && n.toServer[0].Connect?
    ensures Enabled(json, n, ServerProcesses)
    ensures At(Next(json, n, ServerProcesses), Connected, 1, [], [], [], map[])
  {
    assert n.toServer == [n.toServer[0]];
    Processes(json, n, 1, [], n.toServer[0], map[]);
  }

  lemma Establishes(json: Json, config: Config, text: string, credentials: Credentials) returns (moves: seq<Move>)
    requires json.infoOf(text).Ok?
    requires forall value :: json.connectText(value).Ok? && ConnectFits(json.connectText(value).value)
    ensures CanRun(json, Start(config), moves) && At(RunNet(json, Start(config), moves), Connected, 1, [], [], [], map[])
  {
    var greeted := Greets(json, config, text);
    var connected := Introduces(json, config, greeted, credentials);
    HearsConnect(json, RunNet(json, Start(config), connected));
    RunThen(json, Start(config), connected, ServerProcesses);
    moves := connected + [ServerProcesses];
  }

  function Serving(subject: Subject.Filter, max: Option<int>): Table {
    map[1 := ServerSub(subject, None, 0, max)]
  }

  lemma Takes(json: Json, start: Net, before: seq<Move>, subject: Subject.Filter) returns (moves: seq<Move>)
    requires CanRun(json, start, before) && At(RunNet(json, start, before), Connected, 1, [], [], [], map[])
    requires SubFits(First(subject))
    ensures CanRun(json, start, moves)
    ensures At(RunNet(json, start, moves), Connected, 2, [First(subject)], [], [], Serving(subject, None))
  {
    var command := ClientMoves(Do(Subscribe(subject, None)));
    Subscribes(json, RunNet(json, start, before), subject);
    RunThen(json, start, before, command);
    Processes(json, RunNet(json, start, before + [command]), 2, [First(subject)], O.Sub(subject, None, 1), map[]);
    RunThen(json, start, before + [command], ServerProcesses);
    moves := before + [command] + [ServerProcesses];
  }

  lemma ServingLimited(subject: Subject.Filter)
    ensures Process(Serving(subject, None), O.Unsub(1, Some(1))) == Serving(subject, Some(1))
  {
  }

  lemma LimitHeld(json: Json, start: Net, before: seq<Move>, subject: Subject.Filter)
    requires CanRun(json, start, before)
    requires At(RunNet(json, start, before), Connected, 2, [First(subject)], [], [], Serving(subject, None))
    ensures var moves := before + [ClientMoves(Do(AutoUnsubscribe(1, 1)))];
            CanRun(json, start, moves)
            && At(RunNet(json, start, moves), Connected, 2, [First(subject).(remaining := Some(1))],
                  [O.Unsub(1, Some(1))], [], Serving(subject, None))
  {
    Limits(json, RunNet(json, start, before), subject, Serving(subject, None));
    RunThen(json, start, before, ClientMoves(Do(AutoUnsubscribe(1, 1))));
  }

  lemma TakesLimit(json: Json, start: Net, before: seq<Move>, subject: Subject.Filter) returns (moves: seq<Move>)
    requires CanRun(json, start, before)
    requires At(RunNet(json, start, before), Connected, 2, [First(subject)], [], [], Serving(subject, None))
    ensures CanRun(json, start, moves)
    ensures At(RunNet(json, start, moves), Connected, 2, [First(subject).(remaining := Some(1))], [], [],
               Serving(subject, Some(1)))
  {
    var limited := before + [ClientMoves(Do(AutoUnsubscribe(1, 1)))];
    LimitHeld(json, start, before, subject);
    Processes(json, RunNet(json, start, limited), 2, [First(subject).(remaining := Some(1))], O.Unsub(1, Some(1)),
              Serving(subject, None));
    ServingLimited(subject);
    RunThen(json, start, limited, ServerProcesses);
    moves := limited + [ServerProcesses];
  }

  /** From an established connection: subscribe, limit to one, and let the server hear both and send the one. */
  lemma UsesUp(json: Json, start: Net, before: seq<Move>, subject: Subject.Filter, d: Delivery) returns (moves: seq<Move>)
    requires CanRun(json, start, before) && At(RunNet(json, start, before), Connected, 1, [], [], [], map[])
    requires SubFits(First(subject)) && d.sid == 1 && !d.headerBlock && d.status.None?
    ensures CanRun(json, start, moves)
    ensures At(RunNet(json, start, moves), Connected, 2, [First(subject).(remaining := Some(1))], [], [OpOf(d)], map[])
  {
    var taken := Takes(json, start, before, subject);
    var limited := TakesLimit(json, start, taken, subject);
    LastSent(json, RunNet(json, start, limited), First(subject).(remaining := Some(1)), subject, d);
    RunThen(json, start, limited, ServerSends(d));
    moves := limited + [ServerSends(d)];
  }

  /** Whatever the configuration, the subject and the message, there is a run from the start, with its one message in
      flight, at whose end raising the limit from one to five starves the subscription. */
  lemma RaisingStarves(json: Json, config: Config, text: string, credentials: Credentials, subject: Subject.Filter,
                       message: O.Message)
    returns (moves: seq<Move>)
    requires json.infoOf(text).Ok? && SubFits(First(subject))
    requires forall value :: json.connectText(value).Ok? && ConnectFits(json.connectText(value).value)
    ensures CanRun(json, Start(config), moves)
    ensures !Feeding.Sufficient(RunNet(json, Start(config), moves), 1)
    ensures moves != [] && moves[|moves| - 1] == ClientMoves(Do(AutoUnsubscribe(1, 5)))
  {
    var d := Delivery(1, message, None, false);
    var first := Establishes(json, config, text, credentials);
    var second := UsesUp(json, Start(config), first, subject, d);
    TooLate(json, RunNet(json, Start(config), second), First(subject).(remaining := Some(1)), d);
    NextKeeps(json, RunNet(json, Start(config), second), AutoUnsubscribe(1, 5));
    RunThen(json, Start(config), second, ClientMoves(Do(AutoUnsubscribe(1, 5))));
    moves := second + [ClientMoves(Do(AutoUnsubscribe(1, 5)))];
  }

  lemma NextKeeps(json: Json, n: Net, command: Command)
    requires Inv(n.client) && Enabled(json, n, ClientMoves(Do(command)))
    ensures Inv(Next(json, n, ClientMoves(Do(command))).client)
  {
    StepKeeps(json, n.client, Do(command));
  }

  /** One such run, with nothing left open: a minimal server and the subject "a". */
  lemma StarvedRun() returns (json: Json, config: Config, moves: seq<Move>)
    ensures CanRun(json, Start(config), moves) && !Feeding.Sufficient(RunNet(json, Start(config), moves), 1)
  {
    config := Config(None, true, false, true, None, 2);
    json := Json(_ => Ok(Info(1, false, false, "")), _ => Ok("{}"));
    var subject: Subject.Filter, reply: Option<Subject.Subject> := "a", None;
    SmallFits(subject);
    var credentials := Credentials(None, None, None, None, None, None);
    moves := RaisingStarves(json, config, "", credentials, subject, O.Message("a", reply, [], ""));
  }

  lemma SmallFits(subject: Subject.Filter)
    requires |subject| == 1
    ensures SubFits(First(subject)) && ConnectFits("{}")
  {
    Decimal.MachineIntLength(1);
  }
}
