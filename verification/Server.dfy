/** An abstract server: the SUB and UNSUB rules of the NATS client protocol. */
module Server {
  import opened Base
  import Subject
  import O = Op

  /** A subscription the server holds: how much it has sent, and after how much it will stop. */
  datatype ServerSub = ServerSub(subject: Subject.Filter, queueGroup: Option<Subject.Subject>, sent: nat, max: Option<int>)

  type Table = map<int, ServerSub>

  function Process(t: Table, op: O.Op): Table {
    match op
    case Sub(subject, queueGroup, sid) => if sid in t then t else t[sid := ServerSub(subject, queueGroup, 0, None)]
    case Unsub(sid, max) =>
      if sid !in t then t
      else if max.None? || t[sid].sent >= max.value then t - {sid}
      else t[sid := t[sid].(max := max)]
    case _ => t
  }

  function ProcessAll(t: Table, ops: seq<O.Op>): Table
    decreases ops
  {
    if ops == [] then t else ProcessAll(Process(t, ops[0]), ops[1..])
  }

  lemma {:induction false} ProcessAllPlus(t: Table, a: seq<O.Op>, b: seq<O.Op>)
    ensures ProcessAll(t, a + b) == ProcessAll(ProcessAll(t, a), b)
    decreases a
  {
    if a == [] {
      assert a + b == b;
    } else {
      assert (a + b)[1..] == a[1..] + b;
      ProcessAllPlus(Process(t, a[0]), a[1..], b);
    }
  }

  /** The table after one more message has been sent to a subscription. */
  function Send(t: Table, sid: int): Table
    requires sid in t
  {
    var sub := t[sid];
    if sub.max.Some? && sub.sent + 1 >= sub.max.value then t - {sid} else t[sid := sub.(sent := sub.sent + 1)]
  }
}
