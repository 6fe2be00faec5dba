/** Messages and the twelve protocol operations (lib/message.ml, lib/op.ml). */
module Op {
  import opened Base
  import Subject
  import Header

  datatype Message = Message(
    subject: Subject.Subject,
    replyTo: Option<Subject.Subject>,
    headers: Header.Headers,
    payload: string)

  datatype Status = Status(code: int, description: string)

  datatype Op =
    | Info(json: string)
    | Connect(json: string)
    | Pub(message: Message)
    | Hpub(message: Message, status: Option<Status>)
    | Sub(subject: Subject.Filter, queueGroup: Option<Subject.Subject>, sid: int)
    | Unsub(sid: int, maxMessages: Option<int>)
    | Msg(sid: int, message: Message)
    | Hmsg(sid: int, message: Message, status: Option<Status>)
    | Ping
    | Pong
    | PlusOk
    | ServerError(text: string)

  /** The operation's integers fit the machine range; every OCaml value of the type does. */
  predicate Representable(op: Op) {
    match op
    case Sub(_, _, sid) => sid <= MAX_INT
    case Unsub(sid, max) => sid <= MAX_INT && (max.Some? ==> max.value <= MAX_INT)
    case Msg(sid, _) => sid <= MAX_INT
    case Hmsg(sid, _, _) => sid <= MAX_INT
    case _ => true
  }
}
