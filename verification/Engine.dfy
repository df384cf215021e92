/** The JSON-RPC engine, by the contract its users rely on (README.md and
    tests/protocol_loopback.cpp): fresh request ids, a set of pending requests,
    and a reply that completes the pending request with its id (section 5 of
    the JSON-RPC 2.0 Specification). Everything it does is a value. Its
    deadlines, cancellation and framing are not part of this model. */
module Engine {
  import opened JsonTree
  import opened Protocol

  type Id = nat

  datatype Frame =
    | Request(id: Id, method_: Method, params: Json)
    | Response(id: Id, result: Json)
    | Failure(id: Id, code: int)
    | Notice(note: Note, params: Json)

  datatype Call = Call(id: Id, method_: Method, params: Json)

  datatype Notification = Notification(note: Note, params: Json)

  /** A request of our own that was answered: a value, or an error code. */
  datatype Completed = Completed(id: Id, reply: Reply)

  datatype Reply = Value(result: Json) | Error(code: int)

  datatype Effects = Effects(
    send: seq<Frame>,
    calls: seq<Call>,
    notifications: seq<Notification>,
    completed: seq<Completed>
  )

  const NOTHING := Effects([], [], [], [])

  /** `all += fx` */
  function Join(all: Effects, fx: Effects): Effects {
    Effects(all.send + fx.send, all.calls + fx.calls,
            all.notifications + fx.notifications, all.completed + fx.completed)
  }

  datatype Engine = Engine(next: Id, pending: map<Id, Method>)

  const IDLE := Engine(0, map[])

  function Asking(e: Engine, m: Method): Engine {
    Engine(e.next + 1, e.pending[e.next := m])
  }

  function Complete(e: Engine, id: Id, reply: Reply): (Engine, Effects) {
    if id in e.pending then (e.(pending := e.pending - {id}), NOTHING.(completed := [Completed(id, reply)]))
    else (e, NOTHING)
  }

  /** `step(engine, Received{frame})` */
  function Step(e: Engine, f: Frame): (Engine, Effects) {
    match f
    case Request(id, m, params) => (e, NOTHING.(calls := [Call(id, m, params)]))
    case Notice(n, params) => (e, NOTHING.(notifications := [Notification(n, params)]))
    case Response(id, result) => Complete(e, id, Value(result))
    case Failure(id, code) => Complete(e, id, Error(code))
  }
}
