/** One peer of a connection: an engine, a router and the host's own state, and
    what delivering frames to it does (tests/protocol_loopback.cpp). The host
    state and the router are arbitrary: everything here holds for all of them. */
module Peers {
  import opened JsonTree
  import opened Universe
  import opened Protocol
  import opened Engine

  const METHOD_NOT_FOUND := -32601
  const INVALID_PARAMS := -32602

  /** A method table: the payload types of every method and notification. */
  datatype Table = Table(params: Method -> Schema, results: Method -> Schema, notes: Note -> Schema)

  ghost predicate Sound(t: Table) {
    && (forall m :: WellFormed(t.params(m)) && WellFormed(t.results(m)))
    && (forall n :: WellFormed(t.notes(n)))
  }

  /** How a handler, or the host for a deferred call, answers. */
  datatype Verdict = Answer(result: Val) | Refuse(code: int)

  /** The registered methods: deferred calls are left to the host, handled ones
      are answered at once. Handlers may change the host state. */
  datatype Router<!S> = Router(
    deferred: set<Method>,
    handled: set<Method>,
    on: (S, Method, Val) -> (S, Verdict),
    note: (S, Note, Val) -> S
  )

  /** Handlers answer with values of the method's result type. */
  ghost predicate Typed<S(!new)>(t: Table, r: Router<S>) {
    forall s, m, p :: m in r.handled && HasType(t.params(m), p) ==> TypedVerdict(t, m, r.on(s, m, p).1)
  }

  predicate TypedVerdict(t: Table, m: Method, v: Verdict) {
    v.Answer? ==> HasType(t.results(m), v.result)
  }

  datatype Asked = Asked(method_: Method, params: Val)

  /** A reply on the wire, and how many notifications its sender had sent before
      it. */
  datatype Given = Given(method_: Method, verdict: Verdict, mark: nat)

  datatype Noted = Noted(note: Note, params: Val)

  /** A completion, and how many notifications had been handled before it. */
  datatype Done = Done(completed: Completed, seen: nat)

  /** What a peer did so far. */
  datatype Log = Log(
    asked: map<Id, Asked>,
    given: map<Id, Given>,
    sent: seq<Noted>,
    received: seq<Noted>,
    done: seq<Done>
  )

  const SILENCE := Log(map[], map[], [], [], [])

  /** A call the router has answered, with its answer. */
  datatype Made = Made(call: Call, verdict: Verdict)

  /** held: the deferred calls the host has not answered yet; made: the answers
      delivery has returned and the host has not put on the wire yet. */
  datatype Peer<S> = Peer(engine: Engine, state: S, held: seq<Call>, made: seq<Made>, log: Log)

  function NewPeer<S>(state: S): Peer<S> {
    Peer(IDLE, state, [], [], SILENCE)
  }

  // ------------------------------------------------------------ host operations

  /** `request<M>(engine, params)`: the new engine and the frame to send. */
  function Ask<S>(t: Table, p: Peer<S>, m: Method, params: Val): (Peer<S>, Frame) {
    var id := p.engine.next;
    (p.(engine := Asking(p.engine, m), log := p.log.(asked := p.log.asked[id := Asked(m, params)])),
     Request(id, m, Enc(t.params(m), params)))
  }

  /** `notify<N>(params)` */
  function Notify<S>(t: Table, p: Peer<S>, n: Note, params: Val): (Peer<S>, Frame) {
    (p.(log := p.log.(sent := p.log.sent + [Noted(n, params)])), Notice(n, Enc(t.notes(n), params)))
  }

  function ReplyFrame(t: Table, id: Id, m: Method, v: Verdict): Frame {
    match v
    case Answer(result) => Response(id, Enc(t.results(m), result))
    case Refuse(code) => Failure(id, code)
  }

  function Giving<S>(p: Peer<S>, id: Id, m: Method, v: Verdict): Peer<S> {
    p.(log := p.log.(given := p.log.given[id := Given(m, v, |p.log.sent|)]))
  }

  predicate Holds<S>(p: Peer<S>, i: nat, id: Id, m: Method) {
    i < |p.held| && p.held[i].id == id && p.held[i].method_ == m
  }

  /** `reply<M>(id, result)` for the i-th held call. */
  function ReplyHeld<S>(t: Table, p: Peer<S>, i: nat, v: Verdict): (Peer<S>, Frame)
    requires i < |p.held|
  {
    var c := p.held[i];
    (Giving(p.(held := p.held[..i] + p.held[i + 1..]), c.id, c.method_, v), ReplyFrame(t, c.id, c.method_, v))
  }

  function MadeFrame(t: Table, a: Made): Frame {
    ReplyFrame(t, a.call.id, a.call.method_, a.verdict)
  }

  function MadeFrames(t: Table, made: seq<Made>): seq<Frame> {
    seq(|made|, i requires 0 <= i < |made| => MadeFrame(t, made[i]))
  }

  /** The first answer made goes on the wire. */
  function PostOne<S>(p: Peer<S>): Peer<S>
    requires p.made != []
  {
    var a := p.made[0];
    Giving(p.(made := p.made[1..]), a.call.id, a.call.method_, a.verdict)
  }

  /** `send(wire, back)` for the first n answers made. */
  function Post<S>(p: Peer<S>, n: nat): Peer<S>
    requires n <= |p.made|
    decreases n
  {
    if n == 0 then p else Post(PostOne(p), n - 1)
  }

  lemma {:induction false} PostingTouchesRepliesOnly<S>(p: Peer<S>, n: nat)
    requires n <= |p.made|
    ensures var q := Post(p, n);
            q == p.(made := p.made[n..], log := p.log.(given := q.log.given))
    decreases n
  {
    if n == 0 {
    } else {
      PostingTouchesRepliesOnly(PostOne(p), n - 1);
    }
  }

  // ------------------------------------------------------------------- delivery

  /** A call answered at once: registration first, then the parameters. */
  function Served<S>(t: Table, r: Router<S>, s: S, m: Method, params: Json): (S, Verdict) {
    if m !in r.handled then (s, Refuse(METHOD_NOT_FOUND)) else
    match Dec(t.params(m), params)
    case Err => (s, Refuse(INVALID_PARAMS))
    case Ok(v) => r.on(s, m, v)
  }

  /** `router.handle(peer, call)`: the frame to send back, if any. */
  function Handle<S>(t: Table, r: Router<S>, p: Peer<S>, c: Call): (Peer<S>, Maybe<Frame>) {
    if c.method_ in r.deferred then (p.(held := p.held + [c]), Nothing) else
    var (state, v) := Served(t, r, p.state, c.method_, c.params);
    (p.(state := state, made := p.made + [Made(c, v)]), Just(ReplyFrame(t, c.id, c.method_, v)))
  }

  /** `router.handle(peer, note)`: a note that does not decode is dropped. */
  function HandleNote<S>(t: Table, r: Router<S>, p: Peer<S>, n: Notification): Peer<S> {
    match Dec(t.notes(n.note), n.params)
    case Err => p
    case Ok(params) =>
      p.(state := r.note(p.state, n.note, params),
         log := p.log.(received := p.log.received + [Noted(n.note, params)]))
  }

  function Appended(back: seq<Frame>, f: Maybe<Frame>): seq<Frame> {
    match f
    case Nothing => back
    case Just(x) => back + [x]
  }

  function HandleCalls<S>(t: Table, r: Router<S>, p: Peer<S>, calls: seq<Call>): (Peer<S>, seq<Frame>)
    decreases |calls|
  {
    if calls == [] then (p, []) else
    var (q, back) := HandleCalls(t, r, p, calls[..|calls| - 1]);
    var (q', f) := Handle(t, r, q, calls[|calls| - 1]);
    (q', Appended(back, f))
  }

  function HandleNotes<S>(t: Table, r: Router<S>, p: Peer<S>, notes: seq<Notification>): Peer<S>
    decreases |notes|
  {
    if notes == [] then p
    else HandleNote(t, r, HandleNotes(t, r, p, notes[..|notes| - 1]), notes[|notes| - 1])
  }

  function Finish<S>(p: Peer<S>, completed: seq<Completed>): Peer<S> {
    p.(log := p.log.(done := p.log.done + seq(|completed|, i requires 0 <= i < |completed| =>
                                              Done(completed[i], |p.log.received|))))
  }

  /** Any engine: what it does with a frame it receives. */
  type Stepper = (Engine, Frame) -> (Engine, Effects)

  /** The body of the delivery loop for one frame: what becomes of the peer,
      the frames it sends back, and the engine's effects. Nothing is assumed of
      the engine: a frame may bring any number of calls, notifications, frames
      to send and completions. */
  function DeliverOne<S>(step: Stepper, t: Table, r: Router<S>, p: Peer<S>, f: Frame): (Peer<S>, seq<Frame>, Effects) {
    var (engine, fx) := step(p.engine, f);
    var (q, replies) := HandleCalls(t, r, p.(engine := engine), fx.calls);
    var q := HandleNotes(t, r, q, fx.notifications);
    (Finish(q, fx.completed), replies + fx.send, fx)
  }

  /** The whole loop: the frames of a wire, in order. */
  function DeliverAll<S>(step: Stepper, t: Table, r: Router<S>, p: Peer<S>, wire: seq<Frame>)
    : (Peer<S>, seq<Frame>, Effects)
    decreases |wire|
  {
    if wire == [] then (p, [], NOTHING) else
    var (q, back, all) := DeliverAll(step, t, r, p, wire[..|wire| - 1]);
    var (q', replies, fx) := DeliverOne(step, t, r, q, wire[|wire| - 1]);
    (q', back + replies, Join(all, fx))
  }

  /** Delivering two batches one after the other is delivering them as one:
      where the host cuts the wire does not matter. */
  lemma {:induction false} DeliveryComposes<S>(step: Stepper, t: Table, r: Router<S>, p: Peer<S>,
                                               w1: seq<Frame>, w2: seq<Frame>)
    ensures var (q1, b1, a1) := DeliverAll(step, t, r, p, w1);
            var (q2, b2, a2) := DeliverAll(step, t, r, q1, w2);
            DeliverAll(step, t, r, p, w1 + w2) == (q2, b1 + b2, Join(a1, a2))
    decreases |w2|
  {
    hide DeliverOne, Join;
    if w2 == [] {
      assert w1 + w2 == w1;
      var (q1, b1, a1) := DeliverAll(step, t, r, p, w1);
      assert b1 + [] == b1;
      JoinNothing(a1);
    } else {
      var n := |w2| - 1;
      var (q1, b1, a1) := DeliverAll(step, t, r, p, w1);
      var (q2, b2, a2) := DeliverAll(step, t, r, q1, w2[..n]);
      var (q3, b3, a3) := DeliverOne(step, t, r, q2, w2[n]);
      DeliveryComposes(step, t, r, p, w1, w2[..n]);
      LastOne(step, t, r, p, w1 + w2[..n], w2[n]);
      assert w1 + w2 == (w1 + w2[..n]) + [w2[n]];
      assert (b1 + b2) + b3 == b1 + (b2 + b3);
      JoinAssociates(a1, a2, a3);
    }
  }

  lemma LastOne<S>(step: Stepper, t: Table, r: Router<S>, p: Peer<S>, w: seq<Frame>, f: Frame)
    ensures var (q, back, all) := DeliverAll(step, t, r, p, w);
            var (q', replies, fx) := DeliverOne(step, t, r, q, f);
            DeliverAll(step, t, r, p, w + [f]) == (q', back + replies, Join(all, fx))
  {
    hide DeliverOne, Join;
    assert (w + [f])[..|w|] == w;
  }

  lemma JoinNothing(a: Effects)
    ensures Join(a, NOTHING) == a && Join(NOTHING, a) == a
  {
  }

  lemma JoinAssociates(a: Effects, b: Effects, c: Effects)
    ensures Join(Join(a, b), c) == Join(a, Join(b, c))
  {
    assert (a.send + b.send) + c.send == a.send + (b.send + c.send);
    assert (a.calls + b.calls) + c.calls == a.calls + (b.calls + c.calls);
    assert (a.notifications + b.notifications) + c.notifications
        == a.notifications + (b.notifications + c.notifications);
    assert (a.completed + b.completed) + c.completed == a.completed + (b.completed + c.completed);
  }
}
