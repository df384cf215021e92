/** Two peers, two wires, every run. A move is anything a host can do: ask,
    notify, answer a call it holds, deliver any number of frames, or put on the
    wire some of the replies that deliveries returned, at once or after other
    moves; the peers move in any order. The scripted exchange of tests/protocol_loopback.cpp is
    one such run. */
module Runs {
  import opened Universe
  import opened Protocol
  import opened Engine
  import opened Peers
  import opened Links
  import opened LinkSteps
  import opened Exchange

  // ------------------------------------------------------------------ the moves

  datatype Move =
    | Asks(method_: Method, params: Val)
    | Notifies(note: Note, params: Val)
    | Answers(held: nat, verdict: Verdict)
    | Delivers(frames: nat)
    | Posts(replies: nat)

  /** A peer with the wire it reads and the wire it writes. */
  datatype Seat<S> = Seat(peer: Peer<S>, inbox: seq<Frame>, outbox: seq<Frame>)

  /** Hosts pass values of the declared types, answer calls they hold, and
      deliver frames that are there. */
  predicate Possible<S>(t: Table, x: Seat<S>, move: Move) {
    match move
    case Asks(m, v) => HasType(t.params(m), v)
    case Notifies(n, v) => HasType(t.notes(n), v)
    case Answers(i, v) => i < |x.peer.held| && TypedVerdict(t, x.peer.held[i].method_, v)
    case Delivers(n) => n <= |x.inbox|
    case Posts(n) => n <= |x.peer.made|
  }

  function Act<S>(t: Table, r: Router<S>, x: Seat<S>, move: Move): Seat<S>
    requires Possible(t, x, move)
  {
    match move
    case Asks(m, v) =>
      var (p, f) := Ask(t, x.peer, m, v);
      Seat(p, x.inbox, x.outbox + [f])
    case Notifies(n, v) =>
      var (p, f) := Notify(t, x.peer, n, v);
      Seat(p, x.inbox, x.outbox + [f])
    case Answers(i, v) =>
      var (p, f) := ReplyHeld(t, x.peer, i, v);
      Seat(p, x.inbox, x.outbox + [f])
    case Delivers(n) =>
      Seat(DeliverAll(Step, t, r, x.peer, x.inbox[..n]).0, x.inbox[n..], x.outbox)
    case Posts(n) =>
      Seat(Post(x.peer, n), x.inbox, x.outbox + MadeFrames(t, x.peer.made[..n]))
  }

  predicate Seated<S>(t: Table, x: Seat<S>, other: Requester, oppo: Responder) {
    Linked(t, x.peer, other, oppo, x.inbox, x.outbox)
  }

  lemma {:induction false} BatchKeeps<S(!new)>(t: Table, r: Router<S>, x: Peer<S>, other: Requester, oppo: Responder,
                                               batch: seq<Frame>, rest: seq<Frame>, outbox: seq<Frame>)
    requires Sound(t) && Typed(t, r) && Linked(t, x, other, oppo, batch + rest, outbox)
    ensures Linked(t, DeliverAll(Step, t, r, x, batch).0, other, oppo, rest, outbox)
    decreases |batch|
  {
    hide Linked, DeliverOne, Sound, Typed;
    if batch == [] {
      assert batch + rest == rest;
    } else {
      var n := |batch| - 1;
      var y := DeliverAll(Step, t, r, x, batch[..n]).0;
      assert batch + rest == batch[..n] + ([batch[n]] + rest);
      BatchKeeps(t, r, x, other, oppo, batch[..n], [batch[n]] + rest, outbox);
      DeliveryKeeps(t, r, y, other, oppo, [batch[n]] + rest, outbox);
      assert ([batch[n]] + rest)[1..] == rest;
    }
  }

  lemma {:induction false} PostsKeep<S>(t: Table, x: Peer<S>, other: Requester, oppo: Responder,
                                        inbox: seq<Frame>, outbox: seq<Frame>, n: nat)
    requires Linked(t, x, other, oppo, inbox, outbox) && n <= |x.made|
    ensures Linked(t, Post(x, n), other, oppo, inbox, outbox + MadeFrames(t, x.made[..n]))
    decreases n
  {
    hide Linked, MadeFrame;
    if n == 0 {
      assert outbox + [] == outbox;
    } else {
      var f := MadeFrame(t, x.made[0]);
      PostingKeeps(t, x, other, oppo, inbox, outbox);
      PostsKeep(t, PostOne(x), other, oppo, inbox, outbox + [f], n - 1);
      assert MadeFrames(t, x.made[..n]) == [f] + MadeFrames(t, x.made[1..][..n - 1]);
      assert outbox + MadeFrames(t, x.made[..n]) == (outbox + [f]) + MadeFrames(t, x.made[1..][..n - 1]);
    }
  }

  lemma AskingKeeps<S>(t: Table, x: Seat<S>, other: Requester, oppo: Responder, m: Method, v: Val)
    requires Seated(t, x, other, oppo) && HasType(t.params(m), v)
    ensures var (p, f) := Ask(t, x.peer, m, v); Linked(t, p, other, oppo, x.inbox, x.outbox + [f])
  {
    hide Link, Enc, HasType;
    AskKeeps(t, AsRequester(x.peer), oppo, x.outbox, x.inbox, m, v);
    ForeignBack(t, other, AsResponder(x.peer), x.inbox, x.outbox, Ask(t, x.peer, m, v).1);
  }

  lemma NotifyingKeeps<S>(t: Table, x: Seat<S>, other: Requester, oppo: Responder, n: Note, v: Val)
    requires Seated(t, x, other, oppo) && HasType(t.notes(n), v)
    ensures var (p, f) := Notify(t, x.peer, n, v); Linked(t, p, other, oppo, x.inbox, x.outbox + [f])
  {
    hide Link, Enc, HasType;
    NotifyKeeps(t, other, AsResponder(x.peer), x.inbox, x.outbox, Noted(n, v));
    ForeignOut(t, AsRequester(x.peer), oppo, x.outbox, x.inbox, Notify(t, x.peer, n, v).1);
  }

  lemma AnsweringKeeps<S>(t: Table, x: Seat<S>, other: Requester, oppo: Responder, i: nat, v: Verdict)
    requires Seated(t, x, other, oppo) && i < |x.peer.held| && TypedVerdict(t, x.peer.held[i].method_, v)
    ensures var (p, f) := ReplyHeld(t, x.peer, i, v); Linked(t, p, other, oppo, x.inbox, x.outbox + [f])
  {
    hide Link, Enc, HasType, TypedVerdict;
    var held, made := x.peer.held, Calls(x.peer.made);
    LateReplyKeeps(t, other, AsResponder(x.peer), x.inbox, x.outbox, i, v);
    ForeignOut(t, AsRequester(x.peer), oppo, x.outbox, x.inbox, ReplyHeld(t, x.peer, i, v).1);
    assert (held + made)[..i] + (held + made)[i + 1..] == (held[..i] + held[i + 1..]) + made;
  }

  lemma MoveKeeps<S(!new)>(t: Table, r: Router<S>, x: Seat<S>, other: Requester, oppo: Responder, move: Move)
    requires Sound(t) && Typed(t, r) && Seated(t, x, other, oppo) && Possible(t, x, move)
    ensures Seated(t, Act(t, r, x, move), other, oppo)
  {
    hide Linked, Sound, Typed, HasType, Ask, Notify, ReplyHeld, DeliverAll, Post;
    match move
    case Asks(m, v) => AskingKeeps(t, x, other, oppo, m, v);
    case Notifies(n, v) => NotifyingKeeps(t, x, other, oppo, n, v);
    case Answers(i, v) => AnsweringKeeps(t, x, other, oppo, i, v);
    case Delivers(n) =>
      assert x.inbox[..n] + x.inbox[n..] == x.inbox;
      BatchKeeps(t, r, x.peer, other, oppo, x.inbox[..n], x.inbox[n..], x.outbox);
    case Posts(n) => PostsKeep(t, x.peer, other, oppo, x.inbox, x.outbox, n);
  }

  // ------------------------------------------------------------------- the runs

  datatype World<C, A> = World(client: Peer<C>, agent: Peer<A>, toAgent: seq<Frame>, toClient: seq<Frame>)

  datatype Turn = Client(move: Move) | Agent(move: Move)

  /** The method table and the two routers: what stays fixed in a run. */
  datatype Setup<!C, !A> = Setup(table: Table, client: Router<C>, agent: Router<A>)

  ghost predicate Honest<C(!new), A(!new)>(u: Setup<C, A>) {
    Sound(u.table) && Typed(u.table, u.client) && Typed(u.table, u.agent)
  }

  function ClientSeat<C, A>(w: World<C, A>): Seat<C> {
    Seat(w.client, w.toClient, w.toAgent)
  }

  function AgentSeat<C, A>(w: World<C, A>): Seat<A> {
    Seat(w.agent, w.toAgent, w.toClient)
  }

  predicate Allowed<C, A>(u: Setup<C, A>, w: World<C, A>, turn: Turn) {
    match turn
    case Client(move) => Possible(u.table, ClientSeat(w), move)
    case Agent(move) => Possible(u.table, AgentSeat(w), move)
  }

  function Next<C, A>(u: Setup<C, A>, w: World<C, A>, turn: Turn): World<C, A>
    requires Allowed(u, w, turn)
  {
    match turn
    case Client(move) =>
      var x := Act(u.table, u.client, ClientSeat(w), move);
      World(x.peer, w.agent, x.outbox, x.inbox)
    case Agent(move) =>
      var x := Act(u.table, u.agent, AgentSeat(w), move);
      World(w.client, x.peer, x.inbox, x.outbox)
  }

  function Start<C, A>(client: C, agent: A): World<C, A> {
    World(NewPeer(client), NewPeer(agent), [], [])
  }

  predicate IsRun<C, A>(u: Setup<C, A>, w: World<C, A>, turns: seq<Turn>)
    decreases |turns|
  {
    turns != [] ==> Allowed(u, w, turns[0]) && IsRun(u, Next(u, w, turns[0]), turns[1..])
  }

  function After<C, A>(u: Setup<C, A>, w: World<C, A>, turns: seq<Turn>): World<C, A>
    requires IsRun(u, w, turns)
    decreases |turns|
  {
    if turns == [] then w else After(u, Next(u, w, turns[0]), turns[1..])
  }

  /** Both directions of the connection are in order. */
  predicate Inv<C, A>(t: Table, w: World<C, A>) {
    && Link(t, AsRequester(w.client), AsResponder(w.agent), w.toAgent, w.toClient)
    && Link(t, AsRequester(w.agent), AsResponder(w.client), w.toClient, w.toAgent)
    && MadeTyped(t, w.client.made) && MadeTyped(t, w.agent.made)
  }

  lemma StartsInOrder<C, A>(t: Table, client: C, agent: A)
    ensures Inv(t, Start(client, agent))
  {
  }

  lemma TurnKeeps<C(!new), A(!new)>(u: Setup<C, A>, w: World<C, A>, turn: Turn)
    requires Honest(u) && Inv(u.table, w) && Allowed(u, w, turn)
    ensures Inv(u.table, Next(u, w, turn))
  {
    hide Link, Sound, Typed, Possible, Act;
    match turn
    case Client(move) =>
      MoveKeeps(u.table, u.client, ClientSeat(w), AsRequester(w.agent), AsResponder(w.agent), move);
    case Agent(move) =>
      MoveKeeps(u.table, u.agent, AgentSeat(w), AsRequester(w.client), AsResponder(w.client), move);
  }

  lemma {:induction false} RunKeeps<C(!new), A(!new)>(u: Setup<C, A>, w: World<C, A>, turns: seq<Turn>)
    requires Honest(u) && Inv(u.table, w) && IsRun(u, w, turns)
    ensures Inv(u.table, After(u, w, turns))
    decreases |turns|
  {
    hide Inv, Honest, Allowed, Next;
    if turns == [] {
    } else {
      TurnKeeps(u, w, turns[0]);
      RunKeeps(u, Next(u, w, turns[0]), turns[1..]);
    }
  }
}
