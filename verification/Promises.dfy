/** Answers belong to their requests: what the handlers of a peer promise about
    every answer holds, in every run, between each reply given and the request
    it was given to. */
module Promises {
  import opened Universe
  import opened Protocol
  import opened Engine
  import opened Peers
  import opened Links
  import opened Exchange
  import opened Runs

  /** A relation between a method, its parameters and an answer to them. */
  type Promise = (Method, Val, Verdict) -> bool

  /** Whatever state it is in, a handler answers as promised. */
  ghost predicate Meets<S(!new)>(t: Table, r: Router<S>, promise: Promise) {
    forall s, m, p :: m in r.handled && HasType(t.params(m), p) ==> promise(m, p, r.on(s, m, p).1)
  }

  /** The verdict is what the promise allows for what was asked; a method that
      is not registered was refused as unknown. */
  predicate Fits<S>(t: Table, r: Router<S>, promise: Promise, q: Requester, id: Id, g: Given) {
    && id in q.asked && g.method_ == q.asked[id].method_
    && (g.method_ !in r.deferred ==>
          if g.method_ in r.handled then promise(g.method_, AskedAs(t, q, id), g.verdict)
          else g.verdict == Refuse(METHOD_NOT_FOUND))
  }

  function AsGiven(a: Made): Given {
    Given(a.call.method_, a.verdict, 0)
  }

  /** Of everything p has answered to q, on the wire or not sent yet. */
  predicate Promised<S>(t: Table, r: Router<S>, promise: Promise, q: Requester, p: Peer<S>) {
    && (forall i | 0 <= i < |p.held| :: p.held[i].method_ in r.deferred)
    && (forall i | 0 <= i < |p.made| :: Fits(t, r, promise, q, p.made[i].call.id, AsGiven(p.made[i])))
    && (forall id | id in p.log.given :: Fits(t, r, promise, q, id, p.log.given[id]))
  }

  // ------------------------------------------------------------ while answering

  lemma ServingKeeps<S(!new)>(t: Table, r: Router<S>, promise: Promise, x: Peer<S>, other: Requester,
                              inbox: seq<Frame>, outbox: seq<Frame>)
    requires Sound(t) && Typed(t, r) && Meets(t, r, promise) && Link(t, other, AsResponder(x), inbox, outbox)
    requires Promised(t, r, promise, other, x) && inbox != [] && inbox[0].Request?
    ensures var c := Call(inbox[0].id, inbox[0].method_, inbox[0].params);
            Promised(t, r, promise, other, Handle(t, r, x, c).0)
  {
    hide Link, HasType, WellFormed, Sound, Typed, Served, AskedAs;
    HandlerAnswers(t, r, x.state, other, AsResponder(x), inbox, outbox);
  }

  lemma FrameKeepsPromise<S(!new)>(t: Table, r: Router<S>, promise: Promise, x: Peer<S>, other: Requester,
                                   inbox: seq<Frame>, outbox: seq<Frame>)
    requires Sound(t) && Typed(t, r) && Meets(t, r, promise) && Link(t, other, AsResponder(x), inbox, outbox)
    requires Promised(t, r, promise, other, x) && inbox != []
    ensures Promised(t, r, promise, other, DeliverOne(Step, t, r, x, inbox[0]).0)
  {
    hide Link, Sound, Typed, Meets, Fits, DeliverOne, Handle;
    match inbox[0]
    case Request(_, _, _) =>
      DeliverRequest(t, r, x, inbox[0]);
      ServingKeeps(t, r, promise, x, other, inbox, outbox);
    case Notice(_, _) => NoticeAnswersNothing(t, r, x, inbox[0]);
    case _ => ReplyAnswersNothing(t, r, x, inbox[0]);
  }

  predicate SameAnswers<S>(p: Peer<S>, q: Peer<S>) {
    q.held == p.held && q.made == p.made && q.log.given == p.log.given
  }

  lemma NoticeAnswersNothing<S>(t: Table, r: Router<S>, p: Peer<S>, f: Frame)
    requires f.Notice?
    ensures SameAnswers(p, DeliverOne(Step, t, r, p, f).0)
  {
    hide DeliverOne, Dec;
    DeliverNotice(t, r, p, f);
  }

  lemma ReplyAnswersNothing<S>(t: Table, r: Router<S>, p: Peer<S>, f: Frame)
    requires IsReply(f)
    ensures SameAnswers(p, DeliverOne(Step, t, r, p, f).0)
  {
  }

  lemma {:induction false} BatchKeepsPromise<S(!new)>(t: Table, r: Router<S>, promise: Promise, x: Peer<S>,
                                                      other: Requester, oppo: Responder,
                                                      batch: seq<Frame>, rest: seq<Frame>, outbox: seq<Frame>)
    requires Sound(t) && Typed(t, r) && Meets(t, r, promise) && Linked(t, x, other, oppo, batch + rest, outbox)
    requires Promised(t, r, promise, other, x)
    ensures Promised(t, r, promise, other, DeliverAll(Step, t, r, x, batch).0)
    decreases |batch|
  {
    hide Link, DeliverOne, Sound, Typed, Meets, Promised;
    if batch == [] {
    } else {
      var n := |batch| - 1;
      var y := DeliverAll(Step, t, r, x, batch[..n]).0;
      assert batch + rest == batch[..n] + ([batch[n]] + rest);
      BatchKeepsPromise(t, r, promise, x, other, oppo, batch[..n], [batch[n]] + rest, outbox);
      BatchKeeps(t, r, x, other, oppo, batch[..n], [batch[n]] + rest, outbox);
      FrameKeepsPromise(t, r, promise, y, other, [batch[n]] + rest, outbox);
    }
  }

  lemma {:induction false} PostsKeepPromise<S>(t: Table, r: Router<S>, promise: Promise, q: Requester,
                                               p: Peer<S>, n: nat)
    requires Promised(t, r, promise, q, p) && n <= |p.made|
    ensures Promised(t, r, promise, q, Post(p, n))
    decreases n
  {
    hide AskedAs;
    if n == 0 {
    } else {
      PostsKeepPromise(t, r, promise, q, PostOne(p), n - 1);
    }
  }

  lemma LateAnswerKeepsPromise<S(!new)>(t: Table, r: Router<S>, promise: Promise, x: Seat<S>,
                                        other: Requester, oppo: Responder, i: nat, v: Verdict)
    requires Seated(t, x, other, oppo) && Promised(t, r, promise, other, x.peer) && i < |x.peer.held|
    ensures Promised(t, r, promise, other, ReplyHeld(t, x.peer, i, v).0)
  {
    hide HasType, Enc, Conserved, Streamed, Ordered, ReplyOk, DoneOk, ReplyFrame, AskedAs, MadeTyped;
    var c := x.peer.held[i];
    assert AsResponder(x.peer).held[i] == c;
    assert CallOk(t, other, c.id, c.method_, c.params);
    var q := x.peer.held[..i] + x.peer.held[i + 1..];
    assert forall k | 0 <= k < |q| :: q[k] == x.peer.held[if k < i then k else k + 1];
  }

  lemma ActKeepsPromise<S(!new)>(t: Table, r: Router<S>, promise: Promise, x: Seat<S>,
                                 other: Requester, oppo: Responder, move: Move)
    requires Sound(t) && Typed(t, r) && Meets(t, r, promise) && Seated(t, x, other, oppo) && Possible(t, x, move)
    requires Promised(t, r, promise, other, x.peer)
    ensures Promised(t, r, promise, other, Act(t, r, x, move).peer)
  {
    hide Linked, Sound, Typed, Meets, DeliverAll, HasType, TypedVerdict, Fits, Enc, ReplyHeld, Post;
    match move
    case Answers(i, v) => LateAnswerKeepsPromise(t, r, promise, x, other, oppo, i, v);
    case Delivers(n) =>
      assert x.inbox[..n] + x.inbox[n..] == x.inbox;
      BatchKeepsPromise(t, r, promise, x.peer, other, oppo, x.inbox[..n], x.inbox[n..], x.outbox);
    case Posts(n) => PostsKeepPromise(t, r, promise, other, x.peer, n);
    case _ =>
  }

  // --------------------------------------------------------------- while asking

  lemma {:induction false} DeliveryAsksNothing<S>(t: Table, r: Router<S>, p: Peer<S>, w: seq<Frame>)
    ensures DeliverAll(Step, t, r, p, w).0.log.asked == p.log.asked
    decreases |w|
  {
    hide DeliverOne;
    if w == [] {
    } else {
      var n := |w| - 1;
      DeliveryAsksNothing(t, r, p, w[..n]);
      FrameAsksNothing(t, r, DeliverAll(Step, t, r, p, w[..n]).0, w[n]);
    }
  }

  lemma FrameAsksNothing<S>(t: Table, r: Router<S>, p: Peer<S>, f: Frame)
    ensures DeliverOne(Step, t, r, p, f).0.log.asked == p.log.asked
  {
    hide Served, Dec, Enc;
    match f
    case Request(_, _, _) => hide DeliverOne; DeliverRequest(t, r, p, f);
    case Notice(_, _) => hide DeliverOne; DeliverNotice(t, r, p, f);
    case _ =>
  }

  lemma {:induction false} PostingAsksNothing<S>(p: Peer<S>, n: nat)
    requires n <= |p.made|
    ensures Post(p, n).log.asked == p.log.asked
    decreases n
  {
    if n == 0 {
    } else {
      PostingAsksNothing(PostOne(p), n - 1);
    }
  }

  /** A peer's moves leave what it had asked as it was: new requests have new ids. */
  lemma ActKeepsOthersPromise<S, R>(t: Table, r: Router<S>, o: Router<R>, promise: Promise, x: Seat<S>,
                                    other: Requester, oppo: Peer<R>, move: Move)
    requires Seated(t, x, other, AsResponder(oppo)) && Possible(t, x, move)
    requires Promised(t, o, promise, AsRequester(x.peer), oppo)
    ensures Promised(t, o, promise, AsRequester(Act(t, r, x, move).peer), oppo)
  {
    hide DeliverAll, Post, HasType, TypedVerdict, Enc, Faithful, Streamed, Ordered, Norm;
    match move
    case Delivers(n) => DeliveryAsksNothing(t, r, x.peer, x.inbox[..n]);
    case Posts(n) => PostingAsksNothing(x.peer, n);
    case _ =>
  }

  // ------------------------------------------------------------------ every run

  ghost predicate BothPromised<C, A>(u: Setup<C, A>, client: Promise, agent: Promise, w: World<C, A>) {
    && Promised(u.table, u.agent, agent, AsRequester(w.client), w.agent)
    && Promised(u.table, u.client, client, AsRequester(w.agent), w.client)
  }

  lemma TurnKeepsPromises<C(!new), A(!new)>(u: Setup<C, A>, client: Promise, agent: Promise, w: World<C, A>, turn: Turn)
    requires Honest(u) && Meets(u.table, u.client, client) && Meets(u.table, u.agent, agent)
    requires Inv(u.table, w) && BothPromised(u, client, agent, w) && Allowed(u, w, turn)
    ensures BothPromised(u, client, agent, Next(u, w, turn))
  {
    hide Link, Sound, Typed, Possible, Act, Meets, Promised;
    var c, a := ClientSeat(w), AgentSeat(w);
    match turn
    case Client(move) =>
      ActKeepsPromise(u.table, u.client, client, c, AsRequester(w.agent), AsResponder(w.agent), move);
      ActKeepsOthersPromise(u.table, u.client, u.agent, agent, c, AsRequester(w.agent), w.agent, move);
    case Agent(move) =>
      ActKeepsPromise(u.table, u.agent, agent, a, AsRequester(w.client), AsResponder(w.client), move);
      ActKeepsOthersPromise(u.table, u.agent, u.client, client, a, AsRequester(w.client), w.client, move);
  }

  /** In every run, every reply a peer has given is one its handlers promise for
      the request it answers. */
  lemma {:induction false} RunKeepsPromises<C(!new), A(!new)>(u: Setup<C, A>, client: Promise, agent: Promise,
                                                              w: World<C, A>, turns: seq<Turn>)
    requires Honest(u) && Meets(u.table, u.client, client) && Meets(u.table, u.agent, agent)
    requires Inv(u.table, w) && BothPromised(u, client, agent, w) && IsRun(u, w, turns)
    ensures BothPromised(u, client, agent, After(u, w, turns))
    decreases |turns|
  {
    hide Inv, Honest, Meets, BothPromised, Allowed, Next;
    if turns == [] {
    } else {
      TurnKeeps(u, w, turns[0]);
      TurnKeepsPromises(u, client, agent, w, turns[0]);
      RunKeepsPromises(u, client, agent, Next(u, w, turns[0]), turns[1..]);
    }
  }
}
