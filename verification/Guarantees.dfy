/** What both hosts may rely on in every run, read off the link invariant. */
module Guarantees {
  import opened JsonTree
  import opened Universe
  import opened RoundTrip
  import opened Protocol
  import opened Engine
  import opened Peers
  import opened Links
  import opened Exchange
  import opened Runs

  // ------------------------------------------------------- one place per request

  /** How often id is requested, with the other peer (held by its host, or
      answered and not yet sent), or in a reply that has not completed. */
  function Places(s: Responder, out: seq<Frame>, back: seq<Frame>, id: Id): nat {
    Requests(out)[id] + HeldIds(s.held)[id] + Replies(back)[id]
  }

  /** A pending request is in exactly one place, any other id in none. */
  ghost predicate EachInOnePlace(r: Requester, s: Responder, out: seq<Frame>, back: seq<Frame>) {
    forall id: Id :: Places(s, out, back, id) == if id in r.engine.pending then 1 else 0
  }

  lemma PendingIsInOnePlace(r: Requester, s: Responder, out: seq<Frame>, back: seq<Frame>)
    requires Conserved(r, s, out, back)
    ensures EachInOnePlace(r, s, out, back)
  {
    forall id: Id ensures Places(s, out, back, id) == if id in r.engine.pending then 1 else 0 {
      assert multiset(r.engine.pending.Keys)[id] == if id in r.engine.pending then 1 else 0;
    }
  }

  // ------------------------------------------------------------- one completion

  /** Every request made is either pending or was completed, once. */
  predicate CompletesOnce(r: Requester) {
    && (forall i, j | 0 <= i < j < |r.done| :: r.done[i].completed.id != r.done[j].completed.id)
    && (forall i | 0 <= i < |r.done| ::
          r.done[i].completed.id in r.asked && r.done[i].completed.id !in r.engine.pending)
    && (forall id | id in r.asked ::
          id in r.engine.pending || exists i | 0 <= i < |r.done| :: r.done[i].completed.id == id)
  }

  lemma {:induction false} CountedTwice(ds: seq<Done>, i: nat, j: nat)
    requires i < j < |ds| && ds[i].completed.id == ds[j].completed.id
    ensures DoneIds(ds)[ds[i].completed.id] >= 2
  {
    var n := |ds| - 1;
    DoneAppend(ds[..n], ds[n]);
    assert ds == ds[..n] + [ds[n]];
    if j < n {
      CountedTwice(ds[..n], i, j);
    } else {
      DoneCounted(ds[..n], i);
    }
  }

  lemma {:induction false} CountedIsThere(ds: seq<Done>, id: Id)
    requires id in DoneIds(ds)
    ensures exists i | 0 <= i < |ds| :: ds[i].completed.id == id
  {
    var n := |ds| - 1;
    DoneAppend(ds[..n], ds[n]);
    assert ds == ds[..n] + [ds[n]];
    if ds[n].completed.id != id {
      CountedIsThere(ds[..n], id);
    }
  }

  /** Every id given out is pending or was completed, not both, and not twice. */
  predicate Accounted(r: Requester) {
    && multiset(r.asked.Keys) == multiset(r.engine.pending.Keys) + DoneIds(r.done)
    && (forall id | id in r.asked :: id < r.engine.next)
  }

  lemma ConservedIsAccounted(r: Requester, s: Responder, out: seq<Frame>, back: seq<Frame>)
    requires Conserved(r, s, out, back)
    ensures Accounted(r)
  {
    hide DoneIds;
  }

  lemma RequestsCompleteOnce(r: Requester)
    requires Accounted(r)
    ensures CompletesOnce(r)
  {
    var asked := multiset(r.asked.Keys);
    forall i, j | 0 <= i < j < |r.done| ensures r.done[i].completed.id != r.done[j].completed.id {
      assert asked[r.done[i].completed.id] <= 1;
      if r.done[i].completed.id == r.done[j].completed.id {
        CountedTwice(r.done, i, j);
        assert false;
      }
    }
    forall i | 0 <= i < |r.done|
      ensures r.done[i].completed.id in r.asked && r.done[i].completed.id !in r.engine.pending
    {
      DoneCounted(r.done, i);
      assert asked[r.done[i].completed.id] <= 1;
    }
    forall id | id in r.asked && id !in r.engine.pending
      ensures exists i | 0 <= i < |r.done| :: r.done[i].completed.id == id
    {
      assert id in asked;
      CountedIsThere(r.done, id);
    }
  }

  // ------------------------------------------------------------ faithful replies

  /** `result<M>(completed)` */
  function ResultOf(t: Table, m: Method, c: Completed): Result<Val> {
    match c.reply
    case Value(j) => Dec(t.results(m), j)
    case Error(_) => Err
  }

  /** The completion says what was answered to the request of that id: the
      answer's normal form, or the code it was refused with. */
  predicate Arrived(t: Table, r: Requester, s: Responder, d: Done) {
    var id := d.completed.id;
    && id in r.asked && id in s.given && s.given[id].method_ == r.asked[id].method_
    && match s.given[id].verdict
       case Answer(v) =>
         var m := r.asked[id].method_;
         HasType(t.results(m), v) && ResultOf(t, m, d.completed) == Ok(Norm(t.results(m), v))
       case Refuse(code) => d.completed.reply == Error(code)
  }

  lemma RepliesArrive(t: Table, r: Requester, s: Responder, d: Done)
    requires Sound(t) && DoneOk(t, r, s, d)
    ensures Arrived(t, r, s, d)
  {
    hide Enc, Dec, Norm, HasType, WellFormed;
    var g := s.given[d.completed.id];
    if g.verdict.Answer? {
      RoundTrips(t.results(g.method_), g.verdict.result);
    }
  }

  // ------------------------------------------------------------- ordered streams

  function AllHeard(t: Table, ns: seq<Noted>): seq<Noted> {
    seq(|ns|, i requires 0 <= i < |ns| => Heard(t, ns[i]))
  }

  /** What was heard is a prefix of what was sent, and when a reply completed,
      everything sent before it had been heard. */
  predicate HeardInOrder(t: Table, r: Requester, s: Responder) {
    && r.received <= AllHeard(t, s.sent)
    && forall i | 0 <= i < |r.done| ::
         && r.done[i].completed.id in s.given
         && r.done[i].seen == s.given[r.done[i].completed.id].mark <= |r.received|
  }

  lemma StreamsAreHeardInOrder(t: Table, r: Requester, s: Responder, out: seq<Frame>, back: seq<Frame>)
    requires Faithful(t, r, s, out, back) && Streamed(t, r, s, back)
    ensures HeardInOrder(t, r, s)
  {
    hide Heard, Enc, HasType;
    assert forall i | 0 <= i < |r.done| :: DoneOk(t, r, s, r.done[i]);
  }

  // ------------------------------------------------------------------ every run

  ghost predicate Kept(t: Table, r: Requester, s: Responder, out: seq<Frame>, back: seq<Frame>) {
    && EachInOnePlace(r, s, out, back)
    && CompletesOnce(r)
    && (forall i | 0 <= i < |r.done| :: Arrived(t, r, s, r.done[i]))
    && HeardInOrder(t, r, s)
  }

  lemma LinkIsKept(t: Table, r: Requester, s: Responder, out: seq<Frame>, back: seq<Frame>)
    requires Sound(t) && Link(t, r, s, out, back)
    ensures Kept(t, r, s, out, back)
  {
    hide Sound, Conserved, Accounted, CompletesOnce, EachInOnePlace, HeardInOrder, Streamed, Ordered, DoneOk, Arrived;
    PendingIsInOnePlace(r, s, out, back);
    ConservedIsAccounted(r, s, out, back);
    RequestsCompleteOnce(r);
    StreamsAreHeardInOrder(t, r, s, out, back);
    forall i | 0 <= i < |r.done| ensures Arrived(t, r, s, r.done[i]) {
      RepliesArrive(t, r, s, r.done[i]);
    }
  }

  /** In every run, in both directions: each pending request is in exactly one
      place; each request completes at most once, with the reply that was given
      to it, in normal form; and notifications are heard in the order they were
      sent, all those sent before a reply ahead of its completion. */
  lemma EveryRunKeeps<C(!new), A(!new)>(u: Setup<C, A>, client: C, agent: A, turns: seq<Turn>)
    requires Honest(u) && IsRun(u, Start(client, agent), turns)
    ensures var w := After(u, Start(client, agent), turns);
            && Kept(u.table, AsRequester(w.client), AsResponder(w.agent), w.toAgent, w.toClient)
            && Kept(u.table, AsRequester(w.agent), AsResponder(w.client), w.toClient, w.toAgent)
  {
    hide Link, Kept, IsRun, After;
    StartsInOrder(u.table, client, agent);
    RunKeeps(u, Start(client, agent), turns);
    var w := After(u, Start(client, agent), turns);
    LinkIsKept(u.table, AsRequester(w.client), AsResponder(w.agent), w.toAgent, w.toClient);
    LinkIsKept(u.table, AsRequester(w.agent), AsResponder(w.client), w.toClient, w.toAgent);
  }

  // ---------------------------------------------------------------- coming to rest

  predicate OnlyNotices(w: seq<Frame>) {
    forall i | 0 <= i < |w| :: w[i].Notice?
  }

  lemma {:induction false} NoticesHoldNoIds(w: seq<Frame>)
    requires OnlyNotices(w)
    ensures Requests(w) == multiset{} && Replies(w) == multiset{}
  {
    if w == [] {
    } else {
      NoticesHoldNoIds(w[1..]);
    }
  }

  lemma OnlyNoticesWithoutIds(w: seq<Frame>)
    requires Requests(w) == multiset{} && Replies(w) == multiset{}
    ensures OnlyNotices(w)
  {
    forall i | 0 <= i < |w| ensures w[i].Notice? {
      if w[i].Request? { RequestCounted(w, i); }
      if IsReply(w[i]) { ReplyCounted(w, i); }
    }
  }

  lemma NoneHeld(cs: seq<Call>)
    ensures HeldIds(cs) == multiset{} <==> cs == []
  {
    if cs != [] { HeldCounted(cs, 0); }
  }

  predicate Quiet<C, A>(w: World<C, A>) {
    && OnlyNotices(w.toAgent) && OnlyNotices(w.toClient)
    && w.client.held == [] && w.agent.held == [] && w.client.made == [] && w.agent.made == []
  }

  predicate Idle<C, A>(w: World<C, A>) {
    w.client.engine.pending == map[] && w.agent.engine.pending == map[]
  }

  lemma NothingPending(r: Requester, s: Responder, out: seq<Frame>, back: seq<Frame>)
    requires Conserved(r, s, out, back)
    ensures r.engine.pending == map[] <==>
            Requests(out) == multiset{} && Replies(back) == multiset{} && s.held == []
  {
    NoneHeld(s.held);
    assert r.engine.pending == map[] <==> multiset(r.engine.pending.Keys) == multiset{} by {
      if r.engine.pending != map[] {
        var id :| id in r.engine.pending;
        assert id in multiset(r.engine.pending.Keys);
      }
    }
  }

  lemma NothingWithIt<S>(p: Peer<S>)
    ensures AsResponder(p).held == [] <==> p.held == [] && p.made == []
  {
    assert |AsResponder(p).held| == |p.held| + |p.made|;
  }

  /** Both engines are idle exactly when neither wire carries a request or a
      reply and no host holds a call or a reply to be sent. */
  lemma IdleExactlyWhenQuiet<C, A>(t: Table, w: World<C, A>)
    requires Inv(t, w)
    ensures Idle(w) <==> Quiet(w)
  {
    hide Requests, Replies, Conserved, Faithful, Streamed, Ordered, OnlyNotices, AsResponder;
    NothingWithIt(w.client);
    NothingWithIt(w.agent);
    NothingPending(AsRequester(w.client), AsResponder(w.agent), w.toAgent, w.toClient);
    NothingPending(AsRequester(w.agent), AsResponder(w.client), w.toClient, w.toAgent);
    if Quiet(w) {
      NoticesHoldNoIds(w.toAgent);
      NoticesHoldNoIds(w.toClient);
    }
    if Idle(w) {
      OnlyNoticesWithoutIds(w.toAgent);
      OnlyNoticesWithoutIds(w.toClient);
    }
  }

  predicate OnlyReplies(w: seq<Frame>) {
    forall i | 0 <= i < |w| :: IsReply(w[i])
  }

  /** An engine that sends replies only, and neither sends nor calls anything
      on a reply. */
  ghost predicate Reserved(step: Stepper) {
    forall e, f ::
      var fx := step(e, f).1;
      OnlyReplies(fx.send) && (IsReply(f) ==> fx.send == [] && fx.calls == [])
  }

  lemma StepIsReserved()
    ensures Reserved(Step)
  {
  }

  lemma {:induction false} CallsAreReplied<S>(t: Table, r: Router<S>, p: Peer<S>, calls: seq<Call>)
    ensures OnlyReplies(HandleCalls(t, r, p, calls).1)
    decreases |calls|
  {
    hide Served;
    if calls == [] {
    } else {
      CallsAreReplied(t, r, p, calls[..|calls| - 1]);
    }
  }

  lemma OneFrameSendsReplies<S>(step: Stepper, t: Table, r: Router<S>, p: Peer<S>, f: Frame)
    requires Reserved(step)
    ensures OnlyReplies(DeliverOne(step, t, r, p, f).1)
    ensures IsReply(f) ==> DeliverOne(step, t, r, p, f).1 == []
  {
    hide Handle, HandleNotes;
    var (engine, fx) := step(p.engine, f);
    CallsAreReplied(t, r, p.(engine := engine), fx.calls);
  }

  /** With any such engine, delivery sends back replies only, and none where
      nothing but replies came in. */
  lemma {:induction false} DeliverySendsReplies<S>(step: Stepper, t: Table, r: Router<S>, p: Peer<S>, w: seq<Frame>)
    requires Reserved(step)
    ensures OnlyReplies(DeliverAll(step, t, r, p, w).1)
    ensures OnlyReplies(w) ==> DeliverAll(step, t, r, p, w).1 == []
    decreases |w|
  {
    hide DeliverOne, Reserved;
    if w == [] {
    } else {
      var n := |w| - 1;
      DeliverySendsReplies(step, t, r, p, w[..n]);
      OneFrameSendsReplies(step, t, r, DeliverAll(step, t, r, p, w[..n]).0, w[n]);
    }
  }

  lemma RepliesMakeNothing<S>(t: Table, r: Router<S>, p: Peer<S>, w: seq<Frame>)
    requires OnlyReplies(w)
    ensures DeliverAll(Step, t, r, p, w).0.made == p.made
  {
    hide DeliverAll, Reserved, Step, MadeFrame;
    StepIsReserved();
    DeliverySendsReplies(Step, t, r, p, w);
    BackIsMade(t, r, p, w);
  }

  lemma {:induction false} PostsEverything<S>(p: Peer<S>)
    ensures Post(p, |p.made|).made == []
    decreases |p.made|
  {
    if p.made == [] {
    } else {
      PostsEverything(PostOne(p));
    }
  }

  /** `deliver(agent, to_agent_wire, back)`, then `send(to_client_wire, back)` */
  function DrainToAgent<C, A>(u: Setup<C, A>, w: World<C, A>): World<C, A> {
    var x := Next(u, w, Agent(Delivers(|w.toAgent|)));
    Next(u, x, Agent(Posts(|x.agent.made|)))
  }

  function DrainToClient<C, A>(u: Setup<C, A>, w: World<C, A>): World<C, A> {
    var x := Next(u, w, Client(Delivers(|w.toClient|)));
    Next(u, x, Client(Posts(|x.client.made|)))
  }

  lemma DrainsToAgent<C(!new), A(!new)>(u: Setup<C, A>, w: World<C, A>)
    requires Honest(u) && Inv(u.table, w)
    ensures var x := DrainToAgent(u, w);
            && Inv(u.table, x) && x.toAgent == [] && x.agent.made == [] && x.client.made == w.client.made
            && (OnlyReplies(w.toAgent) && w.agent.made == [] ==> x.toClient == w.toClient)
  {
    hide DeliverAll, Inv, Sound, Typed, Step, Post, MadeFrame;
    assert w.toAgent[..|w.toAgent|] == w.toAgent;
    var x := Next(u, w, Agent(Delivers(|w.toAgent|)));
    TurnKeeps(u, w, Agent(Delivers(|w.toAgent|)));
    TurnKeeps(u, x, Agent(Posts(|x.agent.made|)));
    PostsEverything(x.agent);
    if OnlyReplies(w.toAgent) && w.agent.made == [] {
      RepliesMakeNothing(u.table, u.agent, w.agent, w.toAgent);
      assert w.toClient + [] == w.toClient;
    }
  }

  lemma DrainsToClient<C(!new), A(!new)>(u: Setup<C, A>, w: World<C, A>)
    requires Honest(u) && Inv(u.table, w) && w.toAgent == []
    ensures var x := DrainToClient(u, w);
            && Inv(u.table, x) && x.toClient == [] && OnlyReplies(x.toAgent)
            && x.client.made == [] && x.agent.made == w.agent.made
  {
    hide DeliverAll, Inv, Sound, Typed, Step, Post;
    var x := Next(u, w, Client(Delivers(|w.toClient|)));
    TurnKeeps(u, w, Client(Delivers(|w.toClient|)));
    TurnKeeps(u, x, Client(Posts(|x.client.made|)));
    PostsEverything(x.client);
  }

  /** From wherever a run has got to, three deliveries, each followed by sending
      what it returned, empty both wires: every notification has then been
      heard, and what is still pending is exactly what the other host holds. */
  lemma ThreeDeliveriesSettle<C(!new), A(!new)>(u: Setup<C, A>, w: World<C, A>)
    requires Honest(u) && Inv(u.table, w)
    ensures var x := DrainToAgent(u, DrainToClient(u, DrainToAgent(u, w)));
            && x.toAgent == [] && x.toClient == [] && x.client.made == [] && x.agent.made == []
            && multiset(x.client.engine.pending.Keys) == HeldIds(x.agent.held)
            && multiset(x.agent.engine.pending.Keys) == HeldIds(x.client.held)
            && x.client.log.received == AllHeard(u.table, x.agent.log.sent)
            && x.agent.log.received == AllHeard(u.table, x.client.log.sent)
  {
    hide DrainToAgent, DrainToClient, Inv, Honest;
    var w1 := DrainToAgent(u, w);
    DrainsToAgent(u, w);
    var w2 := DrainToClient(u, w1);
    DrainsToClient(u, w1);
    var w3 := DrainToAgent(u, w2);
    DrainsToAgent(u, w2);
    SettledBothWays(u.table, w3);
  }

  lemma SettledBothWays<C, A>(t: Table, w: World<C, A>)
    requires Inv(t, w) && w.toAgent == [] && w.toClient == [] && w.client.made == [] && w.agent.made == []
    ensures multiset(w.client.engine.pending.Keys) == HeldIds(w.agent.held)
    ensures multiset(w.agent.engine.pending.Keys) == HeldIds(w.client.held)
    ensures w.client.log.received == AllHeard(t, w.agent.log.sent)
    ensures w.agent.log.received == AllHeard(t, w.client.log.sent)
  {
    hide Link, AllHeard;
    assert w.client.held + [] == w.client.held && w.agent.held + [] == w.agent.held;
    assert Calls([]) == [];
    SettledOneWay(t, AsRequester(w.client), AsResponder(w.agent));
    SettledOneWay(t, AsRequester(w.agent), AsResponder(w.client));
  }

  lemma SettledOneWay(t: Table, r: Requester, s: Responder)
    requires Link(t, r, s, [], [])
    ensures multiset(r.engine.pending.Keys) == HeldIds(s.held)
    ensures r.received == AllHeard(t, s.sent)
  {
    hide Faithful, Heard;
    var left := s.sent[|r.received|..];
    assert |AllOnWire(t, left)| == |left|;
  }
}
