/** Requests are served: whatever the state of the connection, a request for a
    method the agent does not defer completes within three deliveries. */
module Progress {
  import opened Universe
  import opened Protocol
  import opened Engine
  import opened Peers
  import opened Links
  import opened Runs
  import opened Guarantees
  import opened HostInvariants
  import opened Promises

  /** Hosts hold calls of deferred methods only. */
  predicate HoldsDeferred<S>(r: Router<S>, p: Peer<S>) {
    forall i | 0 <= i < |p.held| :: p.held[i].method_ in r.deferred
  }

  lemma RouterHoldsDeferred<S(!new)>(t: Table, r: Router<S>)
    ensures Stable(t, r, (p: Peer<S>) => HoldsDeferred(r, p))
  {
    hide Served, Dec, Enc;
  }

  lemma ActHoldsDeferred<S(!new)>(t: Table, r: Router<S>, x: Seat<S>, move: Move)
    requires Possible(t, x, move) && HoldsDeferred(r, x.peer)
    ensures HoldsDeferred(r, Act(t, r, x, move).peer)
  {
    hide Stable, Act, Possible, HoldsDeferred;
    RouterHoldsDeferred(t, r);
    ActKeeps(t, r, (p: Peer<S>) => HoldsDeferred(r, p), x, move);
  }

  lemma DeliveringAsksNothing<S>(t: Table, r: Router<S>, x: Seat<S>, move: Move)
    requires Possible(t, x, move) && (move.Delivers? || move.Posts?)
    ensures Act(t, r, x, move).peer.log.asked == x.peer.log.asked
  {
    hide DeliverAll, Post;
    match move
    case Delivers(n) => DeliveryAsksNothing(t, r, x.peer, x.inbox[..n]);
    case Posts(n) => PostingAsksNothing(x.peer, n);
  }

  /** What draining leaves as it was. */
  predicate Settling<C, A>(u: Setup<C, A>, w: World<C, A>, x: World<C, A>) {
    HoldsDeferred(u.agent, x.agent) && x.client.log.asked == w.client.log.asked
  }

  lemma DrainingToAgentSettles<C(!new), A(!new)>(u: Setup<C, A>, w: World<C, A>, x: World<C, A>)
    requires Settling(u, w, x)
    ensures Settling(u, w, DrainToAgent(u, x))
  {
    hide Act, HoldsDeferred;
    var y := Next(u, x, Agent(Delivers(|x.toAgent|)));
    ActHoldsDeferred(u.table, u.agent, AgentSeat(x), Delivers(|x.toAgent|));
    ActHoldsDeferred(u.table, u.agent, AgentSeat(y), Posts(|y.agent.made|));
  }

  lemma DrainingToClientSettles<C(!new), A(!new)>(u: Setup<C, A>, w: World<C, A>, x: World<C, A>)
    requires Settling(u, w, x)
    ensures Settling(u, w, DrainToClient(u, x))
  {
    hide Act, HoldsDeferred;
    var y := Next(u, x, Client(Delivers(|x.toClient|)));
    DeliveringAsksNothing(u.table, u.client, ClientSeat(x), Delivers(|x.toClient|));
    DeliveringAsksNothing(u.table, u.client, ClientSeat(y), Posts(|y.client.made|));
  }

  function Drained<C, A>(u: Setup<C, A>, w: World<C, A>): World<C, A> {
    DrainToAgent(u, DrainToClient(u, DrainToAgent(u, w)))
  }

  /** A call the peer still has was made, for the method it says. */
  lemma HeldWereAsked(t: Table, q: Requester, s: Responder, out: seq<Frame>, back: seq<Frame>, i: nat)
    requires Link(t, q, s, out, back) && i < |s.held|
    ensures s.held[i].id in q.asked && q.asked[s.held[i].id].method_ == s.held[i].method_
  {
    hide Conserved, Streamed, Ordered, Enc, HasType;
    assert CallOk(t, q, s.held[i].id, s.held[i].method_, s.held[i].params);
  }

  lemma PendingIsDeferred<C, A>(u: Setup<C, A>, x: World<C, A>, id: Id)
    requires Inv(u.table, x) && HoldsDeferred(u.agent, x.agent) && x.agent.made == []
    requires multiset(x.client.engine.pending.Keys) == HeldIds(x.agent.held) && id in x.client.engine.pending
    ensures id in x.client.log.asked && x.client.log.asked[id].method_ in u.agent.deferred
  {
    hide Link;
    assert id in multiset(x.client.engine.pending.Keys);
    HeldIsThere(x.agent.held, id);
    var i :| 0 <= i < |x.agent.held| && x.agent.held[i].id == id;
    HeldWereAsked(u.table, AsRequester(x.client), AsResponder(x.agent), x.toAgent, x.toClient, i);
    assert AsResponder(x.agent).held[i] == x.agent.held[i];
  }

  /** From any world in order, once three deliveries have emptied the wires, every
      request the client ever made for a method the agent answers at once has
      completed. */
  lemma RequestsAreServed<C(!new), A(!new)>(u: Setup<C, A>, w: World<C, A>, id: Id)
    requires Honest(u) && Inv(u.table, w) && HoldsDeferred(u.agent, w.agent)
    requires id in w.client.log.asked && w.client.log.asked[id].method_ !in u.agent.deferred
    ensures var x := Drained(u, w);
            exists i | 0 <= i < |x.client.log.done| :: x.client.log.done[i].completed.id == id
  {
    hide DrainToAgent, DrainToClient, Honest, Inv, CompletesOnce, HoldsDeferred;
    var a, b := DrainToAgent(u, w), DrainToClient(u, DrainToAgent(u, w));
    var x := Drained(u, w);
    DrainingToAgentSettles(u, w, w);
    DrainingToClientSettles(u, w, a);
    DrainingToAgentSettles(u, w, b);
    ThreeDeliveriesSettle(u, w);
    DrainedInOrder(u, w);
    if id in x.client.engine.pending {
      PendingIsDeferred(u, x, id);
      assert false;
    }
    CompletedOrPending(u.table, x, id);
  }

  lemma DrainedInOrder<C(!new), A(!new)>(u: Setup<C, A>, w: World<C, A>)
    requires Honest(u) && Inv(u.table, w)
    ensures Inv(u.table, Drained(u, w))
  {
    hide DrainToAgent, DrainToClient, Honest, Inv;
    DrainsToAgent(u, w);
    DrainsToClient(u, DrainToAgent(u, w));
    DrainsToAgent(u, DrainToClient(u, DrainToAgent(u, w)));
  }

  lemma CompletedOrPending<C, A>(t: Table, x: World<C, A>, id: Id)
    requires Inv(t, x) && id in x.client.log.asked && id !in x.client.engine.pending
    ensures exists i | 0 <= i < |x.client.log.done| :: x.client.log.done[i].completed.id == id
  {
    hide Conserved, Accounted, Faithful, Streamed, Ordered;
    var r := AsRequester(x.client);
    ConservedIsAccounted(r, AsResponder(x.agent), x.toAgent, x.toClient);
    RequestsCompleteOnce(r);
  }

  /** In particular a request the client makes now: it may always be made, under
      an id of its own, and is answered. */
  lemma NewRequestIsServed<C(!new), A(!new)>(u: Setup<C, A>, w: World<C, A>, m: Method, params: Val)
    requires Honest(u) && Inv(u.table, w) && HoldsDeferred(u.agent, w.agent)
    requires HasType(u.table.params(m), params) && m !in u.agent.deferred
    ensures Allowed(u, w, Client(Asks(m, params)))
    ensures var x := Drained(u, Next(u, w, Client(Asks(m, params))));
            exists i | 0 <= i < |x.client.log.done| :: x.client.log.done[i].completed.id == w.client.engine.next
  {
    hide Honest, Inv, HoldsDeferred, Drained, HasType, Enc;
    TurnKeeps(u, w, Client(Asks(m, params)));
    RequestsAreServed(u, Next(u, w, Client(Asks(m, params))), w.client.engine.next);
  }

  /** So after any run of any two peers, all that the client has asked of methods
      the agent does not defer is completed once three deliveries have emptied
      the wires. */
  lemma EveryRunIsServed<C(!new), A(!new)>(u: Setup<C, A>, client: C, agent: A, turns: seq<Turn>)
    requires Honest(u) && IsRun(u, Start(client, agent), turns)
    ensures var w := After(u, Start(client, agent), turns);
            var done := Drained(u, w).client.log.done;
            forall id | id in w.client.log.asked && w.client.log.asked[id].method_ !in u.agent.deferred ::
              exists i | 0 <= i < |done| :: done[i].completed.id == id
  {
    hide Honest, Inv, IsRun, After, Drained, Stable;
    var w := After(u, Start(client, agent), turns);
    StartsInOrder(u.table, client, agent);
    RunKeeps(u, Start(client, agent), turns);
    RouterHoldsDeferred(u.table, u.client);
    RouterHoldsDeferred(u.table, u.agent);
    RunKeepsHosts(u, (p: Peer<C>) => HoldsDeferred(u.client, p), (p: Peer<A>) => HoldsDeferred(u.agent, p),
                  Start(client, agent), turns);
    forall id | id in w.client.log.asked && w.client.log.asked[id].method_ !in u.agent.deferred
      ensures var done := Drained(u, w).client.log.done; exists i | 0 <= i < |done| :: done[i].completed.id == id
    {
      RequestsAreServed(u, w, id);
    }
  }
}
