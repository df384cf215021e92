/** The delivery loop of tests/protocol_loopback.cpp in its own form: it empties
    a wire frame by frame, updates the peer in place, and appends what is to be
    sent back. It does what DeliverAll says. */
module Nodes {
  import opened JsonTree
  import opened Universe
  import opened Protocol
  import opened Engine
  import opened Peers
  import opened DeliveryLaws

  /** A deque of frames. */
  class Wire {
    var frames: seq<Frame>

    constructor ()
      ensures frames == []
    {
      frames := [];
    }

    /** `send(wire, frames)` */
    method Send(more: seq<Frame>)
      modifies this
      ensures frames == old(frames) + more
    {
      for i := 0 to |more|
        invariant frames == old(frames) + more[..i]
      {
        frames := frames + [more[i]];
      }
    }
  }

  /** A peer: its engine and how that steps, its router and the host's state. What it did so far,
      and the calls its host still has to answer, are kept for specification. */
  class Node<S(!new)> {
    const step: Stepper
    const table: Table
    const router: Router<S>
    var engine: Engine
    var state: S
    ghost var held: seq<Call>
    ghost var made: seq<Made>
    ghost var log: Log

    ghost function Value(): Peer<S>
      reads this
    {
      Peer(engine, state, held, made, log)
    }

    constructor (step: Stepper, table: Table, router: Router<S>, state: S)
      ensures this.step == step && this.table == table && this.router == router && Value() == NewPeer(state)
    {
      this.step, this.table, this.router, this.state := step, table, router, state;
      engine := IDLE;
      held, made, log := [], [], SILENCE;
    }

    /** `request<M>(engine, params)` */
    method Request(m: Method, params: Val) returns (id: Id, frame: Frame)
      modifies this
      ensures (Value(), frame) == Ask(table, old(Value()), m, params)
      ensures frame.Request? && frame.id == id == old(engine.next)
    {
      id := engine.next;
      engine := Asking(engine, m);
      frame := Frame.Request(id, m, Enc(table.params(m), params));
      log := log.(asked := log.asked[id := Asked(m, params)]);
    }

    /** `notify<N>(params)` */
    method Notify(n: Note, params: Val) returns (frame: Frame)
      modifies this`log
      ensures (Value(), frame) == Peers.Notify(table, old(Value()), n, params)
    {
      frame := Notice(n, Enc(table.notes(n), params));
      log := log.(sent := log.sent + [Noted(n, params)]);
    }

    /** `reply<M>(id, result)`: builds the reply whatever id it is given; if that
        is the i-th of the calls still held, it is held no longer. */
    method Reply(ghost i: nat, id: Id, m: Method, v: Verdict) returns (frame: Frame)
      modifies this`log, this`held
      ensures frame == ReplyFrame(table, id, m, v)
      ensures Holds(old(Value()), i, id, m) ==> (Value(), frame) == ReplyHeld(table, old(Value()), i, v)
      ensures !Holds(old(Value()), i, id, m) ==> Value() == Giving(old(Value()), id, m, v)
    {
      frame := ReplyFrame(table, id, m, v);
      if Holds(Value(), i, id, m) {
        held := held[..i] + held[i + 1..];
      }
      log := log.(given := log.given[id := Given(m, v, |log.sent|)]);
    }

    /** `router.handle(peer, call)` */
    method HandleCall(c: Call) returns (frame: Maybe<Frame>)
      modifies this`state, this`held, this`made
      ensures (Value(), frame) == Handle(table, router, old(Value()), c)
    {
      if c.method_ in router.deferred {
        held := held + [c];
        return Nothing;
      }
      var verdict := Refuse(METHOD_NOT_FOUND);
      if c.method_ in router.handled {
        var params := Dec(table.params(c.method_), c.params);
        if params.Ok? {
          var answered := router.on(state, c.method_, params.value);
          state, verdict := answered.0, answered.1;
        } else {
          verdict := Refuse(INVALID_PARAMS);
        }
      }
      made := made + [Made(c, verdict)];
      frame := Just(ReplyFrame(table, c.id, c.method_, verdict));
    }

    /** `send(wire, back)`, then `back.clear()`: the answers made so far go on the
        wire, in the order they were made. */
    method SendBack(wire: Wire, back: Wire)
      requires wire != back && back.frames == MadeFrames(table, made)
      modifies wire, back, this`made, this`log
      ensures wire.frames == old(wire.frames) + MadeFrames(table, old(made)) && back.frames == []
      ensures Value() == Post(old(Value()), |old(made)|)
    {
      ghost var start, n := Value(), |made|;
      wire.Send(back.frames);
      back.frames := [];
      for i := 0 to n
        invariant |made| == n - i && Post(start, n) == Post(Value(), n - i)
        invariant unchanged(this`engine) && unchanged(this`state) && unchanged(this`held)
        invariant wire.frames == old(wire.frames) + MadeFrames(table, old(made)) && back.frames == []
      {
        ghost var posted := PostOne(Value());
        made, log := posted.made, posted.log;
      }
    }

    /** `router.handle(peer, note)` */
    method HandleNotification(n: Notification)
      modifies this`state, this`log
      ensures Value() == HandleNote(table, router, old(Value()), n)
    {
      var params := Dec(table.notes(n.note), n.params);
      if params.Ok? {
        state := router.note(state, n.note, params.value);
        log := log.(received := log.received + [Noted(n.note, params.value)]);
      }
    }

    /** One pass of the loop: step the engine, answer the calls, hear the
        notifications, pass on what the engine sends. */
    method Take(frame: Frame, back: Wire) returns (fx: Effects)
      modifies this, back
      ensures var (p, replies, effects) := DeliverOne(step, table, router, old(Value()), frame);
              Value() == p && back.frames == old(back.frames) + replies && fx == effects
    {
      hide Handle, HandleNote;
      var stepped := step(engine, frame);
      engine, fx := stepped.0, stepped.1;
      ghost var start, before := Value(), back.frames;
      for i := 0 to |fx.calls|
        invariant Value() == HandleCalls(table, router, start, fx.calls[..i]).0
        invariant back.frames == before + HandleCalls(table, router, start, fx.calls[..i]).1
      {
        assert fx.calls[..i + 1][..i] == fx.calls[..i];
        ghost var replies := HandleCalls(table, router, start, fx.calls[..i]).1;
        var reply := HandleCall(fx.calls[i]);
        if reply.Just? {
          back.frames := back.frames + [reply.value];
          assert (before + replies) + [reply.value] == before + (replies + [reply.value]);
        }
      }
      assert fx.calls[..|fx.calls|] == fx.calls;
      ghost var answered, after := Value(), back.frames;
      for i := 0 to |fx.notifications|
        invariant Value() == HandleNotes(table, router, answered, fx.notifications[..i])
        invariant back.frames == after
      {
        assert fx.notifications[..i + 1][..i] == fx.notifications[..i];
        HandleNotification(fx.notifications[i]);
      }
      assert fx.notifications[..|fx.notifications|] == fx.notifications;
      back.Send(fx.send);
      log := Finish(Value(), fx.completed).log;
    }

    /** `deliver(peer, wire, back)`: the wire is emptied, `back` grows by the
        replies and effects of each frame in turn, and the effects add up. */
    method Deliver(wire: Wire, back: Wire) returns (all: Effects)
      requires wire != back
      modifies this, wire, back
      ensures wire.frames == []
      ensures var (p, replies, effects) := DeliverAll(step, table, router, old(Value()), old(wire.frames));
              Value() == p && back.frames == old(back.frames) + replies && all == effects
      ensures Completions(log.done) == Completions(old(log.done)) + all.completed
    {
      hide DeliverOne, Join;
      CompletionsInOrder(step, table, router, Value(), wire.frames);
      all := NOTHING;
      ghost var start, w, before := Value(), wire.frames, back.frames;
      ghost var n := 0;
      while wire.frames != []
        invariant n <= |w| && wire.frames == w[n..]
        invariant Value() == DeliverAll(step, table, router, start, w[..n]).0
        invariant back.frames == before + DeliverAll(step, table, router, start, w[..n]).1
        invariant all == DeliverAll(step, table, router, start, w[..n]).2
        decreases |wire.frames|
      {
        var frame := wire.frames[0];
        LastOne(step, table, router, start, w[..n], frame);
        assert w[..n] + [frame] == w[..n + 1];
        wire.frames := wire.frames[1..];
        var fx := Take(frame, back);
        all := Join(all, fx);
        n := n + 1;
      }
      assert w[..n] == w;
    }
  }
}
