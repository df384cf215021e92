/** What one delivery does to each part of a peer, stated part by part for any
    engine step and any router: what is held, answered, sent back, heard and
    completed, and in which order the handlers see the host state. */
module DeliveryLaws {
  import opened JsonTree
  import opened Universe
  import opened Engine
  import opened Peers

  // ------------------------------------------------------- parts of the effects

  function Deferred<S>(r: Router<S>, calls: seq<Call>): seq<Call>
    decreases |calls|
  {
    if calls == [] then [] else
    var n := |calls| - 1;
    Deferred(r, calls[..n]) + if calls[n].method_ in r.deferred then [calls[n]] else []
  }

  /** The ids of the calls answered at once. */
  function AnsweredIds<S>(r: Router<S>, calls: seq<Call>): seq<Id>
    decreases |calls|
  {
    if calls == [] then [] else
    var n := |calls| - 1;
    AnsweredIds(r, calls[..n]) + if calls[n].method_ in r.deferred then [] else [calls[n].id]
  }

  /** The notifications that decode, as they decode. */
  function Understood(t: Table, notes: seq<Notification>): seq<Noted>
    decreases |notes|
  {
    if notes == [] then [] else
    var n := |notes| - 1;
    Understood(t, notes[..n]) +
      match Dec(t.notes(notes[n].note), notes[n].params)
      case Err => []
      case Ok(v) => [Noted(notes[n].note, v)]
  }

  /** The host state after the calls, each handler seeing what the one before
      left. */
  function AfterCalls<S>(t: Table, r: Router<S>, s: S, calls: seq<Call>): S
    decreases |calls|
  {
    if calls == [] then s else
    var n := |calls| - 1;
    var s' := AfterCalls(t, r, s, calls[..n]);
    if calls[n].method_ in r.deferred || calls[n].method_ !in r.handled then s' else
    match Dec(t.params(calls[n].method_), calls[n].params)
    case Err => s'
    case Ok(v) => r.on(s', calls[n].method_, v).0
  }

  function AfterNotes<S>(r: Router<S>, s: S, heard: seq<Noted>): S
    decreases |heard|
  {
    if heard == [] then s else
    var n := |heard| - 1;
    r.note(AfterNotes(r, s, heard[..n]), heard[n].note, heard[n].params)
  }

  predicate RepliesTo(replies: seq<Frame>, ids: seq<Id>) {
    && |replies| == |ids|
    && forall i | 0 <= i < |ids| :: (replies[i].Response? || replies[i].Failure?) && replies[i].id == ids[i]
  }

  // ------------------------------------------------------------------ the calls

  lemma {:induction false} CallsAreServed<S>(t: Table, r: Router<S>, p: Peer<S>, calls: seq<Call>)
    ensures var (q, replies) := HandleCalls(t, r, p, calls);
            && q.engine == p.engine
            && q.held == p.held + Deferred(r, calls)
            && q.state == AfterCalls(t, r, p.state, calls)
            && q.log == p.log
            && RepliesTo(replies, AnsweredIds(r, calls))
    decreases |calls|
  {
    if calls == [] {
    } else {
      var n := |calls| - 1;
      CallsAreServed(t, r, p, calls[..n]);
      OneCallIsServed(t, r, HandleCalls(t, r, p, calls[..n]).0, calls[n]);
      hide Handle, Dec;
    }
  }

  lemma OneCallIsServed<S>(t: Table, r: Router<S>, p: Peer<S>, c: Call)
    ensures var (q, f) := Handle(t, r, p, c);
            && q.engine == p.engine && q.log == p.log
            && q.held == p.held + (if c.method_ in r.deferred then [c] else [])
            && (f == Nothing <==> c.method_ in r.deferred)
            && (f.Just? ==> (f.value.Response? || f.value.Failure?) && f.value.id == c.id)
            && q.state == if c.method_ in r.deferred || c.method_ !in r.handled then p.state else
                          match Dec(t.params(c.method_), c.params)
                          case Err => p.state
                          case Ok(v) => r.on(p.state, c.method_, v).0
  {
    hide Dec, Enc;
  }

  /** A call for a method that is not registered is refused with -32601, one
      whose parameters do not decode with -32602, and neither changes the host. */
  lemma BadCallsAreRefused<S>(t: Table, r: Router<S>, p: Peer<S>, c: Call)
    requires c.method_ !in r.deferred
    ensures c.method_ !in r.handled ==>
              Handle(t, r, p, c).1 == Just(Failure(c.id, -32601)) && Handle(t, r, p, c).0.state == p.state
    ensures c.method_ in r.handled && Dec(t.params(c.method_), c.params).Err? ==>
              Handle(t, r, p, c).1 == Just(Failure(c.id, -32602)) && Handle(t, r, p, c).0.state == p.state
  {
    hide Dec, Enc;
  }

  // ---------------------------------------------------------- the notifications

  lemma {:induction false} NotesAreHeard<S>(t: Table, r: Router<S>, p: Peer<S>, notes: seq<Notification>)
    ensures var q := HandleNotes(t, r, p, notes);
            && q.engine == p.engine && q.held == p.held && q.made == p.made
            && q.state == AfterNotes(r, p.state, Understood(t, notes))
            && q.log == p.log.(received := p.log.received + Understood(t, notes))
    decreases |notes|
  {
    if notes == [] {
    } else {
      var n := |notes| - 1;
      NotesAreHeard(t, r, p, notes[..n]);
      var heard := Understood(t, notes[..n]);
      OneNoteIsHeard(t, r, HandleNotes(t, r, p, notes[..n]), notes[n]);
      var d := Dec(t.notes(notes[n].note), notes[n].params);
      hide HandleNote, Dec;
      if d.Ok? {
        var x := Noted(notes[n].note, d.value);
        assert (heard + [x])[..|heard|] == heard && Understood(t, notes) == heard + [x];
        assert (p.log.received + heard) + [x] == p.log.received + (heard + [x]);
      } else {
        assert Understood(t, notes) == heard;
      }
    }
  }

  lemma OneNoteIsHeard<S>(t: Table, r: Router<S>, p: Peer<S>, n: Notification)
    ensures var q := HandleNote(t, r, p, n);
            match Dec(t.notes(n.note), n.params)
            case Err => q == p
            case Ok(v) => q == p.(state := r.note(p.state, n.note, v),
                                  log := p.log.(received := p.log.received + [Noted(n.note, v)]))
  {
    hide Dec;
  }

  // ---------------------------------------------------------------- one delivery

  /** Each completion was logged, in order, with how many notifications had been
      heard by then. */
  predicate Logged(before: seq<Done>, after: seq<Done>, completed: seq<Completed>, heard: nat) {
    && |after| == |before| + |completed| && before == after[..|before|]
    && forall i | 0 <= i < |completed| :: after[|before| + i] == Done(completed[i], heard)
  }

  /** One frame, whatever the engine makes of it: the calls are served first, in
      order, the deferred ones held and every other one replied to once; then
      the notifications are heard, in order; the replies go back before what
      the engine sends; and the completions come last, in order. */
  lemma OneDelivery<S>(step: Stepper, t: Table, r: Router<S>, p: Peer<S>, f: Frame)
    ensures var (engine, fx) := step(p.engine, f);
            var (q, back, all) := DeliverOne(step, t, r, p, f);
            && q.engine == engine && all == fx
            && q.held == p.held + Deferred(r, fx.calls)
            && q.state == AfterNotes(r, AfterCalls(t, r, p.state, fx.calls), Understood(t, fx.notifications))
            && q.log.received == p.log.received + Understood(t, fx.notifications)
            && |back| == |AnsweredIds(r, fx.calls)| + |fx.send|
            && RepliesTo(back[..|AnsweredIds(r, fx.calls)|], AnsweredIds(r, fx.calls))
            && back[|AnsweredIds(r, fx.calls)|..] == fx.send
            && Logged(p.log.done, q.log.done, fx.completed, |q.log.received|)
  {
    var (engine, fx) := step(p.engine, f);
    var x := p.(engine := engine);
    CallsAreServed(t, r, x, fx.calls);
    NotesAreHeard(t, r, HandleCalls(t, r, x, fx.calls).0, fx.notifications);
    hide HandleCalls, HandleNotes;
    var replies := HandleCalls(t, r, x, fx.calls).1;
    assert (replies + fx.send)[..|replies|] == replies && (replies + fx.send)[|replies|..] == fx.send;
  }

  // -------------------------------------------------------------- many deliveries

  /** The effects of a batch are those of its frames, one after the other. */
  lemma EffectsAddUp<S>(step: Stepper, t: Table, r: Router<S>, p: Peer<S>, w: seq<Frame>, f: Frame)
    ensures var (q, _, all) := DeliverAll(step, t, r, p, w);
            var fx := step(q.engine, f).1;
            var more := DeliverAll(step, t, r, p, w + [f]).2;
            && more.send == all.send + fx.send
            && more.calls == all.calls + fx.calls
            && more.notifications == all.notifications + fx.notifications
            && more.completed == all.completed + fx.completed
  {
    LastOne(step, t, r, p, w, f);
  }

  function Completions(ds: seq<Done>): seq<Completed> {
    seq(|ds|, i requires 0 <= i < |ds| => ds[i].completed)
  }

  lemma LoggedCompletions(before: seq<Done>, after: seq<Done>, completed: seq<Completed>, heard: nat)
    requires Logged(before, after, completed, heard)
    ensures Completions(after) == Completions(before) + completed
  {
  }

  /** What a batch completed is what its host finds, in the order of the
      replies: the first completion is that of the first reply. */
  lemma {:induction false} CompletionsInOrder<S>(step: Stepper, t: Table, r: Router<S>, p: Peer<S>, w: seq<Frame>)
    ensures var (q, _, all) := DeliverAll(step, t, r, p, w);
            Completions(q.log.done) == Completions(p.log.done) + all.completed
    decreases |w|
  {
    if w == [] {
    } else {
      var n := |w| - 1;
      var q := DeliverAll(step, t, r, p, w[..n]).0;
      CompletionsInOrder(step, t, r, p, w[..n]);
      EffectsAddUp(step, t, r, p, w[..n], w[n]);
      assert w[..n] + [w[n]] == w;
      OneDelivery(step, t, r, q, w[n]);
      var u := DeliverOne(step, t, r, q, w[n]).0;
      hide DeliverOne, Join;
      LoggedCompletions(q.log.done, u.log.done, step(q.engine, w[n]).1.completed, |u.log.received|);
    }
  }

  /** With the engine of this model, the replies to pending requests complete
      them in the order they come in. */
  lemma TwoRepliesInOrder<S>(t: Table, r: Router<S>, p: Peer<S>, f: Frame, g: Frame)
    requires f.Response? && g.Response? && f.id != g.id && f.id in p.engine.pending && g.id in p.engine.pending
    ensures DeliverAll(Step, t, r, p, [f, g]).2.completed
         == [Completed(f.id, Value(f.result)), Completed(g.id, Value(g.result))]
  {
    EffectsAddUp(Step, t, r, p, [], f);
    EffectsAddUp(Step, t, r, p, [f], g);
    assert [] + [f] == [f] && [f] + [g] == [f, g];
    LastOne(Step, t, r, p, [], f);
    OneDelivery(Step, t, r, p, f);
  }
}
