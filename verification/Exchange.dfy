/** Two peers, two wires, every run: whatever the hosts ask, notify, defer and
    answer, and however deliveries interleave, both directions of the
    connection keep the link invariant. The scripted exchange of
    tests/protocol_loopback.cpp is one such run. */
module Exchange {
  import opened Universe
  import opened Engine
  import opened Peers
  import opened Links
  import opened LinkSteps
  import Theorems

  // ------------------------------------------------------- delivery, by frame

  lemma DeliverRequest<S>(t: Table, r: Router<S>, p: Peer<S>, f: Frame)
    requires f.Request?
    ensures var (q, reply) := Handle(t, r, p, Call(f.id, f.method_, f.params));
            DeliverOne(Step, t, r, p, f).0 == q && DeliverOne(Step, t, r, p, f).1 == Appended([], reply)
  {
    hide Handle;
    var c := Call(f.id, f.method_, f.params);
    assert [c][..0] == [];
    assert HandleCalls(t, r, p, [c][..0]) == (p, []);
    var q := Handle(t, r, p, c).0;
    assert Finish(q, []) == q by { assert q.log.done + [] == q.log.done; }
    assert p.(engine := p.engine) == p;
  }

  lemma DeliverNotice<S>(t: Table, r: Router<S>, p: Peer<S>, f: Frame)
    requires f.Notice?
    ensures DeliverOne(Step, t, r, p, f).0 == HandleNote(t, r, p, Notification(f.note, f.params))
    ensures DeliverOne(Step, t, r, p, f).1 == []
  {
    hide HandleNote;
    var n := Notification(f.note, f.params);
    assert HandleNotes(t, r, p, [n][..0]) == p;
    var q := HandleNote(t, r, p, n);
    assert Finish(q, []) == q by { assert q.log.done + [] == q.log.done; }
  }

  lemma DeliverReply<S>(t: Table, r: Router<S>, p: Peer<S>, f: Frame)
    requires IsReply(f) && f.id in p.engine.pending
    ensures var q := DeliverOne(Step, t, r, p, f).0;
            && AsRequester(q) == Completes(AsRequester(p), f)
            && q.held == p.held && q.made == p.made && AsResponder(q) == AsResponder(p) && q.state == p.state
    ensures DeliverOne(Step, t, r, p, f).1 == []
  {
  }

  // ------------------------------------------------------------- one delivery

  predicate MadeTyped(t: Table, made: seq<Made>) {
    forall i | 0 <= i < |made| :: TypedVerdict(t, made[i].call.method_, made[i].verdict)
  }

  /** The two links as one peer sees them: the other's requests come in on
      inbox, its own go out on outbox. */
  predicate Linked<S>(t: Table, x: Peer<S>, other: Requester, oppo: Responder, inbox: seq<Frame>, outbox: seq<Frame>) {
    && Link(t, other, AsResponder(x), inbox, outbox)
    && Link(t, AsRequester(x), oppo, outbox, inbox)
    && MadeTyped(t, x.made)
  }

  lemma RequestKeeps<S(!new)>(t: Table, r: Router<S>, x: Peer<S>, other: Requester, oppo: Responder,
                              inbox: seq<Frame>, outbox: seq<Frame>)
    requires Sound(t) && Typed(t, r) && Linked(t, x, other, oppo, inbox, outbox)
    requires inbox != [] && inbox[0].Request?
    ensures Linked(t, DeliverOne(Step, t, r, x, inbox[0]).0, other, oppo, inbox[1..], outbox)
  {
    hide Link, Enc, Dec, HasType, WellFormed, Norm, Served, TypedVerdict;
    var f := inbox[0];
    var c := Call(f.id, f.method_, f.params);
    DeliverRequest(t, r, x, f);
    var y := Handle(t, r, x, c).0;
    ForeignBackTaken(t, AsRequester(x), oppo, outbox, inbox);
    var held, made := x.held, Calls(x.made);
    if f.method_ in r.deferred {
      DeferralKeeps(t, other, AsResponder(x), inbox, outbox, |held|);
      assert (held + made)[..|held|] + [c] + (held + made)[|held|..] == (held + [c]) + made;
    } else {
      HandlerAnswers(t, r, x.state, other, AsResponder(x), inbox, outbox);
      DeferralKeeps(t, other, AsResponder(x), inbox, outbox, |held| + |made|);
      assert Calls(y.made) == made + [c];
      assert (held + made)[..|held| + |made|] + [c] + (held + made)[|held| + |made|..] == held + (made + [c]);
    }
  }

  /** What a request asked for, as its receiver reads it. */
  function AskedAs(t: Table, q: Requester, id: Id): Val
    requires id in q.asked
  {
    Norm(t.params(q.asked[id].method_), q.asked[id].params)
  }

  /** A handler is called with the normal form of what was asked, a value of the
      method's parameter type, so its answer is one of the result type. */
  lemma HandlerAnswers<S(!new)>(t: Table, r: Router<S>, state: S, other: Requester, s: Responder,
                                inbox: seq<Frame>, outbox: seq<Frame>)
    requires Sound(t) && Typed(t, r) && Link(t, other, s, inbox, outbox)
    requires inbox != [] && inbox[0].Request?
    ensures inbox[0].id in other.asked && other.asked[inbox[0].id].method_ == inbox[0].method_
    ensures HasType(t.params(inbox[0].method_), AskedAs(t, other, inbox[0].id))
    ensures var (_, v) := Served(t, r, state, inbox[0].method_, inbox[0].params);
            && TypedVerdict(t, inbox[0].method_, v)
            && v == if inbox[0].method_ !in r.handled then Refuse(METHOD_NOT_FOUND)
                    else r.on(state, inbox[0].method_, AskedAs(t, other, inbox[0].id)).1
  {
    hide Link, Enc, Dec, HasType, WellFormed, Norm;
    ArrivingCall(t, other, s, inbox, outbox);
    ArrivingParamsTyped(t, other, s, inbox, outbox);
  }

  lemma ArrivingParamsTyped(t: Table, other: Requester, s: Responder, inbox: seq<Frame>, outbox: seq<Frame>)
    requires Link(t, other, s, inbox, outbox) && Sound(t) && inbox != [] && inbox[0].Request?
    ensures Dec(t.params(inbox[0].method_), inbox[0].params).Ok?
    ensures HasType(t.params(inbox[0].method_), Dec(t.params(inbox[0].method_), inbox[0].params).value)
  {
    hide Link, Enc, Dec, WellFormed, Norm;
    ArrivingCall(t, other, s, inbox, outbox);
    Theorems.Decodes(t.params(inbox[0].method_), inbox[0].params);
  }

  lemma NoticeDelivered<S>(t: Table, r: Router<S>, x: Peer<S>, other: Requester, oppo: Responder,
                           inbox: seq<Frame>, outbox: seq<Frame>)
    requires Sound(t) && Linked(t, x, other, oppo, inbox, outbox)
    requires inbox != [] && inbox[0].Notice?
    ensures Linked(t, DeliverOne(Step, t, r, x, inbox[0]).0, other, oppo, inbox[1..], outbox)
  {
    hide Enc, Dec, HasType, WellFormed, Norm, Conserved, Faithful, Ordered;
    DeliverNotice(t, r, x, inbox[0]);
    ArrivingNotice(t, AsRequester(x), oppo, inbox);
    NoticeKeeps(t, AsRequester(x), oppo, outbox, inbox);
    ForeignOutTaken(t, other, AsResponder(x), inbox, outbox);
  }

  lemma ReplyDelivered<S>(t: Table, r: Router<S>, x: Peer<S>, other: Requester, oppo: Responder,
                          inbox: seq<Frame>, outbox: seq<Frame>)
    requires Linked(t, x, other, oppo, inbox, outbox)
    requires inbox != [] && IsReply(inbox[0])
    ensures Linked(t, DeliverOne(Step, t, r, x, inbox[0]).0, other, oppo, inbox[1..], outbox)
  {
    hide Link, DeliverOne;
    CompletionKeeps(t, AsRequester(x), oppo, outbox, inbox);
    DeliverReply(t, r, x, inbox[0]);
    ForeignOutTaken(t, other, AsResponder(x), inbox, outbox);
  }

  lemma DeliveryKeeps<S(!new)>(t: Table, r: Router<S>, x: Peer<S>, other: Requester, oppo: Responder,
                               inbox: seq<Frame>, outbox: seq<Frame>)
    requires Sound(t) && Typed(t, r) && Linked(t, x, other, oppo, inbox, outbox) && inbox != []
    ensures Linked(t, DeliverOne(Step, t, r, x, inbox[0]).0, other, oppo, inbox[1..], outbox)
  {
    hide Linked, DeliverOne, Sound, Typed;
    match inbox[0]
    case Request(_, _, _) => RequestKeeps(t, r, x, other, oppo, inbox, outbox);
    case Notice(_, _) => NoticeDelivered(t, r, x, other, oppo, inbox, outbox);
    case _ => ReplyDelivered(t, r, x, other, oppo, inbox, outbox);
  }

  // -------------------------------------------------------- putting answers on the wire

  /** Putting the next answer on the wire is what the host does with a held
      call: the answer was decided before, the notifications that precede it
      are those sent until now. */
  lemma PostingKeeps<S>(t: Table, x: Peer<S>, other: Requester, oppo: Responder, inbox: seq<Frame>, outbox: seq<Frame>)
    requires Linked(t, x, other, oppo, inbox, outbox) && x.made != []
    ensures Linked(t, PostOne(x), other, oppo, inbox, outbox + [MadeFrame(t, x.made[0])])
  {
    hide Link, Enc, HasType, TypedVerdict;
    var a := x.made[0];
    var held, made, k := x.held, Calls(x.made), |x.held|;
    LateReplyKeeps(t, other, AsResponder(x), inbox, outbox, k, a.verdict);
    ForeignOut(t, AsRequester(x), oppo, outbox, inbox, MadeFrame(t, a));
    assert Calls(x.made[1..]) == made[1..];
    assert (held + made)[..k] + (held + made)[k + 1..] == held + made[1..];
    assert (held + made)[k] == a.call;
  }

  /** The frames delivery returns are those of the answers it made, in order. */
  lemma {:induction false} BackIsMade<S>(t: Table, r: Router<S>, p: Peer<S>, w: seq<Frame>)
    ensures var (q, back, _) := DeliverAll(Step, t, r, p, w);
            p.made <= q.made && back == MadeFrames(t, q.made[|p.made|..])
    decreases |w|
  {
    hide DeliverOne, MadeFrame;
    if w == [] {
    } else {
      var n := |w| - 1;
      var (q, back, _) := DeliverAll(Step, t, r, p, w[..n]);
      BackIsMade(t, r, p, w[..n]);
      FrameIsMade(t, r, q, w[n]);
      var u := DeliverOne(Step, t, r, q, w[n]).0;
      assert u.made[|p.made|..] == q.made[|p.made|..] + u.made[|q.made|..];
    }
  }

  lemma FrameIsMade<S>(t: Table, r: Router<S>, p: Peer<S>, f: Frame)
    ensures var (q, back, _) := DeliverOne(Step, t, r, p, f);
            p.made <= q.made && back == MadeFrames(t, q.made[|p.made|..])
  {
    hide Served, Dec, Enc;
    match f
    case Request(_, _, _) => hide DeliverOne; DeliverRequest(t, r, p, f);
    case Notice(_, _) => hide DeliverOne; DeliverNotice(t, r, p, f);
    case _ =>
  }
}
