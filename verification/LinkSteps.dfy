/** What each thing a peer can do keeps of a link. */
module LinkSteps {
  import opened JsonTree
  import opened Universe
  import opened RoundTrip
  import opened Protocol
  import opened Engine
  import opened Peers
  import opened Links

  lemma OneMore(a: set<Id>, id: Id)
    requires id !in a
    ensures multiset(a + {id}) == multiset(a) + multiset{id}
  {
  }

  lemma OneLess(a: set<Id>, id: Id)
    requires id in a
    ensures multiset(a) == multiset(a - {id}) + multiset{id}
  {
    OneMore(a - {id}, id);
    assert (a - {id}) + {id} == a;
  }

  /** Adding the same ids on both sides. */
  lemma BothMore(p: multiset<Id>, a: multiset<Id>, b: multiset<Id>, c: multiset<Id>, x: multiset<Id>)
    requires p == a + b + c
    ensures p + x == (a + x) + b + c
  {
  }

  /** Moving ids from one place to another. */
  lemma Moved(p: multiset<Id>, a: multiset<Id>, b: multiset<Id>, c: multiset<Id>, x: multiset<Id>)
    requires p == (x + a) + b + c
    ensures p == a + (b + x) + c && p == a + b + (c + x)
  {
  }

  // ------------------------------------------------------- the requester's steps

  function Asks(r: Requester, m: Method, v: Val): Requester {
    r.(engine := Asking(r.engine, m), asked := r.asked[r.engine.next := Asked(m, v)])
  }

  lemma PendingWereAsked(r: Requester, s: Responder, out: seq<Frame>, back: seq<Frame>)
    requires Conserved(r, s, out, back)
    ensures r.engine.pending.Keys <= r.asked.Keys
  {
    forall id | id in r.engine.pending.Keys ensures id in r.asked.Keys {
      assert multiset(r.engine.pending.Keys)[id] == 1;
      assert multiset(r.asked.Keys)[id] >= 1;
    }
  }

  lemma AskConserves(r: Requester, s: Responder, out: seq<Frame>, back: seq<Frame>, m: Method, v: Val, j: Json)
    requires Conserved(r, s, out, back)
    ensures Conserved(Asks(r, m, v), s, out + [Request(r.engine.next, m, j)], back)
  {
    var id := r.engine.next;
    var r' := Asks(r, m, v);
    var pending, asked := r.engine.pending.Keys, r.asked.Keys;
    PendingWereAsked(r, s, out, back);
    RequestsAppend(out, Request(id, m, j));
    assert id !in asked && id !in pending;
    assert r'.engine.pending.Keys == pending + {id} && r'.asked.Keys == asked + {id};
    OneMore(pending, id);
    OneMore(asked, id);
    BothMore(multiset(pending), Requests(out), HeldIds(s.held), Replies(back), multiset{id});
    hide Requests, Replies, HeldIds, DoneIds;
    BothMore(multiset(asked), multiset(pending), DoneIds(r.done), multiset{}, multiset{id});
  }

  /** A new request goes out under a fresh id. */
  lemma AskKeeps(t: Table, r: Requester, s: Responder, out: seq<Frame>, back: seq<Frame>, m: Method, v: Val)
    requires Link(t, r, s, out, back) && HasType(t.params(m), v)
    ensures Link(t, Asks(r, m, v), s, out + [Request(r.engine.next, m, Enc(t.params(m), v))], back)
  {
    hide Enc, HasType, Notices, Ordered, ReplyFrame, TypedVerdict, Conserved;
    var j := Enc(t.params(m), v);
    AskConserves(r, s, out, back, m, v, j);
    IdsBelowNext(r, s, out, back);
  }

  lemma IdsBelowNext(r: Requester, s: Responder, out: seq<Frame>, back: seq<Frame>)
    requires Conserved(r, s, out, back)
    ensures forall id | id in r.asked :: id < r.engine.next
  {
  }

  function Completes(r: Requester, f: Frame): Requester
    requires IsReply(f)
  {
    r.(engine := r.engine.(pending := r.engine.pending - {f.id}),
       done := r.done + [Done(Completed(f.id, CompletedBy(f)), |r.received|)])
  }

  lemma Dropped(p: multiset<Id>, q: multiset<Id>, a: multiset<Id>, b: multiset<Id>, c: multiset<Id>, x: multiset<Id>)
    requires p == a + b + (x + c) && p == q + x
    ensures q == a + b + c
  {
    assert forall id :: p[id] == q[id] + x[id];
  }

  lemma CompletionConserves(r: Requester, s: Responder, out: seq<Frame>, back: seq<Frame>)
    requires Conserved(r, s, out, back) && back != [] && IsReply(back[0])
    ensures back[0].id in r.engine.pending
    ensures Conserved(Completes(r, back[0]), s, out, back[1..])
  {
    var id := back[0].id;
    var r' := Completes(r, back[0]);
    var pending := r.engine.pending.Keys;
    assert Replies(back) == multiset{id} + Replies(back[1..]);
    assert id in multiset(pending);
    assert r'.engine.pending.Keys == pending - {id};
    OneLess(pending, id);
    DoneAppend(r.done, r'.done[|r.done|]);
    hide Requests, Replies, HeldIds, DoneIds;
    Dropped(multiset(pending), multiset(pending - {id}), Requests(out), HeldIds(s.held), Replies(back[1..]),
            multiset{id});
    Moved(multiset(r.asked.Keys), multiset(pending - {id}), DoneIds(r.done), multiset{}, multiset{id});
  }

  /** The other places hold other ids than the reply at the head. */
  lemma HeadIsElsewhere(r: Requester, s: Responder, out: seq<Frame>, back: seq<Frame>, id: Id)
    requires Conserved(r, s, out, back)
    requires id in Replies(back)
    ensures forall i | 0 <= i < |out| && out[i].Request? :: out[i].id != id
    ensures forall i | 0 <= i < |s.held| :: s.held[i].id != id
    ensures forall i | 0 <= i < |r.done| :: r.done[i].completed.id != id
  {
    var pending := multiset(r.engine.pending.Keys);
    assert pending[id] <= 1;
    forall i | 0 <= i < |out| && out[i].Request? ensures out[i].id != id { RequestCounted(out, i); }
    forall i | 0 <= i < |s.held| ensures s.held[i].id != id { HeldCounted(s.held, i); }
    assert multiset(r.asked.Keys)[id] <= 1;
    forall i | 0 <= i < |r.done| ensures r.done[i].completed.id != id { DoneCounted(r.done, i); }
  }

  /** A reply at the head of the wire completes its request, and finds exactly
      the notifications heard that were sent before it. */
  lemma CompletionKeeps(t: Table, r: Requester, s: Responder, out: seq<Frame>, back: seq<Frame>)
    requires Link(t, r, s, out, back) && back != [] && IsReply(back[0])
    ensures back[0].id in r.engine.pending
    ensures Link(t, Completes(r, back[0]), s, out, back[1..])
  {
    hide Enc, HasType, TypedVerdict, ReplyFrame, Conserved;
    CompletionConserves(r, s, out, back);
    assert back[0].id in Replies(back);
    HeadIsElsewhere(r, s, out, back, back[0].id);
    assert ReplyOk(t, r, s, back[0]);
    assert NoticeIn(back[0]) == [];
    assert Notices(back) == Notices(back[1..]);
    assert forall i | 0 <= i < |back[1..]| :: back[1..][i] == back[i + 1];
  }

  function Hears(t: Table, r: Requester, n: Noted): Requester {
    r.(received := r.received + [Heard(t, n)])
  }

  lemma NextNotice(t: Table, r: Requester, s: Responder, back: seq<Frame>)
    requires Streamed(t, r, s, back) && back != [] && back[0].Notice?
    ensures |r.received| < |s.sent|
    ensures (back[0].note, back[0].params) == OnWire(t, s.sent[|r.received|])
    ensures Streamed(t, Hears(t, r, s.sent[|r.received|]), s, back[1..])
  {
    hide Enc, HasType, Norm;
    var k := |r.received|;
    var left := AllOnWire(t, s.sent[k..]);
    assert Notices(back) == [(back[0].note, back[0].params)] + Notices(back[1..]);
    assert |left| > 0 && left[0] == OnWire(t, s.sent[k]);
    assert left[1..] == AllOnWire(t, s.sent[k + 1..]);
    assert Notices(back[1..]) == left[1..];
  }

  /** A notification at the head of the wire is the next one that was sent, and
      it decodes to its normal form. */
  lemma ArrivingNotice(t: Table, r: Requester, s: Responder, back: seq<Frame>)
    requires Streamed(t, r, s, back) && Sound(t) && back != [] && back[0].Notice?
    ensures |r.received| < |s.sent| && back[0].note == s.sent[|r.received|].note
    ensures Dec(t.notes(back[0].note), back[0].params) == Ok(Heard(t, s.sent[|r.received|]).params)
  {
    hide Enc, HasType, Dec, Norm, WellFormed, Notices;
    NextNotice(t, r, s, back);
    var n := s.sent[|r.received|];
    RoundTrips(t.notes(n.note), n.params);
  }

  lemma FaithfulByRequests(t: Table, r: Requester, r': Requester, s: Responder, out: seq<Frame>, back: seq<Frame>)
    requires Faithful(t, r, s, out, back) && back != []
    requires r'.asked == r.asked && r'.engine == r.engine && r'.done == r.done && |r.received| <= |r'.received|
    ensures Faithful(t, r', s, out, back[1..])
  {
    hide Enc, HasType, TypedVerdict, ReplyFrame;
    assert forall i | 0 <= i < |back[1..]| :: back[1..][i] == back[i + 1];
  }

  lemma NoticeKeeps(t: Table, r: Requester, s: Responder, out: seq<Frame>, back: seq<Frame>)
    requires Link(t, r, s, out, back) && back != [] && back[0].Notice?
    ensures |r.received| < |s.sent|
    ensures Link(t, Hears(t, r, s.sent[|r.received|]), s, out, back[1..])
  {
    hide Streamed, Faithful;
    NextNotice(t, r, s, back);
    FaithfulByRequests(t, r, Hears(t, r, s.sent[|r.received|]), s, out, back);
    assert Replies(back) == Replies(back[1..]);
  }

  // ------------------------------------------------------- the responder's steps

  function Sends(s: Responder, n: Noted): Responder {
    s.(sent := s.sent + [n])
  }

  lemma SentStreams(t: Table, r: Requester, s: Responder, back: seq<Frame>, n: Noted)
    requires Streamed(t, r, s, back) && HasType(t.notes(n.note), n.params)
    ensures Streamed(t, r, Sends(s, n), back + [Notice(n.note, Enc(t.notes(n.note), n.params))])
  {
    hide Enc, HasType, Norm;
    var k := |r.received|;
    NoticesAppend(back, Notice(n.note, Enc(t.notes(n.note), n.params)));
    assert Sends(s, n).sent[k..] == s.sent[k..] + [n];
    assert AllOnWire(t, Sends(s, n).sent[k..]) == AllOnWire(t, s.sent[k..]) + [OnWire(t, n)];
  }

  lemma NotifyKeeps(t: Table, r: Requester, s: Responder, out: seq<Frame>, back: seq<Frame>, n: Noted)
    requires Link(t, r, s, out, back) && HasType(t.notes(n.note), n.params)
    ensures Link(t, r, Sends(s, n), out, back + [Notice(n.note, Enc(t.notes(n.note), n.params))])
  {
    hide Enc, HasType, TypedVerdict, ReplyFrame, Norm, Streamed, DoneOk, CallOk;
    var f := Notice(n.note, Enc(t.notes(n.note), n.params));
    RepliesAppend(back, f);
    SentStreams(t, r, s, back, n);
    OrderedAppend(s.given, back, |r.received|, f);
    assert Conserved(r, Sends(s, n), out, back + [f]);
    assert Faithful(t, r, Sends(s, n), out, back + [f]) by { FaithfulByGiven(t, r, s, Sends(s, n), out, back, f); }
  }

  lemma FaithfulByGiven(t: Table, r: Requester, s: Responder, u: Responder, out: seq<Frame>, back: seq<Frame>, f: Frame)
    requires Faithful(t, r, s, out, back) && u.held == s.held && u.given == s.given && !IsReply(f)
    ensures Faithful(t, r, u, out, back + [f])
  {
    hide Enc, HasType, TypedVerdict, ReplyFrame, Norm;
  }

  function Gives(s: Responder, id: Id, m: Method, v: Verdict): Responder {
    s.(given := s.given[id := Given(m, v, |s.sent|)])
  }

  /** An answer to a call that is nowhere else joins the wire behind all the
      notifications sent so far. */
  lemma AnswerKeeps(t: Table, r: Requester, s: Responder, out: seq<Frame>, back: seq<Frame>,
                    id: Id, m: Method, v: Verdict)
    requires Faithful(t, r, s, out, back) && Streamed(t, r, s, back) && Ordered(s.given, back, |r.received|)
    requires id in r.asked && r.asked[id].method_ == m && TypedVerdict(t, m, v)
    requires id !in Replies(back) && forall i | 0 <= i < |r.done| :: r.done[i].completed.id != id
    ensures var s' := Gives(s, id, m, v); var back' := back + [ReplyFrame(t, id, m, v)];
            Faithful(t, r, s', out, back') && Streamed(t, r, s', back') && Ordered(s'.given, back', |r.received|)
  {
    hide Enc, HasType, TypedVerdict, Norm;
    var f := ReplyFrame(t, id, m, v);
    var s' := Gives(s, id, m, v);
    assert IsReply(f) && f.id == id;
    NoticesAppend(back, f);
    forall i | 0 <= i < |back| && IsReply(back[i]) ensures ReplyOk(t, r, s', back[i]) {
      ReplyCounted(back, i);
    }
    OrderedElsewhere(s.given, back, |r.received|, id, Given(m, v, |s.sent|));
    OrderedAppend(s'.given, back, |r.received|, f);
  }

  function TakesHeld(s: Responder, i: nat): Responder
    requires i < |s.held|
  {
    s.(held := s.held[..i] + s.held[i + 1..])
  }

  lemma HeldIsElsewhere(r: Requester, s: Responder, out: seq<Frame>, back: seq<Frame>, id: Id)
    requires Conserved(r, s, out, back) && (id in HeldIds(s.held) || id in Requests(out))
    ensures id in r.engine.pending
    ensures id !in Replies(back)
    ensures forall i | 0 <= i < |r.done| :: r.done[i].completed.id != id
  {
    assert multiset(r.engine.pending.Keys)[id] == 1;
    assert multiset(r.asked.Keys)[id] <= 1;
    forall i | 0 <= i < |r.done| ensures r.done[i].completed.id != id { DoneCounted(r.done, i); }
  }

  lemma LateReplyConserves(t: Table, r: Requester, s: Responder, out: seq<Frame>, back: seq<Frame>, i: nat, v: Verdict)
    requires Conserved(r, s, out, back) && i < |s.held|
    ensures var c := s.held[i];
            Conserved(r, Gives(TakesHeld(s, i), c.id, c.method_, v), out, back + [ReplyFrame(t, c.id, c.method_, v)])
  {
    hide Enc;
    var c := s.held[i];
    var rest := HeldIds(TakesHeld(s, i).held);
    HeldRemove(s.held, i);
    RepliesAppend(back, ReplyFrame(t, c.id, c.method_, v));
    hide Requests, Replies, HeldIds, DoneIds;
    assert multiset(r.engine.pending.Keys) == (multiset{c.id} + rest) + Requests(out) + Replies(back);
    Moved(multiset(r.engine.pending.Keys), rest, Requests(out), Replies(back), multiset{c.id});
  }

  lemma TakingHeldIsFaithful(t: Table, r: Requester, s: Responder, out: seq<Frame>, back: seq<Frame>, i: nat)
    requires Faithful(t, r, s, out, back) && i < |s.held|
    ensures Faithful(t, r, TakesHeld(s, i), out, back)
  {
    hide Enc, HasType, TypedVerdict, Norm, ReplyFrame, CallOk;
    var u := TakesHeld(s, i);
    assert forall k | 0 <= k < |u.held| :: u.held[k] == s.held[if k < i then k else k + 1];
  }

  /** The host answers a call it held. */
  lemma LateReplyKeeps(t: Table, r: Requester, s: Responder, out: seq<Frame>, back: seq<Frame>, i: nat, v: Verdict)
    requires Link(t, r, s, out, back) && i < |s.held| && TypedVerdict(t, s.held[i].method_, v)
    ensures var c := s.held[i];
            Link(t, r, Gives(TakesHeld(s, i), c.id, c.method_, v), out, back + [ReplyFrame(t, c.id, c.method_, v)])
  {
    hide Enc, HasType, TypedVerdict, Norm, Streamed, Ordered, Conserved, ReplyFrame, ReplyOk, DoneOk;
    var c := s.held[i];
    HeldCounted(s.held, i);
    HeldIsElsewhere(r, s, out, back, c.id);
    assert CallOk(t, r, c.id, c.method_, c.params);
    StreamedBySent(t, r, s, TakesHeld(s, i), back);
    TakingHeldIsFaithful(t, r, s, out, back, i);
    hide Faithful;
    AnswerKeeps(t, r, TakesHeld(s, i), out, back, c.id, c.method_, v);
    LateReplyConserves(t, r, s, out, back, i, v);
  }

  lemma StreamedBySent(t: Table, r: Requester, s: Responder, u: Responder, back: seq<Frame>)
    requires Streamed(t, r, s, back) && u.sent == s.sent
    ensures Streamed(t, r, u, back)
  {
  }

  /** A request at the head of the wire is one that was made, with parameters
      that decode to the normal form of what was asked. */
  lemma ArrivingCall(t: Table, r: Requester, s: Responder, out: seq<Frame>, back: seq<Frame>)
    requires Link(t, r, s, out, back) && Sound(t) && out != [] && out[0].Request?
    ensures out[0].id in r.asked && r.asked[out[0].id].method_ == out[0].method_
    ensures Dec(t.params(out[0].method_), out[0].params)
         == Ok(Norm(t.params(out[0].method_), r.asked[out[0].id].params))
  {
    hide Enc, HasType, TypedVerdict, Norm, Dec, Streamed, Ordered, Conserved;
    var a := r.asked[out[0].id];
    assert CallOk(t, r, out[0].id, out[0].method_, out[0].params);
    RoundTrips(t.params(a.method_), a.params);
  }

  function Defers(s: Responder, k: nat, f: Frame): Responder
    requires k <= |s.held| && f.Request?
  {
    s.(held := s.held[..k] + [Call(f.id, f.method_, f.params)] + s.held[k..])
  }

  lemma DeferralConserves(r: Requester, s: Responder, out: seq<Frame>, back: seq<Frame>, k: nat)
    requires Conserved(r, s, out, back) && out != [] && out[0].Request? && k <= |s.held|
    ensures Conserved(r, Defers(s, k, out[0]), out[1..], back)
  {
    var id := out[0].id;
    HeldInsert(s.held, k, Call(id, out[0].method_, out[0].params));
    assert Requests(out) == multiset{id} + Requests(out[1..]);
    hide Requests, Replies, HeldIds, DoneIds;
    Moved(multiset(r.engine.pending.Keys), Requests(out[1..]), HeldIds(s.held), Replies(back), multiset{id});
  }

  lemma DeferralIsFaithful(t: Table, r: Requester, s: Responder, out: seq<Frame>, back: seq<Frame>, k: nat)
    requires Faithful(t, r, s, out, back) && out != [] && out[0].Request? && k <= |s.held|
    ensures Faithful(t, r, Defers(s, k, out[0]), out[1..], back)
  {
    hide Enc, HasType, TypedVerdict, Norm, ReplyFrame, CallOk;
    var u := Defers(s, k, out[0]);
    assert forall i | 0 <= i < |out[1..]| :: out[1..][i] == out[i + 1];
    assert forall i | 0 <= i < |u.held| && i != k :: u.held[i] == s.held[if i < k then i else i - 1];
  }

  /** A call moves from the wire to the peer, among those not answered on the
      wire: held by the host, or answered by a handler and not sent yet. */
  lemma DeferralKeeps(t: Table, r: Requester, s: Responder, out: seq<Frame>, back: seq<Frame>, k: nat)
    requires Link(t, r, s, out, back) && out != [] && out[0].Request? && k <= |s.held|
    ensures Link(t, r, Defers(s, k, out[0]), out[1..], back)
  {
    hide Enc, HasType, TypedVerdict, Norm, Ordered, Conserved, Faithful, ReplyFrame;
    DeferralConserves(r, s, out, back, k);
    DeferralIsFaithful(t, r, s, out, back, k);
  }

  /** The calls without the first one of that id, if there is one. */
  function Without(cs: seq<Call>, id: Id): seq<Call> {
    if cs == [] then [] else if cs[0].id == id then cs[1..] else [cs[0]] + Without(cs[1..], id)
  }

  lemma {:induction false} WithoutCounts(cs: seq<Call>, id: Id)
    ensures HeldIds(cs) == HeldIds(Without(cs, id)) + if id in HeldIds(cs) then multiset{id} else multiset{}
  {
    if cs == [] {
    } else {
      WithoutCounts(cs[1..], id);
      HeldInsert(cs[1..], 0, cs[0]);
      HeldInsert(Without(cs[1..], id), 0, cs[0]);
      assert cs[1..][..0] + [cs[0]] + cs[1..][0..] == cs;
      assert Without(cs[1..], id)[..0] + [cs[0]] + Without(cs[1..], id)[0..] == [cs[0]] + Without(cs[1..], id);
    }
  }

  /** A reply may go on the wire exactly when the peer still owes one: any other,
      to a call that was answered before or was never made, leaves some id in
      more than one place. */
  lemma OnlyOwedRepliesConserve(r: Requester, s: Responder, out: seq<Frame>, back: seq<Frame>, f: Frame)
    requires Conserved(r, s, out, back) && IsReply(f)
    ensures Conserved(r, s.(held := Without(s.held, f.id)), out, back + [f]) <==> f.id in HeldIds(s.held)
  {
    WithoutCounts(s.held, f.id);
    RepliesAppend(back, f);
    hide Requests, Replies, HeldIds, DoneIds;
    var pending := multiset(r.engine.pending.Keys);
    var rest := HeldIds(Without(s.held, f.id));
    Owed(pending, HeldIds(s.held), rest, Requests(out), Replies(back), f.id);
  }

  /** Adding one id to a place of a sum and taking it from another, if it is
      there, keeps the sum exactly when it is there. */
  lemma Owed(p: multiset<Id>, held: multiset<Id>, rest: multiset<Id>, a: multiset<Id>, b: multiset<Id>, id: Id)
    requires p == a + held + b && held == rest + if id in held then multiset{id} else multiset{}
    ensures p == a + rest + (b + multiset{id}) <==> id in held
  {
    if id in held {
      Moved(p, rest, a, b, multiset{id});
    } else {
      assert p[id] < (a + rest + (b + multiset{id}))[id];
    }
  }

  // ------------------------------------------ frames of the opposite direction

  lemma FaithfulByForeign(t: Table, r: Requester, s: Responder, out: seq<Frame>, back: seq<Frame>, f: Frame)
    requires Faithful(t, r, s, out, back) && !f.Request?
    ensures Faithful(t, r, s, out + [f], back)
  {
    hide CallOk, ReplyOk, DoneOk, HasType;
  }

  /** What is no request leaves the outgoing side of a link alone. */
  lemma ForeignOut(t: Table, r: Requester, s: Responder, out: seq<Frame>, back: seq<Frame>, f: Frame)
    requires Link(t, r, s, out, back) && !f.Request?
    ensures Link(t, r, s, out + [f], back)
  {
    hide Faithful, Streamed, Ordered, HeldIds, DoneIds, Replies;
    FaithfulByForeign(t, r, s, out, back, f);
    RequestsAppend(out, f);
  }

  lemma ForeignOutTaken(t: Table, r: Requester, s: Responder, out: seq<Frame>, back: seq<Frame>)
    requires Link(t, r, s, out, back) && out != [] && !out[0].Request?
    ensures Link(t, r, s, out[1..], back)
  {
    hide Enc, HasType, TypedVerdict, Norm, Streamed, Ordered, ReplyOk, DoneOk;
    assert forall i | 0 <= i < |out[1..]| :: out[1..][i] == out[i + 1];
    assert Requests(out) == Requests(out[1..]);
  }

  /** A request of the responder leaves the returning side of a link alone. */
  lemma ForeignBack(t: Table, r: Requester, s: Responder, out: seq<Frame>, back: seq<Frame>, f: Frame)
    requires Link(t, r, s, out, back) && f.Request?
    ensures Link(t, r, s, out, back + [f])
  {
    hide Enc, HasType, Norm, Faithful;
    RepliesAppend(back, f);
    NoticesAppend(back, f);
    OrderedAppend(s.given, back, |r.received|, f);
    FaithfulByGiven(t, r, s, s, out, back, f);
    assert Notices(back + [f]) == Notices(back);
  }

  lemma ForeignBackTaken(t: Table, r: Requester, s: Responder, out: seq<Frame>, back: seq<Frame>)
    requires Link(t, r, s, out, back) && back != [] && back[0].Request?
    ensures Link(t, r, s, out, back[1..])
  {
    hide Enc, HasType, Norm, Faithful, HeldIds, DoneIds, AllOnWire, Heard;
    FaithfulByRequests(t, r, r, s, out, back);
    assert Replies(back) == Replies(back[1..]);
    assert Notices(back) == Notices(back[1..]);
  }
}
