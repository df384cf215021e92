/** One direction of a connection: the requests of one peer and the replies and
    notifications it gets back, over two wires that keep their order. The link
    invariant says where every request is, what every reply carries, and what
    has been delivered before it. */
module Links {
  import opened JsonTree
  import opened Universe
  import opened Protocol
  import opened Engine
  import opened Peers

  /** The part of a peer that makes requests and hears notifications. */
  datatype Requester = Requester(engine: Engine, asked: map<Id, Asked>, received: seq<Noted>, done: seq<Done>)

  /** The part of a peer that answers requests and sends notifications; held are
      all calls that have not been answered on the wire. */
  datatype Responder = Responder(held: seq<Call>, given: map<Id, Given>, sent: seq<Noted>)

  function AsRequester<S>(p: Peer<S>): Requester {
    Requester(p.engine, p.log.asked, p.log.received, p.log.done)
  }

  function Calls(made: seq<Made>): seq<Call> {
    seq(|made|, i requires 0 <= i < |made| => made[i].call)
  }

  function AsResponder<S>(p: Peer<S>): Responder {
    Responder(p.held + Calls(p.made), p.log.given, p.log.sent)
  }

  // ------------------------------------------------------------ what is on a wire

  function RequestIn(f: Frame): multiset<Id> {
    if f.Request? then multiset{f.id} else multiset{}
  }

  predicate IsReply(f: Frame) {
    f.Response? || f.Failure?
  }

  function ReplyIn(f: Frame): multiset<Id> {
    if IsReply(f) then multiset{f.id} else multiset{}
  }

  function NoticeIn(f: Frame): seq<(Note, Json)> {
    if f.Notice? then [(f.note, f.params)] else []
  }

  function Requests(w: seq<Frame>): multiset<Id> {
    if w == [] then multiset{} else RequestIn(w[0]) + Requests(w[1..])
  }

  function Replies(w: seq<Frame>): multiset<Id> {
    if w == [] then multiset{} else ReplyIn(w[0]) + Replies(w[1..])
  }

  function Notices(w: seq<Frame>): seq<(Note, Json)> {
    if w == [] then [] else NoticeIn(w[0]) + Notices(w[1..])
  }

  function HeldIds(cs: seq<Call>): multiset<Id> {
    multiset(seq(|cs|, i requires 0 <= i < |cs| => cs[i].id))
  }

  function DoneIds(ds: seq<Done>): multiset<Id> {
    multiset(seq(|ds|, i requires 0 <= i < |ds| => ds[i].completed.id))
  }

  function OnWire(t: Table, n: Noted): (Note, Json) {
    (n.note, Enc(t.notes(n.note), n.params))
  }

  function AllOnWire(t: Table, ns: seq<Noted>): seq<(Note, Json)> {
    seq(|ns|, i requires 0 <= i < |ns| => OnWire(t, ns[i]))
  }

  lemma {:induction false} RequestsAppend(w: seq<Frame>, f: Frame)
    ensures Requests(w + [f]) == Requests(w) + RequestIn(f)
  {
    if w == [] {
      assert w + [f] == [f];
    } else {
      assert (w + [f])[1..] == w[1..] + [f];
      RequestsAppend(w[1..], f);
    }
  }

  lemma {:induction false} RepliesAppend(w: seq<Frame>, f: Frame)
    ensures Replies(w + [f]) == Replies(w) + ReplyIn(f)
  {
    if w == [] {
      assert w + [f] == [f];
    } else {
      assert (w + [f])[1..] == w[1..] + [f];
      RepliesAppend(w[1..], f);
    }
  }

  lemma {:induction false} NoticesAppend(w: seq<Frame>, f: Frame)
    ensures Notices(w + [f]) == Notices(w) + NoticeIn(f)
  {
    if w == [] {
      assert w + [f] == [f];
    } else {
      assert (w + [f])[1..] == w[1..] + [f];
      NoticesAppend(w[1..], f);
    }
  }

  lemma {:induction false} ReplyCounted(w: seq<Frame>, i: nat)
    requires i < |w| && IsReply(w[i])
    ensures w[i].id in Replies(w)
  {
    if i == 0 {
    } else {
      ReplyCounted(w[1..], i - 1);
    }
  }

  lemma {:induction false} RequestCounted(w: seq<Frame>, i: nat)
    requires i < |w| && w[i].Request?
    ensures w[i].id in Requests(w)
  {
    if i == 0 {
    } else {
      RequestCounted(w[1..], i - 1);
    }
  }

  lemma HeldCounted(cs: seq<Call>, i: nat)
    requires i < |cs|
    ensures cs[i].id in HeldIds(cs)
  {
    var ids := seq(|cs|, i requires 0 <= i < |cs| => cs[i].id);
    assert ids[i] in ids;
  }

  lemma DoneCounted(ds: seq<Done>, i: nat)
    requires i < |ds|
    ensures ds[i].completed.id in DoneIds(ds)
  {
    var ids := seq(|ds|, i requires 0 <= i < |ds| => ds[i].completed.id);
    assert ids[i] in ids;
  }

  lemma HeldInsert(cs: seq<Call>, k: nat, c: Call)
    requires k <= |cs|
    ensures HeldIds(cs[..k] + [c] + cs[k..]) == HeldIds(cs) + multiset{c.id}
  {
    var ids := seq(|cs|, i requires 0 <= i < |cs| => cs[i].id);
    var ds := cs[..k] + [c] + cs[k..];
    assert seq(|ds|, i requires 0 <= i < |ds| => ds[i].id) == ids[..k] + [c.id] + ids[k..];
    assert ids == ids[..k] + ids[k..];
  }

  lemma {:induction false} HeldIsThere(cs: seq<Call>, id: Id)
    requires id in HeldIds(cs)
    ensures exists i | 0 <= i < |cs| :: cs[i].id == id
  {
    if cs == [] {
    } else {
      var n := |cs| - 1;
      HeldInsert(cs[..n], n, cs[n]);
      assert cs[..n][..n] + [cs[n]] + cs[..n][n..] == cs;
      if cs[n].id != id {
        HeldIsThere(cs[..n], id);
      }
    }
  }

  lemma DoneAppend(ds: seq<Done>, d: Done)
    ensures DoneIds(ds + [d]) == DoneIds(ds) + multiset{d.completed.id}
  {
    var ids := seq(|ds|, i requires 0 <= i < |ds| => ds[i].completed.id);
    assert seq(|ds + [d]|, i requires 0 <= i < |ds + [d]| => (ds + [d])[i].completed.id) == ids + [d.completed.id];
  }

  lemma HeldRemove(cs: seq<Call>, i: nat)
    requires i < |cs|
    ensures HeldIds(cs) == HeldIds(cs[..i] + cs[i + 1..]) + multiset{cs[i].id}
  {
    var ids := seq(|cs|, i requires 0 <= i < |cs| => cs[i].id);
    var ds := cs[..i] + cs[i + 1..];
    assert seq(|ds|, i requires 0 <= i < |ds| => ds[i].id) == ids[..i] + ids[i + 1..];
    assert ids == ids[..i] + [ids[i]] + ids[i + 1..];
  }

  // --------------------------------------------------------------- the invariant

  /** Every pending request is in exactly one place: on its way, held by the
      peer, or answered and on its way back. Every request made is either
      pending or completed, once. */
  predicate Conserved(r: Requester, s: Responder, out: seq<Frame>, back: seq<Frame>) {
    && multiset(r.engine.pending.Keys) == Requests(out) + HeldIds(s.held) + Replies(back)
    && multiset(r.asked.Keys) == multiset(r.engine.pending.Keys) + DoneIds(r.done)
    && (forall id | id in r.asked :: id < r.engine.next)
    && (forall id: Id | id < r.engine.next :: id in r.asked)
  }

  /** The call is one that was made, as it was made. */
  predicate CallOk(t: Table, r: Requester, id: Id, m: Method, params: Json) {
    && id in r.engine.pending && id in r.asked
    && r.asked[id].method_ == m
    && params == Enc(t.params(m), r.asked[id].params)
  }

  /** The reply is the one that was given, to the method that was asked. */
  predicate ReplyOk(t: Table, r: Requester, s: Responder, f: Frame)
    requires IsReply(f)
  {
    && f.id in s.given && f.id in r.asked
    && s.given[f.id].method_ == r.asked[f.id].method_
    && TypedVerdict(t, s.given[f.id].method_, s.given[f.id].verdict)
    && f == ReplyFrame(t, f.id, s.given[f.id].method_, s.given[f.id].verdict)
  }

  function CompletedBy(f: Frame): Reply
    requires IsReply(f)
  {
    if f.Response? then Value(f.result) else Error(f.code)
  }

  /** The completion carries the reply that was given, and found exactly the
      notifications heard that were sent before that reply. */
  predicate DoneOk(t: Table, r: Requester, s: Responder, d: Done) {
    var id := d.completed.id;
    && id in s.given && id in r.asked
    && s.given[id].method_ == r.asked[id].method_
    && TypedVerdict(t, s.given[id].method_, s.given[id].verdict)
    && d.completed.reply == CompletedBy(ReplyFrame(t, id, s.given[id].method_, s.given[id].verdict))
    && d.seen == s.given[id].mark <= |r.received|
  }

  predicate Faithful(t: Table, r: Requester, s: Responder, out: seq<Frame>, back: seq<Frame>) {
    && (forall id | id in r.asked :: HasType(t.params(r.asked[id].method_), r.asked[id].params))
    && (forall i | 0 <= i < |out| && out[i].Request? :: CallOk(t, r, out[i].id, out[i].method_, out[i].params))
    && (forall i | 0 <= i < |s.held| :: CallOk(t, r, s.held[i].id, s.held[i].method_, s.held[i].params))
    && (forall i | 0 <= i < |back| && IsReply(back[i]) :: ReplyOk(t, r, s, back[i]))
    && (forall i | 0 <= i < |r.done| :: DoneOk(t, r, s, r.done[i]))
  }

  function Heard(t: Table, n: Noted): Noted {
    Noted(n.note, Norm(t.notes(n.note), n.params))
  }

  /** Notifications are heard in the order they were sent; what is not heard
      yet is on the wire. */
  predicate Streamed(t: Table, r: Requester, s: Responder, back: seq<Frame>) {
    && |r.received| <= |s.sent|
    && (forall i | 0 <= i < |s.sent| :: HasType(t.notes(s.sent[i].note), s.sent[i].params))
    && (forall i | 0 <= i < |r.received| :: r.received[i] == Heard(t, s.sent[i]))
    && Notices(back) == AllOnWire(t, s.sent[|r.received|..])
  }

  /** Each reply on the wire stands behind exactly the notifications that were
      sent before it was given; base of them have been heard. */
  predicate Ordered(given: map<Id, Given>, back: seq<Frame>, base: nat) {
    back != [] ==>
      && (IsReply(back[0]) ==> back[0].id in given && given[back[0].id].mark == base)
      && Ordered(given, back[1..], base + |NoticeIn(back[0])|)
  }

  predicate Link(t: Table, r: Requester, s: Responder, out: seq<Frame>, back: seq<Frame>) {
    && Conserved(r, s, out, back)
    && Faithful(t, r, s, out, back)
    && Streamed(t, r, s, back)
    && Ordered(s.given, back, |r.received|)
  }

  lemma {:induction false} OrderedAppend(given: map<Id, Given>, back: seq<Frame>, base: nat, f: Frame)
    requires Ordered(given, back, base)
    requires IsReply(f) ==> f.id in given && given[f.id].mark == base + |Notices(back)|
    ensures Ordered(given, back + [f], base)
  {
    if back == [] {
      assert back + [f] == [f];
    } else {
      assert (back + [f])[1..] == back[1..] + [f];
      OrderedAppend(given, back[1..], base + |NoticeIn(back[0])|, f);
    }
  }

  lemma {:induction false} OrderedElsewhere(given: map<Id, Given>, back: seq<Frame>, base: nat, id: Id, g: Given)
    requires Ordered(given, back, base) && id !in Replies(back)
    ensures Ordered(given[id := g], back, base)
  {
    if back == [] {
    } else {
      OrderedElsewhere(given, back[1..], base + |NoticeIn(back[0])|, id, g);
    }
  }

}
