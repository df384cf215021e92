/** A peer among strangers: whatever frames arrive, replies to nothing, repeated
    or forged ones included, and whatever the host replies to, no request
    completes twice. */
module Traffic {
  import opened Universe
  import opened Protocol
  import opened Engine
  import opened Peers
  import opened Links
  import opened LinkSteps
  import opened Exchange
  import opened Guarantees

  /** What a host may do with a peer, with no promise about the other side. */
  datatype Deed =
    | Asks(method_: Method, params: Val)
    | Notifies(note: Note, params: Val)
    | Replies(id: Id, method_: Method, verdict: Verdict)
    | Receives(frames: seq<Frame>)

  function Perform<S>(t: Table, r: Router<S>, p: Peer<S>, deed: Deed): Peer<S> {
    match deed
    case Asks(m, v) => Ask(t, p, m, v).0
    case Notifies(n, v) => Notify(t, p, n, v).0
    case Replies(id, m, v) => Giving(p, id, m, v)
    case Receives(frames) => DeliverAll(Step, t, r, p, frames).0
  }

  function PerformAll<S>(t: Table, r: Router<S>, p: Peer<S>, deeds: seq<Deed>): Peer<S>
    decreases |deeds|
  {
    if deeds == [] then p else PerformAll(t, r, Perform(t, r, p, deeds[0]), deeds[1..])
  }

  lemma AskingAccounts(r: Requester, m: Method, v: Val)
    requires Accounted(r)
    ensures Accounted(LinkSteps.Asks(r, m, v))
  {
    hide DoneIds;
    var id := r.engine.next;
    var pending, asked := r.engine.pending.Keys, r.asked.Keys;
    assert id !in asked;
    assert pending <= asked by {
      forall x | x in pending ensures x in asked {
        assert multiset(pending)[x] == 1 && multiset(asked)[x] >= 1;
      }
    }
    assert LinkSteps.Asks(r, m, v).engine.pending.Keys == pending + {id};
    assert LinkSteps.Asks(r, m, v).asked.Keys == asked + {id};
    OneMore(pending, id);
    OneMore(asked, id);
    BothMore(multiset(asked), multiset(pending), DoneIds(r.done), multiset{}, multiset{id});
  }

  lemma CompletingAccounts(r: Requester, f: Frame)
    requires Accounted(r) && IsReply(f) && f.id in r.engine.pending
    ensures Accounted(Completes(r, f))
  {
    var pending := r.engine.pending.Keys;
    var r' := Completes(r, f);
    assert r'.engine.pending.Keys == pending - {f.id};
    OneLess(pending, f.id);
    DoneAppend(r.done, r'.done[|r.done|]);
    hide DoneIds;
    LinkSteps.Moved(multiset(r.asked.Keys), multiset(pending - {f.id}), DoneIds(r.done), multiset{}, multiset{f.id});
  }

  /** A reply to no pending request changes nothing of a peer. */
  lemma StrangeReplyIsIgnored<S>(t: Table, r: Router<S>, p: Peer<S>, f: Frame)
    requires IsReply(f) && f.id !in p.engine.pending
    ensures DeliverOne(Step, t, r, p, f).0 == p && DeliverOne(Step, t, r, p, f).1 == []
  {
    assert p.log.done + [] == p.log.done;
  }

  lemma FrameAccounts<S>(t: Table, r: Router<S>, p: Peer<S>, f: Frame)
    requires Accounted(AsRequester(p))
    ensures Accounted(AsRequester(DeliverOne(Step, t, r, p, f).0))
  {
    hide DeliverOne, Accounted, Served, DoneIds;
    match f
    case Request(_, _, _) => DeliverRequest(t, r, p, f);
    case Notice(_, _) =>
      DeliverNotice(t, r, p, f);
      HearingAccounts(t, r, p, Notification(f.note, f.params));
    case _ =>
      if f.id in p.engine.pending {
        DeliverReply(t, r, p, f);
        CompletingAccounts(AsRequester(p), f);
      } else {
        StrangeReplyIsIgnored(t, r, p, f);
      }
  }

  lemma HearingAccounts<S>(t: Table, r: Router<S>, p: Peer<S>, n: Notification)
    requires Accounted(AsRequester(p))
    ensures Accounted(AsRequester(HandleNote(t, r, p, n)))
  {
    hide Dec, DoneIds;
  }

  lemma {:induction false} FramesAccount<S>(t: Table, r: Router<S>, p: Peer<S>, w: seq<Frame>)
    requires Accounted(AsRequester(p))
    ensures Accounted(AsRequester(DeliverAll(Step, t, r, p, w).0))
    decreases |w|
  {
    hide DeliverOne, Accounted;
    if w == [] {
    } else {
      var n := |w| - 1;
      FramesAccount(t, r, p, w[..n]);
      FrameAccounts(t, r, DeliverAll(Step, t, r, p, w[..n]).0, w[n]);
    }
  }

  lemma DeedAccounts<S>(t: Table, r: Router<S>, p: Peer<S>, deed: Deed)
    requires Accounted(AsRequester(p))
    ensures Accounted(AsRequester(Perform(t, r, p, deed)))
  {
    hide DeliverAll, Accounted, Enc;
    match deed
    case Asks(m, v) => AskingAccounts(AsRequester(p), m, v);
    case Receives(frames) => FramesAccount(t, r, p, frames);
    case _ => assert AsRequester(Perform(t, r, p, deed)) == AsRequester(p);
  }

  lemma {:induction false} DeedsAccount<S>(t: Table, r: Router<S>, p: Peer<S>, deeds: seq<Deed>)
    requires Accounted(AsRequester(p))
    ensures Accounted(AsRequester(PerformAll(t, r, p, deeds)))
    decreases |deeds|
  {
    hide Perform, Accounted;
    if deeds == [] {
    } else {
      DeedAccounts(t, r, p, deeds[0]);
      DeedsAccount(t, r, Perform(t, r, p, deeds[0]), deeds[1..]);
    }
  }

  /** Every request of a peer is pending or was completed exactly once, whatever
      was received in between. */
  lemma NothingCompletesTwice<S>(t: Table, r: Router<S>, state: S, deeds: seq<Deed>)
    ensures CompletesOnce(AsRequester(PerformAll(t, r, NewPeer(state), deeds)))
  {
    hide PerformAll, CompletesOnce;
    DeedsAccount(t, r, NewPeer(state), deeds);
    RequestsCompleteOnce(AsRequester(PerformAll(t, r, NewPeer(state), deeds)));
  }
}
