/** Invariants of a host: what its handlers keep, every move keeps. */
module HostInvariants {
  import opened Universe
  import opened Engine
  import opened Peers
  import opened Links
  import opened Exchange
  import opened Runs

  /** What serving the other peer may change. */
  datatype Service<S> = Service(
    state: S,
    held: seq<Call>,
    made: seq<Made>,
    given: map<Id, Given>,
    received: seq<Noted>
  )

  function Serves<S>(p: Peer<S>): Service<S> {
    Service(p.state, p.held, p.made, p.log.given, p.log.received)
  }

  /** P is about the service only, and handlers and replies keep it. */
  ghost predicate Stable<S(!new)>(t: Table, r: Router<S>, P: Peer<S> -> bool) {
    && (forall p, q :: P(p) && Serves(p) == Serves(q) ==> P(q))
    && (forall p, c :: P(p) ==> P(Handle(t, r, p, c).0))
    && (forall p, n :: P(p) ==> P(HandleNote(t, r, p, n)))
    && (forall p: Peer<S> | P(p) && p.made != [] :: P(PostOne(p)))
    && (forall p: Peer<S>, i: nat, v | P(p) && i < |p.held| :: P(ReplyHeld(t, p, i, v).0))
  }

  lemma ReplyChangesNoService<S>(t: Table, r: Router<S>, p: Peer<S>, f: Frame)
    requires IsReply(f)
    ensures Serves(DeliverOne(Step, t, r, p, f).0) == Serves(p)
  {
  }

  lemma FrameKeeps<S(!new)>(t: Table, r: Router<S>, P: Peer<S> -> bool, p: Peer<S>, f: Frame)
    requires Stable(t, r, P) && P(p)
    ensures P(DeliverOne(Step, t, r, p, f).0)
  {
    hide DeliverOne, Handle, HandleNote, ReplyHeld;
    match f
    case Request(_, _, _) => DeliverRequest(t, r, p, f);
    case Notice(_, _) => DeliverNotice(t, r, p, f);
    case _ => ReplyChangesNoService(t, r, p, f);
  }

  lemma {:induction false} FramesKeep<S(!new)>(t: Table, r: Router<S>, P: Peer<S> -> bool, p: Peer<S>, w: seq<Frame>)
    requires Stable(t, r, P) && P(p)
    ensures P(DeliverAll(Step, t, r, p, w).0)
    decreases |w|
  {
    hide DeliverOne, Stable;
    if w == [] {
    } else {
      var n := |w| - 1;
      FramesKeep(t, r, P, p, w[..n]);
      FrameKeeps(t, r, P, DeliverAll(Step, t, r, p, w[..n]).0, w[n]);
    }
  }

  lemma {:induction false} PostsKeepHost<S(!new)>(t: Table, r: Router<S>, P: Peer<S> -> bool, p: Peer<S>, n: nat)
    requires Stable(t, r, P) && P(p) && n <= |p.made|
    ensures P(Post(p, n))
    decreases n
  {
    hide PostOne, Handle, HandleNote, ReplyHeld;
    if n == 0 {
    } else {
      assert PostOne(p).made == p.made[1..] by { PostedIsGone(p); }
      PostsKeepHost(t, r, P, PostOne(p), n - 1);
    }
  }

  lemma PostedIsGone<S>(p: Peer<S>)
    requires p.made != []
    ensures PostOne(p).made == p.made[1..]
  {
  }

  lemma ActKeeps<S(!new)>(t: Table, r: Router<S>, P: Peer<S> -> bool, x: Seat<S>, move: Move)
    requires Stable(t, r, P) && P(x.peer) && Possible(t, x, move)
    ensures P(Act(t, r, x, move).peer)
  {
    hide Handle, HandleNote, DeliverAll, ReplyHeld, Post, PostOne, HasType, TypedVerdict;
    match move
    case Asks(m, v) => assert Serves(Ask(t, x.peer, m, v).0) == Serves(x.peer);
    case Notifies(n, v) => assert Serves(Notify(t, x.peer, n, v).0) == Serves(x.peer);
    case Answers(i, v) =>
    case Delivers(n) => FramesKeep(t, r, P, x.peer, x.inbox[..n]);
    case Posts(n) => PostsKeepHost(t, r, P, x.peer, n);
  }

  /** Whatever both hosts' handlers keep holds in every run. */
  lemma {:induction false} RunKeepsHosts<C(!new), A(!new)>(u: Setup<C, A>, P: Peer<C> -> bool, Q: Peer<A> -> bool,
                                                          w: World<C, A>, turns: seq<Turn>)
    requires Stable(u.table, u.client, P) && Stable(u.table, u.agent, Q)
    requires P(w.client) && Q(w.agent) && IsRun(u, w, turns)
    ensures P(After(u, w, turns).client) && Q(After(u, w, turns).agent)
    decreases |turns|
  {
    hide Stable, Act, Possible;
    if turns == [] {
    } else {
      match turns[0] {
        case Client(move) => ActKeeps(u.table, u.client, P, ClientSeat(w), move);
        case Agent(move) => ActKeeps(u.table, u.agent, Q, AgentSeat(w), move);
      }
      RunKeepsHosts(u, P, Q, Next(u, w, turns[0]), turns[1..]);
    }
  }
}
