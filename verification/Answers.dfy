/** The client and the agent of tests/protocol_loopback.cpp: in every run, what a
    completed request reads is the answer to what it asked. */
module Answers {
  import opened JsonTree
  import opened Universe
  import opened Protocol
  import opened Engine
  import opened Peers
  import opened Links
  import opened Runs
  import opened Guarantees
  import opened Promises
  import opened Methods
  import opened Loopback
  import Handshake
  import PromptTurn

  predicate AgentPromise(m: Method, p: Val, v: Verdict) {
    && (m.Initialize? ==> v == Answer(InitializeAnswer(VersionOf(p))))
    && (m.SessionNew? ==> v.Answer?)
  }

  predicate ClientPromise(m: Method, p: Val, v: Verdict) {
    m.RequestPermission? ==> v == Permitted(p)
  }

  lemma RoutersMeet(t: Table)
    ensures Meets(t, AgentRouter(), AgentPromise) && Meets(t, ClientRouter(), ClientPromise)
  {
    hide HasType, VersionOf, InitializeAnswer, SessionAnswer, SessionName, Permitted;
  }

  // ----------------------------------------------------------- what completions read

  /** A permission request reads as the first option it offered, or was refused
      because it offered none. */
  predicate PermissionRead(asked: map<Id, Asked>, c: Completed) {
    c.id in asked && asked[c.id].method_.RequestPermission? ==>
      if OffersSome(asked[c.id].params) then
        var read := ResultOf(Acp(), RequestPermission, c);
        read.Ok? && SelectsFirst(asked[c.id].params, read.value)
      else c.reply == Error(-32603)
  }

  /** An initialize request reads as the version it asked for. */
  predicate VersionRead(asked: map<Id, Asked>, c: Completed) {
    c.id in asked && asked[c.id].method_.Initialize? ==>
      var read := ResultOf(Acp(), Initialize, c);
      read.Ok? && VersionOf(read.value) == VersionOf(asked[c.id].params)
  }

  /** Two session/new requests read as sessions with different ids. */
  predicate SessionsDiffer(asked: map<Id, Asked>, c: Completed, d: Completed) {
    && c.id in asked && d.id in asked && c.id != d.id
    && asked[c.id].method_.SessionNew? && asked[d.id].method_.SessionNew?
    ==>
      var r, q := ResultOf(Acp(), SessionNew, c), ResultOf(Acp(), SessionNew, d);
      r.Ok? && q.Ok? && MemberOf(r.value, 0) != MemberOf(q.value, 0)
  }

  /** A method that is not registered is refused as unknown. */
  predicate UnknownRefused(registered: set<Method>, asked: map<Id, Asked>, c: Completed) {
    c.id in asked && asked[c.id].method_ !in registered ==> c.reply == Error(-32601)
  }

  const BY_AGENT := {Initialize, SessionNew, SessionPrompt}
  const BY_CLIENT := {RequestPermission}

  lemma PermissionIsRead(q: Requester, s: Responder, d: Done)
    requires Arrived(Acp(), q, s, d)
    requires Fits(Acp(), ClientRouter(), ClientPromise, q, d.completed.id, s.given[d.completed.id])
    requires var a := q.asked[d.completed.id]; HasType(Params(a.method_), a.params)
    ensures PermissionRead(q.asked, d.completed)
  {
    hide Params, Returns, NoteParams, HasType, Norm, FirstOption, Selected, OffersSome, SelectsFirst, ResultOf;
    var id := d.completed.id;
    if q.asked[id].method_.RequestPermission? {
      PromptTurn.PermissionAnswered(q.asked[id].params);
      PermissionParams(q.asked[id].params);
      if FirstOption(q.asked[id].params).Just? {
        PermissionSelected(FirstOption(q.asked[id].params).value);
      }
    }
  }

  lemma PermissionParams(params: Val)
    requires HasType(Params(RequestPermission), params)
    ensures FirstOption(params).Just? <==> OffersSome(params)
    ensures FirstOption(params).Just? ==> SelectsFirst(params, Selected(FirstOption(params).value))
  {
    hide HasType, RequestPermissionParams, FirstOption, OffersSome, SelectsFirst, Selected;
    FirstIsFirst(params);
  }

  lemma PermissionSelected(id: string)
    ensures Norm(Returns(RequestPermission), Selected(id)) == Selected(id)
  {
    hide Norm, Selected, RequestPermissionResult;
    ReturnsOfTheHandled();
    PromptTurn.SelectionIsCanonical(id);
  }

  lemma VersionIsRead(q: Requester, s: Responder, d: Done)
    requires Arrived(Acp(), q, s, d)
    requires Fits(Acp(), AgentRouter(), AgentPromise, q, d.completed.id, s.given[d.completed.id])
    requires var a := q.asked[d.completed.id]; HasType(Params(a.method_), a.params)
    ensures VersionRead(q.asked, d.completed)
  {
    hide Params, Returns, NoteParams, HasType, Norm, VersionOf, InitializeAnswer, ResultOf;
    if q.asked[d.completed.id].method_.Initialize? {
      Handshake.EchoSurvives(q.asked[d.completed.id].params);
    }
  }

  lemma UnknownIsRefused<S>(r: Router<S>, promise: Promise, q: Requester, s: Responder, d: Done)
    requires Arrived(Acp(), q, s, d)
    requires Fits(Acp(), r, promise, q, d.completed.id, s.given[d.completed.id])
    ensures UnknownRefused(r.deferred + r.handled, q.asked, d.completed)
  {
    hide Params, Returns, NoteParams, HasType, Norm, ResultOf;
  }

  lemma Registered()
    ensures AgentRouter().deferred + AgentRouter().handled == BY_AGENT
    ensures ClientRouter().deferred + ClientRouter().handled == BY_CLIENT
  {
  }

  /** What the reply to session/new reads. */
  lemma SessionIsRead(p: Peer<AgentState>, q: Requester, d: Done) returns (k: nat)
    requires NamesSessions(p) && Arrived(Acp(), q, AsResponder(p), d)
    requires Fits(Acp(), AgentRouter(), AgentPromise, q, d.completed.id, p.log.given[d.completed.id])
    requires q.asked[d.completed.id].method_.SessionNew?
    ensures d.completed.id in p.log.given && p.log.given[d.completed.id].method_.SessionNew?
    ensures OpensSession(SessionNew, p.log.given[d.completed.id].verdict)
    ensures p.log.given[d.completed.id].verdict == Answer(SessionAnswer(SessionName(k)))
    ensures ResultOf(Acp(), SessionNew, d.completed) == Ok(SessionAnswer(SessionName(k)))
  {
    hide Params, Returns, NoteParams, HasType, Norm, ResultOf, SessionAnswer, SessionName;
    var g := p.log.given[d.completed.id];
    assert NamesIt(g.method_, g.verdict, p.state.sessions) && OpensSession(g.method_, g.verdict);
    k :| 1 <= k <= p.state.sessions && g.verdict == Answer(SessionAnswer(SessionName(k)));
    SessionReads(SessionName(k));
  }

  lemma SessionReads(id: string)
    ensures Norm(Returns(SessionNew), SessionAnswer(id)) == SessionAnswer(id)
  {
    hide Norm, NewSessionResult, SessionAnswer;
    ReturnsOfTheHandled();
    SessionAnswerSurvives(id);
  }

  lemma SessionsAreDifferent(p: Peer<AgentState>, q: Requester, d: Done, e: Done)
    requires NamesSessions(p) && Arrived(Acp(), q, AsResponder(p), d) && Arrived(Acp(), q, AsResponder(p), e)
    requires Fits(Acp(), AgentRouter(), AgentPromise, q, d.completed.id, p.log.given[d.completed.id])
    requires Fits(Acp(), AgentRouter(), AgentPromise, q, e.completed.id, p.log.given[e.completed.id])
    ensures SessionsDiffer(q.asked, d.completed, e.completed)
  {
    hide Arrived, Fits, Acp, ResultOf, SessionName, NamedByNumber;
    var c, f := d.completed.id, e.completed.id;
    if c in q.asked && f in q.asked && c != f && q.asked[c].method_.SessionNew? && q.asked[f].method_.SessionNew? {
      var k := SessionIsRead(p, q, d);
      var n := SessionIsRead(p, q, e);
      assert Apart(p.log.given[c].method_, p.log.given[c].verdict, p.log.given[f].method_, p.log.given[f].verdict);
    }
  }

  // ------------------------------------------------------------------- every run

  predicate AskedTyped(t: Table, q: Requester) {
    forall id | id in q.asked :: HasType(t.params(q.asked[id].method_), q.asked[id].params)
  }

  lemma LinkAsksTyped(t: Table, q: Requester, s: Responder, out: seq<Frame>, back: seq<Frame>)
    requires Link(t, q, s, out, back)
    ensures AskedTyped(t, q)
  {
    hide Conserved, Streamed, Ordered, HasType;
  }

  lemma EveryRunIsPromised(turns: seq<Turn>)
    requires IsExchange(turns)
    ensures var w := Outcome(turns);
            && BothPromised(ClientAndAgent(), ClientPromise, AgentPromise, w)
            && AskedTyped(Acp(), AsRequester(w.client)) && AskedTyped(Acp(), AsRequester(w.agent))
  {
    hide IsRun, After, Sound, Typed, Meets, Link, Acp, ClientRouter, AgentRouter, AskedTyped;
    var u := ClientAndAgent();
    AcpIsSound();
    RoutersTyped();
    RoutersMeet(Acp());
    StartsInOrder(Acp(), ClientState([], 0), AgentState(0));
    RunKeeps(u, Opening(), turns);
    RunKeepsPromises(u, ClientPromise, AgentPromise, Opening(), turns);
    var w := After(u, Opening(), turns);
    LinkAsksTyped(Acp(), AsRequester(w.client), AsResponder(w.agent), w.toAgent, w.toClient);
    LinkAsksTyped(Acp(), AsRequester(w.agent), AsResponder(w.client), w.toClient, w.toAgent);
  }

  predicate AgentReadsAnswers(q: Requester) {
    forall i | 0 <= i < |q.done| ::
      PermissionRead(q.asked, q.done[i].completed) && UnknownRefused(BY_CLIENT, q.asked, q.done[i].completed)
  }

  predicate ClientReadsAnswers(q: Requester) {
    && (forall i | 0 <= i < |q.done| ::
          VersionRead(q.asked, q.done[i].completed) && UnknownRefused(BY_AGENT, q.asked, q.done[i].completed))
    && (forall i, j | 0 <= i < |q.done| && 0 <= j < |q.done| ::
          SessionsDiffer(q.asked, q.done[i].completed, q.done[j].completed))
  }

  lemma AgentReads(q: Requester, p: Peer<ClientState>)
    requires forall i | 0 <= i < |q.done| :: Arrived(Acp(), q, AsResponder(p), q.done[i])
    requires Promised(Acp(), ClientRouter(), ClientPromise, q, p) && AskedTyped(Acp(), q)
    ensures AgentReadsAnswers(q)
  {
    hide Acp, ClientRouter, PermissionRead, UnknownRefused, Arrived, Fits, HasType;
    Registered();
    forall i | 0 <= i < |q.done|
      ensures PermissionRead(q.asked, q.done[i].completed) && UnknownRefused(BY_CLIENT, q.asked, q.done[i].completed)
    {
      CompletionFits(ClientRouter(), ClientPromise, q, p, q.done[i]);
      PermissionIsRead(q, AsResponder(p), q.done[i]);
      UnknownIsRefused(ClientRouter(), ClientPromise, q, AsResponder(p), q.done[i]);
    }
  }

  lemma ClientReads(q: Requester, p: Peer<AgentState>)
    requires forall i | 0 <= i < |q.done| :: Arrived(Acp(), q, AsResponder(p), q.done[i])
    requires Promised(Acp(), AgentRouter(), AgentPromise, q, p) && AskedTyped(Acp(), q) && NamesSessions(p)
    ensures ClientReadsAnswers(q)
  {
    hide Acp, AgentRouter, VersionRead, UnknownRefused, SessionsDiffer, Arrived, Fits, HasType, NamesSessions;
    Registered();
    forall i | 0 <= i < |q.done|
      ensures VersionRead(q.asked, q.done[i].completed) && UnknownRefused(BY_AGENT, q.asked, q.done[i].completed)
    {
      CompletionFits(AgentRouter(), AgentPromise, q, p, q.done[i]);
      VersionIsRead(q, AsResponder(p), q.done[i]);
      UnknownIsRefused(AgentRouter(), AgentPromise, q, AsResponder(p), q.done[i]);
    }
    forall i, j | 0 <= i < |q.done| && 0 <= j < |q.done|
      ensures SessionsDiffer(q.asked, q.done[i].completed, q.done[j].completed)
    {
      CompletionFits(AgentRouter(), AgentPromise, q, p, q.done[i]);
      CompletionFits(AgentRouter(), AgentPromise, q, p, q.done[j]);
      SessionsAreDifferent(p, q, q.done[i], q.done[j]);
    }
  }

  /** In every run of the client and the agent, each completed request reads the
      answer to what it asked: a permission request its own first option, an
      initialize request its own version, and any two session/new requests two
      different sessions; requests for methods the other peer has not registered
      are refused. */
  lemma AnswersFitRequests(turns: seq<Turn>)
    requires IsExchange(turns)
    ensures AgentReadsAnswers(AsRequester(Outcome(turns).agent))
    ensures ClientReadsAnswers(AsRequester(Outcome(turns).client))
  {
    hide IsExchange, Outcome, Acp, ClientRouter, AgentRouter, AgentReadsAnswers, ClientReadsAnswers;
    hide Promised, AskedTyped;
    hide Arrived, EachInOnePlace, CompletesOnce, HeardInOrder, NamesSessions, Collects, AsRequester, AsResponder;
    EveryRun(turns);
    EveryRunIsPromised(turns);
    var w := Outcome(turns);
    AgentReads(AsRequester(w.agent), w.client);
    ClientReads(AsRequester(w.client), w.agent);
  }

  lemma CompletionFits<S>(r: Router<S>, promise: Promise, q: Requester, p: Peer<S>, d: Done)
    requires (forall i | 0 <= i < |q.done| :: Arrived(Acp(), q, AsResponder(p), q.done[i])) && d in q.done
    requires Promised(Acp(), r, promise, q, p) && AskedTyped(Acp(), q)
    ensures Arrived(Acp(), q, AsResponder(p), d)
    ensures Fits(Acp(), r, promise, q, d.completed.id, p.log.given[d.completed.id])
    ensures var a := q.asked[d.completed.id]; HasType(Params(a.method_), a.params)
  {
    hide Params, Returns, NoteParams, HasType, Norm, ResultOf, Fits;
  }
}
