/** The prompt turn of tests/protocol_loopback.cpp, for every payload: the agent
    defers the prompt, streams an update, asks for permission, and answers. */
module PromptTurn {
  import opened JsonTree
  import opened Universe
  import opened RoundTrip
  import opened Protocol
  import opened Engine
  import opened Peers
  import opened Links
  import opened LinkSteps
  import opened Exchange
  import opened Guarantees
  import opened Loopback
  import opened Nodes
  import opened Tools
  import opened Methods

  /** A permission request that offers something. */
  predicate Offers(permission: Val) {
    HasType(Params(RequestPermission), permission) && OffersSome(permission)
  }

  /** The outcome that selects the first option offered. */
  function FirstSelected(permission: Val): Val {
    match FirstOption(permission)
    case Just(id) => Selected(id)
    case Nothing => VNothing
  }

  predicate IsUpdate(u: Val) {
    HasType(NoteParams(SessionUpdated), u)
  }

  predicate Told(note: Frame, update: Val) {
    note == Notice(SessionUpdated, Enc(NoteParams(SessionUpdated), update))
  }

  predicate AskedFor(ask: Frame, permission: Val) {
    ask.Request? && ask.method_ == RequestPermission && ask.params == Enc(Params(RequestPermission), permission)
  }

  lemma OneFrame<S>(t: Table, r: Router<S>, p: Peer<S>, f: Frame)
    ensures DeliverAll(Step, t, r, p, [f]) == DeliverOne(Step, t, r, p, f)
  {
    hide DeliverOne, Join;
    var (q, back, fx) := DeliverOne(Step, t, r, p, f);
    LastOne(Step, t, r, p, [], f);
    assert [] + [f] == [f] && [] + back == back;
    JoinNothing(fx);
  }

  lemma TwoFrames<S>(t: Table, r: Router<S>, p: Peer<S>, f: Frame, g: Frame)
    ensures var (q1, b1, fx1) := DeliverOne(Step, t, r, p, f);
            var (q2, b2, fx2) := DeliverOne(Step, t, r, q1, g);
            DeliverAll(Step, t, r, p, [f, g]) == (q2, b1 + b2, Join(fx1, fx2))
  {
    hide DeliverOne, Join;
    OneFrame(t, r, p, f);
    LastOne(Step, t, r, p, [f], g);
    assert [f] + [g] == [f, g];
  }

  /** A prompt is handed to the host, and nothing goes back yet. */
  lemma PromptIsDeferred(p: Peer<AgentState>, id: Id, params: Json)
    ensures DeliverAll(Step, Acp(), AgentRouter(), p, [Request(id, SessionPrompt, params)])
         == (p.(held := p.held + [Call(id, SessionPrompt, params)]), [],
             NOTHING.(calls := [Call(id, SessionPrompt, params)]))
  {
    hide Acp;
    OneFrame(Acp(), AgentRouter(), p, Request(id, SessionPrompt, params));
    DeliverRequest(Acp(), AgentRouter(), p, Request(id, SessionPrompt, params));
  }

  lemma ReplyCompletes<S>(t: Table, r: Router<S>, p: Peer<S>, f: Frame)
    requires IsReply(f) && f.id in p.engine.pending
    ensures var (q, back, fx) := DeliverAll(Step, t, r, p, [f]);
            && AsRequester(q) == Completes(AsRequester(p), f)
            && AsResponder(q) == AsResponder(p) && q.state == p.state && back == []
            && q.held == p.held && q.made == p.made
            && fx == NOTHING.(completed := [Completed(f.id, CompletedBy(f))])
  {
    OneFrame(t, r, p, f);
    DeliverReply(t, r, p, f);
  }

  lemma OptionsNormal(params: Val)
    requires HasType(RequestPermissionParams(), params)
    ensures MemberOf(params, 2).VList? && HasTypes(PermissionOption(), MemberOf(params, 2).items)
    ensures MemberOf(Norm(RequestPermissionParams(), params), 2)
         == VList(NormAll(PermissionOption(), MemberOf(params, 2).items))
  {
    hide ToolCallUpdate, PermissionOption;
    ThirdMember(params);
    ThirdMember(Norm(RequestPermissionParams(), params));
  }

  lemma OptionIdKept(option: Val)
    requires HasType(PermissionOption(), option)
    ensures MemberOf(Norm(PermissionOption(), option), 0) == MemberOf(option, 0)
  {
    hide PermissionOptionKind, ALLOW_ONCE;
  }

  /** The options a client reads begin with the option the agent put first. */
  lemma PermissionAnswered(params: Val)
    requires HasType(Params(RequestPermission), params)
    ensures FirstOption(Norm(Params(RequestPermission), params)) == FirstOption(params)
  {
    hide RequestPermissionParams, PermissionOption, MemberOf, Norm, HasType;
    OptionsNormal(params);
    if MemberOf(params, 2).items != [] {
      OptionIdKept(MemberOf(params, 2).items[0]);
    }
  }

  lemma ThirdMember(v: Val)
    requires v.VRec? && v.fields.Cons? && v.fields.tail.Cons? && v.fields.tail.tail.Cons?
    ensures MemberOf(v, 2) == v.fields.tail.tail.head
  {
    assert Member(v.fields, 2) == Member(v.fields.tail, 1);
    assert Member(v.fields.tail, 1) == Member(v.fields.tail.tail, 0);
  }

  lemma OffersFirst(permission: Val)
    requires Offers(permission)
    ensures FirstOption(permission).Just? && FirstSelected(permission) == Selected(FirstOption(permission).value)
    ensures FirstOption(Norm(Params(RequestPermission), permission)) == FirstOption(permission)
    ensures SelectsFirst(permission, FirstSelected(permission))
  {
    hide FirstOption, HasType, Norm, OffersSome, SelectsFirst, Selected, RequestPermissionParams;
    FirstIsFirst(permission);
    PermissionAnswered(permission);
  }

  lemma UpdateHeard(p: Peer<ClientState>, f: Frame, u: Val)
    requires IsUpdate(u) && Told(f, u)
    ensures var (q, back, fx) := DeliverOne(Step, Acp(), ClientRouter(), p, f);
            && q.state == p.state.(updates := p.state.updates + [Norm(NoteParams(SessionUpdated), u)])
            && q.engine == p.engine && q.held == p.held && back == []
  {
    hide NoteParams, Params, Returns, Enc, Dec, HasType, Norm, WellFormed, DeliverOne;
    NoteParamsOk(SessionUpdated);
    RoundTrips(NoteParams(SessionUpdated), u);
    DeliverNotice(Acp(), ClientRouter(), p, f);
  }

  lemma PermissionGiven(p: Peer<ClientState>, f: Frame, permission: Val)
    requires Offers(permission) && AskedFor(f, permission)
    ensures var (q, back, fx) := DeliverOne(Step, Acp(), ClientRouter(), p, f);
            && q.state == p.state.(permissionsAsked := p.state.permissionsAsked + 1)
            && q.engine == p.engine && q.held == p.held
            && back == [Response(f.id, Enc(Returns(RequestPermission), FirstSelected(permission)))]
  {
    hide NoteParams, Params, Returns, FirstOption, FirstSelected, Selected;
    hide Enc, Dec, HasType, Norm, WellFormed, DeliverOne;
    ParamsOk(RequestPermission);
    RoundTrips(Params(RequestPermission), permission);
    OffersFirst(permission);
    DeliverRequest(Acp(), ClientRouter(), p, f);
  }

  lemma UpdateThenPermission(p: Peer<ClientState>, f: Frame, g: Frame, u: Val, permission: Val)
    requires IsUpdate(u) && Told(f, u)
    requires Offers(permission) && AskedFor(g, permission)
    ensures var (q, back, fx) := DeliverAll(Step, Acp(), ClientRouter(), p, [f, g]);
            && q.state.updates == p.state.updates + [Norm(NoteParams(SessionUpdated), u)]
            && q.state.permissionsAsked == p.state.permissionsAsked + 1
            && q.engine == p.engine && q.held == p.held
            && back == [Response(g.id, Enc(Returns(RequestPermission), FirstSelected(permission)))]
  {
    hide *;
    TwoFrames(Acp(), ClientRouter(), p, f, g);
    UpdateHeard(p, f, u);
    PermissionGiven(DeliverOne(Step, Acp(), ClientRouter(), p, f).0, g, permission);
  }

  /** The client prompts; the agent defers, so nothing comes back. */
  method Prompting(client: Node<ClientState>, agent: Node<AgentState>, prompt: Val) returns (call: Call)
    requires client.table == Acp() && agent.table == Acp() && agent.router == AgentRouter() && agent.step == Step
    modifies client, agent
    ensures call.id == old(client.engine.next) && call.method_ == SessionPrompt
    ensures client.engine.pending == old(client.engine.pending)[call.id := SessionPrompt]
    ensures client.state == old(client.state) && client.held == old(client.held)
    ensures client.log == old(client.log).(asked := old(client.log.asked)[call.id := Asked(SessionPrompt, prompt)])
    ensures agent.engine == old(agent.engine) && agent.state == old(agent.state) && agent.log == old(agent.log)
    ensures agent.held == old(agent.held) + [call] && agent.made == old(agent.made) && client.made == old(client.made)
  {
    hide Acp, AgentRouter, DeliverAll, Enc;
    var wire := new Wire();
    var back := new Wire();
    ghost var before := agent.Value();
    var id, frame := client.Request(SessionPrompt, prompt);
    wire.Send([frame]);
    assert wire.frames == [frame] && agent.Value() == before;
    PromptIsDeferred(before, id, frame.params);
    var fx := agent.Deliver(wire, back);
    call := fx.calls[0];
  }

  /** The agent streams an update and asks for permission. */
  method Telling(agent: Node<AgentState>, update: Val, permission: Val) returns (note: Frame, ask: Frame)
    requires agent.table == Acp()
    modifies agent
    ensures Told(note, update) && AskedFor(ask, permission) && ask.id == old(agent.engine.next)
    ensures agent.engine.pending == old(agent.engine.pending)[ask.id := RequestPermission]
    ensures agent.state == old(agent.state) && agent.held == old(agent.held) && agent.made == old(agent.made)
    ensures agent.log.sent == old(agent.log.sent) + [Noted(SessionUpdated, update)]
  {
    hide Enc, Params, NoteParams;
    note := agent.Notify(SessionUpdated, update);
    var id;
    id, ask := agent.Request(RequestPermission, permission);
  }

  /** The client takes both off one wire: it collects the one, answers the other
      and sends the answer back. */
  method Hearing(client: Node<ClientState>, note: Frame, ask: Frame, update: Val, permission: Val)
    returns (answer: Frame)
    requires client.table == Acp() && client.router == ClientRouter() && client.step == Step && client.made == []
    requires IsUpdate(update) && Offers(permission) && Told(note, update) && AskedFor(ask, permission)
    modifies client
    ensures answer.Response? && answer.id == ask.id
    ensures answer.result == Enc(Returns(RequestPermission), FirstSelected(permission))
    ensures client.state.updates == old(client.state.updates) + [Norm(NoteParams(SessionUpdated), update)]
    ensures client.state.permissionsAsked == old(client.state.permissionsAsked) + 1
    ensures client.engine == old(client.engine) && client.held == old(client.held) && client.made == []
  {
    hide ClientRouter, DeliverAll, Post, MadeFrame, FirstSelected, IsUpdate, Offers, Norm, Enc;
    hide Params, Returns, NoteParams, Acp;
    var wire := new Wire();
    var back := new Wire();
    ghost var before := client.Value();
    wire.Send([note, ask]);
    assert wire.frames == [note, ask];
    UpdateThenPermission(before, note, ask, update, permission);
    BackIsMade(client.table, client.router, before, [note, ask]);
    var _ := client.Deliver(wire, back);
    var home := new Wire();
    PostingTouchesRepliesOnly(client.Value(), |client.made|);
    client.SendBack(home, back);
    answer := home.frames[0];
  }

  /** The host answers the call it holds. */
  method Replying(agent: Node<AgentState>, call: Call, result: Val) returns (frame: Frame)
    requires agent.table == Acp() && agent.held == [call] && call.method_ == SessionPrompt
    modifies agent
    ensures frame == Response(call.id, Enc(Returns(SessionPrompt), result))
    ensures agent.engine == old(agent.engine) && agent.state == old(agent.state) && agent.held == []
    ensures agent.made == old(agent.made)
  {
    hide Enc, Returns, Params, NoteParams, HasType;
    frame := agent.Reply(0, call.id, SessionPrompt, Answer(result));
  }

  /** A response reaches the peer that asked. */
  method Completing<S(!new)>(node: Node<S>, frame: Frame) returns (done: Completed)
    requires node.step == Step && frame.Response? && frame.id in node.engine.pending
    modifies node
    ensures done == Completed(frame.id, Value(frame.result))
    ensures node.engine.pending == old(node.engine.pending) - {frame.id}
    ensures node.state == old(node.state) && node.held == old(node.held) && node.made == old(node.made)
    ensures node.log.sent == old(node.log.sent)
  {
    hide DeliverAll;
    var wire := new Wire();
    var back := new Wire();
    wire.Send([frame]);
    assert wire.frames == [frame];
    ReplyCompletes(node.table, node.router, node.Value(), frame);
    var fx := node.Deliver(wire, back);
    done := fx.completed[0];
  }

  lemma ReplyReads(m: Method, v: Val, c: Completed)
    requires HasType(Returns(m), v) && c.reply == Value(Enc(Returns(m), v))
    ensures ResultOf(Acp(), m, c) == Ok(Norm(Returns(m), v))
  {
    hide Returns, HasType, Enc, Dec, Norm, WellFormed;
    ReturnsOk(m);
    RoundTrips(Returns(m), v);
  }

  lemma OutcomeIsCanonical(id: string)
    ensures var outcome := VSum(1, VRec(Cons(VStr(id), Cons(VJson(EMPTY_OBJECT), Nil))));
            HasType(RequestPermissionOutcome(), outcome) && Norm(RequestPermissionOutcome(), outcome) == outcome
  {
  }

  lemma SelectionIsCanonical(id: string)
    ensures HasType(RequestPermissionResult(), Selected(id))
    ensures Norm(RequestPermissionResult(), Selected(id)) == Selected(id)
  {
    hide RequestPermissionOutcome;
    OutcomeIsCanonical(id);
  }

  lemma SelectionReads(permission: Val)
    requires Offers(permission)
    ensures HasType(Returns(RequestPermission), FirstSelected(permission))
    ensures Norm(Returns(RequestPermission), FirstSelected(permission)) == FirstSelected(permission)
  {
    hide RequestPermissionResult, FirstSelected, Selected, FirstOption, HasType, Norm, Offers, SelectsFirst;
    OffersFirst(permission);
    SelectionIsCanonical(FirstOption(permission).value);
  }

  /** From idle peers, whatever the four payloads: the client has then heard the
      update and granted the first option, both requests have completed under
      their own ids with what was answered, and nothing is pending or held. */
  method Play(client: Node<ClientState>, agent: Node<AgentState>,
              prompt: Val, update: Val, permission: Val, result: Val)
    returns (promptId: Id, asked: Completed, done: Completed)
    requires client.step == Step && client.table == Acp() && client.router == ClientRouter()
    requires agent.step == Step && agent.table == Acp() && agent.router == AgentRouter()
    requires client.engine.pending == map[] && agent.engine.pending == map[] && agent.held == []
    requires client.made == [] && agent.made == []
    requires HasType(Params(SessionPrompt), prompt) && HasType(Returns(SessionPrompt), result)
    requires IsUpdate(update) && Offers(permission)
    modifies client, agent
    ensures client.state.updates == old(client.state.updates) + [Norm(NoteParams(SessionUpdated), update)]
    ensures client.state.permissionsAsked == old(client.state.permissionsAsked) + 1
    ensures asked.id == old(agent.engine.next)
    ensures ResultOf(Acp(), RequestPermission, asked).Ok?
    ensures SelectsFirst(permission, ResultOf(Acp(), RequestPermission, asked).value)
    ensures done.id == promptId == old(client.engine.next)
    ensures ResultOf(Acp(), SessionPrompt, done) == Ok(Norm(Returns(SessionPrompt), result))
    ensures client.engine.pending == map[] && agent.engine.pending == map[] && agent.held == []
    ensures client.made == [] && agent.made == []
  {
    hide *;
    promptId := client.engine.next;
    var call := Prompting(client, agent, prompt);
    var note, ask := Telling(agent, update, permission);
    var answer := Hearing(client, note, ask, update, permission);
    asked := Completing(agent, answer);
    var frame := Replying(agent, call, result);
    done := Completing(client, frame);
    SelectionReads(permission);
    OffersFirst(permission);
    ReplyReads(RequestPermission, FirstSelected(permission), asked);
    ReplyReads(SessionPrompt, result, done);
  }
}
