/** The agent and the client of tests/protocol_loopback.cpp, over the method
    table of include/acp/protocol.hpp, and what every run of them keeps. */
module Loopback {
  import opened JsonTree
  import opened Universe
  import opened RoundTrip
  import opened Protocol
  import opened Engine
  import opened Peers
  import opened Links
  import opened Runs
  import opened HostInvariants
  import opened Guarantees
  import Tools
  import opened Caps
  import opened Methods

  const INTERNAL_ERROR := -32603

  function Acp(): Table {
    Table(Params, Returns, NoteParams)
  }

  lemma AcpIsSound()
    ensures Sound(Acp())
  {
    hide Params, Returns, NoteParams, WellFormed;
    forall m ensures WellFormed(Params(m)) && WellFormed(Returns(m)) {
      ParamsOk(m);
      ReturnsOk(m);
    }
    forall n ensures WellFormed(NoteParams(n)) {
      NoteParamsOk(n);
    }
  }

  /** The i-th member of a struct. */
  function Member(vs: Vals, i: nat): Val {
    if vs.Nil? then VNothing else if i == 0 then vs.head else Member(vs.tail, i - 1)
  }

  function MemberOf(v: Val, i: nat): Val {
    if v.VRec? then Member(v.fields, i) else VNothing
  }

  // ------------------------------------------------------------------- the agent

  /** How many sessions were opened. The deferred prompt is a held call. */
  datatype AgentState = AgentState(sessions: nat)

  const DIGITS := "0123456789"

  /** `std::to_string` */
  function Decimal(n: nat): string {
    if n < 10 then [DIGITS[n]] else Decimal(n / 10) + [DIGITS[n % 10]]
  }

  function SessionName(n: nat): string {
    "s" + Decimal(n)
  }

  function InitializeAnswer(version: int): Val {
    VRec(Cons(VInt(version), Cons(NO_AGENT_CAPS, Cons(VNothing, Cons(VList([]), Cons(VJson(EMPTY_OBJECT), Nil))))))
  }

  function SessionAnswer(id: string): Val {
    VRec(Cons(VStr(id), Cons(VNothing, Cons(VNothing, Cons(VJson(EMPTY_OBJECT), Nil)))))
  }

  function VersionOf(p: Val): int {
    var v := MemberOf(p, 0);
    if v.VInt? then v.i else PROTOCOL_VERSION
  }

  function AgentOn(a: AgentState, m: Method, p: Val): (AgentState, Verdict) {
    match m
    case Initialize => (a, Answer(InitializeAnswer(VersionOf(p))))
    case SessionNew =>
      var n := a.sessions + 1;
      (AgentState(n), Answer(SessionAnswer(SessionName(n))))
    case _ => (a, Refuse(METHOD_NOT_FOUND))
  }

  function AgentRouter(): Router<AgentState> {
    Router({SessionPrompt}, {Initialize, SessionNew}, AgentOn, (a, n, p) => a)
  }

  // ------------------------------------------------------------------ the client

  datatype ClientState = ClientState(updates: seq<Val>, permissionsAsked: nat)

  /** `p.options.front().optionId` */
  function FirstOption(p: Val): Maybe<string> {
    var options := MemberOf(p, 2);
    if !options.VList? || options.items == [] then Nothing else
    var id := MemberOf(options.items[0], 0);
    if id.VStr? then Just(id.s) else Nothing
  }

  function Selected(optionId: string): Val {
    VRec(Cons(VSum(1, VRec(Cons(VStr(optionId), Cons(VJson(EMPTY_OBJECT), Nil)))), Cons(VJson(EMPTY_OBJECT), Nil)))
  }

  function Permitted(p: Val): Verdict {
    match FirstOption(p)
    case Just(id) => Answer(Selected(id))
    case Nothing => Refuse(INTERNAL_ERROR)
  }

  function ClientOn(c: ClientState, m: Method, p: Val): (ClientState, Verdict) {
    match m
    case RequestPermission =>
      (c.(permissionsAsked := c.permissionsAsked + 1), Permitted(p))
    case _ => (c, Refuse(METHOD_NOT_FOUND))
  }

  function ClientNote(c: ClientState, n: Note, p: Val): ClientState {
    if n.SessionUpdated? then c.(updates := c.updates + [p]) else c
  }

  function ClientRouter(): Router<ClientState> {
    Router({}, {RequestPermission}, ClientOn, ClientNote)
  }

  // ------------------------------------------------- what the answers must be like

  /** The third member of params, its options, is a list that is not empty. */
  predicate OffersSome(params: Val) {
    && params.VRec? && params.fields.Cons? && params.fields.tail.Cons? && params.fields.tail.tail.Cons?
    && params.fields.tail.tail.head.VList? && params.fields.tail.tail.head.items != []
  }

  /** The outcome read is `selected`, the second alternative, with the id of the
      first option offered and nothing else. */
  predicate SelectsFirst(params: Val, read: Val) {
    && OffersSome(params)
    && var first := params.fields.tail.tail.head.items[0];
       && first.VRec? && first.fields.Cons? && first.fields.head.VStr?
       && read == VRec(Cons(VSum(1, VRec(Cons(first.fields.head, Cons(VJson(JObj(map[])), Nil)))),
                       Cons(VJson(JObj(map[])), Nil)))
  }

  lemma FirstIsFirst(params: Val)
    requires HasType(RequestPermissionParams(), params)
    ensures FirstOption(params).Just? <==> OffersSome(params)
    ensures FirstOption(params).Just? ==> SelectsFirst(params, Selected(FirstOption(params).value))
  {
    hide Tools.ToolCallUpdate, Tools.PermissionOptionKind, Tools.ALLOW_ONCE;
    assert Member(params.fields, 2) == Member(params.fields.tail, 1);
    assert Member(params.fields.tail, 1) == Member(params.fields.tail.tail, 0);
    var options := params.fields.tail.tail.head.items;
    if options != [] {
      assert HasType(Tools.PermissionOption(), options[0]);
    }
  }

  // ------------------------------------------------------------ answers are typed

  lemma InitializeAnswerTyped(version: int)
    ensures HasType(InitializeResult(), InitializeAnswer(version))
  {
    hide AgentCapabilities, NO_AGENT_CAPS, ImplementationInfo;
    NoAgentCapsOk();
  }

  lemma SessionAnswerTyped(id: string)
    ensures HasType(NewSessionResult(), SessionAnswer(id))
  {
    hide SessionTypes.SessionModeState, SessionTypes.ConfigOptionType;
  }

  lemma SelectedTyped(id: string)
    ensures HasType(RequestPermissionResult(), Selected(id))
  {
  }

  lemma ReturnsOfTheHandled()
    ensures Returns(Initialize) == InitializeResult() && Returns(SessionNew) == NewSessionResult()
    ensures Returns(RequestPermission) == RequestPermissionResult()
  {
    hide InitializeResult, NewSessionResult, RequestPermissionResult;
  }

  lemma AgentAnswersTyped(a: AgentState, m: Method, p: Val)
    ensures TypedVerdict(Acp(), m, AgentOn(a, m, p).1)
  {
    hide Params, Returns, NoteParams, HasType, InitializeResult, NewSessionResult;
    hide InitializeAnswer, SessionAnswer, SessionName, VersionOf;
    ReturnsOfTheHandled();
    match m
    case Initialize => InitializeAnswerTyped(VersionOf(p));
    case SessionNew => SessionAnswerTyped(SessionName(a.sessions + 1));
    case _ =>
  }

  lemma ClientAnswersTyped(c: ClientState, m: Method, p: Val)
    ensures TypedVerdict(Acp(), m, ClientOn(c, m, p).1)
  {
    hide Params, Returns, NoteParams, HasType, RequestPermissionResult, Selected, FirstOption;
    ReturnsOfTheHandled();
    if m.RequestPermission? && FirstOption(p).Just? {
      SelectedTyped(FirstOption(p).value);
    }
  }

  lemma RoutersTyped()
    ensures Typed(Acp(), AgentRouter()) && Typed(Acp(), ClientRouter())
  {
    hide HasType, TypedVerdict, AgentOn, ClientOn, ClientNote, Acp;
    forall s, m, p ensures TypedVerdict(Acp(), m, AgentRouter().on(s, m, p).1) {
      AgentAnswersTyped(s, m, p);
    }
    forall s, m, p ensures TypedVerdict(Acp(), m, ClientRouter().on(s, m, p).1) {
      ClientAnswersTyped(s, m, p);
    }
  }

  // -------------------------------------------------------- what the client keeps

  function UpdateIn(n: Noted): seq<Val> {
    if n.note.SessionUpdated? then [n.params] else []
  }

  /** The session updates among some notifications. */
  function UpdatesIn(ns: seq<Noted>): seq<Val>
    decreases |ns|
  {
    if ns == [] then [] else UpdatesIn(ns[..|ns| - 1]) + UpdateIn(ns[|ns| - 1])
  }

  /** The client collects every update it hears, in order. */
  predicate Collects(p: Peer<ClientState>) {
    p.state.updates == UpdatesIn(p.log.received)
  }

  lemma ClientHandlingCollects(t: Table, p: Peer<ClientState>, c: Call)
    ensures Handle(t, ClientRouter(), p, c).0.state.updates == p.state.updates
    ensures Handle(t, ClientRouter(), p, c).0.log.received == p.log.received
  {
    hide Dec, Enc, FirstOption, Selected;
  }

  lemma ClientHearingCollects(t: Table, p: Peer<ClientState>, n: Notification)
    requires Collects(p)
    ensures Collects(HandleNote(t, ClientRouter(), p, n))
  {
    hide Dec;
    var d := Dec(t.notes(n.note), n.params);
    if d.Ok? {
      var heard := p.log.received + [Noted(n.note, d.value)];
      assert heard[..|p.log.received|] == p.log.received;
    }
  }

  lemma ClientCollects(t: Table)
    ensures Stable(t, ClientRouter(), Collects)
  {
    hide Handle, HandleNote, ClientRouter, UpdatesIn;
    var r := ClientRouter();
    forall p, c | Collects(p) ensures Collects(Handle(t, r, p, c).0) {
      ClientHandlingCollects(t, p, c);
    }
    forall p, n | Collects(p) ensures Collects(HandleNote(t, r, p, n)) {
      ClientHearingCollects(t, p, n);
    }
  }

  lemma {:induction false} UpdatesOfPrefix(ms: seq<Noted>, ns: seq<Noted>)
    requires ms <= ns
    ensures UpdatesIn(ms) <= UpdatesIn(ns)
    decreases |ns|
  {
    if ms == ns {
    } else {
      UpdatesOfPrefix(ms, ns[..|ns| - 1]);
    }
  }

  // --------------------------------------------------------- what the agent keeps

  /** A string of digits as the number it spells, the most significant first. */
  function Number(digits: string): nat {
    if digits == [] then 0 else
    var last := digits[|digits| - 1];
    Number(digits[..|digits| - 1]) * 10 + if '0' <= last <= '9' then last as int - '0' as int else 0
  }

  /** Session numbers are written in decimal: reading the digits gives the number
      back, and there is no leading zero. */
  lemma {:induction false} DecimalSpells(n: nat)
    ensures Number(Decimal(n)) == n
    ensures forall i | 0 <= i < |Decimal(n)| :: '0' <= Decimal(n)[i] <= '9'
    ensures n > 0 ==> Decimal(n)[0] != '0'
  {
    DigitsCount(n % 10);
    if n < 10 {
      assert Number([DIGITS[n]][..0]) == 0;
    } else {
      DecimalSpells(n / 10);
      var d := Decimal(n);
      assert d[..|d| - 1] == Decimal(n / 10);
    }
  }

  lemma DigitsCount(d: nat)
    requires d < 10
    ensures DIGITS[d] as int - '0' as int == d
  {
  }

  lemma DecimalDiffers(m: nat, n: nat)
    requires Decimal(m) == Decimal(n)
    ensures m == n
  {
    DecimalSpells(m);
    DecimalSpells(n);
  }

  predicate OpensSession(m: Method, v: Verdict) {
    m.SessionNew? && v.Answer?
  }

  /** The verdict names a session by its number. */
  predicate NamedByNumber(v: Verdict, sessions: nat) {
    exists k | 1 <= k <= sessions :: v == Answer(SessionAnswer(SessionName(k)))
  }

  predicate NamesIt(m: Method, v: Verdict, sessions: nat) {
    OpensSession(m, v) ==> NamedByNumber(v, sessions)
  }

  /** Not both open a session of one name. */
  predicate Apart(m: Method, v: Verdict, n: Method, w: Verdict) {
    OpensSession(m, v) && OpensSession(n, w) ==> v != w
  }

  /** No two sessions share a name, whether or not the client has been told yet;
      and only prompts are deferred. */
  predicate NamesSessions(p: Peer<AgentState>) {
    && (forall i | 0 <= i < |p.held| :: p.held[i].method_ == SessionPrompt)
    && (forall i | 0 <= i < |p.made| :: NamesIt(p.made[i].call.method_, p.made[i].verdict, p.state.sessions))
    && (forall id | id in p.log.given :: NamesIt(p.log.given[id].method_, p.log.given[id].verdict, p.state.sessions))
    && (forall i, j | 0 <= i < j < |p.made| ::
          Apart(p.made[i].call.method_, p.made[i].verdict, p.made[j].call.method_, p.made[j].verdict))
    && (forall i, id | 0 <= i < |p.made| && id in p.log.given ::
          Apart(p.made[i].call.method_, p.made[i].verdict, p.log.given[id].method_, p.log.given[id].verdict))
    && (forall id, jd | id in p.log.given && jd in p.log.given && id != jd ::
          Apart(p.log.given[id].method_, p.log.given[id].verdict, p.log.given[jd].method_, p.log.given[jd].verdict))
  }

  lemma SessionNamesDiffer(k: nat, n: nat)
    requires SessionAnswer(SessionName(k)) == SessionAnswer(SessionName(n))
    ensures k == n
  {
    var c, d := Decimal(k), Decimal(n);
    assert ("s" + c)[1..] == c && ("s" + d)[1..] == d;
    assert SessionName(k) == SessionName(n);
    DecimalDiffers(k, n);
  }

  lemma NewSessionIsNew(m: Method, v: Verdict, sessions: nat)
    requires NamesIt(m, v, sessions)
    ensures NamesIt(m, v, sessions + 1)
    ensures Apart(m, v, SessionNew, Answer(SessionAnswer(SessionName(sessions + 1))))
  {
    hide SessionAnswer, SessionName;
    if OpensSession(m, v) {
      var k :| 1 <= k <= sessions && v == Answer(SessionAnswer(SessionName(k)));
      if SessionAnswer(SessionName(k)) == SessionAnswer(SessionName(sessions + 1)) {
        SessionNamesDiffer(k, sessions + 1);
      }
    }
  }

  lemma NumberIsANumber(v: Verdict, n: nat)
    requires n >= 1 && v == Answer(SessionAnswer(SessionName(n)))
    ensures NamedByNumber(v, n)
  {
  }

  lemma OpeningKeepsNames(p: Peer<AgentState>, c: Call)
    requires NamesSessions(p) && c.method_.SessionNew?
    ensures var n := p.state.sessions + 1;
            NamesSessions(p.(state := AgentState(n), made := p.made + [Made(c, Answer(SessionAnswer(SessionName(n))))]))
  {
    hide SessionAnswer, SessionName, NamesIt, Apart;
    var n := p.state.sessions + 1;
    var v := Answer(SessionAnswer(SessionName(n)));
    forall i | 0 <= i < |p.made|
      ensures NamesIt(p.made[i].call.method_, p.made[i].verdict, n)
      ensures Apart(p.made[i].call.method_, p.made[i].verdict, SessionNew, v)
    {
      NewSessionIsNew(p.made[i].call.method_, p.made[i].verdict, p.state.sessions);
    }
    forall id | id in p.log.given
      ensures NamesIt(p.log.given[id].method_, p.log.given[id].verdict, n)
      ensures Apart(SessionNew, v, p.log.given[id].method_, p.log.given[id].verdict)
    {
      NewSessionIsNew(p.log.given[id].method_, p.log.given[id].verdict, p.state.sessions);
      ApartIsSymmetric(p.log.given[id].method_, p.log.given[id].verdict, SessionNew, v);
    }
    NewNameIsANumber(v, n);
  }

  lemma NewNameIsANumber(v: Verdict, n: nat)
    requires n >= 1 && v == Answer(SessionAnswer(SessionName(n)))
    ensures NamesIt(SessionNew, v, n)
  {
    hide SessionAnswer, SessionName;
    NumberIsANumber(v, n);
  }

  lemma ApartIsSymmetric(m: Method, v: Verdict, n: Method, w: Verdict)
    requires Apart(m, v, n, w)
    ensures Apart(n, w, m, v)
  {
  }

  lemma OthersAreApart(m: Method, v: Verdict, n: Method, w: Verdict, sessions: nat)
    requires !OpensSession(m, v)
    ensures Apart(m, v, n, w) && Apart(n, w, m, v) && NamesIt(m, v, sessions)
  {
  }

  lemma OtherAnswersKeepNames(p: Peer<AgentState>, c: Call, v: Verdict)
    requires NamesSessions(p) && !OpensSession(c.method_, v)
    ensures NamesSessions(p.(made := p.made + [Made(c, v)]))
  {
    hide NamesIt, Apart, OpensSession;
    var m := c.method_;
    OthersAreApart(m, v, m, v, p.state.sessions);
    forall i | 0 <= i < |p.made| ensures Apart(p.made[i].call.method_, p.made[i].verdict, m, v) {
      OthersAreApart(m, v, p.made[i].call.method_, p.made[i].verdict, p.state.sessions);
    }
    forall id | id in p.log.given ensures Apart(m, v, p.log.given[id].method_, p.log.given[id].verdict) {
      OthersAreApart(m, v, p.log.given[id].method_, p.log.given[id].verdict, p.state.sessions);
    }
  }

  lemma GivingKeepsNames(p: Peer<AgentState>, id: Id, m: Method, v: Verdict)
    requires NamesSessions(p) && !OpensSession(m, v)
    ensures NamesSessions(Giving(p, id, m, v))
  {
    hide NamesIt, Apart, OpensSession;
    OthersAreApart(m, v, m, v, p.state.sessions);
    forall i | 0 <= i < |p.made| ensures Apart(p.made[i].call.method_, p.made[i].verdict, m, v) {
      OthersAreApart(m, v, p.made[i].call.method_, p.made[i].verdict, p.state.sessions);
    }
    forall jd | jd in p.log.given
      ensures Apart(m, v, p.log.given[jd].method_, p.log.given[jd].verdict)
      ensures Apart(p.log.given[jd].method_, p.log.given[jd].verdict, m, v)
    {
      OthersAreApart(m, v, p.log.given[jd].method_, p.log.given[jd].verdict, p.state.sessions);
    }
  }

  /** Telling the client changes no name. */
  lemma PostingKeepsNames(p: Peer<AgentState>)
    requires NamesSessions(p) && p.made != []
    ensures NamesSessions(PostOne(p))
  {
    hide NamesIt, OpensSession;
    var q := PostOne(p);
    assert forall i | 0 <= i < |q.made| :: q.made[i] == p.made[i + 1];
  }

  lemma PromptKeepsNames(t: Table, p: Peer<AgentState>, c: Call)
    requires NamesSessions(p) && c.method_.SessionPrompt?
    ensures NamesSessions(Handle(t, AgentRouter(), p, c).0)
  {
    hide NamesSessions, AgentOn, Served;
    DeferringKeepsNames(p, c);
  }

  lemma RefusalKeepsNames(t: Table, p: Peer<AgentState>, c: Call, code: int)
    requires NamesSessions(p) && !c.method_.SessionPrompt?
    requires Served(t, AgentRouter(), p.state, c.method_, c.params) == (p.state, Refuse(code))
    ensures NamesSessions(Handle(t, AgentRouter(), p, c).0)
  {
    hide NamesSessions, AgentOn, Served;
    OtherAnswersKeepNames(p, c, Refuse(code));
    assert p.(state := p.state) == p;
  }

  lemma InitializeKeepsNames(t: Table, p: Peer<AgentState>, c: Call, answer: Val)
    requires NamesSessions(p) && c.method_.Initialize?
    requires Served(t, AgentRouter(), p.state, c.method_, c.params) == (p.state, Answer(answer))
    ensures NamesSessions(Handle(t, AgentRouter(), p, c).0)
  {
    hide NamesSessions, AgentOn, Served;
    OtherAnswersKeepNames(p, c, Answer(answer));
    assert p.(state := p.state) == p;
  }

  lemma NewSessionKeepsNames(t: Table, p: Peer<AgentState>, c: Call)
    requires NamesSessions(p) && c.method_.SessionNew?
    requires Served(t, AgentRouter(), p.state, c.method_, c.params)
          == (AgentState(p.state.sessions + 1), Answer(SessionAnswer(SessionName(p.state.sessions + 1))))
    ensures NamesSessions(Handle(t, AgentRouter(), p, c).0)
  {
    hide NamesSessions, AgentOn, Served, SessionAnswer, SessionName;
    OpeningKeepsNames(p, c);
  }

  /** How the agent serves each kind of call. */
  lemma AgentServes(t: Table, a: AgentState, m: Method, params: Json)
    ensures var (b, v) := Served(t, AgentRouter(), a, m, params);
            || (b == a && v.Refuse?)
            || (b == a && m.Initialize? && v.Answer?)
            || (m.SessionNew? && b == AgentState(a.sessions + 1) && v == Answer(SessionAnswer(SessionName(b.sessions))))
  {
    hide Dec, InitializeAnswer, VersionOf, SessionAnswer, SessionName;
  }

  lemma HandlingKeepsNames(t: Table, p: Peer<AgentState>, c: Call)
    requires NamesSessions(p)
    ensures NamesSessions(Handle(t, AgentRouter(), p, c).0)
  {
    hide NamesSessions, Served, Handle, AgentRouter, SessionAnswer, SessionName;
    var (b, v) := Served(t, AgentRouter(), p.state, c.method_, c.params);
    AgentServes(t, p.state, c.method_, c.params);
    if c.method_.SessionPrompt? {
      PromptKeepsNames(t, p, c);
    } else if v.Refuse? {
      RefusalKeepsNames(t, p, c, v.code);
    } else if c.method_.Initialize? {
      InitializeKeepsNames(t, p, c, v.result);
    } else {
      NewSessionKeepsNames(t, p, c);
    }
  }

  lemma DeferringKeepsNames(p: Peer<AgentState>, c: Call)
    requires NamesSessions(p) && c.method_.SessionPrompt?
    ensures NamesSessions(p.(held := p.held + [c]))
  {
  }

  lemma LateAnswersKeepNames(t: Table, p: Peer<AgentState>, i: nat, v: Verdict)
    requires NamesSessions(p) && i < |p.held|
    ensures NamesSessions(ReplyHeld(t, p, i, v).0)
  {
    hide NamesIt, Apart, ReplyFrame;
    var q := p.(held := p.held[..i] + p.held[i + 1..]);
    assert forall k | 0 <= k < |q.held| :: q.held[k] == p.held[if k < i then k else k + 1];
    GivingKeepsNames(q, p.held[i].id, p.held[i].method_, v);
  }

  lemma HearingKeepsNames(t: Table, p: Peer<AgentState>, n: Notification)
    requires NamesSessions(p)
    ensures NamesSessions(HandleNote(t, AgentRouter(), p, n))
  {
    hide NamesSessions, Dec;
    NamesAreInTheService(p, HandleNote(t, AgentRouter(), p, n));
  }

  lemma NamesAreInTheService(p: Peer<AgentState>, q: Peer<AgentState>)
    requires NamesSessions(p) && q.held == p.held && q.made == p.made && q.log.given == p.log.given
    requires q.state == p.state
    ensures NamesSessions(q)
  {
    hide NamesIt, Apart;
  }

  lemma AgentNamesSessions(t: Table)
    ensures Stable(t, AgentRouter(), NamesSessions)
  {
    hide Handle, HandleNote, ReplyHeld, PostOne, AgentRouter, NamesSessions;
    var r := AgentRouter();
    forall p, q | NamesSessions(p) && Serves(p) == Serves(q) ensures NamesSessions(q) {
      NamesAreInTheService(p, q);
    }
    forall p, c | NamesSessions(p) ensures NamesSessions(Handle(t, r, p, c).0) {
      HandlingKeepsNames(t, p, c);
    }
    forall p, n | NamesSessions(p) ensures NamesSessions(HandleNote(t, r, p, n)) {
      HearingKeepsNames(t, p, n);
    }
    forall p: Peer<AgentState> | NamesSessions(p) && p.made != [] ensures NamesSessions(PostOne(p)) {
      PostingKeepsNames(p);
    }
    forall p: Peer<AgentState>, i: nat, v | NamesSessions(p) && i < |p.held|
      ensures NamesSessions(ReplyHeld(t, p, i, v).0)
    {
      LateAnswersKeepNames(t, p, i, v);
    }
  }

  lemma SessionAnswerSurvives(id: string)
    ensures Norm(NewSessionResult(), SessionAnswer(id)) == SessionAnswer(id)
  {
    hide SessionTypes.SessionModeState, SessionTypes.ConfigOptionType;
    SessionAnswerTyped(id);
  }

  /** The n-th session is called s followed by n, and that is what the client
      reads. */
  lemma AgentOpensNextSession(p: Peer<AgentState>, id: Id, params: Val)
    requires HasType(Params(SessionNew), params)
    ensures var (q, frame) := Handle(Acp(), AgentRouter(), p, Call(id, SessionNew, Enc(Params(SessionNew), params)));
            && q.state.sessions == p.state.sessions + 1
            && frame.Just? && frame.value.Response? && frame.value.id == id
            && Dec(Returns(SessionNew), frame.value.result) == Ok(SessionAnswer(SessionName(q.state.sessions)))
  {
    hide Params, NoteParams, NewSessionResult, HasType, Enc, Dec, Norm, WellFormed, SessionAnswer, SessionName;
    ParamsOk(SessionNew);
    ReturnsOk(SessionNew);
    var answer := SessionAnswer(SessionName(p.state.sessions + 1));
    SessionAnswerTyped(SessionName(p.state.sessions + 1));
    SessionAnswerSurvives(SessionName(p.state.sessions + 1));
    RoundTrips(Params(SessionNew), params);
    RoundTrips(Returns(SessionNew), answer);
  }

  // -------------------------------------------------------------------- every run

  function ClientAndAgent(): Setup<ClientState, AgentState> {
    Setup(Acp(), ClientRouter(), AgentRouter())
  }

  function Opening(): World<ClientState, AgentState> {
    Start(ClientState([], 0), AgentState(0))
  }

  /** The turns are a run of the client and the agent. */
  predicate IsExchange(turns: seq<Turn>) {
    IsRun(ClientAndAgent(), Opening(), turns)
  }

  /** What the run comes to. */
  function Outcome(turns: seq<Turn>): World<ClientState, AgentState>
    requires IsExchange(turns)
  {
    After(ClientAndAgent(), Opening(), turns)
  }

  /** In every run of the client and the agent the connection stays in order,
      the client has collected what it heard, and sessions have their own names. */
  lemma EveryRun(turns: seq<Turn>)
    requires IsExchange(turns)
    ensures var w := Outcome(turns);
            && Kept(Acp(), AsRequester(w.client), AsResponder(w.agent), w.toAgent, w.toClient)
            && Kept(Acp(), AsRequester(w.agent), AsResponder(w.client), w.toClient, w.toAgent)
            && Collects(w.client) && NamesSessions(w.agent)
  {
    hide IsRun, After, Kept, Sound, Typed, Stable, Acp, ClientRouter, AgentRouter;
    var u := ClientAndAgent();
    AcpIsSound();
    RoutersTyped();
    EveryRunKeeps(u, ClientState([], 0), AgentState(0), turns);
    ClientCollects(Acp());
    AgentNamesSessions(Acp());
    RunKeepsHosts(u, Collects, NamesSessions, Opening(), turns);
  }

  /** Messages as their receiver reads them. UpdateStream.MessageSurvives says
      what that leaves of each. */
  function AsRead(t: Table, ms: seq<Val>): seq<Val> {
    seq(|ms|, i requires 0 <= i < |ms| => Norm(t.notes(SessionUpdated), ms[i]))
  }

  lemma {:induction false} UpdatesAreHeardAsRead(t: Table, ns: seq<Noted>)
    ensures UpdatesIn(AllHeard(t, ns)) == AsRead(t, UpdatesIn(ns))
    decreases |ns|
  {
    hide Norm;
    if ns == [] {
    } else {
      var n := |ns| - 1;
      UpdatesAreHeardAsRead(t, ns[..n]);
      assert AllHeard(t, ns)[..n] == AllHeard(t, ns[..n]);
    }
  }

  lemma HeardBefore(t: Table, r: Requester, s: Responder, mark: nat)
    requires HeardInOrder(t, r, s) && mark <= |r.received|
    ensures mark <= |s.sent| && r.received[..mark] == AllHeard(t, s.sent[..mark])
  {
    hide Heard;
    assert r.received[..mark] == AllHeard(t, s.sent)[..mark];
  }

  lemma CollectedByCompletion(t: Table, r: Requester, s: Responder, d: Done)
    requires HeardInOrder(t, r, s) && d in r.done
    ensures d.completed.id in s.given && s.given[d.completed.id].mark <= |s.sent|
    ensures AsRead(t, UpdatesIn(s.sent[..s.given[d.completed.id].mark])) <= UpdatesIn(r.received)
  {
    hide UpdatesIn, AllHeard, AsRead;
    var mark := s.given[d.completed.id].mark;
    HeardBefore(t, r, s, mark);
    UpdatesOfPrefix(r.received[..mark], r.received);
    UpdatesAreHeardAsRead(t, s.sent[..mark]);
  }

  lemma StreamIsCollected(t: Table, r: Requester, s: Responder)
    requires HeardInOrder(t, r, s)
    ensures UpdatesIn(r.received) <= AsRead(t, UpdatesIn(s.sent))
  {
    hide UpdatesIn, AllHeard, AsRead;
    UpdatesOfPrefix(r.received, AllHeard(t, s.sent));
    UpdatesAreHeardAsRead(t, s.sent);
  }

  /** The client's updates are, in order, the first of those the agent sent, as
      a round trip leaves them; and once a request of the client has completed,
      they include every update sent before its reply. */
  lemma ClientSeesTheStream(turns: seq<Turn>)
    requires IsExchange(turns)
    ensures var w := Outcome(turns);
            var sent := w.agent.log.sent;
            && w.client.state.updates <= AsRead(Acp(), UpdatesIn(sent))
            && forall d | d in w.client.log.done ::
                 && d.completed.id in w.agent.log.given
                 && w.agent.log.given[d.completed.id].mark <= |sent|
                 && AsRead(Acp(), UpdatesIn(sent[..w.agent.log.given[d.completed.id].mark])) <= w.client.state.updates
  {
    hide IsExchange, Outcome, EachInOnePlace, CompletesOnce, Arrived, HeardInOrder, NamesSessions, UpdatesIn;
    hide AllHeard, AsRead, Acp, ClientAndAgent, Opening;
    EveryRun(turns);
    var w := Outcome(turns);
    var r, s := AsRequester(w.client), AsResponder(w.agent);
    StreamIsCollected(Acp(), r, s);
    forall d | d in r.done
      ensures d.completed.id in s.given && s.given[d.completed.id].mark <= |s.sent|
      ensures AsRead(Acp(), UpdatesIn(s.sent[..s.given[d.completed.id].mark])) <= UpdatesIn(r.received)
    {
      CollectedByCompletion(Acp(), r, s, d);
    }
  }
}
