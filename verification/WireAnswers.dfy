/** The handlers of tests/protocol_loopback.cpp seen from the wire: which JSON
    they answer to which JSON, with no value of the model in between. */
module WireAnswers {
  import opened JsonTree
  import opened Universe
  import opened RoundTrip
  import CapsOrder
  import opened Protocol
  import opened Engine
  import opened Peers
  import opened Tools
  import opened Methods
  import opened Loopback
  import opened Caps

  // -------------------------------------------------------------- the permission

  predicate OffersOnTheWire(params: Json) {
    && params.JObj? && "options" in params.fields
    && params.fields["options"].JArr? && params.fields["options"].items != []
  }

  lemma OptionIdIsRead(option: Json)
    requires Dec(PermissionOption(), option).Ok?
    ensures option.JObj? && "optionId" in option.fields && option.fields["optionId"].JStr?
    ensures MemberOf(Dec(PermissionOption(), option).value, 0) == VStr(option.fields["optionId"].s)
  {
    hide PermissionOptionKind, ALLOW_ONCE;
  }

  lemma OptionsAreRead(params: Json)
    requires Dec(RequestPermissionParams(), params).Ok?
    ensures params.JObj? && "options" in params.fields && params.fields["options"].JArr?
    ensures var options := MemberOf(Dec(RequestPermissionParams(), params).value, 2);
            var items := params.fields["options"].items;
            && options.VList? && |options.items| == |items|
            && forall i | 0 <= i < |items| :: Dec(PermissionOption(), items[i]) == Ok(options.items[i])
  {
    hide ToolCallUpdate, PermissionOption;
    var v := Dec(RequestPermissionParams(), params).value;
    assert Member(v.fields, 2) == Member(v.fields.tail, 1);
    assert Member(v.fields.tail, 1) == Member(v.fields.tail.tail, 0);
  }

  lemma FirstIsRead(params: Json)
    requires Dec(RequestPermissionParams(), params).Ok?
    ensures OffersOnTheWire(params) ==>
              var first := params.fields["options"].items[0];
              && first.JObj? && "optionId" in first.fields && first.fields["optionId"].JStr?
              && FirstOption(Dec(RequestPermissionParams(), params).value) == Just(first.fields["optionId"].s)
    ensures !OffersOnTheWire(params) ==> FirstOption(Dec(RequestPermissionParams(), params).value) == Nothing
  {
    hide RequestPermissionParams, PermissionOption, MemberOf, Dec;
    OptionsAreRead(params);
    if OffersOnTheWire(params) {
      OptionIdIsRead(params.fields["options"].items[0]);
    }
  }

  lemma SelectionOnTheWire(id: string)
    ensures Enc(RequestPermissionResult(), Selected(id))
         == JObj(map["outcome" := JObj(map["optionId" := JStr(id), "outcome" := JStr("selected")])])
  {
    hide RequestPermissionOutcome;
    OutcomeOnTheWire(id);
  }

  lemma OutcomeOnTheWire(id: string)
    ensures var v := VSum(1, VRec(Cons(VStr(id), Cons(VJson(EMPTY_OBJECT), Nil))));
            && HasType(RequestPermissionOutcome(), v)
            && Enc(RequestPermissionOutcome(), v) == JObj(map["optionId" := JStr(id), "outcome" := JStr("selected")])
  {
  }

  /** The result grants the first of the options: `selected`, with its id. */
  predicate GrantsTheFirst(params: Json, result: Json) {
    && OffersOnTheWire(params)
    && var first := params.fields["options"].items[0];
       && first.JObj? && "optionId" in first.fields
       && result == JObj(map["outcome" := JObj(map["optionId" := first.fields["optionId"],
                                                    "outcome" := JStr("selected")])])
  }

  lemma PermissionIsWritten(params: Json)
    requires Dec(RequestPermissionParams(), params).Ok?
    ensures var v := Permitted(Dec(RequestPermissionParams(), params).value);
            if OffersOnTheWire(params)
            then v.Answer? && GrantsTheFirst(params, Enc(RequestPermissionResult(), v.result))
            else v == Refuse(-32603)
  {
    hide RequestPermissionParams, RequestPermissionResult, Enc, Dec, FirstOption, Selected;
    FirstIsRead(params);
    if OffersOnTheWire(params) {
      SelectionOnTheWire(params.fields["options"].items[0].fields["optionId"].s);
    }
  }

  /** A permission request is answered with the outcome `selected` and the
      `optionId` of the first of its options; one without options is refused. */
  lemma ClientGrantsTheFirst(p: Peer<ClientState>, id: Id, params: Json)
    requires Dec(Params(RequestPermission), params).Ok?
    ensures var (q, frame) := Handle(Acp(), ClientRouter(), p, Call(id, RequestPermission, params));
            && q.state == p.state.(permissionsAsked := p.state.permissionsAsked + 1)
            && frame.Just?
            && if OffersOnTheWire(params)
               then frame.value.Response? && frame.value.id == id && GrantsTheFirst(params, frame.value.result)
               else frame.value == Failure(id, -32603)
  {
    hide Params, Returns, NoteParams, Enc, Dec, Permitted, OffersOnTheWire, GrantsTheFirst;
    hide RequestPermissionParams, RequestPermissionResult;
    PermissionSchemas();
    PermissionIsWritten(params);
  }

  lemma PermissionSchemas()
    ensures Params(RequestPermission) == RequestPermissionParams()
    ensures Returns(RequestPermission) == RequestPermissionResult()
    ensures Params(Initialize) == InitializeParams() && Returns(Initialize) == InitializeResult()
    ensures Returns(SessionNew) == NewSessionResult()
  {
    hide RequestPermissionParams, RequestPermissionResult, InitializeParams, InitializeResult, NewSessionResult;
  }

  // ---------------------------------------------------------------- the versions

  lemma VersionIsRead(params: Json)
    requires Dec(InitializeParams(), params).Ok?
    ensures params.JObj?
    ensures JInt(VersionOf(Dec(InitializeParams(), params).value))
         == if "protocolVersion" in params.fields then params.fields["protocolVersion"] else JInt(1)
  {
    hide ClientCapabilities, NO_CLIENT_CAPS, ImplementationInfo;
  }

  lemma VersionIsWritten(version: int)
    ensures var j := Enc(InitializeResult(), InitializeAnswer(version));
            j.JObj? && "protocolVersion" in j.fields && j.fields["protocolVersion"] == JInt(version)
  {
    hide AgentCapabilities, NO_AGENT_CAPS, ImplementationInfo;
    InitializeAnswerTyped(version);
    var v := InitializeAnswer(version);
    var fs := InitializeResult().fields;
    assert Find(EncFields(fs, v.fields), "protocolVersion") == Just(JInt(version));
  }

  lemma NothingElseIsAnswered(version: int)
    ensures Dec(InitializeResult(), Enc(InitializeResult(), InitializeAnswer(version)))
         == Dec(InitializeResult(), JObj(map["protocolVersion" := JInt(version)]))
  {
    InitializeAnswerTyped(version);
    InitializeResultOk();
    RoundTrips(InitializeResult(), InitializeAnswer(version));
    AnswerIsNormal(version);
    VersionAloneReads(version);
    hide *;
  }

  lemma AnswerIsNormal(version: int)
    ensures Norm(InitializeResult(), InitializeAnswer(version)) == InitializeAnswer(version)
  {
    hide AgentCapabilities, NO_AGENT_CAPS, ImplementationInfo, Plain, WellFormed, CapsOrder.Capability;
    InitializeAnswerTyped(version);
    NoAgentCapsOk();
    CapsOrder.AgentOffers();
    CapsOrder.OfferIsFixed(AgentCapabilities(), NO_AGENT_CAPS);
    assert NormAll(SAuth, []) == [];
  }

  lemma VersionAloneReads(version: int)
    ensures Dec(InitializeResult(), JObj(map["protocolVersion" := JInt(version)])) == Ok(InitializeAnswer(version))
  {
    hide AgentCapabilities, NO_AGENT_CAPS, ImplementationInfo;
  }

  /** The loopback agent answers with the version it was sent, or 1, and offers
      nothing. */
  lemma AgentEchoes(p: Peer<AgentState>, id: Id, params: Json)
    requires Dec(Params(Initialize), params).Ok?
    ensures params.JObj?
    ensures var (q, frame) := Handle(Acp(), AgentRouter(), p, Call(id, Initialize, params));
            && q.state == p.state && frame.Just? && frame.value.Response? && frame.value.id == id
            && var j := frame.value.result;
               && j.JObj? && "protocolVersion" in j.fields
               && j.fields["protocolVersion"]
                  == (if "protocolVersion" in params.fields then params.fields["protocolVersion"] else JInt(1))
               && Dec(InitializeResult(), j)
                  == Dec(InitializeResult(), JObj(map["protocolVersion" := j.fields["protocolVersion"]]))
  {
    hide Params, Returns, NoteParams, Enc, Dec, VersionOf, InitializeAnswer;
    PermissionSchemas();
    VersionIsRead(params);
    VersionIsWritten(VersionOf(Dec(InitializeParams(), params).value));
    NothingElseIsAnswered(VersionOf(Dec(InitializeParams(), params).value));
  }

  // ---------------------------------------------------------------- the sessions

  lemma SessionIsWritten(id: string)
    ensures Enc(NewSessionResult(), SessionAnswer(id)) == JObj(map["sessionId" := JStr(id)])
  {
    hide SessionTypes.SessionModeState, SessionTypes.ConfigOptionType;
    SessionAnswerTyped(id);
  }

  predicate SpellsNumber(s: string, n: nat) {
    s != [] && s[0] == 's' && Number(s[1..]) == n && forall i | 1 <= i < |s| :: '0' <= s[i] <= '9'
  }

  lemma SessionNameSpells(n: nat)
    ensures SpellsNumber(SessionName(n), n)
  {
    DecimalSpells(n);
    assert SessionName(n)[1..] == Decimal(n);
  }

  /** Each session/new is answered with an `s` and the decimal number of the
      session, and nothing else. */
  lemma AgentNamesTheNext(p: Peer<AgentState>, id: Id, params: Json)
    requires Dec(Params(SessionNew), params).Ok?
    ensures var (q, frame) := Handle(Acp(), AgentRouter(), p, Call(id, SessionNew, params));
            && q.state.sessions == p.state.sessions + 1
            && frame.Just? && frame.value.Response? && frame.value.id == id
            && var j := frame.value.result;
               && j.JObj? && j.fields.Keys == {"sessionId"} && j.fields["sessionId"].JStr?
               && SpellsNumber(j.fields["sessionId"].s, p.state.sessions + 1)
  {
    hide Params, Returns, NoteParams, Enc, Dec, SessionAnswer, SessionName, SpellsNumber;
    PermissionSchemas();
    SessionIsWritten(SessionName(p.state.sessions + 1));
    SessionNameSpells(p.state.sessions + 1);
  }
}
