/** The initialize exchange: two codecs and one negotiation. */
module Handshake {
  import opened JsonTree
  import opened Universe
  import opened RoundTrip
  import opened Caps
  import opened CapsOrder
  import opened Exactness
  import opened Methods
  import opened Protocol
  import opened Engine
  import opened Peers
  import opened Loopback

  function Speaking(r: Val, version: int): Val {
    if r.VRec? && r.fields.Cons? then VRec(r.fields.(head := VInt(version))) else r
  }

  /** What the client learns from the agent: the client's parameters cross the
      wire, the agent negotiates on what it read and answers `answer` with the
      agreed version, and the client reads the answer. */
  function Initialized(ours: int, params: Val, answer: Val): Result<Val> {
    var read :- Dec(InitializeParams(), Enc(InitializeParams(), params));
    var agreed :- NegotiateVersion(ours, VersionOf(read));
    Dec(InitializeResult(), Enc(InitializeResult(), Speaking(answer, agreed)))
  }

  lemma VersionSurvives(params: Val)
    requires HasType(InitializeParams(), params)
    ensures VersionOf(Norm(InitializeParams(), params)) == VersionOf(params)
  {
    hide ClientCapabilities, NO_CLIENT_CAPS, ImplementationInfo;
  }

  lemma AnswerSurvives(answer: Val, version: int)
    requires HasType(InitializeResult(), answer)
    ensures HasType(InitializeResult(), Speaking(answer, version))
    ensures VersionOf(Norm(InitializeResult(), Speaking(answer, version))) == version
  {
    hide AgentCapabilities, NO_AGENT_CAPS, ImplementationInfo;
  }

  /** The handshake succeeds exactly when the peers share a version, and then
      both end up with the greatest one they share, which the client reads off
      the answer. */
  lemma BothAgree(ours: int, params: Val, answer: Val)
    requires HasType(InitializeParams(), params) && HasType(InitializeResult(), answer)
    ensures var learned := Initialized(ours, params, answer);
            var theirs := VersionOf(params);
            && (learned.Ok? <==> exists v :: Speaks(ours, v) && Speaks(theirs, v))
            && (learned.Ok? ==>
                  var v := VersionOf(learned.value);
                  && Ok(v) == NegotiateVersion(ours, theirs)
                  && Speaks(ours, v) && Speaks(theirs, v)
                  && forall w :: Speaks(ours, w) && Speaks(theirs, w) ==> w <= v)
  {
    hide InitializeParams, InitializeResult, HasType, Enc, Dec, Norm, WellFormed, Speaking, VersionOf;
    InitializeParamsOk();
    InitializeResultOk();
    RoundTrips(InitializeParams(), params);
    VersionSurvives(params);
    var agreed := NegotiateVersion(ours, VersionOf(params));
    NegotiatesGreatest(ours, VersionOf(params));
    if agreed.Ok? {
      AnswerSurvives(answer, agreed.value);
      RoundTrips(InitializeResult(), Speaking(answer, agreed.value));
    }
  }

  predicate Crosses(s: Schema, v: Val) {
    var read := Dec(s, Enc(s, v));
    read.Ok? && MemberOf(read.value, 1) == MemberOf(v, 1)
  }

  /** Each peer learns what the other offers: the capabilities it reads are the
      ones offered exactly when their `_meta` is an object. */
  lemma OffersCross(params: Val, answer: Val)
    requires HasType(InitializeParams(), params) && HasType(InitializeResult(), answer)
    ensures Crosses(InitializeParams(), params) <==> Plain(ClientCapabilities(), MemberOf(params, 1))
    ensures Crosses(InitializeResult(), answer) <==> Plain(AgentCapabilities(), MemberOf(answer, 1))
  {
    hide InitializeParams, InitializeResult, ClientCapabilities, AgentCapabilities;
    hide HasType, Enc, Dec, Norm, WellFormed, Plain, MemberOf;
    InitializeParamsOk();
    InitializeResultOk();
    RoundTrips(InitializeParams(), params);
    RoundTrips(InitializeResult(), answer);
    OfferInParams(params);
    OfferInAnswer(answer);
    ClientOffers();
    AgentOffers();
    RoundTrips(ClientCapabilities(), MemberOf(params, 1));
    RoundTrips(AgentCapabilities(), MemberOf(answer, 1));
    OffersSurvive(ClientCapabilities(), MemberOf(params, 1));
    OffersSurvive(AgentCapabilities(), MemberOf(answer, 1));
  }

  lemma SecondMember(v: Val)
    requires v.VRec? && v.fields.Cons? && v.fields.tail.Cons?
    ensures MemberOf(v, 1) == v.fields.tail.head
  {
    assert Member(v.fields, 1) == Member(v.fields.tail, 0);
  }

  lemma OfferInParams(params: Val)
    requires HasType(InitializeParams(), params)
    ensures HasType(ClientCapabilities(), MemberOf(params, 1))
    ensures MemberOf(Norm(InitializeParams(), params), 1) == Norm(ClientCapabilities(), MemberOf(params, 1))
  {
    hide ClientCapabilities, NO_CLIENT_CAPS, ImplementationInfo, WellFormed, Enc;
    SecondMember(params);
    SecondMember(Norm(InitializeParams(), params));
  }

  lemma OfferInAnswer(answer: Val)
    requires HasType(InitializeResult(), answer)
    ensures HasType(AgentCapabilities(), MemberOf(answer, 1))
    ensures MemberOf(Norm(InitializeResult(), answer), 1) == Norm(AgentCapabilities(), MemberOf(answer, 1))
  {
    hide AgentCapabilities, NO_AGENT_CAPS, ImplementationInfo, WellFormed, Enc;
    SecondMember(answer);
    SecondMember(Norm(InitializeResult(), answer));
  }

  lemma EchoSurvives(params: Val)
    requires HasType(Params(Initialize), params)
    ensures VersionOf(Norm(Params(Initialize), params)) == VersionOf(params)
    ensures var answer := InitializeAnswer(VersionOf(params));
            HasType(Returns(Initialize), answer) && VersionOf(Norm(Returns(Initialize), answer)) == VersionOf(params)
  {
    hide InitializeParams, InitializeResult, HasType, Norm, VersionOf, InitializeAnswer;
    VersionSurvives(params);
    InitializeAnswerTyped(VersionOf(params));
    AnswerSurvives(InitializeAnswer(VersionOf(params)), VersionOf(params));
    SpeakingItself(VersionOf(params));
  }

  lemma SpeakingItself(version: int)
    ensures Speaking(InitializeAnswer(version), version) == InitializeAnswer(version)
  {
  }

  /** The loopback agent answers a client of any version with that version, and
      the client reads it. */
  lemma AgentEchoesVersion(p: Peer<AgentState>, id: Id, params: Val)
    requires HasType(Params(Initialize), params)
    ensures var (q, frame) := Handle(Acp(), AgentRouter(), p, Call(id, Initialize, Enc(Params(Initialize), params)));
            && q.state == p.state && frame.Just? && frame.value.Response? && frame.value.id == id
            && var read := Dec(Returns(Initialize), frame.value.result);
               read.Ok? && VersionOf(read.value) == VersionOf(params)
  {
    hide Params, Returns, NoteParams, HasType, Enc, Dec, Norm, WellFormed, VersionOf, InitializeAnswer;
    ParamsOk(Initialize);
    ReturnsOk(Initialize);
    EchoSurvives(params);
    RoundTrips(Params(Initialize), params);
    RoundTrips(Returns(Initialize), InitializeAnswer(VersionOf(params)));
  }
}
