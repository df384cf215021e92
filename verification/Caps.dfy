/** include/acp/caps.hpp: capabilities, authentication methods, implementation
    info, and the negotiation of the protocol version. */
module Caps {
  import opened JsonTree
  import opened ClientSessions
  import opened Universe

  const OFF := VBool(false)

  function FsCapabilities(): Schema {
    SRec(Field("readTextFile", Defaulted(OFF), SBool,
         Field("writeTextFile", Defaulted(OFF), SBool, End)))
  }

  const NO_FS := VRec(Cons(OFF, Cons(OFF, Nil)))

  /** The record under the `auth` and `elicitation` members. */
  function ClientBase(): Fields {
    Field("fs", Defaulted(NO_FS), FsCapabilities(),
    Field("terminal", Defaulted(OFF), SBool,
    Field("session", Defaulted(VClientSession(SILENT)), SClientSession,
    Field("_meta", Meta, SJson, End))))
  }

  function ClientCapabilities(): Schema {
    SClientCaps(ClientBase())
  }

  const NO_CLIENT_CAPS := VClientCaps(
    Cons(NO_FS, Cons(OFF, Cons(VClientSession(SILENT), Cons(VJson(EMPTY_OBJECT), Nil)))), false, false, false)

  function PromptCapabilities(): Schema {
    SRec(Field("image", Defaulted(OFF), SBool,
         Field("audio", Defaulted(OFF), SBool,
         Field("embeddedContext", Defaulted(OFF), SBool, End))))
  }

  const NO_PROMPT_CAPS := VRec(Cons(OFF, Cons(OFF, Cons(OFF, Nil))))

  function McpCapabilities(): Schema {
    SRec(Field("http", Defaulted(OFF), SBool,
         Field("sse", Defaulted(OFF), SBool, End)))
  }

  const NO_MCP_CAPS := VRec(Cons(OFF, Cons(OFF, Nil)))

  function AuthCapabilities(): Schema {
    SRec(Field("logout", Optional, SUnit, End))
  }

  const NO_AUTH_CAPS := VRec(Cons(VNothing, Nil))

  function SessionCapabilities(): Schema {
    SRec(Field("delete", Optional, SUnit,
         Field("resume", Optional, SUnit,
         Field("close", Optional, SUnit,
         Field("list", Optional, SUnit,
         Field("additionalDirectories", Optional, SUnit,
         Field("fork", Optional, SUnit, End)))))))
  }

  const NO_SESSION_CAPS := VRec(
    Cons(VNothing, Cons(VNothing, Cons(VNothing, Cons(VNothing, Cons(VNothing, Cons(VNothing, Nil)))))))

  function AgentCapabilities(): Schema {
    SRec(Field("loadSession", Defaulted(OFF), SBool,
         Field("promptCapabilities", Defaulted(NO_PROMPT_CAPS), PromptCapabilities(),
         Field("mcpCapabilities", Defaulted(NO_MCP_CAPS), McpCapabilities(),
         Field("auth", Defaulted(NO_AUTH_CAPS), AuthCapabilities(),
         Field("sessionCapabilities", Defaulted(NO_SESSION_CAPS), SessionCapabilities(),
         Field("_meta", Meta, SJson, End)))))))
  }

  const NO_AGENT_CAPS := VRec(
    Cons(OFF, Cons(NO_PROMPT_CAPS, Cons(NO_MCP_CAPS, Cons(NO_AUTH_CAPS, Cons(NO_SESSION_CAPS,
    Cons(VJson(EMPTY_OBJECT), Nil)))))))

  function ImplementationInfo(): Schema {
    SRec(Field("name", Required, SStr,
         Field("title", Optional, SStr,
         Field("version", Optional, SStr, End))))
  }

  // ------------------------------------------------------------- declarations

  lemma FsOk()
    ensures WellFormed(FsCapabilities()) && Plain(FsCapabilities(), NO_FS)
  {
  }

  lemma ClientCapabilitiesOk()
    ensures WellFormed(ClientCapabilities())
  {
    hide FsCapabilities, NO_FS;
    FsOk();
  }

  lemma NoClientCapsOk()
    ensures Plain(ClientCapabilities(), NO_CLIENT_CAPS)
  {
    hide FsCapabilities, NO_FS;
    FsOk();
  }

  lemma PromptCapsOk()
    ensures WellFormed(PromptCapabilities()) && Plain(PromptCapabilities(), NO_PROMPT_CAPS)
  {
  }

  lemma McpCapsOk()
    ensures WellFormed(McpCapabilities()) && Plain(McpCapabilities(), NO_MCP_CAPS)
  {
  }

  lemma AuthCapsOk()
    ensures WellFormed(AuthCapabilities()) && Plain(AuthCapabilities(), NO_AUTH_CAPS)
  {
  }

  lemma SessionCapsOk()
    ensures WellFormed(SessionCapabilities()) && Plain(SessionCapabilities(), NO_SESSION_CAPS)
  {
  }

  lemma AgentCapabilitiesOk()
    ensures WellFormed(AgentCapabilities())
  {
    hide PromptCapabilities, McpCapabilities, AuthCapabilities, SessionCapabilities;
    hide NO_PROMPT_CAPS, NO_MCP_CAPS, NO_AUTH_CAPS, NO_SESSION_CAPS;
    PromptCapsOk();
    McpCapsOk();
    AuthCapsOk();
    SessionCapsOk();
  }

  lemma NoAgentCapsOk()
    ensures Plain(AgentCapabilities(), NO_AGENT_CAPS)
  {
    hide PromptCapabilities, McpCapabilities, AuthCapabilities, SessionCapabilities, WellFormed;
    hide NO_PROMPT_CAPS, NO_MCP_CAPS, NO_AUTH_CAPS, NO_SESSION_CAPS;
    PromptCapsOk();
    McpCapsOk();
    AuthCapsOk();
    SessionCapsOk();
  }

  lemma ImplementationInfoOk()
    ensures WellFormed(ImplementationInfo())
  {
  }

  // ------------------------------------------------------ version negotiation

  /** The lower of the two offers, unless that is below version 1. */
  function NegotiateVersion(ours: int, theirs: int): Result<int> {
    var agreed := if ours < theirs then ours else theirs;
    if agreed < 1 then Err else Ok(agreed)
  }

  /** A peer whose newest version is `newest` also speaks all earlier ones. */
  predicate Speaks(newest: int, v: int) {
    1 <= v <= newest
  }

  /** The agreed version is the greatest one both peers speak, and there is one
      exactly when they share any. */
  lemma NegotiatesGreatest(ours: int, theirs: int)
    ensures NegotiateVersion(ours, theirs).Ok? <==> exists v :: Speaks(ours, v) && Speaks(theirs, v)
    ensures NegotiateVersion(ours, theirs).Ok? ==>
              var v := NegotiateVersion(ours, theirs).value;
              && Speaks(ours, v) && Speaks(theirs, v)
              && forall w :: Speaks(ours, w) && Speaks(theirs, w) ==> w <= v
  {
    if 1 <= ours && 1 <= theirs {
      assert Speaks(ours, 1) && Speaks(theirs, 1);
    }
  }

  /** Negotiation through a chain of peers; a failure stays one. */
  function Through(a: Result<int>, b: Result<int>): Result<int> {
    if a.Err? || b.Err? then Err else NegotiateVersion(a.value, b.value)
  }

  /** A partial meet: commutative, associative, idempotent on valid versions,
      with failure absorbing. */
  lemma NegotiationIsMeet(a: Result<int>, b: Result<int>, c: Result<int>)
    ensures Through(a, b) == Through(b, a)
    ensures Through(Through(a, b), c) == Through(a, Through(b, c))
    ensures Through(a, a) == a <==> (a.Ok? ==> a.value >= 1)
    ensures Through(a, Err) == Err
  {
  }
}
