/** include/acp/methods.hpp: the request and response payloads. */
module Methods {
  import opened Universe
  import opened Content
  import opened Tools
  import opened SessionTypes
  import opened Caps

  const PROTOCOL_VERSION := 1

  function CancelRequestParams(): Schema {
    SRec(Field("id", Required, SJson,
         Field("_meta", Meta, SJson, End)))
  }

  function InitializeParams(): Schema {
    SRec(Field("protocolVersion", Defaulted(VInt(PROTOCOL_VERSION)), SInt,
         Field("clientCapabilities", Defaulted(NO_CLIENT_CAPS), ClientCapabilities(),
         Field("clientInfo", Optional, ImplementationInfo(),
         Field("_meta", Meta, SJson, End)))))
  }

  function InitializeResult(): Schema {
    SRec(Field("protocolVersion", Defaulted(VInt(PROTOCOL_VERSION)), SInt,
         Field("agentCapabilities", Defaulted(NO_AGENT_CAPS), AgentCapabilities(),
         Field("agentInfo", Optional, ImplementationInfo(),
         Field("authMethods", Defaulted(VList([])), SList(SAuth),
         Field("_meta", Meta, SJson, End))))))
  }

  function AuthenticateParams(): Schema {
    SRec(Field("methodId", Required, SStr,
         Field("_meta", Meta, SJson, End)))
  }

  function NewSessionParams(): Schema {
    SRec(Field("cwd", Required, SStr,
         Field("mcpServers", Defaulted(VList([])), SList(McpServer()),
         Field("additionalDirectories", Optional, SList(SStr),
         Field("_meta", Meta, SJson, End)))))
  }

  function NewSessionResult(): Schema {
    SRec(Field("sessionId", Required, SStr,
         Field("modes", Optional, SessionModeState(),
         Field("configOptions", Optional, SList(ConfigOptionType()),
         Field("_meta", Meta, SJson, End)))))
  }

  /** session/load, session/resume and session/fork share these members. */
  function LoadSessionParams(): Schema {
    SRec(Field("sessionId", Required, SStr,
         Field("cwd", Required, SStr,
         Field("mcpServers", Defaulted(VList([])), SList(McpServer()),
         Field("additionalDirectories", Optional, SList(SStr),
         Field("_meta", Meta, SJson, End))))))
  }

  function ResumeSessionResult(): Schema {
    SRec(Field("modes", Optional, SessionModeState(),
         Field("configOptions", Optional, SList(ConfigOptionType()),
         Field("_meta", Meta, SJson, End))))
  }

  /** CloseSessionParams, DeleteSessionParams and CancelParams. */
  function SessionRef(): Schema {
    SRec(Field("sessionId", Required, SStr,
         Field("_meta", Meta, SJson, End)))
  }

  function ListSessionsParams(): Schema {
    SRec(Field("cwd", Optional, SStr,
         Field("cursor", Optional, SStr,
         Field("_meta", Meta, SJson, End))))
  }

  function ListSessionsResult(): Schema {
    SRec(Field("sessions", Defaulted(VList([])), SList(SessionInfo()),
         Field("nextCursor", Optional, SStr,
         Field("_meta", Meta, SJson, End))))
  }

  function StopReason(): Schema {
    SEnum(Name("end_turn", Name("max_tokens", Name("max_turn_requests", Name("refusal", Name("cancelled", NoName))))))
  }

  function PromptParams(): Schema {
    SRec(Field("sessionId", Required, SStr,
         Field("prompt", Required, SList(ContentBlock()),
         Field("_meta", Meta, SJson, End))))
  }

  function PromptResult(): Schema {
    SRec(Field("stopReason", Required, StopReason(),
         Field("_meta", Meta, SJson, End)))
  }

  function SetModeParams(): Schema {
    SRec(Field("sessionId", Required, SStr,
         Field("modeId", Required, SStr,
         Field("_meta", Meta, SJson, End))))
  }

  function SetConfigOptionParams(): Schema {
    SRec(Field("sessionId", Required, SStr,
         Field("configId", Required, SStr,
         Field("value", Required, SJson,
         Field("_meta", Meta, SJson, End)))))
  }

  function SetConfigOptionResult(): Schema {
    SRec(Field("configOptions", Required, SList(ConfigOptionType()),
         Field("_meta", Meta, SJson, End)))
  }

  function RequestPermissionParams(): Schema {
    SRec(Field("sessionId", Required, SStr,
         Field("toolCall", Required, ToolCallUpdate(),
         Field("options", Required, SList(PermissionOption()),
         Field("_meta", Meta, SJson, End)))))
  }

  function RequestPermissionResult(): Schema {
    SRec(Field("outcome", Required, RequestPermissionOutcome(),
         Field("_meta", Meta, SJson, End)))
  }

  function ReadTextFileParams(): Schema {
    SRec(Field("sessionId", Required, SStr,
         Field("path", Required, SStr,
         Field("line", Optional, SInt,
         Field("limit", Optional, SInt,
         Field("_meta", Meta, SJson, End))))))
  }

  function ReadTextFileResult(): Schema {
    SRec(Field("content", Required, SStr,
         Field("_meta", Meta, SJson, End)))
  }

  function WriteTextFileParams(): Schema {
    SRec(Field("sessionId", Required, SStr,
         Field("path", Required, SStr,
         Field("content", Required, SStr,
         Field("_meta", Meta, SJson, End)))))
  }

  function CreateTerminalParams(): Schema {
    SRec(Field("sessionId", Required, SStr,
         Field("command", Required, SStr,
         Field("args", Defaulted(VList([])), SList(SStr),
         Field("env", Defaulted(VList([])), SList(KeyValue()),
         Field("cwd", Optional, SStr,
         Field("outputByteLimit", Optional, SInt,
         Field("_meta", Meta, SJson, End))))))))
  }

  function CreateTerminalResult(): Schema {
    SRec(Field("terminalId", Required, SStr,
         Field("_meta", Meta, SJson, End)))
  }

  function TerminalRef(): Schema {
    SRec(Field("sessionId", Required, SStr,
         Field("terminalId", Required, SStr,
         Field("_meta", Meta, SJson, End))))
  }

  function TerminalExitStatus(): Schema {
    SRec(Field("exitCode", Optional, SInt,
         Field("signal", Optional, SStr,
         Field("_meta", Meta, SJson, End))))
  }

  function TerminalOutputResult(): Schema {
    SRec(Field("output", Required, SStr,
         Field("truncated", Defaulted(OFF), SBool,
         Field("exitStatus", Optional, TerminalExitStatus(),
         Field("_meta", Meta, SJson, End)))))
  }

  // ------------------------------------------------------------- declarations

  lemma InitializeParamsOk()
    ensures WellFormed(InitializeParams())
  {
    hide ClientCapabilities, NO_CLIENT_CAPS, ImplementationInfo;
    ClientCapabilitiesOk();
    NoClientCapsOk();
    ImplementationInfoOk();
  }

  lemma InitializeResultOk()
    ensures WellFormed(InitializeResult())
  {
    hide AgentCapabilities, NO_AGENT_CAPS, ImplementationInfo;
    AgentCapabilitiesOk();
    NoAgentCapsOk();
    ImplementationInfoOk();
  }

  lemma NewSessionOk()
    ensures WellFormed(NewSessionParams()) && WellFormed(LoadSessionParams())
  {
    hide McpServer;
    McpServerOk();
    assert Plain(SList(McpServer()), VList([]));
  }

  lemma SessionResultsOk()
    ensures WellFormed(NewSessionResult()) && WellFormed(ResumeSessionResult())
    ensures WellFormed(SetConfigOptionResult())
  {
    hide SessionModeState, ConfigOptionType;
    ModesOk();
    ConfigOptionOk();
  }

  lemma ListingOk()
    ensures WellFormed(ListSessionsParams()) && WellFormed(ListSessionsResult())
  {
    hide SessionInfo;
    SessionInfoOk();
    assert Plain(SList(SessionInfo()), VList([]));
  }

  lemma PromptOk()
    ensures WellFormed(PromptParams()) && WellFormed(PromptResult())
  {
    hide ContentBlock, StopReason;
    ContentBlockOk();
    StopReasonOk();
  }

  lemma StopReasonOk()
    ensures WellFormed(StopReason())
  {
  }

  lemma RefsOk()
    ensures WellFormed(SessionRef()) && WellFormed(TerminalRef()) && WellFormed(AuthenticateParams())
    ensures WellFormed(CancelRequestParams())
  {
  }

  lemma SettersOk()
    ensures WellFormed(SetModeParams()) && WellFormed(SetConfigOptionParams())
  {
  }

  lemma PermissionParamsOk()
    ensures WellFormed(RequestPermissionParams()) && WellFormed(RequestPermissionResult())
  {
    hide ToolCall, ToolCallUpdate, PermissionOption, RequestPermissionOutcome, ObjectWithout;
    ToolCallsOk();
    PermissionOk();
    OutcomeOk();
  }

  lemma FilesOk()
    ensures WellFormed(ReadTextFileParams()) && WellFormed(ReadTextFileResult()) && WellFormed(WriteTextFileParams())
  {
  }

  lemma CreateTerminalOk()
    ensures WellFormed(CreateTerminalParams()) && WellFormed(CreateTerminalResult())
  {
    hide KeyValue;
    NoKeyValuesOk();
  }

  lemma TerminalOutputOk()
    ensures WellFormed(TerminalExitStatus()) && WellFormed(TerminalOutputResult())
  {
    assert WellFormed(TerminalExitStatus());
    assert Plain(SBool, OFF);
  }
}
