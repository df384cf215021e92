/** The objects each payload and record accepts: which members it must have,
    which it may have, and that it reads no other. */
module Shapes {
  import opened JsonTree
  import opened Universe
  import opened RoundTrip
  import opened Content
  import opened Tools
  import opened SessionTypes
  import opened Caps
  import opened Updates
  import opened Methods
  import opened Protocol

  function Musts(fs: Fields): set<string> {
    if fs.End? then {} else (if fs.kind.Required? then {fs.key} else {}) + Musts(fs.rest)
  }

  function Mays(fs: Fields): set<string> {
    if fs.End? then {} else (if fs.kind.Required? then {} else {fs.key}) + Mays(fs.rest)
  }

  /** A record that must have some members and may have others. */
  predicate Declares(s: Schema, must: set<string>, may: set<string>) {
    s.SRec? && Musts(s.fields) == must && Mays(s.fields) == may
  }

  function Only(m: Object, keys: set<string>): Object {
    map k | k in m && k in keys :: m[k]
  }

  lemma {:induction false} MustsOrMays(fs: Fields)
    ensures Keys(fs) == Musts(fs) + Mays(fs)
  {
    if fs.Field? { MustsOrMays(fs.rest); }
  }

  lemma {:induction false} MustsAreDemanded(fs: Fields, m: Object)
    requires DecFields(fs, m).Ok?
    ensures Musts(fs) <= m.Keys
  {
    if fs.Field? { MustsAreDemanded(fs.rest, m); }
  }

  lemma {:induction false} MustsAreEnough(fs: Fields, m: Object, keys: set<string>)
    requires DistinctKeys(fs) && DecFields(fs, m).Ok? && Musts(fs) <= keys && keys !! Mays(fs)
    ensures DecFields(fs, Only(m, keys)).Ok?
  {
    if fs.Field? {
      MustsAreEnough(fs.rest, m, keys);
      assert fs.kind.Required? ==> Find(Only(m, keys), fs.key) == Find(m, fs.key);
    }
  }

  lemma {:induction false} MustIsNoMay(fs: Fields)
    requires DistinctKeys(fs)
    ensures Musts(fs) !! Mays(fs)
  {
    if fs.Field? {
      MustIsNoMay(fs.rest);
      FreshIsNotAKey(fs.key, fs.rest);
      MustsOrMays(fs.rest);
    }
  }

  /** What an accepted object must have, what else is looked at, and that the
      former is enough. */
  lemma WhatIsDeclared(s: Schema, must: set<string>, may: set<string>, m: Object)
    requires Declares(s, must, may) && DistinctKeys(s.fields)
    ensures Dec(s, JObj(m)).Ok? ==> must <= m.Keys
    ensures Dec(s, JObj(m)) == Dec(s, JObj(Only(m, must + may)))
    ensures Dec(s, JObj(m)).Ok? ==> Dec(s, JObj(Only(m, must))).Ok?
  {
    MustsOrMays(s.fields);
    DecoderFrame(s.fields, m, Only(m, must + may));
    if Dec(s, JObj(m)).Ok? {
      MustsAreDemanded(s.fields, m);
      MustIsNoMay(s.fields);
      MustsAreEnough(s.fields, m, must);
    }
  }

  // --------------------------------------------------------------------- records

  lemma ContentMembers()
    ensures Declares(Annotations(), {}, {"audience", "lastModified", "priority", "_meta"})
    ensures Declares(TextResource(), {"uri", "text"}, {"mimeType", "_meta"})
    ensures Declares(BlobResource(), {"uri", "blob"}, {"mimeType", "_meta"})
  {
    hide Role;
  }

  lemma BlockMembers()
    ensures Declares(TextContent(), {"text"}, {"annotations", "_meta"})
    ensures Declares(ImageContent(), {"data", "mimeType"}, {"uri", "annotations", "_meta"})
    ensures Declares(AudioContent(), {"data", "mimeType"}, {"annotations", "_meta"})
    ensures Declares(ResourceLinkContent(), {"uri", "name"},
                     {"mimeType", "title", "description", "size", "annotations", "_meta"})
    ensures Declares(ResourceContent(), {"resource"}, {"annotations", "_meta"})
  {
    hide Annotations, EmbeddedResource;
  }

  lemma ToolMembers()
    ensures Declares(ToolCall(), {"toolCallId", "title"},
                     {"name", "kind", "status", "content", "locations", "rawInput", "rawOutput", "_meta"})
    ensures Declares(ToolCallUpdate(), {"toolCallId"},
                     {"title", "name", "kind", "status", "content", "locations", "rawInput", "rawOutput", "_meta"})
  {
    hide ToolKind, ToolCallStatus, ToolCallContent, ToolCallLocation, KIND_OTHER, STATUS_PENDING;
  }

  lemma ToolPartMembers()
    ensures Declares(ContentPart(), {"content"}, {"_meta"})
    ensures Declares(DiffPart(), {"path", "newText"}, {"oldText", "_meta"})
    ensures Declares(TerminalPart(), {"terminalId"}, {"_meta"})
    ensures Declares(ToolCallLocation(), {"path"}, {"line", "_meta"})
    ensures Declares(PlanEntry(), {"content"}, {"priority", "status", "_meta"})
    ensures Declares(PermissionOption(), {"optionId", "name"}, {"kind", "_meta"})
    ensures Declares(SelectedOutcome(), {"optionId"}, {"_meta"})
  {
    hide ContentBlock, PlanEntryPriority, PlanEntryStatus, PermissionOptionKind;
  }

  lemma SessionMembers()
    ensures Declares(KeyValue(), {"name", "value"}, {})
    ensures Declares(StdioMcpServer(), {"name", "command"}, {"args", "env"})
    ensures Declares(HttpMcpServer(), {"name", "url"}, {"headers"})
    ensures Declares(SessionMode(), {"id", "name"}, {"description", "_meta"})
    ensures Declares(SessionModeState(), {"currentModeId", "availableModes"}, {})
    ensures Declares(ConfigSelectOption(), {"value", "name"}, {"description", "_meta"})
    ensures Declares(ConfigSelectGroup(), {"group", "name", "options"}, {"_meta"})
  {
  }

  lemma CommandMembers()
    ensures Declares(UnstructuredCommandInput(), {"hint"}, {"_meta"})
    ensures Declares(AvailableCommand(), {"name", "description"}, {"input", "_meta"})
    ensures Declares(Cost(), {"amount", "currency"}, {})
    ensures Declares(SessionInfo(), {"sessionId", "cwd"}, {"additionalDirectories", "title", "updatedAt", "_meta"})
  {
  }

  lemma UpdateMembers()
    ensures Declares(MessageChunk(), {"content"}, {"messageId"})
    ensures Declares(PlanUpdate(), {"entries"}, {"_meta"})
    ensures Declares(CommandsUpdate(), {"availableCommands"}, {"_meta"})
    ensures Declares(CurrentModeUpdate(), {"currentModeId"}, {"_meta"})
    ensures Declares(ConfigOptionsUpdate(), {"configOptions"}, {"_meta"})
    ensures Declares(SessionInfoUpdate(), {}, {"title", "updatedAt", "_meta"})
    ensures Declares(UsageUpdate(), {"used", "size"}, {"cost"})
    ensures Declares(NoticeUpdate(), {"severity", "title"}, {"description", "_meta"})
    ensures Declares(CompactionUpdate(), {"compactionId", "status"}, {"summary", "error", "_meta"})
    ensures Declares(CompactionSummaryChunk(), {"compactionId", "content"}, {"_meta"})
  {
    hide ContentBlock, PlanEntry, AvailableCommand, ConfigOptionType;
  }

  lemma CapabilityMembers()
    ensures Declares(FsCapabilities(), {}, {"readTextFile", "writeTextFile"})
    ensures Declares(PromptCapabilities(), {}, {"image", "audio", "embeddedContext"})
    ensures Declares(McpCapabilities(), {}, {"http", "sse"})
    ensures Declares(AuthCapabilities(), {}, {"logout"})
    ensures Declares(SessionCapabilities(), {}, {"delete", "resume", "close", "list", "additionalDirectories", "fork"})
    ensures Declares(AgentCapabilities(), {}, {"loadSession", "promptCapabilities", "mcpCapabilities", "auth",
                                               "sessionCapabilities", "_meta"})
    ensures Declares(SRec(ClientBase()), {}, {"fs", "terminal", "session", "_meta"})
    ensures Declares(ImplementationInfo(), {"name"}, {"title", "version"})
  {
  }

  lemma OpeningMembers()
    ensures Declares(InitializeParams(), {}, {"protocolVersion", "clientCapabilities", "clientInfo", "_meta"})
    ensures Declares(InitializeResult(), {},
                     {"protocolVersion", "agentCapabilities", "agentInfo", "authMethods", "_meta"})
    ensures Declares(AuthenticateParams(), {"methodId"}, {"_meta"})
    ensures Declares(NewSessionParams(), {"cwd"}, {"mcpServers", "additionalDirectories", "_meta"})
    ensures Declares(NewSessionResult(), {"sessionId"}, {"modes", "configOptions", "_meta"})
    ensures Declares(LoadSessionParams(), {"sessionId", "cwd"}, {"mcpServers", "additionalDirectories", "_meta"})
    ensures Declares(ResumeSessionResult(), {}, {"modes", "configOptions", "_meta"})
  {
    hide ClientCapabilities, AgentCapabilities, NO_CLIENT_CAPS, NO_AGENT_CAPS, ImplementationInfo;
    hide McpServer, SessionModeState, ConfigOptionType;
  }

  lemma TurnMembers()
    ensures Declares(SessionRef(), {"sessionId"}, {"_meta"})
    ensures Declares(ListSessionsParams(), {}, {"cwd", "cursor", "_meta"})
    ensures Declares(ListSessionsResult(), {}, {"sessions", "nextCursor", "_meta"})
    ensures Declares(PromptParams(), {"sessionId", "prompt"}, {"_meta"})
    ensures Declares(PromptResult(), {"stopReason"}, {"_meta"})
    ensures Declares(SetModeParams(), {"sessionId", "modeId"}, {"_meta"})
    ensures Declares(SetConfigOptionParams(), {"sessionId", "configId", "value"}, {"_meta"})
    ensures Declares(SetConfigOptionResult(), {"configOptions"}, {"_meta"})
    ensures Declares(SessionUpdateMsg(), {"sessionId", "update"}, {"_meta"})
    ensures Declares(CancelRequestParams(), {"id"}, {"_meta"})
  {
    hide SessionInfo, ContentBlock, StopReason, ConfigOptionType, SessionUpdate;
  }

  lemma ClientCallMembers()
    ensures Declares(RequestPermissionParams(), {"sessionId", "toolCall", "options"}, {"_meta"})
    ensures Declares(RequestPermissionResult(), {"outcome"}, {"_meta"})
    ensures Declares(ReadTextFileParams(), {"sessionId", "path"}, {"line", "limit", "_meta"})
    ensures Declares(ReadTextFileResult(), {"content"}, {"_meta"})
    ensures Declares(WriteTextFileParams(), {"sessionId", "path", "content"}, {"_meta"})
  {
    hide ToolCallUpdate, PermissionOption, RequestPermissionOutcome;
  }

  lemma TerminalMembers()
    ensures Declares(CreateTerminalParams(), {"sessionId", "command"},
                     {"args", "env", "cwd", "outputByteLimit", "_meta"})
    ensures Declares(CreateTerminalResult(), {"terminalId"}, {"_meta"})
    ensures Declares(TerminalRef(), {"sessionId", "terminalId"}, {"_meta"})
    ensures Declares(TerminalOutputResult(), {"output"}, {"truncated", "exitStatus", "_meta"})
    ensures Declares(TerminalExitStatus(), {}, {"exitCode", "signal", "_meta"})
  {
    hide KeyValue;
  }

  // ------------------------------------------------------------ the method table

  lemma CallsOnTheAgent(m: Method)
    ensures m == Initialize ==>
              Declares(Params(m), {}, {"protocolVersion", "clientCapabilities", "clientInfo", "_meta"})
    ensures m == Authenticate ==> Declares(Params(m), {"methodId"}, {"_meta"})
    ensures m == SessionNew ==> Declares(Params(m), {"cwd"}, {"mcpServers", "additionalDirectories", "_meta"})
    ensures m == SessionLoad || m == SessionResume || m == SessionFork ==>
              Declares(Params(m), {"sessionId", "cwd"}, {"mcpServers", "additionalDirectories", "_meta"})
    ensures m == SessionClose || m == SessionDelete ==> Declares(Params(m), {"sessionId"}, {"_meta"})
    ensures m == SessionList ==> Declares(Params(m), {}, {"cwd", "cursor", "_meta"})
    ensures m == SessionPrompt ==> Declares(Params(m), {"sessionId", "prompt"}, {"_meta"})
    ensures m == SessionSetMode ==> Declares(Params(m), {"sessionId", "modeId"}, {"_meta"})
    ensures m == SessionSetConfig ==> Declares(Params(m), {"sessionId", "configId", "value"}, {"_meta"})
    ensures m == Logout ==> Params(m) == SUnit
  {
    hide Declares, InitializeParams, AuthenticateParams, NewSessionParams, LoadSessionParams, SessionRef;
    hide ListSessionsParams, PromptParams, SetModeParams, SetConfigOptionParams, RequestPermissionParams;
    hide ReadTextFileParams, WriteTextFileParams, CreateTerminalParams, TerminalRef;
    hide InitializeResult, NewSessionResult, ResumeSessionResult, ListSessionsResult, PromptResult;
    hide SetConfigOptionResult, SessionUpdateMsg, CancelRequestParams;
    OpeningMembers();
    TurnMembers();
  }

  lemma CallsOnTheClient(m: Method)
    ensures m == RequestPermission ==> Declares(Params(m), {"sessionId", "toolCall", "options"}, {"_meta"})
    ensures m == FsReadTextFile ==> Declares(Params(m), {"sessionId", "path"}, {"line", "limit", "_meta"})
    ensures m == FsWriteTextFile ==> Declares(Params(m), {"sessionId", "path", "content"}, {"_meta"})
    ensures m == TerminalCreate ==>
              Declares(Params(m), {"sessionId", "command"}, {"args", "env", "cwd", "outputByteLimit", "_meta"})
    ensures m == TerminalOutput || m == TerminalWaitForExit || m == TerminalKill || m == TerminalRelease ==>
              Declares(Params(m), {"sessionId", "terminalId"}, {"_meta"})
    ensures m == ElicitationCreate ==> Params(m) == SJson
  {
    hide Declares, InitializeParams, AuthenticateParams, NewSessionParams, LoadSessionParams, SessionRef;
    hide ListSessionsParams, PromptParams, SetModeParams, SetConfigOptionParams, RequestPermissionParams;
    hide ReadTextFileParams, WriteTextFileParams, CreateTerminalParams, TerminalRef;
    hide RequestPermissionResult, ReadTextFileResult, CreateTerminalResult, TerminalOutputResult, TerminalExitStatus;
    ClientCallMembers();
    TerminalMembers();
  }

  lemma Notifications(n: Note)
    ensures n == SessionCancel ==> Declares(NoteParams(n), {"sessionId"}, {"_meta"})
    ensures n == SessionUpdated ==> Declares(NoteParams(n), {"sessionId", "update"}, {"_meta"})
    ensures n == CancelRequest ==> Declares(NoteParams(n), {"id"}, {"_meta"})
  {
    hide Declares, SessionRef, SessionUpdateMsg, CancelRequestParams, ListSessionsParams, ListSessionsResult;
    hide PromptParams, PromptResult, SetModeParams, SetConfigOptionParams, SetConfigOptionResult;
    TurnMembers();
  }

  lemma AgentResults(m: Method)
    ensures m == Initialize ==>
              Declares(Returns(m), {}, {"protocolVersion", "agentCapabilities", "agentInfo", "authMethods", "_meta"})
    ensures m == SessionNew || m == SessionFork ==>
              Declares(Returns(m), {"sessionId"}, {"modes", "configOptions", "_meta"})
    ensures m == SessionLoad || m == SessionResume ==> Declares(Returns(m), {}, {"modes", "configOptions", "_meta"})
    ensures m == SessionList ==> Declares(Returns(m), {}, {"sessions", "nextCursor", "_meta"})
    ensures m == SessionPrompt ==> Declares(Returns(m), {"stopReason"}, {"_meta"})
    ensures m == SessionSetConfig ==> Declares(Returns(m), {"configOptions"}, {"_meta"})
    ensures m in {Authenticate, Logout, SessionClose, SessionDelete, SessionSetMode} ==> Returns(m) == SUnit
  {
    hide Declares, InitializeResult, NewSessionResult, ResumeSessionResult, ListSessionsResult, PromptResult;
    hide SetConfigOptionResult, RequestPermissionResult, ReadTextFileResult, CreateTerminalResult;
    hide TerminalOutputResult, TerminalExitStatus;
    hide InitializeParams, AuthenticateParams, NewSessionParams, LoadSessionParams, SessionRef, ListSessionsParams;
    hide PromptParams, SetModeParams, SetConfigOptionParams, SessionUpdateMsg, CancelRequestParams;
    OpeningMembers();
    TurnMembers();
  }

  lemma ClientResults(m: Method)
    ensures m == RequestPermission ==> Declares(Returns(m), {"outcome"}, {"_meta"})
    ensures m == FsReadTextFile ==> Declares(Returns(m), {"content"}, {"_meta"})
    ensures m == TerminalCreate ==> Declares(Returns(m), {"terminalId"}, {"_meta"})
    ensures m == TerminalOutput ==> Declares(Returns(m), {"output"}, {"truncated", "exitStatus", "_meta"})
    ensures m == TerminalWaitForExit ==> Declares(Returns(m), {}, {"exitCode", "signal", "_meta"})
    ensures m in {FsWriteTextFile, TerminalKill, TerminalRelease} ==> Returns(m) == SUnit
    ensures m == ElicitationCreate ==> Returns(m) == SJson
  {
    hide Declares, InitializeResult, NewSessionResult, ResumeSessionResult, ListSessionsResult, PromptResult;
    hide SetConfigOptionResult, RequestPermissionResult, ReadTextFileResult, CreateTerminalResult;
    hide TerminalOutputResult, TerminalExitStatus;
    hide RequestPermissionParams, ReadTextFileParams, WriteTextFileParams, CreateTerminalParams, TerminalRef;
    ClientCallMembers();
    TerminalMembers();
  }
}
