/** What an absent defaulted member stands for. The law holds for every record;
    the lemmas below name the defaults of the protocol as the JSON that may be
    left out, for objects whatever else they hold. */
module Defaults {
  import opened JsonTree
  import opened ClientSessions
  import opened Universe
  import opened RoundTrip
  import opened Tools
  import opened SessionTypes
  import opened Caps
  import opened Methods

  /** fs has a defaulted field called key, and j reads as its default. */
  predicate DefaultAt(fs: Fields, key: string, j: Json) {
    && fs.Field?
    && if fs.key == key then fs.kind.Defaulted? && Dec(fs.schema, j) == Ok(fs.kind.fallback)
       else DefaultAt(fs.rest, key, j)
  }

  lemma {:induction false} AbsentFieldIsDefault(fs: Fields, m: Object, key: string, j: Json)
    requires DistinctKeys(fs) && DefaultAt(fs, key, j) && key !in m
    ensures DecFields(fs, m) == DecFields(fs, m[key := j])
  {
    if fs.key == key {
      FreshIsNotAKey(key, fs.rest);
      DecoderFrame(fs.rest, m, m[key := j]);
    } else {
      AbsentFieldIsDefault(fs.rest, m, key, j);
      assert Find(m[key := j], fs.key) == Find(m, fs.key);
    }
  }

  /** In an object of this record type, key may be left out for j. */
  ghost predicate MayOmit(fs: Fields, key: string, j: Json) {
    forall m: Object :: key !in m ==> DecFields(fs, m) == DecFields(fs, m[key := j])
  }

  /** An absent defaulted member reads as if its default were written. */
  lemma AbsentIsDefault(fs: Fields, key: string, j: Json)
    requires DistinctKeys(fs) && DefaultAt(fs, key, j)
    ensures MayOmit(fs, key, j)
  {
    hide DefaultAt, DistinctKeys;
    forall m: Object | key !in m ensures DecFields(fs, m) == DecFields(fs, m[key := j]) {
      AbsentFieldIsDefault(fs, m, key, j);
    }
  }

  lemma EmptyListReads(s: Schema)
    ensures Dec(SList(s), JArr([])) == Ok(VList([]))
  {
    NoneRead(s);
    hide DecAll;
  }

  lemma NoneRead(s: Schema)
    ensures DecAll(s, []) == Ok([])
  {
    hide Dec;
    assert DecAll(s, []).value == [];
  }

  lemma FlagReads(b: bool)
    ensures Dec(SBool, JBool(b)) == Ok(VBool(b))
  {
  }

  // ------------------------------------------------------------------------ tools

  lemma ToolDefaultsRead()
    ensures Dec(ToolKind(), JStr("other")) == Ok(KIND_OTHER)
    ensures Dec(ToolCallStatus(), JStr("pending")) == Ok(STATUS_PENDING)
  {
  }

  /** A tool call of no kind is of kind other, one of no status is pending. */
  lemma ToolCallDefaults()
    ensures MayOmit(ToolCall().fields, "kind", JStr("other"))
    ensures MayOmit(ToolCall().fields, "status", JStr("pending"))
    ensures MayOmit(ToolCall().fields, "content", JArr([]))
    ensures MayOmit(ToolCall().fields, "locations", JArr([]))
  {
    hide MayOmit, DistinctKeys, ToolKind, ToolCallStatus, ToolCallContent, ToolCallLocation;
    hide KIND_OTHER, STATUS_PENDING;
    ToolCallKeys();
    ToolDefaultsRead();
    EmptyListReads(ToolCallContent());
    EmptyListReads(ToolCallLocation());
    AbsentIsDefault(ToolCall().fields, "kind", JStr("other"));
    AbsentIsDefault(ToolCall().fields, "status", JStr("pending"));
    AbsentIsDefault(ToolCall().fields, "content", JArr([]));
    AbsentIsDefault(ToolCall().fields, "locations", JArr([]));
  }

  lemma PlanDefaultsRead()
    ensures Dec(PlanEntryPriority(), JStr("medium")) == Ok(PRIORITY_MEDIUM)
    ensures Dec(PlanEntryStatus(), JStr("pending")) == Ok(PLAN_PENDING)
    ensures Dec(PermissionOptionKind(), JStr("allow_once")) == Ok(ALLOW_ONCE)
  {
  }

  lemma PlanAndPermissionDefaults()
    ensures MayOmit(PlanEntry().fields, "priority", JStr("medium"))
    ensures MayOmit(PlanEntry().fields, "status", JStr("pending"))
    ensures MayOmit(PermissionOption().fields, "kind", JStr("allow_once"))
  {
    hide MayOmit, PlanEntryPriority, PlanEntryStatus, PermissionOptionKind, PRIORITY_MEDIUM, PLAN_PENDING, ALLOW_ONCE;
    PlanDefaultsRead();
    AbsentIsDefault(PlanEntry().fields, "priority", JStr("medium"));
    AbsentIsDefault(PlanEntry().fields, "status", JStr("pending"));
    AbsentIsDefault(PermissionOption().fields, "kind", JStr("allow_once"));
  }

  // ------------------------------------------------------------------ capabilities

  /** What no client and no agent says it can do, it cannot do. */
  lemma FlagDefaults()
    ensures MayOmit(FsCapabilities().fields, "readTextFile", JBool(false))
    ensures MayOmit(FsCapabilities().fields, "writeTextFile", JBool(false))
    ensures MayOmit(McpCapabilities().fields, "http", JBool(false))
    ensures MayOmit(McpCapabilities().fields, "sse", JBool(false))
    ensures MayOmit(PromptCapabilities().fields, "image", JBool(false))
    ensures MayOmit(PromptCapabilities().fields, "audio", JBool(false))
    ensures MayOmit(PromptCapabilities().fields, "embeddedContext", JBool(false))
  {
    hide MayOmit;
    AbsentIsDefault(FsCapabilities().fields, "readTextFile", JBool(false));
    AbsentIsDefault(FsCapabilities().fields, "writeTextFile", JBool(false));
    AbsentIsDefault(McpCapabilities().fields, "http", JBool(false));
    AbsentIsDefault(McpCapabilities().fields, "sse", JBool(false));
    AbsentIsDefault(PromptCapabilities().fields, "image", JBool(false));
    AbsentIsDefault(PromptCapabilities().fields, "audio", JBool(false));
    AbsentIsDefault(PromptCapabilities().fields, "embeddedContext", JBool(false));
  }

  lemma NothingReadsAsNothing()
    ensures Dec(FsCapabilities(), JObj(map[])) == Ok(NO_FS)
    ensures Dec(SClientSession, JObj(map[])) == Ok(VClientSession(SILENT))
    ensures Dec(PromptCapabilities(), JObj(map[])) == Ok(NO_PROMPT_CAPS)
    ensures Dec(McpCapabilities(), JObj(map[])) == Ok(NO_MCP_CAPS)
    ensures Dec(AuthCapabilities(), JObj(map[])) == Ok(NO_AUTH_CAPS)
    ensures Dec(SessionCapabilities(), JObj(map[])) == Ok(NO_SESSION_CAPS)
  {
  }

  lemma ClientDefaults()
    ensures MayOmit(ClientBase(), "fs", JObj(map[]))
    ensures MayOmit(ClientBase(), "terminal", JBool(false))
    ensures MayOmit(ClientBase(), "session", JObj(map[]))
  {
    hide MayOmit, FsCapabilities, NO_FS, DecodeSession;
    NothingReadsAsNothing();
    AbsentIsDefault(ClientBase(), "fs", JObj(map[]));
    AbsentIsDefault(ClientBase(), "terminal", JBool(false));
    AbsentIsDefault(ClientBase(), "session", JObj(map[]));
  }

  lemma AgentDefaults()
    ensures MayOmit(AgentCapabilities().fields, "loadSession", JBool(false))
    ensures MayOmit(AgentCapabilities().fields, "promptCapabilities", JObj(map[]))
    ensures MayOmit(AgentCapabilities().fields, "mcpCapabilities", JObj(map[]))
    ensures MayOmit(AgentCapabilities().fields, "auth", JObj(map[]))
    ensures MayOmit(AgentCapabilities().fields, "sessionCapabilities", JObj(map[]))
  {
    hide MayOmit, PromptCapabilities, McpCapabilities, AuthCapabilities, SessionCapabilities, Dec;
    hide NO_PROMPT_CAPS, NO_MCP_CAPS, NO_AUTH_CAPS, NO_SESSION_CAPS;
    NothingReadsAsNothing();
    FlagReads(false);
    AbsentIsDefault(AgentCapabilities().fields, "loadSession", JBool(false));
    AbsentIsDefault(AgentCapabilities().fields, "promptCapabilities", JObj(map[]));
    AbsentIsDefault(AgentCapabilities().fields, "mcpCapabilities", JObj(map[]));
    AbsentIsDefault(AgentCapabilities().fields, "auth", JObj(map[]));
    AbsentIsDefault(AgentCapabilities().fields, "sessionCapabilities", JObj(map[]));
  }

  lemma NoClientReads()
    ensures Dec(ClientCapabilities(), JObj(map[])) == Ok(NO_CLIENT_CAPS)
  {
    hide FsCapabilities, NO_FS, DecodeSession, ClientBase, DecFields;
    NoBaseReads();
  }

  lemma NoBaseReads()
    ensures DecFields(ClientBase(), map[]) == Ok(NO_CLIENT_CAPS.base)
  {
    hide FsCapabilities, NO_FS, Dec;
  }

  lemma NoAgentReads()
    ensures Dec(AgentCapabilities(), JObj(map[])) == Ok(NO_AGENT_CAPS)
  {
    hide PromptCapabilities, McpCapabilities, AuthCapabilities, SessionCapabilities;
  }

  /** A peer that gives no version speaks version 1; one that gives no
      capabilities offers none. */
  lemma InitializeDefaults()
    ensures MayOmit(InitializeParams().fields, "protocolVersion", JInt(1))
    ensures MayOmit(InitializeParams().fields, "clientCapabilities", JObj(map[]))
    ensures MayOmit(InitializeResult().fields, "protocolVersion", JInt(1))
    ensures MayOmit(InitializeResult().fields, "agentCapabilities", JObj(map[]))
    ensures MayOmit(InitializeResult().fields, "authMethods", JArr([]))
  {
    hide MayOmit, ClientCapabilities, NO_CLIENT_CAPS, AgentCapabilities, NO_AGENT_CAPS, ImplementationInfo;
    NoClientReads();
    NoAgentReads();
    EmptyListReads(SAuth);
    AbsentIsDefault(InitializeParams().fields, "protocolVersion", JInt(1));
    AbsentIsDefault(InitializeParams().fields, "clientCapabilities", JObj(map[]));
    AbsentIsDefault(InitializeResult().fields, "protocolVersion", JInt(1));
    AbsentIsDefault(InitializeResult().fields, "agentCapabilities", JObj(map[]));
    AbsentIsDefault(InitializeResult().fields, "authMethods", JArr([]));
  }

  // ------------------------------------------------------------- lists and terminals

  lemma ListDefaults()
    ensures MayOmit(StdioMcpServer().fields, "args", JArr([]))
    ensures MayOmit(StdioMcpServer().fields, "env", JArr([]))
    ensures MayOmit(HttpMcpServer().fields, "headers", JArr([]))
    ensures MayOmit(NewSessionParams().fields, "mcpServers", JArr([]))
    ensures MayOmit(LoadSessionParams().fields, "mcpServers", JArr([]))
    ensures MayOmit(ListSessionsResult().fields, "sessions", JArr([]))
  {
    hide MayOmit, KeyValue, McpServer, SessionInfo, Dec;
    EmptyListReads(SStr);
    EmptyListReads(KeyValue());
    EmptyListReads(McpServer());
    EmptyListReads(SessionInfo());
    AbsentIsDefault(StdioMcpServer().fields, "args", JArr([]));
    AbsentIsDefault(StdioMcpServer().fields, "env", JArr([]));
    AbsentIsDefault(HttpMcpServer().fields, "headers", JArr([]));
    AbsentIsDefault(NewSessionParams().fields, "mcpServers", JArr([]));
    AbsentIsDefault(LoadSessionParams().fields, "mcpServers", JArr([]));
    AbsentIsDefault(ListSessionsResult().fields, "sessions", JArr([]));
  }

  lemma TerminalDefaults()
    ensures MayOmit(CreateTerminalParams().fields, "args", JArr([]))
    ensures MayOmit(CreateTerminalParams().fields, "env", JArr([]))
    ensures MayOmit(TerminalOutputResult().fields, "truncated", JBool(false))
  {
    hide MayOmit, KeyValue, TerminalExitStatus;
    EmptyListReads(SStr);
    EmptyListReads(KeyValue());
    AbsentIsDefault(CreateTerminalParams().fields, "args", JArr([]));
    AbsentIsDefault(CreateTerminalParams().fields, "env", JArr([]));
    AbsentIsDefault(TerminalOutputResult().fields, "truncated", JBool(false));
  }
}
