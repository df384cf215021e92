/** include/acp/session_types.hpp: MCP servers, modes, config options, slash
    commands, usage, session info. */
module SessionTypes {
  import opened Universe

  function KeyValue(): Schema {
    SRec(Field("name", Required, SStr,
         Field("value", Required, SStr, End)))
  }

  function StdioMcpServer(): Schema {
    SRec(Field("name", Required, SStr,
         Field("command", Required, SStr,
         Field("args", Defaulted(VList([])), SList(SStr),
         Field("env", Defaulted(VList([])), SList(KeyValue()), End)))))
  }

  function HttpMcpServer(): Schema {
    SRec(Field("name", Required, SStr,
         Field("url", Required, SStr,
         Field("headers", Defaulted(VList([])), SList(KeyValue()), End))))
  }

  /** SseMcpServer declares the same members. */
  function McpServer(): Schema {
    SMcpServer(StdioMcpServer(), HttpMcpServer(), HttpMcpServer())
  }

  function SessionMode(): Schema {
    SRec(Field("id", Required, SStr,
         Field("name", Required, SStr,
         Field("description", Optional, SStr,
         Field("_meta", Meta, SJson, End)))))
  }

  function SessionModeState(): Schema {
    SRec(Field("currentModeId", Required, SStr,
         Field("availableModes", Required, SList(SessionMode()), End)))
  }

  function ConfigSelectOption(): Schema {
    SRec(Field("value", Required, SStr,
         Field("name", Required, SStr,
         Field("description", Optional, SStr,
         Field("_meta", Meta, SJson, End)))))
  }

  function ConfigSelectGroup(): Schema {
    SRec(Field("group", Required, SStr,
         Field("name", Required, SStr,
         Field("options", Required, SList(ConfigSelectOption()),
         Field("_meta", Meta, SJson, End)))))
  }

  function ConfigSelectOptions(): Schema {
    SSelect(ConfigSelectOption(), ConfigSelectGroup())
  }

  function ConfigOptionType(): Schema {
    SConfig(ConfigSelectOptions())
  }

  function UnstructuredCommandInput(): Schema {
    SRec(Field("hint", Required, SStr,
         Field("_meta", Meta, SJson, End)))
  }

  function AvailableCommandInput(): Schema {
    SCommandInput(UnstructuredCommandInput())
  }

  function AvailableCommand(): Schema {
    SRec(Field("name", Required, SStr,
         Field("description", Required, SStr,
         Field("input", Optional, AvailableCommandInput(),
         Field("_meta", Meta, SJson, End)))))
  }

  function Cost(): Schema {
    SRec(Field("amount", Required, SReal,
         Field("currency", Required, SStr, End)))
  }

  function SessionInfo(): Schema {
    SRec(Field("sessionId", Required, SStr,
         Field("cwd", Required, SStr,
         Field("additionalDirectories", Optional, SList(SStr),
         Field("title", Optional, SStr,
         Field("updatedAt", Optional, SStr,
         Field("_meta", Meta, SJson, End)))))))
  }

  lemma NoKeyValuesOk()
    ensures WellFormed(KeyValue())
    ensures Plain(SList(KeyValue()), VList([])) && Plain(SList(SStr), VList([]))
  {
  }

  lemma McpServerOk()
    ensures WellFormed(McpServer())
  {
    hide KeyValue, Plain;
    NoKeyValuesOk();
    assert WellFormed(StdioMcpServer()) && WellFormed(HttpMcpServer());
  }

  lemma ModesOk()
    ensures WellFormed(SessionModeState())
  {
    assert WellFormed(SessionMode());
  }

  lemma SelectOptionsOk()
    ensures WellFormed(ConfigSelectOptions())
  {
    assert WellFormed(ConfigSelectOption());
    assert WellFormed(ConfigSelectGroup());
  }

  lemma ConfigOptionOk()
    ensures WellFormed(ConfigOptionType())
  {
    hide ConfigSelectOption, ConfigSelectGroup;
    SelectOptionsOk();
  }

  lemma CommandInputOk()
    ensures WellFormed(AvailableCommandInput())
  {
    assert WellFormed(UnstructuredCommandInput());
  }

  lemma AvailableCommandOk()
    ensures WellFormed(AvailableCommand()) && Rigid(AvailableCommand())
  {
    CommandInputOk();
  }

  lemma CostOk()
    ensures WellFormed(Cost()) && Rigid(Cost())
  {
  }

  lemma SessionInfoOk()
    ensures WellFormed(SessionInfo())
  {
  }
}
