/** include/acp/tools.hpp: tool calls, plans, permissions. */
module Tools {
  import opened Universe
  import opened Content

  function ToolKind(): Schema {
    SEnum(Name("read", Name("edit", Name("delete", Name("move", Name("search",
          Name("execute", Name("think", Name("fetch", Name("switch_mode", Name("other", NoName)))))))))))
  }

  const KIND_OTHER := VEnum(9)

  function ToolCallStatus(): Schema {
    SEnum(Name("pending", Name("in_progress", Name("completed", Name("failed", NoName)))))
  }

  const STATUS_PENDING := VEnum(0)

  function ContentPart(): Schema {
    SRec(Field("content", Required, ContentBlock(),
         Field("_meta", Meta, SJson, End)))
  }

  function DiffPart(): Schema {
    SRec(Field("path", Required, SStr,
         Field("oldText", Optional, SStr,
         Field("newText", Required, SStr,
         Field("_meta", Meta, SJson, End)))))
  }

  function TerminalPart(): Schema {
    SRec(Field("terminalId", Required, SStr,
         Field("_meta", Meta, SJson, End)))
  }

  function ToolCallContent(): Schema {
    STagged("type",
      Arm("content", ContentPart(),
      Arm("diff", DiffPart(),
      Arm("terminal", TerminalPart(), NoArm))))
  }

  function ToolCallLocation(): Schema {
    SRec(Field("path", Required, SStr,
         Field("line", Optional, SInt,
         Field("_meta", Meta, SJson, End))))
  }

  function ToolCall(): Schema {
    SRec(Field("toolCallId", Required, SStr,
         Field("title", Required, SStr,
         Field("name", Optional, SStr,
         Field("kind", Defaulted(KIND_OTHER), ToolKind(),
         Field("status", Defaulted(STATUS_PENDING), ToolCallStatus(),
         Field("content", Defaulted(VList([])), SList(ToolCallContent()),
         Field("locations", Defaulted(VList([])), SList(ToolCallLocation()),
         Field("rawInput", Optional, SJson,
         Field("rawOutput", Optional, SJson,
         Field("_meta", Meta, SJson, End)))))))))))
  }

  function ToolCallUpdate(): Schema {
    SRec(Field("toolCallId", Required, SStr,
         Field("title", Optional, SStr,
         Field("name", Optional, SStr,
         Field("kind", Optional, ToolKind(),
         Field("status", Optional, ToolCallStatus(),
         Field("content", Optional, SList(ToolCallContent()),
         Field("locations", Optional, SList(ToolCallLocation()),
         Field("rawInput", Optional, SJson,
         Field("rawOutput", Optional, SJson,
         Field("_meta", Meta, SJson, End)))))))))))
  }

  function PlanEntryPriority(): Schema {
    SEnum(Name("high", Name("medium", Name("low", NoName))))
  }

  function PlanEntryStatus(): Schema {
    SEnum(Name("pending", Name("in_progress", Name("completed", NoName))))
  }

  const PRIORITY_MEDIUM := VEnum(1)
  const PLAN_PENDING := VEnum(0)

  function PlanEntry(): Schema {
    SRec(Field("content", Required, SStr,
         Field("priority", Defaulted(PRIORITY_MEDIUM), PlanEntryPriority(),
         Field("status", Defaulted(PLAN_PENDING), PlanEntryStatus(),
         Field("_meta", Meta, SJson, End)))))
  }

  function PermissionOptionKind(): Schema {
    SEnum(Name("allow_once", Name("allow_always", Name("reject_once", Name("reject_always", NoName)))))
  }

  const ALLOW_ONCE := VEnum(0)

  function PermissionOption(): Schema {
    SRec(Field("optionId", Required, SStr,
         Field("name", Required, SStr,
         Field("kind", Defaulted(ALLOW_ONCE), PermissionOptionKind(),
         Field("_meta", Meta, SJson, End)))))
  }

  function SelectedOutcome(): Schema {
    SRec(Field("optionId", Required, SStr,
         Field("_meta", Meta, SJson, End)))
  }

  /** The `cancelled` arm writes an empty object and reads anything. */
  function RequestPermissionOutcome(): Schema {
    STagged("outcome",
      Arm("cancelled", SUnit,
      Arm("selected", SelectedOutcome(), NoArm)))
  }

  lemma ToolKindOk()
    ensures WellFormed(ToolKind())
  {
  }

  lemma StatusOk()
    ensures WellFormed(ToolCallStatus()) && WellFormed(PlanEntryStatus())
  {
  }

  lemma PriorityOk()
    ensures WellFormed(PlanEntryPriority()) && WellFormed(PermissionOptionKind())
  {
  }

  lemma PartsOk()
    ensures WellFormed(ContentPart()) && ObjectWithout("type", ContentPart())
    ensures WellFormed(DiffPart()) && ObjectWithout("type", DiffPart())
    ensures WellFormed(TerminalPart()) && ObjectWithout("type", TerminalPart())
  {
    hide ContentBlock;
    assert WellFormed(ContentBlock()) by { ContentBlockOk(); }
  }

  lemma ToolCallContentOk()
    ensures WellFormed(ToolCallContent())
  {
    hide ContentPart, DiffPart, TerminalPart;
    PartsOk();
  }

  lemma LocationOk()
    ensures WellFormed(ToolCallLocation())
  {
  }

  lemma DefaultsOk()
    ensures Plain(ToolKind(), KIND_OTHER) && Plain(ToolCallStatus(), STATUS_PENDING)
    ensures Plain(SList(ToolCallContent()), VList([])) && Plain(SList(ToolCallLocation()), VList([]))
  {
    hide ToolCallContent, ToolCallLocation;
  }

  lemma ToolCallKeys()
    ensures DistinctKeys(ToolCall().fields) && Fresh("sessionUpdate", ToolCall().fields)
    ensures DistinctKeys(ToolCallUpdate().fields) && Fresh("sessionUpdate", ToolCallUpdate().fields)
  {
    hide ToolKind, ToolCallStatus, ToolCallContent, ToolCallLocation, KIND_OTHER, STATUS_PENDING;
  }

  lemma ToolCallFields()
    requires WellFormed(ToolKind()) && WellFormed(ToolCallStatus())
    requires WellFormed(ToolCallContent()) && WellFormed(ToolCallLocation())
    requires Plain(ToolKind(), KIND_OTHER) && Plain(ToolCallStatus(), STATUS_PENDING)
    requires Plain(SList(ToolCallContent()), VList([])) && Plain(SList(ToolCallLocation()), VList([]))
    ensures SoundFields(ToolCall().fields)
  {
    hide ToolKind, ToolCallStatus, ToolCallContent, ToolCallLocation, KIND_OTHER, STATUS_PENDING, Plain;
  }

  lemma ToolCallUpdateFields()
    requires WellFormed(ToolKind()) && WellFormed(ToolCallStatus())
    requires WellFormed(ToolCallContent()) && WellFormed(ToolCallLocation())
    ensures SoundFields(ToolCallUpdate().fields)
  {
    hide ToolKind, ToolCallStatus, ToolCallContent, ToolCallLocation;
  }

  lemma ToolCallsOk()
    ensures WellFormed(ToolCall()) && ObjectWithout("sessionUpdate", ToolCall())
    ensures WellFormed(ToolCallUpdate()) && ObjectWithout("sessionUpdate", ToolCallUpdate())
  {
    hide DistinctKeys, SoundFields, Fresh, ToolKind, ToolCallStatus, ToolCallContent, ToolCallLocation;
    ToolKindOk();
    StatusOk();
    ToolCallContentOk();
    LocationOk();
    DefaultsOk();
    ToolCallKeys();
    ToolCallFields();
    ToolCallUpdateFields();
  }

  lemma PlanEntryOk()
    ensures WellFormed(PlanEntry())
  {
    hide PlanEntryPriority, PlanEntryStatus, PRIORITY_MEDIUM, PLAN_PENDING;
    PriorityOk();
    StatusOk();
    PlanDefaultsOk();
  }

  lemma PlanDefaultsOk()
    ensures Plain(PlanEntryPriority(), PRIORITY_MEDIUM) && Plain(PlanEntryStatus(), PLAN_PENDING)
  {
  }

  lemma PermissionOk()
    ensures WellFormed(PermissionOption())
  {
    hide PermissionOptionKind, ALLOW_ONCE;
    PriorityOk();
    assert Plain(PermissionOptionKind(), ALLOW_ONCE) by { AllowOnceOk(); }
  }

  lemma AllowOnceOk()
    ensures Plain(PermissionOptionKind(), ALLOW_ONCE)
  {
  }

  lemma OutcomeOk()
    ensures WellFormed(RequestPermissionOutcome())
  {
    assert WellFormed(SelectedOutcome());
  }

  lemma ToolCallContentRigid()
    ensures Rigid(ToolCallContent())
  {
    hide ContentBlock;
    assert Rigid(ContentBlock()) by { ContentBlockRigid(); }
  }

  lemma ToolCallRigid()
    ensures Rigid(ToolCall())
  {
    hide ToolCallContent;
    ToolCallContentRigid();
  }

  lemma ToolCallUpdateRigid()
    ensures Rigid(ToolCallUpdate())
  {
    hide ToolCallContent;
    ToolCallContentRigid();
  }
}
