/** include/acp/updates.hpp: the SessionUpdate sum, and include/acp/methods.hpp:
    the notification that carries it. */
module Updates {
  import opened Universe
  import opened Content
  import opened Tools
  import opened SessionTypes

  /** The three message chunks declare the same members. */
  function MessageChunk(): Schema {
    SRec(Field("content", Required, ContentBlock(),
         Field("messageId", Optional, SStr, End)))
  }

  function PlanUpdate(): Schema {
    SRec(Field("entries", Required, SList(PlanEntry()),
         Field("_meta", Meta, SJson, End)))
  }

  function CommandsUpdate(): Schema {
    SRec(Field("availableCommands", Required, SList(AvailableCommand()),
         Field("_meta", Meta, SJson, End)))
  }

  function CurrentModeUpdate(): Schema {
    SRec(Field("currentModeId", Required, SStr,
         Field("_meta", Meta, SJson, End)))
  }

  function ConfigOptionsUpdate(): Schema {
    SRec(Field("configOptions", Required, SList(ConfigOptionType()),
         Field("_meta", Meta, SJson, End)))
  }

  function SessionInfoUpdate(): Schema {
    SRec(Field("title", Optional, SStr,
         Field("updatedAt", Optional, SStr,
         Field("_meta", Meta, SJson, End))))
  }

  function UsageUpdate(): Schema {
    SRec(Field("used", Required, SInt,
         Field("size", Required, SInt,
         Field("cost", Optional, Cost(), End))))
  }

  function NoticeUpdate(): Schema {
    SRec(Field("severity", Required, SStr,
         Field("title", Required, SStr,
         Field("description", Optional, SStr,
         Field("_meta", Meta, SJson, End)))))
  }

  function CompactionUpdate(): Schema {
    SRec(Field("compactionId", Required, SStr,
         Field("status", Required, SStr,
         Field("summary", Optional, SList(ContentBlock()),
         Field("error", Optional, SStr,
         Field("_meta", Meta, SJson, End))))))
  }

  function CompactionSummaryChunk(): Schema {
    SRec(Field("compactionId", Required, SStr,
         Field("content", Required, ContentBlock(),
         Field("_meta", Meta, SJson, End))))
  }

  /** The tool call arms are flattened: the bodies of ToolCall and
      ToolCallUpdate stand directly beside the tag. */
  function UpdateArms(): Arms {
    Arm("user_message_chunk", MessageChunk(),
    Arm("agent_message_chunk", MessageChunk(),
    Arm("agent_thought_chunk", MessageChunk(),
    Arm("plan", PlanUpdate(),
    Arm("tool_call", ToolCall(),
    Arm("tool_call_update", ToolCallUpdate(),
    Arm("available_commands_update", CommandsUpdate(),
    Arm("current_mode_update", CurrentModeUpdate(),
    Arm("config_option_update", ConfigOptionsUpdate(),
    Arm("session_info_update", SessionInfoUpdate(),
    Arm("usage_update", UsageUpdate(),
    Arm("notice", NoticeUpdate(),
    Arm("compaction_update", CompactionUpdate(),
    Arm("compaction_summary_chunk", CompactionSummaryChunk(), NoArm))))))))))))))
  }

  /** The alternative that carries config options. */
  const CONFIG_ARM := 8

  function SessionUpdate(): Schema {
    STagged("sessionUpdate", UpdateArms())
  }

  function SessionUpdateMsg(): Schema {
    SRec(Field("sessionId", Required, SStr,
         Field("update", Required, SessionUpdate(),
         Field("_meta", Meta, SJson, End))))
  }

  // ------------------------------------------------------------- declarations

  predicate FitsUpdate(s: Schema) {
    WellFormed(s) && ObjectWithout("sessionUpdate", s)
  }

  lemma ChunksOk()
    ensures FitsUpdate(MessageChunk()) && FitsUpdate(CompactionUpdate()) && FitsUpdate(CompactionSummaryChunk())
  {
    hide ContentBlock;
    ContentBlockOk();
  }

  lemma PlanUpdateOk()
    ensures FitsUpdate(PlanUpdate()) && FitsUpdate(CurrentModeUpdate())
  {
    hide PlanEntry;
    PlanEntryOk();
  }

  lemma CommandsUpdateOk()
    ensures FitsUpdate(CommandsUpdate())
  {
    hide AvailableCommand;
    AvailableCommandOk();
  }

  lemma ConfigOptionsUpdateOk()
    ensures FitsUpdate(ConfigOptionsUpdate())
  {
    hide ConfigOptionType;
    ConfigOptionOk();
  }

  lemma FactsOk()
    ensures FitsUpdate(SessionInfoUpdate()) && FitsUpdate(UsageUpdate()) && FitsUpdate(NoticeUpdate())
  {
    hide Cost;
    CostOk();
  }

  lemma UpdateTagsDistinct()
    ensures DistinctTags(UpdateArms())
  {
    hide MessageChunk, PlanUpdate, ToolCall, ToolCallUpdate, CommandsUpdate, CurrentModeUpdate, ConfigOptionsUpdate;
    hide SessionInfoUpdate, UsageUpdate, NoticeUpdate, CompactionUpdate, CompactionSummaryChunk;
  }

  lemma UpdateArmsFit()
    requires FitsUpdate(MessageChunk()) && FitsUpdate(CompactionUpdate()) && FitsUpdate(CompactionSummaryChunk())
    requires FitsUpdate(PlanUpdate()) && FitsUpdate(CurrentModeUpdate()) && FitsUpdate(CommandsUpdate())
    requires FitsUpdate(ConfigOptionsUpdate()) && FitsUpdate(ToolCall()) && FitsUpdate(ToolCallUpdate())
    requires FitsUpdate(SessionInfoUpdate()) && FitsUpdate(UsageUpdate()) && FitsUpdate(NoticeUpdate())
    ensures SoundArms("sessionUpdate", UpdateArms())
  {
    hide MessageChunk, PlanUpdate, ToolCall, ToolCallUpdate, CommandsUpdate, CurrentModeUpdate, ConfigOptionsUpdate;
    hide SessionInfoUpdate, UsageUpdate, NoticeUpdate, CompactionUpdate, CompactionSummaryChunk;
    hide WellFormed, ObjectWithout;
  }

  /** No arm of the update sum uses the tag key, and the tags are distinct: the
      flattening of the tool call arms is safe. */
  lemma SessionUpdateOk()
    ensures WellFormed(SessionUpdate())
  {
    hide DistinctTags, SoundArms, UpdateArms;
    hide MessageChunk, PlanUpdate, ToolCall, ToolCallUpdate, CommandsUpdate, CurrentModeUpdate, ConfigOptionsUpdate;
    hide SessionInfoUpdate, UsageUpdate, NoticeUpdate, CompactionUpdate, CompactionSummaryChunk;
    ChunksOk();
    PlanUpdateOk();
    CommandsUpdateOk();
    ConfigOptionsUpdateOk();
    FactsOk();
    ToolCallsOk();
    UpdateTagsDistinct();
    UpdateArmsFit();
  }

  lemma SessionUpdateMsgOk()
    ensures WellFormed(SessionUpdateMsg())
  {
    hide SessionUpdate;
    SessionUpdateOk();
  }
}
