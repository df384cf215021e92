/** The tagged sums of the protocol by their tags: which record an object with a
    given tag is read as; and the enums by their words. */
module Sums {
  import opened JsonTree
  import opened Universe
  import opened Content
  import opened Tools
  import opened Updates
  import opened RoundTrip
  import opened Methods

  /** The record called tag, and which alternative it is. */
  datatype Called = Called(arm: nat, schema: Schema)

  function ArmCalled(arms: Arms, tag: string): Maybe<Called> {
    if arms.NoArm? then Nothing
    else if arms.tag == tag then Just(Called(0, arms.schema))
    else match ArmCalled(arms.rest, tag)
         case Nothing => Nothing
         case Just(c) => Just(Called(c.arm + 1, c.schema))
  }

  lemma {:induction false} TagDecides(arms: Arms, n: nat, tag: string, j: Json)
    ensures DecArm(arms, n, tag, j) ==
            match ArmCalled(arms, tag)
            case Nothing => Err
            case Just(c) => (match Dec(c.schema, j) case Err => Err case Ok(v) => Ok(VSum(n + c.arm, v)))
  {
    hide Dec;
    if arms.NoArm? {
    } else {
      TagDecides(arms.rest, n + 1, tag, j);
    }
  }

  /** An object is read as the alternative its tag names, from all its members;
      no tag, a tag that is no string or names nothing, and what is no object are
      refused. */
  lemma TaggedRead(key: string, arms: Arms, j: Json)
    ensures !j.JObj? || key !in j.fields || !j.fields[key].JStr? ==> Dec(STagged(key, arms), j) == Err
    ensures j.JObj? && key in j.fields && j.fields[key].JStr? ==>
              Dec(STagged(key, arms), j) ==
              match ArmCalled(arms, j.fields[key].s)
              case Nothing => Err
              case Just(c) => (match Dec(c.schema, j) case Err => Err case Ok(v) => Ok(VSum(c.arm, v)))
  {
    if j.JObj? && key in j.fields && j.fields[key].JStr? {
      TagDecides(arms, 0, j.fields[key].s, j);
    }
  }

  lemma ContentByTag()
    ensures ContentBlock().STagged? && ContentBlock().key == "type"
    ensures ArmCalled(ContentBlock().arms, "text") == Just(Called(0, TextContent()))
    ensures ArmCalled(ContentBlock().arms, "image") == Just(Called(1, ImageContent()))
    ensures ArmCalled(ContentBlock().arms, "audio") == Just(Called(2, AudioContent()))
    ensures ArmCalled(ContentBlock().arms, "resource_link") == Just(Called(3, ResourceLinkContent()))
    ensures ArmCalled(ContentBlock().arms, "resource") == Just(Called(4, ResourceContent()))
  {
    hide TextContent, ImageContent, AudioContent, ResourceLinkContent, ResourceContent;
  }

  lemma ToolContentByTag()
    ensures ToolCallContent().STagged? && ToolCallContent().key == "type"
    ensures ArmCalled(ToolCallContent().arms, "content") == Just(Called(0, ContentPart()))
    ensures ArmCalled(ToolCallContent().arms, "diff") == Just(Called(1, DiffPart()))
    ensures ArmCalled(ToolCallContent().arms, "terminal") == Just(Called(2, TerminalPart()))
    ensures RequestPermissionOutcome().STagged? && RequestPermissionOutcome().key == "outcome"
    ensures ArmCalled(RequestPermissionOutcome().arms, "cancelled") == Just(Called(0, SUnit))
    ensures ArmCalled(RequestPermissionOutcome().arms, "selected") == Just(Called(1, SelectedOutcome()))
  {
    hide ContentPart, DiffPart, TerminalPart, SelectedOutcome;
  }

  lemma MessagesByTag()
    ensures SessionUpdate() == STagged("sessionUpdate", UpdateArms())
    ensures ArmCalled(UpdateArms(), "user_message_chunk") == Just(Called(0, MessageChunk()))
    ensures ArmCalled(UpdateArms(), "agent_message_chunk") == Just(Called(1, MessageChunk()))
    ensures ArmCalled(UpdateArms(), "agent_thought_chunk") == Just(Called(2, MessageChunk()))
    ensures ArmCalled(UpdateArms(), "plan") == Just(Called(3, PlanUpdate()))
    ensures ArmCalled(UpdateArms(), "tool_call") == Just(Called(4, ToolCall()))
    ensures ArmCalled(UpdateArms(), "tool_call_update") == Just(Called(5, ToolCallUpdate()))
    ensures ArmCalled(UpdateArms(), "available_commands_update") == Just(Called(6, CommandsUpdate()))
  {
    hide MessageChunk, PlanUpdate, ToolCall, ToolCallUpdate, CommandsUpdate, CurrentModeUpdate, ConfigOptionsUpdate;
    hide SessionInfoUpdate, UsageUpdate, NoticeUpdate, CompactionUpdate, CompactionSummaryChunk;
  }

  lemma StatesByTag()
    ensures ArmCalled(UpdateArms(), "current_mode_update") == Just(Called(7, CurrentModeUpdate()))
    ensures ArmCalled(UpdateArms(), "config_option_update") == Just(Called(8, ConfigOptionsUpdate()))
    ensures ArmCalled(UpdateArms(), "session_info_update") == Just(Called(9, SessionInfoUpdate()))
    ensures ArmCalled(UpdateArms(), "usage_update") == Just(Called(10, UsageUpdate()))
    ensures ArmCalled(UpdateArms(), "notice") == Just(Called(11, NoticeUpdate()))
    ensures ArmCalled(UpdateArms(), "compaction_update") == Just(Called(12, CompactionUpdate()))
    ensures ArmCalled(UpdateArms(), "compaction_summary_chunk") == Just(Called(13, CompactionSummaryChunk()))
  {
    hide MessageChunk, PlanUpdate, ToolCall, ToolCallUpdate, CommandsUpdate, CurrentModeUpdate, ConfigOptionsUpdate;
    hide SessionInfoUpdate, UsageUpdate, NoticeUpdate, CompactionUpdate, CompactionSummaryChunk;
  }

  // ----------------------------------------------------------------------- enums

  function Listed(names: Names): seq<string> {
    if names.NoName? then [] else [names.wire] + Listed(names.others)
  }

  /** The enumerators are spelled so, in the order of their declaration. */
  predicate Spells(s: Schema, words: seq<string>) {
    s.SEnum? && Listed(s.names) == words
  }

  lemma {:induction false} ListedInOrder(names: Names, i: nat)
    requires i < |Listed(names)|
    ensures i < Count(names) && NameAt(names, i) == Listed(names)[i]
  {
    if i > 0 { ListedInOrder(names.others, i - 1); }
  }

  lemma {:induction false} OnlyListed(names: Names, word: string)
    requires IndexOf(names, word).Ok?
    ensures word in Listed(names)
  {
    if names.wire != word { OnlyListed(names.others, word); }
  }

  /** Each enumerator is written as its word and read from it, and nothing else
      is read. */
  lemma EnumByWord(s: Schema, words: seq<string>, i: nat, j: Json)
    requires Spells(s, words) && WellFormed(s)
    ensures i < |words| ==> Enc(s, VEnum(i)) == JStr(words[i]) && Dec(s, JStr(words[i])) == Ok(VEnum(i))
    ensures Dec(s, j).Ok? ==> j.JStr? && j.s in words
  {
    if i < |words| {
      ListedInOrder(s.names, i);
      IndexBack(s.names, i);
    }
    if Dec(s, j).Ok? {
      OnlyListed(s.names, j.s);
    }
  }

  lemma EnumWords()
    ensures Spells(Role(), ["assistant", "user"])
    ensures Spells(ToolKind(), ["read", "edit", "delete", "move", "search", "execute", "think", "fetch", "switch_mode",
                                "other"])
    ensures Spells(ToolCallStatus(), ["pending", "in_progress", "completed", "failed"])
    ensures Spells(PlanEntryPriority(), ["high", "medium", "low"])
    ensures Spells(PlanEntryStatus(), ["pending", "in_progress", "completed"])
    ensures Spells(PermissionOptionKind(), ["allow_once", "allow_always", "reject_once", "reject_always"])
    ensures Spells(StopReason(), ["end_turn", "max_tokens", "max_turn_requests", "refusal", "cancelled"])
  {
  }
}
