/** What a session/update notification is after the wire: the message itself,
    but for the config options it may carry. */
module UpdateStream {
  import opened JsonTree
  import opened Universe
  import opened RoundTrip
  import opened Theorems
  import opened Reencoding
  import opened Content
  import opened Tools
  import opened SessionTypes
  import opened Updates

  const EMPTY_GROUPS := VSum(1, VList([]))

  /** A config option as a decoder would build it. */
  function SettleOption(o: ConfigOption): ConfigOption {
    if o.IsBoolean() then o.(currentValue := "", options := NO_OPTIONS)
    else o.(currentBool := false, options := if o.options == EMPTY_GROUPS then NO_OPTIONS else o.options)
  }

  /** What a config option must satisfy to come back as it was. */
  predicate IsSettled(o: ConfigOption) {
    if o.IsBoolean() then o.currentValue == "" && o.options == NO_OPTIONS
    else !o.currentBool && o.options != EMPTY_GROUPS
  }

  function SettleAll(vs: seq<Val>): seq<Val> {
    seq(|vs|, i requires 0 <= i < |vs| => if vs[i].VConfig? then VConfig(SettleOption(vs[i].option)) else vs[i])
  }

  /** A plain list of select options survives unless it is the empty list of
      groups. */
  lemma SelectOptionsNormal(v: Val)
    requires Plain(ConfigSelectOptions(), v)
    ensures Norm(ConfigSelectOptions(), v) == if v == EMPTY_GROUPS then NO_OPTIONS else v
  {
    SelectOptionsOk();
    if v != EMPTY_GROUPS {
      SelectPartsRigid();
      var parts := if v.arm == 0 then ConfigSelectOption() else ConfigSelectGroup();
      forall i | 0 <= i < |v.v.items| ensures Canonical(parts, v.v.items[i]) {
        RigidKeepsPlain(parts, v.v.items[i]);
      }
      CanonicalIsFixed(ConfigSelectOptions(), v);
    }
  }

  lemma SurvivorsArePlain(s: Schema, v: Val)
    requires WellFormed(s) && HasType(s, v) && Dec(s, Enc(s, v)) == Ok(v)
    ensures Plain(s, v)
  {
    Decodes(s, Enc(s, v));
  }

  /** Exactly: a list survives if and only if every `_meta` in it is an object
      and it is not the empty list of groups, which comes back ungrouped. */
  lemma SelectOptionsSurvive(v: Val)
    requires HasType(ConfigSelectOptions(), v)
    ensures Dec(ConfigSelectOptions(), Enc(ConfigSelectOptions(), v)) == Ok(v)
       <==> Plain(ConfigSelectOptions(), v) && v != EMPTY_GROUPS
    ensures Dec(ConfigSelectOptions(), Enc(ConfigSelectOptions(), EMPTY_GROUPS)) == Ok(NO_OPTIONS)
  {
    hide ConfigSelectOptions, Enc, Dec, HasType, Plain, WellFormed;
    SelectOptionsOk();
    NoOptionsPlain();
    RoundTrips(ConfigSelectOptions(), v);
    RoundTrips(ConfigSelectOptions(), EMPTY_GROUPS);
    SelectOptionsNormal(EMPTY_GROUPS);
    if Dec(ConfigSelectOptions(), Enc(ConfigSelectOptions(), v)) == Ok(v) {
      SurvivorsArePlain(ConfigSelectOptions(), v);
    }
    if Plain(ConfigSelectOptions(), v) {
      SelectOptionsNormal(v);
    }
  }

  lemma NoOptionsPlain()
    ensures Plain(ConfigSelectOptions(), NO_OPTIONS) && Plain(ConfigSelectOptions(), EMPTY_GROUPS)
    ensures HasType(ConfigSelectOptions(), NO_OPTIONS) && HasType(ConfigSelectOptions(), EMPTY_GROUPS)
  {
  }

  lemma SelectPartsRigid()
    ensures Rigid(ConfigSelectOption()) && Rigid(ConfigSelectGroup())
  {
  }

  predicate BothEmpty(a: Val, b: Val) {
    {a, b} == {NO_OPTIONS, EMPTY_GROUPS}
  }

  /** The two empty lists, grouped and ungrouped, are the only distinct
      ConfigSelectOptions with object `_meta` members that share an encoding;
      and they are the only lists of different kinds that do at all. */
  lemma SelectOptionsKernel(a: Val, b: Val)
    requires HasType(ConfigSelectOptions(), a) && HasType(ConfigSelectOptions(), b)
    ensures Plain(ConfigSelectOptions(), a) && Plain(ConfigSelectOptions(), b) ==>
              (Enc(ConfigSelectOptions(), a) == Enc(ConfigSelectOptions(), b) <==> a == b || BothEmpty(a, b))
    ensures Enc(ConfigSelectOptions(), a) == Enc(ConfigSelectOptions(), b) ==> a.arm == b.arm || BothEmpty(a, b)
  {
    hide ConfigSelectOptions, Enc, Norm, HasType, Tidy, Plain, WellFormed;
    SelectOptionsOk();
    EncodingKernel(ConfigSelectOptions(), a, b);
    ArmAfterTrip(a);
    ArmAfterTrip(b);
    if Plain(ConfigSelectOptions(), a) && Plain(ConfigSelectOptions(), b) {
      PlainIsTidy(ConfigSelectOptions(), a);
      PlainIsTidy(ConfigSelectOptions(), b);
      SelectOptionsNormal(a);
      SelectOptionsNormal(b);
    }
  }

  lemma ArmAfterTrip(v: Val)
    requires HasType(ConfigSelectOptions(), v)
    ensures v.VSum? && v.v.VList? && (v.arm == 0 || v.arm == 1)
    ensures if v.v.items == [] then Norm(ConfigSelectOptions(), v) == NO_OPTIONS
            else Norm(ConfigSelectOptions(), v).VSum? && Norm(ConfigSelectOptions(), v).arm == v.arm
                 && Norm(ConfigSelectOptions(), v) != NO_OPTIONS
  {
    hide ConfigSelectOption, ConfigSelectGroup;
  }

  /** A round trip settles a config option and does nothing else to it. */
  lemma ConfigOptionNormal(o: ConfigOption)
    requires Plain(ConfigOptionType(), VConfig(o))
    ensures Norm(ConfigOptionType(), VConfig(o)) == VConfig(SettleOption(o))
  {
    hide ConfigSelectOptions;
    SelectOptionsNormal(o.options);
  }

  /** The loss is exact: an option survives if and only if its `_meta` members
      are objects and, being boolean, it has no string value and default
      options, or else is not toggled and its options are not an empty list of
      groups. Of one with object `_meta` members that settled form comes back. */
  lemma ConfigOptionSurvives(o: ConfigOption)
    requires HasType(ConfigOptionType(), VConfig(o))
    ensures Plain(ConfigOptionType(), VConfig(o)) ==>
              Dec(ConfigOptionType(), Enc(ConfigOptionType(), VConfig(o))) == Ok(VConfig(SettleOption(o)))
    ensures Dec(ConfigOptionType(), Enc(ConfigOptionType(), VConfig(o))) == Ok(VConfig(o))
       <==> Plain(ConfigOptionType(), VConfig(o)) && IsSettled(o)
  {
    hide ConfigOptionType, Enc, Dec, HasType, Plain, WellFormed, Norm;
    ConfigOptionOk();
    RoundTrips(ConfigOptionType(), VConfig(o));
    if Dec(ConfigOptionType(), Enc(ConfigOptionType(), VConfig(o))) == Ok(VConfig(o)) {
      SurvivorsArePlain(ConfigOptionType(), VConfig(o));
    }
    if Plain(ConfigOptionType(), VConfig(o)) {
      ConfigOptionNormal(o);
    }
  }

  // ------------------------------------------------------------- the messages

  function SchemaAt(arms: Arms, i: nat): Schema {
    if arms.NoArm? then SUnit else if i == 0 then arms.schema else SchemaAt(arms.rest, i - 1)
  }

  lemma {:induction false} ArmIsSchema(arms: Arms, i: nat, v: Val)
    requires HasArm(arms, i, v)
    ensures HasType(SchemaAt(arms, i), v)
    ensures NormArm(arms, i, v) == Norm(SchemaAt(arms, i), v)
    ensures PlainArm(arms, i, v) == Plain(SchemaAt(arms, i), v)
  {
    if i == 0 {
    } else {
      ArmIsSchema(arms.rest, i - 1, v);
    }
  }

  /** Every alternative but the one at k is rigid. */
  predicate RigidBut(arms: Arms, k: int) {
    arms.Arm? ==> (k != 0 ==> Rigid(arms.schema)) && RigidBut(arms.rest, k - 1)
  }

  lemma {:induction false} OtherArmsRigid(arms: Arms, k: int, i: nat)
    requires RigidBut(arms, k) && i != k
    ensures Rigid(SchemaAt(arms, i))
  {
    if arms.NoArm? || i == 0 {
    } else {
      OtherArmsRigid(arms.rest, k - 1, i - 1);
    }
  }

  lemma ContentArmsRigid()
    ensures Rigid(MessageChunk()) && Rigid(CompactionUpdate()) && Rigid(CompactionSummaryChunk())
  {
    hide ContentBlock;
    ContentBlockRigid();
  }

  lemma OtherUpdatesRigid()
    ensures Rigid(PlanUpdate()) && Rigid(CurrentModeUpdate()) && Rigid(SessionInfoUpdate())
    ensures Rigid(UsageUpdate()) && Rigid(NoticeUpdate())
  {
  }

  lemma CommandsRigid()
    ensures Rigid(CommandsUpdate())
  {
    hide AvailableCommand;
    AvailableCommandOk();
  }

  lemma UpdatesRigid()
    ensures RigidBut(UpdateArms(), CONFIG_ARM)
  {
    hide MessageChunk, PlanUpdate, ToolCall, ToolCallUpdate, CommandsUpdate, CurrentModeUpdate, ConfigOptionsUpdate;
    hide SessionInfoUpdate, UsageUpdate, NoticeUpdate, CompactionUpdate, CompactionSummaryChunk, WellFormed;
    ContentArmsRigid();
    OtherUpdatesRigid();
    CommandsRigid();
    ToolCallRigid();
    ToolCallUpdateRigid();
  }

  lemma ConfigArm()
    ensures SchemaAt(UpdateArms(), CONFIG_ARM) == ConfigOptionsUpdate()
  {
    hide MessageChunk, PlanUpdate, ToolCall, ToolCallUpdate, CommandsUpdate, CurrentModeUpdate, ConfigOptionsUpdate;
    hide SessionInfoUpdate, UsageUpdate, NoticeUpdate, CompactionUpdate, CompactionSummaryChunk;
  }

  lemma ConfigOptionsNormal(body: Val)
    requires Plain(ConfigOptionsUpdate(), body)
    ensures body.VRec? && body.fields.Cons? && body.fields.head.VList?
    ensures Norm(ConfigOptionsUpdate(), body) == VRec(body.fields.(head := VList(SettleAll(body.fields.head.items))))
  {
    hide ConfigOptionType;
    var options := body.fields.head.items;
    assert HasTypes(ConfigOptionType(), options) && PlainAll(ConfigOptionType(), options);
    forall i | 0 <= i < |options| ensures NormAll(ConfigOptionType(), options)[i] == SettleAll(options)[i] {
      IsConfig(options[i]);
      ConfigOptionNormal(options[i].option);
    }
    assert NormAll(ConfigOptionType(), options) == SettleAll(options);
  }

  lemma IsConfig(v: Val)
    requires Plain(ConfigOptionType(), v)
    ensures v.VConfig?
  {
  }

  /** An update as its receiver sees it. */
  function SettledUpdate(u: Val): Val {
    if u.VSum? && u.arm == CONFIG_ARM && u.v.VRec? && u.v.fields.Cons? && u.v.fields.head.VList? then
      VSum(CONFIG_ARM, VRec(u.v.fields.(head := VList(SettleAll(u.v.fields.head.items)))))
    else u
  }

  lemma UpdateNormal(u: Val)
    requires Plain(SessionUpdate(), u)
    ensures Norm(SessionUpdate(), u) == SettledUpdate(u)
  {
    hide UpdateArms, Updates.ConfigOptionsUpdate;
    ArmIsSchema(UpdateArms(), u.arm, u.v);
    if u.arm == CONFIG_ARM {
      ConfigArm();
      ConfigOptionsNormal(u.v);
    } else {
      UpdatesRigid();
      OtherArmsRigid(UpdateArms(), CONFIG_ARM, u.arm);
      var s := SchemaAt(UpdateArms(), u.arm);
      RigidKeepsPlain(s, u.v);
      SessionUpdateOk();
      ArmsAreSound(UpdateArms(), u.arm);
      CanonicalIsFixed(s, u.v);
    }
  }

  lemma {:induction false} ArmsAreSound(arms: Arms, i: nat)
    requires SoundArms("sessionUpdate", arms)
    ensures WellFormed(SchemaAt(arms, i))
  {
    if arms.NoArm? || i == 0 {
    } else {
      ArmsAreSound(arms.rest, i - 1);
    }
  }

  /** The update of a session/update message: its second member. */
  function UpdateOf(m: Val): Val {
    if m.VRec? && m.fields.Cons? && m.fields.tail.Cons? then m.fields.tail.head else m
  }

  function SettledMsg(m: Val): Val {
    if m.VRec? && m.fields.Cons? && m.fields.tail.Cons? then
      VRec(m.fields.(tail := m.fields.tail.(head := SettledUpdate(UpdateOf(m)))))
    else m
  }

  /** The config options an update carries: none, unless it is the one arm. */
  function OptionsOf(u: Val): seq<Val> {
    if u.VSum? && u.arm == CONFIG_ARM && u.v.VRec? && u.v.fields.Cons? && u.v.fields.head.VList? then
      u.v.fields.head.items
    else []
  }

  predicate AllSettled(vs: seq<Val>) {
    forall i | 0 <= i < |vs| :: vs[i].VConfig? && IsSettled(vs[i].option)
  }

  lemma SettledIffOptionsAre(u: Val)
    requires forall i | 0 <= i < |OptionsOf(u)| :: OptionsOf(u)[i].VConfig?
    ensures SettledUpdate(u) == u <==> AllSettled(OptionsOf(u))
  {
    var vs := OptionsOf(u);
    if SettledUpdate(u) == u {
      forall i | 0 <= i < |vs| ensures IsSettled(vs[i].option) {
        assert SettleAll(vs)[i] == vs[i];
      }
    } else {
      assert SettleAll(vs) != vs;
    }
  }

  lemma MessageNormal(m: Val)
    requires Plain(SessionUpdateMsg(), m)
    ensures Plain(SessionUpdate(), UpdateOf(m))
    ensures Norm(SessionUpdateMsg(), m) == SettledMsg(m)
  {
    hide SessionUpdate;
    UpdateNormal(UpdateOf(m));
  }

  lemma CarriesConfigs(u: Val)
    requires Plain(SessionUpdate(), u)
    ensures forall i | 0 <= i < |OptionsOf(u)| :: OptionsOf(u)[i].VConfig?
  {
    hide UpdateArms, Updates.ConfigOptionsUpdate, ConfigOptionType;
    ArmIsSchema(UpdateArms(), u.arm, u.v);
    ConfigArm();
    CarriedByBody(u);
  }

  lemma CarriedByBody(u: Val)
    requires u.VSum? && (u.arm == CONFIG_ARM ==> Plain(ConfigOptionsUpdate(), u.v))
    ensures forall i | 0 <= i < |OptionsOf(u)| :: OptionsOf(u)[i].VConfig?
  {
    hide ConfigOptionType;
    var vs := OptionsOf(u);
    if vs != [] {
      assert PlainAll(ConfigOptionType(), vs);
      forall i | 0 <= i < |vs| ensures vs[i].VConfig? {
        IsConfig(vs[i]);
      }
    }
  }

  /** Every session/update message, whatever its update and however long its
      lists: one with object `_meta` members and no present null payload comes
      back with its config options settled and nothing else touched, and a
      message comes back as it was exactly when it is of that kind and each
      config option it carries is settled. */
  lemma MessageSurvives(m: Val)
    requires HasType(SessionUpdateMsg(), m)
    ensures Plain(SessionUpdateMsg(), m) ==> Dec(SessionUpdateMsg(), Enc(SessionUpdateMsg(), m)) == Ok(SettledMsg(m))
    ensures Dec(SessionUpdateMsg(), Enc(SessionUpdateMsg(), m)) == Ok(m)
       <==> Plain(SessionUpdateMsg(), m) && AllSettled(OptionsOf(UpdateOf(m)))
  {
    hide *;
    SessionUpdateMsgOk();
    RoundTrips(SessionUpdateMsg(), m);
    if Dec(SessionUpdateMsg(), Enc(SessionUpdateMsg(), m)) == Ok(m) {
      SurvivorsArePlain(SessionUpdateMsg(), m);
    }
    if Plain(SessionUpdateMsg(), m) {
      MessageNormal(m);
      SettledExactly(m);
    }
  }

  lemma SettledExactly(m: Val)
    requires Plain(SessionUpdateMsg(), m)
    ensures SettledMsg(m) == m <==> AllSettled(OptionsOf(UpdateOf(m)))
  {
    hide *;
    MessageShape(m);
    MessageNormal(m);
    CarriesConfigs(UpdateOf(m));
    SettledIffOptionsAre(UpdateOf(m));
  }

  lemma MessageShape(m: Val)
    requires Plain(SessionUpdateMsg(), m)
    ensures HasType(SessionUpdateMsg(), m)
    ensures SettledMsg(m) == m <==> SettledUpdate(UpdateOf(m)) == UpdateOf(m)
  {
    hide SessionUpdate;
  }
}
