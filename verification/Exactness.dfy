/** Where the wire forgets and where it cannot confuse: concrete losses beside
    the exact conditions, and the encodings that are told apart without a tag. */
module Exactness {
  import opened JsonTree
  import opened AuthMethods
  import opened ClientSessions
  import opened Universe
  import opened RoundTrip
  import opened Members
  import opened Theorems
  import opened Content
  import opened Tools
  import opened SessionTypes
  import opened Caps
  import opened CapsOrder
  import opened UpdateStream

  // ------------------------------------------------------------ optional fields

  /** Null is the encoding of raw JSON null and of nothing else. */
  lemma OnlyJsonEncodesToNull(s: Schema)
    requires WellFormed(s)
    ensures (exists v :: HasType(s, v) && Enc(s, v) == JNull) <==> s.SJson?
  {
    hide Enc, WellFormed;
    if s.SJson? {
      NeverNull(s, VJson(JNull));
      assert HasType(s, VJson(JNull)) && Enc(s, VJson(JNull)) == JNull;
    }
    if v :| HasType(s, v) && Enc(s, v) == JNull {
      NeverNull(s, v);
    }
  }

  /** An optional field gives back exactly what can be told from an absent one. */
  lemma OptionalSurvives(s: Schema, v: Val)
    requires WellFormed(s) && HasField(Optional, s, v)
    ensures DecField(Optional, s, EncField(Optional, s, v)) == Ok(v)
       <==> (v.VJust? ==> Canonical(s, v.v) && v.v != VJson(JNull))
  {
    hide Enc, Dec, HasType, WellFormed, Canonical, Norm;
    FieldRoundTrips(Optional, s, v);
    if v.VJust? {
      NeverNull(s, v.v);
      RoundTrips(s, v.v);
      SurvivesIffCanonical(s, v.v);
    }
  }

  predicate SettledMaybe(s: Schema, v: Val) {
    HasField(Optional, s, v) && (v.VJust? ==> Canonical(s, v.v))
  }

  /** A Maybe<A> field returns every (canonical) value if and only if no value
      of A encodes to null, that is, unless A is raw JSON. */
  lemma OptionalIsFaithfulUnlessNull(s: Schema)
    requires WellFormed(s)
    ensures (forall v :: SettledMaybe(s, v) ==> DecField(Optional, s, EncField(Optional, s, v)) == Ok(v))
       <==> (forall a :: HasType(s, a) ==> Enc(s, a) != JNull)
  {
    hide Enc, Dec, DecField, EncField, WellFormed;
    OnlyJsonEncodesToNull(s);
    if s.SJson? {
      var v := VJust(VJson(JNull));
      OptionalSurvives(s, v);
      assert SettledMaybe(s, v) && DecField(Optional, s, EncField(Optional, s, v)) != Ok(v);
    } else {
      forall v | SettledMaybe(s, v) ensures DecField(Optional, s, EncField(Optional, s, v)) == Ok(v) {
        OptionalSurvives(s, v);
      }
    }
  }

  lemma NoElementsCanonical(s: Schema)
    ensures HasType(SList(s), VList([])) && Canonical(SList(s), VList([]))
  {
    assert HasTypes(s, []) && CanonicalAll(s, []);
  }

  /** In a tool call update, an empty content list is not an absent one, and a
      present null payload is: the two ends of the same rule. */
  lemma PatchFields(s: Schema)
    requires WellFormed(s)
    ensures EncField(Optional, SList(s), VJust(VList([]))) != EncField(Optional, SList(s), VNothing)
    ensures DecField(Optional, SList(s), EncField(Optional, SList(s), VJust(VList([])))) == Ok(VJust(VList([])))
    ensures DecField(Optional, SJson, EncField(Optional, SJson, VJust(VJson(JNull)))) == Ok(VNothing)
  {
    hide Enc, Dec, Canonical;
    NoElementsCanonical(s);
    OptionalSurvives(SList(s), VJust(VList([])));
    NeverNull(SJson, VJson(JNull));
    FieldRoundTrips(Optional, SJson, VJust(VJson(JNull)));
  }

  // --------------------------------------------------------------- untagged sums

  predicate ReadAsArm(s: Schema, a: Val)
    requires HasType(s, a) && (s.SEmbedded? || s.SMcpServer?)
  {
    var r := Dec(s, Enc(s, a));
    r.Ok? && r.value.VSum? && r.value.arm == a.arm
  }

  /** Values of different arms have different encodings, and each is read back
      as the arm it was, whatever its fields and its `_meta` hold. */
  lemma ArmsAreNeverConfused(s: Schema, a: Val, b: Val)
    requires s.SEmbedded? || s.SMcpServer?
    requires WellFormed(s) && HasType(s, a) && HasType(s, b)
    ensures a.arm != b.arm ==> Enc(s, a) != Enc(s, b)
    ensures ReadAsArm(s, a)
  {
    hide Enc, Dec, WellFormed;
    RoundTrips(s, a);
    RoundTrips(s, b);
  }

  /** So it is for text and blob resources. */
  lemma ResourcesAreNeverConfused(a: Val, b: Val)
    requires HasType(EmbeddedResource(), a) && HasType(EmbeddedResource(), b)
    ensures a.arm != b.arm ==> Enc(EmbeddedResource(), a) != Enc(EmbeddedResource(), b)
    ensures ReadAsArm(EmbeddedResource(), a)
  {
    hide Enc, Dec, HasType, WellFormed;
    EmbeddedOk();
    ArmsAreNeverConfused(EmbeddedResource(), a, b);
  }

  /** And for stdio, http and sse servers. */
  lemma ServersAreNeverConfused(a: Val, b: Val)
    requires HasType(McpServer(), a) && HasType(McpServer(), b)
    ensures a.arm != b.arm ==> Enc(McpServer(), a) != Enc(McpServer(), b)
    ensures ReadAsArm(McpServer(), a)
  {
    hide Enc, Dec, HasType, WellFormed;
    McpServerOk();
    ArmsAreNeverConfused(McpServer(), a, b);
  }

  /** What the wire shows of a server: its kind under `type`, and of a stdio
      server no `type` at all. */
  function ServerTag(arm: nat): Maybe<Json> {
    if arm == 0 then Nothing else if arm == 1 then Just(JStr("http")) else Just(JStr("sse"))
  }

  lemma ServerIsTagged(s: Schema, v: Val)
    requires s.SMcpServer? && WellFormed(s) && HasType(s, v)
    ensures Enc(s, v).JObj? && Find(Enc(s, v).fields, "type") == ServerTag(v.arm)
  {
    var c := Chosen(s, v.arm);
    assert ObjectWithout("type", c) && HasType(c, v.v);
    TagIsNotWritten(c, "type", v.v);
  }

  /** An object is read as a stdio server exactly when its `type` is absent or
      any string but http and sse, and its members are those of one. */
  lemma ReadAsStdio(s: Schema, j: Json)
    requires s.SMcpServer?
    ensures (Dec(s, j).Ok? && Dec(s, j).value.VSum? && Dec(s, j).value.arm == 0)
       <==> && j.JObj?
            && (match Find(j.fields, "type")
                case Nothing => true
                case Just(JStr(typ)) => typ != "http" && typ != "sse"
                case _ => false)
            && Dec(s.stdio, j).Ok?
  {
  }

  const STRANGER := JObj(map["type" := JStr("websocket"), "name" := JStr("n"), "command" := JStr("c")])

  /** So a server of a kind nobody knows is read as a stdio server. */
  lemma StrangersAreStdio()
    ensures Dec(McpServer(), STRANGER)
         == Ok(VSum(0, VRec(Cons(VStr("n"), Cons(VStr("c"), Cons(VList([]), Cons(VList([]), Nil)))))))
  {
    hide KeyValue;
  }

  // ----------------------------------------------------------- flattened arms

  /** A flattened tool call neither writes the tag member nor sees it. */
  lemma FlatteningIsSafe(m: Object, x: Json, call: Val, update: Val)
    requires HasType(ToolCall(), call) && HasType(ToolCallUpdate(), update)
    ensures Dec(ToolCall(), JObj(m["sessionUpdate" := x])) == Dec(ToolCall(), JObj(m))
    ensures Dec(ToolCallUpdate(), JObj(m["sessionUpdate" := x])) == Dec(ToolCallUpdate(), JObj(m))
    ensures LeavesFree("sessionUpdate", Enc(ToolCall(), call))
    ensures LeavesFree("sessionUpdate", Enc(ToolCallUpdate(), update))
  {
    hide ToolCall, ToolCallUpdate, Dec, HasType;
    ToolCallsOk();
    TagIsForeign(ToolCall(), m, "sessionUpdate", x);
    TagIsForeign(ToolCallUpdate(), m, "sessionUpdate", x);
    TagIsNotWritten(ToolCall(), "sessionUpdate", call);
    TagIsNotWritten(ToolCallUpdate(), "sessionUpdate", update);
  }

  // ---------------------------------------------------------------- capabilities

  /** Every flag and every nested capability of an offer comes back; the offer
      is unchanged exactly when its `_meta` members are objects. */
  lemma OffersSurvive(s: Schema, v: Val)
    requires s == ClientCapabilities() || s == AgentCapabilities()
    requires HasType(s, v)
    ensures Dec(s, Enc(s, v)) == Ok(v) <==> Plain(s, v)
  {
    hide *;
    ClientOffers();
    AgentOffers();
    RoundTrips(s, v);
    if Dec(s, Enc(s, v)) == Ok(v) {
      SurvivorsArePlain(s, v);
    }
    if Plain(s, v) {
      OfferIsFixed(s, v);
    }
  }

  // -------------------------------------------------- what does not come back

  predicate Lost(s: Schema, v: Val) {
    HasType(s, v) && Dec(s, Enc(s, v)) != Ok(v)
  }

  const TOGGLE := ConfigOption("o", "O", Nothing, Nothing, "boolean", "left over", true, NO_OPTIONS, EMPTY_OBJECT)
  const CHOICE := ConfigOption("o", "O", Nothing, Nothing, "select", "v", false, EMPTY_GROUPS, EMPTY_OBJECT)
  const AGENT_LOGIN := AuthMethod("a", "A", Nothing, "agent", ["--login"], map[], EMPTY_OBJECT)

  /** Not every value comes back. Lost are the string of a boolean option, an
      empty list of groups, the arguments of a method that is no terminal one,
      and a `_meta` that is no object (and, by PatchFields, a present null). */
  lemma SomeValuesAreLost()
    ensures Lost(ConfigOptionType(), VConfig(TOGGLE))
    ensures Lost(ConfigOptionType(), VConfig(CHOICE))
    ensures Lost(SAuth, VAuth(AGENT_LOGIN))
    ensures Lost(SClientSession, VClientSession(SILENT.(meta := JInt(1))))
  {
    hide Enc, Dec, ConfigSelectOptions;
    NoOptionsPlain();
    ConfigOptionSurvives(TOGGLE);
    ConfigOptionSurvives(CHOICE);
    AuthIsLost();
    SurvivesIffCanonical(SClientSession, VClientSession(SILENT.(meta := JInt(1))));
  }

  lemma AuthIsLost()
    ensures Lost(SAuth, VAuth(AGENT_LOGIN))
  {
    hide Enc, Dec;
    SurvivesIffCanonical(SAuth, VAuth(AGENT_LOGIN));
  }
}
