/** The closed algebra of ACP types as data: schemas, the values of a schema,
    and the codec that follows the shape of a schema.

    A `Schema` is one C++ type expression: a primitive, an enum, a list, a
    record of fields, a tagged sum, or one of the types whose codec the
    repository writes by hand. `Enc` and `Dec` are `to_json` and `from_json`.
    Enums, records and sums are chains (first entry, then the rest), so a
    concrete schema reads like the C++ declaration it models. */
module Universe {
  import opened JsonTree
  import opened AuthMethods
  import opened ClientSessions

  // ---------------------------------------------------------------- schemas

  datatype Schema =
    | SStr
    | SInt
    | SBool
    | SReal
    | SJson
    | SUnit
    | SEnum(names: Names)
    | SList(elem: Schema)
    | SRec(fields: Fields)
    | STagged(key: string, arms: Arms)
      // Hand-written codecs, each over the codecs it calls.
    | SEmbedded(text: Schema, blob: Schema)
    | SMcpServer(stdio: Schema, http: Schema, sse: Schema)
    | SCommandInput(unstructured: Schema)
    | SSelect(option: Schema, group: Schema)
    | SConfig(options: Schema)
    | SAuth
    | SClientSession
    | SClientCaps(base: Fields)

  /** Wire spellings of an enum, in the order of its enumerators. */
  datatype Names = NoName | Name(wire: string, others: Names)

  datatype Fields = End | Field(key: string, kind: Kind, schema: Schema, rest: Fields)

  datatype Kind = Required | Optional | Defaulted(fallback: Val) | Meta

  datatype Arms = NoArm | Arm(tag: string, schema: Schema, rest: Arms)

  // ----------------------------------------------------------------- values

  datatype Val =
    | VStr(s: string)
    | VInt(i: int)
    | VBool(b: bool)
    | VReal(r: real)
    | VJson(j: Json)
    | VUnit
    | VEnum(n: nat)
    | VList(items: seq<Val>)
    | VRec(fields: Vals)
    | VSum(arm: nat, v: Val)
    | VNothing
    | VJust(v: Val)
    | VConfig(option: ConfigOption)
    | VAuth(method_: AuthMethod)
    | VClientSession(session: ClientSession)
    | VClientCaps(base: Vals, authTerminal: bool, elicitForm: bool, elicitUrl: bool)

  /** The members of a struct, in declaration order. */
  datatype Vals = Nil | Cons(head: Val, tail: Vals)

  datatype ConfigOption = ConfigOption(
    id: string,
    name: string,
    description: Maybe<string>,
    category: Maybe<string>,
    typ: string,
    currentValue: string,
    currentBool: bool,
    options: Val,
    meta: Json
  ) {
    predicate IsBoolean() {
      typ == "boolean"
    }
  }

  /** A default-constructed ConfigSelectOptions: its first alternative, empty. */
  const NO_OPTIONS := VSum(0, VList([]))

  // ----------------------------------------------------------------- typing

  function Count(names: Names): nat {
    if names.NoName? then 0 else 1 + Count(names.others)
  }

  /** v is a value of the C++ type that s describes. */
  predicate HasType(s: Schema, v: Val)
    decreases s, 0
  {
    match s
    case SStr => v.VStr?
    case SInt => v.VInt?
    case SBool => v.VBool?
    case SReal => v.VReal?
    case SJson => v.VJson?
    case SUnit => v.VUnit?
    case SEnum(names) => v.VEnum? && v.n < Count(names)
    case SList(e) => v.VList? && HasTypes(e, v.items)
    case SRec(fs) => v.VRec? && HasFields(fs, v.fields)
    case STagged(_, arms) => v.VSum? && HasArm(arms, v.arm, v.v)
    case SEmbedded(text, blob) =>
      v.VSum? && ((v.arm == 0 && HasType(text, v.v)) || (v.arm == 1 && HasType(blob, v.v)))
    case SMcpServer(stdio, http, sse) =>
      && v.VSum?
      && (|| (v.arm == 0 && HasType(stdio, v.v))
          || (v.arm == 1 && HasType(http, v.v))
          || (v.arm == 2 && HasType(sse, v.v)))
    case SCommandInput(u) => v.VSum? && v.arm == 0 && HasType(u, v.v)
    case SSelect(option, group) =>
      && v.VSum? && v.v.VList?
      && ((v.arm == 0 && HasTypes(option, v.v.items)) || (v.arm == 1 && HasTypes(group, v.v.items)))
    case SConfig(options) => v.VConfig? && HasType(options, v.option.options)
    case SAuth => v.VAuth?
    case SClientSession => v.VClientSession?
    case SClientCaps(base) => v.VClientCaps? && HasFields(base, v.base)
  }

  predicate HasTypes(s: Schema, vs: seq<Val>)
    decreases s, 1
  {
    forall i | 0 <= i < |vs| :: HasType(s, vs[i])
  }

  predicate HasField(kind: Kind, s: Schema, v: Val)
    decreases s, 1
  {
    match kind
    case Required => HasType(s, v)
    case Defaulted(_) => HasType(s, v)
    case Optional => v.VNothing? || (v.VJust? && HasType(s, v.v))
    case Meta => v.VJson?
  }

  predicate HasFields(fs: Fields, vs: Vals)
    decreases fs, 0
  {
    match fs
    case End => vs.Nil?
    case Field(_, kind, s, rest) => vs.Cons? && HasField(kind, s, vs.head) && HasFields(rest, vs.tail)
  }

  predicate HasArm(arms: Arms, i: nat, v: Val)
    decreases arms, 0
  {
    && arms.Arm?
    && if i == 0 then HasType(arms.schema, v) else HasArm(arms.rest, i - 1, v)
  }

  // --------------------------------------------------------- well-formedness

  /** No field of fs is called key. */
  predicate Fresh(key: string, fs: Fields) {
    fs.Field? ==> key != fs.key && Fresh(key, fs.rest)
  }

  predicate FreshTag(tag: string, arms: Arms) {
    arms.Arm? ==> tag != arms.tag && FreshTag(tag, arms.rest)
  }

  predicate FreshName(wire: string, names: Names) {
    names.Name? ==> wire != names.wire && FreshName(wire, names.others)
  }

  /** fs has a required field called key, so every encoding holds it. */
  predicate Demands(key: string, fs: Fields) {
    fs.Field? && ((key == fs.key && fs.kind.Required?) || Demands(key, fs.rest))
  }

  /** s encodes to an object that leaves key free. */
  predicate ObjectWithout(key: string, s: Schema) {
    s.SUnit? || (s.SRec? && Fresh(key, s.fields))
  }

  predicate Distinct(names: Names) {
    names.Name? ==> FreshName(names.wire, names.others) && Distinct(names.others)
  }

  /** What a declaration must satisfy for its codec to make sense: distinct
      keys, tags and spellings, a tag key no arm uses, defaults of the right
      type, and members that tell untagged alternatives apart. */
  predicate WellFormed(s: Schema)
    decreases s
  {
    match s
    case SEnum(names) => Distinct(names)
    case SList(e) => WellFormed(e)
    case SRec(fs) => WellFormedFields(fs)
    case STagged(key, arms) => WellFormedArms(key, arms)
    case SEmbedded(text, blob) =>
      && text.SRec? && WellFormed(text) && Demands("text", text.fields)
      && blob.SRec? && WellFormed(blob) && Demands("blob", blob.fields) && Fresh("text", blob.fields)
    case SMcpServer(stdio, http, sse) =>
      && stdio.SRec? && WellFormed(stdio) && Fresh("type", stdio.fields)
      && http.SRec? && WellFormed(http) && Fresh("type", http.fields)
      && sse.SRec? && WellFormed(sse) && Fresh("type", sse.fields)
    case SCommandInput(u) => u.SRec? && WellFormed(u) && Fresh("type", u.fields)
    case SSelect(option, group) =>
      && option.SRec? && WellFormed(option) && Fresh("group", option.fields)
      && group.SRec? && WellFormed(group) && Demands("group", group.fields)
    case SConfig(options) => options.SSelect? && WellFormed(options)
    case SClientCaps(base) => WellFormedFields(base) && Fresh("auth", base) && Fresh("elicitation", base)
    case _ => true
  }

  predicate WellFormedFields(fs: Fields)
    decreases fs, 1
  {
    DistinctKeys(fs) && SoundFields(fs)
  }

  predicate DistinctKeys(fs: Fields) {
    fs.Field? ==> Fresh(fs.key, fs.rest) && DistinctKeys(fs.rest)
  }

  predicate SoundFields(fs: Fields)
    decreases fs, 0
  {
    fs.Field? ==>
      && WellFormed(fs.schema)
      && (fs.kind.Defaulted? ==> Plain(fs.schema, fs.kind.fallback))
      && SoundFields(fs.rest)
  }

  predicate WellFormedArms(key: string, arms: Arms)
    decreases arms, 1
  {
    DistinctTags(arms) && SoundArms(key, arms)
  }

  predicate DistinctTags(arms: Arms) {
    arms.Arm? ==> FreshTag(arms.tag, arms.rest) && DistinctTags(arms.rest)
  }

  predicate SoundArms(key: string, arms: Arms)
    decreases arms, 0
  {
    arms.Arm? ==>
      && ObjectWithout(key, arms.schema)
      && WellFormed(arms.schema)
      && SoundArms(key, arms.rest)
  }

  /** No codec inside s is one that forgets fields of its own. */
  predicate Rigid(s: Schema)
    decreases s
  {
    match s
    case SList(e) => Rigid(e)
    case SRec(fs) => RigidFields(fs)
    case STagged(_, arms) => RigidArms(arms)
    case SEmbedded(text, blob) => Rigid(text) && Rigid(blob)
    case SMcpServer(stdio, http, sse) => Rigid(stdio) && Rigid(http) && Rigid(sse)
    case SCommandInput(u) => Rigid(u)
    case SSelect(_, _) => false
    case SConfig(_) => false
    case SAuth => false
    case SClientCaps(base) => RigidFields(base)
    case _ => true
  }

  predicate RigidFields(fs: Fields)
    decreases fs
  {
    fs.Field? ==> (fs.kind.Meta? || Rigid(fs.schema)) && RigidFields(fs.rest)
  }

  predicate RigidArms(arms: Arms)
    decreases arms
  {
    arms.Arm? ==> Rigid(arms.schema) && RigidArms(arms.rest)
  }

  // --------------------------------------------------------------- encoding

  function NameAt(names: Names, i: nat): string
    requires i < Count(names)
  {
    if i == 0 then names.wire else NameAt(names.others, i - 1)
  }

  /** `to_json`. Total: a value that is not of type s (which C++ rules out)
      encodes to null. */
  function Enc(s: Schema, v: Val): Json
    decreases s, 0
  {
    if !HasType(s, v) then JNull else
    match s
    case SStr => JStr(v.s)
    case SInt => JInt(v.i)
    case SBool => JBool(v.b)
    case SReal => JReal(v.r)
    case SJson => v.j
    case SUnit => EMPTY_OBJECT
    case SEnum(names) => JStr(NameAt(names, v.n))
    case SList(e) => JArr(EncAll(e, v.items))
    case SRec(fs) => JObj(EncFields(fs, v.fields))
    case STagged(key, arms) => EncArm(key, arms, v.arm, v.v)
    case SEmbedded(text, blob) => if v.arm == 0 then Enc(text, v.v) else Enc(blob, v.v)
    case SMcpServer(stdio, http, sse) =>
      if v.arm == 0 then Enc(stdio, v.v)
      else if v.arm == 1 then WithKey(Enc(http, v.v), "type", JStr("http"))
      else WithKey(Enc(sse, v.v), "type", JStr("sse"))
    case SCommandInput(u) => Enc(u, v.v)
    case SSelect(option, group) =>
      JArr(if v.arm == 0 then EncAll(option, v.v.items) else EncAll(group, v.v.items))
    case SConfig(options) => ConfigJson(v.option, Enc(options, v.option.options))
    case SAuth => EncodeAuth(v.method_)
    case SClientSession => EncodeSession(v.session)
    case SClientCaps(base) =>
      JObj(Overlay(EncFields(base, v.base), v.authTerminal, v.elicitForm, v.elicitUrl))
  }

  function EncAll(s: Schema, vs: seq<Val>): seq<Json>
    decreases s, 1
  {
    seq(|vs|, i requires 0 <= i < |vs| => Enc(s, vs[i]))
  }

  /** What a field writes under its key, if anything. */
  function EncField(kind: Kind, s: Schema, v: Val): Maybe<Json>
    decreases s, 1
  {
    match kind
    case Required => Just(Enc(s, v))
    case Defaulted(_) => Just(Enc(s, v))
    case Optional => if v.VJust? then Just(Enc(s, v.v)) else Nothing
    case Meta => if v.VJson? then WrittenMeta(v.j) else Nothing
  }

  function EncFields(fs: Fields, vs: Vals): Object
    decreases fs, 0
  {
    if fs.End? || vs.Nil? then map[]
    else Put(EncFields(fs.rest, vs.tail), fs.key, EncField(fs.kind, fs.schema, vs.head))
  }

  function EncArm(key: string, arms: Arms, i: nat, v: Val): Json
    decreases arms, 0
  {
    if arms.NoArm? then JNull
    else if i == 0 then WithKey(Enc(arms.schema, v), key, JStr(arms.tag))
    else EncArm(key, arms.rest, i - 1, v)
  }

  function WrittenValue(o: ConfigOption): Json {
    if o.IsBoolean() then JBool(o.currentBool) else JStr(o.currentValue)
  }

  function WrittenOptions(o: ConfigOption, options: Json): Maybe<Json> {
    if o.IsBoolean() then Nothing else Just(options)
  }

  /** A config option around its already encoded `options`. */
  function ConfigJson(o: ConfigOption, options: Json): Json {
    var j := map["id" := JStr(o.id), "name" := JStr(o.name)];
    var j := Put(j, "description", JStrOf(o.description));
    var j := Put(j, "category", JStrOf(o.category));
    var j := Put(j, "type", Just(JStr(o.typ)));
    var j := Put(j, "currentValue", Just(WrittenValue(o)));
    var j := Put(j, "options", WrittenOptions(o, options));
    JObj(Put(j, "_meta", WrittenMeta(o.meta)))
  }

  const AUTH_TERMINAL := JObj(map["terminal" := JBool(true)])

  function Elicitation(form: bool, url: bool): Object {
    Put(Put(map[], "form", Flag(form)), "url", Flag(url))
  }

  function AuthFlag(on: bool): Maybe<Json> {
    if on then Just(AUTH_TERMINAL) else Nothing
  }

  function ElicitationFlag(form: bool, url: bool): Maybe<Json> {
    if form || url then Just(JObj(Elicitation(form, url))) else Nothing
  }

  /** The members ClientCapabilities adds to its base record. */
  function Overlay(base: Object, authTerminal: bool, form: bool, url: bool): Object {
    Put(Put(base, "auth", AuthFlag(authTerminal)), "elicitation", ElicitationFlag(form, url))
  }

  // --------------------------------------------------------------- decoding

  function IndexOf(names: Names, wire: string): Result<nat> {
    if names.NoName? then Err
    else if names.wire == wire then Ok(0)
    else
      var i :- IndexOf(names.others, wire);
      Ok(i + 1)
  }

  /** `from_json`. */
  function Dec(s: Schema, j: Json): Result<Val>
    decreases s, 0
  {
    match s
    case SStr => if j.JStr? then Ok(VStr(j.s)) else Err
    case SInt => if j.JInt? then Ok(VInt(j.i)) else Err
    case SBool => if j.JBool? then Ok(VBool(j.b)) else Err
    case SReal => if j.JReal? then Ok(VReal(j.r)) else if j.JInt? then Ok(VReal(j.i as real)) else Err
    case SJson => Ok(VJson(j))
    case SUnit => Ok(VUnit)
    case SEnum(names) =>
      if !j.JStr? then Err else
      var i :- IndexOf(names, j.s);
      Ok(VEnum(i))
    case SList(e) =>
      if !j.JArr? then Err else
      var vs :- DecAll(e, j.items);
      Ok(VList(vs))
    case SRec(fs) =>
      if !j.JObj? then Err else
      var vs :- DecFields(fs, j.fields);
      Ok(VRec(vs))
    case STagged(key, arms) =>
      if !j.JObj? then Err else
      var tag :- StringAt(j.fields, key);
      DecArm(arms, 0, tag, j)
    case SEmbedded(text, blob) =>
      if !j.JObj? then Err
      else if "text" in j.fields then
        var v :- Dec(text, j);
        Ok(VSum(0, v))
      else if "blob" in j.fields then
        var v :- Dec(blob, j);
        Ok(VSum(1, v))
      else Err
    case SMcpServer(stdio, http, sse) =>
      if !j.JObj? then Err else
      var typ :- StringOr(j.fields, "type", "stdio");
      if typ == "http" then
        var v :- Dec(http, j);
        Ok(VSum(1, v))
      else if typ == "sse" then
        var v :- Dec(sse, j);
        Ok(VSum(2, v))
      else
        var v :- Dec(stdio, j);
        Ok(VSum(0, v))
    case SCommandInput(u) =>
      if !j.JObj? then Err else
      var typ :- StringOr(j.fields, "type", "unstructured");
      if typ != "unstructured" then Err else
      var v :- Dec(u, j);
      Ok(VSum(0, v))
    case SSelect(option, group) =>
      if !j.JArr? then Err
      else if j.items != [] && j.items[0].JObj? && "group" in j.items[0].fields then
        var vs :- DecAll(group, j.items);
        Ok(VSum(1, VList(vs)))
      else
        var vs :- DecAll(option, j.items);
        Ok(VSum(0, VList(vs)))
    case SConfig(options) =>
      if !j.JObj? then Err else
      var o :- ConfigHead(j.fields);
      if o.IsBoolean() then Ok(VConfig(o)) else
      if "options" !in j.fields then Err else
      var v :- Dec(options, j.fields["options"]);
      Ok(VConfig(o.(options := v)))
    case SAuth =>
      var m :- DecodeAuth(j);
      Ok(VAuth(m))
    case SClientSession => Ok(VClientSession(DecodeSession(j)))
    case SClientCaps(base) =>
      if !j.JObj? then Err else
      var vs :- DecFields(base, j.fields);
      Ok(VClientCaps(vs, AuthTerminalIn(j.fields), Elicits(j.fields, "form"), Elicits(j.fields, "url")))
  }

  function DecAll(s: Schema, js: seq<Json>): Result<seq<Val>>
    decreases s, 1
  {
    if forall i | 0 <= i < |js| :: Dec(s, js[i]).Ok? then
      Ok(seq(|js|, i requires 0 <= i < |js| => Dec(s, js[i]).value))
    else
      Err
  }

  function DecField(kind: Kind, s: Schema, j: Maybe<Json>): Result<Val>
    decreases s, 1
  {
    match kind
    case Required => if j.Just? then Dec(s, j.value) else Err
    case Defaulted(fallback) => if j.Just? then Dec(s, j.value) else Ok(fallback)
    case Optional =>
      if j.Nothing? || j.value.JNull? then Ok(VNothing) else
      var v :- Dec(s, j.value);
      Ok(VJust(v))
    case Meta => Ok(VJson(ReadMeta(j)))
  }

  function DecFields(fs: Fields, m: Object): Result<Vals>
    decreases fs, 0
  {
    if fs.End? then Ok(Nil) else
    var v :- DecField(fs.kind, fs.schema, Find(m, fs.key));
    var vs :- DecFields(fs.rest, m);
    Ok(Cons(v, vs))
  }

  /** Decode j as the first arm called tag; i counts the arms passed over. */
  function DecArm(arms: Arms, i: nat, tag: string, j: Json): Result<Val>
    decreases arms, 0
  {
    if arms.NoArm? then Err
    else if arms.tag == tag then
      var v :- Dec(arms.schema, j);
      Ok(VSum(i, v))
    else DecArm(arms.rest, i + 1, tag, j)
  }

  /** Everything of a config option except the `options` of a select one,
      which stay at their default here. */
  function ConfigHead(m: Object): Result<ConfigOption> {
    var id :- StringAt(m, "id");
    var name :- StringAt(m, "name");
    var typ :- StringOr(m, "type", "select");
    var o := ConfigOption(id, name, StringIfAny(m, "description"), StringIfAny(m, "category"),
                          typ, "", false, NO_OPTIONS, ReadMeta(Find(m, "_meta")));
    match Find(m, "currentValue")
    case Just(JBool(b)) => if o.IsBoolean() then Ok(o.(currentBool := b)) else Err
    case Just(JStr(s)) => if o.IsBoolean() then Err else Ok(o.(currentValue := s))
    case _ => Err
  }

  predicate AuthTerminalIn(m: Object) {
    match Find(m, "auth")
    case Just(JObj(a)) => Find(a, "terminal") == Just(JBool(true))
    case _ => false
  }

  predicate Elicits(m: Object, mode: string) {
    match Find(m, "elicitation")
    case Just(e) => Present(e, mode)
    case _ => false
  }

  // ------------------------------------------------------------ normal forms

  /** What a round trip leaves of v, member by member. */
  function Norm(s: Schema, v: Val): Val
    decreases s, 0
  {
    if !HasType(s, v) then v else
    match s
    case SList(e) => VList(NormAll(e, v.items))
    case SRec(fs) => VRec(NormFields(fs, v.fields))
    case STagged(_, arms) => VSum(v.arm, NormArm(arms, v.arm, v.v))
    case SEmbedded(text, blob) => VSum(v.arm, if v.arm == 0 then Norm(text, v.v) else Norm(blob, v.v))
    case SMcpServer(stdio, http, sse) =>
      VSum(v.arm, if v.arm == 0 then Norm(stdio, v.v) else if v.arm == 1 then Norm(http, v.v) else Norm(sse, v.v))
    case SCommandInput(u) => VSum(0, Norm(u, v.v))
    case SSelect(option, group) =>
      if v.v.items == [] then NO_OPTIONS
      else VSum(v.arm, VList(if v.arm == 0 then NormAll(option, v.v.items) else NormAll(group, v.v.items)))
    case SConfig(options) =>
      var o := v.option.(meta := MetaOf(v.option.meta));
      VConfig(
        if o.IsBoolean() then o.(currentValue := "", options := NO_OPTIONS)
        else o.(currentBool := false, options := Norm(options, o.options)))
    case SAuth => VAuth(NormAuth(v.method_))
    case SClientSession => VClientSession(NormSession(v.session))
    case SClientCaps(base) => v.(base := NormFields(base, v.base))
    case _ => v
  }

  function NormAll(s: Schema, vs: seq<Val>): seq<Val>
    decreases s, 1
  {
    seq(|vs|, i requires 0 <= i < |vs| => Norm(s, vs[i]))
  }

  function NormField(kind: Kind, s: Schema, v: Val): Val
    decreases s, 1
  {
    match kind
    case Required => Norm(s, v)
    case Defaulted(_) => Norm(s, v)
    case Optional =>
      if !v.VJust? then v
      else if Enc(s, v.v).JNull? then VNothing
      else VJust(Norm(s, v.v))
    case Meta => if v.VJson? then VJson(MetaOf(v.j)) else v
  }

  function NormFields(fs: Fields, vs: Vals): Vals
    decreases fs, 0
  {
    if fs.End? || vs.Nil? then vs
    else Cons(NormField(fs.kind, fs.schema, vs.head), NormFields(fs.rest, vs.tail))
  }

  function NormArm(arms: Arms, i: nat, v: Val): Val
    decreases arms, 0
  {
    if arms.NoArm? then v
    else if i == 0 then Norm(arms.schema, v)
    else NormArm(arms.rest, i - 1, v)
  }

  // --------------------------------------------- plain and canonical values

  /** No raw payload in v defeats its member: every `_meta` is an object and no
      optional JSON is a present null. */
  predicate Plain(s: Schema, v: Val)
    decreases s, 0
  {
    HasType(s, v) &&
    match s
    case SList(e) => PlainAll(e, v.items)
    case SRec(fs) => PlainFields(fs, v.fields)
    case STagged(_, arms) => PlainArm(arms, v.arm, v.v)
    case SEmbedded(text, blob) => if v.arm == 0 then Plain(text, v.v) else Plain(blob, v.v)
    case SMcpServer(stdio, http, sse) =>
      if v.arm == 0 then Plain(stdio, v.v) else if v.arm == 1 then Plain(http, v.v) else Plain(sse, v.v)
    case SCommandInput(u) => Plain(u, v.v)
    case SSelect(option, group) => if v.arm == 0 then PlainAll(option, v.v.items) else PlainAll(group, v.v.items)
    case SConfig(options) => v.option.meta.JObj? && Plain(options, v.option.options)
    case SAuth => v.method_.meta.JObj?
    case SClientSession => v.session.meta.JObj?
    case SClientCaps(base) => PlainFields(base, v.base)
    case _ => true
  }

  predicate PlainAll(s: Schema, vs: seq<Val>)
    decreases s, 1
  {
    forall i | 0 <= i < |vs| :: Plain(s, vs[i])
  }

  predicate PlainField(kind: Kind, s: Schema, v: Val)
    decreases s, 1
  {
    match kind
    case Required => Plain(s, v)
    case Defaulted(_) => Plain(s, v)
    case Optional => v.VJust? ==> Plain(s, v.v) && v.v != VJson(JNull)
    case Meta => v.VJson? && v.j.JObj?
  }

  predicate PlainFields(fs: Fields, vs: Vals)
    decreases fs, 0
  {
    fs.Field? && vs.Cons? ==> PlainField(fs.kind, fs.schema, vs.head) && PlainFields(fs.rest, vs.tail)
  }

  predicate PlainArm(arms: Arms, i: nat, v: Val)
    decreases arms, 0
  {
    arms.Arm? ==> if i == 0 then Plain(arms.schema, v) else PlainArm(arms.rest, i - 1, v)
  }

  /** v says nothing its encoding cannot carry: v is plain, no list of groups is
      empty, a boolean option has no string value and no options, any other
      option is not toggled, and only terminal methods have `args` or `env`. */
  predicate Canonical(s: Schema, v: Val)
    decreases s, 0
  {
    HasType(s, v) &&
    match s
    case SList(e) => CanonicalAll(e, v.items)
    case SRec(fs) => CanonicalFields(fs, v.fields)
    case STagged(_, arms) => CanonicalArm(arms, v.arm, v.v)
    case SEmbedded(text, blob) => if v.arm == 0 then Canonical(text, v.v) else Canonical(blob, v.v)
    case SMcpServer(stdio, http, sse) =>
      if v.arm == 0 then Canonical(stdio, v.v)
      else if v.arm == 1 then Canonical(http, v.v)
      else Canonical(sse, v.v)
    case SCommandInput(u) => Canonical(u, v.v)
    case SSelect(option, group) =>
      if v.arm == 0 then CanonicalAll(option, v.v.items) else v.v.items != [] && CanonicalAll(group, v.v.items)
    case SConfig(options) =>
      && v.option.meta.JObj?
      && if v.option.IsBoolean() then v.option.currentValue == "" && v.option.options == NO_OPTIONS
         else !v.option.currentBool && Canonical(options, v.option.options)
    case SAuth => CanonicalAuth(v.method_)
    case SClientSession => v.session.meta.JObj?
    case SClientCaps(base) => CanonicalFields(base, v.base)
    case _ => true
  }

  predicate CanonicalAll(s: Schema, vs: seq<Val>)
    decreases s, 1
  {
    forall i | 0 <= i < |vs| :: Canonical(s, vs[i])
  }

  predicate CanonicalField(kind: Kind, s: Schema, v: Val)
    decreases s, 1
  {
    match kind
    case Required => Canonical(s, v)
    case Defaulted(_) => Canonical(s, v)
    case Optional => v.VJust? ==> Canonical(s, v.v) && v.v != VJson(JNull)
    case Meta => v.VJson? && v.j.JObj?
  }

  predicate CanonicalFields(fs: Fields, vs: Vals)
    decreases fs, 0
  {
    fs.Field? && vs.Cons? ==> CanonicalField(fs.kind, fs.schema, vs.head) && CanonicalFields(fs.rest, vs.tail)
  }

  predicate CanonicalArm(arms: Arms, i: nat, v: Val)
    decreases arms, 0
  {
    arms.Arm? ==> if i == 0 then Canonical(arms.schema, v) else CanonicalArm(arms.rest, i - 1, v)
  }
}
