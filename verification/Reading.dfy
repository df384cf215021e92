/** What JSON means, member by member: a reference for every decoder that says
    which JSON stands for which value and mentions no decoder. */
module Reading {
  import opened JsonTree
  import opened AuthMethods
  import opened ClientSessions
  import opened Universe
  import opened RoundTrip
  import opened Theorems

  // -------------------------------------------------------------- small parts

  predicate IsText(m: Object, key: string, s: string) {
    key in m && m[key] == JStr(s)
  }

  /** The member may be missing, and then stands for the default. */
  predicate IsTextOr(m: Object, key: string, s: string, default_: string) {
    if key in m then m[key] == JStr(s) else s == default_
  }

  /** Anything but a string is passed over. */
  predicate IsMaybeText(m: Object, key: string, s: Maybe<string>) {
    s == if key in m && m[key].JStr? then Just(m[key].s) else Nothing
  }

  predicate IsMeta(m: Object, meta: Json) {
    meta == if "_meta" in m && m["_meta"].JObj? then m["_meta"] else JObj(map[])
  }

  predicate HasObject(j: Json, key: string) {
    j.JObj? && key in j.fields && j.fields[key].JObj?
  }

  // ---------------------------------------------------- the hand-written codecs

  /** `args` and `env` are read whatever the type is, if they are an array and
      an object; their elements must then be strings. */
  predicate IsAuth(m: Object, a: AuthMethod) {
    && IsText(m, "id", a.id)
    && IsText(m, "name", a.name)
    && IsMaybeText(m, "description", a.description)
    && IsTextOr(m, "type", a.typ, "agent")
    && IsMeta(m, a.meta)
    && (if "args" in m && m["args"].JArr?
        then |m["args"].items| == |a.args| && forall i | 0 <= i < |a.args| :: m["args"].items[i] == JStr(a.args[i])
        else a.args == [])
    && (if "env" in m && m["env"].JObj?
        then m["env"].fields.Keys == a.env.Keys && forall k | k in a.env :: m["env"].fields[k] == JStr(a.env[k])
        else a.env == map[])
  }

  /** Each flag is on exactly when its member is there and is an object. */
  predicate IsClientSession(j: Json, c: ClientSession) {
    && c.compaction == HasObject(j, "compaction")
    && c.notices == HasObject(j, "notices")
    && c.booleanConfig == (HasObject(j, "configOptions") && HasObject(j.fields["configOptions"], "boolean"))
    && c.meta == if HasObject(j, "_meta") then j.fields["_meta"] else JObj(map[])
  }

  /** `auth.terminal` must be true itself; the elicitation modes need only be
      objects. */
  predicate IsOverlay(m: Object, authTerminal: bool, form: bool, url: bool) {
    && authTerminal == ("auth" in m && m["auth"].JObj? && "terminal" in m["auth"].fields
                        && m["auth"].fields["terminal"] == JBool(true))
    && form == ("elicitation" in m && HasObject(m["elicitation"], "form"))
    && url == ("elicitation" in m && HasObject(m["elicitation"], "url"))
  }

  /** All of a config option but the options of a select one. */
  predicate IsConfigHead(m: Object, o: ConfigOption) {
    && IsText(m, "id", o.id)
    && IsText(m, "name", o.name)
    && IsMaybeText(m, "description", o.description)
    && IsMaybeText(m, "category", o.category)
    && IsTextOr(m, "type", o.typ, "select")
    && IsMeta(m, o.meta)
    && "currentValue" in m
    && (if o.typ == "boolean"
        then m["currentValue"] == JBool(o.currentBool) && o.currentValue == ""
        else m["currentValue"] == JStr(o.currentValue) && !o.currentBool)
  }

  /** The arm a server is read as goes by its `type`, absent or a string. */
  predicate IsServerArm(m: Object, arm: nat) {
    if "type" !in m then arm == 0
    else m["type"].JStr? && arm == if m["type"].s == "http" then 1 else if m["type"].s == "sse" then 2 else 0
  }

  /** A list is one of groups exactly when its first element is an object that
      has a `group`. */
  predicate IsGrouped(items: seq<Json>) {
    items != [] && items[0].JObj? && "group" in items[0].fields
  }

  // -------------------------------------------------------------- every schema

  function TagAt(arms: Arms, i: nat): Maybe<string> {
    if arms.NoArm? then Nothing else if i == 0 then Just(arms.tag) else TagAt(arms.rest, i - 1)
  }

  /** j stands for v. */
  predicate Denotes(s: Schema, j: Json, v: Val)
    decreases s, 0
  {
    match s
    case SStr => v.VStr? && j == JStr(v.s)
    case SInt => v.VInt? && j == JInt(v.i)
    case SBool => v.VBool? && j == JBool(v.b)
    case SReal => v.VReal? && (j == JReal(v.r) || (j.JInt? && j.i as real == v.r))
    case SJson => v == VJson(j)
    case SUnit => v == VUnit
    case SEnum(names) => v.VEnum? && v.n < Count(names) && j == JStr(NameAt(names, v.n))
    case SList(e) => v.VList? && j.JArr? && AllDenote(e, j.items, v.items)
    case SRec(fs) => v.VRec? && j.JObj? && MembersDenote(fs, j.fields, v.fields)
    case STagged(key, arms) =>
      && v.VSum? && j.JObj? && key in j.fields && j.fields[key].JStr?
      && TagAt(arms, v.arm) == Just(j.fields[key].s)
      && ArmDenotes(arms, v.arm, j, v.v)
    case SEmbedded(text, blob) =>
      && v.VSum? && j.JObj?
      && if "text" in j.fields then v.arm == 0 && Denotes(text, j, v.v)
         else "blob" in j.fields && v.arm == 1 && Denotes(blob, j, v.v)
    case SMcpServer(stdio, http, sse) =>
      && v.VSum? && j.JObj? && IsServerArm(j.fields, v.arm)
      && if v.arm == 1 then Denotes(http, j, v.v)
         else if v.arm == 2 then Denotes(sse, j, v.v)
         else Denotes(stdio, j, v.v)
    case SCommandInput(u) =>
      && v.VSum? && v.arm == 0 && j.JObj?
      && ("type" in j.fields ==> j.fields["type"] == JStr("unstructured"))
      && Denotes(u, j, v.v)
    case SSelect(option, group) =>
      && v.VSum? && v.v.VList? && j.JArr?
      && if IsGrouped(j.items) then v.arm == 1 && AllDenote(group, j.items, v.v.items)
         else v.arm == 0 && AllDenote(option, j.items, v.v.items)
    case SConfig(options) =>
      && v.VConfig? && j.JObj? && IsConfigHead(j.fields, v.option)
      && if v.option.typ == "boolean" then v.option.options == VSum(0, VList([]))
         else "options" in j.fields && Denotes(options, j.fields["options"], v.option.options)
    case SAuth => v.VAuth? && j.JObj? && IsAuth(j.fields, v.method_)
    case SClientSession => v.VClientSession? && IsClientSession(j, v.session)
    case SClientCaps(base) =>
      && v.VClientCaps? && j.JObj? && MembersDenote(base, j.fields, v.base)
      && IsOverlay(j.fields, v.authTerminal, v.elicitForm, v.elicitUrl)
  }

  predicate AllDenote(s: Schema, js: seq<Json>, vs: seq<Val>)
    decreases s, 1
  {
    |js| == |vs| && forall i | 0 <= i < |vs| :: Denotes(s, js[i], vs[i])
  }

  /** An optional member that is missing or null stands for Nothing, whatever its
      type; a missing defaulted one for its default; a `_meta` that is missing
      or no object for the empty object. */
  predicate MemberDenotes(kind: Kind, s: Schema, m: Object, key: string, v: Val)
    decreases s, 1
  {
    match kind
    case Required => key in m && Denotes(s, m[key], v)
    case Defaulted(fallback) => if key in m then Denotes(s, m[key], v) else v == fallback
    case Optional => if key !in m || m[key] == JNull then v == VNothing else v.VJust? && Denotes(s, m[key], v.v)
    case Meta => v == VJson(if key in m && m[key].JObj? then m[key] else JObj(map[]))
  }

  predicate MembersDenote(fs: Fields, m: Object, vs: Vals)
    decreases fs, 0
  {
    match fs
    case End => vs.Nil?
    case Field(key, kind, s, rest) =>
      vs.Cons? && MemberDenotes(kind, s, m, key, vs.head) && MembersDenote(rest, m, vs.tail)
  }

  predicate ArmDenotes(arms: Arms, i: nat, j: Json, v: Val)
    decreases arms, 0
  {
    arms.Arm? && if i == 0 then Denotes(arms.schema, j, v) else ArmDenotes(arms.rest, i - 1, j, v)
  }

  // ------------------------------------------------- decoders read what it means

  lemma NameFound(names: Names, wire: string, i: nat)
    requires Distinct(names)
    ensures IndexOf(names, wire) == Ok(i) <==> i < Count(names) && NameAt(names, i) == wire
  {
    if i < Count(names) && NameAt(names, i) == wire {
      IndexBack(names, i);
    }
    if IndexOf(names, wire).Ok? {
      NameAtIndex(names, wire);
    }
  }

  lemma NameAtIndex(names: Names, wire: string)
    requires IndexOf(names, wire).Ok?
    ensures IndexOf(names, wire).value < Count(names) && NameAt(names, IndexOf(names, wire).value) == wire
  {
  }

  /** Decoding gives v exactly when the JSON stands for v; so it fails exactly
      when the JSON stands for nothing. */
  lemma {:induction false} Reads(s: Schema, j: Json, v: Val)
    requires WellFormed(s)
    ensures Dec(s, j) == Ok(v) <==> Denotes(s, j, v)
    decreases s, 1
  {
    match s
    case SEnum(names) => EnumReads(names, j, v);
    case SList(e) => ListReads(e, j, v);
    case SRec(fs) => RecordReads(fs, j, v);
    case STagged(key, arms) => TaggedReads(key, arms, j, v);
    case SEmbedded(text, blob) => EmbeddedReads(text, blob, j, v);
    case SMcpServer(stdio, http, sse) => ServerReads(stdio, http, sse, j, v);
    case SCommandInput(u) => CommandInputReads(u, j, v);
    case SSelect(option, group) => SelectReads(option, group, j, v);
    case SConfig(options) => ConfigReads(options, j, v);
    case SClientCaps(base) => CapsRead(base, j, v);
    case _ => LeafReads(s, j, v);
  }

  predicate Leaf(s: Schema) {
    s.SStr? || s.SInt? || s.SBool? || s.SReal? || s.SJson? || s.SUnit? || s.SAuth? || s.SClientSession?
  }

  lemma LeafReads(s: Schema, j: Json, v: Val)
    requires Leaf(s)
    ensures Dec(s, j) == Ok(v) <==> Denotes(s, j, v)
  {
    hide IsAuth, DecodeAuth;
    if s.SAuth? { AuthLeafReads(j, v); }
  }

  lemma AuthLeafReads(j: Json, v: Val)
    ensures Dec(SAuth, j) == Ok(v) <==> Denotes(SAuth, j, v)
  {
    hide IsAuth, DecodeAuth;
    NoAuth(j);
    if j.JObj? && v.VAuth? { AuthReads(j.fields, v.method_); }
  }

  lemma NoAuth(j: Json)
    ensures !j.JObj? ==> DecodeAuth(j) == Err
  {
  }

  lemma {:induction false} CommandInputReads(u: Schema, j: Json, v: Val)
    requires WellFormed(u)
    ensures Dec(SCommandInput(u), j) == Ok(v) <==> Denotes(SCommandInput(u), j, v)
    decreases SCommandInput(u), 0
  {
    if v.VSum? { Reads(u, j, v.v); }
  }

  lemma {:induction false} CapsRead(base: Fields, j: Json, v: Val)
    requires WellFormedFields(base)
    ensures Dec(SClientCaps(base), j) == Ok(v) <==> Denotes(SClientCaps(base), j, v)
    decreases SClientCaps(base), 0
  {
    if v.VClientCaps? && j.JObj? { MembersRead(base, j.fields, v.base); }
  }

  lemma EnumReads(names: Names, j: Json, v: Val)
    requires Distinct(names)
    ensures Dec(SEnum(names), j) == Ok(v) <==> Denotes(SEnum(names), j, v)
  {
    if j.JStr? && v.VEnum? {
      NameFound(names, j.s, v.n);
    }
  }

  lemma {:induction false} AllRead(s: Schema, js: seq<Json>, vs: seq<Val>)
    requires WellFormed(s)
    ensures DecAll(s, js) == Ok(vs) <==> AllDenote(s, js, vs)
    decreases s, 2
  {
    hide Dec, Denotes, WellFormed;
    if DecAll(s, js) == Ok(vs) {
      forall i | 0 <= i < |vs| ensures Denotes(s, js[i], vs[i]) { Reads(s, js[i], vs[i]); }
    }
    if AllDenote(s, js, vs) {
      forall i | 0 <= i < |vs| ensures Dec(s, js[i]) == Ok(vs[i]) { Reads(s, js[i], vs[i]); }
      DecAllOf(s, js, vs);
    }
  }

  lemma {:induction false} ListReads(e: Schema, j: Json, v: Val)
    requires WellFormed(e)
    ensures Dec(SList(e), j) == Ok(v) <==> Denotes(SList(e), j, v)
    decreases SList(e), 0
  {
    if j.JArr? && v.VList? { AllRead(e, j.items, v.items); }
  }

  lemma {:induction false} MemberReads(kind: Kind, s: Schema, m: Object, key: string, v: Val)
    requires WellFormed(s)
    ensures DecField(kind, s, Find(m, key)) == Ok(v) <==> MemberDenotes(kind, s, m, key, v)
    decreases s, 2
  {
    hide Dec, Denotes, WellFormed;
    if key in m {
      Reads(s, m[key], v);
      if v.VJust? { Reads(s, m[key], v.v); }
    }
  }

  lemma {:induction false} MembersRead(fs: Fields, m: Object, vs: Vals)
    requires WellFormedFields(fs)
    ensures DecFields(fs, m) == Ok(vs) <==> MembersDenote(fs, m, vs)
    decreases fs, 1
  {
    hide Dec, Denotes, MemberDenotes, DecField, WellFormed;
    if fs.End? {
    } else if vs.Cons? {
      MemberReads(fs.kind, fs.schema, m, fs.key, vs.head);
      MembersRead(fs.rest, m, vs.tail);
    }
  }

  lemma {:induction false} RecordReads(fs: Fields, j: Json, v: Val)
    requires WellFormedFields(fs)
    ensures Dec(SRec(fs), j) == Ok(v) <==> Denotes(SRec(fs), j, v)
    decreases SRec(fs), 0
  {
    if j.JObj? && v.VRec? { MembersRead(fs, j.fields, v.fields); }
  }

  lemma {:induction false} ArmReads(key: string, arms: Arms, n: nat, tag: string, j: Json, i: nat, v: Val)
    requires WellFormedArms(key, arms)
    ensures DecArm(arms, n, tag, j) == Ok(VSum(n + i, v)) <==> TagAt(arms, i) == Just(tag) && ArmDenotes(arms, i, j, v)
    decreases arms, 1
  {
    hide Dec, Denotes, WellFormed, ObjectWithout;
    if arms.NoArm? {
    } else {
      Reads(arms.schema, j, v);
      LaterArm(arms.rest, n + 1, tag, j);
      if i > 0 {
        ArmReads(key, arms.rest, n + 1, tag, j, i - 1, v);
        TagIsLater(arms.tag, arms.rest, i - 1);
      }
    }
  }

  lemma {:induction false} LaterArm(arms: Arms, n: nat, tag: string, j: Json)
    ensures var r := DecArm(arms, n, tag, j); r.Ok? ==> r.value.VSum? && r.value.arm >= n
  {
    hide Dec;
    if arms.NoArm? {
    } else {
      LaterArm(arms.rest, n + 1, tag, j);
    }
  }

  lemma TagIsLater(tag: string, arms: Arms, i: nat)
    requires FreshTag(tag, arms)
    ensures TagAt(arms, i) != Just(tag)
  {
  }

  lemma {:induction false} TaggedReads(key: string, arms: Arms, j: Json, v: Val)
    requires WellFormedArms(key, arms)
    ensures Dec(STagged(key, arms), j) == Ok(v) <==> Denotes(STagged(key, arms), j, v)
    decreases STagged(key, arms), 0
  {
    if j.JObj? && key in j.fields && j.fields[key].JStr? {
      ArmIsASum(arms, 0, j.fields[key].s, j);
      if v.VSum? { ArmReads(key, arms, 0, j.fields[key].s, j, v.arm, v.v); }
    }
  }

  lemma {:induction false} EmbeddedReads(text: Schema, blob: Schema, j: Json, v: Val)
    requires WellFormed(text) && WellFormed(blob)
    ensures Dec(SEmbedded(text, blob), j) == Ok(v) <==> Denotes(SEmbedded(text, blob), j, v)
    decreases SEmbedded(text, blob), 0
  {
    if j.JObj? && v.VSum? {
      var s := SEmbedded(text, blob);
      EmbeddedIsItsArm(s, j, v);
      Reads(if "text" in j.fields then text else blob, j, v.v);
      hide *;
    } else {
      NoEmbedded(text, blob, j, v);
    }
  }

  lemma EmbeddedIsItsArm(s: Schema, j: Json, v: Val)
    requires s.SEmbedded? && j.JObj? && v.VSum?
    ensures var arm := if "text" in j.fields then 0 else 1;
            var c := if arm == 0 then s.text else s.blob;
            var read := v.arm == arm && (arm == 0 || "blob" in j.fields);
            && (Dec(s, j) == Ok(v) <==> read && Dec(c, j) == Ok(v.v))
            && (Denotes(s, j, v) <==> read && Denotes(c, j, v.v))
  {
  }

  lemma NoEmbedded(text: Schema, blob: Schema, j: Json, v: Val)
    requires !j.JObj? || !v.VSum?
    ensures Dec(SEmbedded(text, blob), j) != Ok(v) && !Denotes(SEmbedded(text, blob), j, v)
  {
  }

  lemma {:induction false} ServerReads(stdio: Schema, http: Schema, sse: Schema, j: Json, v: Val)
    requires WellFormed(stdio) && WellFormed(http) && WellFormed(sse)
    ensures Dec(SMcpServer(stdio, http, sse), j) == Ok(v) <==> Denotes(SMcpServer(stdio, http, sse), j, v)
    decreases SMcpServer(stdio, http, sse), 0
  {
    if j.JObj? && v.VSum? && IsServerArm(j.fields, v.arm) {
      var s := SMcpServer(stdio, http, sse);
      Reads(Chosen(s, v.arm), j, v.v);
      ServerIsItsArm(s, j, v.arm);
    } else if j.JObj? && Dec(SMcpServer(stdio, http, sse), j).Ok? {
      ServerArmIsRight(SMcpServer(stdio, http, sse), j);
    }
  }

  lemma ServerIsItsArm(s: Schema, j: Json, arm: nat)
    requires s.SMcpServer? && j.JObj? && IsServerArm(j.fields, arm)
    ensures Dec(s, j) == match Dec(Chosen(s, arm), j) case Err => Err case Ok(v) => Ok(VSum(arm, v))
  {
  }

  lemma ServerArmIsRight(s: Schema, j: Json)
    requires s.SMcpServer? && j.JObj? && Dec(s, j).Ok?
    ensures Dec(s, j).value.VSum? && IsServerArm(j.fields, Dec(s, j).value.arm)
  {
  }

  lemma {:induction false} SelectReads(option: Schema, group: Schema, j: Json, v: Val)
    requires WellFormed(option) && WellFormed(group)
    ensures Dec(SSelect(option, group), j) == Ok(v) <==> Denotes(SSelect(option, group), j, v)
    decreases SSelect(option, group), 0
  {
    if j.JArr? && v.VSum? && v.v.VList? {
      if IsGrouped(j.items) {
        AllRead(group, j.items, v.v.items);
      } else {
        AllRead(option, j.items, v.v.items);
      }
    }
  }

  lemma ConfigHeadReads(m: Object, o: ConfigOption)
    ensures ConfigHead(m) == Ok(o) <==> IsConfigHead(m, o) && o.options == VSum(0, VList([]))
  {
  }

  lemma ConfigDecoding(options: Schema, m: Object)
    ensures Dec(SConfig(options), JObj(m)) ==
            if ConfigHead(m).Err? then Err
            else if ConfigHead(m).value.IsBoolean() then Ok(VConfig(ConfigHead(m).value))
            else if "options" !in m || Dec(options, m["options"]).Err? then Err
            else Ok(VConfig(ConfigHead(m).value.(options := Dec(options, m["options"]).value)))
  {
    hide ConfigHead;
  }

  lemma ConfigMeaning(options: Schema, m: Object, o: ConfigOption)
    ensures Denotes(SConfig(options), JObj(m), VConfig(o)) <==>
            && IsConfigHead(m, o)
            && if o.typ == "boolean" then o.options == VSum(0, VList([]))
               else "options" in m && Denotes(options, m["options"], o.options)
  {
    hide IsConfigHead;
  }

  lemma HeadIgnoresOptions(m: Object, o: ConfigOption, x: Val)
    ensures IsConfigHead(m, o.(options := x)) <==> IsConfigHead(m, o)
  {
  }

  lemma {:induction false} ConfigReads(options: Schema, j: Json, v: Val)
    requires WellFormed(options)
    ensures Dec(SConfig(options), j) == Ok(v) <==> Denotes(SConfig(options), j, v)
    decreases SConfig(options), 0
  {
    if j.JObj? && v.VConfig? {
      ConfigDecoding(options, j.fields);
      ConfigMeaning(options, j.fields, v.option);
      if "options" in j.fields { Reads(options, j.fields["options"], v.option.options); }
      ConfigHeadReads(j.fields, v.option.(options := VSum(0, VList([]))));
      HeadIgnoresOptions(j.fields, v.option, VSum(0, VList([])));
      hide Dec, Denotes, IsConfigHead, ConfigHead;
      assert Dec(SConfig(options), j) == Ok(v) <==> Denotes(SConfig(options), j, v);
    } else {
      NoConfig(options, j, v);
    }
  }

  lemma NoConfig(options: Schema, j: Json, v: Val)
    requires !j.JObj? || !v.VConfig?
    ensures Dec(SConfig(options), j) != Ok(v) && !Denotes(SConfig(options), j, v)
  {
    hide ConfigHead, IsConfigHead;
  }

  lemma ArgsRead(m: Object, args: seq<string>)
    ensures ReadArgs(m) == Ok(args) <==>
            if "args" in m && m["args"].JArr?
            then |m["args"].items| == |args| && forall i | 0 <= i < |args| :: m["args"].items[i] == JStr(args[i])
            else args == []
  {
    if "args" in m && m["args"].JArr? && |m["args"].items| == |args|
       && forall i | 0 <= i < |args| :: m["args"].items[i] == JStr(args[i]) {
      assert ReadStrings(m["args"].items).value == args;
    }
  }

  lemma EnvRead(m: Object, env: map<string, string>)
    ensures ReadEnv(m) == Ok(env) <==>
            if "env" in m && m["env"].JObj?
            then m["env"].fields.Keys == env.Keys && forall k | k in env :: m["env"].fields[k] == JStr(env[k])
            else env == map[]
  {
    if "env" in m && m["env"].JObj? {
      var f := m["env"].fields;
      if f.Keys == env.Keys && forall k | k in env :: f[k] == JStr(env[k]) {
        assert forall k | k in f :: f[k] == JStr(env[k]);
        assert ReadStringMap(f).value == env;
      }
      if ReadEnv(m) == Ok(env) {
        assert f.Keys == env.Keys;
      }
    }
  }

  lemma AuthReads(m: Object, a: AuthMethod)
    ensures DecodeAuth(JObj(m)) == Ok(a) <==> IsAuth(m, a)
  {
    hide ReadArgs, ReadEnv;
    ArgsRead(m, a.args);
    EnvRead(m, a.env);
  }
}
