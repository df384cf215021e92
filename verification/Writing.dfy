/** What a value looks like on the wire, member by member: a reference for every
    encoder that mentions no encoder. */
module Writing {
  import opened JsonTree
  import opened AuthMethods
  import opened ClientSessions
  import opened Universe
  import opened RoundTrip
  import opened Members
  import opened Theorems
  import opened Reading

  // -------------------------------------------------------------- small parts

  /** The member is there with this value, or not there at all. */
  predicate Shows(m: Object, key: string, j: Json) {
    key in m && m[key] == j
  }

  predicate Hides(m: Object, key: string) {
    key !in m
  }

  predicate ShowsMaybeText(m: Object, key: string, s: Maybe<string>) {
    match s
    case Nothing => Hides(m, key)
    case Just(x) => Shows(m, key, JStr(x))
  }

  predicate ShowsIf(on: bool, m: Object, key: string, j: Json) {
    if on then Shows(m, key, j) else Hides(m, key)
  }

  /** Null, an empty array and an empty object are not written as `_meta`. */
  predicate ShowsMeta(m: Object, key: string, meta: Json) {
    ShowsIf(meta != JNull && meta != JArr([]) && meta != JObj(map[]), m, key, meta)
  }

  predicate Only(m: Object, keys: set<string>) {
    m.Keys <= keys
  }

  // ---------------------------------------------------- the hand-written codecs

  predicate AuthShown(m: Object, a: AuthMethod) {
    && Only(m, {"id", "name", "description", "type", "args", "env", "_meta"})
    && Shows(m, "id", JStr(a.id)) && Shows(m, "name", JStr(a.name))
    && ShowsMaybeText(m, "description", a.description)
    && ShowsIf(a.typ != "agent", m, "type", JStr(a.typ))
    && (if a.typ == "terminal" && a.args != []
        then "args" in m && m["args"].JArr? && |m["args"].items| == |a.args|
             && forall i | 0 <= i < |a.args| :: m["args"].items[i] == JStr(a.args[i])
        else Hides(m, "args"))
    && (if a.typ == "terminal" && a.env != map[]
        then "env" in m && m["env"].JObj? && m["env"].fields.Keys == a.env.Keys
             && forall k | k in a.env :: m["env"].fields[k] == JStr(a.env[k])
        else Hides(m, "env"))
    && ShowsMeta(m, "_meta", a.meta)
  }

  predicate ClientSessionShown(m: Object, c: ClientSession) {
    && Only(m, {"compaction", "notices", "configOptions", "_meta"})
    && ShowsIf(c.compaction, m, "compaction", JObj(map[]))
    && ShowsIf(c.notices, m, "notices", JObj(map[]))
    && ShowsIf(c.booleanConfig, m, "configOptions", JObj(map["boolean" := JObj(map[])]))
    && ShowsMeta(m, "_meta", c.meta)
  }

  /** Of the overlay: `elicitation` holds exactly the modes that are on, and is
      there if any is. */
  predicate OverlayShown(m: Object, authTerminal: bool, form: bool, url: bool) {
    && ShowsIf(authTerminal, m, "auth", JObj(map["terminal" := JBool(true)]))
    && (if form || url
        then "elicitation" in m && m["elicitation"].JObj? && Only(m["elicitation"].fields, {"form", "url"})
             && ShowsIf(form, m["elicitation"].fields, "form", JObj(map[]))
             && ShowsIf(url, m["elicitation"].fields, "url", JObj(map[]))
        else Hides(m, "elicitation"))
  }

  /** All of a config option but the `options` of a select one. */
  predicate ConfigShown(m: Object, o: ConfigOption) {
    && Only(m, {"id", "name", "description", "category", "type", "currentValue", "options", "_meta"})
    && Shows(m, "id", JStr(o.id)) && Shows(m, "name", JStr(o.name))
    && ShowsMaybeText(m, "description", o.description)
    && ShowsMaybeText(m, "category", o.category)
    && Shows(m, "type", JStr(o.typ))
    && Shows(m, "currentValue", if o.typ == "boolean" then JBool(o.currentBool) else JStr(o.currentValue))
    && ShowsMeta(m, "_meta", o.meta)
  }

  // -------------------------------------------------------------- every schema

  /** v is written as j. */
  predicate Writes(s: Schema, v: Val, j: Json)
    decreases s, 0
  {
    match s
    case SStr => v.VStr? && j == JStr(v.s)
    case SInt => v.VInt? && j == JInt(v.i)
    case SBool => v.VBool? && j == JBool(v.b)
    case SReal => v.VReal? && j == JReal(v.r)
    case SJson => v == VJson(j)
    case SUnit => v == VUnit && j == JObj(map[])
    case SEnum(names) => v.VEnum? && v.n < Count(names) && j == JStr(NameAt(names, v.n))
    case SList(e) => v.VList? && j.JArr? && AllWritten(e, v.items, j.items)
    case SRec(fs) => v.VRec? && j.JObj? && Only(j.fields, Keys(fs)) && MembersWritten(fs, v.fields, j.fields)
    case STagged(key, arms) =>
      && v.VSum? && j.JObj? && key in j.fields && j.fields[key].JStr?
      && TagAt(arms, v.arm) == Just(j.fields[key].s)
      && ArmWritten(arms, v.arm, v.v, JObj(j.fields - {key}))
    case SEmbedded(text, blob) =>
      v.VSum? && ((v.arm == 0 && Writes(text, v.v, j)) || (v.arm == 1 && Writes(blob, v.v, j)))
    case SMcpServer(stdio, http, sse) =>
      && v.VSum? && j.JObj?
      && (|| (v.arm == 0 && Hides(j.fields, "type") && Writes(stdio, v.v, j))
          || (v.arm == 1 && Shows(j.fields, "type", JStr("http")) && Writes(http, v.v, JObj(j.fields - {"type"})))
          || (v.arm == 2 && Shows(j.fields, "type", JStr("sse")) && Writes(sse, v.v, JObj(j.fields - {"type"}))))
    case SCommandInput(u) => v.VSum? && v.arm == 0 && j.JObj? && Hides(j.fields, "type") && Writes(u, v.v, j)
    case SSelect(option, group) =>
      && v.VSum? && v.v.VList? && j.JArr?
      && (|| (v.arm == 0 && AllWritten(option, v.v.items, j.items))
          || (v.arm == 1 && AllWritten(group, v.v.items, j.items)))
    case SConfig(options) =>
      && v.VConfig? && j.JObj? && ConfigShown(j.fields, v.option)
      && if v.option.typ == "boolean" then Hides(j.fields, "options")
         else "options" in j.fields && Writes(options, v.option.options, j.fields["options"])
    case SAuth => v.VAuth? && j.JObj? && AuthShown(j.fields, v.method_)
    case SClientSession => v.VClientSession? && j.JObj? && ClientSessionShown(j.fields, v.session)
    case SClientCaps(base) =>
      && v.VClientCaps? && j.JObj?
      && OverlayShown(j.fields, v.authTerminal, v.elicitForm, v.elicitUrl)
      && Only(j.fields, Keys(base) + {"auth", "elicitation"})
      && MembersWritten(base, v.base, j.fields)
  }

  predicate AllWritten(s: Schema, vs: seq<Val>, js: seq<Json>)
    decreases s, 1
  {
    |js| == |vs| && forall i | 0 <= i < |vs| :: Writes(s, vs[i], js[i])
  }

  /** Required and defaulted members are always there, an optional one when it
      is not Nothing, a `_meta` when it is not empty. */
  predicate MemberWritten(kind: Kind, s: Schema, v: Val, m: Object, key: string)
    decreases s, 1
  {
    match kind
    case Required => key in m && Writes(s, v, m[key])
    case Defaulted(_) => key in m && Writes(s, v, m[key])
    case Optional => if v.VJust? then key in m && Writes(s, v.v, m[key]) else v == VNothing && Hides(m, key)
    case Meta => v.VJson? && ShowsMeta(m, key, v.j)
  }

  predicate MembersWritten(fs: Fields, vs: Vals, m: Object)
    decreases fs, 0
  {
    match fs
    case End => vs.Nil?
    case Field(key, kind, s, rest) =>
      vs.Cons? && MemberWritten(kind, s, vs.head, m, key) && MembersWritten(rest, vs.tail, m)
  }

  predicate ArmWritten(arms: Arms, i: nat, v: Val, j: Json)
    decreases arms, 0
  {
    arms.Arm? && if i == 0 then Writes(arms.schema, v, j) else ArmWritten(arms.rest, i - 1, v, j)
  }

  // --------------------------------------------------- what is written is unique

  lemma MetaShown(m: Object, key: string, meta: Json)
    ensures ShowsMeta(m, key, meta) <==> Find(m, key) == WrittenMeta(meta)
  {
  }

  /** Encoders write what the reference says. */
  lemma {:induction false} Encodes(s: Schema, v: Val)
    requires WellFormed(s) && HasType(s, v)
    ensures Writes(s, v, Enc(s, v))
    decreases s, 1
  {
    match s
    case SList(e) => AllEncode(e, v.items);
    case SRec(fs) => RecordEncodes(fs, v);
    case STagged(key, arms) => TaggedEncodes(key, arms, v);
    case SEmbedded(_, _) => Encodes(Chosen(s, v.arm), v.v);
    case SMcpServer(_, _, _) => ServerEncodes(s, v);
    case SCommandInput(u) => CommandInputEncodes(u, v);
    case SSelect(option, group) => SelectEncodes(option, group, v);
    case SConfig(options) => ConfigEncodes(options, v);
    case SAuth => AuthEncodes(v.method_);
    case SClientSession => SessionEncodes(v.session);
    case SClientCaps(base) => CapsEncode(base, v);
    case _ =>
  }

  lemma {:induction false} AllEncode(s: Schema, vs: seq<Val>)
    requires WellFormed(s) && HasTypes(s, vs)
    ensures AllWritten(s, vs, EncAll(s, vs))
    decreases s, 2
  {
    hide Enc, Writes, HasType, WellFormed;
    forall i | 0 <= i < |vs| ensures Writes(s, vs[i], EncAll(s, vs)[i]) {
      Encodes(s, vs[i]);
    }
  }

  lemma {:induction false} MemberEncodes(kind: Kind, s: Schema, v: Val, m: Object, key: string)
    requires WellFormed(s) && HasField(kind, s, v) && Find(m, key) == EncField(kind, s, v)
    ensures MemberWritten(kind, s, v, m, key)
    decreases s, 2
  {
    hide Enc, Writes, HasType, WellFormed;
    match kind
    case Optional => if v.VJust? { Encodes(s, v.v); }
    case Meta => MetaShown(m, key, v.j);
    case _ => Encodes(s, v);
  }

  /** m holds what every field writes. */
  lemma {:induction false} MembersEncode(fs: Fields, vs: Vals, m: Object)
    requires WellFormedFields(fs) && HasFields(fs, vs)
    requires forall k | k in Keys(fs) :: Find(m, k) == Written(fs, vs, k)
    ensures MembersWritten(fs, vs, m)
    decreases fs, 1
  {
    hide MemberWritten, EncField, HasField, WellFormed;
    if fs.End? {
    } else {
      assert fs.key in Keys(fs);
      MemberEncodes(fs.kind, fs.schema, vs.head, m, fs.key);
      FreshIsNotAKey(fs.key, fs.rest);
      forall k | k in Keys(fs.rest) ensures Find(m, k) == Written(fs.rest, vs.tail, k) {
        assert k in Keys(fs) && k != fs.key;
      }
      MembersEncode(fs.rest, vs.tail, m);
    }
  }

  lemma {:induction false} NoOtherMember(fs: Fields, vs: Vals)
    requires HasFields(fs, vs)
    ensures Only(EncFields(fs, vs), Keys(fs))
  {
    forall k | k in EncFields(fs, vs) ensures k in Keys(fs) {
      FreshIsNotAKey(k, fs);
      if Fresh(k, fs) { WritesNothingElse(k, fs, vs); }
    }
  }

  lemma {:induction false} FieldsEncode(fs: Fields, vs: Vals, m: Object)
    requires WellFormedFields(fs) && HasFields(fs, vs)
    requires forall k | k in Keys(fs) :: Find(m, k) == Find(EncFields(fs, vs), k)
    ensures MembersWritten(fs, vs, m)
    decreases fs, 2
  {
    hide MembersWritten, EncFields, HasFields, Written;
    forall k ensures Find(EncFields(fs, vs), k) == Written(fs, vs, k) {
      WritesExactly(fs, vs, k);
    }
    MembersEncode(fs, vs, m);
  }

  lemma {:induction false} RecordEncodes(fs: Fields, v: Val)
    requires WellFormedFields(fs) && HasType(SRec(fs), v)
    ensures Writes(SRec(fs), v, Enc(SRec(fs), v))
    decreases SRec(fs), 0
  {
    FieldsEncode(fs, v.fields, EncFields(fs, v.fields));
    NoOtherMember(fs, v.fields);
  }

  lemma {:induction false} ArmEncodes(key: string, arms: Arms, i: nat, v: Val)
    requires WellFormedArms(key, arms) && HasArm(arms, i, v)
    ensures var j := EncArm(key, arms, i, v);
            && j.JObj? && key in j.fields && j.fields[key].JStr? && TagAt(arms, i) == Just(j.fields[key].s)
            && ArmWritten(arms, i, v, JObj(j.fields - {key}))
    decreases arms, 1
  {
    hide Enc, Writes, HasType, WellFormed, ObjectWithout;
    if i == 0 {
      var j := Enc(arms.schema, v);
      Encodes(arms.schema, v);
      TagIsNotWritten(arms.schema, key, v);
      assert JObj(j.fields[key := JStr(arms.tag)] - {key}) == j;
    } else {
      ArmEncodes(key, arms.rest, i - 1, v);
    }
  }

  lemma {:induction false} TaggedEncodes(key: string, arms: Arms, v: Val)
    requires WellFormedArms(key, arms) && HasType(STagged(key, arms), v)
    ensures Writes(STagged(key, arms), v, Enc(STagged(key, arms), v))
    decreases STagged(key, arms), 0
  {
    ArmEncodes(key, arms, v.arm, v.v);
  }

  lemma {:induction false} ServerEncodes(s: Schema, v: Val)
    requires s.SMcpServer? && WellFormed(s) && HasType(s, v)
    ensures Writes(s, v, Enc(s, v))
    decreases s, 0
  {
    var c := Chosen(s, v.arm);
    var j := Enc(c, v.v);
    assert ObjectWithout("type", c) && HasType(c, v.v) && WellFormed(c);
    Encodes(c, v.v);
    TagIsNotWritten(c, "type", v.v);
    if v.arm != 0 {
      var kind := JStr(if v.arm == 1 then "http" else "sse");
      assert JObj(j.fields["type" := kind] - {"type"}) == j;
    }
  }

  lemma {:induction false} CommandInputEncodes(u: Schema, v: Val)
    requires WellFormed(SCommandInput(u)) && HasType(SCommandInput(u), v)
    ensures Writes(SCommandInput(u), v, Enc(SCommandInput(u), v))
    decreases SCommandInput(u), 0
  {
    Encodes(u, v.v);
    WritesNothingElse("type", u.fields, v.v.fields);
  }

  lemma {:induction false} SelectEncodes(option: Schema, group: Schema, v: Val)
    requires WellFormed(option) && WellFormed(group) && HasType(SSelect(option, group), v)
    ensures Writes(SSelect(option, group), v, Enc(SSelect(option, group), v))
    decreases SSelect(option, group), 0
  {
    if v.arm == 0 {
      AllEncode(option, v.v.items);
    } else {
      AllEncode(group, v.v.items);
    }
  }

  lemma ConfigIsShown(o: ConfigOption, options: Json)
    ensures ConfigJson(o, options).JObj?
    ensures var m := ConfigJson(o, options).fields;
            ConfigShown(m, o) && if o.typ == "boolean" then Hides(m, "options") else Shows(m, "options", options)
  {
    ConfigJsonSpells(o, options);
    MetaShown(ConfigJson(o, options).fields, "_meta", o.meta);
    ConfigHasNoOther(o, options);
    hide ConfigJson, WrittenMeta, ShowsMeta;
  }

  lemma ConfigHasNoOther(o: ConfigOption, options: Json)
    ensures Only(ConfigJson(o, options).fields,
                 {"id", "name", "description", "category", "type", "currentValue", "options", "_meta"})
  {
  }

  lemma {:induction false} ConfigEncodes(options: Schema, v: Val)
    requires WellFormed(options) && HasType(SConfig(options), v)
    ensures Writes(SConfig(options), v, Enc(SConfig(options), v))
    decreases SConfig(options), 0
  {
    hide ConfigJson, ConfigShown;
    Encodes(options, v.option.options);
    ConfigIsShown(v.option, Enc(options, v.option.options));
  }

  lemma AuthEncodes(a: AuthMethod)
    ensures EncodeAuth(a).JObj? && AuthShown(EncodeAuth(a).fields, a)
  {
    EncodeSpells(a);
    MetaShown(EncodeAuth(a).fields, "_meta", a.meta);
    AuthHasNoOther(a);
    hide EncodeAuth, WrittenMeta, ShowsMeta;
  }

  lemma AuthHasNoOther(a: AuthMethod)
    ensures EncodeAuth(a).JObj?
    ensures Only(EncodeAuth(a).fields, {"id", "name", "description", "type", "args", "env", "_meta"})
  {
  }

  lemma SessionEncodes(c: ClientSession)
    ensures EncodeSession(c).JObj? && ClientSessionShown(EncodeSession(c).fields, c)
  {
    var f := EncodeSession(c).fields;
    MetaShown(f, "_meta", c.meta);
    assert Find(f, "compaction") == Flag(c.compaction);
    assert Find(f, "notices") == Flag(c.notices);
    assert Find(f, "configOptions") == BooleanConfig(c.booleanConfig);
    assert Find(f, "_meta") == WrittenMeta(c.meta);
    hide WrittenMeta, ShowsMeta;
  }

  lemma OverlayIsShown(m: Object, authTerminal: bool, form: bool, url: bool)
    requires "auth" !in m && "elicitation" !in m
    ensures var o := Overlay(m, authTerminal, form, url);
            && OverlayShown(o, authTerminal, form, url)
            && o.Keys <= m.Keys + {"auth", "elicitation"}
            && forall k | k != "auth" && k != "elicitation" :: Find(o, k) == Find(m, k)
  {
    var o := Overlay(m, authTerminal, form, url);
    var e := Elicitation(form, url);
    assert Find(o, "auth") == AuthFlag(authTerminal) && Find(o, "elicitation") == ElicitationFlag(form, url);
    assert Find(e, "form") == Flag(form) && Find(e, "url") == Flag(url);
    assert Only(e, {"form", "url"});
  }

  lemma {:induction false} CapsEncode(base: Fields, v: Val)
    requires WellFormed(SClientCaps(base)) && HasType(SClientCaps(base), v)
    ensures Writes(SClientCaps(base), v, Enc(SClientCaps(base), v))
    decreases SClientCaps(base), 0
  {
    var m := EncFields(base, v.base);
    var o := Overlay(m, v.authTerminal, v.elicitForm, v.elicitUrl);
    WritesNothingElse("auth", base, v.base);
    WritesNothingElse("elicitation", base, v.base);
    OverlayIsShown(m, v.authTerminal, v.elicitForm, v.elicitUrl);
    NoOtherMember(base, v.base);
    FreshIsNotAKey("auth", base);
    FreshIsNotAKey("elicitation", base);
    FieldsEncode(base, v.base, o);
  }

  // ------------------------------------------------------ and it is the only one

  /** Objects with the same members under the keys they may have are equal. */
  lemma SameMembers(m: Object, n: Object, keys: set<string>)
    requires Only(m, keys) && Only(n, keys)
    requires forall k | k in keys :: Find(m, k) == Find(n, k)
    ensures m == n
  {
    forall k ensures k in m <==> k in n {
      if k in m { assert k in keys; }
      if k in n { assert k in keys && Find(n, k).Just?; }
    }
    assert m.Keys == n.Keys;
    forall k | k in m ensures m[k] == n[k] { assert Find(m, k) == Find(n, k); }
  }

  /** Only one JSON is what v looks like. */
  lemma {:induction false} OneWriting(s: Schema, v: Val, j: Json, k: Json)
    requires WellFormed(s) && Writes(s, v, j) && Writes(s, v, k)
    ensures j == k
    decreases s, 1
  {
    hide Writes, WellFormed;
    match s
    case SList(_) => ListOneWriting(s, v, j, k);
    case SRec(_) => RecordOneWriting(s, v, j, k);
    case STagged(_, _) => TaggedOneWriting(s, v, j, k);
    case SEmbedded(_, _) => UntaggedOneWriting(s, v, j, k);
    case SMcpServer(_, _, _) => ServerOneWriting(s, v, j, k);
    case SCommandInput(_) => UntaggedOneWriting(s, v, j, k);
    case SSelect(_, _) => SelectOneWriting(s, v, j, k);
    case SConfig(_) => ConfigOneWriting(s, v, j, k);
    case SClientCaps(_) => CapsOneWriting(s, v, j, k);
    case _ => LeafOneWriting(s, v, j, k);
  }

  lemma LeafOneWriting(s: Schema, v: Val, j: Json, k: Json)
    requires (Leaf(s) || s.SEnum?) && Writes(s, v, j) && Writes(s, v, k)
    ensures j == k
  {
    hide AuthShown, ClientSessionShown;
    match s
    case SAuth => AuthOneWriting(v.method_, j.fields, k.fields);
    case SClientSession => SessionOneWriting(v.session, j.fields, k.fields);
    case _ =>
  }

  lemma {:induction false} ListOneWriting(s: Schema, v: Val, j: Json, k: Json)
    requires s.SList? && WellFormed(s) && Writes(s, v, j) && Writes(s, v, k)
    ensures j == k
    decreases s, 0
  {
    AllOneWriting(s.elem, v.items, j.items, k.items);
  }

  lemma {:induction false} RecordOneWriting(s: Schema, v: Val, j: Json, k: Json)
    requires s.SRec? && WellFormed(s) && Writes(s, v, j) && Writes(s, v, k)
    ensures j == k
    decreases s, 0
  {
    MembersOneWriting(s.fields, v.fields, j.fields, k.fields);
    SameMembers(j.fields, k.fields, Keys(s.fields));
  }

  lemma {:induction false} UntaggedOneWriting(s: Schema, v: Val, j: Json, k: Json)
    requires (s.SEmbedded? || s.SCommandInput?) && WellFormed(s) && Writes(s, v, j) && Writes(s, v, k)
    ensures j == k
    decreases s, 0
  {
    OneWriting(Chosen(s, v.arm), v.v, j, k);
  }

  lemma {:induction false} AllOneWriting(s: Schema, vs: seq<Val>, js: seq<Json>, ks: seq<Json>)
    requires WellFormed(s) && AllWritten(s, vs, js) && AllWritten(s, vs, ks)
    ensures js == ks
    decreases s, 2
  {
    hide Writes, WellFormed;
    forall i | 0 <= i < |vs| ensures js[i] == ks[i] {
      OneWriting(s, vs[i], js[i], ks[i]);
    }
  }

  lemma {:induction false} MemberOneWriting(kind: Kind, s: Schema, v: Val, m: Object, n: Object, key: string)
    requires WellFormed(s) && MemberWritten(kind, s, v, m, key) && MemberWritten(kind, s, v, n, key)
    ensures Find(m, key) == Find(n, key)
    decreases s, 2
  {
    hide Writes, WellFormed;
    match kind
    case Optional => if v.VJust? { OneWriting(s, v.v, m[key], n[key]); }
    case Meta =>
    case _ => OneWriting(s, v, m[key], n[key]);
  }

  lemma {:induction false} MembersOneWriting(fs: Fields, vs: Vals, m: Object, n: Object)
    requires WellFormedFields(fs) && MembersWritten(fs, vs, m) && MembersWritten(fs, vs, n)
    ensures forall k | k in Keys(fs) :: Find(m, k) == Find(n, k)
    decreases fs, 1
  {
    hide MemberWritten, WellFormed;
    if fs.End? {
    } else {
      MemberOneWriting(fs.kind, fs.schema, vs.head, m, n, fs.key);
      MembersOneWriting(fs.rest, vs.tail, m, n);
    }
  }

  lemma SameButKey(m: Object, n: Object, key: string)
    requires key in m && key in n && m[key] == n[key] && m - {key} == n - {key}
    ensures m == n
  {
    assert m == (m - {key})[key := m[key]] && n == (n - {key})[key := n[key]];
  }

  lemma {:induction false} ArmOneWriting(key: string, arms: Arms, i: nat, v: Val, j: Json, k: Json)
    requires WellFormedArms(key, arms) && ArmWritten(arms, i, v, j) && ArmWritten(arms, i, v, k)
    ensures j == k
    decreases arms, 1
  {
    hide Writes, WellFormed, ObjectWithout;
    if i == 0 {
      OneWriting(arms.schema, v, j, k);
    } else {
      ArmOneWriting(key, arms.rest, i - 1, v, j, k);
    }
  }

  lemma {:induction false} TaggedOneWriting(s: Schema, v: Val, j: Json, k: Json)
    requires s.STagged? && WellFormed(s) && Writes(s, v, j) && Writes(s, v, k)
    ensures j == k
    decreases s, 0
  {
    ArmOneWriting(s.key, s.arms, v.arm, v.v, JObj(j.fields - {s.key}), JObj(k.fields - {s.key}));
    SameButKey(j.fields, k.fields, s.key);
  }

  lemma {:induction false} ServerOneWriting(s: Schema, v: Val, j: Json, k: Json)
    requires s.SMcpServer? && WellFormed(s) && Writes(s, v, j) && Writes(s, v, k)
    ensures j == k
    decreases s, 0
  {
    var c := Chosen(s, v.arm);
    assert WellFormed(c);
    if v.arm == 0 {
      OneWriting(c, v.v, j, k);
    } else {
      OneWriting(c, v.v, JObj(j.fields - {"type"}), JObj(k.fields - {"type"}));
      SameButKey(j.fields, k.fields, "type");
    }
  }

  lemma {:induction false} SelectOneWriting(s: Schema, v: Val, j: Json, k: Json)
    requires s.SSelect? && WellFormed(s) && Writes(s, v, j) && Writes(s, v, k)
    ensures j == k
    decreases s, 0
  {
    if v.arm == 0 {
      AllOneWriting(s.option, v.v.items, j.items, k.items);
    } else {
      AllOneWriting(s.group, v.v.items, j.items, k.items);
    }
  }

  lemma ConfigMembersOnce(o: ConfigOption, m: Object, n: Object)
    requires ConfigShown(m, o) && ConfigShown(n, o) && Find(m, "options") == Find(n, "options")
    ensures m == n
  {
    SameMembers(m, n, {"id", "name", "description", "category", "type", "currentValue", "options", "_meta"});
  }

  lemma {:induction false} ConfigOneWriting(s: Schema, v: Val, j: Json, k: Json)
    requires s.SConfig? && WellFormed(s) && Writes(s, v, j) && Writes(s, v, k)
    ensures j == k
    decreases s, 0
  {
    hide ConfigShown;
    if v.option.typ != "boolean" {
      OneWriting(s.options, v.option.options, j.fields["options"], k.fields["options"]);
    }
    ConfigMembersOnce(v.option, j.fields, k.fields);
  }

  lemma AuthOneWriting(a: AuthMethod, m: Object, n: Object)
    requires AuthShown(m, a) && AuthShown(n, a)
    ensures m == n
  {
    if a.typ == "terminal" && a.args != [] {
      assert m["args"].items == n["args"].items;
    }
    if a.typ == "terminal" && a.env != map[] {
      assert m["env"].fields == n["env"].fields;
    }
    SameMembers(m, n, {"id", "name", "description", "type", "args", "env", "_meta"});
  }

  lemma SessionOneWriting(c: ClientSession, m: Object, n: Object)
    requires ClientSessionShown(m, c) && ClientSessionShown(n, c)
    ensures m == n
  {
    SameMembers(m, n, {"compaction", "notices", "configOptions", "_meta"});
  }

  lemma OverlayOneWriting(m: Object, n: Object, authTerminal: bool, form: bool, url: bool)
    requires OverlayShown(m, authTerminal, form, url) && OverlayShown(n, authTerminal, form, url)
    ensures Find(m, "auth") == Find(n, "auth") && Find(m, "elicitation") == Find(n, "elicitation")
  {
    if form || url {
      SameMembers(m["elicitation"].fields, n["elicitation"].fields, {"form", "url"});
    }
  }

  lemma {:induction false} CapsOneWriting(s: Schema, v: Val, j: Json, k: Json)
    requires s.SClientCaps? && WellFormed(s) && Writes(s, v, j) && Writes(s, v, k)
    ensures j == k
    decreases s, 0
  {
    hide OverlayShown;
    OverlayOneWriting(j.fields, k.fields, v.authTerminal, v.elicitForm, v.elicitUrl);
    MembersOneWriting(s.base, v.base, j.fields, k.fields);
    SameMembers(j.fields, k.fields, Keys(s.base) + {"auth", "elicitation"});
  }

  /** The encoding of a value is the one JSON the reference says it looks like. */
  lemma {:induction false} EncodesExactly(s: Schema, v: Val, j: Json)
    requires WellFormed(s) && HasType(s, v)
    ensures Enc(s, v) == j <==> Writes(s, v, j)
  {
    hide Enc, Writes, HasType, WellFormed;
    Encodes(s, v);
    if Writes(s, v, j) {
      OneWriting(s, v, Enc(s, v), j);
    }
  }
}
