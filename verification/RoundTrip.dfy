/** The round-trip theory of the universe: what decoding undoes, what encoding
    forgets, and when nothing is lost. Each theorem is proved once, by
    induction over schemas, and then holds for every type of the protocol. */
module RoundTrip {
  import opened JsonTree
  import opened AuthMethods
  import opened ClientSessions
  import opened Universe

  // ------------------------------------------------------------ frame lemmas

  /** The keys a record declares. */
  function Keys(fs: Fields): set<string> {
    if fs.End? then {} else {fs.key} + Keys(fs.rest)
  }

  lemma FreshIsNotAKey(key: string, fs: Fields)
    ensures Fresh(key, fs) <==> key !in Keys(fs)
  {
  }

  /** A record decoder sees nothing but the members it declares: any two
      objects that agree on them decode alike. */
  lemma {:induction false} DecoderFrame(fs: Fields, m: Object, n: Object)
    requires forall k | k in Keys(fs) :: Find(m, k) == Find(n, k)
    ensures DecFields(fs, m) == DecFields(fs, n)
  {
    if fs.End? {
    } else {
      assert fs.key in Keys(fs);
      DecoderFrame(fs.rest, m, n);
    }
  }

  /** Adding or changing a member outside the declared ones changes nothing. */
  lemma ForeignMember(fs: Fields, m: Object, key: string, x: Json)
    requires Fresh(key, fs)
    ensures DecFields(fs, m[key := x]) == DecFields(fs, m)
  {
    FreshIsNotAKey(key, fs);
    DecoderFrame(fs, m, m[key := x]);
  }

  lemma TagIsForeign(s: Schema, m: Object, key: string, x: Json)
    requires ObjectWithout(key, s)
    ensures Dec(s, JObj(m[key := x])) == Dec(s, JObj(m))
  {
    if s.SRec? {
      ForeignMember(s.fields, m, key, x);
    }
  }

  /** A record encoder writes only declared members ... */
  lemma {:induction false} WritesNothingElse(key: string, fs: Fields, vs: Vals)
    requires Fresh(key, fs)
    ensures key !in EncFields(fs, vs)
  {
    if fs.End? || vs.Nil? {
    } else {
      WritesNothingElse(key, fs.rest, vs.tail);
      assert Find(EncFields(fs, vs), key) == Find(EncFields(fs.rest, vs.tail), key);
    }
  }

  /** ... and all of the required ones. */
  lemma {:induction false} WritesRequired(key: string, fs: Fields, vs: Vals)
    requires Demands(key, fs) && HasFields(fs, vs)
    ensures key in EncFields(fs, vs)
  {
    assert Find(EncFields(fs, vs), fs.key) != Nothing || !fs.kind.Required?;
    if !(key == fs.key && fs.kind.Required?) {
      WritesRequired(key, fs.rest, vs.tail);
      assert Find(EncFields(fs, vs), key) != Nothing;
    }
  }

  // -------------------------------------------------------------- round trip

  lemma IndexBack(names: Names, i: nat)
    requires Distinct(names) && i < Count(names)
    ensures IndexOf(names, NameAt(names, i)) == Ok(i)
  {
    if i > 0 {
      IndexBack(names.others, i - 1);
      NameIsOld(names.wire, names.others, i - 1);
    }
  }

  lemma NameIsOld(wire: string, names: Names, i: nat)
    requires FreshName(wire, names) && i < Count(names)
    ensures NameAt(names, i) != wire
  {
  }

  lemma DecAllOf(s: Schema, js: seq<Json>, vs: seq<Val>)
    requires |js| == |vs|
    requires forall i | 0 <= i < |js| :: Dec(s, js[i]) == Ok(vs[i])
    ensures DecAll(s, js) == Ok(vs)
  {
    assert DecAll(s, js).value == vs;
  }

  /** The universe theorem: for every well-formed schema and every value of it,
      decoding the encoding succeeds and gives the value's normal form. */
  lemma {:induction false} RoundTrips(s: Schema, v: Val)
    requires WellFormed(s) && HasType(s, v)
    ensures Dec(s, Enc(s, v)) == Ok(Norm(s, v))
    decreases s, 1
  {
    match s
    case SEnum(names) => IndexBack(names, v.n);
    case SList(e) => AllRoundTrip(e, v.items);
    case SRec(fs) => FieldsRoundTrip(fs, v.fields);
    case STagged(key, arms) => ArmRoundTrips(key, arms, 0, v.arm, v.v);
    case SEmbedded(text, blob) => EmbeddedRoundTrips(text, blob, v);
    case SMcpServer(stdio, http, sse) => McpServerRoundTrips(stdio, http, sse, v);
    case SCommandInput(u) =>
      RoundTrips(u, v.v);
      WritesNothingElse("type", u.fields, v.v.fields);
    case SSelect(option, group) => SelectRoundTrips(option, group, v);
    case SConfig(options) => ConfigRoundTrips(options, v.option);
    case SAuth => AuthRoundTrip(v.method_);
    case SClientSession => SessionRoundTrip(v.session);
    case SClientCaps(base) => CapsRoundTrip(base, v);
    case _ =>
  }

  lemma {:induction false} AllRoundTrip(s: Schema, vs: seq<Val>)
    requires WellFormed(s) && HasTypes(s, vs)
    ensures DecAll(s, EncAll(s, vs)) == Ok(NormAll(s, vs))
    decreases s, 2
  {
    forall i | 0 <= i < |vs| ensures Dec(s, EncAll(s, vs)[i]) == Ok(NormAll(s, vs)[i]) {
      RoundTrips(s, vs[i]);
    }
    DecAllOf(s, EncAll(s, vs), NormAll(s, vs));
  }

  lemma {:induction false} FieldRoundTrips(kind: Kind, s: Schema, v: Val)
    requires WellFormed(s) && HasField(kind, s, v)
    ensures DecField(kind, s, EncField(kind, s, v)) == Ok(NormField(kind, s, v))
    decreases s, 2
  {
    hide Enc, Dec, Norm, HasType, WellFormed;
    match kind
    case Optional =>
      if v.VJust? {
        RoundTrips(s, v.v);
        OptionalBack(s, Enc(s, v.v), Norm(s, v.v));
      }
    case Meta =>
    case _ => RoundTrips(s, v);
  }

  lemma OptionalBack(s: Schema, j: Json, v: Val)
    requires Dec(s, j) == Ok(v)
    ensures DecField(Optional, s, Just(j)) == Ok(if j.JNull? then VNothing else VJust(v))
  {
  }

  lemma {:induction false} FieldsRoundTrip(fs: Fields, vs: Vals)
    requires WellFormedFields(fs) && HasFields(fs, vs)
    ensures DecFields(fs, EncFields(fs, vs)) == Ok(NormFields(fs, vs))
    decreases fs, 1
  {
    if fs.End? {
    } else {
      FieldRoundTrips(fs.kind, fs.schema, vs.head);
      FieldsRoundTrip(fs.rest, vs.tail);
      var tail := EncFields(fs.rest, vs.tail);
      WritesNothingElse(fs.key, fs.rest, vs.tail);
      FreshIsNotAKey(fs.key, fs.rest);
      DecoderFrame(fs.rest, tail, EncFields(fs, vs));
    }
  }

  lemma {:induction false} ArmRoundTrips(key: string, arms: Arms, n: nat, i: nat, v: Val)
    requires WellFormedArms(key, arms) && HasArm(arms, i, v)
    ensures var j := EncArm(key, arms, i, v);
            && j.JObj? && key in j.fields && j.fields[key].JStr?
            && !FreshTag(j.fields[key].s, arms)
            && DecArm(arms, n, j.fields[key].s, j) == Ok(VSum(n + i, NormArm(arms, i, v)))
    decreases arms, 1
  {
    if i == 0 {
      RoundTrips(arms.schema, v);
      TagIsForeign(arms.schema, Enc(arms.schema, v).fields, key, JStr(arms.tag));
    } else {
      ArmRoundTrips(key, arms.rest, n + 1, i - 1, v);
    }
  }

  lemma {:induction false} EmbeddedRoundTrips(text: Schema, blob: Schema, v: Val)
    requires WellFormed(SEmbedded(text, blob)) && HasType(SEmbedded(text, blob), v)
    ensures Dec(SEmbedded(text, blob), Enc(SEmbedded(text, blob), v)) == Ok(Norm(SEmbedded(text, blob), v))
    decreases SEmbedded(text, blob), 0
  {
    if v.arm == 0 {
      RoundTrips(text, v.v);
      WritesRequired("text", text.fields, v.v.fields);
    } else {
      RoundTrips(blob, v.v);
      WritesRequired("blob", blob.fields, v.v.fields);
      WritesNothingElse("text", blob.fields, v.v.fields);
    }
  }

  lemma {:induction false} McpServerRoundTrips(stdio: Schema, http: Schema, sse: Schema, v: Val)
    requires WellFormed(SMcpServer(stdio, http, sse)) && HasType(SMcpServer(stdio, http, sse), v)
    ensures Dec(SMcpServer(stdio, http, sse), Enc(SMcpServer(stdio, http, sse), v))
         == Ok(Norm(SMcpServer(stdio, http, sse), v))
    decreases SMcpServer(stdio, http, sse), 0
  {
    if v.arm == 0 {
      RoundTrips(stdio, v.v);
      WritesNothingElse("type", stdio.fields, v.v.fields);
    } else if v.arm == 1 {
      RoundTrips(http, v.v);
      ForeignMember(http.fields, EncFields(http.fields, v.v.fields), "type", JStr("http"));
    } else {
      RoundTrips(sse, v.v);
      ForeignMember(sse.fields, EncFields(sse.fields, v.v.fields), "type", JStr("sse"));
    }
  }

  lemma {:induction false} SelectRoundTrips(option: Schema, group: Schema, v: Val)
    requires WellFormed(SSelect(option, group)) && HasType(SSelect(option, group), v)
    ensures Dec(SSelect(option, group), Enc(SSelect(option, group), v)) == Ok(Norm(SSelect(option, group), v))
    decreases SSelect(option, group), 0
  {
    var items := v.v.items;
    if items == [] {
      DecAllOf(option, [], []);
    } else if v.arm == 0 {
      AllRoundTrip(option, items);
      assert HasType(option, items[0]);
      WritesNothingElse("group", option.fields, items[0].fields);
    } else {
      AllRoundTrip(group, items);
      assert HasType(group, items[0]);
      WritesRequired("group", group.fields, items[0].fields);
    }
  }

  predicate ConfigSpells(f: Object, o: ConfigOption, options: Json) {
    && Find(f, "id") == Just(JStr(o.id))
    && Find(f, "name") == Just(JStr(o.name))
    && Find(f, "type") == Just(JStr(o.typ))
    && Find(f, "description") == JStrOf(o.description)
    && Find(f, "category") == JStrOf(o.category)
    && Find(f, "currentValue") == Just(WrittenValue(o))
    && Find(f, "options") == WrittenOptions(o, options)
    && Find(f, "_meta") == WrittenMeta(o.meta)
  }

  lemma ConfigJsonSpells(o: ConfigOption, options: Json)
    ensures ConfigSpells(ConfigJson(o, options).fields, o, options)
  {
  }

  lemma SpelledConfigHead(f: Object, o: ConfigOption, options: Json)
    requires ConfigSpells(f, o, options)
    ensures var n := o.(options := NO_OPTIONS, meta := MetaOf(o.meta));
            ConfigHead(f) == Ok(if o.IsBoolean() then n.(currentValue := "") else n.(currentBool := false))
  {
  }

  lemma {:induction false} ConfigRoundTrips(options: Schema, o: ConfigOption)
    requires WellFormed(SConfig(options)) && HasType(SConfig(options), VConfig(o))
    ensures Dec(SConfig(options), Enc(SConfig(options), VConfig(o))) == Ok(Norm(SConfig(options), VConfig(o)))
    decreases SConfig(options), 0
  {
    var x := Enc(options, o.options);
    ConfigJsonSpells(o, x);
    SpelledConfigHead(ConfigJson(o, x).fields, o, x);
    RoundTrips(options, o.options);
  }

  lemma OverlayIsForeign(base: Fields, m: Object, authTerminal: bool, form: bool, url: bool)
    requires Fresh("auth", base) && Fresh("elicitation", base)
    ensures DecFields(base, Overlay(m, authTerminal, form, url)) == DecFields(base, m)
  {
    FreshIsNotAKey("auth", base);
    FreshIsNotAKey("elicitation", base);
    DecoderFrame(base, m, Overlay(m, authTerminal, form, url));
  }

  lemma {:induction false} CapsRoundTrip(base: Fields, v: Val)
    requires WellFormed(SClientCaps(base)) && HasType(SClientCaps(base), v)
    ensures Dec(SClientCaps(base), Enc(SClientCaps(base), v)) == Ok(Norm(SClientCaps(base), v))
    decreases SClientCaps(base), 0
  {
    var m := EncFields(base, v.base);
    FieldsRoundTrip(base, v.base);
    OverlayIsForeign(base, m, v.authTerminal, v.elicitForm, v.elicitUrl);
    WritesNothingElse("auth", base, v.base);
    WritesNothingElse("elicitation", base, v.base);
    OverlayReadsBack(m, v.authTerminal, v.elicitForm, v.elicitUrl);
  }

  lemma OverlayReadsBack(m: Object, authTerminal: bool, form: bool, url: bool)
    requires "auth" !in m && "elicitation" !in m
    ensures var o := Overlay(m, authTerminal, form, url);
            AuthTerminalIn(o) == authTerminal && Elicits(o, "form") == form && Elicits(o, "url") == url
  {
    var o := Overlay(m, authTerminal, form, url);
    var e := Elicitation(form, url);
    assert Find(o, "auth") == if authTerminal then Just(AUTH_TERMINAL) else Nothing;
    assert Find(o, "elicitation") == if form || url then Just(JObj(e)) else Nothing;
    assert Find(e, "form") == Flag(form) && Find(e, "url") == Flag(url);
  }
}
