/** Encode, decode, encode again: exactly when the second JSON is the first, and
    what two values with one encoding have in common. */
module Reencoding {
  import opened JsonTree
  import opened AuthMethods
  import opened ClientSessions
  import opened Universe
  import opened RoundTrip
  import opened Members
  import opened Theorems

  // ------------------------------------------------------------- tidy values

  /** A `_meta` that is read back as it was written: an object, or nothing. */
  predicate TidyMeta(j: Json) {
    j.JObj? || Empty(j)
  }

  /** What v writes has only tidy `_meta` members and no optional null. Members
      that are not written, such as the options of a boolean option, may be
      anything. */
  predicate Tidy(s: Schema, v: Val)
    decreases s, 0
  {
    HasType(s, v) &&
    match s
    case SList(e) => TidyAll(e, v.items)
    case SRec(fs) => TidyFields(fs, v.fields)
    case STagged(_, arms) => TidyArm(arms, v.arm, v.v)
    case SEmbedded(text, blob) => if v.arm == 0 then Tidy(text, v.v) else Tidy(blob, v.v)
    case SMcpServer(stdio, http, sse) =>
      if v.arm == 0 then Tidy(stdio, v.v) else if v.arm == 1 then Tidy(http, v.v) else Tidy(sse, v.v)
    case SCommandInput(u) => Tidy(u, v.v)
    case SSelect(option, group) => if v.arm == 0 then TidyAll(option, v.v.items) else TidyAll(group, v.v.items)
    case SConfig(options) =>
      TidyMeta(v.option.meta) && (v.option.IsBoolean() || Tidy(options, v.option.options))
    case SAuth => TidyMeta(v.method_.meta)
    case SClientSession => TidyMeta(v.session.meta)
    case SClientCaps(base) => TidyFields(base, v.base)
    case _ => true
  }

  predicate TidyAll(s: Schema, vs: seq<Val>)
    decreases s, 1
  {
    forall i | 0 <= i < |vs| :: Tidy(s, vs[i])
  }

  predicate TidyField(kind: Kind, s: Schema, v: Val)
    decreases s, 1
  {
    match kind
    case Required => Tidy(s, v)
    case Defaulted(_) => Tidy(s, v)
    case Optional => v.VJust? ==> Tidy(s, v.v) && v.v != VJson(JNull)
    case Meta => v.VJson? && TidyMeta(v.j)
  }

  predicate TidyFields(fs: Fields, vs: Vals)
    decreases fs, 0
  {
    fs.Field? && vs.Cons? ==> TidyField(fs.kind, fs.schema, vs.head) && TidyFields(fs.rest, vs.tail)
  }

  predicate TidyArm(arms: Arms, i: nat, v: Val)
    decreases arms, 0
  {
    arms.Arm? ==> if i == 0 then Tidy(arms.schema, v) else TidyArm(arms.rest, i - 1, v)
  }

  // ---------------------------------------------------- members are independent

  /** Objects that each get one new member agree exactly when they agreed before
      and the members do. */
  lemma PutAgrees(m: Object, n: Object, key: string, x: Maybe<Json>, y: Maybe<Json>)
    requires key !in m && key !in n
    ensures Put(m, key, x) == Put(n, key, y) <==> m == n && x == y
  {
    var p, q := Put(m, key, x), Put(n, key, y);
    if p == q {
      assert Find(p, key) == x && Find(q, key) == y;
      assert m.Keys == p.Keys - {key} && n.Keys == q.Keys - {key};
      forall k | k in m ensures m[k] == n[k] {
        assert Find(p, k) == Find(m, k) && Find(q, k) == Find(n, k);
      }
    }
  }

  lemma TagAgrees(a: Json, b: Json, key: string, x: Json)
    requires LeavesFree(key, a) && LeavesFree(key, b)
    ensures WithKey(a, key, x) == WithKey(b, key, x) <==> a == b
  {
    PutAgrees(a.fields, b.fields, key, Just(x), Just(x));
  }

  lemma MetaAgrees(j: Json)
    ensures WrittenMeta(MetaOf(j)) == WrittenMeta(j) <==> TidyMeta(j)
  {
  }

  // ------------------------------------------------------- the exact condition

  /** A decoded encoding encodes to the same JSON exactly when the value was
      tidy. */
  lemma {:induction false} ReencodesAlike(s: Schema, v: Val)
    requires WellFormed(s) && HasType(s, v)
    ensures Enc(s, Norm(s, v)) == Enc(s, v) <==> Tidy(s, v)
    decreases s, 1
  {
    NormHasType(s, v);
    match s
    case SList(e) => AllReencodeAlike(e, v.items);
    case SRec(fs) => FieldsReencodeAlike(fs, v.fields);
    case STagged(key, arms) => ArmReencodesAlike(key, arms, v.arm, v.v);
    case SEmbedded(_, _) => ReencodesAlike(Chosen(s, v.arm), v.v);
    case SMcpServer(_, _, _) => ServerReencodesAlike(s, v);
    case SCommandInput(_) => ReencodesAlike(Chosen(s, v.arm), v.v);
    case SSelect(_, _) => SelectReencodesAlike(s, v);
    case SConfig(_) => ConfigReencodesAlike(s, v);
    case SAuth => AuthReencodesAlike(v.method_);
    case SClientSession => SessionReencodesAlike(v.session);
    case SClientCaps(base) => CapsReencodeAlike(base, v);
    case _ =>
  }

  lemma {:induction false} AllReencodeAlike(s: Schema, vs: seq<Val>)
    requires WellFormed(s) && HasTypes(s, vs)
    ensures EncAll(s, NormAll(s, vs)) == EncAll(s, vs) <==> TidyAll(s, vs)
    decreases s, 2
  {
    hide Enc, Norm, Tidy, HasType, WellFormed;
    forall i | 0 <= i < |vs| ensures EncAll(s, NormAll(s, vs))[i] == EncAll(s, vs)[i] <==> Tidy(s, vs[i]) {
      ReencodesAlike(s, vs[i]);
    }
  }

  lemma {:induction false} FieldReencodesAlike(kind: Kind, s: Schema, v: Val)
    requires WellFormed(s) && HasField(kind, s, v)
    ensures EncField(kind, s, NormField(kind, s, v)) == EncField(kind, s, v) <==> TidyField(kind, s, v)
    decreases s, 2
  {
    hide Enc, Norm, Tidy, HasType, WellFormed;
    match kind
    case Optional =>
      if v.VJust? {
        NeverNull(s, v.v);
        ReencodesAlike(s, v.v);
      }
    case Meta => MetaAgrees(v.j);
    case _ => ReencodesAlike(s, v);
  }

  lemma {:induction false} FieldsReencodeAlike(fs: Fields, vs: Vals)
    requires WellFormedFields(fs) && HasFields(fs, vs)
    ensures EncFields(fs, NormFields(fs, vs)) == EncFields(fs, vs) <==> TidyFields(fs, vs)
    decreases fs, 1
  {
    if fs.End? {
    } else {
      FieldReencodesAlike(fs.kind, fs.schema, vs.head);
      FieldsReencodeAlike(fs.rest, vs.tail);
      WritesNothingElse(fs.key, fs.rest, vs.tail);
      WritesNothingElse(fs.key, fs.rest, NormFields(fs.rest, vs.tail));
      hide EncField, EncFields, TidyField, HasField, HasFields, WellFormed, NormField;
      FieldsAgree(fs, vs);
    }
  }

  lemma FieldsAgree(fs: Fields, vs: Vals)
    requires fs.Field? && vs.Cons?
    requires var m, n := EncFields(fs.rest, NormFields(fs.rest, vs.tail)), EncFields(fs.rest, vs.tail);
             fs.key !in m && fs.key !in n
    ensures EncFields(fs, NormFields(fs, vs)) == EncFields(fs, vs)
       <==> && EncField(fs.kind, fs.schema, NormField(fs.kind, fs.schema, vs.head))
               == EncField(fs.kind, fs.schema, vs.head)
            && EncFields(fs.rest, NormFields(fs.rest, vs.tail)) == EncFields(fs.rest, vs.tail)
  {
    hide EncField, NormField;
    PutAgrees(EncFields(fs.rest, NormFields(fs.rest, vs.tail)), EncFields(fs.rest, vs.tail), fs.key,
              EncField(fs.kind, fs.schema, NormField(fs.kind, fs.schema, vs.head)),
              EncField(fs.kind, fs.schema, vs.head));
  }

  lemma {:induction false} ArmReencodesAlike(key: string, arms: Arms, i: nat, v: Val)
    requires WellFormedArms(key, arms) && HasArm(arms, i, v)
    ensures EncArm(key, arms, i, NormArm(arms, i, v)) == EncArm(key, arms, i, v) <==> TidyArm(arms, i, v)
    decreases arms, 1
  {
    if i == 0 {
      hide Enc, Norm, Tidy, HasType, WellFormed, ObjectWithout;
      ReencodesAlike(arms.schema, v);
      NormHasType(arms.schema, v);
      TagIsNotWritten(arms.schema, key, v);
      TagIsNotWritten(arms.schema, key, Norm(arms.schema, v));
      TagAgrees(Enc(arms.schema, Norm(arms.schema, v)), Enc(arms.schema, v), key, JStr(arms.tag));
    } else {
      ArmReencodesAlike(key, arms.rest, i - 1, v);
    }
  }

  lemma {:induction false} ServerReencodesAlike(s: Schema, v: Val)
    requires s.SMcpServer? && WellFormed(s) && HasType(s, v) && HasType(s, Norm(s, v))
    ensures Enc(s, Norm(s, v)) == Enc(s, v) <==> Tidy(s, v)
    decreases s, 0
  {
    var c := Chosen(s, v.arm);
    ReencodesAlike(c, v.v);
    assert ObjectWithout("type", c) && HasType(c, v.v) && HasType(c, Norm(c, v.v));
    TagIsNotWritten(c, "type", v.v);
    TagIsNotWritten(c, "type", Norm(c, v.v));
    TagAgrees(Enc(c, Norm(c, v.v)), Enc(c, v.v), "type", JStr(if v.arm == 1 then "http" else "sse"));
  }

  lemma {:induction false} SelectReencodesAlike(s: Schema, v: Val)
    requires s.SSelect? && WellFormed(s) && HasType(s, v) && HasType(s, Norm(s, v))
    ensures Enc(s, Norm(s, v)) == Enc(s, v) <==> Tidy(s, v)
    decreases s, 0
  {
    if v.arm == 0 {
      AllReencodeAlike(s.option, v.v.items);
    } else {
      AllReencodeAlike(s.group, v.v.items);
    }
  }

  lemma ConfigJsonAgrees(o: ConfigOption, n: ConfigOption, x: Json, y: Json)
    requires n.(options := o.options, meta := o.meta, currentValue := o.currentValue, currentBool := o.currentBool) == o
    requires WrittenValue(n) == WrittenValue(o)
    ensures ConfigJson(n, y) == ConfigJson(o, x)
       <==> (o.IsBoolean() || y == x) && WrittenMeta(n.meta) == WrittenMeta(o.meta)
  {
    ConfigJsonSpells(o, x);
    ConfigJsonSpells(n, y);
    hide ConfigJson, WrittenMeta;
    if (o.IsBoolean() || y == x) && WrittenMeta(n.meta) == WrittenMeta(o.meta) {
      ConfigJsonByParts(o, n, x, y);
    }
  }

  lemma ConfigJsonByParts(o: ConfigOption, n: ConfigOption, x: Json, y: Json)
    requires n.(options := o.options, meta := o.meta, currentValue := o.currentValue, currentBool := o.currentBool) == o
    requires WrittenValue(n) == WrittenValue(o) && WrittenOptions(n, y) == WrittenOptions(o, x)
    requires WrittenMeta(n.meta) == WrittenMeta(o.meta)
    ensures ConfigJson(n, y) == ConfigJson(o, x)
  {
    hide WrittenMeta, Put, WrittenValue, WrittenOptions;
  }

  lemma {:induction false} ConfigReencodesAlike(s: Schema, v: Val)
    requires s.SConfig? && WellFormed(s) && HasType(s, v) && HasType(s, Norm(s, v))
    ensures Enc(s, Norm(s, v)) == Enc(s, v) <==> Tidy(s, v)
    decreases s, 0
  {
    hide ConfigJson, WrittenMeta, TidyMeta, MetaOf;
    var o, n := v.option, Norm(s, v).option;
    ReencodesAlike(s.options, o.options);
    MetaAgrees(o.meta);
    ConfigJsonAgrees(o, n, Enc(s.options, o.options), Enc(s.options, n.options));
  }

  lemma AuthReencodesAlike(m: AuthMethod)
    ensures EncodeAuth(NormAuth(m)) == EncodeAuth(m) <==> TidyMeta(m.meta)
  {
    MetaAgrees(m.meta);
    AuthEncodesAlike(NormAuth(m), m);
  }

  lemma SessionReencodesAlike(c: ClientSession)
    ensures EncodeSession(NormSession(c)) == EncodeSession(c) <==> TidyMeta(c.meta)
  {
    MetaAgrees(c.meta);
    var j := Put(Put(map[], "compaction", Flag(c.compaction)), "notices", Flag(c.notices));
    var k := Put(j, "configOptions", BooleanConfig(c.booleanConfig));
    PutAgrees(k, k, "_meta", WrittenMeta(MetaOf(c.meta)), WrittenMeta(c.meta));
  }

  lemma OverlayAgrees(m: Object, n: Object, v: Val)
    requires v.VClientCaps?
    requires "auth" !in m && "auth" !in n && "elicitation" !in m && "elicitation" !in n
    ensures Overlay(m, v.authTerminal, v.elicitForm, v.elicitUrl)
         == Overlay(n, v.authTerminal, v.elicitForm, v.elicitUrl)
       <==> m == n
  {
    var x, y := AuthFlag(v.authTerminal), ElicitationFlag(v.elicitForm, v.elicitUrl);
    PutAgrees(m, n, "auth", x, x);
    PutAgrees(Put(m, "auth", x), Put(n, "auth", x), "elicitation", y, y);
  }

  lemma {:induction false} CapsReencodeAlike(base: Fields, v: Val)
    requires WellFormed(SClientCaps(base)) && HasType(SClientCaps(base), v)
    requires HasType(SClientCaps(base), Norm(SClientCaps(base), v))
    ensures Enc(SClientCaps(base), Norm(SClientCaps(base), v)) == Enc(SClientCaps(base), v)
       <==> Tidy(SClientCaps(base), v)
    decreases SClientCaps(base), 0
  {
    hide Overlay;
    var n := NormFields(base, v.base);
    FieldsReencodeAlike(base, v.base);
    WritesNothingElse("auth", base, v.base);
    WritesNothingElse("auth", base, n);
    WritesNothingElse("elicitation", base, v.base);
    WritesNothingElse("elicitation", base, n);
    OverlayAgrees(EncFields(base, n), EncFields(base, v.base), v);
  }

  // -------------------------------------------------------- what decoders give

  /** Plain values, and so all decoded ones, are tidy. */
  lemma {:induction false} PlainIsTidy(s: Schema, v: Val)
    requires Plain(s, v)
    ensures Tidy(s, v)
    decreases s, 1
  {
    match s
    case SList(e) => AllPlainTidy(e, v.items);
    case SRec(fs) => PlainFieldsTidy(fs, v.fields);
    case STagged(_, arms) => PlainArmTidy(arms, v.arm, v.v);
    case SEmbedded(_, _) => PlainIsTidy(Chosen(s, v.arm), v.v);
    case SMcpServer(_, _, _) => PlainIsTidy(Chosen(s, v.arm), v.v);
    case SCommandInput(_) => PlainIsTidy(Chosen(s, v.arm), v.v);
    case SSelect(option, group) =>
      if v.arm == 0 { AllPlainTidy(option, v.v.items); } else { AllPlainTidy(group, v.v.items); }
    case SConfig(options) => PlainIsTidy(options, v.option.options);
    case SClientCaps(base) => PlainFieldsTidy(base, v.base);
    case _ =>
  }

  lemma {:induction false} AllPlainTidy(s: Schema, vs: seq<Val>)
    requires PlainAll(s, vs)
    ensures TidyAll(s, vs)
    decreases s, 2
  {
    forall i | 0 <= i < |vs| ensures Tidy(s, vs[i]) {
      PlainIsTidy(s, vs[i]);
    }
  }

  lemma {:induction false} PlainFieldsTidy(fs: Fields, vs: Vals)
    requires HasFields(fs, vs) && PlainFields(fs, vs)
    ensures TidyFields(fs, vs)
    decreases fs, 1
  {
    if fs.End? {
    } else {
      var v := vs.head;
      if fs.kind.Optional? && v.VJust? {
        PlainIsTidy(fs.schema, v.v);
      } else if fs.kind.Required? || fs.kind.Defaulted? {
        PlainIsTidy(fs.schema, v);
      }
      PlainFieldsTidy(fs.rest, vs.tail);
    }
  }

  lemma {:induction false} PlainArmTidy(arms: Arms, i: nat, v: Val)
    requires HasArm(arms, i, v) && PlainArm(arms, i, v)
    ensures TidyArm(arms, i, v)
    decreases arms, 1
  {
    if i == 0 {
      PlainIsTidy(arms.schema, v);
    } else {
      PlainArmTidy(arms.rest, i - 1, v);
    }
  }

  // ------------------------------------------------------------ main results

  /** Re-encoding is a normaliser: whatever JSON a decoder accepts, encoding
      its result gives JSON that is accepted again and that a further decode
      and encode leave as it is. */
  lemma {:induction false} ReencodingIsStable(s: Schema, j: Json)
    requires WellFormed(s) && Dec(s, j).Ok?
    ensures var k := Enc(s, Dec(s, j).value);
            Dec(s, k).Ok? && Enc(s, Dec(s, k).value) == k
  {
    hide Enc, Dec, Norm, Tidy, HasType, WellFormed, Plain;
    var v := Dec(s, j).value;
    Decodes(s, j);
    PlainHasType(s, v);
    RoundTrips(s, v);
    PlainIsTidy(s, v);
    ReencodesAlike(s, v);
  }

  /** Values with one encoding have one normal form; for tidy values, and no
      other pair of a value and its normal form, the converse holds too. */
  lemma {:induction false} EncodingKernel(s: Schema, a: Val, b: Val)
    requires WellFormed(s) && HasType(s, a) && HasType(s, b)
    ensures Enc(s, a) == Enc(s, b) ==> Norm(s, a) == Norm(s, b)
    ensures Tidy(s, a) && Tidy(s, b) ==> (Enc(s, a) == Enc(s, b) <==> Norm(s, a) == Norm(s, b))
  {
    hide Enc, Dec, Norm, Tidy, HasType, WellFormed;
    RoundTrips(s, a);
    RoundTrips(s, b);
    ReencodesAlike(s, a);
    ReencodesAlike(s, b);
  }
}
