/** What follows from the round trip: decoders produce typed and plain values,
    one round trip settles a value, and nothing is lost exactly on canonical
    values. */
module Theorems {
  import opened JsonTree
  import opened Universe
  import opened RoundTrip

  // ------------------------------------------------------ decoders are sound

  /** A decoder only ever produces values of its own type, and plain ones. */
  lemma {:induction false} Decodes(s: Schema, j: Json)
    requires WellFormed(s) && Dec(s, j).Ok?
    ensures Plain(s, Dec(s, j).value)
    decreases s, 1
  {
    match s
    case SEnum(names) => IndexInRange(names, j.s);
    case SList(e) => AllDecode(e, j.items);
    case SRec(fs) => FieldsDecode(fs, j.fields);
    case STagged(key, arms) => ArmDecodes(key, arms, 0, j.fields[key].s, j);
    case SEmbedded(_, _) => UntaggedDecodes(s, j);
    case SMcpServer(_, _, _) => UntaggedDecodes(s, j);
    case SCommandInput(_) => UntaggedDecodes(s, j);
    case SSelect(_, _) => SelectDecodes(s, j);
    case SConfig(_) => ConfigDecodes(s, j);
    case SClientCaps(base) => FieldsDecode(base, j.fields);
    case _ =>
  }

  /** The record codec an untagged sum reads j with. */
  function Chosen(s: Schema, arm: nat): Schema
    requires s.SEmbedded? || s.SMcpServer? || s.SCommandInput?
  {
    match s
    case SEmbedded(text, blob) => if arm == 0 then text else blob
    case SMcpServer(stdio, http, sse) => if arm == 0 then stdio else if arm == 1 then http else sse
    case SCommandInput(u) => u
  }

  lemma {:induction false} UntaggedDecodes(s: Schema, j: Json)
    requires s.SEmbedded? || s.SMcpServer? || s.SCommandInput?
    requires WellFormed(s) && Dec(s, j).Ok?
    ensures Plain(s, Dec(s, j).value)
    decreases s, 0
  {
    var v := Dec(s, j).value;
    var c := Chosen(s, v.arm);
    assert c < s && WellFormed(c) && Dec(c, j) == Ok(v.v);
    Decodes(c, j);
  }

  lemma {:induction false} SelectDecodes(s: Schema, j: Json)
    requires s.SSelect? && WellFormed(s) && Dec(s, j).Ok?
    ensures Plain(s, Dec(s, j).value)
    decreases s, 0
  {
    if Dec(s, j).value.arm == 1 {
      AllDecode(s.group, j.items);
    } else {
      AllDecode(s.option, j.items);
    }
  }

  lemma {:induction false} ConfigDecodes(s: Schema, j: Json)
    requires s.SConfig? && WellFormed(s) && Dec(s, j).Ok?
    ensures Plain(s, Dec(s, j).value)
    decreases s, 0
  {
    if ConfigHead(j.fields).value.IsBoolean() {
      assert HasTypes(s.options.option, []) && PlainAll(s.options.option, []);
    } else {
      Decodes(s.options, j.fields["options"]);
    }
  }

  lemma IndexInRange(names: Names, wire: string)
    requires IndexOf(names, wire).Ok?
    ensures IndexOf(names, wire).value < Count(names)
  {
  }

  lemma {:induction false} AllDecode(s: Schema, js: seq<Json>)
    requires WellFormed(s) && DecAll(s, js).Ok?
    ensures HasTypes(s, DecAll(s, js).value) && PlainAll(s, DecAll(s, js).value)
    decreases s, 2
  {
    var vs := DecAll(s, js).value;
    forall i | 0 <= i < |vs| ensures HasType(s, vs[i]) && Plain(s, vs[i]) {
      Decodes(s, js[i]);
    }
  }

  lemma PlainHasType(s: Schema, v: Val)
    requires Plain(s, v)
    ensures HasType(s, v)
  {
  }

  lemma {:induction false} FieldDecodes(kind: Kind, s: Schema, j: Maybe<Json>)
    requires WellFormed(s) && DecField(kind, s, j).Ok?
    requires kind.Defaulted? ==> Plain(s, kind.fallback)
    ensures HasField(kind, s, DecField(kind, s, j).value) && PlainField(kind, s, DecField(kind, s, j).value)
    decreases s, 2
  {
    hide Enc, Dec, Norm, HasType, WellFormed, Plain;
    if kind.Defaulted? {
      PlainHasType(s, kind.fallback);
    }
    if !kind.Meta? && j.Just? && Dec(s, j.value).Ok? {
      Decodes(s, j.value);
      PlainHasType(s, Dec(s, j.value).value);
      DecodesToNull(s, j.value);
    }
  }

  lemma DecodesToNull(s: Schema, j: Json)
    ensures Dec(s, j) == Ok(VJson(JNull)) ==> j == JNull
  {
    if s.STagged? && j.JObj? && StringAt(j.fields, s.key).Ok? {
      ArmIsASum(s.arms, 0, j.fields[s.key].s, j);
    }
  }

  lemma {:induction false} ArmIsASum(arms: Arms, n: nat, tag: string, j: Json)
    ensures var r := DecArm(arms, n, tag, j); r.Ok? ==> r.value.VSum?
  {
    if arms.Arm? && arms.tag != tag {
      ArmIsASum(arms.rest, n + 1, tag, j);
    }
  }

  lemma {:induction false} FieldsDecode(fs: Fields, m: Object)
    requires WellFormedFields(fs) && DecFields(fs, m).Ok?
    ensures HasFields(fs, DecFields(fs, m).value) && PlainFields(fs, DecFields(fs, m).value)
    decreases fs, 1
  {
    if fs.End? {
    } else {
      FieldDecodes(fs.kind, fs.schema, Find(m, fs.key));
      FieldsDecode(fs.rest, m);
    }
  }

  lemma {:induction false} ArmDecodes(key: string, arms: Arms, n: nat, tag: string, j: Json)
    requires WellFormedArms(key, arms) && DecArm(arms, n, tag, j).Ok?
    ensures var v := DecArm(arms, n, tag, j).value;
            v.VSum? && n <= v.arm && HasArm(arms, v.arm - n, v.v) && PlainArm(arms, v.arm - n, v.v)
    decreases arms, 1
  {
    if arms.tag == tag {
      Decodes(arms.schema, j);
    } else {
      ArmDecodes(key, arms.rest, n + 1, tag, j);
    }
  }

  /** A value keeps its type in normal form. */
  lemma NormHasType(s: Schema, v: Val)
    requires WellFormed(s) && HasType(s, v)
    ensures HasType(s, Norm(s, v)) && Plain(s, Norm(s, v))
  {
    RoundTrips(s, v);
    Decodes(s, Enc(s, v));
  }

  /** Only raw JSON can encode to null. */
  lemma NeverNull(s: Schema, v: Val)
    requires WellFormed(s) && HasType(s, v)
    ensures Enc(s, v) == JNull <==> v == VJson(JNull)
  {
    match s
    case STagged(key, arms) => ArmRoundTrips(key, arms, 0, v.arm, v.v);
    case SEmbedded(_, _) => assert HasType(Chosen(s, v.arm), v.v);
    case SMcpServer(_, _, _) => assert HasType(Chosen(s, v.arm), v.v);
    case SCommandInput(_) => assert HasType(Chosen(s, v.arm), v.v);
    case _ =>
  }

  // ------------------------------------------------- canonical values survive

  /** A normal form says nothing its encoding cannot carry. */
  lemma {:induction false} NormIsCanonical(s: Schema, v: Val)
    requires WellFormed(s) && HasType(s, v)
    ensures Canonical(s, Norm(s, v))
    decreases s, 1
  {
    NormHasType(s, v);
    match s
    case SList(e) => AllNormCanonical(e, v.items);
    case SRec(fs) => FieldsNormCanonical(fs, v.fields);
    case STagged(key, arms) => ArmNormCanonical(key, arms, v.arm, v.v);
    case SEmbedded(_, _) => NormIsCanonical(Chosen(s, v.arm), v.v);
    case SMcpServer(_, _, _) => NormIsCanonical(Chosen(s, v.arm), v.v);
    case SCommandInput(_) => NormIsCanonical(Chosen(s, v.arm), v.v);
    case SSelect(_, _) => SelectNormCanonical(s, v);
    case SConfig(_) => NormIsCanonical(s.options, v.option.options);
    case SClientCaps(base) => FieldsNormCanonical(base, v.base);
    case _ =>
  }

  lemma {:induction false} AllNormCanonical(s: Schema, vs: seq<Val>)
    requires WellFormed(s) && HasTypes(s, vs)
    ensures CanonicalAll(s, NormAll(s, vs))
    decreases s, 2
  {
    forall i | 0 <= i < |vs| ensures Canonical(s, NormAll(s, vs)[i]) {
      NormIsCanonical(s, vs[i]);
    }
  }

  lemma {:induction false} FieldsNormCanonical(fs: Fields, vs: Vals)
    requires WellFormedFields(fs) && HasFields(fs, vs)
    ensures CanonicalFields(fs, NormFields(fs, vs))
    decreases fs, 1
  {
    if fs.End? {
    } else {
      FieldNormCanonical(fs.kind, fs.schema, vs.head);
      FieldsNormCanonical(fs.rest, vs.tail);
    }
  }

  lemma {:induction false} FieldNormCanonical(kind: Kind, s: Schema, v: Val)
    requires WellFormed(s) && HasField(kind, s, v)
    ensures CanonicalField(kind, s, NormField(kind, s, v))
    decreases s, 2
  {
    hide Enc, Dec, Norm, HasType, WellFormed, Canonical;
    match kind
    case Optional =>
      if v.VJust? {
        NeverNull(s, v.v);
        NormIsCanonical(s, v.v);
        RoundTrips(s, v.v);
        DecodesToNull(s, Enc(s, v.v));
      }
    case Meta =>
    case _ => NormIsCanonical(s, v);
  }

  lemma {:induction false} ArmNormCanonical(key: string, arms: Arms, i: nat, v: Val)
    requires WellFormedArms(key, arms) && HasArm(arms, i, v)
    ensures CanonicalArm(arms, i, NormArm(arms, i, v))
    decreases arms, 1
  {
    if i == 0 {
      NormIsCanonical(arms.schema, v);
    } else {
      ArmNormCanonical(key, arms.rest, i - 1, v);
    }
  }

  lemma {:induction false} SelectNormCanonical(s: Schema, v: Val)
    requires s.SSelect? && WellFormed(s) && HasType(s, v) && HasType(s, Norm(s, v))
    ensures Canonical(s, Norm(s, v))
    decreases s, 0
  {
    if v.arm == 0 {
      AllNormCanonical(s.option, v.v.items);
    } else {
      AllNormCanonical(s.group, v.v.items);
    }
  }

  /** Canonical values are their own normal form. */
  lemma {:induction false} CanonicalIsFixed(s: Schema, v: Val)
    requires WellFormed(s) && Canonical(s, v)
    ensures Norm(s, v) == v
    decreases s, 1
  {
    match s
    case SList(e) => AllCanonicalFixed(e, v.items);
    case SRec(fs) => FieldsCanonicalFixed(fs, v.fields);
    case STagged(key, arms) => ArmCanonicalFixed(key, arms, v.arm, v.v);
    case SEmbedded(_, _) => CanonicalIsFixed(Chosen(s, v.arm), v.v);
    case SMcpServer(_, _, _) => CanonicalIsFixed(Chosen(s, v.arm), v.v);
    case SCommandInput(_) => CanonicalIsFixed(Chosen(s, v.arm), v.v);
    case SSelect(option, group) =>
      if v.arm == 0 {
        AllCanonicalFixed(option, v.v.items);
      } else {
        AllCanonicalFixed(group, v.v.items);
      }
    case SConfig(options) => if !v.option.IsBoolean() { CanonicalIsFixed(options, v.option.options); }
    case SClientCaps(base) => FieldsCanonicalFixed(base, v.base);
    case _ =>
  }

  lemma {:induction false} AllCanonicalFixed(s: Schema, vs: seq<Val>)
    requires WellFormed(s) && CanonicalAll(s, vs)
    ensures NormAll(s, vs) == vs
    decreases s, 2
  {
    forall i | 0 <= i < |vs| ensures NormAll(s, vs)[i] == vs[i] {
      CanonicalIsFixed(s, vs[i]);
    }
  }

  lemma {:induction false} FieldsCanonicalFixed(fs: Fields, vs: Vals)
    requires WellFormedFields(fs) && HasFields(fs, vs) && CanonicalFields(fs, vs)
    ensures NormFields(fs, vs) == vs
    decreases fs, 1
  {
    if fs.End? {
    } else {
      var v := vs.head;
      if fs.kind.Optional? && v.VJust? {
        NeverNull(fs.schema, v.v);
        CanonicalIsFixed(fs.schema, v.v);
      } else if fs.kind.Required? || fs.kind.Defaulted? {
        CanonicalIsFixed(fs.schema, v);
      }
      FieldsCanonicalFixed(fs.rest, vs.tail);
    }
  }

  lemma {:induction false} ArmCanonicalFixed(key: string, arms: Arms, i: nat, v: Val)
    requires WellFormedArms(key, arms) && HasArm(arms, i, v) && CanonicalArm(arms, i, v)
    ensures NormArm(arms, i, v) == v
    decreases arms, 1
  {
    if i == 0 {
      CanonicalIsFixed(arms.schema, v);
    } else {
      ArmCanonicalFixed(key, arms.rest, i - 1, v);
    }
  }

  // ------------------------------------------------------------ main results

  /** Nothing is lost exactly on canonical values. */
  lemma {:induction false} SurvivesIffCanonical(s: Schema, v: Val)
    requires WellFormed(s) && HasType(s, v)
    ensures Dec(s, Enc(s, v)) == Ok(v) <==> Canonical(s, v)
  {
    RoundTrips(s, v);
    NormIsCanonical(s, v);
    if Canonical(s, v) {
      CanonicalIsFixed(s, v);
    }
  }

  /** One round trip settles every value: a second one changes nothing. */
  lemma {:induction false} SecondTripIsIdentity(s: Schema, v: Val)
    requires WellFormed(s) && HasType(s, v)
    ensures Norm(s, Norm(s, v)) == Norm(s, v)
    ensures Dec(s, Enc(s, Norm(s, v))) == Ok(Norm(s, v))
  {
    NormIsCanonical(s, v);
    CanonicalIsFixed(s, Norm(s, v));
    NormHasType(s, v);
    RoundTrips(s, Norm(s, v));
  }

  // ------------------------------------------------------- rigid declarations

  /** Where no codec forgets fields of its own, plain values lose nothing. */
  lemma {:induction false} RigidKeepsPlain(s: Schema, v: Val)
    requires Rigid(s) && Plain(s, v)
    ensures Canonical(s, v)
    decreases s, 1
  {
    match s
    case SList(e) => forall i | 0 <= i < |v.items| ensures Canonical(e, v.items[i]) { RigidKeepsPlain(e, v.items[i]); }
    case SRec(fs) => RigidFieldsKeepPlain(fs, v.fields);
    case STagged(_, arms) => RigidArmsKeepPlain(arms, v.arm, v.v);
    case SEmbedded(_, _) => RigidKeepsPlain(Chosen(s, v.arm), v.v);
    case SMcpServer(_, _, _) => RigidKeepsPlain(Chosen(s, v.arm), v.v);
    case SCommandInput(_) => RigidKeepsPlain(Chosen(s, v.arm), v.v);
    case SClientCaps(base) => RigidFieldsKeepPlain(base, v.base);
    case _ =>
  }

  lemma {:induction false} RigidFieldsKeepPlain(fs: Fields, vs: Vals)
    requires RigidFields(fs) && HasFields(fs, vs) && PlainFields(fs, vs)
    ensures CanonicalFields(fs, vs)
    decreases fs, 1
  {
    if fs.End? {
    } else {
      var v := vs.head;
      if fs.kind.Optional? && v.VJust? {
        RigidKeepsPlain(fs.schema, v.v);
      } else if fs.kind.Required? || fs.kind.Defaulted? {
        RigidKeepsPlain(fs.schema, v);
      }
      RigidFieldsKeepPlain(fs.rest, vs.tail);
    }
  }

  lemma {:induction false} RigidArmsKeepPlain(arms: Arms, i: nat, v: Val)
    requires RigidArms(arms) && HasArm(arms, i, v) && PlainArm(arms, i, v)
    ensures CanonicalArm(arms, i, v)
    decreases arms, 1
  {
    if i == 0 {
      RigidKeepsPlain(arms.schema, v);
    } else {
      RigidArmsKeepPlain(arms.rest, i - 1, v);
    }
  }
}
