/** The capability lattice of include/acp/caps.hpp, as an order.

    "Presence means supported": offering more is adding members, or turning a
    false into a true. Encoding is an order embedding of capability values into
    JSON, and decoding is monotone on whatever JSON it accepts. */
module CapsOrder {
  import opened JsonTree
  import opened ClientSessions
  import opened Universe
  import opened RoundTrip
  import opened Theorems
  import opened Reencoding
  import opened Caps

  // ----------------------------------------------------------- order on JSON

  /** a offers no more than b: members may be added, false may become true,
      everything else is equal. */
  predicate Below(a: Json, b: Json) {
    match (a, b)
    case (JBool(x), JBool(y)) => x ==> y
    case (JObj(m), JObj(n)) => forall k | k in m :: k in n && Below(m[k], n[k])
    case _ => a == b
  }

  predicate MaybeBelow(a: Maybe<Json>, b: Maybe<Json>) {
    a.Just? ==> b.Just? && Below(a.value, b.value)
  }

  lemma {:induction false} BelowReflexive(a: Json)
    ensures Below(a, a)
  {
    if a.JObj? {
      forall k | k in a.fields ensures Below(a.fields[k], a.fields[k]) {
        BelowReflexive(a.fields[k]);
      }
    }
  }

  lemma {:induction false} BelowTransitive(a: Json, b: Json, c: Json)
    requires Below(a, b) && Below(b, c)
    ensures Below(a, c)
  {
    if a.JObj? && b.JObj? && c.JObj? {
      forall k | k in a.fields ensures k in c.fields && Below(a.fields[k], c.fields[k]) {
        BelowTransitive(a.fields[k], b.fields[k], c.fields[k]);
      }
    }
  }

  lemma {:induction false} BelowAntisymmetric(a: Json, b: Json)
    requires Below(a, b) && Below(b, a)
    ensures a == b
  {
    if a.JObj? && b.JObj? {
      assert a.fields.Keys == b.fields.Keys;
      forall k | k in a.fields ensures a.fields[k] == b.fields[k] {
        BelowAntisymmetric(a.fields[k], b.fields[k]);
      }
      assert a.fields == b.fields;
    }
  }

  /** The order in plain words: true is strictly above false, an object with one
      more member is strictly above the one without, and among other values there
      is no order but equality. */
  lemma WhatIsAbove(m: Object, key: string, x: Json, a: Json, b: Json)
    ensures Below(JBool(false), JBool(true)) && !Below(JBool(true), JBool(false))
    ensures key !in m ==> Below(JObj(m), JObj(m[key := x])) && !Below(JObj(m[key := x]), JObj(m))
    ensures (!a.JBool? && !a.JObj?) || (!b.JBool? && !b.JObj?) ==> (Below(a, b) <==> a == b)
  {
    if key !in m {
      forall k | k in m ensures Below(m[k], m[key := x][k]) { BelowReflexive(m[k]); }
    }
  }

  // -------------------------------------------------- capability declarations

  /** Built from flags and presence alone, with defaults that offer nothing. */
  predicate Capability(s: Schema)
    decreases s
  {
    match s
    case SBool => true
    case SUnit => true
    case SClientSession => true
    case SRec(fs) => CapabilityFields(fs)
    case SClientCaps(base) => CapabilityFields(base)
    case _ => false
  }

  predicate CapabilityFields(fs: Fields)
    decreases fs
  {
    fs.Field? ==>
      && (fs.kind.Meta? || Capability(fs.schema))
      && (fs.kind.Defaulted? ==> Bottom(fs.schema, fs.kind.fallback))
      && CapabilityFields(fs.rest)
  }

  /** v offers nothing. */
  predicate Bottom(s: Schema, v: Val)
    decreases s, 0
  {
    match s
    case SBool => v == VBool(false)
    case SUnit => v == VUnit
    case SClientSession => v == VClientSession(SILENT)
    case SRec(fs) => v.VRec? && BottomFields(fs, v.fields)
    case SClientCaps(base) =>
      v.VClientCaps? && BottomFields(base, v.base) && !v.authTerminal && !v.elicitForm && !v.elicitUrl
    case _ => false
  }

  predicate BottomFields(fs: Fields, vs: Vals)
    decreases fs, 0
  {
    fs.Field? ==>
      && vs.Cons?
      && (match fs.kind
          case Required => Bottom(fs.schema, vs.head)
          case Defaulted(_) => Bottom(fs.schema, vs.head)
          case Optional => vs.head == VNothing
          case Meta => vs.head == VJson(EMPTY_OBJECT))
      && BottomFields(fs.rest, vs.tail)
  }

  /** A `_meta` that says nothing is below every other. */
  predicate MetaLe(a: Json, b: Json) {
    Empty(a) || Below(a, b)
  }

  /** a offers no more than b. */
  predicate Le(s: Schema, a: Val, b: Val)
    decreases s, 0
  {
    HasType(s, a) && HasType(s, b) &&
    match s
    case SBool => a.b ==> b.b
    case SUnit => true
    case SClientSession =>
      && (a.session.compaction ==> b.session.compaction)
      && (a.session.notices ==> b.session.notices)
      && (a.session.booleanConfig ==> b.session.booleanConfig)
      && MetaLe(a.session.meta, b.session.meta)
    case SRec(fs) => LeFields(fs, a.fields, b.fields)
    case SClientCaps(base) =>
      && LeFields(base, a.base, b.base)
      && (a.authTerminal ==> b.authTerminal)
      && (a.elicitForm ==> b.elicitForm)
      && (a.elicitUrl ==> b.elicitUrl)
    case _ => a == b
  }

  predicate LeField(kind: Kind, s: Schema, a: Val, b: Val)
    decreases s, 1
  {
    match kind
    case Required => Le(s, a, b)
    case Defaulted(_) => Le(s, a, b)
    case Optional => a.VJust? ==> b.VJust? && Le(s, a.v, b.v)
    case Meta => a.VJson? && b.VJson? && MetaLe(a.j, b.j)
  }

  predicate LeFields(fs: Fields, a: Vals, b: Vals)
    decreases fs, 0
  {
    fs.Field? ==>
      a.Cons? && b.Cons? && LeField(fs.kind, fs.schema, a.head, b.head) && LeFields(fs.rest, a.tail, b.tail)
  }

  // --------------------------------------------------------- order embedding

  lemma PutBelow(m: Object, n: Object, key: string, x: Maybe<Json>, y: Maybe<Json>)
    requires key !in m && key !in n
    ensures Below(JObj(Put(m, key, x)), JObj(Put(n, key, y)))
       <==> Below(JObj(m), JObj(n)) && MaybeBelow(x, y)
  {
    var p, q := Put(m, key, x), Put(n, key, y);
    assert Find(p, key) == x && Find(q, key) == y;
    assert forall k | k != key :: Find(p, k) == Find(m, k) && Find(q, k) == Find(n, k);
    assert forall k :: k in p <==> Find(p, k).Just?;
    assert forall k :: k in q <==> Find(q, k).Just?;
    if Below(JObj(p), JObj(q)) {
      forall k | k in m ensures k in n && Below(m[k], n[k]) {
        assert Find(p, k) == Find(m, k) && k in p;
        assert Find(q, k) == Find(n, k);
      }
    }
    if Below(JObj(m), JObj(n)) && MaybeBelow(x, y) {
      forall k | k in p ensures k in q && Below(p[k], q[k]) {
        if k != key {
          assert Find(p, k) == Find(m, k) && k in m;
          assert Find(q, k) == Find(n, k);
        }
      }
    }
  }

  /** Encoding neither adds nor loses any comparison between two offers. */
  lemma {:induction false} EncodingEmbeds(s: Schema, a: Val, b: Val)
    requires WellFormed(s) && Capability(s) && HasType(s, a) && HasType(s, b)
    ensures Le(s, a, b) <==> Below(Enc(s, a), Enc(s, b))
    decreases s, 1
  {
    match s
    case SRec(fs) => FieldsEmbed(fs, a.fields, b.fields);
    case SClientSession => SessionEmbeds(a.session, b.session);
    case SClientCaps(base) => CapsEmbed(base, a, b);
    case _ =>
  }

  lemma FlagBelow(x: bool, y: bool)
    ensures MaybeBelow(Flag(x), Flag(y)) <==> (x ==> y)
  {
    BelowReflexive(EMPTY_OBJECT);
  }

  lemma MetaBelow(a: Json, b: Json)
    ensures MaybeBelow(WrittenMeta(a), WrittenMeta(b)) <==> MetaLe(a, b)
  {
  }

  lemma {:induction false} SessionEmbeds(a: ClientSession, b: ClientSession)
    ensures Below(EncodeSession(a), EncodeSession(b))
       <==> && (a.compaction ==> b.compaction) && (a.notices ==> b.notices)
            && (a.booleanConfig ==> b.booleanConfig) && MetaLe(a.meta, b.meta)
  {
    var m1, n1 := Put(map[], "compaction", Flag(a.compaction)), Put(map[], "compaction", Flag(b.compaction));
    var m2, n2 := Put(m1, "notices", Flag(a.notices)), Put(n1, "notices", Flag(b.notices));
    var c, d := BooleanConfig(a.booleanConfig), BooleanConfig(b.booleanConfig);
    var m3, n3 := Put(m2, "configOptions", c), Put(n2, "configOptions", d);
    PutBelow(map[], map[], "compaction", Flag(a.compaction), Flag(b.compaction));
    PutBelow(m1, n1, "notices", Flag(a.notices), Flag(b.notices));
    PutBelow(m2, n2, "configOptions", c, d);
    PutBelow(m3, n3, "_meta", WrittenMeta(a.meta), WrittenMeta(b.meta));
    FlagBelow(a.compaction, b.compaction);
    FlagBelow(a.notices, b.notices);
    BelowReflexive(BOOLEAN_CONFIG);
    MetaBelow(a.meta, b.meta);
  }

  lemma MetaFieldEmbeds(s: Schema, a: Val, b: Val)
    requires HasField(Meta, s, a) && HasField(Meta, s, b)
    ensures LeField(Meta, s, a, b) <==> MaybeBelow(EncField(Meta, s, a), EncField(Meta, s, b))
  {
    MetaBelow(a.j, b.j);
  }

  lemma {:induction false} OptionalEmbeds(s: Schema, a: Val, b: Val)
    requires WellFormed(s) && Capability(s)
    requires HasField(Optional, s, a) && HasField(Optional, s, b)
    ensures LeField(Optional, s, a, b) <==> MaybeBelow(EncField(Optional, s, a), EncField(Optional, s, b))
    decreases s, 2
  {
    hide Enc, Le, HasType, WellFormed, Capability, Below;
    if a.VJust? && b.VJust? {
      EncodingEmbeds(s, a.v, b.v);
    }
  }

  lemma {:induction false} FieldEmbeds(kind: Kind, s: Schema, a: Val, b: Val)
    requires WellFormed(s) && (kind.Meta? || Capability(s))
    requires HasField(kind, s, a) && HasField(kind, s, b)
    ensures LeField(kind, s, a, b) <==> MaybeBelow(EncField(kind, s, a), EncField(kind, s, b))
    decreases s, 3
  {
    hide Enc, Le, HasType, WellFormed, Capability, Below;
    match kind
    case Meta => MetaFieldEmbeds(s, a, b);
    case Optional => OptionalEmbeds(s, a, b);
    case _ => EncodingEmbeds(s, a, b);
  }

  lemma {:induction false} FieldsEmbed(fs: Fields, a: Vals, b: Vals)
    requires WellFormedFields(fs) && CapabilityFields(fs)
    requires HasFields(fs, a) && HasFields(fs, b)
    ensures LeFields(fs, a, b) <==> Below(JObj(EncFields(fs, a)), JObj(EncFields(fs, b)))
    decreases fs, 1
  {
    if fs.End? {
    } else {
      FieldEmbeds(fs.kind, fs.schema, a.head, b.head);
      FieldsEmbed(fs.rest, a.tail, b.tail);
      WritesNothingElse(fs.key, fs.rest, a.tail);
      WritesNothingElse(fs.key, fs.rest, b.tail);
      PutBelow(EncFields(fs.rest, a.tail), EncFields(fs.rest, b.tail), fs.key,
               EncField(fs.kind, fs.schema, a.head), EncField(fs.kind, fs.schema, b.head));
    }
  }

  lemma ElicitationBelow(f: bool, u: bool, g: bool, w: bool)
    ensures MaybeBelow(ElicitationFlag(f, u), ElicitationFlag(g, w)) <==> (f ==> g) && (u ==> w)
  {
    PutBelow(map[], map[], "form", Flag(f), Flag(g));
    PutBelow(Put(map[], "form", Flag(f)), Put(map[], "form", Flag(g)), "url", Flag(u), Flag(w));
    FlagBelow(f, g);
    FlagBelow(u, w);
  }

  lemma {:induction false} CapsEmbed(base: Fields, a: Val, b: Val)
    requires WellFormed(SClientCaps(base)) && CapabilityFields(base)
    requires HasType(SClientCaps(base), a) && HasType(SClientCaps(base), b)
    ensures Le(SClientCaps(base), a, b) <==> Below(Enc(SClientCaps(base), a), Enc(SClientCaps(base), b))
    decreases SClientCaps(base), 0
  {
    var m, n := EncFields(base, a.base), EncFields(base, b.base);
    FieldsEmbed(base, a.base, b.base);
    WritesNothingElse("auth", base, a.base);
    WritesNothingElse("auth", base, b.base);
    WritesNothingElse("elicitation", base, a.base);
    WritesNothingElse("elicitation", base, b.base);
    OverlayBelow(m, n, a, b);
  }

  lemma OverlayBelow(m: Object, n: Object, a: Val, b: Val)
    requires a.VClientCaps? && b.VClientCaps?
    requires "auth" !in m && "auth" !in n && "elicitation" !in m && "elicitation" !in n
    ensures Below(JObj(Overlay(m, a.authTerminal, a.elicitForm, a.elicitUrl)),
                  JObj(Overlay(n, b.authTerminal, b.elicitForm, b.elicitUrl)))
       <==> && Below(JObj(m), JObj(n)) && (a.authTerminal ==> b.authTerminal)
            && (a.elicitForm ==> b.elicitForm) && (a.elicitUrl ==> b.elicitUrl)
  {
    var x, y := AuthFlag(a.authTerminal), AuthFlag(b.authTerminal);
    PutBelow(m, n, "auth", x, y);
    PutBelow(Put(m, "auth", x), Put(n, "auth", y), "elicitation",
             ElicitationFlag(a.elicitForm, a.elicitUrl), ElicitationFlag(b.elicitForm, b.elicitUrl));
    BelowReflexive(AUTH_TERMINAL);
    ElicitationBelow(a.elicitForm, a.elicitUrl, b.elicitForm, b.elicitUrl);
  }

  // ------------------------------------------------------- decoders are monotone

  lemma {:induction false} BottomIsLeast(s: Schema, a: Val, b: Val)
    requires Capability(s) && Bottom(s, a) && HasType(s, a) && HasType(s, b)
    ensures Le(s, a, b)
    decreases s, 1
  {
    match s
    case SRec(fs) => BottomFieldsLeast(fs, a.fields, b.fields);
    case SClientCaps(base) => BottomFieldsLeast(base, a.base, b.base);
    case _ =>
  }

  lemma {:induction false} BottomFieldsLeast(fs: Fields, a: Vals, b: Vals)
    requires CapabilityFields(fs) && BottomFields(fs, a)
    requires HasFields(fs, a) && HasFields(fs, b)
    ensures LeFields(fs, a, b)
    decreases fs, 1
  {
    if fs.End? {
    } else {
      if fs.kind.Required? || fs.kind.Defaulted? {
        BottomIsLeast(fs.schema, a.head, b.head);
      }
      BottomFieldsLeast(fs.rest, a.tail, b.tail);
    }
  }

  /** More JSON never decodes to fewer capabilities, on every pair of inputs the
      decoder accepts, however they came about. */
  lemma {:induction false} DecodingIsMonotone(s: Schema, j: Json, k: Json)
    requires WellFormed(s) && Capability(s) && Below(j, k) && Dec(s, j).Ok? && Dec(s, k).Ok?
    ensures Le(s, Dec(s, j).value, Dec(s, k).value)
    decreases s, 1
  {
    Decodes(s, j);
    Decodes(s, k);
    match s
    case SRec(fs) => FieldsDecodeMonotone(fs, j.fields, k.fields);
    case SClientSession => SessionDecodesMonotone(j, k);
    case SClientCaps(base) =>
      FieldsDecodeMonotone(base, j.fields, k.fields);
      OverlayDecodesMonotone(j.fields, k.fields);
    case _ =>
  }

  lemma PresentMonotone(j: Json, k: Json, key: string)
    requires Below(j, k) && Present(j, key)
    ensures Present(k, key) && Below(j.fields[key], k.fields[key])
  {
  }

  lemma PresenceMonotone(j: Json, k: Json, key: string)
    requires Below(j, k)
    ensures Present(j, key) ==> Present(k, key)
  {
  }

  lemma BooleanConfigMonotone(j: Json, k: Json)
    requires Below(j, k)
    ensures Present(j, "configOptions") && Present(j.fields["configOptions"], "boolean") ==>
            Present(k, "configOptions") && Present(k.fields["configOptions"], "boolean")
  {
    if Present(j, "configOptions") {
      PresentMonotone(j, k, "configOptions");
      PresenceMonotone(j.fields["configOptions"], k.fields["configOptions"], "boolean");
    }
  }

  lemma MetaMonotone(j: Json, k: Json)
    requires Below(j, k)
    ensures Below(DecodeSession(j).meta, DecodeSession(k).meta)
  {
    BelowReflexive(EMPTY_OBJECT);
    if Present(j, "_meta") { PresentMonotone(j, k, "_meta"); }
  }

  lemma SessionDecodesMonotone(j: Json, k: Json)
    requires Below(j, k)
    ensures Le(SClientSession, VClientSession(DecodeSession(j)), VClientSession(DecodeSession(k)))
  {
    hide Present, Below, ReadMeta;
    PresenceMonotone(j, k, "compaction");
    PresenceMonotone(j, k, "notices");
    BooleanConfigMonotone(j, k);
    MetaMonotone(j, k);
  }

  lemma OverlayDecodesMonotone(m: Object, n: Object)
    requires Below(JObj(m), JObj(n))
    ensures AuthTerminalIn(m) ==> AuthTerminalIn(n)
    ensures Elicits(m, "form") ==> Elicits(n, "form")
    ensures Elicits(m, "url") ==> Elicits(n, "url")
  {
    if "auth" in m && m["auth"].JObj? {
      PresentMonotone(JObj(m), JObj(n), "auth");
      assert AuthTerminalIn(m) ==> Below(m["auth"].fields["terminal"], n["auth"].fields["terminal"]);
    }
    if Elicits(m, "form") { PresentMonotone(m["elicitation"], n["elicitation"], "form"); }
    if Elicits(m, "url") { PresentMonotone(m["elicitation"], n["elicitation"], "url"); }
  }

  lemma {:induction false} FieldDecodesMonotone(kind: Kind, s: Schema, x: Maybe<Json>, y: Maybe<Json>)
    requires WellFormed(s) && (kind.Meta? || Capability(s)) && MaybeBelow(x, y)
    requires kind.Defaulted? ==> Bottom(s, kind.fallback) && Plain(s, kind.fallback)
    requires DecField(kind, s, x).Ok? && DecField(kind, s, y).Ok?
    ensures LeField(kind, s, DecField(kind, s, x).value, DecField(kind, s, y).value)
    decreases s, 2
  {
    hide Enc, Dec, HasType, WellFormed, Plain, Capability, Bottom, Le;
    match kind
    case Required => DecodingIsMonotone(s, x.value, y.value);
    case Defaulted(fallback) =>
      if x.Just? {
        DecodingIsMonotone(s, x.value, y.value);
      } else if y.Just? {
        Decodes(s, y.value);
        PlainHasType(s, fallback);
        PlainHasType(s, Dec(s, y.value).value);
        BottomIsLeast(s, fallback, Dec(s, y.value).value);
      } else {
        PlainHasType(s, fallback);
        BottomIsLeast(s, fallback, fallback);
      }
    case Optional =>
      if x.Just? && !x.value.JNull? && !y.value.JNull? {
        DecodingIsMonotone(s, x.value, y.value);
      }
    case Meta => BelowReflexive(EMPTY_OBJECT);
  }

  lemma {:induction false} FieldsDecodeMonotone(fs: Fields, m: Object, n: Object)
    requires WellFormedFields(fs) && CapabilityFields(fs) && Below(JObj(m), JObj(n))
    requires DecFields(fs, m).Ok? && DecFields(fs, n).Ok?
    ensures LeFields(fs, DecFields(fs, m).value, DecFields(fs, n).value)
    decreases fs, 1
  {
    if fs.End? {
    } else {
      FieldDecodesMonotone(fs.kind, fs.schema, Find(m, fs.key), Find(n, fs.key));
      FieldsDecodeMonotone(fs.rest, m, n);
    }
  }


  // ------------------------------------------------------------ the partial order

  /** Every member of a capability declaration keeps what it is given. */
  lemma {:induction false} CapabilitiesAreRigid(s: Schema)
    requires Capability(s)
    ensures Rigid(s)
    decreases s, 1
  {
    match s
    case SRec(fs) => CapabilityFieldsRigid(fs);
    case SClientCaps(base) => CapabilityFieldsRigid(base);
    case _ =>
  }

  lemma {:induction false} CapabilityFieldsRigid(fs: Fields)
    requires CapabilityFields(fs)
    ensures RigidFields(fs)
    decreases fs, 1
  {
    if fs.End? {
    } else {
      if !fs.kind.Meta? {
        CapabilitiesAreRigid(fs.schema);
      }
      CapabilityFieldsRigid(fs.rest);
    }
  }

  // The order on offers is a partial order, read off their encodings.

  lemma {:induction false} OfferIsBelowItself(s: Schema, a: Val)
    requires WellFormed(s) && Capability(s) && HasType(s, a)
    ensures Le(s, a, a)
  {
    hide *;
    BelowReflexive(Enc(s, a));
    EncodingEmbeds(s, a, a);
  }

  lemma {:induction false} OffersCompose(s: Schema, a: Val, b: Val, c: Val)
    requires WellFormed(s) && Capability(s) && HasType(s, a) && HasType(s, b) && HasType(s, c)
    requires Le(s, a, b) && Le(s, b, c)
    ensures Le(s, a, c)
  {
    hide *;
    EncodingEmbeds(s, a, b);
    EncodingEmbeds(s, b, c);
    EncodingEmbeds(s, a, c);
    BelowTransitive(Enc(s, a), Enc(s, b), Enc(s, c));
  }

  /** Offers below each other encode alike, and are equal if their `_meta`
      members are objects. */
  lemma {:induction false} OffersCoincide(s: Schema, a: Val, b: Val)
    requires WellFormed(s) && Capability(s) && HasType(s, a) && HasType(s, b)
    requires Le(s, a, b) && Le(s, b, a)
    ensures Enc(s, a) == Enc(s, b)
    ensures Plain(s, a) && Plain(s, b) ==> a == b
  {
    hide *;
    EncodingEmbeds(s, a, b);
    EncodingEmbeds(s, b, a);
    BelowAntisymmetric(Enc(s, a), Enc(s, b));
    if Plain(s, a) && Plain(s, b) {
      EncodingKernel(s, a, b);
      OfferIsFixed(s, a);
      OfferIsFixed(s, b);
    }
  }

  lemma {:induction false} OfferIsFixed(s: Schema, a: Val)
    requires WellFormed(s) && Capability(s) && Plain(s, a)
    ensures Norm(s, a) == a
  {
    hide *;
    CapabilitiesAreRigid(s);
    RigidKeepsPlain(s, a);
    CanonicalIsFixed(s, a);
  }

  /** Both capability declarations of the protocol are of this kind. */
  lemma ClientOffers()
    ensures WellFormed(ClientCapabilities()) && Capability(ClientCapabilities())
  {
    hide FsCapabilities, NO_FS, WellFormed;
    ClientCapabilitiesOk();
    FsIsCapability();
  }

  lemma FsIsCapability()
    ensures Capability(FsCapabilities()) && Bottom(FsCapabilities(), NO_FS)
  {
  }

  lemma AgentOffers()
    ensures WellFormed(AgentCapabilities()) && Capability(AgentCapabilities())
  {
    hide PromptCapabilities, McpCapabilities, AuthCapabilities, SessionCapabilities, WellFormed;
    hide NO_PROMPT_CAPS, NO_MCP_CAPS, NO_AUTH_CAPS, NO_SESSION_CAPS;
    AgentCapabilitiesOk();
    AgentPartsAreCapabilities();
  }

  lemma AgentPartsAreCapabilities()
    ensures Capability(PromptCapabilities()) && Bottom(PromptCapabilities(), NO_PROMPT_CAPS)
    ensures Capability(McpCapabilities()) && Bottom(McpCapabilities(), NO_MCP_CAPS)
    ensures Capability(AuthCapabilities()) && Bottom(AuthCapabilities(), NO_AUTH_CAPS)
    ensures Capability(SessionCapabilities()) && Bottom(SessionCapabilities(), NO_SESSION_CAPS)
  {
  }

  lemma NoClientOffer()
    ensures Bottom(ClientCapabilities(), NO_CLIENT_CAPS) && HasType(ClientCapabilities(), NO_CLIENT_CAPS)
  {
    hide FsCapabilities, NO_FS, Bottom, HasType;
    NoClientOffered();
    NoClientCapsOk();
  }

  lemma NoClientOffered()
    ensures Bottom(ClientCapabilities(), NO_CLIENT_CAPS)
  {
    hide FsCapabilities, NO_FS;
    FsIsCapability();
  }

  lemma NoAgentOffer()
    ensures Bottom(AgentCapabilities(), NO_AGENT_CAPS) && HasType(AgentCapabilities(), NO_AGENT_CAPS)
  {
    hide PromptCapabilities, McpCapabilities, AuthCapabilities, SessionCapabilities;
    hide NO_PROMPT_CAPS, NO_MCP_CAPS, NO_AUTH_CAPS, NO_SESSION_CAPS;
    AgentPartsAreCapabilities();
    PromptCapsOk();
    McpCapsOk();
    AuthCapsOk();
    SessionCapsOk();
  }

  /** Offering nothing is below every offer; and each overlay flag, turned on,
      gives a strictly greater one. */
  lemma {:induction false} OffersGrow(v: Val, a: Val)
    requires HasType(ClientCapabilities(), v) && HasType(AgentCapabilities(), a)
    ensures Le(ClientCapabilities(), NO_CLIENT_CAPS, v) && Le(AgentCapabilities(), NO_AGENT_CAPS, a)
    ensures var more := v.(authTerminal := true, elicitForm := true, elicitUrl := true);
            && Le(ClientCapabilities(), v, more)
            && (!v.authTerminal || !v.elicitForm || !v.elicitUrl ==> !Le(ClientCapabilities(), more, v))
  {
    hide Le, ClientBase, AgentCapabilities, NO_CLIENT_CAPS, NO_AGENT_CAPS, WellFormed, Capability, Bottom, HasType;
    ClientOffers();
    AgentOffers();
    NoClientOffer();
    NoAgentOffer();
    BottomIsLeast(ClientCapabilities(), NO_CLIENT_CAPS, v);
    BottomIsLeast(AgentCapabilities(), NO_AGENT_CAPS, a);
    OfferIsBelowItself(ClientCapabilities(), v);
    OverlayGrows(ClientBase(), v);
  }

  lemma OverlayGrows(base: Fields, v: Val)
    requires Le(SClientCaps(base), v, v)
    ensures v.VClientCaps?
    ensures var more := v.(authTerminal := true, elicitForm := true, elicitUrl := true);
            && Le(SClientCaps(base), v, more)
            && (!v.authTerminal || !v.elicitForm || !v.elicitUrl ==> !Le(SClientCaps(base), more, v))
  {
  }

  /** What the header calls a capability lattice, for both peers: one offer is
      below another exactly when its encoding is, and any JSON that says more
      is read as offering more. */
  lemma {:induction false} CapabilityOrder(s: Schema, a: Val, b: Val, j: Json, k: Json)
    requires s == ClientCapabilities() || s == AgentCapabilities()
    requires HasType(s, a) && HasType(s, b)
    ensures Le(s, a, b) <==> Below(Enc(s, a), Enc(s, b))
    ensures Dec(s, j).Ok? && Dec(s, k).Ok? && Below(j, k) ==> Le(s, Dec(s, j).value, Dec(s, k).value)
  {
    hide *;
    ClientOffers();
    AgentOffers();
    EncodingEmbeds(s, a, b);
    if Dec(s, j).Ok? && Dec(s, k).Ok? && Below(j, k) {
      DecodingIsMonotone(s, j, k);
    }
  }
}
