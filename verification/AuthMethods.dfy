/** The hand-written codec of AuthMethod (include/acp/caps.hpp).

    `args` and `env` belong to terminal methods only. The encoder drops them
    from every other method, while the decoder reads them whatever the type is,
    so the codec is not injective and its decoder is not confined to the values
    that survive a round trip. */
module AuthMethods {
  import opened JsonTree

  datatype AuthMethod = AuthMethod(
    id: string,
    name: string,
    description: Maybe<string>,
    typ: string,
    args: seq<string>,
    env: map<string, string>,
    meta: Json
  )

  function Strings(xs: seq<string>): (r: seq<Json>)
  {
    seq(|xs|, i requires 0 <= i < |xs| => JStr(xs[i]))
  }

  function StringMap(m: map<string, string>): Object {
    map k | k in m :: JStr(m[k])
  }

  function ReadStrings(js: seq<Json>): Result<seq<string>> {
    if forall i | 0 <= i < |js| :: js[i].JStr? then
      Ok(seq(|js|, i requires 0 <= i < |js| => js[i].s))
    else
      Err
  }

  function ReadStringMap(m: Object): Result<map<string, string>> {
    if forall k | k in m :: m[k].JStr? then
      Ok(map k | k in m :: m[k].s)
    else
      Err
  }

  function WrittenType(m: AuthMethod): Maybe<Json> {
    if m.typ == "agent" then Nothing else Just(JStr(m.typ))
  }

  function WrittenArgs(m: AuthMethod): Maybe<Json> {
    if m.typ == "terminal" && m.args != [] then Just(JArr(Strings(m.args))) else Nothing
  }

  function WrittenEnv(m: AuthMethod): Maybe<Json> {
    if m.typ == "terminal" && m.env != map[] then Just(JObj(StringMap(m.env))) else Nothing
  }

  function EncodeAuth(m: AuthMethod): Json {
    var j := map["id" := JStr(m.id), "name" := JStr(m.name)];
    var j := Put(j, "description", JStrOf(m.description));
    var j := Put(j, "type", WrittenType(m));
    var j := Put(j, "args", WrittenArgs(m));
    var j := Put(j, "env", WrittenEnv(m));
    JObj(Put(j, "_meta", WrittenMeta(m.meta)))
  }

  function ReadArgs(m: Object): Result<seq<string>> {
    match Find(m, "args")
    case Just(JArr(items)) => ReadStrings(items)
    case _ => Ok([])
  }

  function ReadEnv(m: Object): Result<map<string, string>> {
    match Find(m, "env")
    case Just(JObj(fields)) => ReadStringMap(fields)
    case _ => Ok(map[])
  }

  function DecodeAuth(j: Json): Result<AuthMethod> {
    if !j.JObj? then Err else
    var m := j.fields;
    var id :- StringAt(m, "id");
    var name :- StringAt(m, "name");
    var typ :- StringOr(m, "type", "agent");
    var args :- ReadArgs(m);
    var env :- ReadEnv(m);
    Ok(AuthMethod(id, name, StringIfAny(m, "description"), typ, args, env, ReadMeta(Find(m, "_meta"))))
  }

  /** What a round trip leaves of a method. */
  function NormAuth(m: AuthMethod): AuthMethod {
    if m.typ == "terminal" then m.(meta := MetaOf(m.meta))
    else m.(args := [], env := map[], meta := MetaOf(m.meta))
  }

  predicate CanonicalAuth(m: AuthMethod) {
    && m.meta.JObj?
    && (m.typ == "terminal" || (m.args == [] && m.env == map[]))
  }

  lemma StringsBack(xs: seq<string>)
    ensures ReadStrings(Strings(xs)) == Ok(xs)
  {
    var js := Strings(xs);
    assert forall i | 0 <= i < |js| :: js[i].JStr?;
    assert ReadStrings(js).value == xs;
  }

  lemma StringMapBack(m: map<string, string>)
    ensures ReadStringMap(StringMap(m)) == Ok(m)
  {
    var js := StringMap(m);
    assert js.Keys == m.Keys;
    assert ReadStringMap(js).value == m;
  }

  /** What the wire object of a method holds, member by member. */
  predicate Spells(f: Object, m: AuthMethod) {
    && Find(f, "id") == Just(JStr(m.id))
    && Find(f, "name") == Just(JStr(m.name))
    && Find(f, "description") == JStrOf(m.description)
    && Find(f, "type") == WrittenType(m)
    && Find(f, "args") == WrittenArgs(m)
    && Find(f, "env") == WrittenEnv(m)
    && Find(f, "_meta") == WrittenMeta(m.meta)
  }

  lemma EncodeSpells(m: AuthMethod)
    ensures Spells(EncodeAuth(m).fields, m)
  {
  }

  lemma SpelledDecodes(f: Object, m: AuthMethod)
    requires Spells(f, m)
    ensures DecodeAuth(JObj(f)) == Ok(NormAuth(m))
  {
    StringsBack(m.args);
    StringMapBack(m.env);
  }

  /** decode after encode clears `args` and `env` of a method that is not a
      terminal one, replaces a `_meta` that is no object, and nothing else. */
  lemma AuthRoundTrip(m: AuthMethod)
    ensures DecodeAuth(EncodeAuth(m)) == Ok(NormAuth(m))
  {
    EncodeSpells(m);
    SpelledDecodes(EncodeAuth(m).fields, m);
  }

  /** The loss is exact: a method survives if and only if it is a terminal one
      or has neither arguments nor environment (and its `_meta` is an object). */
  lemma AuthSurvives(m: AuthMethod)
    ensures DecodeAuth(EncodeAuth(m)) == Ok(m) <==> CanonicalAuth(m)
  {
    AuthRoundTrip(m);
  }

  lemma SpelledAlike(f: Object, g: Object, a: AuthMethod, b: AuthMethod)
    requires Spells(f, a) && Spells(g, b) && f == g
    ensures a.id == b.id && a.name == b.name && a.description == b.description && a.typ == b.typ
    ensures WrittenArgs(a) == WrittenArgs(b) && WrittenEnv(a) == WrittenEnv(b)
    ensures WrittenMeta(a.meta) == WrittenMeta(b.meta)
  {
  }

  /** What the encoder shows of a method: no `args` or `env` but of a terminal
      one, and no `_meta` that counts as empty. */
  function Shown(m: AuthMethod): AuthMethod {
    var n := if m.typ == "terminal" then m else m.(args := [], env := map[]);
    if Empty(m.meta) then n.(meta := EMPTY_OBJECT) else n
  }

  lemma ArgsBack(a: AuthMethod, b: AuthMethod)
    requires a.typ == b.typ && WrittenArgs(a) == WrittenArgs(b) && WrittenEnv(a) == WrittenEnv(b)
    ensures a.typ == "terminal" ==> a.args == b.args && a.env == b.env
  {
    StringsBack(a.args);
    StringsBack(b.args);
    StringMapBack(a.env);
    StringMapBack(b.env);
  }

  lemma {:induction false} AuthEncodesAlike(a: AuthMethod, b: AuthMethod)
    ensures EncodeAuth(a) == EncodeAuth(b) <==>
            && Shown(a).(meta := EMPTY_OBJECT) == Shown(b).(meta := EMPTY_OBJECT)
            && WrittenMeta(a.meta) == WrittenMeta(b.meta)
  {
    if EncodeAuth(a) == EncodeAuth(b) {
      EncodeSpells(a);
      EncodeSpells(b);
      hide EncodeAuth;
      SpelledAlike(EncodeAuth(a).fields, EncodeAuth(b).fields, a, b);
      ArgsBack(a, b);
    }
  }

  /** The encoder tells two methods apart exactly where they show different
      things: never by the `args` or `env` of a method that is not a terminal
      one, for any `_meta` whatever. */
  lemma {:induction false} AuthKernel(a: AuthMethod, b: AuthMethod)
    ensures EncodeAuth(a) == EncodeAuth(b) <==> Shown(a) == Shown(b)
    ensures a.typ != "terminal" ==> EncodeAuth(a) == EncodeAuth(a.(args := [], env := map[]))
  {
    AuthEncodesAlike(a, b);
    AuthEncodesAlike(a, a.(args := [], env := map[]));
  }
}
