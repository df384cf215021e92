/** Laws of reading that no round trip can show, because no encoder writes such
    JSON: nulls, absent members, flags of other kinds. */
module ReadingLaws {
  import opened JsonTree
  import opened Universe
  import opened AuthMethods
  import opened RoundTrip
  import opened Reading

  // ------------------------------------------------------------ optional members

  /** fs has an optional field called key. */
  predicate OptionalAt(key: string, fs: Fields) {
    fs.Field? && if fs.key == key then fs.kind.Optional? else OptionalAt(key, fs.rest)
  }

  function ValueAt(fs: Fields, vs: Vals, key: string): Val {
    if fs.End? || vs.Nil? then VUnit else if fs.key == key then vs.head else ValueAt(fs.rest, vs.tail, key)
  }

  lemma {:induction false} NullFieldIsAbsent(fs: Fields, m: Object, key: string)
    requires DistinctKeys(fs) && OptionalAt(key, fs)
    ensures DecFields(fs, m[key := JNull]) == DecFields(fs, m - {key})
  {
    if fs.key == key {
      FreshIsNotAKey(key, fs.rest);
      DecoderFrame(fs.rest, m[key := JNull], m - {key});
    } else {
      NullFieldIsAbsent(fs.rest, m, key);
      assert Find(m[key := JNull], fs.key) == Find(m - {key}, fs.key);
    }
  }

  /** For an optional member of any type, null and absence are the same. */
  lemma NullIsAbsent(fs: Fields, m: Object, key: string)
    requires DistinctKeys(fs) && OptionalAt(key, fs)
    ensures Dec(SRec(fs), JObj(m[key := JNull])) == Dec(SRec(fs), JObj(m - {key}))
  {
    NullFieldIsAbsent(fs, m, key);
  }

  /** And both read as Nothing. */
  lemma {:induction false} AbsentIsNothing(fs: Fields, m: Object, key: string)
    requires OptionalAt(key, fs) && DecFields(fs, m).Ok? && (key !in m || m[key] == JNull)
    ensures ValueAt(fs, DecFields(fs, m).value, key) == VNothing
  {
    if fs.key == key {
    } else {
      AbsentIsNothing(fs.rest, m, key);
    }
  }

  // -------------------------------------------------------------- absent types

  /** A config option without a type is a select option. */
  lemma ConfigDefaultsToSelect(options: Schema, m: Object)
    requires "type" !in m
    ensures Dec(SConfig(options), JObj(m)) == Dec(SConfig(options), JObj(m["type" := JStr("select")]))
  {
    hide Dec, ConfigHead;
    HeadDefaultsToSelect(m);
    ConfigDecoding(options, m);
    ConfigDecoding(options, m["type" := JStr("select")]);
  }

  lemma HeadDefaultsToSelect(m: Object)
    requires "type" !in m
    ensures ConfigHead(m) == ConfigHead(m["type" := JStr("select")])
  {
    var n := m["type" := JStr("select")];
    assert forall k | k != "type" :: Find(m, k) == Find(n, k);
  }

  /** An authentication method without a type is one the agent handles. */
  lemma AuthDefaultsToAgent(m: Object)
    requires "type" !in m
    ensures Dec(SAuth, JObj(m)) == Dec(SAuth, JObj(m["type" := JStr("agent")]))
  {
    hide ReadStrings, ReadStringMap, ReadMeta;
    var n := m["type" := JStr("agent")];
    assert forall k | k != "type" :: Find(m, k) == Find(n, k);
  }

  /** A command input without a type is unstructured. */
  lemma InputDefaultsToUnstructured(u: Schema, m: Object)
    requires "type" !in m && ObjectWithout("type", u)
    ensures Dec(SCommandInput(u), JObj(m)) == Dec(SCommandInput(u), JObj(m["type" := JStr("unstructured")]))
  {
    TagIsForeign(u, m, "type", JStr("unstructured"));
  }

  // ------------------------------------------------------------- capability flags

  /** Terminal logins are offered by exactly true under `auth.terminal`, an
      elicitation mode by an object under its name. */
  lemma OverlayFlags(base: Fields, m: Object)
    requires Dec(SClientCaps(base), JObj(m)).Ok?
    ensures var v := Dec(SClientCaps(base), JObj(m)).value;
            && v.VClientCaps?
            && (v.authTerminal <==> "auth" in m && m["auth"].JObj? && "terminal" in m["auth"].fields
                                    && m["auth"].fields["terminal"] == JBool(true))
            && (v.elicitForm <==> "elicitation" in m && m["elicitation"].JObj? && "form" in m["elicitation"].fields
                                  && m["elicitation"].fields["form"].JObj?)
            && (v.elicitUrl <==> "elicitation" in m && m["elicitation"].JObj? && "url" in m["elicitation"].fields
                                 && m["elicitation"].fields["url"].JObj?)
  {
  }

  /** A session feature is on exactly when its member is there and an object. */
  lemma SessionFlags(m: Object)
    ensures var r := Dec(SClientSession, JObj(m));
            && r.Ok? && r.value.VClientSession?
            && (r.value.session.compaction <==> "compaction" in m && m["compaction"].JObj?)
            && (r.value.session.notices <==> "notices" in m && m["notices"].JObj?)
            && (r.value.session.booleanConfig <==>
                  "configOptions" in m && m["configOptions"].JObj? && "boolean" in m["configOptions"].fields
                  && m["configOptions"].fields["boolean"].JObj?)
  {
  }
}
