/** The hand-written codec of ClientSessionCapabilities (include/acp/caps.hpp).

    A feature is on when its member is present and an object. The decoder never
    fails: whatever is not there, or is of another kind, reads as off. */
module ClientSessions {
  import opened JsonTree

  datatype ClientSession = ClientSession(compaction: bool, notices: bool, booleanConfig: bool, meta: Json)

  const SILENT := ClientSession(false, false, false, EMPTY_OBJECT)

  function Flag(on: bool): Maybe<Json> {
    if on then Just(EMPTY_OBJECT) else Nothing
  }

  const BOOLEAN_CONFIG := JObj(map["boolean" := EMPTY_OBJECT])

  function BooleanConfig(on: bool): Maybe<Json> {
    if on then Just(BOOLEAN_CONFIG) else Nothing
  }

  function EncodeSession(c: ClientSession): Json {
    var j := Put(map[], "compaction", Flag(c.compaction));
    var j := Put(j, "notices", Flag(c.notices));
    var j := Put(j, "configOptions", BooleanConfig(c.booleanConfig));
    JObj(Put(j, "_meta", WrittenMeta(c.meta)))
  }

  function DecodeSession(j: Json): ClientSession {
    ClientSession(
      Present(j, "compaction"),
      Present(j, "notices"),
      Present(j, "configOptions") && Present(j.fields["configOptions"], "boolean"),
      if j.JObj? then ReadMeta(Find(j.fields, "_meta")) else EMPTY_OBJECT)
  }

  function NormSession(c: ClientSession): ClientSession {
    c.(meta := MetaOf(c.meta))
  }

  /** Every flag survives, for all eight settings and any `_meta`. */
  lemma SessionRoundTrip(c: ClientSession)
    ensures DecodeSession(EncodeSession(c)) == NormSession(c)
  {
    var f := EncodeSession(c).fields;
    assert Find(f, "compaction") == Flag(c.compaction);
    assert Find(f, "notices") == Flag(c.notices);
    assert Find(f, "configOptions") == BooleanConfig(c.booleanConfig);
    assert Find(f, "_meta") == WrittenMeta(c.meta);
  }
}
