/** The hand-written codecs that fill a local object or struct step by step
    (include/acp/session_types.hpp, include/acp/caps.hpp), in that form, each
    against the function the theorems are about. */
module HandWritten {
  import opened JsonTree
  import opened AuthMethods
  import opened ClientSessions
  import opened Universe
  import opened RoundTrip
  import opened Exactness
  import opened Reading

  lemma ConfigEncoding(options: Schema, o: ConfigOption)
    requires HasType(options, o.options)
    ensures Enc(SConfig(options), VConfig(o)) == ConfigJson(o, Enc(options, o.options))
  {
    hide ConfigJson;
  }

  method EncodeConfigOption(options: Schema, o: ConfigOption) returns (json: Json)
    requires HasType(options, o.options)
    ensures json == Enc(SConfig(options), VConfig(o))
  {
    hide Enc, HasType;
    ConfigEncoding(options, o);
    var j: Object := map[];
    j := j["id" := JStr(o.id)];
    j := j["name" := JStr(o.name)];
    if o.description.Just? { j := j["description" := JStr(o.description.value)]; }
    if o.category.Just? { j := j["category" := JStr(o.category.value)]; }
    j := j["type" := JStr(o.typ)];
    if o.IsBoolean() {
      j := j["currentValue" := JBool(o.currentBool)];
    } else {
      j := j["currentValue" := JStr(o.currentValue)];
      j := j["options" := Enc(options, o.options)];
    }
    if !Empty(o.meta) { j := j["_meta" := o.meta]; }
    json := JObj(j);
  }

  method DecodeConfigOption(options: Schema, j: Json) returns (r: Result<ConfigOption>)
    ensures Dec(SConfig(options), j) == if r.Ok? then Ok(VConfig(r.value)) else Err
  {
    hide StringAt, StringOr;
    if !j.JObj? { return Err; }
    var m := j.fields;
    ConfigDecoding(options, m);
    hide Dec;
    var o := ConfigOption("", "", Nothing, Nothing, "select", "", false, NO_OPTIONS, EMPTY_OBJECT);
    var id :- StringAt(m, "id");
    o := o.(id := id);
    var name :- StringAt(m, "name");
    o := o.(name := name);
    if "description" in m && m["description"].JStr? { o := o.(description := Just(m["description"].s)); }
    if "category" in m && m["category"].JStr? { o := o.(category := Just(m["category"].s)); }
    var typ :- StringOr(m, "type", "select");
    o := o.(typ := typ);
    if "currentValue" !in m { return Err; }
    var cv := m["currentValue"];
    if o.IsBoolean() {
      if !cv.JBool? { return Err; }
      o := o.(currentBool := cv.b);
    } else {
      if !cv.JStr? { return Err; }
      o := o.(currentValue := cv.s);
      if "options" !in m { return Err; }
      var v :- Dec(options, m["options"]);
      o := o.(options := v);
    }
    if "_meta" in m && m["_meta"].JObj? { o := o.(meta := m["_meta"]); }
    return Ok(o);
  }

  lemma ServerOnTheWire(stdio: Schema, http: Schema, sse: Schema, v: Val)
    requires HasType(SMcpServer(stdio, http, sse), v)
    ensures WellFormed(SMcpServer(stdio, http, sse)) ==>
              var json := Enc(SMcpServer(stdio, http, sse), v);
              && json.JObj? && Find(json.fields, "type") == ServerTag(v.arm)
              && Dec(SMcpServer(stdio, http, sse), json) == Ok(Norm(SMcpServer(stdio, http, sse), v))
  {
    hide Enc, Dec, Norm, HasType, WellFormed;
    if WellFormed(SMcpServer(stdio, http, sse)) {
      ServerIsTagged(SMcpServer(stdio, http, sse), v);
      RoundTrips(SMcpServer(stdio, http, sse), v);
    }
  }

  /** Only an http or sse server says its kind on the wire, and every kind is
      read back as itself. */
  method EncodeMcpServer(stdio: Schema, http: Schema, sse: Schema, v: Val) returns (json: Json)
    requires HasType(SMcpServer(stdio, http, sse), v)
    ensures json == Enc(SMcpServer(stdio, http, sse), v)
    ensures WellFormed(SMcpServer(stdio, http, sse)) ==>
              && json.JObj? && Find(json.fields, "type") == ServerTag(v.arm)
              && Dec(SMcpServer(stdio, http, sse), json) == Ok(Norm(SMcpServer(stdio, http, sse), v))
  {
    ServerOnTheWire(stdio, http, sse, v);
    hide Dec, Norm, WellFormed, ServerTag;
    if v.arm == 0 {
      json := Enc(stdio, v.v);
    } else if v.arm == 1 {
      json := Enc(http, v.v);
      json := WithKey(json, "type", JStr("http"));
    } else {
      json := Enc(sse, v.v);
      json := WithKey(json, "type", JStr("sse"));
    }
  }

  method EncodeAuthMethod(m: AuthMethod) returns (json: Json)
    ensures json == EncodeAuth(m)
  {
    var j: Object := map["id" := JStr(m.id), "name" := JStr(m.name)];
    if m.description.Just? { j := j["description" := JStr(m.description.value)]; }
    if m.typ != "agent" { j := j["type" := JStr(m.typ)]; }
    if m.typ == "terminal" {
      if m.args != [] { j := j["args" := JArr(Strings(m.args))]; }
      if m.env != map[] { j := j["env" := JObj(StringMap(m.env))]; }
    }
    if !Empty(m.meta) { j := j["_meta" := m.meta]; }
    json := JObj(j);
  }

  method DecodeAuthMethod(j: Json) returns (r: Result<AuthMethod>)
    ensures r == DecodeAuth(j)
  {
    if !j.JObj? { return Err; }
    hide StringAt, StringOr, ReadStrings, ReadStringMap;
    var f := j.fields;
    var m := AuthMethod("", "", Nothing, "agent", [], map[], EMPTY_OBJECT);
    var id :- StringAt(f, "id");
    m := m.(id := id);
    var name :- StringAt(f, "name");
    m := m.(name := name);
    if "description" in f && f["description"].JStr? { m := m.(description := Just(f["description"].s)); }
    var typ :- StringOr(f, "type", "agent");
    m := m.(typ := typ);
    if "args" in f && f["args"].JArr? {
      var args :- ReadStrings(f["args"].items);
      m := m.(args := args);
    }
    if "env" in f && f["env"].JObj? {
      var env :- ReadStringMap(f["env"].fields);
      m := m.(env := env);
    }
    if "_meta" in f && f["_meta"].JObj? { m := m.(meta := f["_meta"]); }
    return Ok(m);
  }

  method EncodeClientSession(c: ClientSession) returns (json: Json)
    ensures json == EncodeSession(c)
  {
    var j: Object := map[];
    if c.compaction { j := j["compaction" := EMPTY_OBJECT]; }
    if c.notices { j := j["notices" := EMPTY_OBJECT]; }
    if c.booleanConfig { j := j["configOptions" := JObj(map["boolean" := EMPTY_OBJECT])]; }
    if !Empty(c.meta) { j := j["_meta" := c.meta]; }
    json := JObj(j);
  }

  method DecodeClientSession(j: Json) returns (c: ClientSession)
    ensures c == DecodeSession(j)
  {
    c := SILENT;
    c := c.(compaction := Present(j, "compaction"));
    c := c.(notices := Present(j, "notices"));
    c := c.(booleanConfig := Present(j, "configOptions") && Present(j.fields["configOptions"], "boolean"));
    if j.JObj? && "_meta" in j.fields && j.fields["_meta"].JObj? { c := c.(meta := j.fields["_meta"]); }
  }

  method EncodeClientCapabilities(base: Fields, c: Val) returns (json: Json)
    requires HasType(SClientCaps(base), c)
    ensures json == Enc(SClientCaps(base), c)
  {
    json := Enc(SRec(base), VRec(c.base));
    var j := json.fields;
    if c.authTerminal { j := j["auth" := JObj(map["terminal" := JBool(true)])]; }
    if c.elicitForm || c.elicitUrl {
      var e: Object := map[];
      if c.elicitForm { e := e["form" := EMPTY_OBJECT]; }
      if c.elicitUrl { e := e["url" := EMPTY_OBJECT]; }
      j := j["elicitation" := JObj(e)];
    }
    json := JObj(j);
  }

  lemma CapsDecoding(base: Fields, j: Json)
    ensures Dec(SRec(base), j).Ok? ==> j.JObj? && Dec(SRec(base), j).value.VRec?
    ensures Dec(SClientCaps(base), j) ==
            if Dec(SRec(base), j).Err? then Err
            else Ok(VClientCaps(Dec(SRec(base), j).value.fields, AuthTerminalIn(j.fields),
                                Elicits(j.fields, "form"), Elicits(j.fields, "url")))
  {
    hide AuthTerminalIn, Elicits, DecFields;
  }

  method DecodeClientCapabilities(base: Fields, j: Json) returns (r: Result<Val>)
    ensures r == Dec(SClientCaps(base), j)
  {
    CapsDecoding(base, j);
    hide Dec;
    var record :- Dec(SRec(base), j);
    var m := j.fields;
    var c := VClientCaps(record.fields, false, false, false);
    if "auth" in m && m["auth"].JObj? {
      var a := m["auth"].fields;
      c := c.(authTerminal := "terminal" in a && a["terminal"].JBool? && a["terminal"].b);
    }
    if "elicitation" in m && m["elicitation"].JObj? {
      var e := m["elicitation"].fields;
      c := c.(elicitForm := "form" in e && e["form"].JObj?, elicitUrl := "url" in e && e["url"].JObj?);
    }
    return Ok(c);
  }
}
