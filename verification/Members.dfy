/** Which members an encoded record has, and which a decoder asks for. */
module Members {
  import opened JsonTree
  import opened Universe
  import opened RoundTrip

  predicate LeavesFree(key: string, j: Json) {
    j.JObj? && key !in j.fields
  }

  /** What may stand as an arm of a tagged sum leaves the tag member free. */
  lemma TagIsNotWritten(s: Schema, key: string, v: Val)
    requires ObjectWithout(key, s) && HasType(s, v)
    ensures LeavesFree(key, Enc(s, v))
  {
    if s.SRec? {
      WritesNothingElse(key, s.fields, v.fields);
    }
  }

  /** What the field called key writes, if there is one and it writes at all. */
  function Written(fs: Fields, vs: Vals, key: string): Maybe<Json> {
    if fs.End? || vs.Nil? then Nothing
    else if fs.key == key then EncField(fs.kind, fs.schema, vs.head)
    else Written(fs.rest, vs.tail, key)
  }

  /** An encoded record holds under each key what that field writes: nothing is
      overwritten, nothing leaks from one field into another. */
  lemma {:induction false} WritesExactly(fs: Fields, vs: Vals, key: string)
    requires DistinctKeys(fs) && HasFields(fs, vs)
    ensures Find(EncFields(fs, vs), key) == Written(fs, vs, key)
  {
    if fs.End? {
    } else {
      WritesExactly(fs.rest, vs.tail, key);
      WritesNothingElse(fs.key, fs.rest, vs.tail);
    }
  }

  /** Without a required member no record is read. */
  lemma {:induction false} RequiredIsEnforced(key: string, fs: Fields, m: Object)
    requires Demands(key, fs) && key !in m
    ensures DecFields(fs, m) == Err
  {
    if !(key == fs.key && fs.kind.Required?) {
      RequiredIsEnforced(key, fs.rest, m);
    }
  }
}
