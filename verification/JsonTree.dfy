/** JSON values as trees, and the two small sum types every codec needs.

    Objects are unordered maps from member names to values, as section 4 of
    RFC 8259 has them. Text, number formatting and UTF-8 belong to the JSON
    library and are not modelled. */
module JsonTree {

  datatype Maybe<+T> = Nothing | Just(value: T)

  /** The outcome of a decoder. All exceptions a decoder can throw, whichever
      library they come from, are the one failure Err. */
  datatype Result<+T> = Ok(value: T) | Err {
    predicate IsFailure() {
      Err?
    }

    function PropagateFailure<U>(): Result<U>
      requires Err?
    {
      Err
    }

    function Extract(): T
      requires Ok?
    {
      value
    }
  }

  datatype Json =
    | JNull
    | JBool(b: bool)
    | JInt(i: int)
    | JReal(r: real)
    | JStr(s: string)
    | JArr(items: seq<Json>)
    | JObj(fields: map<string, Json>)

  type Object = map<string, Json>

  const EMPTY_OBJECT := JObj(map[])

  /** What the library's `empty()` answers: scalars other than null count as
      one element. */
  predicate Empty(j: Json) {
    match j
    case JNull => true
    case JArr(items) => items == []
    case JObj(fields) => fields == map[]
    case _ => false
  }

  function Find(m: Object, key: string): Maybe<Json> {
    if key in m then Just(m[key]) else Nothing
  }

  /** Write a member, or nothing at all. */
  function Put(m: Object, key: string, j: Maybe<Json>): (r: Object)
    ensures forall k :: k != key ==> Find(r, k) == Find(m, k)
    ensures Find(r, key) == if j.Just? then j else Find(m, key)
  {
    match j
    case Nothing => m
    case Just(x) => m[key := x]
  }

  /** `j[key] = x` on a value known to be an object. */
  function WithKey(j: Json, key: string, x: Json): Json {
    if j.JObj? then JObj(j.fields[key := x]) else j
  }

  /** A `_meta` value as the wire keeps it: an object, or else nothing. */
  function MetaOf(j: Json): Json {
    if j.JObj? then j else EMPTY_OBJECT
  }

  /** How every encoder writes a `_meta` value: empty ones are omitted. */
  function WrittenMeta(j: Json): Maybe<Json> {
    if Empty(j) then Nothing else Just(j)
  }

  /** How every decoder reads a `_meta` member: only objects are taken. */
  function ReadMeta(j: Maybe<Json>): Json {
    match j
    case Just(JObj(_)) => j.value
    case _ => EMPTY_OBJECT
  }

  /** The library's `value(key, fallback)` at type string: absent gives the
      fallback, present with another type throws. */
  function StringOr(m: Object, key: string, fallback: string): Result<string> {
    match Find(m, key)
    case Nothing => Ok(fallback)
    case Just(JStr(s)) => Ok(s)
    case _ => Err
  }

  /** The library's `at(key).get<string>()`. */
  function StringAt(m: Object, key: string): Result<string> {
    match Find(m, key)
    case Just(JStr(s)) => Ok(s)
    case _ => Err
  }

  /** Read a member only if it is there and is a string; never fails. */
  function StringIfAny(m: Object, key: string): Maybe<string> {
    match Find(m, key)
    case Just(JStr(s)) => Just(s)
    case _ => Nothing
  }

  function JStrOf(s: Maybe<string>): Maybe<Json> {
    match s
    case Nothing => Nothing
    case Just(x) => Just(JStr(x))
  }

  /** The member is there and is an object: the "presence means supported" test. */
  predicate Present(j: Json, key: string) {
    j.JObj? && key in j.fields && j.fields[key].JObj?
  }
}
