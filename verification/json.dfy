/**
  JSON values as the vert.x 2 `JsonObject` holds them, and the typed getters
  (`getString`, `getNumber`, `getObject`, `getArray`) the persistor and the
  validator read fields with.

  A getter returns a value only when the field is present and of the kind it
  asks for. A field that is absent and a field whose value is JSON `null` both
  read as `null` in the source, and both read as `None` here. A field of the
  wrong kind makes the source's getter throw; `Conforms` names the fields for
  which that cannot happen, and the callers require it of the fields they read.
 */
module Json {
  import opened Options

  /** Numbers are integers: the commands and payloads modelled here carry
      millisecond timestamps and integral values. */
  datatype Json =
    | JNull
    | JBool(flag: bool)
    | JNumber(number: int)
    | JString(str: string)
    | JArray(items: seq<Json>)
    | JObject(fields: map<string, Json>)

  type Object = map<string, Json>

  /** The kinds of value a typed getter asks for. */
  datatype Kind = KString | KNumber | KObject | KArray

  predicate OfKind(v: Json, kind: Kind) {
    match kind
    case KString => v.JString?
    case KNumber => v.JNumber?
    case KObject => v.JObject?
    case KArray => v.JArray?
  }

  /** The raw field, `None` when the key is missing. */
  function Lookup(o: Object, key: string): (r: Option<Json>)
    ensures r.Some? <==> key in o
    ensures r.Some? ==> r.value == o[key]
  {
    if key in o then Some(o[key]) else None
  }

  /** Reading `key` with the getter for `kind` does not throw: the field is
      missing, is JSON null, or holds a value of that kind. */
  predicate Conforms(o: Object, key: string, kind: Kind) {
    match Lookup(o, key)
    case None => true
    case Some(v) => v.JNull? || OfKind(v, kind)
  }

  function GetString(o: Object, key: string): (r: Option<string>)
    ensures r.Some? <==> key in o && o[key].JString?
    ensures r.Some? ==> o[key] == JString(r.value)
  {
    match Lookup(o, key)
    case Some(JString(s)) => Some(s)
    case _ => None
  }

  function GetNumber(o: Object, key: string): (r: Option<int>)
    ensures r.Some? <==> key in o && o[key].JNumber?
    ensures r.Some? ==> o[key] == JNumber(r.value)
  {
    match Lookup(o, key)
    case Some(JNumber(n)) => Some(n)
    case _ => None
  }

  function GetObject(o: Object, key: string): (r: Option<Object>)
    ensures r.Some? <==> key in o && o[key].JObject?
    ensures r.Some? ==> o[key] == JObject(r.value)
  {
    match Lookup(o, key)
    case Some(JObject(m)) => Some(m)
    case _ => None
  }

  function GetArray(o: Object, key: string): (r: Option<seq<Json>>)
    ensures r.Some? <==> key in o && o[key].JArray?
    ensures r.Some? ==> o[key] == JArray(r.value)
  {
    match Lookup(o, key)
    case Some(JArray(a)) => Some(a)
    case _ => None
  }

}
