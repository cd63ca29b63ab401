/** JSON values as the serialisers produce and read them. */
module Json {
  import opened Wrappers

  /**
    * A JSON value. Objects keep their keys in insertion order, as the
    * dictionaries of the host language do; lookups take the first entry
    * with the key.
    */
  datatype Json =
    | JNull
    | JBool(b: bool)
    | JInt(i: int)
    | JReal(r: real)
    | JStr(s: string)
    | JList(items: seq<Json>)
    | JObj(fields: seq<(string, Json)>)

  /** The value stored under `key`, if any (a dictionary's `get`). */
  function Get(fields: seq<(string, Json)>, key: string): Option<Json>
  {
    if fields == [] then None
    else if fields[0].0 == key then Some(fields[0].1)
    else Get(fields[1..], key)
  }

  /** The first entry with a key is the one a lookup finds. */
  lemma {:induction false} GetAt(fields: seq<(string, Json)>, i: nat, key: string)
    requires i < |fields| && fields[i].0 == key
    requires forall j :: 0 <= j < i ==> fields[j].0 != key
    ensures Get(fields, key) == Some(fields[i].1)
  {
    if i > 0 {
      GetAt(fields[1..], i - 1, key);
    }
  }

  /** `d[key]` on a dictionary: the stored value, or a KeyError naming the key. */
  function Index(fields: seq<(string, Json)>, key: string): (r: Result<Json>)
    ensures r.Failure? <==> Get(fields, key).None?
    ensures r.Failure? ==> r.error == KeyError(key)
  {
    match Get(fields, key)
    case None => Failure(KeyError(key))
    case Some(v) => Success(v)
  }

  /** `d.get(key, default)`. */
  function GetOr(fields: seq<(string, Json)>, key: string, default: Json): Json
  {
    match Get(fields, key)
    case None => default
    case Some(v) => v
  }

  /** A number read back as a real; any other JSON type is not representable as a float field. */
  function AsReal(j: Json, key: string): (r: Result<real>)
    ensures r.Success? <==> (j.JInt? || j.JReal?)
  {
    match j
    case JInt(i) => Success(i as real)
    case JReal(x) => Success(x)
    case _ => Failure(Unrepresentable(key))
  }

  function AsInt(j: Json, key: string): Result<int>
  {
    if j.JInt? then Success(j.i) else Failure(Unrepresentable(key))
  }

  function AsString(j: Json, key: string): Result<string>
  {
    if j.JStr? then Success(j.s) else Failure(Unrepresentable(key))
  }

  function AsBool(j: Json, key: string): Result<bool>
  {
    if j.JBool? then Success(j.b) else Failure(Unrepresentable(key))
  }

  /** The object's field list, or the TypeError that subscripting a non-object raises. */
  function AsObject(j: Json): Result<seq<(string, Json)>>
  {
    if j.JObj? then Success(j.fields) else Failure(TypeError("object is not subscriptable"))
  }
}
