/** The values `json.loads` produces, with the dictionary operations and
    Python truthiness that the hub code applies to them. Encoding and decoding
    text are not modelled: callers receive them as functions. */
module JsonValue {
  import opened Text

  datatype Option<T> = None | Some(value: T)

  datatype Json =
    | JNull
    | JBool(b: bool)
    | JInt(i: int)
    | JFloat(num: int, den: nat)
    | JStr(s: string)
    | JArr(items: seq<Json>)
    | JObj(fields: seq<(string, Json)>)

  predicate IsObj(j: Json) { j.JObj? }

  /** `key in d`. */
  predicate HasKey(j: Json, key: string)
  {
    j.JObj? && exists i :: 0 <= i < |j.fields| && j.fields[i].0 == key
  }

  /** `d.get(key)`: the value stored last under `key` (a `dict` built from
      repeated keys keeps the last one). */
  function Get(j: Json, key: string): (r: Option<Json>)
    ensures r.Some? <==> HasKey(j, key)
  {
    if j.JObj? then Lookup(j.fields, key) else None
  }

  function Lookup(fields: seq<(string, Json)>, key: string): (r: Option<Json>)
    ensures r.Some? <==> exists i :: 0 <= i < |fields| && fields[i].0 == key
    ensures r.Some? ==> exists i :: 0 <= i < |fields| && fields[i] == (key, r.value)
  {
    if fields == [] then None
    else if fields[|fields| - 1].0 == key then Some(fields[|fields| - 1].1)
    else
      var r := Lookup(fields[..|fields| - 1], key);
      if r.Some? then
        var i :| 0 <= i < |fields| - 1 && fields[..|fields| - 1][i] == (key, r.value);
        assert fields[i] == (key, r.value);
        r
      else r
  }

  /** Python truthiness of a decoded value. */
  predicate Truthy(j: Json)
  {
    match j
    case JNull => false
    case JBool(b) => b
    case JInt(i) => i != 0
    case JFloat(n, _) => n != 0
    case JStr(s) => s != []
    case JArr(items) => items != []
    case JObj(fields) => fields != []
  }

  /** `d.get(key)` followed by a truthiness test, as in `d.get(key) or default`. */
  function GetOr(j: Json, key: string, default: Json): (r: Json)
    ensures r == default || HasKey(j, key)
    ensures !HasKey(j, key) ==> r == default
  {
    var v := Get(j, key);
    if v.Some? && Truthy(v.value) then v.value else default
  }

  /** `str(x)` for the leaves the hub renders: strings stay themselves, other
      scalars are rendered in Python's notation. */
  function PyStr(j: Json): string
  {
    match j
    case JNull => "None"
    case JBool(b) => BoolToString(b)
    case JInt(i) => IntToString(i)
    case JStr(s) => s
    case _ => "<value>"
  }

  /** `str(d.get(key) or "")`. */
  function GetStr(j: Json, key: string): (r: string)
    ensures !HasKey(j, key) ==> r == ""
  {
    var v := GetOr(j, key, JStr(""));
    PyStr(v)
  }

  lemma GetStrOfString(j: Json, key: string, s: string)
    requires j.JObj? && Get(j, key) == Some(JStr(s))
    ensures GetStr(j, key) == s
  {
  }

  /** A one-entry object holds exactly its key. */
  lemma GetSingle(k: string, v: Json, key: string)
    ensures HasKey(JObj([(k, v)]), key) <==> k == key
    ensures Get(JObj([(k, v)]), key) == if k == key then Some(v) else None
  {
    var fs := [(k, v)];
    assert fs[0].0 == k;
    assert fs[..0] == [];
  }
}
