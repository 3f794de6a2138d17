/** Decoded JSON values, as Python's `json` module hands them to the service:
    objects become dicts that keep their keys in document order. */
module Json {
  import opened Wrappers
  import opened Text

  /** A JSON value. Numbers are kept as integers; an object is its list of
      members in document order. A Python dict holds each key once
      (UniqueKeys); the member list itself does not enforce that. */
  datatype Json =
    | JNull
    | JBool(b: bool)
    | JNum(n: int)
    | JStr(s: string)
    | JArr(items: seq<Json>)
    | JObj(fields: seq<(string, Json)>)

  /** `d.get(key)`: the value stored under key, or None when key is absent. */
  function Get(fields: seq<(string, Json)>, key: string): (r: Option<Json>)
    ensures r.None? <==> forall i | 0 <= i < |fields| :: fields[i].0 != key
    ensures r.Some? ==> exists i | 0 <= i < |fields| :: fields[i] == (key, r.value)
  {
    if fields == [] then None
    else if fields[0].0 == key then Some(fields[0].1)
    else Get(fields[1..], key)
  }

  /** Each key names at most one member, as in a Python dict. */
  predicate UniqueKeys(fields: seq<(string, Json)>) {
    forall i, j | 0 <= i < j < |fields| :: fields[i].0 != fields[j].0
  }

  /** In an object whose keys are unique, `d.get(key)` is the value of the
      one member stored under key. */
  lemma {:induction false} GetUnique(fields: seq<(string, Json)>, key: string, i: int)
    requires UniqueKeys(fields)
    requires 0 <= i < |fields| && fields[i].0 == key
    ensures Get(fields, key) == Some(fields[i].1)
  {
    if i > 0 {
      assert fields[0].0 != key;
      assert UniqueKeys(fields[1..]) by {
        forall a, b | 0 <= a < b < |fields[1..]|
          ensures fields[1..][a].0 != fields[1..][b].0
        {
          assert fields[1..][a] == fields[a + 1] && fields[1..][b] == fields[b + 1];
        }
      }
      assert fields[1..][i - 1] == fields[i];
      GetUnique(fields[1..], key, i - 1);
    }
  }

  /** `d.get(key)` when the value found there is a string; other values,
      including `null`, read as absent. */
  function GetText(fields: seq<(string, Json)>, key: string): (r: Option<string>)
    ensures r.Some? <==> Get(fields, key).Some? && Get(fields, key).value.JStr?
    ensures r.Some? ==> Get(fields, key) == Some(JStr(r.value))
  {
    match Get(fields, key)
    case Some(JStr(s)) => Some(s)
    case _ => None
  }

  /** Python truthiness of a decoded value: null, false, 0, "" and the empty
      list and object are false. */
  predicate Truthy(j: Json) {
    match j
    case JNull => false
    case JBool(b) => b
    case JNum(n) => n != 0
    case JStr(s) => Filled(Some(s))
    case JArr(items) => items != []
    case JObj(fields) => fields != []
  }

  /** `str(v)` for a scalar value; a list or object, whose `repr` is not
      modelled, gives None. */
  function ScalarText(j: Json): (r: Option<string>)
    ensures r.Some? <==> !j.JArr? && !j.JObj?
    ensures j.JStr? ==> r == Some(j.s)
    ensures r.Some? && Truthy(j) ==> r.value != []
  {
    match j
    case JNull => Some("None")
    case JBool(b) => Some(if b then "True" else "False")
    case JNum(n) => Some(IntText(n))
    case JStr(s) => Some(s)
    case _ => None
  }
}
