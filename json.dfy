/**
 * JSON values as they travel through request bodies, handler responses and the
 * response cache. Numbers are integers; fractional numbers, such as the note
 * times a recording carries, are not modelled.
 */
module Json {
  import opened Wrappers

  datatype Json =
    | JNull
    | JBool(b: bool)
    | JNum(n: int)
    | JStr(s: string)
    | JArr(items: seq<Json>)
    | JObj(fields: seq<(string, Json)>)

  /** JavaScript truthiness of a parsed JSON value, as `if (x)` decides it. */
  predicate Truthy(j: Json) {
    match j
    case JNull => false
    case JBool(b) => b
    case JNum(n) => n != 0
    case JStr(s) => s != ""
    case JArr(_) => true
    case JObj(_) => true
  }

  /** Truthiness of a property that may be absent: `undefined` is falsy. */
  predicate TruthyField(f: Option<Json>) {
    f.Some? && Truthy(f.value)
  }

  /** The last binding of `name` in a field list (JSON.parse keeps the last of repeated names). */
  function Lookup(fields: seq<(string, Json)>, name: string): (r: Option<Json>)
    ensures r.Some? <==> exists i :: 0 <= i < |fields| && fields[i].0 == name
    ensures r.Some? ==> exists i :: 0 <= i < |fields| && fields[i] == (name, r.value)
    decreases |fields|
  {
    if |fields| == 0 then None
    else if fields[|fields| - 1].0 == name then Some(fields[|fields| - 1].1)
    else
      var r := Lookup(fields[..|fields| - 1], name);
      assert forall i :: 0 <= i < |fields| - 1 ==> fields[..|fields| - 1][i] == fields[i];
      r
  }

  /** Property access `obj.name`: `undefined` (None) on a missing name or on a value that is not an object. */
  function Get(j: Json, name: string): (r: Option<Json>)
    ensures r.Some? <==> j.JObj? && exists i :: 0 <= i < |j.fields| && j.fields[i].0 == name
  {
    if j.JObj? then Lookup(j.fields, name) else None
  }

  /** True when an object carries a property called `name`. */
  predicate HasKey(j: Json, name: string) {
    j.JObj? && exists i :: 0 <= i < |j.fields| && j.fields[i].0 == name
  }
}
