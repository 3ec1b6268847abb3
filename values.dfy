/** Stand-in for the uniform value the format processors produce (`crate::values::VizValue`).
    Only its shape matters to the front controller: whether the root is an object, and the
    object's entries in iteration order. The leaf variants follow the documented design. */
module Values {

  datatype Value =
    | Null
    | Bool(b: bool)
    | Number(literal: string)          // the number as the source format printed it
    | Str(s: string)
    | Array(items: seq<Value>)
    | Object(entries: seq<(string, Value)>)   // insertion order, as the map iterates

  /** An object's keys are unique: the map cannot hold a key twice. */
  predicate KeysUnique(entries: seq<(string, Value)>)
  {
    forall i, j :: 0 <= i < j < |entries| ==> entries[i].0 != entries[j].0
  }

  /** The keys of an object, in iteration order. */
  function Keys(entries: seq<(string, Value)>): (ks: seq<string>)
    ensures |ks| == |entries|
  {
    if entries == [] then [] else [entries[0].0] + Keys(entries[1..])
  }
}
