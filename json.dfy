/** JavaScript values as they reach the search service and the index builder. */
module Json {

  /** A JSON-like JavaScript value. Numbers are kept as integers: no validator
      or clause builder looks at their value. */
  datatype Json =
    | JNull
    | JBool(b: bool)
    | JNum(n: int)
    | JString(s: string)
    | JArray(items: seq<Json>)
    | JObject(fields: map<string, Json>)

  datatype Option<+T> = None | Some(value: T)
}

/** A plain JavaScript object used as a dictionary: `Object.keys` lists the
    keys in insertion order, and assigning to an existing key keeps its place.
    (JavaScript lists integer-like keys first, in numeric order; the keys
    here are hash strings, which are not integer-like.) */
module JsObject {

  predicate DistinctStrings(s: seq<string>)
  {
    forall i, j :: 0 <= i < j < |s| ==> s[i] != s[j]
  }

  datatype Dict<V> = Dict(keys: seq<string>, vals: map<string, V>)
  {
    /** `keys` lists every key of `vals` exactly once. */
    predicate Valid()
    {
      && DistinctStrings(keys)
      && (forall k :: k in vals ==> k in keys)
      && (forall i :: 0 <= i < |keys| ==> keys[i] in vals)
    }

    /** `obj[k] = v` */
    function Put(k: string, v: V): (r: Dict<V>)
      ensures Valid() ==> r.Valid()
      ensures r.vals == vals[k := v]
      ensures k in vals ==> r.keys == keys
      ensures k !in vals ==> r.keys == keys + [k]
    {
      if k in vals then Dict(keys, vals[k := v]) else Dict(keys + [k], vals[k := v])
    }
  }

  /** A valid dictionary's key list holds exactly its keys. */
  lemma ValidKeys<V>(d: Dict<V>)
    requires d.Valid()
    ensures forall k :: k in d.keys <==> k in d.vals
  {
  }

  function Empty<V>(): (r: Dict<V>)
    ensures r.Valid() && r.keys == [] && r.vals == map[]
  {
    Dict([], map[])
  }
}
