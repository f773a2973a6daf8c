/** OpenStreetMap tag dictionaries and the lookups the importers make on them. */
module Tags {
  import opened Wrappers

  /** The `tags` object of an OSM element; a missing `tags` is the empty map. */
  type TagMap = map<string, string>

  /** `tags.get(k) == v`. */
  predicate Is(t: TagMap, k: string, v: string) {
    k in t && t[k] == v
  }

  /** `bool(tags.get(k))`: the key is present with a non-empty value. */
  predicate Truthy(t: TagMap, k: string) {
    k in t && t[k] != ""
  }

  /** `tags.get(k1) or tags.get(k2) or ... or fallback`. */
  function FirstTruthy(t: TagMap, keys: seq<string>, fallback: string): (r: string)
    ensures r == fallback || exists i :: 0 <= i < |keys| && Truthy(t, keys[i]) && r == t[keys[i]]
    ensures (forall i :: 0 <= i < |keys| ==> !Truthy(t, keys[i])) ==> r == fallback
    ensures forall i :: 0 <= i < |keys| && Truthy(t, keys[i]) && (forall j :: 0 <= j < i ==> !Truthy(t, keys[j])) ==> r == t[keys[i]]
    decreases |keys|
  {
    if keys == [] then fallback
    else if Truthy(t, keys[0]) then t[keys[0]]
    else
      var r := FirstTruthy(t, keys[1..], fallback);
      assert forall i :: 1 <= i < |keys| ==> keys[i] == keys[1..][i - 1];
      r
  }
}
