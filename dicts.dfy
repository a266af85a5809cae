/**
 * Python dictionaries with string keys. A `dict` is a finite map that also remembers the order
 * in which its keys were first inserted: `keys()` and `values()` follow that
 * order, assigning to an existing key keeps its place, and a new key goes last.
 */
module Dicts {

  datatype Dict<V> = Dict(keys: seq<string>, entries: map<string, V>)

  predicate Distinct(s: seq<string>) {
    forall i, j :: 0 <= i < j < |s| ==> s[i] != s[j]
  }

  /** The key order lists every key of the map exactly once. */
  predicate Valid<V>(d: Dict<V>) {
    && Distinct(d.keys)
    && (forall k :: k in d.entries ==> k in d.keys)
    && (forall i :: 0 <= i < |d.keys| ==> d.keys[i] in d.entries)
  }

  /** `d[k] = v`. */
  function Put<V>(d: Dict<V>, k: string, v: V): (d': Dict<V>)
    ensures Valid(d) ==> Valid(d')
    ensures k in d'.entries && d'.entries[k] == v
    ensures forall k' :: k' != k ==>
      (k' in d'.entries <==> k' in d.entries) && (k' in d.entries ==> d'.entries[k'] == d.entries[k'])
    ensures Valid(d) && k in d.entries ==> d'.keys == d.keys
    ensures Valid(d) && k !in d.entries ==> d'.keys == d.keys + [k]
  {
    var keys := if k in d.entries then d.keys else d.keys + [k];
    assert Valid(d) && k !in d.entries ==> forall i :: 0 <= i < |d.keys| ==> keys[i] != k;
    Dict(keys, d.entries[k := v])
  }

  /** `{k: v for k in keys}`, for distinct keys. */
  function Uniform<V>(keys: seq<string>, v: V): (d: Dict<V>)
    requires Distinct(keys)
    ensures Valid(d) && d.keys == keys
    ensures forall k :: k in d.entries ==> d.entries[k] == v
  {
    Dict(keys, map k | k in keys :: v)
  }

  /** `list(d.values())`: one value per key, in key order. */
  function Values<V>(d: Dict<V>): (vs: seq<V>)
    requires Valid(d)
    ensures |vs| == |d.keys|
    ensures forall i :: 0 <= i < |vs| ==> vs[i] == d.entries[d.keys[i]]
  {
    seq(|d.keys|, i requires 0 <= i < |d.keys| => d.entries[d.keys[i]])
  }
}
