/** A Python dict as far as the client observes it: a finite map that also
    remembers the order in which keys were first inserted, which is the order
    `values()` yields. */
module OrderedMap {

  datatype Dict<K, V> = Dict(keys: seq<K>, entries: map<K, V>)

  /** Keys are listed once each, and exactly the keys of the map are listed. */
  ghost predicate Valid<K(!new), V>(d: Dict<K, V>) {
    && (forall i, j :: 0 <= i < j < |d.keys| ==> d.keys[i] != d.keys[j])
    && (forall k :: k in d.entries <==> k in d.keys)
  }

  function Empty<K(!new), V>(): (r: Dict<K, V>)
    ensures Valid(r) && r.entries == map[]
  {
    Dict([], map[])
  }

  /** `d[k] = v`: a new key goes last; a key already present keeps its place
      and takes the new value. */
  function Put<K(!new), V>(d: Dict<K, V>, k: K, v: V): (r: Dict<K, V>)
    ensures Valid(d) ==> Valid(r)
    ensures r.entries == d.entries[k := v]
    ensures k in d.entries ==> r.keys == d.keys
    ensures k !in d.entries ==> r.keys == d.keys + [k]
  {
    Dict(if k in d.entries then d.keys else d.keys + [k], d.entries[k := v])
  }

  /** `list(d.values())`. */
  function Values<K(!new), V>(d: Dict<K, V>): (r: seq<V>)
    requires Valid(d)
    ensures |r| == |d.keys|
    ensures forall i :: 0 <= i < |r| ==> r[i] == d.entries[d.keys[i]]
  {
    seq(|d.keys|, i requires 0 <= i < |d.keys| => d.entries[d.keys[i]])
  }
}
