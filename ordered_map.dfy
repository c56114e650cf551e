/** Python's dict keeps its keys in first-insertion order; re-assigning an
    existing key replaces the value and keeps the key where it was. The
    parsers' time-indexed tables are such dicts. */
module OrderedMaps {
  import opened Common

  datatype OrderedMap<K(==), V> = OrderedMap(keys: seq<K>, values: map<K, V>) {
    ghost predicate Valid() {
      && Distinct(keys)
      && (forall k :: k in values ==> k in keys)
      && (forall i :: 0 <= i < |keys| ==> keys[i] in values)
    }
  }

  function Empty<K(==), V>(): (d: OrderedMap<K, V>)
    ensures d.Valid() && d.keys == [] && d.values == map[]
  {
    OrderedMap([], map[])
  }

  /** d[k] = v */
  function Put<K(==), V>(d: OrderedMap<K, V>, k: K, v: V): (r: OrderedMap<K, V>)
    ensures d.Valid() ==> r.Valid()
    ensures r.values == d.values[k := v]
    ensures k in d.values ==> r.keys == d.keys
    ensures k !in d.values ==> r.keys == d.keys + [k]
  {
    if k in d.values then OrderedMap(d.keys, d.values[k := v])
    else OrderedMap(d.keys + [k], d.values[k := v])
  }
}
