/**
 * Python's `dict` (and `OrderedDict`): a map that remembers the order in which its keys
 * were first inserted. Assigning to an existing key replaces the value in place;
 * assigning to a new key appends it at the end.
 */
module Dicts {
  import opened Ordering

  datatype Dict<K(==,!new), V> = Dict(keys: seq<K>, entries: map<K, V>)
  {
    /** The key list holds each key of the map exactly once. */
    ghost predicate Valid()
    {
      Distinct(keys) && (forall k :: k in entries <==> k in keys)
    }

    /** `d[k] = v`. */
    function Put(k: K, v: V): (d: Dict<K, V>)
      ensures Valid() ==> d.Valid()
      ensures k in d.entries && d.entries[k] == v
      ensures forall j :: j != k && j in entries ==> j in d.entries && d.entries[j] == entries[j]
      ensures forall j :: j in d.entries ==> j == k || j in entries
      ensures k in entries ==> d.keys == keys
      ensures k !in entries ==> d.keys == keys + [k]
    {
      Dict(if k in entries then keys else keys + [k], entries[k := v])
    }
  }

  /** Every listed key has an entry, as for any Python dictionary's `keys()`. */
  predicate KeysPresent<K(==,!new), V>(d: Dict<K, V>)
  {
    forall k :: k in d.keys ==> k in d.entries
  }

  function Empty<K(==,!new), V>(): (d: Dict<K, V>)
    ensures d.Valid() && d.keys == [] && d.entries == map[]
  {
    Dict([], map[])
  }
}
