/**
 * Kotlin's `mutableMapOf()` is a LinkedHashMap: a map that also remembers the
 * order in which its keys were first inserted, and iterates in that order.
 * Overwriting a key keeps its position.
 */
module LinkedMaps {
  import opened Wrappers

  datatype LinkedMap<K(==,!new), V> = LinkedMap(keys: seq<K>, values: map<K, V>) {

    /** Keys are listed once each, and exactly the keys of the map are listed. */
    ghost predicate Valid() {
      && (forall i, j :: 0 <= i < j < |keys| ==> keys[i] != keys[j])
      && (forall k :: k in values <==> k in keys)
    }

    /** `map[k]`: the value stored under k, if any. */
    function Get(k: K): Option<V> {
      if k in values then Some(values[k]) else None
    }

    /** `map[k] = v`: overwrite in place, or append a new key at the end. */
    function Put(k: K, v: V): (r: LinkedMap<K, V>)
      requires Valid()
      ensures r.Valid()
      ensures r.Get(k) == Some(v)
      ensures forall j :: j != k ==> r.Get(j) == Get(j)
      ensures k in values ==> r.keys == keys
      ensures k !in values ==> r.keys == keys + [k]
    {
      if k in values then LinkedMap(keys, values[k := v])
      else LinkedMap(keys + [k], values[k := v])
    }

    /** The number of entries. */
    function Size(): (n: nat)
      requires Valid()
      ensures n == 0 <==> values == map[]
    {
      assert keys != [] ==> keys[0] in values;
      |keys|
    }

    /** The entries in iteration (insertion) order: `map.entries`. */
    function Entries(): (r: seq<(K, V)>)
      requires Valid()
      ensures |r| == |keys|
      ensures forall i :: 0 <= i < |r| ==> r[i].0 == keys[i] && Get(r[i].0) == Some(r[i].1)
    {
      seq(|keys|, i requires 0 <= i < |keys| => (keys[i], values[keys[i]]))
    }
  }

  /** The values in iteration order: `map.values`. */
  function ValueList<K(==,!new), V>(m: LinkedMap<K, V>): (r: seq<V>)
    requires m.Valid()
    ensures |r| == |m.keys|
    ensures forall i :: 0 <= i < |r| ==> r[i] == m.values[m.keys[i]]
  {
    seq(|m.keys|, i requires 0 <= i < |m.keys| => m.values[m.keys[i]])
  }

  /** Put appends a new key's value, or overwrites the value at the key's position. */
  lemma PutValueList<K(!new), V>(m: LinkedMap<K, V>, k: K, v: V)
    requires m.Valid()
    ensures k !in m.values ==> ValueList(m.Put(k, v)) == ValueList(m) + [v]
    ensures k in m.values ==>
              exists i :: 0 <= i < |m.keys| && m.keys[i] == k && ValueList(m.Put(k, v)) == ValueList(m)[i := v]
  {
    if k in m.values {
      var i :| 0 <= i < |m.keys| && m.keys[i] == k;
      assert ValueList(m.Put(k, v)) == ValueList(m)[i := v];
    } else {
      assert ValueList(m.Put(k, v)) == ValueList(m) + [v];
    }
  }

  /** `mutableMapOf()`. */
  function Empty<K(==,!new), V>(): (r: LinkedMap<K, V>)
    ensures r.Valid() && r.values == map[]
  {
    LinkedMap([], map[])
  }
}
