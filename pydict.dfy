/**
 * A Python `dict`: a finite map that also remembers the order in which its
 * keys were first inserted. `d[k] = v` on a present key keeps its position;
 * `d.values()` and iteration follow insertion order; `len(d)` counts keys.
 */
module PyDict {

  datatype Dict<K, V> = Dict(keys: seq<K>, entries: map<K, V>)

  /** The keys are listed once each, and exactly the mapped keys are listed. */
  ghost predicate Valid<K, V>(d: Dict<K, V>) {
    && (forall i, j :: 0 <= i < j < |d.keys| ==> d.keys[i] != d.keys[j])
    && (forall k :: k in d.entries ==> k in d.keys)
    && (forall i :: 0 <= i < |d.keys| ==> d.keys[i] in d.entries)
  }

  /** `{}` */
  function Empty<K, V>(): (d: Dict<K, V>)
    ensures Valid(d) && d.entries == map[]
  {
    Dict([], map[])
  }

  /** `len(d)` */
  function Len<K, V>(d: Dict<K, V>): nat {
    |d.keys|
  }

  /** `d[k] = v` */
  function Store<K, V>(d: Dict<K, V>, k: K, v: V): (d': Dict<K, V>)
    requires Valid(d)
    ensures Valid(d')
    ensures k in d'.entries && d'.entries[k] == v
    ensures forall k' :: k' in d'.entries && k' != k ==> k' in d.entries
    ensures forall k' :: k' in d.entries && k' != k ==> k' in d'.entries && d'.entries[k'] == d.entries[k']
    ensures d'.keys == if k in d.entries then d.keys else d.keys + [k]
  {
    if k in d.entries then Dict(d.keys, d.entries[k := v]) else Dict(d.keys + [k], d.entries[k := v])
  }

  /** `list(d.values())`: the values in insertion order of their keys. */
  function Values<K, V>(d: Dict<K, V>): (vs: seq<V>)
    requires Valid(d)
    ensures |vs| == Len(d)
    ensures forall j :: 0 <= j < |vs| ==> d.keys[j] in d.entries && vs[j] == d.entries[d.keys[j]]
  {
    seq(|d.keys|, j requires 0 <= j < |d.keys| && d.keys[j] in d.entries => d.entries[d.keys[j]])
  }

  /** Storing under a new key appends its value; under a present key it replaces the value in place. */
  lemma ValuesAfterStore<K, V>(d: Dict<K, V>, k: K, v: V)
    requires Valid(d)
    ensures k !in d.entries ==> Values(Store(d, k, v)) == Values(d) + [v]
    ensures k in d.entries ==> exists p :: 0 <= p < Len(d) && d.keys[p] == k && Values(Store(d, k, v)) == Values(d)[p := v]
  {
    var d' := Store(d, k, v);
    if k !in d.entries {
      assert Values(d') == Values(d) + [v];
    } else {
      var p :| 0 <= p < |d.keys| && d.keys[p] == k;
      assert Values(d') == Values(d)[p := v];
    }
  }

  lemma {:induction false} DistinctKeysCount<K>(keys: seq<K>)
    requires forall i, j :: 0 <= i < j < |keys| ==> keys[i] != keys[j]
    ensures |set k | k in keys| == |keys|
  {
    if |keys| > 0 {
      var init := keys[..|keys| - 1];
      DistinctKeysCount(init);
      assert (set k | k in keys) == (set k | k in init) + {keys[|keys| - 1]};
    }
  }

  /** `len(d)` is the number of entries of the map. */
  lemma LenCountsEntries<K, V>(d: Dict<K, V>)
    requires Valid(d)
    ensures Len(d) == |d.entries|
  {
    DistinctKeysCount(d.keys);
    assert d.entries.Keys == set k | k in d.keys;
  }
}
