/** A JavaScript `Map`, seen as its list of entries in insertion order. `values()` and
    `Array.from` walk the entries in that order; `set` on a key already present overwrites
    the value where the entry stands, and on a new key appends an entry at the end. */
module OrderedMaps {
  import opened Wrappers

  /** The keys of `m`, in insertion order. */
  function Keys<K, V>(m: seq<(K, V)>): seq<K> {
    seq(|m|, i requires 0 <= i < |m| => m[i].0)
  }

  /** `Map.prototype.values()`: the values of `m`, in insertion order. */
  function Values<K, V>(m: seq<(K, V)>): seq<V> {
    seq(|m|, i requires 0 <= i < |m| => m[i].1)
  }

  /** Appending an entry appends its value to `values()`. */
  lemma ValuesAppend<K, V>(m: seq<(K, V)>, k: K, v: V)
    ensures Values(m + [(k, v)]) == Values(m) + [v]
  {
  }

  /** A `Map` never holds two entries under one key. */
  ghost predicate UniqueKeys<K, V>(m: seq<(K, V)>) {
    forall i, j :: 0 <= i < j < |m| ==> m[i].0 != m[j].0
  }

  /** Every entry is stored under the key that `key` reads off its own value. */
  ghost predicate KeyedBy<K, V>(m: seq<(K, V)>, key: V -> K) {
    forall i :: 0 <= i < |m| ==> m[i].0 == key(m[i].1)
  }

  /** `Map.prototype.get`: the value stored under `k`, or `undefined`. */
  function Get<K(==), V>(m: seq<(K, V)>, k: K): (r: Option<V>)
    ensures r.None? <==> k !in Keys(m)
    ensures r.Some? ==> (k, r.value) in m
  {
    if m == [] then None
    else
      assert Keys(m) == [m[0].0] + Keys(m[1..]);
      if m[0].0 == k then Some(m[0].1) else Get(m[1..], k)
  }

  /** In a map without duplicate keys, `get` finds each entry's own value. */
  lemma {:induction false} GetEntry<K, V>(m: seq<(K, V)>, i: nat)
    requires UniqueKeys(m) && i < |m|
    ensures Get(m, m[i].0) == Some(m[i].1)
  {
    if i > 0 {
      assert m[0].0 != m[i].0;
      assert m[1..][i - 1] == m[i];
      GetEntry(m[1..], i - 1);
    }
  }

  /** A value that `get` returns carries the key it was looked up under. */
  lemma GetKeyedBy<K, V>(m: seq<(K, V)>, key: V -> K, k: K)
    requires KeyedBy(m, key) && Get(m, k).Some?
    ensures key(Get(m, k).value) == k
  {
  }

  /** `Map.prototype.set`: overwrites the entry under `k` in place, or appends `(k, v)`. */
  function Set<K(==), V>(m: seq<(K, V)>, k: K, v: V): (r: seq<(K, V)>)
    ensures Keys(r) == if k in Keys(m) then Keys(m) else Keys(m) + [k]
    ensures k !in Keys(m) ==> r == m + [(k, v)]
    ensures forall i :: 0 <= i < |m| && m[i].0 != k ==> r[i] == m[i]
    ensures forall i :: 0 <= i < |m| && m[i].0 == k && (forall j :: 0 <= j < i ==> m[j].0 != k) ==> r[i] == (k, v)
    ensures forall i :: 0 <= i < |r| ==> r[i] == (k, v) || r[i] in m
  {
    if m == [] then [(k, v)]
    else
      assert Keys(m) == [m[0].0] + Keys(m[1..]);
      if m[0].0 == k then [(k, v)] + m[1..]
      else [m[0]] + Set(m[1..], k, v)
  }

  /** After `set`, `get` answers `v` under `k` and what it answered before under every other key. */
  lemma {:induction false} SetThenGet<K, V>(m: seq<(K, V)>, k: K, v: V, k': K)
    ensures Get(Set(m, k, v), k') == if k' == k then Some(v) else Get(m, k')
  {
    if m != [] && m[0].0 != k {
      SetThenGet(m[1..], k, v, k');
    }
  }

  /** `set` never introduces a second entry under one key. */
  lemma {:induction false} SetUniqueKeys<K, V>(m: seq<(K, V)>, k: K, v: V)
    requires UniqueKeys(m)
    ensures UniqueKeys(Set(m, k, v))
  {
    var r := Set(m, k, v);
    forall i, j | 0 <= i < j < |r| ensures r[i].0 != r[j].0 {
      assert Keys(r)[i] == r[i].0 && Keys(r)[j] == r[j].0;
      if j == |m| {
        assert k !in Keys(m);
        assert r[i].0 == m[i].0 == Keys(m)[i];
      } else {
        assert Keys(r)[i] == Keys(m)[i] && Keys(r)[j] == Keys(m)[j];
      }
    }
  }

  /** Setting a value whose own key is `k` keeps every entry under its own key. */
  lemma SetKeyedBy<K(!new), V>(m: seq<(K, V)>, key: V -> K, k: K, v: V)
    requires KeyedBy(m, key) && key(v) == k
    ensures KeyedBy(Set(m, k, v), key)
  {
  }
}
