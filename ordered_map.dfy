/** A JS `Map` used as an accumulator: entries in first-insertion order, at
    most one per key, updated in place when the key is already present. */
module OrderedMap {
  import opened Types

  datatype Entry<K, V> = Entry(key: K, value: V)

  function Keys<K, V>(es: seq<Entry<K, V>>): (ks: seq<K>)
    ensures |ks| == |es|
    ensures forall i :: 0 <= i < |es| ==> ks[i] == es[i].key
  {
    if es == [] then [] else [es[0].key] + Keys(es[1..])
  }

  predicate DistinctKeys<K(==), V>(es: seq<Entry<K, V>>) {
    forall i, j :: 0 <= i < j < |es| ==> es[i].key != es[j].key
  }

  /** `map.get(k)`: the value of the first entry with that key. */
  function Get<K(==), V>(es: seq<Entry<K, V>>, k: K): (r: Option<V>)
    ensures r.None? <==> k !in Keys(es)
  {
    if es == [] then None
    else if es[0].key == k then Some(es[0].value)
    else Get(es[1..], k)
  }

  /** `map.set(k, f(map.get(k) || init))`: updates the entry for `k` in
      place, or appends a new entry at the end. A stored value is a list,
      which is always truthy, so `||` falls back to `init` only when the
      key is absent. */
  function Upsert<K(==), V>(es: seq<Entry<K, V>>, k: K, init: V, f: V -> V): seq<Entry<K, V>> {
    if es == [] then [Entry(k, f(init))]
    else if es[0].key == k then [Entry(k, f(es[0].value))] + es[1..]
    else [es[0]] + Upsert(es[1..], k, init, f)
  }

  /** A known key keeps its place; a new key goes to the end. */
  lemma {:induction false} UpsertKeys<K, V>(es: seq<Entry<K, V>>, k: K, init: V, f: V -> V)
    ensures Keys(Upsert(es, k, init, f)) == if k in Keys(es) then Keys(es) else Keys(es) + [k]
  {
    if es != [] {
      assert Keys(es) == [es[0].key] + Keys(es[1..]);
      if es[0].key != k {
        UpsertKeys(es[1..], k, init, f);
        assert Keys(Upsert(es, k, init, f)) == [es[0].key] + Keys(Upsert(es[1..], k, init, f));
      } else {
        assert Keys(Upsert(es, k, init, f)) == [k] + Keys(es[1..]);
      }
    }
  }

  /** Only the entry for `k` changes, and it becomes `f` of its old value
      (of `init` when there was none). */
  lemma {:induction false} UpsertGet<K, V>(es: seq<Entry<K, V>>, k: K, init: V, f: V -> V, j: K)
    ensures Get(Upsert(es, k, init, f), j) == if j == k then Some(f(Get(es, k).GetOr(init))) else Get(es, j)
  {
    if es != [] && es[0].key != k {
      UpsertGet(es[1..], k, init, f, j);
    }
  }

  /** Upserting keeps the keys distinct. */
  lemma UpsertDistinct<K, V>(es: seq<Entry<K, V>>, k: K, init: V, f: V -> V)
    requires DistinctKeys(es)
    ensures DistinctKeys(Upsert(es, k, init, f))
  {
    UpsertKeys(es, k, init, f);
    var r := Upsert(es, k, init, f);
    assert forall i :: 0 <= i < |r| ==> r[i].key == Keys(r)[i];
    assert forall i :: 0 <= i < |es| ==> es[i].key == Keys(es)[i];
  }

  /** With distinct keys, upserting the key of the last entry rewrites that
      entry and leaves the others where they were. */
  lemma {:induction false} UpsertLast<K, V>(es: seq<Entry<K, V>>, init: V, f: V -> V)
    requires es != [] && DistinctKeys(es)
    ensures Upsert(es, es[|es| - 1].key, init, f)
         == es[..|es| - 1] + [Entry(es[|es| - 1].key, f(es[|es| - 1].value))]
  {
    var k := es[|es| - 1].key;
    if |es| > 1 {
      assert es[0].key != k;
      UpsertLast(es[1..], init, f);
      assert es[1..][..|es[1..]| - 1] == es[1..|es| - 1];
      assert es[..|es| - 1] == [es[0]] + es[1..|es| - 1];
    }
  }

  /** A key not yet in the map goes into a new entry at the end. */
  lemma {:induction false} UpsertAbsent<K, V>(es: seq<Entry<K, V>>, k: K, init: V, f: V -> V)
    requires k !in Keys(es)
    ensures Upsert(es, k, init, f) == es + [Entry(k, f(init))]
  {
    if es != [] {
      assert Keys(es) == [es[0].key] + Keys(es[1..]);
      UpsertAbsent(es[1..], k, init, f);
      assert es == [es[0]] + es[1..];
    }
  }
}
