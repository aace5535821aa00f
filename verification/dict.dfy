/** Python's `dict` keeps its keys in insertion order, and the order of the detailed
    output follows it; an insertion-ordered dictionary is therefore modelled as a
    sequence of key/value pairs with distinct keys. */
module Dict {
  import opened Util

  type Dict<K, V> = seq<(K, V)>

  /** The keys, in insertion order (`list(d.keys())`). */
  function Keys<K, V>(d: Dict<K, V>): (ks: seq<K>)
    ensures |ks| == |d|
    ensures forall i :: 0 <= i < |d| ==> ks[i] == d[i].0
  {
    if d == [] then [] else [d[0].0] + Keys(d[1..])
  }

  predicate Distinct<K(==)>(ks: seq<K>) {
    forall i, j :: 0 <= i < j < |ks| ==> ks[i] != ks[j]
  }

  /** The shape every Python dict has: no key twice. */
  predicate UniqueKeys<K(==), V>(d: Dict<K, V>) {
    Distinct(Keys(d))
  }

  /** `d.get(k)`. */
  function Get<K(==), V>(d: Dict<K, V>, k: K): (r: Option<V>)
    ensures r.Some? <==> k in Keys(d)
  {
    if d == [] then None
    else if d[0].0 == k then Some(d[0].1)
    else Get(d[1..], k)
  }

  /** `d[k] = v`: an existing key keeps its position and gets the new value, a new key
      is appended at the end. */
  function Put<K(==,!new), V>(d: Dict<K, V>, k: K, v: V): (r: Dict<K, V>)
    ensures Get(r, k) == Some(v)
    ensures forall k' :: k' != k ==> Get(r, k') == Get(d, k')
  {
    if d == [] then [(k, v)]
    else if d[0].0 == k then
      assert ([(k, v)] + d[1..])[1..] == d[1..];
      [(k, v)] + d[1..]
    else
      var r := Put(d[1..], k, v);
      assert ([d[0]] + r)[1..] == r;
      [d[0]] + r
  }

  /** An existing key keeps its position, a new key goes last. */
  lemma {:induction false} PutKeys<K(!new), V>(d: Dict<K, V>, k: K, v: V)
    ensures Keys(Put(d, k, v)) == if k in Keys(d) then Keys(d) else Keys(d) + [k]
  {
    if d != [] {
      var r := Put(d, k, v);
      KeysCons(d);
      KeysCons(r);
      if d[0].0 == k {
        assert r[1..] == d[1..];
      } else {
        var r' := Put(d[1..], k, v);
        assert r[1..] == r';
        PutKeys(d[1..], k, v);
        assert k in Keys(d) <==> k in Keys(d[1..]);
        Associative([d[0].0], Keys(d[1..]), [k]);
      }
    }
  }

  lemma KeysCons<K, V>(d: Dict<K, V>)
    requires d != []
    ensures Keys(d) == [d[0].0] + Keys(d[1..])
  {
  }

  /** Storing under a key never makes two entries share a key. */
  lemma PutKeepsUniqueKeys<K(!new), V>(d: Dict<K, V>, k: K, v: V)
    ensures UniqueKeys(d) ==> UniqueKeys(Put(d, k, v))
  {
    PutKeys(d, k, v);
    var ks := Keys(d);
    if UniqueKeys(d) && k !in ks {
      var ks' := ks + [k];
      forall a, b | 0 <= a < b < |ks'| ensures ks'[a] != ks'[b] {
        if b == |ks| {
          assert ks'[a] == ks[a];
        }
      }
    }
  }

  /** `d[k].append(v)` on a `defaultdict(list)`: the list under `k` (empty when `k` is
      new) gets `v` at its end. */
  function AppendTo<K(==,!new), V>(d: Dict<K, seq<V>>, k: K, v: V): (r: Dict<K, seq<V>>)
    ensures Get(r, k) == Some(Get(d, k).GetOr([]) + [v])
    ensures forall k' :: k' != k ==> Get(r, k') == Get(d, k')
    ensures k in Keys(d) ==> Keys(r) == Keys(d)
    ensures k !in Keys(d) ==> Keys(r) == Keys(d) + [k]
    ensures UniqueKeys(d) ==> UniqueKeys(r)
  {
    PutKeepsUniqueKeys(d, k, Get(d, k).GetOr([]) + [v]);
    PutKeys(d, k, Get(d, k).GetOr([]) + [v]);
    Put(d, k, Get(d, k).GetOr([]) + [v])
  }

  /** The number of values held under all keys (`sum(len(v) for v in d.values())`). */
  function TotalLength<K, V>(d: Dict<K, seq<V>>): nat {
    if d == [] then 0 else |d[0].1| + TotalLength(d[1..])
  }

  /** Appending one value to a key's list adds exactly one value overall. */
  lemma {:induction false} AppendToLength<K(!new), V>(d: Dict<K, seq<V>>, k: K, v: V)
    ensures TotalLength(AppendTo(d, k, v)) == TotalLength(d) + 1
  {
    if d != [] && d[0].0 != k {
      AppendToLength(d[1..], k, v);
      assert AppendTo(d, k, v) == [d[0]] + AppendTo(d[1..], k, v);
    }
  }

  /** A dict has as many entries as distinct keys. */
  lemma {:induction false} KeySetSize<K, V>(d: Dict<K, V>)
    requires UniqueKeys(d)
    ensures |set k | k in Keys(d)| == |d|
  {
    if d != [] {
      var rest := d[1..];
      var ks := Keys(d);
      assert Keys(rest) == ks[1..];
      assert UniqueKeys(rest) by {
        forall i, j | 0 <= i < j < |Keys(rest)| ensures Keys(rest)[i] != Keys(rest)[j] {
          assert ks[i + 1] != ks[j + 1];
        }
      }
      KeySetSize(rest);
      ElementsCons(ks);
      assert ks[0] !in Keys(rest) by {
        forall j | 0 <= j < |Keys(rest)| ensures Keys(rest)[j] != ks[0] {
          assert ks[j + 1] != ks[0];
        }
      }
    }
  }

  lemma ElementsCons<K>(ks: seq<K>)
    requires ks != []
    ensures (set k | k in ks) == {ks[0]} + (set k | k in ks[1..])
  {
    forall k | k in ks ensures k == ks[0] || k in ks[1..] {
      var i :| 0 <= i < |ks| && ks[i] == k;
      if i > 0 {
        assert ks[1..][i - 1] == k;
      }
    }
  }

  /** The dictionary as a finite map: what lookups see, without the order. */
  function AsMap<K, V>(d: Dict<K, V>): map<K, V> {
    if d == [] then map[] else AsMap(d[1..])[d[0].0 := d[0].1]
  }

  lemma {:induction false} AsMapKeys<K, V>(d: Dict<K, V>)
    ensures AsMap(d).Keys == set k | k in Keys(d)
  {
    if d != [] {
      AsMapKeys(d[1..]);
      assert Keys(d) == [d[0].0] + Keys(d[1..]);
    }
  }

  /** With distinct keys the map has as many entries as the dictionary. */
  lemma AsMapSize<K, V>(d: Dict<K, V>)
    requires UniqueKeys(d)
    ensures |AsMap(d)| == |d|
  {
    KeySetSize(d);
    AsMapKeys(d);
    assert |AsMap(d).Keys| == |AsMap(d)|;
  }

  /** `d[k] = v` as the map sees it. */
  lemma {:induction false} PutAsMap<K(!new), V>(d: Dict<K, V>, k: K, v: V)
    ensures AsMap(Put(d, k, v)) == AsMap(d)[k := v]
  {
    if d != [] {
      var m := AsMap(d[1..]);
      if d[0].0 == k {
        assert ([(k, v)] + d[1..])[1..] == d[1..];
        assert AsMap(Put(d, k, v)) == m[k := v];
        Overwrite(m, k, d[0].1, v);
      } else {
        PutAsMap(d[1..], k, v);
        assert ([d[0]] + Put(d[1..], k, v))[1..] == Put(d[1..], k, v);
        assert AsMap(Put(d, k, v)) == m[k := v][d[0].0 := d[0].1];
        Commute(m, k, v, d[0].0, d[0].1);
      }
    }
  }

  lemma Overwrite<K, V>(m: map<K, V>, k: K, a: V, b: V)
    ensures m[k := a][k := b] == m[k := b]
  {
  }

  lemma Commute<K, V>(m: map<K, V>, k: K, a: V, j: K, b: V)
    requires k != j
    ensures m[k := a][j := b] == m[j := b][k := a]
  {
  }
}
