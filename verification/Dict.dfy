/** Insertion-ordered dictionaries: what the source's dict loops iterate over. */
module Dict {
  datatype Option<+T> = None | Some(value: T)

  type Dict<K(==), V> = seq<(K, V)>

  function Get<K(==,!new), V>(d: Dict<K, V>, k: K): (r: Option<V>)
    ensures r.Some? ==> (k, r.value) in d
    ensures r.None? ==> forall i :: 0 <= i < |d| ==> d[i].0 != k
  {
    if d == [] then None else if d[0].0 == k then Some(d[0].1) else Get(d[1..], k)
  }

  /** d[k] = v: keeps an existing key in place, appends a new one. */
  function Set<K(==,!new), V>(d: Dict<K, V>, k: K, v: V): (r: Dict<K, V>)
    ensures Get(r, k) == Some(v)
    ensures forall j :: j != k ==> Get(r, j) == Get(d, j)
  {
    if d == [] then [(k, v)]
    else if d[0].0 == k then [(k, v)] + d[1..]
    else
      var rest := Set(d[1..], k, v);
      assert ([d[0]] + rest)[1..] == rest;
      [d[0]] + rest
  }

  /** del d[k] (nothing when the key is absent). */
  function Remove<K(==,!new), V>(d: Dict<K, V>, k: K): (r: Dict<K, V>)
    ensures forall j :: j != k ==> Get(r, j) == Get(d, j)
    ensures forall j :: Get(d, j).None? ==> Get(r, j).None?
  {
    if d == [] then []
    else if d[0].0 == k then d[1..]
    else
      var rest := Remove(d[1..], k);
      assert ([d[0]] + rest)[1..] == rest;
      [d[0]] + rest
  }

  /** Sum of a weight over the items, in order. */
  function Sum<K(==,!new), V>(d: Dict<K, V>, weight: (K, V) -> real): real {
    if d == [] then 0.0 else weight(d[0].0, d[0].1) + Sum(d[1..], weight)
  }

  lemma SumOne<K(!new), V>(k: K, v: V, weight: (K, V) -> real)
    ensures Sum([(k, v)], weight) == weight(k, v)
  {
    assert [(k, v)][1..] == [];
  }

  lemma {:induction false} SumAppend<K(!new), V>(d: Dict<K, V>, k: K, v: V, weight: (K, V) -> real)
    ensures Sum(d + [(k, v)], weight) == Sum(d, weight) + weight(k, v)
  {
    if d == [] {
      SumOne(k, v, weight);
      assert d + [(k, v)] == [(k, v)];
    } else {
      SumAppend(d[1..], k, v, weight);
      assert (d + [(k, v)])[1..] == d[1..] + [(k, v)];
    }
  }

  function WeightAt<K(==,!new), V>(d: Dict<K, V>, k: K, weight: (K, V) -> real): real {
    match Get(d, k) case None => 0.0 case Some(v) => weight(k, v)
  }

  lemma {:induction false} SumSet<K(!new), V>(d: Dict<K, V>, k: K, v: V, weight: (K, V) -> real)
    ensures Sum(Set(d, k, v), weight) == Sum(d, weight) - WeightAt(d, k, weight) + weight(k, v)
  {
    if d != [] {
      if d[0].0 == k {
        assert Set(d, k, v)[1..] == d[1..];
      } else {
        SumSet(d[1..], k, v, weight);
        assert Set(d, k, v)[1..] == Set(d[1..], k, v);
      }
    }
  }

  lemma {:induction false} SumRemove<K(!new), V>(d: Dict<K, V>, k: K, weight: (K, V) -> real)
    ensures Sum(Remove(d, k), weight) == Sum(d, weight) - WeightAt(d, k, weight)
  {
    if d != [] && d[0].0 != k {
      SumRemove(d[1..], k, weight);
      assert Remove(d, k)[1..] == Remove(d[1..], k);
    }
  }

  predicate Distinct<K(==,!new), V>(d: Dict<K, V>) {
    d == [] || (Get(d[1..], d[0].0).None? && Distinct(d[1..]))
  }

  lemma {:induction false} DistinctSet<K(!new), V>(d: Dict<K, V>, k: K, v: V)
    requires Distinct(d)
    ensures Distinct(Set(d, k, v))
  {
    if d != [] {
      if d[0].0 == k {
        assert Set(d, k, v)[1..] == d[1..];
      } else {
        DistinctSet(d[1..], k, v);
        assert Set(d, k, v)[1..] == Set(d[1..], k, v);
      }
    }
  }

  lemma {:induction false} DistinctRemove<K(!new), V>(d: Dict<K, V>, k: K)
    requires Distinct(d)
    ensures Distinct(Remove(d, k)) && Get(Remove(d, k), k).None?
  {
    if d != [] && d[0].0 != k {
      DistinctRemove(d[1..], k);
      assert Remove(d, k)[1..] == Remove(d[1..], k);
    }
  }

  lemma {:induction false} DistinctAt<K(!new), V>(d: Dict<K, V>, i: nat, j: nat)
    requires Distinct(d) && i < j < |d|
    ensures d[i].0 != d[j].0
  {
    if i == 0 {
      assert d[1..][j - 1] == d[j];
    } else {
      DistinctAt(d[1..], i - 1, j - 1);
    }
  }

  lemma {:induction false} GetAt<K(!new), V>(d: Dict<K, V>, i: nat)
    requires Distinct(d) && i < |d|
    ensures Get(d, d[i].0) == Some(d[i].1)
  {
    if i != 0 {
      GetAt(d[1..], i - 1);
      DistinctAt(d, 0, i);
    }
  }
}
