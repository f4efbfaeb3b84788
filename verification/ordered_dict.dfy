/** An insertion-ordered dictionary, as Python's `dict` is: an association
    list whose keys are distinct. Writing an existing key replaces its value
    in place; writing a new key appends it. */
module OrderedDict {
  import opened Wrappers

  datatype Dict<K, V> = Dict(entries: seq<(K, V)>)

  function Empty<K, V>(): Dict<K, V> {
    Dict([])
  }

  /** The keys in insertion order. */
  function Keys<K, V>(d: Dict<K, V>): (ks: seq<K>)
    ensures |ks| == |d.entries|
    ensures forall i :: 0 <= i < |ks| ==> ks[i] == d.entries[i].0
  {
    seq(|d.entries|, i requires 0 <= i < |d.entries| => d.entries[i].0)
  }

  /** The values in insertion order. */
  function Values<K, V>(d: Dict<K, V>): (vs: seq<V>)
    ensures |vs| == |d.entries|
    ensures forall i :: 0 <= i < |vs| ==> vs[i] == d.entries[i].1
  {
    seq(|d.entries|, i requires 0 <= i < |d.entries| => d.entries[i].1)
  }

  /** The dictionary invariant: no key occurs twice. */
  predicate DistinctKeys<K(==,!new), V>(d: Dict<K, V>) {
    UniqueKeys(d.entries)
  }

  predicate UniqueKeys<K(==,!new), V>(es: seq<(K, V)>) {
    forall i, j :: 0 <= i < j < |es| ==> es[i].0 != es[j].0
  }

  predicate HasKey<K(==,!new), V>(d: Dict<K, V>, k: K) {
    k in Keys(d)
  }

  function Find<K(==,!new), V>(es: seq<(K, V)>, k: K): (r: Option<V>)
    ensures r.None? <==> forall i :: 0 <= i < |es| ==> es[i].0 != k
    ensures r.Some? ==> exists i :: 0 <= i < |es| && es[i] == (k, r.value)
  {
    if |es| == 0 then None
    else if es[0].0 == k then Some(es[0].1)
    else
      var r := Find(es[1..], k);
      assert forall i :: 1 <= i < |es| ==> es[i] == es[1..][i - 1];
      r
  }

  /** Lookup: `None` for an absent key, otherwise the value stored under it
      (`dict.get(k)`). */
  function Get<K(==,!new), V>(d: Dict<K, V>, k: K): (r: Option<V>)
    ensures r.Some? <==> HasKey(d, k)
    ensures r.Some? ==> (k, r.value) in d.entries
  {
    Find(d.entries, k)
  }

  /** The entries after writing `k`: replaced at its first position, or
      appended when absent. */
  function Store<K(==,!new), V>(es: seq<(K, V)>, k: K, v: V): seq<(K, V)> {
    if |es| == 0 then [(k, v)]
    else if es[0].0 == k then [(k, v)] + es[1..]
    else [es[0]] + Store(es[1..], k, v)
  }

  lemma {:induction false} StoreLookup<K(!new), V>(es: seq<(K, V)>, k: K, v: V)
    ensures Find(Store(es, k, v), k) == Some(v)
    ensures forall j :: j != k ==> Find(Store(es, k, v), j) == Find(es, j)
  {
    if |es| > 0 && es[0].0 != k {
      StoreLookup(es[1..], k, v);
      var r := Store(es, k, v);
      assert r[1..] == Store(es[1..], k, v);
    } else if |es| > 0 {
      assert Store(es, k, v)[1..] == es[1..];
    }
  }

  lemma {:induction false} StoreShape<K(!new), V>(es: seq<(K, V)>, k: K, v: V)
    ensures Find(es, k).Some? ==>
              |Store(es, k, v)| == |es| && forall i :: 0 <= i < |es| ==> Store(es, k, v)[i].0 == es[i].0
    ensures Find(es, k).None? ==> Store(es, k, v) == es + [(k, v)]
    ensures forall i :: 0 <= i < |Store(es, k, v)| ==> Store(es, k, v)[i] == (k, v) || Store(es, k, v)[i] in es
  {
    if |es| > 0 && es[0].0 != k {
      StoreShape(es[1..], k, v);
      var r := Store(es, k, v);
      assert r[1..] == Store(es[1..], k, v);
      assert forall i :: 1 <= i < |es| ==> es[i] == es[1..][i - 1];
      assert Find(es, k) == Find(es[1..], k);
    }
  }

  lemma {:induction false} StoreUnique<K(!new), V>(es: seq<(K, V)>, k: K, v: V)
    ensures UniqueKeys(es) ==> UniqueKeys(Store(es, k, v))
  {
    StoreShape(es, k, v);
    var r := Store(es, k, v);
    if UniqueKeys(es) && Find(es, k).None? {
      assert forall i :: 0 <= i < |es| ==> r[i] == es[i];
    }
  }

  /** Where the written pair goes: an existing key keeps its position, a new
      key is appended, and no other pair appears. */
  lemma PutShape<K(!new), V>(d: Dict<K, V>, k: K, v: V)
    ensures HasKey(d, k) ==> Keys(Dict(Store(d.entries, k, v))) == Keys(d)
    ensures !HasKey(d, k) ==> Store(d.entries, k, v) == d.entries + [(k, v)]
    ensures forall i :: 0 <= i < |Store(d.entries, k, v)| ==>
              Store(d.entries, k, v)[i] == (k, v) || Store(d.entries, k, v)[i] in d.entries
  {
    StoreShape(d.entries, k, v);
    assert HasKey(d, k) <==> Find(d.entries, k).Some?;
    if HasKey(d, k) {
      var r := Dict(Store(d.entries, k, v));
      assert |Keys(r)| == |Keys(d)|;
      assert forall i :: 0 <= i < |Keys(r)| ==> Keys(r)[i] == Keys(d)[i];
    }
  }

  /** `d[k] = v`. Afterwards `k` maps to `v`; every other key keeps its
      value; an existing key keeps its position and a new one goes last. */
  function Put<K(==,!new), V>(d: Dict<K, V>, k: K, v: V): (r: Dict<K, V>)
    ensures Get(r, k) == Some(v)
    ensures forall j :: j != k ==> Get(r, j) == Get(d, j)
    ensures HasKey(d, k) ==> Keys(r) == Keys(d)
    ensures !HasKey(d, k) ==> r.entries == d.entries + [(k, v)]
    ensures DistinctKeys(d) ==> DistinctKeys(r)
    ensures forall i :: 0 <= i < |r.entries| ==> r.entries[i] == (k, v) || r.entries[i] in d.entries
  {
    StoreLookup(d.entries, k, v);
    PutShape(d, k, v);
    StoreUnique(d.entries, k, v);
    Dict(Store(d.entries, k, v))
  }

  /** Writing the same pair twice is the same as writing it once. */
  lemma {:induction false} PutIdempotent<K(!new), V>(d: Dict<K, V>, k: K, v: V)
    ensures Put(Put(d, k, v), k, v) == Put(d, k, v)
  {
    StoreIdempotent(d.entries, k, v);
  }

  lemma {:induction false} StoreIdempotent<K(!new), V>(es: seq<(K, V)>, k: K, v: V)
    ensures Store(Store(es, k, v), k, v) == Store(es, k, v)
  {
    if |es| == 0 {
    } else if es[0].0 == k {
      assert Store(es, k, v)[1..] == es[1..];
    } else {
      StoreIdempotent(es[1..], k, v);
      assert Store(es, k, v)[1..] == Store(es[1..], k, v);
    }
  }
}
