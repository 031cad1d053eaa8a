/** A Python `dict` as the sequence of its entries in insertion order. */
module PythonDict {
  import opened Options

  type Dict<K, V> = seq<(K, V)>

  /** The position of a key, or the size of the dict. */
  function Find<K(==), V>(d: Dict<K, V>, k: K): (i: nat)
    ensures i <= |d|
    ensures i < |d| ==> d[i].0 == k
    ensures forall j :: 0 <= j < i ==> d[j].0 != k
  {
    if d == [] || d[0].0 == k then 0 else 1 + Find(d[1..], k)
  }

  predicate Has<K(==), V>(d: Dict<K, V>, k: K) {
    Find(d, k) < |d|
  }

  function Get<K(==), V>(d: Dict<K, V>, k: K, default: V): V {
    if Has(d, k) then d[Find(d, k)].1 else default
  }

  /** Assignment keeps the position of a key that is already there. */
  function Put<K(==), V>(d: Dict<K, V>, k: K, v: V): Dict<K, V> {
    if Has(d, k) then d[Find(d, k) := (k, v)] else d + [(k, v)]
  }

  function Delete<K(==), V>(d: Dict<K, V>, k: K): Dict<K, V> {
    var i := Find(d, k);
    if i < |d| then d[..i] + d[i + 1..] else d
  }

  lemma GetPut<K, V>(d: Dict<K, V>, k: K, v: V, other: K, default: V)
    ensures Has(Put(d, k, v), other) <==> other == k || Has(d, other)
    ensures Get(Put(d, k, v), other, default) == if other == k then v else Get(d, other, default)
  {
    var e := Put(d, k, v);
    if other != k && Has(d, other) {
      KeyIsAt(e, other, Find(d, other));
    } else if other == k {
      KeyIsAt(e, k, Find(d, k));
    } else {
      assert forall j :: 0 <= j < |e| ==> e[j].0 != other;
    }
  }

  lemma KeyIsAt<K, V>(d: Dict<K, V>, k: K, i: nat)
    requires i < |d| && d[i].0 == k && forall j :: 0 <= j < i ==> d[j].0 != k
    ensures Find(d, k) == i
  {
  }

  function Keys<K, V>(d: Dict<K, V>): (keys: seq<K>)
    ensures |keys| == |d| && forall i :: 0 <= i < |d| ==> keys[i] == d[i].0
  {
    seq(|d|, i requires 0 <= i < |d| => d[i].0)
  }

  /** Iteration goes over the keys in the order they were first assigned; assigning again changes nothing of it. */
  lemma PutKeepsOrder<K, V>(d: Dict<K, V>, k: K, v: V)
    ensures Keys(Put(d, k, v)) == if k in Keys(d) then Keys(d) else Keys(d) + [k]
  {
    if Has(d, k) {
      assert Keys(d)[Find(d, k)] == k;
    } else {
      assert forall i :: 0 <= i < |d| ==> Keys(d)[i] != k;
    }
  }

  /** A key once there is gone after its deletion, and all other entries stay as they were. */
  lemma DeleteExactly<K, V>(d: Dict<K, V>, k: K, i: nat)
    requires i < |d| && d[i].0 == k && forall j :: 0 <= j < |d| && j != i ==> d[j].0 != k
    ensures Delete(d, k) == d[..i] + d[i + 1..] && !Has(Delete(d, k), k)
  {
    KeyIsAt(d, k, i);
  }

  // ---- totals over the values -----------------------------------------------------------------------

  ghost function Bag<K, V, T>(d: Dict<K, V>, f: V -> multiset<T>): multiset<T> {
    if d == [] then multiset{} else f(d[0].1) + Bag(d[1..], f)
  }

  lemma {:induction false} BagConcat<K, V, T>(d: Dict<K, V>, e: Dict<K, V>, f: V -> multiset<T>)
    ensures Bag(d + e, f) == Bag(d, f) + Bag(e, f)
  {
    if d == [] {
      assert d + e == e;
    } else {
      assert (d + e)[1..] == d[1..] + e;
      BagConcat(d[1..], e, f);
    }
  }

  lemma BagAt<K, V, T>(d: Dict<K, V>, i: nat, f: V -> multiset<T>)
    requires i < |d|
    ensures Bag(d, f) == Bag(d[..i], f) + (f(d[i].1) + Bag(d[i + 1..], f))
  {
    var tail := [d[i]] + d[i + 1..];
    assert d == d[..i] + tail;
    BagConcat(d[..i], tail, f);
    assert tail[1..] == d[i + 1..];
  }

  lemma BagWithout<K, V, T>(d: Dict<K, V>, i: nat, f: V -> multiset<T>)
    requires i < |d|
    ensures f(d[i].1) <= Bag(d, f)
    ensures Bag(d[..i] + d[i + 1..], f) == Bag(d, f) - f(d[i].1)
  {
    BagAt(d, i, f);
    BagConcat(d[..i], d[i + 1..], f);
  }

  lemma BagUpdate<K, V, T>(d: Dict<K, V>, i: nat, k: K, v: V, f: V -> multiset<T>)
    requires i < |d|
    ensures f(d[i].1) <= Bag(d, f)
    ensures Bag(d[i := (k, v)], f) == Bag(d, f) - f(d[i].1) + f(v)
  {
    BagAt(d, i, f);
    var e := d[i := (k, v)];
    BagAt(e, i, f);
    hide Bag;
    assert e[..i] == d[..i] && e[i + 1..] == d[i + 1..];
  }

  lemma BagPut<K, V, T>(d: Dict<K, V>, k: K, v: V, default: V, f: V -> multiset<T>)
    requires f(default) == multiset{}
    ensures f(Get(d, k, default)) <= Bag(d, f)
    ensures Bag(Put(d, k, v), f) == Bag(d, f) - f(Get(d, k, default)) + f(v)
  {
    if Has(d, k) {
      BagUpdate(d, Find(d, k), k, v, f);
    } else {
      BagConcat(d, [(k, v)], f);
      assert [(k, v)][1..] == [];
    }
  }

  lemma BagDelete<K, V, T>(d: Dict<K, V>, k: K, default: V, f: V -> multiset<T>)
    requires f(default) == multiset{}
    ensures f(Get(d, k, default)) <= Bag(d, f)
    ensures Bag(Delete(d, k), f) == Bag(d, f) - f(Get(d, k, default))
  {
    if Has(d, k) {
      BagWithout(d, Find(d, k), f);
    }
  }

  function Total<K, V>(d: Dict<K, V>, size: V -> nat): nat {
    if d == [] then 0 else size(d[0].1) + Total(d[1..], size)
  }

  lemma {:induction false} TotalConcat<K, V>(d: Dict<K, V>, e: Dict<K, V>, size: V -> nat)
    ensures Total(d + e, size) == Total(d, size) + Total(e, size)
  {
    if d == [] {
      assert d + e == e;
    } else {
      assert (d + e)[1..] == d[1..] + e;
      TotalConcat(d[1..], e, size);
    }
  }

  lemma {:induction false} TotalUpdate<K, V>(d: Dict<K, V>, i: nat, k: K, v: V, size: V -> nat)
    requires i < |d|
    ensures Total(d[i := (k, v)], size) == Total(d, size) - size(d[i].1) + size(v)
  {
    if i == 0 {
      assert d[i := (k, v)][1..] == d[1..];
    } else {
      assert d[i := (k, v)][1..] == d[1..][i - 1 := (k, v)];
      TotalUpdate(d[1..], i - 1, k, v, size);
    }
  }

  lemma TotalPut<K, V>(d: Dict<K, V>, k: K, v: V, default: V, size: V -> nat)
    requires size(default) == 0
    ensures Total(Put(d, k, v), size) == Total(d, size) - size(Get(d, k, default)) + size(v)
  {
    if Has(d, k) {
      TotalUpdate(d, Find(d, k), k, v, size);
    } else {
      TotalConcat(d, [(k, v)], size);
      assert [(k, v)][1..] == [];
    }
  }

  lemma {:induction false} TotalIsBagSize<K, V, T>(d: Dict<K, V>, size: V -> nat, f: V -> multiset<T>)
    requires forall i :: 0 <= i < |d| ==> size(d[i].1) == |f(d[i].1)|
    ensures Total(d, size) == |Bag(d, f)|
  {
    if d != [] {
      TotalIsBagSize(d[1..], size, f);
    }
  }
}
