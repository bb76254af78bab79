/** Shared vocabulary: optional values, Python's insertion-ordered dictionary,
    and sums of a quantity over the values of such a dictionary. */
module Prelude {

  datatype Option<+T> = None | Some(value: T)

  ghost predicate Distinct<T>(s: seq<T>) {
    forall i, j :: 0 <= i < j < |s| ==> s[i] != s[j]
  }

  /** A Python `dict` iterates in insertion order: overwriting a key keeps its place,
      deleting it and inserting it again moves it to the end. */
  datatype RawDict<K(==, !new), V> = RawDict(keys: seq<K>, vals: map<K, V>) {

    ghost predicate Valid() {
      && Distinct(keys)
      && (forall k :: k in keys <==> k in vals)
    }
  }

  type Dict<K(==, !new), V> = d: RawDict<K, V> | d.Valid() witness RawDict([], map[])

  function Put<K(==, !new), V>(d: Dict<K, V>, k: K, v: V): (r: Dict<K, V>)
    ensures r.vals == d.vals[k := v]
    ensures k in d.vals ==> r.keys == d.keys
    ensures k !in d.vals ==> r.keys == d.keys + [k]
  {
    RawDict(if k in d.vals then d.keys else d.keys + [k], d.vals[k := v])
  }

  /** `s` without the element `k`, the other elements in their order. */
  function Without<K(==, !new)>(s: seq<K>, k: K): (r: seq<K>)
    ensures forall x :: x in r <==> x in s && x != k
    ensures |r| <= |s|
  {
    if s == [] then []
    else if s[0] == k then Without(s[1..], k)
    else [s[0]] + Without(s[1..], k)
  }

  lemma WithoutKeepsDistinct<K(!new)>(s: seq<K>, k: K)
    requires Distinct(s)
    ensures Distinct(Without(s, k))
  {
    if s != [] {
      WithoutKeepsDistinct(s[1..], k);
      var t := Without(s[1..], k);
      if s[0] != k {
        assert forall j :: 0 <= j < |t| ==> t[j] in s[1..];
        assert forall j :: 0 <= j < |t| ==> t[j] != s[0];
      }
    }
  }

  function Del<K(==, !new), V>(d: Dict<K, V>, k: K): (r: Dict<K, V>)
    ensures r.vals == d.vals - {k}
    ensures r.keys == Without(d.keys, k)
  {
    WithoutKeepsDistinct(d.keys, k);
    RawDict(Without(d.keys, k), d.vals - {k})
  }

  function Get<K(==, !new), V>(d: Dict<K, V>, k: K): Option<V> {
    if k in d.vals then Some(d.vals[k]) else None
  }

  lemma SomeKey<K(!new), V>(d: Dict<K, V>)
    ensures d.keys == [] || exists k :: k in d.vals
  {
    if d.keys != [] { assert d.keys[0] in d.vals; }
  }

  lemma NoKeys<K(!new), V>(d: Dict<K, V>)
    requires forall k :: k !in d.vals
    ensures d.keys == []
  {
    SomeKey(d);
  }

  // ---- Sums over a dictionary --------------------------------------------

  ghost function TotalOver<K(!new), V>(f: V -> real, keys: seq<K>, vals: map<K, V>): real
    requires forall k :: k in keys ==> k in vals
  {
    if keys == [] then 0.0 else f(vals[keys[0]]) + TotalOver(f, keys[1..], vals)
  }

  /** The sum of `f` over the values of `d`. */
  ghost function Total<K(!new), V>(f: V -> real, d: Dict<K, V>): real {
    TotalOver(f, d.keys, d.vals)
  }

  lemma {:induction false} TotalOverSame<K(!new), V>(f: V -> real, keys: seq<K>, m: map<K, V>, n: map<K, V>)
    requires forall k :: k in keys ==> k in m && k in n && m[k] == n[k]
    ensures TotalOver(f, keys, m) == TotalOver(f, keys, n)
  {
    if keys != [] { TotalOverSame(f, keys[1..], m, n); }
  }

  lemma {:induction false} TotalOverAppend<K(!new), V>(f: V -> real, keys: seq<K>, k: K, m: map<K, V>)
    requires k in m && forall x :: x in keys ==> x in m
    ensures TotalOver(f, keys + [k], m) == TotalOver(f, keys, m) + f(m[k])
  {
    if keys == [] {
      assert ([] + [k])[1..] == [];
    } else {
      assert (keys + [k])[1..] == keys[1..] + [k];
      TotalOverAppend(f, keys[1..], k, m);
    }
  }

  lemma {:induction false} TotalOverWithout<K(!new), V>(f: V -> real, keys: seq<K>, k: K, m: map<K, V>)
    requires Distinct(keys)
    requires k in keys && forall x :: x in keys ==> x in m
    ensures TotalOver(f, Without(keys, k), m) == TotalOver(f, keys, m) - f(m[k])
  {
    if keys[0] == k {
      WithoutAbsent(keys[1..], k);
    } else {
      TotalOverWithout(f, keys[1..], k, m);
      var rest := Without(keys[1..], k);
      assert ([keys[0]] + rest)[1..] == rest;
    }
  }

  lemma {:induction false} WithoutAbsent<K(!new)>(s: seq<K>, k: K)
    requires k !in s
    ensures Without(s, k) == s
  {
    if s != [] { WithoutAbsent(s[1..], k); }
  }

  /** Storing a value changes the sum by exactly that value, less the one it replaces. */
  lemma TotalPut<K(!new), V>(f: V -> real, d: Dict<K, V>, k: K, v: V)
    ensures k !in d.vals ==> Total(f, Put(d, k, v)) == Total(f, d) + f(v)
    ensures k in d.vals ==> Total(f, Put(d, k, v)) == Total(f, d) - f(d.vals[k]) + f(v)
  {
    var m := d.vals[k := v];
    if k in d.vals {
      TotalOverWithout(f, d.keys, k, d.vals);
      TotalOverWithout(f, d.keys, k, m);
      TotalOverSame(f, Without(d.keys, k), d.vals, m);
    } else {
      TotalOverAppend(f, d.keys, k, m);
      TotalOverSame(f, d.keys, d.vals, m);
    }
  }

  lemma TotalDel<K(!new), V>(f: V -> real, d: Dict<K, V>, k: K)
    requires k in d.vals
    ensures Total(f, Del(d, k)) == Total(f, d) - f(d.vals[k])
  {
    TotalOverWithout(f, d.keys, k, d.vals);
    TotalOverSame(f, Without(d.keys, k), d.vals, d.vals - {k});
  }

  // ---- Sequences as multisets ----------------------------------------------

  lemma SplitLast<T>(s: seq<T>)
    requires s != []
    ensures s == s[..|s| - 1] + [s[|s| - 1]]
    ensures multiset(s) == multiset(s[..|s| - 1]) + multiset{s[|s| - 1]}
  {
    assert s == s[..|s| - 1] + [s[|s| - 1]];
  }

  lemma TakeOneMore<T>(s: seq<T>, k: nat)
    requires k < |s|
    ensures s[..k + 1] == s[..k] + [s[k]]
  {
  }

  lemma TakeOut<T>(s: seq<T>, i: nat)
    requires i < |s|
    ensures s == s[..i] + [s[i]] + s[i + 1..]
    ensures multiset(s[..i] + s[i + 1..]) == multiset(s) - multiset{s[i]}
  {
    assert s == s[..i] + [s[i]] + s[i + 1..];
  }

  // ---- Reals --------------------------------------------------------------

  function Abs(x: real): real { if x < 0.0 then -x else x }

  function Min(x: real, y: real): real { if y < x then y else x }

  function Max(x: real, y: real): real { if y > x then y else x }

  lemma DivCancels(x: real, d: real)
    requires d != 0.0
    ensures d * (x / d) == x
  {
  }

  lemma QuotientIs(y: real, z: real, q: real)
    requires q != 0.0 && y * q == z
    ensures z / q == y
  {
    DivCancels(z, q);
    assert q * (z / q - y) == 0.0;
  }

  lemma MulNonNegative(x: real, y: real)
    requires x >= 0.0 && y >= 0.0
    ensures x * y >= 0.0
  {
  }

  lemma MulMonotone(x: real, y: real, k: real)
    requires x <= y && k >= 0.0
    ensures x * k <= y * k
  {
    MulNonNegative(y - x, k);
  }
}
