/**
 * Python dicts keep their keys in insertion order, and several parts of the
 * pipeline depend on it (the first partial match wins when routing, the
 * order of a histogram's keys). A dict is its key order plus a map; storing
 * under a present key replaces the value and keeps the key's place.
 * Histograms (`h[k] = h.get(k, 0) + 1`) are dicts from key to count.
 */
module OrderedDict {
  datatype Dict<K(==,!new), V> = Dict(keys: seq<K>, values: map<K, V>)

  /** Keys are distinct and are exactly the map's domain. */
  predicate Valid<K(==,!new), V>(d: Dict<K, V>) {
    (forall i, j :: 0 <= i < j < |d.keys| ==> d.keys[i] != d.keys[j])
    && (forall k :: k in d.values ==> k in d.keys)
    && (forall i :: 0 <= i < |d.keys| ==> d.keys[i] in d.values)
  }

  function Empty<K(==,!new), V>(): (r: Dict<K, V>)
    ensures Valid(r) && r.keys == []
  {
    Dict([], map[])
  }

  /** `d[k] = v`. */
  function Put<K(==,!new), V>(d: Dict<K, V>, k: K, v: V): (r: Dict<K, V>)
    requires Valid(d)
    ensures Valid(r)
    ensures r.values == d.values[k := v]
    ensures k in d.values ==> r.keys == d.keys
    ensures k !in d.values ==> r.keys == d.keys + [k]
  {
    if k in d.values then Dict(d.keys, d.values[k := v]) else Dict(d.keys + [k], d.values[k := v])
  }

  /** `d.get(k, default)`. */
  function Get<K(==,!new), V>(d: Dict<K, V>, k: K, default: V): (r: V)
    ensures k in d.values ==> r == d.values[k]
    ensures k !in d.values ==> r == default
  {
    if k in d.values then d.values[k] else default
  }

  // ---------------------------------------------------------------------
  // Histograms.

  /** `h[k] = h.get(k, 0) + 1`. */
  function Bump<K(==,!new)>(h: Dict<K, nat>, k: K): (r: Dict<K, nat>)
    requires Valid(h)
    ensures Valid(r)
  {
    Put(h, k, Get(h, k, 0) + 1)
  }

  /** The sum of the values stored under `keys`. */
  function SumOver<K(==,!new)>(keys: seq<K>, m: map<K, nat>): nat
    requires forall k :: k in keys ==> k in m
  {
    if keys == [] then 0 else m[keys[0]] + SumOver(keys[1..], m)
  }

  /** `sum(h.values())`. */
  function Sum<K(==,!new)>(h: Dict<K, nat>): nat
    requires Valid(h)
  {
    SumOver(h.keys, h.values)
  }

  /** How many times `k` occurs in `xs`. */
  function Occurrences<K(==,!new)>(xs: seq<K>, k: K): (n: nat)
    ensures n <= |xs|
  {
    if xs == [] then 0 else Occurrences(xs[..|xs| - 1], k) + (if xs[|xs| - 1] == k then 1 else 0)
  }

  /** The histogram `get_stats` builds by counting `xs` from left to right. */
  function Histogram<K(==,!new)>(xs: seq<K>): (h: Dict<K, nat>)
    ensures Valid(h)
  {
    if xs == [] then Empty() else Bump(Histogram(xs[..|xs| - 1]), xs[|xs| - 1])
  }

  lemma {:induction false} SumOverAppend<K(!new)>(keys: seq<K>, k: K, m: map<K, nat>)
    requires forall x :: x in keys ==> x in m
    requires k in m
    ensures SumOver(keys + [k], m) == SumOver(keys, m) + m[k]
  {
    if keys != [] {
      assert (keys + [k])[1..] == keys[1..] + [k];
      SumOverAppend(keys[1..], k, m);
    } else {
      assert [k][1..] == [];
    }
  }

  /** Values outside `keys` do not matter. */
  lemma {:induction false} SumOverAgree<K(!new)>(keys: seq<K>, m: map<K, nat>, m': map<K, nat>)
    requires forall x :: x in keys ==> x in m && x in m' && m[x] == m'[x]
    ensures SumOver(keys, m) == SumOver(keys, m')
  {
    if keys != [] {
      SumOverAgree(keys[1..], m, m');
    }
  }

  /** Raising the value of a key that occurs once raises the sum by as much. */
  lemma {:induction false} SumOverRaise<K(!new)>(keys: seq<K>, m: map<K, nat>, k: K)
    requires forall x :: x in keys ==> x in m
    requires forall i, j :: 0 <= i < j < |keys| ==> keys[i] != keys[j]
    requires k in keys
    ensures SumOver(keys, m[k := m[k] + 1]) == SumOver(keys, m) + 1
  {
    if keys[0] == k {
      SumOverAgree(keys[1..], m, m[k := m[k] + 1]);
    } else {
      SumOverRaise(keys[1..], m, k);
    }
  }

  /** Counting one more occurrence adds one to the sum of the counts. */
  lemma BumpSum<K(!new)>(h: Dict<K, nat>, k: K)
    requires Valid(h)
    ensures Sum(Bump(h, k)) == Sum(h) + 1
  {
    var m := h.values[k := Get(h, k, 0) + 1];
    if k in h.values {
      SumOverRaise(h.keys, h.values, k);
    } else {
      SumOverAgree(h.keys, h.values, m);
      SumOverAppend(h.keys, k, m);
    }
  }

  /** The counts of a histogram add up to the number of items counted. */
  lemma {:induction false} HistogramSum<K(!new)>(xs: seq<K>)
    ensures Sum(Histogram(xs)) == |xs|
  {
    if xs != [] {
      HistogramSum(xs[..|xs| - 1]);
      BumpSum(Histogram(xs[..|xs| - 1]), xs[|xs| - 1]);
    }
  }

  /** Each key's count is its number of occurrences (0 when absent). */
  lemma {:induction false} HistogramCounts<K(!new)>(xs: seq<K>, k: K)
    ensures Get(Histogram(xs), k, 0) == Occurrences(xs, k)
    ensures k in Histogram(xs).values <==> Occurrences(xs, k) > 0
  {
    if xs != [] {
      HistogramCounts(xs[..|xs| - 1], k);
    }
  }
}
