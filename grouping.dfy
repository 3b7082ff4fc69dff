/** A Python dict of lists filled by the loop
      `if k not in d: d[k] = []`  /  `d[k].append(v)`,
    kept as a sequence of (key, values) pairs so that the dict's
    insertion order is part of the value. */
module Grouping {
  import opened Text

  type Groups<K, V> = seq<(K, seq<V>)>

  /** `list(d.keys())`: the keys in first-insertion order. */
  function Keys<K, V>(g: Groups<K, V>): seq<K> {
    if g == [] then [] else [g[0].0] + Keys(g[1..])
  }

  predicate DistinctKeys<K(==), V>(g: Groups<K, V>) {
    Distinct(Keys(g))
  }

  /** `d.get(k, [])`. */
  function Lookup<K(==), V>(g: Groups<K, V>, k: K): seq<V> {
    if g == [] then []
    else if g[0].0 == k then g[0].1
    else Lookup(g[1..], k)
  }

  /** One turn of the loop body: create the group on first sight of `k`,
      then append `v` to it. */
  function Append<K(==), V>(g: Groups<K, V>, k: K, v: V): Groups<K, V> {
    if g == [] then [(k, [v])]
    else if g[0].0 == k then [(k, g[0].1 + [v])] + g[1..]
    else [g[0]] + Append(g[1..], k, v)
  }

  /** All values, group after group. */
  function Flatten<K, V>(g: Groups<K, V>): seq<V> {
    if g == [] then [] else g[0].1 + Flatten(g[1..])
  }

  /** `{k: len(v) for k, v in d.items()}`. */
  function Sizes<K, V>(g: Groups<K, V>): (r: seq<(K, nat)>)
    ensures |r| == |g|
    ensures forall i :: 0 <= i < |g| ==> r[i] == (g[i].0, |g[i].1|)
  {
    if g == [] then [] else [(g[0].0, |g[0].1|)] + Sizes(g[1..])
  }

  /** `sum(d.values())` for a dict of counts. */
  function Total<K>(sizes: seq<(K, nat)>): nat {
    if sizes == [] then 0 else sizes[0].1 + Total(sizes[1..])
  }

  lemma {:induction false} AppendLookup<K, V>(g: Groups<K, V>, k: K, v: V, k': K)
    ensures Lookup(Append(g, k, v), k') == if k' == k then Lookup(g, k) + [v] else Lookup(g, k')
  {
    if g != [] && g[0].0 != k {
      AppendLookup(g[1..], k, v, k');
    }
  }

  /** A new key goes to the end; an existing key keeps its place. */
  lemma {:induction false} AppendKeys<K, V>(g: Groups<K, V>, k: K, v: V)
    ensures Keys(Append(g, k, v)) == if k in Keys(g) then Keys(g) else Keys(g) + [k]
  {
    if g != [] && g[0].0 != k {
      AppendKeys(g[1..], k, v);
      assert Keys(g) == [g[0].0] + Keys(g[1..]);
    }
  }

  lemma AppendDistinct<K, V>(g: Groups<K, V>, k: K, v: V)
    requires DistinctKeys(g)
    ensures DistinctKeys(Append(g, k, v))
  {
    AppendKeys(g, k, v);
    var ks := Keys(g);
    if k !in ks {
      forall i, j | 0 <= i < j < |ks| + 1
        ensures (ks + [k])[i] != (ks + [k])[j]
      {
        if j == |ks| {
          assert (ks + [k])[i] == ks[i];
        }
      }
    }
  }

  lemma {:induction false} AppendFlatten<K, V>(g: Groups<K, V>, k: K, v: V)
    ensures multiset(Flatten(Append(g, k, v))) == multiset(Flatten(g)) + multiset{v}
  {
    if g == [] {
    } else if g[0].0 == k {
      assert Append(g, k, v)[1..] == g[1..];
    } else {
      AppendFlatten(g[1..], k, v);
      assert Append(g, k, v)[1..] == Append(g[1..], k, v);
    }
  }

  /** The counts of the size dict add up to the number of grouped values. */
  lemma {:induction false} SizesTotal<K, V>(g: Groups<K, V>)
    ensures Total(Sizes(g)) == |Flatten(g)|
  {
    if g != [] {
      SizesTotal(g[1..]);
      assert Sizes(g)[1..] == Sizes(g[1..]);
    }
  }
}
