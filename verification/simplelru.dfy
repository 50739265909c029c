/** The bounded recency cache under LruStore: a lookup table plus its keys, least recent first. */
module SimpleLru {
  import opened Basics

  datatype Lru<K(==), V> = Lru(size: nat, values: map<K, V>, order: seq<K>)

  ghost predicate Valid<K(!new), V>(l: Lru<K, V>) {
    && 1 <= l.size
    && |l.order| <= l.size
    && Distinct(l.order)
    && forall k :: k in l.order <==> k in l.values
  }

  function Empty<K(==), V>(size: nat): Lru<K, V> {
    Lru(size, map[], [])
  }

  /** `s` without `k`, everything else in the same order. */
  function Without<K(==, !new)>(s: seq<K>, k: K): (r: seq<K>)
    ensures k !in r
    ensures forall x :: x != k ==> (x in r <==> x in s)
    ensures |r| <= |s|
    ensures k in s ==> |r| < |s|
  {
    if s == [] then []
    else
      var r := Without(s[..|s| - 1], k);
      assert s == s[..|s| - 1] + [s[|s| - 1]];
      if s[|s| - 1] == k then r else r + [s[|s| - 1]]
  }

  lemma {:induction false} WithoutDistinct<K(!new)>(s: seq<K>, k: K)
    requires Distinct(s)
    ensures Distinct(Without(s, k))
  {
    if s != [] {
      WithoutDistinct(s[..|s| - 1], k);
      var r := Without(s[..|s| - 1], k);
      forall i | 0 <= i < |r| ensures r[i] != s[|s| - 1] {
        assert r[i] in r;
      }
    }
  }

  /** A lookup makes a present key the most recent one. */
  function Touch<K(==, !new), V>(l: Lru<K, V>, k: K): Lru<K, V> {
    if k in l.values then l.(order := Without(l.order, k) + [k]) else l
  }

  function Lookup<K(==), V>(l: Lru<K, V>, k: K): Option<V> {
    if k in l.values then Some(l.values[k]) else None
  }

  function Add<K(==, !new), V>(l: Lru<K, V>, k: K, v: V): Lru<K, V> {
    var order := Without(l.order, k) + [k];
    var values := l.values[k := v];
    if |order| <= l.size then Lru(l.size, values, order)
    else Lru(l.size, values - {order[0]}, order[1..])
  }

  function Purge<K(==), V>(l: Lru<K, V>): Lru<K, V> {
    Empty(l.size)
  }

  lemma {:induction false} WithoutAbsent<K(!new)>(s: seq<K>, k: K)
    requires k !in s
    ensures Without(s, k) == s
  {
    if s != [] {
      assert s == s[..|s| - 1] + [s[|s| - 1]];
      WithoutAbsent(s[..|s| - 1], k);
    }
  }

  lemma MovedToBack<K(!new)>(s: seq<K>, k: K)
    requires Distinct(s)
    ensures var t := Without(s, k) + [k];
      && Distinct(t)
      && (forall x :: x in t <==> x in s || x == k)
      && (k in s ==> |t| <= |s|)
      && (k !in s ==> t == s + [k])
  {
    WithoutDistinct(s, k);
    if k !in s {
      WithoutAbsent(s, k);
    }
    var r := Without(s, k);
    forall i | 0 <= i < |r| ensures r[i] != k {
      assert r[i] in r;
    }
  }

  lemma Tail<K(!new)>(s: seq<K>)
    requires s != [] && Distinct(s)
    ensures Distinct(s[1..])
    ensures forall x :: x in s[1..] <==> x in s && x != s[0]
  {
    assert s == [s[0]] + s[1..];
    forall x | x in s[1..] ensures x != s[0] {
      var i :| 0 <= i < |s[1..]| && s[1..][i] == x;
      assert s[i + 1] == x;
    }
  }

  lemma TouchValid<K(!new), V>(l: Lru<K, V>, k: K)
    requires Valid(l)
    ensures Valid(Touch(l, k))
    ensures Touch(l, k).values == l.values && Touch(l, k).size == l.size
  {
    MovedToBack(l.order, k);
  }

  /** Adding stores the pair as the most recent one and forgets at most the least recent key,
      and only when a new key arrives at a full cache. */
  lemma AddSpec<K(!new), V>(l: Lru<K, V>, k: K, v: V)
    requires Valid(l)
    ensures var r := Add(l, k, v);
      && Valid(r)
      && r.size == l.size
      && Lookup(r, k) == Some(v)
      && r.order[|r.order| - 1] == k
      && (forall x | x in r.values && x != k :: x in l.values && l.values[x] == r.values[x])
      && (forall x | x in l.values && x !in r.values ::
            k !in l.values && |l.order| == l.size && x == l.order[0])
  {
    MovedToBack(l.order, k);
    var order := Without(l.order, k) + [k];
    if |order| > l.size {
      assert k !in l.order;
      Tail(order);
    }
  }

  lemma AddFresh<K(!new), V>(l: Lru<K, V>, k: K, v: V)
    requires k !in l.order && |l.order| < l.size
    ensures Add(l, k, v) == Lru(l.size, l.values[k := v], l.order + [k])
  {
    WithoutAbsent(l.order, k);
  }
}
