/** What one Put and one read do to the in-process cache, told key by key. */
module LruLaws {
  import opened Basics
  import opened Types
  import opened SimpleLru
  import opened LruStores
  import opened LruRecency

  /** Everything but one key at most is kept, and that only when a new key comes to a full cache. */
  ghost predicate KeepsAllButOne<K(!new), V(!new)>(l: Lru<K, V>, r: Lru<K, V>, key: K) {
    && (forall k | k in r.values && k != key :: k in l.values && r.values[k] == l.values[k])
    && (forall k | k in l.values && k !in r.values :: key !in l.values && |l.order| == l.size)
    && (forall k1, k2 | k1 in l.values && k2 in l.values && k1 !in r.values && k2 !in r.values :: k1 == k2)
  }

  lemma AddKeeps<K(!new), V(!new)>(l: Lru<K, V>, key: K, v: V)
    requires Valid(l)
    ensures KeepsAllButOne(l, Add(l, key, v), key)
  {
    AddSpec(l, key, v);
    hide Add, Valid;
  }

  lemma AddKeepsTouched(l: NumberLru, before: NumberKey, key: NumberKey, e: Entry)
    requires Valid(l)
    ensures KeepsAllButOne(l, Add(Touch(l, before), key, e), key)
    ensures Lookup(Add(Touch(l, before), key, e), key) == Some(e)
  {
    TouchValid(l, before);
    MovedToBack(l.order, before);
    AddKeeps(Touch(l, before), key, e);
    AddSpec(Touch(l, before), key, e);
    TouchSize(l, before);
    hide Add, Valid;
  }

  lemma TouchSize(l: NumberLru, k: NumberKey)
    requires Valid(l)
    ensures |Touch(l, k).order| == |l.order|
  {
    if k in l.values {
      MovedToBack(l.order, k);
      var i :| 0 <= i < |l.order| && l.order[i] == k;
      WithoutSize(l.order, k);
    }
  }

  lemma {:induction false} WithoutSize(s: seq<NumberKey>, k: NumberKey)
    requires Distinct(s) && k in s
    ensures |Without(s, k)| == |s| - 1
  {
    var front := s[..|s| - 1];
    if s[|s| - 1] == k {
      WithoutAbsent(front, k);
    } else {
      WithoutSize(front, k);
    }
  }

  /** Where a block's parent would be, block 0 looking at the last unsigned number. */
  function ParentKey(chain: ChainName, typ: EntryType, e: Entry): NumberKey {
    NumberKey(typ, if e.blockNumber == 0 then TWO_64 - 1 else e.blockNumber - 1, chain)
  }

  /** The cached block below is not the parent of `e`. */
  predicate OtherBranch(s: LruState, chain: ChainName, typ: EntryType, e: Entry) {
    var k := ParentKey(chain, typ, e);
    e.parentHash.Some? && k in s.byNumber.values && s.byNumber.values[k].blockHash != e.parentHash.value
  }

  lemma OneByHash(s: LruState, chain: ChainName, typ: EntryType, e: Entry)
    requires ValidState(s)
    ensures
      var r, h := StoreOne(s, chain, typ, e).byHash, HashKey(typ, e.blockHash, chain);
      Lookup(r, h) == Some(e) && KeepsAllButOne(s.byHash, r, h)
  {
    var h := HashKey(typ, e.blockHash, chain);
    AddKeeps(s.byHash, h, e);
    AddSpec(s.byHash, h, e);
    hide KeepsAllButOne, Add, Touch, Valid;
  }

  lemma NumberCases(s: LruState, chain: ChainName, typ: EntryType, e: Entry)
    ensures
      var r, n := StoreOne(s, chain, typ, e).byNumber, NumberKey(typ, e.blockNumber, chain);
      && (OtherBranch(s, chain, typ, e) ==> r == Add(Purge(s.byNumber), n, e))
      && (!OtherBranch(s, chain, typ, e) ==>
            r == Add(s.byNumber, n, e) || r == Add(Touch(s.byNumber, ParentKey(chain, typ, e)), n, e))
  {
    hide Add, Touch, Purge;
  }

  lemma PurgedPut(l: NumberLru, n: NumberKey, e: Entry)
    requires Valid(l)
    ensures var r := Add(Purge(l), n, e);
      Lookup(r, n) == Some(e) && forall k :: k in r.values <==> k == n
  {
    AddSpec(Purge(l), n, e);
    hide Add;
  }

  lemma OneByNumber(s: LruState, chain: ChainName, typ: EntryType, e: Entry)
    requires ValidState(s)
    ensures
      var r, n := StoreOne(s, chain, typ, e).byNumber, NumberKey(typ, e.blockNumber, chain);
      && Lookup(r, n) == Some(e)
      && (OtherBranch(s, chain, typ, e) ==> forall k :: k in r.values <==> k == n)
      && (!OtherBranch(s, chain, typ, e) ==> KeepsAllButOne(s.byNumber, r, n))
  {
    var n := NumberKey(typ, e.blockNumber, chain);
    NumberCases(s, chain, typ, e);
    PurgedPut(s.byNumber, n, e);
    AddKeeps(s.byNumber, n, e);
    AddSpec(s.byNumber, n, e);
    AddKeepsTouched(s.byNumber, ParentKey(chain, typ, e), n, e);
    hide *;
  }

  /** One entry put: it is found by hash and by number. The hash index keeps all else but one entry at most,
      and so does the number index, unless the block below is of another branch: then nothing else is left. */
  lemma OnePut(s: LruState, chain: ChainName, typ: EntryType, e: Entry)
    requires ValidState(s)
    ensures
      var r := StoreAll(s, chain, typ, [e]);
      var h, n := HashKey(typ, e.blockHash, chain), NumberKey(typ, e.blockNumber, chain);
      && Lookup(r.byHash, h) == Some(e) && Lookup(r.byNumber, n) == Some(e)
      && KeepsAllButOne(s.byHash, r.byHash, h)
      && (if OtherBranch(s, chain, typ, e) then forall k :: k in r.byNumber.values <==> k == n
          else KeepsAllButOne(s.byNumber, r.byNumber, n))
  {
    StoreAllStep(s, chain, typ, [e]);
    OneByHash(s, chain, typ, e);
    OneByNumber(s, chain, typ, e);
    hide StoreAll, StoreOne, KeepsAllButOne, OtherBranch, Valid;
  }

  /** A batch is its entries one after another. */
  lemma {:induction false} PutFold(s: LruState, chain: ChainName, typ: EntryType, a: seq<Entry>, b: seq<Entry>)
    ensures StoreAll(s, chain, typ, a + b) == StoreAll(StoreAll(s, chain, typ, a), chain, typ, b)
    decreases |a|
  {
    if a == [] {
      assert a + b == b;
    } else {
      assert (a + b)[0] == a[0] && (a + b)[1..] == a[1..] + b;
      PutFold(StoreOne(s, chain, typ, a[0]), chain, typ, a[1..], b);
    }
    hide StoreOne;
  }

  /** The numbers of a range that a read finds before the first one missing. */
  ghost function ReadKeys(l: NumberLru, chain: ChainName, typ: EntryType, start: nat, end: nat): set<NumberKey> {
    set k | k in l.values.Keys && k.typ == typ && k.chain == chain && start <= k.number <= end
      && AllCached(l, chain, typ, start, k.number)
  }

  /** A range read makes the numbers that it finds more recent than all others, whose order it keeps. */
  lemma {:induction false} RangePromotes(l: NumberLru, chain: ChainName, typ: EntryType, i: nat, end: nat, k: NumberKey)
    requires !(k.typ == typ && k.chain == chain && i <= k.number <= end)
    ensures Newer(Collect(l, chain, typ, i, end).0, k) == Newer(l, k) + ReadKeys(l, chain, typ, i, end)
    decreases end + 1 - i
  {
    var key := NumberKey(typ, i, chain);
    if i <= end && key in l.values {
      var t := Touch(l, key);
      TouchRecent(l, key, k);
      RangePromotes(t, chain, typ, i + 1, end, k);
      ReadKeysNext(l, t, chain, typ, i, end);
      hide Newer, Touch, ReadKeys;
      assert Newer(l, k) + {key} + ReadKeys(t, chain, typ, i + 1, end) == Newer(l, k) + ReadKeys(l, chain, typ, i, end);
    } else {
      NothingRead(l, chain, typ, i, end);
    }
  }

  lemma NothingRead(l: NumberLru, chain: ChainName, typ: EntryType, i: nat, end: nat)
    requires i > end || NumberKey(typ, i, chain) !in l.values
    ensures ReadKeys(l, chain, typ, i, end) == {}
  {
  }

  lemma ReadKeysNext(l: NumberLru, t: NumberLru, chain: ChainName, typ: EntryType, i: nat, end: nat)
    requires i <= end && NumberKey(typ, i, chain) in l.values && t.values == l.values
    ensures ReadKeys(l, chain, typ, i, end) == {NumberKey(typ, i, chain)} + ReadKeys(t, chain, typ, i + 1, end)
  {
    forall n: nat | i <= n ensures AllCached(l, chain, typ, i, n) <==> n == i || AllCached(t, chain, typ, i + 1, n) {
      if n > i && AllCached(t, chain, typ, i + 1, n) {
        forall m | i <= m <= n ensures NumberKey(typ, m, chain) in l.values {
        }
      }
    }
    hide AllCached;
  }

  /** A read by hash makes its entry the most recent one of the hash index. */
  lemma HashPromotes(s: LruState, chain: ChainName, typ: EntryType, hash: Hash, k: HashKey)
    requires ValidState(s) && HashKey(typ, hash, chain) in s.byHash.values && k != HashKey(typ, hash, chain)
    ensures Newer(Fetch(s, chain, typ, QueryHash(hash)).0.byHash, k)
      == Newer(s.byHash, k) + {HashKey(typ, hash, chain)}
  {
    TouchRecent(s.byHash, HashKey(typ, hash, chain), k);
    hide Newer, Touch;
  }
}
