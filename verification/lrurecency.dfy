/** Which entries outlive a Put, and so exactly when a Put keeps neighbouring numbers linked. */
module LruRecency {
  import opened Basics
  import opened Types
  import opened SimpleLru
  import opened LruStores
  import opened LruLinks

  /** The keys used after `k`. */
  function After<K(==)>(order: seq<K>, k: K): set<K> {
    if order == [] || order[|order| - 1] == k then {}
    else After(order[..|order| - 1], k) + {order[|order| - 1]}
  }

  function Newer<K(==), V>(l: Lru<K, V>, k: K): set<K> {
    After(l.order, k)
  }

  lemma {:induction false} AfterWithout<K(!new)>(order: seq<K>, x: K, k: K)
    requires x != k
    ensures After(Without(order, x), k) + {x} == After(order, k) + {x}
  {
    if order != [] {
      var front := order[..|order| - 1];
      AfterWithout(front, x, k);
      if order[|order| - 1] != x {
        var r := Without(order, x);
        assert r[..|r| - 1] == Without(front, x);
      }
    }
  }

  /** Moving `x` to the back puts it after every other key. */
  lemma AfterMoved<K(!new)>(order: seq<K>, x: K, k: K)
    requires x != k
    ensures After(Without(order, x) + [x], k) == After(order, k) + {x}
  {
    AfterWithout(order, x, k);
    var r := Without(order, x) + [x];
    assert r[..|r| - 1] == Without(order, x);
  }

  lemma {:induction false} AfterTail<K(!new)>(order: seq<K>, k: K)
    requires order != [] && k in order[1..]
    ensures After(order[1..], k) == After(order, k)
  {
    var front := order[..|order| - 1];
    var tail := order[1..];
    assert tail[|tail| - 1] == order[|order| - 1];
    if order[|order| - 1] != k {
      assert tail[..|tail| - 1] == front[1..];
      AfterTail(front, k);
    }
  }

  /** How many keys were used after one tells its place. */
  lemma {:induction false} AfterCount<K(!new)>(order: seq<K>, k: K) returns (i: int)
    requires Distinct(order) && k in order
    ensures 0 <= i < |order| && order[i] == k
    ensures |After(order, k)| == |order| - 1 - i
    ensures forall x | x in After(order, k) :: x in order
  {
    var front, last := order[..|order| - 1], order[|order| - 1];
    if last == k {
      i := |order| - 1;
    } else {
      i := AfterCount(front, k);
      assert last !in front;
      assert last !in After(front, k);
    }
  }

  lemma {:induction false} SubsetSize<K>(a: set<K>, b: set<K>)
    requires a <= b
    ensures |a| <= |b|
    decreases |a|
  {
    if a != {} {
      var x :| x in a;
      SubsetSize(a - {x}, b - {x});
    }
  }

  lemma OldestDropped<K(!new)>(order: seq<K>, size: int, k: K)
    requires Distinct(order) && k in order
    ensures |order| <= size ==> |After(order, k)| < size
    ensures |order| == size + 1 ==> (k in order[1..] <==> |After(order, k)| < size)
    ensures |order| == size + 1 && k in order[1..] ==> After(order[1..], k) == After(order, k)
  {
    var i := AfterCount(order, k);
    if i > 0 {
      assert order[1..][i - 1] == k;
      AfterTail(order, k);
    }
    hide After;
  }

  /** Adding a key forgets `k` exactly when as many keys as fit have then been used since `k`. */
  lemma AddForgets<K(!new), V>(l: Lru<K, V>, x: K, v: V, k: K)
    requires Valid(l) && k in l.values && x != k
    ensures var r := Add(l, x, v);
      && (k in r.values <==> |Newer(l, k) + {x}| < l.size)
      && (k in r.values ==> Newer(r, k) == Newer(l, k) + {x} && r.values[k] == l.values[k])
  {
    AddSpec(l, x, v);
    MovedToBack(l.order, x);
    AfterMoved(l.order, x, k);
    OldestDropped(Without(l.order, x) + [x], l.size, k);
    hide After, Without, Distinct;
  }

  lemma TouchRecent<K(!new), V>(l: Lru<K, V>, x: K, k: K)
    requires x != k
    ensures Newer(Touch(l, x), k) == if x in l.values then Newer(l, k) + {x} else Newer(l, k)
  {
    AfterMoved(l.order, x, k);
  }

  // Puts.

  function BatchKeys(chain: ChainName, typ: EntryType, entries: seq<Entry>): set<NumberKey> {
    set e | e in entries :: NumberKey(typ, e.blockNumber, chain)
  }

  /** The number keys a Put uses: the first block's predecessor when that is looked up and found, and
      every block of the batch. */
  function Used(s: LruState, chain: ChainName, typ: EntryType, entries: seq<Entry>): set<NumberKey>
    requires entries != []
  {
    var before := NumberKey(typ, Predecessor(entries[0].blockNumber), chain);
    BatchKeys(chain, typ, entries)
      + if entries[0].parentHash.Some? && before in s.byNumber.values then {before} else {}
  }

  /** `k` lies above every block of the batch. */
  predicate Above(k: NumberKey, entries: seq<Entry>) {
    k.number <= TWO_63 && forall e | e in entries :: e.blockNumber < k.number
  }

  lemma UsedByOne(s: LruState, chain: ChainName, typ: EntryType, e: Entry)
    ensures
      var key, before := NumberKey(typ, e.blockNumber, chain), NumberKey(typ, Predecessor(e.blockNumber), chain);
      Used(s, chain, typ, [e])
        == if e.parentHash.Some? && before in s.byNumber.values then {key} + {before} else {key}
  {
    assert BatchKeys(chain, typ, [e]) == {NumberKey(typ, e.blockNumber, chain)};
  }

  lemma TouchAddForgets(l: NumberLru, touch: bool, before: NumberKey, key: NumberKey, e: Entry, k: NumberKey)
    requires Valid(l) && k in l.values && k != before && k != key
    ensures
      var newer := Newer(l, k) + if touch && before in l.values then {key} + {before} else {key};
      var r := Add(if touch then Touch(l, before) else l, key, e);
      && r.size == l.size
      && (k in r.values <==> |newer| < l.size)
      && (k in r.values ==> Newer(r, k) == newer && r.values[k] == l.values[k])
  {
    var touched := if touch then Touch(l, before) else l;
    TouchValid(l, before);
    TouchRecent(l, before, k);
    AddForgets(touched, key, e, k);
    AddSpec(touched, key, e);
    hide Newer, Valid, Add, Without;
    var newer := Newer(l, k) + if touch && before in l.values then {key} + {before} else {key};
    assert newer == Newer(touched, k) + {key};
  }

  lemma StoreOneForgets(s: LruState, chain: ChainName, typ: EntryType, e: Entry, k: NumberKey)
    requires ValidState(s) && k in s.byNumber.values
    requires e.blockNumber < k.number <= TWO_63 && !PurgeFires(s, chain, typ, e)
    ensures var r, newer := StoreOne(s, chain, typ, e), Newer(s.byNumber, k) + Used(s, chain, typ, [e]);
      && r.byNumber.size == s.byNumber.size
      && (k in r.byNumber.values <==> |newer| < s.byNumber.size)
      && (k in r.byNumber.values ==>
            Newer(r.byNumber, k) == newer && r.byNumber.values[k] == s.byNumber.values[k])
  {
    var before, key := NumberKey(typ, Predecessor(e.blockNumber), chain), NumberKey(typ, e.blockNumber, chain);
    TouchAddForgets(s.byNumber, e.parentHash.Some?, before, key, e, k);
    UsedByOne(s, chain, typ, e);
    hide Newer, Valid, Add, Used, Touch, PurgeFires;
  }

  lemma {:induction false} NotAdded(s: LruState, chain: ChainName, typ: EntryType, entries: seq<Entry>, k: NumberKey)
    requires ValidState(s) && k !in s.byNumber.values && Above(k, entries)
    ensures k !in StoreAll(s, chain, typ, entries).byNumber.values
    decreases |entries|
  {
    if entries != [] {
      StoreOneSpec(s, chain, typ, entries[0]);
      assert entries[0] in entries;
      NotAdded(StoreOne(s, chain, typ, entries[0]), chain, typ, entries[1..], k);
    }
  }

  lemma BatchKeysStep(chain: ChainName, typ: EntryType, entries: seq<Entry>)
    requires entries != []
    ensures BatchKeys(chain, typ, entries)
      == {NumberKey(typ, entries[0].blockNumber, chain)} + BatchKeys(chain, typ, entries[1..])
  {
    assert entries == [entries[0]] + entries[1..];
  }

  /** The second block of a batch finds the first. */
  lemma SecondFindsFirst(s: LruState, chain: ChainName, typ: EntryType, entries: seq<Entry>)
    requires ValidState(s) && |entries| > 1 && LinkedBatch(entries)
    ensures var s1, key := StoreOne(s, chain, typ, entries[0]), NumberKey(typ, entries[0].blockNumber, chain);
      && key == NumberKey(typ, Predecessor(entries[1].blockNumber), chain) && key in s1.byNumber.values
      && !PurgeFires(s1, chain, typ, entries[1])
  {
    RestOfBatch(entries);
    StoreOneSpec(s, chain, typ, entries[0]);
    hide StoreOne;
  }

  /** The rest of a batch uses no other keys than the whole. */
  lemma UsedByRest(s: LruState, chain: ChainName, typ: EntryType, entries: seq<Entry>)
    requires ValidState(s) && |entries| > 1 && LinkedBatch(entries)
    ensures Used(s, chain, typ, [entries[0]]) + Used(StoreOne(s, chain, typ, entries[0]), chain, typ, entries[1..])
      == Used(s, chain, typ, entries)
  {
    SecondFindsFirst(s, chain, typ, entries);
    UsedByOne(s, chain, typ, entries[0]);
    BatchKeysStep(chain, typ, entries);
    hide StoreOne, BatchKeys, Valid, LinkedBatch;
  }

  lemma StoreAllStep(s: LruState, chain: ChainName, typ: EntryType, entries: seq<Entry>)
    requires entries != []
    ensures StoreAll(s, chain, typ, entries)
      == StoreAll(StoreOne(s, chain, typ, entries[0]), chain, typ, entries[1..])
    ensures |entries| == 1 ==> StoreAll(s, chain, typ, entries) == StoreOne(s, chain, typ, entries[0])
  {
    if |entries| == 1 {
      assert StoreAll(StoreOne(s, chain, typ, entries[0]), chain, typ, []) == StoreOne(s, chain, typ, entries[0]);
    }
  }

  /** `k` outlives a Put, unchanged, exactly when fewer keys than fit have then been used since `k`. */
  ghost predicate ForgetsRight(s: LruState, chain: ChainName, typ: EntryType, entries: seq<Entry>, k: NumberKey)
    requires entries != []
  {
    var r := StoreAll(s, chain, typ, entries).byNumber;
    && (k in r.values <==> |Newer(s.byNumber, k) + Used(s, chain, typ, entries)| < s.byNumber.size)
    && (k in r.values && k in s.byNumber.values ==> r.values[k] == s.byNumber.values[k])
  }

  lemma OneForgets(s: LruState, chain: ChainName, typ: EntryType, e: Entry, k: NumberKey)
    requires ValidState(s) && k in s.byNumber.values
    requires e.blockNumber < k.number <= TWO_63 && !PurgeFires(s, chain, typ, e)
    ensures ForgetsRight(s, chain, typ, [e], k)
  {
    StoreAllStep(s, chain, typ, [e]);
    StoreOneForgets(s, chain, typ, e, k);
    hide Newer, Used, StoreOne, StoreAll, PurgeFires, Valid;
  }

  lemma MoreForget(s: LruState, chain: ChainName, typ: EntryType, entries: seq<Entry>, k: NumberKey)
    requires ValidState(s) && k in s.byNumber.values
    requires |entries| > 1 && LinkedBatch(entries) && Above(k, entries)
    requires !PurgeFires(s, chain, typ, entries[0])
    requires var s1 := StoreOne(s, chain, typ, entries[0]);
      k in s1.byNumber.values ==> ForgetsRight(s1, chain, typ, entries[1..], k)
    ensures ForgetsRight(s, chain, typ, entries, k)
  {
    var e, rest := entries[0], entries[1..];
    var s1 := StoreOne(s, chain, typ, e);
    assert e in entries;
    StoreAllStep(s, chain, typ, entries);
    StoreOneForgets(s, chain, typ, e, k);
    UsedByRest(s, chain, typ, entries);
    StoreOneSpec(s, chain, typ, e);
    hide Newer, Used, StoreOne, StoreAll, PurgeFires, LinkedBatch, Valid;
    var newer := Newer(s.byNumber, k) + Used(s, chain, typ, [e]);
    var all := Newer(s.byNumber, k) + Used(s, chain, typ, entries);
    assert newer + Used(s1, chain, typ, rest) == all;
    if k !in s1.byNumber.values {
      NotAdded(s1, chain, typ, rest, k);
      SubsetSize(newer, all);
    }
  }

  /** A Put that clears nothing forgets a block above its batch exactly when as many keys as fit have
      then been used since that block was. */
  lemma {:induction false} PutForgets(s: LruState, chain: ChainName, typ: EntryType, entries: seq<Entry>, k: NumberKey)
    requires ValidState(s) && k in s.byNumber.values
    requires entries != [] && LinkedBatch(entries) && Above(k, entries)
    requires !PurgeFires(s, chain, typ, entries[0])
    ensures ForgetsRight(s, chain, typ, entries, k)
    decreases |entries|
  {
    var e := entries[0];
    assert e in entries;
    if |entries| == 1 {
      assert entries == [e];
      OneForgets(s, chain, typ, e, k);
    } else {
      var s1 := StoreOne(s, chain, typ, e);
      StoreOneSpec(s, chain, typ, e);
      RestOfBatch(entries);
      SecondFindsFirst(s, chain, typ, entries);
      hide ForgetsRight, StoreOne, PurgeFires, LinkedBatch, Valid;
      if k in s1.byNumber.values {
        PutForgets(s1, chain, typ, entries[1..], k);
      }
      MoreForget(s, chain, typ, entries, k);
    }
    hide ForgetsRight, StoreOne, PurgeFires, LinkedBatch, Valid;
  }
}
