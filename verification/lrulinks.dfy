/** Neighbouring numbers in the LRU are parent-linked, also while the chain reorganises. */
module LruLinks {
  import opened Basics
  import opened Types
  import opened SimpleLru
  import opened LruStores

  /** If n and n + 1 are both cached, the upper one names the lower one as its parent
      (when it knows its parent at all). */
  ghost predicate LinkedAt(l: NumberLru, chain: ChainName, typ: EntryType, n: nat) {
    var lower, upper := Lookup(l, NumberKey(typ, n, chain)), Lookup(l, NumberKey(typ, n + 1, chain));
    lower.Some? && upper.Some? && upper.value.parentHash.Some? ==>
      upper.value.parentHash.value == lower.value.blockHash
  }

  ghost predicate Linked(l: NumberLru) {
    forall chain, typ, n :: LinkedAt(l, chain, typ, n)
  }

  /** Linked everywhere but possibly between `hole` and `hole + 1` of one chain and type. */
  ghost predicate LinkedBut(l: NumberLru, chain: ChainName, typ: EntryType, hole: int) {
    forall c, t, n: nat | !(c == chain && t == typ && n == hole) :: LinkedAt(l, c, t, n)
  }

  /** An ascending run of consecutive blocks, each naming the one before as its parent. */
  ghost predicate LinkedBatch(entries: seq<Entry>) {
    forall i | 1 <= i < |entries| :: Follows(entries[i - 1], entries[i])
  }

  predicate Follows(lower: Entry, upper: Entry) {
    && upper.blockNumber == lower.blockNumber + 1
    && (upper.parentHash.Some? ==> upper.parentHash.value == lower.blockHash)
  }

  lemma RestOfBatch(entries: seq<Entry>)
    requires entries != [] && LinkedBatch(entries)
    ensures LinkedBatch(entries[1..])
    ensures |entries| > 1 ==> Follows(entries[0], entries[1])
  {
    var rest := entries[1..];
    assert |entries| > 1 ==> Follows(entries[1 - 1], entries[1]);
    forall i | 1 <= i < |rest| ensures Follows(rest[i - 1], rest[i]) {
      assert rest[i - 1] == entries[i + 1 - 1] && rest[i] == entries[i + 1];
    }
  }

  /** The block cached just above `last` is absent, does not know its parent, or builds on `last`. */
  ghost predicate AboveFits(l: NumberLru, chain: ChainName, typ: EntryType, last: Entry) {
    var above := Lookup(l, NumberKey(typ, last.blockNumber + 1, chain));
    above.Some? && above.value.parentHash.Some? ==> above.value.parentHash.value == last.blockHash
  }

  lemma StoreOneLinks(s: LruState, chain: ChainName, typ: EntryType, e: Entry)
    requires ValidState(s)
    requires e.blockNumber < TWO_63
    requires LinkedBut(s.byNumber, chain, typ, e.blockNumber - 1)
    ensures LinkedBut(StoreOne(s, chain, typ, e).byNumber, chain, typ, e.blockNumber)
  {
    StoreOneSpec(s, chain, typ, e);
    var r := StoreOne(s, chain, typ, e).byNumber;
    forall c, t, n: nat | !(c == chain && t == typ && n == e.blockNumber) ensures LinkedAt(r, c, t, n) {
      var lower, upper := NumberKey(t, n, c), NumberKey(t, n + 1, c);
      if lower in r.values && upper in r.values {
        assert s.byNumber.values[lower] == r.values[lower];
        if upper != NumberKey(typ, e.blockNumber, chain) {
          assert s.byNumber.values[upper] == r.values[upper];
          assert LinkedAt(s.byNumber, c, t, n);
        } else {
          assert Predecessor(e.blockNumber) == n;
        }
      }
    }
  }

  /** Storing `entries[i]` after the ones before it clears the number index. */
  ghost predicate PurgesAt(s: LruState, chain: ChainName, typ: EntryType, entries: seq<Entry>, i: nat)
    requires i < |entries|
  {
    PurgeFires(StoreAll(s, chain, typ, entries[..i]), chain, typ, entries[i])
  }

  lemma {:induction false} StoreAllLinks(s: LruState, chain: ChainName, typ: EntryType, entries: seq<Entry>)
    requires ValidState(s)
    requires entries != [] && LinkedBatch(entries)
    requires forall e | e in entries :: e.blockNumber < TWO_63
    requires LinkedBut(s.byNumber, chain, typ, entries[0].blockNumber - 1)
    ensures
      var r := StoreAll(s, chain, typ, entries);
      var last := entries[|entries| - 1];
      && ValidState(r)
      && LinkedBut(r.byNumber, chain, typ, last.blockNumber)
      && Lookup(r.byNumber, NumberKey(typ, last.blockNumber, chain)) == Some(last)
      && (forall k | k in r.byNumber.values && k != NumberKey(typ, last.blockNumber, chain) ::
            (exists e :: e in entries && k == NumberKey(typ, e.blockNumber, chain))
            || (k in s.byNumber.values && s.byNumber.values[k] == r.byNumber.values[k]))
    decreases |entries|
  {
    var e := entries[0];
    var s1 := StoreOne(s, chain, typ, e);
    StoreOneLinks(s, chain, typ, e);
    StoreOneSpec(s, chain, typ, e);
    if |entries| > 1 {
      var rest := entries[1..];
      RestOfBatch(entries);
      StoreAllLinks(s1, chain, typ, rest);
    } else {
      assert StoreAll(s, chain, typ, entries) == s1;
    }
  }

  /** A purge can only happen on the first block of a batch: the later ones find the block
      stored just before them, which is their parent. */
  lemma {:induction false} PurgeOnlyAtFirst(s: LruState, chain: ChainName, typ: EntryType, entries: seq<Entry>, i: nat)
    requires ValidState(s)
    requires LinkedBatch(entries)
    requires 1 <= i < |entries|
    ensures !PurgesAt(s, chain, typ, entries, i)
    decreases i
  {
    var s1 := StoreOne(s, chain, typ, entries[0]);
    StoreOneSpec(s, chain, typ, entries[0]);
    RestOfBatch(entries);
    assert entries[..i][0] == entries[0] && entries[..i][1..] == entries[1..][..i - 1];
    if i > 1 {
      var rest := entries[1..];
      PurgeOnlyAtFirst(s1, chain, typ, rest, i - 1);
    } else {
      assert StoreAll(s, chain, typ, entries[..i]) == s1;
    }
  }

  lemma FillHole(l: NumberLru, chain: ChainName, typ: EntryType, last: Entry)
    requires LinkedBut(l, chain, typ, last.blockNumber)
    requires Lookup(l, NumberKey(typ, last.blockNumber, chain)) == Some(last)
    ensures Linked(l) <==> AboveFits(l, chain, typ, last)
  {
    assert LinkedAt(l, chain, typ, last.blockNumber) <==> AboveFits(l, chain, typ, last);
  }

  lemma {:induction false} BatchAscends(entries: seq<Entry>, i: nat)
    requires i < |entries| && LinkedBatch(entries)
    ensures entries[i].blockNumber == entries[|entries| - 1].blockNumber - (|entries| - 1 - i)
    decreases |entries| - i
  {
    if i + 1 < |entries| {
      BatchAscends(entries, i + 1);
    }
  }

  /** Any header range read from a linked cache is a hash chain. */
  lemma RangeIsHashChain(l: NumberLru, chain: ChainName, typ: EntryType, start: nat, end: nat)
    requires Linked(l)
    ensures var r := Collect(l, chain, typ, start, end).1;
      r.Some? ==>
        forall j | 0 <= j < |r.value| - 1 && r.value[j + 1].parentHash.Some? ::
          r.value[j + 1].parentHash.value == r.value[j].blockHash
  {
    CollectSpec(l, chain, typ, start, end);
    var r := Collect(l, chain, typ, start, end).1;
    if r.Some? {
      forall j | 0 <= j < |r.value| - 1 && r.value[j + 1].parentHash.Some?
        ensures r.value[j + 1].parentHash.value == r.value[j].blockHash
      {
        assert LinkedAt(l, chain, typ, start + j);
        assert Lookup(l, NumberKey(typ, start + (j + 1), chain)) == Some(r.value[j + 1]);
      }
    }
  }
}
