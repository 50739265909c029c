/** Runs of reads and Puts on the LRU: when neighbouring numbers stay parent-linked throughout. */
module LruRuns {
  import opened Basics
  import opened Types
  import opened SimpleLru
  import opened LruStores
  import opened LruLinks
  import opened LruRecency
  import opened Runs

  // One Put.

  function KeyAbove(chain: ChainName, typ: EntryType, last: Entry): NumberKey {
    NumberKey(typ, last.blockNumber + 1, chain)
  }

  ghost predicate GoodBatch(entries: seq<Entry>) {
    entries != [] && LinkedBatch(entries) && forall e | e in entries :: e.blockNumber < TWO_63
  }

  /** A cached block just above the batch has another parent, the first block of the batch clears nothing,
      and the block is not pushed out by the keys that the Put uses. */
  ghost predicate Breaks(s: LruState, chain: ChainName, typ: EntryType, entries: seq<Entry>)
    requires entries != []
  {
    var last := entries[|entries| - 1];
    && !AboveFits(s.byNumber, chain, typ, last)
    && !PurgeFires(s, chain, typ, entries[0])
    && |Newer(s.byNumber, KeyAbove(chain, typ, last)) + Used(s, chain, typ, entries)| < s.byNumber.size
  }

  lemma LastIsHighest(entries: seq<Entry>, chain: ChainName, typ: EntryType)
    requires GoodBatch(entries)
    ensures Above(KeyAbove(chain, typ, entries[|entries| - 1]), entries)
    ensures entries[|entries| - 1] in entries && entries[0] in entries
  {
    forall e | e in entries ensures e.blockNumber <= entries[|entries| - 1].blockNumber {
      var i :| 0 <= i < |entries| && entries[i] == e;
      BatchAscends(entries, i);
    }
  }

  lemma AbsentStays(s: LruState, chain: ChainName, typ: EntryType, entries: seq<Entry>)
    requires ValidState(s) && GoodBatch(entries)
    requires KeyAbove(chain, typ, entries[|entries| - 1]) !in s.byNumber.values
    ensures KeyAbove(chain, typ, entries[|entries| - 1]) !in StoreAll(s, chain, typ, entries).byNumber.values
  {
    LastIsHighest(entries, chain, typ);
    NotAdded(s, chain, typ, entries, KeyAbove(chain, typ, entries[|entries| - 1]));
    hide StoreAll, LinkedBatch, Valid;
  }

  lemma PurgedAway(s: LruState, chain: ChainName, typ: EntryType, entries: seq<Entry>)
    requires ValidState(s) && GoodBatch(entries) && PurgeFires(s, chain, typ, entries[0])
    ensures KeyAbove(chain, typ, entries[|entries| - 1]) !in StoreAll(s, chain, typ, entries).byNumber.values
  {
    var k := KeyAbove(chain, typ, entries[|entries| - 1]);
    LastIsHighest(entries, chain, typ);
    StoreOneSpec(s, chain, typ, entries[0]);
    StoreAllStep(s, chain, typ, entries);
    NotAdded(StoreOne(s, chain, typ, entries[0]), chain, typ, entries[1..], k);
    hide StoreAll, StoreOne, PurgeFires, LinkedBatch, Valid;
  }

  /** The block above the batch after a Put. */
  lemma AboveAfterPut(s: LruState, chain: ChainName, typ: EntryType, entries: seq<Entry>)
    requires ValidState(s) && GoodBatch(entries)
    ensures
      var last, r := entries[|entries| - 1], StoreAll(s, chain, typ, entries).byNumber;
      AboveFits(r, chain, typ, last) <==> !Breaks(s, chain, typ, entries)
  {
    var k := KeyAbove(chain, typ, entries[|entries| - 1]);
    if k !in s.byNumber.values {
      AbsentStays(s, chain, typ, entries);
    } else if PurgeFires(s, chain, typ, entries[0]) {
      PurgedAway(s, chain, typ, entries);
    } else {
      LastIsHighest(entries, chain, typ);
      PutForgets(s, chain, typ, entries, k);
    }
    hide StoreAll, StoreOne, PurgeFires, Newer, Used, GoodBatch, Valid, Above;
  }

  lemma LinkedIsLinkedBut(l: NumberLru, chain: ChainName, typ: EntryType, hole: int)
    requires Linked(l)
    ensures LinkedBut(l, chain, typ, hole)
  {
  }

  /** Storing a linked batch keeps a linked cache linked exactly when it does not break it. */
  lemma {:induction false} PutKeepsLinks(s: LruState, chain: ChainName, typ: EntryType, entries: seq<Entry>)
    requires ValidState(s) && Linked(s.byNumber) && GoodBatch(entries)
    ensures Linked(StoreAll(s, chain, typ, entries).byNumber) <==> !Breaks(s, chain, typ, entries)
  {
    LinkedIsLinkedBut(s.byNumber, chain, typ, entries[0].blockNumber - 1);
    StoreAllLinks(s, chain, typ, entries);
    FillHole(StoreAll(s, chain, typ, entries).byNumber, chain, typ, entries[|entries| - 1]);
    AboveAfterPut(s, chain, typ, entries);
    hide StoreAll, Linked, LinkedBut, Breaks, AboveFits, LinkedBatch;
  }

  /** In particular a batch that fits below what is cached above it never breaks the links. */
  lemma FittingBatchKeepsLinks(s: LruState, chain: ChainName, typ: EntryType, entries: seq<Entry>)
    requires ValidState(s) && Linked(s.byNumber) && GoodBatch(entries)
    requires AboveFits(s.byNumber, chain, typ, entries[|entries| - 1])
    ensures Linked(StoreAll(s, chain, typ, entries).byNumber)
  {
    PutKeepsLinks(s, chain, typ, entries);
    hide StoreAll, Linked, LinkedBatch;
  }

  // Runs.

  datatype Event =
    | Read(chain: ChainName, typ: EntryType, query: Query)
    | Store(chain: ChainName, typ: EntryType, entries: seq<Entry>)

  function Step(s: LruState, e: Event): LruState {
    match e
    case Read(chain, typ, q) => Fetch(s, chain, typ, q).0
    case Store(chain, typ, entries) => StoreAll(s, chain, typ, entries)
  }

  ghost predicate Parentless(entries: seq<Entry>) {
    forall e | e in entries :: e.parentHash.None?
  }

  /** The batches that come: nothing, linked headers, and logs or receipts, which know no parents and may
      have gaps. */
  ghost predicate GoodEvent(s: LruState, e: Event) {
    e.Store? ==> if e.typ == BlockHeader then e.entries == [] || GoodBatch(e.entries) else Parentless(e.entries)
  }

  /** Only headers know their parents. */
  ghost predicate HeadersOnly(l: NumberLru) {
    forall k | k in l.values && k.typ != BlockHeader :: l.values[k].parentHash.None?
  }

  ghost predicate Sound(s: LruState) {
    ValidState(s) && Linked(s.byNumber) && HeadersOnly(s.byNumber)
  }

  ghost predicate Breaking(s: LruState, e: Event) {
    e.Store? && e.typ == BlockHeader && e.entries != [] && Breaks(s, e.chain, e.typ, e.entries)
  }

  lemma SameValuesLinked(a: NumberLru, b: NumberLru)
    requires a.values == b.values && Linked(a)
    ensures Linked(b)
  {
    forall chain, typ, n: nat ensures LinkedAt(b, chain, typ, n) {
      assert LinkedAt(a, chain, typ, n);
    }
  }

  lemma ParentlessOne(s: LruState, chain: ChainName, typ: EntryType, e: Entry)
    requires Sound(s) && typ != BlockHeader && e.parentHash.None?
    ensures Sound(StoreOne(s, chain, typ, e))
  {
    StoreOneSpec(s, chain, typ, e);
    var r := StoreOne(s, chain, typ, e).byNumber;
    hide StoreOne, Valid;
    forall c, t, n: nat ensures LinkedAt(r, c, t, n) {
      assert LinkedAt(s.byNumber, c, t, n);
    }
  }

  /** Entries that know no parents break no link, whatever their numbers. */
  lemma {:induction false} ParentlessAll(s: LruState, chain: ChainName, typ: EntryType, entries: seq<Entry>)
    requires Sound(s) && typ != BlockHeader && Parentless(entries)
    ensures Sound(StoreAll(s, chain, typ, entries))
    decreases |entries|
  {
    if entries != [] {
      assert entries[0] in entries;
      ParentlessOne(s, chain, typ, entries[0]);
      ParentlessAll(StoreOne(s, chain, typ, entries[0]), chain, typ, entries[1..]);
    }
    hide Sound, StoreOne;
  }

  lemma HeadersStayOnly(s: LruState, chain: ChainName, e: Entry)
    requires ValidState(s) && HeadersOnly(s.byNumber)
    ensures HeadersOnly(StoreOne(s, chain, BlockHeader, e).byNumber)
  {
    StoreOneSpec(s, chain, BlockHeader, e);
    hide StoreOne, Valid;
  }

  lemma {:induction false} HeaderBatch(s: LruState, chain: ChainName, entries: seq<Entry>)
    requires ValidState(s) && HeadersOnly(s.byNumber)
    ensures HeadersOnly(StoreAll(s, chain, BlockHeader, entries).byNumber)
    decreases |entries|
  {
    if entries != [] {
      HeadersStayOnly(s, chain, entries[0]);
      StoreOneSpec(s, chain, BlockHeader, entries[0]);
      HeaderBatch(StoreOne(s, chain, BlockHeader, entries[0]), chain, entries[1..]);
    }
    hide HeadersOnly, StoreOne, Valid;
  }

  lemma {:induction false} StepSoundIff(s: LruState, e: Event)
    requires Sound(s) && GoodEvent(s, e)
    ensures Sound(Step(s, e)) <==> !Breaking(s, e)
  {
    match e
    case Read(chain, typ, q) =>
      FetchValid(s, chain, typ, q);
      SameValuesLinked(s.byNumber, Fetch(s, chain, typ, q).0.byNumber);
    case Store(chain, typ, entries) =>
      if typ != BlockHeader {
        ParentlessAll(s, chain, typ, entries);
      } else if entries != [] {
        HeaderBatch(s, chain, entries);
        LinkedIsLinkedBut(s.byNumber, chain, typ, entries[0].blockNumber - 1);
        StoreAllLinks(s, chain, typ, entries);
        PutKeepsLinks(s, chain, typ, entries);
      }
    hide Fetch, Linked, LinkedBut, LinkedBatch, Breaks, Valid, StoreOne;
  }

  /** A run of reads and of all kinds of Puts keeps the cache linked throughout exactly when no batch of
      headers breaks it. */
  lemma {:induction false} RunSoundIff(s: LruState, events: seq<Event>)
    requires Sound(s) && AtEach(Step, GoodEvent, s, events)
    ensures Always(Step, Sound, s, events) <==> Never(Step, Breaking, s, events)
  {
    forall t, e | Sound(t) && GoodEvent(t, e) ensures Sound(Step(t, e)) <==> !Breaking(t, e) {
      StepSoundIff(t, e);
    }
    RunIff(Step, Sound, GoodEvent, Breaking, s, events);
    hide Sound, GoodEvent, Breaking, Step;
  }

  lemma EmptySound(size: nat)
    requires size >= 1
    ensures Sound(LruState(Empty(size), Empty(size)))
  {
  }

  /** From the empty cache on, every range read in such a run is a hash chain. */
  lemma {:induction false} EveryReadIsHashChain(size: nat, events: seq<Event>, chain: ChainName, typ: EntryType,
                                                start: nat, end: nat)
    requires size >= 1
    requires AtEach(Step, GoodEvent, LruState(Empty(size), Empty(size)), events)
    requires Never(Step, Breaking, LruState(Empty(size), Empty(size)), events)
    ensures
      var s := Exec(Step, LruState(Empty(size), Empty(size)), events);
      var r := Fetch(s, chain, typ, QueryRange(start, end)).1;
      r.Ok? ==> forall j | 0 <= j < |r.value| - 1 && r.value[j + 1].parentHash.Some? ::
        r.value[j + 1].parentHash.value == r.value[j].blockHash
  {
    var empty := LruState(Empty(size), Empty(size));
    EmptySound(size);
    RunSoundIff(empty, events);
    RangeIsHashChain(Exec(Step, empty, events).byNumber, chain, typ, start, end);
    hide Exec, Linked, Never, AtEach, Collect;
  }
}
