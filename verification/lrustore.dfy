/** LruStore: the in-process block cache with its two indices, by hash and by number. */
module LruStores {
  import opened Basics
  import opened Types
  import opened SimpleLru

  type NumberLru = Lru<NumberKey, Entry>
  type HashLru = Lru<HashKey, Entry>

  datatype LruState = LruState(byHash: HashLru, byNumber: NumberLru)

  ghost predicate ValidState(s: LruState) {
    Valid(s.byHash) && Valid(s.byNumber)
  }

  /** Reads numbers i..end one by one, promoting each, until one is missing. */
  function Collect(l: NumberLru, chain: ChainName, typ: EntryType, i: nat, end: nat): (NumberLru, Option<seq<Entry>>)
    decreases end + 1 - i
  {
    if i > end then (l, Some([]))
    else
      var key := NumberKey(typ, i, chain);
      match Lookup(l, key)
      case None => (l, None)
      case Some(entry) =>
        var (l', rest) := Collect(Touch(l, key), chain, typ, i + 1, end);
        (l', if rest.Some? then Some([entry] + rest.value) else None)
  }

  /** The outcome of a range read whose first entries have been collected already. */
  function Prefixed(entries: seq<Entry>, r: (NumberLru, Option<seq<Entry>>)): (NumberLru, Option<seq<Entry>>) {
    (r.0, if r.1.Some? then Some(entries + r.1.value) else None)
  }

  lemma PrefixedByNothing(r: (NumberLru, Option<seq<Entry>>))
    ensures Prefixed([], r) == r
  {
    if r.1.Some? {
      assert [] + r.1.value == r.1.value;
    }
  }

  lemma CollectStep(l: NumberLru, chain: ChainName, typ: EntryType, i: nat, end: nat, entries: seq<Entry>)
    requires i <= end && NumberKey(typ, i, chain) in l.values
    ensures
      var key := NumberKey(typ, i, chain);
      Prefixed(entries, Collect(l, chain, typ, i, end))
        == Prefixed(entries + [l.values[key]], Collect(Touch(l, key), chain, typ, i + 1, end))
  {
    var key := NumberKey(typ, i, chain);
    var rest := Collect(Touch(l, key), chain, typ, i + 1, end).1;
    if rest.Some? {
      assert entries + ([l.values[key]] + rest.value) == entries + [l.values[key]] + rest.value;
    }
  }

  function Fetch(s: LruState, chain: ChainName, typ: EntryType, q: Query): (LruState, Result<seq<Entry>>) {
    match q
    case QueryHash(hash) =>
      var key := HashKey(typ, hash, chain);
      (match Lookup(s.byHash, key)
       case None => (s, Err)
       case Some(entry) => (s.(byHash := Touch(s.byHash, key)), Ok([entry])))
    case QueryRange(start, end) =>
      var (l, entries) := Collect(s.byNumber, chain, typ, start, end);
      (s.(byNumber := l), if entries.Some? then Ok(entries.value) else Err)
  }

  /** True when storing `e` finds a predecessor of another branch, which clears the number index. */
  predicate PurgeFires(s: LruState, chain: ChainName, typ: EntryType, e: Entry) {
    var key := NumberKey(typ, Predecessor(e.blockNumber), chain);
    e.parentHash.Some? && key in s.byNumber.values && s.byNumber.values[key].blockHash != e.parentHash.value
  }

  function StoreOne(s: LruState, chain: ChainName, typ: EntryType, e: Entry): LruState {
    var key := NumberKey(typ, Predecessor(e.blockNumber), chain);
    var checked :=
      if e.parentHash.None? then s.byNumber
      else if PurgeFires(s, chain, typ, e) then Purge(s.byNumber)
      else Touch(s.byNumber, key);
    LruState(
      Add(s.byHash, HashKey(typ, e.blockHash, chain), e),
      Add(checked, NumberKey(typ, e.blockNumber, chain), e))
  }

  function StoreAll(s: LruState, chain: ChainName, typ: EntryType, entries: seq<Entry>): LruState
    decreases |entries|
  {
    if entries == [] then s
    else StoreAll(StoreOne(s, chain, typ, entries[0]), chain, typ, entries[1..])
  }

  class LruStore {
    const size: nat
    var byHash: HashLru
    var byNumber: NumberLru

    ghost function State(): LruState
      reads this
    {
      LruState(byHash, byNumber)
    }

    constructor (size: nat)
      requires size >= 1
      ensures this.size == size
      ensures State() == LruState(Empty(size), Empty(size))
      ensures ValidState(State())
    {
      this.size := size;
      byHash := Empty(size);
      byNumber := Empty(size);
    }

    method Get(chain: ChainName, typ: EntryType, q: Query) returns (r: Result<seq<Entry>>)
      requires InBounds(q)
      modifies this
      ensures (State(), r) == Fetch(old(State()), chain, typ, q)
    {
      match q
      case QueryHash(hash) =>
        var key := HashKey(typ, hash, chain);
        if key !in byHash.values {
          return Err;
        }
        var entry := byHash.values[key];
        byHash := Touch(byHash, key);
        return Ok([entry]);
      case QueryRange(start, end) =>
        var entries: seq<Entry> := [];
        ghost var was := byNumber;
        PrefixedByNothing(Collect(was, chain, typ, start, end));
        var i := start;
        while i <= end
          invariant start <= i <= end + 1
          invariant byHash == old(byHash)
          invariant Prefixed(entries, Collect(byNumber, chain, typ, i, end)) == Collect(was, chain, typ, start, end)
        {
          var key := NumberKey(typ, i, chain);
          if key !in byNumber.values {
            return Err;
          }
          CollectStep(byNumber, chain, typ, i, end, entries);
          entries := entries + [byNumber.values[key]];
          byNumber := Touch(byNumber, key);
          i := i + 1;
        }
        assert entries + [] == entries;
        return Ok(entries);
    }

    method Put(chain: ChainName, typ: EntryType, entries: seq<Entry>)
      modifies this
      ensures State() == StoreAll(old(State()), chain, typ, entries)
    {
      for i := 0 to |entries|
        invariant StoreAll(State(), chain, typ, entries[i..]) == StoreAll(old(State()), chain, typ, entries)
      {
        var entry := entries[i];
        assert entries[i..][0] == entry && entries[i..][1..] == entries[i + 1..];
        if entry.parentHash.Some? {
          var key := NumberKey(typ, Predecessor(entry.blockNumber), chain);
          if key in byNumber.values {
            var prev := byNumber.values[key];
            byNumber := Touch(byNumber, key);
            if prev.blockHash != entry.parentHash.value {
              byNumber := Purge(byNumber);
            }
          }
        }
        byHash := Add(byHash, HashKey(typ, entry.blockHash, chain), entry);
        byNumber := Add(byNumber, NumberKey(typ, entry.blockNumber, chain), entry);
      }
    }
  }

  ghost predicate AllCached(l: NumberLru, chain: ChainName, typ: EntryType, start: nat, end: nat) {
    forall n | start <= n <= end :: NumberKey(typ, n, chain) in l.values
  }

  /** `entries` are the cached entries numbered start, start + 1, ... */
  ghost predicate ReadFrom(l: NumberLru, chain: ChainName, typ: EntryType, start: nat, entries: seq<Entry>) {
    forall j | 0 <= j < |entries| :: Lookup(l, NumberKey(typ, start + j, chain)) == Some(entries[j])
  }

  lemma CollectTouches(l: NumberLru, chain: ChainName, typ: EntryType, i: nat, end: nat)
    ensures var key := NumberKey(typ, i, chain);
      Collect(l, chain, typ, i, end).0 ==
        if i <= end && key in l.values then Collect(Touch(l, key), chain, typ, i + 1, end).0 else l
  {
    hide Touch;
  }

  lemma {:induction false} CollectFrame(l: NumberLru, chain: ChainName, typ: EntryType, i: nat, end: nat)
    requires Valid(l)
    ensures var l' := Collect(l, chain, typ, i, end).0;
      Valid(l') && l'.values == l.values && l'.size == l.size
    decreases end + 1 - i
  {
    hide Collect, Valid, Touch;
    var key := NumberKey(typ, i, chain);
    CollectTouches(l, chain, typ, i, end);
    if i <= end && key in l.values {
      TouchValid(l, key);
      CollectFrame(Touch(l, key), chain, typ, i + 1, end);
    }
  }

  lemma CollectReads(l: NumberLru, chain: ChainName, typ: EntryType, i: nat, end: nat)
    requires i <= end
    ensures var key, r := NumberKey(typ, i, chain), Collect(l, chain, typ, i, end).1;
      if key !in l.values then r == None
      else
        var rest := Collect(Touch(l, key), chain, typ, i + 1, end).1;
        r == if rest.Some? then Some([l.values[key]] + rest.value) else None
  {
    hide Touch;
  }

  lemma AllCachedNext(l: NumberLru, t: NumberLru, chain: ChainName, typ: EntryType, i: nat, end: nat)
    requires i <= end && t.values == l.values
    ensures AllCached(l, chain, typ, i, end)
      <==> NumberKey(typ, i, chain) in l.values && AllCached(t, chain, typ, i + 1, end)
  {
    if NumberKey(typ, i, chain) in l.values && AllCached(t, chain, typ, i + 1, end) {
      forall n | i <= n <= end ensures NumberKey(typ, n, chain) in l.values {
        assert n == i || NumberKey(typ, n, chain) in t.values;
      }
    }
  }

  lemma ReadFromNext(l: NumberLru, t: NumberLru, chain: ChainName, typ: EntryType, i: nat, e: Entry, rest: seq<Entry>)
    requires t.values == l.values && Lookup(l, NumberKey(typ, i, chain)) == Some(e)
    requires ReadFrom(t, chain, typ, i + 1, rest)
    ensures ReadFrom(l, chain, typ, i, [e] + rest)
  {
    var all := [e] + rest;
    forall j | 0 <= j < |all| ensures Lookup(l, NumberKey(typ, i + j, chain)) == Some(all[j]) {
      if j > 0 {
        assert Lookup(t, NumberKey(typ, i + 1 + (j - 1), chain)) == Some(rest[j - 1]);
      }
    }
  }

  /** A range read answers exactly when every number of the range is cached, with the cached
      entries in order. */
  lemma {:induction false} CollectSpec(l: NumberLru, chain: ChainName, typ: EntryType, i: nat, end: nat)
    ensures var r := Collect(l, chain, typ, i, end).1;
      && (r.Some? <==> AllCached(l, chain, typ, i, end))
      && (r.Some? ==>
            && |r.value| == (if i <= end then end + 1 - i else 0)
            && ReadFrom(l, chain, typ, i, r.value))
    decreases end + 1 - i
  {
    if i <= end {
      var key := NumberKey(typ, i, chain);
      var t := Touch(l, key);
      assert t.values == l.values;
      CollectReads(l, chain, typ, i, end);
      CollectSpec(t, chain, typ, i + 1, end);
      AllCachedNext(l, t, chain, typ, i, end);
      var rest := Collect(t, chain, typ, i + 1, end).1;
      hide Collect, Touch, AllCached, ReadFrom;
      if key in l.values && rest.Some? {
        ReadFromNext(l, t, chain, typ, i, l.values[key], rest.value);
      }
    }
  }

  lemma FetchValid(s: LruState, chain: ChainName, typ: EntryType, q: Query)
    requires ValidState(s)
    ensures var s' := Fetch(s, chain, typ, q).0;
      && ValidState(s')
      && s'.byHash.values == s.byHash.values && s'.byNumber.values == s.byNumber.values
      && s'.byHash.size == s.byHash.size && s'.byNumber.size == s.byNumber.size
  {
    match q
    case QueryHash(hash) => TouchValid(s.byHash, HashKey(typ, hash, chain));
    case QueryRange(start, end) => CollectFrame(s.byNumber, chain, typ, start, end);
  }

  /** Where every cached pair after storing one entry comes from. */
  lemma StoreOneSpec(s: LruState, chain: ChainName, typ: EntryType, e: Entry)
    requires ValidState(s)
    ensures var r := StoreOne(s, chain, typ, e);
      && ValidState(r)
      && Lookup(r.byHash, HashKey(typ, e.blockHash, chain)) == Some(e)
      && Lookup(r.byNumber, NumberKey(typ, e.blockNumber, chain)) == Some(e)
      && (forall k | k in r.byHash.values && k != HashKey(typ, e.blockHash, chain) ::
            k in s.byHash.values && s.byHash.values[k] == r.byHash.values[k])
      && (forall k | k in r.byNumber.values && k != NumberKey(typ, e.blockNumber, chain) ::
            && !PurgeFires(s, chain, typ, e)
            && k in s.byNumber.values && s.byNumber.values[k] == r.byNumber.values[k])
  {
    var key := NumberKey(typ, Predecessor(e.blockNumber), chain);
    TouchValid(s.byNumber, key);
    var checked :=
      if e.parentHash.None? then s.byNumber
      else if PurgeFires(s, chain, typ, e) then Purge(s.byNumber)
      else Touch(s.byNumber, key);
    AddSpec(s.byHash, HashKey(typ, e.blockHash, chain), e);
    AddSpec(checked, NumberKey(typ, e.blockNumber, chain), e);
  }

  /** The in-process cache answers exactly when all keys that a query needs are there, and then with what
      is stored under them. */
  lemma LruAnswersIff(s: LruState, chain: ChainName, typ: EntryType, q: Query)
    ensures q.QueryHash? ==>
      var r, k := Fetch(s, chain, typ, q).1, HashKey(typ, q.hash, chain);
      (r.Ok? <==> k in s.byHash.values) && (r.Ok? ==> r.value == [s.byHash.values[k]])
    ensures q.QueryRange? ==>
      var r := Fetch(s, chain, typ, q).1;
      && (r.Ok? <==> AllCached(s.byNumber, chain, typ, q.start, q.end))
      && (r.Ok? ==>
            && |r.value| == (if q.start <= q.end then q.end + 1 - q.start else 0)
            && ReadFrom(s.byNumber, chain, typ, q.start, r.value))
  {
    if q.QueryRange? {
      CollectSpec(s.byNumber, chain, typ, q.start, q.end);
    }
    hide Collect, AllCached, ReadFrom, Touch;
  }
}
