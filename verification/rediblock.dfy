/** Rediblock: the shared block cache kept in Redis, with expiring keys. */
module Rediblock {
  import opened Basics
  import opened Types

  /** A stored value and the second at which it expires. */
  datatype Cell<+T> = Cell(value: T, expires: nat)

  datatype RedisState = RedisState(
    now: nat,
    heads: map<ChainName, nat>,
    hashValue: map<HashKey, Cell<Message>>,
    hashNumber: map<HashKey, Cell<nat>>,
    numberValue: map<NumberKey, Cell<Message>>,
    numberHash: map<NumberKey, Cell<Hash>>)

  const MAX_TTL: nat := 3600

  /** GET: a key that has expired is gone. */
  function Read<K(==), V>(m: map<K, Cell<V>>, k: K, now: nat): Option<V> {
    if k in m && now < m[k].expires then Some(m[k].value) else None
  }

  function StoredHead(s: RedisState, chain: ChainName): nat {
    if chain in s.heads then s.heads[chain] else 0
  }

  /** The lifetime of an entry: longer the further behind the head it is, within 1 .. 3600 seconds. */
  function TimeToLive(head: nat, number: nat, secondsPerBlock: nat): (ttl: nat)
    ensures 1 <= ttl <= MAX_TTL
  {
    var behind := if head - number + 1 < 1 then 1 else head - number + 1;
    var exp := behind * secondsPerBlock;
    if exp < 1 then 1 else if exp > MAX_TTL then MAX_TTL else exp
  }

  /** A block lives longer the further the head has moved on, and the newest one for one block time
      as far as the bounds allow; a number ahead of the head counts as the newest. */
  lemma LifetimeGrows(head: nat, later: nat, number: nat, secondsPerBlock: nat)
    requires head <= later
    ensures TimeToLive(head, number, secondsPerBlock) <= TimeToLive(later, number, secondsPerBlock)
    ensures head <= number && 1 <= secondsPerBlock <= MAX_TTL ==>
      TimeToLive(head, number, secondsPerBlock) == secondsPerBlock
  {
    var a := if head - number + 1 < 1 then 1 else head - number + 1;
    var b := if later - number + 1 < 1 then 1 else later - number + 1;
    TimesMonotone(a, b, secondsPerBlock);
  }

  lemma TimesMonotone(a: int, b: int, c: nat)
    requires a <= b
    ensures a * c <= b * c
  {
  }

  method Lifetime(head: nat, number: nat, secondsPerBlock: nat) returns (exp: nat)
    ensures exp == TimeToLive(head, number, secondsPerBlock)
  {
    var behind := head - number + 1;
    if behind < 1 {
      behind := 1;
    }
    exp := behind * secondsPerBlock;
    if exp < 1 {
      exp := 1;
    }
    if exp > 3600 {
      exp := 3600;
    }
  }

  /** One round of the script that adds entries. */
  function AddOne(s: RedisState, chain: ChainName, typ: EntryType, secondsPerBlock: nat, e: Entry): RedisState {
    var raised := e.blockNumber > StoredHead(s, chain);
    var head := if raised then e.blockNumber else StoredHead(s, chain);
    var expires := s.now + TimeToLive(head, e.blockNumber, secondsPerBlock);
    var hashKey, numberKey := HashKey(typ, e.blockHash, chain), NumberKey(typ, e.blockNumber, chain);
    RedisState(
      s.now,
      if raised then s.heads[chain := head] else s.heads,
      s.hashValue[hashKey := Cell(e.value, expires)],
      s.hashNumber[hashKey := Cell(e.blockNumber, expires)],
      s.numberValue[numberKey := Cell(e.value, expires)],
      s.numberHash[numberKey := Cell(e.blockHash, expires)])
  }

  function AddAll(s: RedisState, chain: ChainName, typ: EntryType, secondsPerBlock: nat, entries: seq<Entry>)
    : RedisState
    decreases |entries|
  {
    if entries == [] then s
    else AddAll(AddOne(s, chain, typ, secondsPerBlock, entries[0]), chain, typ, secondsPerBlock, entries[1..])
  }

  lemma AddStep(s: RedisState, chain: ChainName, typ: EntryType, secondsPerBlock: nat, entries: seq<Entry>, i: nat)
    requires i < |entries|
    ensures AddAll(s, chain, typ, secondsPerBlock, entries[i..])
      == AddAll(AddOne(s, chain, typ, secondsPerBlock, entries[i]), chain, typ, secondsPerBlock, entries[i + 1..])
  {
    assert entries[i..][0] == entries[i] && entries[i..][1..] == entries[i + 1..];
  }

  /** The stored hash below `e` is not its parent's. */
  predicate Mismatch(s: RedisState, key: NumberKey, expected: Hash) {
    var actual := Read(s.numberHash, key, s.now);
    actual.Some? && actual.value != expected
  }

  predicate AnyMismatch(s: RedisState, keys: seq<NumberKey>, expected: seq<Hash>)
    requires |keys| == |expected|
  {
    exists i | 0 <= i < |keys| :: Mismatch(s, keys[i], expected[i])
  }

  predicate Contradicts(s: RedisState, chain: ChainName, typ: EntryType, e: Entry) {
    e.parentHash.Some? && Mismatch(s, NumberKey(typ, Predecessor(e.blockNumber), chain), e.parentHash.value)
  }

  predicate ReorgSeen(s: RedisState, chain: ChainName, typ: EntryType, entries: seq<Entry>) {
    exists i | 0 <= i < |entries| :: Contradicts(s, chain, typ, entries[i])
  }

  predicate ChecksReorg(entries: seq<Entry>) {
    exists i | 0 <= i < |entries| :: entries[i].parentHash.Some?
  }

  /** Removes everything stored by number for one chain. */
  function DropNumbers(s: RedisState, chain: ChainName): RedisState {
    s.(numberValue := map k | k in s.numberValue && k.chain != chain :: s.numberValue[k],
       numberHash := map k | k in s.numberHash && k.chain != chain :: s.numberHash[k])
  }

  /** Where a Put loses its connection, if it does. */
  datatype Fault = NoFault | AtCheck | AtDelete | AtAdd | AtReply

  /** The database after a Put, and whether the Put succeeds. */
  function PutOutcome(s: RedisState, chain: ChainName, typ: EntryType, secondsPerBlock: nat,
                      entries: seq<Entry>, fault: Fault): (RedisState, bool)
  {
    if ChecksReorg(entries) && fault == AtCheck then (s, false)
    else if ReorgSeen(s, chain, typ, entries) && fault == AtDelete then (s, false)
    else
      var s1 := if ReorgSeen(s, chain, typ, entries) then DropNumbers(s, chain) else s;
      if fault == AtAdd then (s1, false)
      else (AddAll(s1, chain, typ, secondsPerBlock, entries), fault != AtReply)
  }

  /** Reads i..end by number, after `entries` have been read. */
  function ReadRange(s: RedisState, chain: ChainName, typ: EntryType, i: nat, end: nat, entries: seq<Entry>)
    : Result<seq<Entry>>
    decreases end + 1 - i
  {
    if i > end then Ok(entries)
    else
      var key := NumberKey(typ, i, chain);
      var value, hash := Read(s.numberValue, key, s.now), Read(s.numberHash, key, s.now);
      if value.None? || hash.None? then Err
      else ReadRange(s, chain, typ, i + 1, end, entries + [Entry(hash.value, i, None, value.value)])
  }

  function FetchFromRedis(s: RedisState, chain: ChainName, typ: EntryType, q: Query, down: bool): Result<seq<Entry>> {
    if down then Err
    else
      match q
      case QueryHash(hash) =>
        var key := HashKey(typ, hash, chain);
        var value, number := Read(s.hashValue, key, s.now), Read(s.hashNumber, key, s.now);
        if value.None? || number.None? then Err else Ok([Entry(hash, number.value, None, value.value)])
      case QueryRange(start, end) => ReadRange(s, chain, typ, start, end, [])
  }

  /** A key is there and has not expired. */
  predicate Live<K(==), V>(m: map<K, Cell<V>>, k: K, now: nat) {
    k in m && now < m[k].expires
  }

  /** What the two keys of a number say. */
  predicate Stored(s: RedisState, chain: ChainName, typ: EntryType, n: nat, e: Entry) {
    var k := NumberKey(typ, n, chain);
    && Live(s.numberValue, k, s.now) && Live(s.numberHash, k, s.now)
    && e == Entry(s.numberHash[k].value, n, None, s.numberValue[k].value)
  }

  /** A range is answered exactly when both keys of every number are live, and then with what they say. */
  lemma {:induction false} ReadRangeIff(s: RedisState, chain: ChainName, typ: EntryType, i: nat, end: nat,
                                        before: seq<Entry>)
    ensures var r := ReadRange(s, chain, typ, i, end, before);
      && (r.Ok? <==> forall n | i <= n <= end ::
            Live(s.numberValue, NumberKey(typ, n, chain), s.now) && Live(s.numberHash, NumberKey(typ, n, chain), s.now))
      && (r.Ok? ==>
            && |r.value| == |before| + (if i <= end then end + 1 - i else 0)
            && r.value[..|before|] == before
            && forall j | |before| <= j < |r.value| :: Stored(s, chain, typ, i + (j - |before|), r.value[j]))
    decreases end + 1 - i
  {
    if i <= end {
      var k := NumberKey(typ, i, chain);
      if Live(s.numberValue, k, s.now) && Live(s.numberHash, k, s.now) {
        var e := Entry(s.numberHash[k].value, i, None, s.numberValue[k].value);
        ReadRangeIff(s, chain, typ, i + 1, end, before + [e]);
        ReadRangeNext(s, chain, typ, i, end, before, e);
      }
    }
  }

  lemma ReadRangeNext(s: RedisState, chain: ChainName, typ: EntryType, i: nat, end: nat, before: seq<Entry>, e: Entry)
    requires i <= end && Stored(s, chain, typ, i, e)
    requires ReadRange(s, chain, typ, i, end, before) == ReadRange(s, chain, typ, i + 1, end, before + [e])
    requires var r := ReadRange(s, chain, typ, i + 1, end, before + [e]);
      r.Ok? ==>
        && |r.value| == |before| + 1 + (end - i)
        && r.value[..|before| + 1] == before + [e]
        && forall j | |before| + 1 <= j < |r.value| :: Stored(s, chain, typ, i + 1 + (j - |before| - 1), r.value[j])
    ensures var r := ReadRange(s, chain, typ, i, end, before);
      r.Ok? ==>
        && |r.value| == |before| + (end + 1 - i)
        && r.value[..|before|] == before
        && forall j | |before| <= j < |r.value| :: Stored(s, chain, typ, i + (j - |before|), r.value[j])
  {
    var r := ReadRange(s, chain, typ, i, end, before);
    hide ReadRange, Stored;
    if r.Ok? {
      assert r.value[..|before|] == r.value[..|before| + 1][..|before|];
      assert r.value[|before|] == r.value[..|before| + 1][|before|] == e;
      forall j | |before| <= j < |r.value| ensures Stored(s, chain, typ, i + (j - |before|), r.value[j]) {
        assert j > |before| ==> Stored(s, chain, typ, i + 1 + (j - |before| - 1), r.value[j]);
      }
    }
  }

  /** Redis answers exactly when it is up and all keys that a query needs are live, and then with what
      they say. */
  lemma RedisAnswersIff(s: RedisState, chain: ChainName, typ: EntryType, q: Query, down: bool)
    ensures q.QueryHash? ==>
      var r, k := FetchFromRedis(s, chain, typ, q, down), HashKey(typ, q.hash, chain);
      && (r.Ok? <==> !down && Live(s.hashValue, k, s.now) && Live(s.hashNumber, k, s.now))
      && (r.Ok? ==> r.value == [Entry(q.hash, s.hashNumber[k].value, None, s.hashValue[k].value)])
    ensures q.QueryRange? ==>
      var r := FetchFromRedis(s, chain, typ, q, down);
      && (r.Ok? <==> !down && forall n | q.start <= n <= q.end ::
            Live(s.numberValue, NumberKey(typ, n, chain), s.now) && Live(s.numberHash, NumberKey(typ, n, chain), s.now))
      && (r.Ok? ==>
            && |r.value| == (if q.start <= q.end then q.end + 1 - q.start else 0)
            && forall j | 0 <= j < |r.value| :: Stored(s, chain, typ, q.start + j, r.value[j]))
  {
    if q.QueryRange? {
      ReadRangeIff(s, chain, typ, q.start, q.end, []);
      var r := ReadRange(s, chain, typ, q.start, q.end, []);
      if r.Ok? {
        forall j | 0 <= j < |r.value| ensures Stored(s, chain, typ, q.start + j, r.value[j]) {
          assert Stored(s, chain, typ, q.start + (j - 0), r.value[j]);
        }
      }
      hide ReadRange, Stored, Live;
    }
  }

  /** The store together with the database it talks to. */
  class RediblockStore {
    var now: nat
    var heads: map<ChainName, nat>
    var hashValue: map<HashKey, Cell<Message>>
    var hashNumber: map<HashKey, Cell<nat>>
    var numberValue: map<NumberKey, Cell<Message>>
    var numberHash: map<NumberKey, Cell<Hash>>

    ghost function State(): RedisState
      reads this
    {
      RedisState(now, heads, hashValue, hashNumber, numberValue, numberHash)
    }

    method Get(chain: ChainName, typ: EntryType, q: Query, down: bool) returns (r: Result<seq<Entry>>)
      requires InBounds(q)
      ensures r == FetchFromRedis(State(), chain, typ, q, down)
    {
      if down {
        return Err;
      }
      match q
      case QueryHash(hash) =>
        var key := HashKey(typ, hash, chain);
        var value, number := Read(hashValue, key, now), Read(hashNumber, key, now);
        if value.None? || number.None? {
          return Err;
        }
        return Ok([Entry(hash, number.value, None, value.value)]);
      case QueryRange(start, end) =>
        var entries: seq<Entry> := [];
        var i := start;
        while i <= end
          invariant start <= i <= end + 1
          invariant ReadRange(State(), chain, typ, i, end, entries) == ReadRange(State(), chain, typ, start, end, [])
        {
          var key := NumberKey(typ, i, chain);
          var value, hash := Read(numberValue, key, now), Read(numberHash, key, now);
          if value.None? || hash.None? {
            return Err;
          }
          entries := entries + [Entry(hash.value, i, None, value.value)];
          i := i + 1;
        }
        return Ok(entries);
    }

    /** The script that compares stored hashes with expected ones. */
    method CheckReorg(keys: seq<NumberKey>, expected: seq<Hash>) returns (actual: Option<Hash>)
      requires |keys| == |expected|
      ensures actual.Some? <==> AnyMismatch(State(), keys, expected)
    {
      for i := 0 to |keys|
        invariant forall j | 0 <= j < i :: !Mismatch(State(), keys[j], expected[j])
      {
        var stored := Read(numberHash, keys[i], now);
        if stored.Some? && stored.value != expected[i] {
          assert Mismatch(State(), keys[i], expected[i]);
          return stored;
        }
      }
      return None;
    }

    /** The script that adds entries and keeps the head. */
    method AddEntries(chain: ChainName, typ: EntryType, secondsPerBlock: nat, entries: seq<Entry>)
      modifies this
      ensures State() == AddAll(old(State()), chain, typ, secondsPerBlock, entries)
    {
      var head := if chain in heads then heads[chain] else 0;
      for i := 0 to |entries|
        invariant head == StoredHead(State(), chain)
        invariant AddAll(State(), chain, typ, secondsPerBlock, entries[i..])
               == AddAll(old(State()), chain, typ, secondsPerBlock, entries)
      {
        AddStep(State(), chain, typ, secondsPerBlock, entries, i);
        head := AddEntry(chain, typ, secondsPerBlock, entries[i], head);
      }
    }

    /** One round of the script, given the head found so far. */
    method AddEntry(chain: ChainName, typ: EntryType, secondsPerBlock: nat, e: Entry, was: nat) returns (head: nat)
      requires was == StoredHead(State(), chain)
      modifies this
      ensures State() == AddOne(old(State()), chain, typ, secondsPerBlock, e)
      ensures head == StoredHead(State(), chain)
    {
      head := was;
      var number := e.blockNumber;
      if number > head {
        head := number;
        heads := heads[chain := number];
      }
      var exp := Lifetime(head, number, secondsPerBlock);
      hashValue := hashValue[HashKey(typ, e.blockHash, chain) := Cell(e.value, now + exp)];
      hashNumber := hashNumber[HashKey(typ, e.blockHash, chain) := Cell(number, now + exp)];
      numberValue := numberValue[NumberKey(typ, number, chain) := Cell(e.value, now + exp)];
      numberHash := numberHash[NumberKey(typ, number, chain) := Cell(e.blockHash, now + exp)];
    }

    /** Lists the chain's by-number keys and deletes them. */
    method Reorg(chain: ChainName)
      modifies this`numberValue, this`numberHash
      ensures State() == DropNumbers(old(State()), chain)
    {
      numberValue := map k | k in numberValue && k.chain != chain :: numberValue[k];
      numberHash := map k | k in numberHash && k.chain != chain :: numberHash[k];
    }

    /** The keys to check for a reorganisation, and the hashes expected there. */
    method ReorgKeys(chain: ChainName, typ: EntryType, entries: seq<Entry>)
      returns (keys: seq<NumberKey>, expected: seq<Hash>)
      ensures |keys| == |expected| && (keys != [] <==> ChecksReorg(entries))
      ensures AnyMismatch(State(), keys, expected) <==> ReorgSeen(State(), chain, typ, entries)
    {
      keys, expected := [], [];
      for i := 0 to |entries|
        invariant |keys| == |expected|
        invariant keys != [] <==> ChecksReorg(entries[..i])
        invariant AnyMismatch(State(), keys, expected) <==> ReorgSeen(State(), chain, typ, entries[..i])
      {
        ReorgStep(State(), chain, typ, entries, i, keys, expected);
        if entries[i].parentHash.Some? {
          keys := keys + [NumberKey(typ, Predecessor(entries[i].blockNumber), chain)];
          expected := expected + [entries[i].parentHash.value];
        }
      }
      assert entries[..|entries|] == entries;
    }

    method Put(chain: ChainName, typ: EntryType, secondsPerBlock: nat, entries: seq<Entry>, fault: Fault)
      returns (ok: bool)
      modifies this
      ensures (State(), ok) == PutOutcome(old(State()), chain, typ, secondsPerBlock, entries, fault)
    {
      var keys, expected := ReorgKeys(chain, typ, entries);
      SeenNeedsCheck(State(), chain, typ, entries);
      hide AnyMismatch, ReorgSeen, ChecksReorg, DropNumbers, AddAll;
      if |keys| != 0 {
        if fault == AtCheck {
          return false;
        }
        var reorg := CheckReorg(keys, expected);
        if reorg.Some? {
          if fault == AtDelete {
            return false;
          }
          Reorg(chain);
        }
      }
      if fault == AtAdd {
        return false;
      }
      AddEntries(chain, typ, secondsPerBlock, entries);
      return fault != AtReply;
    }
  }

  lemma SeenNeedsCheck(s: RedisState, chain: ChainName, typ: EntryType, entries: seq<Entry>)
    ensures ReorgSeen(s, chain, typ, entries) ==> ChecksReorg(entries)
  {
  }

  lemma ReorgStep(s: RedisState, chain: ChainName, typ: EntryType, entries: seq<Entry>, i: nat,
                  keys: seq<NumberKey>, expected: seq<Hash>)
    requires i < |entries| && |keys| == |expected|
    ensures ReorgSeen(s, chain, typ, entries[..i + 1])
       <==> ReorgSeen(s, chain, typ, entries[..i]) || Contradicts(s, chain, typ, entries[i])
    ensures ChecksReorg(entries[..i + 1]) <==> ChecksReorg(entries[..i]) || entries[i].parentHash.Some?
    ensures entries[i].parentHash.Some? ==>
      var key, hash := NumberKey(typ, Predecessor(entries[i].blockNumber), chain), entries[i].parentHash.value;
      AnyMismatch(s, keys + [key], expected + [hash])
        == (AnyMismatch(s, keys, expected) || Contradicts(s, chain, typ, entries[i]))
  {
    var before, after := entries[..i], entries[..i + 1];
    assert forall j | 0 <= j < i :: after[j] == before[j];
    assert after[i] == entries[i];
    if entries[i].parentHash.Some? {
      var key, hash := NumberKey(typ, Predecessor(entries[i].blockNumber), chain), entries[i].parentHash.value;
      var ks, hs := keys + [key], expected + [hash];
      assert ks[|keys|] == key && hs[|keys|] == hash;
      assert forall j | 0 <= j < |keys| :: ks[j] == keys[j] && hs[j] == expected[j];
    }
  }
}
