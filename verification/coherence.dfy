/** The stack of stores never answers anything but what the chain itself would answer now. */
module Coherence {
  import opened Basics
  import opened Types
  import opened SimpleLru
  import opened LruStores
  import opened Chainblock
  import opened Direct
  import opened Rediblock
  import opened CompoundStores

  type World = map<ChainName, seq<Block>>

  ghost predicate WellFormedWorld(w: World) {
    forall chain | chain in w :: WellFormed(w[chain])
  }

  /** The chain has an entry of this type at this number. */
  predicate Known(w: World, chain: ChainName, typ: EntryType, n: nat) {
    chain in w && Has(w[chain], typ, n)
  }

  /** `e` is the entry of its block, except that it may not know its parent. */
  predicate Right(w: World, chain: ChainName, typ: EntryType, e: Entry) {
    && Known(w, chain, typ, e.blockNumber)
    && e.blockHash == w[chain][e.blockNumber].hash
    && e.value == TrueValue(w[chain], typ, e.blockNumber)
    && (e.parentHash.Some? ==> e.parentHash.value == w[chain][e.blockNumber].parentHash)
  }

  ghost predicate AllRight(w: World, chain: ChainName, typ: EntryType, entries: seq<Entry>) {
    forall i | 0 <= i < |entries| :: Right(w, chain, typ, entries[i])
  }

  // Coherence of each kind of store.

  ghost predicate HashIndexRight(w: World, l: HashLru) {
    forall k | k in l.values :: l.values[k].blockHash == k.hash && Right(w, k.chain, k.typ, l.values[k])
  }

  ghost predicate NumberIndexRight(w: World, l: NumberLru) {
    forall k | k in l.values :: l.values[k].blockNumber == k.number && Right(w, k.chain, k.typ, l.values[k])
  }

  ghost predicate CoherentLru(w: World, s: LruState) {
    ValidState(s) && HashIndexRight(w, s.byHash) && NumberIndexRight(w, s.byNumber)
  }

  /** The block with this hash exists and has an entry. */
  predicate KnownHash(w: World, k: HashKey) {
    && k.chain in w
    && NumberOf(w[k.chain], k.hash).Some?
    && Has(w[k.chain], k.typ, NumberOf(w[k.chain], k.hash).value)
  }

  ghost predicate NumberCellsRight(w: World, s: RedisState) {
    && (forall k | k in s.numberValue ::
          Known(w, k.chain, k.typ, k.number) && s.numberValue[k].value == TrueValue(w[k.chain], k.typ, k.number))
    && (forall k | k in s.numberHash ::
          Known(w, k.chain, k.typ, k.number) && s.numberHash[k].value == w[k.chain][k.number].hash)
  }

  ghost predicate HashCellsRight(w: World, s: RedisState) {
    && (forall k | k in s.hashValue :: KnownHash(w, k)
          && s.hashValue[k].value == TrueValue(w[k.chain], k.typ, NumberOf(w[k.chain], k.hash).value))
    && (forall k | k in s.hashNumber :: KnownHash(w, k)
          && s.hashNumber[k].value == NumberOf(w[k.chain], k.hash).value)
  }

  ghost predicate CoherentRedis(w: World, s: RedisState) {
    NumberCellsRight(w, s) && HashCellsRight(w, s)
  }

  ghost predicate CoherentLayer(w: World, l: LayerState) {
    match l
    case LruLayer(lru) => CoherentLru(w, lru)
    case RedisLayer(redis) => CoherentRedis(w, redis)
    case ChainLayer => true
  }

  ghost predicate Coherent(w: World, layers: seq<LayerState>) {
    forall i | 0 <= i < |layers| :: CoherentLayer(w, layers[i])
  }

  // Storing right entries keeps a store coherent.

  lemma NumberOfRight(w: World, chain: ChainName, typ: EntryType, e: Entry)
    requires WellFormedWorld(w) && Right(w, chain, typ, e)
    ensures NumberOf(w[chain], e.blockHash) == Some(e.blockNumber)
  {
  }

  /** On an append-only chain no store operation ever clears the number index. */
  lemma RightNeverPurges(w: World, s: LruState, chain: ChainName, typ: EntryType, e: Entry)
    requires WellFormedWorld(w) && CoherentLru(w, s) && Right(w, chain, typ, e)
    ensures !PurgeFires(s, chain, typ, e)
  {
    var key := NumberKey(typ, Predecessor(e.blockNumber), chain);
    if e.parentHash.Some? && key in s.byNumber.values {
      assert Right(w, chain, typ, s.byNumber.values[key]);
      assert WellFormedBlock(w[chain], e.blockNumber);
    }
  }

  lemma StoreOneCoherent(w: World, s: LruState, chain: ChainName, typ: EntryType, e: Entry)
    requires WellFormedWorld(w) && CoherentLru(w, s) && Right(w, chain, typ, e)
    ensures CoherentLru(w, StoreOne(s, chain, typ, e))
  {
    StoreOneSpec(s, chain, typ, e);
    var r := StoreOne(s, chain, typ, e);
    hide StoreOne, Right, PurgeFires, SimpleLru.Valid;
    forall k | k in r.byHash.values
      ensures r.byHash.values[k].blockHash == k.hash && Right(w, k.chain, k.typ, r.byHash.values[k])
    {
      assert k != HashKey(typ, e.blockHash, chain) ==> k in s.byHash.values;
    }
    forall k | k in r.byNumber.values
      ensures r.byNumber.values[k].blockNumber == k.number && Right(w, k.chain, k.typ, r.byNumber.values[k])
    {
      assert k != NumberKey(typ, e.blockNumber, chain) ==> k in s.byNumber.values;
    }
  }

  lemma {:induction false} StoreAllCoherent(w: World, s: LruState, chain: ChainName, typ: EntryType,
                                            entries: seq<Entry>)
    requires WellFormedWorld(w) && CoherentLru(w, s) && AllRight(w, chain, typ, entries)
    ensures CoherentLru(w, StoreAll(s, chain, typ, entries))
    decreases |entries|
  {
    if entries != [] {
      assert Right(w, chain, typ, entries[0]);
      StoreOneCoherent(w, s, chain, typ, entries[0]);
      assert AllRight(w, chain, typ, entries[1..]);
      StoreAllCoherent(w, StoreOne(s, chain, typ, entries[0]), chain, typ, entries[1..]);
    }
  }

  lemma {:induction false} AddAllCoherent(w: World, s: RedisState, chain: ChainName, typ: EntryType,
                                          secondsPerBlock: nat, entries: seq<Entry>)
    requires WellFormedWorld(w) && CoherentRedis(w, s) && AllRight(w, chain, typ, entries)
    ensures CoherentRedis(w, AddAll(s, chain, typ, secondsPerBlock, entries))
    decreases |entries|
  {
    if entries != [] {
      assert Right(w, chain, typ, entries[0]);
      NumberOfRight(w, chain, typ, entries[0]);
      assert AllRight(w, chain, typ, entries[1..]);
      AddAllCoherent(w, AddOne(s, chain, typ, secondsPerBlock, entries[0]), chain, typ, secondsPerBlock, entries[1..]);
    }
  }

  lemma DropCoherent(w: World, s: RedisState, chain: ChainName)
    requires CoherentRedis(w, s)
    ensures CoherentRedis(w, DropNumbers(s, chain))
  {
  }

  lemma PutRedisCoherent(w: World, s: RedisState, env: Env, chain: ChainName, typ: EntryType, entries: seq<Entry>)
    requires WellFormedWorld(w) && CoherentRedis(w, s) && AllRight(w, chain, typ, entries)
    ensures CoherentRedis(w, PutOutcome(s, chain, typ, env.secondsPerBlock, entries, env.redisFault).0)
  {
    DropCoherent(w, s, chain);
    AddAllCoherent(w, s, chain, typ, env.secondsPerBlock, entries);
    AddAllCoherent(w, DropNumbers(s, chain), chain, typ, env.secondsPerBlock, entries);
    hide CoherentRedis, DropNumbers, AddAll, ReorgSeen, ChecksReorg;
  }

  /** Writing right entries keeps any store coherent, also when the connection fails midway. */
  lemma {:induction false} PutCoherent(w: World, l: LayerState, env: Env, chain: ChainName, typ: EntryType,
                                       entries: seq<Entry>)
    requires WellFormedWorld(w) && CoherentLayer(w, l) && AllRight(w, chain, typ, entries)
    ensures CoherentLayer(w, LayerPut(l, env, chain, typ, entries).0)
  {
    hide CoherentRedis, CoherentLru, PutOutcome, StoreAll;
    match l
    case LruLayer(lru) => StoreAllCoherent(w, lru, chain, typ, entries);
    case RedisLayer(redis) => PutRedisCoherent(w, redis, env, chain, typ, entries);
    case ChainLayer =>
  }

  // A coherent store only gives right answers.

  /** Equal up to the parent hash, which the Redis store does not keep. */
  ghost predicate Agree(entries: seq<Entry>, answer: seq<Entry>) {
    && |entries| == |answer|
    && forall i | 0 <= i < |entries| :: entries[i].(parentHash := None) == answer[i].(parentHash := None)
  }

  lemma {:induction false} EntriesOfAll(blocks: seq<Block>, typ: EntryType, start: nat, count: nat)
    requires forall n | start <= n < start + count :: Has(blocks, typ, n)
    ensures var r := EntriesOf(blocks, typ, start, count);
      |r| == count
      && forall j | 0 <= j < count :: start + j < |blocks| && r[j] == TrueEntry(blocks, typ, start + j)
  {
    if count > 0 {
      EntriesOfAll(blocks, typ, start, count - 1);
      assert Has(blocks, typ, start + count - 1);
    }
  }

  /** `entries` are right entries of the blocks start, start + 1, ... */
  ghost predicate RightFrom(w: World, chain: ChainName, typ: EntryType, start: nat, entries: seq<Entry>) {
    forall j | 0 <= j < |entries| :: Right(w, chain, typ, entries[j]) && entries[j].blockNumber == start + j
  }

  lemma RightRangeHas(w: World, chain: ChainName, typ: EntryType, start: nat, end: nat, entries: seq<Entry>)
    requires start <= end
    requires |entries| == end + 1 - start && RightFrom(w, chain, typ, start, entries)
    ensures chain in w && AllHave(w[chain], typ, start, end)
  {
    assert Right(w, chain, typ, entries[0]);
    forall n | start <= n <= end ensures Has(w[chain], typ, n) {
      var j := n - start;
      assert Right(w, chain, typ, entries[j]) && entries[j].blockNumber == start + j;
    }
  }

  lemma RightIsTrue(w: World, chain: ChainName, typ: EntryType, e: Entry)
    requires Right(w, chain, typ, e)
    ensures e.(parentHash := None) == TrueEntry(w[chain], typ, e.blockNumber).(parentHash := None)
  {
  }

  lemma RightFromAgrees(w: World, chain: ChainName, typ: EntryType, start: nat, entries: seq<Entry>, answer: seq<Entry>)
    requires chain in w && |answer| == |entries| && RightFrom(w, chain, typ, start, entries)
    requires forall j | 0 <= j < |answer| ::
      start + j < |w[chain]| && answer[j] == TrueEntry(w[chain], typ, start + j)
    ensures Agree(entries, answer)
  {
    forall j | 0 <= j < |entries| ensures entries[j].(parentHash := None) == answer[j].(parentHash := None) {
      RightIsTrue(w, chain, typ, entries[j]);
    }
    hide TrueEntry, Right;
  }

  lemma RightRangeAgrees(w: World, chain: ChainName, typ: EntryType, start: nat, end: nat, entries: seq<Entry>)
    requires start <= end && InBounds(QueryRange(start, end))
    requires |entries| == end + 1 - start && RightFrom(w, chain, typ, start, entries)
    ensures chain in w && Agree(entries, Answer(w[chain], typ, QueryRange(start, end)))
  {
    RightRangeHas(w, chain, typ, start, end, entries);
    EntriesOfAll(w[chain], typ, start, end + 1 - start);
    RightFromAgrees(w, chain, typ, start, entries, EntriesOf(w[chain], typ, start, end + 1 - start));
    hide EntriesOf, RightFrom, TrueEntry, Agree, Has;
  }

  lemma RightHashAgrees(w: World, chain: ChainName, typ: EntryType, hash: Hash, e: Entry)
    requires WellFormedWorld(w) && Right(w, chain, typ, e) && e.blockHash == hash
    ensures Agree([e], Answer(w[chain], typ, QueryHash(hash)))
  {
    NumberOfRight(w, chain, typ, e);
  }

  lemma LruRangeRight(w: World, l: NumberLru, chain: ChainName, typ: EntryType, start: nat, end: nat)
    requires NumberIndexRight(w, l) && start <= end
    ensures var r := Collect(l, chain, typ, start, end).1;
      r.Some? ==> |r.value| == end + 1 - start && RightFrom(w, chain, typ, start, r.value)
  {
    CollectSpec(l, chain, typ, start, end);
    var r := Collect(l, chain, typ, start, end).1;
    hide Right, Collect;
    if r.Some? {
      forall j | 0 <= j < |r.value|
        ensures Right(w, chain, typ, r.value[j]) && r.value[j].blockNumber == start + j
      {
        assert Lookup(l, NumberKey(typ, start + j, chain)) == Some(r.value[j]);
      }
    }
  }

  lemma LruKeepsCoherent(w: World, s: LruState, chain: ChainName, typ: EntryType, q: Query)
    requires CoherentLru(w, s)
    ensures CoherentLru(w, Fetch(s, chain, typ, q).0)
  {
    FetchValid(s, chain, typ, q);
    hide Fetch, Valid, Right;
  }

  lemma LruAnswers(w: World, s: LruState, chain: ChainName, typ: EntryType, q: Query)
    requires WellFormedWorld(w) && CoherentLru(w, s) && InBounds(q) && chain in w
    ensures var (s', r) := Fetch(s, chain, typ, q);
      CoherentLru(w, s') && (r.Ok? ==> AllRight(w, chain, typ, r.value) && Agree(r.value, Answer(w[chain], typ, q)))
  {
    LruKeepsCoherent(w, s, chain, typ, q);
    match q
    case QueryHash(hash) =>
      if HashKey(typ, hash, chain) in s.byHash.values {
        RightHashAgrees(w, chain, typ, hash, s.byHash.values[HashKey(typ, hash, chain)]);
      }
    case QueryRange(start, end) =>
      LruRangeRight(w, s.byNumber, chain, typ, start, end);
      var r := Collect(s.byNumber, chain, typ, start, end).1;
      if r.Some? {
        RightRangeAgrees(w, chain, typ, start, end, r.value);
      }
    hide Answer, Agree, Right, Collect, Touch, Valid, WellFormed;
  }

  lemma {:induction false} ReadRangeRight(w: World, s: RedisState, chain: ChainName, typ: EntryType,
                                          start: nat, i: nat, end: nat, entries: seq<Entry>)
    requires CoherentRedis(w, s)
    requires start <= i <= end + 1 && |entries| == i - start && RightFrom(w, chain, typ, start, entries)
    ensures var r := ReadRange(s, chain, typ, i, end, entries);
      r.Ok? ==> |r.value| == end + 1 - start && RightFrom(w, chain, typ, start, r.value)
    decreases end + 1 - i
  {
    if i <= end {
      var key := NumberKey(typ, i, chain);
      var value, hash := Read(s.numberValue, key, s.now), Read(s.numberHash, key, s.now);
      if value.Some? && hash.Some? {
        ReadRangeRight(w, s, chain, typ, start, i + 1, end, entries + [Entry(hash.value, i, None, value.value)]);
      }
    }
  }

  lemma RedisAnswers(w: World, s: RedisState, chain: ChainName, typ: EntryType, q: Query, down: bool)
    requires WellFormedWorld(w) && CoherentRedis(w, s) && InBounds(q) && chain in w
    ensures var r := FetchFromRedis(s, chain, typ, q, down);
      r.Ok? ==> AllRight(w, chain, typ, r.value) && Agree(r.value, Answer(w[chain], typ, q))
  {
    var r := FetchFromRedis(s, chain, typ, q, down);
    if r.Ok? {
      match q
      case QueryHash(hash) =>
        assert KnownHash(w, HashKey(typ, hash, chain));
        RightHashAgrees(w, chain, typ, hash, r.value[0]);
      case QueryRange(start, end) =>
        ReadRangeRight(w, s, chain, typ, start, start, end, []);
        RightRangeAgrees(w, chain, typ, start, end, r.value);
    }
  }

  /** The environment's remote may lag: it serves a prefix of this chain, and its replies to this query
      are complete for that prefix. */
  ghost predicate Honest(w: World, env: Env, chain: ChainName, typ: EntryType, q: Query) {
    chain in w && env.remote.blocks <= w[chain] && Faithful(env.remote, typ, q)
  }

  /** The remote serves the whole chain. */
  predicate UpToDate(w: World, env: Env, chain: ChainName) {
    chain in w && env.remote.blocks == w[chain]
  }

  /** `entries` are a direct reading of the chain, or of the prefix that the remote serves. */
  ghost predicate ReadOff(w: World, env: Env, chain: ChainName, typ: EntryType, q: Query, entries: seq<Entry>)
    requires InBounds(q) && chain in w
  {
    Agree(entries, Answer(w[chain], typ, q)) || Agree(entries, Answer(env.remote.blocks, typ, q))
  }

  lemma PrefixWellFormed(w: World, env: Env, chain: ChainName)
    requires WellFormedWorld(w) && chain in w && env.remote.blocks <= w[chain]
    ensures WellFormed(env.remote.blocks)
  {
    forall n | 0 <= n < |env.remote.blocks| ensures WellFormedBlock(env.remote.blocks, n) {
      assert WellFormedBlock(w[chain], n);
    }
  }

  lemma {:induction false} PrefixRight(w: World, chain: ChainName, blocks: seq<Block>, typ: EntryType,
                                       start: nat, count: nat)
    requires chain in w && blocks <= w[chain]
    ensures AllRight(w, chain, typ, EntriesOf(blocks, typ, start, count))
  {
    if count > 0 {
      PrefixRight(w, chain, blocks, typ, start, count - 1);
    }
  }

  /** What a lagging remote's prefix answers is right for the whole chain. */
  lemma PrefixAnswerRight(w: World, env: Env, chain: ChainName, typ: EntryType, q: Query)
    requires chain in w && env.remote.blocks <= w[chain] && InBounds(q)
    ensures AllRight(w, chain, typ, Answer(env.remote.blocks, typ, q))
  {
    if q.QueryRange? {
      PrefixRight(w, chain, env.remote.blocks, typ, q.start, q.end + 1 - q.start);
    }
  }

  lemma {:induction false} LayerAnswers(w: World, l: LayerState, env: Env, chain: ChainName, typ: EntryType, q: Query)
    requires WellFormedWorld(w) && CoherentLayer(w, l) && InBounds(q) && Honest(w, env, chain, typ, q)
    requires l.ChainLayer? ==> !Poisonous(env.remote, typ, q)
    ensures var (l', r) := LayerGet(l, env, chain, typ, q);
      && CoherentLayer(w, l')
      && (r.Ok? ==> AllRight(w, chain, typ, r.value) && ReadOff(w, env, chain, typ, q, r.value))
  {
    hide FetchFromChain, FetchFromRedis, Fetch, Answer, Poisonous, Faithful;
    match l
    case LruLayer(lru) => LruAnswers(w, lru, chain, typ, q);
    case RedisLayer(redis) => RedisAnswers(w, redis, chain, typ, q, env.redisDown);
    case ChainLayer =>
      PrefixWellFormed(w, env, chain);
      ChainAnswers(env.remote, typ, q);
      PrefixAnswerRight(w, env, chain, typ, q);
  }

  predicate HasChainLayer(layers: seq<LayerState>) {
    exists i | 0 <= i < |layers| :: layers[i].ChainLayer?
  }

  /** One query: the answer is a direct one and every store stays coherent. */
  lemma {:induction false} CompoundAnswers(w: World, layers: seq<LayerState>, env: Env, chain: ChainName,
                                           typ: EntryType, q: Query)
    requires WellFormedWorld(w) && Coherent(w, layers) && InBounds(q) && Honest(w, env, chain, typ, q)
    requires HasChainLayer(layers) ==> !Poisonous(env.remote, typ, q)
    ensures var (layers', r) := CompoundGet(layers, env, chain, typ, q);
      Coherent(w, layers') && (r.Ok? ==> ReadOff(w, env, chain, typ, q, r.value))
  {
    hide LayerGet, LayerPut, HitFrom, CoherentLayer, ReadOff, Poisonous;
    var hit := HitFrom(layers, env, chain, typ, q, 0);
    forall j | 0 <= j < |layers| ensures CoherentLayer(w, LayerGet(layers[j], env, chain, typ, q).0) {
      LayerAnswers(w, layers[j], env, chain, typ, q);
    }
    if hit < |layers| {
      LayerAnswers(w, layers[hit], env, chain, typ, q);
      var entries := LayerGet(layers[hit], env, chain, typ, q).1.value;
      forall j | 0 <= j < |layers| ensures CoherentLayer(w, After(layers[j], j, hit, entries, env, chain, typ, q)) {
        PutCoherent(w, LayerGet(layers[j], env, chain, typ, q).0, env, chain, typ, entries);
      }
    }
  }
}
