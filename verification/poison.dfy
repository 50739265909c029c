/** What a poisonous query does: it is answered by the bottom store alone, with an entry of no block,
    which the caches then keep. */
module Poison {
  import opened Basics
  import opened Types
  import opened SimpleLru
  import opened LruStores
  import opened Chainblock
  import opened Direct
  import opened Rediblock
  import opened CompoundStores
  import opened Coherence

  lemma RightIsNumbered(w: World, chain: ChainName, typ: EntryType, e: Entry)
    requires WellFormedWorld(w) && Right(w, chain, typ, e)
    ensures e.blockHash != ZERO_HASH && e.blockNumber < TWO_63
  {
    assert WellFormedBlock(w[chain], e.blockNumber);
  }

  /** The entry of a poisonous answer is of no block. */
  lemma InventedIsWrong(w: World, env: Env, chain: ChainName, typ: EntryType, q: Query)
    requires WellFormedWorld(w) && InBounds(q) && Honest(w, env, chain, typ, q)
    requires Poisonous(env.remote, typ, q)
    ensures var r := FetchFromChain(env.remote, typ, q);
      r.Ok? && |r.value| == 1 && !Right(w, chain, typ, r.value[0])
  {
    PrefixWellFormed(w, env, chain);
    ChainInventsEntry(env.remote, typ, q);
    var e := FetchFromChain(env.remote, typ, q).value[0];
    if Right(w, chain, typ, e) {
      RightIsNumbered(w, chain, typ, e);
    }
    hide Right, FetchFromChain, Poisonous, Faithful;
  }

  lemma LruLacksPoison(w: World, s: LruState, env: Env, chain: ChainName, typ: EntryType, q: Query)
    requires WellFormedWorld(w) && CoherentLru(w, s) && InBounds(q) && Poisonous(env.remote, typ, q)
    ensures Fetch(s, chain, typ, q).1.Err?
  {
    match q
    case QueryHash(hash) =>
      var key := HashKey(typ, hash, chain);
      if key in s.byHash.values {
        RightIsNumbered(w, chain, typ, s.byHash.values[key]);
      }
    case QueryRange(start, end) =>
      var key := NumberKey(typ, start, chain);
      if key in s.byNumber.values {
        RightIsNumbered(w, chain, typ, s.byNumber.values[key]);
      }
  }

  lemma RedisLacksPoison(w: World, s: RedisState, env: Env, chain: ChainName, typ: EntryType, q: Query)
    requires WellFormedWorld(w) && CoherentRedis(w, s) && InBounds(q) && Poisonous(env.remote, typ, q)
    ensures FetchFromRedis(s, chain, typ, q, env.redisDown).Err?
  {
    match q
    case QueryHash(hash) =>
      var key := HashKey(typ, hash, chain);
      if key in s.hashValue {
        assert KnownHash(w, key);
        NoZeroBlock(w[chain]);
      }
    case QueryRange(start, end) =>
      var key := NumberKey(typ, start, chain);
      assert key in s.numberValue ==> Known(w, chain, typ, start);
  }

  lemma CachesLackPoison(w: World, l: LayerState, env: Env, chain: ChainName, typ: EntryType, q: Query)
    requires WellFormedWorld(w) && CoherentLayer(w, l) && InBounds(q) && Poisonous(env.remote, typ, q)
    requires !l.ChainLayer?
    ensures LayerGet(l, env, chain, typ, q).1.Err?
  {
    match l
    case LruLayer(lru) => LruLacksPoison(w, lru, env, chain, typ, q);
    case RedisLayer(redis) => RedisLacksPoison(w, redis, env, chain, typ, q);
  }

  /** Coherent stores answer a poisonous query exactly when there is a bottom store, and it answers. */
  lemma PoisonAnsweredIff(w: World, layers: seq<LayerState>, env: Env, chain: ChainName, typ: EntryType, q: Query)
    requires WellFormedWorld(w) && Coherent(w, layers) && InBounds(q) && Honest(w, env, chain, typ, q)
    requires Poisonous(env.remote, typ, q)
    ensures var hit := HitFrom(layers, env, chain, typ, q, 0);
      && (hit < |layers| <==> HasChainLayer(layers))
      && (hit < |layers| ==> layers[hit].ChainLayer?)
  {
    InventedIsWrong(w, env, chain, typ, q);
    var hit := HitFrom(layers, env, chain, typ, q, 0);
    if hit < |layers| && !layers[hit].ChainLayer? {
      CachesLackPoison(w, layers[hit], env, chain, typ, q);
    }
    hide FetchFromChain, Poisonous, CoherentLayer, Faithful;
  }

  lemma StoredWrong(w: World, s: LruState, chain: ChainName, typ: EntryType, e: Entry)
    requires WellFormedWorld(w) && ValidState(s) && !Right(w, chain, typ, e)
    ensures !CoherentLru(w, StoreAll(s, chain, typ, [e]))
  {
    StoreOneSpec(s, chain, typ, e);
    assert [e][1..] == [];
    var r := StoreOne(s, chain, typ, e);
    assert StoreAll(r, chain, typ, []) == r;
    assert StoreAll(s, chain, typ, [e]) == r;
    assert r.byHash.values[HashKey(typ, e.blockHash, chain)] == e;
  }

  /** The in-process cache after a poisonous query. */
  lemma PoisonStored(w: World, layers: seq<LayerState>, env: Env, chain: ChainName, typ: EntryType, q: Query)
    requires WellFormedWorld(w) && Coherent(w, layers) && InBounds(q) && Honest(w, env, chain, typ, q)
    requires Poisonous(env.remote, typ, q) && HasChainLayer(layers)
    requires layers != [] && layers[0].LruLayer?
    ensures FetchFromChain(env.remote, typ, q).Ok?
    ensures
      var after := CompoundGet(layers, env, chain, typ, q).0;
      var lru := Fetch(layers[0].lru, chain, typ, q).0;
      && ValidState(lru) && |after| == |layers|
      && after[0] == LruLayer(StoreAll(lru, chain, typ, FetchFromChain(env.remote, typ, q).value))
  {
    PoisonAnsweredIff(w, layers, env, chain, typ, q);
    InventedIsWrong(w, env, chain, typ, q);
    assert CoherentLayer(w, layers[0]);
    FetchValid(layers[0].lru, chain, typ, q);
    hide FetchFromChain, Poisonous, Faithful, Fetch, StoreAll, HitFrom, WritesBack;
  }

  /** An answered poisonous query leaves the in-process cache incoherent. */
  lemma PoisonSpoils(w: World, layers: seq<LayerState>, env: Env, chain: ChainName, typ: EntryType, q: Query)
    requires WellFormedWorld(w) && Coherent(w, layers) && InBounds(q) && Honest(w, env, chain, typ, q)
    requires Poisonous(env.remote, typ, q) && HasChainLayer(layers)
    requires layers != [] && layers[0].LruLayer?
    ensures !Coherent(w, CompoundGet(layers, env, chain, typ, q).0)
  {
    PoisonStored(w, layers, env, chain, typ, q);
    InventedIsWrong(w, env, chain, typ, q);
    var e := FetchFromChain(env.remote, typ, q).value[0];
    assert FetchFromChain(env.remote, typ, q).value == [e];
    StoredWrong(w, Fetch(layers[0].lru, chain, typ, q).0, chain, typ, e);
    assert !CoherentLayer(w, CompoundGet(layers, env, chain, typ, q).0[0]);
    hide FetchFromChain, Poisonous, Faithful, Fetch, StoreAll, HitFrom, CompoundGet, CoherentLru;
  }

  /** An entry put into the in-process cache is what its number is answered with, by that cache alone. */
  lemma ReadsBack(lru: LruState, chain: ChainName, typ: EntryType, e: Entry)
    requires ValidState(lru)
    ensures Fetch(StoreAll(lru, chain, typ, [e]), chain, typ, QueryRange(e.blockNumber, e.blockNumber)).1 == Ok([e])
  {
    StoreOneSpec(lru, chain, typ, e);
    var r, n := StoreOne(lru, chain, typ, e), e.blockNumber;
    assert [e][1..] == [];
    assert StoreAll(lru, chain, typ, [e]) == StoreAll(r, chain, typ, []) == r;
    CollectSpec(r.byNumber, chain, typ, n, n);
    assert AllCached(r.byNumber, chain, typ, n, n);
    var got := Collect(r.byNumber, chain, typ, n, n).1.value;
    assert Lookup(r.byNumber, NumberKey(typ, n + 0, chain)) == Some(got[0]);
    assert got == [e];
  }

  /** A stack whose first store answers gives that answer, whatever the remote would say. */
  lemma FirstAnswers(layers: seq<LayerState>, env: Env, chain: ChainName, typ: EntryType, q: Query, entries: seq<Entry>)
    requires InBounds(q) && layers != [] && LayerGet(layers[0], env, chain, typ, q).1 == Ok(entries)
    ensures CompoundGet(layers, env, chain, typ, q).1 == Ok(entries)
  {
  }

  /** After a poisonous query the number of its entry is answered with that entry, whatever the remote
      says by then. */
  lemma PoisonStays(w: World, layers: seq<LayerState>, env: Env, chain: ChainName, typ: EntryType, q: Query,
                    later: Env)
    requires WellFormedWorld(w) && Coherent(w, layers) && InBounds(q) && Honest(w, env, chain, typ, q)
    requires Poisonous(env.remote, typ, q) && HasChainLayer(layers)
    requires layers != [] && layers[0].LruLayer?
    requires FetchFromChain(env.remote, typ, q).Ok? && |FetchFromChain(env.remote, typ, q).value| == 1
    requires var e := FetchFromChain(env.remote, typ, q).value[0];
      InBounds(QueryRange(e.blockNumber, e.blockNumber))
    ensures
      var e := FetchFromChain(env.remote, typ, q).value[0];
      var after := CompoundGet(layers, env, chain, typ, q).0;
      CompoundGet(after, later, chain, typ, QueryRange(e.blockNumber, e.blockNumber)).1 == Ok([e])
  {
    var e := FetchFromChain(env.remote, typ, q).value[0];
    var lru := Fetch(layers[0].lru, chain, typ, q).0;
    PoisonStored(w, layers, env, chain, typ, q);
    assert FetchFromChain(env.remote, typ, q).value == [e];
    ReadsBack(lru, chain, typ, e);
    var after := CompoundGet(layers, env, chain, typ, q).0;
    hide FetchFromChain, Poisonous, Faithful, StoreAll, HitFrom, CompoundGet, CoherentLayer;
    FirstAnswers(after, later, chain, typ, QueryRange(e.blockNumber, e.blockNumber), [e]);
  }

  /** A zero-hash header query leaves the caches with the message "null" for block 0. */
  lemma ZeroHashHidesGenesis(w: World, layers: seq<LayerState>, env: Env, chain: ChainName, later: Env)
    requires WellFormedWorld(w) && Coherent(w, layers)
    requires Honest(w, env, chain, BlockHeader, QueryHash(ZERO_HASH)) && !env.remote.byHashDown
    requires HasChainLayer(layers) && layers != [] && layers[0].LruLayer?
    ensures
      var after := CompoundGet(layers, env, chain, BlockHeader, QueryHash(ZERO_HASH)).0;
      CompoundGet(after, later, chain, BlockHeader, QueryRange(0, 0)).1
        == Ok([Entry(ZERO_HASH, 0, Some(ZERO_HASH), Null)])
  {
    PrefixWellFormed(w, env, chain);
    NoZeroBlock(env.remote.blocks);
    PoisonStays(w, layers, env, chain, BlockHeader, QueryHash(ZERO_HASH), later);
    hide CompoundGet, Coherent, WellFormed;
  }

  /** A query for the logs of one tag leaves the caches with these logs for that tag, which is then
      answered with them after the tag has moved on. */
  lemma TagLogsGoStale(w: World, layers: seq<LayerState>, env: Env, chain: ChainName, tag: nat, later: Env)
    requires WellFormedWorld(w) && Coherent(w, layers) && Honest(w, env, chain, Logs, QueryRange(tag, tag))
    requires TagLogsQuery(env.remote, Logs, QueryRange(tag, tag))
    requires HasChainLayer(layers) && layers != [] && layers[0].LruLayer?
    ensures
      var after := CompoundGet(layers, env, chain, Logs, QueryRange(tag, tag)).0;
      CompoundGet(after, later, chain, Logs, QueryRange(tag, tag)).1
        == Ok([Entry(FirstLogHash(ReplyLogs(env.remote)), tag, None, LogsJson(env.remote.rangeReply.value))])
  {
    PoisonStays(w, layers, env, chain, Logs, QueryRange(tag, tag), later);
    hide CompoundGet, Coherent, WellFormedWorld, Faithful;
  }
}
