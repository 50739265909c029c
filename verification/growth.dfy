/** What coherent stores survive without being asked anything: growth of the chain, and what befalls
    the shared Redis. */
module Growth {
  import opened Basics
  import opened Types
  import opened LruStores
  import opened Chainblock
  import opened Rediblock
  import opened CompoundStores
  import opened Coherence

  /** Another node writes to Redis, keys are lost, time passes. */
  datatype RedisEvent =
    | Peer(chain: ChainName, typ: EntryType, secondsPerBlock: nat, entries: seq<Entry>)
    | Lose(numberValues: set<NumberKey>, numberHashes: set<NumberKey>,
           hashValues: set<HashKey>, hashNumbers: set<HashKey>)
    | Tick(seconds: nat)

  function OnRedis(l: LayerState, event: RedisEvent): LayerState {
    if !l.RedisLayer? then l
    else
      match event
      case Peer(chain, typ, secondsPerBlock, entries) =>
        RedisLayer(AddAll(l.redis, chain, typ, secondsPerBlock, entries))
      case Lose(numberValues, numberHashes, hashValues, hashNumbers) =>
        RedisLayer(l.redis.(numberValue := l.redis.numberValue - numberValues,
                            numberHash := l.redis.numberHash - numberHashes,
                            hashValue := l.redis.hashValue - hashValues,
                            hashNumber := l.redis.hashNumber - hashNumbers))
      case Tick(seconds) => RedisLayer(l.redis.(now := l.redis.now + seconds))
  }

  function AllOnRedis(layers: seq<LayerState>, event: RedisEvent): seq<LayerState> {
    seq(|layers|, i requires 0 <= i < |layers| => OnRedis(layers[i], event))
  }

  /** Other nodes write right entries. */
  ghost predicate PeerRight(w: World, event: RedisEvent) {
    event.Peer? ==> AllRight(w, event.chain, event.typ, event.entries)
  }

  lemma OnRedisCoherent(w: World, layers: seq<LayerState>, event: RedisEvent)
    requires WellFormedWorld(w) && Coherent(w, layers) && PeerRight(w, event)
    ensures Coherent(w, AllOnRedis(layers, event))
  {
    forall i | 0 <= i < |layers| ensures CoherentLayer(w, OnRedis(layers[i], event)) {
      assert CoherentLayer(w, layers[i]);
      if layers[i].RedisLayer? && event.Peer? {
        AddAllCoherent(w, layers[i].redis, event.chain, event.typ, event.secondsPerBlock, event.entries);
      }
    }
  }

  function Grown(w: World, chain: ChainName, block: Block): World {
    if chain in w then w[chain := w[chain] + [block]] else w
  }

  lemma NumberOfGrows(blocks: seq<Block>, block: Block, hash: Hash)
    ensures NumberOf(blocks, hash).Some? ==> NumberOf(blocks + [block], hash) == NumberOf(blocks, hash)
  {
    assert (blocks + [block])[..|blocks + [block]| - 1] == blocks;
  }

  lemma RightGrows(w: World, chain: ChainName, block: Block, c: ChainName, typ: EntryType, e: Entry)
    requires Right(w, c, typ, e)
    ensures Right(Grown(w, chain, block), c, typ, e)
  {
  }

  lemma LruGrows(w: World, chain: ChainName, block: Block, s: LruState)
    requires CoherentLru(w, s)
    ensures CoherentLru(Grown(w, chain, block), s)
  {
    var w' := Grown(w, chain, block);
    forall k | k in s.byHash.values ensures Right(w', k.chain, k.typ, s.byHash.values[k]) {
      RightGrows(w, chain, block, k.chain, k.typ, s.byHash.values[k]);
    }
    forall k | k in s.byNumber.values ensures Right(w', k.chain, k.typ, s.byNumber.values[k]) {
      RightGrows(w, chain, block, k.chain, k.typ, s.byNumber.values[k]);
    }
  }

  lemma RedisGrows(w: World, chain: ChainName, block: Block, s: RedisState)
    requires chain in w && CoherentRedis(w, s)
    ensures CoherentRedis(Grown(w, chain, block), s)
  {
    var w' := Grown(w, chain, block);
    forall k | k in s.hashValue || k in s.hashNumber
      ensures KnownHash(w', k) && NumberOf(w'[k.chain], k.hash) == NumberOf(w[k.chain], k.hash)
    {
      assert KnownHash(w, k);
      NumberOfGrows(w[chain], block, k.hash);
    }
  }

  /** What is right stays right as the chain grows. */
  lemma StoresGrow(w: World, chain: ChainName, block: Block, layers: seq<LayerState>)
    requires chain in w && Coherent(w, layers)
    ensures Coherent(Grown(w, chain, block), layers)
  {
    forall i | 0 <= i < |layers| ensures CoherentLayer(Grown(w, chain, block), layers[i]) {
      assert CoherentLayer(w, layers[i]);
      match layers[i]
      case LruLayer(lru) => LruGrows(w, chain, block, lru);
      case RedisLayer(redis) => RedisGrows(w, chain, block, redis);
      case ChainLayer =>
    }
  }
}
