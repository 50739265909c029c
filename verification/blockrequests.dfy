/** Cacher: block and receipt requests, answered from the stores; tags go to the remote. */
module BlockRequests {
  import opened Basics
  import opened Types
  import opened CompoundStores
  import opened Chainblock
  import opened Direct
  import opened Coherence
  import opened CoherenceRuns

  /** A reply carries a stored message whole or with its transactions cut down to their hashes. */
  datatype BlockResponse = Error | NullReply | Whole(value: Message) | HashesOnly(value: Message)

  /** What is sent for a message: only a block has transactions to cut down. */
  function Shown(value: Message, details: bool): BlockResponse {
    if details then Whole(value)
    else if value.BlockJson? then HashesOnly(value)
    else Error
  }

  /** A request for one block by number or hash, or for the receipts of one block by number, which
      are always sent whole. */
  predicate ForOneBlock(typ: EntryType, q: Types.Query, details: bool) {
    && InBounds(q) && (q.QueryRange? ==> q.start == q.end)
    && (typ == BlockHeader || (typ == Receipts && q.QueryRange? && details))
  }

  function StoredOutcome(layers: seq<LayerState>, env: Env, chain: ChainName,
                         typ: EntryType, q: Types.Query, details: bool)
    : (seq<LayerState>, BlockResponse)
    requires ForOneBlock(typ, q, details)
  {
    var (layers', r) := CompoundGet(layers, env, chain, typ, q);
    (layers',
     if r.Err? then Error else if |r.value| != 1 then NullReply else Shown(r.value[0].value, details))
  }

  method GetBlock(store: CompoundStore, env: Env, chain: ChainName, q: Types.Query, details: bool)
    returns (r: BlockResponse)
    requires store.Valid() && WordSized(env.remote) && ForOneBlock(BlockHeader, q, details)
    modifies store.Repr()
    ensures store.Valid() && store.stores == old(store.stores)
    ensures (store.States(), r) == StoredOutcome(old(store.States()), env, chain, BlockHeader, q, details)
  {
    hide CompoundGet;
    var entries := store.Get(env, chain, BlockHeader, q);
    if entries.Err? {
      return Error;
    }
    if |entries.value| != 1 {
      return NullReply;
    }
    if !details {
      return if entries.value[0].value.BlockJson? then HashesOnly(entries.value[0].value) else Error;
    }
    return Whole(entries.value[0].value);
  }

  method GetReceipts(store: CompoundStore, env: Env, chain: ChainName, n: nat) returns (r: BlockResponse)
    requires store.Valid() && WordSized(env.remote) && n < TWO_63
    modifies store.Repr()
    ensures store.Valid() && store.stores == old(store.stores)
    ensures (store.States(), r) == StoredOutcome(old(store.States()), env, chain, Receipts, QueryRange(n, n), true)
  {
    hide CompoundGet;
    var entries := store.Get(env, chain, Receipts, QueryRange(n, n));
    if entries.Err? {
      return Error;
    }
    if |entries.value| != 1 {
      return NullReply;
    }
    return Whole(entries.value[0].value);
  }

  /** The number of the block a request for one block asks for. */
  function Asked(blocks: seq<Block>, q: Types.Query): Option<nat> {
    match q
    case QueryHash(hash) => NumberOf(blocks, hash)
    case QueryRange(start, _) => Some(start)
  }

  /** The reply for a block read from the chain itself. */
  function DirectReply(blocks: seq<Block>, typ: EntryType, q: Types.Query, details: bool): BlockResponse {
    match Asked(blocks, q)
    case None => NullReply
    case Some(n) => if Has(blocks, typ, n) then Shown(TrueValue(blocks, typ, n), details) else NullReply
  }

  lemma AnswerOfOne(blocks: seq<Block>, typ: EntryType, q: Types.Query)
    requires InBounds(q) && (q.QueryRange? ==> q.start == q.end)
    ensures Answer(blocks, typ, q) ==
      var n := Asked(blocks, q);
      if n.Some? && Has(blocks, typ, n.value) then [TrueEntry(blocks, typ, n.value)] else []
  {
    if q.QueryRange? {
      assert EntriesOf(blocks, typ, q.start, 0) == [];
      assert EntriesOf(blocks, typ, q.start, 1) ==
        if Has(blocks, typ, q.start) then [TrueEntry(blocks, typ, q.start)] else [];
    }
  }

  /** A request for one block or its receipts, when answered, gets what the chain has now. */
  lemma {:induction false} StoredIsDirect(s: System, env: Env, chain: ChainName,
                                          typ: EntryType, q: Types.Query, details: bool)
    requires Sound(s) && ForOneBlock(typ, q, details)
    requires Honest(s.world, env, chain, typ, q) && UpToDate(s.world, env, chain)
    requires !Poisonous(env.remote, typ, q)
    ensures StoredOutcome(s.layers, env, chain, typ, q, details).1 ==
      if CompoundGet(s.layers, env, chain, typ, q).1.Err? then Error
      else DirectReply(s.world[chain], typ, q, details)
  {
    CompoundAnswers(s.world, s.layers, env, chain, typ, q);
    AnswerOfOne(s.world[chain], typ, q);
    var r := CompoundGet(s.layers, env, chain, typ, q).1;
    if r.Ok? && |r.value| == 1 {
      var e := Answer(s.world[chain], typ, q)[0];
      assert r.value[0].(parentHash := None).value == e.(parentHash := None).value;
    }
    hide CompoundGet, Answer, TrueValue, Has, NumberOf;
  }

  /** Arrays do not decode as a block; "null" does, to zeroes. */
  predicate DecodesAsBlock(m: Message) {
    m.BlockJson? || m.Null?
  }

  /** The entry stored for the remote's reply to a request by tag. */
  function TagEntry(block: Message): Entry {
    if block.BlockJson? then Entry(block.head.hash, block.head.number, Some(block.head.parentHash), block)
    else Entry(ZERO_HASH, 0, Some(ZERO_HASH), block)
  }

  function TagOutcome(layers: seq<LayerState>, env: Env, chain: ChainName, block: Message, details: bool)
    : (seq<LayerState>, BlockResponse)
  {
    if !DecodesAsBlock(block) then (layers, Error)
    else
      var (layers', ok) := CompoundPut(layers, env, chain, BlockHeader, [TagEntry(block)]);
      (layers', if !ok then Error else if block.Null? then Whole(block) else Shown(block, details))
  }

  method ProxyTag(store: CompoundStore, env: Env, chain: ChainName, block: Message, details: bool)
    returns (r: BlockResponse)
    requires store.Valid()
    modifies store.Repr()
    ensures store.Valid() && store.stores == old(store.stores)
    ensures (store.States(), r) == TagOutcome(old(store.States()), env, chain, block, details)
  {
    hide CompoundPut;
    if !DecodesAsBlock(block) {
      return Error;
    }
    var ok := store.Put(env, chain, BlockHeader, [TagEntry(block)]);
    if !ok {
      return Error;
    }
    if !details && !block.Null? {
      return HashesOnly(block);
    }
    return Whole(block);
  }

  predicate OnChain(w: World, chain: ChainName, block: Message) {
    chain in w && exists n: nat :: n < |w[chain]| && block == TrueValue(w[chain], BlockHeader, n)
  }

  /** A request by tag keeps the caches right exactly when the remote's reply cannot be read or is
      a block of the chain; "null", and a block with a hash that is not on the chain, can be read. */
  lemma TagSoundIff(s: System, env: Env, chain: ChainName, block: Message, details: bool)
    requires Sound(s)
    ensures Sound(s.(layers := TagOutcome(s.layers, env, chain, block, details).0)) <==>
      !DecodesAsBlock(block) || OnChain(s.world, chain, block)
  {
    var e := TagEntry(block);
    StepSoundIff(s, Announce(chain, e, env));
    assert Right(s.world, chain, BlockHeader, e) <==> OnChain(s.world, chain, block);
    hide Sound, CompoundPut, TrueValue, OnChain;
  }

  /** "null" is readable and no block: a reply to a request by tag that always poisons the caches. */
  lemma NullTagPoisons(s: System, env: Env, chain: ChainName, details: bool)
    requires Sound(s)
    ensures !Sound(s.(layers := TagOutcome(s.layers, env, chain, Null, details).0))
  {
    TagSoundIff(s, env, chain, Null, details);
    hide Sound, TagOutcome;
  }

  // The replies, message by message.

  /** A header request that is answered gets the block as it is, or cut down to hashes when no details are
      wanted, or null when there is no such block. */
  lemma {:induction false} BlockReplies(s: System, env: Env, chain: ChainName, q: Types.Query, details: bool, n: nat)
    requires Sound(s) && ForOneBlock(BlockHeader, q, details)
    requires Honest(s.world, env, chain, BlockHeader, q) && UpToDate(s.world, env, chain)
    requires !Poisonous(env.remote, BlockHeader, q)
    requires CompoundGet(s.layers, env, chain, BlockHeader, q).1.Ok?
    ensures
      var blocks, r := s.world[chain], StoredOutcome(s.layers, env, chain, BlockHeader, q, details).1;
      && (n < |blocks| && (q == QueryRange(n, n) || q == QueryHash(blocks[n].hash)) ==>
            var block := BlockJson(Head(blocks[n].hash, n, blocks[n].parentHash), blocks[n].body);
            r == if details then Whole(block) else HashesOnly(block))
      && (q == QueryRange(n, n) && n >= |blocks| ==> r == NullReply)
      && (q.QueryHash? && (forall m | 0 <= m < |blocks| :: blocks[m].hash != q.hash) ==> r == NullReply)
  {
    StoredIsDirect(s, env, chain, BlockHeader, q, details);
    var blocks := s.world[chain];
    hide CompoundGet, Coherent, StoredOutcome, Faithful;
    if n < |blocks| && q == QueryHash(blocks[n].hash) {
      HashIsNumbered(blocks, n);
    }
  }

  lemma HashIsNumbered(blocks: seq<Block>, n: nat)
    requires WellFormed(blocks) && n < |blocks|
    ensures NumberOf(blocks, blocks[n].hash) == Some(n)
  {
  }

  /** A receipt request that is answered gets the block's receipts whole, or null when there are none. */
  lemma {:induction false} ReceiptReplies(s: System, env: Env, chain: ChainName, n: nat)
    requires Sound(s) && n < TWO_63
    requires Honest(s.world, env, chain, Receipts, QueryRange(n, n)) && UpToDate(s.world, env, chain)
    requires CompoundGet(s.layers, env, chain, Receipts, QueryRange(n, n)).1.Ok?
    ensures
      var blocks := s.world[chain];
      StoredOutcome(s.layers, env, chain, Receipts, QueryRange(n, n), true).1 ==
        if n < |blocks| && blocks[n].receipts != [] then Whole(ReceiptsJson(blocks[n].receipts)) else NullReply
  {
    StoredIsDirect(s, env, chain, Receipts, QueryRange(n, n), true);
    hide CompoundGet, Coherent, StoredOutcome, Faithful;
  }

  /** What the client gets for the remote's reply to a request by tag: an error for anything that is no block
      and not "null", or when a store refuses the block; otherwise the reply itself, cut down to hashes when
      it is a block and no details are wanted. */
  lemma TagReplies(layers: seq<LayerState>, env: Env, chain: ChainName, reply: Message, details: bool)
    ensures reply.LogsJson? || reply.ReceiptsJson? ==>
      TagOutcome(layers, env, chain, reply, details) == (layers, Error)
    ensures reply.Null? ==>
      var (stored, ok) := CompoundPut(layers, env, chain, BlockHeader, [Entry(0, 0, Some(0), Null)]);
      TagOutcome(layers, env, chain, reply, details) == (stored, if ok then Whole(Null) else Error)
    ensures reply.BlockJson? ==>
      var e := Entry(reply.head.hash, reply.head.number, Some(reply.head.parentHash), reply);
      var (stored, ok) := CompoundPut(layers, env, chain, BlockHeader, [e]);
      TagOutcome(layers, env, chain, reply, details)
        == (stored, if !ok then Error else if details then Whole(reply) else HashesOnly(reply))
  {
    hide CompoundPut;
  }
}
