/** What the stack of stores is for: it answers whenever the remote can, and what has been answered once is
    answered by the first store from then on. */
module Caching {
  import opened Basics
  import opened Types
  import opened SimpleLru
  import opened LruStores
  import opened Direct
  import opened Rediblock
  import opened CompoundStores
  import opened Coherence
  import opened Poison

  /** With a bottom store whose calls do not fail, and no fault of Redis, every query is answered. */
  lemma HealthyStackAnswers(layers: seq<LayerState>, env: Env, chain: ChainName, typ: EntryType, q: Query)
    requires InBounds(q) && HasChainLayer(layers) && WellFormed(env.remote.blocks)
    requires env.redisFault == NoFault && Reachable(env.remote, typ, q)
    ensures CompoundGet(layers, env, chain, typ, q).1.Ok?
  {
    var i :| 0 <= i < |layers| && layers[i].ChainLayer?;
    ChainAnswersIff(env.remote, typ, q);
    HealthyAnswered(layers, env, chain, typ, q, i);
    hide CompoundGet, Reachable, WellFormed;
  }

  /** A query for one block, by number or by hash, and the block's entry. */
  predicate AsksFor(q: Query, e: Entry) {
    q == QueryRange(e.blockNumber, e.blockNumber) || q == QueryHash(e.blockHash)
  }

  lemma LruKeepsAnswer(s: LruState, chain: ChainName, typ: EntryType, q: Query, e: Entry)
    requires ValidState(s) && AsksFor(q, e) && Fetch(s, chain, typ, q).1 == Ok([e])
    ensures Fetch(Fetch(s, chain, typ, q).0, chain, typ, q).1 == Ok([e])
  {
    FetchValid(s, chain, typ, q);
    var s' := Fetch(s, chain, typ, q).0;
    LruAnswersIff(s, chain, typ, q);
    LruAnswersIff(s', chain, typ, q);
    hide Fetch, Valid;
    if q.QueryRange? {
      var n := e.blockNumber;
      assert AllCached(s'.byNumber, chain, typ, n, n);
      var r := Fetch(s', chain, typ, q).1;
      assert Lookup(s.byNumber, NumberKey(typ, n + 0, chain)) == Some([e][0]);
      assert Lookup(s'.byNumber, NumberKey(typ, n + 0, chain)) == Some(r.value[0]);
      assert r.value == [e];
    }
  }

  lemma LruTakesAnswer(s: LruState, chain: ChainName, typ: EntryType, q: Query, e: Entry)
    requires ValidState(s) && AsksFor(q, e)
    ensures Fetch(StoreAll(s, chain, typ, [e]), chain, typ, q).1 == Ok([e])
  {
    if q.QueryRange? {
      ReadsBack(s, chain, typ, e);
    } else {
      StoreOneSpec(s, chain, typ, e);
      assert [e][1..] == [];
      assert StoreAll(s, chain, typ, [e]) == StoreAll(StoreOne(s, chain, typ, e), chain, typ, []);
      assert StoreAll(StoreOne(s, chain, typ, e), chain, typ, []) == StoreOne(s, chain, typ, e);
    }
  }

  /** An answered query for one block is answered by the in-process cache the next time, with the same
      entry, whatever has become of the other stores and the remote. */
  lemma AnsweredOnce(layers: seq<LayerState>, env: Env, chain: ChainName, typ: EntryType, q: Query, e: Entry)
    requires InBounds(q) && layers != [] && layers[0].LruLayer? && ValidState(layers[0].lru)
    requires AsksFor(q, e) && CompoundGet(layers, env, chain, typ, q).1 == Ok([e])
    ensures
      var after := CompoundGet(layers, env, chain, typ, q).0;
      && after != [] && after[0].LruLayer?
      && Fetch(after[0].lru, chain, typ, q).1 == Ok([e])
  {
    var lru := layers[0].lru;
    QuerySucceedsIff(layers, env, chain, typ, q, [e]);
    var i: nat :| AnsweredBy(layers, env, chain, typ, q, i, [e]);
    QueryLeaves(layers, env, chain, typ, q, i, [e], 0);
    FetchValid(lru, chain, typ, q);
    if i == 0 {
      LruKeepsAnswer(lru, chain, typ, q, e);
    } else {
      LruTakesAnswer(Fetch(lru, chain, typ, q).0, chain, typ, q, e);
    }
    hide CompoundGet, Fetch, StoreAll, ValidState, HitFrom;
  }
}
