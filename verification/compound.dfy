/** CompoundStore: a stack of block stores. A query is answered by the first store that can,
    and the answer is written back to the stores above it. */
module CompoundStores {
  import opened Basics
  import opened Types
  import opened LruStores
  import opened Chainblock
  import opened Rediblock

  datatype LayerState = LruLayer(lru: LruState) | RedisLayer(redis: RedisState) | ChainLayer

  /** Everything outside the stores that one call depends on. */
  datatype Env = Env(remote: Remote, secondsPerBlock: nat, redisDown: bool, redisFault: Fault)

  function LayerGet(l: LayerState, env: Env, chain: ChainName, typ: EntryType, q: Query)
    : (LayerState, Result<seq<Entry>>)
    requires InBounds(q)
  {
    match l
    case LruLayer(lru) => var (lru', r) := Fetch(lru, chain, typ, q); (LruLayer(lru'), r)
    case RedisLayer(redis) => (l, FetchFromRedis(redis, chain, typ, q, env.redisDown))
    case ChainLayer => (l, FetchFromChain(env.remote, typ, q))
  }

  function LayerPut(l: LayerState, env: Env, chain: ChainName, typ: EntryType, entries: seq<Entry>)
    : (LayerState, bool)
  {
    match l
    case LruLayer(lru) => (LruLayer(StoreAll(lru, chain, typ, entries)), true)
    case RedisLayer(redis) =>
      var (redis', ok) := PutOutcome(redis, chain, typ, env.secondsPerBlock, entries, env.redisFault);
      (RedisLayer(redis'), ok)
    case ChainLayer => (l, true)
  }

  /** A range query that is not inverted asks the stores; an inverted one is answered at once. */
  predicate Inverted(q: Query) {
    q.QueryRange? && q.end < q.start
  }

  /** The first store from `i` on that answers, or the number of stores. */
  function HitFrom(layers: seq<LayerState>, env: Env, chain: ChainName, typ: EntryType, q: Query, i: nat): (hit: nat)
    requires InBounds(q) && i <= |layers|
    ensures i <= hit <= |layers|
    ensures hit < |layers| ==> LayerGet(layers[hit], env, chain, typ, q).1.Ok?
    ensures forall j | i <= j < hit :: LayerGet(layers[j], env, chain, typ, q).1.Err?
    decreases |layers| - i
  {
    if i == |layers| || LayerGet(layers[i], env, chain, typ, q).1.Ok? then i
    else HitFrom(layers, env, chain, typ, q, i + 1)
  }

  lemma HitStep(layers: seq<LayerState>, env: Env, chain: ChainName, typ: EntryType, q: Query, i: nat)
    requires InBounds(q) && i < |layers|
    ensures HitFrom(layers, env, chain, typ, q, i) ==
      if LayerGet(layers[i], env, chain, typ, q).1.Ok? then i else HitFrom(layers, env, chain, typ, q, i + 1)
  {
  }

  /** One store after a query that store number `hit` answered with `entries`. */
  function After(l: LayerState, j: nat, hit: nat, entries: seq<Entry>,
                 env: Env, chain: ChainName, typ: EntryType, q: Query): LayerState
    requires InBounds(q)
  {
    if j < hit then LayerPut(LayerGet(l, env, chain, typ, q).0, env, chain, typ, entries).0
    else if j == hit then LayerGet(l, env, chain, typ, q).0
    else l
  }

  predicate WritesBack(layers: seq<LayerState>, hit: nat, entries: seq<Entry>,
                       env: Env, chain: ChainName, typ: EntryType, q: Query)
    requires InBounds(q) && hit <= |layers|
  {
    forall j | 0 <= j < hit :: LayerPut(LayerGet(layers[j], env, chain, typ, q).0, env, chain, typ, entries).1
  }

  /** The stores after a query, and its answer. */
  function CompoundGet(layers: seq<LayerState>, env: Env, chain: ChainName, typ: EntryType, q: Query)
    : (seq<LayerState>, Result<seq<Entry>>)
    requires Inverted(q) || InBounds(q)
  {
    if Inverted(q) then (layers, Ok([]))
    else
      var hit := HitFrom(layers, env, chain, typ, q, 0);
      if hit == |layers| then
        (seq(|layers|, j requires 0 <= j < |layers| => LayerGet(layers[j], env, chain, typ, q).0), Err)
      else
        var entries := LayerGet(layers[hit], env, chain, typ, q).1.value;
        (seq(|layers|, j requires 0 <= j < |layers| => After(layers[j], j, hit, entries, env, chain, typ, q)),
         if WritesBack(layers, hit, entries, env, chain, typ, q) then Ok(entries) else Err)
  }

  lemma AnsweredStates(before: seq<LayerState>, now: seq<LayerState>, i: nat, entries: seq<Entry>,
                       env: Env, chain: ChainName, typ: EntryType, q: Query)
    requires InBounds(q) && |now| == |before| && i < |before| && i == HitFrom(before, env, chain, typ, q, 0)
    requires LayerGet(before[i], env, chain, typ, q).1 == Ok(entries)
    requires forall j | 0 <= j < |now| :: now[j] == After(before[j], j, i, entries, env, chain, typ, q)
    ensures CompoundGet(before, env, chain, typ, q)
      == (now, if WritesBack(before, i, entries, env, chain, typ, q) then Ok(entries) else Err)
  {
    hide After, LayerGet, LayerPut, HitFrom, WritesBack;
    assert now == CompoundGet(before, env, chain, typ, q).0;
  }

  lemma UnansweredStates(before: seq<LayerState>, now: seq<LayerState>,
                         env: Env, chain: ChainName, typ: EntryType, q: Query)
    requires InBounds(q) && |now| == |before| == HitFrom(before, env, chain, typ, q, 0)
    requires forall j | 0 <= j < |now| :: now[j] == LayerGet(before[j], env, chain, typ, q).0
    ensures CompoundGet(before, env, chain, typ, q) == (now, Err)
  {
    hide After, LayerGet, LayerPut, HitFrom, WritesBack;
    assert now == CompoundGet(before, env, chain, typ, q).0;
  }

  /** The stores after an entry batch has been put into each of them. */
  function CompoundPut(layers: seq<LayerState>, env: Env, chain: ChainName, typ: EntryType, entries: seq<Entry>)
    : (seq<LayerState>, bool)
  {
    (seq(|layers|, j requires 0 <= j < |layers| => LayerPut(layers[j], env, chain, typ, entries).0),
     forall j | 0 <= j < |layers| :: LayerPut(layers[j], env, chain, typ, entries).1)
  }

  // What a query and a Put come to, told store by store.

  /** Store `i` is the first to answer, with `entries`, and those above it, having been asked, accept them. */
  ghost predicate AnsweredBy(layers: seq<LayerState>, env: Env, chain: ChainName, typ: EntryType, q: Query,
                             i: nat, entries: seq<Entry>)
    requires InBounds(q)
  {
    && i < |layers| && LayerGet(layers[i], env, chain, typ, q).1 == Ok(entries)
    && forall j | 0 <= j < i ::
      && LayerGet(layers[j], env, chain, typ, q).1.Err?
      && LayerPut(LayerGet(layers[j], env, chain, typ, q).0, env, chain, typ, entries).1
  }

  lemma HitIsFirst(layers: seq<LayerState>, env: Env, chain: ChainName, typ: EntryType, q: Query, i: nat)
    requires InBounds(q) && i < |layers| && LayerGet(layers[i], env, chain, typ, q).1.Ok?
    requires forall j | 0 <= j < i :: LayerGet(layers[j], env, chain, typ, q).1.Err?
    ensures HitFrom(layers, env, chain, typ, q, 0) == i
  {
    hide LayerGet;
  }

  /** A query succeeds exactly when some store answers, none before it does, and all before it accept
      the answer; and then with that answer. */
  lemma QuerySucceedsIff(layers: seq<LayerState>, env: Env, chain: ChainName, typ: EntryType, q: Query,
                         entries: seq<Entry>)
    requires InBounds(q)
    ensures CompoundGet(layers, env, chain, typ, q).1 == Ok(entries)
      <==> exists i: nat :: AnsweredBy(layers, env, chain, typ, q, i, entries)
  {
    hide LayerGet, LayerPut;
    var hit := HitFrom(layers, env, chain, typ, q, 0);
    if CompoundGet(layers, env, chain, typ, q).1 == Ok(entries) {
      assert AnsweredBy(layers, env, chain, typ, q, hit, entries);
    }
    if i: nat :| AnsweredBy(layers, env, chain, typ, q, i, entries) {
      HitIsFirst(layers, env, chain, typ, q, i);
    }
  }

  /** The stores after a query whose first answer is store `i`'s: those above have been asked and written
      to, that one asked, those below left alone. */
  lemma QueryLeaves(layers: seq<LayerState>, env: Env, chain: ChainName, typ: EntryType, q: Query,
                    i: nat, entries: seq<Entry>, j: nat)
    requires InBounds(q) && i < |layers| && LayerGet(layers[i], env, chain, typ, q).1 == Ok(entries)
    requires forall k | 0 <= k < i :: LayerGet(layers[k], env, chain, typ, q).1.Err?
    requires j < |layers|
    ensures var after := CompoundGet(layers, env, chain, typ, q).0;
      && |after| == |layers|
      && (j < i ==> after[j] == LayerPut(LayerGet(layers[j], env, chain, typ, q).0, env, chain, typ, entries).0)
      && (j == i ==> after[j] == LayerGet(layers[j], env, chain, typ, q).0)
      && (j > i ==> after[j] == layers[j])
  {
    HitIsFirst(layers, env, chain, typ, q, i);
    hide LayerGet, LayerPut, HitFrom;
  }

  /** An inverted range is answered with nothing, and no store is asked. */
  lemma InvertedIsEmpty(layers: seq<LayerState>, env: Env, chain: ChainName, typ: EntryType, start: nat, end: nat)
    requires end < start
    ensures CompoundGet(layers, env, chain, typ, QueryRange(start, end)) == (layers, Ok([]))
  {
  }

  /** Redis does not answer while it is down; the other stores do not depend on it. */
  lemma DownRedisIsSilent(l: LayerState, env: Env, chain: ChainName, typ: EntryType, q: Query)
    requires InBounds(q) && env.redisDown
    ensures l.RedisLayer? ==> LayerGet(l, env, chain, typ, q).1.Err?
    ensures !l.RedisLayer? ==>
      LayerGet(l, env, chain, typ, q) == LayerGet(l, env.(redisDown := false), chain, typ, q)
  {
    hide Fetch, FetchFromChain;
  }

  /** Only a Redis fault keeps a store from accepting entries. */
  lemma HealthyAccepts(l: LayerState, env: Env, chain: ChainName, typ: EntryType, entries: seq<Entry>)
    requires env.redisFault == NoFault
    ensures LayerPut(l, env, chain, typ, entries).1
  {
  }

  /** Without a Redis fault a query is answered as soon as one store can. */
  lemma HealthyAnswered(layers: seq<LayerState>, env: Env, chain: ChainName, typ: EntryType, q: Query, i: nat)
    requires InBounds(q) && env.redisFault == NoFault
    requires i < |layers| && LayerGet(layers[i], env, chain, typ, q).1.Ok?
    ensures CompoundGet(layers, env, chain, typ, q).1.Ok?
  {
    var hit := HitFrom(layers, env, chain, typ, q, 0);
    var entries := LayerGet(layers[hit], env, chain, typ, q).1.value;
    forall j | 0 <= j < hit
      ensures LayerPut(LayerGet(layers[j], env, chain, typ, q).0, env, chain, typ, entries).1
    {
      HealthyAccepts(LayerGet(layers[j], env, chain, typ, q).0, env, chain, typ, entries);
    }
    hide LayerGet, LayerPut;
    assert AnsweredBy(layers, env, chain, typ, q, hit, entries);
    QuerySucceedsIff(layers, env, chain, typ, q, entries);
  }

  /** A Put succeeds exactly when every store accepts the entries, and every store is told in any case. */
  lemma PutSucceedsIff(layers: seq<LayerState>, env: Env, chain: ChainName, typ: EntryType, entries: seq<Entry>)
    ensures var (after, ok) := CompoundPut(layers, env, chain, typ, entries);
      && (ok <==> forall j | 0 <= j < |layers| :: LayerPut(layers[j], env, chain, typ, entries).1)
      && |after| == |layers|
      && forall j | 0 <= j < |layers| :: after[j] == LayerPut(layers[j], env, chain, typ, entries).0
  {
  }

  datatype Store = Lru(lru: LruStore) | Redis(redis: RediblockStore) | Chain

  function ObjectOf(s: Store): set<object> {
    match s
    case Lru(lru) => {lru}
    case Redis(redis) => {redis}
    case Chain => {}
  }

  ghost function StateOf(s: Store): LayerState
    reads ObjectOf(s)
  {
    match s
    case Lru(lru) => LruLayer(lru.State())
    case Redis(redis) => RedisLayer(redis.State())
    case Chain => ChainLayer
  }

  method Ask(s: Store, env: Env, chain: ChainName, typ: EntryType, q: Query) returns (r: Result<seq<Entry>>)
    requires InBounds(q) && WordSized(env.remote)
    modifies ObjectOf(s)
    ensures (StateOf(s), r) == LayerGet(old(StateOf(s)), env, chain, typ, q)
  {
    match s
    case Lru(lru) => r := lru.Get(chain, typ, q);
    case Redis(redis) => r := redis.Get(chain, typ, q, env.redisDown);
    case Chain => r := Chainblock.Get(env.remote, typ, q);
  }

  method Tell(s: Store, env: Env, chain: ChainName, typ: EntryType, entries: seq<Entry>) returns (ok: bool)
    modifies ObjectOf(s)
    ensures (StateOf(s), ok) == LayerPut(old(StateOf(s)), env, chain, typ, entries)
  {
    match s
    case Lru(lru) => lru.Put(chain, typ, entries); ok := true;
    case Redis(redis) => ok := redis.Put(chain, typ, env.secondsPerBlock, entries, env.redisFault);
    case Chain => ok := true;
  }

  class CompoundStore {
    var stores: seq<Store>

    constructor ()
      ensures stores == []
    {
      stores := [];
    }

    ghost function Repr(): set<object>
      reads this
    {
      set i, o | 0 <= i < |stores| && o in ObjectOf(stores[i]) :: o
    }

    /** No store object is used twice, and none is this stack itself. */
    ghost predicate Valid()
      reads this
    {
      && this !in Repr()
      && forall i, j | 0 <= i < j < |stores| :: ObjectOf(stores[i]) !! ObjectOf(stores[j])
    }

    ghost function States(): (states: seq<LayerState>)
      reads this, Repr()
      ensures |states| == |stores|
      ensures forall i | 0 <= i < |stores| :: states[i] == StateOf(stores[i])
    {
      seq(|stores|, i requires 0 <= i < |stores| reads this, Repr() => StateOf(stores[i]))
    }

    /** Appends a store; a missing store is skipped. */
    method AddStore(store: Option<Store>)
      requires Valid()
      requires store.Some? ==> ObjectOf(store.value) !! Repr() + {this}
      modifies this
      ensures Valid()
      ensures stores == old(stores) + if store.Some? then [store.value] else []
    {
      if store.Some? {
        stores := stores + [store.value];
      }
    }

    method Get(env: Env, chain: ChainName, typ: EntryType, q: Query) returns (r: Result<seq<Entry>>)
      requires Valid() && (Inverted(q) || InBounds(q)) && WordSized(env.remote)
      modifies Repr()
      ensures Valid() && stores == old(stores)
      ensures (States(), r) == CompoundGet(old(States()), env, chain, typ, q)
    {
      if Inverted(q) {
        return Ok([]);
      }
      hide LayerGet, LayerPut, HitFrom, After, CompoundGet, WritesBack;
      ghost var before := States();
      var i, entries := FirstAnswer(env, chain, typ, q);
      if i == |stores| {
        UnansweredStates(before, States(), env, chain, typ, q);
        return Err;
      }
      var ok := WriteBack(before, i, entries, env, chain, typ, q);
      AnsweredStates(before, States(), i, entries, env, chain, typ, q);
      return if ok then Ok(entries) else Err;
    }

    /** Asks the stores in turn until one answers. */
    method FirstAnswer(env: Env, chain: ChainName, typ: EntryType, q: Query) returns (i: nat, entries: seq<Entry>)
      requires Valid() && InBounds(q) && WordSized(env.remote)
      modifies Repr()
      ensures Valid() && stores == old(stores)
      ensures i == HitFrom(old(States()), env, chain, typ, q, 0)
      ensures i < |stores| ==> LayerGet(old(States())[i], env, chain, typ, q).1 == Ok(entries)
      ensures Asked(old(States()), i + 1, env, chain, typ, q)
    {
      hide LayerGet, HitFrom, Asked, StateOf;
      ghost var before := States();
      AskedNone(before, env, chain, typ, q);
      i := 0;
      while i < |stores|
        invariant Valid() && stores == old(stores) && 0 <= i <= |stores|
        invariant HitFrom(before, env, chain, typ, q, 0) == HitFrom(before, env, chain, typ, q, i)
        invariant Asked(before, i, env, chain, typ, q)
      {
        HitStep(before, env, chain, typ, q, i);
        var answer := AskNext(before, i, env, chain, typ, q);
        if answer.Ok? {
          return i, answer.value;
        }
        i := i + 1;
      }
      AskedAll(before, i, env, chain, typ, q);
      return i, [];
    }

    /** The first `n` stores have been asked. */
    ghost predicate Asked(before: seq<LayerState>, n: nat, env: Env, chain: ChainName, typ: EntryType, q: Query)
      requires InBounds(q) && |before| == |stores|
      reads this, Repr()
    {
      forall j | 0 <= j < |stores| ::
        StateOf(stores[j]) == if j < n then LayerGet(before[j], env, chain, typ, q).0 else before[j]
    }

    lemma AskedNone(before: seq<LayerState>, env: Env, chain: ChainName, typ: EntryType, q: Query)
      requires InBounds(q) && before == States()
      ensures Asked(before, 0, env, chain, typ, q)
    {
    }

    lemma AskedAll(before: seq<LayerState>, n: nat, env: Env, chain: ChainName, typ: EntryType, q: Query)
      requires InBounds(q) && |before| == |stores| == n && Asked(before, n, env, chain, typ, q)
      ensures Asked(before, n + 1, env, chain, typ, q)
    {
    }

    method AskNext(ghost before: seq<LayerState>, i: nat, env: Env, chain: ChainName, typ: EntryType, q: Query)
      returns (r: Result<seq<Entry>>)
      requires Valid() && InBounds(q) && WordSized(env.remote)
      requires |before| == |stores| && i < |stores| && Asked(before, i, env, chain, typ, q)
      modifies Repr()
      ensures Valid() && stores == old(stores)
      ensures Asked(before, i + 1, env, chain, typ, q)
      ensures r == LayerGet(before[i], env, chain, typ, q).1
    {
      hide LayerGet;
      r := Ask(stores[i], env, chain, typ, q);
    }

    /** Puts the answer of store `i` into the stores above it. */
    method WriteBack(ghost before: seq<LayerState>, i: nat, entries: seq<Entry>,
                     env: Env, chain: ChainName, typ: EntryType, ghost q: Query) returns (ok: bool)
      requires Valid() && InBounds(q) && |before| == |stores| && i < |stores|
      requires Asked(before, i + 1, env, chain, typ, q)
      modifies Repr()
      ensures Valid() && stores == old(stores)
      ensures ok == WritesBack(before, i, entries, env, chain, typ, q)
      ensures forall j | 0 <= j < |stores| :: StateOf(stores[j]) == After(before[j], j, i, entries, env, chain, typ, q)
    {
      hide LayerGet, LayerPut;
      ok := true;
      for j := 0 to i
        invariant ok <==> WritesBack(before, j, entries, env, chain, typ, q)
        invariant forall k | 0 <= k < |stores| && !(j <= k < i) ::
          StateOf(stores[k]) == After(before[k], k, i, entries, env, chain, typ, q)
        invariant forall k | j <= k < i :: StateOf(stores[k]) == LayerGet(before[k], env, chain, typ, q).0
      {
        var stored := Tell(stores[j], env, chain, typ, entries);
        if !stored {
          ok := false;
        }
      }
    }

    method Put(env: Env, chain: ChainName, typ: EntryType, entries: seq<Entry>) returns (ok: bool)
      requires Valid()
      modifies Repr()
      ensures Valid() && stores == old(stores)
      ensures (States(), ok) == CompoundPut(old(States()), env, chain, typ, entries)
    {
      hide LayerPut;
      ghost var before := States();
      ok := true;
      for j := 0 to |stores|
        invariant ok <==> forall k | 0 <= k < j :: LayerPut(before[k], env, chain, typ, entries).1
        invariant forall k | 0 <= k < |stores| ::
          StateOf(stores[k]) == if k < j then LayerPut(before[k], env, chain, typ, entries).0 else before[k]
      {
        var stored := Tell(stores[j], env, chain, typ, entries);
        if !stored {
          ok := false;
        }
      }
      assert States() == CompoundPut(before, env, chain, typ, entries).0;
    }
  }
}
