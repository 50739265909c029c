/** Cache coherence over whole runs: asking a store and writing an answer back into a store above are
    steps of their own, with growth of the chain, other queries and other nodes in between. */
module Interleavings {
  import opened Basics
  import opened Types
  import opened Chainblock
  import opened Direct
  import opened CompoundStores
  import opened Coherence
  import opened Growth
  import opened Poison
  import opened Runs

  /** An answer on its way into the stores above the one that gave it. */
  datatype Flight = Flight(chain: ChainName, typ: EntryType, entries: seq<Entry>, above: int)

  datatype System = System(world: World, layers: seq<LayerState>, flights: seq<Flight>)

  datatype Event =
    | Grow(chain: ChainName, block: Block)
    | Ask(layer: int, chain: ChainName, typ: EntryType, query: Query, env: Env)
    | Announce(chain: ChainName, header: Entry)
    | Write(flight: int, layer: int, env: Env)
    | Outside(event: RedisEvent)

  /** What an event requires of the outside: growth appends a well-formed block, remotes serve a prefix of
      the chain and reply completely for it, and other nodes write right entries. */
  ghost predicate Admissible(s: System, event: Event) {
    match event
    case Grow(chain, block) => chain in s.world && WellFormed(s.world[chain] + [block])
    case Ask(_, chain, typ, q, env) => InBounds(q) && Honest(s.world, env, chain, typ, q)
    case Outside(e) => PeerRight(s.world, e)
    case _ => true
  }

  function Asked(s: System, layer: int, chain: ChainName, typ: EntryType, q: Query, env: Env): System
    requires InBounds(q) && 0 <= layer < |s.layers|
  {
    var (l, r) := LayerGet(s.layers[layer], env, chain, typ, q);
    s.(layers := s.layers[layer := l],
       flights := if r.Ok? then s.flights + [Flight(chain, typ, r.value, layer)] else s.flights)
  }

  function Step(s: System, event: Event): System {
    match event
    case Grow(chain, block) => s.(world := Grown(s.world, chain, block))
    case Ask(layer, chain, typ, q, env) =>
      if 0 <= layer < |s.layers| && InBounds(q) then Asked(s, layer, chain, typ, q, env) else s
    case Announce(chain, header) =>
      s.(flights := s.flights + [Flight(chain, BlockHeader, [header], |s.layers|)])
    case Write(flight, layer, env) =>
      if 0 <= flight < |s.flights| && 0 <= layer < |s.layers| && layer < s.flights[flight].above then
        var f := s.flights[flight];
        s.(layers := s.layers[layer := LayerPut(s.layers[layer], env, f.chain, f.typ, f.entries).0])
      else s
    case Outside(e) => s.(layers := AllOnRedis(s.layers, e))
  }

  /** The stores are coherent, and so is everything on its way into them. */
  ghost predicate Sound(s: System) {
    && WellFormedWorld(s.world) && Coherent(s.world, s.layers)
    && forall i | 0 <= i < |s.flights| :: FlightRight(s.world, s.flights[i])
  }

  ghost predicate FlightRight(w: World, f: Flight) {
    AllRight(w, f.chain, f.typ, f.entries)
  }

  /** Asking a bottom store what it can only invent an entry for, and announcing a header that is not a
      block of the chain. */
  predicate Poisons(s: System, event: Event) {
    match event
    case Ask(layer, _, typ, q, env) =>
      0 <= layer < |s.layers| && s.layers[layer].ChainLayer? && Poisonous(env.remote, typ, q)
    case Announce(chain, header) => !Right(s.world, chain, BlockHeader, header)
    case _ => false
  }

  lemma GrowSound(s: System, chain: ChainName, block: Block)
    requires Sound(s) && Admissible(s, Grow(chain, block))
    ensures Sound(Step(s, Grow(chain, block)))
  {
    var w := Grown(s.world, chain, block);
    StoresGrow(s.world, chain, block, s.layers);
    forall i | 0 <= i < |s.flights| ensures FlightRight(w, s.flights[i]) {
      var f := s.flights[i];
      assert FlightRight(s.world, f);
      forall j | 0 <= j < |f.entries| ensures Right(w, f.chain, f.typ, f.entries[j]) {
        assert Right(s.world, f.chain, f.typ, f.entries[j]);
        RightGrows(s.world, chain, block, f.chain, f.typ, f.entries[j]);
      }
    }
    hide CoherentLayer, Right;
  }

  /** What one store answers, unless the question is poison: a direct reading of the chain now, which
      may still be written back after any number of other steps. */
  lemma {:induction false} AskDirect(s: System, layer: int, chain: ChainName, typ: EntryType, q: Query, env: Env)
    requires Sound(s) && 0 <= layer < |s.layers| && InBounds(q) && Honest(s.world, env, chain, typ, q)
    requires !Poisons(s, Ask(layer, chain, typ, q, env))
    ensures var (l, r) := LayerGet(s.layers[layer], env, chain, typ, q);
      && CoherentLayer(s.world, l)
      && (r.Ok? ==> AllRight(s.world, chain, typ, r.value) && ReadOff(s.world, env, chain, typ, q, r.value))
  {
    assert CoherentLayer(s.world, s.layers[layer]);
    LayerAnswers(s.world, s.layers[layer], env, chain, typ, q);
    hide CoherentLayer, AllRight, ReadOff, Poisonous;
  }

  lemma AskSound(s: System, layer: int, chain: ChainName, typ: EntryType, q: Query, env: Env)
    requires Sound(s) && Admissible(s, Ask(layer, chain, typ, q, env)) && 0 <= layer < |s.layers|
    requires !Poisons(s, Ask(layer, chain, typ, q, env))
    ensures Sound(Asked(s, layer, chain, typ, q, env))
  {
    AskDirect(s, layer, chain, typ, q, env);
    hide CoherentLayer, AllRight, LayerGet;
  }

  lemma AskPoisons(s: System, layer: int, chain: ChainName, typ: EntryType, q: Query, env: Env)
    requires Sound(s) && Admissible(s, Ask(layer, chain, typ, q, env)) && 0 <= layer < |s.layers|
    requires Poisons(s, Ask(layer, chain, typ, q, env))
    ensures !Sound(Asked(s, layer, chain, typ, q, env))
  {
    InventedIsWrong(s.world, env, chain, typ, q);
    var s' := Asked(s, layer, chain, typ, q, env);
    var f := s'.flights[|s.flights|];
    assert !Right(s.world, chain, typ, f.entries[0]);
    assert !FlightRight(s.world, f);
    hide CoherentLayer, Right, FetchFromChain, Poisonous;
  }

  lemma WriteSound(s: System, flight: int, layer: int, env: Env)
    requires Sound(s)
    ensures Sound(Step(s, Write(flight, layer, env)))
  {
    if 0 <= flight < |s.flights| && 0 <= layer < |s.layers| {
      var f := s.flights[flight];
      assert FlightRight(s.world, f) && CoherentLayer(s.world, s.layers[layer]);
      PutCoherent(s.world, s.layers[layer], env, f.chain, f.typ, f.entries);
    }
    hide CoherentLayer, AllRight, LayerPut;
  }

  lemma AnnounceIff(s: System, chain: ChainName, header: Entry)
    requires Sound(s)
    ensures Sound(Step(s, Announce(chain, header))) <==> Right(s.world, chain, BlockHeader, header)
  {
    var s' := Step(s, Announce(chain, header));
    var f := s'.flights[|s.flights|];
    assert FlightRight(s.world, f) <==> Right(s.world, chain, BlockHeader, header) by {
      assert f.entries[0] == header;
    }
    hide CoherentLayer, Right;
  }

  /** Each step keeps the stores and the answers on their way coherent exactly when it does not poison. */
  lemma {:induction false} StepSoundIff(s: System, event: Event)
    requires Sound(s) && Admissible(s, event)
    ensures Sound(Step(s, event)) <==> !Poisons(s, event)
  {
    match event
    case Grow(chain, block) => GrowSound(s, chain, block);
    case Ask(layer, chain, typ, q, env) =>
      if 0 <= layer < |s.layers| {
        if Poisons(s, event) {
          AskPoisons(s, layer, chain, typ, q, env);
        } else {
          AskSound(s, layer, chain, typ, q, env);
        }
      }
    case Announce(chain, header) => AnnounceIff(s, chain, header);
    case Write(flight, layer, env) => WriteSound(s, flight, layer, env);
    case Outside(e) => OnRedisCoherent(s.world, s.layers, e);
    hide Asked, LayerPut, Coherent, AllOnRedis, Poisonous;
  }

  /** However queries overlap, a run stays coherent throughout exactly when no step poisons. */
  lemma {:induction false} RunSoundIff(s: System, events: seq<Event>)
    requires Sound(s) && AtEach(Step, Admissible, s, events)
    ensures Always(Step, Sound, s, events) <==> Never(Step, Poisons, s, events)
  {
    forall t, e | Sound(t) && Admissible(t, e) ensures Sound(Step(t, e)) <==> !Poisons(t, e) {
      StepSoundIff(t, e);
    }
    RunIff(Step, Sound, Admissible, Poisons, s, events);
    hide Sound, Admissible, Poisons, Step;
  }

  /** In such a run whatever a store is asked next is answered by a direct reading of the chain. */
  lemma {:induction false} NextAnswerDirect(start: System, events: seq<Event>, layer: int, chain: ChainName,
                                            typ: EntryType, q: Query, env: Env)
    requires Sound(start) && AtEach(Step, Admissible, start, events) && Never(Step, Poisons, start, events)
    requires Admissible(Exec(Step, start, events), Ask(layer, chain, typ, q, env))
    requires !Poisons(Exec(Step, start, events), Ask(layer, chain, typ, q, env))
    requires 0 <= layer < |Exec(Step, start, events).layers|
    ensures var s := Exec(Step, start, events);
      var r := LayerGet(s.layers[layer], env, chain, typ, q).1;
      r.Ok? ==> ReadOff(s.world, env, chain, typ, q, r.value)
  {
    RunSoundIff(start, events);
    AskDirect(Exec(Step, start, events), layer, chain, typ, q, env);
    hide Sound, Exec, ReadOff, LayerGet;
  }

  // A query and an announcement as runs.

  /** Asks stores 0, ..., n - 1. */
  function Asks(n: nat, chain: ChainName, typ: EntryType, q: Query, env: Env): seq<Event> {
    seq(n, i => Ask(i, chain, typ, q, env))
  }

  /** Writes one answer into stores 0, ..., n - 1. */
  function Writes(flight: int, n: nat, env: Env): seq<Event> {
    seq(n, i => Write(flight, i, env))
  }

  /** The first `n` stores have been asked. */
  function AfterAsks(layers: seq<LayerState>, n: nat, chain: ChainName, typ: EntryType, q: Query, env: Env)
    : seq<LayerState>
    requires InBounds(q)
  {
    seq(|layers|, j requires 0 <= j < |layers| =>
      if j < n then LayerGet(layers[j], env, chain, typ, q).0 else layers[j])
  }

  /** Entries have been written into the first `n` stores. */
  function AfterWrites(layers: seq<LayerState>, n: nat, f: Flight, env: Env): seq<LayerState> {
    seq(|layers|, j requires 0 <= j < |layers| =>
      if j < n then LayerPut(layers[j], env, f.chain, f.typ, f.entries).0 else layers[j])
  }

  lemma {:induction false} AsksRun(s: System, n: nat, chain: ChainName, typ: EntryType, q: Query, env: Env)
    requires InBounds(q) && n <= |s.layers|
    requires forall j | 0 <= j < n :: LayerGet(s.layers[j], env, chain, typ, q).1.Err?
    ensures Exec(Step, s, Asks(n, chain, typ, q, env)) == s.(layers := AfterAsks(s.layers, n, chain, typ, q, env))
  {
    hide LayerGet;
    if n == 0 {
      assert AfterAsks(s.layers, 0, chain, typ, q, env) == s.layers;
    } else {
      AsksRun(s, n - 1, chain, typ, q, env);
      var events := Asks(n, chain, typ, q, env);
      assert events[..n - 1] == Asks(n - 1, chain, typ, q, env);
      assert AfterAsks(s.layers, n, chain, typ, q, env)
        == AfterAsks(s.layers, n - 1, chain, typ, q, env)[n - 1 := LayerGet(s.layers[n - 1], env, chain, typ, q).0];
    }
  }

  lemma {:induction false} WritesRun(s: System, flight: int, n: nat, env: Env)
    requires 0 <= flight < |s.flights| && n <= |s.layers| && n <= s.flights[flight].above
    ensures Exec(Step, s, Writes(flight, n, env)) == s.(layers := AfterWrites(s.layers, n, s.flights[flight], env))
  {
    hide LayerPut;
    var f := s.flights[flight];
    if n == 0 {
      assert AfterWrites(s.layers, 0, f, env) == s.layers;
    } else {
      WritesRun(s, flight, n - 1, env);
      assert Writes(flight, n, env)[..n - 1] == Writes(flight, n - 1, env);
      assert AfterWrites(s.layers, n, f, env)
        == AfterWrites(s.layers, n - 1, f, env)[n - 1 := LayerPut(s.layers[n - 1], env, f.chain, f.typ, f.entries).0];
    }
  }

  /** A whole query: the stores are asked until one answers, and those above it get the answer. */
  function QueryRun(s: System, chain: ChainName, typ: EntryType, q: Query, env: Env): seq<Event>
    requires InBounds(q)
  {
    var hit := HitFrom(s.layers, env, chain, typ, q, 0);
    if hit == |s.layers| then Asks(hit, chain, typ, q, env)
    else Asks(hit, chain, typ, q, env) + [Ask(hit, chain, typ, q, env)] + Writes(|s.flights|, hit, env)
  }

  /** A whole query does what this run of single steps does, and its answer is what the last store that
      the run asks answers. */
  lemma {:induction false} QueryIsRun(s: System, chain: ChainName, typ: EntryType, q: Query, env: Env)
    requires InBounds(q)
    ensures
      var (layers, r) := CompoundGet(s.layers, env, chain, typ, q);
      var s' := Exec(Step, s, QueryRun(s, chain, typ, q, env));
      && s'.world == s.world && s'.layers == layers
      && (r.Ok? ==> |s'.flights| == |s.flights| + 1 && s'.flights[|s.flights|].entries == r.value)
  {
    var hit := HitFrom(s.layers, env, chain, typ, q, 0);
    AsksRun(s, hit, chain, typ, q, env);
    var asked := s.(layers := AfterAsks(s.layers, hit, chain, typ, q, env));
    if hit < |s.layers| {
      AnsweredRun(s, chain, typ, q, env, hit);
    } else {
      assert CompoundGet(s.layers, env, chain, typ, q).0 == asked.layers;
    }
    hide HitFrom, LayerGet, LayerPut, WritesBack, Step, Exec;
  }

  lemma HitAsked(s: System, chain: ChainName, typ: EntryType, q: Query, env: Env, hit: nat)
    requires InBounds(q) && hit < |s.layers| && LayerGet(s.layers[hit], env, chain, typ, q).1.Ok?
    ensures
      var entries := LayerGet(s.layers[hit], env, chain, typ, q).1.value;
      Step(s.(layers := AfterAsks(s.layers, hit, chain, typ, q, env)), Ask(hit, chain, typ, q, env))
        == s.(layers := AfterAsks(s.layers, hit + 1, chain, typ, q, env),
              flights := s.flights + [Flight(chain, typ, entries, hit)])
  {
    hide LayerGet;
    assert AfterAsks(s.layers, hit + 1, chain, typ, q, env)
      == AfterAsks(s.layers, hit, chain, typ, q, env)[hit := LayerGet(s.layers[hit], env, chain, typ, q).0];
  }

  lemma HitWritten(layers: seq<LayerState>, chain: ChainName, typ: EntryType, q: Query, env: Env, hit: nat)
    requires InBounds(q) && hit == HitFrom(layers, env, chain, typ, q, 0) < |layers|
    ensures
      var f := Flight(chain, typ, LayerGet(layers[hit], env, chain, typ, q).1.value, hit);
      AfterWrites(AfterAsks(layers, hit + 1, chain, typ, q, env), hit, f, env)
        == CompoundGet(layers, env, chain, typ, q).0
  {
    hide LayerGet, LayerPut, HitFrom, WritesBack;
  }

  lemma AnsweredRun(s: System, chain: ChainName, typ: EntryType, q: Query, env: Env, hit: nat)
    requires InBounds(q) && hit == HitFrom(s.layers, env, chain, typ, q, 0) < |s.layers|
    requires Exec(Step, s, Asks(hit, chain, typ, q, env))
      == s.(layers := AfterAsks(s.layers, hit, chain, typ, q, env))
    ensures
      var entries := LayerGet(s.layers[hit], env, chain, typ, q).1.value;
      Exec(Step, s, QueryRun(s, chain, typ, q, env))
        == s.(layers := CompoundGet(s.layers, env, chain, typ, q).0,
              flights := s.flights + [Flight(chain, typ, entries, hit)])
  {
    var asks, ask := Asks(hit, chain, typ, q, env), Ask(hit, chain, typ, q, env);
    var answered := Step(s.(layers := AfterAsks(s.layers, hit, chain, typ, q, env)), ask);
    assert (asks + [ask])[..|asks|] == asks;
    assert Exec(Step, s, asks + [ask]) == answered;
    ExecConcat(Step, s, asks + [ask], Writes(|s.flights|, hit, env));
    HitAsked(s, chain, typ, q, env, hit);
    WritesRun(answered, |s.flights|, hit, env);
    HitWritten(s.layers, chain, typ, q, env, hit);
    hide LayerGet, Step, HitFrom, Exec, AfterAsks, AfterWrites, CompoundGet, Asks, Writes;
  }

  /** So does an announcement. */
  lemma {:induction false} AnnounceIsRun(s: System, chain: ChainName, header: Entry, env: Env)
    ensures
      var run := [Announce(chain, header)] + Writes(|s.flights|, |s.layers|, env);
      var s' := Exec(Step, s, run);
      s'.world == s.world && s'.layers == CompoundPut(s.layers, env, chain, BlockHeader, [header]).0
  {
    var announced := Step(s, Announce(chain, header));
    ExecConcat(Step, s, [Announce(chain, header)], Writes(|s.flights|, |s.layers|, env));
    assert [Announce(chain, header)][..0] == [];
    assert Exec(Step, s, []) == s;
    assert Exec(Step, s, [Announce(chain, header)]) == announced;
    WritesRun(announced, |s.flights|, |s.layers|, env);
    hide LayerPut, Exec;
    assert AfterWrites(announced.layers, |s.layers|, announced.flights[|s.flights|], env)
      == CompoundPut(s.layers, env, chain, BlockHeader, [header]).0;
  }
}
