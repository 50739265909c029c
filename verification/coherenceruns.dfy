/** Cache coherence over runs of whole queries and announcements: runs of the single steps of
    Interleavings, seen from outside. */
module CoherenceRuns {
  import opened Basics
  import opened Types
  import opened SimpleLru
  import opened LruStores
  import opened Chainblock
  import opened Direct
  import opened Rediblock
  import opened CompoundStores
  import opened Coherence
  import opened Growth
  import opened Poison
  import opened Runs
  import I = Interleavings

  datatype System = System(world: World, layers: seq<LayerState>)

  datatype Event =
    | Grow(chain: ChainName, block: Block)
    | Query(chain: ChainName, typ: EntryType, query: Types.Query, env: Env)
    | Announce(chain: ChainName, header: Entry, env: Env)
    | Outside(event: RedisEvent)

  ghost predicate Admissible(s: System, event: Event) {
    match event
    case Grow(chain, block) => chain in s.world && WellFormed(s.world[chain] + [block])
    case Query(chain, typ, q, env) => Inverted(q) || (InBounds(q) && Honest(s.world, env, chain, typ, q))
    case Announce(_, _, _) => true
    case Outside(e) => PeerRight(s.world, e)
  }

  function Step(s: System, event: Event): System {
    match event
    case Grow(chain, block) => s.(world := Grown(s.world, chain, block))
    case Query(chain, typ, q, env) =>
      if Inverted(q) || InBounds(q) then s.(layers := CompoundGet(s.layers, env, chain, typ, q).0) else s
    case Announce(chain, header, env) => s.(layers := CompoundPut(s.layers, env, chain, BlockHeader, [header]).0)
    case Outside(e) => s.(layers := AllOnRedis(s.layers, e))
  }

  /** The events that store something that is not on the chain, when there is a bottom store: a header or
      log query by the zero hash while the remote replies, and a query for the logs of one tag to which it
      replies with some log; and in any case an announced header that is not a block of the chain. */
  predicate Poisons(s: System, event: Event) {
    match event
    case Query(chain, typ, q, env) => HasChainLayer(s.layers) && Poisonous(env.remote, typ, q)
    case Announce(chain, header, env) => !Right(s.world, chain, BlockHeader, header)
    case _ => false
  }

  /** A coherent system whose first store is the in-process cache, as the node is wired. */
  ghost predicate Sound(s: System) {
    && WellFormedWorld(s.world) && Coherent(s.world, s.layers)
    && s.layers != [] && s.layers[0].LruLayer?
  }

  // Single steps.

  /** The system with nothing on its way. */
  function Fine(s: System): I.System {
    I.System(s.world, s.layers, [])
  }

  /** The single steps that an event consists of. */
  function FineRun(s: System, event: Event): seq<I.Event> {
    match event
    case Grow(chain, block) => [I.Grow(chain, block)]
    case Query(chain, typ, q, env) => if !InBounds(q) then [] else I.QueryRun(Fine(s), chain, typ, q, env)
    case Announce(chain, header, env) => [I.Announce(chain, header)] + I.Writes(0, |s.layers|, env)
    case Outside(e) => [I.Outside(e)]
  }

  /** Seen from outside, an event does what its single steps do. */
  lemma {:induction false} StepIsRun(s: System, event: Event)
    ensures var s' := Exec(I.Step, Fine(s), FineRun(s, event));
      Step(s, event) == System(s'.world, s'.layers)
  {
    assert forall e: I.Event :: [e][..0] == [];
    match event
    case Grow(_, _) =>
    case Query(chain, typ, q, env) =>
      if InBounds(q) {
        I.QueryIsRun(Fine(s), chain, typ, q, env);
      }
    case Announce(chain, header, env) => I.AnnounceIsRun(Fine(s), chain, header, env);
    case Outside(_) =>
    hide CompoundPut, AllOnRedis, I.QueryRun, I.Writes;
  }

  /** Asking and writing change neither the chain nor which stores there are. */
  lemma {:induction false} QuietKeeps(s: I.System, events: seq<I.Event>)
    requires forall i | 0 <= i < |events| :: events[i].Ask? || events[i].Write?
    ensures var s' := Exec(I.Step, s, events);
      && s'.world == s.world && |s'.layers| == |s.layers|
      && forall j | 0 <= j < |s.layers| :: s'.layers[j].ChainLayer? == s.layers[j].ChainLayer?
  {
    if events != [] {
      QuietKeeps(s, events[..|events| - 1]);
    }
  }

  /** A write, or a question that is admissible and no poison in this system. */
  ghost predicate Harmless(s: I.System, e: I.Event) {
    e.Write? || (e.Ask? && I.Admissible(s, e) && (HasChainLayer(s.layers) ==> !Poisonous(e.env.remote, e.typ, e.query)))
  }

  lemma {:induction false} HarmlessRun(s: I.System, events: seq<I.Event>)
    requires forall i | 0 <= i < |events| :: Harmless(s, events[i])
    ensures AtEach(I.Step, I.Admissible, s, events) && Never(I.Step, I.Poisons, s, events)
  {
    if events != [] {
      var front, e := events[..|events| - 1], events[|events| - 1];
      HarmlessRun(s, front);
      QuietKeeps(s, front);
      assert Harmless(s, e);
      var t := Exec(I.Step, s, front);
      assert I.Admissible(t, e);
      assert !I.Poisons(t, e);
    }
    hide I.Step, Poisonous, Faithful;
  }

  lemma HarmlessSound(s: I.System, events: seq<I.Event>)
    requires I.Sound(s) && forall i | 0 <= i < |events| :: Harmless(s, events[i])
    ensures I.Sound(Exec(I.Step, s, events))
  {
    HarmlessRun(s, events);
    I.RunSoundIff(s, events);
    hide I.Sound, Harmless;
  }

  lemma FineSound(s: System)
    requires Sound(s)
    ensures I.Sound(Fine(s))
  {
  }

  // Whole events.

  lemma FirstLayerStays(s: System, event: Event)
    requires s.layers != [] && s.layers[0].LruLayer?
    ensures var s' := Step(s, event); s'.layers != [] && s'.layers[0].LruLayer?
  {
  }

  lemma QuerySound(s: System, chain: ChainName, typ: EntryType, q: Types.Query, env: Env)
    requires Sound(s) && InBounds(q) && Honest(s.world, env, chain, typ, q)
    requires !Poisons(s, Query(chain, typ, q, env))
    ensures I.Sound(Exec(I.Step, Fine(s), I.QueryRun(Fine(s), chain, typ, q, env)))
  {
    var run := I.QueryRun(Fine(s), chain, typ, q, env);
    FineSound(s);
    forall i | 0 <= i < |run| ensures Harmless(Fine(s), run[i]) {
      assert run[i].Write? || (run[i].Ask? && run[i].chain == chain && run[i].typ == typ
                               && run[i].query == q && run[i].env == env);
    }
    HarmlessSound(Fine(s), run);
    hide I.Sound, Poisonous, Faithful, HitFrom;
  }

  lemma AnnounceSound(s: System, chain: ChainName, header: Entry, env: Env)
    requires Sound(s) && Right(s.world, chain, BlockHeader, header)
    ensures I.Sound(Exec(I.Step, Fine(s), FineRun(s, Announce(chain, header, env))))
  {
    var announce, writes := I.Announce(chain, header), I.Writes(0, |s.layers|, env);
    FineSound(s);
    I.AnnounceIff(Fine(s), chain, header);
    ExecConcat(I.Step, Fine(s), [announce], writes);
    assert [announce][..0] == [] && Exec(I.Step, Fine(s), []) == Fine(s);
    assert Exec(I.Step, Fine(s), [announce]) == I.Step(Fine(s), announce);
    HarmlessSound(I.Step(Fine(s), announce), writes);
    hide I.Sound, Right;
  }

  /** An event that does not poison keeps a coherent system coherent, because its single steps do. */
  lemma StepSound(s: System, event: Event)
    requires Sound(s) && Admissible(s, event) && !Poisons(s, event)
    ensures Sound(Step(s, event))
  {
    StepIsRun(s, event);
    FirstLayerStays(s, event);
    FineSound(s);
    match event
    case Grow(chain, block) => I.GrowSound(Fine(s), chain, block);
    case Query(chain, typ, q, env) =>
      if InBounds(q) {
        QuerySound(s, chain, typ, q, env);
      }
    case Announce(chain, header, env) => AnnounceSound(s, chain, header, env);
    case Outside(e) => OnRedisCoherent(s.world, s.layers, e);
    hide Coherent, CompoundGet, CompoundPut, AllOnRedis, I.Step, I.QueryRun, Exec, Right, Poisonous, WellFormed;
  }

  lemma AnnouncePoisons(s: System, chain: ChainName, header: Entry, env: Env)
    requires Sound(s) && !Right(s.world, chain, BlockHeader, header)
    ensures !Sound(Step(s, Announce(chain, header, env)))
  {
    var layers := Step(s, Announce(chain, header, env)).layers;
    assert CoherentLayer(s.world, s.layers[0]);
    StoredWrong(s.world, s.layers[0].lru, chain, BlockHeader, header);
    assert !CoherentLayer(s.world, layers[0]);
    hide CoherentLru, StoreAll, Right;
  }

  /** One event keeps a coherent system coherent exactly when it does not poison it. */
  lemma {:induction false} StepSoundIff(s: System, event: Event)
    requires Sound(s) && Admissible(s, event)
    ensures Sound(Step(s, event)) <==> !Poisons(s, event)
  {
    if !Poisons(s, event) {
      StepSound(s, event);
    } else {
      match event
      case Query(chain, typ, q, env) =>
        if InBounds(q) {
          PoisonSpoils(s.world, s.layers, env, chain, typ, q);
        }
      case Announce(chain, header, env) => AnnouncePoisons(s, chain, header, env);
    }
    hide Coherent, CompoundGet, CompoundPut, AllOnRedis, Right, WellFormedWorld, WellFormed;
  }

  /** A run stays coherent throughout exactly when none of its events poisons the caches. */
  lemma {:induction false} RunSoundIff(s: System, events: seq<Event>)
    requires Sound(s) && AtEach(Step, Admissible, s, events)
    ensures Always(Step, Sound, s, events) <==> Never(Step, Poisons, s, events)
  {
    forall t, e | Sound(t) && Admissible(t, e) ensures Sound(Step(t, e)) <==> !Poisons(t, e) {
      StepSoundIff(t, e);
    }
    RunIff(Step, Sound, Admissible, Poisons, s, events);
    hide Sound, Admissible, Poisons, Step;
  }

  lemma {:induction false} AnswerDirect(s: System, chain: ChainName, typ: EntryType, q: Types.Query, env: Env)
    requires Sound(s) && InBounds(q) && Honest(s.world, env, chain, typ, q)
    requires !Poisons(s, Query(chain, typ, q, env))
    ensures var r := CompoundGet(s.layers, env, chain, typ, q).1;
      r.Ok? ==> ReadOff(s.world, env, chain, typ, q, r.value)
  {
    CompoundAnswers(s.world, s.layers, env, chain, typ, q);
    hide CompoundGet, Poisonous, ReadOff;
  }

  /** Every answer given during such a run is a direct reading of the chain at that moment, or of the
      prefix served by a remote that lags. */
  lemma {:induction false} EveryAnswerDirect(s: System, events: seq<Event>, i: nat)
    requires Sound(s) && AtEach(Step, Admissible, s, events) && Never(Step, Poisons, s, events)
    requires i < |events| && events[i].Query? && InBounds(events[i].query)
    ensures
      var now, e := Exec(Step, s, events[..i]), events[i];
      var r := CompoundGet(now.layers, e.env, e.chain, e.typ, e.query).1;
      r.Ok? ==> e.chain in now.world && ReadOff(now.world, e.env, e.chain, e.typ, e.query, r.value)
  {
    RunSoundIff(s, events);
    AtMoment(Step, Sound, Admissible, Poisons, s, events, i);
    var now, e := Exec(Step, s, events[..i]), events[i];
    AnswerDirect(now, e.chain, e.typ, e.query, e.env);
    hide Exec, Sound, Poisons, CompoundGet, ReadOff, AtEach, Never;
  }

  /** The node starts coherent: empty caches over any well-formed chains. */
  lemma StartSound(w: World, size: nat, withRedis: bool)
    requires WellFormedWorld(w) && size >= 1
    ensures
      var lru := LruLayer(LruState(Empty(size), Empty(size)));
      var redis := RedisLayer(RedisState(0, map[], map[], map[], map[], map[]));
      Sound(System(w, if withRedis then [lru, redis, ChainLayer] else [lru, ChainLayer]))
  {
    var lru := LruLayer(LruState(Empty(size), Empty(size)));
    assert CoherentLayer(w, lru);
  }
}
