/** Subcenter: newHeads and logs subscriptions, running beside the writer of heads and each other.
    Each step of a run is one locked section of the head store, except Deliver: that is one channel
    receive and all the work on the received head. The work touches nothing but the subscription's own
    variables and the client, which no other step reads, so steps that really happen during it can be
    ordered after it without changing what anybody sees. */
module Subscriptions {
  import opened Basics
  import opened Heads
  import opened Deliveries

  datatype Write = Write(chain: ChainName, head: int)

  datatype System = System(hub: Hub, writing: Option<Write>, subscribers: map<int, Subscriber>)

  datatype Event =
    | Update(chain: ChainName, head: int)
    | Publish
    | Open(k: int, kind: Kind, chain: ChainName)
    | Register(k: int)
    | Deliver(k: int, trouble: Trouble)
    | Close(k: int)

  function PendingAt(hub: Hub, sub: Subscriber): Option<int> {
    if sub.phase.Listening? && sub.phase.id in ChannelsOf(hub, sub.chain)
    then ChannelsOf(hub, sub.chain)[sub.phase.id] else None
  }

  function Pending(s: System, sub: Subscriber): Option<int> {
    PendingAt(s.hub, sub)
  }

  /** Receiving from an empty channel leaves everything as it is. */
  lemma NothingTaken(hub: Hub, sub: Subscriber)
    requires sub.phase.Listening? && PendingAt(hub, sub).None?
    ensures Taken(hub, sub.chain, sub.phase.id) == hub
  {
    if sub.phase.id in ChannelsOf(hub, sub.chain) {
      var channels := hub.subs[sub.chain];
      assert channels[sub.phase.id := None] == channels;
      assert hub.subs[sub.chain := channels] == hub.subs;
    }
  }

  /** One subscription of one client. */
  class Subscription {
    const store: Redihead
    const kind: Kind
    const chain: ChainName
    const initial: int
    var current: int
    var attempted: seq<int>
    var received: seq<int>
    var failed: seq<int>
    var ranges: seq<Range>
    var due: seq<int>
    var sent: seq<int>
    var phase: Phase

    ghost function State(): Subscriber
      reads this
    {
      Subscriber(kind, chain, initial, current, attempted, received, failed, ranges, due, sent, phase)
    }

    constructor (store: Redihead, kind: Kind, chain: ChainName)
      ensures this.store == store
      ensures State() == Fresh(kind, chain, HeadOf(store.State(), chain))
    {
      var head := store.Get(chain);
      this.store, this.kind, this.chain, initial := store, kind, chain, head;
      current, phase := head, Opening;
      attempted, received, failed, ranges, due, sent := [], [], [], [], [], [];
    }

    method Register()
      requires store.Valid()
      modifies this`phase, store
      ensures store.Valid() && store.State() == Registered(old(store.State()), chain)
      ensures State() == old(State()).(phase := Listening(old(store.next)))
      ensures forall c :: phase.id !in ChannelsOf(old(store.State()), c)
    {
      var id := store.On(chain);
      phase := Listening(id);
    }

    /** One round of the event loop in which a head can be received. */
    method Deliver(trouble: Trouble)
      requires phase.Listening?
      modifies this, store
      ensures store.State() == Taken(old(store.State()), chain, old(phase.id))
      ensures
        var head := PendingAt(old(store.State()), old(State()));
        State() == if head.None? then old(State()) else After(old(State()), head.value, trouble)
    {
      var head := store.Receive(chain, phase.id);
      if head.None? {
        return;
      }
      match kind {
        case NewHeads =>
          var tried, got, lost := AnnounceBlocks(current, head.value, trouble.fetchFails, trouble.notifyFails);
          attempted, received, failed := attempted + tried, received + got, failed + lost;
          current := head.value;
        case Logs =>
          if trouble.logs.None? {
            return;
          }
          var done := AnnounceLogs(trouble.logs.value, trouble.logFails);
          ranges := ranges + [Range(current + 1, head.value)];
          due, sent := due + trouble.logs.value, sent + done;
          current := head.value;
      }
    }

    method Close()
      requires phase.Listening?
      modifies this`phase, store
      ensures store.State() == Cancelled(old(store.State()), chain, old(phase.id))
      ensures State() == old(State()).(phase := Closed)
    {
      store.Cancel(chain, phase.id);
      phase := Closed;
    }
  }

  /** A Deliver step is what the method Deliver does, whether or not a head is pending. */
  lemma DeliverIsStep(s: System, k: int, trouble: Trouble)
    requires k in s.subscribers && s.subscribers[k].phase.Listening?
    ensures
      var sub := s.subscribers[k];
      var head := PendingAt(s.hub, sub);
      var sub' := if head.None? then sub else After(sub, head.value, trouble);
      Step(s, Deliver(k, trouble))
        == s.(hub := Taken(s.hub, sub.chain, sub.phase.id), subscribers := s.subscribers[k := sub'])
  {
    var sub := s.subscribers[k];
    if PendingAt(s.hub, sub).None? {
      NothingTaken(s.hub, sub);
      assert s.subscribers[k := sub] == s.subscribers;
    }
  }

  function Step(s: System, e: Event): System {
    match e
    case Update(chain, head) =>
      if s.writing.Some? || head <= HeadOf(s.hub, chain) then s
      else s.(hub := Updated(s.hub, chain, head), writing := Some(Write(chain, head)))
    case Publish =>
      if s.writing.None? then s
      else s.(hub := Published(s.hub, s.writing.value.chain, s.writing.value.head), writing := None)
    case Open(k, kind, chain) =>
      if k in s.subscribers then s
      else
        var head := HeadOf(s.hub, chain);
        s.(subscribers := s.subscribers[k := Fresh(kind, chain, head)])
    case Register(k) =>
      if k !in s.subscribers || !s.subscribers[k].phase.Opening? then s
      else
        var sub := s.subscribers[k];
        s.(hub := Registered(s.hub, sub.chain),
           subscribers := s.subscribers[k := sub.(phase := Listening(s.hub.next))])
    case Deliver(k, trouble) =>
      if k !in s.subscribers || Pending(s, s.subscribers[k]).None? then s
      else
        var sub := s.subscribers[k];
        s.(hub := Taken(s.hub, sub.chain, sub.phase.id),
           subscribers := s.subscribers[k := After(sub, Pending(s, sub).value, trouble)])
    case Close(k) =>
      if k !in s.subscribers || !s.subscribers[k].phase.Listening? then s
      else
        var sub := s.subscribers[k];
        s.(hub := Cancelled(s.hub, sub.chain, sub.phase.id),
           subscribers := s.subscribers[k := sub.(phase := Closed)])
  }

  const START: System := System(Hub(map[], map[], 0), None, map[])

  function Exec(events: seq<Event>): System {
    if events == [] then START else Step(Exec(events[..|events| - 1]), events[|events| - 1])
  }

  // What every run keeps.

  /** A subscription is never ahead of what is about to reach it, and that never of the head. */
  predicate InStep(s: System, sub: Subscriber) {
    && sub.current <= HeadOf(s.hub, sub.chain)
    && (Pending(s, sub).Some? ==> sub.current <= Pending(s, sub).value <= HeadOf(s.hub, sub.chain))
    && (sub.phase.Listening? ==> sub.phase.id < s.hub.next && sub.phase.id in ChannelsOf(s.hub, sub.chain))
  }

  ghost predicate SubOk(s: System, k: int)
    requires k in s.subscribers
  {
    Orderly(s.subscribers[k]) && InStep(s, s.subscribers[k])
  }

  /** Two subscriptions never listen on one channel. */
  ghost predicate OwnChannel(s: System, k: int, l: int)
    requires k in s.subscribers && l in s.subscribers
  {
    var a, b := s.subscribers[k].phase, s.subscribers[l].phase;
    k != l && a.Listening? && b.Listening? ==> a.id != b.id
  }

  ghost predicate Invariant(s: System) {
    && (s.writing.Some? ==> s.writing.value.head == HeadOf(s.hub, s.writing.value.chain))
    && (forall k | k in s.subscribers :: SubOk(s, k))
    && (forall k, l | k in s.subscribers && l in s.subscribers :: OwnChannel(s, k, l))
  }

  lemma UpdateKeeps(s: System, chain: ChainName, head: int)
    requires Invariant(s)
    ensures Invariant(Step(s, Update(chain, head)))
  {
    var s' := Step(s, Update(chain, head));
    forall k | k in s'.subscribers ensures SubOk(s', k) {
      assert SubOk(s, k);
      assert ChannelsOf(s'.hub, s.subscribers[k].chain) == ChannelsOf(s.hub, s.subscribers[k].chain);
    }
    hide Orderly, ChannelsOf;
  }

  lemma PublishKeeps(s: System)
    requires Invariant(s)
    ensures Invariant(Step(s, Publish))
  {
    var s' := Step(s, Publish);
    forall k | k in s'.subscribers ensures SubOk(s', k) {
      assert SubOk(s, k);
    }
    hide Orderly;
  }

  lemma RegisterKeepsSub(s: System, k: int, l: int)
    requires k in s.subscribers && s.subscribers[k].phase.Opening? && l in s.subscribers
    requires SubOk(s, k) && SubOk(s, l)
    ensures SubOk(Step(s, Register(k)), l)
  {
    PhaseKeepsOrderly(s.subscribers[l], Listening(s.hub.next));
    hide Orderly;
  }

  lemma RegisterKeeps(s: System, k: int)
    requires Invariant(s)
    ensures Invariant(Step(s, Register(k)))
  {
    var s' := Step(s, Register(k));
    if k in s.subscribers && s.subscribers[k].phase.Opening? {
      forall l | l in s'.subscribers ensures SubOk(s', l) {
        RegisterKeepsSub(s, k, l);
      }
      forall l, m | l in s'.subscribers && m in s'.subscribers ensures OwnChannel(s', l, m) {
        assert SubOk(s, l) && SubOk(s, m) && OwnChannel(s, l, m);
      }
    }
    hide Orderly, SubOk, Registered;
  }

  lemma DeliverKeepsSub(s: System, k: int, trouble: Trouble, l: int)
    requires k in s.subscribers && l in s.subscribers && Pending(s, s.subscribers[k]).Some?
    requires SubOk(s, k) && SubOk(s, l)
    ensures SubOk(Step(s, Deliver(k, trouble)), l)
  {
    if l == k {
      AfterOrderly(s.subscribers[k], Pending(s, s.subscribers[k]).value, trouble);
    }
    hide Orderly, AfterBlocks, AfterLogs;
  }

  lemma DeliverKeeps(s: System, k: int, trouble: Trouble)
    requires Invariant(s)
    ensures Invariant(Step(s, Deliver(k, trouble)))
  {
    var s' := Step(s, Deliver(k, trouble));
    if k in s.subscribers && Pending(s, s.subscribers[k]).Some? {
      forall l | l in s'.subscribers ensures SubOk(s', l) {
        DeliverKeepsSub(s, k, trouble, l);
      }
      forall l, m | l in s'.subscribers && m in s'.subscribers ensures OwnChannel(s', l, m) {
        assert OwnChannel(s, l, m);
      }
    }
    hide SubOk, Taken, AfterBlocks, AfterLogs;
  }

  lemma CloseKeepsSub(s: System, k: int, l: int)
    requires k in s.subscribers && l in s.subscribers && s.subscribers[k].phase.Listening?
    requires SubOk(s, k) && SubOk(s, l) && OwnChannel(s, k, l)
    ensures SubOk(Step(s, Close(k)), l)
  {
    PhaseKeepsOrderly(s.subscribers[l], Closed);
    hide Orderly;
  }

  lemma CloseKeeps(s: System, k: int)
    requires Invariant(s)
    ensures Invariant(Step(s, Close(k)))
  {
    var s' := Step(s, Close(k));
    if k in s.subscribers && s.subscribers[k].phase.Listening? {
      forall l | l in s'.subscribers ensures SubOk(s', l) {
        CloseKeepsSub(s, k, l);
      }
      forall l, m | l in s'.subscribers && m in s'.subscribers ensures OwnChannel(s', l, m) {
        assert OwnChannel(s, l, m);
      }
    }
    hide SubOk, Cancelled;
  }

  lemma OpenKeeps(s: System, k: int, kind: Kind, chain: ChainName)
    requires Invariant(s)
    ensures Invariant(Step(s, Open(k, kind, chain)))
  {
    var s' := Step(s, Open(k, kind, chain));
    forall l | l in s'.subscribers ensures SubOk(s', l) {
      if l in s.subscribers {
        assert SubOk(s, l);
      }
    }
  }

  lemma StepKeeps(s: System, e: Event)
    requires Invariant(s)
    ensures Invariant(Step(s, e))
  {
    match e
    case Update(chain, head) => UpdateKeeps(s, chain, head);
    case Publish => PublishKeeps(s);
    case Open(k, kind, chain) => OpenKeeps(s, k, kind, chain);
    case Register(k) => RegisterKeeps(s, k);
    case Deliver(k, trouble) => DeliverKeeps(s, k, trouble);
    case Close(k) => CloseKeeps(s, k);
    hide Invariant, Step;
  }

  /** Every interleaving: heads published are current, deliveries are never behind a subscription,
      blocks are attempted once and in order, and fetched log ranges tile what is covered. */
  lemma {:induction false} EveryRunOrderly(events: seq<Event>)
    ensures Invariant(Exec(events))
  {
    if events != [] {
      EveryRunOrderly(events[..|events| - 1]);
      StepKeeps(Exec(events[..|events| - 1]), events[|events| - 1]);
    }
  }
}
