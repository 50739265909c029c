/** Redihead: the latest head of each chain, and the channels that are told about new ones.
    The one writer first updates the head and then, in a separate step, tells the channels. */
module Heads {
  import opened Basics

  /** A channel holds one head at most, and is known by its chain and id. */
  type Channels = map<int, Option<int>>

  datatype Hub = Hub(head: map<ChainName, int>, subs: map<ChainName, Channels>, next: int)

  function HeadOf(hub: Hub, chain: ChainName): int {
    if chain in hub.head then hub.head[chain] else 0
  }

  function ChannelsOf(hub: Hub, chain: ChainName): Channels {
    if chain in hub.subs then hub.subs[chain] else map[]
  }

  function Updated(hub: Hub, chain: ChainName, head: int): Hub {
    if head <= HeadOf(hub, chain) then hub else hub.(head := hub.head[chain := head])
  }

  /** Ids not handed out yet are not in use. */
  ghost predicate IdsBelowNext(hub: Hub) {
    forall chain, id | chain in hub.subs && id in hub.subs[chain] :: id < hub.next
  }

  /** A full channel does not take the head. */
  function Offered(channel: Option<int>, head: int): Option<int> {
    if channel.Some? then channel else Some(head)
  }

  function AllOffered(channels: Channels, head: int): Channels {
    map id | id in channels :: Offered(channels[id], head)
  }

  function Published(hub: Hub, chain: ChainName, head: int): Hub {
    if chain in hub.subs then hub.(subs := hub.subs[chain := AllOffered(hub.subs[chain], head)]) else hub
  }

  function Registered(hub: Hub, chain: ChainName): Hub {
    hub.(next := hub.next + 1, subs := hub.subs[chain := ChannelsOf(hub, chain)[hub.next := None]])
  }

  function Cancelled(hub: Hub, chain: ChainName, id: int): Hub {
    if id in ChannelsOf(hub, chain) then hub.(subs := hub.subs[chain := hub.subs[chain] - {id}]) else hub
  }

  function Taken(hub: Hub, chain: ChainName, id: int): Hub {
    if id in ChannelsOf(hub, chain) then hub.(subs := hub.subs[chain := hub.subs[chain][id := None]]) else hub
  }

  /** The channels not in `todo` have been offered the head. */
  predicate OfferedExcept(channels: Channels, head: int, todo: set<int>, sent: Channels) {
    && todo <= channels.Keys && sent.Keys == channels.Keys
    && forall id | id in channels :: sent[id] == if id in todo then channels[id] else Offered(channels[id], head)
  }

  lemma EmptyOrNot(ids: set<int>)
    ensures ids == {} || exists id :: id in ids
  {
    if forall id :: id !in ids {
      assert ids == {};
    }
  }

  /** Iteration over a map is in no particular order. */
  method AnyOf(ids: set<int>) returns (id: int)
    requires ids != {}
    ensures id in ids
  {
    EmptyOrNot(ids);
    id :| id in ids;
  }

  lemma AllDone(channels: Channels, head: int, sent: Channels)
    requires OfferedExcept(channels, head, {}, sent)
    ensures sent == AllOffered(channels, head)
  {
    var all := AllOffered(channels, head);
    assert sent.Keys == all.Keys;
    forall id | id in sent ensures sent[id] == all[id] {
    }
  }

  // What each step does to the head of a chain and to one channel.

  /** Only a higher head of the chain itself changes what its head is; no channel changes. */
  lemma UpdatedIs(hub: Hub, chain: ChainName, head: int, c: ChainName)
    ensures var hub' := Updated(hub, chain, head);
      && HeadOf(hub', c) == (if c == chain && head > HeadOf(hub, c) then head else HeadOf(hub, c))
      && ChannelsOf(hub', c) == ChannelsOf(hub, c)
  {
  }

  /** A published head goes into the empty channels of its chain, and into no other. */
  lemma PublishedIs(hub: Hub, chain: ChainName, head: int, c: ChainName, id: int)
    ensures var hub' := Published(hub, chain, head);
      && HeadOf(hub', c) == HeadOf(hub, c)
      && (id in ChannelsOf(hub', c) <==> id in ChannelsOf(hub, c))
      && (id in ChannelsOf(hub, c) ==>
            ChannelsOf(hub', c)[id] ==
              (if c == chain && ChannelsOf(hub, c)[id] == None then Some(head) else ChannelsOf(hub, c)[id]))
  {
  }

  /** Registering adds one empty channel. */
  lemma RegisteredIs(hub: Hub, chain: ChainName, c: ChainName, id: int)
    ensures var hub' := Registered(hub, chain);
      && HeadOf(hub', c) == HeadOf(hub, c)
      && (id in ChannelsOf(hub', c) <==> id in ChannelsOf(hub, c) || (c == chain && id == hub.next))
      && (id in ChannelsOf(hub', c) ==>
            ChannelsOf(hub', c)[id] ==
              (if c == chain && id == hub.next then None else ChannelsOf(hub, c)[id]))
  {
  }

  /** Cancelling removes one channel. */
  lemma CancelledIs(hub: Hub, chain: ChainName, gone: int, c: ChainName, id: int)
    ensures var hub' := Cancelled(hub, chain, gone);
      && HeadOf(hub', c) == HeadOf(hub, c)
      && (id in ChannelsOf(hub', c) <==> id in ChannelsOf(hub, c) && !(c == chain && id == gone))
      && (id in ChannelsOf(hub', c) ==> ChannelsOf(hub', c)[id] == ChannelsOf(hub, c)[id])
  {
  }

  /** Receiving empties one channel. */
  lemma TakenIs(hub: Hub, chain: ChainName, from: int, c: ChainName, id: int)
    ensures var hub' := Taken(hub, chain, from);
      && HeadOf(hub', c) == HeadOf(hub, c)
      && (id in ChannelsOf(hub', c) <==> id in ChannelsOf(hub, c))
      && (id in ChannelsOf(hub, c) ==>
            ChannelsOf(hub', c)[id] ==
              (if c == chain && id == from then None else ChannelsOf(hub, c)[id]))
  {
  }

  class Redihead {
    var head: map<ChainName, int>
    var subs: map<ChainName, Channels>
    var next: int

    ghost function State(): Hub
      reads this
    {
      Hub(head, subs, next)
    }

    ghost predicate Valid()
      reads this
    {
      IdsBelowNext(State())
    }

    constructor ()
      ensures State() == Hub(map[], map[], 0) && Valid()
    {
      head, subs, next := map[], map[], 0;
    }

    method Get(chain: ChainName) returns (h: int)
      ensures h == HeadOf(State(), chain)
    {
      h := if chain in head then head[chain] else 0;
    }

    /** The first half of setHead, under the head lock; `publish` when the second half follows. */
    method UpdateHead(chain: ChainName, h: int) returns (publish: bool)
      modifies this`head
      ensures old(Valid()) ==> Valid()
      ensures State() == Updated(old(State()), chain, h)
      ensures publish <==> h > HeadOf(old(State()), chain)
    {
      var cur := if chain in head then head[chain] else 0;
      if h <= cur {
        return false;
      }
      head := head[chain := h];
      return true;
    }

    /** The second half of setHead, under the subscription lock. */
    method Publish(chain: ChainName, h: int)
      modifies this`subs
      ensures old(Valid()) ==> Valid()
      ensures State() == Published(old(State()), chain, h)
    {
      if chain !in subs {
        return;
      }
      var channels := subs[chain];
      var todo: set<int> := channels.Keys;
      var sent: Channels := channels;
      while todo != {}
        invariant subs == old(subs) && OfferedExcept(channels, h, todo, sent)
        decreases todo
      {
        var id := AnyOf(todo);
        if sent[id].None? {
          sent := sent[id := Some(h)];
        }
        todo := todo - {id};
      }
      AllDone(channels, h, sent);
      subs := subs[chain := sent];
    }

    /** A new channel, empty, under an id that no chain uses. */
    method On(chain: ChainName) returns (id: int)
      requires Valid()
      modifies this
      ensures Valid()
      ensures State() == Registered(old(State()), chain)
      ensures id == old(next) && forall c :: id !in ChannelsOf(old(State()), c)
    {
      id := next;
      next := next + 1;
      if chain !in subs {
        subs := subs[chain := map[]];
      }
      subs := subs[chain := subs[chain][id := None]];
    }

    method Cancel(chain: ChainName, id: int)
      modifies this`subs
      ensures old(Valid()) ==> Valid()
      ensures State() == Cancelled(old(State()), chain, id)
    {
      if chain in subs && id in subs[chain] {
        subs := subs[chain := subs[chain] - {id}];
      }
    }

    method Receive(chain: ChainName, id: int) returns (h: Option<int>)
      modifies this`subs
      ensures old(Valid()) ==> Valid()
      ensures State() == Taken(old(State()), chain, id)
      ensures h == if id in ChannelsOf(old(State()), chain) then ChannelsOf(old(State()), chain)[id] else None
    {
      if chain !in subs || id !in subs[chain] {
        return None;
      }
      h := subs[chain][id];
      subs := subs[chain := subs[chain][id := None]];
    }
  }
}
