/** Where subscriptions start: at the head of the moment, and nothing at or below it is ever sent. */
module Openings {
  import opened Basics
  import opened Heads
  import opened Deliveries
  import opened Subscriptions

  /** A new subscription starts at the head, with nothing done and no channel. */
  lemma OpensAtHead(s: System, k: int, kind: Kind, chain: ChainName)
    requires k !in s.subscribers
    ensures var s' := Step(s, Open(k, kind, chain));
      && k in s'.subscribers
      && s'.hub == s.hub && s'.writing == s.writing
      && s'.subscribers == s.subscribers[k := s'.subscribers[k]]
      && var sub := s'.subscribers[k];
        && sub.initial == HeadOf(s.hub, chain) && sub.current == HeadOf(s.hub, chain)
        && sub.kind == kind && sub.chain == chain && sub.phase == Opening
        && sub.attempted == [] && sub.received == [] && sub.failed == []
        && sub.ranges == [] && sub.due == [] && sub.sent == []
  {
  }

  /** Where it started, and what for, never changes. */
  lemma StartKept(s: System, e: Event, k: int)
    requires k in s.subscribers
    ensures k in Step(s, e).subscribers
    ensures var a, b := s.subscribers[k], Step(s, e).subscribers[k];
      b.initial == a.initial && b.kind == a.kind && b.chain == a.chain
  {
    hide Stop, Picked, Interval, SentCount;
  }

  lemma OnlyOpenAdds(s: System, e: Event, k: int)
    requires k !in s.subscribers && k in Step(s, e).subscribers
    ensures e.Open? && e.k == k
  {
  }

  /** The head of its chain when subscription `k` was opened. */
  ghost predicate OpenedAt(events: seq<Event>, k: int, chain: ChainName, head: int) {
    events != [] &&
    var front, e := events[..|events| - 1], events[|events| - 1];
    if k in Exec(front).subscribers then OpenedAt(front, k, chain, head)
    else e.Open? && e.k == k && e.chain == chain && head == HeadOf(Exec(front).hub, chain)
  }

  lemma {:induction false} InitialIsOpening(events: seq<Event>, k: int)
    requires k in Exec(events).subscribers
    ensures var sub := Exec(events).subscribers[k]; OpenedAt(events, k, sub.chain, sub.initial)
  {
    var front, e := events[..|events| - 1], events[|events| - 1];
    if k in Exec(front).subscribers {
      InitialIsOpening(front, k);
      StartKept(Exec(front), e, k);
    } else {
      OnlyOpenAdds(Exec(front), e, k);
      OpensAtHead(Exec(front), k, e.kind, e.chain);
    }
    hide Step;
  }

  lemma {:induction false} OpenedOnce(events: seq<Event>, k: int, c: ChainName, h: int, d: ChainName, i: int)
    requires OpenedAt(events, k, c, h) && OpenedAt(events, k, d, i)
    ensures c == d && h == i
  {
    var front := events[..|events| - 1];
    if k in Exec(front).subscribers {
      OpenedOnce(front, k, c, h, d, i);
    }
    hide Exec, HeadOf;
  }

  /** After any run, everything a subscription has attempted, sent or fetched lies above the head at which
      it was opened. */
  lemma {:induction false} NothingBeforeOpening(events: seq<Event>, k: int, chain: ChainName, head: int)
    requires k in Exec(events).subscribers && OpenedAt(events, k, chain, head)
    ensures var sub := Exec(events).subscribers[k];
      && sub.chain == chain && sub.initial == head
      && (sub.kind == NewHeads ==> forall n | n in sub.attempted || n in sub.received :: n > head)
      && (sub.kind == Logs ==> forall r | r in sub.ranges :: r.from > head)
  {
    var sub := Exec(events).subscribers[k];
    InitialIsOpening(events, k);
    OpenedOnce(events, k, chain, head, sub.chain, sub.initial);
    EveryRunOrderly(events);
    assert SubOk(Exec(events), k);
    if sub.kind == NewHeads {
      WithinMembers(sub.attempted, sub.initial, sub.current);
    } else {
      TilesAbove(sub.ranges, sub.initial, sub.current);
    }
    hide Exec, OpenedAt, Tiles, StrictlyAscending, Within;
  }

  /** A subscription that is opened, listening and told of one head without trouble has been sent exactly
      the blocks above the head at opening up to that one, or fetched exactly the logs of that range. */
  lemma OneDelivery(kind: Kind, chain: ChainName, head: int, next: int, t: Trouble)
    requires head <= next && t.fetchFails == {} && t.notifyFails == {} && t.logs.Some? && t.logFails == {}
    ensures var sub := After(Fresh(kind, chain, head), next, t);
      && sub.current == next
      && (kind == NewHeads ==> sub.received == Interval(head, next) && sub.attempted == Interval(head, next))
      && (kind == Logs ==> sub.ranges == [Range(head + 1, next)] && sub.sent == t.logs.value)
  {
    var start := Fresh(kind, chain, head);
    assert Interval(head, head) == [];
    assert [] + Interval(head, next) == Interval(head, next);
    if kind == NewHeads {
      AttemptsGapFreeIff(start, next, t);
      ReceivedAllStep(start, next, t);
    }
    hide Stop, Picked, BlocksOrderly;
  }
}
