/** What subscriptions promise their clients over whole runs, and exactly when they keep it. */
module Promises {
  import opened Basics
  import opened Heads
  import opened Deliveries
  import opened Subscriptions

  /** Every block since the start has been attempted; every one has been received; every log of the
      fetched ranges has been sent. */
  datatype Promise = NoGaps | AllBlocks | AllLogs

  predicate Concerns(p: Promise, kind: Kind) {
    p.AllLogs? <==> kind == Logs
  }

  predicate Kept(sub: Subscriber, p: Promise) {
    match p
    case NoGaps => GapFree(sub)
    case AllBlocks => ReceivedAll(sub)
    case AllLogs => sub.sent == sub.due
  }

  /** The trouble that breaks a promise while a subscription at `current` deals with `head`. */
  predicate Fatal(current: int, head: int, t: Trouble, p: Promise) {
    match p
    case NoGaps => BreaksBefore(current, head, t.fetchFails, t.notifyFails)
    case AllBlocks => FailsUpTo(current, head, t)
    case AllLogs => DropsLog(t)
  }

  /** A head is delivered to `k` with such trouble. */
  predicate Breaks(s: System, e: Event, k: int, p: Promise) {
    && e.Deliver? && e.k == k && k in s.subscribers && Pending(s, s.subscribers[k]).Some?
    && Fatal(s.subscribers[k].current, Pending(s, s.subscribers[k]).value, e.trouble, p)
  }

  lemma DeliveryKeptIff(sub: Subscriber, head: int, t: Trouble, p: Promise)
    requires Orderly(sub) && sub.current <= head && Concerns(p, sub.kind)
    ensures Kept(After(sub, head, t), p) <==> Kept(sub, p) && !Fatal(sub.current, head, t, p)
  {
    match p
    case NoGaps => AttemptsGapFreeIff(sub, head, t);
    case AllBlocks => ReceivedAllStep(sub, head, t);
    case AllLogs => LogsSentStep(sub, head, t);
    hide BlocksOrderly, LogsOrderly, GapFree, ReceivedAll, BreaksBefore, FailsUpTo, DropsLog, AfterBlocks, AfterLogs;
  }

  lemma StepKeptIff(s: System, e: Event, k: int, p: Promise)
    requires Invariant(s) && k in s.subscribers && Concerns(p, s.subscribers[k].kind)
    ensures k in Step(s, e).subscribers && Step(s, e).subscribers[k].kind == s.subscribers[k].kind
    ensures Kept(Step(s, e).subscribers[k], p) <==> Kept(s.subscribers[k], p) && !Breaks(s, e, k, p)
  {
    var sub := s.subscribers[k];
    assert SubOk(s, k);
    if e.Deliver? && e.k == k && Pending(s, sub).Some? {
      DeliveryKeptIff(sub, Pending(s, sub).value, e.trouble, p);
    }
    hide Orderly, After, Fatal, GapFree, ReceivedAll;
    if e.Register? || e.Close? {
      assert Kept(Step(s, e).subscribers[k], p) == Kept(sub, p) by {
        PhaseIrrelevant(sub, Step(s, e).subscribers[k].phase, p);
      }
    }
  }

  lemma PhaseIrrelevant(sub: Subscriber, phase: Phase, p: Promise)
    ensures Kept(sub.(phase := phase), p) == Kept(sub, p)
  {
  }

  predicate NeverBroken(events: seq<Event>, k: int, p: Promise) {
    events != [] ==>
      var front := events[..|events| - 1];
      NeverBroken(front, k, p) && !Breaks(Exec(front), events[|events| - 1], k, p)
  }

  lemma {:induction false} NotYetBroken(events: seq<Event>, k: int, p: Promise)
    requires k !in Exec(events).subscribers
    ensures NeverBroken(events, k, p)
  {
    if events != [] {
      StillThere(Exec(events[..|events| - 1]), events[|events| - 1], k);
      NotYetBroken(events[..|events| - 1], k, p);
    }
    hide Step;
  }

  lemma StillThere(s: System, e: Event, k: int)
    ensures k in s.subscribers ==> k in Step(s, e).subscribers
    ensures k !in s.subscribers && k in Step(s, e).subscribers ==>
      var sub := Step(s, e).subscribers[k]; sub == Fresh(sub.kind, sub.chain, sub.current)
  {
  }

  lemma FreshKeeps(sub: Subscriber, p: Promise)
    requires sub == Fresh(sub.kind, sub.chain, sub.current)
    ensures Kept(sub, p)
  {
  }

  /** However many heads were dropped and however steps interleave, a promise to a subscriber has been
      kept exactly when no delivery to it met trouble that is fatal for it: for the attempts a fetched
      block before the head whose notification fails, for the blocks received any failed fetch or
      notification up to the head, and for the logs a failed notification. */
  lemma {:induction false} KeptIff(events: seq<Event>, k: int, p: Promise)
    requires k in Exec(events).subscribers && Concerns(p, Exec(events).subscribers[k].kind)
    ensures Kept(Exec(events).subscribers[k], p) <==> NeverBroken(events, k, p)
  {
    var front, e := events[..|events| - 1], events[|events| - 1];
    if k in Exec(front).subscribers {
      EveryRunOrderly(front);
      KindKept(Exec(front), e, k);
      KeptIff(front, k, p);
      StepKeptIff(Exec(front), e, k, p);
    } else {
      NotYetBroken(front, k, p);
      StillThere(Exec(front), e, k);
      FreshKeeps(Exec(events).subscribers[k], p);
    }
    hide Step, Kept, Invariant, Fatal;
  }

  lemma KindKept(s: System, e: Event, k: int)
    requires k in s.subscribers
    ensures k in Step(s, e).subscribers && Step(s, e).subscribers[k].kind == s.subscribers[k].kind
  {
  }

  // Concrete runs.

  lemma ExecStep(events: seq<Event>, e: Event)
    ensures Exec(events + [e]) == Step(Exec(events), e)
  {
    assert (events + [e])[..|events|] == events;
  }

  /** A subscriber that has registered before anything happened. */
  lemma Registered0(chain: ChainName, kind: Kind)
    ensures Exec([Open(0, kind, chain), Register(0)])
      == System(Hub(map[], map[chain := map[0 := None]], 1), None,
                map[0 := Fresh(kind, chain, 0).(phase := Listening(0))])
  {
    var e0, e1 := Open(0, kind, chain), Register(0);
    ExecStep([], e0);
    assert [] + [e0] == [e0];
    assert Exec([e0]) == System(Hub(map[], map[], 0), None, map[0 := Fresh(kind, chain, 0)]);
    ExecStep([e0], e1);
    assert [e0] + [e1] == [e0, e1];
    var hub: Hub := Hub(map[], map[], 0);
    assert Registered(hub, chain).subs == map[chain := map[0 := None]];
    assert Exec([e0, e1]).hub == Registered(hub, chain);
    assert Exec([e0, e1]).subscribers == map[0 := Fresh(kind, chain, 0).(phase := Listening(0))];
  }

  /** ... and then a head has been published to it. */
  lemma PublishedTo0(chain: ChainName, kind: Kind, head: int)
    requires head > 0
    ensures Exec([Open(0, kind, chain), Register(0), Update(chain, head), Publish])
      == System(Hub(map[chain := head], map[chain := map[0 := Some(head)]], 1), None,
                map[0 := Fresh(kind, chain, 0).(phase := Listening(0))])
  {
    var e0, e1, e2 := Open(0, kind, chain), Register(0), Update(chain, head);
    Registered0(chain, kind);
    hide Exec;
    ExecStep([e0, e1], e2);
    assert [e0, e1] + [e2] == [e0, e1, e2];
    ExecStep([e0, e1, e2], Publish);
    assert [e0, e1, e2] + [Publish] == [e0, e1, e2, Publish];
    var hub: Hub := Hub(map[chain := head], map[chain := map[0 := None]], 1);
    assert Exec([e0, e1, e2]).hub == hub;
    assert AllOffered(map[0 := None], head) == map[0 := Some(head)];
    assert Published(hub, chain, head).subs == map[chain := map[0 := Some(head)]];
  }

  /** A failed notification leaves a gap: the loop over blocks 1 to 3 ends at 1, and 3 is taken as done. */
  lemma FailedNotificationLeavesGap(chain: ChainName)
    ensures
      var run := [Open(0, NewHeads, chain), Register(0), Update(chain, 3), Publish,
                  Deliver(0, Trouble({}, {1}, None, {}))];
      var s := Exec(run);
      && 0 in s.subscribers && s.subscribers[0].current == 3
      && s.subscribers[0].attempted == [1] && s.subscribers[0].received == []
  {
    var e0, e1, e2 := Open(0, NewHeads, chain), Register(0), Update(chain, 3);
    var t := Trouble({}, {1}, None, {});
    PublishedTo0(chain, NewHeads, 3);
    hide Exec;
    ExecStep([e0, e1, e2, Publish], Deliver(0, t));
    assert [e0, e1, e2, Publish] + [Deliver(0, t)] == [e0, e1, e2, Publish, Deliver(0, t)];
    assert Stop(0, 3, {}, {1}) == 1;
    assert Picked(0, 0, {1}, false) == [];
  }

  /** A failed notification loses the logs after it: of two fetched logs none is sent, and their block is
      taken as done. */
  lemma FailedNotificationLosesLogs(chain: ChainName)
    ensures
      var run := [Open(0, Logs, chain), Register(0), Update(chain, 1), Publish,
                  Deliver(0, Trouble({}, {}, Some([10, 11]), {0}))];
      var s := Exec(run);
      && 0 in s.subscribers && s.subscribers[0].current == 1
      && s.subscribers[0].due == [10, 11] && s.subscribers[0].sent == []
  {
    var e0, e1, e2 := Open(0, Logs, chain), Register(0), Update(chain, 1);
    var t := Trouble({}, {}, Some([10, 11]), {0});
    PublishedTo0(chain, Logs, 1);
    hide Exec;
    ExecStep([e0, e1, e2, Publish], Deliver(0, t));
    assert [e0, e1, e2, Publish] + [Deliver(0, t)] == [e0, e1, e2, Publish, Deliver(0, t)];
    assert SentCount(2, {0}, 0) == 0;
  }

  /** A head that is dropped waits for the next one: here nothing is pending or being written, and
      the subscription has not heard of the head. */
  lemma DroppedHeadWaits(chain: ChainName)
    ensures
      var run := [Open(0, NewHeads, chain), Register(0), Update(chain, 1), Publish]
        + [Update(chain, 2)] + [Publish] + [Deliver(0, Trouble({}, {}, None, {}))];
      var s := Exec(run);
      && 0 in s.subscribers && s.subscribers[0].phase.Listening?
      && HeadOf(s.hub, chain) == 2 && s.subscribers[0].current == 1
      && Pending(s, s.subscribers[0]) == None && s.writing == None
  {
    var before := [Open(0, NewHeads, chain), Register(0), Update(chain, 1), Publish];
    var e, t := Update(chain, 2), Trouble({}, {}, None, {});
    PublishedTo0(chain, NewHeads, 1);
    hide Exec;
    ExecStep(before, e);
    ExecStep(before + [e], Publish);
    ExecStep(before + [e] + [Publish], Deliver(0, t));
    hide After;
  }
}
