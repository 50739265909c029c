/** Subcenter: what a newHeads or logs subscription does with one received head. */
module Deliveries {
  import opened Basics

  /** The numbers a + 1, ..., b. */
  function Interval(a: int, b: int): seq<int>
    requires a <= b
  {
    seq(b - a, i requires 0 <= i < b - a => a + 1 + i)
  }

  // Blocks.

  /** Where the loop over current + 1..head ends: at the first block whose notification fails
      (after it could be fetched), or at the head. */
  function Stop(current: int, head: int, fetchFails: set<int>, notifyFails: set<int>): (stop: int)
    ensures current <= stop && (stop <= head || stop == current)
    ensures current < head ==> current < stop
    ensures forall n | current < n < stop :: n in fetchFails || n !in notifyFails
    ensures stop < head ==> stop !in fetchFails && stop in notifyFails
    decreases head - current
  {
    if current >= head then current
    else if current + 1 !in fetchFails && current + 1 in notifyFails then current + 1
    else Stop(current + 1, head, fetchFails, notifyFails)
  }

  lemma {:induction false} StopFrom(current: int, i: int, head: int, fetchFails: set<int>, notifyFails: set<int>)
    requires current <= i && i <= head
    requires forall n | current < n <= i :: n in fetchFails || n !in notifyFails
    ensures Stop(current, head, fetchFails, notifyFails) == Stop(i, head, fetchFails, notifyFails)
    decreases i - current
  {
    if current < i {
      StopFrom(current + 1, i, head, fetchFails, notifyFails);
    }
  }

  /** A block before the head that can be fetched and whose notification fails. */
  predicate BreaksBefore(current: int, head: int, fetchFails: set<int>, notifyFails: set<int>) {
    exists n | n in notifyFails :: current < n < head && n !in fetchFails
  }

  /** The loop ends before the head exactly when such a block exists. */
  lemma {:induction false} StopsShortIff(current: int, head: int, fetchFails: set<int>, notifyFails: set<int>)
    requires current <= head
    ensures Stop(current, head, fetchFails, notifyFails) < head
      <==> BreaksBefore(current, head, fetchFails, notifyFails)
    decreases head - current
  {
    if current < head && (current + 1 in fetchFails || current + 1 !in notifyFails) {
      StopsShortIff(current + 1, head, fetchFails, notifyFails);
    }
  }

  /** The blocks among current + 1, ..., stop that are in `fails`, or those that are not. */
  function Picked(current: int, stop: int, fails: set<int>, failed: bool): seq<int>
    requires current <= stop
    decreases stop - current
  {
    if stop == current then []
    else
      var before := Picked(current, stop - 1, fails, failed);
      if (stop in fails) == failed then before + [stop] else before
  }

  predicate Within(s: seq<int>, a: int, b: int) {
    forall i | 0 <= i < |s| :: a < s[i] <= b
  }

  lemma {:induction false} PickedMembers(current: int, stop: int, fails: set<int>, failed: bool)
    requires current <= stop
    ensures StrictlyAscending(Picked(current, stop, fails, failed))
    ensures Within(Picked(current, stop, fails, failed), current, stop)
    ensures forall n :: n in Picked(current, stop, fails, failed) <==> current < n <= stop && (n in fails) == failed
    decreases stop - current
  {
    if current < stop {
      PickedMembers(current, stop - 1, fails, failed);
    }
  }

  /** The loop of a newHeads subscription over one received head. */
  method AnnounceBlocks(current: int, head: int, fetchFails: set<int>, notifyFails: set<int>)
    returns (attempted: seq<int>, received: seq<int>, failed: seq<int>)
    ensures var stop, fails := Stop(current, head, fetchFails, notifyFails), fetchFails + notifyFails;
      && attempted == Interval(current, stop)
      && received == Picked(current, stop, fails, false)
      && failed == Picked(current, stop, fails, true)
  {
    attempted, received, failed := [], [], [];
    var i := current + 1;
    while i <= head
      invariant current < i && (i <= head + 1 || i == current + 1)
      invariant forall n | current < n < i :: n in fetchFails || n !in notifyFails
      invariant attempted == Interval(current, i - 1)
      invariant received == Picked(current, i - 1, fetchFails + notifyFails, false)
      invariant failed == Picked(current, i - 1, fetchFails + notifyFails, true)
    {
      StopFrom(current, i - 1, head, fetchFails, notifyFails);
      attempted := attempted + [i];
      if i in fetchFails {
        failed := failed + [i];
      } else if i in notifyFails {
        failed := failed + [i];
        break;
      } else {
        received := received + [i];
      }
      i := i + 1;
    }
    if head < i && current <= head {
      StopFrom(current, head, head, fetchFails, notifyFails);
    }
  }

  // Logs.

  /** The index of the first notification that fails, from `i` on, or the number of logs. */
  function SentCount(n: int, fails: set<int>, i: int): (count: int)
    requires 0 <= i <= n
    ensures i <= count <= n
    ensures forall j | i <= j < count :: j !in fails
    ensures count < n ==> count in fails
    decreases n - i
  {
    if i == n || i in fails then i else SentCount(n, fails, i + 1)
  }

  /** All logs of a batch are sent exactly when none of its notifications fails. */
  lemma {:induction false} SentAllIff(n: int, fails: set<int>, i: int)
    requires 0 <= i <= n
    ensures SentCount(n, fails, i) < n <==> exists j | j in fails :: i <= j < n
    decreases n - i
  {
    if i < n && i !in fails {
      SentAllIff(n, fails, i + 1);
    }
  }

  /** The loop of a logs subscription over one fetched batch: a failed notification ends it. */
  method AnnounceLogs(logs: seq<int>, fails: set<int>) returns (sent: seq<int>)
    ensures sent == logs[..SentCount(|logs|, fails, 0)]
  {
    sent := [];
    for i := 0 to |logs|
      invariant sent == logs[..i]
      invariant SentCount(|logs|, fails, 0) == SentCount(|logs|, fails, i)
    {
      if i in fails {
        return;
      }
      sent := sent + [logs[i]];
    }
  }

  // A subscription.

  datatype Range = Range(from: int, to: int)

  datatype Kind = NewHeads | Logs

  datatype Phase = Opening | Listening(id: int) | Closed

  /** What fails while one head is dealt with: fetches and notifications of blocks; and the logs fetched,
      if they could be, with the indices of those whose notification fails. */
  datatype Trouble = Trouble(fetchFails: set<int>, notifyFails: set<int>, logs: Option<seq<int>>, logFails: set<int>)

  /** For newHeads, the blocks a subscription tried to send, those the client received and those lost to a
      failed fetch or notification. For logs, the block ranges fetched, their logs, and those sent. */
  datatype Subscriber = Subscriber(kind: Kind, chain: ChainName, initial: int, current: int,
                                   attempted: seq<int>, received: seq<int>, failed: seq<int>,
                                   ranges: seq<Range>, due: seq<int>, sent: seq<int>, phase: Phase)

  function Fresh(kind: Kind, chain: ChainName, head: int): Subscriber {
    Subscriber(kind, chain, head, head, [], [], [], [], [], [], Opening)
  }

  function AfterBlocks(sub: Subscriber, head: int, t: Trouble): Subscriber {
    var stop, fails := Stop(sub.current, head, t.fetchFails, t.notifyFails), t.fetchFails + t.notifyFails;
    sub.(attempted := sub.attempted + Interval(sub.current, stop),
         received := sub.received + Picked(sub.current, stop, fails, false),
         failed := sub.failed + Picked(sub.current, stop, fails, true),
         current := head)
  }

  function AfterLogs(sub: Subscriber, head: int, t: Trouble): Subscriber {
    if t.logs.None? then sub
    else
      var logs := t.logs.value;
      sub.(ranges := sub.ranges + [Range(sub.current + 1, head)],
           due := sub.due + logs,
           sent := sub.sent + logs[..SentCount(|logs|, t.logFails, 0)],
           current := head)
  }

  /** A subscription after it has dealt with a received head. */
  function After(sub: Subscriber, head: int, t: Trouble): Subscriber {
    if sub.kind == NewHeads then AfterBlocks(sub, head, t) else AfterLogs(sub, head, t)
  }

  /** Consecutive ranges that start after `a` and end with `b`. */
  predicate Tiles(ranges: seq<Range>, a: int, b: int) {
    if ranges == [] then a == b
    else
      var last := ranges[|ranges| - 1];
      last.to == b && last.from <= last.to + 1 && Tiles(ranges[..|ranges| - 1], a, last.from - 1)
  }

  /** Each attempted block is either received or failed, once, and in order. */
  ghost predicate BlocksOrderly(sub: Subscriber) {
    && StrictlyAscending(sub.attempted) && Within(sub.attempted, sub.initial, sub.current)
    && StrictlyAscending(sub.received) && StrictlyAscending(sub.failed)
    && (forall n :: n in sub.attempted <==> n in sub.received || n in sub.failed)
    && (forall n | n in sub.received :: n !in sub.failed)
  }

  ghost predicate LogsOrderly(sub: Subscriber) {
    Tiles(sub.ranges, sub.initial, sub.current) && |sub.sent| <= |sub.due|
  }

  /** What one subscription has done so far is in order. */
  ghost predicate Orderly(sub: Subscriber) {
    && sub.initial <= sub.current
    && (sub.kind == NewHeads ==> BlocksOrderly(sub))
    && (sub.kind == Logs ==> LogsOrderly(sub))
  }

  lemma PhaseKeepsOrderly(sub: Subscriber, phase: Phase)
    requires Orderly(sub)
    ensures Orderly(sub.(phase := phase))
  {
  }

  lemma AscendingAppend(s: seq<int>, t: seq<int>, a: int, b: int)
    requires StrictlyAscending(s) && StrictlyAscending(t)
    requires (forall n | n in s :: n <= a) && Within(t, a, b)
    ensures StrictlyAscending(s + t)
  {
    assert forall i | 0 <= i < |s| :: s[i] in s;
  }

  lemma WithinMembers(s: seq<int>, a: int, b: int)
    requires Within(s, a, b)
    ensures forall n | n in s :: a < n <= b
  {
  }

  lemma AfterBlocksOrderly(sub: Subscriber, head: int, t: Trouble)
    requires BlocksOrderly(sub) && sub.initial <= sub.current <= head
    ensures BlocksOrderly(AfterBlocks(sub, head, t))
  {
    var a, stop := sub.current, Stop(sub.current, head, t.fetchFails, t.notifyFails);
    var fails := t.fetchFails + t.notifyFails;
    var tried, got, lost := Interval(a, stop), Picked(a, stop, fails, false), Picked(a, stop, fails, true);
    IntervalMembers(a, stop);
    PickedMembers(a, stop, fails, false);
    PickedMembers(a, stop, fails, true);
    WithinMembers(sub.attempted, sub.initial, a);
    AscendingAppend(sub.attempted, tried, a, stop);
    AscendingAppend(sub.received, got, a, stop);
    AscendingAppend(sub.failed, lost, a, stop);
    hide Interval, Picked, Stop, StrictlyAscending;
  }

  lemma IntervalMembers(a: int, b: int)
    requires a <= b
    ensures StrictlyAscending(Interval(a, b)) && Within(Interval(a, b), a, b)
    ensures forall n :: n in Interval(a, b) <==> a < n <= b
  {
    forall n | a < n <= b ensures n in Interval(a, b) {
      assert Interval(a, b)[n - a - 1] == n;
    }
  }

  lemma AfterOrderly(sub: Subscriber, head: int, t: Trouble)
    requires Orderly(sub) && sub.current <= head
    ensures Orderly(After(sub, head, t)) && After(sub, head, t).current <= head
  {
    if sub.kind == NewHeads {
      AfterBlocksOrderly(sub, head, t);
    } else if t.logs.Some? {
      var ranges := After(sub, head, t).ranges;
      assert ranges[..|ranges| - 1] == sub.ranges;
    }
    hide BlocksOrderly, Stop, Picked, Interval, SentCount;
  }

  predicate Holds(r: Range, n: int) {
    r.from <= n <= r.to
  }

  ghost predicate Covered(ranges: seq<Range>, n: int) {
    exists r :: r in ranges && Holds(r, n)
  }

  lemma {:induction false} TilesCover(ranges: seq<Range>, a: int, b: int, n: int)
    requires Tiles(ranges, a, b)
    ensures a <= b && (Covered(ranges, n) <==> a < n <= b)
  {
    if ranges != [] {
      var front, last := ranges[..|ranges| - 1], ranges[|ranges| - 1];
      TilesCover(front, a, last.from - 1, n);
      assert ranges == front + [last];
      assert Covered(ranges, n) <==> Covered(front, n) || Holds(last, n);
    }
  }

  /** Tiling ranges hold each number in between exactly once, and nothing else. */
  lemma {:induction false} TilesCoverOnce(ranges: seq<Range>, a: int, b: int, n: int)
    requires Tiles(ranges, a, b)
    ensures a <= b && (Covered(ranges, n) <==> a < n <= b)
    ensures forall i, j | 0 <= i < j < |ranges| :: !(Holds(ranges[i], n) && Holds(ranges[j], n))
  {
    TilesCover(ranges, a, b, n);
    if ranges != [] {
      var front, last := ranges[..|ranges| - 1], ranges[|ranges| - 1];
      TilesCoverOnce(front, a, last.from - 1, n);
      forall i | 0 <= i < |front| ensures !(Holds(ranges[i], n) && Holds(last, n)) {
        assert ranges[i] in front;
        assert Holds(ranges[i], n) ==> Covered(front, n);
      }
      assert forall i | 0 <= i < |front| :: ranges[i] == front[i];
    }
  }

  lemma {:induction false} TilesAbove(ranges: seq<Range>, a: int, b: int)
    requires Tiles(ranges, a, b)
    ensures forall r | r in ranges :: a < r.from
  {
    if ranges != [] {
      var front, last := ranges[..|ranges| - 1], ranges[|ranges| - 1];
      TilesAbove(front, a, last.from - 1);
      TilesCover(front, a, last.from - 1, a);
      assert ranges == front + [last];
    }
  }

  // Completeness.

  lemma WithoutLast(s: seq<int>, front: seq<int>, a: int, b: int)
    requires a < b && StrictlyAscending(s) && (forall n | n in s :: a < n <= b)
    requires forall n | a < n <= b :: n in s
    requires s != [] && front == s[..|s| - 1]
    ensures s == front + [b] && StrictlyAscending(front)
    ensures forall n | n in front :: a < n <= b - 1
    ensures forall n | a < n <= b - 1 :: n in front
  {
    assert b in s && s[|s| - 1] in s;
    assert s == front + [b];
    assert forall i | 0 <= i < |front| :: front[i] == s[i] && s[i] in s;
    forall n | a < n <= b - 1 ensures n in front {
      assert n in front + [b];
    }
  }

  /** A strictly ascending sequence within bounds that misses nothing is the whole interval. */
  lemma {:induction false} NothingMissed(s: seq<int>, a: int, b: int)
    requires a <= b && StrictlyAscending(s) && (forall n | n in s :: a < n <= b)
    requires forall n | a < n <= b :: n in s
    ensures s == Interval(a, b)
    decreases b - a
  {
    FirstMember(s);
    if a < b {
      assert b in s;
      WithoutLast(s, s[..|s| - 1], a, b);
      NothingMissed(s[..|s| - 1], a, b - 1);
      hide StrictlyAscending;
    }
  }

  lemma FirstMember(s: seq<int>)
    ensures s != [] ==> s[0] in s
  {
  }

  /** The blocks attempted are all since the subscription began. */
  predicate GapFree(sub: Subscriber) {
    sub.initial <= sub.current && sub.attempted == Interval(sub.initial, sub.current)
  }

  /** The client has received all blocks since the subscription began. */
  predicate ReceivedAll(sub: Subscriber) {
    sub.initial <= sub.current && sub.received == Interval(sub.initial, sub.current)
  }

  ghost predicate Misses(s: seq<int>, a: int, b: int) {
    exists n :: a < n <= b && n !in s
  }

  lemma WholeIff(s: seq<int>, a: int, b: int)
    requires a <= b && StrictlyAscending(s) && forall n | n in s :: a < n <= b
    ensures s == Interval(a, b) <==> !Misses(s, a, b)
  {
    IntervalMembers(a, b);
    if !Misses(s, a, b) {
      NothingMissed(s, a, b);
    }
    hide Interval, StrictlyAscending;
  }

  /** After one head the attempts are complete exactly when they were and no fetched block before the
      head fails to be notified. */
  lemma AttemptsGapFreeIff(sub: Subscriber, head: int, t: Trouble)
    requires BlocksOrderly(sub) && sub.initial <= sub.current <= head
    ensures GapFree(AfterBlocks(sub, head, t))
      <==> GapFree(sub) && !BreaksBefore(sub.current, head, t.fetchFails, t.notifyFails)
  {
    var sub' := AfterBlocks(sub, head, t);
    var stop := Stop(sub.current, head, t.fetchFails, t.notifyFails);
    AfterBlocksOrderly(sub, head, t);
    StopsShortIff(sub.current, head, t.fetchFails, t.notifyFails);
    IntervalMembers(sub.current, stop);
    WithinMembers(sub.attempted, sub.initial, sub.current);
    WithinMembers(sub'.attempted, sub.initial, head);
    WholeIff(sub.attempted, sub.initial, sub.current);
    WholeIff(sub'.attempted, sub.initial, head);
    hide Interval, Stop, Picked, StrictlyAscending, BreaksBefore, Within;
    AppendMisses(sub.attempted, Interval(sub.current, stop), sub.initial, sub.current, head);
    if stop < head {
      assert head !in Interval(sub.current, stop);
    }
  }

  lemma AppendMisses(s: seq<int>, t: seq<int>, a: int, b: int, c: int)
    requires a <= b <= c && (forall n | n in s :: n <= b) && (forall n | n in t :: b < n)
    ensures Misses(s + t, a, c) <==> Misses(s, a, b) || Misses(t, b, c)
  {
    if Misses(s, a, b) {
      var n :| a < n <= b && n !in s;
      assert n !in s + t;
    }
    if Misses(t, b, c) {
      var n :| b < n <= c && n !in t;
      assert n !in s + t;
    }
  }

  /** A block up to the head whose fetch or notification fails. */
  predicate FailsUpTo(current: int, head: int, t: Trouble) {
    exists n | n in t.fetchFails + t.notifyFails :: current < n <= head
  }

  /** After one head the client has everything exactly when it had and no fetch or notification fails. */
  lemma ReceivedAllStep(sub: Subscriber, head: int, t: Trouble)
    requires BlocksOrderly(sub) && sub.initial <= sub.current <= head
    ensures ReceivedAll(AfterBlocks(sub, head, t)) <==> ReceivedAll(sub) && !FailsUpTo(sub.current, head, t)
  {
    var a, sub' := sub.current, AfterBlocks(sub, head, t);
    var stop, fails := Stop(a, head, t.fetchFails, t.notifyFails), t.fetchFails + t.notifyFails;
    AfterBlocksOrderly(sub, head, t);
    StopsShortIff(a, head, t.fetchFails, t.notifyFails);
    PickedMembers(a, stop, fails, false);
    WithinMembers(sub.attempted, sub.initial, a);
    WithinMembers(sub'.attempted, sub.initial, head);
    WholeIff(sub.received, sub.initial, a);
    WholeIff(sub'.received, sub.initial, head);
    var got := Picked(a, stop, fails, false);
    hide Interval, Stop, Picked, StrictlyAscending, Within;
    AppendMisses(sub.received, got, sub.initial, a, head);
    if FailsUpTo(a, head, t) {
      var n :| n in fails && a < n <= head;
      assert n !in got;
    } else {
      assert !BreaksBefore(a, head, t.fetchFails, t.notifyFails);
      assert forall n | a < n <= head :: n in got;
    }
  }

  /** A log whose notification fails. */
  predicate DropsLog(t: Trouble) {
    t.logs.Some? && exists i | i in t.logFails :: 0 <= i < |t.logs.value|
  }

  /** After one head every fetched log has been sent exactly when they had been and none fails now. */
  lemma LogsSentStep(sub: Subscriber, head: int, t: Trouble)
    requires LogsOrderly(sub)
    ensures var sub' := AfterLogs(sub, head, t);
      sub'.sent == sub'.due <==> sub.sent == sub.due && !DropsLog(t)
  {
    if t.logs.Some? {
      var logs := t.logs.value;
      var n := SentCount(|logs|, t.logFails, 0);
      SentAllIff(|logs|, t.logFails, 0);
      if sub.sent + logs[..n] == sub.due + logs {
        assert n == |logs|;
        assert sub.sent == (sub.sent + logs[..n])[..|sub.due|];
        assert sub.due == (sub.due + logs)[..|sub.due|];
      } else if n == |logs| {
        assert logs[..n] == logs;
      }
    }
  }
}
