/** Stalker: asks for the latest block and works out how long to wait before asking again.
    All times are in nanoseconds. */
module Stalking {
  import opened Basics
  import opened Delays

  const MILLISECOND: int := 1_000_000
  const HALF_SECOND: int := 500 * MILLISECOND
  const SECOND: int := 1000 * MILLISECOND

  function Min(a: int, b: int): int {
    if a < b then a else b
  }

  function Max(a: int, b: int): int {
    if a > b then a else b
  }

  /** What one tick meets: no readable block, or a head with its timestamp in seconds, the time it was
      received, and the head stored before (none when the store fails). */
  datatype Seen =
    | Unanswered | NullBlock | Unreadable
    | Head(number: int, timestamp: int, now: int, prev: Option<int>)

  function BlockTime(raw: int): int {
    Max(raw, HALF_SECOND)
  }

  predicate NewHead(seen: Seen) {
    seen.Head? && seen.prev.Some? && seen.prev.value != seen.number
  }

  /** When the block after this one is due. */
  function NextTime(raw: int, seen: Seen): int
    requires seen.Head?
  {
    seen.timestamp * SECOND + BlockTime(raw)
  }

  /** The tracker after a tick: a new head that arrived before the next was due is a sample. */
  function Tracked(raw: int, r: Ring, seen: Seen): Ring
    requires Valid(r)
  {
    if NewHead(seen) && NextTime(raw, seen) - seen.now > 0
    then Added(r, NextTime(raw, seen) - seen.now) else r
  }

  /** The wait a tick returns, given the tracker after it. */
  function Wait(raw: int, r: Ring, seen: Seen): int {
    var blockTime := BlockTime(raw);
    if !seen.Head? || seen.prev.None? then blockTime
    else
      var left := NextTime(raw, seen) - seen.now;
      if seen.prev.value != seen.number then
        var nextWait := Max(Max(Min(left, blockTime), HALF_SECOND), Quo(blockTime, 2));
        if r.mean - 250 * MILLISECOND > 0 then nextWait + Quo(r.mean * 9, 10) else nextWait
      else if left > 0 then Min(Max(left, HALF_SECOND), blockTime)
      else Max(HALF_SECOND, Quo(blockTime, 4))
  }

  class Stalker {
    const raw: int
    const dt: DelayTracker

    constructor (raw: int)
      ensures this.raw == raw && fresh(dt) && dt.State() == Ring(128, 0, raw, [], 0, 0)
    {
      this.raw := raw;
      dt := new DelayTracker(128, 0, raw);
    }

    method Tick(seen: Seen) returns (wait: int)
      requires Valid(dt.State())
      modifies dt
      ensures dt.State() == Tracked(raw, old(dt.State()), seen) && Valid(dt.State())
      ensures wait == Wait(raw, dt.State(), seen)
    {
      hide Quo, Added;
      var blockTime := Max(raw, HALF_SECOND);
      match seen {
        case Unanswered => return blockTime;
        case NullBlock => return blockTime;
        case Unreadable => return blockTime;
        case Head(number, timestamp, now, prev) =>
          var nextTime := timestamp * SECOND + blockTime;
          if prev.None? {
            return blockTime;
          }
          if prev.value != number {
            var propDelay := nextTime - now;
            if propDelay > 0 {
              dt.Add(propDelay);
            }
            var nextWait := Max(Max(Min(nextTime - now, blockTime), HALF_SECOND), Quo(blockTime, 2));
            var mean := dt.Mean();
            if mean - 250 * MILLISECOND > 0 {
              nextWait := nextWait + Quo(mean * 9, 10);
            }
            return nextWait;
          }
          if nextTime > now {
            return Min(Max(nextTime - now, HALF_SECOND), blockTime);
          }
          return Max(HALF_SECOND, Quo(blockTime, 4));
      }
    }
  }

  /** The tracker after a whole run of ticks. */
  function TrackedAll(raw: int, ticks: seq<Seen>): (r: Ring)
    ensures Valid(r)
  {
    if ticks == [] then Ring(128, 0, raw, [], 0, 0)
    else
      var before := TrackedAll(raw, ticks[..|ticks| - 1]);
      var left := if ticks[|ticks| - 1].Head? then NextTime(raw, ticks[|ticks| - 1]) - ticks[|ticks| - 1].now else 0;
      AddedContents(before, left);
      Tracked(raw, before, ticks[|ticks| - 1])
  }

  /** The delays that became samples, in order. */
  function Samples(raw: int, ticks: seq<Seen>): seq<int> {
    if ticks == [] then []
    else
      var before, seen := Samples(raw, ticks[..|ticks| - 1]), ticks[|ticks| - 1];
      if NewHead(seen) && NextTime(raw, seen) - seen.now > 0
      then before + [NextTime(raw, seen) - seen.now] else before
  }

  lemma {:induction false} TrackerIsSamples(raw: int, ticks: seq<Seen>)
    ensures TrackedAll(raw, ticks) == AddedAll(Ring(128, 0, raw, [], 0, 0), Samples(raw, ticks))
  {
    if ticks != [] {
      var front := ticks[..|ticks| - 1];
      TrackerIsSamples(raw, front);
      var samples := Samples(raw, ticks);
      assert samples != Samples(raw, front) ==> samples[..|samples| - 1] == Samples(raw, front);
    }
  }

  lemma TenthsMonotone(a: int, high: int)
    requires 0 <= a <= high
    ensures 0 <= Quo(a, 10) <= Quo(high, 10)
  {
  }

  lemma WaitBounded(raw: int, r: Ring, seen: Seen)
    requires raw >= 0 && r.mean <= raw
    ensures HALF_SECOND <= Wait(raw, r, seen) <= BlockTime(raw) + Quo(BlockTime(raw) * 9, 10)
  {
    TenthsMonotone(0, BlockTime(raw) * 9);
    if r.mean > 0 {
      TenthsMonotone(r.mean * 9, BlockTime(raw) * 9);
    }
  }

  /** Whatever a run of ticks meets, no wait is shorter than half a second or longer than the block
      time and nine tenths of it, and after a new head none is shorter than half the block time. */
  lemma EveryWaitBounded(raw: int, ticks: seq<Seen>)
    requires raw >= 0 && ticks != []
    ensures var wait := Wait(raw, TrackedAll(raw, ticks), ticks[|ticks| - 1]);
      && HALF_SECOND <= wait <= BlockTime(raw) + Quo(BlockTime(raw) * 9, 10)
      && (NewHead(ticks[|ticks| - 1]) ==> BlockTime(raw) <= 2 * wait + 1)
  {
    if NewHead(ticks[|ticks| - 1]) {
      NewHeadWaitsHalf(raw, TrackedAll(raw, ticks), ticks[|ticks| - 1]);
    }
    TrackerIsSamples(raw, ticks);
    EveryRunMeanRange(128, 0, raw, Samples(raw, ticks));
    WaitBounded(raw, TrackedAll(raw, ticks), ticks[|ticks| - 1]);
    hide Wait, TrackedAll, AddedAll, Samples, Quo, BlockTime;
  }

  /** After a new head the wait covers at least half a block time. */
  lemma NewHeadWaitsHalf(raw: int, r: Ring, seen: Seen)
    requires NewHead(seen)
    ensures BlockTime(raw) <= 2 * Wait(raw, r, seen) + 1
  {
  }

  // The wait, case by case.

  /** Without a readable head, or when the store fails, the wait is the block time: at least half a second. */
  lemma WaitWithoutHead(raw: int, r: Ring, seen: Seen)
    requires !seen.Head? || seen.prev.None?
    ensures Wait(raw, r, seen) == if raw > 500_000_000 then raw else 500_000_000
  {
  }

  /** After a new head with little delay on average the next question comes when the next block is due, a
      second being a thousand million nanoseconds, but not sooner than half a second or half a block time
      from now nor later than one block time. */
  lemma WaitUntilDue(raw: int, r: Ring, number: int, timestamp: int, now: int, prev: int)
    requires prev != number && r.mean <= 250_000_000
    ensures
      var blockTime := if raw > 500_000_000 then raw else 500_000_000;
      var left := timestamp * 1_000_000_000 + blockTime - now;
      var wait := Wait(raw, r, Head(number, timestamp, now, Some(prev)));
      && (left >= blockTime ==> wait == blockTime)
      && (500_000_000 <= left <= blockTime && 2 * left >= blockTime ==> wait == left)
      && (left < 500_000_000 || 2 * left < blockTime ==>
            wait >= 500_000_000 && blockTime <= 2 * wait + 1 && (wait == 500_000_000 || 2 * wait <= blockTime))
  {
  }

  /** With more delay on average than a quarter of a second, nine tenths of it come on top. */
  lemma WaitForDelay(raw: int, r: Ring, seen: Seen)
    requires NewHead(seen) && r.mean > 250_000_000
    ensures
      var extra := Wait(raw, r, seen) - Wait(raw, r.(mean := 0), seen);
      10 * extra <= 9 * r.mean < 10 * extra + 10
  {
  }

  /** After a head that is not new the next question comes when the next block is due, within half a second
      and one block time, or after a quarter of the block time if it is overdue. */
  lemma WaitAgain(raw: int, r: Ring, number: int, timestamp: int, now: int)
    ensures
      var blockTime := if raw > 500_000_000 then raw else 500_000_000;
      var left := timestamp * 1_000_000_000 + blockTime - now;
      var wait := Wait(raw, r, Head(number, timestamp, now, Some(number)));
      && (500_000_000 <= left <= blockTime ==> wait == left)
      && (0 < left < 500_000_000 ==> wait == 500_000_000)
      && (left > blockTime ==> wait == blockTime)
      && (left <= 0 && blockTime >= 2_000_000_000 ==> 4 * wait <= blockTime < 4 * wait + 4)
      && (left <= 0 && blockTime < 2_000_000_000 ==> wait == 500_000_000)
  {
  }

  /** A new head that comes before the next is due makes the time left a sample; nothing else is one. */
  lemma SampleIs(raw: int, r: Ring, seen: Seen)
    requires Valid(r)
    ensures
      var blockTime := if raw > 500_000_000 then raw else 500_000_000;
      var early := seen.Head? && seen.prev.Some? && seen.prev.value != seen.number
        && seen.now < seen.timestamp * 1_000_000_000 + blockTime;
      Tracked(raw, r, seen)
        == if early then Added(r, seen.timestamp * 1_000_000_000 + blockTime - seen.now) else r
  {
    hide Added;
  }
}
