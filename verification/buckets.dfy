/** Splitting one flat log list into per-block entries. */
module Buckets {
  import opened Basics
  import opened Json
  import opened Types

  /** The logs of block `n`, in list order. */
  function OfBlock(logs: seq<Log>, n: nat): seq<Log> {
    if logs == [] then []
    else
      var last := logs[|logs| - 1];
      var before := OfBlock(logs[..|logs| - 1], n);
      if last.blockNumber == n then before + [last] else before
  }

  /** The logs whose block lies in [start, start + count). */
  function InRange(logs: seq<Log>, start: nat, count: nat): seq<Log> {
    if logs == [] then []
    else
      var last := logs[|logs| - 1];
      var before := InRange(logs[..|logs| - 1], start, count);
      if start <= last.blockNumber < start + count then before + [last] else before
  }

  /** `int(number - start)`: the unsigned difference wraps, then is read as a signed word. */
  function SlotOf(number: nat, start: nat): int
    requires number < TWO_64 && start < TWO_64
  {
    var wrapped := (number - start) % TWO_64;
    if wrapped >= TWO_63 then wrapped - TWO_64 else wrapped
  }

  /** The wrapped test drops exactly the logs outside the range. */
  lemma SlotTest(number: nat, start: nat, count: nat)
    requires number < TWO_64 && start + count < TWO_64 && count <= TWO_63
    ensures 0 <= SlotOf(number, start) < count <==> start <= number < start + count
    ensures 0 <= SlotOf(number, start) < count ==> number == start + SlotOf(number, start)
  {
    if number >= start {
      assert (number - start) % TWO_64 == number - start;
    } else {
      assert (number - start) % TWO_64 == number - start + TWO_64;
    }
  }

  function BucketEntry(bucket: seq<Log>, number: nat): Entry
    requires bucket != []
  {
    Entry(bucket[0].blockHash, number, None, LogsJson(Encode(bucket)))
  }

  /** One entry for each block of [start, start + count) that has logs, in block order. */
  function BucketsOf(logs: seq<Log>, start: nat, count: nat): seq<Entry> {
    if count == 0 then []
    else
      var bucket := OfBlock(logs, start + count - 1);
      var before := BucketsOf(logs, start, count - 1);
      if bucket == [] then before else before + [BucketEntry(bucket, start + count - 1)]
  }

  /** What a bucket's writer holds while the list is being read. */
  function Pending(bucket: seq<Log>): Buffer<Log> {
    if bucket == [] then [] else Open(bucket)
  }

  /** The entry a bucket has while the list is being read: everything but its value. */
  function Opened(bucket: seq<Log>, number: nat): Option<Entry> {
    if bucket == [] then None else Some(Entry(bucket[0].blockHash, number, None, Null))
  }

  /** The logs sorted into `count` slots, one for each block from `start`. */
  function SlotsOf(logs: seq<Log>, start: nat, count: nat): (slots: seq<seq<Log>>)
    ensures |slots| == count
  {
    if logs == [] then seq(count, _ => [])
    else
      var slots := SlotsOf(logs[..|logs| - 1], start, count);
      var last := logs[|logs| - 1];
      var i := last.blockNumber - start;
      if 0 <= i < count then slots[i := slots[i] + [last]] else slots
  }

  lemma SlotsStep(logs: seq<Log>, start: nat, count: nat, t: nat)
    requires t < |logs|
    ensures
      var slots, i := SlotsOf(logs[..t], start, count), logs[t].blockNumber - start;
      SlotsOf(logs[..t + 1], start, count) == if 0 <= i < count then slots[i := slots[i] + [logs[t]]] else slots
  {
    assert logs[..t + 1][..t] == logs[..t];
  }

  lemma {:induction false} SlotIsBlock(logs: seq<Log>, start: nat, count: nat, k: nat)
    requires k < count
    ensures SlotsOf(logs, start, count)[k] == OfBlock(logs, start + k)
  {
    if logs != [] {
      SlotIsBlock(logs[..|logs| - 1], start, count, k);
    }
  }

  method Split(logs: seq<Log>, start: nat, count: nat) returns (results: seq<Entry>)
    requires start + count < TWO_64 && count <= TWO_63
    requires forall l | l in logs :: l.blockNumber < TWO_64
    ensures results == BucketsOf(logs, start, count)
  {
    var encoders := new Buffer<Log>[count](_ => []);
    var entries := new Option<Entry>[count](_ => None);
    ghost var slots := Fill(logs, start, encoders, entries);
    PackedAreSlotEntries(start, slots, entries[..], encoders[..], count);
    SlotEntriesAreBuckets(logs, start, count, count);
    var j := Compact(encoders, entries);
    results := seq(j, k requires 0 <= k < entries.Length && entries[k].Some? reads entries => entries[k].value);
  }

  /** The arrays hold, slot by slot, the open writer and the opened entry of that slot's logs. */
  ghost predicate Filled(start: nat, slots: seq<seq<Log>>, encoders: seq<Buffer<Log>>, entries: seq<Option<Entry>>) {
    && |slots| == |encoders| == |entries|
    && (forall k | 0 <= k < |slots| :: encoders[k] == Pending(slots[k]))
    && (forall k | 0 <= k < |slots| :: entries[k] == Opened(slots[k], start + k))
  }

  lemma FilledStart(logs: seq<Log>, start: nat, encoders: seq<Buffer<Log>>, entries: seq<Option<Entry>>)
    requires |encoders| == |entries|
    requires forall k | 0 <= k < |encoders| :: encoders[k] == [] && entries[k] == None
    ensures Filled(start, SlotsOf(logs[..0], start, |entries|), encoders, entries)
  {
  }

  lemma FilledStep(start: nat, slots: seq<seq<Log>>, encoders: seq<Buffer<Log>>, entries: seq<Option<Entry>>,
                   i: nat, log: Log)
    requires Filled(start, slots, encoders, entries) && i < |slots|
    ensures
      var bucket := slots[i] + [log];
      Filled(start, slots[i := bucket], encoders[i := Pending(bucket)], entries[i := Opened(bucket, start + i)])
  {
  }

  /** A slot's buffer after one more log: the first opens the array, later ones need a comma. */
  function Written(encoder: Buffer<Log>, ghost bucket: seq<Log>, log: Log): (r: Buffer<Log>)
    requires encoder == Pending(bucket)
    ensures r == Pending(bucket + [log])
  {
    OpenAppend(bucket, log);
    if |encoder| == 0 then encoder + [ArrStart] + [Raw(log)] else encoder + [Comma] + [Raw(log)]
  }

  method SlotIndex(number: nat, start: nat, ghost count: nat) returns (i: int)
    requires number < TWO_64 && start + count < TWO_64 && count <= TWO_63
    ensures if start <= number < start + count then i == number - start else !(0 <= i < count)
  {
    SlotTest(number, start, count);
    i := SlotOf(number, start);
  }

  /** Writes one log into its slot. */
  method Place(start: nat, ghost slots: seq<seq<Log>>,
               encoders: array<Buffer<Log>>, entries: array<Option<Entry>>, i: nat, log: Log)
    requires Filled(start, slots, encoders[..], entries[..])
    requires i < entries.Length && log.blockNumber == start + i
    modifies encoders, entries
    ensures Filled(start, slots[i := slots[i] + [log]], encoders[..], entries[..])
  {
    hide Open, Elements;
    ghost var bucket, before, unplaced := slots[i], encoders[..], entries[..];
    FilledStep(start, slots, before, unplaced, i, log);
    encoders[i] := Written(encoders[i], bucket, log);
    assert encoders[..] == before[i := Pending(bucket + [log])];
    if entries[i].None? {
      entries[i] := Some(Entry(log.blockHash, log.blockNumber, None, Null));
    }
    assert entries[..] == unplaced[i := Opened(bucket + [log], start + i)];
  }

  /** Sorts the logs into their slots, opening a slot's entry and writer with its first log. */
  method Fill(logs: seq<Log>, start: nat, encoders: array<Buffer<Log>>, entries: array<Option<Entry>>)
    returns (ghost slots: seq<seq<Log>>)
    requires encoders.Length == entries.Length
    requires start + entries.Length < TWO_64 && entries.Length <= TWO_63
    requires forall l | l in logs :: l.blockNumber < TWO_64
    requires forall k | 0 <= k < encoders.Length :: encoders[k] == []
    requires forall k | 0 <= k < entries.Length :: entries[k] == None
    modifies encoders, entries
    ensures slots == SlotsOf(logs, start, entries.Length)
    ensures Filled(start, slots, encoders[..], entries[..])
  {
    hide *;
    slots := SlotsOf(logs[..0], start, entries.Length);
    FilledStart(logs, start, encoders[..], entries[..]);
    for t := 0 to |logs|
      invariant slots == SlotsOf(logs[..t], start, entries.Length)
      invariant Filled(start, slots, encoders[..], entries[..])
    {
      var log := logs[t];
      var i := SlotIndex(log.blockNumber, start, entries.Length);
      ghost var next := SlotsOf(logs[..t + 1], start, entries.Length);
      SlotsStep(logs, start, entries.Length, t);
      if i < 0 || i >= encoders.Length {
        assert next == slots;
        continue;
      }
      assert next == slots[i := slots[i] + [log]];
      Place(start, slots, encoders, entries, i, log);
      slots := next;
    }
    assert logs[..|logs|] == logs;
  }

  /** A slot's entry with its finished buffer as value. */
  function Closed(entry: Entry, encoder: Buffer<Log>): Entry {
    entry.(value := LogsJson(encoder + [ArrEnd]))
  }

  /** The closed entries of the used slots among the first `n`. */
  function Packed(entries: seq<Option<Entry>>, encoders: seq<Buffer<Log>>, n: nat): seq<Entry>
    requires n <= |entries| == |encoders|
  {
    if n == 0 then []
    else
      var before := Packed(entries, encoders, n - 1);
      if entries[n - 1].None? then before
      else before + [Closed(entries[n - 1].value, encoders[n - 1])]
  }

  /** The entries of the used slots among the first `n`. */
  function SlotEntries(slots: seq<seq<Log>>, start: nat, n: nat): seq<Entry>
    requires n <= |slots|
  {
    if n == 0 then []
    else
      var before := SlotEntries(slots, start, n - 1);
      if slots[n - 1] == [] then before else before + [BucketEntry(slots[n - 1], start + n - 1)]
  }

  lemma {:induction false} SlotEntriesAreBuckets(logs: seq<Log>, start: nat, count: nat, n: nat)
    requires n <= count
    ensures SlotEntries(SlotsOf(logs, start, count), start, n) == BucketsOf(logs, start, n)
  {
    hide Encode, Elements, Pending, Open;
    if n > 0 {
      SlotEntriesAreBuckets(logs, start, count, n - 1);
      SlotIsBlock(logs, start, count, n - 1);
    }
  }

  lemma {:induction false} PackedAreSlotEntries(start: nat, slots: seq<seq<Log>>, entries: seq<Option<Entry>>,
                                                encoders: seq<Buffer<Log>>, n: nat)
    requires n <= |slots| && Filled(start, slots, encoders, entries)
    ensures Packed(entries, encoders, n) == SlotEntries(slots, start, n)
  {
    hide Encode, OfBlock, Elements, Pending, Open;
    if n > 0 {
      PackedAreSlotEntries(start, slots, entries, encoders, n - 1);
      SlotCloses(start, slots, entries, encoders, n - 1);
    }
  }

  lemma SlotCloses(start: nat, slots: seq<seq<Log>>, entries: seq<Option<Entry>>, encoders: seq<Buffer<Log>>, k: nat)
    requires k < |slots| && Filled(start, slots, encoders, entries)
    ensures slots[k] == [] <==> entries[k].None?
    ensures slots[k] != [] ==> Closed(entries[k].value, encoders[k]) == BucketEntry(slots[k], start + k)
  {
  }

  /** Closes the writers and moves the entries of the used slots to the front, in place. */
  method Compact(encoders: array<Buffer<Log>>, entries: array<Option<Entry>>) returns (j: nat)
    requires encoders.Length == entries.Length
    modifies encoders, entries
    ensures
      var packed := Packed(old(entries[..]), old(encoders[..]), entries.Length);
      && j == |packed| <= entries.Length
      && forall k | 0 <= k < j :: entries[k] == Some(packed[k])
  {
    ghost var was, bufs := entries[..], encoders[..];
    ghost var packed: seq<Entry> := [];
    j := 0;
    for i := 0 to entries.Length
      invariant packed == Packed(was, bufs, i)
      invariant j == |packed| <= i
      invariant forall k | 0 <= k < j :: entries[k] == Some(packed[k])
      invariant forall k | i <= k < entries.Length :: entries[k] == was[k]
      invariant forall k | i <= k < encoders.Length :: encoders[k] == bufs[k]
    {
      var res := entries[i];
      if res.Some? {
        encoders[i] := encoders[i] + [ArrEnd];
        entries[j] := Some(res.value.(value := LogsJson(encoders[i])));
        packed := packed + [Closed(was[i].value, bufs[i])];
        j := j + 1;
      }
    }
  }

  /** The logs an entry carries. */
  function LogsOf(e: Entry): seq<Log> {
    if e.value.LogsJson? && Decode(e.value.logs).Some? then Decode(e.value.logs).value else []
  }

  function Flatten(entries: seq<Entry>): seq<Log> {
    if entries == [] then []
    else Flatten(entries[..|entries| - 1]) + LogsOf(entries[|entries| - 1])
  }

  lemma {:induction false} OfBlockOnly(logs: seq<Log>, n: nat)
    ensures forall l | l in OfBlock(logs, n) :: l in logs && l.blockNumber == n
    ensures forall l | l in logs && l.blockNumber == n :: l in OfBlock(logs, n)
  {
    if logs != [] {
      OfBlockOnly(logs[..|logs| - 1], n);
      assert logs == logs[..|logs| - 1] + [logs[|logs| - 1]];
    }
  }

  lemma {:induction false} OfBlockNone(logs: seq<Log>, n: nat)
    requires forall l | l in logs :: l.blockNumber != n
    ensures OfBlock(logs, n) == []
  {
    if logs != [] {
      assert logs[|logs| - 1] in logs;
      OfBlockNone(logs[..|logs| - 1], n);
    }
  }

  lemma {:induction false} OfBlockOfConcat(a: seq<Log>, b: seq<Log>, n: nat)
    ensures OfBlock(a + b, n) == OfBlock(a, n) + OfBlock(b, n)
  {
    if b == [] {
      assert a + b == a;
    } else {
      var front := b[..|b| - 1];
      assert (a + b)[..|a + b| - 1] == a + front;
      OfBlockOfConcat(a, front, n);
    }
  }

  lemma {:induction false} OfBlockOfBucket(logs: seq<Log>, n: nat, m: nat)
    ensures OfBlock(OfBlock(logs, n), m) == if m == n then OfBlock(logs, n) else []
  {
    if logs != [] {
      var front := logs[..|logs| - 1];
      var last := logs[|logs| - 1];
      OfBlockOfBucket(front, n, m);
      OfBlockOfConcat(OfBlock(front, n), [last], m);
      assert OfBlock(front, n) + [] == OfBlock(front, n);
    }
  }

  /** The stable sort by block of the logs in [start, start + count). */
  function ByBlock(logs: seq<Log>, start: nat, count: nat): seq<Log> {
    if count == 0 then [] else ByBlock(logs, start, count - 1) + OfBlock(logs, start + count - 1)
  }

  /** Concatenating the entries gives the in-range logs sorted by block. */
  lemma {:induction false} FlattenBuckets(logs: seq<Log>, start: nat, count: nat)
    ensures Flatten(BucketsOf(logs, start, count)) == ByBlock(logs, start, count)
  {
    if count > 0 {
      FlattenBuckets(logs, start, count - 1);
      var bucket := OfBlock(logs, start + count - 1);
      var before := BucketsOf(logs, start, count - 1);
      if bucket == [] {
        assert ByBlock(logs, start, count - 1) + [] == ByBlock(logs, start, count - 1);
      } else {
        var all := before + [BucketEntry(bucket, start + count - 1)];
        assert all[..|all| - 1] == before;
        EncodeDecode(bucket);
      }
    }
  }

  /** The sort is stable and keeps everything: for each block of the range it holds that block's
      logs in their original order ... */
  lemma {:induction false} ByBlockStable(logs: seq<Log>, start: nat, count: nat, m: nat)
    requires start <= m < start + count
    ensures OfBlock(ByBlock(logs, start, count), m) == OfBlock(logs, m)
  {
    hide OfBlock;
    var before, bucket := ByBlock(logs, start, count - 1), OfBlock(logs, start + count - 1);
    OfBlockOfConcat(before, bucket, m);
    OfBlockOfBucket(logs, start + count - 1, m);
    if m == start + count - 1 {
      ByBlockOnly(logs, start, count - 1, m);
    } else {
      ByBlockStable(logs, start, count - 1, m);
    }
  }

  /** ... and nothing of any other block. */
  lemma {:induction false} ByBlockOnly(logs: seq<Log>, start: nat, count: nat, m: nat)
    requires !(start <= m < start + count)
    ensures OfBlock(ByBlock(logs, start, count), m) == []
  {
    if count > 0 {
      hide OfBlock;
      ByBlockOnly(logs, start, count - 1, m);
      OfBlockOfConcat(ByBlock(logs, start, count - 1), OfBlock(logs, start + count - 1), m);
      OfBlockOfBucket(logs, start + count - 1, m);
    }
  }

  ghost predicate SortedByBlock(logs: seq<Log>) {
    forall i, j | 0 <= i < j < |logs| :: logs[i].blockNumber <= logs[j].blockNumber
  }

  /** The sort is in block order and stays inside the range. */
  lemma {:induction false} ByBlockSorted(logs: seq<Log>, start: nat, count: nat)
    ensures SortedByBlock(ByBlock(logs, start, count))
    ensures forall l | l in ByBlock(logs, start, count) :: l in logs && start <= l.blockNumber < start + count
  {
    if count > 0 {
      ByBlockSorted(logs, start, count - 1);
      OfBlockOnly(logs, start + count - 1);
      BlockAppended(ByBlock(logs, start, count - 1), OfBlock(logs, start + count - 1), start + count - 1);
      hide OfBlock, SortedByBlock;
    }
  }

  lemma BlockAppended(a: seq<Log>, b: seq<Log>, n: nat)
    requires SortedByBlock(a)
    requires (forall l | l in a :: l.blockNumber <= n) && (forall l | l in b :: l.blockNumber == n)
    ensures SortedByBlock(a + b)
  {
    assert forall i | 0 <= i < |a| :: a[i] in a;
    assert forall i | 0 <= i < |b| :: b[i] in b;
  }

  /** No in-range log is lost or duplicated. */
  lemma {:induction false} ByBlockPermutes(logs: seq<Log>, start: nat, count: nat)
    ensures multiset(ByBlock(logs, start, count)) == multiset(InRange(logs, start, count))
  {
    if count == 0 {
      NothingInRange(logs, start);
    } else {
      ByBlockPermutes(logs, start, count - 1);
      RangeSplits(logs, start, count);
    }
  }

  lemma {:induction false} NothingInRange(logs: seq<Log>, start: nat)
    ensures InRange(logs, start, 0) == []
  {
    if logs != [] {
      NothingInRange(logs[..|logs| - 1], start);
    }
  }

  lemma {:induction false} RangeSplits(logs: seq<Log>, start: nat, count: nat)
    requires count > 0
    ensures multiset(InRange(logs, start, count)) ==
      multiset(InRange(logs, start, count - 1)) + multiset(OfBlock(logs, start + count - 1))
  {
    if logs != [] {
      RangeSplits(logs[..|logs| - 1], start, count);
    }
  }

  /** `e` is the entry of a block of the range, with exactly that block's logs. */
  ghost predicate IsBucket(logs: seq<Log>, start: nat, count: nat, e: Entry) {
    && start <= e.blockNumber < start + count
    && LogsOf(e) == OfBlock(logs, e.blockNumber)
    && LogsOf(e) != []
  }

  ghost predicate AllBuckets(logs: seq<Log>, start: nat, count: nat, entries: seq<Entry>) {
    forall i | 0 <= i < |entries| :: IsBucket(logs, start, count, entries[i])
  }

  ghost predicate AscendingBelow(entries: seq<Entry>, bound: nat) {
    && (forall i, j | 0 <= i < j < |entries| :: entries[i].blockNumber < entries[j].blockNumber)
    && (forall i | 0 <= i < |entries| :: entries[i].blockNumber < bound)
  }

  /** The entries are non-empty blocks of the range in increasing order, each with its logs. */
  lemma {:induction false} BucketsAscend(logs: seq<Log>, start: nat, count: nat)
    ensures AllBuckets(logs, start, count, BucketsOf(logs, start, count))
    ensures AscendingBelow(BucketsOf(logs, start, count), start + count)
  {
    if count > 0 {
      BucketsAscend(logs, start, count - 1);
      var before := BucketsOf(logs, start, count - 1);
      var bucket := OfBlock(logs, start + count - 1);
      assert AllBuckets(logs, start, count, before) by {
        forall i | 0 <= i < |before| ensures IsBucket(logs, start, count, before[i]) {
          assert IsBucket(logs, start, count - 1, before[i]);
        }
      }
      if bucket != [] {
        EncodeDecode(bucket);
        assert IsBucket(logs, start, count, BucketEntry(bucket, start + count - 1));
      }
    }
  }

  lemma {:induction false} BucketsComplete(logs: seq<Log>, start: nat, count: nat, n: nat)
    requires start <= n < start + count && OfBlock(logs, n) != []
    ensures BucketEntry(OfBlock(logs, n), n) in BucketsOf(logs, start, count)
  {
    if n < start + count - 1 {
      BucketsComplete(logs, start, count - 1, n);
    }
  }
}
