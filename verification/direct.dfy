/** What a query should answer: a direct reading of the chain, without caches, calls or replies. */
module Direct {
  import opened Basics
  import opened Json
  import opened Types
  import opened Buckets
  import opened Chainblock

  ghost predicate WellFormedBlock(blocks: seq<Block>, n: nat)
    requires n < |blocks|
  {
    var b := blocks[n];
    && b.hash != ZERO_HASH
    && (n > 0 ==> b.parentHash == blocks[n - 1].hash)
    && (forall l | l in b.logs :: l.blockNumber == n && l.blockHash == b.hash)
    && (forall r | r in b.receipts :: r.blockHash == b.hash)
  }

  ghost predicate WellFormed(blocks: seq<Block>) {
    && |blocks| < TWO_63
    && (forall n | 0 <= n < |blocks| :: WellFormedBlock(blocks, n))
    && (forall m, n | 0 <= m < n < |blocks| :: blocks[m].hash != blocks[n].hash)
  }

  /** A block has an entry of the given type: always a header, logs and receipts only when not empty. */
  predicate Has(blocks: seq<Block>, typ: EntryType, n: nat) {
    && n < |blocks|
    && (typ == Logs ==> blocks[n].logs != [])
    && (typ == Receipts ==> blocks[n].receipts != [])
  }

  function TrueValue(blocks: seq<Block>, typ: EntryType, n: nat): Message
    requires n < |blocks|
  {
    match typ
    case BlockHeader => BlockJson(HeadOf(blocks, n), blocks[n].body)
    case Logs => LogsJson(Encode(blocks[n].logs))
    case Receipts => ReceiptsJson(blocks[n].receipts)
  }

  function TrueEntry(blocks: seq<Block>, typ: EntryType, n: nat): Entry
    requires n < |blocks|
  {
    Entry(blocks[n].hash, n, if typ == BlockHeader then Some(blocks[n].parentHash) else None, TrueValue(blocks, typ, n))
  }

  /** The entries of the blocks start, start + 1, ... that have one. */
  function EntriesOf(blocks: seq<Block>, typ: EntryType, start: nat, count: nat): seq<Entry> {
    if count == 0 then []
    else
      var before := EntriesOf(blocks, typ, start, count - 1);
      var n := start + count - 1;
      if Has(blocks, typ, n) then before + [TrueEntry(blocks, typ, n)] else before
  }

  predicate AllHave(blocks: seq<Block>, typ: EntryType, start: nat, end: nat) {
    forall n | start <= n <= end :: Has(blocks, typ, n)
  }

  /** The answer to a query: log ranges skip blocks without logs, other ranges are all or nothing. */
  function Answer(blocks: seq<Block>, typ: EntryType, q: Query): seq<Entry>
    requires InBounds(q)
  {
    match q
    case QueryHash(hash) =>
      (match NumberOf(blocks, hash)
       case Some(n) => if Has(blocks, typ, n) then [TrueEntry(blocks, typ, n)] else []
       case None => [])
    case QueryRange(start, end) =>
      if typ == Logs || AllHave(blocks, typ, start, end) then EntriesOf(blocks, typ, start, end + 1 - start) else []
  }

  /** `logs` is a complete reply to a log request for start..end, in any order between blocks. */
  ghost predicate CompleteReply(blocks: seq<Block>, start: nat, end: nat, logs: seq<Log>) {
    && (forall l | l in logs :: start <= l.blockNumber <= end)
    && (forall n | start <= n <= end :: OfBlock(logs, n) == if n < |blocks| then blocks[n].logs else [])
  }

  /** The logs of a readable reply to a log range. */
  predicate Replies(remote: Remote) {
    remote.rangeReply.Some? && Decode(remote.rangeReply.value).Some?
  }

  function ReplyLogs(remote: Remote): seq<Log>
    requires Replies(remote)
  {
    Decode(remote.rangeReply.value).value
  }

  /** The remote's reply, when it is readable at all, is complete; for tags it may be of any blocks. */
  ghost predicate Faithful(remote: Remote, typ: EntryType, q: Query) {
    typ == Logs && q.QueryRange? && Replies(remote) ==>
      if Tagged(q) then forall l | l in ReplyLogs(remote) :: l.blockNumber < TWO_63
      else CompleteReply(remote.blocks, q.start, q.end, ReplyLogs(remote))
  }

  /** A query by the zero hash, which the bottom store cannot tell from a missing block. */
  predicate ZeroHashQuery(typ: EntryType, q: Query) {
    typ != Receipts && q == QueryHash(ZERO_HASH)
  }

  /** A query for the logs of one tag to which the remote replies with some log: the bottom store takes
      the tag for the number of their block. */
  predicate TagLogsQuery(remote: Remote, typ: EntryType, q: Query) {
    && typ == Logs && Tagged(q) && q.start == q.end
    && Replies(remote) && FirstLogHash(ReplyLogs(remote)) != ZERO_HASH
  }

  /** The queries that the bottom store answers with an entry of no block. */
  predicate Poisonous(remote: Remote, typ: EntryType, q: Query) {
    (ZeroHashQuery(typ, q) && !remote.byHashDown) || TagLogsQuery(remote, typ, q)
  }

  lemma {:induction false} ScanFinds(remote: Remote, typ: EntryType, start: nat, i: nat, end: nat)
    requires typ != Logs && WellFormed(remote.blocks)
    requires start <= i <= end + 1 && start <= end && InBounds(QueryRange(start, end))
    requires forall n | start <= n < i :: Has(remote.blocks, typ, n)
    ensures
      var r := Scan(remote, typ, i, end, EntriesOf(remote.blocks, typ, start, i - start));
      r.Ok? ==> r.value == Answer(remote.blocks, typ, QueryRange(start, end))
    decreases end + 1 - i
  {
    if i <= end {
      ProbeFinds(remote, typ, i);
      if ProbeOf(remote, typ, i).Found? {
        assert EntriesOf(remote.blocks, typ, start, i + 1 - start)
            == EntriesOf(remote.blocks, typ, start, i - start) + [TrueEntry(remote.blocks, typ, i)];
        ScanFinds(remote, typ, start, i + 1, end);
      }
    }
  }

  lemma ProbeFinds(remote: Remote, typ: EntryType, n: nat)
    requires typ != Logs && WellFormed(remote.blocks)
    ensures var p := ProbeOf(remote, typ, n);
      && (p.Missing? ==> !Has(remote.blocks, typ, n))
      && (p.Found? ==> Has(remote.blocks, typ, n) && p.entry == TrueEntry(remote.blocks, typ, n))
  {
    if n < |remote.blocks| {
      assert WellFormedBlock(remote.blocks, n);
      if remote.blocks[n].receipts != [] {
        assert remote.blocks[n].receipts[0] in remote.blocks[n].receipts;
      }
    }
  }

  lemma {:induction false} BucketsAreEntries(blocks: seq<Block>, logs: seq<Log>, start: nat, end: nat, count: nat)
    requires WellFormed(blocks) && CompleteReply(blocks, start, end, logs)
    requires start + count <= end + 1
    ensures BucketsOf(logs, start, count) == EntriesOf(blocks, Logs, start, count)
  {
    if count > 0 {
      BucketsAreEntries(blocks, logs, start, end, count - 1);
      var n := start + count - 1;
      BlockBucket(blocks, n);
      assert OfBlock(logs, n) == if n < |blocks| then blocks[n].logs else [];
    }
  }

  lemma BlockBucket(blocks: seq<Block>, n: nat)
    requires WellFormed(blocks)
    ensures Has(blocks, Logs, n) ==> BucketEntry(blocks[n].logs, n) == TrueEntry(blocks, Logs, n)
  {
    if Has(blocks, Logs, n) {
      assert WellFormedBlock(blocks, n);
      assert blocks[n].logs[0] in blocks[n].logs;
    }
  }

  lemma {:induction false} OneBlockOnly(logs: seq<Log>, n: nat)
    requires forall l | l in logs :: l.blockNumber == n
    ensures OfBlock(logs, n) == logs
  {
    if logs != [] {
      assert logs == logs[..|logs| - 1] + [logs[|logs| - 1]];
      OneBlockOnly(logs[..|logs| - 1], n);
    }
  }

  lemma SingleBlockLogs(remote: Remote, n: nat)
    requires WellFormed(remote.blocks) && n < TWO_63 && Faithful(remote, Logs, QueryRange(n, n))
    ensures FetchLogsInRange(remote, n, n).Ok? ==>
      FetchLogsInRange(remote, n, n).value == EntriesOf(remote.blocks, Logs, n, 1)
  {
    if FetchLogsInRange(remote, n, n).Ok? {
      var logs := Decode(remote.rangeReply.value).value;
      DecodeEncode(remote.rangeReply.value);
      OneBlockOnly(logs, n);
      BlockBucket(remote.blocks, n);
      if n < |remote.blocks| {
        assert WellFormedBlock(remote.blocks, n);
      }
      assert EntriesOf(remote.blocks, Logs, n, 0) == [];
      assert Has(remote.blocks, Logs, n) <==> logs != [];
      if logs != [] {
        assert logs[0] in remote.blocks[n].logs;
      }
    }
  }

  lemma ChainAnswersRange(remote: Remote, typ: EntryType, start: nat, end: nat)
    requires WellFormed(remote.blocks) && InBounds(QueryRange(start, end))
    requires Faithful(remote, typ, QueryRange(start, end))
    requires !TagLogsQuery(remote, typ, QueryRange(start, end))
    ensures FetchFromChain(remote, typ, QueryRange(start, end)).Ok? ==>
      FetchFromChain(remote, typ, QueryRange(start, end)).value == Answer(remote.blocks, typ, QueryRange(start, end))
  {
    if typ != Logs {
      assert EntriesOf(remote.blocks, typ, start, 0) == [];
      ScanFinds(remote, typ, start, start, end);
      hide EntriesOf, Scan, WellFormed;
    } else if Tagged(QueryRange(start, end)) {
      TagLogsNowhere(remote, start, end);
      hide EntriesOf, FetchLogsInRange, WellFormed;
    } else {
      ChainAnswersLogs(remote, start, end);
      hide EntriesOf, FetchLogsInRange, WellFormed;
    }
  }

  lemma ChainAnswersLogs(remote: Remote, start: nat, end: nat)
    requires WellFormed(remote.blocks) && start <= end < TWO_63
    requires Faithful(remote, Logs, QueryRange(start, end))
    ensures FetchLogsInRange(remote, start, end).Ok? ==>
      FetchLogsInRange(remote, start, end).value == EntriesOf(remote.blocks, Logs, start, end + 1 - start)
  {
    if start == end {
      SingleBlockLogs(remote, start);
    } else if Replies(remote) {
      BucketsAreEntries(remote.blocks, ReplyLogs(remote), start, end, end + 1 - start);
    }
    hide WellFormed, CompleteReply, EntriesOf, BucketsOf, Decode;
  }

  /** A log range of ordinary numbers reads off the entries of its blocks. */
  lemma AnswerOfLogs(blocks: seq<Block>, start: nat, end: nat)
    requires start <= end < TWO_63
    ensures Answer(blocks, Logs, QueryRange(start, end)) == EntriesOf(blocks, Logs, start, end + 1 - start)
  {
    hide EntriesOf, AllHave;
  }

  lemma {:induction false} NothingBeyond(blocks: seq<Block>, typ: EntryType, start: nat, count: nat)
    requires |blocks| <= start
    ensures EntriesOf(blocks, typ, start, count) == []
  {
    if count > 0 {
      NothingBeyond(blocks, typ, start, count - 1);
    }
  }

  lemma {:induction false} NoBucketsBeyond(logs: seq<Log>, start: nat, count: nat)
    requires forall l | l in logs :: l.blockNumber < start
    ensures BucketsOf(logs, start, count) == []
  {
    if count > 0 {
      NoBucketsBeyond(logs, start, count - 1);
      OfBlockNone(logs, start + count - 1);
    }
  }

  /** No block has a tag as its number, so other log ranges of tags get nothing. */
  lemma TagLogsNowhere(remote: Remote, start: nat, end: nat)
    requires WellFormed(remote.blocks) && Tagged(QueryRange(start, end))
    requires Faithful(remote, Logs, QueryRange(start, end))
    requires !TagLogsQuery(remote, Logs, QueryRange(start, end))
    ensures FetchFromChain(remote, Logs, QueryRange(start, end)).Ok? ==>
      FetchFromChain(remote, Logs, QueryRange(start, end)).value == []
    ensures Answer(remote.blocks, Logs, QueryRange(start, end)) == []
  {
    NothingBeyond(remote.blocks, Logs, start, end + 1 - start);
    if Replies(remote) {
      NoBucketsBeyond(ReplyLogs(remote), start, end + 1 - start);
    }
  }

  lemma ChainAnswersHash(remote: Remote, typ: EntryType, hash: Hash)
    requires WellFormed(remote.blocks) && !Poisonous(remote, typ, QueryHash(hash))
    ensures FetchFromChain(remote, typ, QueryHash(hash)).Ok? ==>
      FetchFromChain(remote, typ, QueryHash(hash)).value == Answer(remote.blocks, typ, QueryHash(hash))
  {
    var r := NumberOf(remote.blocks, hash);
    if r.Some? {
      assert WellFormedBlock(remote.blocks, r.value);
      if remote.blocks[r.value].logs != [] {
        assert remote.blocks[r.value].logs[0] in remote.blocks[r.value].logs;
      }
    }
  }

  /** Whenever the bottom store answers, the answer is the direct one, except for poisonous queries. */
  lemma ChainAnswers(remote: Remote, typ: EntryType, q: Query)
    requires WellFormed(remote.blocks) && InBounds(q) && Faithful(remote, typ, q)
    requires !Poisonous(remote, typ, q)
    ensures FetchFromChain(remote, typ, q).Ok? ==>
      FetchFromChain(remote, typ, q).value == Answer(remote.blocks, typ, q)
  {
    if q.QueryRange? {
      ChainAnswersRange(remote, typ, q.start, q.end);
    } else {
      ChainAnswersHash(remote, typ, q.hash);
    }
    hide FetchFromChain, Answer, WellFormed, Faithful, ZeroHashQuery, TagLogsQuery;
  }

  /** The bottom store answers a zero-hash query with an entry that claims to be block 0. */
  lemma ChainInventsZeroBlock(remote: Remote, typ: EntryType)
    requires WellFormed(remote.blocks) && typ != Receipts && !remote.byHashDown
    ensures
      var r := FetchFromChain(remote, typ, QueryHash(ZERO_HASH));
      && r.Ok? && |r.value| == 1
      && r.value[0].blockHash == ZERO_HASH && r.value[0].blockNumber == 0
  {
    NoZeroBlock(remote.blocks);
  }

  /** The exceptions are real: a poisonous query is answered with one entry, which has the zero hash or a
      tag for a number. */
  lemma ChainInventsEntry(remote: Remote, typ: EntryType, q: Query)
    requires WellFormed(remote.blocks) && InBounds(q) && Poisonous(remote, typ, q)
    ensures
      var r := FetchFromChain(remote, typ, q);
      && r.Ok? && |r.value| == 1
      && (r.value[0].blockHash == ZERO_HASH || r.value[0].blockNumber >= TWO_63)
  {
    if ZeroHashQuery(typ, q) {
      ChainInventsZeroBlock(remote, typ);
    }
  }

  // When the bottom store answers.

  /** The calls that a query needs do not fail. Receipts cannot be asked for by hash, and a range is asked
      for block by block until one is missing. */
  ghost predicate Reachable(remote: Remote, typ: EntryType, q: Query) {
    match q
    case QueryHash(_) => typ != Receipts && !remote.byHashDown
    case QueryRange(start, end) =>
      if typ == Logs then Replies(remote) else ReachableFrom(remote, typ, start, end)
  }

  /** Before each failing call of start..end some block is found to be missing. */
  ghost predicate ReachableFrom(remote: Remote, typ: EntryType, start: nat, end: nat) {
    forall n | start <= n <= end && n in remote.down ::
      exists m :: start <= m < n && m !in remote.down && !Has(remote.blocks, typ, m)
  }

  lemma {:induction false} ScanAnswersIff(remote: Remote, typ: EntryType, i: nat, end: nat, entries: seq<Entry>)
    requires typ != Logs && WellFormed(remote.blocks)
    ensures Scan(remote, typ, i, end, entries).Ok? <==> ReachableFrom(remote, typ, i, end)
    decreases end + 1 - i
  {
    if i <= end {
      ProbeFinds(remote, typ, i);
      match ProbeOf(remote, typ, i)
      case Failed => assert i in remote.down;
      case Missing =>
        assert i !in remote.down && !Has(remote.blocks, typ, i);
      case Found(entry) =>
        ScanAnswersIff(remote, typ, i + 1, end, entries + [entry]);
        assert i !in remote.down && Has(remote.blocks, typ, i);
        ReachableNext(remote, typ, i, end);
      hide WellFormed, Has;
    }
  }

  lemma ReachableNext(remote: Remote, typ: EntryType, i: nat, end: nat)
    requires i <= end && i !in remote.down && Has(remote.blocks, typ, i)
    ensures ReachableFrom(remote, typ, i, end) <==> ReachableFrom(remote, typ, i + 1, end)
  {
    hide Has;
  }

  /** The bottom store answers exactly when the calls that the query needs do not fail. */
  lemma ChainAnswersIff(remote: Remote, typ: EntryType, q: Query)
    requires WellFormed(remote.blocks) && InBounds(q)
    ensures FetchFromChain(remote, typ, q).Ok? <==> Reachable(remote, typ, q)
  {
    if q.QueryRange? && typ != Logs {
      ScanAnswersIff(remote, typ, q.start, q.end, []);
    }
    hide WellFormed, ReachableFrom, Scan;
  }

  lemma NoZeroBlock(blocks: seq<Block>)
    requires WellFormed(blocks)
    ensures NumberOf(blocks, ZERO_HASH).None?
  {
    forall n | 0 <= n < |blocks| ensures blocks[n].hash != ZERO_HASH {
      assert WellFormedBlock(blocks, n);
    }
  }
}
