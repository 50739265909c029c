/** Chainblock: the bottom store, which asks the remote chain and shapes its answers into entries. */
module Chainblock {
  import opened Basics
  import opened Json
  import opened Types
  import opened Buckets

  datatype Block = Block(hash: Hash, parentHash: Hash, body: int, logs: seq<Log>, receipts: seq<Receipt>)

  /** A remote node during one query: the chain it serves, the calls that fail, and its raw reply
      to a log range request (None when that call fails). */
  datatype Remote = Remote(blocks: seq<Block>, down: set<nat>, byHashDown: bool, rangeReply: Option<Buffer<Log>>)

  /** The number of the block with the given hash. */
  function NumberOf(blocks: seq<Block>, hash: Hash): (r: Option<nat>)
    ensures r.Some? ==> r.value < |blocks| && blocks[r.value].hash == hash
    ensures r.None? ==> forall n | 0 <= n < |blocks| :: blocks[n].hash != hash
  {
    if blocks == [] then None
    else
      var r := NumberOf(blocks[..|blocks| - 1], hash);
      if r.Some? then r
      else if blocks[|blocks| - 1].hash == hash then Some(|blocks| - 1)
      else None
  }

  function HeadOf(blocks: seq<Block>, n: nat): Head
    requires n < |blocks|
  {
    Head(blocks[n].hash, n, blocks[n].parentHash)
  }

  // The remote's replies.

  function BlockByNumber(blocks: seq<Block>, n: nat): Message {
    if n < |blocks| then BlockJson(HeadOf(blocks, n), blocks[n].body) else Null
  }

  function BlockByHash(blocks: seq<Block>, hash: Hash): Message {
    match NumberOf(blocks, hash)
    case Some(n) => BlockByNumber(blocks, n)
    case None => Null
  }

  function ReceiptsByNumber(blocks: seq<Block>, n: nat): Message {
    if n < |blocks| then ReceiptsJson(blocks[n].receipts) else Null
  }

  function LogsByHash(blocks: seq<Block>, hash: Hash): seq<Log> {
    match NumberOf(blocks, hash)
    case Some(n) => blocks[n].logs
    case None => []
  }

  // Decoding. Fields that a message does not have keep their zero value.

  function DecodeHead(m: Message): Head {
    if m.BlockJson? then m.head else Head(ZERO_HASH, 0, ZERO_HASH)
  }

  function FirstReceiptHash(m: Message): Hash {
    if m.ReceiptsJson? && m.receipts != [] then m.receipts[0].blockHash else ZERO_HASH
  }

  function FirstLogHash(logs: seq<Log>): Hash {
    if logs != [] then logs[0].blockHash else ZERO_HASH
  }

  function FirstLogNumber(logs: seq<Log>): nat {
    if logs != [] then logs[0].blockNumber else 0
  }

  /** What asking for one block by number comes to. */
  datatype Probe = Failed | Missing | Found(entry: Entry)

  function ProbeHeader(remote: Remote, n: nat): Probe {
    var m := BlockByNumber(remote.blocks, n);
    var head := DecodeHead(m);
    if n in remote.down then Failed
    else if head.hash == ZERO_HASH then Missing
    else Found(Entry(head.hash, n, Some(head.parentHash), m))
  }

  function ProbeReceipts(remote: Remote, n: nat): Probe {
    var m := ReceiptsByNumber(remote.blocks, n);
    if n in remote.down then Failed
    else if FirstReceiptHash(m) == ZERO_HASH then Missing
    else Found(Entry(FirstReceiptHash(m), n, None, m))
  }

  function ProbeOf(remote: Remote, typ: EntryType, n: nat): Probe {
    if typ == Receipts then ProbeReceipts(remote, n) else ProbeHeader(remote, n)
  }

  /** Asking for start..end in order, after `entries` have been found: the first failure is an
      error, the first missing block makes the whole answer empty. */
  function Scan(remote: Remote, typ: EntryType, i: nat, end: nat, entries: seq<Entry>): Result<seq<Entry>>
    decreases end + 1 - i
  {
    if i > end then Ok(entries)
    else
      match ProbeOf(remote, typ, i)
      case Failed => Err
      case Missing => Ok([])
      case Found(entry) => Scan(remote, typ, i + 1, end, entries + [entry])
  }

  function FetchHeaderByHash(remote: Remote, hash: Hash): Result<seq<Entry>> {
    var m := BlockByHash(remote.blocks, hash);
    var head := DecodeHead(m);
    if remote.byHashDown then Err
    else if head.hash != hash then Ok([])
    else Ok([Entry(hash, head.number, Some(head.parentHash), m)])
  }

  function FetchLogsByHash(remote: Remote, hash: Hash): Result<seq<Entry>> {
    var logs := LogsByHash(remote.blocks, hash);
    if remote.byHashDown then Err
    else if FirstLogHash(logs) != hash then Ok([])
    else Ok([Entry(hash, FirstLogNumber(logs), None, LogsJson(Encode(logs)))])
  }

  function FetchLogsInRange(remote: Remote, start: nat, end: nat): Result<seq<Entry>>
    requires start <= end
  {
    if remote.rangeReply.None? then Err
    else
      var logs := Decode(remote.rangeReply.value);
      if logs.None? then Err
      else if start == end then
        if FirstLogHash(logs.value) == ZERO_HASH then Ok([])
        else Ok([Entry(FirstLogHash(logs.value), start, None, LogsJson(remote.rangeReply.value))])
      else Ok(BucketsOf(logs.value, start, end + 1 - start))
  }

  function FetchFromChain(remote: Remote, typ: EntryType, q: Query): Result<seq<Entry>>
    requires InBounds(q)
  {
    match typ
    case BlockHeader =>
      (match q
       case QueryHash(hash) => FetchHeaderByHash(remote, hash)
       case QueryRange(start, end) => Scan(remote, BlockHeader, start, end, []))
    case Receipts =>
      (match q
       case QueryHash(_) => Err
       case QueryRange(start, end) => Scan(remote, Receipts, start, end, []))
    case Logs =>
      (match q
       case QueryHash(hash) => FetchLogsByHash(remote, hash)
       case QueryRange(start, end) => FetchLogsInRange(remote, start, end))
  }

  /** The numbers in a remote's replies fit 64-bit words. */
  ghost predicate WordSized(remote: Remote) {
    remote.rangeReply.Some? && Decode(remote.rangeReply.value).Some? ==>
      forall l | l in Decode(remote.rangeReply.value).value :: l.blockNumber < TWO_64
  }

  method Get(remote: Remote, typ: EntryType, q: Query) returns (r: Result<seq<Entry>>)
    requires InBounds(q) && WordSized(remote)
    ensures r == FetchFromChain(remote, typ, q)
  {
    match typ
    case BlockHeader => r := GetBlockHeaders(remote, q);
    case Receipts => r := GetReceipts(remote, q);
    case Logs => r := GetLogs(remote, q);
  }

  method GetBlockHeaders(remote: Remote, q: Query) returns (r: Result<seq<Entry>>)
    requires InBounds(q)
    ensures r == FetchFromChain(remote, BlockHeader, q)
  {
    match q
    case QueryHash(hash) =>
      if remote.byHashDown {
        return Err;
      }
      var value := BlockByHash(remote.blocks, hash);
      var head := DecodeHead(value);
      if head.hash != hash {
        return Ok([]);
      }
      return Ok([Entry(hash, head.number, Some(head.parentHash), value)]);
    case QueryRange(start, end) =>
      var out := new Entry[end - start + 1];
      var i := start;
      while i <= end
        invariant start <= i <= end + 1
        invariant Scan(remote, BlockHeader, i, end, out[..i - start]) == Scan(remote, BlockHeader, start, end, [])
      {
        if i in remote.down {
          return Err;
        }
        var value := BlockByNumber(remote.blocks, i);
        var head := DecodeHead(value);
        if head.hash == ZERO_HASH {
          return Ok([]);
        }
        ghost var before := out[..i - start];
        out[i - start] := Entry(head.hash, i, Some(head.parentHash), value);
        assert out[..i + 1 - start] == before + [out[i - start]];
        i := i + 1;
      }
      assert out[..i - start] == out[..];
      return Ok(out[..]);
  }

  method GetReceipts(remote: Remote, q: Query) returns (r: Result<seq<Entry>>)
    requires InBounds(q)
    ensures r == FetchFromChain(remote, Receipts, q)
  {
    match q
    case QueryHash(_) => return Err;
    case QueryRange(start, end) =>
      var out := new Entry[end - start + 1];
      var i := start;
      while i <= end
        invariant start <= i <= end + 1
        invariant Scan(remote, Receipts, i, end, out[..i - start]) == Scan(remote, Receipts, start, end, [])
      {
        if i in remote.down {
          return Err;
        }
        var value := ReceiptsByNumber(remote.blocks, i);
        var blockHash := FirstReceiptHash(value);
        if blockHash == ZERO_HASH {
          return Ok([]);
        }
        ghost var before := out[..i - start];
        out[i - start] := Entry(blockHash, i, None, value);
        assert out[..i + 1 - start] == before + [out[i - start]];
        i := i + 1;
      }
      assert out[..i - start] == out[..];
      return Ok(out[..]);
  }

  method GetLogs(remote: Remote, q: Query) returns (r: Result<seq<Entry>>)
    requires InBounds(q) && WordSized(remote)
    ensures r == FetchFromChain(remote, Logs, q)
  {
    match q
    case QueryHash(hash) =>
      if remote.byHashDown {
        return Err;
      }
      var logs := LogsByHash(remote.blocks, hash);
      if FirstLogHash(logs) != hash {
        return Ok([]);
      }
      return Ok([Entry(hash, FirstLogNumber(logs), None, LogsJson(Encode(logs)))]);
    case QueryRange(start, end) =>
      if remote.rangeReply.None? {
        return Err;
      }
      var logs := Decode(remote.rangeReply.value);
      if logs.None? {
        return Err;
      }
      if start == end {
        var blockHash := FirstLogHash(logs.value);
        if blockHash == ZERO_HASH {
          return Ok([]);
        }
        return Ok([Entry(blockHash, start, None, LogsJson(remote.rangeReply.value))]);
      }
      var results := Split(logs.value, start, end - start + 1);
      return Ok(results);
  }
}
