/** The values shared by the block stores: entries, queries and the JSON messages they carry. */
module Types {
  import opened Basics
  import opened Json

  const TWO_63: nat := 0x8000_0000_0000_0000
  const TWO_64: nat := 0x1_0000_0000_0000_0000

  type Hash = int

  const ZERO_HASH: Hash := 0

  type Address = int

  datatype Log = Log(address: Address, topics: seq<Hash>,
                     blockHash: Hash, blockNumber: nat, transactionHash: Hash, payload: int)

  datatype Receipt = Receipt(blockHash: Hash, payload: int)

  /** The fields of a block that the stores decode. */
  datatype Head = Head(hash: Hash, number: nat, parentHash: Hash)

  /** A raw JSON message, as deep as the stores look into it. */
  datatype Message =
    | Null
    | BlockJson(head: Head, body: int)
    | LogsJson(logs: Buffer<Log>)
    | ReceiptsJson(receipts: seq<Receipt>)

  datatype EntryType = BlockHeader | Logs | Receipts

  datatype Entry = Entry(blockHash: Hash, blockNumber: nat, parentHash: Option<Hash>, value: Message)

  datatype Query = QueryRange(start: nat, end: nat) | QueryHash(hash: Hash)

  /** The keys of the two indices, by number and by hash. */
  datatype NumberKey = NumberKey(typ: EntryType, number: nat, chain: ChainName)
  datatype HashKey = HashKey(typ: EntryType, hash: Hash, chain: ChainName)

  datatype Result<+T> = Ok(value: T) | Err

  /** `BlockNumber - 1` in unsigned 64-bit arithmetic. */
  function Predecessor(n: nat): nat {
    if n == 0 then TWO_64 - 1 else n - 1
  }

  /** A range of block numbers, not inverted and within the signed range. */
  predicate Ordinary(q: Query) {
    q.QueryRange? ==> q.start <= q.end < TWO_63
  }

  /** A range both of whose ends are tags: negative numbers read as unsigned, but not the last one,
      whose successor wraps to 0. */
  predicate Tagged(q: Query) {
    q.QueryRange? && TWO_63 <= q.start <= q.end < TWO_64 - 1
  }

  /** The queries, other than inverted ranges, for which the stores' 64-bit capacities and counters do
      not wrap or overrun. */
  predicate InBounds(q: Query) {
    Ordinary(q) || Tagged(q)
  }
}
