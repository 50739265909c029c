/** What a Put does to the shared cache, told key by key; and a Put as steps that others may come between. */
module RedisLaws {
  import opened Basics
  import opened Types
  import opened Rediblock
  import opened RedisRuns

  // Which keys a Put touches.

  predicate InBatch(k: NumberKey, chain: ChainName, typ: EntryType, entries: seq<Entry>) {
    k.chain == chain && k.typ == typ && exists e :: e in entries && e.blockNumber == k.number
  }

  /** The hash stored below a block, at the wrapped number for block 0, is live and not its parent's. */
  predicate LiveMismatch(s: RedisState, chain: ChainName, typ: EntryType, e: Entry) {
    var k := NumberKey(typ, if e.blockNumber == 0 then TWO_64 - 1 else e.blockNumber - 1, chain);
    && e.parentHash.Some? && k in s.numberHash && s.now < s.numberHash[k].expires
    && s.numberHash[k].value != e.parentHash.value
  }

  predicate AnyLiveMismatch(s: RedisState, chain: ChainName, typ: EntryType, entries: seq<Entry>) {
    exists e :: e in entries && LiveMismatch(s, chain, typ, e)
  }

  lemma MismatchIsReorg(s: RedisState, chain: ChainName, typ: EntryType, entries: seq<Entry>)
    ensures AnyLiveMismatch(s, chain, typ, entries) <==> ReorgSeen(s, chain, typ, entries)
    ensures AnyLiveMismatch(s, chain, typ, entries) ==> ChecksReorg(entries)
  {
    if ReorgSeen(s, chain, typ, entries) {
      var i :| 0 <= i < |entries| && Contradicts(s, chain, typ, entries[i]);
      assert entries[i] in entries && LiveMismatch(s, chain, typ, entries[i]);
    }
    if e :| e in entries && LiveMismatch(s, chain, typ, e) {
      var i :| 0 <= i < |entries| && entries[i] == e;
      assert Contradicts(s, chain, typ, entries[i]);
    }
  }

  /** Adding puts in the batch's numbers and leaves every other key by number alone. */
  lemma {:induction false} AddAllNumbers(s: RedisState, chain: ChainName, typ: EntryType, secondsPerBlock: nat,
                                         entries: seq<Entry>, k: NumberKey)
    ensures var r := AddAll(s, chain, typ, secondsPerBlock, entries);
      && r.now == s.now
      && (InBatch(k, chain, typ, entries) ==> k in r.numberValue && k in r.numberHash)
      && (!InBatch(k, chain, typ, entries) ==>
            && (k in r.numberValue <==> k in s.numberValue) && (k in r.numberHash <==> k in s.numberHash)
            && (k in s.numberValue ==> r.numberValue[k] == s.numberValue[k])
            && (k in s.numberHash ==> r.numberHash[k] == s.numberHash[k]))
    decreases |entries|
  {
    if entries != [] {
      var s1, rest := AddOne(s, chain, typ, secondsPerBlock, entries[0]), entries[1..];
      AddAllNumbers(s1, chain, typ, secondsPerBlock, rest, k);
      assert entries == [entries[0]] + rest;
      assert InBatch(k, chain, typ, entries)
        <==> k == NumberKey(typ, entries[0].blockNumber, chain) || InBatch(k, chain, typ, rest);
      hide TimeToLive;
    }
  }

  /** A Put that finds a live hash below one of its blocks which is not the parent's leaves nothing of the
      chain by number but its own blocks, and nothing of other chains changed. */
  lemma PutAfterReorg(s: RedisState, chain: ChainName, typ: EntryType, secondsPerBlock: nat, entries: seq<Entry>,
                      k: NumberKey)
    requires AnyLiveMismatch(s, chain, typ, entries)
    ensures var (r, ok) := PutOutcome(s, chain, typ, secondsPerBlock, entries, NoFault);
      && ok
      && (k.chain == chain ==>
            && (k in r.numberValue <==> InBatch(k, chain, typ, entries))
            && (k in r.numberHash <==> InBatch(k, chain, typ, entries)))
      && (k.chain != chain ==>
            && (k in r.numberValue <==> k in s.numberValue) && (k in r.numberHash <==> k in s.numberHash)
            && (k in s.numberValue ==> r.numberValue[k] == s.numberValue[k])
            && (k in s.numberHash ==> r.numberHash[k] == s.numberHash[k]))
  {
    MismatchIsReorg(s, chain, typ, entries);
    AddAllNumbers(DropNumbers(s, chain), chain, typ, secondsPerBlock, entries, k);
    hide AddAll, ReorgSeen, ChecksReorg, AnyLiveMismatch;
  }

  /** A Put that finds none changes no key by number outside its batch. */
  lemma PutWithoutReorg(s: RedisState, chain: ChainName, typ: EntryType, secondsPerBlock: nat, entries: seq<Entry>,
                        k: NumberKey)
    requires !AnyLiveMismatch(s, chain, typ, entries)
    ensures var (r, ok) := PutOutcome(s, chain, typ, secondsPerBlock, entries, NoFault);
      && ok
      && (InBatch(k, chain, typ, entries) ==> k in r.numberValue && k in r.numberHash)
      && (!InBatch(k, chain, typ, entries) ==>
            && (k in r.numberValue <==> k in s.numberValue) && (k in r.numberHash <==> k in s.numberHash)
            && (k in s.numberValue ==> r.numberValue[k] == s.numberValue[k])
            && (k in s.numberHash ==> r.numberHash[k] == s.numberHash[k]))
  {
    MismatchIsReorg(s, chain, typ, entries);
    AddAllNumbers(s, chain, typ, secondsPerBlock, entries, k);
    hide AddAll, ReorgSeen, ChecksReorg, AnyLiveMismatch;
  }

  /** Where the connection fails: in the check or the clean-up nothing has changed, before the script the
      chain's numbers may be gone, after it everything has been done; and the Put is an error. */
  lemma FaultedPut(s: RedisState, chain: ChainName, typ: EntryType, secondsPerBlock: nat, entries: seq<Entry>,
                   k: NumberKey)
    ensures PutOutcome(s, chain, typ, secondsPerBlock, entries, AtReply)
      == (PutOutcome(s, chain, typ, secondsPerBlock, entries, NoFault).0, false)
    ensures (exists e :: e in entries && e.parentHash.Some?) ==>
      PutOutcome(s, chain, typ, secondsPerBlock, entries, AtCheck) == (s, false)
    ensures AnyLiveMismatch(s, chain, typ, entries) ==>
      PutOutcome(s, chain, typ, secondsPerBlock, entries, AtDelete) == (s, false)
    ensures !AnyLiveMismatch(s, chain, typ, entries) ==>
      PutOutcome(s, chain, typ, secondsPerBlock, entries, AtAdd) == (s, false)
    ensures AnyLiveMismatch(s, chain, typ, entries) ==>
      var (r, ok) := PutOutcome(s, chain, typ, secondsPerBlock, entries, AtAdd);
      !ok && (k.chain == chain ==> k !in r.numberValue && k !in r.numberHash)
  {
    MismatchIsReorg(s, chain, typ, entries);
    hide AddAll, ReorgSeen, AnyLiveMismatch;
    if e :| e in entries && e.parentHash.Some? {
      var i :| 0 <= i < |entries| && entries[i] == e;
      assert entries[i].parentHash.Some?;
    }
  }

  // What one entry becomes.

  /** A block `behind` blocks below the head, itself included, lives that many block times, within one
      second and an hour. */
  lemma LifetimeIs(head: nat, number: nat, secondsPerBlock: nat)
    requires number <= head && secondsPerBlock >= 1
    ensures var product := (head - number + 1) * secondsPerBlock;
      TimeToLive(head, number, secondsPerBlock) == if product < 3600 then product else 3600
  {
    assert (head - number + 1) * secondsPerBlock >= 1;
  }

  /** One entry is stored under its four keys, all to expire when its lifetime at the raised head is over,
      and no other key changes. */
  lemma OneIsStored(s: RedisState, chain: ChainName, typ: EntryType, secondsPerBlock: nat, e: Entry)
    requires secondsPerBlock >= 1
    ensures
      var r := AddAll(s, chain, typ, secondsPerBlock, [e]);
      var head := if e.blockNumber > StoredHead(s, chain) then e.blockNumber else StoredHead(s, chain);
      var product := (head - e.blockNumber + 1) * secondsPerBlock;
      var expires := s.now + if product < 3600 then product else 3600;
      var h, n := HashKey(typ, e.blockHash, chain), NumberKey(typ, e.blockNumber, chain);
      && r.now == s.now && StoredHead(r, chain) == head
      && r.hashValue == s.hashValue[h := Cell(e.value, expires)]
      && r.hashNumber == s.hashNumber[h := Cell(e.blockNumber, expires)]
      && r.numberValue == s.numberValue[n := Cell(e.value, expires)]
      && r.numberHash == s.numberHash[n := Cell(e.blockHash, expires)]
  {
    var head := if e.blockNumber > StoredHead(s, chain) then e.blockNumber else StoredHead(s, chain);
    LifetimeIs(head, e.blockNumber, secondsPerBlock);
    assert [e][1..] == [];
    var r := AddOne(s, chain, typ, secondsPerBlock, e);
    assert AddAll(r, chain, typ, secondsPerBlock, []) == r;
    hide TimeToLive;
  }

  /** A batch is its entries one after another. */
  lemma {:induction false} AddAllFold(s: RedisState, chain: ChainName, typ: EntryType, secondsPerBlock: nat,
                                      a: seq<Entry>, b: seq<Entry>)
    ensures AddAll(s, chain, typ, secondsPerBlock, a + b)
      == AddAll(AddAll(s, chain, typ, secondsPerBlock, a), chain, typ, secondsPerBlock, b)
    decreases |a|
  {
    if a == [] {
      assert a + b == b;
    } else {
      assert (a + b)[0] == a[0] && (a + b)[1..] == a[1..] + b;
      AddAllFold(AddOne(s, chain, typ, secondsPerBlock, a[0]), chain, typ, secondsPerBlock, a[1..], b);
    }
    hide AddOne;
  }

  // A Put as steps.

  /** The same live cells. */
  ghost predicate SameCells<K(!new), V>(a: map<K, Cell<V>>, b: map<K, Cell<V>>, now: nat) {
    forall k: K :: (Live(a, k, now) <==> Live(b, k, now)) && (Live(a, k, now) ==> a[k] == b[k])
  }

  /** No reader can tell the two databases apart, now or later. */
  ghost predicate SameReads(a: RedisState, b: RedisState) {
    && a.now == b.now && a.heads == b.heads
    && SameCells(a.hashValue, b.hashValue, a.now) && SameCells(a.hashNumber, b.hashNumber, a.now)
    && SameCells(a.numberValue, b.numberValue, a.now) && SameCells(a.numberHash, b.numberHash, a.now)
  }

  lemma SameCellsSet<K(!new), V>(a: map<K, Cell<V>>, b: map<K, Cell<V>>, key: K, cell: Cell<V>, now: nat)
    requires SameCells(a, b, now)
    ensures SameCells(a[key := cell], b[key := cell], now)
  {
  }

  /** When the keys of one entry expire. */
  function Expiry(s: RedisState, chain: ChainName, secondsPerBlock: nat, number: nat): nat {
    s.now + TimeToLive(if number > StoredHead(s, chain) then number else StoredHead(s, chain), number, secondsPerBlock)
  }

  lemma AddOneIs(s: RedisState, chain: ChainName, typ: EntryType, secondsPerBlock: nat, e: Entry)
    ensures
      var r, expires := AddOne(s, chain, typ, secondsPerBlock, e), Expiry(s, chain, secondsPerBlock, e.blockNumber);
      var h, n := HashKey(typ, e.blockHash, chain), NumberKey(typ, e.blockNumber, chain);
      && r.now == s.now
      && r.heads == (if e.blockNumber > StoredHead(s, chain) then s.heads[chain := e.blockNumber] else s.heads)
      && r.hashValue == s.hashValue[h := Cell(e.value, expires)]
      && r.hashNumber == s.hashNumber[h := Cell(e.blockNumber, expires)]
      && r.numberValue == s.numberValue[n := Cell(e.value, expires)]
      && r.numberHash == s.numberHash[n := Cell(e.blockHash, expires)]
  {
    hide TimeToLive;
  }

  lemma AddOneSame(a: RedisState, b: RedisState, chain: ChainName, typ: EntryType, secondsPerBlock: nat, e: Entry)
    requires SameReads(a, b)
    ensures SameReads(AddOne(a, chain, typ, secondsPerBlock, e), AddOne(b, chain, typ, secondsPerBlock, e))
  {
    var expires := Expiry(a, chain, secondsPerBlock, e.blockNumber);
    var h, n := HashKey(typ, e.blockHash, chain), NumberKey(typ, e.blockNumber, chain);
    AddOneIs(a, chain, typ, secondsPerBlock, e);
    AddOneIs(b, chain, typ, secondsPerBlock, e);
    assert expires == Expiry(b, chain, secondsPerBlock, e.blockNumber);
    hide TimeToLive, SameCells, AddOne, Expiry, StoredHead;
    SameCellsSet(a.hashValue, b.hashValue, h, Cell(e.value, expires), a.now);
    SameCellsSet(a.hashNumber, b.hashNumber, h, Cell(e.blockNumber, expires), a.now);
    SameCellsSet(a.numberValue, b.numberValue, n, Cell(e.value, expires), a.now);
    SameCellsSet(a.numberHash, b.numberHash, n, Cell(e.blockHash, expires), a.now);
    SameHeads(a, b, chain);
  }

  lemma SameHeads(a: RedisState, b: RedisState, chain: ChainName)
    requires a.heads == b.heads
    ensures StoredHead(a, chain) == StoredHead(b, chain)
  {
  }

  lemma {:induction false} AddAllSame(a: RedisState, b: RedisState, chain: ChainName, typ: EntryType,
                                      secondsPerBlock: nat, entries: seq<Entry>)
    requires SameReads(a, b)
    ensures SameReads(AddAll(a, chain, typ, secondsPerBlock, entries), AddAll(b, chain, typ, secondsPerBlock, entries))
    decreases |entries|
  {
    if entries != [] {
      AddOneSame(a, b, chain, typ, secondsPerBlock, entries[0]);
      AddAllSame(AddOne(a, chain, typ, secondsPerBlock, entries[0]), AddOne(b, chain, typ, secondsPerBlock, entries[0]),
                 chain, typ, secondsPerBlock, entries[1..]);
      hide AddOne, SameReads;
    }
  }

  /** Listing the live keys of a chain by number and deleting them is the clean-up. */
  lemma CleanUpIsSteps(run: Run, chain: ChainName)
    ensures
      var run' := Step(Step(run, ListKeys(chain)), DeleteListed(|run.listed|));
      && run'.listed == run.listed && run'.puts == run.puts
      && SameReads(run'.db, DropNumbers(run.db, chain))
  {
    var listed := Step(run, ListKeys(chain));
    assert listed.listed[..|run.listed|] == run.listed;
    assert listed.listed[|run.listed| + 1..] == [];
  }

  /** A Put is the steps of the runs: after a mismatch list, delete and add, otherwise add. */
  lemma PutIsSteps(run: Run, chain: ChainName, typ: EntryType, secondsPerBlock: nat, entries: seq<Entry>)
    ensures
      var cleaned :=
        if AnyLiveMismatch(run.db, chain, typ, entries)
        then Step(Step(run, ListKeys(chain)), DeleteListed(|run.listed|)) else run;
      var run' := Step(cleaned, Add(chain, typ, secondsPerBlock, entries));
      && run'.listed == run.listed
      && SameReads(run'.db, PutOutcome(run.db, chain, typ, secondsPerBlock, entries, NoFault).0)
  {
    MismatchIsReorg(run.db, chain, typ, entries);
    if AnyLiveMismatch(run.db, chain, typ, entries) {
      CleanUpIsSteps(run, chain);
      AddAllSame(Step(Step(run, ListKeys(chain)), DeleteListed(|run.listed|)).db, DropNumbers(run.db, chain),
                 chain, typ, secondsPerBlock, entries);
    } else {
      AddAllSame(run.db, run.db, chain, typ, secondsPerBlock, entries);
    }
    hide AddAll, SameReads, DropNumbers, ReorgSeen, ChecksReorg, AnyLiveMismatch, LiveNumbers;
  }
}
