/** What the Redis entry store keeps over every run: scripts that add entries, reorg clean-ups
    (list the keys, later delete them) and the passing of time, in any interleaving. */
module RedisRuns {
  import opened Basics
  import opened Types
  import opened Rediblock

  datatype Put = Put(chain: ChainName, typ: EntryType, entry: Entry)

  /** Keys found by one clean-up: the value keys and the hash keys by number. */
  datatype Listing = Listing(values: set<NumberKey>, hashes: set<NumberKey>)

  /** The database, the clean-ups that have listed but not yet deleted, and every entry ever put. */
  datatype Run = Run(db: RedisState, listed: seq<Listing>, puts: seq<Put>)

  datatype Event =
    | Add(chain: ChainName, typ: EntryType, secondsPerBlock: nat, entries: seq<Entry>)
    | ListKeys(chain: ChainName)
    | DeleteListed(index: nat)
    | Tick(seconds: nat)

  function PutsOf(chain: ChainName, typ: EntryType, entries: seq<Entry>): seq<Put> {
    seq(|entries|, i requires 0 <= i < |entries| => Put(chain, typ, entries[i]))
  }

  function LiveNumbers<V>(m: map<NumberKey, Cell<V>>, chain: ChainName, now: nat): set<NumberKey> {
    set k | k in m && k.chain == chain && now < m[k].expires
  }

  function Step(run: Run, event: Event): Run {
    match event
    case Add(chain, typ, secondsPerBlock, entries) =>
      run.(db := AddAll(run.db, chain, typ, secondsPerBlock, entries), puts := run.puts + PutsOf(chain, typ, entries))
    case ListKeys(chain) =>
      run.(listed := run.listed + [Listing(LiveNumbers(run.db.numberValue, chain, run.db.now),
                                           LiveNumbers(run.db.numberHash, chain, run.db.now))])
    case DeleteListed(index) =>
      if index < |run.listed| then
        var listing := run.listed[index];
        run.(db := run.db.(numberValue := run.db.numberValue - listing.values,
                           numberHash := run.db.numberHash - listing.hashes),
             listed := run.listed[..index] + run.listed[index + 1..])
      else run
    case Tick(seconds) => run.(db := run.db.(now := run.db.now + seconds))
  }

  function Exec(events: seq<Event>): Run {
    if events == [] then Run(RedisState(0, map[], map[], map[], map[], map[]), [], [])
    else Step(Exec(events[..|events| - 1]), events[|events| - 1])
  }

  /** The largest number ever put for a chain. */
  function MaxPut(puts: seq<Put>, chain: ChainName): nat {
    if puts == [] then 0
    else
      var before := MaxPut(puts[..|puts| - 1], chain);
      var last := puts[|puts| - 1];
      if last.chain == chain && last.entry.blockNumber > before then last.entry.blockNumber else before
  }

  lemma {:induction false} MaxPutIsMaximum(puts: seq<Put>, chain: ChainName)
    ensures forall p | p in puts && p.chain == chain :: p.entry.blockNumber <= MaxPut(puts, chain)
    ensures MaxPut(puts, chain) == 0
      || exists p :: p in puts && p.chain == chain && p.entry.blockNumber == MaxPut(puts, chain)
  {
    if puts != [] {
      MaxPutIsMaximum(puts[..|puts| - 1], chain);
      assert puts == puts[..|puts| - 1] + [puts[|puts| - 1]];
      assert puts[|puts| - 1] in puts;
    }
  }

  /** What is stored for a number: value and hash expire together and come from one entry. */
  ghost predicate NumberPair(run: Run, k: NumberKey) {
    && k in run.db.numberValue && k in run.db.numberHash
    && run.db.numberValue[k].expires == run.db.numberHash[k].expires <= run.db.now + MAX_TTL
    && exists p :: p in run.puts && p.chain == k.chain && p.typ == k.typ && p.entry.blockNumber == k.number
         && p.entry.value == run.db.numberValue[k].value && p.entry.blockHash == run.db.numberHash[k].value
  }

  ghost predicate HashPair(run: Run, k: HashKey) {
    && k in run.db.hashValue && k in run.db.hashNumber
    && run.db.hashValue[k].expires == run.db.hashNumber[k].expires <= run.db.now + MAX_TTL
    && exists p :: p in run.puts && p.chain == k.chain && p.typ == k.typ && p.entry.blockHash == k.hash
         && p.entry.value == run.db.hashValue[k].value && p.entry.blockNumber == run.db.hashNumber[k].value
  }

  ghost predicate NumbersPaired(run: Run) {
    forall k | k in run.db.numberValue || k in run.db.numberHash :: NumberPair(run, k)
  }

  ghost predicate HashesPaired(run: Run) {
    forall k | k in run.db.hashValue || k in run.db.hashNumber :: HashPair(run, k)
  }

  ghost predicate ListingsPaired(run: Run) {
    forall i | 0 <= i < |run.listed| :: run.listed[i].values == run.listed[i].hashes
  }

  ghost predicate HeadsAreMaxima(run: Run) {
    forall chain :: StoredHead(run.db, chain) == MaxPut(run.puts, chain)
  }

  ghost predicate Good(run: Run) {
    NumbersPaired(run) && HashesPaired(run) && ListingsPaired(run) && HeadsAreMaxima(run)
  }

  /** The run after one round of the adding script. */
  function AfterOne(run: Run, chain: ChainName, typ: EntryType, secondsPerBlock: nat, e: Entry): Run {
    run.(db := AddOne(run.db, chain, typ, secondsPerBlock, e), puts := run.puts + [Put(chain, typ, e)])
  }

  lemma AddOneNumbers(run: Run, chain: ChainName, typ: EntryType, secondsPerBlock: nat, e: Entry)
    requires NumbersPaired(run)
    ensures NumbersPaired(AfterOne(run, chain, typ, secondsPerBlock, e))
  {
    var r := AfterOne(run, chain, typ, secondsPerBlock, e);
    var p := Put(chain, typ, e);
    assert p == r.puts[|run.puts|];
    forall k | k in r.db.numberValue || k in r.db.numberHash ensures NumberPair(r, k) {
      if k != NumberKey(typ, e.blockNumber, chain) {
        assert NumberPair(run, k);
        var q :| q in run.puts && q.chain == k.chain && q.typ == k.typ && q.entry.blockNumber == k.number
          && q.entry.value == run.db.numberValue[k].value && q.entry.blockHash == run.db.numberHash[k].value;
        assert q in r.puts;
      } else {
        assert p in r.puts;
      }
    }
  }

  lemma AddOneHashes(run: Run, chain: ChainName, typ: EntryType, secondsPerBlock: nat, e: Entry)
    requires HashesPaired(run)
    ensures HashesPaired(AfterOne(run, chain, typ, secondsPerBlock, e))
  {
    var r := AfterOne(run, chain, typ, secondsPerBlock, e);
    var p := Put(chain, typ, e);
    assert p == r.puts[|run.puts|];
    forall k | k in r.db.hashValue || k in r.db.hashNumber ensures HashPair(r, k) {
      if k != HashKey(typ, e.blockHash, chain) {
        assert HashPair(run, k);
        var q :| q in run.puts && q.chain == k.chain && q.typ == k.typ && q.entry.blockHash == k.hash
          && q.entry.value == run.db.hashValue[k].value && q.entry.blockNumber == run.db.hashNumber[k].value;
        assert q in r.puts;
      } else {
        assert p in r.puts;
      }
    }
  }

  lemma AddOneHeads(run: Run, chain: ChainName, typ: EntryType, secondsPerBlock: nat, e: Entry)
    requires HeadsAreMaxima(run)
    ensures HeadsAreMaxima(AfterOne(run, chain, typ, secondsPerBlock, e))
  {
    var r := AfterOne(run, chain, typ, secondsPerBlock, e);
    forall c ensures StoredHead(r.db, c) == MaxPut(r.puts, c) {
      assert r.puts[..|r.puts| - 1] == run.puts;
      assert StoredHead(run.db, c) == MaxPut(run.puts, c);
    }
  }

  lemma {:induction false} AddAllGood(run: Run, chain: ChainName, typ: EntryType, secondsPerBlock: nat,
                                      entries: seq<Entry>)
    requires Good(run)
    ensures Good(Step(run, Add(chain, typ, secondsPerBlock, entries)))
    decreases |entries|
  {
    if entries == [] {
      assert run.puts + PutsOf(chain, typ, entries) == run.puts;
    } else {
      AddOneNumbers(run, chain, typ, secondsPerBlock, entries[0]);
      AddOneHashes(run, chain, typ, secondsPerBlock, entries[0]);
      AddOneHeads(run, chain, typ, secondsPerBlock, entries[0]);
      var r := AfterOne(run, chain, typ, secondsPerBlock, entries[0]);
      AddAllGood(r, chain, typ, secondsPerBlock, entries[1..]);
      assert PutsOf(chain, typ, entries) == [Put(chain, typ, entries[0])] + PutsOf(chain, typ, entries[1..]);
      assert r.puts + PutsOf(chain, typ, entries[1..]) == run.puts + PutsOf(chain, typ, entries);
    }
  }

  lemma ListKeysGood(run: Run, chain: ChainName)
    requires Good(run)
    ensures Good(Step(run, ListKeys(chain)))
  {
    var r := Step(run, ListKeys(chain));
    var listing := r.listed[|run.listed|];
    forall k ensures k in listing.values <==> k in listing.hashes {
      assert k in run.db.numberValue || k in run.db.numberHash ==> NumberPair(run, k);
    }
    assert forall k | k in run.db.numberValue || k in run.db.numberHash :: NumberPair(run, k) ==> NumberPair(r, k);
    assert forall k | k in run.db.hashValue || k in run.db.hashNumber :: HashPair(run, k) ==> HashPair(r, k);
  }

  lemma DeleteListedGood(run: Run, index: nat)
    requires Good(run)
    ensures Good(Step(run, DeleteListed(index)))
  {
    if index < |run.listed| {
      var r := Step(run, DeleteListed(index));
      assert run.listed[index].values == run.listed[index].hashes;
      forall k | k in r.db.numberValue || k in r.db.numberHash ensures NumberPair(r, k) {
        assert NumberPair(run, k);
      }
      forall k | k in r.db.hashValue || k in r.db.hashNumber ensures HashPair(r, k) {
        assert HashPair(run, k);
      }
    }
  }

  lemma TickGood(run: Run, seconds: nat)
    requires Good(run)
    ensures Good(Step(run, Tick(seconds)))
  {
    var r := Step(run, Tick(seconds));
    forall k | k in r.db.numberValue || k in r.db.numberHash ensures NumberPair(r, k) {
      assert NumberPair(run, k);
    }
    forall k | k in r.db.hashValue || k in r.db.hashNumber ensures HashPair(r, k) {
      assert HashPair(run, k);
    }
  }

  /** After every run: the stored head is the largest number ever put, no key outlives 3600
      seconds, and the two keys of a number (of a hash) stem from one entry and expire together. */
  lemma {:induction false} EveryRunGood(events: seq<Event>)
    ensures Good(Exec(events))
  {
    if events != [] {
      var run, event := Exec(events[..|events| - 1]), events[|events| - 1];
      EveryRunGood(events[..|events| - 1]);
      match event
      case Add(chain, typ, secondsPerBlock, entries) => AddAllGood(run, chain, typ, secondsPerBlock, entries);
      case ListKeys(chain) => ListKeysGood(run, chain);
      case DeleteListed(index) => DeleteListedGood(run, index);
      case Tick(seconds) => TickGood(run, seconds);
    }
  }

  /** A reader never sees half of a pair. */
  lemma PairsLiveTogether(events: seq<Event>, n: NumberKey, h: HashKey)
    ensures var db := Exec(events).db;
      && (Read(db.numberValue, n, db.now).Some? <==> Read(db.numberHash, n, db.now).Some?)
      && (Read(db.hashValue, h, db.now).Some? <==> Read(db.hashNumber, h, db.now).Some?)
  {
    EveryRunGood(events);
    var run := Exec(events);
    assert n in run.db.numberValue || n in run.db.numberHash ==> NumberPair(run, n);
    assert h in run.db.hashValue || h in run.db.hashNumber ==> HashPair(run, h);
  }

  /** The entry put last is readable right away, by number and by hash. */
  lemma PutIsReadable(run: Run, chain: ChainName, typ: EntryType, secondsPerBlock: nat, e: Entry)
    ensures
      var db := Step(run, Add(chain, typ, secondsPerBlock, [e])).db;
      && FetchFromRedis(db, chain, typ, QueryRange(e.blockNumber, e.blockNumber), false) == Ok([e.(parentHash := None)])
      && FetchFromRedis(db, chain, typ, QueryHash(e.blockHash), false) == Ok([e.(parentHash := None)])
  {
    var db := Step(run, Add(chain, typ, secondsPerBlock, [e])).db;
    assert [e][1..] == [];
    assert AddAll(AddOne(run.db, chain, typ, secondsPerBlock, e), chain, typ, secondsPerBlock, [])
      == AddOne(run.db, chain, typ, secondsPerBlock, e);
    assert db == AddOne(run.db, chain, typ, secondsPerBlock, e);
    assert ReadRange(db, chain, typ, e.blockNumber + 1, e.blockNumber, [] + [e.(parentHash := None)])
      == Ok([] + [e.(parentHash := None)]);
    assert [] + [e.(parentHash := None)] == [e.(parentHash := None)];
  }
}
