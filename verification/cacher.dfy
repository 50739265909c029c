/** Cacher: answers log and block requests from the stores. */
module Cacher {
  import opened Basics
  import opened Json
  import opened Types
  import opened LogFilter
  import opened BlockNumbers
  import opened CompoundStores
  import opened Chainblock
  import opened Direct
  import opened Coherence
  import opened Poison
  import opened Runs
  import opened CoherenceRuns

  const MAX_LOG_RANGE: int := 10

  datatype FilterQuery = FilterQuery(
    blockHash: Option<Hash>, fromBlock: Option<int>, toBlock: Option<int>,
    addresses: seq<Address>, topics: seq<seq<Hash>>)

  datatype LogsResponse = Forwarded | Refused | Reply(logs: Buffer<Log>)

  /** The logs in an entry's value, when it is an array of logs. */
  function DecodeEntry(e: Entry): Option<seq<Log>> {
    if e.value.LogsJson? then Decode(e.value.logs) else None
  }

  /** The logs of all entries in order, unless some entry cannot be read. */
  function DecodeAll(entries: seq<Entry>): Option<seq<Log>> {
    if entries == [] then Some([])
    else
      var before, last := DecodeAll(entries[..|entries| - 1]), DecodeEntry(entries[|entries| - 1]);
      if before.None? || last.None? then None else Some(before.value + last.value)
  }

  lemma DecodeAppend(before: seq<Entry>, e: Entry)
    ensures DecodeAll(before + [e]) ==
      if DecodeAll(before).None? || DecodeEntry(e).None? then None
      else Some(DecodeAll(before).value + DecodeEntry(e).value)
  {
    assert (before + [e])[..|before|] == before;
  }

  lemma {:induction false} UnreadableEntry(entries: seq<Entry>, i: nat)
    requires i < |entries| && DecodeEntry(entries[i]).None?
    ensures DecodeAll(entries).None?
  {
    if i < |entries| - 1 {
      UnreadableEntry(entries[..|entries| - 1], i);
    }
  }

  /** All entries' accepted logs as one array, unless some entry cannot be read. */
  function FilteredLogs(c: Option<CompiledFilter>, entries: seq<Entry>): Option<Buffer<Log>> {
    var logs := DecodeAll(entries);
    if logs.None? then None else Some(Encode(Accepted(c, logs.value)))
  }

  lemma AcceptedStep(c: Option<CompiledFilter>, before: seq<Log>, logs: seq<Log>, t: nat)
    requires t < |logs|
    ensures Accepted(c, before + logs[..t + 1]) ==
      var sofar := Accepted(c, before + logs[..t]);
      if Accepts(c, HeaderOf(logs[t])) then sofar + [logs[t]] else sofar
  {
    var all := before + logs[..t + 1];
    assert all[..|all| - 1] == before + logs[..t];
  }

  /** The writer after the accepted ones among `logs`, and whether it is still empty. */
  ghost predicate Written(c: Option<CompiledFilter>, logs: seq<Log>, w: Buffer<Log>, firstLog: bool) {
    w == Open(Accepted(c, logs)) && (firstLog <==> Accepted(c, logs) == [])
  }

  lemma WrittenNothing(c: Option<CompiledFilter>)
    ensures Written(c, [], [ArrStart], true)
  {
  }

  lemma WrittenClosed(c: Option<CompiledFilter>, logs: seq<Log>, w: Buffer<Log>, firstLog: bool)
    requires Written(c, logs, w, firstLog)
    ensures w + [ArrEnd] == Encode(Accepted(c, logs))
  {
  }

  method FilterLogs(c: Option<CompiledFilter>, entries: seq<Entry>) returns (r: Option<Buffer<Log>>)
    ensures r == FilteredLogs(c, entries)
  {
    var w: Buffer<Log> := [ArrStart];
    var firstLog := true;
    ghost var before: seq<Log> := [];
    assert entries[..0] == [];
    WrittenNothing(c);
    hide Written, Accepted, Encode, Decode;
    for i := 0 to |entries|
      invariant DecodeAll(entries[..i]) == Some(before)
      invariant Written(c, before, w, firstLog)
    {
      DecodeAppend(entries[..i], entries[i]);
      assert entries[..i] + [entries[i]] == entries[..i + 1];
      var arr := DecodeEntry(entries[i]);
      if arr.None? {
        UnreadableEntry(entries, i);
        return None;
      }
      w, firstLog := WriteAccepted(c, before, arr.value, w, firstLog);
      before := before + arr.value;
    }
    assert entries[..|entries|] == entries;
    WrittenClosed(c, before, w, firstLog);
    w := w + [ArrEnd];
    return Some(w);
  }

  lemma WrittenNext(c: Option<CompiledFilter>, before: seq<Log>, logs: seq<Log>, t: nat, w: Buffer<Log>, firstLog: bool)
    requires t < |logs| && Written(c, before + logs[..t], w, firstLog)
    ensures !Accepts(c, HeaderOf(logs[t])) ==> Written(c, before + logs[..t + 1], w, firstLog)
    ensures Accepts(c, HeaderOf(logs[t])) && firstLog ==>
      Written(c, before + logs[..t + 1], w + [Raw(logs[t])], false)
    ensures Accepts(c, HeaderOf(logs[t])) && !firstLog ==>
      Written(c, before + logs[..t + 1], w + [Comma] + [Raw(logs[t])], false)
  {
    AcceptedStep(c, before, logs, t);
    var sofar := Accepted(c, before + logs[..t]);
    OpenAppend(sofar, logs[t]);
    assert |sofar + [logs[t]]| > 0;
    hide Open, Accepted, Accepts;
  }

  /** Reads the fields of a log that filters look at. */
  method ReadHeader(log: Log) returns (header: AddressTopics)
    ensures header == HeaderOf(log)
  {
    var topics: seq<Hash> := [];
    for k := 0 to |log.topics|
      invariant topics == log.topics[..k]
    {
      topics := topics + [log.topics[k]];
    }
    return AddressTopics(log.address, topics);
  }

  /** Writes the accepted logs of one entry after those of the entries before it. */
  method WriteAccepted(c: Option<CompiledFilter>, ghost before: seq<Log>, logs: seq<Log>, w0: Buffer<Log>, first0: bool)
    returns (w: Buffer<Log>, firstLog: bool)
    requires Written(c, before, w0, first0)
    ensures Written(c, before + logs, w, firstLog)
  {
    w, firstLog := w0, first0;
    assert before + logs[..0] == before;
    assert logs[..|logs|] == logs;
    hide Written, Accepts, HeaderOf;
    for t := 0 to |logs|
      invariant Written(c, before + logs[..t], w, firstLog)
    {
      WrittenNext(c, before, logs, t, w, firstLog);
      var header := ReadHeader(logs[t]);
      var ok := Check(c, header);
      if !ok {
        continue;
      }
      if firstLog {
        firstLog := false;
      } else {
        w := w + [Comma];
      }
      w := w + [Raw(logs[t])];
    }
  }

  /** Signed 64-bit subtraction, which wraps. */
  function Minus(a: int, b: int): int
    requires Int64(a) && Int64(b)
  {
    if a - b >= TWO_63 then a - b - TWO_64
    else if a - b < -(TWO_63 as int) then a - b + TWO_64
    else a - b
  }

  /** Block numbers in requests are signed 64-bit, and negative for tags. */
  predicate SixtyFourBits(params: FilterQuery) {
    && (params.fromBlock.Some? ==> Int64(params.fromBlock.value))
    && (params.toBlock.Some? ==> Int64(params.toBlock.value))
  }

  /** The store query a request turns into, tags becoming numbers near 2^64; none means the request goes
      to the remote. */
  function StoreQuery(params: FilterQuery): Option<Types.Query>
    requires SixtyFourBits(params)
  {
    if params.blockHash.Some? then Some(QueryHash(params.blockHash.value))
    else if params.fromBlock.Some? && params.toBlock.Some? then
      if Minus(params.toBlock.value, params.fromBlock.value) > MAX_LOG_RANGE then None
      else Some(QueryRange(AsUint64(params.fromBlock.value), AsUint64(params.toBlock.value)))
    else None
  }

  /** The request does not become a range that the stores' loops overrun: one that ends with "latest" and
      is neither inverted nor sent to the remote, or one from a number to a tag. */
  predicate Answerable(params: FilterQuery) {
    && SixtyFourBits(params)
    && (StoreQuery(params).Some? ==> Inverted(StoreQuery(params).value) || InBounds(StoreQuery(params).value))
  }

  function LogsOutcome(layers: seq<LayerState>, env: Env, chain: ChainName, params: FilterQuery)
    : (seq<LayerState>, LogsResponse)
    requires Answerable(params)
  {
    var q := StoreQuery(params);
    if q.None? then (layers, Forwarded)
    else
      var (layers', r) := CompoundGet(layers, env, chain, EntryType.Logs, q.value);
      if r.Err? then (layers', Refused)
      else
        var filtered := FilteredLogs(Compiled(params.addresses, params.topics), r.value);
        (layers', if filtered.None? then Refused else Reply(filtered.value))
  }

  method GetLogs(store: CompoundStore, env: Env, chain: ChainName, params: FilterQuery) returns (r: LogsResponse)
    requires store.Valid() && WordSized(env.remote) && Answerable(params)
    modifies store.Repr()
    ensures store.Valid() && store.stores == old(store.stores)
    ensures (store.States(), r) == LogsOutcome(old(store.States()), env, chain, params)
  {
    hide CompoundGet, FilteredLogs;
    var q: Types.Query;
    if params.blockHash.Some? {
      q := QueryHash(params.blockHash.value);
    } else if params.fromBlock.Some? && params.toBlock.Some? {
      if Minus(params.toBlock.value, params.fromBlock.value) > MAX_LOG_RANGE {
        return Forwarded;
      }
      q := QueryRange(AsUint64(params.fromBlock.value), AsUint64(params.toBlock.value));
    } else {
      return Forwarded;
    }
    var entries := store.Get(env, chain, EntryType.Logs, q);
    if entries.Err? {
      return Refused;
    }
    var filter := CompileFilter(params.addresses, params.topics);
    var raw := FilterLogs(filter, entries.value);
    return if raw.None? then Refused else Reply(raw.value);
  }

  // The meaning of a log request.

  function BlockLogs(blocks: seq<Block>, n: nat): seq<Log> {
    if n < |blocks| then blocks[n].logs else []
  }

  /** All logs of the blocks start, start + 1, ... of the chain, in chain order. */
  function ChainLogs(blocks: seq<Block>, start: nat, count: nat): seq<Log> {
    if count == 0 then []
    else
      var n := start + count - 1;
      ChainLogs(blocks, start, count - 1) + BlockLogs(blocks, n)
  }

  /** Which logs those are, block by block. */
  lemma ChainLogsIs(blocks: seq<Block>, start: nat, count: nat)
    ensures ChainLogs(blocks, start, 0) == []
    ensures ChainLogs(blocks, start, count + 1)
      == ChainLogs(blocks, start, count) + if start + count < |blocks| then blocks[start + count].logs else []
  {
  }

  lemma TrueEntryDecodes(blocks: seq<Block>, n: nat)
    requires n < |blocks|
    ensures DecodeEntry(TrueEntry(blocks, EntryType.Logs, n)) == Some(BlockLogs(blocks, n))
  {
    EncodeDecode(blocks[n].logs);
  }

  lemma SkippedBlock(blocks: seq<Block>, before: seq<Entry>, start: nat, count: nat)
    requires count > 0 && !Has(blocks, EntryType.Logs, start + count - 1)
    requires DecodeAll(before) == Some(ChainLogs(blocks, start, count - 1))
    ensures DecodeAll(before) == Some(ChainLogs(blocks, start, count))
  {
    hide DecodeAll;
    var logs := BlockLogs(blocks, start + count - 1);
    assert |logs| == 0;
    assert ChainLogs(blocks, start, count - 1) + logs == ChainLogs(blocks, start, count - 1);
  }

  lemma TakenBlock(blocks: seq<Block>, before: seq<Entry>, start: nat, count: nat)
    requires count > 0 && Has(blocks, EntryType.Logs, start + count - 1)
    requires DecodeAll(before) == Some(ChainLogs(blocks, start, count - 1))
    ensures DecodeAll(before + [TrueEntry(blocks, EntryType.Logs, start + count - 1)])
      == Some(ChainLogs(blocks, start, count))
  {
    var n := start + count - 1;
    TrueEntryDecodes(blocks, n);
    DecodeAppend(before, TrueEntry(blocks, EntryType.Logs, n));
    hide DecodeAll, DecodeEntry, TrueEntry;
  }

  lemma {:induction false} EntriesDecode(blocks: seq<Block>, start: nat, count: nat)
    ensures DecodeAll(EntriesOf(blocks, EntryType.Logs, start, count)) == Some(ChainLogs(blocks, start, count))
  {
    if count > 0 {
      EntriesDecode(blocks, start, count - 1);
      var before := EntriesOf(blocks, EntryType.Logs, start, count - 1);
      if Has(blocks, EntryType.Logs, start + count - 1) {
        TakenBlock(blocks, before, start, count);
      } else {
        SkippedBlock(blocks, before, start, count);
      }
      hide DecodeAll, ChainLogs, TrueEntry, Has;
    }
  }

  lemma RangeAnswerDecodes(blocks: seq<Block>, from: nat, to: nat)
    requires from <= to < TWO_63
    ensures DecodeAll(Answer(blocks, EntryType.Logs, QueryRange(from, to)))
      == Some(ChainLogs(blocks, from, to + 1 - from))
  {
    EntriesDecode(blocks, from, to + 1 - from);
    AnswerOfLogs(blocks, from, to);
    hide DecodeAll, ChainLogs, EntriesOf, Answer;
  }

  lemma AgreeOnValue(a: seq<Entry>, b: seq<Entry>, i: nat)
    requires Agree(a, b) && i < |a|
    ensures a[i].value == b[i].value
  {
    assert a[i].(parentHash := None).value == b[i].(parentHash := None).value;
  }

  lemma {:induction false} AgreeDecode(a: seq<Entry>, b: seq<Entry>)
    requires Agree(a, b)
    ensures DecodeAll(a) == DecodeAll(b)
  {
    if a != [] {
      AgreeDecode(a[..|a| - 1], b[..|b| - 1]);
      AgreeOnValue(a, b, |a| - 1);
    }
  }

  /** Filtering entries that agree with an answer gives that answer's matching logs. */
  lemma FilteredAreMatching(addresses: seq<Address>, topics: seq<seq<Hash>>,
                            entries: seq<Entry>, answer: seq<Entry>, logs: seq<Log>)
    requires Agree(entries, answer) && DecodeAll(answer) == Some(logs)
    ensures FilteredLogs(Compiled(addresses, topics), entries) == Some(Encode(Matching(addresses, topics, logs)))
  {
    AgreeDecode(entries, answer);
    AcceptedAreMatching(addresses, topics, logs);
  }

  /** The matching ones among these logs, as a reply. */
  function NaiveReply(addresses: seq<Address>, topics: seq<seq<Hash>>, logs: seq<Log>): LogsResponse {
    Reply(Encode(Matching(addresses, topics, logs)))
  }

  /** A request for up to eleven blocks: whenever the stores can answer, the reply is the array of
      the chain's logs in that range which match the filter, each once and in chain order. If the remote
      lags, it may be that of the prefix which the remote serves. */
  lemma {:induction false} LogsAreNaive(s: System, env: Env, chain: ChainName, from: nat, to: nat,
                     addresses: seq<Address>, topics: seq<seq<Hash>>)
    requires Sound(s) && from <= to <= from + 10 && to < TWO_63
    requires Honest(s.world, env, chain, EntryType.Logs, QueryRange(from, to))
    ensures
      var r := LogsOutcome(s.layers, env, chain, FilterQuery(None, Some(from), Some(to), addresses, topics)).1;
      if CompoundGet(s.layers, env, chain, EntryType.Logs, QueryRange(from, to)).1.Err? then r == Refused
      else
        || r == NaiveReply(addresses, topics, ChainLogs(s.world[chain], from, to + 1 - from))
        || r == NaiveReply(addresses, topics, ChainLogs(env.remote.blocks, from, to + 1 - from))
  {
    var q := QueryRange(from, to);
    CompoundAnswers(s.world, s.layers, env, chain, EntryType.Logs, q);
    var r := CompoundGet(s.layers, env, chain, EntryType.Logs, q).1;
    if r.Ok? {
      RangeAnswerNaive(s.world[chain], from, to, addresses, topics, r.value);
      RangeAnswerNaive(env.remote.blocks, from, to, addresses, topics, r.value);
    }
    hide CompoundGet, Answer, ChainLogs, Matching, FilteredLogs, Encode, Agree, Poisonous, Faithful, Coherent;
  }

  lemma RangeAnswerNaive(blocks: seq<Block>, from: nat, to: nat, addresses: seq<Address>, topics: seq<seq<Hash>>,
                         entries: seq<Entry>)
    requires from <= to < TWO_63
    ensures Agree(entries, Answer(blocks, EntryType.Logs, QueryRange(from, to))) ==>
      FilteredLogs(Compiled(addresses, topics), entries)
        == Some(Encode(Matching(addresses, topics, ChainLogs(blocks, from, to + 1 - from))))
  {
    var answer := Answer(blocks, EntryType.Logs, QueryRange(from, to));
    RangeAnswerDecodes(blocks, from, to);
    if Agree(entries, answer) {
      FilteredAreMatching(addresses, topics, entries, answer, ChainLogs(blocks, from, to + 1 - from));
    }
    hide Answer, ChainLogs, Matching, FilteredLogs, Encode, Agree, DecodeAll;
  }

  /** The logs of the block with the given hash, if there is one. */
  function LogsOfHash(blocks: seq<Block>, hash: Hash): seq<Log> {
    var n := NumberOf(blocks, hash);
    if n.Some? then blocks[n.value].logs else []
  }

  lemma HashAnswerDecodes(blocks: seq<Block>, hash: Hash)
    ensures DecodeAll(Answer(blocks, EntryType.Logs, QueryHash(hash))) == Some(LogsOfHash(blocks, hash))
  {
    var answer := Answer(blocks, EntryType.Logs, QueryHash(hash));
    if answer != [] {
      TrueEntryDecodes(blocks, NumberOf(blocks, hash).value);
      DecodeAppend([], answer[0]);
      assert [] + answer == answer;
      assert [] + LogsOfHash(blocks, hash) == LogsOfHash(blocks, hash);
    }
  }

  lemma HashAnswerNaive(blocks: seq<Block>, hash: Hash, addresses: seq<Address>, topics: seq<seq<Hash>>,
                        entries: seq<Entry>)
    ensures Agree(entries, Answer(blocks, EntryType.Logs, QueryHash(hash))) ==>
      FilteredLogs(Compiled(addresses, topics), entries)
        == Some(Encode(Matching(addresses, topics, LogsOfHash(blocks, hash))))
  {
    var answer := Answer(blocks, EntryType.Logs, QueryHash(hash));
    HashAnswerDecodes(blocks, hash);
    if Agree(entries, answer) {
      FilteredAreMatching(addresses, topics, entries, answer, LogsOfHash(blocks, hash));
    }
    hide Answer, LogsOfHash, Matching, FilteredLogs, Encode, Agree, DecodeAll;
  }

  /** The same for a request by block hash, whatever ends it also gives. */
  lemma {:induction false} LogsByHashAreNaive(s: System, env: Env, chain: ChainName, params: FilterQuery)
    requires Sound(s) && SixtyFourBits(params) && params.blockHash.Some? && params.blockHash.value != ZERO_HASH
    requires Honest(s.world, env, chain, EntryType.Logs, QueryHash(params.blockHash.value))
    ensures
      var hash, r := params.blockHash.value, LogsOutcome(s.layers, env, chain, params).1;
      if CompoundGet(s.layers, env, chain, EntryType.Logs, QueryHash(hash)).1.Err? then r == Refused
      else
        || r == NaiveReply(params.addresses, params.topics, LogsOfHash(s.world[chain], hash))
        || r == NaiveReply(params.addresses, params.topics, LogsOfHash(env.remote.blocks, hash))
  {
    var hash := params.blockHash.value;
    var q := QueryHash(hash);
    CompoundAnswers(s.world, s.layers, env, chain, EntryType.Logs, q);
    var r := CompoundGet(s.layers, env, chain, EntryType.Logs, q).1;
    if r.Ok? {
      HashAnswerNaive(s.world[chain], hash, params.addresses, params.topics, r.value);
      HashAnswerNaive(env.remote.blocks, hash, params.addresses, params.topics, r.value);
    }
    hide CompoundGet, Answer, LogsOfHash, Matching, FilteredLogs, Encode, Agree, Faithful, Coherent;
  }

  /** At the end of any run without poison, whatever the caches have kept, dropped or lost by then, the
      logs of the chain itself when the remote is up to date. */
  lemma {:induction false} EveryLogsReplyNaive(start: System, events: seq<Event>, env: Env, chain: ChainName,
                                               from: nat, to: nat,
                                               addresses: seq<Address>, topics: seq<seq<Hash>>)
    requires Sound(start) && AtEach(Step, Admissible, start, events) && Never(Step, Poisons, start, events)
    requires from <= to <= from + 10 && to < TWO_63
    requires Honest(Exec(Step, start, events).world, env, chain, EntryType.Logs, QueryRange(from, to))
    requires UpToDate(Exec(Step, start, events).world, env, chain)
    ensures var s := Exec(Step, start, events);
      LogsOutcome(s.layers, env, chain, FilterQuery(None, Some(from), Some(to), addresses, topics)).1 ==
        if CompoundGet(s.layers, env, chain, EntryType.Logs, QueryRange(from, to)).1.Err? then Refused
        else NaiveReply(addresses, topics, ChainLogs(s.world[chain], from, to + 1 - from))
  {
    RunSoundIff(start, events);
    LogsAreNaive(Exec(Step, start, events), env, chain, from, to, addresses, topics);
    hide Exec, Sound, LogsOutcome, CompoundGet, ChainLogs, Matching, Encode, Faithful;
  }

  /** A request for the logs of one tag other than "latest", such as "safe", is answered from then on with
      what the remote replied to the first one, whatever the tag means by now. */
  lemma {:induction false} TagLogsStay(s: System, env: Env, chain: ChainName, tag: int, later: Env,
                                       addresses: seq<Address>, topics: seq<seq<Hash>>)
    requires Sound(s) && Int64(tag) && tag < LATEST
    requires var q := QueryRange(AsUint64(tag), AsUint64(tag));
      && Honest(s.world, env, chain, EntryType.Logs, q)
      && TagLogsQuery(env.remote, EntryType.Logs, q) && HasChainLayer(s.layers)
    ensures
      var params := FilterQuery(None, Some(tag), Some(tag), addresses, topics);
      var after := LogsOutcome(s.layers, env, chain, params).0;
      LogsOutcome(after, later, chain, params).1 == NaiveReply(addresses, topics, ReplyLogs(env.remote))
  {
    var n := AsUint64(tag);
    var logs := ReplyLogs(env.remote);
    TagLogsGoStale(s.world, s.layers, env, chain, n, later);
    var e := Entry(FirstLogHash(logs), n, None, LogsJson(env.remote.rangeReply.value));
    OneEntryFiltered(e, logs, addresses, topics);
    hide CompoundGet, Matching, FilteredLogs, Compiled, Encode, Decode, Faithful, Coherent, Honest, WellFormedWorld;
  }

  lemma OneEntryFiltered(e: Entry, logs: seq<Log>, addresses: seq<Address>, topics: seq<seq<Hash>>)
    requires DecodeEntry(e) == Some(logs)
    ensures FilteredLogs(Compiled(addresses, topics), [e]) == Some(Encode(Matching(addresses, topics, logs)))
  {
    DecodeAppend([], e);
    assert [] + [e] == [e] && [] + logs == logs;
    AcceptedAreMatching(addresses, topics, logs);
    hide Encode, Decode, Compiled, Matching, Accepted, DecodeEntry;
  }

  lemma {:induction false} ReadableAll(entries: seq<Entry>)
    requires forall e | e in entries :: e.value.LogsJson? && Decode(e.value.logs).Some?
    ensures DecodeAll(entries).Some?
  {
    if entries != [] {
      assert entries[|entries| - 1] in entries;
      ReadableAll(entries[..|entries| - 1]);
    }
    hide Decode;
  }

  /** A reply is refused exactly when the stores fail, or some entry of theirs is not an array of logs. */
  lemma RefusedIff(layers: seq<LayerState>, env: Env, chain: ChainName, params: FilterQuery)
    requires Answerable(params) && StoreQuery(params).Some?
    ensures var r := CompoundGet(layers, env, chain, EntryType.Logs, StoreQuery(params).value).1;
      LogsOutcome(layers, env, chain, params).1 == Refused <==>
        r.Err? || exists e :: e in r.value && !(e.value.LogsJson? && Decode(e.value.logs).Some?)
  {
    var r := CompoundGet(layers, env, chain, EntryType.Logs, StoreQuery(params).value).1;
    hide CompoundGet, Decode, StoreQuery;
    if r.Ok? {
      if e :| e in r.value && !(e.value.LogsJson? && Decode(e.value.logs).Some?) {
        var i :| 0 <= i < |r.value| && r.value[i] == e;
        UnreadableEntry(r.value, i);
      } else {
        ReadableAll(r.value);
      }
    }
  }

  /** The difference is the signed 64-bit number that is congruent to the true one. */
  lemma MinusIsSigned(a: int, b: int)
    requires Int64(a) && Int64(b)
    ensures Int64(Minus(a, b))
    ensures Minus(a, b) == a - b || Minus(a, b) == a - b - TWO_64 || Minus(a, b) == a - b + TWO_64
    ensures 0 <= a && 0 <= b ==> Minus(a, b) == a - b
  {
  }

  /** A request goes to the remote exactly when it names no block and lacks an end or spans more than
      eleven blocks; it then leaves the stores alone. */
  lemma ForwardedIff(layers: seq<LayerState>, env: Env, chain: ChainName, params: FilterQuery)
    requires Answerable(params)
    ensures var (layers', r) := LogsOutcome(layers, env, chain, params);
      && (r == Forwarded <==>
            && params.blockHash.None?
            && (params.fromBlock.None? || params.toBlock.None?
                || Minus(params.toBlock.value, params.fromBlock.value) > 10))
      && (r == Forwarded ==> layers' == layers)
  {
    hide CompoundGet, FilteredLogs, Minus;
  }

  predicate BothEnds(params: FilterQuery) {
    params.blockHash.None? && params.fromBlock.Some? && params.toBlock.Some?
  }

  /** Which ranges the cache takes on, with numbers or tags at either end. */
  lemma AnswerableIff(params: FilterQuery)
    requires SixtyFourBits(params) && BothEnds(params)
    ensures var from, to := params.fromBlock.value, params.toBlock.value;
      Answerable(params) <==>
        Minus(to, from) > MAX_LOG_RANGE || to >= 0 || (from < 0 && (to < from || to < LATEST))
  {
  }

  /** Among answerable ranges the wider ones go to the remote, and inverted ones, in which a tag counts as
      later than any number, are answered with an empty array. */
  lemma OtherRanges(layers: seq<LayerState>, env: Env, chain: ChainName, params: FilterQuery)
    requires Answerable(params) && BothEnds(params)
    ensures var from, to := params.fromBlock.value, params.toBlock.value;
      && (LogsOutcome(layers, env, chain, params) == (layers, Forwarded) <==> Minus(to, from) > MAX_LOG_RANGE)
      && (Minus(to, from) <= MAX_LOG_RANGE && AsUint64(to) < AsUint64(from) ==>
            LogsOutcome(layers, env, chain, params) == (layers, Reply(Encode([]))))
  {
    assert Accepted(Compiled(params.addresses, params.topics), []) == [];
  }
}
