/** Forger: block receipts made from a block's transactions and its logs. */
module Forger {
  import opened Basics
  import opened Types
  import opened Documents

  /** Transaction fields that a receipt repeats. */
  const KEPT: seq<string> := ["blockHash", "transactionIndex", "to", "from", "type", "blockNumber"]

  /** The fields of a receipt, except its logs. */
  function ReceiptFields(fields: seq<Field>): seq<Field> {
    if fields == [] then []
    else
      var before, last := ReceiptFields(fields[..|fields| - 1]), fields[|fields| - 1];
      if last.key == "hash" then before + [Field("transactionHash", last.value)]
      else if last.key in KEPT then before + [last]
      else before
  }

  /** A receipt repeats exactly the kept fields, and the hash as "transactionHash". */
  lemma {:induction false} ReceiptFieldsAre(fields: seq<Field>, f: Field)
    ensures f in ReceiptFields(fields) <==>
      (f in fields && f.key in KEPT) || (f.key == "transactionHash" && Field("hash", f.value) in fields)
  {
    if fields != [] {
      var front, last := fields[..|fields| - 1], fields[|fields| - 1];
      ReceiptFieldsAre(front, f);
      assert fields == front + [last];
      assert "hash" !in KEPT;
    }
  }

  /** The hash of a transaction: its last hash field, which must decode; the zero hash without one. */
  function TxHash(fields: seq<Field>): Option<Hash> {
    if fields == [] then Some(ZERO_HASH)
    else
      var before, last := TxHash(fields[..|fields| - 1]), fields[|fields| - 1];
      if before.None? then None else if last.key == "hash" then last.value.hash else before
  }

  /** The logs of one transaction, in the order they came in. */
  function OfTx(logs: seq<Log>, hash: Hash): seq<Log> {
    if logs == [] then []
    else
      var before, last := OfTx(logs[..|logs| - 1], hash), logs[|logs| - 1];
      if last.transactionHash == hash then before + [last] else before
  }

  function LogTexts(logs: seq<Log>): (parts: seq<Stream>)
    ensures |parts| == |logs|
  {
    seq(|logs|, i requires 0 <= i < |logs| => [LogText(logs[i])])
  }

  function LogsMember(logs: seq<Log>): Stream {
    [Name("logs"), ListStart] + Join(LogTexts(logs)) + [ListEnd]
  }

  function ReceiptOf(fields: seq<Field>, logs: seq<Log>): Stream {
    [ObjStart] + Join(Members(ReceiptFields(fields)) + [LogsMember(logs)]) + [ObjEnd]
  }

  predicate Usable(t: Transaction) {
    t.Fields? && TxHash(t.fields).Some?
  }

  function Receipts(txs: seq<Transaction>, logs: seq<Log>): (parts: seq<Stream>)
    requires forall i | 0 <= i < |txs| :: Usable(txs[i])
    ensures |parts| == |txs|
  {
    if txs == [] then []
    else
      var last := txs[|txs| - 1];
      assert Usable(last);
      Receipts(txs[..|txs| - 1], logs) + [ReceiptOf(last.fields, OfTx(logs, TxHash(last.fields).value))]
  }

  // Writing.

  lemma ReceiptFieldsStep(fields: seq<Field>, i: nat)
    requires i < |fields|
    ensures Members(ReceiptFields(fields[..i + 1])) ==
      var before, f := Members(ReceiptFields(fields[..i])), fields[i];
      if f.key == "hash" then before + [Member(Field("transactionHash", f.value))]
      else if f.key in KEPT then before + [Member(f)]
      else before
    ensures TxHash(fields[..i + 1]) ==
      if TxHash(fields[..i]).None? then None
      else if fields[i].key == "hash" then fields[i].value.hash else TxHash(fields[..i])
  {
    assert fields[..i + 1][..i] == fields[..i];
  }

  lemma {:induction false} BadHashStays(fields: seq<Field>, i: nat)
    requires i <= |fields| && TxHash(fields[..i]).None?
    ensures TxHash(fields).None?
  {
    if i == |fields| {
      assert fields[..i] == fields;
    } else {
      assert fields[..|fields| - 1][..i] == fields[..i];
      BadHashStays(fields[..|fields| - 1], i);
    }
  }

  /** Writes the fields of one receipt; none if the hash does not decode. */
  method WriteFields(fields: seq<Field>, w0: Stream) returns (r: Option<(Stream, bool, Hash)>)
    ensures r.Some? <==> TxHash(fields).Some?
    ensures r.Some? ==>
      WroteParts(r.value.0, w0, Members(ReceiptFields(fields)), r.value.1) && Some(r.value.2) == TxHash(fields)
  {
    var w, first, hash := w0, true, ZERO_HASH;
    WroteNoParts(w0);
    assert Members(ReceiptFields(fields[..0])) == [];
    assert fields[..|fields|] == fields;
    assert TxHash(fields[..0]) == Some(ZERO_HASH);
    hide WroteParts, ReceiptFields, TxHash, Members;
    for i := 0 to |fields|
      invariant WroteParts(w, w0, Members(ReceiptFields(fields[..i])), first)
      invariant TxHash(fields[..i]) == Some(hash)
    {
      var f := fields[i];
      ghost var before, first0 := w, first;
      ReceiptFieldsStep(fields, i);
      if f.key == "hash" {
        WrotePart(w, w0, Members(ReceiptFields(fields[..i])), first, Member(Field("transactionHash", f.value)));
        if first {
          first := false;
        } else {
          w := w + [Sep];
        }
        w := w + [Name("transactionHash"), Text(f.value)];
        if f.value.hash.None? {
          BadHashStays(fields, i + 1);
          return None;
        }
        hash := f.value.hash.value;
      } else if f.key in KEPT {
        WrotePart(w, w0, Members(ReceiptFields(fields[..i])), first, Member(f));
        if first {
          first := false;
        } else {
          w := w + [Sep];
        }
        w := w + [Name(f.key), Text(f.value)];
      }
    }
    return Some((w, first, hash));
  }

  lemma OfTxStep(logs: seq<Log>, hash: Hash, j: nat)
    requires j < |logs|
    ensures LogTexts(OfTx(logs[..j + 1], hash)) ==
      var before := LogTexts(OfTx(logs[..j], hash));
      if logs[j].transactionHash == hash then before + [[LogText(logs[j])]] else before
  {
    assert logs[..j + 1][..j] == logs[..j];
  }

  /** Writes the logs of one transaction into an open list. */
  method WriteLogs(logs: seq<Log>, hash: Hash, w0: Stream) returns (w: Stream)
    ensures w == w0 + Join(LogTexts(OfTx(logs, hash)))
  {
    w := w0;
    var first := true;
    WroteNoParts(w0);
    assert LogTexts(OfTx(logs[..0], hash)) == [];
    assert logs[..|logs|] == logs;
    hide OfTx, LogTexts;
    for j := 0 to |logs|
      invariant WroteParts(w, w0, LogTexts(OfTx(logs[..j], hash)), first)
    {
      OfTxStep(logs, hash, j);
      if logs[j].transactionHash != hash {
        continue;
      }
      WrotePart(w, w0, LogTexts(OfTx(logs[..j], hash)), first, [LogText(logs[j])]);
      if first {
        first := false;
      } else {
        w := w + [Sep];
      }
      w := w + [LogText(logs[j])];
    }
  }

  /** Writes one receipt; none if its transaction is no object or its hash does not decode. */
  method WriteReceipt(t: Transaction, logs: seq<Log>, w0: Stream) returns (r: Option<Stream>)
    ensures r.Some? <==> Usable(t)
    ensures r.Some? ==> r.value == w0 + ReceiptOf(t.fields, OfTx(logs, TxHash(t.fields).value))
  {
    if t.NotObject? {
      return None;
    }
    var start := w0 + [ObjStart];
    var fields := WriteFields(t.fields, start);
    if fields.None? {
      return None;
    }
    var (w, first, hash) := fields.value;
    ghost var parts := Members(ReceiptFields(t.fields));
    WrotePart(w, start, parts, first, LogsMember(OfTx(logs, hash)));
    hide *;
    if !first {
      w := w + [Sep];
    }
    w := WriteLogsField(logs, hash, w);
    Assembled(t.fields, OfTx(logs, hash), w0, w);
    return Some(w + [ObjEnd]);
  }

  method WriteLogsField(logs: seq<Log>, hash: Hash, w0: Stream) returns (w: Stream)
    ensures w == w0 + LogsMember(OfTx(logs, hash))
  {
    hide OfTx, LogTexts, Join;
    w := w0 + [Name("logs"), ListStart];
    w := WriteLogs(logs, hash, w);
    w := w + [ListEnd];
  }

  lemma Assembled(fields: seq<Field>, logs: seq<Log>, w0: Stream, w: Stream)
    requires WroteParts(w, w0 + [ObjStart], Members(ReceiptFields(fields)) + [LogsMember(logs)], false)
    ensures w + [ObjEnd] == w0 + ReceiptOf(fields, logs)
  {
    hide Join, Members, ReceiptFields, LogsMember;
  }

  lemma ReceiptsStep(txs: seq<Transaction>, logs: seq<Log>, i: nat)
    requires i < |txs| && forall k | 0 <= k <= i :: Usable(txs[k])
    ensures Receipts(txs[..i + 1], logs)
      == Receipts(txs[..i], logs) + [ReceiptOf(txs[i].fields, OfTx(logs, TxHash(txs[i].fields).value))]
  {
    assert txs[..i + 1][..i] == txs[..i];
    hide ReceiptOf, OfTx;
  }

  /** The stream after the receipts of the first `i` transactions. */
  ghost predicate WroteReceipts(w: Stream, txs: seq<Transaction>, logs: seq<Log>, i: nat) {
    && i <= |txs| && (forall k | 0 <= k < i :: Usable(txs[k]))
    && WroteParts(w, [ListStart], Receipts(txs[..i], logs), i == 0)
  }

  lemma WroteReceipt(w: Stream, txs: seq<Transaction>, logs: seq<Log>, i: nat)
    requires WroteReceipts(w, txs, logs, i) && i < |txs| && Usable(txs[i])
    ensures
      var receipt := ReceiptOf(txs[i].fields, OfTx(logs, TxHash(txs[i].fields).value));
      WroteReceipts((if i == 0 then w else w + [Sep]) + receipt, txs, logs, i + 1)
  {
    ReceiptsStep(txs, logs, i);
    WrotePart(w, [ListStart], Receipts(txs[..i], logs), i == 0,
              ReceiptOf(txs[i].fields, OfTx(logs, TxHash(txs[i].fields).value)));
    hide Receipts, ReceiptOf, OfTx, WroteParts, TxHash;
  }

  lemma WroteAllReceipts(w: Stream, txs: seq<Transaction>, logs: seq<Log>)
    requires WroteReceipts(w, txs, logs, |txs|)
    ensures forall i | 0 <= i < |txs| :: Usable(txs[i])
    ensures w == [ListStart] + Join(Receipts(txs, logs))
  {
    assert txs[..|txs|] == txs;
    hide Receipts, Join, Usable;
  }

  /** All receipts as one array, unless some transaction cannot be used. */
  method Forge(txs: seq<Transaction>, logs: seq<Log>) returns (r: Option<Stream>)
    ensures r.Some? <==> forall i | 0 <= i < |txs| :: Usable(txs[i])
    ensures r.Some? ==> r.value == [ListStart] + Join(Receipts(txs, logs)) + [ListEnd]
  {
    var w: Stream := [ListStart];
    WroteNoParts(w);
    assert Receipts(txs[..0], logs) == [];
    assert WroteReceipts(w, txs, logs, 0);
    hide Receipts, ReceiptOf, OfTx, Join, Usable, WroteReceipts, TxHash;
    for i := 0 to |txs|
      invariant WroteReceipts(w, txs, logs, i)
    {
      ghost var before := w;
      if i != 0 {
        w := w + [Sep];
      }
      var out := WriteReceipt(txs[i], logs, w);
      if out.None? {
        return None;
      }
      WroteReceipt(before, txs, logs, i);
      w := out.value;
    }
    WroteAllReceipts(w, txs, logs);
    return Some(w + [ListEnd]);
  }

  // Where the logs go.

  /** The hashes of the transactions, and the logs of all receipts one after another. */
  function TxHashes(txs: seq<Transaction>): (hashes: seq<Hash>)
    requires forall i | 0 <= i < |txs| :: Usable(txs[i])
    ensures |hashes| == |txs|
  {
    seq(|txs|, i requires 0 <= i < |txs| => (assert Usable(txs[i]); TxHash(txs[i].fields).value))
  }

  function Forged(logs: seq<Log>, hashes: seq<Hash>): seq<Log> {
    if hashes == [] then [] else Forged(logs, hashes[..|hashes| - 1]) + OfTx(logs, hashes[|hashes| - 1])
  }

  /** Receipt number `i` holds the logs that Forged takes from transaction hash number `i`. */
  lemma {:induction false} ReceiptAt(txs: seq<Transaction>, logs: seq<Log>, i: nat)
    requires i < |txs| && forall k | 0 <= k < |txs| :: Usable(txs[k])
    ensures Receipts(txs, logs)[i] == ReceiptOf(txs[i].fields, OfTx(logs, TxHashes(txs)[i]))
  {
    if i < |txs| - 1 {
      ReceiptAt(txs[..|txs| - 1], logs, i);
    }
    hide ReceiptOf, OfTx;
  }

  lemma {:induction false} OfTxCount(logs: seq<Log>, hash: Hash, l: Log)
    ensures multiset(OfTx(logs, hash))[l] == if l.transactionHash == hash then multiset(logs)[l] else 0
  {
    if logs != [] {
      OfTxCount(logs[..|logs| - 1], hash, l);
      assert logs == logs[..|logs| - 1] + [logs[|logs| - 1]];
    }
  }

  /** A log appears in the receipts once for each transaction with its hash. */
  lemma {:induction false} ForgedCount(logs: seq<Log>, hashes: seq<Hash>, l: Log)
    ensures multiset(Forged(logs, hashes))[l] == multiset(logs)[l] * multiset(hashes)[l.transactionHash]
  {
    if hashes != [] {
      var front, last := hashes[..|hashes| - 1], hashes[|hashes| - 1];
      ForgedCount(logs, front, l);
      OfTxCount(logs, last, l);
      OccursOnceMore(front, last, l.transactionHash);
      assert hashes == front + [last];
      Distribute(multiset(logs)[l], multiset(front)[l.transactionHash]);
      hide OfTx;
    }
  }

  lemma OccursOnceMore(front: seq<Hash>, last: Hash, hash: Hash)
    ensures multiset(front + [last])[hash] == if last == hash then multiset(front)[hash] + 1 else multiset(front)[hash]
  {
  }

  lemma Distribute(a: int, b: int)
    ensures a * (b + 1) == a * b + a
  {
  }

  lemma CancelOne(a: int, b: int)
    requires a > 0 && a * b == a
    ensures b == 1
  {
    assert a * (b - 1) == 0;
  }

  /** The receipts hold exactly the block's logs if and only if each log's hash is that of exactly one
      transaction. */
  lemma ConservesIff(logs: seq<Log>, hashes: seq<Hash>)
    ensures multiset(Forged(logs, hashes)) == multiset(logs)
      <==> forall l | l in logs :: multiset(hashes)[l.transactionHash] == 1
  {
    if multiset(Forged(logs, hashes)) == multiset(logs) {
      forall l | l in logs ensures multiset(hashes)[l.transactionHash] == 1 {
        ForgedCount(logs, hashes, l);
        assert l in multiset(logs);
        CancelOne(multiset(logs)[l], multiset(hashes)[l.transactionHash]);
      }
    }
    if forall l | l in logs :: multiset(hashes)[l.transactionHash] == 1 {
      forall l: Log ensures multiset(Forged(logs, hashes))[l] == multiset(logs)[l] {
        ForgedCount(logs, hashes, l);
        assert l !in logs ==> multiset(logs)[l] == 0;
      }
      assert multiset(Forged(logs, hashes)) == multiset(logs);
    }
  }

  /** The two ways to fail: a log of no transaction is lost, one of two transactions is repeated. */
  lemma LostAndRepeated(l: Log, other: Hash)
    requires other != l.transactionHash
    ensures Forged([l], [other]) == []
    ensures Forged([l], [l.transactionHash, l.transactionHash]) == [l, l]
  {
    var h := l.transactionHash;
    assert [l][..0] == [] && [other][..0] == [] && [h][..0] == [] && [h, h][..1] == [h];
    assert OfTx([], h) == [] && OfTx([l], h) == [l];
    assert OfTx([], other) == [] && OfTx([l], other) == [];
    assert Forged([l], []) == [];
    assert Forged([l], [h]) == [l];
  }

  /** `order` tells the transaction of each log, and the logs come in the order of the transactions. */
  ghost predicate InTxOrder(logs: seq<Log>, hashes: seq<Hash>, order: seq<int>) {
    && |order| == |logs|
    && (forall j | 0 <= j < |logs| :: 0 <= order[j] < |hashes| && logs[j].transactionHash == hashes[order[j]])
    && (forall j, k | 0 <= j < k < |logs| :: order[j] <= order[k])
  }

  lemma {:induction false} OfTxNone(logs: seq<Log>, hash: Hash)
    requires forall l | l in logs :: l.transactionHash != hash
    ensures OfTx(logs, hash) == []
  {
    if logs != [] {
      assert logs[|logs| - 1] in logs;
      OfTxNone(logs[..|logs| - 1], hash);
    }
  }

  lemma OfTxAppend(logs: seq<Log>, l: Log, hash: Hash)
    ensures OfTx(logs + [l], hash) == if l.transactionHash == hash then OfTx(logs, hash) + [l] else OfTx(logs, hash)
  {
    assert (logs + [l])[..|logs|] == logs;
  }

  /** Appending a log of transaction `at`, after which no transaction has logs yet, appends it to the
      receipts. */
  lemma {:induction false} ForgedAppend(logs: seq<Log>, l: Log, hashes: seq<Hash>, at: int)
    requires Distinct(hashes) && 0 <= at < |hashes| && hashes[at] == l.transactionHash
    requires forall k | at < k < |hashes| :: OfTx(logs, hashes[k]) == []
    ensures Forged(logs + [l], hashes) == Forged(logs, hashes) + [l]
  {
    var front, last := hashes[..|hashes| - 1], hashes[|hashes| - 1];
    OfTxAppend(logs, l, last);
    ForgedFront(logs, hashes);
    ForgedFront(logs + [l], hashes);
    hide OfTx, Forged;
    if at < |front| {
      assert hashes[at] != last && OfTx(logs, last) == [];
      ForgedAppend(logs, l, front, at);
      assert Forged(logs, front) + [] == Forged(logs, front);
    } else {
      ForgedWithout(logs, l, front);
    }
  }

  lemma ForgedFront(logs: seq<Log>, hashes: seq<Hash>)
    requires hashes != []
    ensures Forged(logs, hashes) == Forged(logs, hashes[..|hashes| - 1]) + OfTx(logs, hashes[|hashes| - 1])
  {
  }

  lemma {:induction false} ForgedWithout(logs: seq<Log>, l: Log, hashes: seq<Hash>)
    requires forall k | 0 <= k < |hashes| :: hashes[k] != l.transactionHash
    ensures Forged(logs + [l], hashes) == Forged(logs, hashes)
  {
    if hashes != [] {
      ForgedWithout(logs, l, hashes[..|hashes| - 1]);
      OfTxAppend(logs, l, hashes[|hashes| - 1]);
    }
  }

  lemma LaterHasNone(logs: seq<Log>, hashes: seq<Hash>, order: seq<int>, k: int)
    requires Distinct(hashes) && InTxOrder(logs, hashes, order)
    requires logs != [] && order[|logs| - 1] < k < |hashes|
    ensures OfTx(logs[..|logs| - 1], hashes[k]) == []
  {
    var front := logs[..|logs| - 1];
    forall m | m in front ensures m.transactionHash != hashes[k] {
      var j :| 0 <= j < |front| && front[j] == m;
      assert logs[j] == m && order[j] <= order[|logs| - 1];
    }
    OfTxNone(front, hashes[k]);
  }

  lemma FrontInOrder(logs: seq<Log>, hashes: seq<Hash>, order: seq<int>)
    requires logs != [] && InTxOrder(logs, hashes, order)
    ensures InTxOrder(logs[..|logs| - 1], hashes, order[..|logs| - 1])
    ensures var at := order[|logs| - 1];
      0 <= at < |hashes| && hashes[at] == logs[|logs| - 1].transactionHash
  {
  }

  /** Logs that come in the order of the transactions keep that order across the receipts. */
  lemma {:induction false} ForgedInOrder(logs: seq<Log>, hashes: seq<Hash>, order: seq<int>)
    requires Distinct(hashes) && InTxOrder(logs, hashes, order)
    ensures Forged(logs, hashes) == logs
  {
    if logs == [] {
      NothingForged(hashes);
    } else {
      var front, l, at := logs[..|logs| - 1], logs[|logs| - 1], order[|logs| - 1];
      FrontInOrder(logs, hashes, order);
      ForgedInOrder(front, hashes, order[..|logs| - 1]);
      forall k | at < k < |hashes| ensures OfTx(front, hashes[k]) == [] {
        LaterHasNone(logs, hashes, order, k);
      }
      hide OfTx, InTxOrder, Forged;
      ForgedAppend(front, l, hashes, at);
      assert logs == front + [l];
    }
  }

  lemma {:induction false} NothingForged(hashes: seq<Hash>)
    ensures Forged([], hashes) == []
  {
    if hashes != [] {
      NothingForged(hashes[..|hashes| - 1]);
    }
  }
}
