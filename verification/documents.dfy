/** JSON objects as streams of pieces, and the three rewrites of block and transaction objects. */
module Documents {
  import opened Basics
  import opened Types

  /** A raw value, and the hash it decodes to, if any. */
  datatype Value = Value(text: int, hash: Option<Hash>)

  datatype Piece =
    | ListStart | ListEnd | ObjStart | ObjEnd | Sep
    | Name(key: string) | Text(value: Value) | LogText(log: Log)

  type Stream = seq<Piece>

  datatype Field = Field(key: string, value: Value)

  /** An element of a block's transaction list: an object, or already just a hash. */
  datatype Transaction = Fields(fields: seq<Field>) | NotObject

  /** A field of a block. */
  datatype BlockField = Plain(field: Field) | Transactions(list: seq<Transaction>)

  /** Parts separated by commas. */
  function Join(parts: seq<Stream>): Stream {
    if parts == [] then []
    else if |parts| == 1 then parts[0]
    else Join(parts[..|parts| - 1]) + [Sep] + parts[|parts| - 1]
  }

  lemma JoinAppend(parts: seq<Stream>, part: Stream)
    ensures Join(parts + [part]) == if parts == [] then part else Join(parts) + [Sep] + part
  {
    assert (parts + [part])[..|parts|] == parts;
  }

  /** The stream after `parts` have been written into an open object or list. */
  ghost predicate WroteParts(w: Stream, start: Stream, parts: seq<Stream>, first: bool) {
    w == start + Join(parts) && (first <==> parts == [])
  }

  lemma WroteNoParts(start: Stream)
    ensures WroteParts(start, start, [], true)
  {
    assert Join([]) == [];
    assert start + [] == start;
  }

  lemma WrotePart(w: Stream, start: Stream, parts: seq<Stream>, first: bool, part: Stream)
    requires WroteParts(w, start, parts, first)
    ensures first ==> WroteParts(w + part, start, parts + [part], false)
    ensures !first ==> WroteParts(w + [Sep] + part, start, parts + [part], false)
  {
    JoinAppend(parts, part);
    assert |parts + [part]| > 0;
    hide Join;
    if !first {
      assert w + [Sep] + part == start + (Join(parts) + [Sep] + part);
    }
  }

  function Member(f: Field): Stream {
    [Name(f.key), Text(f.value)]
  }

  function Members(fields: seq<Field>): (parts: seq<Stream>)
    ensures |parts| == |fields|
  {
    seq(|fields|, i requires 0 <= i < |fields| => Member(fields[i]))
  }

  // A block without its transactions, for subscribers.

  function WithoutTransactions(block: seq<BlockField>): seq<Field> {
    if block == [] then []
    else
      var before, last := WithoutTransactions(block[..|block| - 1]), block[|block| - 1];
      if last.Plain? then before + [last.field] else before
  }

  lemma WithoutStep(block: seq<BlockField>, i: nat)
    requires i < |block|
    ensures Members(WithoutTransactions(block[..i + 1])) ==
      var before := Members(WithoutTransactions(block[..i]));
      if block[i].Plain? then before + [Member(block[i].field)] else before
  {
    assert block[..i + 1][..i] == block[..i];
    hide Member;
  }

  method RemoveTransactions(block: seq<BlockField>) returns (w: Stream)
    ensures w == [ObjStart] + Join(Members(WithoutTransactions(block))) + [ObjEnd]
  {
    w := [ObjStart];
    var first := true;
    WroteNoParts(w);
    assert Members(WithoutTransactions(block[..0])) == [];
    assert block[..|block|] == block;
    hide WithoutTransactions, Members, Join;
    for i := 0 to |block|
      invariant WroteParts(w, [ObjStart], Members(WithoutTransactions(block[..i])), first)
    {
      WithoutStep(block, i);
      if block[i].Transactions? {
        continue;
      }
      WrotePart(w, [ObjStart], Members(WithoutTransactions(block[..i])), first, Member(block[i].field));
      if first {
        first := false;
      } else {
        w := w + [Sep];
      }
      w := w + [Name(block[i].field.key), Text(block[i].field.value)];
    }
    w := w + [ObjEnd];
  }

  /** Exactly the fields that are not the transaction list are kept, in order. */
  lemma {:induction false} OnlyTransactionsDropped(block: seq<BlockField>)
    ensures forall f :: f in WithoutTransactions(block) <==> Plain(f) in block
    ensures (forall b | b in block :: b.Plain?) ==> |WithoutTransactions(block)| == |block|
  {
    if block != [] {
      OnlyTransactionsDropped(block[..|block| - 1]);
      assert block == block[..|block| - 1] + [block[|block| - 1]];
    }
  }

  // A block whose transactions are cut down to their hashes.

  /** The values of the hash fields of one transaction. */
  function Hashes(fields: seq<Field>): seq<Value> {
    if fields == [] then []
    else
      var before, last := Hashes(fields[..|fields| - 1]), fields[|fields| - 1];
      if last.key == "hash" then before + [last.value] else before
  }

  function AllHashes(list: seq<Transaction>): seq<Value>
    requires forall t | t in list :: t.Fields?
  {
    if list == [] then []
    else
      assert list[|list| - 1] in list;
      AllHashes(list[..|list| - 1]) + Hashes(list[|list| - 1].fields)
  }

  function Texts(values: seq<Value>): (parts: seq<Stream>)
    ensures |parts| == |values|
  {
    seq(|values|, i requires 0 <= i < |values| => [Text(values[i])])
  }

  lemma TextsAppend(values: seq<Value>, v: Value)
    ensures Texts(values + [v]) == Texts(values) + [[Text(v)]]
  {
  }

  predicate Readable(b: BlockField) {
    b.Transactions? ==> forall t | t in b.list :: t.Fields?
  }

  function Brief(b: BlockField): Stream
    requires Readable(b)
  {
    match b
    case Plain(f) => Member(f)
    case Transactions(list) => [Name("transactions"), ListStart] + Join(Texts(AllHashes(list))) + [ListEnd]
  }

  function Briefs(block: seq<BlockField>): (parts: seq<Stream>)
    requires forall i | 0 <= i < |block| :: Readable(block[i])
    ensures |parts| == |block|
  {
    if block == [] then [] else Briefs(block[..|block| - 1]) + [Brief(block[|block| - 1])]
  }

  lemma HashesStep(fields: seq<Field>, i: nat)
    requires i < |fields|
    ensures Hashes(fields[..i + 1]) ==
      if fields[i].key == "hash" then Hashes(fields[..i]) + [fields[i].value] else Hashes(fields[..i])
  {
    assert fields[..i + 1][..i] == fields[..i];
  }

  /** Writes the hashes of one transaction after those of the ones before it. */
  method WriteHashes(fields: seq<Field>, w0: Stream, first0: bool, ghost start: Stream, ghost before: seq<Value>)
    returns (w: Stream, first: bool)
    requires WroteParts(w0, start, Texts(before), first0)
    ensures WroteParts(w, start, Texts(before + Hashes(fields)), first)
  {
    w, first := w0, first0;
    ghost var sofar := before;
    assert Hashes(fields[..0]) == [];
    hide WroteParts, Texts, Hashes;
    for i := 0 to |fields|
      invariant sofar == before + Hashes(fields[..i])
      invariant WroteParts(w, start, Texts(sofar), first)
    {
      HashesStep(fields, i);
      if fields[i].key == "hash" {
        TextsAppend(sofar, fields[i].value);
        WrotePart(w, start, Texts(sofar), first, [Text(fields[i].value)]);
        if first {
          first := false;
        } else {
          w := w + [Sep];
        }
        w := w + [Text(fields[i].value)];
        sofar := sofar + [fields[i].value];
      }
    }
    assert fields[..|fields|] == fields;
  }

  method WriteTransactions(list: seq<Transaction>, w0: Stream) returns (w: Option<Stream>)
    ensures w.Some? <==> forall t | t in list :: t.Fields?
    ensures w.Some? ==> w.value == w0 + Join(Texts(AllHashes(list)))
  {
    var out := w0;
    var first := true;
    WroteNoParts(w0);
    assert Texts(AllHashes(list[..0])) == [];
    for i := 0 to |list|
      invariant forall t | t in list[..i] :: t.Fields?
      invariant WroteParts(out, w0, Texts(AllHashes(list[..i])), first)
    {
      assert list[..i + 1] == list[..i] + [list[i]];
      if list[i].NotObject? {
        assert list[i] in list;
        return None;
      }
      out, first := WriteHashes(list[i].fields, out, first, w0, AllHashes(list[..i]));
    }
    assert list[..|list|] == list;
    return Some(out);
  }

  method WriteField(b: BlockField, w0: Stream) returns (w: Option<Stream>)
    ensures w.Some? <==> Readable(b)
    ensures w.Some? ==> w.value == w0 + Brief(b)
  {
    match b {
      case Plain(f) =>
        return Some(w0 + [Name(f.key), Text(f.value)]);
      case Transactions(list) =>
        var out := WriteTransactions(list, w0 + [Name("transactions"), ListStart]);
        return if out.None? then None else Some(out.value + [ListEnd]);
    }
  }

  /** The stream after the first `i` fields. */
  ghost predicate WroteFields(w: Stream, block: seq<BlockField>, i: nat, firstKey: bool) {
    && i <= |block| && (forall k | 0 <= k < i :: Readable(block[k]))
    && WroteParts(w, [ObjStart], Briefs(block[..i]), firstKey)
  }

  lemma WroteField(w: Stream, block: seq<BlockField>, i: nat, firstKey: bool)
    requires WroteFields(w, block, i, firstKey) && i < |block| && Readable(block[i])
    ensures WroteFields((if firstKey then w else w + [Sep]) + Brief(block[i]), block, i + 1, false)
  {
    BriefsStep(block, i);
    WrotePart(w, [ObjStart], Briefs(block[..i]), firstKey, Brief(block[i]));
    hide WroteParts, Brief, Briefs, Readable;
  }

  lemma BriefsStep(block: seq<BlockField>, i: nat)
    requires i < |block| && forall k | 0 <= k <= i :: Readable(block[k])
    ensures Briefs(block[..i + 1]) == Briefs(block[..i]) + [Brief(block[i])]
  {
    assert block[..i + 1][..i] == block[..i];
    hide Brief, Readable;
  }

  lemma WroteAll(w: Stream, block: seq<BlockField>, firstKey: bool)
    requires WroteFields(w, block, |block|, firstKey)
    ensures forall i | 0 <= i < |block| :: Readable(block[i])
    ensures w == [ObjStart] + Join(Briefs(block))
  {
    assert block[..|block|] == block;
  }

  method RemoveTransactionDetails(block: seq<BlockField>) returns (r: Option<Stream>)
    ensures r.Some? <==> forall i | 0 <= i < |block| :: Readable(block[i])
    ensures r.Some? ==> r.value == [ObjStart] + Join(Briefs(block)) + [ObjEnd]
  {
    var w: Stream := [ObjStart];
    var firstKey := true;
    WroteNoParts(w);
    assert Briefs(block[..0]) == [];
    assert WroteFields(w, block, 0, true);
    hide WroteFields, Join, Brief, Briefs, Readable;
    for i := 0 to |block|
      invariant WroteFields(w, block, i, firstKey)
    {
      ghost var before, first := w, firstKey;
      if firstKey {
        firstKey := false;
      } else {
        w := w + [Sep];
      }
      var out := WriteField(block[i], w);
      if out.None? {
        return None;
      }
      w := out.value;
      WroteField(before, block, i, first);
    }
    WroteAll(w, block, firstKey);
    return Some(w + [ObjEnd]);
  }

  /** Transactions with one hash each keep one element each, in order. */
  lemma {:induction false} OneHashEach(list: seq<Transaction>, i: int)
    requires forall t | t in list :: t.Fields? && |Hashes(t.fields)| == 1
    requires 0 <= i < |list|
    ensures |AllHashes(list)| == |list| && list[i] in list
    ensures AllHashes(list)[i] == Hashes(list[i].fields)[0]
  {
    var front := list[..|list| - 1];
    assert list[|list| - 1] in list;
    if front != [] {
      OneHashEach(front, if i < |front| then i else 0);
      assert forall k | 0 <= k < |front| :: front[k] == list[k];
    } else {
      assert AllHashes(front) == [];
    }
  }
}
