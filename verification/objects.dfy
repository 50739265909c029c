/** Reading back the streams that Documents and Forger write: which fields the objects have, in which
    order, with which values. */
module Objects {
  import opened Basics
  import opened Types
  import opened Documents
  import opened Forger

  /** A field's content: one value, or a list of values or of logs. */
  datatype Content = One(value: Value) | List(items: seq<Piece>)

  datatype Attribute = Attribute(key: string, content: Content)

  predicate IsItem(p: Piece) {
    p.Text? || p.LogText?
  }

  /** Items separated by commas. */
  function ReadItems(s: Stream): Option<seq<Piece>> {
    if s == [] then Some([])
    else if !IsItem(s[0]) then None
    else if |s| == 1 then Some([s[0]])
    else if s[1] != Sep || |s| == 2 then None
    else
      var rest := ReadItems(s[2..]);
      if rest.None? then None else Some([s[0]] + rest.value)
  }

  /** The place of the first end of a list, or the end of the stream. */
  function ListEndFrom(s: Stream, i: nat): (j: nat)
    requires i <= |s|
    ensures i <= j <= |s|
    decreases |s| - i
  {
    if i == |s| || s[i] == ListEnd then i else ListEndFrom(s, i + 1)
  }

  /** One attribute at the start of a stream, and how long it is; none if there is no such attribute. */
  function ReadOne(s: Stream): (r: Option<(Attribute, nat)>)
    ensures r.Some? ==> 2 <= r.value.1 <= |s|
  {
    if |s| < 2 || !s[0].Name? then None
    else if s[1].Text? then Some((Attribute(s[0].key, One(s[1].value)), 2))
    else if s[1] != ListStart then None
    else
      var j := ListEndFrom(s, 2);
      if j == |s| || ReadItems(s[2..j]).None? then None
      else Some((Attribute(s[0].key, List(ReadItems(s[2..j]).value)), j + 1))
  }

  /** Attributes separated by commas. */
  function ReadAttributes(s: Stream): Option<seq<Attribute>> {
    var one := ReadOne(s);
    if one.None? then None
    else
      var (a, n) := one.value;
      if n == |s| then Some([a])
      else if s[n] != Sep then None
      else
        var rest := ReadAttributes(s[n + 1..]);
        if rest.None? then None else Some([a] + rest.value)
  }

  /** An object's attributes. */
  function ReadObject(s: Stream): Option<seq<Attribute>> {
    if |s| < 2 || s[0] != ObjStart || s[|s| - 1] != ObjEnd then None
    else if |s| == 2 then Some([])
    else ReadAttributes(s[1..|s| - 1])
  }

  // Writing attributes, and reading them back.

  function Singles(items: seq<Piece>): (parts: seq<Stream>)
    ensures |parts| == |items|
  {
    seq(|items|, i requires 0 <= i < |items| => [items[i]])
  }

  function Written(a: Attribute): Stream {
    match a.content
    case One(value) => [Name(a.key), Text(value)]
    case List(items) => [Name(a.key), ListStart] + Join(Singles(items)) + [ListEnd]
  }

  predicate Clean(a: Attribute) {
    a.content.List? ==> forall p | p in a.content.items :: IsItem(p)
  }

  function AllWritten(attributes: seq<Attribute>): (parts: seq<Stream>)
    ensures |parts| == |attributes|
  {
    seq(|attributes|, i requires 0 <= i < |attributes| => Written(attributes[i]))
  }

  lemma {:induction false} JoinFirst(parts: seq<Stream>)
    requires parts != []
    ensures Join(parts) == if |parts| == 1 then parts[0] else parts[0] + [Sep] + Join(parts[1..])
  {
    if |parts| > 1 {
      var front, rest := parts[..|parts| - 1], parts[1..];
      JoinFirst(front);
      if |parts| > 2 {
        assert front[1..] == rest[..|rest| - 1];
        assert Join(rest) == Join(front[1..]) + [Sep] + parts[|parts| - 1];
      }
    }
  }

  lemma ItemsNext(p: Piece, rest: Stream)
    requires IsItem(p) && rest != [] && ReadItems(rest).Some?
    ensures ReadItems([p] + [Sep] + rest) == Some([p] + ReadItems(rest).value)
  {
    var s := [p] + [Sep] + rest;
    assert s[2..] == rest;
  }

  lemma SinglesFirst(items: seq<Piece>)
    requires items != []
    ensures Join(Singles(items)) ==
      if |items| == 1 then [items[0]] else [items[0]] + [Sep] + Join(Singles(items[1..]))
  {
    JoinFirst(Singles(items));
    assert Singles(items)[1..] == Singles(items[1..]);
    hide Join;
  }

  lemma {:induction false} ItemsRead(items: seq<Piece>)
    requires forall p | p in items :: IsItem(p)
    ensures ReadItems(Join(Singles(items))) == Some(items)
    ensures forall p | p in Join(Singles(items)) :: p != ListEnd
    ensures items != [] ==> Join(Singles(items)) != []
  {
    if items == [] {
      assert Singles(items) == [] && Join([]) == [];
    } else {
      var p, rest := items[0], items[1..];
      assert p in items && items == [p] + rest;
      SinglesFirst(items);
      if rest == [] {
        assert items == [p];
      } else {
        ItemsRead(rest);
        ItemsNext(p, Join(Singles(rest)));
      }
      hide Join, Singles;
    }
  }

  lemma {:induction false} ListEndFound(s: Stream, i: nat, j: nat)
    requires i <= j < |s| && s[j] == ListEnd
    requires forall k | i <= k < j :: s[k] != ListEnd
    ensures ListEndFrom(s, i) == j
    decreases j - i
  {
    if i < j {
      ListEndFound(s, i + 1, j);
    }
  }

  lemma ListRead(key: string, items: seq<Piece>, after: Stream)
    requires forall p | p in items :: IsItem(p)
    ensures
      var s := [Name(key), ListStart] + Join(Singles(items)) + [ListEnd] + after;
      ReadOne(s) == Some((Attribute(key, List(items)), 3 + |Join(Singles(items))|))
  {
    var inner := Join(Singles(items));
    var s := [Name(key), ListStart] + inner + [ListEnd] + after;
    ItemsRead(items);
    hide Join, Singles, ReadItems;
    var j := 2 + |inner|;
    assert s[2..j] == inner && s[j] == ListEnd;
    assert forall k | 2 <= k < j :: s[k] == inner[k - 2] && inner[k - 2] in inner;
    ListEndFound(s, 2, j);
  }

  /** An attribute is read from the start of what follows it. */
  lemma OneRead(a: Attribute, after: Stream)
    requires Clean(a)
    ensures ReadOne(Written(a) + after) == Some((a, |Written(a)|))
  {
    match a.content
    case One(value) =>
    case List(items) => ListRead(a.key, items, after);
    hide Join, Singles;
  }

  lemma AttributesNext(a: Attribute, rest: Stream)
    requires Clean(a) && ReadAttributes(rest).Some?
    ensures ReadAttributes(Written(a) + [Sep] + rest) == Some([a] + ReadAttributes(rest).value)
  {
    var s, n := Written(a) + [Sep] + rest, |Written(a)|;
    OneRead(a, [Sep] + rest);
    assert s == Written(a) + ([Sep] + rest);
    assert s[n] == Sep && s[n + 1..] == rest;
    hide Written, ReadOne, Clean;
  }

  lemma AttributesLast(a: Attribute)
    requires Clean(a)
    ensures ReadAttributes(Written(a)) == Some([a])
  {
    OneRead(a, []);
    assert Written(a) + [] == Written(a);
    hide Written, ReadOne, Clean;
  }

  lemma AllWrittenFirst(attributes: seq<Attribute>)
    requires attributes != []
    ensures Join(AllWritten(attributes)) ==
      if |attributes| == 1 then Written(attributes[0])
      else Written(attributes[0]) + [Sep] + Join(AllWritten(attributes[1..]))
  {
    JoinFirst(AllWritten(attributes));
    assert AllWritten(attributes)[1..] == AllWritten(attributes[1..]);
    hide Join, Written;
  }

  lemma {:induction false} AttributesRead(attributes: seq<Attribute>)
    requires attributes != [] && forall a | a in attributes :: Clean(a)
    ensures ReadAttributes(Join(AllWritten(attributes))) == Some(attributes)
  {
    var a, rest := attributes[0], attributes[1..];
    assert a in attributes && attributes == [a] + rest;
    AllWrittenFirst(attributes);
    if rest == [] {
      assert attributes == [a];
      AttributesLast(a);
    } else {
      AttributesRead(rest);
      AttributesNext(a, Join(AllWritten(rest)));
    }
    hide Written, Join, Clean, AllWritten, ReadAttributes;
  }

  /** An object reads back as exactly the attributes that were written, in order. */
  lemma ObjectReads(attributes: seq<Attribute>)
    requires forall a | a in attributes :: Clean(a)
    ensures ReadObject([ObjStart] + Join(AllWritten(attributes)) + [ObjEnd]) == Some(attributes)
  {
    var s := [ObjStart] + Join(AllWritten(attributes)) + [ObjEnd];
    assert s[1..|s| - 1] == Join(AllWritten(attributes));
    if attributes == [] {
      assert AllWritten(attributes) == [] && Join([]) == [];
    } else {
      AttributesRead(attributes);
      NotEmpty(attributes);
    }
  }

  lemma NotEmpty(attributes: seq<Attribute>)
    requires attributes != []
    ensures Join(AllWritten(attributes)) != []
  {
    JoinFirst(AllWritten(attributes));
    assert |Written(attributes[0])| >= 2;
  }

  // What the three rewrites write.

  function Ones(fields: seq<Field>): (attributes: seq<Attribute>)
    ensures |attributes| == |fields|
  {
    seq(|fields|, i requires 0 <= i < |fields| => Attribute(fields[i].key, One(fields[i].value)))
  }

  lemma OnesWritten(fields: seq<Field>)
    ensures AllWritten(Ones(fields)) == Members(fields)
  {
  }

  /** A block for subscribers reads back as its fields other than the transaction list, in order. */
  lemma BlockForSubscribers(block: seq<BlockField>)
    ensures ReadObject([ObjStart] + Join(Members(WithoutTransactions(block))) + [ObjEnd])
      == Some(Ones(WithoutTransactions(block)))
  {
    OnesWritten(WithoutTransactions(block));
    ObjectReads(Ones(WithoutTransactions(block)));
    hide Join, ReadObject, WithoutTransactions, Members;
  }

  function Items(values: seq<Value>): (items: seq<Piece>)
    ensures |items| == |values| && forall p | p in items :: IsItem(p)
  {
    seq(|values|, i requires 0 <= i < |values| => Text(values[i]))
  }

  /** Plain fields as they are, and under "transactions" the hashes. */
  function BriefAttribute(b: BlockField): Attribute
    requires Readable(b)
  {
    match b
    case Plain(f) => Attribute(f.key, One(f.value))
    case Transactions(list) => Attribute("transactions", List(Items(AllHashes(list))))
  }

  function BriefAttributes(block: seq<BlockField>): (attributes: seq<Attribute>)
    requires forall i | 0 <= i < |block| :: Readable(block[i])
    ensures |attributes| == |block|
  {
    seq(|block|, i requires 0 <= i < |block| => BriefAttribute(block[i]))
  }

  lemma BriefWritten(b: BlockField)
    requires Readable(b)
    ensures Written(BriefAttribute(b)) == Brief(b) && Clean(BriefAttribute(b))
  {
    if b.Transactions? {
      assert Singles(Items(AllHashes(b.list))) == Texts(AllHashes(b.list));
    }
    hide Join, AllHashes;
  }

  lemma {:induction false} BriefsWritten(block: seq<BlockField>)
    requires forall i | 0 <= i < |block| :: Readable(block[i])
    ensures AllWritten(BriefAttributes(block)) == Briefs(block)
    ensures forall a | a in BriefAttributes(block) :: Clean(a)
  {
    if block != [] {
      var front, last := block[..|block| - 1], block[|block| - 1];
      BriefsWritten(front);
      BriefWritten(last);
      assert BriefAttributes(block) == BriefAttributes(front) + [BriefAttribute(last)];
      assert AllWritten(BriefAttributes(block)) == AllWritten(BriefAttributes(front)) + [Written(BriefAttribute(last))];
    }
    hide Readable, Brief, Written, Clean, BriefAttribute;
  }

  /** A block without details reads back as its own fields in order, with hashes for its transactions. */
  lemma BlockWithoutDetails(block: seq<BlockField>)
    requires forall i | 0 <= i < |block| :: Readable(block[i])
    ensures ReadObject([ObjStart] + Join(Briefs(block)) + [ObjEnd]) == Some(BriefAttributes(block))
  {
    BriefsWritten(block);
    ObjectReads(BriefAttributes(block));
    hide Join, ReadObject, Briefs, BriefAttributes, Readable;
  }

  function LogItems(logs: seq<Log>): (items: seq<Piece>)
    ensures |items| == |logs| && forall p | p in items :: IsItem(p)
  {
    seq(|logs|, i requires 0 <= i < |logs| => LogText(logs[i]))
  }

  /** A receipt reads back as its fields in order, and its logs last, under "logs". */
  lemma ReceiptReads(fields: seq<Field>, logs: seq<Log>)
    ensures ReadObject(ReceiptOf(fields, logs))
      == Some(Ones(ReceiptFields(fields)) + [Attribute("logs", List(LogItems(logs)))])
  {
    var ones, last := Ones(ReceiptFields(fields)), Attribute("logs", List(LogItems(logs)));
    assert Singles(LogItems(logs)) == LogTexts(logs);
    assert Written(last) == LogsMember(logs);
    OnesWritten(ReceiptFields(fields));
    assert AllWritten(ones + [last]) == Members(ReceiptFields(fields)) + [LogsMember(logs)];
    ObjectReads(ones + [last]);
    hide Join, ReadObject, ReceiptFields, Members, Written;
  }

  /** Field by field: which fields of a transaction become which fields of its receipt, in order. */
  lemma ReceiptFieldsOf(before: seq<Field>, f: Field)
    ensures ReceiptFields([]) == []
    ensures f.key == "hash" ==>
      ReceiptFields(before + [f]) == ReceiptFields(before) + [Field("transactionHash", f.value)]
    ensures f.key != "hash" ==>
      ReceiptFields(before + [f]) ==
        if (f.key == "blockHash" || f.key == "transactionIndex" || f.key == "to" || f.key == "from"
            || f.key == "type" || f.key == "blockNumber")
        then ReceiptFields(before) + [f] else ReceiptFields(before)
  {
    assert (before + [f])[..|before|] == before;
    assert KEPT[0] == "blockHash" && KEPT[1] == "transactionIndex" && KEPT[2] == "to" && KEPT[3] == "from"
      && KEPT[4] == "type" && KEPT[5] == "blockNumber" && |KEPT| == 6;
    assert "hash" !in KEPT;
  }

  /** Which values are a transaction's hashes: those of its fields called "hash", in order. */
  lemma HashesOf(before: seq<Field>, f: Field)
    ensures Hashes([]) == []
    ensures Hashes(before + [f]) == if f.key == "hash" then Hashes(before) + [f.value] else Hashes(before)
  {
    assert (before + [f])[..|before|] == before;
  }

  /** Which hash a transaction has: that of its last hash field, if all of these decode, and the zero hash
      if there is none. */
  lemma TxHashIs(before: seq<Field>, f: Field)
    ensures TxHash([]) == Some(0)
    ensures f.key != "hash" ==> TxHash(before + [f]) == TxHash(before)
    ensures f.key == "hash" ==> TxHash(before + [f]) == if TxHash(before).Some? then f.value.hash else None
  {
    assert (before + [f])[..|before|] == before;
  }

  /** Which logs are a transaction's: those with its hash, in order. */
  lemma OfTxIs(before: seq<Log>, l: Log, hash: Hash)
    ensures OfTx([], hash) == []
    ensures OfTx(before + [l], hash) ==
      if l.transactionHash == hash then OfTx(before, hash) + [l] else OfTx(before, hash)
  {
    OfTxAppend(before, l, hash);
  }

  /** Which fields a subscriber gets, block field by block field. */
  lemma WithoutTransactionsIs(before: seq<BlockField>, b: BlockField)
    ensures WithoutTransactions([]) == []
    ensures WithoutTransactions(before + [b]) ==
      if b.Plain? then WithoutTransactions(before) + [b.field] else WithoutTransactions(before)
  {
    assert (before + [b])[..|before|] == before;
  }

  /** Which hashes a list of transactions is cut down to. */
  lemma AllHashesIs(before: seq<Transaction>, fields: seq<Field>)
    requires forall t | t in before :: t.Fields?
    ensures AllHashes([]) == []
    ensures AllHashes(before + [Fields(fields)]) == AllHashes(before) + Hashes(fields)
  {
    assert (before + [Fields(fields)])[..|before|] == before;
  }
}
