/** JSON arrays as the streaming writer produces them: a buffer of tokens.
    The element type is left abstract; only brackets and commas matter here. */
module Json {
  import opened Basics

  datatype Token<+T> = ArrStart | ArrEnd | Comma | Raw(item: T)

  type Buffer<T> = seq<Token<T>>

  /** The comma-separated elements, built the way a writer appends them. */
  function Elements<T>(s: seq<T>): Buffer<T> {
    if s == [] then []
    else if |s| == 1 then [Raw(s[0])]
    else Elements(s[..|s| - 1]) + [Comma, Raw(s[|s| - 1])]
  }

  function Encode<T>(s: seq<T>): Buffer<T> {
    [ArrStart] + Elements(s) + [ArrEnd]
  }

  /** Reads back a non-empty run of comma-separated elements. */
  function DecodeElements<T>(b: Buffer<T>): Option<seq<T>> {
    if |b| == 0 || !b[|b| - 1].Raw? then None
    else if |b| == 1 then Some([b[0].item])
    else if !b[|b| - 2].Comma? then None
    else
      match DecodeElements(b[..|b| - 2])
      case None => None
      case Some(s) => Some(s + [b[|b| - 1].item])
  }

  /** Array iteration: the elements of a well-formed array, or None for malformed input. */
  function Decode<T>(b: Buffer<T>): Option<seq<T>> {
    if |b| < 2 || !b[0].ArrStart? || !b[|b| - 1].ArrEnd? then None
    else if |b| == 2 then Some([])
    else DecodeElements(b[1..|b| - 1])
  }

  lemma {:induction false} ElementsRoundTrip<T>(s: seq<T>)
    requires s != []
    ensures Elements(s) != []
    ensures DecodeElements(Elements(s)) == Some(s)
  {
    if |s| > 1 {
      var front := s[..|s| - 1];
      ElementsRoundTrip(front);
      var b := Elements(s);
      assert b[..|b| - 2] == Elements(front);
      assert s == front + [s[|s| - 1]];
    } else {
      assert s == [s[0]];
    }
  }

  lemma {:induction false} ElementsOfDecoded<T>(b: Buffer<T>)
    requires DecodeElements(b).Some?
    ensures DecodeElements(b).value != []
    ensures Elements(DecodeElements(b).value) == b
  {
    if |b| > 1 {
      ElementsOfDecoded(b[..|b| - 2]);
      var s := DecodeElements(b[..|b| - 2]).value;
      var t := s + [b[|b| - 1].item];
      assert t[..|t| - 1] == s;
      assert b == b[..|b| - 2] + [b[|b| - 2], b[|b| - 1]];
    }
  }

  /** What a writer emits parses back to exactly the elements written. */
  lemma EncodeDecode<T>(s: seq<T>)
    ensures Decode(Encode(s)) == Some(s)
  {
    var b := Encode(s);
    if s != [] {
      ElementsRoundTrip(s);
      assert b[1..|b| - 1] == Elements(s);
    }
  }

  /** Only the writer's own output parses: decoding is injective. */
  lemma DecodeEncode<T>(b: Buffer<T>)
    requires Decode(b).Some?
    ensures Encode(Decode(b).value) == b
  {
    if |b| == 2 {
      assert b == [ArrStart, ArrEnd];
    } else {
      ElementsOfDecoded(b[1..|b| - 1]);
      assert b == [b[0]] + b[1..|b| - 1] + [b[|b| - 1]];
    }
  }

  /** The state of a buffer into which the elements so far have been written, array still open. */
  function Open<T>(s: seq<T>): Buffer<T> {
    [ArrStart] + Elements(s)
  }

  lemma OpenAppend<T>(s: seq<T>, x: T)
    ensures Open(s + [x]) == Open(s) + (if s == [] then [Raw(x)] else [Comma, Raw(x)])
  {
    var t := s + [x];
    assert t[..|t| - 1] == s;
  }

  /** What arrays look like: brackets around the elements, and a comma before each but the first. */
  lemma EncodeLooks<T>(s: seq<T>, x: T)
    ensures Encode<T>([]) == [ArrStart, ArrEnd]
    ensures Encode([x]) == [ArrStart, Raw(x), ArrEnd]
    ensures s != [] ==> Encode(s + [x]) == Encode(s)[..|Encode(s)| - 1] + [Comma, Raw(x), ArrEnd]
  {
    if s != [] {
      OpenAppend(s, x);
      assert Encode(s)[..|Encode(s)| - 1] == Open(s);
    }
  }
}
