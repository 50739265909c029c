/** Log filters: compiled form, check, and the plain meaning of addresses and topics. */
module LogFilter {
  import opened Basics
  import opened Types

  datatype CompiledFilter = CompiledFilter(addresses: set<Address>, topics: seq<set<Hash>>)

  datatype AddressTopics = AddressTopics(address: Address, topics: seq<Hash>)

  /** What a filter means: an empty address list or topic alternative is a wildcard, and a
      non-empty alternative needs a topic at its position. */
  predicate Matches(addresses: seq<Address>, topics: seq<seq<Hash>>, l: AddressTopics) {
    && (addresses == [] || l.address in addresses)
    && forall i | 0 <= i < |topics| :: topics[i] == [] || (i < |l.topics| && l.topics[i] in topics[i])
  }

  /** A filter case by case: what lets a log through, and what keeps it out. */
  lemma FilterCases(addresses: seq<Address>, topics: seq<seq<Hash>>, l: AddressTopics)
    ensures addresses == [] && (forall i | 0 <= i < |topics| :: topics[i] == []) ==> Matches(addresses, topics, l)
    ensures addresses != [] && l.address !in addresses ==> !Matches(addresses, topics, l)
    ensures forall i | 0 <= i < |topics| && topics[i] != [] && i >= |l.topics| :: !Matches(addresses, topics, l)
    ensures forall i | 0 <= i < |topics| && topics[i] != [] && i < |l.topics| && l.topics[i] !in topics[i] ::
      !Matches(addresses, topics, l)
    ensures (&& (addresses == [] || l.address in addresses)
             && (forall i | 0 <= i < |topics| && topics[i] != [] :: i < |l.topics| && l.topics[i] in topics[i]))
      ==> Matches(addresses, topics, l)
  {
  }

  function SetOf(s: seq<int>): set<int> {
    set x | x in s
  }

  /** A filter without addresses and topics compiles to nothing at all. */
  function Compiled(addresses: seq<Address>, topics: seq<seq<Hash>>): Option<CompiledFilter> {
    if addresses == [] && topics == [] then None
    else Some(CompiledFilter(SetOf(addresses), seq(|topics|, i requires 0 <= i < |topics| => SetOf(topics[i]))))
  }

  method CompileFilter(addresses: seq<Address>, topics: seq<seq<Hash>>) returns (c: Option<CompiledFilter>)
    ensures c == Compiled(addresses, topics)
  {
    if |addresses| == 0 && |topics| == 0 {
      return None;
    }
    var addrMap: set<Address> := {};
    for i := 0 to |addresses|
      invariant addrMap == SetOf(addresses[..i])
    {
      addrMap := addrMap + {addresses[i]};
      assert addresses[..i + 1] == addresses[..i] + [addresses[i]];
    }
    assert addresses[..|addresses|] == addresses;
    var topicMap: seq<set<Hash>> := [];
    for idx := 0 to |topics|
      invariant |topicMap| == idx
      invariant forall k | 0 <= k < idx :: topicMap[k] == SetOf(topics[k])
    {
      var alternatives: set<Hash> := {};
      for j := 0 to |topics[idx]|
        invariant alternatives == SetOf(topics[idx][..j])
      {
        alternatives := alternatives + {topics[idx][j]};
        assert topics[idx][..j + 1] == topics[idx][..j] + [topics[idx][j]];
      }
      assert topics[idx][..|topics[idx]|] == topics[idx];
      topicMap := topicMap + [alternatives];
    }
    assert topicMap == Compiled(addresses, topics).value.topics;
    return Some(CompiledFilter(addrMap, topicMap));
  }

  /** A compiled filter's verdict on a log. */
  predicate Accepts(c: Option<CompiledFilter>, l: AddressTopics) {
    c.Some? ==>
      && (c.value.addresses != {} ==> l.address in c.value.addresses)
      && TopicsAccept(c.value.topics, l.topics, |c.value.topics|)
  }

  /** The first `n` positions accept. */
  predicate TopicsAccept(sets: seq<set<Hash>>, topics: seq<Hash>, n: nat)
    requires n <= |sets|
  {
    forall i | 0 <= i < n :: sets[i] == {} || (i < |topics| && topics[i] in sets[i])
  }

  method Check(c: Option<CompiledFilter>, l: AddressTopics) returns (ok: bool)
    ensures ok == Accepts(c, l)
  {
    if c.None? {
      return true;
    }
    if c.value.addresses != {} && l.address !in c.value.addresses {
      return false;
    }
    for idx := 0 to |c.value.topics|
      invariant TopicsAccept(c.value.topics, l.topics, idx)
    {
      var topicSet := c.value.topics[idx];
      if topicSet == {} {
        continue;
      }
      if idx >= |l.topics| {
        return false;
      }
      if l.topics[idx] !in topicSet {
        return false;
      }
    }
    return true;
  }

  /** Compiling and checking decides exactly the filter's meaning. */
  lemma CompiledDecides(addresses: seq<Address>, topics: seq<seq<Hash>>, l: AddressTopics)
    ensures Accepts(Compiled(addresses, topics), l) <==> Matches(addresses, topics, l)
  {
    var c := Compiled(addresses, topics);
    if c.Some? {
      assert c.value.addresses == {} <==> addresses == [] by {
        if addresses != [] {
          assert addresses[0] in c.value.addresses;
        }
      }
      forall i | 0 <= i < |topics| ensures c.value.topics[i] == {} <==> topics[i] == [] {
        if topics[i] != [] {
          assert topics[i][0] in c.value.topics[i];
        }
      }
    }
  }

  function HeaderOf(log: Log): AddressTopics {
    AddressTopics(log.address, log.topics)
  }

  /** The logs a compiled filter accepts, in order. */
  function Accepted(c: Option<CompiledFilter>, logs: seq<Log>): seq<Log> {
    if logs == [] then []
    else
      var before := Accepted(c, logs[..|logs| - 1]);
      if Accepts(c, HeaderOf(logs[|logs| - 1])) then before + [logs[|logs| - 1]] else before
  }

  /** The logs that match a filter, in order. */
  function Matching(addresses: seq<Address>, topics: seq<seq<Hash>>, logs: seq<Log>): seq<Log> {
    if logs == [] then []
    else
      var before := Matching(addresses, topics, logs[..|logs| - 1]);
      if Matches(addresses, topics, HeaderOf(logs[|logs| - 1])) then before + [logs[|logs| - 1]] else before
  }

  /** Which logs match, one after another. */
  lemma MatchingIs(addresses: seq<Address>, topics: seq<seq<Hash>>, logs: seq<Log>, l: Log)
    ensures Matching(addresses, topics, []) == []
    ensures Matching(addresses, topics, logs + [l]) ==
      if Matches(addresses, topics, AddressTopics(l.address, l.topics))
      then Matching(addresses, topics, logs) + [l] else Matching(addresses, topics, logs)
  {
    assert (logs + [l])[..|logs|] == logs;
  }

  lemma {:induction false} AcceptedAreMatching(addresses: seq<Address>, topics: seq<seq<Hash>>, logs: seq<Log>)
    ensures Accepted(Compiled(addresses, topics), logs) == Matching(addresses, topics, logs)
  {
    if logs != [] {
      AcceptedAreMatching(addresses, topics, logs[..|logs| - 1]);
      CompiledDecides(addresses, topics, HeaderOf(logs[|logs| - 1]));
    }
  }

  lemma {:induction false} AcceptedAll(logs: seq<Log>)
    ensures Accepted(None, logs) == logs
  {
    if logs != [] {
      AcceptedAll(logs[..|logs| - 1]);
      assert logs == logs[..|logs| - 1] + [logs[|logs| - 1]];
    }
  }

  method Filter(c: Option<CompiledFilter>, logs: seq<Log>) returns (o: seq<Log>)
    ensures o == Accepted(c, logs)
  {
    if c.None? {
      AcceptedAll(logs);
      return logs;
    }
    o := [];
    for i := 0 to |logs|
      invariant o == Accepted(c, logs[..i])
    {
      assert logs[..i + 1][..i] == logs[..i];
      var ok := Check(c, HeaderOf(logs[i]));
      if ok {
        o := o + [logs[i]];
      }
    }
    assert logs[..|logs|] == logs;
  }
}
