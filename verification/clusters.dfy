/** Cluster: remotes kept twice, as one list sorted by priority and as priority groups. */
module Clusters {
  import opened Basics

  type Remote = int

  datatype Group = Group(priority: int, remotes: seq<Remote>, round: int)

  datatype ClusterState = ClusterState(groups: seq<Group>, remotes: seq<Remote>, remotePriority: seq<int>)

  predicate Ascending(s: seq<int>) {
    forall i, j | 0 <= i < j < |s| :: s[i] <= s[j]
  }

  /** `i` is where a leftmost insertion of `x` keeps the order. */
  predicate Splits(s: seq<int>, x: int, i: nat) {
    i <= |s| && (forall k | 0 <= k < i :: s[k] < x) && (forall k | i <= k < |s| :: x <= s[k])
  }

  method BinarySearch(s: seq<int>, x: int) returns (i: nat, found: bool)
    requires Ascending(s)
    ensures Splits(s, x, i)
    ensures found <==> x in s
  {
    var j := |s|;
    i := 0;
    while i < j
      invariant 0 <= i <= j <= |s|
      invariant forall k | 0 <= k < i :: s[k] < x
      invariant forall k | j <= k < |s| :: x <= s[k]
    {
      var h := (i + j) / 2;
      if s[h] < x {
        i := h + 1;
      } else {
        j := h;
      }
    }
    found := i < |s| && s[i] == x;
  }

  function Priorities(groups: seq<Group>): (ps: seq<int>)
    ensures |ps| == |groups| && forall i | 0 <= i < |groups| :: ps[i] == groups[i].priority
  {
    seq(|groups|, i requires 0 <= i < |groups| => groups[i].priority)
  }

  function Reversed(s: seq<Remote>): (r: seq<Remote>)
    ensures |r| == |s|
  {
    if s == [] then [] else [s[|s| - 1]] + Reversed(s[..|s| - 1])
  }

  function Repeated(x: int, n: nat): (s: seq<int>)
    ensures |s| == n
  {
    seq(n, i => x)
  }

  function Concat<T>(blocks: seq<seq<T>>): seq<T> {
    if blocks == [] then [] else Concat(blocks[..|blocks| - 1]) + blocks[|blocks| - 1]
  }

  function RemoteBlocks(groups: seq<Group>): seq<seq<Remote>> {
    seq(|groups|, i requires 0 <= i < |groups| => Reversed(groups[i].remotes))
  }

  function PriorityBlocks(groups: seq<Group>): seq<seq<int>> {
    seq(|groups|, i requires 0 <= i < |groups| => Repeated(groups[i].priority, |groups[i].remotes|))
  }

  /** The flat list of remotes that groups stand for: in each group the newest comes first. */
  function Flat(groups: seq<Group>): seq<Remote> {
    Concat(RemoteBlocks(groups))
  }

  function FlatPriorities(groups: seq<Group>): seq<int> {
    Concat(PriorityBlocks(groups))
  }

  predicate GroupsOk(groups: seq<Group>) {
    && StrictlyAscending(Priorities(groups))
    && (forall i | 0 <= i < |groups| :: groups[i].remotes != [])
  }

  /** The two representations agree. */
  predicate ValidState(s: ClusterState) {
    && GroupsOk(s.groups)
    && |s.remotes| == |s.remotePriority|
    && s.remotes == Flat(s.groups)
    && s.remotePriority == FlatPriorities(s.groups)
  }

  // What one Add does to the groups.

  function WithRemote(groups: seq<Group>, i: nat, priority: int, remote: Remote): seq<Group>
    requires i <= |groups|
  {
    if i < |groups| && groups[i].priority == priority then
      groups[..i] + [groups[i].(remotes := groups[i].remotes + [remote])] + groups[i + 1..]
    else groups[..i] + [Group(priority, [remote], 0)] + groups[i..]
  }

  lemma {:induction false} ConcatAppend<T>(a: seq<seq<T>>, b: seq<seq<T>>)
    ensures Concat(a + b) == Concat(a) + Concat(b)
  {
    if b == [] {
      assert a + b == a;
    } else {
      ConcatAppend(a, b[..|b| - 1]);
      assert (a + b)[..|a + b| - 1] == a + b[..|b| - 1];
    }
  }

  lemma ConcatOne<T>(block: seq<T>)
    ensures Concat([block]) == block
  {
    assert [block][..0] == [] && Concat<T>([]) == [];
  }

  lemma ConcatSplit<T>(blocks: seq<seq<T>>, i: nat)
    requires i <= |blocks|
    ensures Concat(blocks) == Concat(blocks[..i]) + Concat(blocks[i..])
  {
    assert blocks == blocks[..i] + blocks[i..];
    ConcatAppend(blocks[..i], blocks[i..]);
    hide Concat;
  }

  lemma ConcatInserted<T>(low: seq<seq<T>>, x: T, rest: seq<T>, high: seq<seq<T>>)
    ensures Concat(low + [[x] + rest] + high) == Concat(low) + [x] + rest + Concat(high)
  {
    ConcatAppend(low + [[x] + rest], high);
    ConcatAppend(low, [[x] + rest]);
    ConcatOne([x] + rest);
    hide Concat;
  }

  /** Putting `x` in front of block `i`, or into a block of its own there, inserts it after the first `i` blocks. */
  lemma ConcatInsert<T>(blocks: seq<seq<T>>, i: nat, x: T)
    requires i <= |blocks|
    ensures i < |blocks| ==>
      Concat(blocks[..i] + [[x] + blocks[i]] + blocks[i + 1..]) == Concat(blocks[..i]) + [x] + Concat(blocks[i..])
    ensures Concat(blocks[..i] + [[x]] + blocks[i..]) == Concat(blocks[..i]) + [x] + Concat(blocks[i..])
  {
    if i < |blocks| {
      ConcatInserted(blocks[..i], x, blocks[i], blocks[i + 1..]);
      assert blocks[i..] == [blocks[i]] + blocks[i + 1..];
      ConcatAppend([blocks[i]], blocks[i + 1..]);
      ConcatOne(blocks[i]);
    }
    assert [x] + [] == [x];
    ConcatInserted(blocks[..i], x, [], blocks[i..]);
    hide Concat;
  }

  lemma {:induction false} ConcatSizes<S, T>(a: seq<seq<S>>, b: seq<seq<T>>)
    requires |a| == |b| && forall k | 0 <= k < |a| :: |a[k]| == |b[k]|
    ensures |Concat(a)| == |Concat(b)|
  {
    if a != [] {
      ConcatSizes(a[..|a| - 1], b[..|b| - 1]);
    }
  }

  predicate AllBelow(s: seq<int>, x: int) {
    forall k | 0 <= k < |s| :: s[k] < x
  }

  predicate AllAtLeast(s: seq<int>, x: int) {
    forall k | 0 <= k < |s| :: x <= s[k]
  }

  lemma {:induction false} ConcatBounds(blocks: seq<seq<int>>, x: int)
    ensures (forall k | 0 <= k < |blocks| :: AllBelow(blocks[k], x)) ==> AllBelow(Concat(blocks), x)
    ensures (forall k | 0 <= k < |blocks| :: AllAtLeast(blocks[k], x)) ==> AllAtLeast(Concat(blocks), x)
  {
    if blocks != [] {
      ConcatBounds(blocks[..|blocks| - 1], x);
    }
  }

  lemma {:induction false} FlatAscending(groups: seq<Group>)
    requires GroupsOk(groups)
    ensures Ascending(FlatPriorities(groups))
  {
    if groups != [] {
      var front, last := groups[..|groups| - 1], groups[|groups| - 1];
      FlatAscending(front);
      assert PriorityBlocks(groups)[..|groups| - 1] == PriorityBlocks(front);
      ConcatBounds(PriorityBlocks(front), last.priority);
    }
  }

  /** Splitting the groups at a priority splits the flat list at the same priority. */
  lemma SplitsAgree(groups: seq<Group>, priority: int, i: nat, idx: nat)
    requires Splits(Priorities(groups), priority, i)
    requires Splits(FlatPriorities(groups), priority, idx)
    ensures idx == |Concat(PriorityBlocks(groups)[..i])|
  {
    var blocks, ps := PriorityBlocks(groups), Priorities(groups);
    ConcatSplit(blocks, i);
    forall k | 0 <= k < i ensures AllBelow(blocks[k], priority) {
      assert ps[k] < priority;
    }
    forall k | i <= k < |groups| ensures AllAtLeast(blocks[k], priority) {
      assert priority <= ps[k];
    }
    ConcatBounds(blocks[..i], priority);
    ConcatBounds(blocks[i..], priority);
    hide Concat, PriorityBlocks;
    SplitUnique(Concat(blocks[..i]), Concat(blocks[i..]), priority, idx);
  }

  lemma SplitUnique(low: seq<int>, high: seq<int>, x: int, idx: nat)
    requires AllBelow(low, x) && AllAtLeast(high, x) && Splits(low + high, x, idx)
    ensures idx == |low|
  {
    assert Splits(low + high, x, |low|);
    SplitsOnce(low + high, x, idx, |low|);
  }

  lemma ReversedAppend(s: seq<Remote>, x: Remote)
    ensures Reversed(s + [x]) == [x] + Reversed(s)
  {
    assert (s + [x])[..|s|] == s;
  }

  lemma BlocksWithRemote(groups: seq<Group>, i: nat, priority: int, remote: Remote)
    requires i <= |groups|
    ensures
      var b, p, groups' := RemoteBlocks(groups), PriorityBlocks(groups), WithRemote(groups, i, priority, remote);
      if i < |groups| && groups[i].priority == priority then
        && RemoteBlocks(groups') == b[..i] + [[remote] + b[i]] + b[i + 1..]
        && PriorityBlocks(groups') == p[..i] + [[priority] + p[i]] + p[i + 1..]
      else
        && RemoteBlocks(groups') == b[..i] + [[remote]] + b[i..]
        && PriorityBlocks(groups') == p[..i] + [[priority]] + p[i..]
  {
    if i < |groups| && groups[i].priority == priority {
      ReversedAppend(groups[i].remotes, remote);
      assert Repeated(priority, |groups[i].remotes| + 1) == [priority] + Repeated(priority, |groups[i].remotes|);
    } else {
      assert Reversed([remote]) == [remote] && Repeated(priority, 1) == [priority];
    }
  }

  /** Adding to the groups inserts into the flat list exactly where its own search points. */
  lemma AddAgrees(groups: seq<Group>, priority: int, remote: Remote, i: nat, idx: nat)
    requires Splits(Priorities(groups), priority, i)
    requires Splits(FlatPriorities(groups), priority, idx)
    ensures idx <= |Flat(groups)|
    ensures Flat(WithRemote(groups, i, priority, remote)) == Flat(groups)[..idx] + [remote] + Flat(groups)[idx..]
    ensures FlatPriorities(WithRemote(groups, i, priority, remote))
      == FlatPriorities(groups)[..idx] + [priority] + FlatPriorities(groups)[idx..]
  {
    var b, p := RemoteBlocks(groups), PriorityBlocks(groups);
    SplitsAgree(groups, priority, i, idx);
    ConcatSizes(b[..i], p[..i]);
    BlocksWithRemote(groups, i, priority, remote);
    ConcatInsert(b, i, remote);
    ConcatInsert(p, i, priority);
    ConcatSplit(b, i);
    ConcatSplit(p, i);
    hide Concat, RemoteBlocks, PriorityBlocks, WithRemote;
  }

  lemma PrioritiesWithRemote(groups: seq<Group>, i: nat, priority: int, remote: Remote)
    requires i <= |groups|
    ensures var ps := Priorities(groups);
      Priorities(WithRemote(groups, i, priority, remote)) ==
        if i < |ps| && ps[i] == priority then ps else ps[..i] + [priority] + ps[i..]
  {
  }

  lemma InsertAscending(s: seq<int>, x: int, i: nat)
    requires StrictlyAscending(s) && Splits(s, x, i) && (i < |s| ==> s[i] != x)
    ensures StrictlyAscending(s[..i] + [x] + s[i..])
  {
  }

  lemma WithRemoteOk(groups: seq<Group>, i: nat, priority: int, remote: Remote)
    requires GroupsOk(groups) && Splits(Priorities(groups), priority, i)
    ensures GroupsOk(WithRemote(groups, i, priority, remote))
  {
    PrioritiesWithRemote(groups, i, priority, remote);
    if !(i < |groups| && groups[i].priority == priority) {
      InsertAscending(Priorities(groups), priority, i);
    }
    hide StrictlyAscending;
  }

  // The meaning of the groups after a sequence of Adds.

  datatype Added = Added(priority: int, remote: Remote)

  /** The remotes added with one priority, oldest first. */
  function WithPriority(calls: seq<Added>, priority: int): seq<Remote> {
    if calls == [] then []
    else
      var before := WithPriority(calls[..|calls| - 1], priority);
      if calls[|calls| - 1].priority == priority then before + [calls[|calls| - 1].remote] else before
  }

  /** One group for each priority that was used, holding what was added with it in order. */
  ghost predicate Represents(groups: seq<Group>, calls: seq<Added>) {
    && GroupsOk(groups)
    && (forall i | 0 <= i < |groups| :: groups[i].remotes == WithPriority(calls, groups[i].priority))
    && (forall p | p !in Priorities(groups) :: WithPriority(calls, p) == [])
  }

  lemma FoundAt(ps: seq<int>, x: int, i: nat)
    requires Splits(ps, x, i) && StrictlyAscending(ps)
    ensures x in ps <==> i < |ps| && ps[i] == x
    ensures forall k | 0 <= k < |ps| && ps[k] == x :: k == i
  {
  }

  lemma WithPriorityStep(calls: seq<Added>, call: Added, p: int)
    ensures WithPriority(calls + [call], p) ==
      if call.priority == p then WithPriority(calls, p) + [call.remote] else WithPriority(calls, p)
  {
    assert (calls + [call])[..|calls|] == calls;
  }

  lemma AddRepresents(groups: seq<Group>, calls: seq<Added>, i: nat, priority: int, remote: Remote)
    requires Represents(groups, calls) && Splits(Priorities(groups), priority, i)
    ensures Represents(WithRemote(groups, i, priority, remote), calls + [Added(priority, remote)])
  {
    var call, groups' := Added(priority, remote), WithRemote(groups, i, priority, remote);
    var ps := Priorities(groups);
    WithRemoteOk(groups, i, priority, remote);
    PrioritiesWithRemote(groups, i, priority, remote);
    FoundAt(ps, priority, i);
    hide GroupsOk, WithPriority, Splits;
    forall k | 0 <= k < |groups'|
      ensures groups'[k].remotes == WithPriority(calls + [call], groups'[k].priority)
    {
      WithPriorityStep(calls, call, groups'[k].priority);
    }
    forall p | p !in Priorities(groups') ensures WithPriority(calls + [call], p) == [] {
      WithPriorityStep(calls, call, p);
    }
  }

  // One Add, and what is kept by it.

  /** The leftmost place for `x` in an ascending sequence. */
  function Position(s: seq<int>, x: int): (i: nat)
    ensures i <= |s|
  {
    if s == [] then 0 else if s[|s| - 1] < x then |s| else Position(s[..|s| - 1], x)
  }

  lemma {:induction false} PositionSplits(s: seq<int>, x: int)
    requires Ascending(s)
    ensures Splits(s, x, Position(s, x))
  {
    if s != [] && x <= s[|s| - 1] {
      PositionSplits(s[..|s| - 1], x);
    }
  }

  lemma SplitsOnce(s: seq<int>, x: int, i: nat, j: nat)
    requires Splits(s, x, i) && Splits(s, x, j)
    ensures i == j
  {
    assert i < |s| ==> x <= s[i];
    assert j < |s| ==> x <= s[j];
  }

  /** Two searches: one in the flat list of priorities, one in the groups. */
  function AddTo(s: ClusterState, priority: int, remote: Remote): ClusterState
    requires |s.remotes| == |s.remotePriority|
  {
    var idx := Position(s.remotePriority, priority);
    ClusterState(
      WithRemote(s.groups, Position(Priorities(s.groups), priority), priority, remote),
      s.remotes[..idx] + [remote] + s.remotes[idx..],
      s.remotePriority[..idx] + [priority] + s.remotePriority[idx..])
  }

  lemma ValidAscending(s: ClusterState)
    requires ValidState(s)
    ensures Ascending(s.remotePriority)
  {
    FlatAscending(s.groups);
  }

  /** Adding keeps the two representations in agreement. */
  lemma AddKeepsValid(s: ClusterState, priority: int, remote: Remote)
    requires ValidState(s)
    ensures ValidState(AddTo(s, priority, remote))
  {
    ValidAscending(s);
    PositionSplits(s.remotePriority, priority);
    PositionSplits(Priorities(s.groups), priority);
    var i, idx := Position(Priorities(s.groups), priority), Position(s.remotePriority, priority);
    AddAgrees(s.groups, priority, remote, i, idx);
    WithRemoteOk(s.groups, i, priority, remote);
    hide GroupsOk, Flat, FlatPriorities, WithRemote, Splits, Position;
  }
}
