/** Cluster.ServeRPC: tries the remotes of each priority group in turn, round robin within a group. */
module Failover {
  import opened Basics
  import opened Clusters

  type Data = int

  datatype CallError = UserError(id: int) | HeadOld | OtherError(id: int)

  /** What was last sent to the interceptor that all attempts of one request share. */
  datatype Outcome = Outcome(result: Option<Data>, error: Option<CallError>)

  /** What one remote does with a call; a remote may also return without sending anything. */
  datatype Reply = Silent | Sent(outcome: Outcome)

  const NOTHING: Outcome := Outcome(None, None)

  /** The interceptor after these replies. */
  function Seen(replies: seq<Reply>): Outcome {
    if replies == [] then NOTHING
    else if replies[|replies| - 1].Sent? then replies[|replies| - 1].outcome
    else Seen(replies[..|replies| - 1])
  }

  /** User errors and results are passed on at once. */
  predicate Decisive(o: Outcome) {
    if o.error.Some? then o.error.value.UserError? else o.result.Some?
  }

  /** What the client is sent when `o` is the last outcome; nothing if there is nothing to send. */
  function Respond(o: Outcome): Option<Outcome> {
    match o.error
    case Some(HeadOld) => Some(Outcome(o.result, None))
    case Some(error) => Some(Outcome(None, Some(error)))
    case None => if o.result.Some? then Some(o) else None
  }

  // The order in which a request visits the remotes.

  /** The place in the group of its attempt number `k` during the next request. */
  function Attempt(g: Group, k: nat): (i: nat)
    requires g.remotes != [] && g.round >= 0
    ensures i < |g.remotes|
  {
    (if |g.remotes| > 1 then g.round + 2 + k else 1 + k) % |g.remotes|
  }

  predicate Ready(groups: seq<Group>) {
    forall i | 0 <= i < |groups| :: groups[i].remotes != [] && groups[i].round >= 0
  }

  function VisitsOf(g: Group): seq<Remote>
    requires g.remotes != [] && g.round >= 0
  {
    seq(|g.remotes|, k requires 0 <= k < |g.remotes| => g.remotes[Attempt(g, k)])
  }

  function Visits(groups: seq<Group>): seq<Remote>
    requires Ready(groups)
  {
    if groups == [] then [] else Visits(groups[..|groups| - 1]) + VisitsOf(groups[|groups| - 1])
  }

  function NextRound(g: Group): Group {
    if |g.remotes| > 1 then g.(round := g.round + 1) else g
  }

  /** The groups after a request that reached the first `n` of them. */
  function Advanced(groups: seq<Group>, n: nat): seq<Group> {
    seq(|groups|, i requires 0 <= i < |groups| => if i < n then NextRound(groups[i]) else groups[i])
  }

  function Size(groups: seq<Group>): nat {
    if groups == [] then 0 else Size(groups[..|groups| - 1]) + |groups[|groups| - 1].remotes|
  }

  /** One reply for every call a request can make. */
  predicate Enough(groups: seq<Group>, replies: seq<Reply>) {
    Size(groups) <= |replies|
  }

  lemma {:induction false} VisitsSize(groups: seq<Group>)
    requires Ready(groups)
    ensures |Visits(groups)| == Size(groups)
  {
    if groups != [] {
      VisitsSize(groups[..|groups| - 1]);
    }
  }

  lemma {:induction false} VisitsPrefix(groups: seq<Group>, i: nat)
    requires Ready(groups) && i < |groups|
    ensures Visits(groups[..i]) + VisitsOf(groups[i]) <= Visits(groups)
  {
    if i == |groups| - 1 {
      assert groups[..|groups|] == groups;
    } else {
      VisitsPrefix(groups[..|groups| - 1], i);
      assert groups[..|groups| - 1][..i] == groups[..i];
    }
  }

  /** The calls of one request stop at the first decisive outcome or after all remotes: `n` calls. */
  ghost predicate Stops(replies: seq<Reply>, total: nat, n: nat) {
    && n <= total && n <= |replies|
    && (forall t | 0 < t < n :: !Decisive(Seen(replies[..t])))
    && (n == total || (n > 0 && Decisive(Seen(replies[..n]))))
  }

  /** How many groups the first `n` calls reach. */
  function Reached(groups: seq<Group>, n: nat): (i: nat)
    ensures i <= |groups|
  {
    if groups == [] then 0
    else if Size(groups[..|groups| - 1]) < n then |groups|
    else Reached(groups[..|groups| - 1], n)
  }

  lemma {:induction false} ReachedAt(groups: seq<Group>, i: nat, n: nat)
    requires i < |groups| && Size(groups[..i]) < n <= Size(groups[..i + 1])
    ensures Reached(groups, n) == i + 1
  {
    assert groups[..|groups|] == groups;
    if i < |groups| - 1 {
      var front := groups[..|groups| - 1];
      assert front[..i] == groups[..i] && front[..i + 1] == groups[..i + 1];
      ReachedAt(front, i, n);
      SizeGrows(front, i + 1);
    }
  }

  lemma {:induction false} SizeGrows(groups: seq<Group>, i: nat)
    requires i <= |groups|
    ensures Size(groups[..i]) <= Size(groups)
  {
    if i < |groups| {
      assert groups[..|groups| - 1][..i] == groups[..i];
      SizeGrows(groups[..|groups| - 1], i);
    } else {
      assert groups[..i] == groups;
    }
  }

  lemma SizeStep(groups: seq<Group>, i: nat)
    requires i < |groups|
    ensures Size(groups[..i + 1]) == Size(groups[..i]) + |groups[i].remotes|
  {
    assert groups[..i + 1][..i] == groups[..i];
  }

  /** Everything one request does: whom it calls, what it answers, which counters it advances. */
  ghost predicate Served(groups: seq<Group>, replies: seq<Reply>,
                         called: seq<Remote>, response: Option<Outcome>, groups': seq<Group>)
    requires Ready(groups)
  {
    && called <= Visits(groups)
    && Stops(replies, Size(groups), |called|)
    && response == Respond(Seen(replies[..|called|]))
    && groups' == Advanced(groups, Reached(groups, |called|))
  }

  /** The first `n` outcomes settle nothing. */
  ghost predicate Undecided(replies: seq<Reply>, n: nat) {
    n <= |replies| && forall t | 0 < t <= n :: !Decisive(Seen(replies[..t]))
  }

  /** The state after `k` undecided attempts in group `i`. */
  ghost predicate Trying(groups: seq<Group>, replies: seq<Reply>, i: nat, k: nat, called: seq<Remote>, icept: Outcome)
    requires Ready(groups)
  {
    && i < |groups| && k <= |groups[i].remotes|
    && called == Visits(groups[..i]) + VisitsOf(groups[i])[..k]
    && |called| == Size(groups[..i]) + k
    && Undecided(replies, |called|)
    && icept == Seen(replies[..|called|])
  }

  /** The state before group `i`. */
  ghost predicate Before(groups: seq<Group>, replies: seq<Reply>, i: nat, called: seq<Remote>, icept: Outcome)
    requires Ready(groups)
  {
    && i <= |groups|
    && called == Visits(groups[..i])
    && Undecided(replies, |called|)
    && icept == Seen(replies[..|called|])
    && (i == |groups| && i > 0 ==> icept.error.None?)
  }

  lemma StartTrying(groups: seq<Group>, replies: seq<Reply>, i: nat, called: seq<Remote>, icept: Outcome)
    requires Ready(groups) && i < |groups| && Before(groups, replies, i, called, icept)
    ensures Trying(groups, replies, i, 0, called, icept)
  {
    VisitsSize(groups[..i]);
    hide Undecided, Seen, Visits, Size, VisitsOf;
  }

  lemma DoneTrying(groups: seq<Group>, replies: seq<Reply>, i: nat, called: seq<Remote>, icept: Outcome)
    requires Ready(groups) && i < |groups| && Trying(groups, replies, i, |groups[i].remotes|, called, icept)
    requires i == |groups| - 1 ==> icept.error.None?
    ensures Before(groups, replies, i + 1, called, icept)
  {
    assert groups[..i + 1][..i] == groups[..i];
    hide Undecided, Seen, Size, Attempt;
  }

  lemma RoomForAttempt(groups: seq<Group>, i: nat)
    requires i < |groups|
    ensures Size(groups[..i]) + |groups[i].remotes| <= Size(groups)
  {
    SizeStep(groups, i);
    SizeGrows(groups, i + 1);
  }

  lemma AttemptMade(groups: seq<Group>, replies: seq<Reply>, i: nat, k: nat, called: seq<Remote>, icept: Outcome,
                    icept': Outcome)
    requires Ready(groups) && Trying(groups, replies, i, k, called, icept) && k < |groups[i].remotes|
    requires |called| < |replies|
    requires icept' == if replies[|called|].Sent? then replies[|called|].outcome else icept
    ensures var called' := called + [groups[i].remotes[Attempt(groups[i], k)]];
      && called' == Visits(groups[..i]) + VisitsOf(groups[i])[..k + 1]
      && icept' == Seen(replies[..|called'|])
      && (!Decisive(icept') ==> Trying(groups, replies, i, k + 1, called', icept'))
  {
    var n := |called|;
    assert replies[..n + 1][..n] == replies[..n];
    assert VisitsOf(groups[i])[..k + 1] == VisitsOf(groups[i])[..k] + [groups[i].remotes[Attempt(groups[i], k)]];
    hide Visits, Size, Attempt, VisitsOf;
  }

  /** Stopping in group `i` after attempt `k`, on a decisive outcome or with no remote left. */
  lemma StopTrying(groups: seq<Group>, replies: seq<Reply>, i: nat, k: nat, called: seq<Remote>, icept: Outcome,
                   called': seq<Remote>, icept': Outcome, response: Option<Outcome>)
    requires Ready(groups) && Trying(groups, replies, i, k, called, icept) && k < |groups[i].remotes|
    requires called' == Visits(groups[..i]) + VisitsOf(groups[i])[..k + 1] && |called'| <= |replies|
    requires icept' == Seen(replies[..|called'|]) && response == Respond(icept')
    requires Decisive(icept') || (i == |groups| - 1 && k == |groups[i].remotes| - 1)
    ensures Served(groups, replies, called', response, Advanced(groups, i + 1))
  {
    VisitsPrefix(groups, i);
    VisitsSize(groups);
    SizeStep(groups, i);
    SizeGrows(groups, i + 1);
    ReachedAt(groups, i, |called'|);
    assert called' <= Visits(groups);
    assert groups[..|groups|] == groups;
    hide Visits, Size, Seen, Attempt, VisitsOf, Decisive, Respond, Reached, Advanced;
  }

  lemma NothingLeft(groups: seq<Group>, replies: seq<Reply>, called: seq<Remote>, icept: Outcome)
    requires Ready(groups) && Before(groups, replies, |groups|, called, icept)
    ensures Served(groups, replies, called, None, Advanced(groups, |groups|))
  {
    assert groups[..|groups|] == groups;
    VisitsSize(groups);
    if groups == [] {
      assert called == [];
    } else {
      assert 0 < |called| by {
        SizeStep(groups, |groups| - 1);
      }
      assert !Decisive(Seen(replies[..|called|]));
      SizeStep(groups, |groups| - 1);
      ReachedAt(groups, |groups| - 1, |called|);
    }
    hide Visits, Size, Seen, Attempt, VisitsOf, Reached, Advanced;
  }

  lemma NothingTried(groups: seq<Group>, replies: seq<Reply>)
    requires Ready(groups)
    ensures Before(groups, replies, 0, [], NOTHING)
  {
  }

  lemma WithRemoteReady(groups: seq<Group>, i: nat, priority: int, remote: Remote)
    requires Ready(groups) && i <= |groups|
    ensures Ready(WithRemote(groups, i, priority, remote))
  {
  }

  class Cluster {
    var priorities: seq<Group>
    var remotes: seq<Remote>
    var remotePriority: seq<int>

    ghost function State(): ClusterState
      reads this
    {
      ClusterState(priorities, remotes, remotePriority)
    }

    ghost predicate Valid()
      reads this
    {
      ValidState(State()) && Ready(priorities)
    }

    constructor ()
      ensures Valid() && State() == ClusterState([], [], [])
    {
      priorities, remotes, remotePriority := [], [], [];
    }

    method Add(priority: int, remote: Remote)
      requires Valid()
      modifies this
      ensures Valid()
      ensures State() == AddTo(old(State()), priority, remote)
    {
      ValidAscending(State());
      AddKeepsValid(State(), priority, remote);
      WithRemoteReady(priorities, Position(Priorities(priorities), priority), priority, remote);
      hide GroupsOk, Flat, FlatPriorities, Ascending, Position, WithRemote, Ready;
      InsertRemote(priority, remote);
      InsertIntoGroups(priority, remote);
    }

    method InsertRemote(priority: int, remote: Remote)
      requires |remotes| == |remotePriority| && Ascending(remotePriority)
      modifies this`remotes, this`remotePriority
      ensures var idx := Position(old(remotePriority), priority);
        && remotes == old(remotes)[..idx] + [remote] + old(remotes)[idx..]
        && remotePriority == old(remotePriority)[..idx] + [priority] + old(remotePriority)[idx..]
    {
      PositionSplits(remotePriority, priority);
      var idx, _ := BinarySearch(remotePriority, priority);
      SplitsOnce(remotePriority, priority, idx, Position(remotePriority, priority));
      hide Position, Splits, Ascending;
      if idx >= |remotePriority| {
        remotes := remotes + [remote];
        remotePriority := remotePriority + [priority];
      } else {
        remotes := remotes[..idx] + [remote] + remotes[idx..];
        remotePriority := remotePriority[..idx] + [priority] + remotePriority[idx..];
      }
    }

    method InsertIntoGroups(priority: int, remote: Remote)
      requires GroupsOk(priorities)
      modifies this`priorities
      ensures var i := Position(Priorities(old(priorities)), priority);
        priorities == WithRemote(old(priorities), i, priority, remote)
    {
      ghost var ps := Priorities(priorities);
      PositionSplits(ps, priority);
      var i, found := BinarySearch(Priorities(priorities), priority);
      SplitsOnce(ps, priority, i, Position(ps, priority));
      FoundAt(ps, priority, i);
      hide Position, Splits, GroupsOk;
      if found {
        var g := priorities[i];
        priorities := priorities[..i] + [g.(remotes := g.remotes + [remote])] + priorities[i + 1..];
      } else {
        priorities := priorities[..i] + [Group(priority, [remote], 0)] + priorities[i..];
      }
    }

    /** The attempts in group `i`; `done` when the request has been answered. */
    method TryGroup(ghost groups: seq<Group>, i: nat, g: Group, start: int, replies: seq<Reply>,
                    called0: seq<Remote>, icept0: Outcome, last: bool)
      returns (called: seq<Remote>, icept: Outcome, done: bool, response: Option<Outcome>)
      requires Ready(groups) && i < |groups| && g == groups[i] && (last <==> i == |groups| - 1)
      requires start == if |g.remotes| > 1 then g.round + 1 else 0
      requires Enough(groups, replies) && Trying(groups, replies, i, 0, called0, icept0)
      ensures done ==> Served(groups, replies, called, response, Advanced(groups, i + 1))
      ensures !done ==> Trying(groups, replies, i, |g.remotes|, called, icept) && (last ==> icept.error.None?)
    {
      hide Served, Visits, Size, Seen, VisitsOf, Undecided;
      called, icept, done, response := called0, icept0, false, None;
      var n := |g.remotes|;
      var j, k := start, 0;
      RoomForAttempt(groups, i);
      while k < n
        invariant 0 <= k <= n && j == start + k && !done
        invariant Trying(groups, replies, i, k, called, icept)
        invariant last && k == n ==> icept.error.None?
      {
        ghost var called1, icept1 := called, icept;
        j := j + 1;
        var reply := replies[|called|];
        assert j % n == Attempt(g, k);
        called := called + [g.remotes[j % n]];
        if reply.Sent? {
          icept := reply.outcome;
        }
        AttemptMade(groups, replies, i, k, called1, icept1, icept);
        if icept.error.Some? {
          if icept.error.value.UserError? {
            done, response := true, Some(Outcome(None, icept.error));
            StopTrying(groups, replies, i, k, called1, icept1, called, icept, response);
            return;
          }
          if !last || k != n - 1 {
            k := k + 1;
            continue;
          }
          if icept.error.value.HeadOld? {
            done, response := true, Some(Outcome(icept.result, None));
          } else {
            done, response := true, Some(Outcome(None, icept.error));
          }
          StopTrying(groups, replies, i, k, called1, icept1, called, icept, response);
          return;
        }
        if icept.result.Some? {
          done, response := true, Some(Outcome(icept.result, None));
          StopTrying(groups, replies, i, k, called1, icept1, called, icept, response);
          return;
        }
        k := k + 1;
      }
    }

    method ServeRPC(replies: seq<Reply>) returns (called: seq<Remote>, response: Option<Outcome>)
      requires Valid() && Enough(priorities, replies)
      modifies this`priorities
      ensures Served(old(priorities), replies, called, response, priorities)
    {
      ghost var groups := priorities;
      var icept := NOTHING;
      called := [];
      var i := 0;
      NothingTried(groups, replies);
      hide Served, Size, Seen, VisitsOf, Undecided, Before;
      while i < |priorities|
        invariant 0 <= i <= |priorities| == |groups|
        invariant priorities == Advanced(groups, i)
        invariant Before(groups, replies, i, called, icept)
      {
        var g := priorities[i];
        var j := 0;
        if |g.remotes| > 1 {
          priorities := priorities[i := g.(round := g.round + 1)];
          j := g.round + 1;
        }
        assert priorities == Advanced(groups, i + 1);
        StartTrying(groups, replies, i, called, icept);
        var done;
        called, icept, done, response := TryGroup(groups, i, g, j, replies, called, icept, i == |priorities| - 1);
        if done {
          return;
        }
        DoneTrying(groups, replies, i, called, icept);
        i := i + 1;
      }
      NothingLeft(groups, replies, called, icept);
      return called, None;
    }
  }
}
