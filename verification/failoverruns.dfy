/** What runs of Adds and requests keep, whose outcome a request answers with, and fairness. */
module FailoverRuns {
  import opened Basics
  import opened Clusters
  import opened Failover

  // Which outcome answers a request.

  predicate SettlesNothing(r: Reply) {
    r.Sent? ==> !Decisive(r.outcome)
  }

  lemma {:induction false} SeenSettlesNothing(replies: seq<Reply>)
    requires forall t | 0 <= t < |replies| :: SettlesNothing(replies[t])
    ensures !Decisive(Seen(replies))
  {
    if replies != [] && replies[|replies| - 1].Silent? {
      SeenSettlesNothing(replies[..|replies| - 1]);
    }
  }

  /** The first user error or result answers the request, and no later remote is called. */
  lemma FirstDecisiveAnswers(groups: seq<Group>, replies: seq<Reply>, t: nat,
                             called: seq<Remote>, response: Option<Outcome>, groups': seq<Group>)
    requires Ready(groups) && Served(groups, replies, called, response, groups')
    requires t < Size(groups) <= |replies|
    requires replies[t].Sent? && Decisive(replies[t].outcome)
    requires forall u | 0 <= u < t :: SettlesNothing(replies[u])
    ensures |called| == t + 1
    ensures var o := replies[t].outcome;
      response == Some(if o.error.Some? then Outcome(None, o.error) else Outcome(o.result, None))
  {
    var n := |called|;
    assert Seen(replies[..t + 1]) == replies[t].outcome;
    if 0 < n <= t {
      SeenSettlesNothing(replies[..n]);
    }
    VisitsSize(groups);
  }

  /** Without one every remote is called and the last outcome sent decides: stale data is still
      data, any other error is passed on, and nothing at all stays unanswered. */
  lemma LastOutcomeAnswers(groups: seq<Group>, replies: seq<Reply>,
                           called: seq<Remote>, response: Option<Outcome>, groups': seq<Group>)
    requires Ready(groups) && Served(groups, replies, called, response, groups')
    requires Size(groups) <= |replies|
    requires forall u | 0 <= u < Size(groups) :: SettlesNothing(replies[u])
    ensures called == Visits(groups)
    ensures var o := Seen(replies[..Size(groups)]);
      && (response.None? <==> o == NOTHING)
      && (o.error == Some(HeadOld) ==> response == Some(Outcome(o.result, None)))
      && (o.error.Some? && o.error.value.OtherError? ==> response == Some(Outcome(None, o.error)))
  {
    var n := |called|;
    VisitsSize(groups);
    SeenSettlesNothing(replies[..n]);
    assert n == Size(groups);
  }

  // Rotation.

  function Rotated(s: seq<Remote>, a: nat): seq<Remote>
    requires s != []
  {
    seq(|s|, k requires 0 <= k < |s| => s[(a + k) % |s|])
  }

  lemma ModIs(x: nat, n: nat, q: nat, r: nat)
    requires r < n && x == q * n + r
    ensures x % n == r
  {
    var d := x / n - q;
    assert d * n == r - x % n;
    assert -1 < d < 1;
  }

  lemma RotationStep(a: nat, n: nat, k: nat)
    requires k < n
    ensures (a + k) % n == if a % n + k < n then a % n + k else a % n + k - n
  {
    var q, r := a / n, a % n;
    if r + k < n {
      ModIs(a + k, n, q, r + k);
    } else {
      assert (q + 1) * n == q * n + n;
      ModIs(a + k, n, q + 1, r + k - n);
    }
  }

  /** A rotation is a permutation. */
  lemma RotatedPermutes(s: seq<Remote>, a: nat)
    requires s != []
    ensures multiset(Rotated(s, a)) == multiset(s)
  {
    var r := a % |s|;
    forall k | 0 <= k < |s| ensures Rotated(s, a)[k] == (s[r..] + s[..r])[k] {
      RotationStep(a, |s|, k);
    }
    assert Rotated(s, a) == s[r..] + s[..r];
    assert s == s[..r] + s[r..];
  }

  lemma VisitsRotate(g: Group)
    requires g.remotes != [] && g.round >= 0
    ensures VisitsOf(g) == Rotated(g.remotes, g.round + 2)
  {
  }

  /** One request tries each remote of a group once. */
  lemma GroupVisitedOnce(g: Group)
    requires g.remotes != [] && g.round >= 0
    ensures multiset(VisitsOf(g)) == multiset(g.remotes)
  {
    VisitsRotate(g);
    RotatedPermutes(g.remotes, g.round + 2);
  }

  lemma {:induction false} ReversedPermutes(s: seq<Remote>)
    ensures multiset(Reversed(s)) == multiset(s)
  {
    if s != [] {
      ReversedPermutes(s[..|s| - 1]);
      assert s == s[..|s| - 1] + [s[|s| - 1]];
    }
  }

  /** A request that is not answered earlier calls exactly the remotes of the flat list. */
  lemma {:induction false} AllVisitedOnce(groups: seq<Group>)
    requires Ready(groups)
    ensures multiset(Visits(groups)) == multiset(Flat(groups))
  {
    if groups != [] {
      var front, last := groups[..|groups| - 1], groups[|groups| - 1];
      AllVisitedOnce(front);
      GroupVisitedOnce(last);
      ReversedPermutes(last.remotes);
      assert RemoteBlocks(groups)[..|groups| - 1] == RemoteBlocks(front);
    }
  }

  // Runs.

  datatype Event = Add(priority: int, remote: Remote) | Call(replies: seq<Reply>)

  /** The number of calls one request makes after `t` calls that settled nothing. */
  function CallsMade(replies: seq<Reply>, total: nat, t: nat): (n: nat)
    requires t <= total <= |replies|
    ensures t <= n <= total
    decreases total - t
  {
    if t == total || (t > 0 && Decisive(Seen(replies[..t]))) then t else CallsMade(replies, total, t + 1)
  }

  lemma {:induction false} CallsMadeStops(replies: seq<Reply>, total: nat, t: nat)
    requires t <= total <= |replies|
    requires forall u | 0 < u < t :: !Decisive(Seen(replies[..u]))
    ensures Stops(replies, total, CallsMade(replies, total, t))
    decreases total - t
  {
    if t < total && (t == 0 || !Decisive(Seen(replies[..t]))) {
      CallsMadeStops(replies, total, t + 1);
    }
  }

  /** What a request does is determined by the groups and the replies. */
  lemma ServedOnce(groups: seq<Group>, replies: seq<Reply>,
                   called: seq<Remote>, response: Option<Outcome>, groups': seq<Group>)
    requires Ready(groups) && Size(groups) <= |replies| && Served(groups, replies, called, response, groups')
    ensures |called| == CallsMade(replies, Size(groups), 0)
    ensures groups' == AfterCall(groups, replies)
  {
    CallsMadeStops(replies, Size(groups), 0);
  }

  function AfterCall(groups: seq<Group>, replies: seq<Reply>): seq<Group> {
    if Size(groups) > |replies| then groups
    else Advanced(groups, Reached(groups, CallsMade(replies, Size(groups), 0)))
  }

  function Exec(events: seq<Event>): (s: ClusterState)
    ensures |s.remotes| == |s.remotePriority|
  {
    if events == [] then ClusterState([], [], [])
    else
      var before := Exec(events[..|events| - 1]);
      match events[|events| - 1]
      case Add(priority, remote) => AddTo(before, priority, remote)
      case Call(replies) => before.(groups := AfterCall(before.groups, replies))
  }

  function Adds(events: seq<Event>): seq<Added> {
    if events == [] then []
    else
      var before := Adds(events[..|events| - 1]);
      match events[|events| - 1]
      case Add(priority, remote) => before + [Added(priority, remote)]
      case Call(_) => before
  }

  lemma CallKeeps(groups: seq<Group>, calls: seq<Added>, n: nat)
    requires Represents(groups, calls) && Ready(groups)
    ensures Represents(Advanced(groups, n), calls) && Ready(Advanced(groups, n))
    ensures Flat(Advanced(groups, n)) == Flat(groups)
    ensures FlatPriorities(Advanced(groups, n)) == FlatPriorities(groups)
  {
    assert Priorities(Advanced(groups, n)) == Priorities(groups);
    assert RemoteBlocks(Advanced(groups, n)) == RemoteBlocks(groups);
    assert PriorityBlocks(Advanced(groups, n)) == PriorityBlocks(groups);
  }

  /** After any run of Adds and requests the flat list is the groups' list, and the groups hold
      exactly what was added, by ascending priority and in order of addition. */
  lemma {:induction false} EveryRunRepresents(events: seq<Event>)
    ensures ValidState(Exec(events)) && Ready(Exec(events).groups)
    ensures Represents(Exec(events).groups, Adds(events))
  {
    if events != [] {
      var front := events[..|events| - 1];
      var s := Exec(front);
      EveryRunRepresents(front);
      match events[|events| - 1]
      case Add(priority, remote) =>
        var i := Position(Priorities(s.groups), priority);
        PositionSplits(Priorities(s.groups), priority);
        AddKeepsValid(s, priority, remote);
        AddRepresents(s.groups, Adds(front), i, priority, remote);
        WithRemoteReady(s.groups, i, priority, remote);
      case Call(replies) =>
        if Size(s.groups) <= |replies| {
          CallKeeps(s.groups, Adds(front), Reached(s.groups, CallsMade(replies, Size(s.groups), 0)));
        }
    } else {
      assert RemoteBlocks([]) == [] && PriorityBlocks([]) == [];
    }
  }

  // Fairness.

  function ServeAll(groups: seq<Group>, requests: seq<seq<Reply>>): seq<Group> {
    if requests == [] then groups
    else AfterCall(ServeAll(groups, requests[..|requests| - 1]), requests[|requests| - 1])
  }

  predicate Reaches(groups: seq<Group>, replies: seq<Reply>, i: nat) {
    Size(groups) <= |replies| && i < Reached(groups, CallsMade(replies, Size(groups), 0))
  }

  /** The remotes of group `i` that the requests reaching it tried first. */
  function FirstChoices(groups: seq<Group>, requests: seq<seq<Reply>>, i: nat): (choices: seq<Remote>)
    requires Ready(groups) && i < |groups|
  {
    if requests == [] then []
    else
      var now := ServeAll(groups, requests[..|requests| - 1]);
      ServeAllKeeps(groups, requests[..|requests| - 1]);
      var before := FirstChoices(groups, requests[..|requests| - 1], i);
      if Reaches(now, requests[|requests| - 1], i) then before + [VisitsOf(now[i])[0]] else before
  }

  lemma {:induction false} ServeAllKeeps(groups: seq<Group>, requests: seq<seq<Reply>>)
    requires Ready(groups)
    ensures |ServeAll(groups, requests)| == |groups| && Ready(ServeAll(groups, requests))
    ensures forall i | 0 <= i < |groups| :: ServeAll(groups, requests)[i].remotes == groups[i].remotes
  {
    if requests != [] {
      ServeAllKeeps(groups, requests[..|requests| - 1]);
    }
  }

  /** Each request that reaches a group of several remotes starts one place further. */
  lemma {:induction false} ChoicesAdvance(groups: seq<Group>, requests: seq<seq<Reply>>, i: nat)
    requires Ready(groups) && i < |groups|
    ensures var g, n, choices := groups[i], |groups[i].remotes|, FirstChoices(groups, requests, i);
      && |ServeAll(groups, requests)| == |groups|
      && ServeAll(groups, requests)[i] == g.(round := if n > 1 then g.round + |choices| else g.round)
      && forall t | 0 <= t < |choices| :: choices[t] == g.remotes[(g.round + 2 + t) % n]
  {
    ServeAllKeeps(groups, requests);
    if requests != [] {
      var front := requests[..|requests| - 1];
      ServeAllKeeps(groups, front);
      ChoicesAdvance(groups, front, i);
      VisitsRotate(ServeAll(groups, front)[i]);
    }
  }

  /** Over as many requests as a group has remotes, each remote is first choice exactly once. */
  lemma RoundRobinFair(groups: seq<Group>, requests: seq<seq<Reply>>, i: nat)
    requires Ready(groups) && i < |groups|
    requires |FirstChoices(groups, requests, i)| == |groups[i].remotes|
    ensures multiset(FirstChoices(groups, requests, i)) == multiset(groups[i].remotes)
  {
    ChoicesAdvance(groups, requests, i);
    assert FirstChoices(groups, requests, i) == Rotated(groups[i].remotes, groups[i].round + 2);
    RotatedPermutes(groups[i].remotes, groups[i].round + 2);
  }

  lemma {:induction false} ReachedBeyond(groups: seq<Group>, n: nat, i: nat)
    requires i < Reached(groups, n)
    ensures Size(groups[..i]) < n
  {
    if Size(groups[..|groups| - 1]) < n {
      SizeGrows(groups[..|groups| - 1], i);
      assert groups[..|groups| - 1][..i] == groups[..i];
    } else {
      ReachedBeyond(groups[..|groups| - 1], n, i);
      assert groups[..|groups| - 1][..i] == groups[..i];
    }
  }

  /** The first choice of a group is the first of its remotes that the request really calls. */
  lemma {:induction false} FirstChoiceCalled(groups: seq<Group>, replies: seq<Reply>, i: nat,
                          called: seq<Remote>, response: Option<Outcome>, groups': seq<Group>)
    requires Ready(groups) && Size(groups) <= |replies| && Served(groups, replies, called, response, groups')
    requires i < |groups| && Reaches(groups, replies, i)
    ensures Size(groups[..i]) < |called| && called[Size(groups[..i])] == VisitsOf(groups[i])[0]
  {
    ServedOnce(groups, replies, called, response, groups');
    ReachedBeyond(groups, |called|, i);
    VisitsPrefix(groups, i);
    VisitsSize(groups[..i]);
    assert (Visits(groups[..i]) + VisitsOf(groups[i]))[Size(groups[..i])] == VisitsOf(groups[i])[0];
  }
}
