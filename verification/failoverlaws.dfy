/** Which reply answers a request, whom it calls in what order, and whose turn it advances, told without
    the terms in which ServeRPC is specified. */
module FailoverLaws {
  import opened Basics
  import opened Clusters
  import opened Failover
  import opened FailoverRuns

  /** A reply after which a request goes on: nothing sent, an error that is not the user's, or neither
      result nor error. */
  predicate GoesOn(r: Reply) {
    match r
    case Silent => true
    case Sent(Outcome(_, Some(UserError(_)))) => false
    case Sent(Outcome(result, None)) => result.None?
    case _ => true
  }

  lemma GoesOnSettlesNothing(r: Reply)
    ensures GoesOn(r) <==> SettlesNothing(r)
  {
  }

  /** The first user error is the answer, and nobody is called after it. */
  lemma UserErrorAnswers(groups: seq<Group>, replies: seq<Reply>, t: nat, id: int,
                         called: seq<Remote>, response: Option<Outcome>, groups': seq<Group>)
    requires Ready(groups) && Served(groups, replies, called, response, groups')
    requires t < Size(groups) <= |replies|
    requires replies[t].Sent? && replies[t].outcome.error == Some(UserError(id))
    requires forall u | 0 <= u < t :: GoesOn(replies[u])
    ensures |called| == t + 1 && response == Some(Outcome(None, Some(UserError(id))))
  {
    forall u | 0 <= u < t ensures SettlesNothing(replies[u]) {
      GoesOnSettlesNothing(replies[u]);
    }
    FirstDecisiveAnswers(groups, replies, t, called, response, groups');
    hide Served, Size, GoesOn, SettlesNothing;
  }

  /** The first result is the answer, and nobody is called after it. */
  lemma ResultAnswers(groups: seq<Group>, replies: seq<Reply>, t: nat, data: Data,
                      called: seq<Remote>, response: Option<Outcome>, groups': seq<Group>)
    requires Ready(groups) && Served(groups, replies, called, response, groups')
    requires t < Size(groups) <= |replies|
    requires replies[t] == Sent(Outcome(Some(data), None))
    requires forall u | 0 <= u < t :: GoesOn(replies[u])
    ensures |called| == t + 1 && response == Some(Outcome(Some(data), None))
  {
    forall u | 0 <= u < t ensures SettlesNothing(replies[u]) {
      GoesOnSettlesNothing(replies[u]);
    }
    FirstDecisiveAnswers(groups, replies, t, called, response, groups');
    hide Served, Size, GoesOn, SettlesNothing;
  }

  lemma {:induction false} LastSent(replies: seq<Reply>, t: nat)
    requires t < |replies| && replies[t].Sent?
    requires forall u | t < u < |replies| :: replies[u].Silent?
    ensures Seen(replies) == replies[t].outcome
    decreases |replies|
  {
    if t < |replies| - 1 {
      LastSent(replies[..|replies| - 1], t);
    }
  }

  lemma {:induction false} NoneSent(replies: seq<Reply>)
    requires forall u | 0 <= u < |replies| :: replies[u].Silent?
    ensures Seen(replies) == Outcome(None, None)
  {
    if replies != [] {
      NoneSent(replies[..|replies| - 1]);
    }
  }

  /** If every reply lets the request go on, all remotes are called and the last one that sent anything
      decides: the data that comes with an old head is the answer, another error is passed on, and
      without either nothing is sent. */
  lemma LastSentAnswers(groups: seq<Group>, replies: seq<Reply>, t: nat,
                        called: seq<Remote>, response: Option<Outcome>, groups': seq<Group>)
    requires Ready(groups) && Served(groups, replies, called, response, groups')
    requires t < Size(groups) <= |replies| && replies[t].Sent?
    requires forall u | 0 <= u < Size(groups) :: GoesOn(replies[u])
    requires forall u | t < u < Size(groups) :: replies[u].Silent?
    ensures |called| == Size(groups)
    ensures replies[t].outcome.error == Some(HeadOld) ==>
      response == Some(Outcome(replies[t].outcome.result, None))
    ensures forall id :: replies[t].outcome.error == Some(OtherError(id)) ==>
      response == Some(Outcome(None, Some(OtherError(id))))
    ensures replies[t].outcome == Outcome(None, None) ==> response == None
  {
    forall u | 0 <= u < Size(groups) ensures SettlesNothing(replies[u]) {
      GoesOnSettlesNothing(replies[u]);
    }
    LastOutcomeAnswers(groups, replies, called, response, groups');
    VisitsSize(groups);
    LastSent(replies[..Size(groups)], t);
    hide Served, Size, GoesOn, SettlesNothing, Visits;
  }

  /** If nobody sends anything, all remotes are called and nothing is sent. */
  lemma SilenceAnswersNothing(groups: seq<Group>, replies: seq<Reply>,
                              called: seq<Remote>, response: Option<Outcome>, groups': seq<Group>)
    requires Ready(groups) && Served(groups, replies, called, response, groups')
    requires Size(groups) <= |replies| && forall u | 0 <= u < Size(groups) :: replies[u].Silent?
    ensures |called| == Size(groups) && response == None
  {
    forall u | 0 <= u < Size(groups) ensures SettlesNothing(replies[u]) {
      GoesOnSettlesNothing(replies[u]);
    }
    LastOutcomeAnswers(groups, replies, called, response, groups');
    VisitsSize(groups);
    NoneSent(replies[..Size(groups)]);
    hide Served, Size, SettlesNothing, Visits;
  }

  // The order of the calls, and the counters.

  /** Call number `k` within group `i` goes `k` places on from where the group's next turn is: groups by
      ascending priority, each from its own turn on. */
  lemma CallOrder(groups: seq<Group>, replies: seq<Reply>, called: seq<Remote>, response: Option<Outcome>,
                  groups': seq<Group>, i: nat, k: nat)
    requires Ready(groups) && Served(groups, replies, called, response, groups')
    requires i < |groups| && k < |groups[i].remotes| && Size(groups[..i]) + k < |called|
    ensures called[Size(groups[..i]) + k]
      == groups[i].remotes[(groups[i].round + 2 + k) % |groups[i].remotes|]
  {
    VisitsPrefix(groups, i);
    VisitsSize(groups[..i]);
    VisitsRotate(groups[i]);
    var before, visits := Visits(groups[..i]), Visits(groups);
    assert (before + VisitsOf(groups[i]))[Size(groups[..i]) + k] == VisitsOf(groups[i])[k];
    hide Visits, VisitsOf, Size, Stops, Seen, Respond;
  }

  lemma {:induction false} SizeIsSum(groups: seq<Group>)
    ensures |Flat(groups)| == Size(groups)
  {
    if groups != [] {
      SizeIsSum(groups[..|groups| - 1]);
      assert RemoteBlocks(groups)[..|groups| - 1] == RemoteBlocks(groups[..|groups| - 1]);
    }
  }

  lemma {:induction false} ReachedIff(groups: seq<Group>, n: nat, i: nat)
    requires Ready(groups) && i < |groups| && n <= Size(groups)
    ensures i < Reached(groups, n) <==> Size(groups[..i]) < n
  {
    var front := groups[..|groups| - 1];
    if Size(front) < n {
      SizeGrows(groups[..|groups| - 1], i);
      assert groups[..|groups| - 1][..i] == groups[..i];
    } else {
      if i < |front| {
        assert front[..i] == groups[..i];
        ReachedIff(front, n, i);
      } else {
        assert groups[..i] == front;
      }
    }
  }

  /** A request reaches a group exactly when it calls a remote of it. */
  lemma ReachesIff(groups: seq<Group>, replies: seq<Reply>, called: seq<Remote>, response: Option<Outcome>,
                   groups': seq<Group>, i: nat)
    requires Ready(groups) && Size(groups) <= |replies| && Served(groups, replies, called, response, groups')
    requires i < |groups|
    ensures Reaches(groups, replies, i) <==> Size(groups[..i]) < |called|
  {
    ServedOnce(groups, replies, called, response, groups');
    ReachedIff(groups, |called|, i);
    hide Served, Size, Reached, CallsMade;
  }

  /** A request moves the turn of a group on by one exactly when it calls a remote of that group and there
      are others in it; nothing else about the groups changes. */
  lemma TurnsAdvance(groups: seq<Group>, replies: seq<Reply>, called: seq<Remote>, response: Option<Outcome>,
                     groups': seq<Group>, i: nat)
    requires Ready(groups) && Served(groups, replies, called, response, groups') && i < |groups|
    ensures |groups'| == |groups|
    ensures groups'[i] ==
      if Size(groups[..i]) < |called| && |groups[i].remotes| > 1
      then groups[i].(round := groups[i].round + 1) else groups[i]
  {
    VisitsSize(groups);
    ReachedIff(groups, |called|, i);
    hide Visits, Size, Seen, Respond, Reached;
  }

  lemma OtherGroupsStay(groups: seq<Group>, i: nat, priority: int, remote: Remote, g: Group)
    requires i <= |groups| && g.priority != priority
    ensures g in WithRemote(groups, i, priority, remote) <==> g in groups
  {
    assert groups == groups[..i] + groups[i..];
    if i < |groups| {
      assert groups[i..] == [groups[i]] + groups[i + 1..];
    }
  }

  lemma GroupGrows(groups: seq<Group>, i: nat, priority: int, remote: Remote)
    requires i < |groups| && groups[i].priority == priority
    ensures groups[i].(remotes := groups[i].remotes + [remote]) in WithRemote(groups, i, priority, remote)
  {
  }

  lemma GroupArrives(groups: seq<Group>, i: nat, priority: int, remote: Remote)
    requires i <= |groups| && (i < |groups| ==> groups[i].priority != priority)
    ensures Group(priority, [remote], 0) in WithRemote(groups, i, priority, remote)
  {
  }

  lemma GroupPlace(groups: seq<Group>, priority: int, g: Group)
    requires GroupsOk(groups) && g in groups && g.priority == priority
    ensures var i := Position(Priorities(groups), priority); i < |groups| && groups[i] == g
  {
    var ps := Priorities(groups);
    PositionSplits(ps, priority);
    FoundAt(ps, priority, Position(ps, priority));
    var k :| 0 <= k < |groups| && groups[k] == g;
    assert ps[k] == priority;
    hide Position, Splits;
  }

  /** A new remote goes to the end of the group of its priority, whose turn stays where it is; without one
      it gets a group of its own, whose turns start at 0. No other group changes. */
  lemma AddGoesLastInGroup(s: ClusterState, priority: int, remote: Remote, g: Group)
    requires ValidState(s)
    ensures var groups := AddTo(s, priority, remote).groups;
      && (g.priority != priority ==> (g in groups <==> g in s.groups))
      && (g in s.groups && g.priority == priority ==> g.(remotes := g.remotes + [remote]) in groups)
      && ((forall h | h in s.groups :: h.priority != priority) ==> Group(priority, [remote], 0) in groups)
  {
    var i := Position(Priorities(s.groups), priority);
    if g.priority != priority {
      OtherGroupsStay(s.groups, i, priority, remote, g);
    } else if g in s.groups {
      GroupPlace(s.groups, priority, g);
      GroupGrows(s.groups, i, priority, remote);
    }
    if forall h | h in s.groups :: h.priority != priority {
      assert i < |s.groups| ==> s.groups[i] in s.groups;
      GroupArrives(s.groups, i, priority, remote);
    }
    hide Position, Flat, FlatPriorities, GroupsOk, WithRemote;
  }

  /** A new remote goes before all others of its priority and after all of lower ones, in both lists. */
  lemma AddGoesFirst(s: ClusterState, priority: int, remote: Remote)
    requires ValidState(s)
    ensures exists idx: nat :: InsertedAt(s, AddTo(s, priority, remote), idx, priority, remote)
  {
    ValidAscending(s);
    PositionSplits(s.remotePriority, priority);
    assert InsertedAt(s, AddTo(s, priority, remote), Position(s.remotePriority, priority), priority, remote);
    hide ValidState, Position, WithRemote;
  }

  predicate InsertedAt(s: ClusterState, s': ClusterState, idx: nat, priority: int, remote: Remote)
    requires |s.remotes| == |s.remotePriority|
  {
    && idx <= |s.remotes|
    && s'.remotes == s.remotes[..idx] + [remote] + s.remotes[idx..]
    && s'.remotePriority == s.remotePriority[..idx] + [priority] + s.remotePriority[idx..]
    && (forall k | 0 <= k < idx :: s.remotePriority[k] < priority)
    && (forall k | idx <= k < |s.remotes| :: priority <= s.remotePriority[k])
  }
}
