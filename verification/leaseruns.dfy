/** The life of every lease, under any interleaving of callers, background updates and the election loop. */
module LeaseRuns {
  import opened Basics
  import opened Leases

  // One update.

  lemma {:induction false} KeptByLeader(ctxs: seq<SpawnedCtx>)
    ensures |Kept(ctxs, true)| == |ctxs|
    ensures forall i | 0 <= i < |ctxs| :: Kept(ctxs, true)[i] == if ctxs[i].ctx then Granted(ctxs[i]) else ctxs[i]
  {
    if ctxs != [] {
      KeptByLeader(ctxs[..|ctxs| - 1]);
    }
  }

  /** A follower keeps the waiting entries, in order. */
  lemma {:induction false} KeptByFollower(ctxs: seq<SpawnedCtx>)
    requires InOrder(ctxs)
    ensures InOrder(Kept(ctxs, false))
    ensures forall v :: v in Kept(ctxs, false) <==> v in ctxs && !v.cancel
  {
    if ctxs != [] {
      KeptByFollower(ctxs[..|ctxs| - 1]);
      assert ctxs == ctxs[..|ctxs| - 1] + [ctxs[|ctxs| - 1]];
    }
  }

  predicate IdsInRange(ctxs: seq<SpawnedCtx>, traces: seq<Trace>) {
    forall i | 0 <= i < |ctxs| :: 0 <= ctxs[i].id < |traces|
  }

  lemma {:induction false} DoneElsewhere(ctxs: seq<SpawnedCtx>, traces: seq<Trace>, leader: bool, id: int)
    requires IdsInRange(ctxs, traces) && 0 <= id < |traces| && !Listed(ctxs, id)
    ensures DoneAll(ctxs, traces, leader)[id] == traces[id]
  {
    if ctxs != [] {
      var front := ctxs[..|ctxs| - 1];
      assert !Listed(front, id) && ctxs[|ctxs| - 1].id != id by {
        assert ctxs[|ctxs| - 1].id == id ==> Listed(ctxs, id);
        assert forall i | 0 <= i < |front| :: front[i] == ctxs[i];
      }
      DoneElsewhere(front, traces, leader, id);
    }
  }

  lemma {:induction false} DoneOnce(ctxs: seq<SpawnedCtx>, traces: seq<Trace>, leader: bool, i: int)
    requires InOrder(ctxs) && IdsInRange(ctxs, traces) && 0 <= i < |ctxs|
    ensures DoneAll(ctxs, traces, leader)[ctxs[i].id] == Done(ctxs[i], traces[ctxs[i].id], leader)
  {
    var front, last := ctxs[..|ctxs| - 1], ctxs[|ctxs| - 1];
    if i < |front| {
      DoneOnce(front, traces, leader, i);
    } else {
      assert !Listed(front, last.id);
      DoneElsewhere(front, traces, leader, last.id);
    }
  }

  lemma ListedIn(ctxs: seq<SpawnedCtx>, id: int)
    ensures Listed(ctxs, id) <==> exists v :: v in ctxs && v.id == id
  {
    if Listed(ctxs, id) {
      var i :| 0 <= i < |ctxs| && ctxs[i].id == id;
      assert ctxs[i] in ctxs;
    }
  }

  /** The entry of a listed lease, if it is kept, and its trace after an update. */
  lemma AfterUpdate(s: LeaseState, leader: bool, i: int)
    requires Consistent(s) && 0 <= i < |s.ctxs|
    ensures var v, s' := s.ctxs[i], Applied(s, leader);
      && s'.traces[v.id] == Done(v, s.traces[v.id], leader)
      && (leader ==> |s'.ctxs| == |s.ctxs| && s'.ctxs[i] == if v.ctx then Granted(v) else v)
      && (!leader ==> (Listed(s'.ctxs, v.id) <==> v.ctx))
      && (!leader && v.ctx ==> v in s'.ctxs)
  {
    var v := s.ctxs[i];
    assert EntryOk(v, s.traces);
    assert IdsInRange(s.ctxs, s.traces) by {
      assert forall k | 0 <= k < |s.ctxs| :: EntryOk(s.ctxs[k], s.traces);
    }
    DoneOnce(s.ctxs, s.traces, leader, i);
    KeptByLeader(s.ctxs);
    KeptByFollower(s.ctxs);
    var kept := Kept(s.ctxs, false);
    ListedIn(kept, v.id);
    assert v in s.ctxs;
    forall w | w in kept && w.id == v.id ensures w == v {
      var k :| 0 <= k < |s.ctxs| && s.ctxs[k] == w;
    }
    hide Kept, DoneAll;
  }

  /** The life of a lease: granted by the next update of a leader, revoked by the next of a follower. */
  function NextTrace(t: Trace, leader: bool): Trace {
    if leader && t == WAITING then LIVE
    else if !leader && t == LIVE then REVOKED
    else t
  }

  lemma AppliedTraces(s: LeaseState, leader: bool, id: int)
    requires Consistent(s) && 0 <= id < |s.traces|
    ensures Applied(s, leader).traces[id] == NextTrace(s.traces[id], leader)
  {
    if Listed(s.ctxs, id) {
      var i :| 0 <= i < |s.ctxs| && s.ctxs[i].id == id;
      assert EntryOk(s.ctxs[i], s.traces);
      AfterUpdate(s, leader, i);
    } else {
      assert forall k | 0 <= k < |s.ctxs| :: EntryOk(s.ctxs[k], s.traces);
      DoneElsewhere(s.ctxs, s.traces, leader, id);
    }
  }

  lemma SameListed(a: seq<SpawnedCtx>, b: seq<SpawnedCtx>, id: int)
    requires |a| == |b| && forall i | 0 <= i < |a| :: a[i].id == b[i].id
    ensures Listed(a, id) <==> Listed(b, id)
  {
    if Listed(a, id) {
      var i :| 0 <= i < |a| && a[i].id == id;
      assert b[i].id == id;
    }
    if Listed(b, id) {
      var i :| 0 <= i < |b| && b[i].id == id;
      assert a[i].id == id;
    }
  }

  lemma LeaderConsistent(s: LeaseState)
    requires Consistent(s)
    ensures Consistent(Applied(s, true))
  {
    var s' := Applied(s, true);
    KeptByLeader(s.ctxs);
    forall i | 0 <= i < |s'.ctxs| ensures EntryOk(s'.ctxs[i], s'.traces) && s'.ctxs[i].id == s.ctxs[i].id {
      assert EntryOk(s.ctxs[i], s.traces);
      AfterUpdate(s, true, i);
    }
    forall id | 0 <= id < |s'.traces| && !Listed(s'.ctxs, id) ensures s'.traces[id] == REVOKED {
      SameListed(s.ctxs, s'.ctxs, id);
      AppliedTraces(s, true, id);
    }
    hide Applied, NextTrace;
  }

  lemma FollowerConsistent(s: LeaseState)
    requires Consistent(s)
    ensures Consistent(Applied(s, false))
  {
    var s' := Applied(s, false);
    KeptByFollower(s.ctxs);
    forall i | 0 <= i < |s'.ctxs| ensures EntryOk(s'.ctxs[i], s'.traces) {
      var v := s'.ctxs[i];
      assert v in s.ctxs;
      var k :| 0 <= k < |s.ctxs| && s.ctxs[k] == v;
      assert EntryOk(s.ctxs[k], s.traces);
      AppliedTraces(s, false, v.id);
    }
    forall id | 0 <= id < |s'.traces| && !Listed(s'.ctxs, id) ensures s'.traces[id] == REVOKED {
      AppliedTraces(s, false, id);
      if Listed(s.ctxs, id) {
        var i :| 0 <= i < |s.ctxs| && s.ctxs[i].id == id;
        assert EntryOk(s.ctxs[i], s.traces);
        AfterUpdate(s, false, i);
      }
    }
    hide Kept, DoneAll;
  }

  lemma AcquiredConsistent(s: LeaseState)
    requires Consistent(s)
    ensures Consistent(Acquired(s))
  {
    var s' := Acquired(s);
    assert forall i | 0 <= i < |s.ctxs| :: EntryOk(s.ctxs[i], s.traces) && s'.ctxs[i] == s.ctxs[i];
    assert s'.ctxs[|s.ctxs|].id == |s.traces|;
    forall id | 0 <= id < |s'.traces| && !Listed(s'.ctxs, id) ensures s'.traces[id] == REVOKED {
      assert id != |s.traces|;
      assert !Listed(s.ctxs, id) by {
        assert forall i | 0 <= i < |s.ctxs| :: s'.ctxs[i] == s.ctxs[i];
      }
    }
  }

  // Runs.

  /** Who holds the lock for an update, and the leader flag it loaded. */
  datatype Update = Update(byLoop: bool, leader: bool)

  datatype Loop = Idle | Stored | Updating

  datatype System = System(lease: LeaseState, isLeader: bool, lock: Option<Update>, loop: Loop, background: int)

  datatype Event =
    | AcquireLease
    | StoreLeader(leader: bool)
    | Begin(byLoop: bool)
    | Finish

  function Step(s: System, e: Event): System
    requires Consistent(s.lease)
  {
    match e
    case AcquireLease =>
      if s.lock.Some? then s else s.(lease := Acquired(s.lease), background := s.background + 1)
    case StoreLeader(leader) =>
      if s.loop != Idle then s else s.(isLeader := leader, loop := Stored)
    case Begin(true) =>
      if s.lock.Some? || s.loop != Stored then s
      else s.(lock := Some(Update(true, s.isLeader)), loop := Updating)
    case Begin(false) =>
      if s.lock.Some? || s.background <= 0 then s
      else s.(lock := Some(Update(false, s.isLeader)), background := s.background - 1)
    case Finish =>
      if s.lock.None? then s
      else s.(lease := Applied(s.lease, s.lock.value.leader), lock := None,
              loop := if s.lock.value.byLoop then Idle else s.loop)
  }

  predicate InStage(s: System, id: int, stage: Trace) {
    0 <= id < |s.lease.traces| && s.lease.traces[id] == stage
  }

  /** Between the store of the leader flag and the end of the update that follows it, an update may
      still be under way with the old flag; otherwise only a leader's node has live leases. */
  ghost predicate Invariant(s: System) {
    && Consistent(s.lease)
    && (s.loop == Updating <==> s.lock.Some? && s.lock.value.byLoop)
    && (s.loop != Stored && s.lock.Some? ==> s.lock.value.leader == s.isLeader)
    && (s.loop == Idle ==> forall id | InStage(s, id, LIVE) :: s.isLeader)
  }

  lemma FinishKeeps(s: System)
    requires Invariant(s)
    ensures Invariant(Step(s, Finish))
  {
    if s.lock.Some? {
      var leader, s' := s.lock.value.leader, Step(s, Finish);
      if leader {
        LeaderConsistent(s.lease);
      } else {
        FollowerConsistent(s.lease);
      }
      forall id | InStage(s', id, LIVE) ensures leader {
        AppliedTraces(s.lease, leader, id);
        TraceTells(s.lease, id);
      }
    }
    hide Applied, Consistent;
  }

  lemma StepKeeps(s: System, e: Event)
    requires Invariant(s)
    ensures Invariant(Step(s, e))
  {
    match e
    case AcquireLease =>
      AcquiredConsistent(s.lease);
      var s' := Step(s, e);
      assert forall id | InStage(s', id, LIVE) :: InStage(s, id, LIVE);
    case Finish => FinishKeeps(s);
    case StoreLeader(_) =>
    case Begin(_) =>
      var s' := Step(s, e);
      assert forall id | InStage(s', id, LIVE) :: InStage(s, id, LIVE);
    hide Consistent;
  }

  const START: System := System(LeaseState([], []), false, None, Idle, 0)

  function Exec(events: seq<Event>): (s: System)
    ensures Invariant(s)
  {
    if events == [] then START
    else
      StepKeeps(Exec(events[..|events| - 1]), events[|events| - 1]);
      Step(Exec(events[..|events| - 1]), events[|events| - 1])
  }

  /** What a lease's trace says about its entry. */
  lemma {:induction false} TraceTells(s: LeaseState, id: int)
    requires Consistent(s) && 0 <= id < |s.traces|
    ensures Listed(s.ctxs, id) <==> s.traces[id] != REVOKED
    ensures s.traces[id] == WAITING || s.traces[id] == LIVE || s.traces[id] == REVOKED
  {
    if Listed(s.ctxs, id) {
      var i :| 0 <= i < |s.ctxs| && s.ctxs[i].id == id;
      assert EntryOk(s.ctxs[i], s.traces);
    }
  }

  /** In every run each lease is exactly one of waiting, live and revoked, so that it is sent and
      closed at most once and cancelled at most once and only then; and outside the window a live
      lease means that this node leads. */
  lemma {:induction false} EveryLeaseInOneState(events: seq<Event>, id: int)
    requires 0 <= id < |Exec(events).lease.traces|
    ensures var s := Exec(events);
      && (InStage(s, id, WAITING) || InStage(s, id, LIVE) || InStage(s, id, REVOKED))
      && (Listed(s.lease.ctxs, id) <==> !InStage(s, id, REVOKED))
      && InOrder(s.lease.ctxs)
      && (s.loop == Idle && InStage(s, id, LIVE) ==> s.isLeader)
  {
    TraceTells(Exec(events).lease, id);
  }

  /** One step never takes a lease back a stage, and moves it only as the finished update found the node. */
  lemma StepMovesForward(s: System, e: Event, id: int)
    requires Invariant(s) && 0 <= id < |s.lease.traces|
    ensures var s' := Step(s, e);
      && id < |s'.lease.traces|
      && s'.lease.traces[id] ==
           if e == Finish && s.lock.Some? then NextTrace(s.lease.traces[id], s.lock.value.leader)
           else s.lease.traces[id]
  {
    if e == Finish && s.lock.Some? {
      AppliedTraces(s.lease, s.lock.value.leader, id);
    }
  }

  /** Once the loop's own update has finished nobody waits on a leader and nobody is live on a follower. */
  lemma LoopUpdateSettles(s: System, id: int)
    requires Invariant(s) && s.loop == Updating
    ensures var s' := Step(s, Finish);
      s'.loop == Idle && (if s'.isLeader then !InStage(s', id, WAITING) else !InStage(s', id, LIVE))
  {
    var s' := Step(s, Finish);
    if 0 <= id < |s.lease.traces| {
      AppliedTraces(s.lease, s.isLeader, id);
      TraceTells(s.lease, id);
    }
  }

  lemma ExecStep(events: seq<Event>, e: Event)
    ensures Exec(events + [e]) == Step(Exec(events), e)
  {
    assert (events + [e])[..|events|] == events;
  }

  /** Within the window a lease can be granted by an update that loaded the flag before it was cleared:
      after these steps such an update is under way for a waiting lease, and its end grants it. */
  lemma GrantedInsideWindow()
    ensures
      var s := Exec([StoreLeader(true), Begin(true), Finish, AcquireLease, Begin(false), StoreLeader(false)]);
      var s' := Step(s, Finish);
      !s'.isLeader && s'.loop == Stored && InStage(s, 0, WAITING) && InStage(s', 0, LIVE)
  {
    var e0, e1, e2, e3 := StoreLeader(true), Begin(true), Finish, AcquireLease;
    var e4, e5 := Begin(false), StoreLeader(false);
    var none := LeaseState([], []);
    ExecStep([], e0);
    assert [] + [e0] == [e0];
    assert Exec([e0]) == System(none, true, None, Stored, 0);
    ExecStep([e0], e1);
    assert [e0] + [e1] == [e0, e1];
    assert Exec([e0, e1]) == System(none, true, Some(Update(true, true)), Updating, 0);
    ExecStep([e0, e1], e2);
    assert [e0, e1] + [e2] == [e0, e1, e2];
    assert Applied(none, true) == none;
    assert Exec([e0, e1, e2]) == System(none, true, None, Idle, 0);
    WindowOpens([e0, e1, e2]);
    assert [e0, e1, e2] + [e3] + [e4] + [e5] == [e0, e1, e2, e3, e4, e5];
    LateGrant(Exec([e0, e1, e2, e3, e4, e5]));
    hide Exec, Step, InStage, Consistent, Applied;
  }

  lemma WindowOpens(events: seq<Event>)
    requires Exec(events) == System(LeaseState([], []), true, None, Idle, 0)
    ensures Exec(events + [AcquireLease] + [Begin(false)] + [StoreLeader(false)])
      == System(Acquired(LeaseState([], [])), false, Some(Update(false, true)), Stored, 0)
  {
    ExecStep(events, AcquireLease);
    ExecStep(events + [AcquireLease], Begin(false));
    ExecStep(events + [AcquireLease] + [Begin(false)], StoreLeader(false));
    hide Exec, Applied, Consistent, Acquired;
  }

  lemma LateGrant(s: System)
    requires s == System(Acquired(LeaseState([], [])), false, Some(Update(false, true)), Stored, 0)
    ensures Consistent(s.lease) && InStage(s, 0, WAITING) && InStage(Step(s, Finish), 0, LIVE)
    ensures !Step(s, Finish).isLeader && Step(s, Finish).loop == Stored
  {
    AcquiredConsistent(LeaseState([], []));
    AppliedTraces(s.lease, true, 0);
    hide Applied, Consistent;
  }
}
