/** RedilockStrategy: leases handed out while this node leads, and taken back when it does not. */
module Leases {
  /** One caller's entry: `ctx` is set until the lease is granted, `cancel` from then on. */
  datatype SpawnedCtx = SpawnedCtx(id: int, ctx: bool, cancel: bool)

  /** What has been done to one caller: sends on its channel, closes of it, cancellations. */
  datatype Trace = Trace(sent: int, closed: int, cancelled: int)

  /** `traces` has one element for each lease ever asked for, in that order. */
  datatype LeaseState = LeaseState(ctxs: seq<SpawnedCtx>, traces: seq<Trace>)

  /** The stages of a lease. */
  const WAITING: Trace := Trace(0, 0, 0)
  const LIVE: Trace := Trace(1, 1, 0)
  const REVOKED: Trace := Trace(1, 1, 1)

  predicate EntryOk(v: SpawnedCtx, traces: seq<Trace>) {
    0 <= v.id < |traces| && v.cancel == !v.ctx && traces[v.id] == if v.ctx then WAITING else LIVE
  }

  predicate Listed(ctxs: seq<SpawnedCtx>, id: int) {
    exists i :: 0 <= i < |ctxs| && ctxs[i].id == id
  }

  predicate InOrder(ctxs: seq<SpawnedCtx>) {
    forall i, j | 0 <= i < j < |ctxs| :: ctxs[i].id < ctxs[j].id
  }

  /** Each lease is waiting or live, once and in order of arrival, or has been revoked. */
  predicate Consistent(s: LeaseState) {
    && InOrder(s.ctxs)
    && (forall i | 0 <= i < |s.ctxs| :: EntryOk(s.ctxs[i], s.traces))
    && (forall id | 0 <= id < |s.traces| && !Listed(s.ctxs, id) :: s.traces[id] == REVOKED)
  }

  function Acquired(s: LeaseState): LeaseState {
    LeaseState(s.ctxs + [SpawnedCtx(|s.traces|, true, false)], s.traces + [WAITING])
  }

  function Granted(v: SpawnedCtx): SpawnedCtx {
    v.(ctx := false, cancel := true)
  }

  /** The entries kept by an update that found this node leading or not. */
  function Kept(ctxs: seq<SpawnedCtx>, leader: bool): seq<SpawnedCtx> {
    if ctxs == [] then []
    else
      var before, v := Kept(ctxs[..|ctxs| - 1], leader), ctxs[|ctxs| - 1];
      if leader then before + [if v.ctx then Granted(v) else v]
      else if v.cancel then before
      else before + [v]
  }

  /** What happens to the caller of an entry. */
  function Done(v: SpawnedCtx, t: Trace, leader: bool): Trace {
    if leader then if v.ctx then t.(sent := t.sent + 1, closed := t.closed + 1) else t
    else if v.cancel then t.(cancelled := t.cancelled + 1)
    else t
  }

  function DoneAll(ctxs: seq<SpawnedCtx>, traces: seq<Trace>, leader: bool): (r: seq<Trace>)
    requires forall i | 0 <= i < |ctxs| :: 0 <= ctxs[i].id < |traces|
    ensures |r| == |traces|
  {
    if ctxs == [] then traces
    else
      var before, v := DoneAll(ctxs[..|ctxs| - 1], traces, leader), ctxs[|ctxs| - 1];
      before[v.id := Done(v, before[v.id], leader)]
  }

  function Applied(s: LeaseState, leader: bool): LeaseState
    requires Consistent(s)
  {
    LeaseState(Kept(s.ctxs, leader), DoneAll(s.ctxs, s.traces, leader))
  }

  class RedilockStrategy {
    var ctxs: seq<SpawnedCtx>
    var traces: seq<Trace>

    ghost function State(): LeaseState
      reads this
    {
      LeaseState(ctxs, traces)
    }

    constructor ()
      ensures State() == LeaseState([], []) && Consistent(State())
    {
      ctxs, traces := [], [];
    }

    /** The locked part of AcquireLease. */
    method Acquire() returns (id: int)
      modifies this
      ensures State() == Acquired(old(State()))
      ensures id == |old(traces)|
    {
      id := |traces|;
      ctxs := ctxs + [SpawnedCtx(id, true, false)];
      traces := traces + [WAITING];
    }

    /** A send on a channel of capacity one, which blocks unless the channel is empty and open. */
    method Send(id: int)
      requires 0 <= id < |traces| && traces[id].sent == 0 && traces[id].closed == 0
      modifies this`traces
      ensures traces == old(traces)[id := old(traces)[id].(sent := 1)]
    {
      traces := traces[id := traces[id].(sent := 1)];
    }

    /** A close, which fails on a channel that is closed. */
    method CloseChannel(id: int)
      requires 0 <= id < |traces| && traces[id].closed == 0
      modifies this`traces
      ensures traces == old(traces)[id := old(traces)[id].(closed := 1)]
    {
      traces := traces[id := traces[id].(closed := 1)];
    }

    /** updateSubs after it has loaded the leader flag. */
    method UpdateSubs(isLeader: bool)
      requires Consistent(State())
      modifies this
      ensures State() == Applied(old(State()), isLeader)
    {
      ghost var s := State();
      var newCtxs: seq<SpawnedCtx> := [];
      for i := 0 to |ctxs|
        invariant ctxs == s.ctxs
        invariant newCtxs == Kept(s.ctxs[..i], isLeader)
        invariant traces == DoneAll(s.ctxs[..i], s.traces, isLeader)
        invariant forall k | i <= k < |s.ctxs| :: traces[s.ctxs[k].id] == s.traces[s.ctxs[k].id]
      {
        var v := ctxs[i];
        assert EntryOk(v, s.traces);
        assert s.ctxs[..i + 1][..i] == s.ctxs[..i];
        if isLeader {
          if v.ctx {
            v := v.(ctx := false, cancel := true);
            Send(v.id);
            CloseChannel(v.id);
          }
          newCtxs := newCtxs + [v];
        } else {
          if v.cancel {
            traces := traces[v.id := traces[v.id].(cancelled := traces[v.id].cancelled + 1)];
          } else {
            newCtxs := newCtxs + [v];
          }
        }
      }
      assert s.ctxs[..|s.ctxs|] == s.ctxs;
      ctxs := newCtxs;
    }
  }
}
