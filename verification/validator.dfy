/** Validator: the newest head that has been reported, and since when it is known. */
module Validators {
  datatype Report = Report(head: int, time: int)

  datatype Verdict = Accepted | JumpedBackwards | HeadOld

  /** The newer of two reports; of two at the same head the earlier one. */
  function Joined(s: Report, r: Report): Report {
    if r.head < s.head then s
    else if r.head > s.head then r
    else if r.time < s.time then r
    else s
  }

  function Judged(s: Report, r: Report, now: int, maxAge: int): Verdict {
    if r.head < s.head then JumpedBackwards
    else if r.head == s.head && now - Joined(s, r).time > maxAge then HeadOld
    else Accepted
  }

  class Validator {
    const maxAge: int
    var head: int
    var updated: int

    ghost function State(): Report
      reads this
    {
      Report(head, updated)
    }

    constructor (maxAge: int, zeroTime: int)
      ensures this.maxAge == maxAge && State() == Report(0, zeroTime)
    {
      this.maxAge, head, updated := maxAge, 0, zeroTime;
    }

    method UpdateHead(h: int, time: int, now: int) returns (verdict: Verdict)
      modifies this
      ensures State() == Joined(old(State()), Report(h, time))
      ensures verdict == Judged(old(State()), Report(h, time), now, maxAge)
    {
      if h < head {
        return JumpedBackwards;
      }
      if h > head {
        head := h;
        updated := time;
        return Accepted;
      }
      if time < updated {
        updated := time;
      }
      if now - updated > maxAge {
        return HeadOld;
      }
      return Accepted;
    }
  }

  function JoinedAll(s: Report, reports: seq<Report>): Report {
    if reports == [] then s else Joined(JoinedAll(s, reports[..|reports| - 1]), reports[|reports| - 1])
  }

  /** `best` is one of the reports, no report has a newer head, and none at its head is earlier. */
  predicate IsBest(best: Report, s: Report, reports: seq<Report>) {
    && (best == s || best in reports)
    && s.head <= best.head && (s.head == best.head ==> best.time <= s.time)
    && forall r | r in reports :: r.head <= best.head && (r.head == best.head ==> best.time <= r.time)
  }

  /** After any reports the state is the newest head among them, the initial state included, and the
      earliest time reported for it. */
  lemma {:induction false} StateIsBest(s: Report, reports: seq<Report>)
    ensures IsBest(JoinedAll(s, reports), s, reports)
  {
    if reports != [] {
      var front, last := reports[..|reports| - 1], reports[|reports| - 1];
      StateIsBest(s, front);
      assert reports == front + [last];
    }
  }

  lemma BestIsUnique(a: Report, b: Report, s: Report, reports: seq<Report>)
    requires IsBest(a, s, reports) && IsBest(b, s, reports)
    ensures a == b
  {
  }

  /** The order and repetition of reports do not matter. */
  lemma OrderIndependent(s: Report, reports1: seq<Report>, reports2: seq<Report>)
    requires forall r :: r in reports1 <==> r in reports2
    ensures JoinedAll(s, reports1) == JoinedAll(s, reports2)
  {
    StateIsBest(s, reports1);
    StateIsBest(s, reports2);
    BestIsUnique(JoinedAll(s, reports1), JoinedAll(s, reports2), s, reports1);
  }

  /** A report is refused for going backwards exactly when a newer head has been reported before. */
  lemma BackwardsIff(s: Report, reports: seq<Report>, r: Report, now: int, maxAge: int)
    ensures Judged(JoinedAll(s, reports), r, now, maxAge) == JumpedBackwards
      <==> r.head < s.head || exists q :: q in reports && r.head < q.head
  {
    StateIsBest(s, reports);
  }

  /** A report is old exactly when its head is the newest known and has been known for too long,
      whoever reported it first. */
  lemma OldIff(s: Report, reports: seq<Report>, r: Report, now: int, maxAge: int)
    ensures Judged(JoinedAll(s, reports), r, now, maxAge) == HeadOld <==>
      && JoinedAll(s, reports).head == r.head
      && (r.time < now - maxAge || (s.head == r.head && s.time < now - maxAge)
          || exists q :: q in reports && q.head == r.head && q.time < now - maxAge)
  {
    StateIsBest(s, reports);
  }

  /** A strictly newer head is always accepted, however old its timestamp. */
  lemma NewerAccepted(s: Report, reports: seq<Report>, r: Report, now: int, maxAge: int)
    requires s.head < r.head && forall q | q in reports :: q.head < r.head
    ensures Judged(JoinedAll(s, reports), r, now, maxAge) == Accepted
  {
    StateIsBest(s, reports);
  }
}
