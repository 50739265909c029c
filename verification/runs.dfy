/** Runs of a step function: what holds at each event of a run, and at every moment of it. */
module Runs {
  /** The state after a run, which is read from its end: its front, and then its last event. */
  function Exec<S, E>(step: (S, E) -> S, s: S, events: seq<E>): S {
    if events == [] then s else step(Exec(step, s, events[..|events| - 1]), events[|events| - 1])
  }

  /** Each event has the property in the state that it finds. */
  ghost predicate AtEach<S, E>(step: (S, E) -> S, p: (S, E) -> bool, s: S, events: seq<E>) {
    events != [] ==>
      var front := events[..|events| - 1];
      AtEach(step, p, s, front) && p(Exec(step, s, front), events[|events| - 1])
  }

  /** No event has the property in the state that it finds. */
  ghost predicate Never<S, E>(step: (S, E) -> S, p: (S, E) -> bool, s: S, events: seq<E>) {
    events != [] ==>
      var front := events[..|events| - 1];
      Never(step, p, s, front) && !p(Exec(step, s, front), events[|events| - 1])
  }

  /** Every state of the run, the last one included, has the property. */
  ghost predicate Always<S, E>(step: (S, E) -> S, sound: S -> bool, s: S, events: seq<E>) {
    sound(Exec(step, s, events)) && (events != [] ==> Always(step, sound, s, events[..|events| - 1]))
  }

  /** When single steps keep a property exactly if they are not fatal, runs do so exactly if no step is. */
  lemma {:induction false} RunIff<S, E>(step: (S, E) -> S, sound: S -> bool, allowed: (S, E) -> bool,
                                        fatal: (S, E) -> bool, s: S, events: seq<E>)
    requires forall t, e :: sound(t) && allowed(t, e) ==> (sound(step(t, e)) <==> !fatal(t, e))
    requires sound(s) && AtEach(step, allowed, s, events)
    ensures Always(step, sound, s, events) <==> Never(step, fatal, s, events)
  {
    if events != [] {
      var front := events[..|events| - 1];
      RunIff(step, sound, allowed, fatal, s, front);
      var t, e := Exec(step, s, front), events[|events| - 1];
      assert sound(t) && allowed(t, e) ==> (sound(step(t, e)) <==> !fatal(t, e));
    }
  }

  lemma {:induction false} ExecConcat<S, E>(step: (S, E) -> S, s: S, a: seq<E>, b: seq<E>)
    ensures Exec(step, s, a + b) == Exec(step, Exec(step, s, a), b)
  {
    if b == [] {
      assert a + b == a;
    } else {
      var front := b[..|b| - 1];
      assert (a + b)[..|a + b| - 1] == a + front;
      ExecConcat(step, s, a, front);
    }
  }

  /** A run of which nothing goes wrong, at one of its moments. */
  lemma {:induction false} AtMoment<S, E>(step: (S, E) -> S, sound: S -> bool, allowed: (S, E) -> bool,
                                          fatal: (S, E) -> bool, s: S, events: seq<E>, i: nat)
    requires i < |events| && Always(step, sound, s, events)
    requires AtEach(step, allowed, s, events) && Never(step, fatal, s, events)
    ensures var t := Exec(step, s, events[..i]);
      sound(t) && allowed(t, events[i]) && !fatal(t, events[i])
  {
    var front := events[..|events| - 1];
    if i < |front| {
      assert front[..i] == events[..i];
      AtMoment(step, sound, allowed, fatal, s, front, i);
    } else {
      assert events[..i] == front;
    }
  }
}
