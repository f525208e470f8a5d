/** Runs of a machine: what a sequence of events makes of a state, one event after the other. */
module Runs {
  function Run<S, E>(step: (S, E) -> S, s: S, events: seq<E>): S
    decreases |events|
  {
    if events == [] then s else Run(step, step(s, events[0]), events[1..])
  }

  lemma {:induction false} RunConcat<S, E>(step: (S, E) -> S, s: S, p: seq<E>, q: seq<E>)
    ensures Run(step, s, p + q) == Run(step, Run(step, s, p), q)
    decreases |p|
  {
    if p == [] {
      assert p + q == q;
    } else {
      assert (p + q)[0] == p[0] && (p + q)[1..] == p[1..] + q;
      RunConcat(step, step(s, p[0]), p[1..], q);
    }
  }

  lemma LastStep<S, E>(step: (S, E) -> S, s: S, p: seq<E>, e: E)
    ensures Run(step, s, p + [e]) == step(Run(step, s, p), e)
  {
    RunConcat(step, s, p, [e]);
    assert [e][1..] == [];
  }

  ghost predicate Reached<S(!new), E(!new)>(step: (S, E) -> S, start: S, s: S) {
    exists events :: Run(step, start, events) == s
  }

  lemma StartIsReached<S(!new), E(!new)>(step: (S, E) -> S, start: S)
    ensures Reached(step, start, start)
  {
    assert Run(step, start, []) == start;
  }

  lemma ReachedStep<S(!new), E(!new)>(step: (S, E) -> S, start: S, s: S, e: E)
    requires Reached(step, start, s)
    ensures Reached(step, start, step(s, e))
  {
    var events := EventsTo(step, start, s);
    LastStep(step, start, events, e);
  }

  lemma EventsTo<S(!new), E(!new)>(step: (S, E) -> S, start: S, s: S) returns (events: seq<E>)
    requires Reached(step, start, s)
    ensures Run(step, start, events) == s
  {
    events :| Run(step, start, events) == s;
  }
}
