// Runs of a state machine given by a total step function.

module Runs {
  function Run<S, A>(step: (S, A) -> S, s: S, actions: seq<A>): S
    decreases |actions|
  {
    if actions == [] then s else Run(step, step(s, actions[0]), actions[1..])
  }

  /** `guard` holds of every step of the run. */
  predicate Guarded<S, A>(step: (S, A) -> S, guard: (S, A) -> bool, s: S, actions: seq<A>)
    decreases |actions|
  {
    actions != [] ==> guard(s, actions[0]) && Guarded(step, guard, step(s, actions[0]), actions[1..])
  }

  /** `p` holds at every state of the run, the first and the last included. */
  ghost predicate Throughout<S, A>(step: (S, A) -> S, p: S -> bool, s: S, actions: seq<A>)
    decreases |actions|
  {
    p(s) && (actions != [] ==> Throughout(step, p, step(s, actions[0]), actions[1..]))
  }

  lemma {:induction false} Weaken<S(!new), A(!new)>(
    step: (S, A) -> S, guard: (S, A) -> bool, weaker: (S, A) -> bool, s: S, actions: seq<A>)
    requires Guarded(step, guard, s, actions)
    requires forall t, a :: guard(t, a) ==> weaker(t, a)
    ensures Guarded(step, weaker, s, actions)
    decreases |actions|
  {
    if actions != [] {
      Weaken(step, guard, weaker, step(s, actions[0]), actions[1..]);
    }
  }

  /** An invariant of every guarded step holds at the end of every guarded run. */
  lemma {:induction false} Invariant<S(!new), A(!new)>(
    step: (S, A) -> S, guard: (S, A) -> bool, inv: S -> bool, s: S, actions: seq<A>)
    requires inv(s) && Guarded(step, guard, s, actions)
    requires forall t, a :: inv(t) && guard(t, a) ==> inv(step(t, a))
    ensures inv(Run(step, s, actions))
    decreases |actions|
  {
    if actions != [] {
      Invariant(step, guard, inv, step(s, actions[0]), actions[1..]);
    }
  }

  lemma {:induction false} Concat<S, A>(
    step: (S, A) -> S, guard: (S, A) -> bool, s: S, a: seq<A>, b: seq<A>)
    ensures Run(step, s, a + b) == Run(step, Run(step, s, a), b)
    ensures Guarded(step, guard, s, a + b) <==>
      Guarded(step, guard, s, a) && Guarded(step, guard, Run(step, s, a), b)
    decreases |a|
  {
    if a == [] {
      assert a + b == b;
    } else {
      assert (a + b)[1..] == a[1..] + b;
      Concat(step, guard, step(s, a[0]), a[1..], b);
    }
  }

  lemma Snoc<S, A>(step: (S, A) -> S, guard: (S, A) -> bool, s: S, a: seq<A>, x: A)
    ensures Run(step, s, a + [x]) == step(Run(step, s, a), x)
    ensures Guarded(step, guard, s, a + [x]) <==> Guarded(step, guard, s, a) && guard(Run(step, s, a), x)
  {
    Concat(step, guard, s, a, [x]);
    assert Run(step, Run(step, s, a), [x]) == Run(step, step(Run(step, s, a), x), []);
    assert Guarded(step, guard, step(Run(step, s, a), x), []);
  }

  lemma Three<S, A>(
    step: (S, A) -> S, guard: (S, A) -> bool, s: S, s1: S, s2: S, s3: S, a1: A, a2: A, a3: A)
    requires step(s, a1) == s1 && step(s1, a2) == s2 && step(s2, a3) == s3
    ensures Run(step, s, [a1, a2, a3]) == s3
    ensures Guarded(step, guard, s, [a1, a2, a3]) <==> guard(s, a1) && guard(s1, a2) && guard(s2, a3)
  {
    Snoc(step, guard, s, [], a1);
    Snoc(step, guard, s, [] + [a1], a2);
    Snoc(step, guard, s, [] + [a1] + [a2], a3);
    assert [] + [a1] + [a2] + [a3] == [a1, a2, a3];
  }

  lemma Two<S, A>(step: (S, A) -> S, guard: (S, A) -> bool, s: S, s1: S, s2: S, a1: A, a2: A)
    requires step(s, a1) == s1 && step(s1, a2) == s2
    ensures Run(step, s, [a1, a2]) == s2
    ensures Guarded(step, guard, s, [a1, a2]) <==> guard(s, a1) && guard(s1, a2)
  {
    Snoc(step, guard, s, [], a1);
    Snoc(step, guard, s, [] + [a1], a2);
    assert [] + [a1] + [a2] == [a1, a2];
  }

  lemma Five<S, A>(
    step: (S, A) -> S, guard: (S, A) -> bool, s: S, s1: S, s2: S, s3: S, s4: S, s5: S,
    a1: A, a2: A, a3: A, a4: A, a5: A)
    requires step(s, a1) == s1 && step(s1, a2) == s2 && step(s2, a3) == s3
    requires step(s3, a4) == s4 && step(s4, a5) == s5
    ensures Run(step, s, [a1, a2, a3, a4, a5]) == s5
    ensures Guarded(step, guard, s, [a1, a2, a3, a4, a5]) <==>
      guard(s, a1) && guard(s1, a2) && guard(s2, a3) && guard(s3, a4) && guard(s4, a5)
  {
    Three(step, guard, s, s1, s2, s3, a1, a2, a3);
    Two(step, guard, s3, s4, s5, a4, a5);
    Concat(step, guard, s, [a1, a2, a3], [a4, a5]);
    assert [a1, a2, a3] + [a4, a5] == [a1, a2, a3, a4, a5];
  }
}
