/** What all models share: an optional value, and the state after a sequence of actions. */
module Basics {
  datatype Option<+T> = None | Some(value: T)

  /** The state after a sequence of actions. */
  function Fold<S, A>(step: (S, A) -> S, s: S, acts: seq<A>): S {
    if acts == [] then s else step(Fold(step, s, acts[..|acts| - 1]), acts[|acts| - 1])
  }

  lemma {:induction false} FoldMore<S, A>(step: (S, A) -> S, s: S, acts: seq<A>, a: A)
    ensures Fold(step, s, acts + [a]) == step(Fold(step, s, acts), a)
  {
    assert (acts + [a])[..|acts|] == acts;
  }

  lemma {:induction false} FoldJoins<S, A>(step: (S, A) -> S, s: S, acts: seq<A>, more: seq<A>)
    ensures Fold(step, s, acts + more) == Fold(step, Fold(step, s, acts), more)
  {
    if more == [] {
      assert acts + more == acts;
    } else {
      var front, a := more[..|more| - 1], more[|more| - 1];
      FoldJoins(step, s, acts, front);
      assert acts + more == (acts + front) + [a];
      FoldMore(step, s, acts + front, a);
    }
  }

  /** The state after the same action `n` times. */
  function Iterate<S, A>(step: (S, A) -> S, s: S, a: A, n: nat): S
    decreases n
  {
    if n == 0 then s else Iterate(step, step(s, a), a, n - 1)
  }

  lemma {:induction false} IterateJoins<S, A>(step: (S, A) -> S, s: S, a: A, m: nat, n: nat)
    ensures Iterate(step, Iterate(step, s, a, m), a, n) == Iterate(step, s, a, m + n)
    decreases m
  {
    if m > 0 { IterateJoins(step, step(s, a), a, m - 1, n); }
  }
}
