/**
 Runs of a machine that takes one action at a time.
 */
module Runs {
  function Run<S, A>(next: (S, A) -> S, s: S, actions: seq<A>): S
    decreases |actions|
  {
    if actions == [] then s else Run(next, next(s, actions[0]), actions[1..])
  }

  lemma RunOne<S, A>(next: (S, A) -> S, s: S, a: A)
    ensures Run(next, s, [a]) == next(s, a)
  {
    assert [a][1..] == [];
  }

  lemma RunTwo<S, A>(next: (S, A) -> S, s: S, a: A, b: A)
    ensures Run(next, s, [a, b]) == next(next(s, a), b)
  {
    assert [a, b][1..] == [b];
    RunOne(next, next(s, a), b);
  }

  lemma RunThree<S, A>(next: (S, A) -> S, s: S, a: A, b: A, c: A)
    ensures Run(next, s, [a, b, c]) == next(next(next(s, a), b), c)
  {
    assert [a, b, c][1..] == [b, c];
    RunTwo(next, next(s, a), b, c);
  }

  lemma {:induction false} RunAppend<S, A>(next: (S, A) -> S, s: S, xs: seq<A>, ys: seq<A>)
    ensures Run(next, s, xs + ys) == Run(next, Run(next, s, xs), ys)
    decreases |xs|
  {
    if xs == [] {
      assert xs + ys == ys;
    } else {
      assert (xs + ys)[0] == xs[0] && (xs + ys)[1..] == xs[1..] + ys;
      RunAppend(next, next(s, xs[0]), xs[1..], ys);
    }
  }
}
