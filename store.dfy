/** The Redux store's one rule: a slice's state after a series of
    `dispatch` calls is its reducer applied to each action in turn. */
module Store {

  /** The state `reduce` reaches from `s` by handling `actions` in order. */
  function Replay<S, A>(reduce: (S, A) -> S, s: S, actions: seq<A>): S
    decreases |actions|
  {
    if actions == [] then s else Replay(reduce, reduce(s, actions[0]), actions[1..])
  }

  /** Dispatching `xs` and then `ys` is dispatching `xs + ys`. */
  lemma {:induction false} ReplayAppend<S, A>(reduce: (S, A) -> S, s: S, xs: seq<A>, ys: seq<A>)
    ensures Replay(reduce, s, xs + ys) == Replay(reduce, Replay(reduce, s, xs), ys)
    decreases |xs|
  {
    if xs == [] {
      assert xs + ys == ys;
    } else {
      assert (xs + ys)[0] == xs[0] && (xs + ys)[1..] == xs[1..] + ys;
      ReplayAppend(reduce, reduce(s, xs[0]), xs[1..], ys);
    }
  }

  /** One dispatch is one call of the reducer. */
  lemma ReplayOne<S, A>(reduce: (S, A) -> S, s: S, a: A)
    ensures Replay(reduce, s, [a]) == reduce(s, a)
  {
    assert [a][1..] == [];
  }

  /** Two dispatches are two calls of the reducer, in order. */
  lemma ReplayTwo<S, A>(reduce: (S, A) -> S, s: S, a: A, b: A)
    ensures Replay(reduce, s, [a, b]) == reduce(reduce(s, a), b)
  {
    assert [a, b] == [a] + [b];
    ReplayAppend(reduce, s, [a], [b]);
    ReplayOne(reduce, s, a);
    ReplayOne(reduce, reduce(s, a), b);
  }
}
