/** Sequences of states in which each leads to the next by an action. */
module Paths {
  /** The actions lead from the first to the last of the states. */
  ghost predicate IsPath<S, A>(next: (S, A, S) -> bool, run: seq<S>, actions: seq<A>) {
    && |run| == |actions| + 1
    && forall i :: 0 <= i < |actions| ==> next(run[i], actions[i], run[i + 1])
  }

  /** Two paths one after the other, the second from where the first ends. */
  lemma Continue<S, A>(next: (S, A, S) -> bool, run: seq<S>, actions: seq<A>, rest: seq<S>, more: seq<A>)
      returns (whole: seq<S>)
    requires IsPath(next, run, actions) && IsPath(next, rest, more) && run[|run| - 1] == rest[0]
    ensures IsPath(next, whole, actions + more)
    ensures whole[0] == run[0] && whole[|whole| - 1] == rest[|rest| - 1]
  {
    whole := run[..|run| - 1] + rest;
  }
}
