/** Vocabulary shared by everything that speaks about runs: a run is a sequence of steps, oldest first. */
module Histories {
  /** When something last happened, if it ever did. */
  datatype Moment = Never | At(time: nat)

  datatype Option<+T> = None | Some(value: T)

  function Earlier<S>(run: seq<S>): seq<S>
    requires run != []
  {
    run[..|run| - 1]
  }

  function Latest<S>(run: seq<S>): S
    requires run != []
  {
    run[|run| - 1]
  }

  /** The clock that `now` reads off each step never goes back. */
  predicate Forward<S(!new)>(run: seq<S>, now: S -> nat) {
    forall i, j :: 0 <= i < j < |run| ==> now(run[i]) <= now(run[j])
  }
}
