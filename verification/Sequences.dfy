/** Sequence operations that the models share. */
module Sequences {

  /** Positions in rising order. */
  predicate Rising(positions: seq<nat>) {
    forall i, j | 0 <= i < j < |positions| :: positions[i] < positions[j]
  }

  /** One more position behind all others. */
  lemma RisingAppend(positions: seq<nat>, next: nat)
    requires Rising(positions) && forall i | i in positions :: i < next
    ensures Rising(positions + [next])
  {
    var longer := positions + [next];
    assert forall i | 0 <= i < |positions| :: longer[i] == positions[i] && positions[i] in positions;
  }

  /** The last `count` items, or all of them when there are no more. */
  function Last<T>(items: seq<T>, count: nat): seq<T> {
    if |items| <= count then items else items[|items| - count..]
  }
}
