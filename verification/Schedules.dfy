/**
  Schedules of two sides, cut into rounds.
 */
module Schedules {

  // Rounds in each of which both sides take at least one step, in any order and number.
  predicate Fair<T(==)>(rounds: seq<seq<T>>, a: T, b: T) {
    forall i :: 0 <= i < |rounds| ==> a in rounds[i] && b in rounds[i]
  }

  function Join<T>(rounds: seq<seq<T>>): seq<T> {
    if rounds == [] then [] else rounds[0] + Join(rounds[1..])
  }

  lemma {:induction false} JoinConcat<T>(first: seq<seq<T>>, later: seq<seq<T>>)
    ensures Join(first + later) == Join(first) + Join(later)
  {
    if first == [] {
      assert first + later == later;
    } else {
      assert (first + later)[1..] == first[1..] + later;
      JoinConcat(first[1..], later);
    }
  }

  // The two sides in turn, n times.
  function Turns<T>(a: T, b: T, n: nat): (rounds: seq<seq<T>>)
    ensures |rounds| == n
  {
    seq(n, k => [a, b])
  }

  lemma {:induction false} TurnsFair<T>(a: T, b: T, n: nat)
    ensures Fair(Turns(a, b, n), a, b)
  {
    assert [a, b][0] == a && [a, b][1] == b;
  }
}
