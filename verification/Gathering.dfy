/** Lists that a loop builds by appending something for some of its places. */
module Gathering {
  import opened Usage

  /** What the first `n` places have, in their order. */
  function Gathered<T>(at: int -> Option<T>, n: nat): seq<T> {
    if n == 0 then []
    else
      var x := at(n - 1);
      Gathered(at, n - 1) + (if x.Some? then [x.value] else [])
  }

  /** Each place that has something is listed once, in the order of the places, and nothing else is. */
  lemma {:induction false} GatheredExactly<T>(at: int -> Option<T>, n: nat) returns (places: seq<int>)
    ensures |places| == |Gathered(at, n)|
    ensures forall k | 0 <= k < |places| :: 0 <= places[k] < n && at(places[k]) == Some(Gathered(at, n)[k])
    ensures forall j, k | 0 <= j < k < |places| :: places[j] < places[k]
    ensures forall i | 0 <= i < n && at(i).Some? :: i in places
  {
    places := [];
    if n > 0 {
      places := GatheredExactly(at, n - 1);
      var before := places;
      if at(n - 1).Some? {
        places := before + [n - 1];
        assert places[|before|] == n - 1;
        assert forall i | i in before :: i in places;
      }
    }
  }

  /** Nothing is listed exactly when no place has anything. */
  lemma {:induction false} NothingGathered<T>(at: int -> Option<T>, n: nat)
    ensures Gathered(at, n) == [] <==> forall i | 0 <= i < n :: at(i).None?
  {
    if n > 0 {
      NothingGathered(at, n - 1);
    }
  }
}
