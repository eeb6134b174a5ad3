/** The banding rule shared by the dashboard's AQI classifiers: a value falls
    into the band of the first upper bound it does not exceed (every bound is
    inclusive, as in `if (aqi <= 20) ... if (aqi <= 40) ...`), and into the
    band after the last bound when it exceeds them all. */
module Bands {

  /** The index of the first bound `x` does not exceed, or the number of
      bounds when `x` exceeds every one of them. */
  function BandOf(bounds: seq<int>, x: int): (b: nat)
    ensures b <= |bounds|
    ensures forall k :: 0 <= k < b ==> bounds[k] < x
    ensures b < |bounds| ==> x <= bounds[b]
    decreases |bounds|
  {
    if |bounds| == 0 then 0
    else if x <= bounds[0] then 0
    else 1 + BandOf(bounds[1..], x)
  }

  /** A larger value never lands in an earlier band. */
  lemma {:induction false} BandOfMonotone(bounds: seq<int>, x: int, y: int)
    requires x <= y
    ensures BandOf(bounds, x) <= BandOf(bounds, y)
    decreases |bounds|
  {
    if |bounds| > 0 && x > bounds[0] {
      BandOfMonotone(bounds[1..], x, y);
    }
  }

  /** With increasing bounds, band `b` is exactly the half-open interval
      (bounds[b-1], bounds[b]]. */
  lemma BandOfInterval(bounds: seq<int>, x: int, b: nat)
    requires forall i, j :: 0 <= i < j < |bounds| ==> bounds[i] < bounds[j]
    requires b <= |bounds|
    requires b > 0 ==> bounds[b - 1] < x
    requires b < |bounds| ==> x <= bounds[b]
    ensures BandOf(bounds, x) == b
  {
  }
}
