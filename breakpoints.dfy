/**
  A declarative reference reading of a breakpoint ladder: an ordered list of
  inclusive upper bounds, where the band of a reading is the 1-based position
  of the first bound the reading does not exceed, or one past the last bound
  when it exceeds them all. The hand-written ladders in module UkAqi are
  proved equal to this definition for their own tables.
*/
module BreakpointTable {

  /** The bounds rise strictly, so the bands are contiguous and non-empty. */
  predicate StrictlyIncreasing(bounds: seq<nat>) {
    forall i, j :: 0 <= i < j < |bounds| ==> bounds[i] < bounds[j]
  }

  /** Band of reading `r` under `bounds`: first bound not exceeded, 1-based. */
  function Band(bounds: seq<nat>, r: nat): (b: nat)
    ensures 1 <= b <= |bounds| + 1
    ensures forall i :: 0 <= i < b - 1 ==> bounds[i] < r
    ensures b <= |bounds| ==> r <= bounds[b - 1]
    decreases |bounds|
  {
    if |bounds| == 0 then 1
    else if r <= bounds[0] then 1
    else 1 + Band(bounds[1..], r)
  }

  /** Reading `r` lies in the closed-open interval that band `k` covers. */
  predicate InBand(bounds: seq<nat>, r: nat, k: nat)
    requires 1 <= k <= |bounds| + 1
  {
    (k == 1 || bounds[k - 2] < r) && (k == |bounds| + 1 || r <= bounds[k - 1])
  }

  /** The band is the only position meeting the "first not exceeded" rule. */
  lemma BandUnique(bounds: seq<nat>, r: nat, k: nat)
    requires 1 <= k <= |bounds| + 1
    requires forall i :: 0 <= i < k - 1 ==> bounds[i] < r
    requires k <= |bounds| ==> r <= bounds[k - 1]
    ensures Band(bounds, r) == k
  {
  }

  /** With rising bounds, every reading falls in exactly one band's interval. */
  lemma BandIff(bounds: seq<nat>, r: nat, k: nat)
    requires StrictlyIncreasing(bounds)
    requires 1 <= k <= |bounds| + 1
    ensures Band(bounds, r) == k <==> InBand(bounds, r, k)
  {
  }

  /** A larger reading never gets a lower band, whatever the bounds. */
  lemma BandMonotone(bounds: seq<nat>, r1: nat, r2: nat)
    requires r1 <= r2
    ensures Band(bounds, r1) <= Band(bounds, r2)
  {
  }

  /** With rising bounds, a reading above the last bound gets the top band. */
  lemma BandSaturates(bounds: seq<nat>, r: nat)
    requires StrictlyIncreasing(bounds)
    requires |bounds| > 0 && r > bounds[|bounds| - 1]
    ensures Band(bounds, r) == |bounds| + 1
  {
  }

  /** A bound itself is the top of its band; one more opens the next band. */
  lemma BandAtBoundary(bounds: seq<nat>, k: nat)
    requires StrictlyIncreasing(bounds)
    requires k < |bounds|
    ensures Band(bounds, bounds[k]) == k + 1
    ensures Band(bounds, bounds[k] + 1) == k + 2
  {
  }
}
