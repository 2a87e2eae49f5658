/** The shape every level classifier of the site shares:
    `if (level >= t0) return v0; if (level >= t1) return v1; ... return fallback;`
    The band of a level is the position of the first threshold it reaches,
    or the number of thresholds when it reaches none. */
module Bands {

  /** Thresholds in strictly decreasing order, as every chain of the site
      lists them. */
  predicate Descending(thresholds: seq<int>) {
    forall i, j :: 0 <= i < j < |thresholds| ==> thresholds[i] > thresholds[j]
  }

  /** The band of `level`: the first threshold it reaches. */
  function Band(thresholds: seq<int>, level: int): (k: nat)
    ensures k <= |thresholds|
    ensures forall i :: 0 <= i < k ==> level < thresholds[i]
    ensures k < |thresholds| ==> thresholds[k] <= level
  {
    if thresholds == [] then 0
    else if level >= thresholds[0] then 0
    else
      var k := Band(thresholds[1..], level);
      assert forall i :: 1 <= i <= k ==> thresholds[i] == thresholds[1..][i - 1];
      k + 1
  }

  /** With descending thresholds the band is exactly the one whose
      threshold the level reaches while staying below the one above. */
  lemma BandBetween(thresholds: seq<int>, level: int, k: nat)
    requires Descending(thresholds) && k <= |thresholds|
    requires k < |thresholds| ==> thresholds[k] <= level
    requires 0 < k ==> level < thresholds[k - 1]
    ensures Band(thresholds, level) == k
  {
  }

  /** A higher level never lands in a lower band (a later position). */
  lemma BandMonotone(thresholds: seq<int>, a: int, b: int)
    requires a <= b
    ensures Band(thresholds, b) <= Band(thresholds, a)
  {
  }
}
