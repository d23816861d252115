/**
 * Metric derivation: the two scalar statistics derived from per-layer
 * similarity series (run_suite.py, compute_half_life and compute_cdl).
 * Similarities are modelled as reals; the layer index is the position in
 * the series, and -1 is the "not reached" sentinel the source writes out.
 */
module Metrics {

  /** Identity similarity below this value counts as "decayed". */
  const HalfLifeThreshold: real := 0.1

  /** Sentinel layer index meaning "the condition never held". */
  const NotReached: int := -1

  /**
   * Index of the first similarity strictly below `threshold`, or NotReached
   * when there is none (in particular for an empty series).
   */
  function FirstBelow(sims: seq<real>, threshold: real): (r: int)
    ensures NotReached <= r < |sims|
    ensures r == NotReached <==> forall i :: 0 <= i < |sims| ==> sims[i] >= threshold
    ensures r != NotReached ==> sims[r] < threshold
    ensures r != NotReached ==> forall i :: 0 <= i < r ==> sims[i] >= threshold
  {
    if |sims| == 0 then NotReached
    else if sims[0] < threshold then 0
    else
      var rest := FirstBelow(sims[1..], threshold);
      if rest == NotReached then NotReached else rest + 1
  }

  /** Half-life layer: the first layer whose identity similarity drops below 0.1. */
  function HalfLife(identity: seq<real>): (r: int)
    ensures NotReached <= r < |identity|
    ensures r == NotReached <==> forall i :: 0 <= i < |identity| ==> identity[i] >= HalfLifeThreshold
    ensures r != NotReached ==> identity[r] < HalfLifeThreshold
    ensures r != NotReached ==> forall i :: 0 <= i < r ==> identity[i] >= HalfLifeThreshold
  {
    FirstBelow(identity, HalfLifeThreshold)
  }

  /**
   * Context-dominance layer: the first layer, within the common prefix of
   * the two series (zip stops at the shorter one), whose context similarity
   * is strictly below its identity similarity; NotReached when there is none.
   */
  function Cdl(identity: seq<real>, context: seq<real>): (r: int)
    ensures NotReached <= r && r < |identity| && r < |context|
    ensures r == NotReached <==>
      forall i :: 0 <= i < |identity| && i < |context| ==> context[i] >= identity[i]
    ensures r != NotReached ==> context[r] < identity[r]
    ensures r != NotReached ==> forall i :: 0 <= i < r ==> context[i] >= identity[i]
  {
    if |identity| == 0 || |context| == 0 then NotReached
    else if context[0] < identity[0] then 0
    else
      var rest := Cdl(identity[1..], context[1..]);
      if rest == NotReached then NotReached else rest + 1
  }

  /** Length of the common prefix that zip walks over. */
  function ZipLength(n: nat, m: nat): (k: nat)
    ensures k <= n && k <= m && (k == n || k == m)
  {
    if n <= m then n else m
  }

  /** Raising the threshold never moves the half-life layer later. */
  lemma FirstBelowMonotonic(sims: seq<real>, lower: real, higher: real)
    requires lower <= higher
    requires FirstBelow(sims, lower) != NotReached
    ensures FirstBelow(sims, higher) != NotReached
    ensures FirstBelow(sims, higher) <= FirstBelow(sims, lower)
  {
    // follows from the first-index contract of FirstBelow
  }

  /**
   * Elements of either series past the shorter length never influence the
   * result: Cdl only ever looks at the common prefix.
   */
  lemma CdlIgnoresTail(identity: seq<real>, context: seq<real>, k: nat)
    requires k == ZipLength(|identity|, |context|)
    ensures Cdl(identity, context) == Cdl(identity[..k], context[..k])
  {
    // follows from the first-index contract of Cdl, which mentions only the common prefix
  }

  /** Worked examples of both statistics, with the exact comparison directions. */
  lemma HalfLifeExamples()
    ensures HalfLife([0.9, 0.5, 0.05, 0.01]) == 2
    ensures HalfLife([0.9, 0.8, 0.7]) == NotReached
    ensures HalfLife([]) == NotReached
  {
  }

  lemma CdlExamples()
    ensures Cdl([0.9, 0.6, 0.3], [0.8, 0.7, 0.2]) == 0
    ensures Cdl([0.5, 0.6], [0.7, 0.6, 0.1]) == NotReached
    ensures Cdl([], [0.1]) == NotReached
  {
  }
}
