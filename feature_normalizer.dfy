/**
 * The feature normaliser of app/page.tsx: `clamp` and `scoreFromFeature`, a
 * piecewise-linear saturation of a raw feature into [0, 1].
 */
module FeatureNormalizer {
  import opened Wrappers

  /** `Math.min` on two numbers. */
  function Min(a: real, b: real): (r: real)
    ensures r <= a && r <= b
    ensures r == a || r == b
  {
    if a <= b then a else b
  }

  /** `Math.max` on two numbers. */
  function Max(a: real, b: real): (r: real)
    ensures r >= a && r >= b
    ensures r == a || r == b
  {
    if a >= b then a else b
  }

  /**
   * `clamp(v, lo, hi) = Math.max(lo, Math.min(hi, v))`. The lower bound wins
   * when the bounds are crossed; every caller passes lo <= hi.
   */
  function Clamp(v: real, lo: real, hi: real): (r: real)
    ensures lo <= r
    ensures lo <= hi ==> r <= hi
    ensures lo <= v <= hi ==> r == v
    ensures v < lo ==> r == lo
    ensures lo <= hi < v ==> r == hi
  {
    Max(lo, Min(hi, v))
  }

  /**
   * The un-inverted part of `scoreFromFeature`: 0 at or below `lo`, 1 at or
   * above `hi`, the linear interpolation strictly between.
   */
  function Saturation(v: real, lo: real, hi: real): (s: real)
    ensures 0.0 <= s <= 1.0
    ensures v <= lo ==> s == 0.0
    ensures lo < v && hi <= v ==> s == 1.0
    ensures lo < v < hi ==> s * (hi - lo) == v - lo && 0.0 < s < 1.0
  {
    if v <= lo then 0.0
    else if v >= hi then 1.0
    else
      var s := (v - lo) / (hi - lo);
      assert s * (hi - lo) == v - lo;
      s
  }

  /**
   * `scoreFromFeature(x, lo, hi, invert)`. A missing value (`None`) scores 0,
   * before and regardless of `invert`.
   */
  function ScoreFromFeature(x: Option<real>, lo: real, hi: real, invert: bool): (r: real)
    ensures 0.0 <= r <= 1.0
    ensures x.None? ==> r == 0.0
    ensures x.Some? && !invert ==> r == Saturation(x.value, lo, hi)
    ensures x.Some? && invert ==> r == 1.0 - Saturation(x.value, lo, hi)
  {
    if x.None? then 0.0
    else
      var s := Saturation(x.value, lo, hi);
      if invert then 1.0 - s else s
  }

  /** Saturation never decreases as the raw value grows. */
  lemma SaturationMonotone(v1: real, v2: real, lo: real, hi: real)
    requires v1 <= v2
    ensures Saturation(v1, lo, hi) <= Saturation(v2, lo, hi)
  {
    if lo < v1 && v2 < hi {
      var d := hi - lo;
      assert (v1 - lo) / d <= (v2 - lo) / d by {
        assert (v2 - lo) / d - (v1 - lo) / d == (v2 - v1) / d;
      }
    }
  }

  /** So a normalised feature is non-decreasing, and an inverted one non-increasing. */
  lemma ScoreFromFeatureMonotone(v1: real, v2: real, lo: real, hi: real)
    requires v1 <= v2
    ensures ScoreFromFeature(Some(v1), lo, hi, false) <= ScoreFromFeature(Some(v2), lo, hi, false)
    ensures ScoreFromFeature(Some(v1), lo, hi, true) >= ScoreFromFeature(Some(v2), lo, hi, true)
  {
    SaturationMonotone(v1, v2, lo, hi);
  }

  /** Inverting gives exactly one minus the plain score. */
  lemma ScoreFromFeatureInverts(v: real, lo: real, hi: real)
    ensures ScoreFromFeature(Some(v), lo, hi, true) == 1.0 - ScoreFromFeature(Some(v), lo, hi, false)
  {
  }
}
