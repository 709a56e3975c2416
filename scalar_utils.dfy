/**
 * The scalar helpers of the visualiser: linear interpolation, clamping,
 * range mapping, smooth stepping and array normalisation, over `real`
 * (floating-point rounding is not modelled).
 *
 * Where the JavaScript divides by zero the result is not a finite number
 * (`NaN` or an infinity); the model returns `None` there instead of
 * excluding the input.
 */
module ScalarUtils {
  import opened Common

  function Min(a: real, b: real): real { if a <= b then a else b }
  function Max(a: real, b: real): real { if a >= b then a else b }

  /** `start * (1 - t) + end * t`. */
  function Lerp(start: real, end: real, t: real): (r: real)
    ensures r - start == t * (end - start)
  {
    start * (1.0 - t) + end * t
  }

  lemma LerpEndpoints(start: real, end: real)
    ensures Lerp(start, end, 0.0) == start
    ensures Lerp(start, end, 1.0) == end
  {
  }

  /** For `t` in [0, 1] the interpolant lies between the two ends. */
  lemma LerpBetween(start: real, end: real, t: real)
    requires 0.0 <= t <= 1.0
    ensures Min(start, end) <= Lerp(start, end, t) <= Max(start, end)
  {
    var d := end - start;
    var p := Lerp(start, end, t) - start;
    assert p == t * d;
    if d >= 0.0 {
      ScaleBetween(t, d, p);
    } else {
      ScaleBetween(t, -d, -p);
    }
  }

  /*
   * Products are handed to the arithmetic lemmas below as an extra argument
   * `p` with `p == a * b`, which keeps the solver on linear facts about `p`.
   */

  lemma MulNonneg(a: real, b: real)
    requires 0.0 <= a && 0.0 <= b
    ensures 0.0 <= a * b
  {
  }

  lemma MulPos(a: real, b: real)
    requires 0.0 < a && 0.0 < b
    ensures 0.0 < a * b
  {
  }

  /** `0 <= t * d <= d` for `t` in [0, 1] and `d >= 0`. */
  lemma ScaleBetween(t: real, d: real, p: real)
    requires 0.0 <= t <= 1.0 && d >= 0.0 && p == t * d
    ensures 0.0 <= p <= d
  {
    MulNonneg(t, d);
    MulNonneg(1.0 - t, d);
    assert (1.0 - t) * d == d - p;
  }

  /** `0 <= r * w < w` for `r` in [0, 1) and `w > 0`. */
  lemma ScaleBelow(r: real, w: real, p: real)
    requires 0.0 <= r < 1.0 && 0.0 < w && p == r * w
    ensures 0.0 <= p < w
  {
    MulNonneg(r, w);
    MulPos(1.0 - r, w);
    assert (1.0 - r) * w == w - p;
  }

  /** Where the quotient `q == a / d` by a positive `d` lies, compared with 0 and 1. */
  lemma DivBounds(a: real, d: real, q: real)
    requires d > 0.0 && q == a / d
    ensures 0.0 <= a ==> 0.0 <= q
    ensures a <= 0.0 ==> q <= 0.0
    ensures a <= d ==> q <= 1.0
    ensures d <= a ==> 1.0 <= q
  {
    assert q * d == a;
    if q < 0.0 { MulPos(-q, d); assert (-q) * d == -a; }
    if q > 1.0 { MulPos(q - 1.0, d); assert (q - 1.0) * d == a - d; }
  }

  /** `Math.min(Math.max(value, min), max)`. */
  function Clamp(value: real, min: real, max: real): (r: real)
    ensures r <= max
    ensures min <= max ==> min <= r
    ensures min <= value <= max ==> r == value
    ensures max < min ==> r == max
  {
    Min(Max(value, min), max)
  }

  lemma ClampIdempotent(value: real, min: real, max: real)
    ensures Clamp(Clamp(value, min, max), min, max) == Clamp(value, min, max)
  {
  }

  /** `Math.random() * (max - min) + min`, with the random draw `r` as an input. */
  function RandomRange(r: real, min: real, max: real): (x: real)
    ensures x == Lerp(min, max, r)
  {
    r * (max - min) + min
  }

  /** A draw in [0, 1) lands in [min, max). */
  lemma RandomRangeBounds(r: real, min: real, max: real)
    requires 0.0 <= r < 1.0 && min < max
    ensures min <= RandomRange(r, min, max) < max
  {
    ScaleBelow(r, max - min, RandomRange(r, min, max) - min);
  }

  /**
   * `((value - inMin) * (outMax - outMin)) / (inMax - inMin) + outMin`;
   * `None` when `inMin == inMax`, where JavaScript yields `NaN` or an infinity.
   */
  function MapRange(value: real, inMin: real, inMax: real, outMin: real, outMax: real): (r: Option<real>)
    ensures r.None? <==> inMin == inMax
  {
    if inMin == inMax then None
    else Some(((value - inMin) * (outMax - outMin)) / (inMax - inMin) + outMin)
  }

  lemma MapRangeEndpoints(inMin: real, inMax: real, outMin: real, outMax: real)
    requires inMin != inMax
    ensures MapRange(inMin, inMin, inMax, outMin, outMax) == Some(outMin)
    ensures MapRange(inMax, inMin, inMax, outMin, outMax) == Some(outMax)
  {
    var d := inMax - inMin;
    assert ((inMax - inMin) * (outMax - outMin)) / d == outMax - outMin;
  }

  /** `t * t * (3 - 2 * t)`, the smooth-step polynomial. */
  function Hermite(t: real): real { t * t * (3.0 - 2.0 * t) }

  lemma HermiteUnit(t: real)
    requires 0.0 <= t <= 1.0
    ensures 0.0 <= Hermite(t) <= 1.0
  {
    var sq := t * t;
    ScaleBetween(t, t, sq);
    MulNonneg(sq, 3.0 - 2.0 * t);
    var u := (1.0 - t) * (1.0 - t);
    MulNonneg(1.0 - t, 1.0 - t);
    MulNonneg(u, 1.0 + 2.0 * t);
    assert 1.0 - Hermite(t) == u * (1.0 + 2.0 * t);
  }

  /**
   * `smoothStep(edge0, edge1, x)`: the Hermite polynomial of
   * `clamp((x - edge0) / (edge1 - edge0), 0, 1)`. With `edge0 == edge1` the
   * quotient is an infinity, which the clamp sends to 0 or 1, except at
   * `x == edge0`, where it is `0 / 0` and the result is `NaN` (`None`).
   */
  function SmoothStep(edge0: real, edge1: real, x: real): (r: Option<real>)
    ensures r.None? <==> edge0 == edge1 && x == edge0
    ensures r.Some? ==> 0.0 <= r.value <= 1.0
  {
    if edge0 == edge1 then
      if x == edge0 then None
      else if x > edge0 then Some(Hermite(1.0))
      else Some(Hermite(0.0))
    else
      var t := Clamp((x - edge0) / (edge1 - edge0), 0.0, 1.0);
      HermiteUnit(t);
      Some(Hermite(t))
  }

  /** Below the lower edge the step is 0, above the upper edge it is 1. */
  lemma SmoothStepEdges(edge0: real, edge1: real, x: real)
    requires edge0 < edge1
    ensures x <= edge0 ==> SmoothStep(edge0, edge1, x) == Some(0.0)
    ensures x >= edge1 ==> SmoothStep(edge0, edge1, x) == Some(1.0)
  {
    DivBounds(x - edge0, edge1 - edge0, (x - edge0) / (edge1 - edge0));
  }

  /** The largest element, `Math.max(...s)` for non-empty `s`. */
  function SeqMax(s: seq<real>): (m: real)
    requires |s| > 0
    ensures m in s
    ensures forall i :: 0 <= i < |s| ==> s[i] <= m
  {
    if |s| == 1 then s[0] else Max(s[0], SeqMax(s[1..]))
  }

  /** The smallest element, `Math.min(...s)` for non-empty `s`. */
  function SeqMin(s: seq<real>): (m: real)
    requires |s| > 0
    ensures m in s
    ensures forall i :: 0 <= i < |s| ==> m <= s[i]
  {
    if |s| == 1 then s[0] else Min(s[0], SeqMin(s[1..]))
  }

  /** One element of `normalizeArray`: `(v - min) / (max - min)`, `NaN` when `min == max`. */
  function Normalized(v: real, min: real, max: real): Option<real> {
    if max == min then None else Some((v - min) / (max - min))
  }

  lemma NormalizedUnit(v: real, min: real, max: real)
    requires min <= v <= max && min < max
    ensures Normalized(v, min, max).Some?
    ensures 0.0 <= Normalized(v, min, max).value <= 1.0
    ensures v == min ==> Normalized(v, min, max).value == 0.0
    ensures v == max ==> Normalized(v, min, max).value == 1.0
  {
    DivBounds(v - min, max - min, (v - min) / (max - min));
  }

  /**
   * `arr.map(v => (v - min) / (max - min))` with `max`, `min` the extremes of
   * `arr`. An empty array maps to an empty one; when every element is equal
   * each quotient is `0 / 0`, `NaN` (`None`).
   */
  function NormalizeArray(arr: seq<real>): (r: seq<Option<real>>)
    ensures |r| == |arr|
  {
    if |arr| == 0 then []
    else
      var hi, lo := SeqMax(arr), SeqMin(arr);
      seq(|arr|, i requires 0 <= i < |arr| => Normalized(arr[i], lo, hi))
  }

  /** With distinct extremes every element lands in [0, 1], the minimum on 0 and the maximum on 1. */
  lemma NormalizeArrayRange(arr: seq<real>)
    requires |arr| > 0 && SeqMin(arr) < SeqMax(arr)
    ensures forall i :: 0 <= i < |arr| ==>
      NormalizeArray(arr)[i].Some? && 0.0 <= NormalizeArray(arr)[i].value <= 1.0
    ensures forall i :: 0 <= i < |arr| && arr[i] == SeqMin(arr) ==> NormalizeArray(arr)[i] == Some(0.0)
    ensures forall i :: 0 <= i < |arr| && arr[i] == SeqMax(arr) ==> NormalizeArray(arr)[i] == Some(1.0)
  {
    var hi, lo, r := SeqMax(arr), SeqMin(arr), NormalizeArray(arr);
    forall i | 0 <= i < |arr|
      ensures r[i].Some? && 0.0 <= r[i].value <= 1.0
      ensures arr[i] == lo ==> r[i] == Some(0.0)
      ensures arr[i] == hi ==> r[i] == Some(1.0)
    {
      NormalizedUnit(arr[i], lo, hi);
    }
  }

  /** All-equal input: every element becomes `NaN`. */
  lemma NormalizeArrayConstant(arr: seq<real>)
    requires |arr| > 0 && SeqMin(arr) == SeqMax(arr)
    ensures forall i :: 0 <= i < |arr| ==> NormalizeArray(arr)[i].None?
  {
  }
}
