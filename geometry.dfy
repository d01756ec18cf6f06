// Plane geometry and the small numeric helpers every component shares.
// Floating point values of the game are modelled as mathematical reals.
module Geometry {

  /** An axis-aligned float rectangle, `sf::FloatRect(left, top, width, height)`. */
  datatype Rect = Rect(left: real, top: real, width: real, height: real)
  {
    function Right(): real { left + width }
    function Bottom(): real { top + height }
  }

  /** An integer rectangle, `sf::IntRect`, used for animation frames. */
  datatype IntRect = IntRect(left: int, top: int, width: int, height: int)

  const ZeroIntRect := IntRect(0, 0, 0, 0)

  /**
   * Overlap of two rectangles. SFML's `FloatRect::intersects` is library code;
   * for rectangles with non-negative sizes it amounts to strict overlap of the
   * two intervals on both axes, which is what the model assumes.
   */
  predicate Intersects(a: Rect, b: Rect)
  {
    a.left < b.Right() && b.left < a.Right() &&
    a.top < b.Bottom() && b.top < a.Bottom()
  }

  lemma IntersectsSymmetric(a: Rect, b: Rect)
    ensures Intersects(a, b) <==> Intersects(b, a)
  {
  }

  function Max(a: real, b: real): (r: real)
    ensures r >= a && r >= b && (r == a || r == b)
  {
    if a >= b then a else b
  }

  function Min(a: real, b: real): (r: real)
    ensures r <= a && r <= b && (r == a || r == b)
  {
    if a <= b then a else b
  }

  function Abs(a: real): (r: real)
    ensures r >= 0.0 && (r == a || r == -a)
  {
    if a >= 0.0 then a else -a
  }

  function MaxInt(a: int, b: int): (r: int)
    ensures r >= a && r >= b && (r == a || r == b)
  {
    if a >= b then a else b
  }

  function MinInt(a: int, b: int): (r: int)
    ensures r <= a && r <= b && (r == a || r == b)
  {
    if a <= b then a else b
  }

  /** `std::clamp(v, lo, hi)` on integers. */
  function ClampInt(v: int, lo: int, hi: int): (r: int)
    requires lo <= hi
    ensures lo <= r <= hi
    ensures lo <= v <= hi ==> r == v
    ensures v < lo ==> r == lo
    ensures v > hi ==> r == hi
  {
    if v < lo then lo else if v > hi then hi else v
  }

  /** `static_cast<int>(std::round(x))` for a non-negative x: halves round up. */
  function RoundHalfUp(x: real): (r: int)
    requires x >= 0.0
    ensures r >= 0
    ensures x - 0.5 < r as real <= x + 0.5
  {
    (x + 0.5).Floor
  }

  /** A draw of `std::uniform_real_distribution` normalised to [0, 1). */
  type Unit = u: real | 0.0 <= u < 1.0

  /** Values of `std::sin`: the model only relies on their range. */
  type Wave = w: real | -1.0 <= w <= 1.0

  /** `randomFloat(rng, lo, hi)`: the unit draw `u` scaled into [lo, hi). */
  function Scale(lo: real, hi: real, u: Unit): (r: real)
    ensures lo <= hi ==> lo <= r <= hi
    ensures lo < hi ==> r < hi
    ensures hi <= lo ==> hi <= r <= lo
  {
    var d := hi - lo;
    ProductBounds(d, u);
    lo + d * u
  }

  /** The one piece of non-linear arithmetic `Scale` needs. */
  lemma ProductBounds(d: real, u: Unit)
    ensures d >= 0.0 ==> 0.0 <= d * u <= d
    ensures d > 0.0 ==> d * u < d
    ensures d <= 0.0 ==> d <= d * u <= 0.0
  {
  }
}
