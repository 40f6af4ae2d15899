/** The three.js MathUtils helpers the scene relies on, over exact reals,
    plus JavaScript's Math.round and an opaque colour token. */
module MathUtils {

  /** A colour as the hex string the source writes it with; its channels are not modelled. */
  datatype Colour = Colour(hex: string)

  /** The value held by a three.js Color that is lerped in place every frame:
      either a colour that was set outright, or the result of moving an earlier
      value toward a target colour by a factor. */
  datatype Tint = Solid(colour: Colour) | Blend(from: Tint, toward: Colour, factor: real)

  /** MathUtils.lerp(x, y, t). */
  function Lerp(x: real, y: real, t: real): (r: real)
    ensures t == 0.0 ==> r == x
    ensures t == 1.0 ==> r == y
  {
    x + (y - x) * t
  }

  /** MathUtils.clamp(v, lo, hi) = max(lo, min(hi, v)). */
  function Clamp(v: real, lo: real, hi: real): (r: real)
    requires lo <= hi
    ensures lo <= r <= hi
    ensures lo <= v <= hi ==> r == v
    ensures v < lo ==> r == lo
    ensures hi < v ==> r == hi
  {
    if v < lo then lo else if hi < v then hi else v
  }

  /** MathUtils.mapLinear(x, a1, a2, b1, b2): the affine map sending a1 to b1 and a2 to b2. */
  function MapLinear(x: real, a1: real, a2: real, b1: real, b2: real): (r: real)
    requires a1 != a2
    ensures x == a1 ==> r == b1
    ensures x == a2 ==> r == b2
  {
    QuotientCancels(a2 - a1, b2 - b1);
    b1 + (x - a1) * (b2 - b1) / (a2 - a1)
  }

  /** Dividing a product by one of its non-zero factors gives the other factor. */
  lemma QuotientCancels(q: real, p: real)
    requires q != 0.0
    ensures q * p / q == p
  {
  }

  /** Math.round: the nearest integer, halves rounded toward +infinity. */
  function Round(x: real): (n: int)
    ensures x - 0.5 < n as real <= x + 0.5
  {
    (x + 0.5).Floor
  }

  /** A lerp whose factor lies in [0, 1] is a convex combination of its ends. */
  lemma LerpBetween(x: real, y: real, t: real)
    requires 0.0 <= t <= 1.0
    ensures x <= y ==> x <= Lerp(x, y, t) <= y
    ensures y <= x ==> y <= Lerp(x, y, t) <= x
    ensures Lerp(x, y, t) - y == (x - y) * (1.0 - t)
  {
    var d := y - x;
    assert Lerp(x, y, t) == x + d * t;
    if x <= y {
      ScaleDown(d, t);
    } else {
      ScaleDown(-d, t);
      assert (-d) * t == -(d * t);
    }
  }

  /** Scaling a non-negative quantity by a factor in [0, 1] keeps it between 0 and itself. */
  lemma ScaleDown(d: real, t: real)
    requires 0.0 <= d && 0.0 <= t <= 1.0
    ensures 0.0 <= d * t <= d
  {
    assert d * (1.0 - t) >= 0.0;
  }
}
