/**
 * The small part of UnityEngine's value types and Mathf helpers that the
 * scripts rely on, over real numbers. Unity's Lerp and InverseLerp clamp
 * their parameter to [0,1]; that clamping is what makes most of the range
 * properties of the scripts hold, so it is written out here.
 */
module UnityMath {

  datatype Option<T> = None | Some(value: T)

  /** UnityEngine.Vector3. */
  datatype Vec3 = Vec3(x: real, y: real, z: real)

  /** Mathf.Epsilon, the smallest positive single-precision value. */
  const Epsilon: real := 1.401298e-45

  function Abs(v: real): (r: real)
    ensures r >= 0.0
    ensures r == v || r == -v
  {
    if v < 0.0 then -v else v
  }

  /** Mathf.Clamp01. */
  function Clamp01(v: real): (r: real)
    ensures 0.0 <= r <= 1.0
    ensures 0.0 <= v <= 1.0 ==> r == v
    ensures v <= 0.0 ==> r == 0.0
    ensures v >= 1.0 ==> r == 1.0
  {
    if v < 0.0 then 0.0 else if v > 1.0 then 1.0 else v
  }

  /** Mathf.InverseLerp: where `v` lies between `a` and `b`, clamped; 0 when a == b. */
  function InverseLerp(a: real, b: real, v: real): (r: real)
    ensures 0.0 <= r <= 1.0
    ensures a < b && v <= a ==> r == 0.0
    ensures a < b && v >= b ==> r == 1.0
  {
    if a == b then 0.0
    else if a < b then
      QuotientBounds(v - a, b - a);
      Clamp01((v - a) / (b - a))
    else Clamp01((v - a) / (b - a))
  }

  /** For a positive divisor, the sign of a quotient follows the dividend and it reaches 1 at the divisor. */
  lemma QuotientBounds(n: real, d: real)
    requires d > 0.0
    ensures n <= 0.0 ==> n / d <= 0.0
    ensures n >= d ==> n / d >= 1.0
  {
    var q := n / d;
    assert q * d == n;
    if n <= 0.0 && q > 0.0 {
      assert false;
    }
    if n >= d && q < 1.0 {
      assert false;
    }
  }

  /** `r` lies between `a` and `b`, in whichever order they come. */
  predicate Between(r: real, a: real, b: real)
  {
    (a <= b && a <= r <= b) || (b <= a && b <= r <= a)
  }

  /** Mathf.Lerp: a + (b - a) * Clamp01(t). */
  function Lerp(a: real, b: real, t: real): (r: real)
    ensures Between(r, a, b)
    ensures t <= 0.0 ==> r == a
    ensures t >= 1.0 ==> r == b
  {
    var c := Clamp01(t);
    var d := b - a;
    UnitScale(d, c);
    a + d * c
  }

  /** Scaling by a factor in [0,1] keeps a value between 0 and itself, and 0 and 1 are the ends. */
  lemma UnitScale(d: real, c: real)
    requires 0.0 <= c <= 1.0
    ensures Between(d * c, 0.0, d)
    ensures c == 0.0 ==> d * c == 0.0
    ensures c == 1.0 ==> d * c == d
  {
    if d >= 0.0 {
      ScaleNonNegative(d, c);
    } else {
      ScaleNonNegative(-d, c);
      assert (-d) * c == -(d * c);
    }
  }

  /** A non-negative value scaled by a factor in [0,1] stays between 0 and itself. */
  lemma ScaleNonNegative(d: real, c: real)
    requires d >= 0.0 && 0.0 <= c <= 1.0
    ensures 0.0 <= d * c <= d
  {
    assert d * c <= d * 1.0;
  }

  /** The product of two values in [0,1] is in [0,1]. */
  lemma UnitProduct(a: real, b: real)
    requires 0.0 <= a <= 1.0 && 0.0 <= b <= 1.0
    ensures 0.0 <= a * b <= 1.0
  {
    UnitScale(a, b);
  }

  lemma Clamp01Monotone(u: real, v: real)
    requires u <= v
    ensures Clamp01(u) <= Clamp01(v)
  {
  }

  /** InverseLerp over an increasing range is monotone in its value. */
  lemma InverseLerpMonotone(a: real, b: real, u: real, v: real)
    requires a < b && u <= v
    ensures InverseLerp(a, b, u) <= InverseLerp(a, b, v)
  {
    QuotientMonotone(u - a, v - a, b - a);
    Clamp01Monotone((u - a) / (b - a), (v - a) / (b - a));
  }

  lemma QuotientMonotone(m: real, n: real, d: real)
    requires m <= n && d > 0.0
    ensures m / d <= n / d
  {
    var p, q := m / d, n / d;
    assert (q - p) * d == n - m;
    if p > q {
      ProductNonNegative(p - q, d);
      assert false;
    }
  }

  /** Lerp towards a larger end point is monotone in its parameter. */
  lemma LerpMonotone(a: real, b: real, s: real, t: real)
    requires a <= b && s <= t
    ensures Lerp(a, b, s) <= Lerp(a, b, t)
  {
    var c, e := Clamp01(s), Clamp01(t);
    Clamp01Monotone(s, t);
    assert (b - a) * e - (b - a) * c == (b - a) * (e - c);
    ProductNonNegative(b - a, e - c);
  }

  lemma ProductNonNegative(x: real, y: real)
    requires x >= 0.0 && y >= 0.0
    ensures x * y >= 0.0
  {
  }
}
