/** Numeric building blocks shared by the noise tables and both worker
    pipelines: the transcendental functions of JavaScript's `Math` object as
    uninterpreted parameters, the truncating floating-point remainder `%`,
    and the clamping byte conversion of a `Uint8ClampedArray`. */
module Numeric {

  /** `Math.PI`, `Math.sqrt`, `Math.cos`, `Math.sin`, `Math.acos` and
      `Math.exp`, supplied from outside: the model only uses the laws in
      `Lawful` below, never a particular implementation. */
  datatype Transcendentals = Transcendentals(
    pi: real,
    sqrt: real -> real,
    cos: real -> real,
    sin: real -> real,
    acos: real -> real,
    exp: real -> real)

  /** The properties of the transcendental functions the code relies on. */
  ghost predicate Lawful(m: Transcendentals) {
    && 3.14 < m.pi < 3.15
    && (forall x :: 0.0 <= x ==> 0.0 <= m.sqrt(x) && m.sqrt(x) * m.sqrt(x) == x)
    && (forall a :: m.cos(a) * m.cos(a) + m.sin(a) * m.sin(a) == 1.0)
    && (forall x :: 0.0 < m.exp(x))
    && (forall x :: x <= 0.0 ==> m.exp(x) <= 1.0)
    && (forall x :: -1.0 <= x <= 1.0 ==> 0.0 <= m.acos(x) <= m.pi)
  }

  /** A value returned by the seeded `random()` / `prng()` generator,
      which the model takes as a stream of draws in [0, 1). */
  predicate IsDraw(r: real) {
    0.0 <= r < 1.0
  }

  predicate AllDraws(draws: seq<real>) {
    forall k :: 0 <= k < |draws| ==> IsDraw(draws[k])
  }

  /** A point or direction in 3-space: the `{x, y, z}` objects of the source. */
  datatype Vec3 = Vec3(x: real, y: real, z: real)

  function Dot(a: Vec3, b: Vec3): real {
    a.x * b.x + a.y * b.y + a.z * b.z
  }

  function NormSquared(a: Vec3): real {
    Dot(a, a)
  }

  predicate IsUnit(a: Vec3) {
    NormSquared(a) == 1.0
  }

  function Abs(x: real): real {
    if x < 0.0 then -x else x
  }

  function Max(a: real, b: real): real {
    if a < b then b else a
  }

  function Min(a: real, b: real): real {
    if a < b then a else b
  }

  /** The dot product of two unit vectors lies in [-1, 1]:
      0 <= |a - b|^2 = 2 - 2 a.b and 0 <= |a + b|^2 = 2 + 2 a.b. */
  lemma UnitDotBounded(a: Vec3, b: Vec3)
    requires IsUnit(a) && IsUnit(b)
    ensures -1.0 <= Dot(a, b) <= 1.0
  {
    UnitDotComponents(a.x, a.y, a.z, b.x, b.y, b.z);
  }

  lemma UnitDotComponents(a1: real, a2: real, a3: real, b1: real, b2: real, b3: real)
    requires a1 * a1 + a2 * a2 + a3 * a3 == 1.0 && b1 * b1 + b2 * b2 + b3 * b3 == 1.0
    ensures -1.0 <= a1 * b1 + a2 * b2 + a3 * b3 <= 1.0
  {
    TwoProductBound(a1, b1);
    TwoProductBound(a2, b2);
    TwoProductBound(a3, b3);
  }

  /** `|2 p q| <= p^2 + q^2`, from `(p - q)^2 >= 0` and `(p + q)^2 >= 0`. */
  lemma TwoProductBound(p: real, q: real)
    ensures 2.0 * (p * q) <= p * p + q * q
    ensures -(p * p + q * q) <= 2.0 * (p * q)
  {
    SquareNonneg(p - q);
    SquareNonneg(p + q);
    assert (p - q) * (p - q) == p * p - 2.0 * (p * q) + q * q;
    assert (p + q) * (p + q) == p * p + 2.0 * (p * q) + q * q;
  }

  /** `v` divided by `Math.sqrt` of its squared length, as the source
      normalises the light vector and the surface normal: a unit vector
      pointing the same way as `v`, which it scales back to `v` by the
      (positive) length of `v`. */
  function Normalize(m: Transcendentals, v: Vec3): (r: Vec3)
    requires Lawful(m)
    requires NormSquared(v) > 0.0
    ensures IsUnit(r)
    ensures var len := m.sqrt(NormSquared(v));
      && 0.0 < len && len * len == NormSquared(v)
      && r.x * len == v.x && r.y * len == v.y && r.z * len == v.z
  {
    var mag := m.sqrt(NormSquared(v));
    ScaledToUnit(v, mag);
    Vec3(v.x / mag, v.y / mag, v.z / mag)
  }

  lemma ScaledToUnit(v: Vec3, mag: real)
    requires 0.0 <= mag && mag * mag == NormSquared(v) > 0.0
    ensures IsUnit(Vec3(v.x / mag, v.y / mag, v.z / mag))
  {
    var r := Vec3(v.x / mag, v.y / mag, v.z / mag);
    assert mag != 0.0;
    assert r.x * mag == v.x && r.y * mag == v.y && r.z * mag == v.z;
    assert (r.x * mag) * (r.x * mag) == (r.x * r.x) * (mag * mag);
    assert (r.y * mag) * (r.y * mag) == (r.y * r.y) * (mag * mag);
    assert (r.z * mag) * (r.z * mag) == (r.z * r.z) * (mag * mag);
    assert NormSquared(r) * (mag * mag) == (r.x * r.x + r.y * r.y + r.z * r.z) * (mag * mag);
    assert NormSquared(r) * (mag * mag) == NormSquared(v);
    var e := NormSquared(r) - 1.0;
    assert e * (mag * mag) == 0.0;
    assert e == (e * (mag * mag)) / (mag * mag);
  }

  /** JavaScript's `Math.trunc`: rounds toward zero. */
  function Trunc(q: real): (k: int)
    ensures 0.0 <= q ==> 0 <= k && k as real <= q < k as real + 1.0
    ensures q < 0.0 ==> k <= 0 && k as real - 1.0 < q <= k as real
  {
    if 0.0 <= q then q.Floor else -((-q).Floor)
  }

  /** JavaScript's `%` on numbers: the remainder of truncating division, so
      the sign follows the dividend (unlike Dafny's Euclidean `%`). */
  function TruncRem(a: real, n: real): (r: real)
    requires 0.0 < n
    ensures 0.0 <= a ==> 0.0 <= r < n
    ensures a < 0.0 ==> -n < r <= 0.0
    ensures -n < a < n ==> r == a
    ensures a - r == n * (Trunc(a / n) as real)
  {
    var k := Trunc(a / n);
    TruncQuotient(a, n, k);
    if -n < a < n then SmallQuotient(a, n); a - n * (k as real)
    else a - n * (k as real)
  }

  lemma TruncQuotient(a: real, n: real, k: int)
    requires 0.0 < n && k == Trunc(a / n)
    ensures 0.0 <= a ==> 0.0 <= a - n * (k as real) < n
    ensures a < 0.0 ==> -n < a - n * (k as real) <= 0.0
  {
    var q, kr := a / n, k as real;
    assert q * n == a;
    if 0.0 <= a {
      var p := ScaleFraction(q - kr, n);
      assert p == a - n * kr;
    } else {
      var p := ScaleFraction(kr - q, n);
      assert p == n * kr - a;
    }
  }

  /** `d * n` for a fraction `d` in [0, 1) lies in [0, n). */
  lemma ScaleFraction(d: real, n: real) returns (p: real)
    requires 0.0 <= d < 1.0 && 0.0 < n
    ensures p == d * n && 0.0 <= p < n
  {
    p := d * n;
  }

  /** A dividend smaller in magnitude than the divisor truncates to 0. */
  lemma SmallQuotient(a: real, n: real)
    requires 0.0 < n && -n < a < n
    ensures Trunc(a / n) == 0
  {
    var q := a / n;
    assert q * n == a;
    if 1.0 <= q {
      var lo, hi := ScaleMonotone(1.0, q, n);
    } else if q <= -1.0 {
      var lo, hi := ScaleMonotone(q, -1.0, n);
    }
  }

  lemma ScaleMonotoneNonneg(x: real, y: real, n: real) returns (px: real, py: real)
    requires x <= y && 0.0 <= n
    ensures px == x * n && py == y * n && px <= py
  {
    px, py := x * n, y * n;
    if n > 0.0 {
      var a, b := ScaleMonotone(x, y, n);
    }
  }

  lemma ScaleMonotone(x: real, y: real, n: real) returns (px: real, py: real)
    requires x <= y && 0.0 < n
    ensures px == x * n && py == y * n && px <= py
  {
    px, py := x * n, y * n;
  }

  /** Dividing by a positive number keeps the order, in both directions. */
  lemma SelfQuotient(d: real)
    requires d != 0.0
    ensures d / d == 1.0
  {
  }

  lemma QuotientOrder(a: real, b: real, d: real)
    requires 0.0 < d
    ensures a <= b <==> a / d <= b / d
  {
    assert (a / d) * d == a && (b / d) * d == b;
    if a / d <= b / d {
      var p, q := ScaleMonotone(a / d, b / d, d);
    } else {
      var p, q := ScaleMonotone(b / d, a / d, d);
    }
  }

  /** The product of two positive numbers, named. */
  lemma PositiveProduct(a: real, b: real) returns (p: real)
    requires 0.0 < a && 0.0 < b
    ensures p == a * b && 0.0 < p
  {
    p := a * b;
    MulPositive(a, b);
  }

  lemma MulPositive(a: real, b: real)
    requires 0.0 < a && 0.0 < b
    ensures 0.0 < a * b
  {
  }

  /** A sum of three squares whose last term is nonzero is positive. */
  lemma SumSquaresPositive(x: real, y: real, z: real)
    requires z != 0.0
    ensures 0.0 < x * x + y * y + z * z
  {
    SquareNonneg(x);
    SquareNonneg(y);
    SquarePositive(z);
  }

  /** The square of a nonzero number is positive. */
  lemma SquarePositive(z: real)
    requires z != 0.0
    ensures 0.0 < z * z
  {
    if z < 0.0 {
      MulPositive(-z, -z);
      assert (-z) * (-z) == z * z;
    } else {
      MulPositive(z, z);
    }
  }

  /** `a^2 >= lo^2` for `a >= lo >= 0`. */
  lemma SquareAtLeast(a: real, lo: real)
    requires 0.0 <= lo <= a
    ensures lo * lo <= a * a
  {
    var p, q := ScaleMonotoneNonneg(lo, a, lo);
    var u, v := ScaleMonotoneNonneg(lo, a, a);
  }

  /** `a^2 <= hi^2` for `0 <= a <= hi`. */
  lemma SquareAtMost(a: real, hi: real)
    requires 0.0 <= a <= hi
    ensures a * a <= hi * hi
  {
    SquareAtLeast(hi, a);
  }

  /** `lo^2 <= a^2` when `a <= -lo <= 0`. */
  lemma SquareOfNegative(a: real, lo: real)
    requires 0.0 <= lo <= -a
    ensures lo * lo <= a * a
  {
    SquareAtLeast(-a, lo);
    assert (-a) * (-a) == a * a;
  }

  lemma SquareNonneg(a: real)
    ensures 0.0 <= a * a
  {
    if a < 0.0 {
      SquareOfNegative(a, 0.0);
    } else {
      SquareAtLeast(a, 0.0);
    }
  }

  /** `lerp(a, b, t) = a * (1 - t) + b * t`: `a` at 0, `b` at 1, and
      between the two for `t` in [0, 1]. */
  function Lerp(a: real, b: real, t: real): (r: real)
    ensures t == 0.0 ==> r == a
    ensures t == 1.0 ==> r == b
    ensures 0.0 <= t <= 1.0 ==> Min(a, b) <= r <= Max(a, b)
  {
    LerpBetween(a, b, t);
    a * (1.0 - t) + b * t
  }

  lemma LerpBetween(a: real, b: real, t: real)
    ensures 0.0 <= t <= 1.0 ==> Min(a, b) <= a * (1.0 - t) + b * t <= Max(a, b)
  {
    if 0.0 <= t <= 1.0 {
      assert a * (1.0 - t) + b * t == a + (b - a) * t;
      if a <= b {
        var lo, mid := ScaleMonotoneNonneg(0.0, t, b - a);
        var mid', hi := ScaleMonotoneNonneg(t, 1.0, b - a);
      } else {
        var lo, mid := ScaleMonotoneNonneg(0.0, t, a - b);
        var mid', hi := ScaleMonotoneNonneg(t, 1.0, a - b);
        assert (b - a) * t == -(t * (a - b));
      }
    }
  }

  /** The conversion performed when a number is stored into a
      `Uint8ClampedArray`: clamp to [0, 255], then round to the nearest
      integer with ties going to the even neighbour. */
  function ToUint8Clamped(v: real): (b: int)
    ensures 0 <= b <= 255
    ensures v <= 0.0 ==> b == 0
    ensures 255.0 <= v ==> b == 255
    ensures 0.0 <= v <= 255.0 ==> -0.5 <= b as real - v <= 0.5
    ensures v.Floor as real == v && 0.0 <= v <= 255.0 ==> b == v.Floor
  {
    if v <= 0.0 then 0
    else if 255.0 <= v then 255
    else
      var f := v.Floor;
      if f as real + 0.5 < v then f + 1
      else if v < f as real + 0.5 then f
      else if f % 2 == 0 then f else f + 1
  }
}

/** Row-major pixel indexing `y * width + x`, shared by every per-pixel loop. */
module Grid {

  function Index(x: int, y: int, width: int): int {
    y * width + x
  }

  lemma IndexInBounds(x: int, y: int, width: int, height: int)
    requires 0 <= x < width && 0 <= y < height
    ensures 0 <= Index(x, y, width) < width * height
    ensures Index(x, y, width) + 1 <= width * height
  {
    assert y * width <= (height - 1) * width;
  }

  /** Row `y` of a `width * height` grid ends inside it. */
  lemma RowFits(y: int, width: int, height: int)
    requires 0 <= y < height && 0 <= width
    ensures 0 <= y * width && y * width + width <= width * height
    ensures (y + 1) * width == y * width + width
  {
    var rest := height - (y + 1);
    assert (y + 1) * width == y * width + width;
    assert width * height == (y + 1) * width + rest * width;
    assert 0 <= rest * width;
  }

  /** The pixel index determines the column and the row again. */
  lemma IndexDecompose(x: int, y: int, width: int)
    requires 0 <= x < width && 0 <= y
    ensures Index(x, y, width) % width == x
    ensures Index(x, y, width) / width == y
  {
    var i := Index(x, y, width);
    var q, r := i / width, i % width;
    assert q * width + r == y * width + x;
    assert (q - y) * width == x - r;
    if q > y {
      MulAtLeast(q - y, width);
    } else if q < y {
      MulAtLeast(y - q, width);
    }
  }

  lemma MulAtLeast(k: int, width: int)
    requires 1 <= k && 0 < width
    ensures k * width >= width
  {
  }

  /** A flat index inside a `width * height` grid splits into a column
      and a row inside the grid, which index it again. */
  lemma IndexSplit(k: int, width: int, height: int)
    requires 0 <= width && 0 <= height && 0 <= k < width * height
    ensures 0 < width && 0 < height
    ensures 0 <= k % width < width && 0 <= k / width < height
    ensures Index(k % width, k / width, width) == k
  {
    assert 0 < width * height;
    var q, r := k / width, k % width;
    assert q * width + r == k;
    assert (height - q) * width > 0;
  }

}
