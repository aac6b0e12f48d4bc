/** The simplex-noise sampler: a permutation table shuffled once from a
    stream of random numbers, doubled so that nested lookups never wrap,
    and the 2D, 3D and 4D samplers that hash simplex corners through it. */
module Simplex {
  import opened Numeric

  /** A 3D gradient direction `grad3[3 gi .. 3 gi + 2]` and a 4D one
      `grad4[4 gi .. 4 gi + 3]`. */
  datatype Dir3 = Dir3(a: int, b: int, c: int)
  datatype Dir4 = Dir4(a: int, b: int, c: int, d: int)

  /** The twelve 3D gradient directions: the midpoints of the edges of a
      cube. */
  const Grad3: seq<Dir3> := [
    Dir3(1, 1, 0), Dir3(-1, 1, 0), Dir3(1, -1, 0), Dir3(-1, -1, 0),
    Dir3(1, 0, 1), Dir3(-1, 0, 1), Dir3(1, 0, -1), Dir3(-1, 0, -1),
    Dir3(0, 1, 1), Dir3(0, -1, 1), Dir3(0, 1, -1), Dir3(0, -1, -1)]

  /** The thirty-two 4D gradient directions: one zero component and three
      of +-1. */
  const Grad4: seq<Dir4> := [
    Dir4(0, 1, 1, 1), Dir4(0, 1, 1, -1), Dir4(0, 1, -1, 1), Dir4(0, 1, -1, -1),
    Dir4(0, -1, 1, 1), Dir4(0, -1, 1, -1), Dir4(0, -1, -1, 1), Dir4(0, -1, -1, -1),
    Dir4(1, 0, 1, 1), Dir4(1, 0, 1, -1), Dir4(1, 0, -1, 1), Dir4(1, 0, -1, -1),
    Dir4(-1, 0, 1, 1), Dir4(-1, 0, 1, -1), Dir4(-1, 0, -1, 1), Dir4(-1, 0, -1, -1),
    Dir4(1, 1, 0, 1), Dir4(1, 1, 0, -1), Dir4(1, -1, 0, 1), Dir4(1, -1, 0, -1),
    Dir4(-1, 1, 0, 1), Dir4(-1, 1, 0, -1), Dir4(-1, -1, 0, 1), Dir4(-1, -1, 0, -1),
    Dir4(1, 1, 1, 0), Dir4(1, 1, -1, 0), Dir4(1, -1, 1, 0), Dir4(1, -1, -1, 0),
    Dir4(-1, 1, 1, 0), Dir4(-1, 1, -1, 0), Dir4(-1, -1, 1, 0), Dir4(-1, -1, -1, 0)]

  /** `i & 255`. Dafny's `%` is Euclidean, which agrees with the
      two's-complement bitwise AND for negative `i` as well. */
  function Low8(i: int): (r: int)
    ensures 0 <= r < 256
  {
    i % 256
  }

  /** The identity table `0, 1, ..., n - 1` the shuffle starts from. */
  function Identity(n: nat): (s: seq<int>)
    ensures |s| == n && forall k :: 0 <= k < n ==> s[k] == k
  {
    seq(n, k => k)
  }

  /** The partner drawn for position `i`: `floor((i + 1) * random())`. */
  function SwapIndex(i: nat, r: real): (n: int)
    requires IsDraw(r)
    ensures 0 <= n <= i
  {
    var v := (i + 1) as real * r;
    assert v < (i + 1) as real by {
      var pr := ScaleFraction(r, (i + 1) as real);
      assert pr == v;
    }
    v.Floor
  }

  function Swap(s: seq<int>, i: nat, j: nat): (t: seq<int>)
    requires i < |s| && j < |s|
    ensures |t| == |s|
  {
    s[i := s[j]][j := s[i]]
  }

  /** The Fisher-Yates passes for positions `i, i - 1, ..., 1` of `s`; the
      pass for position `i` consumes `draws[|s| - 1 - i]`. */
  function ShuffleFrom(s: seq<int>, draws: seq<real>, i: nat): (t: seq<int>)
    requires i < |s| && |s| - 1 <= |draws|
    requires forall k :: 0 <= k < |draws| ==> IsDraw(draws[k])
    decreases i
  {
    if i == 0 then s
    else ShuffleFrom(Swap(s, i, SwapIndex(i, draws[|s| - 1 - i])), draws, i - 1)
  }

  lemma SwapPermutes(s: seq<int>, i: nat, j: nat)
    requires i < |s| && j < |s|
    ensures multiset(Swap(s, i, j)) == multiset(s)
  {
    var t := s[i := s[j]];
    assert multiset(t) == multiset(s) - multiset{s[i]} + multiset{s[j]};
    assert t[j] == s[j] || i == j;
  }

  /** The shuffle only reorders: the result is a permutation of its input. */
  lemma {:induction false} ShufflePermutes(s: seq<int>, draws: seq<real>, i: nat)
    requires i < |s| && |s| - 1 <= |draws|
    requires forall k :: 0 <= k < |draws| ==> IsDraw(draws[k])
    ensures |ShuffleFrom(s, draws, i)| == |s|
    ensures multiset(ShuffleFrom(s, draws, i)) == multiset(s)
    decreases i
  {
    if i > 0 {
      var n := SwapIndex(i, draws[|s| - 1 - i]);
      SwapPermutes(s, i, n);
      ShufflePermutes(Swap(s, i, n), draws, i - 1);
    }
  }

  /** A permutation of `0 .. n - 1` holds only values in that range. */
  lemma PermutationInRange(s: seq<int>, n: nat)
    requires multiset(s) == multiset(Identity(n))
    ensures |s| == n
    ensures forall k :: 0 <= k < |s| ==> 0 <= s[k] < n
  {
    assert |s| == |multiset(s)| == |multiset(Identity(n))| == n;
    forall k | 0 <= k < |s|
      ensures 0 <= s[k] < n
    {
      assert s[k] in multiset(s);
      assert s[k] in multiset(Identity(n));
      assert s[k] in Identity(n);
    }
  }

  /** A permutation of `0 .. n - 1` holds each value exactly once. */
  lemma PermutationDistinct(s: seq<int>, n: nat, j: nat, k: nat)
    requires multiset(s) == multiset(Identity(n))
    requires j < k < |s|
    ensures s[j] != s[k]
  {
    if s[j] == s[k] {
      var v := s[j];
      var w := s[..j] + [v] + s[j + 1..];
      assert s == w;
      assert v in multiset(s[j + 1..]) by {
        assert s[j + 1..][k - j - 1] == v;
      }
      assert multiset(s)[v] >= 2 by {
        assert multiset(w) == multiset(s[..j]) + multiset{v} + multiset(s[j + 1..]);
      }
      IdentityOnce(n, v);
    }
  }

  lemma IdentityOnce(n: nat, v: int)
    ensures multiset(Identity(n))[v] <= 1
  {
    if n > 0 {
      assert Identity(n) == Identity(n - 1) + [n - 1];
      IdentityOnce(n - 1, v);
      assert n - 1 !in Identity(n - 1);
    }
  }

  // ---------------------------------------------------------------------
  // Corner traversal: which simplex corners follow the cell origin.
  // ---------------------------------------------------------------------

  datatype Offset2 = Offset2(i: int, j: int)
  datatype Offset3 = Offset3(i: int, j: int, k: int)
  datatype Offset4 = Offset4(i: int, j: int, k: int, l: int)

  /** The second and third corners of a 3D simplex. */
  datatype Corners3 = Corners3(second: Offset3, third: Offset3)

  /** The second, third and fourth corners of a 4D simplex. */
  datatype Corners4 = Corners4(second: Offset4, third: Offset4, fourth: Offset4)

  predicate IsBit(b: int) {
    b == 0 || b == 1
  }

  predicate Bits3(o: Offset3) {
    IsBit(o.i) && IsBit(o.j) && IsBit(o.k)
  }

  predicate Bits4(o: Offset4) {
    IsBit(o.i) && IsBit(o.j) && IsBit(o.k) && IsBit(o.l)
  }

  function Weight3(o: Offset3): int {
    o.i + o.j + o.k
  }

  function Weight4(o: Offset4): int {
    o.i + o.j + o.k + o.l
  }

  predicate Below3(a: Offset3, b: Offset3) {
    a.i <= b.i && a.j <= b.j && a.k <= b.k
  }

  predicate Below4(a: Offset4, b: Offset4) {
    a.i <= b.i && a.j <= b.j && a.k <= b.k && a.l <= b.l
  }

  /** The middle corner of a 2D simplex: one step along x when the
      offset from the cell origin lies below the diagonal, else along y. */
  function Corner2D(x0: real, y0: real): (c: Offset2)
    ensures IsBit(c.i) && IsBit(c.j) && c.i + c.j == 1
    ensures c.i == 1 <==> x0 > y0
  {
    if x0 > y0 then Offset2(1, 0) else Offset2(0, 1)
  }

  /** The middle corners of a 3D simplex. The second corner steps along
      the axis with the largest offset, the third corner along every axis
      except the one with the smallest offset. */
  function Corner3D(x0: real, y0: real, z0: real): (c: Corners3)
    ensures Bits3(c.second) && Bits3(c.third)
    ensures Weight3(c.second) == 1 && Weight3(c.third) == 2
    ensures Below3(c.second, c.third)
    ensures c.second.i == 1 ==> x0 >= y0 && x0 >= z0
    ensures c.second.j == 1 ==> y0 > x0 && y0 >= z0
    ensures c.second.k == 1 ==> z0 > x0 && z0 > y0
    ensures c.third.i == 0 ==> x0 < y0 && x0 < z0
    ensures c.third.j == 0 ==> y0 <= x0 && y0 < z0
    ensures c.third.k == 0 ==> z0 <= x0 && z0 <= y0
  {
    if x0 >= y0 then
      if y0 >= z0 then Corners3(Offset3(1, 0, 0), Offset3(1, 1, 0))
      else if x0 >= z0 then Corners3(Offset3(1, 0, 0), Offset3(1, 0, 1))
      else Corners3(Offset3(0, 0, 1), Offset3(1, 0, 1))
    else
      if y0 < z0 then Corners3(Offset3(0, 0, 1), Offset3(0, 1, 1))
      else if x0 < z0 then Corners3(Offset3(0, 1, 0), Offset3(0, 1, 1))
      else Corners3(Offset3(0, 1, 0), Offset3(1, 1, 0))
  }

  /** The 4D comparison code
      `c = 32[x0>y0] + 16[x0>z0] + 8[y0>z0] + 4[x0>w0] + 2[y0>w0] + [z0>w0]`. */
  function Code4D(x0: real, y0: real, z0: real, w0: real): (c: int)
    ensures 0 <= c < 64
  {
    (if x0 > y0 then 32 else 0) + (if x0 > z0 then 16 else 0) + (if y0 > z0 then 8 else 0)
    + (if x0 > w0 then 4 else 0) + (if y0 > w0 then 2 else 0) + (if z0 > w0 then 1 else 0)
  }

  /** The middle corners of a 4D simplex as `simplex-noise.js` computes
      them: all three are read from bits 1, 2, 4 and 8 of the comparison
      code, so they are the same corner. */
  function Corners4D(x0: real, y0: real, z0: real, w0: real): (c: Corners4)
    ensures Bits4(c.second) && c.second == c.third == c.fourth
    ensures c.second.i == 1 <==> z0 > w0
    ensures c.second.j == 1 <==> y0 > w0
    ensures c.second.k == 1 <==> x0 > w0
    ensures c.second.l == 1 <==> y0 > z0
  {
    var code := Code4D(x0, y0, z0, w0);
    var o := Offset4(code % 2, (code / 2) % 2, (code / 4) % 2, (code / 8) % 2);
    Corners4(o, o, o)
  }

  /** At the cell origin itself the as-written traversal visits the origin
      three more times: the second, third and fourth corners coincide with
      the first, so the five-corner sum degenerates. */
  lemma Corners4DCollapse()
    ensures Corners4D(0.0, 0.0, 0.0, 0.0).second == Offset4(0, 0, 0, 0)
    ensures Corners4D(0.0, 0.0, 0.0, 0.0).fourth == Offset4(0, 0, 0, 0)
  {
  }

  /** For no input do the as-written middle corners have one, two and
      three unit steps, as the corners of a simplex must. */
  lemma Corners4DNeverSimplex(x0: real, y0: real, z0: real, w0: real)
    ensures !(Weight4(Corners4D(x0, y0, z0, w0).second) == 1
              && Weight4(Corners4D(x0, y0, z0, w0).third) == 2)
  {
  }

  /** The ranks of the four axes in the reference 4D simplex noise: how
      many of the other offsets each one beats, ties going to the later
      axis. They are 0, 1, 2 and 3 in some order. */
  function Ranks4D(x0: real, y0: real, z0: real, w0: real): (r: Offset4)
    ensures DistinctRanks(r)
  {
    Offset4(
      (if x0 > y0 then 1 else 0) + (if x0 > z0 then 1 else 0) + (if x0 > w0 then 1 else 0),
      (if x0 > y0 then 0 else 1) + (if y0 > z0 then 1 else 0) + (if y0 > w0 then 1 else 0),
      (if x0 > z0 then 0 else 1) + (if y0 > z0 then 0 else 1) + (if z0 > w0 then 1 else 0),
      (if x0 > w0 then 0 else 1) + (if y0 > w0 then 0 else 1) + (if z0 > w0 then 0 else 1))
  }

  predicate DistinctRanks(r: Offset4) {
    && 0 <= r.i <= 3 && 0 <= r.j <= 3 && 0 <= r.k <= 3 && 0 <= r.l <= 3
    && r.i != r.j && r.i != r.k && r.i != r.l
    && r.j != r.k && r.j != r.l && r.k != r.l
  }

  /** Exactly `4 - n` of four distinct ranks in 0..3 are at least `n`. */
  lemma RankCount(r: Offset4, n: int)
    requires DistinctRanks(r) && 1 <= n <= 3
    ensures StepIf(r.i >= n) + StepIf(r.j >= n) + StepIf(r.k >= n) + StepIf(r.l >= n) == 4 - n
  {
    if n == 1 {
      assert StepIf(r.i >= n) == 1 - StepIf(r.i == 0);
    }
  }

  /** The axes whose rank is at least `n`, as a unit-step offset. */
  function RankedStep(r: Offset4, n: int): (o: Offset4)
    requires DistinctRanks(r) && 1 <= n <= 3
    ensures Bits4(o) && Weight4(o) == 4 - n
  {
    RankCount(r, n);
    Offset4(StepIf(r.i >= n), StepIf(r.j >= n), StepIf(r.k >= n), StepIf(r.l >= n))
  }

  /** Lowering the rank threshold only adds steps. */
  lemma RankedStepsNest(r: Offset4, n: int)
    requires DistinctRanks(r) && 2 <= n <= 3
    ensures Below4(RankedStep(r, n), RankedStep(r, n - 1))
  {
  }

  /** The corner traversal of the reference 4D simplex noise: corner `n`
      (for n = 1, 2, 3) steps along the axes of rank at least `4 - n`. */
  function Corners4DRanked(x0: real, y0: real, z0: real, w0: real): (c: Corners4)
    ensures Bits4(c.second) && Bits4(c.third) && Bits4(c.fourth)
    ensures Weight4(c.second) == 1 && Weight4(c.third) == 2 && Weight4(c.fourth) == 3
    ensures Below4(c.second, c.third) && Below4(c.third, c.fourth)
  {
    var r := Ranks4D(x0, y0, z0, w0);
    RankedStepsNest(r, 3);
    RankedStepsNest(r, 2);
    Corners4(RankedStep(r, 3), RankedStep(r, 2), RankedStep(r, 1))
  }

  function StepIf(b: bool): int {
    if b then 1 else 0
  }

  // ---------------------------------------------------------------------
  // Corner contributions.
  // ---------------------------------------------------------------------

  /** The contribution of one corner: nothing outside the falloff radius
      (`t < 0`), `t^4` times the gradient's dot product inside it. */
  function CornerTerm(t: real, dot: real): (n: real)
    ensures t < 0.0 ==> n == 0.0
    ensures 0.0 <= t ==> n == (t * t) * (t * t) * dot
  {
    if t < 0.0 then 0.0 else (t * t) * (t * t) * dot
  }

  lemma CornerTermBounded(t: real, dot: real, tmax: real, dmax: real)
    requires t <= tmax && 0.0 <= tmax && 0.0 <= dmax
    requires 0.0 <= t ==> Abs(dot) <= dmax
    ensures Abs(CornerTerm(t, dot)) <= (tmax * tmax) * (tmax * tmax) * dmax
  {
    var t2, m2 := ScaleMonotoneNonneg(0.0, tmax, tmax);
    var m4, m4' := ScaleMonotoneNonneg(0.0, m2, m2);
    var bound, b' := ScaleMonotoneNonneg(0.0, m4', dmax);
    if 0.0 <= t {
      var a, b := ScaleMonotoneNonneg(t, tmax, t);
      var c, d := ScaleMonotoneNonneg(t, tmax, tmax);
      var e, f := ScaleMonotoneNonneg(t * t, tmax * tmax, t * t);
      var g, h := ScaleMonotoneNonneg(t * t, tmax * tmax, tmax * tmax);
      var t4 := (t * t) * (t * t);
      assert 0.0 <= t4 <= m4';
      assert Abs(t4 * dot) == t4 * Abs(dot);
      var u, v := ScaleMonotoneNonneg(Abs(dot), dmax, t4);
      var w, x := ScaleMonotoneNonneg(t4, m4', dmax);
    }
  }

  /** `|g * x| <= |x|` for a gradient component `g` in {-1, 0, 1}. */
  lemma UnitComponent(g: int, x: real)
    requires -1 <= g <= 1
    ensures Abs(g as real * x) <= Abs(x)
  {
    if g == -1 {
      assert g as real * x == -x;
    } else if g == 0 {
      assert g as real * x == 0.0;
    } else {
      assert g as real * x == x;
    }
  }

  /** `(|a| + |b|)^2 <= 2 (a^2 + b^2)`. */
  lemma AbsSumSquare2(a: real, b: real)
    ensures (Abs(a) + Abs(b)) * (Abs(a) + Abs(b)) <= 2.0 * (a * a + b * b)
  {
    var d := Abs(a) - Abs(b);
    assert 0.0 <= d * d;
    assert Abs(a) * Abs(a) == a * a && Abs(b) * Abs(b) == b * b;
  }

  /** A nonnegative `s` with `s^2 <= c^2` is at most `c`. */
  lemma RootBound(s: real, c: real)
    requires 0.0 <= s && 0.0 <= c && s * s <= c * c
    ensures s <= c
  {
    if c < s {
      SquareStrict(c, s);
    }
  }

  lemma SquareStrict(c: real, s: real)
    requires 0.0 <= c < s
    ensures c * c < s * s
  {
    var a, b := ScaleMonotoneNonneg(c, s, c);
    var d := s - c;
    assert s * s - c * s == d * s;
    MulPositive(d, s);
  }

  /** Inside the 2D falloff radius (`x^2 + y^2 <= 0.5`) the gradient dot
      product lies in [-1, 1]. */
  lemma Dot2Bounded(g0: int, g1: int, x: real, y: real)
    requires -1 <= g0 <= 1 && -1 <= g1 <= 1
    requires x * x + y * y <= 0.5
    ensures Abs(g0 as real * x + g1 as real * y) <= 1.0
  {
    UnitComponent(g0, x);
    UnitComponent(g1, y);
    AbsSumSquare2(x, y);
    RootBound(Abs(x) + Abs(y), 1.0);
  }

  /** `|g0 x + g1 y + g2 z| <= |x| + |y| + |z|` for unit-step gradients. */
  lemma UnitTriangle3(g0: int, g1: int, g2: int, x: real, y: real, z: real)
    requires -1 <= g0 <= 1 && -1 <= g1 <= 1 && -1 <= g2 <= 1
    ensures Abs(g0 as real * x + g1 as real * y + g2 as real * z) <= Abs(x) + Abs(y) + Abs(z)
  {
    var a, b, c := g0 as real * x, g1 as real * y, g2 as real * z;
    UnitComponent(g0, x);
    UnitComponent(g1, y);
    UnitComponent(g2, z);
    assert Abs(a + b + c) <= Abs(a) + Abs(b) + Abs(c);
  }

  /** `|x| + |y| + |z| <= 1.35` when `x^2 + y^2 + z^2 <= 0.6`
      (since 3 * 0.6 <= 1.35^2). */
  lemma AbsSum3Bound(x: real, y: real, z: real)
    requires x * x + y * y + z * z <= 0.6
    ensures Abs(x) + Abs(y) + Abs(z) <= 1.35
  {
    AbsSquare(x);
    AbsSquare(y);
    AbsSquare(z);
    var s := ThreeSquares(Abs(x), Abs(y), Abs(z));
    RootBound(s, 1.35);
  }

  lemma AbsSquare(x: real)
    ensures Abs(x) * Abs(x) == x * x
  {
  }

  /** `(a + b + c)^2 <= 3 (a^2 + b^2 + c^2)`, with the sum named. */
  lemma ThreeSquares(a: real, b: real, c: real) returns (s: real)
    ensures s == a + b + c && s * s <= 3.0 * (a * a + b * b + c * c)
  {
    s := a + b + c;
    assert s * s == a * a + b * b + c * c + 2.0 * (a * b) + 2.0 * (a * c) + 2.0 * (b * c);
    TwoProductBound(a, b);
    TwoProductBound(a, c);
    TwoProductBound(b, c);
  }

  /** Inside the 3D falloff radius (`x^2 + y^2 + z^2 <= 0.6`) the gradient
      dot product lies in [-1.35, 1.35]. */
  lemma Dot3Bounded(g0: int, g1: int, g2: int, x: real, y: real, z: real)
    requires -1 <= g0 <= 1 && -1 <= g1 <= 1 && -1 <= g2 <= 1
    requires x * x + y * y + z * z <= 0.6
    ensures Abs(g0 as real * x + g1 as real * y + g2 as real * z) <= 1.35
  {
    UnitTriangle3(g0, g1, g2, x, y, z);
    AbsSum3Bound(x, y, z);
  }

  /** `|g0 x + g1 y + g2 z + g3 w| <= |x| + |y| + |z| + |w|`. */
  lemma UnitTriangle4(g0: int, g1: int, g2: int, g3: int, x: real, y: real, z: real, w: real)
    requires -1 <= g0 <= 1 && -1 <= g1 <= 1 && -1 <= g2 <= 1 && -1 <= g3 <= 1
    ensures Abs(g0 as real * x + g1 as real * y + g2 as real * z + g3 as real * w)
            <= Abs(x) + Abs(y) + Abs(z) + Abs(w)
  {
    var a, b, c, d := g0 as real * x, g1 as real * y, g2 as real * z, g3 as real * w;
    UnitComponent(g0, x);
    UnitComponent(g1, y);
    UnitComponent(g2, z);
    UnitComponent(g3, w);
    assert Abs(a + b + c + d) <= Abs(a) + Abs(b) + Abs(c) + Abs(d);
  }

  /** `|x| + |y| + |z| + |w| <= 1.55` when `x^2 + y^2 + z^2 + w^2 <= 0.6`
      (since 4 * 0.6 <= 1.55^2). */
  lemma AbsSum4Bound(x: real, y: real, z: real, w: real)
    requires x * x + y * y + z * z + w * w <= 0.6
    ensures Abs(x) + Abs(y) + Abs(z) + Abs(w) <= 1.55
  {
    AbsSquare(x);
    AbsSquare(y);
    AbsSquare(z);
    AbsSquare(w);
    var s := FourSquares(Abs(x), Abs(y), Abs(z), Abs(w));
    RootBound(s, 1.55);
  }

  /** `(a + b + c + d)^2 <= 4 (a^2 + b^2 + c^2 + d^2)`, with the sum named. */
  lemma FourSquares(a: real, b: real, c: real, d: real) returns (s: real)
    ensures s == a + b + c + d && s * s <= 4.0 * (a * a + b * b + c * c + d * d)
  {
    s := a + b + c + d;
    assert s * s == a * a + b * b + c * c + d * d
                    + 2.0 * (a * b) + 2.0 * (a * c) + 2.0 * (a * d)
                    + 2.0 * (b * c) + 2.0 * (b * d) + 2.0 * (c * d);
    TwoProductBound(a, b);
    TwoProductBound(a, c);
    TwoProductBound(a, d);
    TwoProductBound(b, c);
    TwoProductBound(b, d);
    TwoProductBound(c, d);
  }

  /** Inside the 4D falloff radius (`x^2 + y^2 + z^2 + w^2 <= 0.6`) the
      gradient dot product lies in [-1.55, 1.55]. */
  lemma Dot4Bounded(g0: int, g1: int, g2: int, g3: int, x: real, y: real, z: real, w: real)
    requires -1 <= g0 <= 1 && -1 <= g1 <= 1 && -1 <= g2 <= 1 && -1 <= g3 <= 1
    requires x * x + y * y + z * z + w * w <= 0.6
    ensures Abs(g0 as real * x + g1 as real * y + g2 as real * z + g3 as real * w) <= 1.55
  {
    UnitTriangle4(g0, g1, g2, g3, x, y, z, w);
    AbsSum4Bound(x, y, z, w);
  }

  /** Every gradient component is -1, 0 or 1, and no 4D gradient is
      orthogonal to the diagonal `(1, 1, 1, 1)`: its components never sum
      to zero. */
  lemma GradientsAreUnitSteps()
    ensures |Grad3| == 12 && |Grad4| == 32
    ensures forall gi :: 0 <= gi < |Grad3| ==> UnitSteps3(Grad3[gi])
    ensures forall gi :: 0 <= gi < |Grad4| ==> UnitSteps4(Grad4[gi])
    ensures forall gi :: 0 <= gi < |Grad4| ==> Grad4[gi].a + Grad4[gi].b + Grad4[gi].c + Grad4[gi].d != 0
  {
  }

  predicate UnitSteps3(g: Dir3) {
    -1 <= g.a <= 1 && -1 <= g.b <= 1 && -1 <= g.c <= 1
  }

  predicate UnitSteps4(g: Dir4) {
    -1 <= g.a <= 1 && -1 <= g.b <= 1 && -1 <= g.c <= 1 && -1 <= g.d <= 1
  }

  /** Gradient `gi` of `grad3`: its components are -1, 0 or 1. */
  function Gradient3(gi: int): (g: Dir3)
    requires 0 <= gi < 12
    ensures UnitSteps3(g)
  {
    GradientsAreUnitSteps();
    Grad3[gi]
  }

  /** Gradient `gi` of `grad4`: its components are -1, 0 or 1, and they
      never sum to zero. */
  function Gradient4(gi: int): (g: Dir4)
    requires 0 <= gi < 32
    ensures UnitSteps4(g)
    ensures g.a + g.b + g.c + g.d != 0
  {
    GradientsAreUnitSteps();
    Grad4[gi]
  }

  /** A sample's offset from one corner of its cell: `(x0, y0)`, `(x1, y1)`,
      ... in the source. */
  datatype Point2 = Point2(x: real, y: real)
  datatype Point3 = Point3(x: real, y: real, z: real)
  datatype Point4 = Point4(x: real, y: real, z: real, w: real)

  /** The dot products of a gradient with a corner offset. */
  function GradDot2(g: Dir3, p: Point2): real {
    g.a as real * p.x + g.b as real * p.y
  }

  function GradDot3(g: Dir3, p: Point3): real {
    g.a as real * p.x + g.b as real * p.y + g.c as real * p.z
  }

  function GradDot4(g: Dir4, p: Point4): real {
    g.a as real * p.x + g.b as real * p.y + g.c as real * p.z + g.d as real * p.w
  }

  /** The falloff `t` of each dimension: `0.5 - x^2 - y^2` in 2D and
      `0.6 - ...` in 3D and 4D. */
  function Falloff2(p: Point2): real {
    0.5 - p.x * p.x - p.y * p.y
  }

  function Falloff3(p: Point3): real {
    0.6 - p.x * p.x - p.y * p.y - p.z * p.z
  }

  function Falloff4(p: Point4): real {
    0.6 - p.x * p.x - p.y * p.y - p.z * p.z - p.w * p.w
  }

  /** Inside the falloff radius of each dimension, the bound on the
      gradient's dot product. */
  lemma FalloffDot2(g: Dir3, p: Point2)
    requires UnitSteps3(g)
    ensures 0.0 <= Falloff2(p) ==> Abs(GradDot2(g, p)) <= 1.0
  {
    if 0.0 <= Falloff2(p) {
      Dot2Bounded(g.a, g.b, p.x, p.y);
    }
  }

  lemma FalloffDot3(g: Dir3, p: Point3)
    requires UnitSteps3(g)
    ensures 0.0 <= Falloff3(p) ==> Abs(GradDot3(g, p)) <= 1.35
  {
    if 0.0 <= Falloff3(p) {
      assert p.x * p.x + p.y * p.y + p.z * p.z <= 0.6;
      Dot3Bounded(g.a, g.b, g.c, p.x, p.y, p.z);
      assert GradDot3(g, p) == g.a as real * p.x + g.b as real * p.y + g.c as real * p.z;
    }
  }

  lemma FalloffDot4(g: Dir4, p: Point4)
    requires UnitSteps4(g)
    ensures 0.0 <= Falloff4(p) ==> Abs(GradDot4(g, p)) <= 1.55
  {
    if 0.0 <= Falloff4(p) {
      assert p.x * p.x + p.y * p.y + p.z * p.z + p.w * p.w <= 0.6;
      Dot4Bounded(g.a, g.b, g.c, g.d, p.x, p.y, p.z, p.w);
      assert GradDot4(g, p) == g.a as real * p.x + g.b as real * p.y + g.c as real * p.z + g.d as real * p.w;
    }
  }

  /** One corner of the 2D sum. Its magnitude is at most 0.5^4 = 1/16. */
  function Term2(g: Dir3, p: Point2): (n: real)
    requires UnitSteps3(g)
    ensures Abs(n) <= 0.0625
  {
    FalloffDot2(g, p);
    CornerTermBounded(Falloff2(p), GradDot2(g, p), 0.5, 1.0);
    CornerTerm(Falloff2(p), GradDot2(g, p))
  }

  /** One corner of the 3D sum. Its magnitude is at most
      0.6^4 * 1.35 < 0.175. */
  function Term3(g: Dir3, p: Point3): (n: real)
    requires UnitSteps3(g)
    ensures Abs(n) <= 0.175
  {
    FalloffDot3(g, p);
    CornerTermBounded(Falloff3(p), GradDot3(g, p), 0.6, 1.35);
    CornerTerm(Falloff3(p), GradDot3(g, p))
  }

  /** One corner of the 4D sum. Its magnitude is at most
      0.6^4 * 1.55 < 0.201. */
  function Term4(g: Dir4, p: Point4): (n: real)
    requires UnitSteps4(g)
    ensures Abs(n) <= 0.201
  {
    FalloffDot4(g, p);
    CornerTermBounded(Falloff4(p), GradDot4(g, p), 0.6, 1.55);
    CornerTerm(Falloff4(p), GradDot4(g, p))
  }

  // ---------------------------------------------------------------------
  // Skew factors.
  // ---------------------------------------------------------------------

  /** The skew and unskew factors written in terms of the square roots
      they are made of: `F2 = (sqrt 3 - 1) / 2`, `G2 = (3 - sqrt 3) / 6`,
      `F3 = 1/3`, `G3 = 1/6`, `F4 = (sqrt 5 - 1) / 4`, `G4 = (5 - sqrt 5) / 20`. */
  predicate SkewFactors(F2: real, G2: real, F3: real, G3: real, F4: real, G4: real) {
    var r3, r5 := 2.0 * F2 + 1.0, 4.0 * F4 + 1.0;
    && 0.0 <= r3 && r3 * r3 == 3.0 && G2 == (3.0 - r3) / 6.0
    && F3 == 1.0 / 3.0 && G3 == 1.0 / 6.0
    && 0.0 <= r5 && r5 * r5 == 5.0 && G4 == (5.0 - r5) / 20.0
  }

  /** The two square roots the constructor takes. */
  predicate RootsOf3And5(m: Transcendentals) {
    && 0.0 <= m.sqrt(3.0) && m.sqrt(3.0) * m.sqrt(3.0) == 3.0
    && 0.0 <= m.sqrt(5.0) && m.sqrt(5.0) * m.sqrt(5.0) == 5.0
  }

  /** Every lawful `Math` supplies those roots. */
  lemma LawfulRoots(m: Transcendentals)
    requires Lawful(m)
    ensures RootsOf3And5(m)
  {
  }

  /** The factors the constructor computes from `Math.sqrt` satisfy
      `SkewFactors`. */
  lemma LawfulSkew(m: Transcendentals)
    requires RootsOf3And5(m)
    ensures SkewFactors(0.5 * (m.sqrt(3.0) - 1.0), (3.0 - m.sqrt(3.0)) / 6.0, 1.0 / 3.0, 1.0 / 6.0,
                        (m.sqrt(5.0) - 1.0) / 4.0, (5.0 - m.sqrt(5.0)) / 20.0)
  {
    var r3, r5 := m.sqrt(3.0), m.sqrt(5.0);
    assert 0.0 <= r3 && r3 * r3 == 3.0;
    assert 0.0 <= r5 && r5 * r5 == 5.0;
    assert 2.0 * (0.5 * (r3 - 1.0)) + 1.0 == r3;
    assert 4.0 * ((r5 - 1.0) / 4.0) + 1.0 == r5;
  }

  /** A nonnegative root squeezed between two squares. */
  lemma RootBetween(r: real, lo: real, hi: real)
    requires 0.0 <= lo && 0.0 <= r && 0.0 <= hi
    requires lo * lo < r * r < hi * hi
    ensures lo < r < hi
  {
    RootBound(r, hi);
    if r <= lo {
      var a, b := ScaleMonotoneNonneg(r, lo, r);
      var c, d := ScaleMonotoneNonneg(r, lo, lo);
    }
  }

  /** A lattice coordinate shifted back by the unskew `t` and forward by
      the skew `s == t` floors to itself. */
  lemma VertexFloor(i: int, t: real, s: real)
    requires s == t
    ensures ((i as real - t) + s).Floor == i
  {
    assert (i as real - t) + s == i as real;
  }

  /** Skewing a 4D lattice vertex shifted back by its unskew `t` gives `t`
      again. */
  lemma SkewOfVertex4(i: int, j: int, k: int, l: int, F4: real, G4: real)
    requires Inverse4(F4, G4)
    ensures var t := (i + j + k + l) as real * G4;
            ((i as real - t) + (j as real - t) + (k as real - t) + (l as real - t)) * F4 == t
  {
    var n := (i + j + k + l) as real;
    var t := n * G4;
    assert (i as real - t) + (j as real - t) + (k as real - t) + (l as real - t) == n * (1.0 - 4.0 * G4);
    assert (n * (1.0 - 4.0 * G4)) * F4 == n * ((1.0 - 4.0 * G4) * F4);
  }

  /** Skewing by `F2` and unskewing by `G2` are inverse:
      `(1 - 2 G2) F2 == G2`; and `G2` lies in (0.2, 0.22). */
  lemma Skew2Inverse(F2: real, G2: real)
    requires var r := 2.0 * F2 + 1.0; 0.0 <= r && r * r == 3.0 && G2 == (3.0 - r) / 6.0
    ensures (1.0 - 2.0 * G2) * F2 == G2
    ensures 0.2 < G2 < 0.22
  {
    var r := 2.0 * F2 + 1.0;
    assert 1.0 - 2.0 * G2 == r / 3.0;
    assert F2 == (r - 1.0) / 2.0;
    assert (r / 3.0) * ((r - 1.0) / 2.0) == (r * r - r) / 6.0;
    RootBetween(r, 1.68, 1.8);
  }

  /** Skewing by `F4` and unskewing by `G4` are inverse. */
  predicate Inverse4(F4: real, G4: real) {
    (1.0 - 4.0 * G4) * F4 == G4
  }

  /** The 3D counterpart of `SkewedOffset2`, since `(1 - 3 G3) F3 == G3`. */
  lemma SkewedOffset3(x: real, y: real, z: real, i: int, j: int, k: int, F3: real, G3: real)
    requires (1.0 - 3.0 * G3) * F3 == G3
    ensures var t := (i + j + k) as real * G3;
            var x0, y0, z0 := x - (i as real - t), y - (j as real - t), z - (k as real - t);
            && x0 + (x0 + y0 + z0) * F3 == x + (x + y + z) * F3 - i as real
            && y0 + (x0 + y0 + z0) * F3 == y + (x + y + z) * F3 - j as real
            && z0 + (x0 + y0 + z0) * F3 == z + (x + y + z) * F3 - k as real
  {
    var n := (i + j + k) as real;
    var t := n * G3;
    var x0, y0, z0 := x - (i as real - t), y - (j as real - t), z - (k as real - t);
    assert x0 + y0 + z0 == (x + y + z) - n * (1.0 - 3.0 * G3);
    assert (n * (1.0 - 3.0 * G3)) * F3 == n * ((1.0 - 3.0 * G3) * F3);
    assert (x0 + y0 + z0) * F3 == (x + y + z) * F3 - t;
  }

  /** The 4D counterpart of `SkewedOffset2`: when `(1 - 4 G4) F4 == G4`,
      skewing the offsets from the unskewed origin of cell `(i, j, k, l)`
      gives the sample's skewed coordinates minus the cell. */
  lemma SkewedOffset4(x: real, y: real, z: real, w: real, i: int, j: int, k: int, l: int, F4: real, G4: real)
    ensures Inverse4(F4, G4) ==>
            var t := (i + j + k + l) as real * G4;
            var x0, y0, z0, w0 := x - (i as real - t), y - (j as real - t), z - (k as real - t), w - (l as real - t);
            var s0, s := (x0 + y0 + z0 + w0) * F4, (x + y + z + w) * F4;
            && x0 + s0 == x + s - i as real && y0 + s0 == y + s - j as real
            && z0 + s0 == z + s - k as real && w0 + s0 == w + s - l as real
  {
    if Inverse4(F4, G4) {
      var n := (i + j + k + l) as real;
      var t := n * G4;
      var x0, y0, z0, w0 := x - (i as real - t), y - (j as real - t), z - (k as real - t), w - (l as real - t);
      assert x0 + y0 + z0 + w0 == (x + y + z + w) - n * (1.0 - 4.0 * G4);
      assert (n * (1.0 - 4.0 * G4)) * F4 == n * ((1.0 - 4.0 * G4) * F4);
      assert (x0 + y0 + z0 + w0) * F4 == (x + y + z + w) * F4 - t;
    }
  }

  /** Skewing the unskewed offsets of cell `(i, j)` back gives the
      sample's skewed coordinates minus the cell corner, since
      `(1 - 2 G2) F2 == G2`. */
  lemma SkewedOffset2(x: real, y: real, i: int, j: int, F2: real, G2: real)
    requires (1.0 - 2.0 * G2) * F2 == G2
    ensures var t := (i + j) as real * G2;
            var x0, y0 := x - (i as real - t), y - (j as real - t);
            && x0 + (x0 + y0) * F2 == x + (x + y) * F2 - i as real
            && y0 + (x0 + y0) * F2 == y + (x + y) * F2 - j as real
  {
    var n := (i + j) as real;
    var t := n * G2;
    var x0, y0 := x - (i as real - t), y - (j as real - t);
    assert x0 + y0 == (x + y) - n * (1.0 - 2.0 * G2);
    assert (n * (1.0 - 2.0 * G2)) * F2 == n * ((1.0 - 2.0 * G2) * F2);
    assert (x0 + y0) * F2 == (x + y) * F2 - t;
  }

  /** `(1 - 4 G4) F4 == G4`, and `G4` lies in (0.1375, 0.14). */
  lemma Skew4Inverse(F4: real, G4: real)
    requires var r := 4.0 * F4 + 1.0; 0.0 <= r && r * r == 5.0 && G4 == (5.0 - r) / 20.0
    ensures Inverse4(F4, G4)
    ensures 0.1375 < G4 < 0.14
  {
    var r := 4.0 * F4 + 1.0;
    assert 1.0 - 4.0 * G4 == r / 5.0;
    assert F4 == (r - 1.0) / 4.0;
    assert (r / 5.0) * ((r - 1.0) / 4.0) == (r * r - r) / 20.0;
    RootBetween(r, 2.2, 2.25);
  }

  /** A corner beyond the falloff radius contributes nothing. */
  lemma Term2Outside(g: Dir3, p: Point2)
    requires UnitSteps3(g) && 0.5 < p.x * p.x + p.y * p.y
    ensures Term2(g, p) == 0.0
  {
  }

  lemma Term3Outside(g: Dir3, p: Point3)
    requires UnitSteps3(g) && 0.6 < p.x * p.x + p.y * p.y + p.z * p.z
    ensures Term3(g, p) == 0.0
  {
  }

  lemma Term4Outside(g: Dir4, p: Point4)
    requires UnitSteps4(g) && 0.6 < p.x * p.x + p.y * p.y + p.z * p.z + p.w * p.w
    ensures Term4(g, p) == 0.0
  {
  }

  /** A corner whose offset is zero contributes nothing. */
  lemma Term2AtZero(g: Dir3)
    requires UnitSteps3(g)
    ensures Term2(g, Point2(0.0, 0.0)) == 0.0
  {
  }

  lemma Term3AtZero(g: Dir3)
    requires UnitSteps3(g)
    ensures Term3(g, Point3(0.0, 0.0, 0.0)) == 0.0
  {
  }

  lemma Term4AtZero(g: Dir4)
    requires UnitSteps4(g)
    ensures Term4(g, Point4(0.0, 0.0, 0.0, 0.0)) == 0.0
  {
  }

  /** On the diagonal `(v, v, v, v)` the falloff is `0.6 - 4 v^2` and the
      dot product is `v` times the gradient's component sum. */
  lemma DiagonalParts(g: Dir4, v: real)
    ensures Falloff4(Point4(v, v, v, v)) == 0.6 - 4.0 * (v * v)
    ensures GradDot4(g, Point4(v, v, v, v)) == (g.a + g.b + g.c + g.d) as real * v
  {
  }

  /** Strictly inside the falloff radius a 4D corner contributes a
      positive factor, `t^4`, times its dot product `d`. */
  lemma InsideTerm4(g: Dir4, p: Point4, d: real) returns (q: real)
    requires UnitSteps4(g) && 0.0 < Falloff4(p) && GradDot4(g, p) == d
    ensures 0.0 < q && Term4(g, p) == q * d
  {
    q := FourthPowerPositive(Falloff4(p));
  }

  /** The cell of a sample: the skewed lattice coordinates of its origin
      and the offset of the sample from that origin. */
  datatype Cell2 = Cell2(i: int, j: int, x0: real, y0: real)
  datatype Cell3 = Cell3(i: int, j: int, k: int, x0: real, y0: real, z0: real)
  datatype Cell4 = Cell4(i: int, j: int, k: int, l: int, x0: real, y0: real, z0: real, w0: real)

  /** The offset of the sample from the `n`-th corner `o` of its cell,
      `x0 - o.i + n G` per axis. */
  function Rel2(cell: Cell2, o: Offset2, n: real, G: real): Point2 {
    Point2(cell.x0 - o.i as real + n * G, cell.y0 - o.j as real + n * G)
  }

  function Rel3(cell: Cell3, o: Offset3, n: real, G: real): Point3 {
    Point3(cell.x0 - o.i as real + n * G, cell.y0 - o.j as real + n * G, cell.z0 - o.k as real + n * G)
  }

  function Rel4(cell: Cell4, o: Offset4, n: real, G: real): Point4 {
    Point4(cell.x0 - o.i as real + n * G, cell.y0 - o.j as real + n * G,
           cell.z0 - o.k as real + n * G, cell.w0 - o.l as real + n * G)
  }

  /** The skew step of `noise4D`, with the skew factor `F4` and the
      unskew factor `G4`: the cell origin `floor(v + s)` with
      `s = (x + y + z + w) F4`, and the unskewed offset of the sample
      from it. For factors with `(1 - 4 G4) F4 == G4` the cell contains
      the sample: its skewed offsets lie in [0, 1). */
  function Skew4D(x: real, y: real, z: real, w: real, F4: real, G4: real): (c: Cell4)
    ensures Inverse4(F4, G4) ==> 0.0 <= c.x0 + (c.x0 + c.y0 + c.z0 + c.w0) * F4 < 1.0
    ensures Inverse4(F4, G4) ==> 0.0 <= c.y0 + (c.x0 + c.y0 + c.z0 + c.w0) * F4 < 1.0
    ensures Inverse4(F4, G4) ==> 0.0 <= c.z0 + (c.x0 + c.y0 + c.z0 + c.w0) * F4 < 1.0
    ensures Inverse4(F4, G4) ==> 0.0 <= c.w0 + (c.x0 + c.y0 + c.z0 + c.w0) * F4 < 1.0
  {
    var s := (x + y + z + w) * F4;
    var i, j, k, l := (x + s).Floor, (y + s).Floor, (z + s).Floor, (w + s).Floor;
    var t := (i + j + k + l) as real * G4;
    SkewedOffset4(x, y, z, w, i, j, k, l, F4, G4);
    Cell4(i, j, k, l, x - (i as real - t), y - (j as real - t), z - (k as real - t), w - (l as real - t))
  }

  /** A lattice vertex of the 4D grid, unskewed, is its own cell origin
      whenever the factors are inverse. */
  lemma Skew4DAtVertex(i: int, j: int, k: int, l: int, F4: real, G4: real)
    requires Inverse4(F4, G4)
    ensures var t := (i + j + k + l) as real * G4;
            Skew4D(i as real - t, j as real - t, k as real - t, l as real - t, F4, G4)
            == Cell4(i, j, k, l, 0.0, 0.0, 0.0, 0.0)
  {
    var t := (i + j + k + l) as real * G4;
    var x, y, z, w := i as real - t, j as real - t, k as real - t, l as real - t;
    var s := (x + y + z + w) * F4;
    SkewOfVertex4(i, j, k, l, F4, G4);
    VertexFloor(i, t, s);
    VertexFloor(j, t, s);
    VertexFloor(k, t, s);
    VertexFloor(l, t, s);
  }

  // ---------------------------------------------------------------------
  // Corner sums, given the hashed gradient of each corner.
  // ---------------------------------------------------------------------

  /** The three corner contributions of a 2D cell scaled by 70: the
      origin, the middle corner `c` and the far corner `(1, 1)`, with
      gradients `g0`, `g1`, `g2`. */
  function Sum2D(g0: Dir3, g1: Dir3, g2: Dir3, cell: Cell2, c: Offset2, G2: real): (n: real)
    requires UnitSteps3(g0) && UnitSteps3(g1) && UnitSteps3(g2)
    ensures Abs(n) <= 13.125
  {
    70.0 * (Term2(g0, Point2(cell.x0, cell.y0))
      + Term2(g1, Rel2(cell, c, 1.0, G2))
      + Term2(g2, Rel2(cell, Offset2(1, 1), 2.0, G2)))
  }

  /** The four corner contributions of a 3D cell scaled by 32. */
  function Sum3D(g0: Dir3, g1: Dir3, g2: Dir3, g3: Dir3, cell: Cell3, c: Corners3, G3: real): (n: real)
    requires UnitSteps3(g0) && UnitSteps3(g1) && UnitSteps3(g2) && UnitSteps3(g3)
    ensures Abs(n) <= 22.4
  {
    32.0 * (Term3(g0, Point3(cell.x0, cell.y0, cell.z0))
      + Term3(g1, Rel3(cell, c.second, 1.0, G3))
      + Term3(g2, Rel3(cell, c.third, 2.0, G3))
      + Term3(g3, Rel3(cell, Offset3(1, 1, 1), 3.0, G3)))
  }

  /** The five corner contributions of a 4D cell scaled by 27. */
  function Sum4D(g0: Dir4, g1: Dir4, g2: Dir4, g3: Dir4, g4: Dir4, cell: Cell4, c: Corners4, G4: real): (n: real)
    requires UnitSteps4(g0) && UnitSteps4(g1) && UnitSteps4(g2) && UnitSteps4(g3) && UnitSteps4(g4)
    ensures Abs(n) <= 27.135
  {
    27.0 * (Term4(g0, Point4(cell.x0, cell.y0, cell.z0, cell.w0))
      + Term4(g1, Rel4(cell, c.second, 1.0, G4))
      + Term4(g2, Rel4(cell, c.third, 2.0, G4))
      + Term4(g3, Rel4(cell, c.fourth, 3.0, G4))
      + Term4(g4, Rel4(cell, Offset4(1, 1, 1, 1), 4.0, G4)))
  }

  /** At the cell origin the 2D sum is zero for every choice of gradients:
      the other two corners lie outside the falloff radius. */
  lemma Sum2DAtOrigin(g0: Dir3, g1: Dir3, g2: Dir3, i: int, j: int, G2: real)
    requires UnitSteps3(g0) && UnitSteps3(g1) && UnitSteps3(g2) && 0.2 < G2 < 0.22
    ensures Sum2D(g0, g1, g2, Cell2(i, j, 0.0, 0.0), Corner2D(0.0, 0.0), G2) == 0.0
  {
    var cell := Cell2(i, j, 0.0, 0.0);
    assert Corner2D(0.0, 0.0) == Offset2(0, 1);
    Term2AtZero(g0);
    var p1 := Rel2(cell, Offset2(0, 1), 1.0, G2);
    assert p1 == Point2(G2, G2 - 1.0);
    SquareNonneg(G2);
    SquareOfNegative(G2 - 1.0, 0.78);
    Term2Outside(g1, p1);
    var p2 := Rel2(cell, Offset2(1, 1), 2.0, G2);
    assert p2 == Point2(2.0 * G2 - 1.0, 2.0 * G2 - 1.0);
    SquareOfNegative(2.0 * G2 - 1.0, 0.56);
    Term2Outside(g2, p2);
  }

  /** At the cell origin the 3D sum is zero for every choice of gradients. */
  lemma Sum3DAtOrigin(g0: Dir3, g1: Dir3, g2: Dir3, g3: Dir3, i: int, j: int, k: int)
    requires UnitSteps3(g0) && UnitSteps3(g1) && UnitSteps3(g2) && UnitSteps3(g3)
    ensures Sum3D(g0, g1, g2, g3, Cell3(i, j, k, 0.0, 0.0, 0.0), Corner3D(0.0, 0.0, 0.0), 1.0 / 6.0) == 0.0
  {
    var cell, G3 := Cell3(i, j, k, 0.0, 0.0, 0.0), 1.0 / 6.0;
    var c := Corner3D(0.0, 0.0, 0.0);
    assert c == Corners3(Offset3(1, 0, 0), Offset3(1, 1, 0));
    Term3AtZero(g0);
    var p1 := Rel3(cell, c.second, 1.0, G3);
    assert p1 == Point3(-5.0 / 6.0, 1.0 / 6.0, 1.0 / 6.0);
    Term3Outside(g1, p1);
    var p2 := Rel3(cell, c.third, 2.0, G3);
    assert p2 == Point3(-2.0 / 3.0, -2.0 / 3.0, 1.0 / 3.0);
    Term3Outside(g2, p2);
    var p3 := Rel3(cell, Offset3(1, 1, 1), 3.0, G3);
    assert p3 == Point3(-0.5, -0.5, -0.5);
    Term3Outside(g3, p3);
  }

  /** The ranked middle corners of the cell origin step along w, then
      z and w, then y, z and w. */
  lemma RankedCornersAtOrigin()
    ensures Corners4DRanked(0.0, 0.0, 0.0, 0.0)
            == Corners4(Offset4(0, 0, 0, 1), Offset4(0, 0, 1, 1), Offset4(0, 1, 1, 1))
  {
  }

  /** At the cell origin the 4D sum over the corners that step along w,
      then z and w, then y, z and w is zero: every corner but the origin
      lies outside the falloff radius. */
  lemma Sum4DWzyAtOrigin(g0: Dir4, g1: Dir4, g2: Dir4, g3: Dir4, g4: Dir4, cell: Cell4, G4: real)
    requires UnitSteps4(g0) && UnitSteps4(g1) && UnitSteps4(g2) && UnitSteps4(g3) && UnitSteps4(g4)
    requires cell.x0 == 0.0 && cell.y0 == 0.0 && cell.z0 == 0.0 && cell.w0 == 0.0
    requires 0.1375 < G4 < 0.14
    ensures Sum4D(g0, g1, g2, g3, g4, cell,
                  Corners4(Offset4(0, 0, 0, 1), Offset4(0, 0, 1, 1), Offset4(0, 1, 1, 1)), G4) == 0.0
  {
    Term4AtZero(g0);
    var p1 := Rel4(cell, Offset4(0, 0, 0, 1), 1.0, G4);
    assert p1 == Point4(G4, G4, G4, G4 - 1.0);
    SquareNonneg(G4);
    SquareOfNegative(G4 - 1.0, 0.86);
    Term4Outside(g1, p1);
    var p2 := Rel4(cell, Offset4(0, 0, 1, 1), 2.0, G4);
    assert p2 == Point4(2.0 * G4, 2.0 * G4, 2.0 * G4 - 1.0, 2.0 * G4 - 1.0);
    SquareNonneg(2.0 * G4);
    SquareOfNegative(2.0 * G4 - 1.0, 0.72);
    Term4Outside(g2, p2);
    var p3 := Rel4(cell, Offset4(0, 1, 1, 1), 3.0, G4);
    assert p3 == Point4(3.0 * G4, 3.0 * G4 - 1.0, 3.0 * G4 - 1.0, 3.0 * G4 - 1.0);
    SquareNonneg(3.0 * G4);
    SquareOfNegative(3.0 * G4 - 1.0, 0.58);
    Term4Outside(g3, p3);
    var p4 := Rel4(cell, Offset4(1, 1, 1, 1), 4.0, G4);
    assert p4 == Point4(4.0 * G4 - 1.0, 4.0 * G4 - 1.0, 4.0 * G4 - 1.0, 4.0 * G4 - 1.0);
    SquareOfNegative(4.0 * G4 - 1.0, 0.44);
    Term4Outside(g4, p4);
  }

  /** At the cell origin the 4D sum over the ranked corners is zero. */
  lemma Sum4DRankedAtOrigin(g0: Dir4, g1: Dir4, g2: Dir4, g3: Dir4, g4: Dir4, i: int, j: int, k: int, l: int, G4: real)
    requires UnitSteps4(g0) && UnitSteps4(g1) && UnitSteps4(g2) && UnitSteps4(g3) && UnitSteps4(g4)
    requires 0.1375 < G4 < 0.14
    ensures Sum4D(g0, g1, g2, g3, g4, Cell4(i, j, k, l, 0.0, 0.0, 0.0, 0.0),
                  Corners4DRanked(0.0, 0.0, 0.0, 0.0), G4) == 0.0
  {
    RankedCornersAtOrigin();
    Sum4DWzyAtOrigin(g0, g1, g2, g3, g4, Cell4(i, j, k, l, 0.0, 0.0, 0.0, 0.0), G4);
  }

  /** With all three middle corners at the origin, the 4D sum at the
      origin is `27 G4 S (t1^4 + 2 t2^4)` for the component sum `S` of the
      origin's gradient, `t1 = 0.6 - 4 G4^2` and `t2 = 0.6 - 16 G4^2`; it
      is never zero. */
  lemma CollapsedSumAtOrigin(g: Dir4, g4: Dir4, G4: real)
    requires UnitSteps4(g) && UnitSteps4(g4) && g.a + g.b + g.c + g.d != 0
    requires 0.1375 < G4 < 0.14
    ensures var o := Offset4(0, 0, 0, 0);
            Sum4D(g, g, g, g, g4, Cell4(0, 0, 0, 0, 0.0, 0.0, 0.0, 0.0), Corners4(o, o, o), G4) != 0.0
  {
    var t1, t2 := CollapsedLiveTerms(g, G4);
    CollapsedSumOfTerms(g, g4, G4, t1, t2);
  }

  /** The first and second corners of the collapsed cell at the origin
      both lie on the diagonal, at `G4` and `2 G4`, and their terms have
      the sign of the component sum: they never cancel. */
  lemma CollapsedLiveTerms(g: Dir4, G4: real) returns (t1: real, t2: real)
    requires UnitSteps4(g) && g.a + g.b + g.c + g.d != 0
    requires 0.1375 < G4 < 0.14
    ensures var cell, o := Cell4(0, 0, 0, 0, 0.0, 0.0, 0.0, 0.0), Offset4(0, 0, 0, 0);
            Term4(g, Rel4(cell, o, 1.0, G4)) == t1 && Term4(g, Rel4(cell, o, 2.0, G4)) == t2
    ensures t1 + t2 != 0.0
  {
    OriginDiagonal(G4);
    DiagonalCorner(g, G4);
    DiagonalCorner(g, 2.0 * G4);
    t1, t2 := Term4(g, Point4(G4, G4, G4, G4)), Term4(g, Point4(2.0 * G4, 2.0 * G4, 2.0 * G4, 2.0 * G4));
  }

  /** The first and second corners of the collapsed cell at the origin
      lie on the diagonal. */
  lemma OriginDiagonal(G4: real)
    ensures var cell, o := Cell4(0, 0, 0, 0, 0.0, 0.0, 0.0, 0.0), Offset4(0, 0, 0, 0);
            && Rel4(cell, o, 1.0, G4) == Point4(G4, G4, G4, G4)
            && Rel4(cell, o, 2.0, G4) == Point4(2.0 * G4, 2.0 * G4, 2.0 * G4, 2.0 * G4)
  {
  }

  /** The collapsed sum at the origin is nonzero as soon as its two live
      corners, the first and the second, do not cancel. */
  lemma CollapsedSumOfTerms(g: Dir4, g4: Dir4, G4: real, t1: real, t2: real)
    requires UnitSteps4(g) && UnitSteps4(g4) && 0.1375 < G4 < 0.14
    requires var cell, o := Cell4(0, 0, 0, 0, 0.0, 0.0, 0.0, 0.0), Offset4(0, 0, 0, 0);
             Term4(g, Rel4(cell, o, 1.0, G4)) == t1 && Term4(g, Rel4(cell, o, 2.0, G4)) == t2
    requires t1 + t2 != 0.0
    ensures var o := Offset4(0, 0, 0, 0);
            Sum4D(g, g, g, g, g4, Cell4(0, 0, 0, 0, 0.0, 0.0, 0.0, 0.0), Corners4(o, o, o), G4) != 0.0
  {
    Term4AtZero(g);
    FarCornersAtOrigin(g, g4, G4);
  }

  /** A corner on the diagonal `(v, v, v, v)` with `0 < v <= 0.28` lies
      strictly inside the falloff radius: its term has the sign of the
      gradient's component sum. */
  lemma DiagonalCorner(g: Dir4, v: real)
    requires UnitSteps4(g) && 0.0 < v <= 0.28
    ensures g.a + g.b + g.c + g.d > 0 ==> Term4(g, Point4(v, v, v, v)) > 0.0
    ensures g.a + g.b + g.c + g.d < 0 ==> Term4(g, Point4(v, v, v, v)) < 0.0
  {
    var S := (g.a + g.b + g.c + g.d) as real;
    var d := S * v;
    DiagonalInside(g, v, S);
    var q := InsideTerm4(g, Point4(v, v, v, v), d);
    SignOfScaled(q, S, v, d);
  }

  /** `q (S v)` has the sign of `S` for positive `q` and `v`. */
  lemma SignOfScaled(q: real, S: real, v: real, d: real)
    requires 0.0 < q && 0.0 < v && d == S * v
    ensures S > 0.0 ==> q * d > 0.0
    ensures S < 0.0 ==> q * d < 0.0
  {
    if S > 0.0 {
      MulPositive(S, v);
      MulPositive(q, d);
    } else if S < 0.0 {
      MulPositive(-S, v);
      MulPositive(q, -d);
      assert q * d == -(q * -d);
    }
  }

  /** The diagonal point `(v, v, v, v)` with `0 <= v <= 0.28` lies
      strictly inside the 4D falloff radius. */
  lemma DiagonalInside(g: Dir4, v: real, S: real)
    requires 0.0 <= v <= 0.28 && S == (g.a + g.b + g.c + g.d) as real
    ensures 0.0 < Falloff4(Point4(v, v, v, v))
    ensures GradDot4(g, Point4(v, v, v, v)) == S * v
  {
    DiagonalParts(g, v);
    SquareAtMost(v, 0.28);
  }

  /** The third and fourth corners of the collapsed cell at the origin
      lie outside the falloff radius. */
  lemma FarCornersAtOrigin(g: Dir4, g4: Dir4, G4: real)
    requires UnitSteps4(g) && UnitSteps4(g4) && 0.1375 < G4 < 0.14
    ensures var cell := Cell4(0, 0, 0, 0, 0.0, 0.0, 0.0, 0.0);
            && Term4(g, Rel4(cell, Offset4(0, 0, 0, 0), 3.0, G4)) == 0.0
            && Term4(g4, Rel4(cell, Offset4(1, 1, 1, 1), 4.0, G4)) == 0.0
  {
    var cell := Cell4(0, 0, 0, 0, 0.0, 0.0, 0.0, 0.0);
    var u := 3.0 * G4;
    var p3 := Rel4(cell, Offset4(0, 0, 0, 0), 3.0, G4);
    assert Term4(g, p3) == 0.0 by {
      assert p3 == Point4(u, u, u, u);
      SquareAtLeast(u, 0.4125);
      Term4Outside(g, p3);
    }
    var p4 := Rel4(cell, Offset4(1, 1, 1, 1), 4.0, G4);
    assert Term4(g4, p4) == 0.0 by {
      assert p4 == Point4(4.0 * G4 - 1.0, 4.0 * G4 - 1.0, 4.0 * G4 - 1.0, 4.0 * G4 - 1.0);
      SquareOfNegative(4.0 * G4 - 1.0, 0.44);
      Term4Outside(g4, p4);
    }
  }

  /** `t^4 > 0` for `t > 0`, with the power named. */
  lemma FourthPowerPositive(t: real) returns (q: real)
    requires 0.0 < t
    ensures q == (t * t) * (t * t) && 0.0 < q
  {
    var s := PositiveProduct(t, t);
    q := PositiveProduct(s, s);
  }

  /** The first loop of the constructor: `p[i] = i`. */
  method FillIdentity(a: array<int>)
    modifies a
    ensures a[..] == Identity(a.Length)
  {
    for i := 0 to a.Length
      invariant forall k :: 0 <= k < i ==> a[k] == k
    {
      a[i] := i;
    }
  }

  /** The Fisher-Yates loop of the constructor, in place on `a`. */
  method FisherYates(a: array<int>, draws: seq<real>)
    requires 0 < a.Length && a.Length - 1 <= |draws|
    requires forall k :: 0 <= k < |draws| ==> IsDraw(draws[k])
    modifies a
    ensures a[..] == ShuffleFrom(old(a[..]), draws, a.Length - 1)
  {
    var i := a.Length - 1;
    while i > 0
      invariant 0 <= i <= a.Length - 1
      invariant ShuffleFrom(a[..], draws, i) == ShuffleFrom(old(a[..]), draws, a.Length - 1)
    {
      var n := SwapIndex(i, draws[a.Length - 1 - i]);
      ghost var before := a[..];
      ShuffleStep(before, draws, i, n);
      var q := a[i];
      a[i] := a[n];
      a[n] := q;
      assert a[..] == Swap(before, i, n);
      i := i - 1;
    }
  }

  /** One pass of the shuffle: swap position `i` with its drawn partner
      `n`, then shuffle the positions below. */
  lemma ShuffleStep(s: seq<int>, draws: seq<real>, i: nat, n: int)
    requires 0 < i < |s| && |s| - 1 <= |draws|
    requires forall k :: 0 <= k < |draws| ==> IsDraw(draws[k])
    requires n == SwapIndex(i, draws[|s| - 1 - i])
    ensures 0 <= n <= i
    ensures ShuffleFrom(s, draws, i) == ShuffleFrom(Swap(s, i, n), draws, i - 1)
  {
  }

  /** The 512-step loop of the constructor: `perm[i] = p[i & 255]` and
      `permMod12[i] = perm[i] % 12`. */
  method Expand(p: array<int>, perm: array<int>, permMod12: array<int>)
    requires p.Length == 256 && perm.Length == 512 && permMod12.Length == 512
    requires perm != permMod12
    modifies perm, permMod12
    ensures forall k :: 0 <= k < 512 ==> perm[k] == p[Low8(k)]
    ensures forall k :: 0 <= k < 512 ==> permMod12[k] == perm[k] % 12
  {
    for i := 0 to 512
      invariant forall k :: 0 <= k < i ==> perm[k] == p[Low8(k)]
      invariant forall k :: 0 <= k < i ==> permMod12[k] == perm[k] % 12
    {
      perm[i] := p[Low8(i)];
      permMod12[i] := perm[i] % 12;
    }
  }

  /** The noise generator of `simplex-noise.js`: the shuffled table `p`,
      its doubled copy `perm`, the gradient selector `permMod12`, and the
      skew and unskew factors of the three dimensions. No method changes
      the tables after construction. */
  class SimplexNoise {
    const p: array<int>
    const perm: array<int>
    const permMod12: array<int>
    const F2: real
    const G2: real
    const F3: real
    const G3: real
    const F4: real
    const G4: real

    /** `p` is a permutation of 0..255, `perm[i] == p[i & 255]` and
        `permMod12[i] == perm[i] % 12` for every index of the 512-entry
        tables. */
    ghost predicate Valid()
      reads p, perm, permMod12
    {
      && p.Length == 256 && perm.Length == 512 && permMod12.Length == 512
      && multiset(p[..]) == multiset(Identity(256))
      && (forall k :: 0 <= k < 256 ==> 0 <= p[k] < 256)
      && (forall k :: 0 <= k < 512 ==> perm[k] == p[Low8(k)])
      && (forall k :: 0 <= k < 512 ==> permMod12[k] == perm[k] % 12)
      && SkewFactors(F2, G2, F3, G3, F4, G4)
    }

    /** Builds the tables from `random()` draws: the identity table,
        Fisher-Yates from position 255 down to 1 (draw `255 - i` at
        position `i`), then the doubled tables. */
    constructor (draws: seq<real>, m: Transcendentals)
      requires RootsOf3And5(m)
      requires 255 <= |draws| && forall k :: 0 <= k < |draws| ==> IsDraw(draws[k])
      ensures Valid() && fresh(p) && fresh(perm) && fresh(permMod12)
      ensures p[..] == ShuffleFrom(Identity(256), draws, 255)
      ensures F2 == 0.5 * (m.sqrt(3.0) - 1.0) && G2 == (3.0 - m.sqrt(3.0)) / 6.0
      ensures F3 == 1.0 / 3.0 && G3 == 1.0 / 6.0
      ensures F4 == (m.sqrt(5.0) - 1.0) / 4.0 && G4 == (5.0 - m.sqrt(5.0)) / 20.0
    {
      LawfulSkew(m);
      p := new int[256];
      perm := new int[512];
      permMod12 := new int[512];
      F2 := 0.5 * (m.sqrt(3.0) - 1.0);
      G2 := (3.0 - m.sqrt(3.0)) / 6.0;
      F3 := 1.0 / 3.0;
      G3 := 1.0 / 6.0;
      F4 := (m.sqrt(5.0) - 1.0) / 4.0;
      G4 := (5.0 - m.sqrt(5.0)) / 20.0;
      new;
      assert SkewFactors(F2, G2, F3, G3, F4, G4);
      FillIdentity(p);
      FisherYates(p, draws);
      ShufflePermutes(Identity(256), draws, 255);
      PermutationInRange(p[..], 256);
      Expand(p, perm, permMod12);
    }

    /** The second half of `perm` repeats the first, and every entry of
        `permMod12` selects one of the twelve 3D gradients. */
    lemma TablesDoubled()
      requires Valid()
      ensures forall k :: 0 <= k < 256 ==> perm[k] == perm[k + 256] == p[k]
      ensures forall k :: 0 <= k < 512 ==> 0 <= perm[k] < 256 && 0 <= permMod12[k] < 12
    {
      forall k | 0 <= k < 256
        ensures perm[k] == perm[k + 256] == p[k]
      {
        assert Low8(k + 256) == k;
      }
    }

    /** `permMod12[ii + i1 + perm[jj + j1]]`: the gradient of a 2D corner.
        Because `perm` doubles `p`, this is the hash of the corner's
        lattice coordinates through `p`, each sum wrapped to eight bits. */
    function GradIndex2(ii: int, jj: int, o: Offset2): (gi: int)
      requires Valid() && 0 <= ii < 256 && 0 <= jj < 256 && IsBit(o.i) && IsBit(o.j)
      reads p, perm, permMod12
      ensures 0 <= gi < 12
      ensures gi == p[Low8(ii + o.i + p[Low8(jj + o.j)])] % 12
    {
      permMod12[ii + o.i + perm[jj + o.j]]
    }

    /** `permMod12[ii + i1 + perm[jj + j1 + perm[kk + k1]]]`. */
    function GradIndex3(ii: int, jj: int, kk: int, o: Offset3): (gi: int)
      requires Valid() && 0 <= ii < 256 && 0 <= jj < 256 && 0 <= kk < 256 && Bits3(o)
      reads p, perm, permMod12
      ensures 0 <= gi < 12
      ensures gi == p[Low8(ii + o.i + p[Low8(jj + o.j + p[Low8(kk + o.k)])])] % 12
    {
      permMod12[ii + o.i + perm[jj + o.j + perm[kk + o.k]]]
    }

    /** `perm[ii + i1 + perm[jj + j1 + perm[kk + k1 + perm[ll + l1]]]] % 32`. */
    function GradIndex4(ii: int, jj: int, kk: int, ll: int, o: Offset4): (gi: int)
      requires Valid() && 0 <= ii < 256 && 0 <= jj < 256 && 0 <= kk < 256 && 0 <= ll < 256
      requires Bits4(o)
      reads p, perm, permMod12
      ensures 0 <= gi < 32
      ensures gi == p[Low8(ii + o.i + p[Low8(jj + o.j + p[Low8(kk + o.k + p[Low8(ll + o.l)])])])] % 32
    {
      perm[ii + o.i + perm[jj + o.j + perm[kk + o.k + perm[ll + o.l]]]] % 32
    }

    /** The gradient of a 2D corner, `grad3[gi * 3 ..]` for the hashed
        index `gi`. */
    function CornerGradient2(ii: int, jj: int, o: Offset2): (g: Dir3)
      requires Valid() && 0 <= ii < 256 && 0 <= jj < 256 && IsBit(o.i) && IsBit(o.j)
      reads p, perm, permMod12
      ensures UnitSteps3(g)
    {
      Gradient3(GradIndex2(ii, jj, o))
    }

    /** The gradient of a 3D corner. */
    function CornerGradient3(ii: int, jj: int, kk: int, o: Offset3): (g: Dir3)
      requires Valid() && 0 <= ii < 256 && 0 <= jj < 256 && 0 <= kk < 256 && Bits3(o)
      reads p, perm, permMod12
      ensures UnitSteps3(g)
    {
      Gradient3(GradIndex3(ii, jj, kk, o))
    }

    /** The gradient of a 4D corner, `grad4[gi * 4 ..]`. */
    function CornerGradient4(ii: int, jj: int, kk: int, ll: int, o: Offset4): (g: Dir4)
      requires Valid() && 0 <= ii < 256 && 0 <= jj < 256 && 0 <= kk < 256 && 0 <= ll < 256 && Bits4(o)
      reads p, perm, permMod12
      ensures UnitSteps4(g)
      ensures g.a + g.b + g.c + g.d != 0
    {
      Gradient4(GradIndex4(ii, jj, kk, ll, o))
    }

    /** The skew step of `noise2D`: the cell origin `floor(v + s)` with
        `s = (x + y) F2`, and the unskewed offset of the sample from it.
        Skewed back, the offset lies in [0, 1) on both axes: the sample
        lies in the lattice cell whose corner is `(i, j)`. */
    function Skew2D(x: real, y: real): (c: Cell2)
      requires SkewFactors(F2, G2, F3, G3, F4, G4)
      ensures var t := (c.i + c.j) as real * G2;
              c.x0 == x - (c.i as real - t) && c.y0 == y - (c.j as real - t)
      ensures 0.0 <= c.x0 + (c.x0 + c.y0) * F2 < 1.0
      ensures 0.0 <= c.y0 + (c.x0 + c.y0) * F2 < 1.0
    {
      var s := (x + y) * F2;
      var i, j := (x + s).Floor, (y + s).Floor;
      var t := (i + j) as real * G2;
      Skew2Inverse(F2, G2);
      SkewedOffset2(x, y, i, j, F2, G2);
      Cell2(i, j, x - (i as real - t), y - (j as real - t))
    }

    /** `noise2D(x, y)`: the sum over the three corners of the sample's
        triangle, each gradient hashed from the corner's lattice point. */
    function Noise2D(x: real, y: real): (n: real)
      requires Valid()
      reads p, perm, permMod12
      ensures Abs(n) <= 13.125
    {
      var cell := Skew2D(x, y);
      Cell2DSum(cell, Corner2D(cell.x0, cell.y0))
    }

    /** The 2D sum for the cell of a sample, given its middle corner. */
    function Cell2DSum(cell: Cell2, c: Offset2): (n: real)
      requires Valid() && IsBit(c.i) && IsBit(c.j)
      reads p, perm, permMod12
      ensures Abs(n) <= 13.125
    {
      var ii, jj := Low8(cell.i), Low8(cell.j);
      Sum2D(CornerGradient2(ii, jj, Offset2(0, 0)), CornerGradient2(ii, jj, c), CornerGradient2(ii, jj, Offset2(1, 1)),
            cell, c, G2)
    }

    /** The skew step of `noise3D`: the cell origin `floor(v + s)` with
        `s = (x + y + z) F3`, and the unskewed offset of the sample from it,
        which skewed back lies in [0, 1) on every axis. */
    function Skew3D(x: real, y: real, z: real): (c: Cell3)
      requires SkewFactors(F2, G2, F3, G3, F4, G4)
      ensures var t := (c.i + c.j + c.k) as real * G3;
              && c.x0 == x - (c.i as real - t) && c.y0 == y - (c.j as real - t)
              && c.z0 == z - (c.k as real - t)
      ensures 0.0 <= c.x0 + (c.x0 + c.y0 + c.z0) * F3 < 1.0
      ensures 0.0 <= c.y0 + (c.x0 + c.y0 + c.z0) * F3 < 1.0
      ensures 0.0 <= c.z0 + (c.x0 + c.y0 + c.z0) * F3 < 1.0
    {
      var s := (x + y + z) * F3;
      var i, j, k := (x + s).Floor, (y + s).Floor, (z + s).Floor;
      var t := (i + j + k) as real * G3;
      SkewedOffset3(x, y, z, i, j, k, F3, G3);
      Cell3(i, j, k, x - (i as real - t), y - (j as real - t), z - (k as real - t))
    }

    /** `noise3D(x, y, z)`: the sum over the four corners of the sample's
        tetrahedron. */
    function Noise3D(x: real, y: real, z: real): (n: real)
      requires Valid()
      reads p, perm, permMod12
      ensures Abs(n) <= 22.4
    {
      var cell := Skew3D(x, y, z);
      Cell3DSum(cell, Corner3D(cell.x0, cell.y0, cell.z0))
    }

    /** The 3D sum for the cell of a sample, given its middle corners. */
    function Cell3DSum(cell: Cell3, c: Corners3): (n: real)
      requires Valid() && Bits3(c.second) && Bits3(c.third)
      reads p, perm, permMod12
      ensures Abs(n) <= 22.4
    {
      var ii, jj, kk := Low8(cell.i), Low8(cell.j), Low8(cell.k);
      Sum3D(CornerGradient3(ii, jj, kk, Offset3(0, 0, 0)), CornerGradient3(ii, jj, kk, c.second),
            CornerGradient3(ii, jj, kk, c.third), CornerGradient3(ii, jj, kk, Offset3(1, 1, 1)), cell, c, G3)
    }

    /** The 4D sum for the cell of a sample, given its middle corners. */
    function Cell4DSum(cell: Cell4, c: Corners4): (n: real)
      requires Valid() && Bits4(c.second) && Bits4(c.third) && Bits4(c.fourth)
      reads p, perm, permMod12
      ensures Abs(n) <= 27.135
    {
      var ii, jj, kk, ll := Low8(cell.i), Low8(cell.j), Low8(cell.k), Low8(cell.l);
      Sum4D(CornerGradient4(ii, jj, kk, ll, Offset4(0, 0, 0, 0)), CornerGradient4(ii, jj, kk, ll, c.second),
            CornerGradient4(ii, jj, kk, ll, c.third), CornerGradient4(ii, jj, kk, ll, c.fourth),
            CornerGradient4(ii, jj, kk, ll, Offset4(1, 1, 1, 1)), cell, c, G4)
    }

    /** `noise4D(x, y, z, w)` as written, with its collapsed middle corners. */
    function Noise4D(x: real, y: real, z: real, w: real): (n: real)
      requires Valid()
      reads p, perm, permMod12
      ensures Abs(n) <= 27.135
    {
      var cell := Skew4D(x, y, z, w, F4, G4);
      Cell4DSum(cell, Corners4D(cell.x0, cell.y0, cell.z0, cell.w0))
    }

    /** 4D simplex noise with the rank-ordered middle corners of the
        reference algorithm. */
    function Noise4DRanked(x: real, y: real, z: real, w: real): (n: real)
      requires Valid()
      reads p, perm, permMod12
      ensures Abs(n) <= 27.135
    {
      var cell := Skew4D(x, y, z, w, F4, G4);
      Cell4DSum(cell, Corners4DRanked(cell.x0, cell.y0, cell.z0, cell.w0))
    }

    /** A lattice vertex of the 2D grid is its own cell origin. */
    lemma Skew2DAtVertex(i: int, j: int)
      requires Valid()
      ensures var t := (i + j) as real * G2;
              Skew2D(i as real - t, j as real - t) == Cell2(i, j, 0.0, 0.0)
    {
      Skew2Inverse(F2, G2);
      var n := (i + j) as real;
      var t := n * G2;
      var x, y := i as real - t, j as real - t;
      var s := (x + y) * F2;
      assert s == t by {
        assert x + y == n * (1.0 - 2.0 * G2);
        assert (x + y) * F2 == n * ((1.0 - 2.0 * G2) * F2);
      }
      VertexFloor(i, t, s);
      VertexFloor(j, t, s);
    }

    /** 2D simplex noise vanishes at every lattice vertex: there the
        sample is its own cell origin, whose gradient meets a zero offset,
        and the other two corners lie outside the falloff radius. */
    lemma Noise2DVanishesAtVertices(i: int, j: int)
      requires Valid()
      ensures var t := (i + j) as real * G2; Noise2D(i as real - t, j as real - t) == 0.0
    {
      Skew2DAtVertex(i, j);
      Skew2Inverse(F2, G2);
      var ii, jj := Low8(i), Low8(j);
      var c := Corner2D(0.0, 0.0);
      Sum2DAtOrigin(CornerGradient2(ii, jj, Offset2(0, 0)), CornerGradient2(ii, jj, c),
                    CornerGradient2(ii, jj, Offset2(1, 1)), i, j, G2);
    }

    /** A lattice vertex of the 3D grid is its own cell origin. */
    lemma Skew3DAtVertex(i: int, j: int, k: int)
      requires Valid()
      ensures var t := (i + j + k) as real * G3;
              Skew3D(i as real - t, j as real - t, k as real - t) == Cell3(i, j, k, 0.0, 0.0, 0.0)
    {
      var t := (i + j + k) as real * G3;
      var x, y, z := i as real - t, j as real - t, k as real - t;
      var s := (x + y + z) * F3;
      assert s == t;
      VertexFloor(i, t, s);
      VertexFloor(j, t, s);
      VertexFloor(k, t, s);
    }

    /** 3D simplex noise vanishes at every lattice vertex. */
    lemma Noise3DVanishesAtVertices(i: int, j: int, k: int)
      requires Valid()
      ensures var t := (i + j + k) as real * G3;
              Noise3D(i as real - t, j as real - t, k as real - t) == 0.0
    {
      Skew3DAtVertex(i, j, k);
      var ii, jj, kk := Low8(i), Low8(j), Low8(k);
      var c := Corner3D(0.0, 0.0, 0.0);
      Sum3DAtOrigin(CornerGradient3(ii, jj, kk, Offset3(0, 0, 0)), CornerGradient3(ii, jj, kk, c.second),
                    CornerGradient3(ii, jj, kk, c.third), CornerGradient3(ii, jj, kk, Offset3(1, 1, 1)), i, j, k);
    }

    /** 4D simplex noise with ranked corners vanishes at every lattice vertex. */
    lemma Noise4DRankedVanishesAtVertices(i: int, j: int, k: int, l: int)
      requires Valid()
      ensures var t := (i + j + k + l) as real * G4;
              Noise4DRanked(i as real - t, j as real - t, k as real - t, l as real - t) == 0.0
    {
      Noise4DRankedAtVertex(i, j, k, l);
      Cell4DSumWzyAtOrigin(i, j, k, l);
    }

    /** At a lattice vertex the ranked 4D noise is the sum for the vertex's
        own cell, with the corners that step along w, then z and w, then
        y, z and w. */
    lemma Noise4DRankedAtVertex(i: int, j: int, k: int, l: int)
      requires Valid()
      ensures var t := (i + j + k + l) as real * G4;
              Noise4DRanked(i as real - t, j as real - t, k as real - t, l as real - t)
              == Cell4DSum(Cell4(i, j, k, l, 0.0, 0.0, 0.0, 0.0),
                           Corners4(Offset4(0, 0, 0, 1), Offset4(0, 0, 1, 1), Offset4(0, 1, 1, 1)))
    {
      var t := (i + j + k + l) as real * G4;
      Vertex4Cell(i, j, k, l);
      RankedCornersAtOrigin();
      Noise4DRankedOfCell(i as real - t, j as real - t, k as real - t, l as real - t, Cell4(i, j, k, l, 0.0, 0.0, 0.0, 0.0));
    }

    /** A lattice vertex of the 4D grid is its own cell origin. */
    lemma Vertex4Cell(i: int, j: int, k: int, l: int)
      requires SkewFactors(F2, G2, F3, G3, F4, G4)
      ensures var t := (i + j + k + l) as real * G4;
              Skew4D(i as real - t, j as real - t, k as real - t, l as real - t, F4, G4) == Cell4(i, j, k, l, 0.0, 0.0, 0.0, 0.0)
    {
      var f, g := F4, G4;
      Skew4Inverse(f, g);
      Skew4DAtVertex(i, j, k, l, f, g);
    }

    /** The ranked 4D noise of a sample whose cell is known. */
    lemma Noise4DRankedOfCell(x: real, y: real, z: real, w: real, cell: Cell4)
      requires Valid() && Skew4D(x, y, z, w, F4, G4) == cell
      ensures Noise4DRanked(x, y, z, w) == Cell4DSum(cell, Corners4DRanked(cell.x0, cell.y0, cell.z0, cell.w0))
    {
    }

    /** The 4D sum for the cell at a lattice vertex, over the corners that
        step along w, then z and w, then y, z and w, is zero. */
    lemma Cell4DSumWzyAtOrigin(i: int, j: int, k: int, l: int)
      requires Valid()
      ensures Cell4DSum(Cell4(i, j, k, l, 0.0, 0.0, 0.0, 0.0),
                        Corners4(Offset4(0, 0, 0, 1), Offset4(0, 0, 1, 1), Offset4(0, 1, 1, 1))) == 0.0
    {
      Skew4Inverse(F4, G4);
      var ii, jj, kk, ll := Low8(i), Low8(j), Low8(k), Low8(l);
      Sum4DWzyAtOrigin(CornerGradient4(ii, jj, kk, ll, Offset4(0, 0, 0, 0)),
        CornerGradient4(ii, jj, kk, ll, Offset4(0, 0, 0, 1)), CornerGradient4(ii, jj, kk, ll, Offset4(0, 0, 1, 1)),
        CornerGradient4(ii, jj, kk, ll, Offset4(0, 1, 1, 1)), CornerGradient4(ii, jj, kk, ll, Offset4(1, 1, 1, 1)),
        Cell4(i, j, k, l, 0.0, 0.0, 0.0, 0.0), G4);
    }

    /** `noise4D` as written does not vanish at the lattice vertex at the
        origin, whatever the permutation table: its three middle corners
        all coincide with the origin, which is inside the falloff radius
        for the second and third of them. */
    lemma Noise4DNonzeroAtOrigin()
      requires Valid()
      ensures Noise4D(0.0, 0.0, 0.0, 0.0) != 0.0
    {
      var cell := Cell4(0, 0, 0, 0, 0.0, 0.0, 0.0, 0.0);
      Vertex4Cell(0, 0, 0, 0);
      Noise4DOfCell(0.0, 0.0, 0.0, 0.0, cell);
      Cell4DSumCollapsedAtOrigin();
    }

    /** The as-written 4D noise of a sample whose cell is known. */
    lemma Noise4DOfCell(x: real, y: real, z: real, w: real, cell: Cell4)
      requires Valid() && Skew4D(x, y, z, w, F4, G4) == cell
      ensures Noise4D(x, y, z, w) == Cell4DSum(cell, Corners4D(cell.x0, cell.y0, cell.z0, cell.w0))
    {
    }

    /** The as-written 4D sum for the cell at the origin is not zero. */
    lemma Cell4DSumCollapsedAtOrigin()
      requires Valid()
      ensures Cell4DSum(Cell4(0, 0, 0, 0, 0.0, 0.0, 0.0, 0.0), Corners4D(0.0, 0.0, 0.0, 0.0)) != 0.0
    {
      Skew4Inverse(F4, G4);
      Corners4DCollapse();
      var o := Offset4(0, 0, 0, 0);
      var g := CornerGradient4(0, 0, 0, 0, o);
      CollapsedSumAtOrigin(g, CornerGradient4(0, 0, 0, 0, Offset4(1, 1, 1, 1)), G4);
    }
  }
}
