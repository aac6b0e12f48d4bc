/** The height-field machinery both worker scripts share: the point of the
    unit sphere for a latitude and a longitude, the fractal (fBm) sum of
    noise octaves, and the min/max normalisation of the finished height
    map, done in place on the array. */
module Terrain {
  import opened Numeric

  /** A 3D noise function such as the `noise3D` the workers create. */
  type Noise3 = (real, real, real) -> real

  /** `(cos lat cos lon, cos lat sin lon, sin lat)`, the point `mapToSphere`
      returns: on the unit sphere. */
  function SpherePoint(m: Transcendentals, lat: real, lon: real): (sp: Vec3)
    requires Lawful(m)
    ensures IsUnit(sp)
  {
    var c, s, a, b := m.cos(lat), m.sin(lat), m.cos(lon), m.sin(lon);
    UnitFromAngles(c, s, a, b);
    Vec3(c * a, c * b, s)
  }

  lemma UnitFromAngles(c: real, s: real, a: real, b: real)
    requires c * c + s * s == 1.0 && a * a + b * b == 1.0
    ensures NormSquared(Vec3(c * a, c * b, s)) == 1.0
  {
    calc {
      NormSquared(Vec3(c * a, c * b, s));
      (c * a) * (c * a) + (c * b) * (c * b) + s * s;
      (c * c) * (a * a + b * b) + s * s;
      c * c + s * s;
      1.0;
    }
  }

  /** The longitude `(x / width) * 2 * PI` of column `x`, shared by both
      `mapToSphere` variants: in [0, 2 PI) for the columns of the grid. */
  function Longitude(m: Transcendentals, x: int, width: int): (lon: real)
    requires Lawful(m) && 0 <= x < width
    ensures 0.0 <= lon < 2.0 * m.pi
  {
    FractionOfTurn(m.pi, x, width);
    (x as real / width as real) * 2.0 * m.pi
  }

  /** Column `x` (or row `y`) of the grid as a fraction of its size: in [0, 1). */
  lemma UnitFraction(x: int, n: int)
    requires 0 <= x < n
    ensures 0.0 <= x as real / n as real < 1.0
  {
    var f := x as real / n as real;
    QuotientBetween(x as real, n as real);
    assert f * n as real == x as real;
    var a, b := ScaleMonotoneNonneg(f, 1.0, n as real);
  }

  lemma FractionOfTurn(pi: real, x: int, width: int)
    requires 0.0 < pi && 0 <= x < width
    ensures 0.0 <= (x as real / width as real) * 2.0 * pi < 2.0 * pi
  {
    var f := x as real / width as real;
    UnitFraction(x, width);
    var lo, hi := ScaleMonotone(f * 2.0, 2.0, pi);
    var z, lo' := ScaleMonotoneNonneg(0.0, f * 2.0, pi);
  }

  /** Neighbouring columns are `2 PI / width` apart, so the last column of
      the grid lies `2 PI (width - 1) / width` east of the first: the seam
      at `x = width` is not drawn twice. */
  lemma LongitudeSeam(m: Transcendentals, x: int, width: int)
    requires Lawful(m) && 0 <= x && x + 1 < width
    ensures Longitude(m, x + 1, width) - Longitude(m, x, width) == 2.0 * m.pi / width as real
    ensures Longitude(m, width - 1, width) - Longitude(m, 0, width)
            == 2.0 * m.pi * (width - 1) as real / width as real
  {
    var w := width as real;
    assert (x + 1) as real / w - x as real / w == 1.0 / w;
    assert ((x + 1) as real / w) * 2.0 * m.pi - (x as real / w) * 2.0 * m.pi
        == ((x + 1) as real / w - x as real / w) * 2.0 * m.pi;
    assert ((width - 1) as real / w) * 2.0 * m.pi == 2.0 * m.pi * (width - 1) as real / w;
  }

  /** `b` to the `n`th power. */
  function Power(b: real, n: nat): real {
    if n == 0 then 1.0 else Power(b, n - 1) * b
  }

  lemma {:induction false} HalfPowerBounds(n: nat)
    ensures 0.0 < Power(0.5, n) <= 1.0
  {
    if n > 0 {
      HalfPowerBounds(n - 1);
    }
  }

  /** The octave count of the loop `for (o = 0; o < octaves; o++)`. */
  function OctaveCount(octaves: int): nat {
    if octaves < 0 then 0 else octaves
  }

  /** The noise at `sp` scaled by `freq`. */
  function Sample(noise3D: Noise3, sp: Vec3, freq: real): real {
    noise3D(sp.x * freq, sp.y * freq, sp.z * freq)
  }

  /** The first `n` octaves of fractal noise at `sp`: octave `o` samples
      the noise at frequency `base * 2^o` and weighs it by `0.5^o`. */
  function Fbm(noise3D: Noise3, sp: Vec3, base: real, n: nat): real {
    if n == 0 then 0.0
    else Fbm(noise3D, sp, base, n - 1) + Octave(noise3D, sp, Freq(base, n - 1), Amp(n - 1))
  }

  /** The frequency `base * 2^o` of octave `o`. */
  function Freq(base: real, o: nat): real {
    base * Power(2.0, o)
  }

  /** The amplitude `0.5^o` of octave `o`. */
  function Amp(o: nat): real {
    Power(0.5, o)
  }

  /** One octave: the noise at frequency `freq`, weighed by `amp`. */
  function Octave(noise3D: Noise3, sp: Vec3, freq: real, amp: real): real {
    Sample(noise3D, sp, freq) * amp
  }

  /** One more octave at frequency `freq` and amplitude `amp`. */
  lemma FbmNext(noise3D: Noise3, sp: Vec3, base: real, o: nat, freq: real, amp: real)
    requires freq == Freq(base, o) && amp == Amp(o)
    ensures Fbm(noise3D, sp, base, o + 1) == Fbm(noise3D, sp, base, o) + Sample(noise3D, sp, freq) * amp
  {
  }

  lemma FreqDoubles(base: real, o: nat)
    ensures Freq(base, o + 1) == Freq(base, o) * 2.0
  {
    assert base * (Power(2.0, o) * 2.0) == (base * Power(2.0, o)) * 2.0;
  }

  /** The octave loop of `generateHeightMap`: `freq` starts at `scale / 100`
      and doubles, `amp` starts at 1 and halves, and the result is the fBm
      sum of `octaves` octaves. */
  method FractalNoise(noise3D: Noise3, sp: Vec3, scale: real, octaves: int) returns (baseNoise: real)
    ensures baseNoise == Fbm(noise3D, sp, scale / 100.0, OctaveCount(octaves))
  {
    baseNoise := 0.0;
    var freq := scale / 100.0;
    var amp := 1.0;
    var o := 0;
    while o < octaves
      invariant 0 <= o && (0 <= octaves ==> o <= octaves) && (octaves < 0 ==> o == 0)
      invariant freq == Freq(scale / 100.0, o)
      invariant amp == Amp(o)
      invariant baseNoise == Fbm(noise3D, sp, scale / 100.0, o)
      decreases octaves - o
    {
      FbmNext(noise3D, sp, scale / 100.0, o, freq, amp);
      baseNoise := baseNoise + Sample(noise3D, sp, freq) * amp;
      FreqDoubles(scale / 100.0, o);
      freq := freq * 2.0;
      amp := amp * 0.5;
      o := o + 1;
    }
  }

  /** With a noise bounded by 1, `n` octaves stay within `2 - 2 * 0.5^n`
      (so within 2 for any number of octaves). */
  lemma {:induction false} FbmBounded(noise3D: Noise3, sp: Vec3, base: real, n: nat)
    requires forall x, y, z :: -1.0 <= noise3D(x, y, z) <= 1.0
    ensures Abs(Fbm(noise3D, sp, base, n)) <= 2.0 - 2.0 * Amp(n)
  {
    if n > 0 {
      FbmBounded(noise3D, sp, base, n - 1);
      HalfPowerBounds(n - 1);
      var t := Sample(noise3D, sp, Freq(base, n - 1));
      OctaveStep(Fbm(noise3D, sp, base, n - 1), t, Amp(n - 1));
    }
  }

  /** One more octave `t * a` with `|t| <= 1` moves the bound from
      `2 - 2 a` to `2 - a`. */
  lemma OctaveStep(f: real, t: real, a: real)
    requires Abs(f) <= 2.0 - 2.0 * a && -1.0 <= t <= 1.0 && 0.0 < a
    ensures Abs(f + t * a) <= 2.0 - 2.0 * (a * 0.5)
  {
    var lo, mid := ScaleMonotone(-1.0, t, a);
    var mid', hi := ScaleMonotone(t, 1.0, a);
  }

  /** The smallest value of a nonempty sequence: a lower bound that is
      attained. */
  function SeqMin(s: seq<real>): (lo: real)
    requires |s| > 0
    ensures forall j :: 0 <= j < |s| ==> lo <= s[j]
    ensures exists j :: 0 <= j < |s| && s[j] == lo
  {
    if |s| == 1 then s[0]
    else
      var lo' := SeqMin(s[..|s| - 1]);
      assert forall j :: 0 <= j < |s| - 1 ==> s[..|s| - 1][j] == s[j];
      Min(lo', s[|s| - 1])
  }

  /** The largest value of a nonempty sequence: an upper bound that is
      attained. */
  function SeqMax(s: seq<real>): (hi: real)
    requires |s| > 0
    ensures forall j :: 0 <= j < |s| ==> s[j] <= hi
    ensures exists j :: 0 <= j < |s| && s[j] == hi
  {
    if |s| == 1 then s[0]
    else
      var hi' := SeqMax(s[..|s| - 1]);
      assert forall j :: 0 <= j < |s| - 1 ==> s[..|s| - 1][j] == s[j];
      Max(hi', s[|s| - 1])
  }

  /** An attained lower bound is the minimum, an attained upper bound the
      maximum. */
  lemma ExtremaUnique(s: seq<real>, lo: real, hi: real, i: int, j: int)
    requires 0 <= i < |s| && 0 <= j < |s| && s[i] == lo && s[j] == hi
    requires forall k :: 0 <= k < |s| ==> lo <= s[k] <= hi
    ensures SeqMin(s) == lo && SeqMax(s) == hi
  {
  }

  /** The running minimum and maximum of the fill loop: one more value
      updates them with a single comparison each. */
  lemma ExtremaSnoc(s: seq<real>, k: int)
    requires 0 < k < |s|
    ensures SeqMin(s[..k + 1]) == Min(SeqMin(s[..k]), s[k])
    ensures SeqMax(s[..k + 1]) == Max(SeqMax(s[..k]), s[k])
  {
    assert s[..k + 1][..k] == s[..k];
  }

  /** The running extrema of the fill loops, `if (h < minVal) minVal = h`
      and `if (h > maxVal) maxVal = h`, for the height `h` of pixel `i`.
      The source starts from `minVal = Infinity` and `maxVal = -Infinity`,
      so the first pixel always replaces both; the model says so with the
      test `i == 0`. Afterwards they are the minimum and the maximum of the
      heights so far. */
  method UpdateExtrema(ghost s: seq<real>, i: int, h: real, minVal: real, maxVal: real) returns (lo: real, hi: real)
    requires 0 <= i < |s| && s[i] == h
    requires i > 0 ==> minVal == SeqMin(s[..i]) && maxVal == SeqMax(s[..i])
    ensures lo == SeqMin(s[..i + 1]) && hi == SeqMax(s[..i + 1])
  {
    lo, hi := minVal, maxVal;
    if i == 0 || h < lo {
      lo := h;
    }
    if i == 0 || h > hi {
      hi := h;
    }
    if i > 0 {
      ExtremaSnoc(s, i);
    }
  }

  /** `heightMap[i] = finalHeight` followed by the extrema update: the
      heights so far grow by one, and so do the extrema they are taken
      over. */
  method StoreHeight(heightMap: array<real>, ghost s: seq<real>, i: int, h: real, minVal: real, maxVal: real)
    returns (lo: real, hi: real)
    requires heightMap.Length == |s| && 0 <= i < |s| && s[i] == h
    requires forall k :: 0 <= k < i ==> heightMap[k] == s[k]
    requires i > 0 ==> minVal == SeqMin(s[..i]) && maxVal == SeqMax(s[..i])
    modifies heightMap
    ensures forall k :: 0 <= k < i + 1 ==> heightMap[k] == s[k]
    ensures lo == SeqMin(s[..i + 1]) && hi == SeqMax(s[..i + 1])
  {
    heightMap[i] := h;
    lo, hi := UpdateExtrema(s, i, h, minVal, maxVal);
  }
  /** The first `rows` rows of `a`, of `width` entries each, are those of
      `s`, and `lo`, `hi` are their extrema. */
  ghost predicate RowsFilled(a: seq<real>, s: seq<real>, rows: int, width: int, lo: real, hi: real) {
    && 0 <= rows * width <= |a| == |s|
    && a[..rows * width] == s[..rows * width]
    && (0 < rows * width ==> lo == SeqMin(s[..rows * width]) && hi == SeqMax(s[..rows * width]))
  }

  /** The rows filled so far, entry by entry. */
  lemma RowsFilledPointwise(a: seq<real>, s: seq<real>, rows: int, width: int, lo: real, hi: real)
    requires RowsFilled(a, s, rows, width, lo, hi)
    ensures forall k :: 0 <= k < rows * width ==> a[k] == s[k]
    ensures 0 < rows * width ==> lo == SeqMin(s[..rows * width]) && hi == SeqMax(s[..rows * width])
  {
    var n := rows * width;
    assert forall k :: 0 <= k < n ==> a[k] == a[..n][k] && s[k] == s[..n][k];
  }

  /** One more row filled, entry by entry, makes one more filled row. */
  lemma RowsFilledNext(a: seq<real>, s: seq<real>, rows: int, width: int, lo: real, hi: real)
    requires 0 <= width && 0 <= rows * width && (rows + 1) * width == rows * width + width <= |a| == |s|
    requires forall k :: 0 <= k < rows * width + width ==> a[k] == s[k]
    requires 0 < rows * width + width ==> lo == SeqMin(s[..rows * width + width]) && hi == SeqMax(s[..rows * width + width])
    ensures RowsFilled(a, s, rows + 1, width, lo, hi)
  {
    assert a[..rows * width + width] == s[..rows * width + width];
  }

  /** Once every row is filled, the array holds `s` and its extrema. */
  lemma AllRowsFilled(a: seq<real>, s: seq<real>, height: int, width: int, lo: real, hi: real)
    requires RowsFilled(a, s, height, width, lo, hi) && |s| == width * height
    ensures a == s
    ensures |s| > 0 ==> lo == SeqMin(s) && hi == SeqMax(s)
  {
    assert a[..|a|] == a && s[..|s|] == s;
  }


  /** `(h - lo) / range`: the height `h` measured from `lo` in units of `range`. */
  function Rescale(h: real, lo: real, range: real): real
    requires range != 0.0
  {
    (h - lo) / range
  }

  /** `Rescale` applied to every value. */
  function Rescaled(s: seq<real>, lo: real, range: real): (r: seq<real>)
    requires range != 0.0
    ensures |r| == |s|
  {
    seq(|s|, i requires 0 <= i < |s| => Rescale(s[i], lo, range))
  }

  /** The spread `max - min` of a nonempty sequence. */
  function Spread(s: seq<real>): real
    requires |s| > 0
  {
    SeqMax(s) - SeqMin(s)
  }

  /** The normalisation step: when the spread between the largest and the
      smallest height exceeds `threshold`, every height is mapped to
      `(h - min) / (max - min)`; otherwise (a flat or an empty map) the
      heights stay as they are. */
  function Normalized(s: seq<real>, threshold: real): (r: seq<real>)
    requires 0.0 <= threshold
    ensures |r| == |s|
  {
    if |s| > 0 && Spread(s) > threshold then Rescaled(s, SeqMin(s), Spread(s))
    else s
  }

  /** When the spread exceeds the threshold, every normalised height lies
      in [0, 1], the lowest becomes exactly 0 and the highest exactly 1. */
  lemma NormalizedUnitRange(s: seq<real>, threshold: real)
    requires 0.0 <= threshold && |s| > 0 && Spread(s) > threshold
    ensures forall i :: 0 <= i < |s| ==> 0.0 <= Normalized(s, threshold)[i] <= 1.0
    ensures forall i :: 0 <= i < |s| && s[i] == SeqMin(s) ==> Normalized(s, threshold)[i] == 0.0
    ensures forall i :: 0 <= i < |s| && s[i] == SeqMax(s) ==> Normalized(s, threshold)[i] == 1.0
  {
    RescaledUnitRange(s, SeqMin(s), SeqMax(s), Spread(s));
  }

  /** Values between `lo` and `hi = lo + range` rescale into [0, 1], `lo`
      to 0 and `hi` to 1. */
  lemma RescaledUnitRange(s: seq<real>, lo: real, hi: real, range: real)
    requires 0.0 < range == hi - lo && forall k :: 0 <= k < |s| ==> lo <= s[k] <= hi
    ensures forall i :: 0 <= i < |s| ==> 0.0 <= Rescaled(s, lo, range)[i] <= 1.0
    ensures forall i :: 0 <= i < |s| && s[i] == lo ==> Rescaled(s, lo, range)[i] == 0.0
    ensures forall i :: 0 <= i < |s| && s[i] == hi ==> Rescaled(s, lo, range)[i] == 1.0
  {
    forall i | 0 <= i < |s|
      ensures 0.0 <= Rescaled(s, lo, range)[i] <= 1.0
      ensures s[i] == lo ==> Rescaled(s, lo, range)[i] == 0.0
      ensures s[i] == hi ==> Rescaled(s, lo, range)[i] == 1.0
    {
      RescaleBetween(s[i], lo, hi, range);
    }
  }

  /** One value between `lo` and `hi` rescales into [0, 1]. */
  lemma RescaleBetween(h: real, lo: real, hi: real, range: real)
    requires 0.0 < range == hi - lo && lo <= h <= hi
    ensures 0.0 <= Rescale(h, lo, range) <= 1.0
    ensures h == lo ==> Rescale(h, lo, range) == 0.0
    ensures h == hi ==> Rescale(h, lo, range) == 1.0
  {
    QuotientBetween(h - lo, range);
  }

  lemma QuotientBetween(a: real, d: real)
    requires 0.0 <= a <= d && 0.0 < d
    ensures 0.0 <= a / d <= 1.0
  {
    var q := a / d;
    assert q * d == a;
    if 1.0 < q {
      MulPositive(q - 1.0, d);
    } else if q < 0.0 {
      MulPositive(-q, d);
    }
  }

  /** Normalisation keeps the order of the heights, in both directions. */
  lemma NormalizedKeepsOrder(s: seq<real>, threshold: real, i: int, j: int)
    requires 0.0 <= threshold && 0 <= i < |s| && 0 <= j < |s|
    ensures s[i] <= s[j] <==> Normalized(s, threshold)[i] <= Normalized(s, threshold)[j]
  {
    if |s| > 0 && Spread(s) > threshold {
      QuotientOrder(s[i] - SeqMin(s), s[j] - SeqMin(s), Spread(s));
    }
  }

  /** Normalising a normalised map changes nothing (for a threshold below
      the new spread of 1). */
  lemma NormalizedIdempotent(s: seq<real>, threshold: real)
    requires 0.0 <= threshold < 1.0
    ensures Normalized(Normalized(s, threshold), threshold) == Normalized(s, threshold)
  {
    if |s| > 0 && Spread(s) > threshold {
      var r := Normalized(s, threshold);
      NormalizedUnitRange(s, threshold);
      var i :| 0 <= i < |s| && s[i] == SeqMin(s);
      var j :| 0 <= j < |s| && s[j] == SeqMax(s);
      ExtremaUnique(r, 0.0, 1.0, i, j);
      assert Spread(r) == 1.0;
      assert Rescaled(r, 0.0, 1.0) == r;
    }
  }

  /** The normalisation loop, rewriting the array in place from the
      minimum and maximum found while filling it. */
  method NormalizeInPlace(heightMap: array<real>, minVal: real, maxVal: real, threshold: real)
    requires 0.0 <= threshold
    requires heightMap.Length > 0 ==> minVal == SeqMin(heightMap[..]) && maxVal == SeqMax(heightMap[..])
    modifies heightMap
    ensures heightMap[..] == Normalized(old(heightMap[..]), threshold)
  {
    ghost var s := heightMap[..];
    var range := maxVal - minVal;
    if range > threshold {
      assert |s| > 0 ==> range == Spread(s);
      RescaleInPlace(heightMap, minVal, range);
    }
  }

  /** `heightMap[i] = (heightMap[i] - lo) / range` for every index. */
  method RescaleInPlace(heightMap: array<real>, lo: real, range: real)
    requires range != 0.0
    modifies heightMap
    ensures heightMap[..] == Rescaled(old(heightMap[..]), lo, range)
  {
    ghost var s := heightMap[..];
    for i := 0 to heightMap.Length
      invariant forall k :: 0 <= k < i ==> heightMap[k] == Rescale(s[k], lo, range)
      invariant forall k :: i <= k < heightMap.Length ==> heightMap[k] == s[k]
    {
      heightMap[i] := (heightMap[i] - lo) / range;
    }
    assert heightMap[..] == Rescaled(s, lo, range);
  }
}
