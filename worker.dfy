/** The generation pipeline of `worker.js`: the plain latitude/longitude
    sphere mapping, the height map made of fractal noise minus a single
    inverted-noise crater term, normalised whenever its spread is
    positive, and the colour map sampled from one texture with
    `%`-reduced coordinates and shaded from a clamped height gradient. */
module Worker {
  import opened Numeric
  import opened Grid
  import opened Terrain
  import opened Raster

  /** The height map is rescaled whenever its spread exceeds this. */
  const FlatThreshold: real := 0.0

  /** The surface normal is `(-gx * shading, -gy * shading, 0.1)`. */
  const NormalZ: real := 0.1

  /** The fields of the request message this worker reads. */
  datatype Params = Params(
    width: int, height: int,
    scale: real, octaves: int,
    craterScale: real, craterStrength: real,
    texture: Texture,
    textureWorldScale: real, perturbStrength: real, shadingStrength: real)

  /** Nonnegative grid dimensions and a well-formed texture. */
  predicate ValidParams(p: Params) {
    0 <= p.width && 0 <= p.height && ValidTexture(p.texture)
  }

  // ---------------------------------------------------------------------
  // mapToSphere
  // ---------------------------------------------------------------------

  /** `(y / height) * PI - PI / 2`: the latitude of row `y`, in
      [-PI/2, PI/2) for the rows of the grid. */
  function Latitude(m: Transcendentals, y: int, height: int): (lat: real)
    requires Lawful(m) && 0 <= y < height
    ensures -m.pi / 2.0 <= lat < m.pi / 2.0
  {
    HalfTurnFraction(m.pi, y, height);
    (y as real / height as real) * m.pi - m.pi / 2.0
  }

  lemma HalfTurnFraction(pi: real, y: int, height: int)
    requires 0.0 < pi && 0 <= y < height
    ensures 0.0 <= (y as real / height as real) * pi < pi
  {
    var f := y as real / height as real;
    UnitFraction(y, height);
    var lo, hi := ScaleMonotone(f, 1.0, pi);
    var z, lo' := ScaleMonotoneNonneg(0.0, f, pi);
  }

  /** The first row lies on the south pole and the rows are `PI / height`
      apart, so the last row stops one step short of the north pole. */
  lemma LatitudeRows(m: Transcendentals, y: int, height: int)
    requires Lawful(m) && 0 <= y && y + 1 < height
    ensures Latitude(m, 0, height) == -m.pi / 2.0
    ensures Latitude(m, y + 1, height) - Latitude(m, y, height) == m.pi / height as real
    ensures Latitude(m, height - 1, height) == m.pi / 2.0 - m.pi / height as real
  {
    var h := height as real;
    assert (y + 1) as real / h - y as real / h == 1.0 / h;
    assert ((y + 1) as real / h) * m.pi - (y as real / h) * m.pi == ((y + 1) as real / h - y as real / h) * m.pi;
    assert (height - 1) as real / h == 1.0 - 1.0 / h;
    assert (1.0 - 1.0 / h) * m.pi == m.pi - m.pi / h;
  }

  /** `mapToSphere(x, y, width, height)`: a point of the unit sphere. */
  function MapToSphere(m: Transcendentals, x: int, y: int, width: int, height: int): (sp: Vec3)
    requires Lawful(m) && 0 <= x < width && 0 <= y < height
    ensures IsUnit(sp)
  {
    SpherePoint(m, Latitude(m, y, height), Longitude(m, x, width))
  }

  // ---------------------------------------------------------------------
  // The crater term
  // ---------------------------------------------------------------------

  /** `Math.pow(d, 4)`. */
  function Fourth(d: real): real {
    (d * d) * (d * d)
  }

  /** A fourth power of a value in [0, 1] lies in [0, 1], and it grows
      with the value. */
  lemma FourthBetween(d: real, d': real)
    requires 0.0 <= d <= d' <= 1.0
    ensures 0.0 <= Fourth(d) <= Fourth(d') <= 1.0
  {
    var a, b := ScaleMonotoneNonneg(d, d', d);
    var c, e := ScaleMonotoneNonneg(d, d', d');
    var s, s' := d * d, d' * d';
    var f, g := ScaleMonotoneNonneg(s, s', s);
    var h, k := ScaleMonotoneNonneg(s, s', s');
    var one, e' := ScaleMonotoneNonneg(d', 1.0, d');
    var l, n := ScaleMonotoneNonneg(s', 1.0, s');
    var z, z' := ScaleMonotoneNonneg(0.0, s, s);
  }

  /** `(1 - (raw + 1) / 2)^4 * crater_strength`: for a raw noise value in
      [-1, 1] and a nonnegative strength, between nothing (at `raw = 1`)
      and the full strength (at `raw = -1`). */
  function CraterNoise(raw: real, strength: real): (c: real)
    ensures -1.0 <= raw <= 1.0 && 0.0 <= strength ==> 0.0 <= c <= strength
    ensures raw == 1.0 ==> c == 0.0
    ensures raw == -1.0 ==> c == strength
  {
    var d := 1.0 - (raw + 1.0) / 2.0;
    ScaledFourth(d, strength);
    Fourth(d) * strength
  }

  /** `d^4 * strength` for `d` in [0, 1] lies between nothing and the
      strength. */
  lemma ScaledFourth(d: real, strength: real)
    ensures 0.0 <= d <= 1.0 && 0.0 <= strength ==> 0.0 <= Fourth(d) * strength <= strength
  {
    if 0.0 <= d <= 1.0 && 0.0 <= strength {
      FourthBetween(d, 1.0);
      var lo, hi := ScaleMonotoneNonneg(0.0, Fourth(d), strength);
      var hi', top := ScaleMonotoneNonneg(Fourth(d), 1.0, strength);
    }
  }

  /** The lower the raw crater noise, the deeper the crater term. */
  lemma CraterNoiseMonotone(raw: real, raw': real, strength: real)
    requires -1.0 <= raw <= raw' <= 1.0 && 0.0 <= strength
    ensures CraterNoise(raw', strength) <= CraterNoise(raw, strength)
  {
    var d, d' := 1.0 - (raw + 1.0) / 2.0, 1.0 - (raw' + 1.0) / 2.0;
    FourthBetween(d', d);
    var a, b := ScaleMonotoneNonneg(Fourth(d'), Fourth(d), strength);
  }

  /** The raw crater noise at `sp`: `noise3D` at the point scaled by
      `crater_scale / 100` and moved by 100 along every axis. */
  function CraterSample(noise3D: Noise3, sp: Vec3, craterScale: real): real {
    noise3D(sp.x * craterScale / 100.0 + 100.0, sp.y * craterScale / 100.0 + 100.0, sp.z * craterScale / 100.0 + 100.0)
  }

  // ---------------------------------------------------------------------
  // generateHeightMap
  // ---------------------------------------------------------------------

  /** The height of pixel `(x, y)` before normalisation: `octaves` octaves
      of fractal noise from frequency `scale / 100`, minus the crater
      term. */
  function RawHeight(m: Transcendentals, noise3D: Noise3, p: Params, x: int, y: int): real
    requires Lawful(m) && 0 <= x < p.width && 0 <= y < p.height
  {
    var sp := MapToSphere(m, x, y, p.width, p.height);
    Fbm(noise3D, sp, p.scale / 100.0, OctaveCount(p.octaves)) - CraterNoise(CraterSample(noise3D, sp, p.craterScale), p.craterStrength)
  }

  /** With a noise bounded by 1 and a nonnegative crater strength, the raw
      height lies in [-2 - strength, 2]: the fractal sum stays within 2
      and the crater term only lowers it, by at most the strength. */
  lemma RawHeightBounds(m: Transcendentals, noise3D: Noise3, p: Params, x: int, y: int)
    requires Lawful(m) && 0 <= x < p.width && 0 <= y < p.height
    requires forall a, b, c :: -1.0 <= noise3D(a, b, c) <= 1.0
    requires 0.0 <= p.craterStrength
    ensures -2.0 - p.craterStrength <= RawHeight(m, noise3D, p, x, y) <= 2.0
  {
    var sp := MapToSphere(m, x, y, p.width, p.height);
    var n := OctaveCount(p.octaves);
    FbmBounded(noise3D, sp, p.scale / 100.0, n);
    HalfPowerBounds(n);
    var raw := CraterSample(noise3D, sp, p.craterScale);
    assert -1.0 <= raw <= 1.0;
  }

  /** The raw height at flat index `k`. */
  function RawHeightAt(m: Transcendentals, noise3D: Noise3, p: Params, k: int): real
    requires Lawful(m) && 0 <= p.width && 0 <= p.height && 0 <= k < p.width * p.height
  {
    IndexSplit(k, p.width, p.height);
    RawHeight(m, noise3D, p, k % p.width, k / p.width)
  }

  /** The raw heights in row-major order. */
  function RawHeights(m: Transcendentals, noise3D: Noise3, p: Params): (s: seq<real>)
    requires Lawful(m) && 0 <= p.width && 0 <= p.height
    ensures |s| == p.width * p.height
  {
    seq(p.width * p.height, k requires 0 <= k < p.width * p.height => RawHeightAt(m, noise3D, p, k))
  }

  /** The height map of a request: the raw heights, normalised whenever
      their spread is positive. */
  function HeightMap(m: Transcendentals, noise3D: Noise3, p: Params): (s: seq<real>)
    requires Lawful(m) && 0 <= p.width && 0 <= p.height
    ensures |s| == p.width * p.height
  {
    Normalized(RawHeights(m, noise3D, p), FlatThreshold)
  }

  /** The raw height at flat index `Index(x, y, width)` is that of pixel `(x, y)`. */
  lemma RawHeightIndex(m: Transcendentals, noise3D: Noise3, p: Params, x: int, y: int)
    requires Lawful(m) && 0 <= x < p.width && 0 <= y < p.height
    ensures 0 <= Index(x, y, p.width) < p.width * p.height
    ensures RawHeights(m, noise3D, p)[Index(x, y, p.width)] == RawHeight(m, noise3D, p, x, y)
  {
    IndexInBounds(x, y, p.width, p.height);
    IndexDecompose(x, y, p.width);
  }

  /** The body of the pixel loop: the point on the sphere, its fractal
      noise and its crater term. */
  method PixelHeight(m: Transcendentals, noise3D: Noise3, p: Params, x: int, y: int) returns (finalHeight: real)
    requires Lawful(m) && 0 <= x < p.width && 0 <= y < p.height
    ensures finalHeight == RawHeight(m, noise3D, p, x, y)
  {
    var sp := MapToSphere(m, x, y, p.width, p.height);
    var baseNoise := FractalNoise(noise3D, sp, p.scale, p.octaves);
    var craterNoiseRaw := CraterSample(noise3D, sp, p.craterScale);
    var craterNoise := CraterNoise(craterNoiseRaw, p.craterStrength);
    finalHeight := baseNoise - craterNoise;
  }

  /** `raw` holds the raw height of every pixel at its row-major index. */
  ghost predicate PixelsHold(m: Transcendentals, noise3D: Noise3, p: Params, raw: seq<real>)
    requires Lawful(m)
  {
    && 0 <= p.width && 0 <= p.height && |raw| == p.width * p.height
    && forall x, y :: 0 <= x < p.width && 0 <= y < p.height ==>
        0 <= Index(x, y, p.width) < |raw| && raw[Index(x, y, p.width)] == RawHeight(m, noise3D, p, x, y)
  }

  /** The raw heights are the only sequence holding every pixel's raw height. */
  lemma PixelsHoldRawHeights(m: Transcendentals, noise3D: Noise3, p: Params, raw: seq<real>)
    requires Lawful(m) && 0 <= p.width && 0 <= p.height
    ensures PixelsHold(m, noise3D, p, raw) <==> raw == RawHeights(m, noise3D, p)
  {
    var all := RawHeights(m, noise3D, p);
    forall x, y | 0 <= x < p.width && 0 <= y < p.height
      ensures 0 <= Index(x, y, p.width) < |all| && all[Index(x, y, p.width)] == RawHeight(m, noise3D, p, x, y)
    {
      RawHeightIndex(m, noise3D, p, x, y);
    }
    if PixelsHold(m, noise3D, p, raw) {
      forall k | 0 <= k < |raw|
        ensures raw[k] == all[k]
      {
        IndexSplit(k, p.width, p.height);
        IndexDecompose(k % p.width, k / p.width, p.width);
        assert Index(k % p.width, k / p.width, p.width) == k;
      }
    }
  }

  /** `generateHeightMap(params, noise3D)`: every pixel row by row with its
      running extrema, then the normalisation in place. */
  method GenerateHeightMap(m: Transcendentals, noise3D: Noise3, p: Params) returns (heightMap: array<real>)
    requires Lawful(m) && 0 <= p.width && 0 <= p.height
    ensures heightMap[..] == HeightMap(m, noise3D, p)
  {
    heightMap := new real[p.width * p.height];
    ghost var raw := RawHeights(m, noise3D, p);
    PixelsHoldRawHeights(m, noise3D, p, raw);
    var minVal, maxVal := HeightRows(m, noise3D, p, raw, heightMap);
    NormalizeInPlace(heightMap, minVal, maxVal, FlatThreshold);
  }

  /** The row loop of `generateHeightMap`: the raw heights of every pixel,
      and their extrema. */
  method HeightRows(m: Transcendentals, noise3D: Noise3, p: Params, ghost raw: seq<real>, heightMap: array<real>)
    returns (minVal: real, maxVal: real)
    requires Lawful(m) && PixelsHold(m, noise3D, p, raw) && heightMap.Length == |raw|
    modifies heightMap
    ensures heightMap[..] == raw
    ensures |raw| > 0 ==> minVal == SeqMin(raw) && maxVal == SeqMax(raw)
  {
    minVal, maxVal := 0.0, 0.0;
    for y := 0 to p.height
      invariant RowsFilled(heightMap[..], raw, y, p.width, minVal, maxVal)
    {
      minVal, maxVal := HeightRow(m, noise3D, p, raw, y, heightMap, minVal, maxVal);
    }
    AllRowsFilled(heightMap[..], raw, p.height, p.width, minVal, maxVal);
  }

  /** One row of the pixel loop of `generateHeightMap`: the raw heights of
      row `y` after those of the rows above, and the extrema of all of them. */
  method HeightRow(m: Transcendentals, noise3D: Noise3, p: Params, ghost raw: seq<real>, y: int,
                   heightMap: array<real>, minVal: real, maxVal: real) returns (lo: real, hi: real)
    requires Lawful(m) && PixelsHold(m, noise3D, p, raw) && 0 <= y < p.height
    requires RowsFilled(heightMap[..], raw, y, p.width, minVal, maxVal)
    modifies heightMap
    ensures RowsFilled(heightMap[..], raw, y + 1, p.width, lo, hi)
  {
    RowFits(y, p.width, p.height);
    RowsFilledPointwise(heightMap[..], raw, y, p.width, minVal, maxVal);
    lo, hi := RowPixels(m, noise3D, p, raw, y, y * p.width, heightMap, minVal, maxVal);
    RowsFilledNext(heightMap[..], raw, y, p.width, lo, hi);
  }

  /** The columns of row `y`, whose first index is `start`. */
  method RowPixels(m: Transcendentals, noise3D: Noise3, p: Params, ghost raw: seq<real>, y: int, ghost start: int,
                   heightMap: array<real>, minVal: real, maxVal: real) returns (lo: real, hi: real)
    requires Lawful(m) && PixelsHold(m, noise3D, p, raw) && heightMap.Length == |raw|
    requires 0 <= y < p.height && start == y * p.width && start + p.width <= |raw|
    requires forall k :: 0 <= k < start ==> heightMap[k] == raw[k]
    requires 0 < start ==> minVal == SeqMin(raw[..start]) && maxVal == SeqMax(raw[..start])
    modifies heightMap
    ensures forall k :: 0 <= k < start + p.width ==> heightMap[k] == raw[k]
    ensures 0 < start + p.width ==> lo == SeqMin(raw[..start + p.width]) && hi == SeqMax(raw[..start + p.width])
  {
    lo, hi := minVal, maxVal;
    for x := 0 to p.width
      invariant forall k :: 0 <= k < start + x ==> heightMap[k] == raw[k]
      invariant 0 < start + x ==> lo == SeqMin(raw[..start + x]) && hi == SeqMax(raw[..start + x])
    {
      lo, hi := StorePixel(m, noise3D, p, raw, heightMap, x, y, start + x, lo, hi);
    }
  }

  /** The body of the pixel loop: the height of pixel `(x, y)` stored at
      its index `i`, and the extrema extended by it. */
  method StorePixel(m: Transcendentals, noise3D: Noise3, p: Params, ghost raw: seq<real>, heightMap: array<real>,
                    x: int, y: int, ghost i: int, minVal: real, maxVal: real) returns (lo: real, hi: real)
    requires Lawful(m) && PixelsHold(m, noise3D, p, raw) && heightMap.Length == |raw|
    requires 0 <= x < p.width && 0 <= y < p.height && i == Index(x, y, p.width)
    requires forall k :: 0 <= k < i ==> heightMap[k] == raw[k]
    requires 0 < i ==> minVal == SeqMin(raw[..i]) && maxVal == SeqMax(raw[..i])
    modifies heightMap
    ensures forall k :: 0 <= k < i + 1 ==> heightMap[k] == raw[k]
    ensures lo == SeqMin(raw[..i + 1]) && hi == SeqMax(raw[..i + 1])
  {
    var idx := Index(x, y, p.width);
    var finalHeight := PixelHeight(m, noise3D, p, x, y);
    lo, hi := StoreHeight(heightMap, raw, idx, finalHeight, minVal, maxVal);
  }

  /** The finished height map: when the raw heights are not all equal,
      every height lies in [0, 1] and the lowest and highest pixels become
      exactly 0 and 1; a perfectly flat (or empty) map is returned as it
      is. */
  lemma HeightMapNormalized(m: Transcendentals, noise3D: Noise3, p: Params)
    requires Lawful(m) && 0 <= p.width && 0 <= p.height
    ensures var raw, s := RawHeights(m, noise3D, p), HeightMap(m, noise3D, p);
      if |raw| > 0 && Spread(raw) > 0.0 then
        && (forall i :: 0 <= i < |s| ==> 0.0 <= s[i] <= 1.0)
        && (forall i :: 0 <= i < |s| && raw[i] == SeqMin(raw) ==> s[i] == 0.0)
        && (forall i :: 0 <= i < |s| && raw[i] == SeqMax(raw) ==> s[i] == 1.0)
      else s == raw
  {
    var raw := RawHeights(m, noise3D, p);
    if |raw| > 0 && Spread(raw) > 0.0 {
      NormalizedUnitRange(raw, FlatThreshold);
    }
  }

  // ---------------------------------------------------------------------
  // calculateGradient (clamped)
  // ---------------------------------------------------------------------

  /** The previous column (or row), staying on the first: `x > 0 ? x - 1 : x`. */
  function ClampPrev(x: int): (r: int)
    requires 0 <= x
    ensures 0 <= r <= x && (0 < x ==> r == x - 1)
  {
    if x > 0 then x - 1 else x
  }

  /** The next column (or row), staying on the last: `x < n - 1 ? x + 1 : x`. */
  function ClampNext(x: int, n: int): (r: int)
    requires 0 <= x < n
    ensures x <= r < n && (x < n - 1 ==> r == x + 1)
  {
    if x < n - 1 then x + 1 else x
  }

  /** The height of pixel `(x, y)`: `data[y * width + x]`. */
  function Height(data: seq<real>, width: int, height: int, x: int, y: int): real
    requires |data| == width * height && 0 <= x < width && 0 <= y < height
  {
    IndexInBounds(x, y, width, height);
    data[Index(x, y, width)]
  }

  /** `gx` at `(x, y)`: half the difference between the heights of the
      right and the left neighbours, each clamped to the row. */
  function GradX(data: seq<real>, width: int, height: int, x: int, y: int): real
    requires |data| == width * height && 0 <= x < width && 0 <= y < height
  {
    (Height(data, width, height, ClampNext(x, width), y) - Height(data, width, height, ClampPrev(x), y)) / 2.0
  }

  /** `gy` at `(x, y)`: half the difference between the heights below and
      above, each clamped to the column. */
  function GradY(data: seq<real>, width: int, height: int, x: int, y: int): real
    requires |data| == width * height && 0 <= x < width && 0 <= y < height
  {
    (Height(data, width, height, x, ClampNext(y, height)) - Height(data, width, height, x, ClampPrev(y))) / 2.0
  }

  function GradXAt(data: seq<real>, width: int, height: int, k: int): real
    requires 0 <= width && 0 <= height && |data| == width * height && 0 <= k < |data|
  {
    IndexSplit(k, width, height);
    GradX(data, width, height, k % width, k / width)
  }

  function GradYAt(data: seq<real>, width: int, height: int, k: int): real
    requires 0 <= width && 0 <= height && |data| == width * height && 0 <= k < |data|
  {
    IndexSplit(k, width, height);
    GradY(data, width, height, k % width, k / width)
  }

  /** The gradient at flat index `Index(x, y, width)` is that of pixel `(x, y)`. */
  lemma GradIndex(data: seq<real>, width: int, height: int, x: int, y: int)
    requires |data| == width * height && 0 <= x < width && 0 <= y < height
    ensures 0 <= Index(x, y, width) < |data|
    ensures GradXAt(data, width, height, Index(x, y, width)) == GradX(data, width, height, x, y)
    ensures GradYAt(data, width, height, Index(x, y, width)) == GradY(data, width, height, x, y)
  {
    IndexInBounds(x, y, width, height);
    IndexDecompose(x, y, width);
  }

  /** The four neighbours of pixel `(x, y)` read by the gradient, clamped
      at the edges: all inside the grid. */
  lemma NeighbourIndices(width: int, height: int, x: int, y: int)
    requires 0 <= x < width && 0 <= y < height
    ensures 0 <= Index(ClampPrev(x), y, width) < width * height
    ensures 0 <= Index(ClampNext(x, width), y, width) < width * height
    ensures 0 <= Index(x, ClampPrev(y), width) < width * height
    ensures 0 <= Index(x, ClampNext(y, height), width) < width * height
  {
    IndexInBounds(ClampPrev(x), y, width, height);
    IndexInBounds(ClampNext(x, width), y, width, height);
    IndexInBounds(x, ClampPrev(y), width, height);
    IndexInBounds(x, ClampNext(y, height), width, height);
  }

  /** Inside the row `gx` is the central difference halved; on the first
      and the last column it is half the one-sided difference; on a row of
      one pixel it is 0. */
  lemma GradXCases(data: seq<real>, width: int, height: int, x: int, y: int)
    requires |data| == width * height && 0 <= x < width && 0 <= y < height
    ensures 0 < x < width - 1 ==>
      GradX(data, width, height, x, y) == (Height(data, width, height, x + 1, y) - Height(data, width, height, x - 1, y)) / 2.0
    ensures 0 == x < width - 1 ==>
      GradX(data, width, height, x, y) == (Height(data, width, height, 1, y) - Height(data, width, height, 0, y)) / 2.0
    ensures 0 < x == width - 1 ==>
      GradX(data, width, height, x, y) == (Height(data, width, height, x, y) - Height(data, width, height, x - 1, y)) / 2.0
    ensures width == 1 ==> GradX(data, width, height, x, y) == 0.0
  {
  }

  /** Inside the column `gy` is the central difference halved; on the
      first and the last row it is half the one-sided difference; on a
      column of one pixel it is 0. */
  lemma GradYCases(data: seq<real>, width: int, height: int, x: int, y: int)
    requires |data| == width * height && 0 <= x < width && 0 <= y < height
    ensures 0 < y < height - 1 ==>
      GradY(data, width, height, x, y) == (Height(data, width, height, x, y + 1) - Height(data, width, height, x, y - 1)) / 2.0
    ensures 0 == y < height - 1 ==>
      GradY(data, width, height, x, y) == (Height(data, width, height, x, 1) - Height(data, width, height, x, 0)) / 2.0
    ensures 0 < y == height - 1 ==>
      GradY(data, width, height, x, y) == (Height(data, width, height, x, y) - Height(data, width, height, x, y - 1)) / 2.0
    ensures height == 1 ==> GradY(data, width, height, x, y) == 0.0
  {
  }

  /** On a level height map the gradient vanishes everywhere. */
  lemma LevelGradient(data: seq<real>, width: int, height: int, x: int, y: int, c: real)
    requires |data| == width * height && 0 <= x < width && 0 <= y < height
    requires forall k :: 0 <= k < |data| ==> data[k] == c
    ensures GradX(data, width, height, x, y) == 0.0 && GradY(data, width, height, x, y) == 0.0
  {
    NeighbourIndices(width, height, x, y);
  }

  /** `gx` and `gy` hold the clamped half differences of `data` at every
      flat index. */
  predicate IsGradient(data: seq<real>, width: int, height: int, gx: seq<real>, gy: seq<real>) {
    && 0 <= width && 0 <= height && |data| == width * height
    && |gx| == |data| && |gy| == |data|
    && forall k :: 0 <= k < |data| ==> gx[k] == GradXAt(data, width, height, k) && gy[k] == GradYAt(data, width, height, k)
  }

  /** `calculateGradient(data, width, height)` with clamped neighbours:
      `gx` and `gy` hold the half differences of every pixel, listed by
      flat index (`GradIndex` reads them back by pixel). */
  method CalculateGradient(data: seq<real>, width: int, height: int) returns (gx: array<real>, gy: array<real>)
    requires 0 <= width && 0 <= height && |data| == width * height
    ensures IsGradient(data, width, height, gx[..], gy[..])
  {
    gx := new real[|data|];
    gy := new real[|data|];
    for y := 0 to height
      invariant y * width <= |data|
      invariant forall k :: 0 <= k < y * width ==> gx[k] == GradXAt(data, width, height, k) && gy[k] == GradYAt(data, width, height, k)
    {
      RowFits(y, width, height);
      GradientRow(data, width, height, y, gx, gy);
    }
    assert height * width == |data|;
  }

  /** One row of `calculateGradient`: the pixels of row `y`, after those of
      the rows above. */
  method GradientRow(data: seq<real>, width: int, height: int, y: int, gx: array<real>, gy: array<real>)
    requires |data| == width * height && 0 <= y < height && y * width + width <= |data|
    requires gx.Length == |data| && gy.Length == |data| && gx != gy
    requires forall k :: 0 <= k < y * width ==> gx[k] == GradXAt(data, width, height, k) && gy[k] == GradYAt(data, width, height, k)
    modifies gx, gy
    ensures forall k :: 0 <= k < (y + 1) * width ==> gx[k] == GradXAt(data, width, height, k) && gy[k] == GradYAt(data, width, height, k)
  {
    for x := 0 to width
      invariant y * width + x <= |data|
      invariant forall k :: 0 <= k < y * width + x ==> gx[k] == GradXAt(data, width, height, k) && gy[k] == GradYAt(data, width, height, k)
    {
      GradientPixel(data, width, height, x, y, y * width + x, gx, gy);
    }
    assert (y + 1) * width == y * width + width;
  }

  /** The body of the pixel loop of `calculateGradient`: the half
      differences of pixel `(x, y)`, stored at its flat index `i` after
      those of the pixels before it. */
  method GradientPixel(data: seq<real>, width: int, height: int, x: int, y: int, ghost i: int, gx: array<real>, gy: array<real>)
    requires |data| == width * height && 0 <= x < width && 0 <= y < height && i == y * width + x < |data|
    requires gx.Length == |data| && gy.Length == |data| && gx != gy
    requires forall k :: 0 <= k < i ==> gx[k] == GradXAt(data, width, height, k) && gy[k] == GradYAt(data, width, height, k)
    modifies gx, gy
    ensures forall k :: 0 <= k < i + 1 ==> gx[k] == GradXAt(data, width, height, k) && gy[k] == GradYAt(data, width, height, k)
  {
    GradIndex(data, width, height, x, y);
    NeighbourIndices(width, height, x, y);
    var idx := y * width + x;
    var x1 := data[y * width + ClampPrev(x)];
    var x2 := data[y * width + ClampNext(x, width)];
    var y1 := data[ClampPrev(y) * width + x];
    var y2 := data[ClampNext(y, height) * width + x];
    assert x1 == Height(data, width, height, ClampPrev(x), y) && x2 == Height(data, width, height, ClampNext(x, width), y);
    assert y1 == Height(data, width, height, x, ClampPrev(y)) && y2 == Height(data, width, height, x, ClampNext(y, height));
    gx[idx] := (x2 - x1) / 2.0;
    gy[idx] := (y2 - y1) / 2.0;
  }

  // ---------------------------------------------------------------------
  // generatePlanetTexture
  // ---------------------------------------------------------------------

  /** A texture coordinate of one plane reduced by JavaScript's `%`:
      the remainder keeps the sign of the coordinate, so it lies strictly
      between `-size` and `size`. */
  function ReducedCoord(a: real, size: int, worldScale: real, perturb: real): (r: real)
    requires 0 < size
    ensures -size as real < r < size as real
  {
    TruncRem(PlaneCoord(a, size, worldScale, perturb), size as real)
  }

  /** `sampleTextureBilinear` moves a negative reduced coordinate up by one
      period, so the coordinate it floors lies in [0, size): the pixel it
      starts from is inside the texture and its neighbour at most one
      past the edge, which `getPixel` wraps. */
  lemma ReducedCoordWraps(a: real, size: int, worldScale: real, perturb: real)
    requires 0 < size
    ensures var u := WrapCoord(ReducedCoord(a, size, worldScale, perturb), size);
      && 0.0 <= u < size as real
      && 0 <= u.Floor < size
  {
    var r := ReducedCoord(a, size, worldScale, perturb);
    if r < 0.0 {
      assert TruncRem(r, size as real) == r;
    }
  }

  /** The colour of the single texture at `sp`, sampled in the three axis
      planes (`(y, z)`, `(x, z)`, `(x, y)`) at the reduced coordinates and
      mixed by the weights. With convex weights it is a colour of byte
      range. */
  function TriplanarColor(t: Texture, sp: Vec3, worldScale: real, perturb: real, w: Vec3): (c: Color)
    requires ValidTexture(t)
    ensures Convex(w) ==> ColorInRange(c)
  {
    var colorX := SampleBilinear(t, ReducedCoord(sp.y, t.width, worldScale, perturb), ReducedCoord(sp.z, t.height, worldScale, perturb));
    var colorY := SampleBilinear(t, ReducedCoord(sp.x, t.width, worldScale, perturb), ReducedCoord(sp.z, t.height, worldScale, perturb));
    var colorZ := SampleBilinear(t, ReducedCoord(sp.x, t.width, worldScale, perturb), ReducedCoord(sp.y, t.height, worldScale, perturb));
    Triplanar(colorX, colorY, colorZ, w)
  }

  /** The unshaded colour at `(x, y)`: the triplanar weights of the sphere
      point, the perturbation and the texture. A colour of byte range. */
  function SurfaceColor(m: Transcendentals, noise2D: Noise2, p: Params, x: int, y: int): (c: Color)
    requires Lawful(m) && ValidParams(p) && 0 <= x < p.width && 0 <= y < p.height
    ensures ColorInRange(c)
  {
    var sp := MapToSphere(m, x, y, p.width, p.height);
    UnitHasWeight(sp);
    TriplanarColor(p.texture, sp, p.textureWorldScale, Perturbation(noise2D, sp, p.perturbStrength), TriplanarWeights(sp))
  }

  /** A solid texture colours the whole surface with its colour. */
  lemma SolidSurface(m: Transcendentals, noise2D: Noise2, p: Params, x: int, y: int, c: Color)
    requires Lawful(m) && ValidParams(p) && 0 <= x < p.width && 0 <= y < p.height
    requires Solid(p.texture, c)
    ensures SurfaceColor(m, noise2D, p, x, y) == c
  {
    var sp := MapToSphere(m, x, y, p.width, p.height);
    UnitHasWeight(sp);
    var t, ws, pert := p.texture, p.textureWorldScale, Perturbation(noise2D, sp, p.perturbStrength);
    SampleSolid(t, c, ReducedCoord(sp.y, t.width, ws, pert), ReducedCoord(sp.z, t.height, ws, pert));
    SampleSolid(t, c, ReducedCoord(sp.x, t.width, ws, pert), ReducedCoord(sp.z, t.height, ws, pert));
    SampleSolid(t, c, ReducedCoord(sp.x, t.width, ws, pert), ReducedCoord(sp.y, t.height, ws, pert));
  }

  /** The surface normal `(-s gx, -s gy, 0.1)` normalised: a unit vector
      pointing outwards (positive z). */
  function ShallowNormal(m: Transcendentals, gx: real, gy: real, shadingStrength: real): (n: Vec3)
    requires Lawful(m)
    ensures IsUnit(n) && 0.0 < n.z
  {
    SurfaceNormal(m, -gx * shadingStrength, -gy * shadingStrength, NormalZ)
  }

  /** Where the height map is level the normal points straight up ... */
  lemma LevelNormal(m: Transcendentals, shadingStrength: real)
    requires Lawful(m)
    ensures ShallowNormal(m, 0.0, 0.0, shadingStrength) == Vec3(0.0, 0.0, 1.0)
  {
    var v := Vec3(-0.0 * shadingStrength, -0.0 * shadingStrength, NormalZ);
    assert v == Vec3(0.0, 0.0, 0.1);
    HundredthRoot(m);
    assert ShallowNormal(m, 0.0, 0.0, shadingStrength) == Normalize(m, v);
  }

  /** ... and such a normal is shaded by `0.6 + 0.4 * light.z` for a light
      from above the horizon. */
  lemma UpShading(light: Vec3)
    requires IsUnit(light) && 0.0 <= light.z
    ensures Shading(Vec3(0.0, 0.0, 1.0), light) == 0.6 + 0.4 * light.z
  {
    assert Dot(Vec3(0.0, 0.0, 1.0), light) == light.z;
  }

  /** `Math.sqrt(0.01)` is 0.1. */
  lemma HundredthRoot(m: Transcendentals)
    requires Lawful(m)
    ensures m.sqrt(0.01) == 0.1
  {
    var r := m.sqrt(0.01);
    assert 0.0 <= r && r * r == 0.01;
    if r < 0.1 {
      var a, b := ScaleMonotoneNonneg(r, 0.1, r);
      var c, d := ScaleMonotone(r, 0.1, 0.1);
    } else if r > 0.1 {
      var a, b := ScaleMonotone(0.1, r, r);
      var c, d := ScaleMonotone(0.1, r, 0.1);
    }
  }

  /** The colour-map pixel at `(x, y)`, given its gradient and the
      normalised light direction: the surface colour times the shading of
      the normal, alpha 255. */
  function PlanetPixel(m: Transcendentals, noise2D: Noise2, p: Params, light: Vec3, gx: real, gy: real, x: int, y: int): (px: Rgba)
    requires Lawful(m) && ValidParams(p) && IsUnit(light) && 0 <= x < p.width && 0 <= y < p.height
    ensures RgbaBytes(px) && px.a == 255
  {
    ShadedPixel(SurfaceColor(m, noise2D, p, x, y), Shading(ShallowNormal(m, gx, gy, p.shadingStrength), light))
  }

  /** For a solid texture every colour byte is the texture's channel times
      a shading factor in [0.6, 1], rounded: between 0.6 times the channel
      minus one half and the channel plus one half. */
  lemma SolidPlanetPixel(m: Transcendentals, noise2D: Noise2, p: Params, light: Vec3, gx: real, gy: real, x: int, y: int, c: Color)
    requires Lawful(m) && ValidParams(p) && IsUnit(light) && 0 <= x < p.width && 0 <= y < p.height
    requires Solid(p.texture, c)
    ensures var px := PlanetPixel(m, noise2D, p, light, gx, gy, x, y);
      && 0.6 * c.r - 0.5 <= px.r as real <= c.r + 0.5
      && 0.6 * c.g - 0.5 <= px.g as real <= c.g + 0.5
      && 0.6 * c.b - 0.5 <= px.b as real <= c.b + 0.5
  {
    SolidSurface(m, noise2D, p, x, y, c);
    ShadedBounds(c, Shading(ShallowNormal(m, gx, gy, p.shadingStrength), light));
  }

  /** The colour-map pixel at flat index `k`, with the gradient of
      `calculateGradient` at `k`. */
  function PlanetPixelAt(m: Transcendentals, noise2D: Noise2, p: Params, light: Vec3, heightMap: seq<real>, k: int): Rgba
    requires Lawful(m) && ValidParams(p) && IsUnit(light) && |heightMap| == p.width * p.height && 0 <= k < |heightMap|
  {
    IndexSplit(k, p.width, p.height);
    PlanetPixel(m, noise2D, p, light, GradXAt(heightMap, p.width, p.height, k), GradYAt(heightMap, p.width, p.height, k),
                k % p.width, k / p.width)
  }

  /** The colour map as pixels in row-major order, lit from `light`. */
  function PlanetImage(m: Transcendentals, noise2D: Noise2, p: Params, light: Vec3, heightMap: seq<real>): (img: seq<Rgba>)
    requires Lawful(m) && ValidParams(p) && IsUnit(light) && |heightMap| == p.width * p.height
    ensures |img| == |heightMap|
  {
    seq(|heightMap|, k requires 0 <= k < |heightMap| => PlanetPixelAt(m, noise2D, p, light, heightMap, k))
  }

  /** Every pixel of the colour map is an opaque byte pixel. */
  lemma PlanetImageOpaque(m: Transcendentals, noise2D: Noise2, p: Params, light: Vec3, heightMap: seq<real>)
    requires Lawful(m) && ValidParams(p) && IsUnit(light) && |heightMap| == p.width * p.height
    ensures var img := PlanetImage(m, noise2D, p, light, heightMap);
      forall i :: 0 <= i < |img| ==> RgbaBytes(img[i]) && img[i].a == 255
  {
  }

  /** Pixel `(x, y)` of the colour map, with the gradient at its flat
      index. */
  lemma PlanetImageIndex(m: Transcendentals, noise2D: Noise2, p: Params, light: Vec3, heightMap: seq<real>, x: int, y: int)
    requires Lawful(m) && ValidParams(p) && IsUnit(light) && |heightMap| == p.width * p.height && 0 <= x < p.width && 0 <= y < p.height
    ensures 0 <= Index(x, y, p.width) < |heightMap|
    ensures var i := Index(x, y, p.width);
      PlanetImage(m, noise2D, p, light, heightMap)[i]
      == PlanetPixel(m, noise2D, p, light, GradXAt(heightMap, p.width, p.height, i), GradYAt(heightMap, p.width, p.height, i), x, y)
  {
    IndexInBounds(x, y, p.width, p.height);
    IndexDecompose(x, y, p.width);
  }

  /** `generatePlanetTexture(params, heightMap, noise2D)`: the light
      direction and the gradient once, then every pixel row by row into a
      `width * height * 4` byte buffer. */
  method GeneratePlanetTexture(m: Transcendentals, noise2D: Noise2, p: Params, heightMap: seq<real>) returns (colorMap: array<int>)
    requires Lawful(m) && ValidParams(p) && |heightMap| == p.width * p.height
    ensures colorMap.Length == p.width * p.height * 4
    ensures colorMap[..] == Flatten(PlanetImage(m, noise2D, p, LightDirection(m), heightMap))
    ensures forall k :: 0 <= k < colorMap.Length ==> 0 <= colorMap[k] <= 255
    ensures forall i :: 0 <= i < p.width * p.height ==> colorMap[4 * i + 3] == 255
  {
    colorMap := new int[p.width * p.height * 4];
    var lightVec := LightDirection(m);
    var gx, gy := CalculateGradient(heightMap, p.width, p.height);
    PlanetRows(m, noise2D, p, heightMap, lightVec, gx[..], gy[..], colorMap);
    PlanetBytes(m, noise2D, p, lightVec, heightMap, colorMap[..]);
  }

  /** The bytes of the colour map: byte values, every alpha byte 255. */
  lemma PlanetBytes(m: Transcendentals, noise2D: Noise2, p: Params, light: Vec3, heightMap: seq<real>, bytes: seq<int>)
    requires Lawful(m) && ValidParams(p) && IsUnit(light) && |heightMap| == p.width * p.height
    requires bytes == Flatten(PlanetImage(m, noise2D, p, light, heightMap))
    ensures forall k :: 0 <= k < |bytes| ==> 0 <= bytes[k] <= 255
    ensures forall i :: 0 <= i < p.width * p.height ==> bytes[4 * i + 3] == 255
  {
    PlanetImageOpaque(m, noise2D, p, light, heightMap);
    OpaqueBytes(PlanetImage(m, noise2D, p, light, heightMap));
  }

  /** The row loop of `generatePlanetTexture`, over the gradient
      components as computed by `calculateGradient`. */
  method PlanetRows(m: Transcendentals, noise2D: Noise2, p: Params, heightMap: seq<real>,
                    lightVec: Vec3, gx: seq<real>, gy: seq<real>, colorMap: array<int>)
    requires Lawful(m) && ValidParams(p) && |heightMap| == p.width * p.height && IsUnit(lightVec)
    requires IsGradient(heightMap, p.width, p.height, gx, gy)
    requires colorMap.Length == 4 * |heightMap|
    modifies colorMap
    ensures colorMap[..] == Flatten(PlanetImage(m, noise2D, p, lightVec, heightMap))
  {
    var width, height := p.width, p.height;
    ghost var img := PlanetImage(m, noise2D, p, lightVec, heightMap);
    ghost var row := 0;
    for y := 0 to height
      invariant row == y * width && row <= |img|
      invariant colorMap[..4 * row] == Flatten(img[..row])
    {
      RowFits(y, width, height);
      PlanetRow(m, noise2D, p, heightMap, img, lightVec, gx, gy, y, row, colorMap);
      row := row + width;
    }
    assert row == height * width == |img|;
    FlattenComplete(colorMap[..], img, row);
  }

  /** One row of `generatePlanetTexture`: the pixels of row `y`, which
      start at flat index `row`, after those of the rows above. */
  method PlanetRow(m: Transcendentals, noise2D: Noise2, p: Params, heightMap: seq<real>, ghost img: seq<Rgba>,
                   lightVec: Vec3, gx: seq<real>, gy: seq<real>, y: int, ghost row: int, colorMap: array<int>)
    requires Lawful(m) && ValidParams(p) && |heightMap| == p.width * p.height && 0 <= y < p.height
    requires IsUnit(lightVec) && img == PlanetImage(m, noise2D, p, lightVec, heightMap)
    requires IsGradient(heightMap, p.width, p.height, gx, gy)
    requires row == y * p.width && 0 <= row && row + p.width <= |img| && colorMap.Length == 4 * |img|
    requires colorMap[..4 * row] == Flatten(img[..row])
    modifies colorMap
    ensures colorMap[..4 * (row + p.width)] == Flatten(img[..row + p.width])
  {
    var width := p.width;
    for x := 0 to width
      invariant colorMap[..4 * (row + x)] == Flatten(img[..row + x])
    {
      PlanetImageIndex(m, noise2D, p, lightVec, heightMap, x, y);
      var i := y * width + x;
      var pixel := PlanetPixel(m, noise2D, p, lightVec, gx[i], gy[i], x, y);
      PutPixel(colorMap, img, i, pixel);
    }
  }

  // ---------------------------------------------------------------------
  // onmessage, without the message transport
  // ---------------------------------------------------------------------

  /** The body of `onmessage`: the height map, the colour map from it, and
      the grayscale visualisation of the height map. Both buffers hold
      `width * height` pixels of four bytes, every byte in [0, 255] and
      every alpha byte 255; the visualisation repeats
      `floor(h * 255)` in its three colour bytes. */
  method ProcessRequest(m: Transcendentals, noise2D: Noise2, noise3D: Noise3, p: Params)
    returns (colormapData: array<int>, heightmapData: array<int>)
    requires Lawful(m) && ValidParams(p)
    ensures colormapData.Length == p.width * p.height * 4 && heightmapData.Length == p.width * p.height * 4
    ensures colormapData[..] == Flatten(PlanetImage(m, noise2D, p, LightDirection(m), HeightMap(m, noise3D, p)))
    ensures forall i :: 0 <= i < p.width * p.height ==> colormapData[4 * i + 3] == 255 && heightmapData[4 * i + 3] == 255
    ensures forall k :: 0 <= k < colormapData.Length ==> 0 <= colormapData[k] <= 255
    ensures forall k :: 0 <= k < heightmapData.Length ==> 0 <= heightmapData[k] <= 255
    ensures forall i :: 0 <= i < p.width * p.height ==>
              heightmapData[4 * i] == heightmapData[4 * i + 1] == heightmapData[4 * i + 2]
              == GrayPixel(HeightMap(m, noise3D, p)[i]).r
  {
    var heightMap := GenerateHeightMap(m, noise3D, p);
    colormapData := GeneratePlanetTexture(m, noise2D, p, heightMap[..]);
    heightmapData := PackHeightmap(heightMap[..], p.width, p.height);
    GrayLayout(heightMap[..]);
  }
}
