/** The generation pipeline of `starsystems/worker.js`: the latitude-
    compressed sphere mapping, the height map made of fractal noise plus a
    field of profiled craters at random centres, normalised when its spread
    exceeds 1e-6, and the colour map blended from two textures by altitude
    and shaded from a toroidal height gradient. */
module Starsystems {
  import opened Numeric
  import opened Grid
  import opened Terrain
  import opened Raster

  /** The latitude compression factor of `mapToSphere`. */
  const StretchFactor: real := 0.65

  /** The height map is rescaled only when its spread exceeds this. */
  const FlatThreshold: real := 0.000001

  /** The surface normal is `(-gx * shading * 100, -gy * shading * 100, 1)`. */
  const NormalScale: real := 100.0
  const NormalZ: real := 1.0

  /** The fields of the request message this worker reads. */
  datatype Params = Params(
    width: int, height: int,
    scale: real, octaves: int,
    craterScale: real, craterStrength: real,
    textureBase: Texture, textureHigh: Option<Texture>,
    blendAltitude: real, blendSmoothness: real,
    textureWorldScale: real, perturbStrength: real, shadingStrength: real)

  /** Nonnegative grid dimensions and well-formed textures. */
  predicate ValidParams(p: Params) {
    && 0 <= p.width && 0 <= p.height
    && ValidTexture(p.textureBase)
    && (p.textureHigh.Some? ==> ValidTexture(p.textureHigh.value))
  }

  /** With a high texture and a zero blend half-width, a height exactly at
      the blend altitude makes `smoothstep` compute `0 / 0`: the blend
      factor, the blended colour and the shaded channels are NaN, which a
      `Uint8ClampedArray` stores as 0. */
  predicate BlendIsNaN(p: Params, h: real) {
    p.textureHigh.Some? && p.blendSmoothness == 0.0 && h == p.blendAltitude
  }

  // ---------------------------------------------------------------------
  // mapToSphere
  // ---------------------------------------------------------------------

  /** `(y / height - 0.5) * stretchFactor + 0.5`. */
  function AdjustedY(y: int, height: int): real
    requires 0 < height
  {
    (y as real / height as real - 0.5) * StretchFactor + 0.5
  }

  /** For the rows of the grid the compressed coordinate lies in
      [0.175, 0.825), so the argument `1 - 2 adjustedY` of `acos` lies in
      (-0.65, 0.65], well inside its domain. */
  lemma AdjustedYRange(y: int, height: int)
    requires 0 <= y < height
    ensures 0.175 <= AdjustedY(y, height) < 0.825
    ensures -0.65 < 1.0 - 2.0 * AdjustedY(y, height) <= 0.65
  {
    UnitFraction(y, height);
  }

  /** `acos(1 - 2 adjustedY) - PI / 2`: a latitude in [-PI/2, PI/2]. */
  function Latitude(m: Transcendentals, y: int, height: int): (lat: real)
    requires Lawful(m) && 0 <= y < height
    ensures -m.pi / 2.0 <= lat <= m.pi / 2.0
  {
    AdjustedYRange(y, height);
    m.acos(1.0 - 2.0 * AdjustedY(y, height)) - m.pi / 2.0
  }

  /** `mapToSphere(x, y, width, height)`: a point of the unit sphere. */
  function MapToSphere(m: Transcendentals, x: int, y: int, width: int, height: int): (sp: Vec3)
    requires Lawful(m) && 0 <= x < width && 0 <= y < height
    ensures IsUnit(sp)
  {
    SpherePoint(m, Latitude(m, y, height), Longitude(m, x, width))
  }

  // ---------------------------------------------------------------------
  // Craters
  // ---------------------------------------------------------------------

  /** A crater of the field: its centre on the sphere, its radius and its
      depth. */
  datatype Crater = Crater(center: Vec3, radius: real, depth: real)

  /** What every generated crater satisfies: a centre on the unit sphere,
      a radius in [0.02, 0.1) and, for a nonnegative strength, a depth in
      [0.5, 1.5] times the strength. */
  predicate CraterInRange(c: Crater, strength: real) {
    && IsUnit(c.center)
    && 0.02 <= c.radius < 0.1
    && (0.0 <= strength ==> 0.5 * strength <= c.depth <= 1.5 * strength)
  }

  /** `Math.floor(crater_scale * 50)` iterations of a loop that stops at
      once when that is not positive. */
  function CraterCount(craterScale: real): (n: nat)
    ensures craterScale * 50.0 < 1.0 ==> n == 0
    ensures 0.0 <= craterScale * 50.0 ==> n as real <= craterScale * 50.0 < n as real + 1.0
  {
    var c := (craterScale * 50.0).Floor;
    if c < 0 then 0 else c
  }

  /** The crater made from four consecutive `prng()` draws, in the order
      the source draws them: `u` (the centre's z), the angle `theta`, the
      radius and the depth. */
  function NewCrater(m: Transcendentals, du: real, dt: real, dr: real, dd: real, strength: real): (c: Crater)
    requires Lawful(m) && IsDraw(du) && IsDraw(dt) && IsDraw(dr) && IsDraw(dd)
    ensures CraterInRange(c, strength)
    ensures 0.0 < strength ==> c.depth < 1.5 * strength
  {
    var u := du * 2.0 - 1.0;
    var theta := dt * 2.0 * m.pi;
    UnitSquareBelowOne(u);
    var r := m.sqrt(1.0 - u * u);
    UnitFromAngles(r, u, m.cos(theta), m.sin(theta));
    RadiusRange(dr);
    DepthRange(dd, strength);
    Crater(Vec3(r * m.cos(theta), r * m.sin(theta), u), 0.02 + dr * 0.08, strength * (0.5 + dd))
  }

  lemma UnitSquareBelowOne(u: real)
    requires -1.0 <= u < 1.0
    ensures 0.0 <= 1.0 - u * u
  {
    if u < 0.0 {
      SquareOfNegative(u, 0.0);
      SquareAtMost(-u, 1.0);
      assert (-u) * (-u) == u * u;
    } else {
      SquareAtMost(u, 1.0);
    }
  }

  lemma RadiusRange(dr: real)
    requires IsDraw(dr)
    ensures 0.02 <= 0.02 + dr * 0.08 < 0.1
  {
  }

  lemma DepthRange(dd: real, strength: real)
    requires IsDraw(dd)
    ensures 0.0 <= strength ==> 0.5 * strength <= strength * (0.5 + dd) <= 1.5 * strength
    ensures 0.0 < strength ==> strength * (0.5 + dd) < 1.5 * strength
  {
    if 0.0 < strength {
      var a, b := ScaleMonotoneNonneg(0.5, 0.5 + dd, strength);
      var c, d := ScaleMonotone(0.5 + dd, 1.5, strength);
      assert 0.5 + dd < 1.5;
      assert (1.5 - (0.5 + dd)) * strength > 0.0 by {
        MulPositive(1.5 - (0.5 + dd), strength);
      }
    } else if strength == 0.0 {
      assert strength * (0.5 + dd) == 0.0;
    }
  }

  /** The first `n` craters of the draw stream, four draws each. */
  function CratersFrom(m: Transcendentals, draws: seq<real>, n: nat, strength: real): seq<Crater>
    requires Lawful(m) && AllDraws(draws) && 4 * n <= |draws|
  {
    seq(n, k requires 0 <= k < n => NewCrater(m, draws[4 * k], draws[4 * k + 1], draws[4 * k + 2], draws[4 * k + 3], strength))
  }

  /** The crater loop of `generateHeightMap`: exactly
      `floor(crater_scale * 50)` craters (none when that is not positive),
      exactly four draws per crater, the rest of the stream untouched. */
  method GenerateCraters(m: Transcendentals, draws: seq<real>, craterScale: real, strength: real)
    returns (craters: seq<Crater>, rest: seq<real>)
    requires Lawful(m) && AllDraws(draws) && 4 * CraterCount(craterScale) <= |draws|
    ensures |craters| == CraterCount(craterScale)
    ensures craters == CratersFrom(m, draws, CraterCount(craterScale), strength)
    ensures rest == draws[4 * |craters|..]
    ensures forall k :: 0 <= k < |craters| ==> CraterInRange(craters[k], strength)
  {
    var numCraters := (craterScale * 50.0).Floor;
    craters := [];
    var next := 0;
    var i := 0;
    while i < numCraters
      invariant 0 <= i && next == 4 * i && i <= CraterCount(craterScale)
      invariant craters == CratersFrom(m, draws, i, strength)
    {
      var du := draws[next];
      var dt := draws[next + 1];
      var dr := draws[next + 2];
      var dd := draws[next + 3];
      next := next + 4;
      craters := craters + [NewCrater(m, du, dt, dr, dd, strength)];
      i := i + 1;
    }
    rest := draws[next..];
  }

  /** `craterProfile(r, depth)`: nothing beyond the crater's radius
      (`r > 1`); inside it a Gaussian depression of the full depth plus a
      rim bulge of 0.4 times the depth centred at `r = 0.9`. For a
      nonnegative depth the profile lies in [-depth, 0.4 depth]. */
  function CraterProfile(m: Transcendentals, r: real, depth: real): (h: real)
    requires Lawful(m)
    ensures 1.0 < r ==> h == 0.0
    ensures 0.0 <= depth ==> -depth <= h <= 0.4 * depth
  {
    if r > 1.0 then 0.0
    else
      var a, b := r * 3.0, (r - 0.9) * 5.0;
      GaussianFactor(m, a);
      GaussianFactor(m, b);
      RimAndBowl(depth, m.exp(-(a * a)), m.exp(-(b * b)))
  }

  /** `exp(-a^2)` lies in (0, 1]. */
  lemma GaussianFactor(m: Transcendentals, a: real)
    requires Lawful(m)
    ensures 0.0 < m.exp(-(a * a)) <= 1.0
  {
    SquareNonneg(a);
  }

  /** The bowl `-depth * e1` plus the rim `depth * 0.4 * e2` for Gaussian
      factors `e1`, `e2` in (0, 1]. */
  function RimAndBowl(depth: real, e1: real, e2: real): (h: real)
    requires 0.0 < e1 <= 1.0 && 0.0 < e2 <= 1.0
    ensures 0.0 <= depth ==> -depth <= h <= 0.4 * depth
  {
    ProfileBounds(depth, e1, e2);
    -(depth * e1) + depth * 0.4 * e2
  }

  lemma ProfileBounds(depth: real, e1: real, e2: real)
    requires 0.0 < e1 <= 1.0 && 0.0 < e2 <= 1.0
    ensures 0.0 <= depth ==> 0.0 <= depth * e1 <= depth && 0.0 <= depth * 0.4 * e2 <= 0.4 * depth
  {
    if 0.0 <= depth {
      var a, b := ScaleMonotoneNonneg(e1, 1.0, depth);
      var c, d := ScaleMonotoneNonneg(0.0, e1, depth);
      var f, g := ScaleMonotoneNonneg(0.0, e2, depth * 0.4);
      var h, k := ScaleMonotoneNonneg(e2, 1.0, depth * 0.4);
    }
  }

  /** `Math.sqrt(dx^2 + dy^2 + dz^2)`, the distance between two points. */
  function Distance(m: Transcendentals, a: Vec3, b: Vec3): (d: real)
    requires Lawful(m)
    ensures 0.0 <= d
  {
    var dx, dy, dz := a.x - b.x, a.y - b.y, a.z - b.z;
    SquareNonneg(dx);
    SquareNonneg(dy);
    SquareNonneg(dz);
    m.sqrt(dx * dx + dy * dy + dz * dz)
  }

  /** Every crater of the field has a positive radius. */
  predicate PositiveRadii(craters: seq<Crater>) {
    forall k :: 0 <= k < |craters| ==> 0.0 < craters[k].radius
  }

  /** One crater's effect at `sp`: the profile at the normalised distance
      `r = dist / radius` when `r <= 1.2`, else nothing. Because the
      profile is zero for `r > 1`, a crater reaches exactly as far as its
      radius: the band `1 < r <= 1.2` passes the test and adds nothing. */
  function CraterContribution(m: Transcendentals, c: Crater, sp: Vec3): (h: real)
    requires Lawful(m) && 0.0 < c.radius
    ensures c.radius < Distance(m, sp, c.center) ==> h == 0.0
    ensures 0.0 <= c.depth ==> -c.depth <= h <= 0.4 * c.depth
  {
    var r := Distance(m, sp, c.center) / c.radius;
    QuotientOrder(Distance(m, sp, c.center), c.radius, c.radius);
    SelfQuotient(c.radius);
    if r <= 1.2 then CraterProfile(m, r, c.depth) else 0.0
  }

  /** The sum of the crater depths. */
  function TotalDepth(craters: seq<Crater>): real {
    if |craters| == 0 then 0.0 else TotalDepth(craters[..|craters| - 1]) + craters[|craters| - 1].depth
  }

  predicate NonnegativeDepths(craters: seq<Crater>) {
    forall k :: 0 <= k < |craters| ==> 0.0 <= craters[k].depth
  }

  /** The crater effect at `sp`: the craters' contributions added in
      order. For nonnegative depths it lies in [-D, 0.4 D] for the total
      depth D of the field. */
  function CraterSum(m: Transcendentals, craters: seq<Crater>, sp: Vec3): (h: real)
    requires Lawful(m) && PositiveRadii(craters)
    ensures NonnegativeDepths(craters) ==> -TotalDepth(craters) <= h <= 0.4 * TotalDepth(craters)
  {
    if |craters| == 0 then 0.0
    else
      var n := |craters| - 1;
      assert forall k :: 0 <= k < n ==> craters[..n][k] == craters[k];
      CraterSum(m, craters[..n], sp) + CraterContribution(m, craters[n], sp)
  }

  /** A point farther from every crater centre than that crater's radius
      is untouched by the field. */
  lemma CraterSumOutside(m: Transcendentals, craters: seq<Crater>, sp: Vec3)
    requires Lawful(m) && PositiveRadii(craters)
    requires forall k :: 0 <= k < |craters| ==> craters[k].radius < Distance(m, sp, craters[k].center)
    ensures CraterSum(m, craters, sp) == 0.0
  {
    assert forall k :: 0 <= k < |craters| ==> CraterContribution(m, craters[k], sp) == 0.0;
    CraterSumOfZeros(m, craters, sp);
  }

  /** Contributions that are all zero add up to zero. */
  lemma {:induction false} CraterSumOfZeros(m: Transcendentals, craters: seq<Crater>, sp: Vec3)
    requires Lawful(m) && PositiveRadii(craters)
    requires forall k :: 0 <= k < |craters| ==> CraterContribution(m, craters[k], sp) == 0.0
    ensures CraterSum(m, craters, sp) == 0.0
  {
    if |craters| > 0 {
      var n := |craters| - 1;
      assert forall k :: 0 <= k < n ==> craters[..n][k] == craters[k];
      CraterSumOfZeros(m, craters[..n], sp);
    }
  }

  /** The crater loop of the pixel: `craterEffect` accumulated over the
      craters in order. */
  method CraterEffect(m: Transcendentals, craters: seq<Crater>, sp: Vec3) returns (craterEffect: real)
    requires Lawful(m) && PositiveRadii(craters)
    ensures craterEffect == CraterSum(m, craters, sp)
  {
    craterEffect := 0.0;
    for k := 0 to |craters|
      invariant craterEffect == CraterSum(m, craters[..k], sp)
    {
      assert craters[..k + 1][..k] == craters[..k];
      craterEffect := craterEffect + CraterContribution(m, craters[k], sp);
    }
    assert craters[..|craters|] == craters;
  }

  // ---------------------------------------------------------------------
  // generateHeightMap
  // ---------------------------------------------------------------------

  /** The height of pixel `(x, y)` before normalisation: `octaves` octaves
      of fractal noise from frequency `scale / 100`, plus the crater
      effect. */
  function RawHeight(m: Transcendentals, noise3D: Noise3, craters: seq<Crater>, p: Params, x: int, y: int): real
    requires Lawful(m) && PositiveRadii(craters) && 0 <= x < p.width && 0 <= y < p.height
  {
    var sp := MapToSphere(m, x, y, p.width, p.height);
    Fbm(noise3D, sp, p.scale / 100.0, OctaveCount(p.octaves)) + CraterSum(m, craters, sp)
  }

  /** The raw height at flat index `k`. */
  function RawHeightAt(m: Transcendentals, noise3D: Noise3, craters: seq<Crater>, p: Params, k: int): real
    requires Lawful(m) && PositiveRadii(craters) && 0 <= p.width && 0 <= p.height && 0 <= k < p.width * p.height
  {
    IndexSplit(k, p.width, p.height);
    RawHeight(m, noise3D, craters, p, k % p.width, k / p.width)
  }

  /** The raw heights in row-major order. */
  function RawHeights(m: Transcendentals, noise3D: Noise3, craters: seq<Crater>, p: Params): (s: seq<real>)
    requires Lawful(m) && PositiveRadii(craters) && 0 <= p.width && 0 <= p.height
    ensures |s| == p.width * p.height
  {
    seq(p.width * p.height, k requires 0 <= k < p.width * p.height => RawHeightAt(m, noise3D, craters, p, k))
  }

  /** The craters of a request: the first draws of the stream. */
  function RequestCraters(m: Transcendentals, draws: seq<real>, p: Params): (cs: seq<Crater>)
    requires Lawful(m) && AllDraws(draws) && 4 * CraterCount(p.craterScale) <= |draws|
    ensures PositiveRadii(cs)
  {
    CratersFrom(m, draws, CraterCount(p.craterScale), p.craterStrength)
  }

  /** The height map of a request: the raw heights, normalised with the
      threshold 1e-6. */
  function HeightMap(m: Transcendentals, noise3D: Noise3, draws: seq<real>, p: Params): (s: seq<real>)
    requires Lawful(m) && AllDraws(draws) && 4 * CraterCount(p.craterScale) <= |draws|
    requires 0 <= p.width && 0 <= p.height
    ensures |s| == p.width * p.height
  {
    Normalized(RawHeights(m, noise3D, RequestCraters(m, draws, p), p), FlatThreshold)
  }

  /** The raw height at flat index `Index(x, y, width)` is that of pixel `(x, y)`. */
  lemma RawHeightIndex(m: Transcendentals, noise3D: Noise3, craters: seq<Crater>, p: Params, x: int, y: int)
    requires Lawful(m) && PositiveRadii(craters) && 0 <= x < p.width && 0 <= y < p.height
    ensures 0 <= Index(x, y, p.width) < p.width * p.height
    ensures RawHeights(m, noise3D, craters, p)[Index(x, y, p.width)] == RawHeight(m, noise3D, craters, p, x, y)
  {
    IndexInBounds(x, y, p.width, p.height);
    IndexDecompose(x, y, p.width);
  }

  /** The body of the pixel loop: the point on the sphere, its fractal
      noise and its crater effect. */
  method PixelHeight(m: Transcendentals, noise3D: Noise3, craters: seq<Crater>, p: Params, x: int, y: int) returns (finalHeight: real)
    requires Lawful(m) && PositiveRadii(craters) && 0 <= x < p.width && 0 <= y < p.height
    ensures finalHeight == RawHeight(m, noise3D, craters, p, x, y)
  {
    var sp := MapToSphere(m, x, y, p.width, p.height);
    var baseNoise := FractalNoise(noise3D, sp, p.scale, p.octaves);
    var craterEffect := CraterEffect(m, craters, sp);
    finalHeight := baseNoise + craterEffect;
  }

  /** `raw` holds the raw height of every pixel at its row-major index. */
  ghost predicate PixelsHold(m: Transcendentals, noise3D: Noise3, craters: seq<Crater>, p: Params, raw: seq<real>)
    requires Lawful(m) && PositiveRadii(craters)
  {
    && 0 <= p.width && 0 <= p.height && |raw| == p.width * p.height
    && forall x, y :: 0 <= x < p.width && 0 <= y < p.height ==>
        0 <= Index(x, y, p.width) < |raw| && raw[Index(x, y, p.width)] == RawHeight(m, noise3D, craters, p, x, y)
  }

  /** The raw heights are the only sequence holding every pixel's raw height. */
  lemma PixelsHoldRawHeights(m: Transcendentals, noise3D: Noise3, craters: seq<Crater>, p: Params, raw: seq<real>)
    requires Lawful(m) && PositiveRadii(craters) && 0 <= p.width && 0 <= p.height
    ensures PixelsHold(m, noise3D, craters, p, raw) <==> raw == RawHeights(m, noise3D, craters, p)
  {
    var all := RawHeights(m, noise3D, craters, p);
    forall x, y | 0 <= x < p.width && 0 <= y < p.height
      ensures 0 <= Index(x, y, p.width) < |all| && all[Index(x, y, p.width)] == RawHeight(m, noise3D, craters, p, x, y)
    {
      RawHeightIndex(m, noise3D, craters, p, x, y);
    }
    if PixelsHold(m, noise3D, craters, p, raw) {
      forall k | 0 <= k < |raw|
        ensures raw[k] == all[k]
      {
        IndexSplit(k, p.width, p.height);
        IndexDecompose(k % p.width, k / p.width, p.width);
        assert Index(k % p.width, k / p.width, p.width) == k;
      }
    }
  }

  /** `generateHeightMap(params, noise3D, prng)`: the craters first, then
      every pixel row by row with its running extrema, then the
      normalisation in place. */
  method GenerateHeightMap(m: Transcendentals, noise3D: Noise3, draws: seq<real>, p: Params) returns (heightMap: array<real>)
    requires Lawful(m) && AllDraws(draws) && 4 * CraterCount(p.craterScale) <= |draws|
    requires 0 <= p.width && 0 <= p.height
    ensures heightMap[..] == HeightMap(m, noise3D, draws, p)
  {
    var craters, rest := GenerateCraters(m, draws, p.craterScale, p.craterStrength);
    heightMap := new real[p.width * p.height];
    ghost var raw := RawHeights(m, noise3D, craters, p);
    PixelsHoldRawHeights(m, noise3D, craters, p, raw);
    var minVal, maxVal := HeightRows(m, noise3D, craters, p, raw, heightMap);
    NormalizeInPlace(heightMap, minVal, maxVal, FlatThreshold);
  }

  /** The row loop of `generateHeightMap`: the raw heights of every pixel,
      and their extrema. */
  method HeightRows(m: Transcendentals, noise3D: Noise3, craters: seq<Crater>, p: Params, ghost raw: seq<real>,
                    heightMap: array<real>) returns (minVal: real, maxVal: real)
    requires Lawful(m) && PositiveRadii(craters) && PixelsHold(m, noise3D, craters, p, raw) && heightMap.Length == |raw|
    modifies heightMap
    ensures heightMap[..] == raw
    ensures |raw| > 0 ==> minVal == SeqMin(raw) && maxVal == SeqMax(raw)
  {
    minVal, maxVal := 0.0, 0.0;
    for y := 0 to p.height
      invariant RowsFilled(heightMap[..], raw, y, p.width, minVal, maxVal)
    {
      minVal, maxVal := HeightRow(m, noise3D, craters, p, raw, y, heightMap, minVal, maxVal);
    }
    AllRowsFilled(heightMap[..], raw, p.height, p.width, minVal, maxVal);
  }

  /** One row of the pixel loop of `generateHeightMap`: the raw heights of
      row `y` after those of the rows above, and the extrema of all of them. */
  method HeightRow(m: Transcendentals, noise3D: Noise3, craters: seq<Crater>, p: Params, ghost raw: seq<real>, y: int,
                   heightMap: array<real>, minVal: real, maxVal: real) returns (lo: real, hi: real)
    requires Lawful(m) && PositiveRadii(craters) && PixelsHold(m, noise3D, craters, p, raw) && 0 <= y < p.height
    requires RowsFilled(heightMap[..], raw, y, p.width, minVal, maxVal)
    modifies heightMap
    ensures RowsFilled(heightMap[..], raw, y + 1, p.width, lo, hi)
  {
    RowFits(y, p.width, p.height);
    RowsFilledPointwise(heightMap[..], raw, y, p.width, minVal, maxVal);
    lo, hi := RowPixels(m, noise3D, craters, p, raw, y, y * p.width, heightMap, minVal, maxVal);
    RowsFilledNext(heightMap[..], raw, y, p.width, lo, hi);
  }

  /** The columns of row `y`, whose first index is `start`. */
  method RowPixels(m: Transcendentals, noise3D: Noise3, craters: seq<Crater>, p: Params, ghost raw: seq<real>, y: int,
                   ghost start: int, heightMap: array<real>, minVal: real, maxVal: real) returns (lo: real, hi: real)
    requires Lawful(m) && PositiveRadii(craters) && PixelsHold(m, noise3D, craters, p, raw) && heightMap.Length == |raw|
    requires 0 <= y < p.height && start == y * p.width && start + p.width <= |raw|
    requires forall k :: 0 <= k < start ==> heightMap[k] == raw[k]
    requires 0 < start ==> minVal == SeqMin(raw[..start]) && maxVal == SeqMax(raw[..start])
    modifies heightMap
    ensures forall k :: 0 <= k < start + p.width ==> heightMap[k] == raw[k]
    ensures 0 < start + p.width ==> lo == SeqMin(raw[..start + p.width]) && hi == SeqMax(raw[..start + p.width])
  {
    lo, hi := minVal, maxVal;
    for x := 0 to p.width
      invariant forall k :: 0 <= k < start + x ==> heightMap[k] == raw[k]
      invariant 0 < start + x ==> lo == SeqMin(raw[..start + x]) && hi == SeqMax(raw[..start + x])
    {
      lo, hi := StorePixel(m, noise3D, craters, p, raw, heightMap, x, y, start + x, lo, hi);
    }
  }

  /** The body of the pixel loop: the height of pixel `(x, y)` stored at
      its index `i`, and the extrema extended by it. */
  method StorePixel(m: Transcendentals, noise3D: Noise3, craters: seq<Crater>, p: Params, ghost raw: seq<real>,
                    heightMap: array<real>, x: int, y: int, ghost i: int, minVal: real, maxVal: real) returns (lo: real, hi: real)
    requires Lawful(m) && PositiveRadii(craters) && PixelsHold(m, noise3D, craters, p, raw) && heightMap.Length == |raw|
    requires 0 <= x < p.width && 0 <= y < p.height && i == Index(x, y, p.width)
    requires forall k :: 0 <= k < i ==> heightMap[k] == raw[k]
    requires 0 < i ==> minVal == SeqMin(raw[..i]) && maxVal == SeqMax(raw[..i])
    modifies heightMap
    ensures forall k :: 0 <= k < i + 1 ==> heightMap[k] == raw[k]
    ensures lo == SeqMin(raw[..i + 1]) && hi == SeqMax(raw[..i + 1])
  {
    var idx := Index(x, y, p.width);
    var finalHeight := PixelHeight(m, noise3D, craters, p, x, y);
    lo, hi := StoreHeight(heightMap, raw, idx, finalHeight, minVal, maxVal);
  }

  /** The finished height map: when the raw heights spread by more than
      1e-6, every height lies in [0, 1] and the lowest and highest pixels
      become exactly 0 and 1; otherwise the raw heights are returned as
      they are. */
  lemma HeightMapNormalized(m: Transcendentals, noise3D: Noise3, draws: seq<real>, p: Params)
    requires Lawful(m) && AllDraws(draws) && 4 * CraterCount(p.craterScale) <= |draws|
    requires 0 <= p.width && 0 <= p.height
    ensures var raw, s := RawHeights(m, noise3D, RequestCraters(m, draws, p), p), HeightMap(m, noise3D, draws, p);
      if |raw| > 0 && Spread(raw) > FlatThreshold then
        && (forall i :: 0 <= i < |s| ==> 0.0 <= s[i] <= 1.0)
        && (forall i :: 0 <= i < |s| && raw[i] == SeqMin(raw) ==> s[i] == 0.0)
        && (forall i :: 0 <= i < |s| && raw[i] == SeqMax(raw) ==> s[i] == 1.0)
      else s == raw
  {
    var raw := RawHeights(m, noise3D, RequestCraters(m, draws, p), p);
    if |raw| > 0 && Spread(raw) > FlatThreshold {
      NormalizedUnitRange(raw, FlatThreshold);
    }
  }

  // ---------------------------------------------------------------------
  // calculateGradient (toroidal)
  // ---------------------------------------------------------------------

  /** The previous column (or row), wrapping from the first to the last:
      `(x - 1) mod n`. */
  function Prev(x: int, n: int): (r: int)
    requires 0 <= x < n
    ensures 0 <= r < n && r == (x - 1) % n
  {
    if x == 0 then n - 1 else x - 1
  }

  /** The next column (or row), wrapping from the last to the first:
      `(x + 1) mod n`. */
  function Next(x: int, n: int): (r: int)
    requires 0 <= x < n
    ensures 0 <= r < n && r == (x + 1) % n
  {
    if x == n - 1 then 0 else x + 1
  }

  /** `gx` at `(x, y)`: the height of the right neighbour minus that of the
      left neighbour, wrapping around the row. */
  function GradX(data: seq<real>, width: int, height: int, x: int, y: int): real
    requires |data| == width * height && 0 <= x < width && 0 <= y < height
  {
    IndexInBounds(Next(x, width), y, width, height);
    IndexInBounds(Prev(x, width), y, width, height);
    data[Index(Next(x, width), y, width)] - data[Index(Prev(x, width), y, width)]
  }

  /** `gy` at `(x, y)`: the height below minus the height above, wrapping
      around the column. */
  function GradY(data: seq<real>, width: int, height: int, x: int, y: int): real
    requires |data| == width * height && 0 <= x < width && 0 <= y < height
  {
    IndexInBounds(x, Next(y, height), width, height);
    IndexInBounds(x, Prev(y, height), width, height);
    data[Index(x, Next(y, height), width)] - data[Index(x, Prev(y, height), width)]
  }

  function GradXAt(data: seq<real>, width: int, height: int, k: int): real
    requires 0 <= width && 0 <= height && |data| == width * height && 0 <= k < |data|
  {
    IndexSplit(k, width, height);
    GradX(data, width, height, k % width, k / width)
  }

  function GradYAt(data: seq<real>, width: int, height: int, k: int): real
    requires 0 <= width && 0 <= height && |data| == width * height && 0 <= k < |data|
  {
    IndexSplit(k, width, height);
    GradY(data, width, height, k % width, k / width)
  }

  /** The gradient at flat index `Index(x, y, width)` is that of pixel `(x, y)`. */
  lemma GradIndex(data: seq<real>, width: int, height: int, x: int, y: int)
    requires |data| == width * height && 0 <= x < width && 0 <= y < height
    ensures 0 <= Index(x, y, width) < |data|
    ensures GradXAt(data, width, height, Index(x, y, width)) == GradX(data, width, height, x, y)
    ensures GradYAt(data, width, height, Index(x, y, width)) == GradY(data, width, height, x, y)
  {
    IndexInBounds(x, y, width, height);
    IndexDecompose(x, y, width);
  }

  /** The four neighbours of pixel `(x, y)` read by the gradient, wrapping
      at the edges. */
  lemma NeighbourIndices(width: int, height: int, x: int, y: int)
    requires 0 <= x < width && 0 <= y < height
    ensures 0 <= Index(Prev(x, width), y, width) < width * height
    ensures 0 <= Index(Next(x, width), y, width) < width * height
    ensures 0 <= Index(x, Prev(y, height), width) < width * height
    ensures 0 <= Index(x, Next(y, height), width) < width * height
  {
    IndexInBounds(Prev(x, width), y, width, height);
    IndexInBounds(Next(x, width), y, width, height);
    IndexInBounds(x, Prev(y, height), width, height);
    IndexInBounds(x, Next(y, height), width, height);
  }

  /** `gx` and `gy` hold the central differences of `data` at every flat
      index. */
  predicate IsGradient(data: seq<real>, width: int, height: int, gx: seq<real>, gy: seq<real>) {
    && 0 <= width && 0 <= height && |data| == width * height
    && |gx| == |data| && |gy| == |data|
    && forall k :: 0 <= k < |data| ==> gx[k] == GradXAt(data, width, height, k) && gy[k] == GradYAt(data, width, height, k)
  }

  /** `calculateGradient(data, width, height)` with toroidal neighbours:
      `gx` and `gy` hold the wrapped central differences of every pixel,
      listed by flat index (`GradIndex` reads them back by pixel). */
  method CalculateGradient(data: seq<real>, width: int, height: int) returns (gx: array<real>, gy: array<real>)
    requires 0 <= width && 0 <= height && |data| == width * height
    ensures gx.Length == |data| && gy.Length == |data|
    ensures forall k :: 0 <= k < |data| ==> gx[k] == GradXAt(data, width, height, k) && gy[k] == GradYAt(data, width, height, k)
  {
    gx := new real[|data|];
    gy := new real[|data|];
    for y := 0 to height
      invariant y * width <= |data|
      invariant forall k :: 0 <= k < y * width ==> gx[k] == GradXAt(data, width, height, k) && gy[k] == GradYAt(data, width, height, k)
    {
      RowFits(y, width, height);
      GradientRow(data, width, height, y, gx, gy);
      assert (y + 1) * width == y * width + width;
    }
    assert height * width == |data|;
  }

  /** One row of `calculateGradient`: the pixels of row `y`, after those of
      the rows above. */
  method GradientRow(data: seq<real>, width: int, height: int, y: int, gx: array<real>, gy: array<real>)
    requires |data| == width * height && 0 <= y < height && y * width + width <= |data|
    requires gx.Length == |data| && gy.Length == |data| && gx != gy
    requires forall k :: 0 <= k < y * width ==> gx[k] == GradXAt(data, width, height, k) && gy[k] == GradYAt(data, width, height, k)
    modifies gx, gy
    ensures forall k :: 0 <= k < y * width + width ==> gx[k] == GradXAt(data, width, height, k) && gy[k] == GradYAt(data, width, height, k)
  {
    for x := 0 to width
      invariant y * width + x <= |data|
      invariant forall k :: 0 <= k < y * width + x ==> gx[k] == GradXAt(data, width, height, k) && gy[k] == GradYAt(data, width, height, k)
    {
      GradIndex(data, width, height, x, y);
      NeighbourIndices(width, height, x, y);
      var i := y * width + x;
      var xPrev, xNext := Prev(x, width), Next(x, width);
      var yPrev, yNext := Prev(y, height), Next(y, height);
      var x1 := data[y * width + xPrev];
      var x2 := data[y * width + xNext];
      var y1 := data[yPrev * width + x];
      var y2 := data[yNext * width + x];
      gx[i] := x2 - x1;
      gy[i] := y2 - y1;
    }
  }

  /** On a flat height map the gradient vanishes everywhere. */
  lemma FlatGradient(data: seq<real>, width: int, height: int, x: int, y: int, c: real)
    requires |data| == width * height && 0 <= x < width && 0 <= y < height
    requires forall k :: 0 <= k < |data| ==> data[k] == c
    ensures GradX(data, width, height, x, y) == 0.0 && GradY(data, width, height, x, y) == 0.0
  {
    IndexInBounds(Next(x, width), y, width, height);
    IndexInBounds(Prev(x, width), y, width, height);
    IndexInBounds(x, Next(y, height), width, height);
    IndexInBounds(x, Prev(y, height), width, height);
  }

  // ---------------------------------------------------------------------
  // Colour helpers: smoothstep, lerp, getTriplanarColor
  // ---------------------------------------------------------------------

  /** `t^2 (3 - 2t)` maps [0, 1] into [0, 1]: `1 - t^2 (3 - 2t) = (1 - t)^2 (1 + 2t)`. */
  lemma CubicRamp(t: real)
    requires 0.0 <= t <= 1.0
    ensures 0.0 <= t * t * (3.0 - 2.0 * t) <= 1.0
  {
    var sq := t * t;
    SquareNonneg(t);
    var a, b := ScaleMonotoneNonneg(0.0, 3.0 - 2.0 * t, sq);
    var d := (1.0 - t) * (1.0 - t);
    SquareNonneg(1.0 - t);
    var e, f := ScaleMonotoneNonneg(0.0, 1.0 + 2.0 * t, d);
    assert 1.0 - t * t * (3.0 - 2.0 * t) == d * (1.0 + 2.0 * t);
  }

  /** `smoothstep(edge0, edge1, x)`: the position of `x` between the edges
      clamped to [0, 1], eased by `t^2 (3 - 2t)`. The result lies in
      [0, 1]; it is 0 at or below the lower edge and 1 at or above the
      upper one. With equal edges the division gives -Infinity below the
      edge and +Infinity above it, which the clamp turns into a hard step;
      on the edge itself it gives NaN, which is no real number (see
      `BlendIsNaN`). */
  function Smoothstep(edge0: real, edge1: real, x: real): (r: real)
    requires edge0 != edge1 || x != edge0
    ensures 0.0 <= r <= 1.0
    ensures edge0 < edge1 && x <= edge0 ==> r == 0.0
    ensures edge0 < edge1 && edge1 <= x ==> r == 1.0
    ensures edge0 == edge1 && x < edge0 ==> r == 0.0
    ensures edge0 == edge1 && edge0 < x ==> r == 1.0
  {
    var t := if edge0 == edge1 then (if x < edge0 then 0.0 else 1.0)
             else Max(0.0, Min(1.0, (x - edge0) / (edge1 - edge0)));
    CubicRamp(t);
    RampEdges(edge0, edge1, x);
    t * t * (3.0 - 2.0 * t)
  }

  lemma RampEdges(edge0: real, edge1: real, x: real)
    ensures edge0 < edge1 && x <= edge0 ==> (x - edge0) / (edge1 - edge0) <= 0.0
    ensures edge0 < edge1 && edge1 <= x ==> 1.0 <= (x - edge0) / (edge1 - edge0)
  {
    if edge0 < edge1 {
      QuotientOrder(x - edge0, 0.0, edge1 - edge0);
      QuotientOrder(edge1 - edge0, x - edge0, edge1 - edge0);
      SelfQuotient(edge1 - edge0);
    }
  }

  /** The smoothstep ramp never decreases as the height rises. */
  lemma SmoothstepMonotone(edge0: real, edge1: real, x: real, x': real)
    requires edge0 < edge1 && x <= x'
    ensures Smoothstep(edge0, edge1, x) <= Smoothstep(edge0, edge1, x')
  {
    var d := edge1 - edge0;
    QuotientOrder(x - edge0, x' - edge0, d);
    var t := Max(0.0, Min(1.0, (x - edge0) / d));
    var t' := Max(0.0, Min(1.0, (x' - edge0) / d));
    CubicMonotone(t, t');
  }

  /** `t^2 (3 - 2t)` increases on [0, 1]: the difference of two values is
      `(b - a) (3 (a + b) - 2 (a^2 + ab + b^2))`, and each square or product
      is at most the corresponding sum term. */
  lemma CubicMonotone(a: real, b: real)
    requires 0.0 <= a <= b <= 1.0
    ensures a * a * (3.0 - 2.0 * a) <= b * b * (3.0 - 2.0 * b)
  {
    var aa, a1 := ScaleMonotoneNonneg(a, 1.0, a);
    var bb, b1 := ScaleMonotoneNonneg(b, 1.0, b);
    var ab, b' := ScaleMonotoneNonneg(a, 1.0, b);
    var k := 3.0 * (a + b) - 2.0 * (aa + ab + bb);
    assert 0.0 <= k;
    var lo, diff := ScaleMonotoneNonneg(0.0, b - a, k);
    assert b * b * (3.0 - 2.0 * b) - a * a * (3.0 - 2.0 * a) == (b - a) * k;
  }

  /** `lerp` channel by channel. */
  function LerpColor(a: Color, b: Color, t: real): (c: Color)
    ensures t == 0.0 ==> c == a
    ensures t == 1.0 ==> c == b
    ensures 0.0 <= t <= 1.0 && ColorInRange(a) && ColorInRange(b) ==> ColorInRange(c)
  {
    Color(Lerp(a.r, b.r, t), Lerp(a.g, b.g, t), Lerp(a.b, b.b, t))
  }

  /** `getTriplanarColor(sp, textureData, scale, perturbVal, weights)`:
      the texture sampled in the three axis planes (`(y, z)`, `(x, z)`,
      `(x, y)`) at the sphere point scaled to texture pixels and shifted by
      the perturbation, mixed by the weights. With convex weights it is a
      colour of byte range. */
  function TriplanarColor(t: Texture, sp: Vec3, worldScale: real, perturb: real, w: Vec3): (c: Color)
    requires ValidTexture(t)
    ensures Convex(w) ==> ColorInRange(c)
  {
    var colorX := SampleBilinear(t, PlaneCoord(sp.y, t.width, worldScale, perturb), PlaneCoord(sp.z, t.height, worldScale, perturb));
    var colorY := SampleBilinear(t, PlaneCoord(sp.x, t.width, worldScale, perturb), PlaneCoord(sp.z, t.height, worldScale, perturb));
    var colorZ := SampleBilinear(t, PlaneCoord(sp.x, t.width, worldScale, perturb), PlaneCoord(sp.y, t.height, worldScale, perturb));
    Triplanar(colorX, colorY, colorZ, w)
  }

  /** A solid texture gives its colour whatever the point, scale and
      perturbation. */
  lemma TriplanarSolid(t: Texture, c: Color, sp: Vec3, worldScale: real, perturb: real, w: Vec3)
    requires ValidTexture(t) && Solid(t, c) && Convex(w)
    ensures TriplanarColor(t, sp, worldScale, perturb, w) == c
  {
    SolidPlanes(t, c, PlaneCoord(sp.y, t.width, worldScale, perturb), PlaneCoord(sp.x, t.width, worldScale, perturb),
                PlaneCoord(sp.z, t.height, worldScale, perturb), PlaneCoord(sp.y, t.height, worldScale, perturb), w);
  }

  lemma SolidPlanes(t: Texture, c: Color, ux: real, uy: real, vz: real, vy: real, w: Vec3)
    requires ValidTexture(t) && Solid(t, c) && Convex(w)
    ensures Triplanar(SampleBilinear(t, ux, vz), SampleBilinear(t, uy, vz), SampleBilinear(t, uy, vy), w) == c
  {
    SampleSolid(t, c, ux, vz);
    SampleSolid(t, c, uy, vz);
    SampleSolid(t, c, uy, vy);
  }

  /** The altitude blend of the two textures at height `h`: the base
      colour alone without a high texture; with one, the mix by the
      smoothstep between `blendAltitude - blendSmoothness` and
      `blendAltitude + blendSmoothness` — all base colour at or below the
      lower edge, all high colour at or above the upper edge. */
  function BlendedColor(p: Params, sp: Vec3, h: real, perturb: real, w: Vec3): (c: Color)
    requires ValidParams(p) && !BlendIsNaN(p, h)
    ensures Convex(w) ==> ColorInRange(c)
    ensures p.textureHigh.None? ==> c == TriplanarColor(p.textureBase, sp, p.textureWorldScale, perturb, w)
    ensures p.textureHigh.Some? && 0.0 < p.blendSmoothness && h <= p.blendAltitude - p.blendSmoothness
            ==> c == TriplanarColor(p.textureBase, sp, p.textureWorldScale, perturb, w)
    ensures p.textureHigh.Some? && 0.0 < p.blendSmoothness && p.blendAltitude + p.blendSmoothness <= h
            ==> c == TriplanarColor(p.textureHigh.value, sp, p.textureWorldScale, perturb, w)
    ensures p.textureHigh.Some? && p.blendSmoothness == 0.0 && h < p.blendAltitude
            ==> c == TriplanarColor(p.textureBase, sp, p.textureWorldScale, perturb, w)
    ensures p.textureHigh.Some? && p.blendSmoothness == 0.0 && p.blendAltitude < h
            ==> c == TriplanarColor(p.textureHigh.value, sp, p.textureWorldScale, perturb, w)
  {
    var base := TriplanarColor(p.textureBase, sp, p.textureWorldScale, perturb, w);
    match p.textureHigh
    case None => base
    case Some(high) =>
      var top := TriplanarColor(high, sp, p.textureWorldScale, perturb, w);
      AltitudeBlend(base, top, p.blendAltitude - p.blendSmoothness, p.blendAltitude + p.blendSmoothness, h)
  }

  /** `lerp(base, top, smoothstep(edge0, edge1, h))`: between the two
      colours, the base colour at or below the lower edge and the top
      colour at or above the upper one. */
  function AltitudeBlend(base: Color, top: Color, edge0: real, edge1: real, h: real): (c: Color)
    requires edge0 != edge1 || h != edge0
    ensures ColorInRange(base) && ColorInRange(top) ==> ColorInRange(c)
    ensures edge0 < edge1 && h <= edge0 ==> c == base
    ensures edge0 < edge1 && edge1 <= h ==> c == top
    ensures edge0 == edge1 && h < edge0 ==> c == base
    ensures edge0 == edge1 && edge0 < h ==> c == top
  {
    LerpColor(base, top, Smoothstep(edge0, edge1, h))
  }

  // ---------------------------------------------------------------------
  // generatePlanetTexture
  // ---------------------------------------------------------------------

  /** The unshaded colour at `(x, y)` of height `h`: the triplanar weights
      of the sphere point, the perturbation and the altitude blend. A
      colour of byte range. */
  function SurfaceColor(m: Transcendentals, noise2D: Noise2, p: Params, h: real, x: int, y: int): (c: Color)
    requires Lawful(m) && ValidParams(p) && !BlendIsNaN(p, h) && 0 <= x < p.width && 0 <= y < p.height
    ensures ColorInRange(c)
  {
    var sp := MapToSphere(m, x, y, p.width, p.height);
    UnitHasWeight(sp);
    BlendedColor(p, sp, h, Perturbation(noise2D, sp, p.perturbStrength), TriplanarWeights(sp))
  }

  /** The surface normal `(-100 s gx, -100 s gy, 1)` normalised: a unit
      vector pointing outwards (positive z). */
  function SteepNormal(m: Transcendentals, gx: real, gy: real, shadingStrength: real): (n: Vec3)
    requires Lawful(m)
    ensures IsUnit(n) && 0.0 < n.z
  {
    SurfaceNormal(m, -gx * shadingStrength * NormalScale, -gy * shadingStrength * NormalScale, NormalZ)
  }

  /** The colour-map pixel at `(x, y)`, given its height, its gradient and
      the normalised light direction: the surface colour times the shading
      of the steep normal, alpha 255. Where the blend is NaN the three
      colour bytes are stored as 0. */
  function PlanetPixel(m: Transcendentals, noise2D: Noise2, p: Params, light: Vec3, h: real, gx: real, gy: real, x: int, y: int): (px: Rgba)
    requires Lawful(m) && ValidParams(p) && IsUnit(light) && 0 <= x < p.width && 0 <= y < p.height
    ensures RgbaBytes(px) && px.a == 255
    ensures BlendIsNaN(p, h) ==> px.r == px.g == px.b == 0
  {
    if BlendIsNaN(p, h) then Rgba(0, 0, 0, 255)
    else ShadedPixel(SurfaceColor(m, noise2D, p, h, x, y), Shading(SteepNormal(m, gx, gy, p.shadingStrength), light))
  }

  /** The colour-map pixel at flat index `k`, with the gradient of
      `calculateGradient` at `k`. */
  function PlanetPixelAt(m: Transcendentals, noise2D: Noise2, p: Params, light: Vec3, heightMap: seq<real>, k: int): Rgba
    requires Lawful(m) && ValidParams(p) && IsUnit(light) && |heightMap| == p.width * p.height && 0 <= k < |heightMap|
  {
    IndexSplit(k, p.width, p.height);
    PlanetPixel(m, noise2D, p, light, heightMap[k],
                GradXAt(heightMap, p.width, p.height, k), GradYAt(heightMap, p.width, p.height, k), k % p.width, k / p.width)
  }

  /** The colour map as pixels in row-major order, lit from `light`. */
  function PlanetImage(m: Transcendentals, noise2D: Noise2, p: Params, light: Vec3, heightMap: seq<real>): (img: seq<Rgba>)
    requires Lawful(m) && ValidParams(p) && IsUnit(light) && |heightMap| == p.width * p.height
    ensures |img| == |heightMap|
  {
    seq(|heightMap|, k requires 0 <= k < |heightMap| => PlanetPixelAt(m, noise2D, p, light, heightMap, k))
  }

  /** `generatePlanetTexture(params, heightMap, noise2D)`: the light
      direction and the gradient once, then every pixel row by row into a
      `width * height * 4` byte buffer. */
  method GeneratePlanetTexture(m: Transcendentals, noise2D: Noise2, p: Params, heightMap: seq<real>) returns (colorMap: array<int>)
    requires Lawful(m) && ValidParams(p) && |heightMap| == p.width * p.height
    ensures colorMap.Length == p.width * p.height * 4
    ensures colorMap[..] == Flatten(PlanetImage(m, noise2D, p, LightDirection(m), heightMap))
    ensures forall k :: 0 <= k < colorMap.Length ==> 0 <= colorMap[k] <= 255
    ensures forall i :: 0 <= i < p.width * p.height ==> colorMap[4 * i + 3] == 255
  {
    colorMap := new int[p.width * p.height * 4];
    var lightVec := LightDirection(m);
    var gx, gy := CalculateGradient(heightMap, p.width, p.height);
    PlanetRows(m, noise2D, p, heightMap, lightVec, gx[..], gy[..], colorMap);
    PlanetBytes(m, noise2D, p, lightVec, heightMap, colorMap[..]);
  }

  /** The bytes of the colour map: byte values, every alpha byte 255. */
  lemma PlanetBytes(m: Transcendentals, noise2D: Noise2, p: Params, light: Vec3, heightMap: seq<real>, bytes: seq<int>)
    requires Lawful(m) && ValidParams(p) && IsUnit(light) && |heightMap| == p.width * p.height
    requires bytes == Flatten(PlanetImage(m, noise2D, p, light, heightMap))
    ensures forall k :: 0 <= k < |bytes| ==> 0 <= bytes[k] <= 255
    ensures forall i :: 0 <= i < p.width * p.height ==> bytes[4 * i + 3] == 255
  {
    PlanetImageOpaque(m, noise2D, p, light, heightMap);
    OpaqueBytes(PlanetImage(m, noise2D, p, light, heightMap));
  }

  /** The row loop of `generatePlanetTexture`, over the gradient
      components as computed by `calculateGradient`. */
  method PlanetRows(m: Transcendentals, noise2D: Noise2, p: Params, heightMap: seq<real>,
                    lightVec: Vec3, gx: seq<real>, gy: seq<real>, colorMap: array<int>)
    requires Lawful(m) && ValidParams(p) && |heightMap| == p.width * p.height && IsUnit(lightVec)
    requires IsGradient(heightMap, p.width, p.height, gx, gy)
    requires colorMap.Length == 4 * |heightMap|
    modifies colorMap
    ensures colorMap[..] == Flatten(PlanetImage(m, noise2D, p, lightVec, heightMap))
  {
    var width, height := p.width, p.height;
    ghost var img := PlanetImage(m, noise2D, p, lightVec, heightMap);
    ghost var row := 0;
    for y := 0 to height
      invariant row == y * width && row <= |img|
      invariant colorMap[..4 * row] == Flatten(img[..row])
    {
      RowFits(y, width, height);
      PlanetRow(m, noise2D, p, heightMap, img, lightVec, gx, gy, y, row, colorMap);
      row := row + width;
    }
    assert row == height * width == |img|;
    FlattenComplete(colorMap[..], img, row);
  }

  /** Every pixel of the colour map is an opaque byte pixel. */
  lemma PlanetImageOpaque(m: Transcendentals, noise2D: Noise2, p: Params, light: Vec3, heightMap: seq<real>)
    requires Lawful(m) && ValidParams(p) && IsUnit(light) && |heightMap| == p.width * p.height
    ensures var img := PlanetImage(m, noise2D, p, light, heightMap);
      forall i :: 0 <= i < |img| ==> RgbaBytes(img[i]) && img[i].a == 255
  {
  }

  /** Pixel `(x, y)` of the colour map, with the gradient at its flat
      index. */
  lemma PlanetImageIndex(m: Transcendentals, noise2D: Noise2, p: Params, light: Vec3, heightMap: seq<real>, x: int, y: int)
    requires Lawful(m) && ValidParams(p) && IsUnit(light) && |heightMap| == p.width * p.height && 0 <= x < p.width && 0 <= y < p.height
    ensures 0 <= Index(x, y, p.width) < |heightMap|
    ensures var i := Index(x, y, p.width);
      PlanetImage(m, noise2D, p, light, heightMap)[i]
      == PlanetPixel(m, noise2D, p, light, heightMap[i],
                     GradXAt(heightMap, p.width, p.height, i), GradYAt(heightMap, p.width, p.height, i), x, y)
  {
    IndexInBounds(x, y, p.width, p.height);
    IndexDecompose(x, y, p.width);
  }

  /** One row of `generatePlanetTexture`: the pixels of row `y`, which
      start at flat index `row`, after those of the rows above. */
  method PlanetRow(m: Transcendentals, noise2D: Noise2, p: Params, heightMap: seq<real>, ghost img: seq<Rgba>,
                   lightVec: Vec3, gx: seq<real>, gy: seq<real>, y: int, ghost row: int, colorMap: array<int>)
    requires Lawful(m) && ValidParams(p) && |heightMap| == p.width * p.height && 0 <= y < p.height
    requires IsUnit(lightVec) && img == PlanetImage(m, noise2D, p, lightVec, heightMap)
    requires IsGradient(heightMap, p.width, p.height, gx, gy)
    requires row == y * p.width && 0 <= row && row + p.width <= |img| && colorMap.Length == 4 * |img|
    requires colorMap[..4 * row] == Flatten(img[..row])
    modifies colorMap
    ensures colorMap[..4 * (row + p.width)] == Flatten(img[..row + p.width])
  {
    var width := p.width;
    for x := 0 to width
      invariant colorMap[..4 * (row + x)] == Flatten(img[..row + x])
    {
      PlanetImageIndex(m, noise2D, p, lightVec, heightMap, x, y);
      var i := y * width + x;
      var pixel := PlanetPixel(m, noise2D, p, lightVec, heightMap[i], gx[i], gy[i], x, y);
      PutPixel(colorMap, img, i, pixel);
    }
  }

  /** For a solid base texture and no high texture, every colour byte is
      the texture's channel times a shading factor in [0.6, 1], rounded:
      between 0.6 times the channel minus one half and the channel plus
      one half. */
  lemma SolidPlanetPixel(m: Transcendentals, noise2D: Noise2, p: Params, light: Vec3, h: real, gx: real, gy: real, x: int, y: int, c: Color)
    requires Lawful(m) && ValidParams(p) && IsUnit(light) && 0 <= x < p.width && 0 <= y < p.height
    requires p.textureHigh.None? && Solid(p.textureBase, c)
    ensures var px := PlanetPixel(m, noise2D, p, light, h, gx, gy, x, y);
      && 0.6 * c.r - 0.5 <= px.r as real <= c.r + 0.5
      && 0.6 * c.g - 0.5 <= px.g as real <= c.g + 0.5
      && 0.6 * c.b - 0.5 <= px.b as real <= c.b + 0.5
  {
    SolidSurface(m, noise2D, p, h, x, y, c);
    ShadedBounds(c, Shading(SteepNormal(m, gx, gy, p.shadingStrength), light));
  }

  /** Without a high texture, a solid base texture colours the whole
      surface with its colour. */
  lemma SolidSurface(m: Transcendentals, noise2D: Noise2, p: Params, h: real, x: int, y: int, c: Color)
    requires Lawful(m) && ValidParams(p) && 0 <= x < p.width && 0 <= y < p.height
    requires p.textureHigh.None? && Solid(p.textureBase, c)
    ensures SurfaceColor(m, noise2D, p, h, x, y) == c
  {
    var sp := MapToSphere(m, x, y, p.width, p.height);
    UnitHasWeight(sp);
    TriplanarSolid(p.textureBase, c, sp, p.textureWorldScale, Perturbation(noise2D, sp, p.perturbStrength), TriplanarWeights(sp));
  }

  // ---------------------------------------------------------------------
  // onmessage, without the message transport
  // ---------------------------------------------------------------------

  /** The body of `onmessage`: the height map, the colour map from it, and
      the grayscale visualisation of the height map. Both buffers hold
      `width * height` pixels of four bytes, every byte in [0, 255] and
      every alpha byte 255; the visualisation repeats
      `floor(h * 255)` in its three colour bytes. */
  method ProcessRequest(m: Transcendentals, noise2D: Noise2, noise3D: Noise3, draws: seq<real>, p: Params)
    returns (colormapData: array<int>, heightmapData: array<int>)
    requires Lawful(m) && ValidParams(p) && AllDraws(draws) && 4 * CraterCount(p.craterScale) <= |draws|
    ensures colormapData.Length == p.width * p.height * 4 && heightmapData.Length == p.width * p.height * 4
    ensures colormapData[..] == Flatten(PlanetImage(m, noise2D, p, LightDirection(m), HeightMap(m, noise3D, draws, p)))
    ensures forall i :: 0 <= i < p.width * p.height ==> colormapData[4 * i + 3] == 255 && heightmapData[4 * i + 3] == 255
    ensures forall k :: 0 <= k < colormapData.Length ==> 0 <= colormapData[k] <= 255
    ensures forall k :: 0 <= k < heightmapData.Length ==> 0 <= heightmapData[k] <= 255
    ensures forall i :: 0 <= i < p.width * p.height ==>
              heightmapData[4 * i] == heightmapData[4 * i + 1] == heightmapData[4 * i + 2]
              == GrayPixel(HeightMap(m, noise3D, draws, p)[i]).r
  {
    var heightMap := GenerateHeightMap(m, noise3D, draws, p);
    colormapData := GeneratePlanetTexture(m, noise2D, p, heightMap[..]);
    heightmapData := PackHeightmap(heightMap[..], p.width, p.height);
    GrayLayout(heightMap[..]);
  }
}
