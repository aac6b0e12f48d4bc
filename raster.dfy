/** Texture sampling, colour compositing and the RGBA byte layout shared by
    the two worker scripts: `sampleTextureBilinear` and its `getPixel`, the
    triplanar weights, the light/normal shading factor, and the
    four-bytes-per-pixel buffers written into `Uint8ClampedArray`s. */
module Raster {
  import opened Numeric
  import opened Grid

  /** An `ImageData`: `width * height` pixels of four bytes (r, g, b, a)
      in row-major order. */
  datatype Texture = Texture(width: int, height: int, data: seq<int>)

  predicate ValidTexture(t: Texture) {
    && 0 < t.width && 0 < t.height
    && |t.data| == t.width * t.height * 4
    && forall k :: 0 <= k < |t.data| ==> 0 <= t.data[k] <= 255
  }

  datatype Option<T> = None | Some(value: T)

  /** An RGB colour with real channels, as the `{r, g, b}` objects of the
      source. */
  datatype Color = Color(r: real, g: real, b: real)

  predicate ByteRange(v: real) {
    0.0 <= v <= 255.0
  }

  predicate ColorInRange(c: Color) {
    ByteRange(c.r) && ByteRange(c.g) && ByteRange(c.b)
  }

  /** The index `((py % H) * W + (px % W)) * 4` that `getPixel` reads, for
      nonnegative pixel coordinates (where JavaScript's `%` and Dafny's
      agree): a pixel's first byte, with all four bytes in bounds. */
  function PixelIndex(t: Texture, px: int, py: int): (index: int)
    requires ValidTexture(t) && 0 <= px && 0 <= py
    ensures 0 <= index && index + 3 < |t.data|
    ensures index == 4 * Index(px % t.width, py % t.height, t.width)
  {
    IndexInBounds(px % t.width, py % t.height, t.width, t.height);
    Index(px % t.width, py % t.height, t.width) * 4
  }

  /** `getPixel(px, py)`: the RGB bytes of the pixel, wrapped into the
      texture in both directions. */
  function GetPixel(t: Texture, px: int, py: int): (c: Color)
    requires ValidTexture(t) && 0 <= px && 0 <= py
    ensures ColorInRange(c)
  {
    var i := PixelIndex(t, px, py);
    Color(t.data[i] as real, t.data[i + 1] as real, t.data[i + 2] as real)
  }

  /** The colour stored for the pixel in column `x`, row `y` of the texture. */
  function Texel(t: Texture, x: int, y: int): Color
    requires ValidTexture(t) && 0 <= x < t.width && 0 <= y < t.height
  {
    IndexInBounds(x, y, t.width, t.height);
    var i := 4 * Index(x, y, t.width);
    Color(t.data[i] as real, t.data[i + 1] as real, t.data[i + 2] as real)
  }

  /** `getPixel` reads the texel at the coordinates reduced modulo the
      texture's size. */
  lemma GetPixelIsTexel(t: Texture, px: int, py: int)
    requires ValidTexture(t) && 0 <= px && 0 <= py
    ensures GetPixel(t, px, py) == Texel(t, px % t.width, py % t.height)
  {
  }

  /** A texture whose every pixel has the colour `c`. */
  predicate Solid(t: Texture, c: Color)
    requires ValidTexture(t)
  {
    forall x, y :: 0 <= x < t.width && 0 <= y < t.height ==> Texel(t, x, y) == c
  }

  /** Bilinear sampling of a solid texture gives its colour, wherever it
      samples. */
  lemma SampleSolid(t: Texture, c: Color, u: real, v: real)
    requires ValidTexture(t) && Solid(t, c)
    ensures SampleBilinear(t, u, v) == c
  {
    var uu, vv := WrapCoord(u, t.width), WrapCoord(v, t.height);
    CornersSolid(t, c, uu.Floor, vv.Floor);
    BilerpColorSame(c, Frac(uu), Frac(vv));
  }

  /** In a texture of one colour the four pixels of a blend are that colour. */
  lemma CornersSolid(t: Texture, c: Color, x: int, y: int)
    requires ValidTexture(t) && Solid(t, c) && 0 <= x && 0 <= y
    ensures Corners(t, x, y) == (c, c, c, c)
  {
    GetPixelIsTexel(t, x, y);
    GetPixelIsTexel(t, x + 1, y);
    GetPixelIsTexel(t, x, y + 1);
    GetPixelIsTexel(t, x + 1, y + 1);
  }

  /** Blending a colour with itself gives that colour. */
  lemma BilerpColorSame(c: Color, ur: real, vr: real)
    requires 0.0 <= ur <= 1.0 && 0.0 <= vr <= 1.0
    ensures BilerpColor(c, c, c, c, ur, vr) == c
  {
    LerpSame(c.r, ur);
    LerpSame(c.g, ur);
    LerpSame(c.b, ur);
    LerpSame(c.r, vr);
    LerpSame(c.g, vr);
    LerpSame(c.b, vr);
  }

  /** Blending a value with itself gives that value. */
  lemma LerpSame(a: real, t: real)
    ensures Lerp(a, a, t) == a
  {
    assert a * (1.0 - t) + a * t == a * ((1.0 - t) + t);
  }

  /** Shifting a pixel coordinate by a whole texture size reads the same
      pixel. */
  lemma PixelIndexPeriodic(t: Texture, px: int, py: int)
    requires ValidTexture(t) && 0 <= px && 0 <= py
    ensures PixelIndex(t, px + t.width, py) == PixelIndex(t, px, py)
    ensures PixelIndex(t, px, py + t.height) == PixelIndex(t, px, py)
  {
    ModShift(px, t.width);
    ModShift(py, t.height);
  }

  lemma ModSmall(a: int, n: int)
    requires 0 <= a < n
    ensures a % n == a
  {
  }

  lemma ModShift(a: int, n: int)
    requires 0 <= a && 0 < n
    ensures (a + n) % n == a % n
  {
    var q, r := a / n, a % n;
    assert Index(r, q, n) == a;
    assert Index(r, q + 1, n) == a + n;
    IndexDecompose(r, q + 1, n);
  }

  /** `u < 0 ? (u % n) + n : u`: a negative coordinate is moved into
      (0, n] by a whole number of periods; a nonnegative one is kept. */
  function WrapCoord(u: real, n: int): (r: real)
    requires 0 < n
    ensures 0.0 <= r
    ensures 0.0 <= u ==> r == u
    ensures u < 0.0 ==> 0.0 < r <= n as real
    ensures u < 0.0 ==> u - r == (Trunc(u / n as real) - 1) as real * n as real
  {
    if u < 0.0 then TruncRem(u, n as real) + n as real else u
  }

  /** The fractional part `a - floor(a)`, in [0, 1). */
  function Frac(a: real): (f: real)
    ensures 0.0 <= f < 1.0
  {
    a - a.Floor as real
  }

  /** Shifting a real by a whole number `n` shifts its floor by `n` and
      keeps its fractional part. */
  lemma FloorShift(a: real, b: real, n: int)
    requires b == a + n as real
    ensures b.Floor == a.Floor + n
    ensures Frac(b) == Frac(a)
  {
  }

  /** The bilinear blend of four corner values: along `u` on both rows,
      then along `v`. */
  function Bilerp(c1: real, c2: real, c3: real, c4: real, ur: real, vr: real): real {
    Lerp(Lerp(c1, c2, ur), Lerp(c3, c4, ur), vr)
  }

  /** A bilinear blend of bytes with fractions in [0, 1] is a byte value. */
  lemma BilerpInRange(c1: real, c2: real, c3: real, c4: real, ur: real, vr: real)
    requires 0.0 <= ur <= 1.0 && 0.0 <= vr <= 1.0
    ensures ByteRange(c1) && ByteRange(c2) && ByteRange(c3) && ByteRange(c4) ==> ByteRange(Bilerp(c1, c2, c3, c4, ur, vr))
  {
  }

  /** The bilinear blend of four colours, channel by channel: a colour of
      byte range for byte colours, and the first colour at fractions 0. */
  function BilerpColor(c1: Color, c2: Color, c3: Color, c4: Color, ur: real, vr: real): (c: Color)
    requires 0.0 <= ur <= 1.0 && 0.0 <= vr <= 1.0
    ensures ColorInRange(c1) && ColorInRange(c2) && ColorInRange(c3) && ColorInRange(c4) ==> ColorInRange(c)
    ensures ur == 0.0 && vr == 0.0 ==> c == c1
  {
    BilerpInRange(c1.r, c2.r, c3.r, c4.r, ur, vr);
    BilerpInRange(c1.g, c2.g, c3.g, c4.g, ur, vr);
    BilerpInRange(c1.b, c2.b, c3.b, c4.b, ur, vr);
    Color(Bilerp(c1.r, c2.r, c3.r, c4.r, ur, vr),
          Bilerp(c1.g, c2.g, c3.g, c4.g, ur, vr),
          Bilerp(c1.b, c2.b, c3.b, c4.b, ur, vr))
  }

  /** The blend of the pixel at `(x, y)` and its right, lower and
      lower-right neighbours by the fractions `ur` and `vr`. */
  function BlendAt(t: Texture, x: int, y: int, ur: real, vr: real): (c: Color)
    requires ValidTexture(t) && 0 <= x && 0 <= y && 0.0 <= ur <= 1.0 && 0.0 <= vr <= 1.0
    ensures ColorInRange(c)
  {
    var (c1, c2, c3, c4) := Corners(t, x, y);
    BilerpColor(c1, c2, c3, c4, ur, vr)
  }

  /** The pixel at `(x, y)` and its right, lower and lower-right
      neighbours, in the order the blend takes them. */
  function Corners(t: Texture, x: int, y: int): (Color, Color, Color, Color)
    requires ValidTexture(t) && 0 <= x && 0 <= y
  {
    (GetPixel(t, x, y), GetPixel(t, x + 1, y), GetPixel(t, x, y + 1), GetPixel(t, x + 1, y + 1))
  }

  /** `sampleTextureBilinear(textureData, u, v)`: wrap negative
      coordinates, then blend the four pixels around `(floor u, floor v)`
      by the fractional parts. The result is always a colour of byte
      range. */
  function SampleBilinear(t: Texture, u: real, v: real): (c: Color)
    requires ValidTexture(t)
    ensures ColorInRange(c)
  {
    var uu, vv := WrapCoord(u, t.width), WrapCoord(v, t.height);
    BlendAt(t, uu.Floor, vv.Floor, Frac(uu), Frac(vv))
  }

  /** At the integer coordinates of a pixel the sample is exactly that
      pixel's colour. */
  lemma SampleAtTexel(t: Texture, x: int, y: int)
    requires ValidTexture(t) && 0 <= x < t.width && 0 <= y < t.height
    ensures SampleBilinear(t, x as real, y as real) == Texel(t, x, y)
  {
    var u, v := x as real, y as real;
    assert WrapCoord(u, t.width) == u && WrapCoord(v, t.height) == v;
    assert u.Floor == x && v.Floor == y;
    assert SampleBilinear(t, u, v) == BlendAt(t, x, y, 0.0, 0.0);
    ModSmall(x, t.width);
    ModSmall(y, t.height);
    assert GetPixel(t, x, y) == Texel(t, x, y);
  }

  /** Sampling repeats with the texture's width ... */
  lemma SamplePeriodicU(t: Texture, u: real, u': real, v: real)
    requires ValidTexture(t) && 0.0 <= u && 0.0 <= v && u' == u + t.width as real
    ensures SampleBilinear(t, u', v) == SampleBilinear(t, u, v)
  {
    SampleUnfold(t, u', v);
    SampleUnfold(t, u, v);
    FloorShift(u, u', t.width);
    BlendPeriodicU(t, u.Floor, u'.Floor, v.Floor, Frac(u), Frac(u'), Frac(v));
  }

  /** ... and with its height. */
  lemma SamplePeriodicV(t: Texture, u: real, v: real, v': real)
    requires ValidTexture(t) && 0.0 <= u && 0.0 <= v && v' == v + t.height as real
    ensures SampleBilinear(t, u, v') == SampleBilinear(t, u, v)
  {
    SampleUnfold(t, u, v');
    SampleUnfold(t, u, v);
    FloorShift(v, v', t.height);
    BlendPeriodicV(t, u.Floor, v.Floor, v'.Floor, Frac(u), Frac(v), Frac(v'));
  }

  /** For nonnegative coordinates no wrapping happens: the sample blends
      the four pixels at the floors by the fractional parts. */
  lemma SampleUnfold(t: Texture, u: real, v: real)
    requires ValidTexture(t) && 0.0 <= u && 0.0 <= v
    ensures 0 <= u.Floor && 0 <= v.Floor
    ensures SampleBilinear(t, u, v) == BlendAt(t, u.Floor, v.Floor, Frac(u), Frac(v))
  {
    assert WrapCoord(u, t.width) == u && WrapCoord(v, t.height) == v;
  }

  /** The blend one texture width further right is the same. */
  lemma BlendPeriodicU(t: Texture, x: int, x': int, y: int, ur: real, ur': real, vr: real)
    requires ValidTexture(t) && 0 <= x && 0 <= y && 0.0 <= ur <= 1.0 && 0.0 <= vr <= 1.0
    requires x' == x + t.width && ur' == ur
    ensures BlendAt(t, x', y, ur', vr) == BlendAt(t, x, y, ur, vr)
  {
    CornersPeriodicU(t, x, x', y);
  }

  /** The blend one texture height further down is the same. */
  lemma BlendPeriodicV(t: Texture, x: int, y: int, y': int, ur: real, vr: real, vr': real)
    requires ValidTexture(t) && 0 <= x && 0 <= y && 0.0 <= ur <= 1.0 && 0.0 <= vr <= 1.0
    requires y' == y + t.height && vr' == vr
    ensures BlendAt(t, x, y', ur, vr') == BlendAt(t, x, y, ur, vr)
  {
    CornersPeriodicV(t, x, y, y');
  }

  /** The four pixels one texture width further right are the same. */
  lemma CornersPeriodicU(t: Texture, x: int, x': int, y: int)
    requires ValidTexture(t) && 0 <= x && 0 <= y && x' == x + t.width
    ensures Corners(t, x', y) == Corners(t, x, y)
  {
    GetPixelPeriodicU(t, x, y);
    GetPixelPeriodicU(t, x + 1, y);
    GetPixelPeriodicU(t, x, y + 1);
    GetPixelPeriodicU(t, x + 1, y + 1);
  }

  /** The four pixels one texture height further down are the same. */
  lemma CornersPeriodicV(t: Texture, x: int, y: int, y': int)
    requires ValidTexture(t) && 0 <= x && 0 <= y && y' == y + t.height
    ensures Corners(t, x, y') == Corners(t, x, y)
  {
    GetPixelPeriodicV(t, x, y);
    GetPixelPeriodicV(t, x + 1, y);
    GetPixelPeriodicV(t, x, y + 1);
    GetPixelPeriodicV(t, x + 1, y + 1);
  }

  /** A pixel one texture width further right reads the same colour. */
  lemma GetPixelPeriodicU(t: Texture, px: int, py: int)
    requires ValidTexture(t) && 0 <= px && 0 <= py
    ensures GetPixel(t, px + t.width, py) == GetPixel(t, px, py)
  {
    PixelIndexPeriodic(t, px, py);
  }

  /** A pixel one texture height further down reads the same colour. */
  lemma GetPixelPeriodicV(t: Texture, px: int, py: int)
    requires ValidTexture(t) && 0 <= px && 0 <= py
    ensures GetPixel(t, px, py + t.height) == GetPixel(t, px, py)
  {
    PixelIndexPeriodic(t, px, py);
  }

  /** Three nonnegative parts divided by their positive total are
      nonnegative shares summing to 1. */
  lemma Shares(a: real, b: real, c: real)
    requires 0.0 <= a && 0.0 <= b && 0.0 <= c && 0.0 < a + b + c
    ensures var s := a + b + c; 0.0 <= a / s && 0.0 <= b / s && 0.0 <= c / s
    ensures var s := a + b + c; a / s + b / s + c / s == 1.0
  {
    var s := a + b + c;
    assert a / s + b / s + c / s == (a + b + c) / s;
  }

  /** A point of the unit sphere has a positive weight sum. */
  lemma UnitHasWeight(sp: Vec3)
    requires IsUnit(sp)
    ensures 0.0 < Abs(sp.x) + Abs(sp.y) + Abs(sp.z)
  {
    NoWeightIsZero(sp);
  }

  lemma NoWeightIsZero(sp: Vec3)
    ensures Abs(sp.x) + Abs(sp.y) + Abs(sp.z) <= 0.0 ==> NormSquared(sp) == 0.0
  {
  }

  /** The triplanar weights `|sp| / (|sp.x| + |sp.y| + |sp.z|)` of a
      sphere point other than the origin: convex, and ordered as the
      magnitudes of the coordinates are. */
  function TriplanarWeights(sp: Vec3): (w: Vec3)
    requires 0.0 < Abs(sp.x) + Abs(sp.y) + Abs(sp.z)
    ensures Convex(w)
    ensures Abs(sp.x) <= Abs(sp.y) <==> w.x <= w.y
    ensures Abs(sp.y) <= Abs(sp.z) <==> w.y <= w.z
    ensures Abs(sp.x) <= Abs(sp.z) <==> w.x <= w.z
  {
    var s := Abs(sp.x) + Abs(sp.y) + Abs(sp.z);
    Shares(Abs(sp.x), Abs(sp.y), Abs(sp.z));
    QuotientOrder(Abs(sp.x), Abs(sp.y), s);
    QuotientOrder(Abs(sp.y), Abs(sp.z), s);
    QuotientOrder(Abs(sp.x), Abs(sp.z), s);
    Vec3(Abs(sp.x) / s, Abs(sp.y) / s, Abs(sp.z) / s)
  }

  predicate Convex(w: Vec3) {
    0.0 <= w.x && 0.0 <= w.y && 0.0 <= w.z && w.x + w.y + w.z == 1.0
  }

  /** One channel of the triplanar mix `cx * w.x + cy * w.y + cz * w.z`. */
  function Mix3(a: real, b: real, c: real, w: Vec3): real {
    a * w.x + b * w.y + c * w.z
  }

  /** A convex mix of byte values is a byte value, and a convex mix of
      three equal values is that value. */
  lemma Mix3InRange(a: real, b: real, c: real, w: Vec3)
    ensures Convex(w) && ByteRange(a) && ByteRange(b) && ByteRange(c) ==> ByteRange(Mix3(a, b, c, w))
    ensures Convex(w) && a == b == c ==> Mix3(a, b, c, w) == a
  {
    if Convex(w) {
      if a == b == c {
        Mix3Same(a, w);
      }
      if ByteRange(a) && ByteRange(b) && ByteRange(c) {
        Mix3Bytes(a, b, c, w);
      }
    }
  }

  /** A convex mix of one value three times is that value. */
  lemma Mix3Same(a: real, w: Vec3)
    requires Convex(w)
    ensures Mix3(a, a, a, w) == a
  {
    assert a * w.x + a * w.y + a * w.z == a * (w.x + w.y + w.z);
  }

  /** A convex mix of byte values is a byte value. */
  lemma Mix3Bytes(a: real, b: real, c: real, w: Vec3)
    requires Convex(w) && ByteRange(a) && ByteRange(b) && ByteRange(c)
    ensures ByteRange(Mix3(a, b, c, w))
  {
    var a0, a1 := ScaleMonotoneNonneg(0.0, a, w.x);
    var a2, a3 := ScaleMonotoneNonneg(a, 255.0, w.x);
    var b0, b1 := ScaleMonotoneNonneg(0.0, b, w.y);
    var b2, b3 := ScaleMonotoneNonneg(b, 255.0, w.y);
    var c0, c1 := ScaleMonotoneNonneg(0.0, c, w.z);
    var c2, c3 := ScaleMonotoneNonneg(c, 255.0, w.z);
    assert a0 == 0.0 && b0 == 0.0 && c0 == 0.0;
    assert a3 + b3 + c3 == 255.0 * (w.x + w.y + w.z);
    assert Mix3(a, b, c, w) == a1 + b1 + c1;
  }

  /** The colour mixed from the three planar samples by the weights: with
      convex weights, a colour of byte range, equal to the samples when
      they agree. */
  function Triplanar(cx: Color, cy: Color, cz: Color, w: Vec3): (c: Color)
    ensures Convex(w) && ColorInRange(cx) && ColorInRange(cy) && ColorInRange(cz) ==> ColorInRange(c)
    ensures Convex(w) && cx == cy == cz ==> c == cx
  {
    Mix3InRange(cx.r, cy.r, cz.r, w);
    Mix3InRange(cx.g, cy.g, cz.g, w);
    Mix3InRange(cx.b, cy.b, cz.b, w);
    Color(Mix3(cx.r, cy.r, cz.r, w), Mix3(cx.g, cy.g, cz.g, w), Mix3(cx.b, cy.b, cz.b, w))
  }

  /** The normalised light direction `(1, 0.5, 0.5) / |(1, 0.5, 0.5)|`. */
  function LightDirection(m: Transcendentals): (l: Vec3)
    requires Lawful(m)
    ensures IsUnit(l)
  {
    Normalize(m, Vec3(1.0, 0.5, 0.5))
  }

  /** A vector with a nonzero z component has positive length. */
  lemma PositiveNorm(v: Vec3)
    requires v.z != 0.0
    ensures NormSquared(v) > 0.0
  {
    SumSquaresPositive(v.x, v.y, v.z);
    calc {
      NormSquared(v);
      v.x * v.x + v.y * v.y + v.z * v.z;
    >
      0.0;
    }
  }

  /** The normalised surface normal `(nx, ny, nz) / |(nx, ny, nz)|` for a
      nonzero `nz`: a unit vector pointing to the same side as `nz`. */
  function SurfaceNormal(m: Transcendentals, nx: real, ny: real, nz: real): (n: Vec3)
    requires Lawful(m) && nz != 0.0
    ensures IsUnit(n)
    ensures 0.0 < nz ==> 0.0 < n.z
  {
    PositiveNorm(Vec3(nx, ny, nz));
    var mag := m.sqrt(NormSquared(Vec3(nx, ny, nz)));
    assert 0.0 < mag;
    Normalize(m, Vec3(nx, ny, nz))
  }

  /** `0.6 + 0.4 * max(0, normal . light)`: in [0.6, 1] for unit vectors,
      0.6 when the surface faces away from the light and 1 when it faces
      it squarely. */
  function Shading(normal: Vec3, light: Vec3): (s: real)
    requires IsUnit(normal) && IsUnit(light)
    ensures 0.6 <= s <= 1.0
    ensures Dot(normal, light) <= 0.0 ==> s == 0.6
    ensures normal == light ==> s == 1.0
  {
    UnitDotBounded(normal, light);
    0.6 + 0.4 * Max(0.0, Dot(normal, light))
  }

  /** The four bytes of one pixel of a `Uint8ClampedArray` image. */
  datatype Rgba = Rgba(r: int, g: int, b: int, a: int)

  predicate RgbaBytes(p: Rgba) {
    0 <= p.r <= 255 && 0 <= p.g <= 255 && 0 <= p.b <= 255 && 0 <= p.a <= 255
  }

  /** A byte value scaled by a factor in [0, 1] is still a byte value. */
  lemma ScaledByte(v: real, f: real)
    requires ByteRange(v) && 0.0 <= f <= 1.0
    ensures ByteRange(v * f) && v * f <= v
  {
    var lo, hi := ScaleMonotoneNonneg(0.0, f, v);
    var a, b := ScaleMonotoneNonneg(f, 1.0, v);
  }

  lemma ShadedInRange(c: Color, shading: real)
    ensures ColorInRange(c) && 0.0 <= shading <= 1.0 ==>
              ByteRange(c.r * shading) && ByteRange(c.g * shading) && ByteRange(c.b * shading)
  {
    if ColorInRange(c) && 0.0 <= shading <= 1.0 {
      ScaledByte(c.r, shading);
      ScaledByte(c.g, shading);
      ScaledByte(c.b, shading);
    }
  }

  /** The colour-map pixel of both workers: each channel of the colour
      times the shading factor, stored through the clamping conversion of
      the `Uint8ClampedArray`, and alpha 255. For a byte colour and a
      factor in [0, 1] no clamping happens: each byte is the product
      rounded to a nearest integer. */
  function ShadedPixel(c: Color, shading: real): (p: Rgba)
    ensures RgbaBytes(p) && p.a == 255
    ensures ColorInRange(c) && 0.0 <= shading <= 1.0 ==>
              && -0.5 <= p.r as real - c.r * shading <= 0.5
              && -0.5 <= p.g as real - c.g * shading <= 0.5
              && -0.5 <= p.b as real - c.b * shading <= 0.5
  {
    ShadedInRange(c, shading);
    Rgba(ToUint8Clamped(c.r * shading), ToUint8Clamped(c.g * shading), ToUint8Clamped(c.b * shading), 255)
  }

  /** Writes the four bytes of pixel `i` of the image `px` after the bytes
      of the pixels before it. */
  method PutPixel(buf: array<int>, ghost px: seq<Rgba>, i: int, p: Rgba)
    requires 0 <= i < |px| && px[i] == p && 4 * |px| <= buf.Length
    requires buf[..4 * i] == Flatten(px[..i])
    modifies buf
    ensures buf[..4 * (i + 1)] == Flatten(px[..i + 1])
    ensures forall k :: 0 <= k < buf.Length && (k < 4 * i || 4 * (i + 1) <= k) ==> buf[k] == old(buf[k])
  {
    ghost var before := buf[..];
    buf[4 * i] := p.r;
    buf[4 * i + 1] := p.g;
    buf[4 * i + 2] := p.b;
    buf[4 * i + 3] := p.a;
    assert buf[..4 * i] == before[..4 * i];
    assert buf[..4 * (i + 1)] == buf[..4 * i] + [p.r, p.g, p.b, p.a];
    FlattenSnoc(px, i);
  }

  /** Pixels laid out four interleaved bytes each, pixel `i` at bytes
      `4 i .. 4 i + 3`. */
  function Flatten(px: seq<Rgba>): (bytes: seq<int>)
    ensures |bytes| == 4 * |px|
  {
    if |px| == 0 then []
    else
      var p := px[|px| - 1];
      Flatten(px[..|px| - 1]) + [p.r, p.g, p.b, p.a]
  }

  /** Bytes `4 i .. 4 i + 3` of the layout are pixel `i`. */
  lemma {:induction false} FlattenAt(px: seq<Rgba>, i: int)
    requires 0 <= i < |px|
    ensures Flatten(px)[4 * i] == px[i].r && Flatten(px)[4 * i + 1] == px[i].g
    ensures Flatten(px)[4 * i + 2] == px[i].b && Flatten(px)[4 * i + 3] == px[i].a
  {
    var n := |px| - 1;
    if i < n {
      FlattenAt(px[..n], i);
    }
  }

  /** Every byte of a layout of byte pixels is a byte. */
  lemma {:induction false} FlattenBytes(px: seq<Rgba>)
    requires forall i :: 0 <= i < |px| ==> RgbaBytes(px[i])
    ensures forall k :: 0 <= k < |Flatten(px)| ==> 0 <= Flatten(px)[k] <= 255
  {
    if |px| > 0 {
      FlattenBytes(px[..|px| - 1]);
      assert RgbaBytes(px[|px| - 1]);
    }
  }

  /** The layout of opaque byte pixels: every byte a byte value, every
      fourth byte 255. */
  lemma OpaqueBytes(px: seq<Rgba>)
    requires forall i :: 0 <= i < |px| ==> RgbaBytes(px[i]) && px[i].a == 255
    ensures forall k :: 0 <= k < |Flatten(px)| ==> 0 <= Flatten(px)[k] <= 255
    ensures forall i :: 0 <= i < |px| ==> Flatten(px)[4 * i + 3] == 255
  {
    FlattenBytes(px);
    forall i | 0 <= i < |px|
      ensures Flatten(px)[4 * i + 3] == 255
    {
      FlattenAt(px, i);
    }
  }

  /** One more pixel appends its four bytes. */
  lemma FlattenSnoc(px: seq<Rgba>, n: int)
    requires 0 <= n < |px|
    ensures Flatten(px[..n + 1]) == Flatten(px[..n]) + [px[n].r, px[n].g, px[n].b, px[n].a]
  {
    assert px[..n + 1][..n] == px[..n];
  }

  /** A buffer whose prefix covering every pixel is their flattening is
      that flattening. */
  lemma FlattenComplete(bytes: seq<int>, px: seq<Rgba>, n: int)
    requires n == |px| && |bytes| == 4 * n && bytes[..4 * n] == Flatten(px[..n])
    ensures bytes == Flatten(px)
  {
    assert px[..n] == px;
    assert bytes[..4 * n] == bytes;
  }

  /** A heightmap pixel: `floor(h * 255)` stored in all three colour
      channels (clamped into [0, 255] by the array), alpha 255. A height in
      [0, 1] is stored without clamping. */
  function GrayPixel(h: real): (p: Rgba)
    ensures RgbaBytes(p) && p.a == 255 && p.r == p.g == p.b
    ensures 0.0 <= h <= 1.0 ==> p.r == (h * 255.0).Floor
    ensures h <= 0.0 ==> p.r == 0
    ensures 1.0 <= h ==> p.r == 255
  {
    var v := ToUint8Clamped((h * 255.0).Floor as real);
    Rgba(v, v, v, 255)
  }

  /** The heightmap image: one gray pixel per height. */
  function GrayImage(heightMap: seq<real>): seq<Rgba> {
    seq(|heightMap|, i requires 0 <= i < |heightMap| => GrayPixel(heightMap[i]))
  }

  /** The packing loop of `onmessage`: a `width * height * 4` byte buffer
      whose pixel `i` is the gray pixel of height `i`. */
  method PackHeightmap(heightMap: seq<real>, width: int, height: int) returns (buf: array<int>)
    requires 0 <= width && 0 <= height && |heightMap| == width * height
    ensures buf.Length == width * height * 4
    ensures buf[..] == Flatten(GrayImage(heightMap))
  {
    buf := new int[width * height * 4](_ => 0);
    ghost var px := GrayImage(heightMap);
    for i := 0 to |heightMap|
      invariant buf[..4 * i] == Flatten(px[..i])
    {
      var val := GrayPixel(heightMap[i]).r;
      ghost var before := buf[..];
      buf[i * 4] := val;
      buf[i * 4 + 1] := val;
      buf[i * 4 + 2] := val;
      buf[i * 4 + 3] := 255;
      assert buf[..4 * i] == before[..4 * i];
      assert buf[..4 * (i + 1)] == buf[..4 * i] + [val, val, val, 255];
      FlattenSnoc(px, i);
    }
    assert px[..|heightMap|] == px;
    assert buf[..] == buf[..4 * |heightMap|];
  }

  /** The packed grayscale image: byte values, alpha 255, each pixel's
      gray value repeated in its three colour bytes. */
  lemma GrayLayout(heightMap: seq<real>)
    ensures var bytes := Flatten(GrayImage(heightMap));
      && (forall k :: 0 <= k < |bytes| ==> 0 <= bytes[k] <= 255)
      && (forall i :: 0 <= i < |heightMap| ==>
            && bytes[4 * i + 3] == 255
            && bytes[4 * i] == bytes[4 * i + 1] == bytes[4 * i + 2] == GrayPixel(heightMap[i]).r)
  {
    var px := GrayImage(heightMap);
    OpaqueBytes(px);
    forall i | 0 <= i < |heightMap|
      ensures Flatten(px)[4 * i] == Flatten(px)[4 * i + 1] == Flatten(px)[4 * i + 2] == GrayPixel(heightMap[i]).r
    {
      FlattenAt(px, i);
    }
  }

  /** Every byte of the packed heightmap is a byte value, and every alpha
      byte is 255. */
  lemma PackedHeightmapBytes(heightMap: seq<real>, i: int)
    requires 0 <= i < |heightMap|
    ensures Flatten(GrayImage(heightMap))[4 * i + 3] == 255
    ensures Flatten(GrayImage(heightMap))[4 * i] == Flatten(GrayImage(heightMap))[4 * i + 1]
                                               == Flatten(GrayImage(heightMap))[4 * i + 2]
    ensures 0.0 <= heightMap[i] <= 1.0 ==> Flatten(GrayImage(heightMap))[4 * i] == (heightMap[i] * 255.0).Floor
  {
    FlattenAt(GrayImage(heightMap), i);
  }

  // ---------------------------------------------------------------------
  // Texture coordinates and shaded colour bounds
  // ---------------------------------------------------------------------

  /** A 2D noise function such as the `noise2D` the workers create. */
  type Noise2 = (real, real) -> real

  /** The perturbation of the texture coordinates at `sp`:
      `noise2D(sp.x * 300, sp.y * 300) * perturb_strength`. */
  function Perturbation(noise2D: Noise2, sp: Vec3, strength: real): real {
    noise2D(sp.x * 300.0, sp.y * 300.0) * strength
  }

  /** A texture coordinate of one plane: the sphere coordinate times the
      texture's size and the world scale, shifted by the perturbation. */
  function PlaneCoord(a: real, size: int, worldScale: real, perturb: real): real {
    a * size as real * worldScale + perturb
  }

  /** A byte colour shaded by a factor in [0.6, 1] and rounded: each
      byte lies between 0.6 times the channel minus one half and the
      channel plus one half. */
  lemma ShadedBounds(c: Color, s: real)
    requires ColorInRange(c) && 0.6 <= s <= 1.0
    ensures var px := ShadedPixel(c, s);
      && 0.6 * c.r - 0.5 <= px.r as real <= c.r + 0.5
      && 0.6 * c.g - 0.5 <= px.g as real <= c.g + 0.5
      && 0.6 * c.b - 0.5 <= px.b as real <= c.b + 0.5
  {
    ShadedChannel(c.r, s, ShadedPixel(c, s).r);
    ShadedChannel(c.g, s, ShadedPixel(c, s).g);
    ShadedChannel(c.b, s, ShadedPixel(c, s).b);
  }

  /** A channel value shaded by a factor in [0.6, 1] and rounded. */
  lemma ShadedChannel(v: real, s: real, b: int)
    requires ByteRange(v) && 0.6 <= s <= 1.0 && -0.5 <= b as real - v * s <= 0.5
    ensures 0.6 * v - 0.5 <= b as real <= v + 0.5
  {
    var vs := ShadedBetween(v, s);
    RoundedBetween(v, vs, b as real);
  }

  lemma RoundedBetween(v: real, vs: real, b: real)
    requires 0.6 * v <= vs <= v && -0.5 <= b - vs <= 0.5
    ensures 0.6 * v - 0.5 <= b <= v + 0.5
  {
  }

  lemma ShadedBetween(v: real, s: real) returns (vs: real)
    requires ByteRange(v) && 0.6 <= s <= 1.0
    ensures vs == v * s && 0.6 * v <= vs <= v
  {
    var a, b := ScaleMonotoneNonneg(0.6, s, v);
    var c, d := ScaleMonotoneNonneg(s, 1.0, v);
    vs := b;
  }
}
