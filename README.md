# Procedural planet generator, modelled in Dafny

This project models the computational core of a procedural planet-surface
generator. The core has three parts.

- **Simplex noise** (`simplex-noise.js`). The `SimplexNoise` constructor
  builds the identity table, Fisher–Yates-shuffles it with a supplied
  `random()`, and expands it into the 512-entry `perm` and `permMod12`
  tables. `noise2D`, `noise3D` and `noise4D` skew a sample into a simplex
  cell, pick the corners, hash them through the tables, and add up the
  gated falloff terms. Module `Simplex`: a `SimplexNoise` class over
  arrays, with pure functions for the noise.
- **Height field** (`generateHeightMap` in `starsystems/worker.js` and in
  `worker.js`). Each pixel is mapped to the unit sphere. The worker then
  sums the octaves of fractal noise and applies craters: a field of random
  crater profiles in `starsystems/worker.js`, or one inverted-noise term in
  `worker.js`. It stores the heights in a typed array while tracking the
  running minimum and maximum, then rescales in place to [0, 1].
  - Modules `Starsystems` and `Worker` hold the two variants.
  - Module `Terrain` holds what they share: fractal noise, extrema,
    normalisation.
- **Texture compositing and packing** (`generatePlanetTexture`,
  `calculateGradient`, `sampleTextureBilinear`, `getTriplanarColor`,
  `lerp`/`smoothstep`, and the RGBA packing in `onmessage`). This covers
  the gradient with wrapped or clamped neighbours, bilinear sampling with
  wrapping texture coordinates, triplanar blending, the altitude blend of
  two textures, shading, and the interleaved 4-byte pixel layout.
  - Module `Raster` holds what both workers share.
  - Modules `Starsystems` and `Worker` hold the variants.
  - Module `Numeric` holds real arithmetic and JavaScript's truncating `%`
    and `Uint8ClampedArray` conversion. Module `Grid` holds row-major
    indexing.

Inputs the core does not compute are parameters:
- **Transcendentals.** `Math.cos`, `sin`, `acos`, `exp`, `sqrt` and `PI`
  are a `Transcendentals` record constrained by `Lawful`. `Lawful` states
  only the laws the code relies on: the Pythagorean identity, that a
  square root squares back, that `exp` is positive and at most 1 for
  nonpositive arguments, the range of `acos`, and that `PI` lies between
  3.14 and 3.15.
- **Random numbers.** The seeded `random()`/`prng()` is a sequence of
  draws in [0, 1).
- **Noise in the workers.** The workers' `noise2D`/`noise3D` come from an
  external module, so they are function parameters.

Every loop of the source is a `method` with a `while`/`for` loop. Each is
proved against a function that defines its result (`Fbm`, `SeqMin`/`SeqMax`,
`Normalized`, `RawHeights`, `GradXAt`, `PlanetImage`, `Flatten`,
`ShuffleFrom`). The properties the source relies on are proved about those
functions.

Four expression helpers carry no contract of their own. What the source
relies on about them is stated by the lemmas about the functions that use
them:
- `Starsystems.AdjustedY` (`starsystems/worker.js:89-92`) is bounded by
  `Starsystems.AdjustedYRange`.
- `Worker.CraterSample` (`worker.js:115-119`) feeds `Worker.CraterNoise`,
  whose bounds hold for every raw value in [-1, 1].
- `Raster.Perturbation` (`worker.js:164`, `starsystems/worker.js:211`) and
  `Raster.PlaneCoord` (`worker.js:166-179`, `starsystems/worker.js:269-282`)
  build the triplanar coordinates. `Raster.Triplanar`,
  `Starsystems.TriplanarColor` and `Worker.TriplanarColor` hold for every
  value they take.

The two workers differ in a few constants and edge cases, and each module
keeps its own:
- **Surface normal.** `worker.js` builds the normal `{-gx·s, -gy·s, 0.1}`
  (`worker.js:191`). `starsystems/worker.js` builds
  `{-gx·s·100, -gy·s·100, 1}` (`starsystems/worker.js:238`).
- **Normalisation threshold.** `worker.js` rescales the heights only when
  `range > 0` (`worker.js:132`); `starsystems/worker.js` only when
  `range > 1e-6` (`starsystems/worker.js:174`).
- **Latitude stretch.** `starsystems/worker.js` maps row `y` to latitude
  through `adjustedY = (y / height - 0.5) * 0.65 + 0.5`
  (`starsystems/worker.js:89-95`), so rows crowd towards the equator.
  `worker.js` spaces latitudes evenly (`(y / height) * π - π / 2`,
  `worker.js:86`).
- **Texture coordinates.** `worker.js` reduces every triplanar coordinate
  with JavaScript's `%` before sampling (`worker.js:166-179`), so it reaches
  `sampleTextureBilinear` strictly inside `(-size, size)`, and after the
  sampler's wrap it lies in `[0, size)`. `starsystems/worker.js` passes the
  coordinates unreduced (`starsystems/worker.js:269-282`).
- **Negative exact multiples.** Both files wrap a negative coordinate `u`
  to `u % size + size` (`worker.js:230`, `starsystems/worker.js:324`). In
  `starsystems/worker.js`, whose coordinates are unreduced, a negative
  exact multiple of the size therefore wraps to the size itself, not to 0,
  and `getPixel`'s own `%` wraps that pixel back to column 0. In
  `worker.js` such a coordinate has already been reduced to `-0`, which is
  not negative, so it stays 0.
- **Zero blend smoothness.** When `blend_smoothness` is 0,
  `smoothstep(alt, alt, h)` is a hard step: 0 below the blend altitude and
  1 above it. At `h == alt` it computes `0 / 0`, and every colour channel of
  that pixel is NaN, which the `Uint8ClampedArray` stores as 0. The model
  writes such a pixel as black with alpha 255 (`BlendIsNaN`).

## Model

| member | source | states |
|---|---|---|
| Numeric.Normalize | worker.js:149-151 | dividing a nonzero vector by the square root of its squared norm gives a unit vector with the same direction: the result times that positive length is the input |
| Numeric.UnitDotBounded | worker.js:195-196 | the dot product of two unit vectors lies in [-1, 1] |
| Numeric.TruncRem | worker.js:168 | JavaScript's `%`: the remainder keeps the sign of the dividend, lies strictly inside (-n, n), leaves values already inside unchanged, and differs from the dividend by a multiple of n |
| Numeric.Lerp | starsystems/worker.js:256-258 | `lerp(a, b, 0) == a`, `lerp(a, b, 1) == b`, and for t in [0, 1] the result lies between a and b |
| Numeric.ToUint8Clamped | worker.js:198-201 | a store into a `Uint8ClampedArray` is a byte: 0 at or below 0, 255 at or above 255, otherwise within one half of the value, and exact on integers |
| Grid.IndexInBounds | worker.js:103 | `y * width + x` of a grid pixel is an index of the `width * height` array |
| Grid.IndexSplit | worker.js:157 | every flat index of a nonempty grid is the row-major index of the pixel `(k % width, k / width)`, which lies inside the grid |
| Raster.PixelIndex | worker.js:240-247 | `getPixel`'s index `((py % H) * W + (px % W)) * 4` leaves all four bytes of the pixel in bounds for nonnegative coordinates |
| Raster.GetPixel | worker.js:240-247 | the colour read from a texture of bytes has byte-range channels |
| Raster.GetPixelIsTexel | worker.js:240-247 | `getPixel(px, py)` is the texel at `(px mod W, py mod H)` |
| Raster.PixelIndexPeriodic | worker.js:241 | `getPixel`'s index is periodic with period W in x and H in y |
| Raster.GetPixelPeriodicU | starsystems/worker.js:335-342 | shifting a pixel by the texture width reads the same colour |
| Raster.GetPixelPeriodicV | starsystems/worker.js:335-342 | shifting a pixel by the texture height reads the same colour |
| Raster.WrapCoord | worker.js:230-231 | a nonnegative coordinate is kept; a negative one is moved by a whole number of periods into (0, n] |
| Raster.Frac | worker.js:235-236 | the sampling ratio `u - floor(u)` lies in [0, 1) |
| Raster.BilerpInRange | worker.js:254-256 | a bilinear blend of four byte values with ratios in [0, 1] is a byte value |
| Raster.BilerpColor | worker.js:254-256 | the channel-wise blend keeps colours in byte range, and with both ratios 0 it returns the first corner |
| Raster.SampleBilinear | worker.js:226-259 | `sampleTextureBilinear` returns a colour with byte-range channels for every coordinate |
| Raster.SampleAtTexel | worker.js:233-256 | at integer coordinates inside the texture the sample is exactly that texel's colour |
| Raster.SamplePeriodicU | starsystems/worker.js:320-354 | for nonnegative coordinates the sample is periodic in u with the texture width |
| Raster.SamplePeriodicV | starsystems/worker.js:320-354 | for nonnegative coordinates the sample is periodic in v with the texture height |
| Raster.SampleSolid | worker.js:226-259 | sampling a texture whose every pixel has colour c gives c at every coordinate |
| Raster.Shares | worker.js:160-162 | dividing three nonnegative weights with a positive sum by that sum gives nonnegative shares that add up to 1 |
| Raster.UnitHasWeight | worker.js:160-162 | for a point of the unit sphere `|x| + |y| + |z| > 0`, so the weight division is defined |
| Raster.TriplanarWeights | worker.js:160-162 | the weights are convex, and each pair of weights is ordered exactly as the absolute coordinates are (both directions) |
| Raster.Mix3InRange | worker.js:185-189 | a convex mix of byte values is a byte value, and a mix of three equal values is that value |
| Raster.Triplanar | worker.js:185-189 | the triplanar colour mix keeps byte range and returns the common colour when the three samples agree |
| Raster.LightDirection | worker.js:149-151 | the normalised light vector `{1, 0.5, 0.5}` is a unit vector |
| Raster.SurfaceNormal | worker.js:191-193 | the normalised surface normal is a unit vector that points up whenever its raw z is positive |
| Raster.Shading | worker.js:195-196 | the shading factor lies in [0.6, 1], is exactly 0.6 for slopes facing away from the light and exactly 1 when the normal is the light direction |
| Raster.ShadedPixel | worker.js:198-201 | a colour-map pixel is four bytes with alpha 255; for byte colours and a factor in [0, 1] each channel is the shaded value rounded to a nearest integer |
| Raster.ShadedBounds | worker.js:195-201 | with a factor in [0.6, 1] each stored channel lies between 0.6 of the colour minus one half and the colour plus one half |
| Raster.PutPixel | worker.js:198-201 | writing pixel i puts its four bytes after the bytes of the pixels before it and changes no other byte |
| Raster.FlattenAt | worker.js:198-201 | in the interleaved layout bytes `4i .. 4i+3` are the r, g, b, a of pixel i |
| Raster.FlattenBytes | worker.js:64-71 | the layout of byte pixels holds only bytes |
| Raster.OpaqueBytes | worker.js:198-201 | the layout of opaque byte pixels holds bytes and has 255 at every `4i + 3` |
| Raster.FlattenSnoc | worker.js:65-71 | appending a pixel appends its four bytes to the layout |
| Raster.GrayPixel | worker.js:66-70 | the heightmap pixel is opaque gray; for a height in [0, 1] its gray is `floor(h * 255)`, clamped to 0 and 255 outside |
| Raster.PackHeightmap | worker.js:64-71 | the heightmap visual buffer has `width * height * 4` bytes and is exactly the layout of the gray pixels of the heights |
| Raster.GrayLayout | worker.js:64-71 | every byte of the heightmap buffer is a byte, each pixel's r, g and b agree, and every alpha is 255 |
| Raster.PackedHeightmapBytes | worker.js:64-71 | byte `4i + 3` is 255, bytes `4i .. 4i+2` agree, and for a height in [0, 1] they equal `floor(h * 255)` |
| Terrain.SpherePoint | worker.js:88-92 | the point `(cos lat cos lon, cos lat sin lon, sin lat)` lies on the unit sphere |
| Terrain.Longitude | worker.js:85 | the longitude of column x lies in [0, 2π) |
| Terrain.LongitudeSeam | worker.js:85 | neighbouring columns are `2π / width` apart, and the last column stops one step short of the first plus 2π |
| Terrain.HalfPowerBounds | starsystems/worker.js:143-147 | every octave amplitude `0.5^o` lies in (0, 1] |
| Terrain.FbmNext | starsystems/worker.js:144-148 | one more octave adds the noise sampled at frequency `base · 2^o` times amplitude `0.5^o` |
| Terrain.FreqDoubles | starsystems/worker.js:146 | the frequency of each octave is twice that of the one before |
| Terrain.FractalNoise | starsystems/worker.js:141-148 | the octave loop computes the sum of the first `octaves` octaves from frequency `scale / 100` |
| Terrain.FbmBounded | starsystems/worker.js:141-148 | for noise in [-1, 1] the sum of n octaves has magnitude at most `2 - 2 · 0.5^n` |
| Terrain.SeqMin | starsystems/worker.js:167 | the minimum of a nonempty field is below every value and attained |
| Terrain.SeqMax | starsystems/worker.js:168 | the maximum of a nonempty field is above every value and attained |
| Terrain.ExtremaUnique | starsystems/worker.js:133-169 | attained bounds of every value are the minimum and the maximum |
| Terrain.ExtremaSnoc | starsystems/worker.js:167-168 | the running update `min(lo, h)` / `max(hi, h)` gives the extremes of the longer prefix |
| Terrain.UpdateExtrema | starsystems/worker.js:167-168 | after pixel i the running values are the minimum and maximum of heights 0..i, the first pixel replacing the infinite starting values |
| Terrain.StoreHeight | starsystems/worker.js:165-168 | storing pixel i keeps the stored prefix equal to the heights and the running extremes those of the prefix |
| Terrain.AllRowsFilled | starsystems/worker.js:135-170 | once every row is filled the array holds exactly the heights and the running values are their minimum and maximum |
| Terrain.RescaledUnitRange | starsystems/worker.js:175-177 | `(h - min) / range` maps values between the extremes into [0, 1], the minimum to 0 and the maximum to 1 |
| Terrain.NormalizedUnitRange | starsystems/worker.js:173-178 | when the spread exceeds the threshold every normalised value lies in [0, 1], the minimum becomes 0 and the maximum 1 |
| Terrain.NormalizedKeepsOrder | starsystems/worker.js:173-178 | normalisation keeps the order of every two heights, in both directions |
| Terrain.NormalizedIdempotent | starsystems/worker.js:173-178 | normalising a normalised field changes nothing, for thresholds below 1 |
| Terrain.NormalizeInPlace | starsystems/worker.js:173-178 | the in-place pass leaves the array equal to the normalised field: rescaled when the spread exceeds the threshold, unchanged otherwise |
| Terrain.RescaleInPlace | worker.js:133-135 | the rescaling loop replaces every entry by `(h - lo) / range` |
| Simplex.Low8 | simplex-noise.js:134-135 | `i & 255` is in [0, 256) |
| Simplex.Identity | simplex-noise.js:16-19 | the first table holds `p[k] == k` for all 256 entries |
| Simplex.SwapIndex | simplex-noise.js:23 | `floor((i + 1) * random())` lies in [0, i] for a draw in [0, 1) |
| Simplex.SwapPermutes | simplex-noise.js:24-26 | a swap keeps the multiset of the table |
| Simplex.ShufflePermutes | simplex-noise.js:21-27 | the Fisher–Yates passes keep the length and the multiset of the table |
| Simplex.PermutationInRange | simplex-noise.js:16-27 | a permutation of 0..n-1 has length n and entries in [0, n) |
| Simplex.PermutationDistinct | simplex-noise.js:16-27 | a permutation of 0..n-1 has no repeated entry |
| Simplex.FillIdentity | simplex-noise.js:16-19 | the first loop leaves the identity table |
| Simplex.FisherYates | simplex-noise.js:21-27 | the in-place loop leaves exactly `ShuffleFrom`: for i from the last index down to 1, entry i swapped with entry `floor((i + 1) · draw)` |
| Simplex.Expand | simplex-noise.js:29-34 | every entry of the 512-step loop holds `perm[i] == p[i & 255]` and `permMod12[i] == perm[i] % 12` |
| Simplex.SimplexNoise.constructor | simplex-noise.js:13-55 | the tables are fresh and valid, `p` is the shuffled identity, and the six skew factors are those of the source |
| Simplex.SimplexNoise.TablesDoubled | simplex-noise.js:29-34 | `perm[i] == perm[i + 256] == p[i]`, every `perm` entry is below 256 and every `permMod12` entry below 12 |
| Simplex.SimplexNoise.GradIndex2 | simplex-noise.js:134-138 | the nested lookup stays inside the tables and equals the hash of the corner through `p` with every sum wrapped to 8 bits; the result indexes the twelve gradients |
| Simplex.SimplexNoise.GradIndex3 | simplex-noise.js:201-207 | the three-level lookup stays inside the tables, equals the wrapped hash through `p`, and indexes the twelve gradients |
| Simplex.SimplexNoise.GradIndex4 | simplex-noise.js:271-276 | the four-level lookup stays inside `perm`, equals the wrapped hash through `p`, and `gi % 32` indexes the 32 gradients of `grad4` |
| Simplex.SimplexNoise.CornerGradient4 | simplex-noise.js:281-305 | the 4D gradient of a corner has components in {-1, 0, 1} with a nonzero sum |
| Simplex.GradientsAreUnitSteps | simplex-noise.js:36-46 | `grad3` holds 12 and `grad4` 32 gradients, all with components in {-1, 0, 1}; no `grad4` entry has component sum 0 |
| Simplex.Corner2D | simplex-noise.js:123-129 | exactly one of `i1, j1` is 1, and `i1 == 1` exactly when `x0 > y0` |
| Simplex.Corner3D | simplex-noise.js:175-191 | the second corner takes one step and the third two, the second lies below the third, and each step goes along a largest offset |
| Simplex.Code4D | simplex-noise.js:251 | the comparison code lies in [0, 64) |
| Simplex.Corners4D | simplex-noise.js:252-254 | as written, the three middle corners are one and the same; its bits are `z0 > w0`, `y0 > w0`, `x0 > w0`, `y0 > z0` |
| Simplex.Corners4DCollapse | simplex-noise.js:252-254 | at the cell origin all middle corners are the origin itself |
| Simplex.Corners4DNeverSimplex | simplex-noise.js:252-254 | for no sample are the second and third corners one and two steps from the origin, as a simplex traversal needs |
| Simplex.Corners4DRanked | simplex-noise.js:252-254 | the corrected corners take one, two and three steps and each lies below the next |
| Simplex.RankCount | simplex-noise.js:252-254 | exactly `4 - n` of four distinct ranks reach n |
| Simplex.RankedStepsNest | simplex-noise.js:252-254 | the corner for a higher rank threshold lies below the one for a lower threshold |
| Simplex.CornerTerm | simplex-noise.js:139-144 | a corner contributes exactly 0 when `t < 0` and `t^4 · dot` otherwise |
| Simplex.CornerTermBounded | simplex-noise.js:139-156 | a corner term is bounded by `tmax^4 · dmax` |
| Simplex.FalloffDot2 | simplex-noise.js:143 | inside the 2D falloff radius the gradient dot product has magnitude at most 1 |
| Simplex.FalloffDot3 | simplex-noise.js:212 | inside the 3D falloff radius the gradient dot product has magnitude at most 1.35 |
| Simplex.FalloffDot4 | simplex-noise.js:281 | inside the 4D falloff radius the gradient dot product has magnitude at most 1.55 |
| Simplex.Term2 | simplex-noise.js:139-144 | a 2D corner term has magnitude at most 0.0625 |
| Simplex.Term3 | simplex-noise.js:208-213 | a 3D corner term has magnitude at most 0.175 |
| Simplex.Term4 | simplex-noise.js:277-282 | a 4D corner term has magnitude at most 0.201 |
| Simplex.LawfulSkew | simplex-noise.js:49-54 | the constructor's factors satisfy the skew relations: `2 F2 + 1` and `4 F4 + 1` are the roots of 3 and 5 |
| Simplex.Skew2Inverse | simplex-noise.js:49-50 | `(1 - 2 G2) F2 == G2`, so unskewing then skewing a lattice point is the identity, and G2 lies in (0.2, 0.22) |
| Simplex.Skew4Inverse | simplex-noise.js:53-54 | `(1 - 4 G4) F4 == G4`, and G4 lies in (0.1375, 0.14) |
| Simplex.SkewedOffset2 | simplex-noise.js:114-121 | skewing the offsets `x0`, `y0` from the unskewed origin of cell `(i, j)` gives the sample's skewed coordinates minus `(i, j)` |
| Simplex.SkewedOffset3 | simplex-noise.js:162-172 | skewing the offsets `x0`, `y0`, `z0` from the unskewed origin of cell `(i, j, k)` gives the sample's skewed coordinates minus `(i, j, k)` |
| Simplex.SkewedOffset4 | simplex-noise.js:237-250 | skewing the offsets `x0`..`w0` from the unskewed origin of cell `(i, j, k, l)` gives the sample's skewed coordinates minus `(i, j, k, l)` |
| Simplex.Skew4D | simplex-noise.js:237-250 | the chosen 4D cell contains the sample: skewing the offsets from the unskewed cell origin gives coordinates in [0, 1) |
| Simplex.Skew4DAtVertex | simplex-noise.js:237-250 | an unskewed lattice vertex is its own 4D cell origin with zero offsets |
| Simplex.Term2Outside | simplex-noise.js:139-140 | a 2D corner beyond the falloff radius contributes nothing |
| Simplex.Term3Outside | simplex-noise.js:208-209 | a 3D corner beyond the falloff radius contributes nothing |
| Simplex.Term4Outside | simplex-noise.js:277-278 | a 4D corner beyond the falloff radius contributes nothing |
| Simplex.Sum2D | simplex-noise.js:130-157 | `70 · (n0 + n1 + n2)` has magnitude at most 13.125 |
| Simplex.Sum3D | simplex-noise.js:192-232 | `32 · (n0 + … + n3)` has magnitude at most 22.4 |
| Simplex.Sum4D | simplex-noise.js:255-307 | `27 · (n0 + … + n4)` has magnitude at most 27.135 |
| Simplex.Sum2DAtOrigin | simplex-noise.js:130-157 | at a cell origin the 2D sum is 0 for every choice of gradients |
| Simplex.Sum3DAtOrigin | simplex-noise.js:192-232 | at a cell origin the 3D sum is 0 for every choice of gradients |
| Simplex.Sum4DRankedAtOrigin | simplex-noise.js:255-307 | with the corrected corners the 4D sum at a cell origin is 0 for every choice of gradients |
| Simplex.CollapsedSumAtOrigin | simplex-noise.js:252-307 | at the origin cell, with all three middle corners at the origin and their gradient's component sum nonzero, the 4D sum is not 0 |
| Simplex.DiagonalCorner | simplex-noise.js:277-306 | a 4D corner on the short diagonal lies inside the falloff radius and its term has the sign of the gradient's component sum |
| Simplex.SimplexNoise.Skew2D | simplex-noise.js:114-121 | the chosen cell contains the sample: skewing the offsets from the unskewed cell origin gives coordinates in [0, 1) |
| Simplex.SimplexNoise.Noise2D | simplex-noise.js:112-158 | `noise2D` has magnitude at most 13.125 for every input |
| Simplex.SimplexNoise.Skew3D | simplex-noise.js:162-172 | the chosen cell contains the sample: skewing the offsets from the unskewed cell origin gives coordinates in [0, 1) |
| Simplex.SimplexNoise.Noise3D | simplex-noise.js:160-233 | `noise3D` has magnitude at most 22.4 for every input |
| Simplex.SimplexNoise.Noise4D | simplex-noise.js:235-308 | `noise4D` as written has magnitude at most 27.135 |
| Simplex.SimplexNoise.Noise4DRanked | simplex-noise.js:235-308 | the corrected `noise4D` has magnitude at most 27.135 |
| Simplex.SimplexNoise.Skew2DAtVertex | simplex-noise.js:114-121 | an unskewed lattice vertex is its own 2D cell origin |
| Simplex.SimplexNoise.Skew3DAtVertex | simplex-noise.js:162-172 | an unskewed lattice vertex is its own 3D cell origin |
| Simplex.SimplexNoise.Noise2DVanishesAtVertices | simplex-noise.js:112-158 | `noise2D` is 0 at every lattice vertex, whatever the permutation |
| Simplex.SimplexNoise.Noise3DVanishesAtVertices | simplex-noise.js:160-233 | `noise3D` is 0 at every lattice vertex, whatever the permutation |
| Simplex.SimplexNoise.Noise4DRankedVanishesAtVertices | simplex-noise.js:235-308 | the corrected `noise4D` is 0 at every lattice vertex, whatever the permutation |
| Simplex.SimplexNoise.Noise4DNonzeroAtOrigin | simplex-noise.js:252-254 | `noise4D` as written is not 0 at the lattice vertex at the origin, whatever the permutation |
| Starsystems.AdjustedYRange | starsystems/worker.js:89-95 | for every row `adjustedY` lies in [0.175, 0.825), so the `acos` argument lies in (-0.65, 0.65] |
| Starsystems.Latitude | starsystems/worker.js:95 | the stretched latitude lies in [-π/2, π/2] |
| Starsystems.MapToSphere | starsystems/worker.js:84-102 | every pixel maps to a point of the unit sphere |
| Starsystems.CraterCount | starsystems/worker.js:118-120 | the loop runs `floor(crater_scale · 50)` times, and not at all when that is below 1 |
| Starsystems.NewCrater | starsystems/worker.js:121-130 | from four draws in [0, 1) a crater gets a unit-sphere centre, a radius in [0.02, 0.1) and a depth in [0.5, 1.5) times the strength |
| Starsystems.GenerateCraters | starsystems/worker.js:118-131 | the loop creates exactly `CraterCount` craters, consumes exactly four draws each, and every crater is in range |
| Starsystems.CraterProfile | starsystems/worker.js:109-115 | the profile is 0 beyond radius 1 and lies in [-depth, 0.4 depth] for a nonnegative depth |
| Starsystems.RimAndBowl | starsystems/worker.js:112-114 | the bowl plus the rim lies in [-depth, 0.4 depth] for Gaussian factors in (0, 1] |
| Starsystems.Distance | starsystems/worker.js:153-156 | the Euclidean distance is nonnegative |
| Starsystems.CraterContribution | starsystems/worker.js:157-161 | a crater adds nothing beyond its radius, so the band `1 < r <= 1.2` admitted by the test adds 0; its effect lies in [-depth, 0.4 depth] |
| Starsystems.CraterSum | starsystems/worker.js:151-162 | the crater effect lies in [-D, 0.4 D] for the total depth D of the field |
| Starsystems.CraterSumOutside | starsystems/worker.js:151-162 | a point outside every crater's radius gets no crater effect |
| Starsystems.CraterEffect | starsystems/worker.js:151-162 | the loop over the craters computes the crater sum |
| Starsystems.RawHeightIndex | starsystems/worker.js:137-165 | the pixel at `(x, y)` is stored at `y * width + x` with its raw height |
| Starsystems.PixelHeight | starsystems/worker.js:138-164 | a pixel's final height is its fractal noise plus its crater effect |
| Starsystems.PixelsHoldRawHeights | starsystems/worker.js:135-170 | the pixelwise statement of the field is equivalent to the sequence of raw heights |
| Starsystems.GenerateHeightMap | starsystems/worker.js:104-181 | the returned array is `HeightMap`: the raw heights, normalised with threshold `1e-6` |
| Starsystems.HeightRows | starsystems/worker.js:135-170 | the nested fill loop stores every raw height and ends with their minimum and maximum |
| Starsystems.HeightRow | starsystems/worker.js:136-169 | one more row keeps the prefix and the running extremes |
| Starsystems.StorePixel | starsystems/worker.js:164-168 | storing one pixel keeps the prefix and the running extremes |
| Starsystems.HeightMapNormalized | starsystems/worker.js:173-178 | a field spread wider than `1e-6` ends in [0, 1] with its minimum at 0 and its maximum at 1; a flatter field is left as is |
| Starsystems.Prev | starsystems/worker.js:303-305 | the wrapped previous neighbour is `(x - 1) mod n`, inside the grid |
| Starsystems.Next | starsystems/worker.js:304-306 | the wrapped next neighbour is `(x + 1) mod n`, inside the grid |
| Starsystems.NeighbourIndices | starsystems/worker.js:308-311 | all four neighbour reads are inside the field |
| Starsystems.GradIndex | starsystems/worker.js:301-314 | the gradient stored at `y * width + x` is the wrapped difference of pixel `(x, y)` |
| Starsystems.CalculateGradient | starsystems/worker.js:296-318 | every entry of `gx` and `gy` is the wrapped central difference of its pixel, without halving |
| Starsystems.GradientRow | starsystems/worker.js:300-315 | one more row of the loop extends the computed prefix |
| Starsystems.FlatGradient | starsystems/worker.js:296-318 | a constant field has zero gradient everywhere, the edges included |
| Starsystems.Smoothstep | starsystems/worker.js:260-263 | `smoothstep` lies in [0, 1], is 0 at or below `edge0` and 1 at or above `edge1` when `edge0 < edge1`; with equal edges it is a hard step, 0 below and 1 above |
| Starsystems.SmoothstepMonotone | starsystems/worker.js:260-263 | `smoothstep` never decreases |
| Starsystems.LerpColor | starsystems/worker.js:229-233 | the colour blend is the base at 0, the high colour at 1, and stays in byte range between |
| Starsystems.TriplanarColor | starsystems/worker.js:265-293 | the triplanar colour of a texture is in byte range for convex weights |
| Starsystems.TriplanarSolid | starsystems/worker.js:265-293 | a solid texture gives its own colour |
| Starsystems.AltitudeBlend | starsystems/worker.js:224-233 | the altitude blend is the base colour at or below `edge0` and the high colour at or above `edge1`, in byte range between; with equal edges it switches from base to high at the edge |
| Starsystems.BlendedColor | starsystems/worker.js:216-234 | without a high texture the colour is the base sample; with one it is the base well below the blend altitude and the high sample well above, and with zero smoothness the base below the altitude and the high sample above it |
| Starsystems.SurfaceColor | starsystems/worker.js:205-234 | the unshaded colour of every pixel is in byte range |
| Starsystems.SteepNormal | starsystems/worker.js:238-240 | the normal `{-gx·s·100, -gy·s·100, 1}` normalises to an upward unit vector |
| Starsystems.PlanetPixel | starsystems/worker.js:216-248 | every colour-map pixel is four bytes with alpha 255; a pixel whose blend is `0 / 0` stores 0 in every colour byte |
| Starsystems.SolidPlanetPixel | starsystems/worker.js:216-248 | with one solid texture each byte lies between 0.6 of the colour minus one half and the colour plus one half |
| Starsystems.PlanetImageIndex | starsystems/worker.js:203-248 | pixel `y * width + x` of the image is the shaded pixel of `(x, y)` with its height and gradient |
| Starsystems.PlanetImageOpaque | starsystems/worker.js:245-248 | every pixel of the image is a byte pixel with alpha 255 |
| Starsystems.GeneratePlanetTexture | starsystems/worker.js:184-252 | the colour map has `width * height * 4` bytes, is exactly the layout of `PlanetImage`, holds only bytes and has alpha 255 at every pixel |
| Starsystems.PlanetRows | starsystems/worker.js:201-250 | the nested loop writes exactly the layout of the image |
| Starsystems.PlanetRow | starsystems/worker.js:202-249 | one more row extends the written prefix of the layout |
| Starsystems.ProcessRequest | starsystems/worker.js:49-71 | both buffers have `width * height * 4` bytes of byte values with alpha 255; the heightmap pixels are gray with the gray of the height map; the colour buffer is the flattened planet image of that height map |
| Worker.Latitude | worker.js:86 | the latitude of every row lies in [-π/2, π/2) |
| Worker.LatitudeRows | worker.js:86 | row 0 is at -π/2, rows are π/height apart, and the last row stops one step short of π/2 |
| Worker.MapToSphere | worker.js:84-93 | every pixel maps to a point of the unit sphere |
| Worker.CraterNoise | worker.js:120-121 | for raw noise in [-1, 1] and a nonnegative strength the crater term lies in [0, strength]: 0 at raw 1, the full strength at raw -1 |
| Worker.CraterNoiseMonotone | worker.js:120-121 | the lower the raw noise, the deeper the crater term |
| Worker.RawHeightBounds | worker.js:106-123 | for noise in [-1, 1] a raw height lies in [-2 - strength, 2] |
| Worker.RawHeightIndex | worker.js:103-124 | the pixel at `(x, y)` is stored at `y * width + x` with its raw height |
| Worker.PixelHeight | worker.js:104-123 | a pixel's final height is its fractal noise minus its crater term |
| Worker.PixelsHoldRawHeights | worker.js:101-129 | the pixelwise statement of the field is equivalent to the sequence of raw heights |
| Worker.GenerateHeightMap | worker.js:95-139 | the returned array is `HeightMap`: the raw heights, normalised with threshold 0 |
| Worker.HeightRows | worker.js:101-129 | the nested fill loop stores every raw height and ends with their minimum and maximum |
| Worker.HeightRow | worker.js:102-128 | one more row keeps the prefix and the running extremes |
| Worker.StorePixel | worker.js:123-127 | storing one pixel keeps the prefix and the running extremes |
| Worker.HeightMapNormalized | worker.js:131-136 | a field that is not flat ends in [0, 1] with its minimum at 0 and its maximum at 1; a flat field is left as is |
| Worker.ClampPrev | worker.js:215-217 | the clamped previous neighbour is `x - 1`, or x itself on the first column |
| Worker.ClampNext | worker.js:216-218 | the clamped next neighbour is `x + 1`, or x itself on the last column |
| Worker.NeighbourIndices | worker.js:215-218 | all four neighbour reads are inside the field |
| Worker.GradXCases | worker.js:215-219 | `gx` is half the central difference inside, half the one-sided difference at either edge, and 0 on a one-column field |
| Worker.GradYCases | worker.js:217-220 | `gy` is half the central difference inside, half the one-sided difference at either edge, and 0 on a one-row field |
| Worker.LevelGradient | worker.js:209-224 | a constant field has zero gradient everywhere |
| Worker.GradIndex | worker.js:214-220 | the gradient stored at `y * width + x` is the clamped half difference of pixel `(x, y)` |
| Worker.CalculateGradient | worker.js:209-224 | the returned arrays are the gradient of the field |
| Worker.GradientRow | worker.js:213-221 | one more row of the loop extends the computed prefix |
| Worker.GradientPixel | worker.js:214-220 | one pixel of the loop extends the computed prefix |
| Worker.ReducedCoord | worker.js:168-178 | a coordinate reduced by `%` lies strictly inside (-size, size) |
| Worker.ReducedCoordWraps | worker.js:230-233 | after the sampler's wrap the floored coordinate is a column or row of the texture |
| Worker.TriplanarColor | worker.js:166-189 | the triplanar colour is in byte range for convex weights |
| Worker.SurfaceColor | worker.js:158-189 | the unshaded colour of every pixel is in byte range |
| Worker.SolidSurface | worker.js:158-189 | a solid texture gives its own colour at every pixel |
| Worker.ShallowNormal | worker.js:191-193 | the normal `{-gx·s, -gy·s, 0.1}` normalises to an upward unit vector |
| Worker.LevelNormal | worker.js:191-193 | on level ground the normal is straight up |
| Worker.UpShading | worker.js:195-196 | the straight-up normal is shaded `0.6 + 0.4 · light.z` for a light that does not point downward |
| Worker.PlanetPixel | worker.js:195-201 | every colour-map pixel is four bytes with alpha 255 |
| Worker.SolidPlanetPixel | worker.js:158-201 | with a solid texture each byte lies between 0.6 of the colour minus one half and the colour plus one half |
| Worker.PlanetImageIndex | worker.js:155-201 | pixel `y * width + x` of the image is the shaded pixel of `(x, y)` with its gradient |
| Worker.PlanetImageOpaque | worker.js:198-201 | every pixel of the image is a byte pixel with alpha 255 |
| Worker.GeneratePlanetTexture | worker.js:142-205 | the colour map has `width * height * 4` bytes, is exactly the layout of `PlanetImage`, holds only bytes and has alpha 255 at every pixel |
| Worker.PlanetRows | worker.js:155-203 | the nested loop writes exactly the layout of the image |
| Worker.PlanetRow | worker.js:156-202 | one more row extends the written prefix of the layout |
| Worker.ProcessRequest | worker.js:49-71 | both buffers have `width * height * 4` bytes of byte values with alpha 255; the heightmap pixels are gray with the gray of the height map; the colour buffer is the flattened planet image of that height map |

## Left out

- The Alea generator and its `mash` hash (`worker.js:6-45`, `starsystems/worker.js:6-45`, `simplex-noise.js:57-110`) are not modelled. They depend on IEEE-754 doubles, 32-bit coercions and, for an empty seed, the clock. Their output is a sequence of draws in [0, 1).
- The constructor's `alea(seed)` branch for a non-function argument is not modelled. The constructor takes the draws of a `random()` function directly.
- `noise2D`/`noise3D` in the workers come from an external module and are function parameters. `Terrain.FbmBounded`, `Worker.RawHeightBounds` and `Worker.CraterNoise` assume a noise range of [-1, 1] as a precondition.
- `Math.cos`, `sin`, `acos`, `exp`, `sqrt`, `pow` and `PI` are uninterpreted, carrying only the laws in `Numeric.Lawful`. `Math.pow(x, 4)` is the exact fourth power, and `(r · 3)^2` is an exact square.
- Floating point: all arithmetic is exact over the reals. Float32 rounding in the `Float32Array` height and gradient buffers, IEEE rounding, infinities and NaN are not modelled.
- `Numeric.ToUint8Clamped`: the contract states clamping and rounding to within one half. The body also models the tie rule (round half to even); no contract states it.
- `Raster.ShadedPixel`: inherits the weaker statement of the rounding above.
- `Terrain.FractalNoise`: `octaves` is an integer; a fractional count, for which the source runs `ceil(octaves)` octaves, is not modelled.
- `Raster.SamplePeriodicU` and `Raster.SamplePeriodicV`: state periodicity for nonnegative coordinates only. For negative coordinates the wrap in `WrapCoord` already reduces to that case.
- Texture preconditions: textures have positive width and height and `width · height · 4` byte entries (`Raster.ValidTexture`). The source reads out of bounds (`undefined`, then NaN) otherwise.
- NaN arithmetic is modelled only at the one point where the source produces it from valid inputs: zero blend smoothness at exactly the blend altitude (`Starsystems.BlendIsNaN`). The pixel's colour bytes are then 0.
- The message transport (`self.onmessage` / `self.postMessage` with transferable buffers) is not modelled. `ProcessRequest` models only the computation it drives and the packing loop.
- `finance/nav.js` is not part of this model: it only injects page styling.
- The `perm`/`permMod12` tables are `Uint8Array`s in the source and `int` arrays here. Their entries are proved to lie in [0, 256), so the byte storage loses nothing.

## Findings

| source | as written | input that shows it | evidently intended | confidence | as-written member | corrected member |
|---|---|---|---|---|---|---|
| simplex-noise.js:252-254 | the offsets of the second, third and fourth corners of `noise4D` are computed from the same bits of `c`, so all three middle corners coincide and are never one, two and three steps from the origin | the lattice vertex `(0, 0, 0, 0)`: all middle corners are the origin, two of them lie inside the falloff radius, and `noise4D(0, 0, 0, 0) != 0` for every permutation, whereas simplex noise vanishes at lattice vertices | the reference algorithm's rank-based corners: rank ≥ 3 for the second corner, ≥ 2 for the third, ≥ 1 for the fourth, giving a proper simplex traversal | not executed | Simplex.SimplexNoise.Noise4DNonzeroAtOrigin | Simplex.SimplexNoise.Noise4DRankedVanishesAtVertices |
