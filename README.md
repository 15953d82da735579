# Perlin fractal noise, modelled in Dafny

This project models the gradient-noise engine of a small browser toy that
draws fractal "Perlin" terrain. It covers:

- `perlin.js`: the `Perlin` generator. It holds a grid of unit gradient
  vectors, three smoothing polynomials, bilinear interpolation of corner dot
  products, and `makeNoise`, which fills a `ysize` x `xsize` array with noise.
- `fractal-main.js`: `generateFractal` up to the rendering. It builds one
  noise layer per iteration on a grid that doubles each time, then merges the
  layers into `layers[0]` in place. Each merge step adds a layer weighted by a
  geometrically decaying gain and clamps the sum to [-1, 1]. It also covers
  the grayscale remap of a merged value.
- `vector.js`: the `Vector2D` constructor and `dot`.

Modules, one per source file plus two helpers:

- `Wrappers` holds `Option`, which stands for JavaScript's `undefined`.
- `Numbers` holds `IntPart`, the `x | 0` conversion over the reals.
- `Vectors` is vector.js.
- `PerlinNoise` is perlin.js. The closure state that `makeNoise` captures is
  the `Sampler` datatype. Its pure inner functions `dotGridGradient` and
  `noiseAt` are members of `Sampler`. The generator is the class `Perlin`,
  whose fields `grid`, `xgrid`, `ygrid` and `smoother` its methods assign.
- `Fractal` is fractal-main.js. `GenerateFractal` and `MergeInto` are methods
  over `array2<real>` layers that are updated in place. They are proved
  against the functions `RawLayers` and `MergeLayers`.

All numbers are `real`. Vectors the source draws at random are passed in as
the parameter `draws`, one vector per grid cell in row-major order. The
fractal gets one segment of `draws` per layer.

## Model

| member | source | states |
|---|---|---|
| PerlinNoise.Make2DArray | perlin.js:18-26 | returns a fresh array with `rows` rows and `cols` columns |
| PerlinNoise.Lerp | perlin.js:31-33 | t = 0 gives a and t = 1 gives b |
| PerlinNoise.LerpBetween | perlin.js:31-33 | for t in [0, 1] the result lies between a and b, in either order of a and b |
| PerlinNoise.Smoother0 | perlin.js:61-63 | no smoothing: maps 0 to 0 and 1 to 1 |
| PerlinNoise.Smoother1 | perlin.js:70-74 | the cubic 3t^2 - 2t^3 maps 0 to 0 and 1 to 1 |
| PerlinNoise.Smoother2 | perlin.js:81-86 | the quintic 6t^5 - 15t^4 + 10t^3 maps 0 to 0 and 1 to 1 |
| PerlinNoise.Smoothing.Apply | perlin.js:143-144 | the selected smoother maps 0 to 0 and 1 to 1; SmoothingStaysInUnit and SmoothingSymmetric below give its range and its symmetry |
| PerlinNoise.SmoothingStaysInUnit | perlin.js:61-86 | each smoother maps [0, 1] into [0, 1] |
| PerlinNoise.SmoothingSymmetric | perlin.js:61-86 | each smoother satisfies s(1 - t) = 1 - s(t) |
| PerlinNoise.GridCoord | perlin.js:125-126 | an index inside the grid is kept; an index at or past the grid size is sent to 0; the result is always a valid index |
| PerlinNoise.Sampler.DotGridGradient | perlin.js:122-129 | the dot product of a corner's gradient with the offset from that corner is 0 at the corner itself; the corner lookup is GridCoord |
| PerlinNoise.Sampler.NoiseAt | perlin.js:131-162 | no contract of its own: NoiseAtBilinear gives its closed form and NoiseAtLatticePoint its zeros |
| PerlinNoise.LerpOfLerps | perlin.js:149-159 | two nested linear interpolations equal the bilinear blend of the four corner values |
| PerlinNoise.Ratio | perlin.js:171-172 | no contract of its own: the grid cells per output pixel, which SampleCoord scales |
| PerlinNoise.SampleCoord | perlin.js:171-179 | the grid coordinate of an output pixel is nonnegative and below the grid size |
| PerlinNoise.SampleLookups | perlin.js:125-128 | for every makeNoise pixel, both lattice indices are in range; only the far corner x0 + 1 == grid is redirected, and it goes to 0 |
| PerlinNoise.NoiseField | perlin.js:175-183 | the field makeNoise fills has `ysize` rows of `xsize` values; MakeNoise is proved equal to it |
| PerlinNoise.NoiseAtBilinear | perlin.js:131-161 | noiseAt equals the bilinear blend of the four corner dot products, weighted by the smoothed fractional offsets |
| PerlinNoise.NoiseAtLatticePoint | perlin.js:131-161 | at whole-number coordinates noiseAt is 0, whichever smoother is selected |
| PerlinNoise.NoiseFieldAtLatticePixel | perlin.js:175-181 | a pixel whose grid coordinates are whole numbers has noise 0 |
| PerlinNoise.NoiseFieldOrigin | perlin.js:175-181 | output pixel [0][0] is always 0 |
| PerlinNoise.NoiseFieldAtGridResolution | perlin.js:171-181 | sampled at the grid's own size, every output pixel is 0 |
| PerlinNoise.RowMajor | perlin.js:95-106 | the grid has `ygrid` rows of `xgrid` vectors |
| PerlinNoise.Perlin.constructor | perlin.js:46-54 | stores both dimensions and starts with smoother0; builds the `ygrid` x `xgrid` grid only when `xgrid` is given |
| PerlinNoise.Perlin.BuildGrid | perlin.js:95-106 | the grid holds cell [y][x] = draw number y * xgrid + x |
| PerlinNoise.Perlin.MakeNoise | perlin.js:108-186 | returns null when xgrid or ygrid is 0 or absent; otherwise a fresh ysize x xsize array whose pixel [y][x] is noiseAt(x * xgrid / xsize, y * ygrid / ysize) |
| PerlinNoise.FillRow | perlin.js:178-182 | after the inner loop, row y holds that row of NoiseField, and every other row is unchanged |
| PerlinNoise.Perlin.Ready | perlin.js:165 | no contract of its own: MakeNoise returns null exactly when it is false, that is when xgrid or ygrid is 0 or absent |
| PerlinNoise.Perlin.SetSmoothing | perlin.js:193-205 | 0, 1 and 2 select smoother0, smoother1 and smoother2; any other value leaves the smoother unchanged |
| PerlinNoise.Perlin.CurrentSampler | perlin.js:109-111 | a generator that can make noise yields a well-formed sampler |
| Fractal.GridSize | fractal-main.js:45 | a layer's grid is never coarser than `gridStart` |
| Fractal.Pow2 | fractal-main.js:61 | the doubling factor of the grid size is at least 1, so a layer's grid never shrinks below gridStart |
| Fractal.GridSizeDoubles | fractal-main.js:61 | each layer's grid size is twice the previous one |
| Fractal.Gain | fractal-main.js:68-86 | for nonnegative gainStart and gain the gain is nonnegative; with gain in [0, 1] it never exceeds gainStart |
| Fractal.GainIsGeometric | fractal-main.js:68-86 | the gain for layer i (i >= 1) is gainStart * gain^(i - 1) |
| Fractal.Clamp | fractal-main.js:80 | the result is in [-1, 1]; values inside that range are kept; values below go to -1 and values above go to 1 |
| Fractal.Accumulate | fractal-main.js:77-80 | a merged pixel is always in [-1, 1] |
| Fractal.MergeStep | fractal-main.js:75-84 | one merge pass keeps the layer's shape, and every merged pixel is in [-1, 1] |
| Fractal.MergeStepAt | fractal-main.js:77-82 | pixel [j][k] of a merge pass is the old value plus the layer's value times the gain, clamped |
| Fractal.MergeFrom | fractal-main.js:71-87 | merging the remaining layers from layer i on keeps the shape of layer 0 |
| Fractal.MergeFromStep | fractal-main.js:71-86 | one iteration of the outer loop: merge layer i at gain g, then go on from layer i + 1 at gain g * gain |
| Fractal.MergeLayers | fractal-main.js:71-87 | the merge of all layers into layer 0 keeps layer 0's shape; MergeLayersAt and MergeLayersBounded give its pixels |
| Fractal.MergeLayersAt | fractal-main.js:71-87 | the in-place merge of the whole field is, pixel by pixel, the clamped running sum over the later layers |
| Fractal.MergeFromAt | fractal-main.js:71-87 | from any layer i on, pixel [j][k] of the field merge is the clamped running sum over that pixel of layers i .. n - 1 |
| Fractal.MergeFromBounded | fractal-main.js:80-82 | once a layer remains to be merged, or if layer 0 is already within [-1, 1], every merged pixel is in [-1, 1] |
| Fractal.MergePixelGains | fractal-main.js:68-86 | the gain the merge multiplies by `gain` after each layer is, at layer m + 1, exactly Gain(gainStart, gain, m + 1) |
| Fractal.MergeLayersGeometric | fractal-main.js:68-87 | pixel [j][k] of the merged layers[0] folds layer m (m >= 1) in at Gain(gainStart, gain, m), which is gainStart * gain^(m - 1) by GainIsGeometric |
| Fractal.MergeLayersBounded | fractal-main.js:71-87 | with at least two layers, every pixel of the merged layers[0] is in [-1, 1] |
| Fractal.MergePixelInRange | fractal-main.js:77-82 | where no running sum leaves [-1, 1], the clamped merge equals the plain weighted sum |
| Fractal.MergePixelCons | fractal-main.js:71-86 | peeling the first later layer off a pixel merge: it is accumulated at gain g and the rest continue at g * gain, clamped and unclamped alike |
| Fractal.TwoLayers | fractal-main.js:77-86 | with two later layers, the clamp is applied after each addition, and the second layer's gain is gainStart * gain |
| Fractal.ClampEveryStep | fractal-main.js:77-82 | clamping after every step differs from clamping once: base 0.5 with layers 2 and -2 at gain 1 gives -1, where the plain sum gives 0.5 |
| Fractal.LayerSampler | fractal-main.js:51-52 | each layer's generator has a square grid of the layer's size, using smoother2 |
| Fractal.RawLayers | fractal-main.js:48-62 | one height x width noise field per iteration |
| Fractal.NoiseLayer | fractal-main.js:51-55 | a fresh height x width array equal to the noise field of a square grid of the layer's size, using smoother2 |
| Fractal.MakeLayers | fractal-main.js:44-62 | `iterations` fresh, distinct height x width arrays; layer i is the raw noise on a grid of size gridStart * 2^i |
| Fractal.AddLayer | fractal-main.js:75-84 | after the pixel loops, layers[0] holds exactly one merge pass of the layer at the given gain |
| Fractal.MergeInto | fractal-main.js:68-87 | layers[0] ends as the merge of all layers; layers 1 .. n - 1 are unchanged |
| Fractal.GenerateFractal | fractal-main.js:43-87 | returns exactly `iterations` fresh, distinct height x width layers; layer i >= 1 is the raw noise on a grid of size gridStart * 2^i; layers[0] is the merge; with one iteration layers[0] is raw; with two or more, every pixel of layers[0] is in [-1, 1] |
| Fractal.MergeLayersFacts | fractal-main.js:71-82 | the single-layer and bounded cases of the merge, for a whole field |
| Fractal.Gray | fractal-main.js:108 | a value in [-1, 1] maps to an integer 0 .. 255, with -1 mapping to 0 and 1 to 255 |
| Fractal.GrayMonotone | fractal-main.js:108 | a larger value never maps to a darker gray |
| Fractal.GrayMidpoint | fractal-main.js:108 | 0 maps to 127, because 127.5 is truncated rather than rounded |
| Numbers.IntPart | perlin.js:133-134 | the bitwise-or with 0 truncates toward zero: it rounds down for v >= 0 and up for v < 0 |
| Numbers.IntPartOfInteger | perlin.js:133-134 | truncation is exact on whole numbers |
| Vectors.Vector2D.Dot | vector.js:38-40 | the dot product with the zero vector is 0, on either side |
| Vectors.DotSymmetric | vector.js:38-40 | a.dot(b) == b.dot(a) |

## Left out

- `Vector2D.randomUnit` uses `Math.random`, `Math.cos` and `Math.sin`. The random unit vectors are a parameter (`draws`), and nothing assumes they have unit length.
- IEEE-754 doubles are modelled as reals. Rounding, NaN and Infinity are not modelled.
- Numbers.IntPart: does not model ToInt32's wrap-around beyond 2^31, because every sample coordinate is smaller than the grid size.
- PerlinNoise.Sampler.NoiseAt: requires x > -1 and y > -1. Below that, the source indexes the grid at a negative index. makeNoise only produces nonnegative coordinates.
- PerlinNoise.Make2DArray: the source allocates an array of rows, each a separate array. The model uses one rectangular `array2`. JavaScript's `undefined` entries of a fresh array are the default `0.0` here.
- PerlinNoise.Perlin.BuildGrid: builds the grid as a sequence of rows rather than filling an array from `make2DArray`. The grid is never written after it is built.
- PerlinNoise.Perlin.constructor: requires `ygrid` whenever `xgrid` is given. With `xgrid` given and `ygrid` absent, the source's `new Array(undefined)` (perlin.js:19) is the one-element array `[undefined]` and the loops at perlin.js:21 and perlin.js:99 do not run, so the grid is `[undefined]`; makeNoise then returns null (perlin.js:165) and nothing fails. Both call sites (fractal-main.js:51, main.js:44) pass `ygrid`, so the requirement excludes no call the program makes.
- Fractal.GenerateFractal: requires `iterations >= 1` and `gridStart >= 1`. With no iterations, `layers[0]` is undefined in the source. With `gridStart = 0` every `makeNoise` returns null (perlin.js:165), so the source throws: at `layer.length` (fractal-main.js:75) with two or more iterations, and at `noise[y][x]` (fractal-main.js:108) with one.
- Vectors.Vector2D is an immutable value. Its constructor storing `x` and `y` is the datatype constructor itself. The fields are reassigned only by `randomUnit`, which is left out.
- `parseOptions`, the string-to-number coercion of form values, the canvas, the image-data writes and the event listeners are page plumbing and are not modelled. `main.js` is not part of this model.
- Nothing bounds the magnitude of raw noise: the source never establishes such a bound. Only the merge clamps.
