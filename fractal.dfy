/**
 * The octave compositing of fractal-main.js: one noise layer per iteration on
 * a grid that doubles each time, merged into the first layer with a gain that
 * decays geometrically and a clamp to [-1, 1] after every accumulation.
 */
module Fractal {

  import opened Wrappers
  import opened Numbers
  import opened Vectors
  import opened PerlinNoise

  /** A noise field, indexed [row][column]. */
  type Field = seq<seq<real>>

  /** `Math.min(Math.max(-1, v), 1)`. */
  function Clamp(v: real): (r: real)
    ensures -1.0 <= r <= 1.0
    ensures -1.0 <= v <= 1.0 ==> r == v
    ensures v < -1.0 ==> r == -1.0
    ensures 1.0 < v ==> r == 1.0
  {
    var atLeast := if -1.0 < v then v else -1.0;
    if atLeast < 1.0 then atLeast else 1.0
  }

  /** A layer's value `v` weighted by `gain` and added to `value`, before clamping. */
  function AddWeighted(value: real, v: real, gain: real): real {
    value + v * gain
  }

  /** One pixel of one merge pass: the layer's value weighted by `gain`, added, and clamped. */
  function Accumulate(value: real, v: real, gain: real): (r: real)
    ensures -1.0 <= r <= 1.0
  {
    Clamp(AddWeighted(value, v, gain))
  }

  function Pow(b: real, e: nat): real {
    if e == 0 then 1.0 else b * Pow(b, e - 1)
  }

  function Pow2(e: nat): (r: nat)
    ensures 1 <= r
  {
    if e == 0 then 1 else 2 * Pow2(e - 1)
  }

  /** The grid size of layer `i`: `gridStart` doubled `i` times. */
  function GridSize(gridStart: nat, i: nat): (n: nat)
    ensures gridStart <= n
  {
    MulAtLeast(gridStart, Pow2(i));
    gridStart * Pow2(i)
  }

  /** Each layer's grid is twice as fine as the one before it. */
  lemma GridSizeDoubles(gridStart: nat, i: nat)
    ensures GridSize(gridStart, i + 1) == 2 * GridSize(gridStart, i)
  {
    assert Pow2(i + 1) == 2 * Pow2(i);
  }

  lemma MulAtLeast(a: nat, b: nat)
    requires 1 <= b
    ensures a <= a * b
  {
    assert a * b == a + a * (b - 1);
  }

  /** The gain layer `i` (i >= 1) is merged with: `gainStart`, multiplied by `gain` once per later layer. */
  function Gain(gainStart: real, gain: real, i: nat): (r: real)
    requires 1 <= i
    ensures 0.0 <= gainStart && 0.0 <= gain ==> 0.0 <= r
    ensures 0.0 <= gainStart && 0.0 <= gain <= 1.0 ==> r <= gainStart
  {
    if i == 1 then
      gainStart
    else
      var prev := Gain(gainStart, gain, i - 1);
      assert 0.0 <= prev && 0.0 <= gain ==> 0.0 <= prev * gain by {
        if 0.0 <= prev && 0.0 <= gain {
          MulNonNegative(prev, gain);
        }
      }
      assert 0.0 <= prev && 0.0 <= gain <= 1.0 ==> prev * gain <= prev by {
        if 0.0 <= prev && 0.0 <= gain <= 1.0 {
          MulNonNegative(prev, 1.0 - gain);
        }
      }
      prev * gain
  }

  /** The gain of layer `i` is `gainStart * gain^(i - 1)`: it decays geometrically. */
  lemma {:induction false} GainIsGeometric(gainStart: real, gain: real, i: nat)
    requires 1 <= i
    ensures Gain(gainStart, gain, i) == gainStart * Pow(gain, i - 1)
  {
    if i > 1 {
      GainIsGeometric(gainStart, gain, i - 1);
      var prev := Gain(gainStart, gain, i - 1);
      var w := Pow(gain, i - 2);
      assert Pow(gain, i - 1) == gain * w;
      calc {
        Gain(gainStart, gain, i);
        prev * gain;
        gainStart * w * gain;
        gainStart * (gain * w);
      }
    }
  }

  ghost predicate SameShape(a: Field, b: Field) {
    |a| == |b| && forall j :: 0 <= j < |a| ==> |a[j]| == |b[j]|
  }

  ghost predicate Uniform(raw: seq<Field>) {
    forall i :: 0 <= i < |raw| ==> SameShape(raw[i], raw[0])
  }

  /** Pixel [j][k] of a merge pass is that pixel of `acc` plus that pixel of `layer` weighted by `gain`, clamped. */
  lemma MergeStepAt(acc: Field, layer: Field, gain: real, j: nat, k: nat)
    requires SameShape(acc, layer) && j < |layer| && k < |layer[j]|
    ensures MergeStep(acc, layer, gain)[j][k] == Accumulate(acc[j][k], layer[j][k], gain)
  {
  }

  /** One pass of the merge loop: every pixel of `layer`, weighted by `gain`, added to `acc` and clamped. */
  function MergeStep(acc: Field, layer: Field, gain: real): (r: Field)
    requires SameShape(acc, layer)
    ensures SameShape(r, layer) && SameShape(r, acc)
    ensures forall j, k :: 0 <= j < |r| && 0 <= k < |r[j]| ==> -1.0 <= r[j][k] <= 1.0
  {
    seq(|layer|, j requires 0 <= j < |layer| =>
      seq(|layer[j]|, k requires 0 <= k < |layer[j]| => Accumulate(acc[j][k], layer[j][k], gain)))
  }

  /** Every pixel of `f` lies in [-1, 1]. */
  ghost predicate Bounded(f: Field) {
    forall j, k :: 0 <= j < |f| && 0 <= k < |f[j]| ==> -1.0 <= f[j][k] <= 1.0
  }

  /**
   * The merge loop from layer `i` on: `acc` is what `layers[0]` holds so far and
   * `g` the gain for layer `i`; each remaining layer is merged in turn, and the
   * gain is multiplied by `gain` after every layer.
   */
  function MergeFrom(acc: Field, raw: seq<Field>, i: nat, g: real, gain: real): (r: Field)
    requires Uniform(raw) && 1 <= |raw| && SameShape(acc, raw[0]) && i <= |raw|
    ensures SameShape(r, raw[0])
    decreases |raw| - i
  {
    if i == |raw| then
      acc
    else
      MergeFrom(MergeStep(acc, raw[i], g), raw, i + 1, g * gain, gain)
  }

  lemma MergeFromStep(acc: Field, raw: seq<Field>, i: nat, g: real, gain: real)
    requires Uniform(raw) && 1 <= |raw| && SameShape(acc, raw[0]) && i < |raw|
    ensures SameShape(MergeStep(acc, raw[i], g), raw[0])
    ensures MergeFrom(acc, raw, i, g, gain) == MergeFrom(MergeStep(acc, raw[i], g), raw, i + 1, g * gain, gain)
  {
  }

  /** What `layers[0]` holds once layers 1 .. |raw| - 1 have been merged into it. */
  function MergeLayers(raw: seq<Field>, gainStart: real, gain: real): (r: Field)
    requires 1 <= |raw| && Uniform(raw)
    ensures SameShape(r, raw[0])
  {
    MergeFrom(raw[0], raw, 1, gainStart, gain)
  }

  /** One pixel of the merge: from `v`, each later layer's value `cs[m]` added with its gain and clamped in turn. */
  function MergePixel(v: real, cs: seq<real>, g: real, gain: real): real
    decreases |cs|
  {
    if cs == [] then
      v
    else
      MergePixel(Accumulate(v, cs[0], g), cs[1..], g * gain, gain)
  }

  /** The same weighted sum with no clamping at all. */
  function LinearSum(v: real, cs: seq<real>, g: real, gain: real): real
    decreases |cs|
  {
    if cs == [] then
      v
    else
      LinearSum(AddWeighted(v, cs[0], g), cs[1..], g * gain, gain)
  }

  /** No running value of the plain weighted sum leaves [-1, 1]. */
  ghost predicate NeverSaturates(v: real, cs: seq<real>, g: real, gain: real)
    decreases |cs|
  {
    -1.0 <= v <= 1.0 && (cs == [] || NeverSaturates(AddWeighted(v, cs[0], g), cs[1..], g * gain, gain))
  }

  /** The values of pixel [j][k] in layers i .. |raw| - 1. */
  function Pixels(raw: seq<Field>, i: nat, j: nat, k: nat): seq<real>
    requires i <= |raw|
    requires forall m :: i <= m < |raw| ==> j < |raw[m]| && k < |raw[m][j]|
  {
    seq(|raw| - i, m requires 0 <= m < |raw| - i => raw[i + m][j][k])
  }

  /** The field-wide merge is, pixel by pixel, the clamped running sum of MergePixel. */
  lemma MergeLayersAt(raw: seq<Field>, gainStart: real, gain: real, j: nat, k: nat)
    requires 1 <= |raw| && Uniform(raw)
    requires j < |raw[0]| && k < |raw[0][j]|
    ensures
      var r := MergeLayers(raw, gainStart, gain);
      j < |r| && k < |r[j]| &&
      r[j][k] == MergePixel(raw[0][j][k], Pixels(raw, 1, j, k), gainStart, gain)
  {
    MergeFromAt(raw[0], raw, 1, gainStart, gain, j, k);
  }

  lemma {:induction false} MergeFromAt(acc: Field, raw: seq<Field>, i: nat, g: real, gain: real, j: nat, k: nat)
    requires Uniform(raw) && 1 <= |raw| && SameShape(acc, raw[0]) && i <= |raw|
    requires j < |acc| && k < |acc[j]|
    ensures
      var r := MergeFrom(acc, raw, i, g, gain);
      j < |r| && k < |r[j]| &&
      r[j][k] == MergePixel(acc[j][k], Pixels(raw, i, j, k), g, gain)
    decreases |raw| - i
  {
    var cs := Pixels(raw, i, j, k);
    if i == |raw| {
      assert cs == [];
    } else {
      var next := MergeStep(acc, raw[i], g);
      MergeFromAt(next, raw, i + 1, g * gain, gain, j, k);
      assert cs[1..] == Pixels(raw, i + 1, j, k);
      MergeStepAt(acc, raw[i], g, j, k);
    }
  }

  /** Once a layer is left to merge, or if `acc` already is, the result lies in [-1, 1]. */
  lemma {:induction false} MergeFromBounded(acc: Field, raw: seq<Field>, i: nat, g: real, gain: real)
    requires Uniform(raw) && 1 <= |raw| && SameShape(acc, raw[0]) && i <= |raw|
    requires i < |raw| || Bounded(acc)
    ensures Bounded(MergeFrom(acc, raw, i, g, gain))
    decreases |raw| - i
  {
    if i < |raw| {
      MergeFromBounded(MergeStep(acc, raw[i], g), raw, i + 1, g * gain, gain);
    }
  }

  /** After at least one merge step every pixel lies in [-1, 1]. */
  lemma MergeLayersBounded(raw: seq<Field>, gainStart: real, gain: real)
    requires 2 <= |raw| && Uniform(raw)
    ensures Bounded(MergeLayers(raw, gainStart, gain))
  {
    MergeFromBounded(raw[0], raw, 1, gainStart, gain);
  }

  /**
   * Layer `m + 1` of a pixel's later layers `cs` merged at its own gain
   * `Gain(gainStart, gain, m + 1)`, for m from the given one to the last.
   */
  function FoldAt(v: real, cs: seq<real>, m: nat, gainStart: real, gain: real): real
    requires m <= |cs|
    decreases |cs| - m
  {
    if m == |cs| then
      v
    else
      FoldAt(Accumulate(v, cs[m], Gain(gainStart, gain, m + 1)), cs, m + 1, gainStart, gain)
  }

  /** The running gain the merge passes along is, at every layer, that layer's Gain. */
  lemma {:induction false} MergePixelGains(v: real, cs: seq<real>, m: nat, gainStart: real, gain: real)
    requires m <= |cs|
    ensures MergePixel(v, cs[m..], Gain(gainStart, gain, m + 1), gain) == FoldAt(v, cs, m, gainStart, gain)
    decreases |cs| - m
  {
    if m < |cs| {
      var g := Gain(gainStart, gain, m + 1);
      var next := Accumulate(v, cs[m], g);
      assert cs[m..][0] == cs[m] && cs[m..][1..] == cs[m + 1..];
      assert g * gain == Gain(gainStart, gain, m + 2);
      MergePixelGains(next, cs, m + 1, gainStart, gain);
    }
  }

  /**
   * Pixel [j][k] of the merged field: layer m (m >= 1) is merged at
   * `Gain(gainStart, gain, m)`, which GainIsGeometric puts as gainStart * gain^(m - 1).
   */
  lemma MergeLayersGeometric(raw: seq<Field>, gainStart: real, gain: real, j: nat, k: nat)
    requires 1 <= |raw| && Uniform(raw)
    requires j < |raw[0]| && k < |raw[0][j]|
    ensures
      var r := MergeLayers(raw, gainStart, gain);
      j < |r| && k < |r[j]| &&
      r[j][k] == FoldAt(raw[0][j][k], Pixels(raw, 1, j, k), 0, gainStart, gain)
  {
    var cs := Pixels(raw, 1, j, k);
    MergeLayersAt(raw, gainStart, gain, j, k);
    assert cs[0..] == cs;
    MergePixelGains(raw[0][j][k], cs, 0, gainStart, gain);
  }

  /** As long as no running sum leaves [-1, 1], the clamps change nothing. */
  lemma {:induction false} MergePixelInRange(v: real, cs: seq<real>, g: real, gain: real)
    requires NeverSaturates(v, cs, g, gain)
    ensures MergePixel(v, cs, g, gain) == LinearSum(v, cs, g, gain)
    decreases |cs|
  {
    if cs != [] {
      var next := AddWeighted(v, cs[0], g);
      assert -1.0 <= next <= 1.0;
      assert Accumulate(v, cs[0], g) == next;
      MergePixelInRange(next, cs[1..], g * gain, gain);
      MergePixelInRangeStep(v, cs, g, gain);
    }
  }

  lemma MergePixelInRangeStep(v: real, cs: seq<real>, g: real, gain: real)
    requires cs != [] && Accumulate(v, cs[0], g) == AddWeighted(v, cs[0], g)
    requires MergePixel(AddWeighted(v, cs[0], g), cs[1..], g * gain, gain) == LinearSum(AddWeighted(v, cs[0], g), cs[1..], g * gain, gain)
    ensures MergePixel(v, cs, g, gain) == LinearSum(v, cs, g, gain)
  {
  }

  /** Peeling the first later layer off the pixel merge and off the plain sum. */
  lemma {:induction false} MergePixelCons(v: real, c: real, rest: seq<real>, g: real, gain: real)
    ensures MergePixel(v, [c] + rest, g, gain) == MergePixel(Accumulate(v, c, g), rest, g * gain, gain)
    ensures LinearSum(v, [c] + rest, g, gain) == LinearSum(AddWeighted(v, c, g), rest, g * gain, gain)
  {
    assert ([c] + rest)[0] == c && ([c] + rest)[1..] == rest;
  }

  /** Two later layers: each sum is clamped before the next layer is added. */
  lemma TwoLayers(base: real, c1: real, c2: real, gainStart: real, gain: real)
    ensures MergePixel(base, [c1, c2], gainStart, gain)
            == Clamp(Clamp(base + c1 * gainStart) + c2 * (gainStart * gain))
    ensures LinearSum(base, [c1, c2], gainStart, gain) == base + c1 * gainStart + c2 * (gainStart * gain)
  {
    assert [c1, c2] == [c1] + [c2] && [c2] == [c2] + [];
    MergePixelCons(base, c1, [c2], gainStart, gain);
    MergePixelCons(Accumulate(base, c1, gainStart), c2, [], gainStart * gain, gain);
    MergePixelCons(AddWeighted(base, c1, gainStart), c2, [], gainStart * gain, gain);
    var first := Accumulate(base, c1, gainStart);
    assert first == Clamp(base + c1 * gainStart);
    assert Accumulate(first, c2, gainStart * gain) == Clamp(first + c2 * (gainStart * gain));
  }

  /**
   * Clamping after every accumulation is not clamping once at the end: here
   * the running value saturates at 1 and then falls to -1, while the plain sum
   * is 0.5.
   */
  lemma ClampEveryStep()
    ensures MergePixel(0.5, [2.0, -2.0], 1.0, 1.0) == -1.0
    ensures Clamp(LinearSum(0.5, [2.0, -2.0], 1.0, 1.0)) == 0.5
  {
    TwoLayers(0.5, 2.0, -2.0, 1.0, 1.0);
  }

  /** The gradient sampler of layer `i`: its own draws on a `size` x `size` grid, smoothed by smoother2. */
  function LayerSampler(draws: seq<Vector2D>, size: nat): (s: Sampler)
    requires 1 <= size && |draws| == size * size
    ensures s.Valid() && s.xgrid == size && s.ygrid == size && s.smoother == Quintic
  {
    Sampler(RowMajor(draws, size, size), size, size, Quintic)
  }

  /** `draws[i]` holds exactly the unit vectors layer `i` draws, one per grid cell. */
  ghost predicate DrawsFit(draws: seq<seq<Vector2D>>, gridStart: nat) {
    forall i :: 0 <= i < |draws| ==> |draws[i]| == GridSize(gridStart, i) * GridSize(gridStart, i)
  }

  /** The layers before merging: layer `i` is `width` x `height` noise on a grid of size GridSize(gridStart, i). */
  function RawLayers(draws: seq<seq<Vector2D>>, gridStart: nat, width: nat, height: nat): (raw: seq<Field>)
    requires 1 <= gridStart && DrawsFit(draws, gridStart)
    ensures |raw| == |draws| && Uniform(raw)
    ensures forall i :: 0 <= i < |raw| ==> Shaped(raw[i], height, width)
  {
    seq(|draws|, i requires 0 <= i < |draws| =>
      NoiseField(LayerSampler(draws[i], GridSize(gridStart, i)), width, height))
  }

  /**
   * One layer of generateFractal: a fresh generator on a `size` x `size` grid,
   * switched to smoother2, sampled at `width` x `height`.
   */
  method NoiseLayer(size: nat, draws: seq<Vector2D>, width: nat, height: nat) returns (noise: array2<real>)
    requires 1 <= size && |draws| == size * size
    ensures fresh(noise) && noise.Length0 == height && noise.Length1 == width
    ensures forall j, k :: 0 <= j < height && 0 <= k < width ==>
              noise[j, k] == NoiseField(LayerSampler(draws, size), width, height)[j][k]
  {
    var perlin := new Perlin(Some(size), Some(size), draws);
    perlin.SetSmoothing(2);
    var g := perlin.MakeNoise(width, height);
    assert perlin.CurrentSampler() == LayerSampler(draws, size);
    noise := g;
  }

  /** The generation loop of generateFractal: one fresh raw layer per iteration, on a grid that doubles. */
  method MakeLayers(width: nat, height: nat, gridStart: nat, iterations: nat, draws: seq<seq<Vector2D>>)
    returns (layers: seq<array2<real>>)
    requires 1 <= gridStart
    requires |draws| == iterations && DrawsFit(draws, gridStart)
    ensures |layers| == iterations
    ensures forall i :: 0 <= i < iterations ==>
              fresh(layers[i]) && layers[i].Length0 == height && layers[i].Length1 == width
    ensures forall i, m :: 0 <= i < m < iterations ==> layers[i] != layers[m]
    ensures forall i, j, k :: 0 <= i < iterations && 0 <= j < height && 0 <= k < width ==>
              layers[i][j, k] == RawLayers(draws, gridStart, width, height)[i][j][k]
  {
    ghost var raw := RawLayers(draws, gridStart, width, height);
    layers := [];
    var gridsize := gridStart;
    var i := 0;
    while i < iterations
      invariant 0 <= i <= iterations
      invariant |layers| == i
      invariant gridsize == GridSize(gridStart, i)
      invariant forall m :: 0 <= m < i ==>
                  fresh(layers[m]) && layers[m].Length0 == height && layers[m].Length1 == width
      invariant forall m, n :: 0 <= m < n < i ==> layers[m] != layers[n]
      invariant forall m, j, k :: 0 <= m < i && 0 <= j < height && 0 <= k < width ==>
                  layers[m][j, k] == raw[m][j][k]
    {
      var noise := NoiseLayer(gridsize, draws[i], width, height);
      layers := layers + [noise];
      GridSizeDoubles(gridStart, i);
      gridsize := gridsize * 2;
      i := i + 1;
    }
  }

  /**
   * generateFractal, up to the rendering: `iterations` fresh `height` x `width`
   * layers; layers 1 .. iterations - 1 hold their raw noise and layers[0] the
   * merge of all of them.
   */
  method GenerateFractal(width: nat, height: nat, gridStart: nat, iterations: nat,
                         gainStart: real, gain: real, draws: seq<seq<Vector2D>>)
    returns (layers: seq<array2<real>>)
    requires 1 <= iterations && 1 <= gridStart
    requires |draws| == iterations && DrawsFit(draws, gridStart)
    ensures |layers| == iterations
    ensures forall i :: 0 <= i < iterations ==>
              fresh(layers[i]) && layers[i].Length0 == height && layers[i].Length1 == width
    ensures forall i, m :: 0 <= i < m < iterations ==> layers[i] != layers[m]
    ensures forall i, j, k :: 1 <= i < iterations && 0 <= j < height && 0 <= k < width ==>
              layers[i][j, k] == RawLayers(draws, gridStart, width, height)[i][j][k]
    ensures forall j, k :: 0 <= j < height && 0 <= k < width ==>
              layers[0][j, k] == MergeLayers(RawLayers(draws, gridStart, width, height), gainStart, gain)[j][k]
    ensures iterations == 1 ==> forall j, k :: 0 <= j < height && 0 <= k < width ==>
              layers[0][j, k] == RawLayers(draws, gridStart, width, height)[0][j][k]
    ensures 2 <= iterations ==> forall j, k :: 0 <= j < height && 0 <= k < width ==>
              -1.0 <= layers[0][j, k] <= 1.0
  {
    ghost var raw := RawLayers(draws, gridStart, width, height);
    layers := MakeLayers(width, height, gridStart, iterations, draws);
    MergeInto(layers, gainStart, gain, raw);
    MergeLayersFacts(raw, gainStart, gain);
  }

  lemma MergeLayersFacts(raw: seq<Field>, gainStart: real, gain: real)
    requires 1 <= |raw| && Uniform(raw)
    ensures |raw| == 1 ==> MergeLayers(raw, gainStart, gain) == raw[0]
    ensures 2 <= |raw| ==> Bounded(MergeLayers(raw, gainStart, gain))
  {
    if 2 <= |raw| {
      MergeLayersBounded(raw, gainStart, gain);
    }
  }

  /**
   * One pass of the merge loop: every pixel of `layer`, weighted by `g`, is
   * added to `layer0` and clamped, row by row.
   */
  method AddLayer(layer0: array2<real>, layer: array2<real>, g: real, ghost acc: Field, ghost src: Field)
    requires layer0 != layer
    requires layer.Length0 == layer0.Length0 && layer.Length1 == layer0.Length1
    requires Shaped(acc, layer0.Length0, layer0.Length1) && Shaped(src, layer0.Length0, layer0.Length1)
    requires forall j, k :: 0 <= j < layer0.Length0 && 0 <= k < layer0.Length1 ==>
               layer0[j, k] == acc[j][k] && layer[j, k] == src[j][k]
    modifies layer0
    ensures forall j, k :: 0 <= j < layer0.Length0 && 0 <= k < layer0.Length1 ==>
              layer0[j, k] == MergeStep(acc, src, g)[j][k]
  {
    ghost var next := MergeStep(acc, src, g);
    var height, width := layer0.Length0, layer0.Length1;
    var j := 0;
    while j < height
      invariant 0 <= j <= height
      invariant forall j', k :: 0 <= j' < height && 0 <= k < width ==>
                  layer0[j', k] == (if j' < j then next[j'][k] else acc[j'][k])
    {
      var k := 0;
      while k < width
        invariant 0 <= k <= width
        invariant forall j', k' :: 0 <= j' < height && 0 <= k' < width ==>
                    layer0[j', k'] == (if j' < j || (j' == j && k' < k) then next[j'][k'] else acc[j'][k'])
      {
        var v := Clamp(layer0[j, k] + layer[j, k] * g);
        assert v == next[j][k] by {
          MergeStepAt(acc, src, g, j, k);
        }
        layer0[j, k] := v;
        k := k + 1;
      }
      j := j + 1;
    }
  }

  /**
   * The merge loop of generateFractal: layers 1 .. |layers| - 1, in order,
   * accumulated into layers[0] in place; the other layers are only read.
   */
  method MergeInto(layers: seq<array2<real>>, gainStart: real, gain: real, ghost raw: seq<Field>)
    requires 1 <= |layers| == |raw| && Uniform(raw)
    requires forall m :: 0 <= m < |layers| ==>
               layers[m].Length0 == layers[0].Length0 && layers[m].Length1 == layers[0].Length1
    requires forall m, n :: 0 <= m < n < |layers| ==> layers[m] != layers[n]
    requires forall m :: 0 <= m < |raw| ==>
               |raw[m]| == layers[0].Length0 && forall j :: 0 <= j < |raw[m]| ==> |raw[m][j]| == layers[0].Length1
    requires forall m, j, k :: 0 <= m < |layers| && 0 <= j < layers[0].Length0 && 0 <= k < layers[0].Length1 ==>
               layers[m][j, k] == raw[m][j][k]
    modifies layers[0]
    ensures forall m, j, k :: 1 <= m < |layers| && 0 <= j < layers[0].Length0 && 0 <= k < layers[0].Length1 ==>
              layers[m][j, k] == raw[m][j][k]
    ensures forall j, k :: 0 <= j < layers[0].Length0 && 0 <= k < layers[0].Length1 ==>
              layers[0][j, k] == MergeLayers(raw, gainStart, gain)[j][k]
  {
    var layerGain := gainStart;
    var layer0 := layers[0];
    var height, width := layer0.Length0, layer0.Length1;
    ghost var acc := raw[0];
    var i := 1;
    while i < |layers|
      invariant 1 <= i <= |layers|
      invariant layerGain == Gain(gainStart, gain, i)
      invariant Shaped(acc, height, width) && SameShape(acc, raw[0])
      invariant MergeFrom(acc, raw, i, layerGain, gain) == MergeLayers(raw, gainStart, gain)
      invariant forall j, k :: 0 <= j < height && 0 <= k < width ==> layer0[j, k] == acc[j][k]
      invariant forall m, j, k :: 1 <= m < |layers| && 0 <= j < height && 0 <= k < width ==>
                  layers[m][j, k] == raw[m][j][k]
    {
      assert Shaped(raw[i], height, width);
      AddLayer(layer0, layers[i], layerGain, acc, raw[i]);
      MergeFromStep(acc, raw, i, layerGain, gain);
      acc := MergeStep(acc, raw[i], layerGain);
      assert layerGain * gain == Gain(gainStart, gain, i + 1);
      layerGain := layerGain * gain;
      i := i + 1;
    }
  }

  /**
   * The grayscale remap `((n + 1) / 2 * 255) | 0`: -1 is black, 1 is white and
   * [-1, 1] lands in 0 .. 255.
   */
  function Gray(n: real): (g: int)
    ensures -1.0 <= n <= 1.0 ==> 0 <= g <= 255
    ensures n == -1.0 ==> g == 0
    ensures n == 1.0 ==> g == 255
  {
    IntPart((n + 1.0) / 2.0 * 255.0)
  }

  /** Truncation keeps the remap monotone. */
  lemma GrayMonotone(a: real, b: real)
    requires a <= b
    ensures Gray(a) <= Gray(b)
  {
  }

  /** The midpoint 0 maps to 127: 127.5 is truncated, not rounded. */
  lemma GrayMidpoint()
    ensures Gray(0.0) == 127
  {
  }
}
