/**
 * The gradient-noise generator of perlin.js: linear interpolation, the three
 * smoothing polynomials, the gradient lattice and its sampling.
 */
module PerlinNoise {

  import opened Wrappers
  import opened Numbers
  import opened Vectors

  /** A `rows` x `cols` array of arrays, as the source indexes it: `[row][col]`. */
  ghost predicate Shaped<T>(a: seq<seq<T>>, rows: nat, cols: nat) {
    |a| == rows && forall r :: 0 <= r < rows ==> |a[r]| == cols
  }

  /**
   * make2DArray: a fresh `rows` x `cols` array. The source allocates one array
   * per row; a rectangular `array2` is the same shape with rows that never alias.
   */
  method Make2DArray(rows: nat, cols: nat) returns (a: array2<real>)
    ensures fresh(a) && a.Length0 == rows && a.Length1 == cols
  {
    a := new real[rows, cols];
  }

  /** lerp: linear interpolation from `a` (at t = 0) to `b` (at t = 1). */
  function Lerp(a: real, b: real, t: real): (r: real)
    ensures t == 0.0 ==> r == a
    ensures t == 1.0 ==> r == b
  {
    (1.0 - t) * a + t * b
  }

  lemma MulNonNegative(p: real, q: real)
    requires 0.0 <= p && 0.0 <= q
    ensures 0.0 <= p * q
  {
  }

  lemma SquareNonNegative(p: real)
    ensures 0.0 <= p * p
  {
    if p < 0.0 {
      MulNonNegative(-p, -p);
    } else {
      MulNonNegative(p, p);
    }
  }

  /** For t in [0, 1] the interpolated value lies between the two end points. */
  lemma LerpBetween(a: real, b: real, t: real)
    requires 0.0 <= t <= 1.0
    ensures a <= b ==> a <= Lerp(a, b, t) <= b
    ensures b <= a ==> b <= Lerp(a, b, t) <= a
  {
    assert Lerp(a, b, t) - a == t * (b - a);
    assert b - Lerp(a, b, t) == (1.0 - t) * (b - a);
    if a <= b {
      MulNonNegative(t, b - a);
      MulNonNegative(1.0 - t, b - a);
    } else {
      MulNonNegative(t, a - b);
      MulNonNegative(1.0 - t, a - b);
    }
  }

  /** smoother0: no smoothing. */
  function Smoother0(t: real): (r: real)
    ensures t == 0.0 ==> r == 0.0
    ensures t == 1.0 ==> r == 1.0
  {
    t
  }

  /** smoother1: 3t^2 - 2t^3. */
  function Smoother1(t: real): (r: real)
    ensures t == 0.0 ==> r == 0.0
    ensures t == 1.0 ==> r == 1.0
  {
    var t2 := t * t;
    3.0 * t2 - 2.0 * t * t2
  }

  /** smoother2: 6t^5 - 15t^4 + 10t^3. */
  function Smoother2(t: real): (r: real)
    ensures t == 0.0 ==> r == 0.0
    ensures t == 1.0 ==> r == 1.0
  {
    var t3 := t * t * t;
    var t4 := t3 * t;
    6.0 * t4 * t - 15.0 * t4 + 10.0 * t3
  }

  /** The smoother a generator currently uses (the `smoother` method slot of the source). */
  datatype Smoothing = NoSmoothing | Cubic | Quintic {
    function Apply(t: real): (r: real)
      ensures t == 0.0 ==> r == 0.0
      ensures t == 1.0 ==> r == 1.0
    {
      match this
      case NoSmoothing => Smoother0(t)
      case Cubic => Smoother1(t)
      case Quintic => Smoother2(t)
    }
  }

  /** Every smoother maps [0, 1] into [0, 1]. */
  lemma SmoothingStaysInUnit(s: Smoothing, t: real)
    requires 0.0 <= t <= 1.0
    ensures 0.0 <= s.Apply(t) <= 1.0
  {
    match s
    case NoSmoothing =>
    case Cubic =>
      assert Smoother1(t) == (t * t) * (3.0 - 2.0 * t);
      assert 1.0 - Smoother1(t) == ((1.0 - t) * (1.0 - t)) * (1.0 + 2.0 * t);
      MulNonNegative(t, t);
      MulNonNegative(t * t, 3.0 - 2.0 * t);
      MulNonNegative(1.0 - t, 1.0 - t);
      MulNonNegative((1.0 - t) * (1.0 - t), 1.0 + 2.0 * t);
    case Quintic =>
      var q := 6.0 * t * t - 15.0 * t + 10.0;
      assert q == 6.0 * ((t - 1.25) * (t - 1.25)) + 0.625;
      SquareNonNegative(t - 1.25);
      assert Smoother2(t) == (t * t * t) * q;
      MulNonNegative(t, t);
      MulNonNegative(t * t, t);
      MulNonNegative(t * t * t, q);
      var u := 1.0 - t;
      var p := 6.0 * t * t + 3.0 * t + 1.0;
      assert 1.0 - Smoother2(t) == (u * u * u) * p;
      MulNonNegative(u, u);
      MulNonNegative(u * u, u);
      MulNonNegative(t, t);
      MulNonNegative(u * u * u, p);
  }

  /** Every smoother is point-symmetric about (1/2, 1/2). */
  lemma SmoothingSymmetric(s: Smoothing, t: real)
    ensures s.Apply(1.0 - t) == 1.0 - s.Apply(t)
  {
    match s
    case NoSmoothing =>
    case Cubic =>
      assert Smoother1(1.0 - t) == 1.0 - Smoother1(t);
    case Quintic =>
      assert Smoother2(1.0 - t) == 1.0 - Smoother2(t);
  }

  /**
   * The lattice index a lookup uses on one axis of an `n`-wide grid: `i` itself
   * when it is below `n`, and 0 (not `n - 1`) otherwise.
   */
  function GridCoord(i: int, n: nat): (g: int)
    ensures 0 <= i < n ==> g == i
    ensures n <= i ==> g == 0
    ensures 0 <= i && 0 < n ==> 0 <= g < n
  {
    if i < n then i else 0
  }

  /** The unit vectors drawn one per cell, row by row, laid out as a `rows` x `cols` grid. */
  function RowMajor(draws: seq<Vector2D>, cols: nat, rows: nat): (g: seq<seq<Vector2D>>)
    requires |draws| == cols * rows
    ensures Shaped(g, rows, cols)
  {
    seq(rows, r requires 0 <= r < rows =>
      seq(cols, c requires 0 <= c < cols => RowMajorIndex(r, c, cols, rows); draws[r * cols + c]))
  }

  lemma RowMajorIndex(r: nat, c: nat, cols: nat, rows: nat)
    requires r < rows && c < cols
    ensures r * cols + c < cols * rows
  {
    assert r * cols + c < r * cols + cols == (r + 1) * cols;
    assert (r + 1) * cols <= rows * cols by {
      MulNonNegative((rows - (r + 1)) as real, cols as real);
    }
  }

  /**
   * What the closures of makeNoise capture: the gradient grid, its dimensions
   * and the smoother in force.
   */
  datatype Sampler = Sampler(grid: seq<seq<Vector2D>>, xgrid: nat, ygrid: nat, smoother: Smoothing) {

    ghost predicate Valid() {
      0 < xgrid && 0 < ygrid && Shaped(grid, ygrid, xgrid)
    }

    /** dotGridGradient: the gradient at lattice point (ix, iy) dotted with the offset to (x, y). */
    function DotGridGradient(ix: int, iy: int, x: real, y: real): (r: real)
      requires Valid() && 0 <= ix && 0 <= iy
      ensures x == ix as real && y == iy as real ==> r == 0.0
    {
      var v := Vector2D(x - ix as real, y - iy as real);
      var gx := GridCoord(ix, xgrid);
      var gy := GridCoord(iy, ygrid);
      grid[gy][gx].Dot(v)
    }

    /** noiseAt: bilinear interpolation of the four corner dot products, smoothed. */
    function NoiseAt(x: real, y: real): real
      requires Valid() && -1.0 < x && -1.0 < y
    {
      IntPartAboveMinusOne(x);
      IntPartAboveMinusOne(y);
      var x0 := IntPart(x);
      var y0 := IntPart(y);
      var x1 := x0 + 1;
      var y1 := y0 + 1;
      var tx := smoother.Apply(x - x0 as real);
      var ty := smoother.Apply(y - y0 as real);
      var ix0 := Lerp(DotGridGradient(x0, y0, x, y), DotGridGradient(x1, y0, x, y), tx);
      var ix1 := Lerp(DotGridGradient(x0, y1, x, y), DotGridGradient(x1, y1, x, y), tx);
      Lerp(ix0, ix1, ty)
    }
  }

  /** Grid cells per output pixel, `grid / size`; the source divides by a zero size too, and then never uses the ratio. */
  function Ratio(grid: nat, size: nat): real {
    if size == 0 then 0.0 else grid as real / size as real
  }

  /** The grid coordinate that output pixel `p` of `size` maps to: `p * (grid / size)`. */
  function SampleCoord(p: nat, grid: nat, size: nat): (c: real)
    requires 0 < size
    ensures 0.0 <= c
    ensures p < size ==> c < grid as real || grid == 0
  {
    var ratio := Ratio(grid, size);
    MulNonNegative(p as real, ratio);
    assert p < size && 0 < grid ==> p as real * ratio < grid as real by {
      if p < size && 0 < grid {
        assert grid as real == size as real * ratio;
        assert grid as real - p as real * ratio == (size - p) as real * ratio;
        assert 0.0 < (size - p) as real * ratio;
      }
    }
    p as real * ratio
  }

  /** The noise field makeNoise fills: pixel [y][x] samples the grid at its grid coordinate. */
  function NoiseField(s: Sampler, xsize: nat, ysize: nat): (f: seq<seq<real>>)
    requires s.Valid()
    ensures Shaped(f, ysize, xsize)
  {
    seq(ysize, y requires 0 <= y < ysize =>
      seq(xsize, x requires 0 <= x < xsize =>
        s.NoiseAt(SampleCoord(x, s.xgrid, xsize), SampleCoord(y, s.ygrid, ysize))))
  }

  /**
   * noiseAt is the bilinear blend of the four corner dot products with the
   * smoothed fractional offsets as weights.
   */
  lemma NoiseAtBilinear(s: Sampler, x: real, y: real)
    requires s.Valid() && -1.0 < x && -1.0 < y
    ensures 0 <= IntPart(x) && 0 <= IntPart(y)
    ensures
      var x0, y0 := IntPart(x), IntPart(y);
      s.NoiseAt(x, y) ==
        Bilinear(s.DotGridGradient(x0, y0, x, y), s.DotGridGradient(x0 + 1, y0, x, y),
                 s.DotGridGradient(x0, y0 + 1, x, y), s.DotGridGradient(x0 + 1, y0 + 1, x, y),
                 s.smoother.Apply(x - x0 as real), s.smoother.Apply(y - y0 as real))
  {
    IntPartAboveMinusOne(x);
    IntPartAboveMinusOne(y);
    var x0, y0 := IntPart(x), IntPart(y);
    var sx, sy := s.smoother.Apply(x - x0 as real), s.smoother.Apply(y - y0 as real);
    var a, b := s.DotGridGradient(x0, y0, x, y), s.DotGridGradient(x0 + 1, y0, x, y);
    var c, d := s.DotGridGradient(x0, y0 + 1, x, y), s.DotGridGradient(x0 + 1, y0 + 1, x, y);
    assert s.NoiseAt(x, y) == Lerp(Lerp(a, b, sx), Lerp(c, d, sx), sy);
    LerpOfLerps(a, b, c, d, sx, sy);
  }

  /** The bilinear blend of corner values a (0, 0), b (1, 0), c (0, 1), d (1, 1) at offsets (sx, sy). */
  function Bilinear(a: real, b: real, c: real, d: real, sx: real, sy: real): real {
    (1.0 - sx) * (1.0 - sy) * a + sx * (1.0 - sy) * b + (1.0 - sx) * sy * c + sx * sy * d
  }

  /** Two nested linear interpolations are one bilinear interpolation. */
  lemma LerpOfLerps(a: real, b: real, c: real, d: real, sx: real, sy: real)
    ensures Lerp(Lerp(a, b, sx), Lerp(c, d, sx), sy) == Bilinear(a, b, c, d, sx, sy)
  {
  }

  /** At a lattice point the noise is 0: the offset to the nearest corner is the zero vector. */
  lemma NoiseAtLatticePoint(s: Sampler, ix: nat, iy: nat)
    requires s.Valid()
    ensures s.NoiseAt(ix as real, iy as real) == 0.0
  {
    IntPartOfInteger(ix);
    IntPartOfInteger(iy);
    assert s.DotGridGradient(ix, iy, ix as real, iy as real) == 0.0;
  }

  /**
   * Every lattice lookup made for a pixel of makeNoise is in the grid, and only
   * the far corner on the last cell (index `grid`) is sent to column 0.
   */
  lemma SampleLookups(p: nat, grid: nat, size: nat)
    requires p < size && 0 < grid
    ensures
      var i0 := IntPart(SampleCoord(p, grid, size));
      0 <= i0 <= grid - 1 && i0 + 1 <= grid &&
      GridCoord(i0, grid) == i0 &&
      GridCoord(i0 + 1, grid) == (if i0 + 1 == grid then 0 else i0 + 1)
  {
  }

  /**
   * A pixel whose grid coordinates are whole numbers `m` and `n` has noise 0;
   * in particular pixel [0][0] always does.
   */
  lemma NoiseFieldAtLatticePixel(s: Sampler, xsize: nat, ysize: nat, px: nat, py: nat, m: nat, n: nat)
    requires s.Valid() && px < xsize && py < ysize
    requires px * s.xgrid == m * xsize && py * s.ygrid == n * ysize
    ensures NoiseField(s, xsize, ysize)[py][px] == 0.0
  {
    WholeCoordinate(px, s.xgrid, xsize, m);
    WholeCoordinate(py, s.ygrid, ysize, n);
    NoiseAtLatticePoint(s, m, n);
  }

  lemma WholeCoordinate(p: nat, grid: nat, size: nat, m: nat)
    requires 0 < size && p * grid == m * size
    ensures SampleCoord(p, grid, size) == m as real
  {
    assert (p * grid) as real == m as real * size as real;
    calc {
      SampleCoord(p, grid, size);
      p as real * (grid as real / size as real);
      (p as real * grid as real) / size as real;
      (m as real * size as real) / size as real;
      m as real;
    }
  }

  lemma NoiseFieldOrigin(s: Sampler, xsize: nat, ysize: nat)
    requires s.Valid() && 0 < xsize && 0 < ysize
    ensures NoiseField(s, xsize, ysize)[0][0] == 0.0
  {
    NoiseFieldAtLatticePixel(s, xsize, ysize, 0, 0, 0, 0);
  }

  /** Sampled at the grid's own resolution, every pixel lies on a lattice point: the field is all 0. */
  lemma NoiseFieldAtGridResolution(s: Sampler, x: nat, y: nat)
    requires s.Valid() && x < s.xgrid && y < s.ygrid
    ensures NoiseField(s, s.xgrid, s.ygrid)[y][x] == 0.0
  {
    NoiseFieldAtLatticePixel(s, s.xgrid, s.ygrid, x, y, x, y);
  }

  /** The inner loop of makeNoise: row `y` of `g` gets the noise of that row, and no other row changes. */
  method FillRow(g: array2<real>, s: Sampler, y: nat, xratio: real, gy: real)
    requires s.Valid() && y < g.Length0
    requires xratio == Ratio(s.xgrid, g.Length1) && gy == SampleCoord(y, s.ygrid, g.Length0)
    modifies g
    ensures forall i :: 0 <= i < g.Length1 ==> g[y, i] == NoiseField(s, g.Length1, g.Length0)[y][i]
    ensures forall j, i :: 0 <= j < g.Length0 && 0 <= i < g.Length1 && j != y ==> g[j, i] == old(g[j, i])
  {
    ghost var field := NoiseField(s, g.Length1, g.Length0);
    var x := 0;
    while x < g.Length1
      invariant 0 <= x <= g.Length1
      invariant forall i :: 0 <= i < x ==> g[y, i] == field[y][i]
      invariant forall j, i :: 0 <= j < g.Length0 && 0 <= i < g.Length1 && j != y ==> g[j, i] == old(g[j, i])
    {
      var gx := x as real * xratio;
      assert gx == SampleCoord(x, s.xgrid, g.Length1);
      g[y, x] := s.NoiseAt(gx, gy);
      x := x + 1;
    }
  }

  /** The Perlin generator: a gradient grid, its dimensions and the smoother in force. */
  class Perlin {
    var grid: seq<seq<Vector2D>>
    var xgrid: Option<nat>
    var ygrid: Option<nat>
    var smoother: Smoothing

    /** A grid is present, `ygrid` rows of `xgrid` vectors, once `xgrid` is given. */
    ghost predicate Valid()
      reads this
    {
      xgrid.Some? ==> ygrid.Some? && Shaped(grid, ygrid.value, xgrid.value)
    }

    /** The guard of makeNoise: both dimensions given and non-zero. */
    predicate Ready()
      reads this
    {
      xgrid.Some? && ygrid.Some? && xgrid.value != 0 && ygrid.value != 0
    }

    function CurrentSampler(): (s: Sampler)
      reads this
      requires Valid() && Ready()
      ensures s.Valid()
    {
      Sampler(grid, xgrid.value, ygrid.value, smoother)
    }

    /**
     * Builds the grid only when `xgrid` is given, from `draws`, the random unit
     * vectors drawn for it in order; smoothing starts off.
     */
    constructor (xgrid: Option<nat>, ygrid: Option<nat>, draws: seq<Vector2D>)
      requires xgrid.Some? ==> ygrid.Some? && |draws| == xgrid.value * ygrid.value
      ensures Valid()
      ensures this.xgrid == xgrid && this.ygrid == ygrid && smoother == NoSmoothing
      ensures xgrid.Some? ==> grid == RowMajor(draws, xgrid.value, ygrid.value)
      ensures xgrid.None? ==> grid == []
    {
      this.xgrid := xgrid;
      this.ygrid := ygrid;
      smoother := NoSmoothing;
      grid := [];
      new;
      if xgrid.Some? {
        BuildGrid(xgrid.value, ygrid.value, draws);
      }
    }

    /** buildGrid: a `ygrid` x `xgrid` grid holding one draw per cell, row by row. */
    method BuildGrid(xgrid: nat, ygrid: nat, draws: seq<Vector2D>)
      requires |draws| == xgrid * ygrid
      modifies this`grid
      ensures grid == RowMajor(draws, xgrid, ygrid)
    {
      ghost var target := RowMajor(draws, xgrid, ygrid);
      var g: seq<seq<Vector2D>> := [];
      var y := 0;
      while y < ygrid
        invariant 0 <= y <= ygrid
        invariant g == target[..y]
      {
        var row: seq<Vector2D> := [];
        var x := 0;
        while x < xgrid
          invariant 0 <= x <= xgrid
          invariant row == target[y][..x]
        {
          RowMajorIndex(y, x, xgrid, ygrid);
          row := row + [draws[y * xgrid + x]];
          x := x + 1;
        }
        assert row == target[y];
        assert target[..y + 1] == target[..y] + [target[y]];
        g := g + [row];
        y := y + 1;
      }
      assert target[..ygrid] == target;
      grid := g;
    }

    /**
     * makeNoise: `null` unless both grid dimensions are non-zero; otherwise a
     * fresh `ysize` x `xsize` array whose pixel [y][x] is the noise at grid
     * coordinate (x * xgrid / xsize, y * ygrid / ysize).
     */
    method MakeNoise(xsize: nat, ysize: nat) returns (g: array2?<real>)
      requires Valid()
      ensures !Ready() ==> g == null
      ensures Ready() ==> g != null && fresh(g) && g.Length0 == ysize && g.Length1 == xsize
      ensures Ready() ==> forall y, x :: 0 <= y < ysize && 0 <= x < xsize ==>
                g[y, x] == NoiseField(CurrentSampler(), xsize, ysize)[y][x]
    {
      if !Ready() {
        return null;
      }
      var s := CurrentSampler();
      ghost var field := NoiseField(s, xsize, ysize);
      var a := Make2DArray(ysize, xsize);
      var xratio := Ratio(s.xgrid, xsize);
      var yratio := Ratio(s.ygrid, ysize);
      var y := 0;
      while y < ysize
        invariant 0 <= y <= ysize
        invariant forall j, i :: 0 <= j < y && 0 <= i < xsize ==> a[j, i] == field[j][i]
      {
        var gy := y as real * yratio;
        assert gy == SampleCoord(y, s.ygrid, ysize);
        FillRow(a, s, y, xratio, gy);
        y := y + 1;
      }
      assert s == CurrentSampler();
      g := a;
    }

    /** setSmoothing: 0, 1 and 2 select the three smoothers; any other `n` changes nothing. */
    method SetSmoothing(n: int)
      modifies this`smoother
      ensures n == 0 ==> smoother == NoSmoothing
      ensures n == 1 ==> smoother == Cubic
      ensures n == 2 ==> smoother == Quintic
      ensures n !in {0, 1, 2} ==> smoother == old(smoother)
    {
      match n
      case 0 => smoother := NoSmoothing;
      case 1 => smoother := Cubic;
      case 2 => smoother := Quintic;
      case _ =>
    }
  }
}
