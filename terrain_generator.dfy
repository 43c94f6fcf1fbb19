/**
 * TerrainGenerator: the height field, the splatmap weights and the scattering
 * of trees and grass over the terrain.
 *
 * Engine calls whose code is not part of this model are parameters:
 * Mathf.PerlinNoise and Mathf.SmoothStep, TerrainData.GetInterpolatedHeight,
 * TerrainData.GetSteepness and Terrain.SampleHeight. The values of
 * `System.Random(randomSeed).NextDouble()` are an input stream `random`,
 * `random(k)` being the k-th draw of a freshly seeded generator.
 */
module TerrainGenerator {
  import opened UnityMath
  import opened RowMajor

  /** A scalar function of two coordinates supplied by the engine. */
  type Field2 = (real, real) -> real

  /** Mathf.SmoothStep(from, to, t). */
  type SmoothStepFn = (real, real, real) -> real

  /** random(k) is the k-th NextDouble() of `new System.Random(randomSeed)`. */
  type RandomStream = nat -> real

  // ---------------------------------------------------------------------
  // Height field
  // ---------------------------------------------------------------------

  /** The normalised grid coordinate i / (resolution - 1). */
  function GridCoord(i: nat, resolution: nat): (r: real)
    requires resolution >= 2
    ensures i < resolution ==> 0.0 <= r <= 1.0
    ensures i == 0 ==> r == 0.0
    ensures i == resolution - 1 ==> r == 1.0
  {
    QuotientAtMostOne(i as real, (resolution - 1) as real);
    i as real / (resolution - 1) as real
  }

  /** The ridge profile across the terrain: a triangle peaking at nx = 0.5. */
  function Ridge(nx: real): (r: real)
    ensures 0.0 <= r <= 1.0
    ensures r == 1.0 <==> nx == 0.5
    ensures r == 0.0 <==> Abs(nx - 0.5) >= 1.0 / 2.8
  {
    Clamp01(1.0 - Abs(nx - 0.5) * 2.8)
  }

  /** The beach band: 0.02 rising to 0.06 towards the plain, plus a little noise. */
  function BeachHeight(nx: real, nz: real, perlin: Field2, smoothStep: SmoothStepFn): (r: real)
    ensures 0.0 <= perlin(nx * 3.0, nz * 3.0) <= 1.0 ==> 0.02 <= r <= 0.068
  {
    var beachBlend := smoothStep(0.0, 1.0, InverseLerp(0.0, 0.25, nz));
    var noise := perlin(nx * 3.0, nz * 3.0) * 0.02;
    Lerp(0.02, 0.06, beachBlend) + noise * 0.4
  }

  /** The plain band: 0.08 plus a little noise. */
  function PlainHeight(nx: real, nz: real, perlin: Field2): (r: real)
    ensures 0.0 <= perlin(nx * 3.0, nz * 3.0) <= 1.0 ==> 0.08 <= r <= 0.096
  {
    var noise := perlin(nx * 3.0, nz * 3.0) * 0.02;
    0.08 + noise * 0.8
  }

  /** The mountain band: a ridge from 0.15 up to 0.75 along nx = 0.5, plus noise. */
  function MountainHeight(nx: real, nz: real, perlin: Field2): (r: real)
    ensures 0.15 <= r - perlin(nx * 6.0, nz * 6.0) * 0.08 <= 0.75
    ensures 0.0 <= perlin(nx * 6.0, nz * 6.0) <= 1.0 ==> 0.15 <= r <= 0.83
  {
    var mountainBase := 0.15 + Ridge(nx) * 0.6;
    var mountainNoise := perlin(nx * 6.0, nz * 6.0) * 0.08;
    mountainBase + mountainNoise
  }

  /** The blended height before jitter: plain over beach first, then mountain over that. */
  function RawHeight(nx: real, nz: real, perlin: Field2, smoothStep: SmoothStepFn): (r: real)
    ensures 0.0 <= perlin(nx * 3.0, nz * 3.0) <= 1.0 && 0.0 <= perlin(nx * 6.0, nz * 6.0) <= 1.0 ==>
      0.02 <= r <= 0.83
  {
    var plainBlend := smoothStep(0.0, 1.0, InverseLerp(0.25, 0.6, nz));
    var mountainBlend := smoothStep(0.0, 1.0, InverseLerp(0.6, 1.0, nz));
    var height := Lerp(BeachHeight(nx, nz, perlin, smoothStep), PlainHeight(nx, nz, perlin), plainBlend);
    Lerp(height, MountainHeight(nx, nz, perlin), mountainBlend)
  }

  function Min3(a: real, b: real, c: real): real
  {
    if a <= b && a <= c then a else if b <= c then b else c
  }

  function Max3(a: real, b: real, c: real): real
  {
    if a >= b && a >= c then a else if b >= c then b else c
  }

  /** Blending never leaves the range spanned by the three band heights. */
  lemma BlendStaysWithinBands(nx: real, nz: real, perlin: Field2, smoothStep: SmoothStepFn)
    ensures var b, p, m := BeachHeight(nx, nz, perlin, smoothStep), PlainHeight(nx, nz, perlin), MountainHeight(nx, nz, perlin);
      Min3(b, p, m) <= RawHeight(nx, nz, perlin, smoothStep) <= Max3(b, p, m)
  {
  }

  /** On the southern edge (nz = 0) the height is the beach height, given SmoothStep(0, 1, 0) = 0. */
  lemma SouthEdgeIsBeach(nx: real, perlin: Field2, smoothStep: SmoothStepFn)
    requires smoothStep(0.0, 1.0, 0.0) == 0.0
    ensures RawHeight(nx, 0.0, perlin, smoothStep) == 0.02 + perlin(nx * 3.0, 0.0) * 0.02 * 0.4
  {
  }

  /** At the plain/mountain boundary (nz = 0.6) the height is the plain height, given SmoothStep's endpoints. */
  lemma PlainAtMountainBoundary(nx: real, perlin: Field2, smoothStep: SmoothStepFn)
    requires smoothStep(0.0, 1.0, 0.0) == 0.0 && smoothStep(0.0, 1.0, 1.0) == 1.0
    ensures RawHeight(nx, 0.6, perlin, smoothStep) == PlainHeight(nx, 0.6, perlin)
  {
  }

  /** On the northern edge (nz = 1) the mountain blend has the final say, given SmoothStep(0, 1, 1) = 1. */
  lemma NorthEdgeIsMountain(nx: real, perlin: Field2, smoothStep: SmoothStepFn)
    requires smoothStep(0.0, 1.0, 1.0) == 1.0
    ensures RawHeight(nx, 1.0, perlin, smoothStep) == MountainHeight(nx, 1.0, perlin)
  {
  }

  /** The per-cell jitter of one random draw. */
  function Jitter(r: real): (j: real)
    ensures 0.0 <= r < 1.0 ==> -0.0015 <= j < 0.0015
  {
    (r - 0.5) * 0.003
  }

  /** The stored value of a height cell: blended height plus jitter, clamped. */
  function CellHeight(nx: real, nz: real, r: real, perlin: Field2, smoothStep: SmoothStepFn): (h: real)
    ensures 0.0 <= h <= 1.0
  {
    Clamp01(RawHeight(nx, nz, perlin, smoothStep) + Jitter(r))
  }

  /** The value BuildHeights stores at cell (x, z), which takes draw number z * resolution + x. */
  function HeightAt(x: nat, z: nat, resolution: nat, random: RandomStream, perlin: Field2, smoothStep: SmoothStepFn): (h: real)
    requires resolution >= 2
    ensures 0.0 <= h <= 1.0
  {
    CellHeight(GridCoord(x, resolution), GridCoord(z, resolution), random(z * resolution + x), perlin, smoothStep)
  }

  /**
   * BuildHeights: a resolution x resolution grid, z outer and x inner, one
   * random draw per cell in that order; `draws` is the number of draws taken.
   * (resolution = 1 makes the source divide 0 by 0; it is excluded.)
   */
  method BuildHeights(resolution: nat, random: RandomStream, perlin: Field2, smoothStep: SmoothStepFn)
    returns (heights: array2<real>, draws: nat)
    requires resolution != 1
    ensures heights.Length0 == resolution && heights.Length1 == resolution
    ensures draws == resolution * resolution
    ensures forall z, x :: 0 <= z < resolution && 0 <= x < resolution ==>
      heights[z, x] == HeightAt(x, z, resolution, random, perlin, smoothStep)
    ensures forall z, x :: 0 <= z < resolution && 0 <= x < resolution ==> 0.0 <= heights[z, x] <= 1.0
  {
    heights := new real[resolution, resolution];
    draws := 0;
    for z := 0 to resolution
      invariant draws == z * resolution
      invariant forall zz, xx :: 0 <= zz < z && 0 <= xx < resolution ==>
        heights[zz, xx] == HeightAt(xx, zz, resolution, random, perlin, smoothStep)
    {
      draws := BuildHeightRow(heights, z, draws, random, perlin, smoothStep);
      assert (z + 1) * resolution == z * resolution + resolution;
    }
  }

  /** The inner `x` loop of BuildHeights: fills row z and leaves the other rows alone. */
  method BuildHeightRow(heights: array2<real>, z: nat, draws: nat, random: RandomStream, perlin: Field2, smoothStep: SmoothStepFn)
    returns (next: nat)
    requires heights.Length0 == heights.Length1 >= 2 && z < heights.Length0
    requires draws == z * heights.Length1
    modifies heights
    ensures next == draws + heights.Length1
    ensures forall x :: 0 <= x < heights.Length1 ==>
      heights[z, x] == HeightAt(x, z, heights.Length1, random, perlin, smoothStep)
    ensures forall zz, xx :: 0 <= zz < heights.Length0 && 0 <= xx < heights.Length1 && zz != z ==>
      heights[zz, xx] == old(heights[zz, xx])
  {
    var resolution := heights.Length1;
    next := draws;
    for x := 0 to resolution
      invariant next == z * resolution + x
      invariant forall xx :: 0 <= xx < x ==> heights[z, xx] == HeightAt(xx, z, resolution, random, perlin, smoothStep)
      invariant forall zz, xx :: 0 <= zz < resolution && 0 <= xx < resolution && zz != z ==>
        heights[zz, xx] == old(heights[zz, xx])
    {
      var nx := GridCoord(x, resolution);
      var nz := GridCoord(z, resolution);
      var r := random(next);
      assert r == random(z * resolution + x);
      heights[z, x] := CellHeight(nx, nz, r, perlin, smoothStep);
      next := next + 1;
    }
  }

  /** The draws of distinct cells are distinct: each cell consumes its own draw. */
  lemma CellsUseDistinctDraws(x1: nat, z1: nat, x2: nat, z2: nat, resolution: nat)
    requires x1 < resolution && z1 < resolution && x2 < resolution && z2 < resolution
    requires (x1, z1) != (x2, z2)
    ensures z1 * resolution + x1 != z2 * resolution + x2
    ensures z1 * resolution + x1 < resolution * resolution
  {
    IndexInRange(x1, z1, resolution);
    if z1 * resolution + x1 == z2 * resolution + x2 {
      IndexInjective(x1, z1, x2, z2, resolution);
    }
  }

  // ---------------------------------------------------------------------
  // Splatmap
  // ---------------------------------------------------------------------

  /** The number of TerrainLayers BuildTerrainLayers supplies: sand, grassRocky, grassHill, glassRocky, cliff. */
  const LayerCount: nat := 5

  /** Sand: low and flat ground. */
  function SandWeight(height: real, slope: real): (r: real)
    ensures 0.0 <= r <= 1.0
  {
    var low, flat := Clamp01(1.0 - InverseLerp(0.03, 0.09, height)), Clamp01(1.0 - slope * 2.0);
    UnitProduct(low, flat);
    low * flat
  }

  /** Rocky grass: low ground that is not already sand. */
  function GrassRockyWeight(height: real, sand: real): (r: real)
    requires 0.0 <= sand <= 1.0
    ensures 0.0 <= r <= 1.0
  {
    var low := Clamp01(1.0 - InverseLerp(0.06, 0.14, height));
    UnitProduct(low, 1.0 - sand);
    low * (1.0 - sand)
  }

  /** Hill grass: gentle slopes, fading in with height. */
  function GrassHillWeight(height: real, slope: real): (r: real)
    ensures 0.0 <= r <= 1.0
  {
    var flat, band := Clamp01(1.0 - slope * 1.6), InverseLerp(0.05, 0.2, height);
    UnitProduct(flat, band);
    flat * band
  }

  /** Rock: steep slopes, fading in with height. */
  function RockWeight(height: real, slope: real): (r: real)
    ensures 0.0 <= r <= 1.0
  {
    var steep, band := Clamp01(slope * 1.7), InverseLerp(0.12, 0.45, height);
    UnitProduct(steep, band);
    steep * band
  }

  /** Cliff: the highest ground. */
  function CliffWeight(height: real): (r: real)
    ensures 0.0 <= r <= 1.0
  {
    Clamp01(InverseLerp(0.55, 0.85, height))
  }

  /** The five raw layer contributions of a cell with normalised height and slope, in layer order. */
  function RawWeights(height: real, slope: real): (w: seq<real>)
    ensures |w| == LayerCount
    ensures forall i :: 0 <= i < |w| ==> 0.0 <= w[i] <= 1.0
  {
    var sand := SandWeight(height, slope);
    [sand, GrassRockyWeight(height, sand), GrassHillWeight(height, slope), RockWeight(height, slope), CliffWeight(height)]
  }

  /** The sum of a weight vector, accumulated left to right. */
  function Sum(s: seq<real>): real
  {
    if s == [] then 0.0 else Sum(s[..|s| - 1]) + s[|s| - 1]
  }

  function Scale(w: seq<real>, t: real): (r: seq<real>)
    requires t != 0.0
    ensures |r| == |w|
  {
    seq(|w|, i requires 0 <= i < |w| => w[i] / t)
  }

  function OneHot(n: nat): (r: seq<real>)
    requires n > 0
    ensures |r| == n
  {
    [1.0] + seq(n - 1, _ => 0.0)
  }

  /** What Normalize leaves in a weight vector. */
  function Normalized(w: seq<real>): (r: seq<real>)
    requires |w| > 0
    ensures |r| == |w|
    ensures Sum(w) <= Epsilon ==> r[0] == 1.0 && forall i :: 1 <= i < |r| ==> r[i] == 0.0
    ensures Sum(w) > Epsilon ==> forall i :: 0 <= i < |r| ==> r[i] == w[i] / Sum(w)
  {
    var total := Sum(w);
    if total <= Epsilon then OneHot(|w|) else Scale(w, total)
  }

  predicate NonNegative(w: seq<real>)
  {
    forall i :: 0 <= i < |w| ==> w[i] >= 0.0
  }

  lemma {:induction false} SumAppend(a: seq<real>, b: seq<real>)
    ensures Sum(a + b) == Sum(a) + Sum(b)
    decreases |b|
  {
    if b == [] {
      assert a + b == a;
    } else {
      var b' := b[..|b| - 1];
      assert (a + b)[..|a + b| - 1] == a + b';
      SumAppend(a, b');
    }
  }

  lemma {:induction false} SumZeros(n: nat)
    ensures Sum(seq(n, _ => 0.0)) == 0.0
  {
    if n > 0 {
      assert seq(n, _ => 0.0)[..n - 1] == seq(n - 1, _ => 0.0);
      SumZeros(n - 1);
    }
  }

  lemma {:induction false} SumScale(w: seq<real>, t: real)
    requires t != 0.0
    ensures Sum(Scale(w, t)) == Sum(w) / t
    decreases |w|
  {
    if w != [] {
      var w' := w[..|w| - 1];
      assert Scale(w, t)[..|w| - 1] == Scale(w', t);
      SumScale(w', t);
      DivideSum(Sum(w'), w[|w| - 1], t);
    }
  }

  lemma DivideSum(a: real, b: real, t: real)
    requires t != 0.0
    ensures a / t + b / t == (a + b) / t
  {
  }

  lemma {:induction false} ElementAtMostSum(w: seq<real>, i: nat)
    requires NonNegative(w) && i < |w|
    ensures 0.0 <= w[i] <= Sum(w)
    decreases |w|
  {
    var w' := w[..|w| - 1];
    SumNonNegative(w');
    if i < |w| - 1 {
      assert w'[i] == w[i];
      ElementAtMostSum(w', i);
    }
  }

  lemma {:induction false} SumNonNegative(w: seq<real>)
    requires NonNegative(w)
    ensures Sum(w) >= 0.0
    decreases |w|
  {
    if w != [] {
      SumNonNegative(w[..|w| - 1]);
    }
  }

  /**
   * A non-negative weight vector normalises to a distribution: every entry in
   * [0,1] and the entries sum to 1, in the degenerate one-hot case as well.
   */
  lemma NormalizedIsDistribution(w: seq<real>)
    requires |w| > 0 && NonNegative(w)
    ensures forall i :: 0 <= i < |w| ==> 0.0 <= Normalized(w)[i] <= 1.0
    ensures Sum(Normalized(w)) == 1.0
  {
    var total := Sum(w);
    if total <= Epsilon {
      SumAppend([1.0], seq(|w| - 1, _ => 0.0));
      SumZeros(|w| - 1);
      assert Sum([1.0]) == Sum([]) + 1.0;
    } else {
      SumScale(w, total);
      forall i | 0 <= i < |w|
        ensures 0.0 <= Normalized(w)[i] <= 1.0
      {
        ElementAtMostSum(w, i);
        QuotientAtMostOne(w[i], total);
      }
    }
  }

  lemma QuotientAtMostOne(n: real, d: real)
    requires d > 0.0
    ensures 0.0 <= n <= d ==> 0.0 <= n / d <= 1.0
  {
    var q := n / d;
    assert q * d == n;
    if 0.0 <= n <= d && q > 1.0 {
      assert false;
    }
  }

  /** Normalize: rescales the weights in place, with the one-hot fallback of a zero total. */
  method Normalize(weights: array<real>)
    requires weights.Length > 0
    modifies weights
    ensures weights[..] == Normalized(old(weights[..]))
  {
    var total := 0.0;
    for i := 0 to weights.Length
      invariant total == Sum(weights[..i])
    {
      assert weights[..i + 1][..i] == weights[..i];
      total := total + weights[i];
    }
    assert weights[..weights.Length] == weights[..];

    if total <= Epsilon {
      weights[0] := 1.0;
      for i := 1 to weights.Length
        invariant weights[0] == 1.0
        invariant forall j :: 1 <= j < i ==> weights[j] == 0.0
      {
        weights[i] := 0.0;
      }
      assert weights[..] == OneHot(weights.Length);
      return;
    }

    for i := 0 to weights.Length
      invariant forall j :: 0 <= j < i ==> weights[j] == old(weights[j]) / total
      invariant forall j :: i <= j < weights.Length ==> weights[j] == old(weights[j])
    {
      weights[i] := weights[i] / total;
    }
  }

  /** The normalised splat weights of a cell: a distribution over the five layers. */
  function SplatWeights(height: real, slope: real): (w: seq<real>)
    ensures |w| == LayerCount
    ensures forall i :: 0 <= i < |w| ==> 0.0 <= w[i] <= 1.0
    ensures Sum(w) == 1.0
  {
    NormalizedIsDistribution(RawWeights(height, slope));
    Normalized(RawWeights(height, slope))
  }

  lemma SumOfFive(w: seq<real>)
    requires |w| == 5
    ensures Sum(w) == w[0] + w[1] + w[2] + w[3] + w[4]
  {
    assert w[..1][..0] == [];
    assert Sum(w[..1]) == w[0];
    assert w[..2][..1] == w[..1];
    assert Sum(w[..2]) == w[0] + w[1];
    assert w[..3][..2] == w[..2];
    assert Sum(w[..3]) == w[0] + w[1] + w[2];
    assert w[..4][..3] == w[..3];
    assert Sum(w[..4]) == w[0] + w[1] + w[2] + w[3];
    assert w[..4] == w[..|w| - 1];
  }

  /** A low, flat cell is sand-dominant: sand keeps more than half of the weight. */
  lemma SandDominatesLowFlatCells(height: real, slope: real)
    requires height <= 0.03 && 0.0 <= slope < 0.25
    ensures SplatWeights(height, slope)[0] > 0.5
  {
    var raw := RawWeights(height, slope);
    assert raw == [1.0 - slope * 2.0, slope * 2.0, 0.0, 0.0, 0.0];
    SumOfFive(raw);
    assert Sum(raw) == 1.0;
  }

  /** The weights of the alphamap point (nx, nz), from the terrain's own height and steepness there. */
  function CellWeights(nx: real, nz: real, interpolatedHeight: Field2, steepness: Field2, sizeY: real): (w: seq<real>)
    requires sizeY > 0.0
    ensures |w| == LayerCount
    ensures forall i :: 0 <= i < |w| ==> 0.0 <= w[i] <= 1.0
  {
    SplatWeights(interpolatedHeight(nx, nz) / sizeY, steepness(nx, nz) / 90.0)
  }

  /** The weights of alphamap cell (x, z) of a resolution x resolution alphamap. */
  function SplatAt(x: nat, z: nat, resolution: nat, interpolatedHeight: Field2, steepness: Field2, sizeY: real): (w: seq<real>)
    requires resolution >= 2 && sizeY > 0.0
    ensures |w| == LayerCount
    ensures forall i :: 0 <= i < |w| ==> 0.0 <= w[i] <= 1.0
  {
    CellWeights(GridCoord(x, resolution), GridCoord(z, resolution), interpolatedHeight, steepness, sizeY)
  }

  /**
   * ApplySplatmap: cell (z, x) stores the first `layers` normalised weights of
   * that cell. The source indexes a five-entry array by layer, so it needs
   * layers <= 5; BuildTerrainLayers supplies exactly five.
   */
  method ApplySplatmap(resolution: nat, layers: nat, interpolatedHeight: Field2, steepness: Field2, sizeY: real)
    returns (splatmap: array3<real>)
    requires resolution != 1 && layers <= LayerCount && sizeY > 0.0
    ensures splatmap.Length0 == resolution && splatmap.Length1 == resolution && splatmap.Length2 == layers
    ensures forall z, x, i :: 0 <= z < resolution && 0 <= x < resolution && 0 <= i < layers ==>
      splatmap[z, x, i] == SplatAt(x, z, resolution, interpolatedHeight, steepness, sizeY)[i]
    ensures forall z, x, i :: 0 <= z < resolution && 0 <= x < resolution && 0 <= i < layers ==>
      0.0 <= splatmap[z, x, i] <= 1.0
  {
    splatmap := new real[resolution, resolution, layers];
    for z := 0 to resolution
      invariant forall zz, xx, i :: 0 <= zz < z && 0 <= xx < resolution && 0 <= i < layers ==>
        splatmap[zz, xx, i] == SplatAt(xx, zz, resolution, interpolatedHeight, steepness, sizeY)[i]
    {
      for x := 0 to resolution
        invariant forall zz, xx, i :: 0 <= zz < resolution && 0 <= xx < resolution && 0 <= i < layers && (zz < z || (zz == z && xx < x)) ==>
          splatmap[zz, xx, i] == SplatAt(xx, zz, resolution, interpolatedHeight, steepness, sizeY)[i]
      {
        WriteSplatCell(splatmap, z, x, interpolatedHeight, steepness, sizeY);
      }
    }
  }

  /** The body of ApplySplatmap's inner loop: computes, normalises and stores the weights of cell (z, x). */
  method WriteSplatCell(splatmap: array3<real>, z: nat, x: nat, interpolatedHeight: Field2, steepness: Field2, sizeY: real)
    requires splatmap.Length0 == splatmap.Length1 >= 2 && splatmap.Length2 <= LayerCount && sizeY > 0.0
    requires z < splatmap.Length0 && x < splatmap.Length1
    modifies splatmap
    ensures forall i :: 0 <= i < splatmap.Length2 ==>
      splatmap[z, x, i] == SplatAt(x, z, splatmap.Length0, interpolatedHeight, steepness, sizeY)[i]
    ensures forall zz, xx, i :: 0 <= zz < splatmap.Length0 && 0 <= xx < splatmap.Length1 && 0 <= i < splatmap.Length2 && (zz != z || xx != x) ==>
      splatmap[zz, xx, i] == old(splatmap[zz, xx, i])
  {
    var resolution, layers := splatmap.Length0, splatmap.Length2;
    var nx := GridCoord(x, resolution);
    var nz := GridCoord(z, resolution);
    var height := interpolatedHeight(nx, nz) / sizeY;
    var slope := steepness(nx, nz) / 90.0;
    var raw := RawWeights(height, slope);
    var weights := new real[LayerCount] [raw[0], raw[1], raw[2], raw[3], raw[4]];
    assert weights[..] == raw;
    Normalize(weights);
    var cell := weights[..];
    assert cell == SplatAt(x, z, resolution, interpolatedHeight, steepness, sizeY);
    for i := 0 to layers
      invariant forall j :: 0 <= j < i ==> splatmap[z, x, j] == cell[j]
      invariant forall zz, xx, j :: 0 <= zz < resolution && 0 <= xx < resolution && 0 <= j < layers && (zz != z || xx != x || j >= i) ==>
        splatmap[zz, xx, j] == old(splatmap[zz, xx, j])
    {
      splatmap[z, x, i] := cell[i];
    }
  }

  // ---------------------------------------------------------------------
  // Decorations
  // ---------------------------------------------------------------------

  datatype Kind = Tree | Grass

  /** A placed instance: kind, world position, Euler rotation in degrees, uniform scale. */
  datatype Decoration = Decoration(kind: Kind, position: Vec3, rotation: Vec3, scale: real)

  /** Quaternion.identity, as Euler angles. */
  const Identity: Vec3 := Vec3(0.0, 0.0, 0.0)

  /** Quaternion.Euler(90, 0, 0): grass lies flat. */
  const LyingFlat: Vec3 := Vec3(90.0, 0.0, 0.0)

  /** The terrain the decorations are scattered over. */
  datatype Surface = Surface(sizeX: real, sizeZ: real, baseY: real, sampleHeight: Field2)

  /** A point of the terrain: inside the footprint and at the sampled height above the base. */
  predicate OnTerrain(surface: Surface, p: Vec3)
  {
    && Between(p.x, 0.0, surface.sizeX)
    && Between(p.z, 0.0, surface.sizeZ)
    && p.y == surface.sampleHeight(p.x, p.z) + surface.baseY
  }

  /** A tree as the tree loop places it. */
  predicate IsPlacedTree(surface: Surface, d: Decoration)
  {
    && d.kind == Tree
    && OnTerrain(surface, d.position)
    && d.position.y >= surface.baseY + 6.0
    && d.rotation == Identity
    && 0.8 <= d.scale <= 1.5
  }

  /** A grass instance as the grass loop places it. */
  predicate IsPlacedGrass(surface: Surface, d: Decoration)
  {
    && d.kind == Grass
    && OnTerrain(surface, d.position)
    && d.position.y >= surface.baseY + 4.0
    && d.rotation == LyingFlat
    && 0.4 <= d.scale <= 0.9
  }

  function NonNeg(n: int): nat
  {
    if n > 0 then n else 0
  }

  /**
   * RandomTerrainPoint taking draws k and k + 1 of the stream: a point of the
   * footprint lifted onto the terrain.
   */
  function Candidate(surface: Surface, random: RandomStream, k: nat): (p: Vec3)
    ensures OnTerrain(surface, p)
  {
    var x := Lerp(0.0, surface.sizeX, random(k));
    var z := Lerp(0.0, surface.sizeZ, random(k + 1));
    Vec3(x, surface.sampleHeight(x, z) + surface.baseY, z)
  }

  /** The tree of the accepted candidate whose draws start at k. */
  function TreeAt(surface: Surface, random: RandomStream, k: nat): (d: Decoration)
    ensures d.kind == Tree && d.position == Candidate(surface, random, k) && d.rotation == Identity
    ensures 0.8 <= d.scale <= 1.5
  {
    Decoration(Tree, Candidate(surface, random, k), Identity, Lerp(0.8, 1.5, random(k + 2)))
  }

  /** The tree test and the tree, as functions of a candidate's first draw. */
  function TreeAccepts(surface: Surface, random: RandomStream): nat -> bool
  {
    (c: nat) => Candidate(surface, random, c).y >= surface.baseY + 6.0
  }

  function TreePlants(surface: Surface, random: RandomStream): nat -> Decoration
  {
    (c: nat) => TreeAt(surface, random, c)
  }

  /**
   * The shape of the tree loop, apart from what it draws: from draw k with n
   * slots still to fill and `budget` rejections still allowed, the candidate
   * whose draws start at c is placed as at(c) after three draws when
   * accepted(c), and otherwise the same slot is drawn again after two. The
   * result is what is placed, the draw after the last one taken, and whether
   * all n slots were filled; RetryLoopCounts counts what it places and draws.
   */
  function RetryLoop(accepted: nat -> bool, at: nat -> Decoration, k: nat, n: nat, budget: nat)
    : (seq<Decoration>, nat, bool)
    decreases n, budget
  {
    if n == 0 then ([], k, true)
    else if !accepted(k) then
      if budget == 0 then ([], k + 2, false)
      else RetryLoop(accepted, at, k + 2, n, budget - 1)
    else
      var rest := RetryLoop(accepted, at, k + 3, n - 1, budget);
      ([at(k)] + rest.0, rest.1, rest.2)
  }

  /**
   * The tree loop from draw k with n trees still to place and `budget`
   * rejected draws still allowed: all n trees when it finishes, fewer
   * otherwise, each placed on the terrain high enough.
   */
  function Trees(surface: Surface, random: RandomStream, k: nat, n: nat, budget: nat): (r: (seq<Decoration>, nat, bool))
    ensures r.2 ==> |r.0| == n
    ensures !r.2 ==> |r.0| < n
    ensures forall j :: 0 <= j < |r.0| ==> IsPlacedTree(surface, r.0[j])
  {
    RetryLoopCounts(TreeAccepts(surface, random), TreePlants(surface, random), k, n, budget);
    TreesArePlaced(surface, random, k, n, budget);
    RetryLoop(TreeAccepts(surface, random), TreePlants(surface, random), k, n, budget)
  }

  /** Whether the grass slot whose draws start at k is planted. */
  predicate GrassAccepted(surface: Surface, random: RandomStream, k: nat)
  {
    Candidate(surface, random, k).y >= surface.baseY + 4.0
  }

  /** The grass instance of the slot whose draws start at k. */
  function GrassAt(surface: Surface, random: RandomStream, k: nat): (d: Decoration)
    ensures d.kind == Grass && d.position == Candidate(surface, random, k) && d.rotation == LyingFlat
    ensures 0.4 <= d.scale <= 0.9
  {
    Decoration(Grass, Candidate(surface, random, k), LyingFlat, Lerp(0.4, 0.9, random(k + 2)))
  }

  /** GrassAccepted and GrassAt as functions of a slot's first draw. */
  function Accepts(surface: Surface, random: RandomStream): nat -> bool
  {
    (c: nat) => GrassAccepted(surface, random, c)
  }

  function Plants(surface: Surface, random: RandomStream): nat -> Decoration
  {
    (c: nat) => GrassAt(surface, random, c)
  }

  /**
   * The shape of the grass loop, apart from what it draws: n slots from draw
   * k, where the slot whose draws start at c plants at(c) and takes three
   * draws when accepted(c), and is skipped after two draws otherwise.
   */
  function SkipLoop(accepted: nat -> bool, at: nat -> Decoration, k: nat, n: nat): (r: seq<Decoration>)
    ensures |r| <= n
    decreases n
  {
    if n == 0 then []
    else if accepted(k) then [at(k)] + SkipLoop(accepted, at, k + 3, n - 1)
    else SkipLoop(accepted, at, k + 2, n - 1)
  }

  /** The first draw of slot s of a SkipLoop started at draw k. */
  function SlotDraw(accepted: nat -> bool, k: nat, s: nat): nat
    decreases s
  {
    if s == 0 then k
    else SlotDraw(accepted, if accepted(k) then k + 3 else k + 2, s - 1)
  }

  /** How many of the first s slots of a SkipLoop started at draw k plant. */
  function KeptCount(accepted: nat -> bool, k: nat, s: nat): nat
    decreases s
  {
    if s == 0 then 0
    else if accepted(k) then 1 + KeptCount(accepted, k + 3, s - 1)
    else KeptCount(accepted, k + 2, s - 1)
  }

  /** The grass loop from draw k over n slots: the instances it plants, in order, at most one per slot. */
  function GrassSlots(surface: Surface, random: RandomStream, k: nat, n: nat): (r: seq<Decoration>)
    ensures |r| <= n
    ensures forall j :: 0 <= j < |r| ==> IsPlacedGrass(surface, r[j])
  {
    GrassIsPlaced(surface, random, k, n);
    SkipLoop(Accepts(surface, random), Plants(surface, random), k, n)
  }

  /**
   * Everything PopulateDecorations places, and whether the tree loop
   * finished: the trees from the first draw, then the grass from the draw
   * after the last tree's. Nothing without a terrain; when the tree loop
   * finishes, the first treeCount entries are trees on the terrain and the
   * rest at most grassCount grass instances; otherwise only trees, fewer
   * than asked.
   */
  function Decorations(hasTerrain: bool, surface: Surface, treeCount: int, grassCount: int,
                       random: RandomStream, maxRejections: nat): (r: (seq<Decoration>, bool))
    ensures !hasTerrain ==> r == ([], true)
    ensures treeCount <= 0 ==> r.1
    ensures hasTerrain && r.1 ==> NonNeg(treeCount) <= |r.0| <= NonNeg(treeCount) + NonNeg(grassCount)
    ensures hasTerrain && r.1 ==> forall j :: 0 <= j < NonNeg(treeCount) ==> IsPlacedTree(surface, r.0[j])
    ensures hasTerrain && r.1 ==> forall j :: NonNeg(treeCount) <= j < |r.0| ==> IsPlacedGrass(surface, r.0[j])
    ensures !r.1 ==> hasTerrain && |r.0| < NonNeg(treeCount)
    ensures !r.1 ==> forall j :: 0 <= j < |r.0| ==> IsPlacedTree(surface, r.0[j])
  {
    if !hasTerrain then ([], true)
    else
      var trees := Trees(surface, random, 0, NonNeg(treeCount), maxRejections);
      if !trees.2 then (trees.0, false)
      else
        var grass := GrassSlots(surface, random, trees.1, NonNeg(grassCount));
        assert forall j :: NonNeg(treeCount) <= j < |trees.0 + grass| ==>
          (trees.0 + grass)[j] == grass[j - NonNeg(treeCount)];
        (trees.0 + grass, true)
  }

  /**
   * What the retry loop places and draws: all n slots filled when it
   * finishes and fewer when it gives up; three draws per placed candidate and
   * two per rejected one, where a finished loop has rejected at most `budget`
   * candidates and one that gave up has rejected `budget + 1`.
   */
  lemma {:induction false} RetryLoopCounts(accepted: nat -> bool, at: nat -> Decoration, k: nat, n: nat, budget: nat)
    ensures var r := RetryLoop(accepted, at, k, n, budget);
      && (r.2 ==> |r.0| == n && k + 3 * n <= r.1 <= k + 3 * n + 2 * budget && (r.1 - (k + 3 * n)) % 2 == 0)
      && (!r.2 ==> |r.0| < n && r.1 == k + 3 * |r.0| + 2 * (budget + 1))
    decreases n, budget
  {
    if n > 0 {
      if !accepted(k) {
        if budget > 0 {
          RetryLoopCounts(accepted, at, k + 2, n, budget - 1);
        }
      } else {
        RetryLoopCounts(accepted, at, k + 3, n - 1, budget);
      }
    }
  }

  /**
   * The budget only bounds the retries: a run that finishes gives the same
   * result with any larger budget, so it is what the unbounded loop gives.
   */
  lemma {:induction false} FinishedRunIgnoresBudget(accepted: nat -> bool, at: nat -> Decoration, k: nat, n: nat, budget: nat)
    ensures RetryLoop(accepted, at, k, n, budget).2 ==>
      RetryLoop(accepted, at, k, n, budget + 1) == RetryLoop(accepted, at, k, n, budget)
    decreases n, budget
  {
    if n > 0 {
      if !accepted(k) {
        if budget > 0 {
          FinishedRunIgnoresBudget(accepted, at, k + 2, n, budget - 1);
        }
      } else {
        FinishedRunIgnoresBudget(accepted, at, k + 3, n - 1, budget);
      }
    }
  }

  /** Every tree the tree loop places stands on the terrain, high enough. */
  lemma {:induction false} TreesArePlaced(surface: Surface, random: RandomStream, k: nat, n: nat, budget: nat)
    ensures forall j :: 0 <= j < |RetryLoop(TreeAccepts(surface, random), TreePlants(surface, random), k, n, budget).0| ==>
      IsPlacedTree(surface, RetryLoop(TreeAccepts(surface, random), TreePlants(surface, random), k, n, budget).0[j])
    decreases n, budget
  {
    if n == 0 {
    } else if Candidate(surface, random, k).y < surface.baseY + 6.0 {
      if budget != 0 {
        TreesArePlaced(surface, random, k + 2, n, budget - 1);
      }
    } else {
      TreesArePlaced(surface, random, k + 3, n - 1, budget);
    }
  }

  /** When no candidate is ever rejected, the tree loop finishes without a rejection budget, three draws per tree. */
  lemma {:induction false} NoRejectionsNeedNoBudget(surface: Surface, random: RandomStream, k: nat, n: nat)
    requires forall c :: Candidate(surface, random, c).y >= surface.baseY + 6.0
    ensures Trees(surface, random, k, n, 0).2
    ensures Trees(surface, random, k, n, 0).1 == k + 3 * n
    decreases n
  {
    if n > 0 {
      NoRejectionsNeedNoBudget(surface, random, k + 3, n - 1);
    }
  }

  /** A SkipLoop plants one instance per accepted slot. */
  lemma {:induction false} SkipLoopCount(accepted: nat -> bool, at: nat -> Decoration, k: nat, n: nat)
    ensures |SkipLoop(accepted, at, k, n)| == KeptCount(accepted, k, n)
    decreases n
  {
    if n > 0 {
      SkipLoopCount(accepted, at, if accepted(k) then k + 3 else k + 2, n - 1);
    }
  }

  /** Slot s adds one to the count of planting slots exactly when it is accepted. */
  lemma {:induction false} KeptCountStep(accepted: nat -> bool, k: nat, s: nat)
    ensures KeptCount(accepted, k, s + 1) ==
      if accepted(SlotDraw(accepted, k, s)) then KeptCount(accepted, k, s) + 1 else KeptCount(accepted, k, s)
    decreases s
  {
    if s > 0 {
      KeptCountStep(accepted, if accepted(k) then k + 3 else k + 2, s - 1);
    }
  }

  /** An accepted slot plants its instance right after those of the accepted slots before it. */
  lemma {:induction false} SkipLoopSlot(accepted: nat -> bool, at: nat -> Decoration, k: nat, n: nat, s: nat)
    requires s < n && accepted(SlotDraw(accepted, k, s))
    ensures KeptCount(accepted, k, s) < |SkipLoop(accepted, at, k, n)|
    ensures SkipLoop(accepted, at, k, n)[KeptCount(accepted, k, s)] == at(SlotDraw(accepted, k, s))
    decreases s
  {
    if s > 0 {
      SkipLoopSlot(accepted, at, if accepted(k) then k + 3 else k + 2, n - 1, s - 1);
    }
  }

  /** Every instance the grass loop plants stands on the terrain, high enough. */
  lemma {:induction false} GrassIsPlaced(surface: Surface, random: RandomStream, k: nat, n: nat)
    ensures forall j :: 0 <= j < |SkipLoop(Accepts(surface, random), Plants(surface, random), k, n)| ==>
      IsPlacedGrass(surface, SkipLoop(Accepts(surface, random), Plants(surface, random), k, n)[j])
    decreases n
  {
    if n > 0 {
      if GrassAccepted(surface, random, k) {
        GrassIsPlaced(surface, random, k + 3, n - 1);
      } else {
        GrassIsPlaced(surface, random, k + 2, n - 1);
      }
    }
  }

  /**
   * Slot s of the grass loop is planted exactly when its candidate point is
   * at least 4 above the base, and then its instance follows those of the
   * planted slots before it.
   */
  lemma GrassSlotIsPlantedIffHighEnough(surface: Surface, random: RandomStream, k: nat, n: nat, s: nat)
    requires s < n
    ensures var c := SlotDraw(Accepts(surface, random), k, s);
      KeptCount(Accepts(surface, random), k, s + 1) == KeptCount(Accepts(surface, random), k, s) + 1
      <==> Candidate(surface, random, c).y >= surface.baseY + 4.0
    ensures var c := SlotDraw(Accepts(surface, random), k, s);
      Candidate(surface, random, c).y >= surface.baseY + 4.0 ==>
        && KeptCount(Accepts(surface, random), k, s) < |GrassSlots(surface, random, k, n)|
        && GrassSlots(surface, random, k, n)[KeptCount(Accepts(surface, random), k, s)] == GrassAt(surface, random, c)
  {
    var accepted := Accepts(surface, random);
    KeptCountStep(accepted, k, s);
    if accepted(SlotDraw(accepted, k, s)) {
      SkipLoopSlot(accepted, Plants(surface, random), k, n, s);
    }
  }

  /**
   * The tree loop of PopulateDecorations, from the first draw of the stream:
   * RandomTerrainPoint's candidate is accepted when it is at least 6 above the
   * terrain's base, and then planted as TreeAt with the third draw as scale.
   */
  method PlantTrees(surface: Surface, random: RandomStream, treeCount: int, maxRejections: nat)
    returns (trees: seq<Decoration>, next: nat, complete: bool)
    ensures (trees, next, complete) == Trees(surface, random, 0, NonNeg(treeCount), maxRejections)
  {
    trees, next, complete := RetryPlacing(TreeAccepts(surface, random), TreePlants(surface, random), treeCount, maxRejections);
  }

  /**
   * The loop of the tree loop, for any test and placement of the candidate
   * whose draws start at k: `count` slots from the first draw, a rejected
   * candidate drawing the same slot again (`i--; continue;`) while fewer than
   * `maxRejections` rejections have been spent.
   */
  method RetryPlacing(accepted: nat -> bool, at: nat -> Decoration, count: int, maxRejections: nat)
    returns (placed: seq<Decoration>, next: nat, complete: bool)
    ensures (placed, next, complete) == RetryLoop(accepted, at, 0, NonNeg(count), maxRejections)
  {
    ghost var all := RetryLoop(accepted, at, 0, NonNeg(count), maxRejections);
    placed := [];
    var k: nat := 0;  // the next draw of the shared stream
    var i := 0;
    var rejections: nat := 0;
    ghost var slots: nat, budget: nat := NonNeg(count), maxRejections;  // what is left of each
    ghost var left := all;  // what the rest of the loop places
    while i < count
      invariant 0 <= i <= NonNeg(count) && slots == NonNeg(count) - i
      invariant rejections <= maxRejections && budget == maxRejections - rejections
      invariant left == RetryLoop(accepted, at, k, slots, budget)
      invariant placed + left.0 == all.0 && left.1 == all.1 && left.2 == all.2
      decreases budget, slots
    {
      if !accepted(k) {
        if rejections == maxRejections {
          assert placed == all.0;
          return placed, k + 2, false;
        }
        left := RetryLoop(accepted, at, k + 2, slots, budget - 1);
        k, rejections, budget := k + 2, rejections + 1, budget - 1;
        continue;
      }
      var item := at(k);
      ghost var rest := RetryLoop(accepted, at, k + 3, slots - 1, budget);
      assert left.0 == [item] + rest.0;
      assert placed + ([item] + rest.0) == (placed + [item]) + rest.0;
      k, i, slots := k + 3, i + 1, slots - 1;
      placed, left := placed + [item], rest;
    }
    assert placed == all.0;
    return placed, k, true;
  }



  /** The grass loop of PopulateDecorations, from draw k of the stream. */
  method PlantGrass(surface: Surface, random: RandomStream, k: nat, grassCount: int)
    returns (grass: seq<Decoration>)
    ensures grass == GrassSlots(surface, random, k, NonNeg(grassCount))
  {
    grass := [];
    var draw := k;
    for slot := 0 to NonNeg(grassCount)
      invariant grass + GrassSlots(surface, random, draw, NonNeg(grassCount) - slot)
        == GrassSlots(surface, random, k, NonNeg(grassCount))
    {
      var position := Candidate(surface, random, draw);  // RandomTerrainPoint takes draws draw and draw + 1
      if position.y < surface.baseY + 4.0 {
        // `continue`: the slot is skipped
        draw := draw + 2;
        continue;
      }
      var instance := Decoration(Grass, position, LyingFlat, Lerp(0.4, 0.9, random(draw + 2)));
      ghost var rest := GrassSlots(surface, random, draw + 3, NonNeg(grassCount) - slot - 1);
      assert grass + ([instance] + rest) == (grass + [instance]) + rest;
      draw := draw + 3;
      grass := grass + [instance];
    }
  }

  /**
   * PopulateDecorations: trees first, grass after, both from one random stream.
   * Each candidate takes two draws and each placed instance one more. A rejected
   * tree slot is drawn again; a rejected grass slot is skipped. The source
   * retries a tree slot without limit; here at most `maxRejections` rejected
   * tree draws are allowed, and `complete` is false if that budget ran out.
   * Without a terrain nothing is placed.
   */
  method PopulateDecorations(hasTerrain: bool, surface: Surface, treeCount: int, grassCount: int,
                             random: RandomStream, maxRejections: nat)
    returns (placed: seq<Decoration>, complete: bool)
    ensures (placed, complete) == Decorations(hasTerrain, surface, treeCount, grassCount, random, maxRejections)
    ensures !hasTerrain ==> placed == [] && complete
    ensures treeCount <= 0 ==> complete
    ensures hasTerrain && complete ==> NonNeg(treeCount) <= |placed| <= NonNeg(treeCount) + NonNeg(grassCount)
    ensures hasTerrain && complete ==> forall j :: 0 <= j < NonNeg(treeCount) ==> IsPlacedTree(surface, placed[j])
    ensures hasTerrain && complete ==> forall j :: NonNeg(treeCount) <= j < |placed| ==> IsPlacedGrass(surface, placed[j])
    ensures !complete ==> hasTerrain && |placed| < NonNeg(treeCount)
    ensures !complete ==> forall j :: 0 <= j < |placed| ==> IsPlacedTree(surface, placed[j])
  {
    if !hasTerrain {
      return [], true;
    }
    var trees, next;
    trees, next, complete := PlantTrees(surface, random, treeCount, maxRejections);
    if !complete {
      return trees, false;
    }
    var grass := PlantGrass(surface, random, next, grassCount);
    placed := trees + grass;
  }
}
