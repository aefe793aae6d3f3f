/**
 * The biome classifier of the Earth-like world: a deterministic map from an
 * integer point (x, z) to a biome, built from fractal simplex noise, a world
 * edge at |x| = 10000 that fades to ocean, a wavy polar cut-off near
 * |z| = 4000, a ladder of ocean thresholds, latitude bands and rare islands
 * placed on a 1200-block grid.  Around it sit the region queries that fill
 * arrays, the ring search for an allowed biome, the grid viability check and
 * the assembly of the band catalogs from the optional extended biomes.
 */
module EarthlikeBiomeProvider {
  import opened Biomes
  import opened JavaMath

  // ~~~~~~~~~ Noise ~~~~~~~~~

  /** A seeded simplex noise source: a total function of the plane into [-1, 1]. */
  type Noise = f: (real, real) -> real | forall x: real, z: real :: -1.0 <= f(x, z) <= 1.0
    witness (x: real, z: real) => 0.0

  // ~~~~~~~~~ World & boundaries ~~~~~~~~~
  const MAX_PLANET_WIDTH: int := 10000
  const X_FADE_BAND: int := 3000
  const POLAR_Z_LIMIT: int := 4000
  const POLAR_FADE_BAND: int := 800
  /** Both fades pull the ocean value toward this target. */
  const FADE_TARGET: real := -0.8

  // ~~~~~~~~~ Ocean value ~~~~~~~~~
  const SHIFT_VALUE: real := -0.27
  const DETAIL_AMPLITUDE: real := 0.01
  const DEEP_OCEAN_LEVEL: real := -0.4
  const OCEAN_LEVEL: real := -0.10
  const BEACH_LEVEL: real := -0.07

  // ~~~~~~~~~ Latitude & climate zones (hard-coded; the loaded configuration is never read) ~~~~~~~~~
  /** Latitude is normalised by 3000, not by the polar cut-off of 4000. */
  const POLE_LIMIT: real := 3000.0
  const FROZEN_START: real := 0.99
  const COLD_START: real := 0.75
  const WARM_START: real := 0.30
  const CLIMATE_FADE: real := 0.08

  const WAVE_SCALE: real := 0.0006
  const WAVE_AMPLITUDE: real := 0.02
  const POLAR_WAVE_SCALE: real := 0.001
  const POLAR_WAVE_AMPLITUDE: real := 100.0

  // ~~~~~~~~~ Rare islands ~~~~~~~~~
  const ISLAND_SPACING: int := 1200
  const ISLAND_RADIUS: int := 300

  // ~~~~~~~~~ Catalog ~~~~~~~~~

  const FROZEN_BASE: seq<Biome> := [IcePlains, IceMountains]
  const COLD_BASE: seq<Biome> := [ColdTaiga, ColdTaigaHills]
  const WARM_BASE: seq<Biome> := [Forest, Plains, Swampland]
  const HOT_BASE: seq<Biome> := [Desert, Savanna, Jungle, Mesa]

  /** The four latitude-ordered variant lists and the optional volcanic island biome. */
  datatype Catalog = Catalog(frozen: seq<Biome>, cold: seq<Biome>, warm: seq<Biome>, hot: seq<Biome>,
                             volcano: Option<Biome>)
  {
    /** Every list is its base list, possibly extended with biomes of the optional catalog. */
    predicate Valid() {
      Within(frozen, FROZEN_BASE) && Within(cold, COLD_BASE) && Within(warm, WARM_BASE) && Within(hot, HOT_BASE) &&
      (volcano.Some? ==> volcano.value.Extended?)
    }
  }

  /** A variant list is non-empty and holds only biomes of its base list or of the optional catalog. */
  predicate Within(list: seq<Biome>, base: seq<Biome>)
  {
    |list| > 0 && forall b :: b in list ==> b in base || b.Extended?
  }

  /** The classifier: five independent noise sources and the band catalog. */
  datatype Provider = Provider(continent: Noise, detail: Noise, subBiome: Noise, wave: Noise,
                               polarWave: Noise, catalog: Catalog)

  // ~~~~~~~~~ Fractal noise ~~~~~~~~~

  /** The amplitude of octave `n`: persistence^n. */
  function Pow(b: real, n: nat): (r: real)
    ensures b > 0.0 ==> r > 0.0
  {
    if n == 0 then 1.0 else Pow(b, n - 1) * b
  }

  /** The frequency of octave `n`: scale * lacunarity^n. */
  function Freq(scale: real, lacunarity: real, n: nat): real
  {
    if n == 0 then scale else Freq(scale, lacunarity, n - 1) * lacunarity
  }

  /** `gen.getValue(x * freq, z * freq)`: one noise sample at a scaled point. */
  function Sample(gen: Noise, x: real, z: real, freq: real): (g: real)
    ensures -1.0 <= g <= 1.0
  {
    gen(x * freq, z * freq)
  }

  lemma MulNonNeg(a: real, b: real)
    requires a >= 0.0 && b >= 0.0
    ensures a * b >= 0.0
  {}

  /** A sample in [-1, 1] scaled by a positive amplitude stays within that amplitude. */
  lemma ScaledSampleBound(g: real, a: real, t: real)
    requires -1.0 <= g <= 1.0 && a > 0.0 && t == g * a
    ensures -a <= t <= a
  {
    MulNonNeg(1.0 - g, a);
    MulNonNeg(g + 1.0, a);
  }

  /** Octave `k`'s contribution: its sample weighted by its amplitude, never more than the amplitude. */
  function Term(gen: Noise, x: real, z: real, k: nat, persistence: real, scale: real, lacunarity: real): (t: real)
    requires persistence > 0.0
    ensures -Pow(persistence, k) <= t <= Pow(persistence, k)
  {
    var g := Sample(gen, x, z, Freq(scale, lacunarity, k));
    var a := Pow(persistence, k);
    var t := g * a;
    ScaledSampleBound(g, a, t);
    t
  }

  /**
   * The running (sum, max) of the fractal loop after `n` octaves: octave i samples
   * at frequency scale * lacunarity^i with amplitude persistence^i.
   */
  function Octaves(gen: Noise, x: real, z: real, n: nat, persistence: real, scale: real, lacunarity: real)
    : (acc: (real, real))
    requires persistence > 0.0
  {
    if n == 0 then (0.0, 0.0)
    else
      var prev := Octaves(gen, x, z, n - 1, persistence, scale, lacunarity);
      (prev.0 + Term(gen, x, z, n - 1, persistence, scale, lacunarity), prev.1 + Pow(persistence, n - 1))
  }

  /** The accumulated sum never exceeds the accumulated amplitude, which is at least 1. */
  lemma {:induction false} OctavesBounded(gen: Noise, x: real, z: real, n: nat, persistence: real,
                                          scale: real, lacunarity: real)
    requires persistence > 0.0
    ensures var acc := Octaves(gen, x, z, n, persistence, scale, lacunarity);
      -acc.1 <= acc.0 <= acc.1 && (n >= 1 ==> acc.1 >= 1.0)
  {
    if n > 0 {
      OctavesBounded(gen, x, z, n - 1, persistence, scale, lacunarity);
    }
  }

  /** The loop's weighted sample of octave `k` is that octave's term. */
  lemma TermStep(gen: Noise, x: real, z: real, k: nat, persistence: real, scale: real, lacunarity: real,
                 noiseVal: real, amp: real, weighted: real)
    requires persistence > 0.0
    requires noiseVal == Sample(gen, x, z, Freq(scale, lacunarity, k)) && amp == Pow(persistence, k)
    requires weighted == noiseVal * amp
    ensures weighted == Term(gen, x, z, k, persistence, scale, lacunarity)
  {
  }

  lemma QuotientBound(s: real, m: real)
    requires m > 0.0 && -m <= s <= m
    ensures -1.0 <= s / m <= 1.0
  {
    var q := s / m;
    assert q * m == s;
  }

  /**
   * `fractalNoise`: the amplitude-weighted mean of `octaves` samples; for noise in
   * [-1, 1] it lies in [-1, 1] because the divisor is the sum of the amplitudes.
   */
  function Fractal(gen: Noise, x: real, z: real, octaves: nat, persistence: real, scale: real,
                   lacunarity: real): (r: real)
    requires octaves >= 1 && persistence > 0.0
    ensures -1.0 <= r <= 1.0
  {
    OctavesBounded(gen, x, z, octaves, persistence, scale, lacunarity);
    var acc := Octaves(gen, x, z, octaves, persistence, scale, lacunarity);
    QuotientBound(acc.0, acc.1);
    acc.0 / acc.1
  }

  /** The loop of `fractalNoise`, updating sum, max, amp and freq octave by octave. */
  method FractalNoise(gen: Noise, x: real, z: real, octaves: nat, persistence: real, scale: real,
                      lacunarity: real) returns (r: real)
    requires octaves >= 1 && persistence > 0.0
    ensures r == Fractal(gen, x, z, octaves, persistence, scale, lacunarity)
    ensures -1.0 <= r <= 1.0
  {
    var sum, max, amp, freq := 0.0, 0.0, 1.0, scale;
    var i := 0;
    while i < octaves
      invariant 0 <= i <= octaves
      invariant (sum, max) == Octaves(gen, x, z, i, persistence, scale, lacunarity)
      invariant amp == Pow(persistence, i)
      invariant freq == Freq(scale, lacunarity, i)
    {
      var noiseVal := Sample(gen, x, z, freq);
      var weighted := noiseVal * amp;
      TermStep(gen, x, z, i, persistence, scale, lacunarity, noiseVal, amp, weighted);
      OctaveStep(gen, x, z, i, persistence, scale, lacunarity, sum, max, weighted, amp);
      sum := sum + weighted;
      max := max + amp;
      var nextAmp := amp * persistence;
      var nextFreq := freq * lacunarity;
      PowStep(persistence, i, amp, nextAmp);
      FreqStep(scale, lacunarity, i, freq, nextFreq);
      amp, freq := nextAmp, nextFreq;
      i := i + 1;
    }
    OctavesBounded(gen, x, z, octaves, persistence, scale, lacunarity);
    r := sum / max;
    FractalIsQuotient(gen, x, z, octaves, persistence, scale, lacunarity, sum, max, r);
  }

  /** One pass of the loop adds octave `k`'s term to the sum and its amplitude to the max. */
  lemma OctaveStep(gen: Noise, x: real, z: real, k: nat, persistence: real, scale: real, lacunarity: real,
                   sum: real, max: real, weighted: real, amp: real)
    requires persistence > 0.0
    requires (sum, max) == Octaves(gen, x, z, k, persistence, scale, lacunarity)
    requires weighted == Term(gen, x, z, k, persistence, scale, lacunarity) && amp == Pow(persistence, k)
    ensures (sum + weighted, max + amp) == Octaves(gen, x, z, k + 1, persistence, scale, lacunarity)
  {}

  /** `amp *= persistence` moves the amplitude to the next octave. */
  lemma PowStep(b: real, n: nat, amp: real, next: real)
    requires amp == Pow(b, n) && next == amp * b
    ensures next == Pow(b, n + 1)
  {}

  /** `freq *= lacunarity` moves the frequency to the next octave. */
  lemma FreqStep(scale: real, lacunarity: real, n: nat, freq: real, next: real)
    requires freq == Freq(scale, lacunarity, n) && next == freq * lacunarity
    ensures next == Freq(scale, lacunarity, n + 1)
  {}

  /** After the loop, `sum / max` is the fractal value. */
  lemma FractalIsQuotient(gen: Noise, x: real, z: real, octaves: nat, persistence: real, scale: real,
                          lacunarity: real, sum: real, max: real, r: real)
    requires octaves >= 1 && persistence > 0.0
    requires (sum, max) == Octaves(gen, x, z, octaves, persistence, scale, lacunarity)
    requires max != 0.0 && r == sum / max
    ensures r == Fractal(gen, x, z, octaves, persistence, scale, lacunarity)
    ensures -1.0 <= r <= 1.0
  {}

  // ~~~~~~~~~ Fades ~~~~~~~~~

  /**
   * `fadeTo`: moves `v` toward `target` by alpha = 1 - dist/band, clamped to [0, 1].
   * At distance 0 the result is the target; from the band on it is `v`.
   */
  function FadeTo(v: real, target: real, dist: int, band: int): (r: real)
    requires band > 0
    ensures dist <= 0 ==> r == target
    ensures dist >= band ==> r == v
    ensures MinReal(v, target) <= r <= MaxReal(v, target)
  {
    var ratio := dist as real / band as real;
    RatioBounds(dist, band, ratio);
    var alpha := Clamp(1.0 - ratio, 0.0, 1.0);
    var r := (1.0 - alpha) * v + alpha * target;
    MixBetween(v, target, alpha, r);
    r
  }

  /** dist / band is at most 0 for a non-positive distance and at least 1 from the band on. */
  lemma RatioBounds(dist: int, band: int, ratio: real)
    requires band > 0 && ratio == dist as real / band as real
    ensures dist <= 0 ==> ratio <= 0.0
    ensures dist >= band ==> ratio >= 1.0
  {
    var b := band as real;
    assert ratio * b == dist as real;
    if dist <= 0 && ratio > 0.0 {
      MulPos(ratio, b);
    }
    if dist >= band && ratio < 1.0 {
      MulPos(1.0 - ratio, b);
    }
  }

  /** (1 - alpha) * v + alpha * target for alpha in [0, 1] lies between v and target, and is an endpoint at 0 and 1. */
  lemma MixBetween(v: real, target: real, alpha: real, r: real)
    requires 0.0 <= alpha <= 1.0 && r == (1.0 - alpha) * v + alpha * target
    ensures alpha == 0.0 ==> r == v
    ensures alpha == 1.0 ==> r == target
    ensures MinReal(v, target) <= r <= MaxReal(v, target)
  {
    assert r - v == alpha * (target - v);
    assert target - r == (1.0 - alpha) * (target - v);
    if target >= v {
      MulNonNeg(alpha, target - v);
      MulNonNeg(1.0 - alpha, target - v);
    } else {
      MulNonNeg(alpha, v - target);
      MulNonNeg(1.0 - alpha, v - target);
    }
  }

  /** `fadeAlpha`: 0 at or below `lo`, 1 at or above `hi`, linear in between. */
  function FadeAlpha(lat: real, lo: real, hi: real): (alpha: real)
    ensures 0.0 <= alpha <= 1.0
    ensures lo < lat < hi ==> alpha * (hi - lo) == lat - lo
    ensures lat <= lo ==> alpha == 0.0
    ensures lo < lat && hi <= lat ==> alpha == 1.0
  {
    if lat <= lo then 0.0
    else if lat >= hi then 1.0
    else
      var a := (lat - lo) / (hi - lo);
      assert a * (hi - lo) == lat - lo;
      assert (1.0 - a) * (hi - lo) == hi - lat;
      assert a >= 0.0 && a <= 1.0 by {
        if a < 0.0 { MulNonNeg(-a, hi - lo); }
        if a > 1.0 { MulNonNeg(a - 1.0, hi - lo); }
      }
      a
  }

  // ~~~~~~~~~ Variant selection within a band ~~~~~~~~~

  /**
   * The index `pickSubBiome` takes for noise `v` in a list of `n` variants:
   * `(int)(((v + 1) / 2) * n)`, moved back to the last index when it reaches `n`.
   * It is the unique index whose slice of [0, n) contains ((v + 1) / 2) * n.
   */
  function SubBiomeIndex(v: real, n: nat): (idx: nat)
    requires n >= 1 && -1.0 <= v <= 1.0
    ensures idx < n
    ensures idx as real <= (v + 1.0) / 2.0 * n as real
    ensures idx < n - 1 ==> (v + 1.0) / 2.0 * n as real < idx as real + 1.0
  {
    var t := (v + 1.0) / 2.0;
    MulNonNeg(t, n as real);
    MulNonNeg(1.0 - t, n as real);
    var raw := Trunc(t * n as real);
    if raw >= n then n - 1 else raw
  }

  /** A larger patch value never selects an earlier variant: variants occupy consecutive noise intervals. */
  lemma SubBiomeIndexMonotone(v1: real, v2: real, n: nat)
    requires n >= 1 && -1.0 <= v1 <= v2 <= 1.0
    ensures SubBiomeIndex(v1, n) <= SubBiomeIndex(v2, n)
  {
    MulNonNeg((v2 + 1.0) / 2.0 - (v1 + 1.0) / 2.0, n as real);
  }

  /** The sub-biome patch noise sampled by `pickSubBiome`. */
  function PatchValue(p: Provider, x: int, z: int): (v: real)
    ensures -1.0 <= v <= 1.0
  {
    Fractal(p.subBiome, x as real, z as real, 4, 0.5, 0.001, 2.0)
  }

  /** `pickSubBiome(Biome[], x, z)`: one variant of a non-empty band list, chosen by patch noise. */
  function PickSubBiome(p: Provider, arr: seq<Biome>, x: int, z: int): (r: Biome)
    requires |arr| > 0
    ensures r in arr
  {
    arr[SubBiomeIndex(PatchValue(p, x, z), |arr|)]
  }

  // ~~~~~~~~~ Rare islands ~~~~~~~~~

  /** The latitude used by the island rules: |z| / 3000 shifted by a wave, clamped to [0, 1]. */
  function IslandLatitude(p: Provider, x: int, z: int): (lat: real)
    ensures 0.0 <= lat <= 1.0
  {
    var waveEffect := Fractal(p.wave, x as real, z as real, 2, 0.5, 0.0005, 3.0) * 0.1;
    MinReal(1.0, MaxReal(0.0, Abs(z) as real / POLE_LIMIT + waveEffect))
  }

  function RareChance(p: Provider, x: int, z: int): (c: real)
    ensures 0.0 <= c <= 1.0
  {
    (Fractal(p.subBiome, x as real, z as real, 3, 0.5, 0.0004, 2.0) + 1.0) / 2.0
  }

  function BreakUp(p: Provider, x: int, z: int): (b: real)
    ensures -1.0 <= b <= 1.0
  {
    Fractal(p.subBiome, x as real, z as real, 4, 0.6, 0.002, 3.0)
  }

  /** The share of the fade band still left before the world edge, capped at 1. */
  function EdgeFadeFactor(x: int): (f: real)
    ensures f <= 1.0
    ensures Abs(x) <= MAX_PLANET_WIDTH - X_FADE_BAND ==> f == 1.0
  {
    MinReal(1.0, (MAX_PLANET_WIDTH - Abs(x)) as real / X_FADE_BAND as real)
  }

  /** The rare biomes eligible at a point: mushroom island, then the volcanic island when it exists. */
  function IslandCandidates(p: Provider, x: int, z: int): (e: seq<Biome>)
    ensures |e| <= 2
    ensures forall b :: b in e ==> b == MushroomIsland || p.catalog.volcano == Some(b)
  {
    var lat, chance, breakUp := IslandLatitude(p, x, z), RareChance(p, x, z), BreakUp(p, x, z);
    (if lat < 0.9 && chance > 0.84 && breakUp < 0.1 then [MushroomIsland] else []) +
    (if p.catalog.volcano.Some? && 0.2 < lat < 0.7 && chance > 0.7 && breakUp < 0.3
     then [p.catalog.volcano.value] else [])
  }

  /** `Math.floorDiv(c, 1200) * 1200 + 600`: the centre of the island cell holding `c`. */
  function CellCentre(c: int): int
  {
    (c / ISLAND_SPACING) * ISLAND_SPACING + ISLAND_SPACING / 2
  }

  /** The noisy island radius, 300 + 50 * islandWave, between 250 and 350. */
  function IslandRadius(p: Provider, x: int, z: int): (r: real)
    ensures 250.0 <= r <= 350.0
  {
    ISLAND_RADIUS as real + Fractal(p.subBiome, x as real, z as real, 2, 0.6, 0.0008, 2.5) * 50.0
  }

  /**
   * The point lies within the noisy radius of its cell centre.  The source compares
   * sqrt(dx*dx + dz*dz) with the radius; the radius is positive, so comparing the
   * squares is the same test.
   */
  predicate WithinIsland(p: Provider, x: int, z: int)
  {
    var dx, dz := (x - CellCentre(x)) as real, (z - CellCentre(z)) as real;
    var r := IslandRadius(p, x, z);
    dx * dx + dz * dz <= r * r
  }

  /** `(int)(|selection| * n) % n`: a valid index into the eligible list. */
  function IslandIndex(selection: real, n: nat): (i: nat)
    requires n >= 1
    ensures i < n
  {
    Trunc(AbsReal(selection) * n as real) % n
  }

  /** The per-cell selection noise, sampled at the cell coordinates. */
  function SelectionNoise(p: Provider, x: int, z: int): real
  {
    Fractal(p.subBiome, (x / ISLAND_SPACING) as real, (z / ISLAND_SPACING) as real, 3, 0.7, 0.001, 2.5)
  }

  /**
   * The rare biome placed at a point when the base is deep ocean: present exactly
   * when some rare biome is eligible and the point is within its cell's island radius.
   */
  function IslandAt(p: Provider, x: int, z: int): (r: Option<Biome>)
    ensures r.Some? <==> |IslandCandidates(p, x, z)| > 0 && WithinIsland(p, x, z)
    ensures r.Some? ==> r.value == MushroomIsland || p.catalog.volcano == Some(r.value)
  {
    var eligible := IslandCandidates(p, x, z);
    if |eligible| > 0 && WithinIsland(p, x, z)
    then Some(eligible[IslandIndex(SelectionNoise(p, x, z), |eligible|)])
    else None
  }

  /** `pickSubBiome(Biome, x, z)`: the rare-island override applied to an ocean biome. */
  function PickIsland(p: Provider, base: Biome, x: int, z: int): (r: Biome)
  {
    var edge := EdgeFadeFactor(x);
    if edge < 0.6 then base
    else if base == DeepOcean then
      var island := IslandAt(p, x, z);
      if island.Some? && edge > 0.6 then island.value else base
    else base
  }

  /**
   * The override replaces the base biome exactly when the base is deep ocean, more
   * than 60% of the edge fade band remains (exactly 60% keeps the base), some rare
   * biome is eligible and the point is within the island radius; the replacement is
   * the mushroom island or the volcanic island, and the latter only when it exists.
   */
  lemma IslandOverride(p: Provider, base: Biome, x: int, z: int)
    requires p.catalog.Valid() && base != MushroomIsland && !base.Extended?
    ensures var r := PickIsland(p, base, x, z);
      (r != base <==> base == DeepOcean && EdgeFadeFactor(x) > 0.6 && |IslandCandidates(p, x, z)| > 0
                      && WithinIsland(p, x, z)) &&
      (r == base || r == MushroomIsland || p.catalog.volcano == Some(r))
  {
    var edge, island := EdgeFadeFactor(x), IslandAt(p, x, z);
    if edge >= 0.6 && base == DeepOcean && island.Some? && edge > 0.6 {
      assert PickIsland(p, base, x, z) == island.value;
    } else {
      assert PickIsland(p, base, x, z) == base;
    }
  }

  lemma MulPos(a: real, b: real)
    requires a > 0.0 && b > 0.0
    ensures a * b > 0.0
  {}

  lemma SquareNonNeg(d: real)
    ensures d * d >= 0.0
  {
    if d < 0.0 {
      MulNonNeg(-d, -d);
      assert (-d) * (-d) == d * d;
    } else {
      MulNonNeg(d, d);
    }
  }

  /** A real whose square is at most m * m lies within m of zero. */
  lemma SquareBound(d: real, m: real)
    requires m >= 0.0 && d * d <= m * m
    ensures -m <= d <= m
  {
    if d > m {
      assert d * d - m * m == (d - m) * (d + m);
      MulPos(d - m, d + m);
    } else if d < -m {
      assert d * d - m * m == (-d - m) * (m - d);
      MulPos(-d - m, m - d);
    }
  }

  /** Both offsets of a point within a radius of at most 350 are at most 350. */
  lemma DiscOffsets(dx: real, dz: real, r: real)
    requires 250.0 <= r <= 350.0 && dx * dx + dz * dz <= r * r
    ensures -350.0 <= dx <= 350.0 && -350.0 <= dz <= 350.0
  {
    SquareNonNeg(dx);
    SquareNonNeg(dz);
    MulNonNeg(350.0 - r, 350.0 + r);
    assert 350.0 * 350.0 - r * r == (350.0 - r) * (350.0 + r);
    SquareBound(dx, 350.0);
    SquareBound(dz, 350.0);
  }

  /** The offset from the cell centre is the position in the cell minus 600. */
  lemma CellOffset(c: int)
    ensures c - CellCentre(c) == c % ISLAND_SPACING - 600
  {}

  /**
   * Island spacing: a point that becomes an island lies within 350 blocks of its
   * cell centre on both axes, so at least 250 blocks from every cell border; islands
   * of neighbouring cells are therefore at least 500 blocks apart.
   */
  lemma IslandsStayInsideTheirCell(p: Provider, x: int, z: int)
    requires PickIsland(p, DeepOcean, x, z) != DeepOcean
    ensures -350 <= x - CellCentre(x) <= 350 && -350 <= z - CellCentre(z) <= 350
    ensures 250 <= x % ISLAND_SPACING <= 950 && 250 <= z % ISLAND_SPACING <= 950
  {
    assert IslandAt(p, x, z).Some?;
    WithinIslandOffsets(p, x, z);
  }

  /** A point within its cell's island disc lies within 350 blocks of the centre on both axes. */
  lemma WithinIslandOffsets(p: Provider, x: int, z: int)
    requires WithinIsland(p, x, z)
    ensures -350 <= x - CellCentre(x) <= 350 && -350 <= z - CellCentre(z) <= 350
    ensures 250 <= x % ISLAND_SPACING <= 950 && 250 <= z % ISLAND_SPACING <= 950
  {
    DiscOffsets((x - CellCentre(x)) as real, (z - CellCentre(z)) as real, IslandRadius(p, x, z));
    CellOffset(x);
    CellOffset(z);
  }

  // ~~~~~~~~~ Latitude bands ~~~~~~~~~

  /** The banding latitude: the base latitude shifted by a 0.02-amplitude wave, clamped to [0, 1]. */
  function LatValue(p: Provider, x: int, z: int, baseLat: real): (lat: real)
    ensures 0.0 <= lat <= 1.0
  {
    Clamp(baseLat + Sample(p.wave, x as real, z as real, WAVE_SCALE) * WAVE_AMPLITUDE, 0.0, 1.0)
  }

  /** `blendTwoBiomes`: a hard switch at alpha = 0.5 between the colder and the warmer list. */
  function BlendTwoBiomes(p: Provider, arrA: seq<Biome>, arrB: seq<Biome>, alpha: real, x: int, z: int): (r: Biome)
    requires |arrA| > 0 && |arrB| > 0
    ensures alpha < 0.5 ==> r in arrA
    ensures alpha >= 0.5 ==> r in arrB
  {
    if alpha < 0.5 then PickSubBiome(p, arrA, x, z) else PickSubBiome(p, arrB, x, z)
  }

  /** `pickLatitudeBiome`: frozen, cold, warm and hot bands, each with a fade zone below its start. */
  function PickLatitudeBiome(p: Provider, x: int, z: int, baseLat: real): (r: Biome)
    requires p.catalog.Valid()
  {
    var c := p.catalog;
    var lat := LatValue(p, x, z, baseLat);
    if lat > FROZEN_START - CLIMATE_FADE then
      var alpha := FadeAlpha(lat, FROZEN_START - CLIMATE_FADE, FROZEN_START + CLIMATE_FADE);
      if lat < FROZEN_START then BlendTwoBiomes(p, c.cold, c.frozen, alpha, x, z)
      else PickSubBiome(p, c.frozen, x, z)
    else if lat > COLD_START - CLIMATE_FADE then
      var alpha := FadeAlpha(lat, COLD_START - CLIMATE_FADE, COLD_START + CLIMATE_FADE);
      if lat < COLD_START then BlendTwoBiomes(p, c.warm, c.cold, alpha, x, z)
      else PickSubBiome(p, c.cold, x, z)
    else if lat > WARM_START - CLIMATE_FADE then
      var alpha := FadeAlpha(lat, WARM_START - CLIMATE_FADE, WARM_START + CLIMATE_FADE);
      if lat < WARM_START then BlendTwoBiomes(p, c.hot, c.warm, alpha, x, z)
      else PickSubBiome(p, c.warm, x, z)
    else PickSubBiome(p, c.hot, x, z)
  }

  /**
   * The blend is only reached below a band's start, where alpha < 0.5, so it always
   * picks the warmer neighbour: the bands are crisp at 0.30, 0.75 and 0.99.
   */
  lemma LatitudeBanding(p: Provider, x: int, z: int, baseLat: real)
    requires p.catalog.Valid()
    ensures var lat, c, r := LatValue(p, x, z, baseLat), p.catalog, PickLatitudeBiome(p, x, z, baseLat);
      (lat < WARM_START ==> r == PickSubBiome(p, c.hot, x, z)) &&
      (WARM_START <= lat < COLD_START ==> r == PickSubBiome(p, c.warm, x, z)) &&
      (COLD_START <= lat < FROZEN_START ==> r == PickSubBiome(p, c.cold, x, z)) &&
      (FROZEN_START <= lat ==> r == PickSubBiome(p, c.frozen, x, z))
  {
    var lat := LatValue(p, x, z, baseLat);
    if FROZEN_START - CLIMATE_FADE < lat < FROZEN_START {
      var alpha := FadeAlpha(lat, FROZEN_START - CLIMATE_FADE, FROZEN_START + CLIMATE_FADE);
      assert alpha * (2.0 * CLIMATE_FADE) == lat - (FROZEN_START - CLIMATE_FADE);
    } else if COLD_START - CLIMATE_FADE < lat < COLD_START {
      var alpha := FadeAlpha(lat, COLD_START - CLIMATE_FADE, COLD_START + CLIMATE_FADE);
      assert alpha * (2.0 * CLIMATE_FADE) == lat - (COLD_START - CLIMATE_FADE);
    } else if WARM_START - CLIMATE_FADE < lat < WARM_START {
      var alpha := FadeAlpha(lat, WARM_START - CLIMATE_FADE, WARM_START + CLIMATE_FADE);
      assert alpha * (2.0 * CLIMATE_FADE) == lat - (WARM_START - CLIMATE_FADE);
    }
  }

  // ~~~~~~~~~ Point classification ~~~~~~~~~

  /** Continent fractal plus 1% detail fractal plus the -0.27 bias. */
  function RawValue(p: Provider, x: int, z: int): (v: real)
    ensures -1.0 - DETAIL_AMPLITUDE + SHIFT_VALUE <= v <= 1.0 + DETAIL_AMPLITUDE + SHIFT_VALUE
  {
    var contVal := Fractal(p.continent, x as real, z as real, 5, 0.5, 0.0002, 2.0);
    var detVal := Fractal(p.detail, x as real, z as real, 2, 0.5, 0.01, 2.0) * DETAIL_AMPLITUDE;
    contVal + detVal + SHIFT_VALUE
  }

  function EdgeDistance(x: int): int
  {
    MAX_PLANET_WIDTH - Abs(x)
  }

  /** The wavy polar limit, 4000 + 100 * polarWave, between 3900 and 4100. */
  function DynamicPole(p: Provider, x: int, z: int): (pole: real)
    ensures 3900.0 <= pole <= 4100.0
  {
    POLAR_Z_LIMIT as real + Sample(p.polarWave, x as real, z as real, POLAR_WAVE_SCALE) * POLAR_WAVE_AMPLITUDE
  }

  function PoleDistance(p: Provider, x: int, z: int): real
  {
    DynamicPole(p, x, z) - Abs(z) as real
  }

  /** The ocean value after the edge fade and the polar fade, both toward -0.8. */
  function FinalValue(p: Provider, x: int, z: int): (v: real)
    requires EdgeDistance(x) >= 0 && PoleDistance(p, x, z) >= 0.0
    ensures EdgeDistance(x) == 0 ==> v == FADE_TARGET
  {
    var raw := RawValue(p, x, z);
    var edgeDist := EdgeDistance(x);
    var v1 := if edgeDist < X_FADE_BAND then FadeTo(raw, FADE_TARGET, edgeDist, X_FADE_BAND) else raw;
    var poleDist := PoleDistance(p, x, z);
    if poleDist < POLAR_FADE_BAND as real then FadeTo(v1, FADE_TARGET, Trunc(poleDist), POLAR_FADE_BAND)
    else v1
  }

  /** `(float) |z| / 3000`: exceeds 1 between |z| = 3000 and the polar cut-off. */
  function BaseLatitude(z: int): real
  {
    Abs(z) as real / POLE_LIMIT
  }

  /** Every biome the classifier can return. */
  predicate Classifiable(c: Catalog, b: Biome)
  {
    b in c.frozen || b in c.cold || b in c.warm || b in c.hot ||
    b == DeepOcean || b == FrozenOcean || b == Ocean || b == ColdBeach || b == MushroomIsland ||
    c.volcano == Some(b)
  }

  /** `pickBiome`: world edge, polar cut-off, ocean ladder, then latitude bands. */
  function PickBiome(p: Provider, x: int, z: int): (r: Biome)
    requires p.catalog.Valid()
    ensures Classifiable(p.catalog, r)
  {
    if EdgeDistance(x) < 0 then DeepOcean
    else if PoleDistance(p, x, z) < 0.0 then FrozenOcean
    else
      var finalVal := FinalValue(p, x, z);
      var baseLat := BaseLatitude(z);
      if finalVal < DEEP_OCEAN_LEVEL then
        IslandOverride(p, DeepOcean, x, z);
        PickIsland(p, DeepOcean, x, z)
      else if finalVal < OCEAN_LEVEL then
        IslandOverride(p, Ocean, x, z);
        PickIsland(p, Ocean, x, z)
      else if baseLat > COLD_START && finalVal < BEACH_LEVEL then ColdBeach
      else
        LatitudeBanding(p, x, z, baseLat);
        PickLatitudeBiome(p, x, z, baseLat)
  }

  /** Beyond |x| = 10000 the answer is deep ocean whatever the noise; this test comes first. */
  lemma BeyondWorldEdge(p: Provider, x: int, z: int)
    requires p.catalog.Valid() && Abs(x) > MAX_PLANET_WIDTH
    ensures PickBiome(p, x, z) == DeepOcean
  {}

  /** Inside the world edge, beyond the wavy polar limit, the answer is frozen ocean. */
  lemma BeyondPolarLimit(p: Provider, x: int, z: int)
    requires p.catalog.Valid() && Abs(x) <= MAX_PLANET_WIDTH
    requires Abs(z) as real > DynamicPole(p, x, z)
    ensures PickBiome(p, x, z) == FrozenOcean
  {}

  /** On the line |x| = 10000 the edge fade has reached -0.8, and no island can form there. */
  lemma OnWorldEdge(p: Provider, x: int, z: int)
    requires p.catalog.Valid() && Abs(x) == MAX_PLANET_WIDTH
    ensures PickBiome(p, x, z) == DeepOcean || PickBiome(p, x, z) == FrozenOcean
  {
    if PoleDistance(p, x, z) >= 0.0 {
      assert FinalValue(p, x, z) == FADE_TARGET;
      assert EdgeFadeFactor(x) == 0.0;
    }
  }

  /**
   * The ocean ladder inside the world: below -0.4 deep ocean or an island; from -0.4
   * to -0.10 exactly ocean; cold beach exactly when the base latitude exceeds 0.75
   * and the value lies in [-0.10, -0.07); everything else goes to latitude banding.
   */
  lemma OceanLadder(p: Provider, x: int, z: int)
    requires p.catalog.Valid() && EdgeDistance(x) >= 0 && PoleDistance(p, x, z) >= 0.0
    ensures var f, lat, r := FinalValue(p, x, z), BaseLatitude(z), PickBiome(p, x, z);
      (f < DEEP_OCEAN_LEVEL ==> r == DeepOcean || r == MushroomIsland || p.catalog.volcano == Some(r)) &&
      (DEEP_OCEAN_LEVEL <= f < OCEAN_LEVEL ==> r == Ocean) &&
      (r == ColdBeach <==> lat > COLD_START && OCEAN_LEVEL <= f < BEACH_LEVEL) &&
      (OCEAN_LEVEL <= f && !(lat > COLD_START && f < BEACH_LEVEL) ==> r == PickLatitudeBiome(p, x, z, lat))
  {
    var f, lat := FinalValue(p, x, z), BaseLatitude(z);
    var c := p.catalog;
    if f < DEEP_OCEAN_LEVEL {
      IslandOverride(p, DeepOcean, x, z);
    } else if f < OCEAN_LEVEL {
      IslandOverride(p, Ocean, x, z);
    } else if !(lat > COLD_START && f < BEACH_LEVEL) {
      var r := PickLatitudeBiome(p, x, z, lat);
      LatitudeBanding(p, x, z, lat);
      assert r in c.frozen || r in c.cold || r in c.warm || r in c.hot;
      assert r != ColdBeach;
    }
  }

  // ~~~~~~~~~ Region queries ~~~~~~~~~

  /** The classifier of a provider whose catalog is well formed, as a function of the block position. */
  function Classifier(p: Provider): (classify: (int, int) -> Biome)
    requires p.catalog.Valid()
    ensures forall a, b :: classify(a, b) == PickBiome(p, a, b)
  {
    (a: int, b: int) => PickBiome(p, a, b)
  }

  /**
   * Shared loop of `getBiomes` (scale 1) and `getBiomesForGeneration` (scale 4):
   * cell i of a width-wide grid is the point (x + i % width, z + i / width) times the scale.
   */
  method FillGrid(classify: (int, int) -> Biome, out: array<Biome>, x: int, z: int, width: nat, depth: nat, scale: int)
    requires out.Length >= width * depth
    modifies out
    ensures forall i :: 0 <= i < width * depth ==>
      out[i] == classify((x + i % width) * scale, (z + i / width) * scale)
    ensures forall i :: width * depth <= i < out.Length ==> out[i] == old(out[i])
  {
    var i := 0;
    while i < width * depth
      invariant 0 <= i <= width * depth
      invariant forall k :: 0 <= k < i ==>
        out[k] == classify((x + k % width) * scale, (z + k / width) * scale)
      invariant forall k :: i <= k < out.Length ==> out[k] == old(out[k])
    {
      assert width > 0;
      out[i] := classify((x + i % width) * scale, (z + i / width) * scale);
      i := i + 1;
    }
  }

  /**
   * `getBiomes` for any classifier: a supplied array long enough is reused,
   * otherwise a new one of exactly width * depth is allocated.
   */
  method GetBiomesWith(classify: (int, int) -> Biome, listToReuse: array?<Biome>, x: int, z: int,
                       width: nat, depth: nat)
    returns (out: array<Biome>)
    modifies if listToReuse != null && listToReuse.Length >= width * depth then {listToReuse} else {}
    ensures listToReuse != null && listToReuse.Length >= width * depth ==> out == listToReuse
    ensures listToReuse == null || listToReuse.Length < width * depth ==>
      fresh(out) && out.Length == width * depth
    ensures forall i :: 0 <= i < width * depth ==> out[i] == classify(x + i % width, z + i / width)
    ensures out == listToReuse ==> forall i :: width * depth <= i < out.Length ==> out[i] == old(out[i])
  {
    if listToReuse == null || listToReuse.Length < width * depth {
      out := new Biome[width * depth];
    } else {
      out := listToReuse;
    }
    FillGrid(classify, out, x, z, width, depth, 1);
    assert forall i :: 0 <= i < width * depth ==> (x + i % width) * 1 == x + i % width && (z + i / width) * 1 == z + i / width;
  }

  /** `getBiomes`: region cell i is the point (x + i % width, z + i / width). */
  method GetBiomes(p: Provider, listToReuse: array?<Biome>, x: int, z: int, width: nat, depth: nat)
    returns (out: array<Biome>)
    requires p.catalog.Valid()
    modifies if listToReuse != null && listToReuse.Length >= width * depth then {listToReuse} else {}
    ensures listToReuse != null && listToReuse.Length >= width * depth ==> out == listToReuse
    ensures listToReuse == null || listToReuse.Length < width * depth ==>
      fresh(out) && out.Length == width * depth
    ensures forall i :: 0 <= i < width * depth ==> out[i] == PickBiome(p, x + i % width, z + i / width)
    ensures out == listToReuse ==> forall i :: width * depth <= i < out.Length ==> out[i] == old(out[i])
  {
    out := GetBiomesWith(Classifier(p), listToReuse, x, z, width, depth);
  }

  /** `getBiomesForGeneration`: as `getBiomes`, with both block coordinates multiplied by 4 (`<< 2`). */
  method GetBiomesForGeneration(p: Provider, biomes: array?<Biome>, x: int, z: int, width: nat, height: nat)
    returns (out: array<Biome>)
    requires p.catalog.Valid()
    modifies if biomes != null && biomes.Length >= width * height then {biomes} else {}
    ensures biomes != null && biomes.Length >= width * height ==> out == biomes
    ensures biomes == null || biomes.Length < width * height ==>
      fresh(out) && out.Length == width * height
    ensures forall i :: 0 <= i < width * height ==>
      out[i] == PickBiome(p, (x + i % width) * 4, (z + i / width) * 4)
    ensures out == biomes ==> forall i :: width * height <= i < out.Length ==> out[i] == old(out[i])
  {
    if biomes == null || biomes.Length < width * height {
      out := new Biome[width * height];
    } else {
      out := biomes;
    }
    FillGrid(Classifier(p), out, x, z, width, height, 4);
  }

  // ~~~~~~~~~ Searches ~~~~~~~~~

  /** The square ring an offset lies on (Chebyshev distance). */
  function Ring(dx: int, dz: int): nat
  {
    if Abs(dx) >= Abs(dz) then Abs(dx) else Abs(dz)
  }

  /** The search visits rings outward, each ring by increasing dx, then increasing dz. */
  predicate VisitedBefore(ax: int, az: int, bx: int, bz: int)
  {
    Ring(ax, az) < Ring(bx, bz) ||
    (Ring(ax, az) == Ring(bx, bz) && (ax < bx || (ax == bx && az < bz)))
  }

  /** Every point before (dx, dz) of ring `radius` in search order, and every point of an inner ring, is not allowed. */
  ghost predicate ClearBefore(classify: (int, int) -> Biome, x: int, z: int, allowed: seq<Biome>, radius: int, dx: int, dz: int)
  {
    forall a, b ::
      (Ring(a - x, b - z) < radius ||
       (Ring(a - x, b - z) == radius && (a - x < dx || (a - x == dx && b - z < dz)))) ==>
      classify(a, b) !in allowed
  }

  /** Both offsets of a point lie within its ring. */
  lemma RingBounds(dx: int, dz: int)
    ensures -(Ring(dx, dz) as int) <= dx <= Ring(dx, dz) && -(Ring(dx, dz) as int) <= dz <= Ring(dx, dz)
  {
  }

  /** A column of the ring scanned to its end clears everything before the next column. */
  lemma ColumnDone(classify: (int, int) -> Biome, x: int, z: int, allowed: seq<Biome>, radius: int, dx: int)
    requires ClearBefore(classify, x, z, allowed, radius, dx, radius + 1)
    ensures ClearBefore(classify, x, z, allowed, radius, dx + 1, -radius)
  {
    forall a, b | Ring(a - x, b - z) == radius && a - x == dx
      ensures classify(a, b) !in allowed
    {
      RingBounds(a - x, b - z);
    }
  }

  /** A ring scanned to its end clears everything before the first point of the next ring. */
  lemma RingDone(classify: (int, int) -> Biome, x: int, z: int, allowed: seq<Biome>, radius: int)
    requires ClearBefore(classify, x, z, allowed, radius, radius + 1, -radius)
    ensures ClearBefore(classify, x, z, allowed, radius + 1, -(radius + 1), -(radius + 1))
  {
    forall a, b |
      Ring(a - x, b - z) < radius + 1 ||
      (Ring(a - x, b - z) == radius + 1 && (a - x < -(radius + 1) || (a - x == -(radius + 1) && b - z < -(radius + 1))))
      ensures classify(a, b) !in allowed
    {
      RingBounds(a - x, b - z);
    }
  }

  /** The innermost loop: dz from -radius to radius at a fixed dx, skipping points inside the ring. */
  method ScanColumn(classify: (int, int) -> Biome, x: int, z: int, allowed: seq<Biome>, radius: int, dx: int)
    returns (found: Option<int>)
    requires 0 <= radius
    requires -radius <= dx <= radius
    requires ClearBefore(classify, x, z, allowed, radius, dx, -radius)
    ensures found.None? ==> ClearBefore(classify, x, z, allowed, radius, dx, radius + 1)
    ensures found.Some? ==>
      Ring(dx, found.value) == radius && classify(x + dx, z + found.value) in allowed &&
      ClearBefore(classify, x, z, allowed, radius, dx, found.value)
  {
    var dz := -radius;
    while dz <= radius
      invariant -radius <= dz <= radius + 1
      invariant ClearBefore(classify, x, z, allowed, radius, dx, dz)
    {
      if Abs(dx) != radius && Abs(dz) != radius {
        dz := dz + 1;
        continue;
      }
      if classify(x + dx, z + dz) in allowed {
        return Some(dz);
      }
      dz := dz + 1;
    }
    return None;
  }

  /** The middle loop: every column of ring `radius`, dx from -radius to radius. */
  method ScanRing(classify: (int, int) -> Biome, x: int, z: int, allowed: seq<Biome>, radius: int)
    returns (found: Option<(int, int)>)
    requires 0 <= radius
    requires ClearBefore(classify, x, z, allowed, radius, -radius, -radius)
    ensures found.None? ==> ClearBefore(classify, x, z, allowed, radius + 1, -(radius + 1), -(radius + 1))
    ensures found.Some? ==>
      Ring(found.value.0, found.value.1) == radius && classify(x + found.value.0, z + found.value.1) in allowed &&
      ClearBefore(classify, x, z, allowed, radius, found.value.0, found.value.1)
  {
    var dx := -radius;
    while dx <= radius
      invariant -radius <= dx <= radius + 1
      invariant ClearBefore(classify, x, z, allowed, radius, dx, -radius)
    {
      var dz := ScanColumn(classify, x, z, allowed, radius, dx);
      if dz.Some? {
        return Some((dx, dz.value));
      }
      ColumnDone(classify, x, z, allowed, radius, dx);
      dx := dx + 1;
    }
    RingDone(classify, x, z, allowed, radius);
    return None;
  }

  /**
   * The ring search of `findBiomePosition` for any classifier: the first point in
   * search order within `range` rings whose biome is allowed, or nothing.
   */
  method SearchRings(classify: (int, int) -> Biome, x: int, z: int, range: int, allowed: seq<Biome>)
    returns (r: Option<BlockPos>)
    ensures r.Some? ==>
      r.value.y == 64 && Ring(r.value.x - x, r.value.z - z) <= range &&
      classify(r.value.x, r.value.z) in allowed &&
      forall a, b :: VisitedBefore(a - x, b - z, r.value.x - x, r.value.z - z) ==> classify(a, b) !in allowed
    ensures r.None? ==> forall a, b :: Ring(a - x, b - z) <= range ==> classify(a, b) !in allowed
  {
    var radius := 0;
    while radius <= range
      invariant 0 <= radius && (range >= 0 ==> radius <= range + 1)
      invariant ClearBefore(classify, x, z, allowed, radius, -radius, -radius)
    {
      var found := ScanRing(classify, x, z, allowed, radius);
      if found.Some? {
        var (dx, dz) := found.value;
        assert x + dx - x == dx && z + dz - z == dz;
        return Some(BlockPos(x + dx, 64, z + dz));
      }
      radius := radius + 1;
    }
    return None;
  }

  /**
   * `findBiomePosition`: the first allowed point in search order within `range`
   * rings of (x, z), reported at height 64, or nothing when no point in range is allowed.
   */
  method FindBiomePosition(p: Provider, x: int, z: int, range: int, allowed: seq<Biome>)
    returns (r: Option<BlockPos>)
    requires p.catalog.Valid()
    ensures r.Some? ==>
      r.value.y == 64 && Ring(r.value.x - x, r.value.z - z) <= range &&
      PickBiome(p, r.value.x, r.value.z) in allowed &&
      forall a, b :: VisitedBefore(a - x, b - z, r.value.x - x, r.value.z - z) ==> PickBiome(p, a, b) !in allowed
    ensures r.None? ==> forall a, b :: Ring(a - x, b - z) <= range ==> PickBiome(p, a, b) !in allowed
  {
    r := SearchRings(Classifier(p), x, z, range, allowed);
  }

  /** Points of the step-4 sampling grid that starts at (centerX - radius, centerZ - radius). */
  predicate OnGrid(centerX: int, centerZ: int, radius: int, a: int, b: int)
  {
    centerX - radius <= a <= centerX + radius && (a - (centerX - radius)) % 4 == 0 &&
    centerZ - radius <= b <= centerZ + radius && (b - (centerZ - radius)) % 4 == 0
  }

  /** Every grid point before column xx, and before zz in column xx, is allowed. */
  ghost predicate GridClearBefore(classify: (int, int) -> Biome, centerX: int, centerZ: int, radius: int,
                                  allowed: seq<Biome>, xx: int, zz: int)
  {
    forall a, b :: OnGrid(centerX, centerZ, radius, a, b) && (a < xx || (a == xx && b < zz)) ==>
      classify(a, b) in allowed
  }

  /** Two grid coordinates that differ are at least one step of 4 apart. */
  lemma GridGap(origin: int, c: int, d: int)
    requires (c - origin) % 4 == 0 && (d - origin) % 4 == 0 && c < d
    ensures c + 4 <= d
  {
    var q, r := (c - origin) / 4, (d - origin) / 4;
    assert c - origin == 4 * q && d - origin == 4 * r;
  }

  /** A grid column scanned to its end clears everything before the next column. */
  lemma GridColumnDone(classify: (int, int) -> Biome, centerX: int, centerZ: int, radius: int,
                       allowed: seq<Biome>, xx: int)
    requires (xx - (centerX - radius)) % 4 == 0
    requires GridClearBefore(classify, centerX, centerZ, radius, allowed, xx, centerZ + radius + 1)
    ensures GridClearBefore(classify, centerX, centerZ, radius, allowed, xx + 4, centerZ - radius)
  {
    forall a, b | OnGrid(centerX, centerZ, radius, a, b) && a < xx + 4
      ensures classify(a, b) in allowed
    {
      if xx < a {
        GridGap(centerX - radius, xx, a);
      }
    }
  }

  /** The inner loop of the grid scan: column xx, zz in steps of 4 across the square. */
  method ScanGridColumn(classify: (int, int) -> Biome, centerX: int, centerZ: int, radius: int,
                        allowed: seq<Biome>, xx: int)
    returns (ok: bool)
    requires centerX - radius <= xx <= centerX + radius && (xx - (centerX - radius)) % 4 == 0
    requires GridClearBefore(classify, centerX, centerZ, radius, allowed, xx, centerZ - radius)
    ensures ok ==> GridClearBefore(classify, centerX, centerZ, radius, allowed, xx, centerZ + radius + 1)
    ensures !ok ==> exists b :: OnGrid(centerX, centerZ, radius, xx, b) && classify(xx, b) !in allowed
  {
    var zz := centerZ - radius;
    while zz <= centerZ + radius
      invariant zz >= centerZ - radius && (zz - (centerZ - radius)) % 4 == 0
      invariant GridClearBefore(classify, centerX, centerZ, radius, allowed, xx, zz)
    {
      if classify(xx, zz) !in allowed {
        assert OnGrid(centerX, centerZ, radius, xx, zz);
        return false;
      }
      forall a, b | OnGrid(centerX, centerZ, radius, a, b) && a == xx && zz < b < zz + 4
        ensures false
      {
        GridGap(centerZ - radius, zz, b);
      }
      zz := zz + 4;
    }
    return true;
  }

  /** The grid scan of `areBiomesViable` for any classifier. */
  method ScanGrid(classify: (int, int) -> Biome, centerX: int, centerZ: int, radius: int, allowed: seq<Biome>)
    returns (viable: bool)
    ensures viable <==> forall a, b :: OnGrid(centerX, centerZ, radius, a, b) ==> classify(a, b) in allowed
  {
    var xx := centerX - radius;
    while xx <= centerX + radius
      invariant xx >= centerX - radius && (xx - (centerX - radius)) % 4 == 0
      invariant GridClearBefore(classify, centerX, centerZ, radius, allowed, xx, centerZ - radius)
    {
      var ok := ScanGridColumn(classify, centerX, centerZ, radius, allowed, xx);
      if !ok {
        return false;
      }
      GridColumnDone(classify, centerX, centerZ, radius, allowed, xx);
      xx := xx + 4;
    }
    return true;
  }

  /** `areBiomesViable`: true exactly when every grid point of the square is in the allowed list. */
  method AreBiomesViable(p: Provider, centerX: int, centerZ: int, radius: int, allowed: seq<Biome>)
    returns (viable: bool)
    requires p.catalog.Valid()
    ensures viable <==> forall a, b :: OnGrid(centerX, centerZ, radius, a, b) ==> PickBiome(p, a, b) in allowed
  {
    viable := ScanGrid(Classifier(p), centerX, centerZ, radius, allowed);
  }

  // ~~~~~~~~~ Catalog ~~~~~~~~~

  /** An optional catalog biome as a list of zero or one element. */
  function AsList(o: Option<ExtendedBiome>): (r: seq<Biome>)
    ensures |r| <= 1 && (r != [] <==> o.Some?)
    ensures r != [] ==> r[0] == o.value && r[0].Extended?
  {
    match o
    case Some(b) => [b]
    case None => []
  }

  /** `if (b != null) list.add(b)`. */
  method AddIfPresent(list: seq<Biome>, b: Option<ExtendedBiome>, ghost base: seq<Biome>) returns (r: seq<Biome>)
    ensures r == list + AsList(b)
    ensures Within(list, base) ==> Within(r, base)
  {
    r := list;
    if b.Some? {
      r := r + [b.value];
    }
  }

  /**
   * The catalog built by the static initialiser: each band starts from its vanilla
   * list, and every optional biome that resolves is appended to its band.
   */
  method AssembleCatalog(lookup: OptionalName -> Option<ExtendedBiome>) returns (c: Catalog)
    ensures c.Valid()
    ensures c.frozen == FROZEN_BASE + AsList(lookup(Alps))
    ensures c.cold == COLD_BASE + AsList(lookup(SnowyConiferousForest)) + AsList(lookup(OminousWoods))
    ensures c.warm == WARM_BASE + AsList(lookup(Orchard)) + AsList(lookup(ConiferousForest)) +
                      AsList(lookup(BambooForest)) + AsList(lookup(CherryBlossomGrove))
    ensures c.hot == HOT_BASE + AsList(lookup(Tundra)) + AsList(lookup(LushDesert)) +
                     AsList(lookup(TropicalRainforest)) + AsList(lookup(DeadForest)) + AsList(lookup(Grove))
    ensures c.volcano == lookup(VolcanicIsland)
  {
    var frozen, cold, warm, hot := FROZEN_BASE, COLD_BASE, WARM_BASE, HOT_BASE;
    assert Within(frozen, FROZEN_BASE) && Within(cold, COLD_BASE) && Within(warm, WARM_BASE) && Within(hot, HOT_BASE);
    frozen := AddIfPresent(frozen, lookup(Alps), FROZEN_BASE);
    hot := AddIfPresent(hot, lookup(Tundra), HOT_BASE);
    warm := AddIfPresent(warm, lookup(Orchard), WARM_BASE);
    hot := AddIfPresent(hot, lookup(LushDesert), HOT_BASE);
    hot := AddIfPresent(hot, lookup(TropicalRainforest), HOT_BASE);
    warm := AddIfPresent(warm, lookup(ConiferousForest), WARM_BASE);
    cold := AddIfPresent(cold, lookup(SnowyConiferousForest), COLD_BASE);
    hot := AddIfPresent(hot, lookup(DeadForest), HOT_BASE);
    hot := AddIfPresent(hot, lookup(Grove), HOT_BASE);
    cold := AddIfPresent(cold, lookup(OminousWoods), COLD_BASE);
    warm := AddIfPresent(warm, lookup(BambooForest), WARM_BASE);
    var volcano := lookup(VolcanicIsland);
    warm := AddIfPresent(warm, lookup(CherryBlossomGrove), WARM_BASE);
    var volcanic: Option<Biome> := if volcano.Some? then Some(volcano.value) else None;
    c := Catalog(frozen, cold, warm, hot, volcanic);
  }

  /** The vanilla biomes added after the bands: stronghold biomes, then beach and the two oceans. */
  const SPAWN_EXTRAS: seq<Biome> := [Plains, Desert, ExtremeHills, Forest, Savanna, Taiga, Beach, Ocean, DeepOcean]

  /** `getBiomesToSpawnIn`: the four bands, then the vanilla stronghold, beach and ocean biomes. */
  function SpawnBiomes(c: Catalog): (r: seq<Biome>)
    ensures |r| == |c.frozen| + |c.cold| + |c.warm| + |c.hot| + 9
    ensures r[..|c.frozen|] == c.frozen
    ensures r[|r| - 9..] == SPAWN_EXTRAS
    ensures forall b :: b in r <==>
      b in c.frozen || b in c.cold || b in c.warm || b in c.hot || b in SPAWN_EXTRAS
  {
    c.frozen + c.cold + c.warm + c.hot + SPAWN_EXTRAS
  }

  /**
   * Every biome the classifier returns is a spawn biome, except the frozen ocean,
   * the cold beach and the two rare islands.
   */
  lemma ClassifiedBiomesCanSpawn(p: Provider, x: int, z: int)
    requires p.catalog.Valid()
    ensures var r := PickBiome(p, x, z);
      r in SpawnBiomes(p.catalog) || r == FrozenOcean || r == ColdBeach || r == MushroomIsland ||
      p.catalog.volcano == Some(r)
  {
    var r := PickBiome(p, x, z);
    assert Classifiable(p.catalog, r);
    var s := SpawnBiomes(p.catalog);
    if r in p.catalog.frozen || r in p.catalog.cold || r in p.catalog.warm || r in p.catalog.hot {
      assert r in s;
    }
    if r == Ocean { assert s[|s| - 2] == Ocean; }
    if r == DeepOcean { assert s[|s| - 1] == DeepOcean; }
  }
}
