/**
 * The chunk generator: a height map from a 5x5 neighbourhood of biome samples
 * and the terrain noise, then one column of blocks per height-map cell, then the
 * chunk's biome id bytes.  Sea level is 63.
 */
module NeoTerraChunkGenerator {
  import opened Biomes
  import opened JavaMath
  import opened EarthlikeBiomeProvider

  const SEA_LEVEL: int := 63
  const CHUNK_SIZE: int := 16
  const WORLD_HEIGHT: int := 256
  /** Radius, in samples, of the neighbourhood; samples are 4 blocks apart. */
  const SAMPLE_RADIUS: int := 2
  const SAMPLE_STEP: int := 4
  const SAMPLE_COUNT: int := 25
  const TERRAIN_SCALE: real := 0.002

  /**
   * The generator's inputs.  `biomeAt` is the provider's `getBiome`; `terrain` is
   * the Perlin terrain noise, whose range is not bounded here; the four biome
   * traits are the game's per-biome properties.
   */
  datatype Generator = Generator(
    biomeAt: (int, int) -> Biome,
    terrain: (real, real) -> real,
    baseHeight: Biome -> real,
    heightVariation: Biome -> real,
    topBlock: Biome -> Block,
    fillerBlock: Biome -> Block)

  /** The generator a world gets: its biome lookup is the provider's classifier. */
  function NewGenerator(p: Provider, terrain: (real, real) -> real, baseHeight: Biome -> real,
                        heightVariation: Biome -> real, topBlock: Biome -> Block,
                        fillerBlock: Biome -> Block): (g: Generator)
    requires p.catalog.Valid()
    ensures forall a, b :: g.biomeAt(a, b) == PickBiome(p, a, b)
  {
    Generator(Classifier(p), terrain, baseHeight, heightVariation, topBlock, fillerBlock)
  }

  // ~~~~~~~~~ Biome transition data ~~~~~~~~~

  /** Only the biomes registered under ids 0 and 24 count as ocean in the neighbourhood. */
  predicate CountsAsOcean(b: Biome)
  {
    b == Ocean || b == DeepOcean
  }

  /** The 25 samples in visiting order: dx from -2 to 2, and for each dx, dz from -2 to 2. */
  function Neighbourhood(g: Generator, worldX: int, worldZ: int): (s: seq<Biome>)
    ensures |s| == SAMPLE_COUNT
    ensures forall i :: 0 <= i < SAMPLE_COUNT ==>
      s[i] == g.biomeAt(worldX + (i / 5 - SAMPLE_RADIUS) * SAMPLE_STEP, worldZ + (i % 5 - SAMPLE_RADIUS) * SAMPLE_STEP)
  {
    seq(SAMPLE_COUNT, i requires 0 <= i < SAMPLE_COUNT =>
      g.biomeAt(worldX + (i / 5 - SAMPLE_RADIUS) * SAMPLE_STEP, worldZ + (i % 5 - SAMPLE_RADIUS) * SAMPLE_STEP))
  }

  function NonOceanCount(s: seq<Biome>): (n: nat)
    ensures n <= |s|
  {
    if s == [] then 0
    else NonOceanCount(s[..|s| - 1]) + (if CountsAsOcean(s[|s| - 1]) then 0 else 1)
  }

  function Sum(f: Biome -> real, s: seq<Biome>): real
  {
    if s == [] then 0.0 else Sum(f, s[..|s| - 1]) + f(s[|s| - 1])
  }

  /** The count is the full length exactly when no sample is ocean, and zero exactly when all are. */
  lemma {:induction false} NonOceanCountExtremes(s: seq<Biome>)
    ensures NonOceanCount(s) == |s| <==> forall i :: 0 <= i < |s| ==> !CountsAsOcean(s[i])
    ensures NonOceanCount(s) == 0 <==> forall i :: 0 <= i < |s| ==> CountsAsOcean(s[i])
  {
    if s != [] {
      var init := s[..|s| - 1];
      NonOceanCountExtremes(init);
      assert forall i :: 0 <= i < |init| ==> init[i] == s[i];
    }
  }

  /** The fraction of non-ocean samples and the mean height traits of the neighbourhood. */
  datatype TransitionData = TransitionData(blend: real, avgBaseHeight: real, avgHeightVariation: real)

  function Transition(g: Generator, worldX: int, worldZ: int): TransitionData
  {
    var s := Neighbourhood(g, worldX, worldZ);
    TransitionData(NonOceanCount(s) as real / SAMPLE_COUNT as real,
                   Sum(g.baseHeight, s) / SAMPLE_COUNT as real,
                   Sum(g.heightVariation, s) / SAMPLE_COUNT as real)
  }

  /**
   * The blend lies in [0, 1]; it is 1 exactly when no sample is ocean or deep
   * ocean, so a neighbourhood of frozen ocean counts as full land, and 0 exactly
   * when every sample is ocean or deep ocean.
   */
  lemma BlendRange(g: Generator, worldX: int, worldZ: int)
    ensures var t, s := Transition(g, worldX, worldZ), Neighbourhood(g, worldX, worldZ);
      0.0 <= t.blend <= 1.0 &&
      (t.blend == 1.0 <==> forall i :: 0 <= i < SAMPLE_COUNT ==> !CountsAsOcean(s[i])) &&
      (t.blend == 0.0 <==> forall i :: 0 <= i < SAMPLE_COUNT ==> CountsAsOcean(s[i]))
  {
    NonOceanCountExtremes(Neighbourhood(g, worldX, worldZ));
  }

  /** Sample n of the neighbourhood is the one at (dx, dz), and it extends each running total by its own share. */
  lemma SampleStep(g: Generator, worldX: int, worldZ: int, dx: int, dz: int, n: int)
    requires -SAMPLE_RADIUS <= dx <= SAMPLE_RADIUS && -SAMPLE_RADIUS <= dz <= SAMPLE_RADIUS
    requires n == (dx + SAMPLE_RADIUS) * 5 + (dz + SAMPLE_RADIUS)
    ensures 0 <= n < SAMPLE_COUNT
    ensures var s := Neighbourhood(g, worldX, worldZ);
      var b := g.biomeAt(worldX + dx * SAMPLE_STEP, worldZ + dz * SAMPLE_STEP);
      s[n] == b &&
      NonOceanCount(s[..n + 1]) == NonOceanCount(s[..n]) + (if CountsAsOcean(b) then 0 else 1) &&
      Sum(g.baseHeight, s[..n + 1]) == Sum(g.baseHeight, s[..n]) + g.baseHeight(b) &&
      Sum(g.heightVariation, s[..n + 1]) == Sum(g.heightVariation, s[..n]) + g.heightVariation(b)
  {
    var s := Neighbourhood(g, worldX, worldZ);
    assert n / 5 == dx + SAMPLE_RADIUS && n % 5 == dz + SAMPLE_RADIUS;
    assert s[..n + 1][..n] == s[..n];
  }

  /** `getBiomeTransitionData`: counts and sums over the 25 samples, then divides by the sample count. */
  method GetBiomeTransitionData(g: Generator, worldX: int, worldZ: int) returns (t: TransitionData)
    ensures t == Transition(g, worldX, worldZ)
  {
    ghost var s := Neighbourhood(g, worldX, worldZ);
    var totalSamples := 0;
    var nonOceanCount := 0;
    var baseHeightSum := 0.0;
    var heightVariationSum := 0.0;
    var dx := -SAMPLE_RADIUS;
    while dx <= SAMPLE_RADIUS
      invariant -SAMPLE_RADIUS <= dx <= SAMPLE_RADIUS + 1
      invariant totalSamples == (dx + SAMPLE_RADIUS) * 5
      invariant nonOceanCount == NonOceanCount(s[..totalSamples])
      invariant baseHeightSum == Sum(g.baseHeight, s[..totalSamples])
      invariant heightVariationSum == Sum(g.heightVariation, s[..totalSamples])
    {
      var dz := -SAMPLE_RADIUS;
      while dz <= SAMPLE_RADIUS
        invariant -SAMPLE_RADIUS <= dz <= SAMPLE_RADIUS + 1
        invariant totalSamples == (dx + SAMPLE_RADIUS) * 5 + (dz + SAMPLE_RADIUS)
        invariant nonOceanCount == NonOceanCount(s[..totalSamples])
        invariant baseHeightSum == Sum(g.baseHeight, s[..totalSamples])
        invariant heightVariationSum == Sum(g.heightVariation, s[..totalSamples])
      {
        var sampleBiome := g.biomeAt(worldX + dx * SAMPLE_STEP, worldZ + dz * SAMPLE_STEP);
        SampleStep(g, worldX, worldZ, dx, dz, totalSamples);
        totalSamples := totalSamples + 1;
        if !CountsAsOcean(sampleBiome) {
          nonOceanCount := nonOceanCount + 1;
        }
        baseHeightSum := baseHeightSum + g.baseHeight(sampleBiome);
        heightVariationSum := heightVariationSum + g.heightVariation(sampleBiome);
        dz := dz + 1;
      }
      dx := dx + 1;
    }
    assert s[..totalSamples] == s;
    t := TransitionData(nonOceanCount as real / totalSamples as real,
                        baseHeightSum / totalSamples as real,
                        heightVariationSum / totalSamples as real);
  }

  // ~~~~~~~~~ Height map ~~~~~~~~~

  /** The terrain noise at a column, before scaling. */
  function TerrainSample(g: Generator, worldX: int, worldZ: int): real
  {
    g.terrain(worldX as real * TERRAIN_SCALE, worldZ as real * TERRAIN_SCALE)
  }

  /** The ocean floor base, 51 plus three times the terrain noise. */
  function OceanBase(g: Generator, worldX: int, worldZ: int): real
  {
    (SEA_LEVEL - 12) as real + TerrainSample(g, worldX, worldZ) * 3.0
  }

  /** A convex combination of lo and hi lies between them. */
  lemma Interpolation(lo: real, hi: real, t: real)
    ensures lo <= hi && 0.0 <= t <= 1.0 ==> lo <= lo + t * (hi - lo) <= hi
  {
    if lo <= hi && 0.0 <= t <= 1.0 {
      MulNonNeg(t, hi - lo);
      MulNonNeg(1.0 - t, hi - lo);
      assert hi - (lo + t * (hi - lo)) == (1.0 - t) * (hi - lo);
    }
  }

  /**
   * `getEnforcedOceanDepth`: the blend interpolates from the ocean base up to the
   * shallows at 60, clamped to that interval.  The interval is non-empty, and the
   * result inside it, whenever the terrain noise is at most 3.
   */
  function EnforcedOceanDepth(g: Generator, worldX: int, worldZ: int, blend: real): (depth: real)
    ensures var base := OceanBase(g, worldX, worldZ);
      TerrainSample(g, worldX, worldZ) <= 3.0 ==> base <= depth <= (SEA_LEVEL - 3) as real
    ensures var base := OceanBase(g, worldX, worldZ);
      base <= (SEA_LEVEL - 3) as real && 0.0 <= blend <= 1.0 ==>
      depth == base + blend * ((SEA_LEVEL - 3) as real - base)
  {
    var base := OceanBase(g, worldX, worldZ);
    var shallows := (SEA_LEVEL - 3) as real;
    var v := base + blend * (shallows - base);
    Interpolation(base, shallows, blend);
    Clamp(v, base, shallows)
  }

  /** How far the column follows the terrain rather than the ocean depth: (blend - 0.4) / 0.8 clamped to [0, 1]. */
  function TransitionFactor(blend: real): (f: real)
    ensures 0.0 <= f <= 1.0
    ensures blend <= 0.4 ==> f == 0.0
    ensures blend >= 1.2 ==> f == 1.0
    ensures blend <= 1.0 ==> f <= 0.75
  {
    Clamp((blend - 0.4) / 0.8, 0.0, 1.0)
  }

  /** The height of one column from its transition data, before truncation. */
  function CellHeight(g: Generator, worldX: int, worldZ: int, t: TransitionData): (h: real)
    ensures 1.0 <= h <= 255.0
    ensures var f := TransitionFactor(t.blend);
      var oceanDepth := EnforcedOceanDepth(g, worldX, worldZ, t.blend);
      f == 0.0 ==> h == Clamp(oceanDepth + t.blend * 5.0, 1.0, 255.0)
  {
    var fixedHeightFactor := 1.0;
    var baseNoise := TerrainSample(g, worldX, worldZ) * 10.0 * fixedHeightFactor;
    var terrainHeight := SEA_LEVEL as real + baseNoise + t.avgBaseHeight * 8.0 + t.avgHeightVariation * 4.0;
    var oceanDepth := EnforcedOceanDepth(g, worldX, worldZ, t.blend);
    var landBoost := t.blend * 5.0;
    var transitionFactor := TransitionFactor(t.blend);
    var blended := terrainHeight * transitionFactor + oceanDepth * (1.0 - transitionFactor) + landBoost;
    Clamp(blended, 1.0, 255.0)
  }

  function HeightAt(g: Generator, worldX: int, worldZ: int): real
  {
    CellHeight(g, worldX, worldZ, Transition(g, worldX, worldZ))
  }

  /** Every height-map cell, truncated to int, is a valid block height in [1, 255]. */
  lemma TruncatedHeightRange(g: Generator, worldX: int, worldZ: int)
    ensures 1 <= Trunc(HeightAt(g, worldX, worldZ)) <= 255
  {
  }

  /** A neighbourhood with at most 40% land follows the enforced ocean depth, plus the land boost. */
  lemma OceanNeighbourhoodsFollowOceanDepth(g: Generator, worldX: int, worldZ: int)
    requires Transition(g, worldX, worldZ).blend <= 0.4
    ensures var blend := Transition(g, worldX, worldZ).blend;
      HeightAt(g, worldX, worldZ) == Clamp(EnforcedOceanDepth(g, worldX, worldZ, blend) + blend * 5.0, 1.0, 255.0)
  {
  }

  /** One height-map cell: the transition data of its neighbourhood, then the height it gives. */
  method ComputeCell(g: Generator, worldX: int, worldZ: int) returns (h: real)
    ensures h == HeightAt(g, worldX, worldZ)
    ensures 1.0 <= h <= 255.0
  {
    var transitionData := GetBiomeTransitionData(g, worldX, worldZ);
    h := CellHeight(g, worldX, worldZ, transitionData);
  }

  /** The inner loop of the first pass: row x of the height map, z from 0 to 15. */
  method FillHeightRow(g: Generator, chunkX: int, chunkZ: int, heightMap: array2<real>, x: int)
    requires heightMap.Length0 == CHUNK_SIZE && heightMap.Length1 == CHUNK_SIZE && 0 <= x < CHUNK_SIZE
    modifies heightMap
    ensures forall j :: 0 <= j < CHUNK_SIZE ==>
      heightMap[x, j] == HeightAt(g, chunkX * CHUNK_SIZE + x, chunkZ * CHUNK_SIZE + j)
    ensures forall i, j :: 0 <= i < CHUNK_SIZE && 0 <= j < CHUNK_SIZE && i != x ==> heightMap[i, j] == old(heightMap[i, j])
  {
    var z := 0;
    while z < CHUNK_SIZE
      invariant 0 <= z <= CHUNK_SIZE
      invariant forall j :: 0 <= j < z ==>
        heightMap[x, j] == HeightAt(g, chunkX * CHUNK_SIZE + x, chunkZ * CHUNK_SIZE + j)
      invariant forall i, j :: 0 <= i < CHUNK_SIZE && 0 <= j < CHUNK_SIZE && i != x ==> heightMap[i, j] == old(heightMap[i, j])
    {
      var h := ComputeCell(g, chunkX * CHUNK_SIZE + x, chunkZ * CHUNK_SIZE + z);
      heightMap[x, z] := h;
      z := z + 1;
    }
  }

  /** The first pass: the 16x16 height map of a chunk. */
  method GenerateHeightMap(g: Generator, chunkX: int, chunkZ: int) returns (heightMap: array2<real>)
    ensures fresh(heightMap)
    ensures heightMap.Length0 == CHUNK_SIZE && heightMap.Length1 == CHUNK_SIZE
    ensures forall x, z :: 0 <= x < CHUNK_SIZE && 0 <= z < CHUNK_SIZE ==>
      heightMap[x, z] == HeightAt(g, chunkX * CHUNK_SIZE + x, chunkZ * CHUNK_SIZE + z)
  {
    heightMap := new real[CHUNK_SIZE, CHUNK_SIZE];
    var x := 0;
    while x < CHUNK_SIZE
      invariant 0 <= x <= CHUNK_SIZE
      invariant forall i, j :: 0 <= i < x && 0 <= j < CHUNK_SIZE ==>
        heightMap[i, j] == HeightAt(g, chunkX * CHUNK_SIZE + i, chunkZ * CHUNK_SIZE + j)
    {
      FillHeightRow(g, chunkX, chunkZ, heightMap, x);
      x := x + 1;
    }
  }

  // ~~~~~~~~~ Columns ~~~~~~~~~

  /** `isOceanBiome`: ocean, deep ocean and frozen ocean. */
  predicate IsOceanBiome(b: Biome)
  {
    b == Ocean || b == DeepOcean || b == FrozenOcean
  }

  /** Ocean, deep ocean and frozen ocean columns keep their biome at every height. */
  lemma OceanColumnsKeepBiome(height: int, b: Biome)
    ensures IsOceanBiome(b) ==> ColumnBiome(height, b) == b
  {
  }

  /** A column below sea level whose biome is not an ocean biome is built as a river. */
  function ColumnBiome(height: int, biome: Biome): (b: Biome)
    ensures b == biome || b == River
    ensures b == River <==> biome == River || (height < SEA_LEVEL && !IsOceanBiome(biome))
  {
    if height < SEA_LEVEL && !IsOceanBiome(biome) then River else biome
  }

  /** Applying the river override twice, as the chunk pass and the column pass both do, is applying it once. */
  lemma ColumnBiomeIdempotent(height: int, biome: Biome)
    ensures ColumnBiome(height, ColumnBiome(height, biome)) == ColumnBiome(height, biome)
  {
  }

  /** The block a column of the given height and biome holds at level y; `previous` is what was there. */
  function ColumnBlock(g: Generator, height: int, biome: Biome, y: int, previous: Block): Block
  {
    var b := ColumnBiome(height, biome);
    if y == 0 then Bedrock
    else if 1 <= y <= height then (if y > height - 2 then g.topBlock(b) else g.fillerBlock(b))
    else if height < y <= SEA_LEVEL then Water
    else previous
  }

  /**
   * The layers of a column of height 1 to 255: bedrock at 0, two layers of the top
   * block at the surface (one when the height is 1), filler between, water from just
   * above the surface up to sea level whatever the biome, and nothing written above
   * both the surface and sea level.
   */
  lemma ColumnLayers(g: Generator, height: int, biome: Biome, y: int, previous: Block)
    requires 1 <= height <= 255 && 0 <= y < WORLD_HEIGHT
    ensures var block, b := ColumnBlock(g, height, biome, y, previous), ColumnBiome(height, biome);
      (y == 0 ==> block == Bedrock) &&
      (1 <= y && height - 1 <= y <= height ==> block == g.topBlock(b)) &&
      (1 <= y < height - 1 ==> block == g.fillerBlock(b)) &&
      (height < y <= SEA_LEVEL ==> block == Water) &&
      (y > height && y > SEA_LEVEL ==> block == previous)
  {
  }

  /** The primer of one chunk: 16 x 256 x 16 block cells. */
  predicate IsPrimer(primer: array3<Block>)
  {
    primer.Length0 == CHUNK_SIZE && primer.Length1 == WORLD_HEIGHT && primer.Length2 == CHUNK_SIZE
  }

  /** `generateTerrainColumn`: writes bedrock, the solid layers and the water of column (x, z), nothing else. */
  method GenerateTerrainColumn(g: Generator, primer: array3<Block>, x: int, z: int, height: int, biome: Biome)
    requires IsPrimer(primer) && 0 <= x < CHUNK_SIZE && 0 <= z < CHUNK_SIZE && 1 <= height <= 255
    modifies primer
    ensures forall y :: 0 <= y < WORLD_HEIGHT ==>
      primer[x, y, z] == ColumnBlock(g, height, biome, y, old(primer[x, y, z]))
    ensures forall i, y, k :: (0 <= i < CHUNK_SIZE && 0 <= y < WORLD_HEIGHT && 0 <= k < CHUNK_SIZE &&
      (i != x || k != z)) ==> primer[i, y, k] == old(primer[i, y, k])
  {
    primer[x, 0, z] := Bedrock;
    var topBlock := g.topBlock(biome);
    var fillerBlock := g.fillerBlock(biome);
    var columnBiome := biome;
    if height < SEA_LEVEL && !IsOceanBiome(biome) {
      columnBiome := River;
      topBlock := g.topBlock(River);
      fillerBlock := g.fillerBlock(River);
    }
    var y := 1;
    while y <= height
      invariant 1 <= y <= height + 1
      invariant forall j :: 0 <= j < y ==> primer[x, j, z] == ColumnBlock(g, height, biome, j, old(primer[x, j, z]))
      invariant forall j :: y <= j < WORLD_HEIGHT ==> primer[x, j, z] == old(primer[x, j, z])
      invariant forall i, j, k :: (0 <= i < CHUNK_SIZE && 0 <= j < WORLD_HEIGHT && 0 <= k < CHUNK_SIZE &&
        (i != x || k != z)) ==> primer[i, j, k] == old(primer[i, j, k])
    {
      if y > height - 2 {
        primer[x, y, z] := topBlock;
      } else {
        primer[x, y, z] := fillerBlock;
      }
      y := y + 1;
    }
    y := height + 1;
    while y <= SEA_LEVEL
      invariant height + 1 <= y <= WORLD_HEIGHT && (height < SEA_LEVEL ==> y <= SEA_LEVEL + 1)
      invariant forall j :: 0 <= j < y ==> primer[x, j, z] == ColumnBlock(g, height, biome, j, old(primer[x, j, z]))
      invariant forall j :: y <= j < WORLD_HEIGHT ==> primer[x, j, z] == old(primer[x, j, z])
      invariant forall i, j, k :: (0 <= i < CHUNK_SIZE && 0 <= j < WORLD_HEIGHT && 0 <= k < CHUNK_SIZE &&
        (i != x || k != z)) ==> primer[i, j, k] == old(primer[i, j, k])
    {
      primer[x, y, z] := Water;
      y := y + 1;
    }
  }

  // ~~~~~~~~~ The chunk ~~~~~~~~~

  /** An unsigned byte: the bit pattern of a Java `byte`. */
  newtype Byte = n: int | 0 <= n < 256

  /** `Biome.getIdForBiome(b) & 0xFF`, the byte stored in the chunk's biome array. */
  function IdByte(b: Biome): (r: Byte)
    ensures Id(b) < 256 ==> r as int == Id(b)
    ensures !b.Extended? ==> r as int == Id(b)
    ensures (Id(b) - r as int) % 256 == 0
  {
    (Id(b) % 256) as Byte
  }

  /** The byte array tells the vanilla biomes apart: distinct vanilla biomes get distinct bytes. */
  lemma VanillaBytesDistinct(a: Biome, b: Biome)
    requires !a.Extended? && !b.Extended?
    ensures IdByte(a) == IdByte(b) ==> a == b
  {
  }

  /** The column biome before the river override. */
  function SurfaceBiome(g: Generator, chunkX: int, chunkZ: int, x: int, z: int): Biome
  {
    g.biomeAt(chunkX * CHUNK_SIZE + x, chunkZ * CHUNK_SIZE + z)
  }

  function ColumnHeight(g: Generator, chunkX: int, chunkZ: int, x: int, z: int): int
  {
    Trunc(HeightAt(g, chunkX * CHUNK_SIZE + x, chunkZ * CHUNK_SIZE + z))
  }

  /** The expected content of a cell once the first x columns, and z cells of column x, are built. */
  function BuiltCell(g: Generator, chunkX: int, chunkZ: int, i: int, y: int, k: int): Block
  {
    ColumnBlock(g, ColumnHeight(g, chunkX, chunkZ, i, k), SurfaceBiome(g, chunkX, chunkZ, i, k), y, Air)
  }

  /** The second pass: each column from its truncated height, with the river override applied first. */
  method ApplyHeightMap(g: Generator, chunkX: int, chunkZ: int, heightMap: array2<real>, primer: array3<Block>)
    requires IsPrimer(primer) && heightMap.Length0 == CHUNK_SIZE && heightMap.Length1 == CHUNK_SIZE
    requires forall x, z :: 0 <= x < CHUNK_SIZE && 0 <= z < CHUNK_SIZE ==>
      heightMap[x, z] == HeightAt(g, chunkX * CHUNK_SIZE + x, chunkZ * CHUNK_SIZE + z)
    requires forall i, y, k :: 0 <= i < CHUNK_SIZE && 0 <= y < WORLD_HEIGHT && 0 <= k < CHUNK_SIZE ==>
      primer[i, y, k] == Air
    modifies primer
    ensures forall i, y, k :: 0 <= i < CHUNK_SIZE && 0 <= y < WORLD_HEIGHT && 0 <= k < CHUNK_SIZE ==>
      primer[i, y, k] == BuiltCell(g, chunkX, chunkZ, i, y, k)
  {
    var x := 0;
    while x < CHUNK_SIZE
      invariant 0 <= x <= CHUNK_SIZE
      invariant forall i, y, k :: 0 <= i < CHUNK_SIZE && 0 <= y < WORLD_HEIGHT && 0 <= k < CHUNK_SIZE ==>
        primer[i, y, k] == if i < x then BuiltCell(g, chunkX, chunkZ, i, y, k) else Air
    {
      var z := 0;
      while z < CHUNK_SIZE
        invariant 0 <= z <= CHUNK_SIZE
        invariant forall i, y, k :: 0 <= i < CHUNK_SIZE && 0 <= y < WORLD_HEIGHT && 0 <= k < CHUNK_SIZE ==>
          primer[i, y, k] == if i < x || (i == x && k < z) then BuiltCell(g, chunkX, chunkZ, i, y, k) else Air
      {
        var finalHeight := Trunc(heightMap[x, z]);
        TruncatedHeightRange(g, chunkX * CHUNK_SIZE + x, chunkZ * CHUNK_SIZE + z);
        var biome := g.biomeAt(chunkX * CHUNK_SIZE + x, chunkZ * CHUNK_SIZE + z);
        if finalHeight < SEA_LEVEL && !IsOceanBiome(biome) {
          biome := River;
        }
        ColumnBiomeIdempotent(finalHeight, SurfaceBiome(g, chunkX, chunkZ, x, z));
        assert forall y :: ColumnBlock(g, finalHeight, biome, y, Air) == BuiltCell(g, chunkX, chunkZ, x, y, z);
        GenerateTerrainColumn(g, primer, x, z, finalHeight, biome);
        z := z + 1;
      }
      x := x + 1;
    }
  }

  /** The biome bytes of a chunk: byte i is the id of `getBiomes(...)[i]`, masked to 8 bits. */
  method BiomeBytes(g: Generator, chunkX: int, chunkZ: int) returns (biomeArray: array<Byte>)
    ensures fresh(biomeArray) && biomeArray.Length == CHUNK_SIZE * CHUNK_SIZE
    ensures forall i :: 0 <= i < biomeArray.Length ==>
      biomeArray[i] == IdByte(g.biomeAt(chunkX * CHUNK_SIZE + i % CHUNK_SIZE, chunkZ * CHUNK_SIZE + i / CHUNK_SIZE))
  {
    biomeArray := new Byte[CHUNK_SIZE * CHUNK_SIZE];
    var biomes := GetBiomesWith(g.biomeAt, null, chunkX * CHUNK_SIZE, chunkZ * CHUNK_SIZE, CHUNK_SIZE, CHUNK_SIZE);
    assert biomes.Length == biomeArray.Length;
    var i := 0;
    while i < biomeArray.Length
      invariant 0 <= i <= biomeArray.Length
      invariant forall k :: 0 <= k < biomes.Length ==>
        biomes[k] == g.biomeAt(chunkX * CHUNK_SIZE + k % CHUNK_SIZE, chunkZ * CHUNK_SIZE + k / CHUNK_SIZE)
      invariant forall k :: 0 <= k < i ==>
        biomeArray[k] == IdByte(g.biomeAt(chunkX * CHUNK_SIZE + k % CHUNK_SIZE, chunkZ * CHUNK_SIZE + k / CHUNK_SIZE))
    {
      biomeArray[i] := IdByte(biomes[i]);
      i := i + 1;
    }
  }

  /**
   * `generateChunk`, without building the game's chunk object: the primer holds each
   * column built from its truncated height and its biome, and biome byte i is the id
   * of the biome at (i % 16, i / 16) of the chunk, as `getBiomes` lays them out.
   */
  method GenerateChunk(g: Generator, chunkX: int, chunkZ: int) returns (primer: array3<Block>, biomeArray: array<Byte>)
    ensures fresh(primer) && fresh(biomeArray) && IsPrimer(primer)
    ensures forall x, y, z :: 0 <= x < CHUNK_SIZE && 0 <= y < WORLD_HEIGHT && 0 <= z < CHUNK_SIZE ==>
      primer[x, y, z] == BuiltCell(g, chunkX, chunkZ, x, y, z)
    ensures biomeArray.Length == CHUNK_SIZE * CHUNK_SIZE
    ensures forall i :: 0 <= i < biomeArray.Length ==>
      biomeArray[i] == IdByte(g.biomeAt(chunkX * CHUNK_SIZE + i % CHUNK_SIZE, chunkZ * CHUNK_SIZE + i / CHUNK_SIZE))
  {
    primer := new Block[CHUNK_SIZE, WORLD_HEIGHT, CHUNK_SIZE]((_, _, _) => Air);
    var heightMap := GenerateHeightMap(g, chunkX, chunkZ);
    ApplyHeightMap(g, chunkX, chunkZ, heightMap, primer);
    biomeArray := BiomeBytes(g, chunkX, chunkZ);
  }
}
