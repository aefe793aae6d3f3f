# NeoTerra world generation, modelled in Dafny

NeoTerra is a Minecraft 1.12 mod that replaces overworld generation with an
Earth-like planet. The planet is bounded along x by a world edge at ±10000,
with deep ocean beyond it. It has poles along z at about ±4000, with frozen
ocean beyond them. Biomes are laid out in latitude bands (hot, warm, cold,
frozen) over a fractal continent mask. Rare mushroom and volcanic islands
appear in the deep ocean.

This project models the five core classes:

- **`EarthlikeBiomeProvider`** (`earthlike_biome_provider.dfy`) is the
  per-block biome classifier. Its parts are:
  - the fractal noise, the edge and pole fades, and the ocean/beach ladder;
  - latitude banding with blending between bands;
  - variant selection within a band, and the island override;
  - the region queries (`getBiomes`, `getBiomesForGeneration`,
    `findBiomePosition`, `areBiomesViable`);
  - assembly of the biome catalog, including the optional Biomes O' Plenty
    (BOP) biomes, and the spawn-biome list.
- **`NeoTerraChunkGenerator`** (`neo_terra_chunk_generator.dfy`) builds a
  chunk in three passes:
  - a 16×16 height map from a 25-sample ocean/land blend;
  - a column pass that writes bedrock, filler, top blocks and water into the
    16×256×16 primer, turning dry-land columns below sea level into river;
  - the 256 biome-id bytes.
- **`NeoOreGenerator`** (`neo_ore_generator.dfy`):
  - parses comma-separated ore vein entries, and builds the default entry for
    every registered ore block;
  - on every fourth chunk along both axes in the overworld, picks one vein
    among those whose biome type and latitude band admit the chunk;
  - places that vein's cluster with a chance per attempt.
- **`WorldBoundaryHandler`** (`world_boundary_handler.dfy`): a player, or the
  entity the player rides, that crosses the world edge or the polar limit
  reappears 5 blocks inside the opposite side.
- **`BiomeConfig`** (`biome_config.dfy`): the biome weight table with its
  default weight of 1.0 and its `loadConfig` registrations.

Three modules are shared:

- `Biomes` (`biomes.dfy`) holds the vanilla biomes with their numeric ids, the
  BOP biomes as one `Extended` constructor, block positions and primer blocks.
- `JavaMath` (`java_math.dfy`) models Java's `(int)` cast, `MathHelper.clamp`,
  `%` on negative operands, `Math.min`, `Math.max` and `Math.abs`.
- `JavaStrings` (`java_strings.dfy`) models `String.split(",")` with its
  dropping of trailing empty strings, `trim`, `toUpperCase` on ASCII letters,
  `Integer.parseInt` with its 32-bit range, and `contains`.

These modules are written in two styles:

- **Pure code** is written as functions, with lemmas beside them. This covers
  the classifier, the height formulas, the parsing, the boundary wrap and the
  weight registrations.
- **Code that loops or mutates** is written as methods and classes:
  - the array-filling region queries, the chunk passes over `array2`/`array3`,
    the ring search, the ore scan and the cluster loops are methods with loop
    invariants. Each is proved against what specifies it: a function of
    its inputs (`FillGrid`, `GenerateHeightMap`, `GetBiomeTransitionData`,
    `DetectOres`, `LoadConfig`), or, for the ring search, the grid scan and the
    cluster loops, a predicate that states the first hit, the clear region or
    the outcome of every attempt.
  - the ore generator's `HashMap` of veins and the static weight table are
    `map` fields of the classes `NeoOreGenerator.OreGenerator` and
    `BiomeConfig.WeightTable`.

Inputs that come from outside the model are parameters:

- **Noise generators.** Simplex noise is any function with values in
  [-1, 1]. The terrain Perlin noise is any function.
- **BOP biome lookups.** Each is a function from a name to an optional BOP
  biome. The names are the datatype `Biomes.OptionalName`, one constructor per
  BOP field the code asks for. `Biomes.RegistryName` gives each one's field
  name, and distinct constructors have distinct field names.
- **`java.util.Random`.** It is two oracles indexed by a draw counter: an int
  draw below its bound, and a double draw in [0, 1).
- **`Double.parseDouble`.** It is a function that returns None on a number
  format error.
- **`HashMap` iteration order.** It is a sequence that lists the map's keys.
- **Biome dictionary types and registry keys.** These are sets and sequences.

Floating-point values are real numbers. Integer casts and remainders follow
Java's truncation toward zero.

## Model

| member | source | states |
|---|---|---|
| Biomes.Id | src/main/java/com/platuro/neoterra/worldgen/NeoTerraChunkGenerator.java:154 | Among vanilla biomes, id 0 is exactly the ocean and id 24 exactly the deep ocean, the two biomes the neighbourhood count treats as ocean |
| Biomes.RegistryName | src/main/java/com/platuro/neoterra/worldgen/EarthlikeBiomeProvider.java:132-144 | Every optional BOP biome is looked up under a non-empty registry field name |
| Biomes.RegistryNamesDistinct | src/main/java/com/platuro/neoterra/worldgen/EarthlikeBiomeProvider.java:132-144 | Distinct optional biomes are looked up under distinct names, so keying a lookup by the name loses nothing |
| JavaMath.Abs | src/main/java/com/platuro/neoterra/worldgen/EarthlikeBiomeProvider.java:330-331 | `Math.abs` is non-negative and equals the argument or its negation |
| JavaMath.MinInt | src/main/java/com/platuro/neoterra/worldgen/NeoOreGenerator.java:144 | `Math.min` is a lower bound of both arguments and equals one of them |
| JavaMath.MaxInt | src/main/java/com/platuro/neoterra/worldgen/NeoOreGenerator.java:133-135 | `Math.max` is an upper bound of both arguments and equals one of them |
| JavaMath.AbsReal | src/main/java/com/platuro/neoterra/worldgen/EarthlikeBiomeProvider.java:492 | `Math.abs` on doubles is non-negative and equals the argument or its negation |
| JavaMath.MinReal | src/main/java/com/platuro/neoterra/worldgen/NeoOreGenerator.java:177 | `Math.min` on doubles is a lower bound of both arguments and equals one of them |
| JavaMath.MaxReal | src/main/java/com/platuro/neoterra/worldgen/EarthlikeBiomeProvider.java:446 | `Math.max` on doubles is an upper bound of both arguments and equals one of them |
| JavaMath.Trunc | src/main/java/com/platuro/neoterra/worldgen/NeoTerraChunkGenerator.java:83 | The `(int)` cast rounds toward zero: the floor for non-negative values and the ceiling for non-positive ones |
| JavaMath.Clamp | src/main/java/com/platuro/neoterra/worldgen/NeoTerraChunkGenerator.java:75 | `MathHelper.clamp` stays within a non-empty range, keeps in-range values, sends values below to the lower bound and values above to the upper bound |
| JavaMath.JavaRem | src/main/java/com/platuro/neoterra/worldgen/NeoOreGenerator.java:100 | Java's `%` has magnitude below the divisor, agrees with the Euclidean remainder on non-negatives, and is never positive for a negative dividend |
| JavaMath.JavaRemByFourZero | src/main/java/com/platuro/neoterra/worldgen/NeoOreGenerator.java:100 | `c % 4 == 0` in Java holds exactly when c is a multiple of 4, for negative chunk coordinates too |
| JavaStrings.Pieces | src/main/java/com/platuro/neoterra/worldgen/NeoOreGenerator.java:48 | Cutting at commas yields at least one piece, and no piece contains a comma |
| JavaStrings.DropTrailingEmpty | src/main/java/com/platuro/neoterra/worldgen/NeoOreGenerator.java:48 | `split` drops exactly the trailing empty pieces: the result is a prefix, it ends in a non-empty piece, and everything dropped was empty |
| JavaStrings.JavaSplit | src/main/java/com/platuro/neoterra/worldgen/NeoOreGenerator.java:48 | No field produced by `split(",")` contains a comma |
| JavaStrings.PiecesOfJoin | src/main/java/com/platuro/neoterra/worldgen/NeoOreGenerator.java:48 | A comma-free piece followed by a comma is split off as the first field |
| JavaStrings.PiecesOfPlain | src/main/java/com/platuro/neoterra/worldgen/NeoOreGenerator.java:48 | A string without a comma splits into itself |
| JavaStrings.PiecesJoin | src/main/java/com/platuro/neoterra/worldgen/NeoOreGenerator.java:48 | Cutting the comma-join of comma-free fields gives back the fields |
| JavaStrings.JoinHasComma | src/main/java/com/platuro/neoterra/worldgen/NeoOreGenerator.java:88 | A join of two or more fields contains a comma |
| JavaStrings.SplitJoin | src/main/java/com/platuro/neoterra/worldgen/NeoOreGenerator.java:48 | `split(",")` inverts the comma-join of at least two comma-free fields whose last field is non-empty |
| JavaStrings.TrimStart | src/main/java/com/platuro/neoterra/worldgen/NeoOreGenerator.java:57 | Removing leading whitespace never lengthens the string, and the result starts with a character above space |
| JavaStrings.TrimEnd | src/main/java/com/platuro/neoterra/worldgen/NeoOreGenerator.java:57 | Removing trailing whitespace never lengthens the string, and the result ends with a character above space |
| JavaStrings.TrimStartIsSuffix | src/main/java/com/platuro/neoterra/worldgen/NeoOreGenerator.java:57 | Removing leading whitespace leaves a suffix of the input |
| JavaStrings.TrimEndIsPrefix | src/main/java/com/platuro/neoterra/worldgen/NeoOreGenerator.java:57 | Removing trailing whitespace leaves a prefix of the input |
| JavaStrings.Trim | src/main/java/com/platuro/neoterra/worldgen/NeoOreGenerator.java:57-69 | `trim` is no longer than its input, and the result is empty or begins and ends above space |
| JavaStrings.TrimPlain | src/main/java/com/platuro/neoterra/worldgen/NeoOreGenerator.java:57-58 | `trim` leaves a string with no whitespace or control characters unchanged |
| JavaStrings.UpperChar | src/main/java/com/platuro/neoterra/worldgen/NeoOreGenerator.java:63 | Upper-casing maps lower-case ASCII letters to upper-case letters and leaves every other character as it is |
| JavaStrings.ToUpper | src/main/java/com/platuro/neoterra/worldgen/NeoOreGenerator.java:63 | `toUpperCase` keeps the length and upper-cases character by character |
| JavaStrings.UpperCharIsCapital | src/main/java/com/platuro/neoterra/worldgen/NeoOreGenerator.java:63 | A character upper-cases to a capital letter exactly when it is that letter or its lower-case form |
| JavaStrings.UpperIsAny | src/main/java/com/platuro/neoterra/worldgen/NeoOreGenerator.java:63-65 | A field upper-cases to "ANY" exactly when it is three letters spelling any, in any letter case |
| JavaStrings.DigitValue | src/main/java/com/platuro/neoterra/worldgen/NeoOreGenerator.java:59 | A decimal digit has a value of at most 9 |
| JavaStrings.ParseInt | src/main/java/com/platuro/neoterra/worldgen/NeoOreGenerator.java:59-61 | `Integer.parseInt` succeeds exactly on an optional sign followed by one or more decimal digits whose value fits in 32 bits, and returns that value |
| JavaStrings.ParseIntToString | src/main/java/com/platuro/neoterra/worldgen/NeoOreGenerator.java:59-61 | `Integer.parseInt` reads back every 32-bit value written in decimal, negative values and `Integer.MIN_VALUE` included |
| JavaStrings.DefaultIntegers | src/main/java/com/platuro/neoterra/worldgen/NeoOreGenerator.java:88 | The integer fields of the default entry parse to 30, 5 and 60 |
| JavaStrings.Contains | src/main/java/com/platuro/neoterra/worldgen/NeoOreGenerator.java:86 | `contains` holds exactly when the pattern occurs at some index |
| JavaStrings.ContainsShift | src/main/java/com/platuro/neoterra/worldgen/NeoOreGenerator.java:86 | When the pattern is not at index 0, it occurs in the string exactly when it occurs in the string without its first character |
| EarthlikeBiomeProvider.Pow | src/main/java/com/platuro/neoterra/worldgen/EarthlikeBiomeProvider.java:519-526 | The octave amplitude, a power of the persistence, stays positive |
| EarthlikeBiomeProvider.Term | src/main/java/com/platuro/neoterra/worldgen/EarthlikeBiomeProvider.java:523-524 | One octave's contribution is bounded by that octave's amplitude |
| EarthlikeBiomeProvider.OctavesBounded | src/main/java/com/platuro/neoterra/worldgen/EarthlikeBiomeProvider.java:517-527 | The octave sum is bounded by the sum of the amplitudes, and that sum is at least 1 once there is an octave |
| EarthlikeBiomeProvider.Fractal | src/main/java/com/platuro/neoterra/worldgen/EarthlikeBiomeProvider.java:510-530 | Normalised fractal noise lies in [-1, 1] |
| EarthlikeBiomeProvider.FractalNoise | src/main/java/com/platuro/neoterra/worldgen/EarthlikeBiomeProvider.java:510-530 | The octave loop computes the fractal noise, and its value lies in [-1, 1] |
| EarthlikeBiomeProvider.FadeTo | src/main/java/com/platuro/neoterra/worldgen/EarthlikeBiomeProvider.java:532-537 | The fade reaches the target at distance 0 or less, keeps the value from the band width on, and always lies between the value and the target |
| EarthlikeBiomeProvider.FadeAlpha | src/main/java/com/platuro/neoterra/worldgen/EarthlikeBiomeProvider.java:539-543 | The fade weight lies in [0, 1]: 0 at or below the low edge, 1 at or above the high edge, and proportional to the distance from the low edge in between |
| EarthlikeBiomeProvider.SubBiomeIndex | src/main/java/com/platuro/neoterra/worldgen/EarthlikeBiomeProvider.java:422-430 | The variant index is a valid index, and it is the unique slice of [0, n) that holds the rescaled noise, with the top value mapped to the last index |
| EarthlikeBiomeProvider.SubBiomeIndexMonotone | src/main/java/com/platuro/neoterra/worldgen/EarthlikeBiomeProvider.java:422-430 | Higher noise never picks an earlier variant |
| EarthlikeBiomeProvider.PatchValue | src/main/java/com/platuro/neoterra/worldgen/EarthlikeBiomeProvider.java:423-425 | The patch noise that chooses a variant lies in [-1, 1] |
| EarthlikeBiomeProvider.PickSubBiome | src/main/java/com/platuro/neoterra/worldgen/EarthlikeBiomeProvider.java:422-430 | The chosen variant is a member of the band's list |
| EarthlikeBiomeProvider.IslandLatitude | src/main/java/com/platuro/neoterra/worldgen/EarthlikeBiomeProvider.java:437-446 | The island latitude, \|z\| over the pole limit capped at 1, lies in [0, 1] |
| EarthlikeBiomeProvider.RareChance | src/main/java/com/platuro/neoterra/worldgen/EarthlikeBiomeProvider.java:440-441 | The rarity value from the rare-island noise lies in [0, 1] |
| EarthlikeBiomeProvider.BreakUp | src/main/java/com/platuro/neoterra/worldgen/EarthlikeBiomeProvider.java:442 | The break-up noise lies in [-1, 1] |
| EarthlikeBiomeProvider.EdgeFadeFactor | src/main/java/com/platuro/neoterra/worldgen/EarthlikeBiomeProvider.java:449-453 | The edge factor is at most 1, and it is exactly 1 at least the fade band away from the world edge |
| EarthlikeBiomeProvider.IslandCandidates | src/main/java/com/platuro/neoterra/worldgen/EarthlikeBiomeProvider.java:459-469 | At most two candidates; each is the mushroom island or the BOP volcanic island |
| EarthlikeBiomeProvider.IslandRadius | src/main/java/com/platuro/neoterra/worldgen/EarthlikeBiomeProvider.java:485-487 | The island radius lies between 250 and 350 blocks |
| EarthlikeBiomeProvider.IslandIndex | src/main/java/com/platuro/neoterra/worldgen/EarthlikeBiomeProvider.java:491-492 | The candidate index is valid for the candidate list |
| EarthlikeBiomeProvider.IslandAt | src/main/java/com/platuro/neoterra/worldgen/EarthlikeBiomeProvider.java:459-494 | An island exists exactly when some candidate is admitted and the point lies within the island disc of its cell; it is then one of the candidates |
| EarthlikeBiomeProvider.IslandOverride | src/main/java/com/platuro/neoterra/worldgen/EarthlikeBiomeProvider.java:432-500 | The base biome changes exactly for deep ocean that is far enough from the edge, has a candidate and lies inside the island disc; it can only become the mushroom or volcanic island |
| EarthlikeBiomeProvider.CellOffset | src/main/java/com/platuro/neoterra/worldgen/EarthlikeBiomeProvider.java:474-484 | The offset from a cell's island centre is the position within the 1200-block cell, less 600 |
| EarthlikeBiomeProvider.IslandsStayInsideTheirCell | src/main/java/com/platuro/neoterra/worldgen/EarthlikeBiomeProvider.java:474-493 | Island blocks lie within 350 blocks of their cell centre on both axes, so islands never touch the cell border |
| EarthlikeBiomeProvider.WithinIslandOffsets | src/main/java/com/platuro/neoterra/worldgen/EarthlikeBiomeProvider.java:474-486 | A point inside its cell's island disc lies within 350 blocks of the cell centre on both axes |
| EarthlikeBiomeProvider.LatValue | src/main/java/com/platuro/neoterra/worldgen/EarthlikeBiomeProvider.java:388-391 | The noisy latitude used for banding lies in [0, 1] |
| EarthlikeBiomeProvider.BlendTwoBiomes | src/main/java/com/platuro/neoterra/worldgen/EarthlikeBiomeProvider.java:503-507 | Below half weight the biome comes from the first list, otherwise from the second |
| EarthlikeBiomeProvider.LatitudeBanding | src/main/java/com/platuro/neoterra/worldgen/EarthlikeBiomeProvider.java:386-419 | Below the warm start the biome is hot, then warm, then cold, and from the frozen start frozen: each blend below a band start still picks the lower band |
| EarthlikeBiomeProvider.RawValue | src/main/java/com/platuro/neoterra/worldgen/EarthlikeBiomeProvider.java:333-339 | The continent value plus detail and shift stays within the sum of their bounds |
| EarthlikeBiomeProvider.DynamicPole | src/main/java/com/platuro/neoterra/worldgen/EarthlikeBiomeProvider.java:350-352 | The wavy polar limit lies within ±100 blocks of 4000 |
| EarthlikeBiomeProvider.FinalValue | src/main/java/com/platuro/neoterra/worldgen/EarthlikeBiomeProvider.java:341-360 | On the world edge itself the faded value is the fade target of -0.8 |
| EarthlikeBiomeProvider.PickBiome | src/main/java/com/platuro/neoterra/worldgen/EarthlikeBiomeProvider.java:329-383 | Every classified biome is a catalog biome, an ocean, the cold beach or a rare island |
| EarthlikeBiomeProvider.BeyondWorldEdge | src/main/java/com/platuro/neoterra/worldgen/EarthlikeBiomeProvider.java:342-344 | Beyond the world edge everything is deep ocean |
| EarthlikeBiomeProvider.BeyondPolarLimit | src/main/java/com/platuro/neoterra/worldgen/EarthlikeBiomeProvider.java:349-355 | Inside the edge but beyond the wavy pole everything is frozen ocean |
| EarthlikeBiomeProvider.OnWorldEdge | src/main/java/com/platuro/neoterra/worldgen/EarthlikeBiomeProvider.java:342-371 | On the world edge the fade forces deep ocean, or frozen ocean beyond the pole |
| EarthlikeBiomeProvider.OceanLadder | src/main/java/com/platuro/neoterra/worldgen/EarthlikeBiomeProvider.java:362-383 | Below -0.4: deep ocean or a rare island. Below -0.1: ocean. Cold beach exactly at high latitude below -0.07. Otherwise the latitude-band biome |
| EarthlikeBiomeProvider.ScanColumn | src/main/java/com/platuro/neoterra/worldgen/EarthlikeBiomeProvider.java:250-258 | One column of a ring: either a perimeter point that is allowed, with every point before it in search order not allowed, or the whole column is free of allowed points |
| EarthlikeBiomeProvider.ScanRing | src/main/java/com/platuro/neoterra/worldgen/EarthlikeBiomeProvider.java:249-259 | One ring: either its first allowed point in search order, or no allowed point anywhere within the ring |
| EarthlikeBiomeProvider.RingDone | src/main/java/com/platuro/neoterra/worldgen/EarthlikeBiomeProvider.java:247-259 | A ring scanned to its end, with the rings inside it, leaves no allowed point before the first point of the next ring |
| EarthlikeBiomeProvider.FillGrid | src/main/java/com/platuro/neoterra/worldgen/EarthlikeBiomeProvider.java:286-290 | Row-major fill: cell i holds the classification of (x + i mod w, z + i div w), and the rest of the array is untouched |
| EarthlikeBiomeProvider.GetBiomesWith | src/main/java/com/platuro/neoterra/worldgen/EarthlikeBiomeProvider.java:282-292 | A large enough array is reused, otherwise a fresh one is allocated and the caller's too-short array is not written (it is outside the frame); the grid contents are the classification, and the tail of a reused array is untouched |
| EarthlikeBiomeProvider.GetBiomes | src/main/java/com/platuro/neoterra/worldgen/EarthlikeBiomeProvider.java:282-292 | `getBiomes` returns the provider's classification of the grid, reusing a large enough array and leaving a too-short one untouched |
| EarthlikeBiomeProvider.GetBiomesForGeneration | src/main/java/com/platuro/neoterra/worldgen/EarthlikeBiomeProvider.java:269-279 | `getBiomesForGeneration` fills the grid like `getBiomes`, with both coordinates of each cell multiplied by 4; a too-short array is left untouched |
| EarthlikeBiomeProvider.SearchRings | src/main/java/com/platuro/neoterra/worldgen/EarthlikeBiomeProvider.java:246-264 | A hit is allowed, within range, at y = 64, and no position visited earlier (smaller ring, or earlier on the same ring) is allowed; no hit means no allowed biome in range |
| EarthlikeBiomeProvider.FindBiomePosition | src/main/java/com/platuro/neoterra/worldgen/EarthlikeBiomeProvider.java:246-264 | `findBiomePosition` returns the first allowed position in ring order, or null when nothing in range is allowed |
| EarthlikeBiomeProvider.ScanGridColumn | src/main/java/com/platuro/neoterra/worldgen/EarthlikeBiomeProvider.java:317-323 | One grid column: false only with a grid point of that column that is not allowed; true means every grid point of the column is allowed |
| EarthlikeBiomeProvider.GridColumnDone | src/main/java/com/platuro/neoterra/worldgen/EarthlikeBiomeProvider.java:316-324 | Grid coordinates are 4 apart, so a finished column leaves every grid point before the next column checked |
| EarthlikeBiomeProvider.ScanGrid | src/main/java/com/platuro/neoterra/worldgen/EarthlikeBiomeProvider.java:315-326 | The scan answers true exactly when every sampled grid point is allowed |
| EarthlikeBiomeProvider.AreBiomesViable | src/main/java/com/platuro/neoterra/worldgen/EarthlikeBiomeProvider.java:315-326 | `areBiomesViable` holds exactly when every point of the sampled square classifies to an allowed biome |
| EarthlikeBiomeProvider.AsList | src/main/java/com/platuro/neoterra/worldgen/EarthlikeBiomeProvider.java:147-182 | An optional BOP biome contributes one element when present, and nothing otherwise |
| EarthlikeBiomeProvider.AddIfPresent | src/main/java/com/platuro/neoterra/worldgen/EarthlikeBiomeProvider.java:147-182 | A null-guarded add appends the biome when present and nothing otherwise; a band holding only its base biomes and BOP biomes keeps that property |
| EarthlikeBiomeProvider.AssembleCatalog | src/main/java/com/platuro/neoterra/worldgen/EarthlikeBiomeProvider.java:119-197 | Each band is its vanilla base list followed by exactly the installed BOP biomes in source order; the volcano is the lookup's result; the catalog is well formed |
| EarthlikeBiomeProvider.SpawnBiomes | src/main/java/com/platuro/neoterra/worldgen/EarthlikeBiomeProvider.java:295-311 | The spawn list starts with the frozen band and ends with plains, desert, extreme hills, forest, savanna, taiga, beach, ocean and deep ocean in that order; a biome is on it exactly when it is in one of the four bands or among those nine |
| EarthlikeBiomeProvider.ClassifiedBiomesCanSpawn | src/main/java/com/platuro/neoterra/worldgen/EarthlikeBiomeProvider.java:295-383 | Every biome the classifier returns is in the spawn list, except frozen ocean, cold beach and the rare islands |
| NeoTerraChunkGenerator.Neighbourhood | src/main/java/com/platuro/neoterra/worldgen/NeoTerraChunkGenerator.java:149-151 | 25 samples, 4 blocks apart, in dx-major order from -2 to 2 |
| NeoTerraChunkGenerator.NonOceanCount | src/main/java/com/platuro/neoterra/worldgen/NeoTerraChunkGenerator.java:154-156 | The non-ocean count never exceeds the number of samples |
| NeoTerraChunkGenerator.NonOceanCountExtremes | src/main/java/com/platuro/neoterra/worldgen/NeoTerraChunkGenerator.java:149-163 | The count is maximal exactly when no sample is ocean, and zero exactly when every sample is |
| NeoTerraChunkGenerator.SampleStep | src/main/java/com/platuro/neoterra/worldgen/NeoTerraChunkGenerator.java:149-159 | The n-th sample taken by the loop is the n-th neighbourhood sample, and adds exactly its own share to the count and both sums |
| NeoTerraChunkGenerator.BlendRange | src/main/java/com/platuro/neoterra/worldgen/NeoTerraChunkGenerator.java:163 | The blend lies in [0, 1]: 1 exactly for all-land neighbourhoods, 0 exactly for all-ocean ones |
| NeoTerraChunkGenerator.GetBiomeTransitionData | src/main/java/com/platuro/neoterra/worldgen/NeoTerraChunkGenerator.java:142-168 | The sampling loop returns the blend and the averaged base height and variation of the neighbourhood |
| NeoTerraChunkGenerator.Interpolation | src/main/java/com/platuro/neoterra/worldgen/NeoTerraChunkGenerator.java:138 | Interpolating with weight t in [0, 1] stays between the endpoints |
| NeoTerraChunkGenerator.EnforcedOceanDepth | src/main/java/com/platuro/neoterra/worldgen/NeoTerraChunkGenerator.java:134-139 | When the terrain noise is at most 3 (so the noisy base is at most 60), the ocean depth lies between the base and sea level - 3; whenever the base is at most 60 and the blend lies in [0, 1] it is the exact interpolation from the base towards 60 by the blend. A base above 60 is not promised anything |
| NeoTerraChunkGenerator.TransitionFactor | src/main/java/com/platuro/neoterra/worldgen/NeoTerraChunkGenerator.java:71 | The land weight lies in [0, 1] and is 0 for blends up to 0.4; for every blend the neighbourhood can produce (at most 1) it is at most 0.75, so the ocean depth always keeps at least a quarter of the weight |
| NeoTerraChunkGenerator.CellHeight | src/main/java/com/platuro/neoterra/worldgen/NeoTerraChunkGenerator.java:61-75 | The column height lies in [1, 255]; with zero land weight it is the ocean depth plus the land boost, clamped |
| NeoTerraChunkGenerator.TruncatedHeightRange | src/main/java/com/platuro/neoterra/worldgen/NeoTerraChunkGenerator.java:75-83 | The truncated height used by the column pass lies in [1, 255] |
| NeoTerraChunkGenerator.OceanNeighbourhoodsFollowOceanDepth | src/main/java/com/platuro/neoterra/worldgen/NeoTerraChunkGenerator.java:65-75 | Where at most 40% of the neighbourhood is land, the land height (terrain noise times 10 and the biome heights) does not enter: the height is the ocean depth plus the land boost, clamped. The terrain noise still enters through the ocean base |
| NeoTerraChunkGenerator.ComputeCell | src/main/java/com/platuro/neoterra/worldgen/NeoTerraChunkGenerator.java:52-76 | One height-map cell is the column height of its world position, between 1 and 255 |
| NeoTerraChunkGenerator.FillHeightRow | src/main/java/com/platuro/neoterra/worldgen/NeoTerraChunkGenerator.java:48-77 | The inner loop sets every cell of one row to its column height and leaves the other rows alone |
| NeoTerraChunkGenerator.GenerateHeightMap | src/main/java/com/platuro/neoterra/worldgen/NeoTerraChunkGenerator.java:48-78 | The first pass fills a fresh 16×16 map with each column's height |
| NeoTerraChunkGenerator.ColumnBiome | src/main/java/com/platuro/neoterra/worldgen/NeoTerraChunkGenerator.java:85-87 | A column becomes river exactly when it is river already, or lies below sea level without being ocean; otherwise its biome is kept |
| NeoTerraChunkGenerator.ColumnBiomeIdempotent | src/main/java/com/platuro/neoterra/worldgen/NeoTerraChunkGenerator.java:85-87 | Applying the river override a second time, as `generateTerrainColumn` does, changes nothing |
| NeoTerraChunkGenerator.OceanColumnsKeepBiome | src/main/java/com/platuro/neoterra/worldgen/NeoTerraChunkGenerator.java:171-173 | Ocean, deep ocean and frozen ocean (`isOceanBiome`) are never turned into river, whatever the column height |
| NeoTerraChunkGenerator.ColumnLayers | src/main/java/com/platuro/neoterra/worldgen/NeoTerraChunkGenerator.java:105-130 | Bedrock at y = 0, top block on the two highest solid layers, filler below them, water from the surface up to sea level, untouched above |
| NeoTerraChunkGenerator.GenerateTerrainColumn | src/main/java/com/platuro/neoterra/worldgen/NeoTerraChunkGenerator.java:105-130 | Writes exactly the column's layers and leaves every other column of the primer unchanged |
| NeoTerraChunkGenerator.IdByte | src/main/java/com/platuro/neoterra/worldgen/NeoTerraChunkGenerator.java:98 | The biome byte keeps the low eight bits of the id, so every id below 256 (every vanilla id) is stored unchanged |
| NeoTerraChunkGenerator.VanillaBytesDistinct | src/main/java/com/platuro/neoterra/worldgen/NeoTerraChunkGenerator.java:98 | Distinct vanilla biomes are stored as distinct bytes |
| NeoTerraChunkGenerator.ApplyHeightMap | src/main/java/com/platuro/neoterra/worldgen/NeoTerraChunkGenerator.java:81-90 | From an empty primer, every cell of the chunk ends as its column's layer for the truncated height and river-adjusted biome |
| NeoTerraChunkGenerator.BiomeBytes | src/main/java/com/platuro/neoterra/worldgen/NeoTerraChunkGenerator.java:93-99 | Byte i holds the id of the biome at (i mod 16, i div 16) of the chunk |
| NeoTerraChunkGenerator.GenerateChunk | src/main/java/com/platuro/neoterra/worldgen/NeoTerraChunkGenerator.java:40-103 | The generated chunk holds the built column in every cell, and the biome bytes of its 256 columns |
| NeoOreGenerator.RequiredBiome | src/main/java/com/platuro/neoterra/worldgen/NeoOreGenerator.java:63-65 | No biome type is required exactly when the trimmed, upper-cased field is "ANY"; otherwise the required type is that upper-cased name |
| NeoOreGenerator.ParseFields | src/main/java/com/platuro/neoterra/worldgen/NeoOreGenerator.java:57-71 | A vein is built exactly when all three integers and four doubles parse; then every vein field is its trimmed, parsed part |
| NeoOreGenerator.ParseFieldsGives | src/main/java/com/platuro/neoterra/worldgen/NeoOreGenerator.java:57-71 | Ten fields whose trimmed parts read as a vein's fields build exactly that vein |
| NeoOreGenerator.ParseEntry | src/main/java/com/platuro/neoterra/worldgen/NeoOreGenerator.java:48-71 | An entry is skipped exactly when it does not split into ten fields; otherwise it is parsed field by field |
| NeoOreGenerator.AnyBiomeAdmitsAll | src/main/java/com/platuro/neoterra/worldgen/NeoOreGenerator.java:63-65 | A vein whose biome field reads "any" in any letter case has no required type, and admits every biome |
| NeoOreGenerator.ValidBiomeMonotone | src/main/java/com/platuro/neoterra/worldgen/NeoOreGenerator.java:205-207 | `isValidBiome`: a vein with no required type admits every biome, and one valid for a biome's types stays valid when the biome carries more types |
| NeoOreGenerator.LatitudeBandInclusive | src/main/java/com/platuro/neoterra/worldgen/NeoOreGenerator.java:209-211 | `isValidLatitude` is inclusive at both bounds and rejects every latitude outside them |
| NeoOreGenerator.Load | src/main/java/com/platuro/neoterra/worldgen/NeoOreGenerator.java:46-73 | Loading never removes a vein already in the table |
| NeoOreGenerator.LoadAppend | src/main/java/com/platuro/neoterra/worldgen/NeoOreGenerator.java:46-73 | Loading two batches is loading the first, then the second if the first completed |
| NeoOreGenerator.SkippedEntryIgnored | src/main/java/com/platuro/neoterra/worldgen/NeoOreGenerator.java:52-55 | An entry with the wrong number of fields leaves the table as it was, and loading goes on with the next entry |
| NeoOreGenerator.LaterEntryReplaces | src/main/java/com/platuro/neoterra/worldgen/NeoOreGenerator.java:71 | A parsed entry after completed earlier ones stores its vein under its name, replacing any earlier vein of that name |
| NeoOreGenerator.MalformedEntryStopsLoad | src/main/java/com/platuro/neoterra/worldgen/NeoOreGenerator.java:59-69 | A number format error ends the load: everything before it is kept, nothing after it is registered |
| NeoOreGenerator.LoadKeepsNames | src/main/java/com/platuro/neoterra/worldgen/NeoOreGenerator.java:71 | Every vein in the table is stored under its own name, before and after loading |
| NeoOreGenerator.DefaultTailJoin | src/main/java/com/platuro/neoterra/worldgen/NeoOreGenerator.java:88 | The eight fixed fields, joined with commas, are exactly the fixed text at the end of the default format |
| NeoOreGenerator.DefaultEntryJoin | src/main/java/com/platuro/neoterra/worldgen/NeoOreGenerator.java:88 | The default entry is its ten fields joined with commas |
| NeoOreGenerator.DefaultEntryFields | src/main/java/com/platuro/neoterra/worldgen/NeoOreGenerator.java:88 | The default entry of a comma-free resource name splits back into exactly its ten fields |
| NeoOreGenerator.DefaultTrims | src/main/java/com/platuro/neoterra/worldgen/NeoOreGenerator.java:88 | The literal fields of the default entry are unchanged by `trim` |
| NeoOreGenerator.DefaultNamesTrim | src/main/java/com/platuro/neoterra/worldgen/NeoOreGenerator.java:88 | The block name and the "domain:path" name of a plain resource name are unchanged by `trim` |
| NeoOreGenerator.DefaultBiomeIsAny | src/main/java/com/platuro/neoterra/worldgen/NeoOreGenerator.java:88 | The default biome field "ANY" requires no biome type |
| NeoOreGenerator.DefaultTailValues | src/main/java/com/platuro/neoterra/worldgen/NeoOreGenerator.java:57-69 | The fixed fields read as size 30, y from 5 to 60, chance 0.5, any biome, latitudes 0 to 1 and density 2 |
| NeoOreGenerator.DefaultFieldsAt | src/main/java/com/platuro/neoterra/worldgen/NeoOreGenerator.java:88 | The default entry's fields are the path, the qualified name, then 30, 5, 60, 0.5, ANY, 0.0, 1.0 and 2.0 |
| NeoOreGenerator.DefaultFieldsParse | src/main/java/com/platuro/neoterra/worldgen/NeoOreGenerator.java:57-71 | The default fields parse to a vein of size 30 between y 5 and 60, chance 0.5, any biome, every latitude and density 2 |
| NeoOreGenerator.DefaultEntryRoundTrip | src/main/java/com/platuro/neoterra/worldgen/NeoOreGenerator.java:48-88 | Round trip: the entry `detectOres` writes for a registered ore reads back as that ore's default vein |
| NeoOreGenerator.DetectOres | src/main/java/com/platuro/neoterra/worldgen/NeoOreGenerator.java:79-93 | The result is `OreEntries` of the registry: one default entry per ore block, in registry order; exactly the registered blocks whose path contains "ore" and is not "lit_redstone_ore" get one, and nothing else does |
| NeoOreGenerator.OreEntriesAppend | src/main/java/com/platuro/neoterra/worldgen/NeoOreGenerator.java:82-89 | Scanning two parts of the registry in turn writes their entries in turn, so a later block's entry follows an earlier one's |
| NeoOreGenerator.OreEntriesMembers | src/main/java/com/platuro/neoterra/worldgen/NeoOreGenerator.java:82-89 | The scan writes at most one entry per block, the entry of an ore block, and one for every ore block |
| NeoOreGenerator.GetLatitude | src/main/java/com/platuro/neoterra/worldgen/NeoOreGenerator.java:175-178 | The latitude lies in [0, 1]; it is \|z\|/5000 below 5000 and 1 from there on |
| NeoOreGenerator.GenerationGrid | src/main/java/com/platuro/neoterra/worldgen/NeoOreGenerator.java:98-100 | Ores are generated exactly in the overworld, on chunks whose coordinates are both multiples of 4, negative ones included |
| NeoOreGenerator.PossibleVeins | src/main/java/com/platuro/neoterra/worldgen/NeoOreGenerator.java:109-115 | The candidate list is the eligible veins taken in iteration order (`EligibleInOrder`), so it holds only eligible veins of the table, and every one of them |
| NeoOreGenerator.EligibleInOrderMembers | src/main/java/com/platuro/neoterra/worldgen/NeoOreGenerator.java:109-115 | The ordered filter holds at most one vein per key, only eligible veins of the table, and the vein of every eligible key |
| NeoOreGenerator.PlacementChance | src/main/java/com/platuro/neoterra/worldgen/NeoOreGenerator.java:148 | The placement chance is at most 1: exactly 1 from density 10 on, and nothing for a non-positive density |
| NeoOreGenerator.PlaceColumn | src/main/java/com/platuro/neoterra/worldgen/NeoOreGenerator.java:142-154 | The innermost loop draws four values per attempt and places only the vein's block inside the cluster box, at most once per attempt (every time at full density, never at zero density) |
| NeoOreGenerator.OutcomesAppend | src/main/java/com/platuro/neoterra/worldgen/NeoOreGenerator.java:141-155 | Two runs of attempts in a row place at most their combined count of blocks, all in the cluster box, every one at density 10 or more and none at density 0 or less |
| NeoOreGenerator.PlaceLayer | src/main/java/com/platuro/neoterra/worldgen/NeoOreGenerator.java:141-155 | One width × height layer places only inside the box, with the same per-attempt bounds |
| NeoOreGenerator.GenerateOreCluster | src/main/java/com/platuro/neoterra/worldgen/NeoOreGenerator.java:125-157 | A cluster is placed exactly when maxY > minY (otherwise nothing happens). Placements lie in the box: width-wide around the chunk centre, y clamped to [minY, maxY]. There are at most length × width × height of them: all of them at density 10 or more, none at density 0 or less |
| NeoOreGenerator.OreGenerator.LoadConfig | src/main/java/com/platuro/neoterra/worldgen/NeoOreGenerator.java:37-76 | The vein table ends as the entry-by-entry load prescribes, and the result says whether a number format error ended it early |
| NeoOreGenerator.OreGenerator.GenerateOreVeins | src/main/java/com/platuro/neoterra/worldgen/NeoOreGenerator.java:105-122 | Nothing is selected exactly when no vein of the table is eligible at the chunk's biome and latitude; a selected vein is an eligible vein of the table whose cluster is placed, namely the entry of the eligible list (in iteration order) at the index of the first integer draw |
| NeoOreGenerator.OreGenerator.Generate | src/main/java/com/platuro/neoterra/worldgen/NeoOreGenerator.java:97-103 | Off the overworld or off the 4-chunk grid nothing is drawn or placed; on the grid a vein is selected exactly when some vein of the table is eligible at the chunk, and the selection is such a vein |
| WorldBoundaryHandler.PlanetWidthLimit | src/main/java/com/platuro/neoterra/worldgen/WorldBoundaryHandler.java:15 | The east/west limit lies inside the configured world width |
| WorldBoundaryHandler.PolarZLimit | src/main/java/com/platuro/neoterra/worldgen/WorldBoundaryHandler.java:16 | The polar limit is 80% of the configured height, truncated: 4h div 5 |
| WorldBoundaryHandler.FourFifthsFloor | src/main/java/com/platuro/neoterra/worldgen/WorldBoundaryHandler.java:16 | Truncating h - 0.2h gives the integer quotient of 4h by 5 |
| WorldBoundaryHandler.DefaultLimits | src/main/java/com/platuro/neoterra/worldgen/WorldBoundaryHandler.java:15-16 | With the default world size of 10000 the limits are 9800 and 8000 |
| WorldBoundaryHandler.WrapAxis | src/main/java/com/platuro/neoterra/worldgen/WorldBoundaryHandler.java:30-45 | An axis wraps exactly when it is at or past either limit: past the positive limit to 5 inside the negative one, and the reverse; otherwise it is unchanged |
| WorldBoundaryHandler.WrapLandsInside | src/main/java/com/platuro/neoterra/worldgen/WorldBoundaryHandler.java:30-45 | A wrapped coordinate lies strictly inside the band, so it does not wrap again |
| WorldBoundaryHandler.WrapCrossesSides | src/main/java/com/platuro/neoterra/worldgen/WorldBoundaryHandler.java:30-45 | Crossing the positive edge lands on the negative side, and vice versa |
| WorldBoundaryHandler.HandlePlayerTeleportation | src/main/java/com/platuro/neoterra/worldgen/WorldBoundaryHandler.java:18-51 | Nothing happens on the client. On the server the ridden entity, or else the player, is teleported exactly when an axis wraps, to the wrapped x and z at the same height |
| WorldBoundaryHandler.TeleportStaysInside | src/main/java/com/platuro/neoterra/worldgen/WorldBoundaryHandler.java:18-51 | No teleport happens exactly when the entity is strictly inside both limits; a teleport destination is strictly inside both and keeps the height |
| BiomeConfig.WeightIn | src/main/java/com/platuro/neoterra/config/BiomeConfig.java:72-74 | A biome never given a weight weighs 1.0, and any other biome weighs its stored weight |
| BiomeConfig.Put | src/main/java/com/platuro/neoterra/config/BiomeConfig.java:66-70 | A null biome leaves the table as it is; otherwise the biome joins the keys |
| BiomeConfig.PutThenWeight | src/main/java/com/platuro/neoterra/config/BiomeConfig.java:66-74 | After a put the biome reads back its new weight, and every other biome reads as before |
| BiomeConfig.PutOverwrites | src/main/java/com/platuro/neoterra/config/BiomeConfig.java:66-70 | A second put for the same biome overrides the first |
| BiomeConfig.Present | src/main/java/com/platuro/neoterra/config/BiomeConfig.java:56-59 | An optional BOP biome stands for a set of at most one biome, holding exactly the biome found |
| BiomeConfig.Registered | src/main/java/com/platuro/neoterra/config/BiomeConfig.java:55-59 | After the registrations swampland has a weight, and no earlier key is lost |
| BiomeConfig.LoadedWeights | src/main/java/com/platuro/neoterra/config/BiomeConfig.java:55-59 | Swampland ends at 0.2 whatever is installed, and an installed orchard at 0.4 |
| BiomeConfig.LoadedKeys | src/main/java/com/platuro/neoterra/config/BiomeConfig.java:55-59 | The registrations add swampland and exactly the installed BOP biomes; with none installed only swampland changes |
| BiomeConfig.PutKeys | src/main/java/com/platuro/neoterra/config/BiomeConfig.java:56-59 | A registration adds exactly the biome that was found to the table, and nothing when the lookup failed |
| BiomeConfig.KeepsBaseWeight | src/main/java/com/platuro/neoterra/config/BiomeConfig.java:56-59 | Registering a BOP biome never changes the weight of a vanilla biome |
| BiomeConfig.WeightTable.GetBiomeWeight | src/main/java/com/platuro/neoterra/config/BiomeConfig.java:72-74 | `getBiomeWeight` returns the stored weight of a biome in the table, and 1.0 for any other biome |
| BiomeConfig.WeightTable.SetBiomeWeight | src/main/java/com/platuro/neoterra/config/BiomeConfig.java:66-70 | A non-null biome reads back the new weight, every other biome keeps its weight, and a null biome changes nothing |
| BiomeConfig.WeightTable.LoadConfig | src/main/java/com/platuro/neoterra/config/BiomeConfig.java:55-59 | The table ends with the five registrations applied in order, and swampland weighs 0.2 |

## Left out

- Noise internals: `SimplexNoiseGenerator` and `NoiseGeneratorPerlin` are not part of this model. Simplex noise is any function with values in [-1, 1], and terrain noise is any function.
- Seeding of the noise generators in the provider constructor is not modelled. Each generator is a given function.
- Floating-point rounding is not modelled. `float` and `double` values are reals. Examples:
  - `0.2f` stored as a double weight is taken as exactly 0.2;
  - the `float` division in the transition data is exact.
- Integer overflow is not modelled:
  - `chunkX << 4` and `chunkX * 16`;
  - `Math.abs(Integer.MIN_VALUE)`;
  - widths and depths are taken as non-negative.
  Integer widths in the classifier are unbounded integers.
- `java.util.Random` is modelled as oracles. The model does not capture the actual sequence of draws, only the draw order and the ranges.
- The Forge configuration file is not modelled. This covers reading and saving, the defaults and ranges of `getInt`/`getFloat`, and the `Ores` string list. The entry list and the world size are parameters.
- The climate thresholds `BiomeConfig.loadConfig` reads are not modelled. The classifier uses its own constants and never reads them.
- Reflection into Biomes O' Plenty (`BOP.getBOPBiome`, and the provider's own `getBOPBiomeOptional`) is a lookup from name to optional biome. The reflective access, and its printing of missing fields, are not modelled.
- `BiomeDictionary.Type.getType` is left out. It creates a new type for an unknown name; the model keeps the upper-cased name. A biome's dictionary types are a set of names.
- `HashMap` iteration order is a parameter of `PossibleVeins`: a sequence that lists the keys.
- NeoOreGenerator.GenerateOreCluster: Java's `nextInt(maxY - minY)` throws when maxY <= minY. The model returns `completed == false` with nothing placed, instead of the exception.
- NeoOreGenerator.OreGenerator.LoadConfig: a `NumberFormatException` propagates out of `loadConfig` and skips `config.save()`. The model stops with `false` and keeps what was stored before.
- The `block != null` guard of `detectOres` is not modelled. The registry is the sequence of the keys of registered blocks, each of which has a block.
- `getOreBlock`'s fallback to stone for an unknown block name is left out. A placement records the block name.
- World side effects are left out: `setBlockState`, `Chunk` construction, skylight, `teleportEntitySafely`, sounds, particles, packets and logging.
- `onOreGen` denying vanilla ore generation, and `onWorldLoad`, are left out. They are event wiring with no computation.
- `OreVein.spawnChance` is parsed and stored but never used by the source. The model stores it too.
- Letter case and digits are ASCII only: `toUpperCase` of non-ASCII letters and `parseInt` of non-ASCII digits are not modelled.
- `trim` is modelled as removing characters at or below U+0020, as Java does.
- A Java `byte` in the biome array is stored as its unsigned bit pattern, a value from 0 to 255 (the `Byte` newtype). `(byte) (id & 0xFF)` reads back as a negative `byte` for ids from 128 up; the model keeps the bits, not the signed value.
- NeoOreGenerator.Load: its own contract states only that keys are kept. Its behaviour is stated by `LoadAppend`, `SkippedEntryIgnored`, `LaterEntryReplaces`, `MalformedEntryStopsLoad`, `LoadKeepsNames` and the `LoadConfig` method's contract.
- The column pass fills water up to sea level above every column below sea level, and gives land columns no minimum height. This follows the code rather than any description that land always rises above the sea.
