/**
 * The vocabulary shared by the world generator: biomes (the vanilla ones the
 * generator names, with their registry ids, plus biomes contributed by the
 * optional Biomes O' Plenty catalog), block materials, and an Option type for
 * the lookups that may come back empty.
 */
module Biomes {

  datatype Option<+T> = None | Some(value: T)

  /** The vanilla biomes the generator refers to, and biomes of the optional catalog. */
  datatype Biome =
    | Ocean | Plains | Desert | ExtremeHills | Forest | Taiga | Swampland | River
    | FrozenOcean | IcePlains | IceMountains | MushroomIsland | Beach | Jungle
    | DeepOcean | ColdBeach | ColdTaiga | ColdTaigaHills | Savanna | Mesa
    | Extended(name: string, registryId: nat)

  /** A biome contributed by the optional catalog, never one of the vanilla biomes. */
  type ExtendedBiome = b: Biome | b.Extended? witness Extended("", 0)

  /**
   * The Biomes O' Plenty biomes the generator asks for by name (`BOP.getBOPBiome`).
   * A lookup maps each to the biome, or to None when the mod or the biome is missing.
   */
  datatype OptionalName =
    | Alps | SnowyConiferousForest | OminousWoods | Orchard | ConiferousForest | BambooForest
    | CherryBlossomGrove | Tundra | LushDesert | TropicalRainforest | DeadForest | Grove | VolcanicIsland

  /** The registry path under which each optional biome is looked up. */
  function RegistryName(n: OptionalName): (name: string)
    ensures |name| > 0
  {
    match n
    case Alps => "alps"
    case SnowyConiferousForest => "snowy_coniferous_forest"
    case OminousWoods => "ominous_woods"
    case Orchard => "orchard"
    case ConiferousForest => "coniferous_forest"
    case BambooForest => "bamboo_forest"
    case CherryBlossomGrove => "cherry_blossom_grove"
    case Tundra => "tundra"
    case LushDesert => "lush_desert"
    case TropicalRainforest => "tropical_rainforest"
    case DeadForest => "dead_forest"
    case Grove => "grove"
    case VolcanicIsland => "volcanic_island"
  }

  /** Distinct optional biomes are looked up under distinct names. */
  lemma RegistryNamesDistinct(m: OptionalName, n: OptionalName)
    ensures RegistryName(m) == RegistryName(n) ==> m == n
  {
  }

  /** `Biome.getIdForBiome`: the registry id (vanilla ids are fixed by the game). */
  function Id(b: Biome): (id: nat)
    ensures b == Ocean <==> id == 0 && !b.Extended?
    ensures b == DeepOcean <==> id == 24 && !b.Extended?
  {
    match b
    case Ocean => 0
    case Plains => 1
    case Desert => 2
    case ExtremeHills => 3
    case Forest => 4
    case Taiga => 5
    case Swampland => 6
    case River => 7
    case FrozenOcean => 10
    case IcePlains => 12
    case IceMountains => 13
    case MushroomIsland => 14
    case Beach => 16
    case Jungle => 21
    case DeepOcean => 24
    case ColdBeach => 26
    case ColdTaiga => 30
    case ColdTaigaHills => 31
    case Savanna => 35
    case Mesa => 37
    case Extended(_, id) => id
  }

  /** A block position; the biome search reports its hits at height 64. */
  datatype BlockPos = BlockPos(x: int, y: int, z: int)

  /** Block materials written into a chunk column. */
  datatype Block = Air | Bedrock | Water | Material(name: string)
}
