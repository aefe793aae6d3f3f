/**
 * The biome weight table of the configuration: a map from biome to weight,
 * read with a default of 1.0, written only for a present biome, and filled by
 * `loadConfig` with swampland and the four optional Biomes O' Plenty biomes.
 * The other settings `loadConfig` reads (world size, climate thresholds) come
 * from the configuration file and are outside the model.
 */
module BiomeConfig {
  import opened Biomes

  /** The weight of a biome that was never given one. */
  const DEFAULT_WEIGHT: real := 1.0

  /** `getOrDefault(biome, 1.0)` on a weight map. */
  function WeightIn(weights: map<Biome, real>, biome: Biome): (w: real)
    ensures biome !in weights ==> w == DEFAULT_WEIGHT
    ensures biome in weights ==> w == weights[biome]
  {
    if biome in weights then weights[biome] else DEFAULT_WEIGHT
  }

  /** The null-guarded `put`: a missing biome (null in the source) leaves the map as it is. */
  function Put(weights: map<Biome, real>, biome: Option<Biome>, weight: real): (r: map<Biome, real>)
    ensures biome.None? ==> r == weights
    ensures biome.Some? ==> r.Keys == weights.Keys + {biome.value}
  {
    if biome.Some? then weights[biome.value := weight] else weights
  }

  /** After a put, the biome reads back its new weight and every other biome reads as before. */
  lemma {:induction false} PutThenWeight(weights: map<Biome, real>, biome: Biome, weight: real, other: Biome)
    ensures WeightIn(Put(weights, Some(biome), weight), biome) == weight
    ensures other != biome ==> WeightIn(Put(weights, Some(biome), weight), other) == WeightIn(weights, other)
  {
  }

  /** A second put for the same biome overwrites the first. */
  lemma PutOverwrites(weights: map<Biome, real>, biome: Biome, first: real, second: real)
    ensures Put(Put(weights, Some(biome), first), Some(biome), second) == Put(weights, Some(biome), second)
  {
  }

  /** The biome a lookup found, as a set of at most one element. */
  function Present(found: Option<ExtendedBiome>): (r: set<Biome>)
    ensures |r| <= 1
    ensures forall b :: b in r <==> found.Some? && found.value == b
  {
    if found.Some? then {found.value} else {}
  }

  /** The weight table as `loadConfig` leaves it, given the optional-biome lookup. */
  function Registered(weights: map<Biome, real>, lookup: OptionalName -> Option<ExtendedBiome>): (r: map<Biome, real>)
    ensures Swampland in r
    ensures weights.Keys <= r.Keys
  {
    var withSwamp := Put(weights, Some(Swampland), 0.2);
    var withBamboo := Put(withSwamp, lookup(BambooForest), 0.2);
    var withLush := Put(withBamboo, lookup(LushDesert), 0.1);
    var withTundra := Put(withLush, lookup(Tundra), 0.2);
    Put(withTundra, lookup(Orchard), 0.4)
  }

  /**
   * Swampland always ends at 0.2: the optional biomes are Biomes O' Plenty
   * biomes and can never be swampland, and the orchard, put last, keeps its 0.4.
   */
  lemma LoadedWeights(weights: map<Biome, real>, lookup: OptionalName -> Option<ExtendedBiome>)
    ensures WeightIn(Registered(weights, lookup), Swampland) == 0.2
    ensures lookup(Orchard).Some? ==> WeightIn(Registered(weights, lookup), lookup(Orchard).value) == 0.4
  {
    var withSwamp := Put(weights, Some(Swampland), 0.2);
    var withBamboo := Put(withSwamp, lookup(BambooForest), 0.2);
    var withLush := Put(withBamboo, lookup(LushDesert), 0.1);
    var withTundra := Put(withLush, lookup(Tundra), 0.2);
    KeepsBaseWeight(withSwamp, lookup(BambooForest), 0.2);
    KeepsBaseWeight(withBamboo, lookup(LushDesert), 0.1);
    KeepsBaseWeight(withLush, lookup(Tundra), 0.2);
    KeepsBaseWeight(withTundra, lookup(Orchard), 0.4);
  }

  /**
   * `loadConfig` adds swampland and exactly the optional biomes that are
   * installed; with none installed only swampland changes.
   */
  lemma LoadedKeys(weights: map<Biome, real>, lookup: OptionalName -> Option<ExtendedBiome>)
    ensures Registered(weights, lookup).Keys ==
      weights.Keys + {Swampland} + Present(lookup(BambooForest)) + Present(lookup(LushDesert)) +
      Present(lookup(Tundra)) + Present(lookup(Orchard))
    ensures (lookup(BambooForest).None? && lookup(LushDesert).None? && lookup(Tundra).None? &&
             lookup(Orchard).None?) ==> Registered(weights, lookup) == weights[Swampland := 0.2]
  {
    var withSwamp := Put(weights, Some(Swampland), 0.2);
    var withBamboo := Put(withSwamp, lookup(BambooForest), 0.2);
    var withLush := Put(withBamboo, lookup(LushDesert), 0.1);
    var withTundra := Put(withLush, lookup(Tundra), 0.2);
    PutKeys(withSwamp, lookup(BambooForest), 0.2);
    PutKeys(withBamboo, lookup(LushDesert), 0.1);
    PutKeys(withLush, lookup(Tundra), 0.2);
    PutKeys(withTundra, lookup(Orchard), 0.4);
  }

  /** A put of an optional biome adds exactly the biome that was found to the keys. */
  lemma PutKeys(weights: map<Biome, real>, found: Option<ExtendedBiome>, weight: real)
    ensures Put(weights, found, weight).Keys == weights.Keys + Present(found)
  {
  }

  /** A put of a Biomes O' Plenty biome leaves the weight of every vanilla biome alone. */
  lemma KeepsBaseWeight(weights: map<Biome, real>, found: Option<ExtendedBiome>, weight: real)
    ensures forall b: Biome :: !b.Extended? ==> WeightIn(Put(weights, found, weight), b) == WeightIn(weights, b)
  {
  }

  /** The static weight table `BIOME_WEIGHTS`. */
  class WeightTable {
    var weights: map<Biome, real>

    constructor()
      ensures weights == map[]
    {
      weights := map[];
    }

    /** `getBiomeWeight`: the stored weight, 1.0 for a biome never set. */
    function GetBiomeWeight(biome: Biome): (w: real)
      reads this
      ensures biome !in weights ==> w == DEFAULT_WEIGHT
      ensures biome in weights ==> w == weights[biome]
    {
      WeightIn(weights, biome)
    }

    /** `setBiomeWeight`: a missing biome changes nothing. */
    method SetBiomeWeight(biome: Option<Biome>, weight: real)
      modifies this
      ensures weights == Put(old(weights), biome, weight)
      ensures biome.Some? ==> GetBiomeWeight(biome.value) == weight
      ensures forall other :: biome != Some(other) ==> GetBiomeWeight(other) == old(GetBiomeWeight(other))
    {
      if biome.Some? {
        weights := weights[biome.value := weight];
      }
    }

    /** The weight registrations of `loadConfig`, in the source's order. */
    method LoadConfig(lookup: OptionalName -> Option<ExtendedBiome>)
      modifies this
      ensures weights == Registered(old(weights), lookup)
      ensures GetBiomeWeight(Swampland) == 0.2
    {
      SetBiomeWeight(Some(Swampland), 0.2);
      SetBiomeWeight(lookup(BambooForest), 0.2);
      SetBiomeWeight(lookup(LushDesert), 0.1);
      SetBiomeWeight(lookup(Tundra), 0.2);
      SetBiomeWeight(lookup(Orchard), 0.4);
      LoadedWeights(old(weights), lookup);
    }
  }
}
