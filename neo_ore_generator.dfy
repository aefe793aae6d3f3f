/**
 * The ore generator: ore vein definitions read from comma-separated config
 * entries, a default entry per registered ore block, and one vein cluster placed
 * every fourth chunk on both axes in the overworld, chosen among the veins whose
 * biome type and latitude band admit the chunk.
 */
module NeoOreGenerator {
  import opened Biomes
  import opened JavaMath
  import opened JavaStrings

  const MAX_PLANET_WIDTH: int := 10000
  const FIELD_COUNT: int := 10

  /**
   * `OreVein`.  `requiredBiome` is the upper-cased biome type name, None for "ANY";
   * `spawnChance` is read from the entry and never used afterwards.
   */
  datatype OreVein = OreVein(
    oreName: string,
    blockName: string,
    veinSize: int,
    minY: int,
    maxY: int,
    spawnChance: real,
    requiredBiome: Option<string>,
    minLatitude: real,
    maxLatitude: real,
    densityMultiplier: real)
  {
    /** `isValidBiome`: every biome when no type is required, otherwise biomes carrying that type. */
    predicate IsValidBiome(biomeTypes: set<string>)
    {
      requiredBiome.None? || requiredBiome.value in biomeTypes
    }

    /** `isValidLatitude`: inclusive at both bounds. */
    predicate IsValidLatitude(latitude: real)
    {
      minLatitude <= latitude <= maxLatitude
    }
  }

  /** A vein valid for some biome types stays valid when the biome carries more types. */
  lemma ValidBiomeMonotone(v: OreVein, types: set<string>, more: set<string>)
    requires types <= more
    ensures v.IsValidBiome(types) ==> v.IsValidBiome(more)
    ensures v.requiredBiome.None? ==> v.IsValidBiome({})
  {
  }

  /** The latitude band includes both of its bounds, and nothing outside them. */
  lemma LatitudeBandInclusive(v: OreVein, latitude: real)
    requires v.minLatitude <= v.maxLatitude
    ensures v.IsValidLatitude(v.minLatitude) && v.IsValidLatitude(v.maxLatitude)
    ensures latitude < v.minLatitude || latitude > v.maxLatitude ==> !v.IsValidLatitude(latitude)
  {
  }

  // ~~~~~~~~~ Config entries ~~~~~~~~~

  /** The outcome of one entry: skipped for a wrong field count, a number format error, or a vein. */
  datatype EntryResult = Skipped | Malformed | Parsed(vein: OreVein)

  /** The biome type field: "ANY" in any letter case means no required type. */
  function RequiredBiome(field: string): (r: Option<string>)
    ensures r.None? <==> ToUpper(Trim(field)) == "ANY"
    ensures r.Some? ==> r.value == ToUpper(Trim(field))
  {
    var upper := ToUpper(Trim(field));
    if upper == "ANY" then None else Some(upper)
  }

  /**
   * The ten trimmed fields of an entry.  `parseDouble` stands for `Double.parseDouble`,
   * None for a number format error; any number format error makes the entry Malformed.
   */
  function ParseFields(parts: seq<string>, parseDouble: string -> Option<real>): (r: EntryResult)
    requires |parts| == FIELD_COUNT
    ensures r.Parsed? <==>
      (ParseInt(Trim(parts[2])).Some? && ParseInt(Trim(parts[3])).Some? &&
       ParseInt(Trim(parts[4])).Some? && parseDouble(Trim(parts[5])).Some? && parseDouble(Trim(parts[7])).Some? &&
       parseDouble(Trim(parts[8])).Some? && parseDouble(Trim(parts[9])).Some?)
    ensures r.Parsed? ==>
      r.vein.oreName == Trim(parts[0]) && r.vein.blockName == Trim(parts[1]) &&
      r.vein.requiredBiome == RequiredBiome(parts[6]) &&
      ParseInt(Trim(parts[2])) == Some(r.vein.veinSize) &&
      ParseInt(Trim(parts[3])) == Some(r.vein.minY) &&
      ParseInt(Trim(parts[4])) == Some(r.vein.maxY) &&
      parseDouble(Trim(parts[5])) == Some(r.vein.spawnChance) &&
      parseDouble(Trim(parts[7])) == Some(r.vein.minLatitude) &&
      parseDouble(Trim(parts[8])) == Some(r.vein.maxLatitude) &&
      parseDouble(Trim(parts[9])) == Some(r.vein.densityMultiplier)
  {
    var veinSize := ParseInt(Trim(parts[2]));
    var minY := ParseInt(Trim(parts[3]));
    var maxY := ParseInt(Trim(parts[4]));
    var spawnChance := parseDouble(Trim(parts[5]));
    var minLatitude := parseDouble(Trim(parts[7]));
    var maxLatitude := parseDouble(Trim(parts[8]));
    var densityMultiplier := parseDouble(Trim(parts[9]));
    if veinSize.None? || minY.None? || maxY.None? || spawnChance.None? ||
       minLatitude.None? || maxLatitude.None? || densityMultiplier.None?
    then Malformed
    else Parsed(OreVein(Trim(parts[0]), Trim(parts[1]), veinSize.value, minY.value, maxY.value,
                        spawnChance.value, RequiredBiome(parts[6]), minLatitude.value, maxLatitude.value,
                        densityMultiplier.value))
  }

  /** One config entry: skipped unless it splits into exactly ten fields. */
  function ParseEntry(entry: string, parseDouble: string -> Option<real>): (r: EntryResult)
    ensures r.Skipped? <==> |JavaSplit(entry)| != FIELD_COUNT
    ensures !r.Skipped? ==> r == ParseFields(JavaSplit(entry), parseDouble)
  {
    var parts := JavaSplit(entry);
    if |parts| != FIELD_COUNT then Skipped else ParseFields(parts, parseDouble)
  }

  /** The entry reader of `loadConfig` with a given `Double.parseDouble`. */
  function EntryParser(parseDouble: string -> Option<real>): (parse: string -> EntryResult)
    ensures forall e :: parse(e) == ParseEntry(e, parseDouble)
  {
    e => ParseEntry(e, parseDouble)
  }

  /** A vein whose biome field reads "ANY" in any letter case is valid in every biome. */
  lemma AnyBiomeAdmitsAll(entry: string, parseDouble: string -> Option<real>, biomeTypes: set<string>)
    requires ParseEntry(entry, parseDouble).Parsed?
    requires var f := Trim(JavaSplit(entry)[6]);
      |f| == 3 && (f[0] == 'a' || f[0] == 'A') && (f[1] == 'n' || f[1] == 'N') && (f[2] == 'y' || f[2] == 'Y')
    ensures ParseEntry(entry, parseDouble).vein.requiredBiome.None?
    ensures ParseEntry(entry, parseDouble).vein.IsValidBiome(biomeTypes)
  {
    UpperIsAny(Trim(JavaSplit(entry)[6]));
  }

  /**
   * The effect of `loadConfig`'s loop on the vein table, for an entry reader
   * `parse`: entries are applied in order, each vein stored under its name; the
   * first number format error ends the load (false), keeping what was stored before it.
   */
  function Load(veins: map<string, OreVein>, entries: seq<string>, parse: string -> EntryResult)
    : (r: (map<string, OreVein>, bool))
    ensures veins.Keys <= r.0.Keys
    decreases |entries|
  {
    if entries == [] then (veins, true)
    else match parse(entries[0])
      case Skipped => Load(veins, entries[1..], parse)
      case Malformed => (veins, false)
      case Parsed(v) => Load(veins[v.oreName := v], entries[1..], parse)
  }

  /**
   * An entry that does not split into ten fields is passed over: the table is left
   * as it was and loading goes on with the next entry.
   */
  lemma SkippedEntryIgnored(veins: map<string, OreVein>, earlier: seq<string>, entry: string, later: seq<string>,
                            parse: string -> EntryResult)
    requires Load(veins, earlier, parse).1 && parse(entry).Skipped?
    ensures Load(veins, earlier + [entry] + later, parse) == Load(Load(veins, earlier, parse).0, later, parse)
  {
    var rest := [entry] + later;
    assert earlier + [entry] + later == earlier + rest;
    LoadAppend(veins, earlier, rest, parse);
    var mid := Load(veins, earlier, parse).0;
    assert rest != [] && rest[0] == entry && rest[1..] == later;
    assert Load(mid, rest, parse) == Load(mid, later, parse);
  }

  /** Loading two batches is loading the first, then the second if the first completed. */
  lemma {:induction false} LoadAppend(veins: map<string, OreVein>, a: seq<string>, b: seq<string>,
                                      parse: string -> EntryResult)
    ensures Load(veins, a + b, parse) ==
      (var first := Load(veins, a, parse);
       if first.1 then Load(first.0, b, parse) else first)
    decreases |a|
  {
    if a != [] {
      assert (a + b)[0] == a[0] && (a + b)[1..] == a[1..] + b;
      match parse(a[0])
      case Skipped => LoadAppend(veins, a[1..], b, parse);
      case Malformed =>
      case Parsed(v) => LoadAppend(veins[v.oreName := v], a[1..], b, parse);
    } else {
      assert a + b == b;
    }
  }

  /** Veins are keyed by name: an entry loaded after earlier ones replaces any vein of the same name. */
  lemma LaterEntryReplaces(veins: map<string, OreVein>, earlier: seq<string>, entry: string,
                           parse: string -> EntryResult)
    requires Load(veins, earlier, parse).1
    requires parse(entry).Parsed?
    ensures var v := parse(entry).vein;
      Load(veins, earlier + [entry], parse) == (Load(veins, earlier, parse).0[v.oreName := v], true)
  {
    LoadAppend(veins, earlier, [entry], parse);
    assert [entry][1..] == [];
  }

  /** A number format error stops the load: nothing after it is registered, nothing before it is lost. */
  lemma MalformedEntryStopsLoad(veins: map<string, OreVein>, earlier: seq<string>, entry: string,
                                later: seq<string>, parse: string -> EntryResult)
    requires Load(veins, earlier, parse).1
    requires parse(entry).Malformed?
    ensures Load(veins, earlier + [entry] + later, parse) == (Load(veins, earlier, parse).0, false)
  {
    assert earlier + [entry] + later == earlier + ([entry] + later);
    LoadAppend(veins, earlier, [entry] + later, parse);
  }

  /** Every vein is stored under its own name. */
  predicate NamedByKey(veins: map<string, OreVein>)
  {
    forall k :: k in veins ==> veins[k].oreName == k
  }

  /** Every vein in the table is stored under its own name, and loading keeps it so. */
  lemma {:induction false} LoadKeepsNames(veins: map<string, OreVein>, entries: seq<string>,
                                          parse: string -> EntryResult)
    requires NamedByKey(veins)
    ensures NamedByKey(Load(veins, entries, parse).0)
    decreases |entries|
  {
    if entries != [] {
      match parse(entries[0])
      case Skipped => LoadKeepsNames(veins, entries[1..], parse);
      case Malformed =>
      case Parsed(v) => LoadKeepsNames(veins[v.oreName := v], entries[1..], parse);
    }
  }

  // ~~~~~~~~~ Default entries ~~~~~~~~~

  /** A registry key: the mod id (domain) and the block's resource path. */
  datatype ResourceName = ResourceName(domain: string, path: string)

  /** `detectOres` emits an entry for block paths containing "ore", except "lit_redstone_ore". */
  predicate IsOreName(path: string)
  {
    Contains(path, "ore") && path != "lit_redstone_ore"
  }

  /** The fixed fields that end the default entry's format: size 30, y from 5 to 60, any biome, latitudes 0 to 1, density 2. */
  const DEFAULT_FIXED: string := "30,5,60,0.5,ANY,0.0,1.0,2.0"

  /** The default entry of an ore block, `"%s,%s:%s,"` with path, domain and path, then the fixed fields. */
  function DefaultEntry(r: ResourceName): string
  {
    r.path + "," + r.domain + ":" + r.path + "," + DEFAULT_FIXED
  }

  /** The eight fixed fields of a default entry, from the cluster size to the density. */
  const DEFAULT_TAIL: seq<string> := ["30", "5", "60", "0.5", "ANY", "0.0", "1.0", "2.0"]

  function DefaultFields(r: ResourceName): seq<string>
  {
    [r.path, r.domain + ":" + r.path] + DEFAULT_TAIL
  }

  // The fixed fields joined back one at a time, from the last to the first.

  lemma TailJoin7()
    ensures Join(["1.0", "2.0"]) == "1.0,2.0"
  {
    JoinCons("1.0", ["2.0"], "2.0");
  }

  lemma TailJoin6()
    ensures Join(["0.0", "1.0", "2.0"]) == "0.0,1.0,2.0"
  {
    TailJoin7();
    JoinCons("0.0", ["1.0", "2.0"], "1.0,2.0");
  }

  lemma TailJoin5()
    ensures Join(["ANY", "0.0", "1.0", "2.0"]) == "ANY,0.0,1.0,2.0"
  {
    TailJoin6();
    JoinCons("ANY", ["0.0", "1.0", "2.0"], "0.0,1.0,2.0");
  }

  lemma TailJoin4()
    ensures Join(["0.5", "ANY", "0.0", "1.0", "2.0"]) == "0.5,ANY,0.0,1.0,2.0"
  {
    TailJoin5();
    JoinCons("0.5", ["ANY", "0.0", "1.0", "2.0"], "ANY,0.0,1.0,2.0");
  }

  lemma TailJoin3()
    ensures Join(["60", "0.5", "ANY", "0.0", "1.0", "2.0"]) == "60,0.5,ANY,0.0,1.0,2.0"
  {
    TailJoin4();
    JoinCons("60", ["0.5", "ANY", "0.0", "1.0", "2.0"], "0.5,ANY,0.0,1.0,2.0");
  }

  lemma TailJoin2()
    ensures Join(["5", "60", "0.5", "ANY", "0.0", "1.0", "2.0"]) == "5,60,0.5,ANY,0.0,1.0,2.0"
  {
    TailJoin3();
    JoinCons("5", ["60", "0.5", "ANY", "0.0", "1.0", "2.0"], "60,0.5,ANY,0.0,1.0,2.0");
  }

  lemma TailJoin1()
    ensures Join(["30", "5", "60", "0.5", "ANY", "0.0", "1.0", "2.0"]) == "30,5,60,0.5,ANY,0.0,1.0,2.0"
  {
    TailJoin2();
    JoinCons("30", ["5", "60", "0.5", "ANY", "0.0", "1.0", "2.0"], "5,60,0.5,ANY,0.0,1.0,2.0");
  }

  /** The fixed fields, joined, are exactly the fixed end of the format. */
  lemma DefaultTailJoin()
    ensures Join(DEFAULT_TAIL) == DEFAULT_FIXED
  {
    TailJoin1();
  }

  /** The default entry is its ten fields joined with commas. */
  lemma DefaultEntryJoin(r: ResourceName)
    ensures Join(DefaultFields(r)) == DefaultEntry(r)
  {
    var f := DefaultFields(r);
    var dp := r.domain + ":" + r.path;
    DefaultTailJoin();
    assert f[1..] == [dp] + DEFAULT_TAIL && f == [r.path] + f[1..];
    JoinCons(dp, DEFAULT_TAIL, Join(DEFAULT_TAIL));
    JoinCons(r.path, f[1..], dp + "," + Join(DEFAULT_TAIL));
  }

  /** No fixed field holds a comma, and the last one is not empty. */
  lemma DefaultTailCommaFree()
    ensures forall i :: 0 <= i < |DEFAULT_TAIL| ==> ',' !in DEFAULT_TAIL[i]
    ensures DEFAULT_TAIL[|DEFAULT_TAIL| - 1] != ""
  {
  }

  /** With comma-free names the default entry splits into exactly the ten intended fields. */
  lemma DefaultEntryFields(r: ResourceName)
    requires ',' !in r.path && ',' !in r.domain
    ensures JavaSplit(DefaultEntry(r)) == DefaultFields(r)
    ensures |JavaSplit(DefaultEntry(r))| == FIELD_COUNT
  {
    var f := DefaultFields(r);
    DefaultEntryJoin(r);
    DefaultTailCommaFree();
    assert ',' !in r.domain + ":" + r.path;
    assert forall i :: 2 <= i < |f| ==> f[i] == DEFAULT_TAIL[i - 2];
    SplitJoin(f);
  }

  /** Names a registry can hold: no comma and no character at or below the space. */
  predicate PlainName(s: string)
  {
    forall i :: 0 <= i < |s| ==> s[i] != ',' && s[i] > ' '
  }

  /** The numeric and biome fields of the default entry carry no blanks. */
  lemma DefaultTrims()
    ensures Trim("30") == "30" && Trim("5") == "5" && Trim("60") == "60" && Trim("0.5") == "0.5"
    ensures Trim("ANY") == "ANY" && Trim("0.0") == "0.0" && Trim("1.0") == "1.0" && Trim("2.0") == "2.0"
  {
  }

  /** Registry names carry no blanks, so `trim` keeps both name fields of the default entry. */
  lemma DefaultNamesTrim(r: ResourceName)
    requires PlainName(r.path) && PlainName(r.domain)
    ensures Trim(r.path) == r.path && Trim(r.domain + ":" + r.path) == r.domain + ":" + r.path
  {
    TrimPlain(r.path);
    var block := r.domain + ":" + r.path;
    assert forall i :: 0 <= i < |block| ==> block[i] > ' ' by {
      forall i | 0 <= i < |block|
        ensures block[i] > ' '
      {
        if i < |r.domain| {
          assert block[i] == r.domain[i];
        } else if i > |r.domain| {
          assert block[i] == r.path[i - |r.domain| - 1];
        }
      }
    }
    TrimPlain(block);
  }

  /** The biome field of the default entry asks for no biome type. */
  lemma DefaultBiomeIsAny()
    ensures RequiredBiome("ANY") == None
  {
    UpperIsAny("ANY");
  }

  /** The eight fixed fields read as size 30, y from 5 to 60, chance 0.5, any biome, latitudes 0 to 1 and density 2. */
  lemma DefaultTailValues(parseDouble: string -> Option<real>)
    requires parseDouble("0.5") == Some(0.5) && parseDouble("0.0") == Some(0.0)
    requires parseDouble("1.0") == Some(1.0) && parseDouble("2.0") == Some(2.0)
    ensures ParseInt(Trim("30")) == Some(30) && ParseInt(Trim("5")) == Some(5) && ParseInt(Trim("60")) == Some(60)
    ensures parseDouble(Trim("0.5")) == Some(0.5) && RequiredBiome("ANY") == None
    ensures parseDouble(Trim("0.0")) == Some(0.0) && parseDouble(Trim("1.0")) == Some(1.0)
    ensures parseDouble(Trim("2.0")) == Some(2.0)
  {
    DefaultTrims();
    DefaultIntegers();
    DefaultBiomeIsAny();
  }

  /** Ten fields whose trimmed parts read as the fields of a vein parse to that vein. */
  lemma ParseFieldsGives(parts: seq<string>, parseDouble: string -> Option<real>, v: OreVein)
    requires |parts| == FIELD_COUNT
    requires Trim(parts[0]) == v.oreName && Trim(parts[1]) == v.blockName && RequiredBiome(parts[6]) == v.requiredBiome
    requires ParseInt(Trim(parts[2])) == Some(v.veinSize) && ParseInt(Trim(parts[3])) == Some(v.minY)
    requires ParseInt(Trim(parts[4])) == Some(v.maxY) && parseDouble(Trim(parts[5])) == Some(v.spawnChance)
    requires parseDouble(Trim(parts[7])) == Some(v.minLatitude) && parseDouble(Trim(parts[8])) == Some(v.maxLatitude)
    requires parseDouble(Trim(parts[9])) == Some(v.densityMultiplier)
    ensures ParseFields(parts, parseDouble) == Parsed(v)
  {
  }

  /** The default fields one by one: the two names, then the eight fixed fields. */
  lemma DefaultFieldsAt(r: ResourceName)
    ensures var f := DefaultFields(r);
      |f| == FIELD_COUNT && f[0] == r.path && f[1] == r.domain + ":" + r.path &&
      f[2] == "30" && f[3] == "5" && f[4] == "60" && f[5] == "0.5" &&
      f[6] == "ANY" && f[7] == "0.0" && f[8] == "1.0" && f[9] == "2.0"
  {
  }

  /** The ten default fields read back as the default vein. */
  lemma DefaultFieldsParse(r: ResourceName, parseDouble: string -> Option<real>)
    requires PlainName(r.path) && PlainName(r.domain)
    requires parseDouble("0.5") == Some(0.5) && parseDouble("0.0") == Some(0.0)
    requires parseDouble("1.0") == Some(1.0) && parseDouble("2.0") == Some(2.0)
    ensures ParseFields(DefaultFields(r), parseDouble) ==
      Parsed(OreVein(r.path, r.domain + ":" + r.path, 30, 5, 60, 0.5, None, 0.0, 1.0, 2.0))
  {
    var f := DefaultFields(r);
    DefaultNamesTrim(r);
    DefaultTailValues(parseDouble);
    DefaultFieldsAt(r);
    ParseFieldsGives(f, parseDouble, OreVein(r.path, r.domain + ":" + r.path, 30, 5, 60, 0.5, None, 0.0, 1.0, 2.0));
  }

  /**
   * The default entry of an ore block loads back as the intended vein, provided
   * `Double.parseDouble` reads the four decimal fields as their values.
   */
  lemma DefaultEntryRoundTrip(r: ResourceName, parseDouble: string -> Option<real>)
    requires PlainName(r.path) && PlainName(r.domain)
    requires parseDouble("0.5") == Some(0.5) && parseDouble("0.0") == Some(0.0)
    requires parseDouble("1.0") == Some(1.0) && parseDouble("2.0") == Some(2.0)
    ensures ParseEntry(DefaultEntry(r), parseDouble) ==
      Parsed(OreVein(r.path, r.domain + ":" + r.path, 30, 5, 60, 0.5, None, 0.0, 1.0, 2.0))
  {
    DefaultEntryFields(r);
    DefaultFieldsParse(r, parseDouble);
  }

  /** The entries `detectOres` writes: one default entry per ore block, in registry order. */
  function OreEntries(registry: seq<ResourceName>): seq<string>
  {
    if registry == [] then []
    else
      var last := registry[|registry| - 1];
      OreEntries(registry[..|registry| - 1]) + (if IsOreName(last.path) then [DefaultEntry(last)] else [])
  }

  /** Scanning two parts of the registry one after the other writes their entries one after the other. */
  lemma {:induction false} OreEntriesAppend(a: seq<ResourceName>, b: seq<ResourceName>)
    ensures OreEntries(a + b) == OreEntries(a) + OreEntries(b)
    decreases |b|
  {
    if b == [] {
      assert a + b == a;
    } else {
      var b' := b[..|b| - 1];
      assert (a + b)[..|a + b| - 1] == a + b';
      OreEntriesAppend(a, b');
    }
  }

  /** There are exactly as many entries as ore blocks, and each is the entry of an ore block. */
  lemma {:induction false} OreEntriesMembers(registry: seq<ResourceName>)
    ensures |OreEntries(registry)| <= |registry|
    ensures forall e :: e in OreEntries(registry) ==> exists b :: b in registry && IsOreName(b.path) && e == DefaultEntry(b)
    ensures forall b :: b in registry && IsOreName(b.path) ==> DefaultEntry(b) in OreEntries(registry)
  {
    if registry != [] {
      var init := registry[..|registry| - 1];
      var last := registry[|registry| - 1];
      OreEntriesMembers(init);
      assert registry == init + [last];
      forall e | e in OreEntries(registry)
        ensures exists b :: b in registry && IsOreName(b.path) && e == DefaultEntry(b)
      {
        if e in OreEntries(init) {
          var b :| b in init && IsOreName(b.path) && e == DefaultEntry(b);
          assert b in registry;
        } else {
          assert last in registry;
        }
      }
    }
  }

  /** `detectOres` over the block registry: the entries of `OreEntries`, built by one scan. */
  method DetectOres(registry: seq<ResourceName>) returns (entries: seq<string>)
    ensures entries == OreEntries(registry)
    ensures |entries| <= |registry|
    ensures forall e :: e in entries ==> exists b :: b in registry && IsOreName(b.path) && e == DefaultEntry(b)
    ensures forall b :: b in registry && IsOreName(b.path) ==> DefaultEntry(b) in entries
  {
    entries := [];
    var n := 0;
    while n < |registry|
      invariant 0 <= n <= |registry|
      invariant entries == OreEntries(registry[..n])
    {
      var blockName := registry[n].path;
      if Contains(blockName, "ore") && blockName != "lit_redstone_ore" {
        entries := entries + [DefaultEntry(registry[n])];
      }
      assert registry[..n + 1][..n] == registry[..n];
      n := n + 1;
    }
    assert registry[..n] == registry;
    OreEntriesMembers(registry);
  }

  // ~~~~~~~~~ Chunk gating and vein choice ~~~~~~~~~

  /** `getLatitude`: |z| / 5000, capped at 1. */
  function GetLatitude(z: int): (lat: real)
    ensures 0.0 <= lat <= 1.0
    ensures Abs(z) >= MAX_PLANET_WIDTH / 2 ==> lat == 1.0
    ensures Abs(z) < MAX_PLANET_WIDTH / 2 ==> lat * 5000.0 == Abs(z) as real
  {
    var absZ := Abs(z) as real;
    var ratio := absZ / (MAX_PLANET_WIDTH as real / 2.0);
    assert ratio * 5000.0 == absZ;
    MinReal(ratio, 1.0)
  }

  /** `generate` places veins only in dimension 0 and only when both Java remainders by 4 are zero. */
  predicate ShouldGenerate(dimension: int, chunkX: int, chunkZ: int)
  {
    dimension == 0 && JavaRem(chunkX, 4) == 0 && JavaRem(chunkZ, 4) == 0
  }

  /** Negative chunk coordinates included, the generating chunks are those on the multiples of 4. */
  lemma GenerationGrid(dimension: int, chunkX: int, chunkZ: int)
    ensures ShouldGenerate(dimension, chunkX, chunkZ) <==> dimension == 0 && chunkX % 4 == 0 && chunkZ % 4 == 0
  {
    JavaRemByFourZero(chunkX);
    JavaRemByFourZero(chunkZ);
  }

  predicate Eligible(v: OreVein, biomeTypes: set<string>, latitude: real)
  {
    v.IsValidBiome(biomeTypes) && v.IsValidLatitude(latitude)
  }

  /** `order` lists each key of the table exactly once: the table's iteration order. */
  ghost predicate IterationOrder(veins: map<string, OreVein>, order: seq<string>)
  {
    (forall k :: k in veins <==> k in order) &&
    (forall i, j :: 0 <= i < j < |order| ==> order[i] != order[j])
  }

  /** The veins of the keys in `order` that pass both predicates, in that order. */
  function EligibleInOrder(veins: map<string, OreVein>, order: seq<string>, biomeTypes: set<string>, latitude: real): seq<OreVein>
    requires forall k :: k in order ==> k in veins
  {
    if order == [] then []
    else
      var init := order[..|order| - 1];
      var vein := veins[order[|order| - 1]];
      EligibleInOrder(veins, init, biomeTypes, latitude) + (if Eligible(vein, biomeTypes, latitude) then [vein] else [])
  }

  /** The filter keeps at most one vein per key, only eligible veins, and the vein of every eligible key. */
  lemma {:induction false} EligibleInOrderMembers(veins: map<string, OreVein>, order: seq<string>, biomeTypes: set<string>,
                                                 latitude: real)
    requires forall k :: k in order ==> k in veins
    ensures var possible := EligibleInOrder(veins, order, biomeTypes, latitude);
      |possible| <= |order| &&
      (forall v :: v in possible ==> v in veins.Values && Eligible(v, biomeTypes, latitude)) &&
      (forall i :: 0 <= i < |order| && Eligible(veins[order[i]], biomeTypes, latitude) ==> veins[order[i]] in possible)
  {
    if order != [] {
      var init := order[..|order| - 1];
      assert forall k :: k in init ==> k in order;
      EligibleInOrderMembers(veins, init, biomeTypes, latitude);
      assert forall i :: 0 <= i < |init| ==> init[i] == order[i];
    }
  }

  /** The filter of `generateOreVeins`: exactly the veins passing both predicates, in iteration order. */
  method PossibleVeins(veins: map<string, OreVein>, order: seq<string>, biomeTypes: set<string>, latitude: real)
    returns (possible: seq<OreVein>)
    requires IterationOrder(veins, order)
    ensures possible == EligibleInOrder(veins, order, biomeTypes, latitude)
    ensures |possible| <= |order|
    ensures forall v :: v in possible ==> v in veins.Values && Eligible(v, biomeTypes, latitude)
    ensures forall k :: k in veins && Eligible(veins[k], biomeTypes, latitude) ==> veins[k] in possible
  {
    possible := [];
    var n := 0;
    while n < |order|
      invariant 0 <= n <= |order|
      invariant possible == EligibleInOrder(veins, order[..n], biomeTypes, latitude)
    {
      var vein := veins[order[n]];
      if vein.IsValidBiome(biomeTypes) && vein.IsValidLatitude(latitude) {
        possible := possible + [vein];
      }
      assert order[..n + 1][..n] == order[..n];
      n := n + 1;
    }
    assert order[..n] == order;
    EligibleInOrderMembers(veins, order, biomeTypes, latitude);
    forall k | k in veins && Eligible(veins[k], biomeTypes, latitude)
      ensures veins[k] in possible
    {
      var i :| 0 <= i < |order| && order[i] == k;
    }
  }

  // ~~~~~~~~~ Clusters ~~~~~~~~~

  /** `Random.nextInt(bound)` for draw number k: in [0, bound) for a positive bound. */
  type IntOracle = f: (nat, int) -> int | forall k: nat, bound: int :: bound > 0 ==> 0 <= f(k, bound) < bound
    witness (k: nat, bound: int) => 0

  /** `Random.nextDouble()` for draw number k: in [0, 1). */
  type DoubleOracle = f: nat -> real | forall k: nat :: 0.0 <= f(k) < 1.0 witness (k: nat) => 0.0

  /** The random source as the results of its successive draws. */
  datatype Random = Random(nextInt: IntOracle, nextDouble: DoubleOracle)

  /** A block set in the world. */
  datatype Placement = Placement(pos: BlockPos, blockName: string)

  function VeinLength(v: OreVein): int { MaxInt(12, v.veinSize) }
  function VeinWidth(v: OreVein): int { MaxInt(6, v.veinSize) }
  function VeinHeight(v: OreVein): int { MaxInt(4, v.veinSize) }

  /** The number of placement attempts of one cluster. */
  function Attempts(v: OreVein): int
  {
    VeinLength(v) * VeinWidth(v) * VeinHeight(v)
  }

  /** The box a cluster of `v` in chunk (chunkX, chunkZ) can reach: width-wide around the chunk centre, y clamped. */
  predicate InCluster(v: OreVein, chunkX: int, chunkZ: int, pos: BlockPos)
  {
    var w := VeinWidth(v);
    var lowX, lowZ := chunkX * 16 + 8 - w / 2, chunkZ * 16 + 8 - w / 2;
    lowX <= pos.x < lowX + w && lowZ <= pos.z < lowZ + w && v.minY <= pos.y <= v.maxY
  }

  /** `Math.min(1.0, density / 10.0)`. */
  function PlacementChance(v: OreVein): (c: real)
    ensures c <= 1.0
    ensures v.densityMultiplier >= 10.0 ==> c == 1.0
    ensures v.densityMultiplier <= 0.0 ==> c <= 0.0
  {
    MinReal(1.0, v.densityMultiplier / 10.0)
  }

  /** Every placement puts the vein's block inside the cluster box. */
  predicate InBox(v: OreVein, chunkX: int, chunkZ: int, placements: seq<Placement>)
  {
    forall p :: p in placements ==> p.blockName == v.blockName && InCluster(v, chunkX, chunkZ, p.pos)
  }

  /**
   * What `attempts` placement attempts can yield: at most one block each, every
   * one when the chance is 1 (density at least 10), none when it is 0.
   */
  predicate AttemptOutcome(v: OreVein, placements: seq<Placement>, attempts: int)
  {
    |placements| <= attempts &&
    (v.densityMultiplier >= 10.0 ==> |placements| == attempts) &&
    (v.densityMultiplier <= 0.0 ==> placements == [])
  }

  /** The innermost loop of `generateOreCluster`: one attempt per unit of vein height, four draws each. */
  method PlaceColumn(v: OreVein, chunkX: int, chunkZ: int, centerY: int, rng: Random, draw: nat)
    returns (placements: seq<Placement>, next: nat)
    requires v.minY < v.maxY
    ensures next == draw + 4 * VeinHeight(v)
    ensures InBox(v, chunkX, chunkZ, placements) && AttemptOutcome(v, placements, VeinHeight(v))
  {
    var minY, maxY := v.minY, v.maxY;
    var centerX, centerZ := chunkX * 16 + 8, chunkZ * 16 + 8;
    var veinWidth, veinHeight := VeinWidth(v), VeinHeight(v);
    placements := [];
    next := draw;
    var k := 0;
    while k < veinHeight
      invariant 0 <= k <= veinHeight && next == draw + 4 * k
      invariant InBox(v, chunkX, chunkZ, placements) && AttemptOutcome(v, placements, k)
    {
      var x := centerX + (rng.nextInt(next, veinWidth) - veinWidth / 2);
      var y := MaxInt(minY, MinInt(centerY + (rng.nextInt(next + 1, veinHeight) - veinHeight / 2), maxY));
      var z := centerZ + (rng.nextInt(next + 2, veinWidth) - veinWidth / 2);
      var placementChance := PlacementChance(v);
      var roll := rng.nextDouble(next + 3);
      next := next + 4;
      if roll < placementChance {
        placements := placements + [Placement(BlockPos(x, y, z), v.blockName)];
      }
      k := k + 1;
    }
  }

  /** The middle loop of `generateOreCluster`: one column per unit of vein width. */
  method PlaceLayer(v: OreVein, chunkX: int, chunkZ: int, centerY: int, rng: Random, draw: nat)
    returns (placements: seq<Placement>, next: nat)
    requires v.minY < v.maxY
    ensures next >= draw
    ensures InBox(v, chunkX, chunkZ, placements) && AttemptOutcome(v, placements, VeinWidth(v) * VeinHeight(v))
  {
    var veinWidth, veinHeight := VeinWidth(v), VeinHeight(v);
    placements := [];
    next := draw;
    var j := 0;
    ghost var attempts := 0;
    while j < veinWidth
      invariant 0 <= j <= veinWidth && next >= draw && attempts == j * veinHeight
      invariant InBox(v, chunkX, chunkZ, placements) && AttemptOutcome(v, placements, attempts)
    {
      var column;
      column, next := PlaceColumn(v, chunkX, chunkZ, centerY, rng, next);
      OutcomesAppend(v, chunkX, chunkZ, placements, attempts, column, veinHeight);
      placements := placements + column;
      attempts := attempts + veinHeight;
      j := j + 1;
    }
  }

  /** Two runs of attempts, one after the other, yield what their combined count can. */
  lemma OutcomesAppend(v: OreVein, chunkX: int, chunkZ: int, first: seq<Placement>, n: int,
                       second: seq<Placement>, m: int)
    requires InBox(v, chunkX, chunkZ, first) && AttemptOutcome(v, first, n)
    requires InBox(v, chunkX, chunkZ, second) && AttemptOutcome(v, second, m)
    ensures InBox(v, chunkX, chunkZ, first + second) && AttemptOutcome(v, first + second, n + m)
  {
  }

  /**
   * `generateOreCluster`: length x width x height attempts, each placing the vein's
   * block with the placement chance somewhere in the cluster box.  With maxY <= minY
   * the first draw has no valid bound and the cluster fails (false) before placing anything.
   * `draw` is the number of draws taken so far; `next` counts the draws after the cluster.
   */
  method GenerateOreCluster(v: OreVein, chunkX: int, chunkZ: int, rng: Random, draw: nat)
    returns (placements: seq<Placement>, next: nat, completed: bool)
    ensures completed <==> v.maxY > v.minY
    ensures !completed ==> placements == [] && next == draw
    ensures InBox(v, chunkX, chunkZ, placements)
    ensures |placements| <= Attempts(v)
    ensures completed && v.densityMultiplier >= 10.0 ==> |placements| == Attempts(v)
    ensures v.densityMultiplier <= 0.0 ==> placements == []
  {
    var minY, maxY := v.minY, v.maxY;
    next := draw;
    placements := [];
    if maxY - minY <= 0 {
      return placements, next, false;
    }
    var centerY := minY + rng.nextInt(next, maxY - minY);
    next := next + 1;
    var veinLength := VeinLength(v);
    var layerSize := VeinWidth(v) * VeinHeight(v);
    ghost var attempts := 0;
    var i := 0;
    while i < veinLength
      invariant 0 <= i <= veinLength && attempts == i * layerSize
      invariant InBox(v, chunkX, chunkZ, placements) && AttemptOutcome(v, placements, attempts)
    {
      var layer;
      layer, next := PlaceLayer(v, chunkX, chunkZ, centerY, rng, next);
      placements := placements + layer;
      attempts := attempts + layerSize;
      i := i + 1;
    }
    assert attempts == Attempts(v);
    return placements, next, true;
  }

  // ~~~~~~~~~ The generator object ~~~~~~~~~

  /** `NeoOreGenerator` with its vein table. */
  class OreGenerator {
    var oreVeins: map<string, OreVein>

    constructor()
      ensures oreVeins == map[]
    {
      oreVeins := map[];
    }

    /**
     * `loadConfig` over the entry list read from the configuration: the table ends
     * as `Load` describes; false when a number format error ended the load.
     */
    method LoadConfig(entries: seq<string>, parseDouble: string -> Option<real>) returns (completed: bool)
      modifies this
      ensures (oreVeins, completed) == Load(old(oreVeins), entries, EntryParser(parseDouble))
    {
      var n := 0;
      while n < |entries|
        invariant 0 <= n <= |entries|
        invariant Load(oreVeins, entries[n..], EntryParser(parseDouble)) ==
          Load(old(oreVeins), entries, EntryParser(parseDouble))
      {
        assert entries[n..][0] == entries[n] && entries[n..][1..] == entries[n + 1..];
        var parsed := ParseEntry(entries[n], parseDouble);
        if parsed.Skipped? {
          n := n + 1;
          continue;
        }
        if parsed.Malformed? {
          return false;
        }
        oreVeins := oreVeins[parsed.vein.oreName := parsed.vein];
        n := n + 1;
      }
      return true;
    }

    /**
     * `generateOreVeins`: among the veins eligible at the chunk's corner biome and
     * latitude, one chosen by a draw gets a cluster; no eligible vein, nothing placed.
     */
    method GenerateOreVeins(order: seq<string>, biomeTypes: set<string>, chunkX: int, chunkZ: int,
                            rng: Random, draw: nat)
      returns (placements: seq<Placement>, selected: Option<OreVein>, next: nat, completed: bool)
      requires IterationOrder(oreVeins, order)
      ensures var latitude := GetLatitude(chunkZ * 16);
        (selected.None? <==> forall k :: k in oreVeins ==> !Eligible(oreVeins[k], biomeTypes, latitude)) &&
        (selected.Some? ==> selected.value in oreVeins.Values && Eligible(selected.value, biomeTypes, latitude))
      ensures selected.None? ==> placements == [] && completed
      ensures selected.Some? ==> InBox(selected.value, chunkX, chunkZ, placements)
      ensures selected.Some? ==> (completed <==> selected.value.maxY > selected.value.minY)
      ensures selected.Some? ==>
        var possible := EligibleInOrder(oreVeins, order, biomeTypes, GetLatitude(chunkZ * 16));
        |possible| > 0 && selected.value == possible[rng.nextInt(draw, |possible|)]
    {
      var latitude := GetLatitude(chunkZ * 16);
      var possible := PossibleVeins(oreVeins, order, biomeTypes, latitude);
      next := draw;
      if |possible| == 0 {
        return [], None, next, true;
      }
      var index := rng.nextInt(next, |possible|);
      next := next + 1;
      var vein := possible[index];
      assert vein in possible;
      ghost var key :| key in oreVeins && oreVeins[key] == vein;
      placements, next, completed := GenerateOreCluster(vein, chunkX, chunkZ, rng, next);
      selected := Some(vein);
    }

    /** `generate`: outside dimension 0 or off the every-fourth-chunk grid, nothing happens. */
    method Generate(dimension: int, chunkX: int, chunkZ: int, order: seq<string>, biomeTypes: set<string>,
                    rng: Random, draw: nat)
      returns (placements: seq<Placement>, selected: Option<OreVein>, next: nat, completed: bool)
      requires IterationOrder(oreVeins, order)
      ensures !ShouldGenerate(dimension, chunkX, chunkZ) ==> placements == [] && selected.None? && next == draw
      ensures ShouldGenerate(dimension, chunkX, chunkZ) ==>
        (selected.None? <==> forall k :: k in oreVeins ==> !Eligible(oreVeins[k], biomeTypes, GetLatitude(chunkZ * 16)))
      ensures selected.Some? ==>
        ShouldGenerate(dimension, chunkX, chunkZ) && selected.value in oreVeins.Values &&
        Eligible(selected.value, biomeTypes, GetLatitude(chunkZ * 16)) &&
        InBox(selected.value, chunkX, chunkZ, placements)
    {
      if dimension != 0 {
        return [], None, draw, true;
      }
      if JavaRem(chunkX, 4) == 0 && JavaRem(chunkZ, 4) == 0 {
        placements, selected, next, completed := GenerateOreVeins(order, biomeTypes, chunkX, chunkZ, rng, draw);
      } else {
        return [], None, draw, true;
      }
    }
  }
}
