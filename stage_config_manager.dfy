/** The stage catalogue: stage files under `blocks/` are parsed on first use
    and cached by their normalised name. A missing file yields nothing and is
    not cached, so a later lookup tries again. */
module StageCatalog {
  import opened Common
  import opened Yaml
  import opened Server
  import opened StageConfigs

  /** The chest table built from the first n keys of the `chests` section:
      each key whose value is a double is put with that value, every other
      key is skipped. */
  function ChancesUpTo(chests: Section, n: nat): seq<(string, real)>
    requires n <= |chests|
  {
    if n == 0 then []
    else
      var prev := ChancesUpTo(chests, n - 1);
      var key := chests[n - 1].0;
      if IsDouble(chests, key) then Put(prev, key, GetDouble(chests, key, 0.0)) else prev
  }

  /** Exactly the double-valued keys among the first n enter the table, each
      with its own value; the others are skipped without stopping the load. */
  lemma {:induction false} ChancesAreTheDoubles(chests: Section, n: nat, key: string)
    requires n <= |chests|
    ensures Lookup(ChancesUpTo(chests, n), key).Some? <==>
      (exists i :: 0 <= i < n && chests[i].0 == key) && IsDouble(chests, key)
    ensures Lookup(ChancesUpTo(chests, n), key).Some? ==>
      Lookup(ChancesUpTo(chests, n), key).value == GetDouble(chests, key, 0.0)
  {
    if n > 0 {
      ChancesAreTheDoubles(chests, n - 1, key);
      var k := chests[n - 1].0;
      if k == key && !IsDouble(chests, key) {
        assert !(Lookup(ChancesUpTo(chests, n), key).Some?);
      }
    }
  }

  /** The whole chest table of a stage document: empty without a `chests`
      section. */
  function ChestTable(doc: Section): seq<(string, real)> {
    match GetSection(doc, "chests")
    case None => []
    case Some(c) => ChancesUpTo(c, |c|)
  }

  /** The fields `loadStageConfig` extracts from a stage document. */
  function ParseStage(doc: Section): (c: StageConfig)
    ensures Get(doc, "amount").None? ==> c.amount == DefaultAmount
    ensures c.nextStage == if IsString(doc, "next") then Get(doc, "next").value.text else ""
    ensures c.message == if IsString(doc, "message") then Get(doc, "message").value.text else ""
    ensures c.entityPack == if IsString(doc, "entity_pack") then Get(doc, "entity_pack").value.text else ""
    ensures c.entityChance == if IsDouble(doc, "entity_chance") then Get(doc, "entity_chance").value.kind.d else DefaultEntityChance
  {
    var base := NewStageConfig();
    StageConfig(
      GetInt(doc, "amount", base.amount),
      if IsString(doc, "next") then GetString(doc, "next", "") else "",
      if IsString(doc, "message") then GetString(doc, "message", "") else "",
      ChestTable(doc),
      if IsString(doc, "entity_pack") then GetString(doc, "entity_pack", "") else base.entityPack,
      if IsDouble(doc, "entity_chance") then GetDouble(doc, "entity_chance", DefaultEntityChance) else base.entityChance)
  }

  /** A stage file with none of the keys loads as the defaults of a fresh
      stage definition. */
  lemma EmptyStageIsDefault()
    ensures ParseStage([]) == NewStageConfig()
  {
  }

  /** `loadStageConfig(fileName)` on a cache and a data folder: the result and
      the cache afterwards. */
  function Load(cache: map<string, StageConfig>, folder: DataFolder, fileName: string)
    : (map<string, StageConfig>, Option<StageConfig>)
  {
    var name := WithYml(fileName);
    if name in cache then (cache, Some(cache[name]))
    else if name !in folder.blocks then (cache, None)
    else (cache[name := ParseStage(folder.blocks[name])], Some(ParseStage(folder.blocks[name])))
  }

  /** A cache hit returns the cached definition whatever the files say; a
      missing file gives nothing and leaves the cache as it was; a load is
      cached under the normalised name. */
  lemma LoadCases(cache: map<string, StageConfig>, folder: DataFolder, fileName: string)
    ensures var (c, r) := Load(cache, folder, fileName);
      && (WithYml(fileName) in cache ==>
            c == cache && r == Some(cache[WithYml(fileName)]))
      && (WithYml(fileName) !in cache && WithYml(fileName) !in folder.blocks ==>
            c == cache && r == None)
      && (WithYml(fileName) !in cache && WithYml(fileName) in folder.blocks ==>
            r.Some? && c == cache[WithYml(fileName) := r.value]
            && r.value == ParseStage(folder.blocks[WithYml(fileName)]))
  {
  }

  /** Loading a second time changes nothing and gives the same answer, and the
      name with or without its ".yml" suffix finds the same entry. */
  lemma LoadIsStable(cache: map<string, StageConfig>, folder: DataFolder, fileName: string)
    ensures var (c, r) := Load(cache, folder, fileName);
      Load(c, folder, fileName) == (c, r) && Load(c, folder, WithYml(fileName)) == (c, r)
  {
    WithYmlIdempotent(fileName);
  }

  /** The loop of `loadStageConfig` over the `chests` section's keys. */
  method LoadChestChances(chests: Section) returns (chances: seq<(string, real)>)
    ensures chances == ChancesUpTo(chests, |chests|)
  {
    var keys := SectionKeys(chests);
    chances := [];
    var i := 0;
    while i < |keys|
      invariant 0 <= i <= |keys|
      invariant chances == ChancesUpTo(chests, i)
    {
      var chestKey := keys[i];
      assert chestKey == chests[i].0;
      if IsDouble(chests, chestKey) {
        var chance := GetDouble(chests, chestKey, 0.0);
        chances := Put(chances, chestKey, chance);
      }
      assert chances == ChancesUpTo(chests, i + 1);
      i := i + 1;
    }
  }

  class StageConfigManager {
    var configCache: map<string, StageConfig>

    constructor ()
      ensures configCache == map[]
    {
      configCache := map[];
    }

    /** `loadStageConfig(fileName)`. */
    method LoadStageConfig(folder: DataFolder, fileName: string) returns (r: Option<StageConfig>)
      modifies this
      ensures (configCache, r) == Load(old(configCache), folder, fileName)
    {
      var name := WithYml(fileName);
      if name in configCache {
        return Some(configCache[name]);
      }
      if name !in folder.blocks {
        return None;
      }
      var yaml := folder.blocks[name];
      var config := NewStageConfig();
      config := config.(amount := GetInt(yaml, "amount", DefaultAmount));
      if IsString(yaml, "next") {
        config := config.(nextStage := GetString(yaml, "next", ""));
      } else {
        config := config.(nextStage := "");
      }
      if IsString(yaml, "message") {
        config := config.(message := GetString(yaml, "message", ""));
      } else {
        config := config.(message := "");
      }
      var chestsSection := GetSection(yaml, "chests");
      if chestsSection.Some? {
        var chances := LoadChestChances(chestsSection.value);
        config := config.(chestChances := chances);
      }
      if IsString(yaml, "entity_pack") {
        config := config.(entityPack := GetString(yaml, "entity_pack", ""));
      }
      if IsDouble(yaml, "entity_chance") {
        config := config.(entityChance := GetDouble(yaml, "entity_chance", DefaultEntityChance));
      }
      assert config == ParseStage(yaml);
      configCache := configCache[name := config];
      return Some(config);
    }

    /** `clearCache()`. */
    method ClearCache()
      modifies this
      ensures configCache == map[]
    {
      configCache := map[];
    }
  }
}
