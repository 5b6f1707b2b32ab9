/** Entity packs: files under `entitys/` listing mobs with a weight, a name
    tag and armour, read once and cached by pack name, and a weighted pick
    over a pack driven by an injected draw. */
module Entities {
  import opened Common
  import opened Yaml
  import opened Server

  /** The name of an `EntityType` constant. */
  type EntityType = string

  const ZOMBIE: EntityType := "ZOMBIE"
  const DefaultWeight: int := 10

  datatype EntityConfig = EntityConfig(
    name: string,
    nameTag: string,
    entityType: EntityType,
    weight: int,
    armors: map<string, string>)

  /** A parsed pack, in the order the `list` section's keys are read; Java
      iterates the pack's `HashMap` in hash order instead. */
  type Pack = seq<(string, EntityConfig)>

  /** The file that holds a pack, relative to the `entitys` directory. */
  function PackFile(packName: string): string {
    packName + ".yml"
  }

  // ---------------------------------------------------------------
  // Parsing an entry

  /** `EntityType.valueOf(typeName.toUpperCase())`, with ZOMBIE when no
      constant of that name exists; `known` holds the constants' names. */
  function ParseType(typeName: string, known: set<EntityType>): (t: EntityType)
    ensures t in known || t == ZOMBIE
    ensures ToUpper(typeName) in known ==> t == ToUpper(typeName)
    ensures ToUpper(typeName) !in known ==> t == ZOMBIE
  {
    var upper := ToUpper(typeName);
    if upper in known then upper else ZOMBIE
  }

  /** The type name is read without regard to case. */
  lemma ParseTypeIgnoresCase(typeName: string, known: set<EntityType>)
    ensures ParseType(ToLower(typeName), known) == ParseType(typeName, known)
  {
    assert ToUpper(ToLower(typeName)) == ToUpper(typeName) by {
      forall i | 0 <= i < |typeName|
        ensures ToUpper(ToLower(typeName))[i] == ToUpper(typeName)[i]
      {
        var c := typeName[i];
        assert UpperChar(LowerChar(c)) == UpperChar(c);
      }
    }
  }

  /** The last entry before `i` that names slot `k`, or -1. */
  function LastSlot(sec: Section, i: nat, k: string): (j: int)
    requires i <= |sec|
    ensures -1 <= j < i
    ensures j >= 0 ==> ToLower(sec[j].0) == k
    ensures forall m :: j < m < i ==> ToLower(sec[m].0) != k
  {
    if i == 0 then -1
    else if ToLower(sec[i - 1].0) == k then i - 1
    else LastSlot(sec, i - 1, k)
  }

  /** The armour map after the first `i` keys of the section: each key is
      put lower-cased with its value's text upper-cased (a later key that
      folds to the same slot replaces an earlier one). A section's keys are
      distinct, so a listed key's `getString` is its own entry's text. */
  function ArmorsUpTo(sec: Section, i: nat): (r: map<string, string>)
    requires i <= |sec|
  {
    if i == 0 then map[]
    else ArmorsUpTo(sec, i - 1)[ToLower(sec[i - 1].0) := ToUpper(sec[i - 1].1.text)]
  }

  /** The value an armour slot holds after the first `i` keys: the upper-
      cased value of the last key that folds to it, or none. */
  function SlotValue(sec: Section, i: nat, k: string): Option<string>
    requires i <= |sec|
  {
    var j := LastSlot(sec, i, k);
    if j >= 0 then Some(ToUpper(sec[j].1.text)) else None
  }

  /** The armour map agrees with `SlotValue` on every slot. */
  lemma {:induction false} ArmorsUpToSlot(sec: Section, i: nat, k: string)
    requires i <= |sec|
    ensures (if k in ArmorsUpTo(sec, i) then Some(ArmorsUpTo(sec, i)[k]) else None) == SlotValue(sec, i, k)
  {
    if i > 0 {
      ArmorsUpToSlot(sec, i - 1, k);
      if ToLower(sec[i - 1].0) == k {
        assert LastSlot(sec, i, k) == i - 1;
      } else {
        assert LastSlot(sec, i, k) == LastSlot(sec, i - 1, k);
      }
    }
  }

  /** The armour map of an entry: empty without an `armors` section. */
  function Armors(entry: Section): (r: map<string, string>)
    ensures GetSection(entry, "armors").None? ==> r == map[]
  {
    match GetSection(entry, "armors")
    case None => map[]
    case Some(sec) => ArmorsUpTo(sec, |sec|)
  }

  /** One entry of the `list` section, named by its key. */
  function ParseEntity(key: string, entry: Section, known: set<EntityType>): (c: EntityConfig)
    ensures c.name == key
    ensures c.entityType in known || c.entityType == ZOMBIE
    ensures Get(entry, "type").None? ==> c.entityType == ZOMBIE
    ensures Get(entry, "weight").None? ==> c.weight == DefaultWeight
    ensures Get(entry, "name").None? ==> c.nameTag == ""
    ensures GetSection(entry, "armors").None? ==> c.armors == map[]
  {
    EntityConfig(
      key,
      GetString(entry, "name", ""),
      ParseType(GetString(entry, "type", "ZOMBIE"), known),
      GetInt(entry, "weight", DefaultWeight),
      Armors(entry))
  }

  /** The armour slots of an entry are the lower-cased keys of its
      `armors` section, each holding its value upper-cased. */
  lemma EntityArmors(key: string, entry: Section, known: set<EntityType>, sec: Section)
    requires GetSection(entry, "armors") == Some(sec)
    ensures forall k :: k in ParseEntity(key, entry, known).armors <==> SlotValue(sec, |sec|, k).Some?
    ensures forall k :: k in ParseEntity(key, entry, known).armors ==>
      Some(ParseEntity(key, entry, known).armors[k]) == SlotValue(sec, |sec|, k)
  {
    forall k {
      ArmorsUpToSlot(sec, |sec|, k);
    }
  }

  // ---------------------------------------------------------------
  // Parsing a pack

  /** Some key before `i` of the list is `name`. */
  predicate KeyBefore(list: Section, i: nat, name: string)
    requires i <= |list|
  {
    i > 0 && (list[i - 1].0 == name || KeyBefore(list, i - 1, name))
  }

  lemma {:induction false} KeyBeforeAt(list: Section, i: nat, j: nat)
    requires j < i <= |list|
    ensures KeyBefore(list, i, list[j].0)
    decreases i
  {
    if j < i - 1 {
      KeyBeforeAt(list, i - 1, j);
    }
  }

  /** The pack after the first `i` keys of the `list` section: a key whose
      value is a section is parsed and put under its own name; other keys
      are skipped. */
  function PackUpTo(list: Section, i: nat, known: set<EntityType>): Pack
    requires i <= |list|
  {
    if i == 0 then []
    else
      var key := list[i - 1].0;
      var prev := PackUpTo(list, i - 1, known);
      match GetSection(list, key)
      case None => prev
      case Some(entry) => Put(prev, key, ParseEntity(key, entry, known))
  }

  /** One more key of the list. */
  lemma PackUpToNext(list: Section, i: nat, known: set<EntityType>)
    requires i < |list|
    ensures var key := list[i].0;
      PackUpTo(list, i + 1, known) ==
        if GetSection(list, key).Some?
        then Put(PackUpTo(list, i, known), key, ParseEntity(key, GetSection(list, key).value, known))
        else PackUpTo(list, i, known)
  {
  }

  /** The entity a name stands for after the first `i` keys: present when
      the name is among them and its value is a section, parsed from it. */
  function ListedEntity(list: Section, i: nat, name: string, known: set<EntityType>): Option<EntityConfig>
    requires i <= |list|
  {
    if KeyBefore(list, i, name) && GetSection(list, name).Some?
    then Some(ParseEntity(name, GetSection(list, name).value, known))
    else None
  }

  /** The key just read is found as its own section parsed, or, without a
      section, as it was found before. */
  lemma PackStepSame(list: Section, i: nat, known: set<EntityType>)
    requires 0 < i <= |list|
    ensures var key := list[i - 1].0;
      Lookup(PackUpTo(list, i - 1, known), key) == ListedEntity(list, i - 1, key, known) ==>
      Lookup(PackUpTo(list, i, known), key) == ListedEntity(list, i, key, known)
  {
    if GetSection(list, list[i - 1].0).Some? {
      PackStepSection(list, i, known);
    } else {
      PackStepBare(list, i, known);
    }
  }

  lemma PackStepSection(list: Section, i: nat, known: set<EntityType>)
    requires 0 < i <= |list| && GetSection(list, list[i - 1].0).Some?
    ensures var key := list[i - 1].0;
      Lookup(PackUpTo(list, i, known), key) == Some(ParseEntity(key, GetSection(list, key).value, known))
      == ListedEntity(list, i, key, known)
  {
    var key := list[i - 1].0;
    var e := ParseEntity(key, GetSection(list, key).value, known);
    assert PackUpTo(list, i, known) == Put(PackUpTo(list, i - 1, known), key, e) by {
      PackUpToNext(list, i - 1, known);
    }
    assert KeyBefore(list, i, key);
  }

  lemma PackStepBare(list: Section, i: nat, known: set<EntityType>)
    requires 0 < i <= |list| && GetSection(list, list[i - 1].0).None?
    ensures var key := list[i - 1].0;
      PackUpTo(list, i, known) == PackUpTo(list, i - 1, known)
      && ListedEntity(list, i, key, known) == None == ListedEntity(list, i - 1, key, known)
  {
    PackUpToNext(list, i - 1, known);
  }

  /** Any other key is found as before the step. */
  lemma PackStepOther(list: Section, i: nat, known: set<EntityType>, name: string)
    requires 0 < i <= |list| && name != list[i - 1].0
    ensures Lookup(PackUpTo(list, i, known), name) == Lookup(PackUpTo(list, i - 1, known), name)
    ensures ListedEntity(list, i, name, known) == ListedEntity(list, i - 1, name, known)
  {
    PackUpToNext(list, i - 1, known);
  }

  /** One key more keeps the prefix pack and the listed entities in step. */
  lemma PackStep(list: Section, i: nat, known: set<EntityType>, name: string)
    requires 0 < i <= |list|
    ensures Lookup(PackUpTo(list, i - 1, known), name) == ListedEntity(list, i - 1, name, known) ==>
      Lookup(PackUpTo(list, i, known), name) == ListedEntity(list, i, name, known)
  {
    if name == list[i - 1].0 {
      PackStepSame(list, i, known);
    } else {
      PackStepOther(list, i, known, name);
    }
  }

  /** The prefix pack holds exactly the keys read so far whose value is a
      section, each parsed from that section. */
  lemma {:induction false} PackUpToLookup(list: Section, i: nat, known: set<EntityType>, name: string)
    requires i <= |list|
    ensures Lookup(PackUpTo(list, i, known), name) == ListedEntity(list, i, name, known)
  {
    if i > 0 {
      PackUpToLookup(list, i - 1, known, name);
      PackStep(list, i, known, name);
    }
  }

  /** The pack a file describes: the entries of its `list` section. */
  function PackOf(yaml: Section, known: set<EntityType>): Pack {
    match GetSection(yaml, "list")
    case None => []
    case Some(list) => PackUpTo(list, |list|, known)
  }

  /** A pack holds an entity exactly when the `list` section has a section
      under that name, and holds it as parsed from that section. */
  lemma PackOfLookup(yaml: Section, known: set<EntityType>, name: string)
    ensures GetSection(yaml, "list").None? ==> PackOf(yaml, known) == []
    ensures GetSection(yaml, "list").Some? ==>
      var list := GetSection(yaml, "list").value;
      Lookup(PackOf(yaml, known), name) ==
        if GetSection(list, name).Some?
        then Some(ParseEntity(name, GetSection(list, name).value, known))
        else None
  {
    match GetSection(yaml, "list")
    case None =>
    case Some(list) =>
      PackUpToLookup(list, |list|, known, name);
      if GetSection(list, name).Some? {
        var j :| 0 <= j < |list| && list[j] == (name, Get(list, name).value);
        KeyBeforeAt(list, |list|, j);
      }
  }

  /** `loadEntityPack` on a cache and a data folder: the cached pack on a
      hit; an empty pack, not cached, when the file is missing; otherwise
      the parsed pack, which is cached even when empty. */
  function LoadPack(cache: map<string, Pack>, entitys: map<string, Section>, known: set<EntityType>,
                    packName: string): (map<string, Pack>, Pack)
  {
    if packName in cache then (cache, cache[packName])
    else if PackFile(packName) !in entitys then (cache, [])
    else
      var p := PackOf(entitys[PackFile(packName)], known);
      (cache[packName := p], p)
  }

  /** The pack a folder holds under a name, read afresh. */
  function FilePack(entitys: map<string, Section>, known: set<EntityType>, packName: string): Pack {
    if PackFile(packName) in entitys then PackOf(entitys[PackFile(packName)], known) else []
  }

  /** Every cached pack is what its file holds. */
  predicate CacheAgrees(cache: map<string, Pack>, entitys: map<string, Section>, known: set<EntityType>) {
    forall p :: p in cache ==> PackFile(p) in entitys && cache[p] == PackOf(entitys[PackFile(p)], known)
  }

  /** While the files do not change, the cache is invisible: a load gives
      what reading the file gives, and the cache stays in agreement. A
      missing file adds no entry, so a file created later is still read. */
  lemma LoadPackTransparent(cache: map<string, Pack>, entitys: map<string, Section>,
                            known: set<EntityType>, packName: string)
    requires CacheAgrees(cache, entitys, known)
    ensures LoadPack(cache, entitys, known, packName).1 == FilePack(entitys, known, packName)
    ensures CacheAgrees(LoadPack(cache, entitys, known, packName).0, entitys, known)
    ensures PackFile(packName) !in entitys ==> packName !in LoadPack(cache, entitys, known, packName).0
    ensures PackFile(packName) in entitys ==> packName in LoadPack(cache, entitys, known, packName).0
  {
  }

  /** A hit answers from the cache even when the file has changed or gone. */
  lemma LoadPackHit(cache: map<string, Pack>, entitys: map<string, Section>,
                    known: set<EntityType>, packName: string)
    requires packName in cache
    ensures LoadPack(cache, entitys, known, packName) == (cache, cache[packName])
  {
  }

  // ---------------------------------------------------------------
  // The weighted pick

  /** The sum of the weights of the first `i` entries. */
  function Prefix(pack: Pack, i: nat): int
    requires i <= |pack|
  {
    if i == 0 then 0 else Prefix(pack, i - 1) + pack[i - 1].1.weight
  }

  function TotalWeight(pack: Pack): int {
    Prefix(pack, |pack|)
  }

  /** The first index at or after `i` whose running sum exceeds `w`, or the
      length when there is none. */
  function FirstOver(pack: Pack, w: int, i: nat): (j: nat)
    requires i <= |pack|
    ensures i <= j <= |pack|
    ensures j < |pack| ==> w < Prefix(pack, j + 1)
    ensures forall k :: i < k <= j ==> Prefix(pack, k) <= w
    decreases |pack| - i
  {
    if i == |pack| then |pack|
    else if w < Prefix(pack, i + 1) then i
    else FirstOver(pack, w, i + 1)
  }

  /** `getRandomEntity` for a loaded pack and the draw behind
      `nextInt(totalWeight)`: none for an empty pack or a total weight that
      is not positive; otherwise the first entry whose running sum exceeds
      the drawn value, or the first entry when none does. */
  function RandomEntity(pack: Pack, draw: nat): Option<EntityConfig> {
    if |pack| == 0 then None
    else
      var total := TotalWeight(pack);
      if total <= 0 then None
      else
        var j := FirstOver(pack, draw % total, 0);
        Some(pack[if j < |pack| then j else 0].1)
  }

  /** The scan in `getRandomEntity` always returns: the last running sum
      is the total, which exceeds the drawn value, so its trailing "first
      entry" return is dead code, whatever the signs of the weights. */
  lemma ScanAlwaysReturns(pack: Pack, draw: nat)
    requires TotalWeight(pack) > 0
    ensures FirstOver(pack, draw % TotalWeight(pack), 0) < |pack|
  {
  }

  predicate NonNegative(pack: Pack) {
    forall i :: 0 <= i < |pack| ==> pack[i].1.weight >= 0
  }

  lemma {:induction false} PrefixMonotone(pack: Pack, i: nat, j: nat)
    requires NonNegative(pack) && i <= j <= |pack|
    ensures Prefix(pack, i) <= Prefix(pack, j)
    decreases j - i
  {
    if i < j {
      PrefixMonotone(pack, i, j - 1);
    }
  }

  /** A pick is empty exactly when the pack is empty or its total weight is
      not positive; otherwise it is one of the pack's entries. */
  lemma RandomEntityShape(pack: Pack, draw: nat)
    ensures RandomEntity(pack, draw).None? <==> |pack| == 0 || TotalWeight(pack) <= 0
    ensures RandomEntity(pack, draw).Some? ==>
      exists i :: 0 <= i < |pack| && pack[i].1 == RandomEntity(pack, draw).value
  {
    if RandomEntity(pack, draw).Some? {
      var j := FirstOver(pack, draw % TotalWeight(pack), 0);
      var i := if j < |pack| then j else 0;
      assert pack[i].1 == RandomEntity(pack, draw).value;
    }
  }

  /** With non-negative weights, the drawn value `w` selects the entry whose
      band `[Prefix(i), Prefix(i + 1))` contains it, so each entry is picked
      for exactly `weight` of the `total` draw values; the "first entry"
      fallback is never taken. */
  lemma RandomEntityBand(pack: Pack, draw: nat)
    requires NonNegative(pack) && TotalWeight(pack) > 0
    ensures var total := TotalWeight(pack);
      var i := FirstOver(pack, draw % total, 0);
      i < |pack| && Prefix(pack, i) <= draw % total < Prefix(pack, i + 1)
      && RandomEntity(pack, draw) == Some(pack[i].1)
  {
    var total := TotalWeight(pack);
    var w := draw % total;
    var i := FirstOver(pack, w, 0);
    assert |pack| > 0;
    if i > 0 {
      assert Prefix(pack, i) <= w;
    }
  }

  /** Every entry with a positive weight can be picked: the draw equal to
      its band's start picks it. */
  lemma RandomEntityReaches(pack: Pack, i: nat)
    requires NonNegative(pack) && i < |pack| && pack[i].1.weight > 0
    ensures TotalWeight(pack) > 0
    ensures Prefix(pack, i) >= 0
    ensures RandomEntity(pack, Prefix(pack, i) as nat) == Some(pack[i].1)
  {
    PrefixMonotone(pack, 0, i);
    PrefixMonotone(pack, i + 1, |pack|);
    var total := TotalWeight(pack);
    var w := Prefix(pack, i);
    assert Prefix(pack, i + 1) == w + pack[i].1.weight;
    SmallMod(w, total);
    FirstOverBand(pack, w, i);
  }

  lemma SmallMod(w: int, total: int)
    requires 0 <= w < total
    ensures w % total == w
  {
  }

  /** With non-negative weights, a value in the band of entry `i` selects
      entry `i`. */
  lemma FirstOverBand(pack: Pack, w: int, i: nat)
    requires NonNegative(pack) && i < |pack| && Prefix(pack, i) <= w < Prefix(pack, i + 1)
    ensures FirstOver(pack, w, 0) == i
  {
    var j := FirstOver(pack, w, 0);
    if j < i {
      PrefixMonotone(pack, j + 1, i);
      assert false;
    }
    if j > i {
      assert false;
    }
  }

  // ---------------------------------------------------------------
  // The manager

  class EntityManager {
    var entityPackCache: map<string, Pack>

    constructor ()
      ensures entityPackCache == map[]
    {
      entityPackCache := map[];
    }

    /** `loadEntityPack(packName)`. */
    method LoadEntityPack(folder: DataFolder, known: set<EntityType>, packName: string) returns (pack: Pack)
      modifies this
      ensures (entityPackCache, pack) == LoadPack(old(entityPackCache), folder.entitys, known, packName)
    {
      if packName in entityPackCache {
        return entityPackCache[packName];
      }
      if PackFile(packName) !in folder.entitys {
        return [];
      }
      pack := ReadPack(folder.entitys[PackFile(packName)], known);
      entityPackCache := entityPackCache[packName := pack];
    }

    /** The parsing loop over the `list` section of a pack file. */
    static method ReadPack(yaml: Section, known: set<EntityType>) returns (pack: Pack)
      ensures pack == PackOf(yaml, known)
    {
      pack := [];
      var listSection := GetSection(yaml, "list");
      if listSection.Some? {
        var list := listSection.value;
        var i := 0;
        while i < |list|
          invariant i <= |list|
          invariant pack == PackUpTo(list, i, known)
        {
          var key := list[i].0;
          var entrySection := GetSection(list, key);
          PackUpToNext(list, i, known);
          if entrySection.Some? {
            var entry := entrySection.value;
            var armors := ReadArmors(entry);
            var config := EntityConfig(
              key,
              GetString(entry, "name", ""),
              ParseType(GetString(entry, "type", "ZOMBIE"), known),
              GetInt(entry, "weight", DefaultWeight),
              armors);
            pack := Put(pack, key, config);
          }
          i := i + 1;
        }
      }
    }

    /** The armour map of one entry. */
    static method ReadArmors(entry: Section) returns (armors: map<string, string>)
      ensures armors == Armors(entry)
    {
      var armorsSection := GetSection(entry, "armors");
      if armorsSection.Some? {
        armors := ReadArmorSection(armorsSection.value);
      } else {
        armors := map[];
      }
    }

    /** The loop over the keys of an `armors` section. */
    static method ReadArmorSection(sec: Section) returns (armors: map<string, string>)
      ensures armors == ArmorsUpTo(sec, |sec|)
    {
      armors := map[];
      var i := 0;
      while i < |sec|
        invariant i <= |sec|
        invariant armors == ArmorsUpTo(sec, i)
      {
        var armorKey := sec[i].0;
        var armorValue := sec[i].1.text;
        armors := armors[ToLower(armorKey) := ToUpper(armorValue)];
        i := i + 1;
      }
    }

    /** `getRandomEntity(packName)`, with `draw` standing for the value
        behind `random.nextInt(totalWeight)`. */
    method GetRandomEntity(folder: DataFolder, known: set<EntityType>, packName: string, draw: nat)
      returns (r: Option<EntityConfig>)
      modifies this
      ensures entityPackCache == LoadPack(old(entityPackCache), folder.entitys, known, packName).0
      ensures r == RandomEntity(LoadPack(old(entityPackCache), folder.entitys, known, packName).1, draw)
    {
      var pack := LoadEntityPack(folder, known, packName);
      ghost var cache := entityPackCache;
      if |pack| == 0 {
        return None;
      }
      var totalWeight := 0;
      var i := 0;
      while i < |pack|
        invariant i <= |pack|
        invariant totalWeight == Prefix(pack, i)
        invariant entityPackCache == cache
      {
        totalWeight := totalWeight + pack[i].1.weight;
        i := i + 1;
      }
      if totalWeight <= 0 {
        return None;
      }
      var randomWeight := draw % totalWeight;
      var currentWeight := 0;
      i := 0;
      while i < |pack|
        invariant i <= |pack|
        invariant currentWeight == Prefix(pack, i)
        invariant entityPackCache == cache
        invariant FirstOver(pack, randomWeight, 0) == FirstOver(pack, randomWeight, i)
      {
        currentWeight := currentWeight + pack[i].1.weight;
        if randomWeight < currentWeight {
          assert FirstOver(pack, randomWeight, i) == i;
          return Some(pack[i].1);
        }
        i := i + 1;
      }
      // The last running sum is the total, which exceeds the drawn value,
      // so the scan always returns and the first-entry fallback is dead.
      assert false;
    }

    /** `clearCache()`. */
    method ClearCache()
      modifies this
      ensures entityPackCache == map[]
    {
      entityPackCache := map[];
    }
  }
}
