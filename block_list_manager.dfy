/** Per-stage block lists: the `blocks` section of a stage file becomes a
    weighted sampler of block references, loaded on first use and cached by
    the normalised stage name. ItemsAdder keys (prefix "ia:" in any case) are
    kept as written; other keys must name a known material; anything else is
    skipped and the rest still loads. */
module BlockLists {
  import opened Common
  import opened Yaml
  import opened Items
  import opened Server
  import opened Weighted

  /** What a block list holds: a vanilla material or a custom block key. */
  datatype BlockRef = VanillaBlock(material: Material) | IaBlock(id: string)

  /** The weight a key contributes: its integer value, 1 when absent. */
  function KeyWeight(blocks: Section, key: string): real {
    GetInt(blocks, key, 1) as real
  }

  /** How one key of the `blocks` section is classified. */
  function Classify(known: set<Material>, key: string): (r: Option<BlockRef>)
    ensures StartsWith(ToLower(key), "ia:") <==> r.Some? && r.value.IaBlock?
    ensures r.Some? && r.value.IaBlock? ==> r.value.id == key
    ensures r.Some? && r.value.VanillaBlock? ==> r.value.material in known
    ensures !StartsWith(ToLower(key), "ia:") ==>
              r == if NormalName(key) in known then Some(VanillaBlock(NormalName(key))) else None
  {
    if StartsWith(ToLower(key), "ia:") then Some(IaBlock(key))
    else
      match MatchMaterial(known, key)
      case Some(m) => Some(VanillaBlock(m))
      case None => None
  }

  /** The sampler built from the first n keys of the `blocks` section. */
  function ListPool(known: set<Material>, blocks: Section, n: nat): Pool<BlockRef>
    requires n <= |blocks|
  {
    if n == 0 then Pool([], 0.0)
    else
      var prev := ListPool(known, blocks, n - 1);
      var key := blocks[n - 1].0;
      match Classify(known, key)
      case None => prev
      case Some(b) => AddEntry(prev, b, KeyWeight(blocks, key))
  }

  /** A key counts when it classifies and its weight is positive. */
  ghost predicate Contributes(known: set<Material>, blocks: Section, i: int)
    requires 0 <= i < |blocks|
  {
    Classify(known, blocks[i].0).Some? && KeyWeight(blocks, blocks[i].0) > 0.0
  }

  /** The list is a well-formed sampler. */
  lemma {:induction false} ListPoolWellFormed(known: set<Material>, blocks: Section, n: nat)
    requires n <= |blocks|
    ensures WellFormed(ListPool(known, blocks, n))
  {
    if n > 0 {
      ListPoolWellFormed(known, blocks, n - 1);
      var key := blocks[n - 1].0;
      var c := Classify(known, key);
      if c.Some? {
        AddEntryKeepsInvariant(ListPool(known, blocks, n - 1), c.value, KeyWeight(blocks, key));
      }
    }
  }

  /** Every entry of the list comes from a key that classifies with a
      positive weight. */
  lemma {:induction false} ListPoolSound(known: set<Material>, blocks: Section, n: nat, j: int)
    requires n <= |blocks|
    requires 0 <= j < |ListPool(known, blocks, n).entries|
    ensures exists i :: (0 <= i < n && Contributes(known, blocks, i) &&
                         ListPool(known, blocks, n).entries[j].item == Classify(known, blocks[i].0).value)
  {
    var prev := ListPool(known, blocks, n - 1);
    var key := blocks[n - 1].0;
    var c := Classify(known, key);
    if c.None? || KeyWeight(blocks, key) <= 0.0 || j < |prev.entries| {
      ListPoolSound(known, blocks, n - 1, j);
      var i :| 0 <= i < n - 1 && Contributes(known, blocks, i) &&
        prev.entries[j].item == Classify(known, blocks[i].0).value;
      if c.Some? && KeyWeight(blocks, key) > 0.0 {
        assert ListPool(known, blocks, n).entries[j] == prev.entries[j];
      }
    } else {
      assert ListPool(known, blocks, n).entries[j].item == c.value;
      assert Contributes(known, blocks, n - 1);
    }
  }

  /** Every key that classifies with a positive weight has an entry: invalid
      names and non-positive weights are the only keys that are skipped. */
  lemma {:induction false} ListPoolComplete(known: set<Material>, blocks: Section, n: nat, i: int)
    requires n <= |blocks|
    requires 0 <= i < n && Contributes(known, blocks, i)
    ensures exists j :: (0 <= j < |ListPool(known, blocks, n).entries| &&
                         ListPool(known, blocks, n).entries[j].item == Classify(known, blocks[i].0).value)
  {
    var prev := ListPool(known, blocks, n - 1);
    var key := blocks[n - 1].0;
    var c := Classify(known, key);
    var w := KeyWeight(blocks, key);
    var pool := ListPool(known, blocks, n);
    assert pool == if c.Some? then AddEntry(prev, c.value, w) else prev;
    if i == n - 1 {
      assert pool.entries == prev.entries + [Entry(c.value, pool.total)];
      assert pool.entries[|prev.entries|].item == c.value;
    } else {
      var target := Classify(known, blocks[i].0).value;
      ListPoolComplete(known, blocks, n - 1, i);
      var j :| 0 <= j < |prev.entries| && prev.entries[j].item == target;
      if c.Some? && w > 0.0 {
        assert pool.entries[j] == prev.entries[j];
      } else {
        assert pool == prev;
      }
    }
  }

  class BlockListManager {
    var blockLists: map<string, WeightedRandom<BlockRef>>

    ghost predicate Valid()
      reads this, blockLists.Values
    {
      forall name :: name in blockLists ==> blockLists[name].Valid()
    }

    constructor ()
      ensures Valid() && blockLists == map[]
    {
      blockLists := map[];
    }

    /** `loadBlockList(fileName)`: nothing without the file or without a
        `blocks` section; otherwise a fresh sampler with one `add` per key
        that classifies. */
    static method LoadBlockList(known: set<Material>, folder: DataFolder, fileName: string)
      returns (r: Option<WeightedRandom<BlockRef>>)
      ensures r.None? <==> fileName !in folder.blocks || GetSection(folder.blocks[fileName], "blocks").None?
      ensures r.Some? ==> fresh(r.value) && r.value.Valid()
      ensures r.Some? ==>
        var blocks := GetSection(folder.blocks[fileName], "blocks").value;
        r.value.State() == ListPool(known, blocks, |blocks|)
    {
      if fileName !in folder.blocks {
        return None;
      }
      var blocksSection := GetSection(folder.blocks[fileName], "blocks");
      if blocksSection.None? {
        return None;
      }
      var blocks := blocksSection.value;
      var weightedRandom := new WeightedRandom<BlockRef>();
      var keys := SectionKeys(blocks);
      var i := 0;
      while i < |keys|
        invariant 0 <= i <= |keys|
        invariant fresh(weightedRandom)
        invariant weightedRandom.Valid() && weightedRandom.State() == ListPool(known, blocks, i)
      {
        AddListed(known, blocks, keys[i], i, weightedRandom);
        i := i + 1;
      }
      return Some(weightedRandom);
    }

    /** One key of the `blocks` section: an "ia:" key is added as an
        ItemsAdder block, a key that names a known material as that
        material, each with its `getInt` weight. */
    static method AddListed(known: set<Material>, blocks: Section, materialName: string, i: nat,
                            weightedRandom: WeightedRandom<BlockRef>)
      requires i < |blocks| && materialName == blocks[i].0
      requires weightedRandom.Valid() && weightedRandom.State() == ListPool(known, blocks, i)
      modifies weightedRandom
      ensures weightedRandom.Valid() && weightedRandom.State() == ListPool(known, blocks, i + 1)
    {
      ListPoolWellFormed(known, blocks, i);
      if StartsWith(ToLower(materialName), "ia:") {
        var weight := GetInt(blocks, materialName, 1);
        weightedRandom.Add(IaBlock(materialName), weight as real);
      } else {
        var material := MatchMaterial(known, materialName);
        if material.Some? {
          var weight := GetInt(blocks, materialName, 1);
          weightedRandom.Add(VanillaBlock(material.value), weight as real);
        }
      }
    }

    /** `getBlockList(stageFile)`. */
    method GetBlockList(known: set<Material>, folder: DataFolder, stageFile: string)
      returns (r: Option<WeightedRandom<BlockRef>>)
      requires Valid()
      modifies this
      ensures Valid()
      ensures var name := WithYml(stageFile);
        && (name in old(blockLists) ==> r == Some(old(blockLists)[name]) && blockLists == old(blockLists))
        && (name !in old(blockLists) && r.None? ==> blockLists == old(blockLists))
        && (name !in old(blockLists) ==>
              (r.None? <==> name !in folder.blocks || GetSection(folder.blocks[name], "blocks").None?))
        && (name !in old(blockLists) && r.Some? ==>
              && fresh(r.value) && blockLists == old(blockLists)[name := r.value]
              && var blocks := GetSection(folder.blocks[name], "blocks").value;
                 r.value.State() == ListPool(known, blocks, |blocks|))
      ensures r.Some? ==> r.value.Valid()
    {
      var name := WithYml(stageFile);
      if name in blockLists {
        return Some(blockLists[name]);
      }
      if name !in folder.blocks {
        return None;
      }
      r := LoadBlockList(known, folder, name);
      if r.Some? {
        blockLists := blockLists[name := r.value];
      }
    }

    /** `clearCache()`. */
    method ClearCache()
      modifies this
      ensures Valid() && blockLists == map[]
    {
      blockLists := map[];
    }
  }
}
