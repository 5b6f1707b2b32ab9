/** The block-break handler that drives the one-block loop. Breaking a block
    the plugin placed bumps the player's count, draws what comes next (an
    entity, a chest or a block, in that priority), records it in the store
    and defers the placement by a tick; a chest is filled a tick after it is
    placed. The two deferred callbacks are separate methods, so a caller may
    run them in any order, and `processedChests` guards a chest position
    against a second delivery. The random fractions are parameters. */
module BreakListener {
  import opened Common
  import opened Yaml
  import opened Items
  import opened Server
  import opened Weighted
  import opened StageConfigs
  import opened StageCatalog
  import opened Progression
  import opened BlockLists
  import opened ChestManager
  import opened Logging

  /** The prefix of the store's block type for a generated chest. */
  const ChestTagPrefix: string := "CHEST:"
  /** The global chest chance when the configuration has none. */
  const DefaultChestChance: real := 0.05

  /** What a break produces. An entity outcome places a block like any
      other: nothing is ever spawned. */
  datatype Outcome = Outcome(isEntity: bool, isChest: bool, chestConfigName: Option<string>)

  /** The index of the first entry from i on whose chance, shifted by the
      entity chance, admits r; the table's length when none does. */
  function FirstMatchFrom(chances: seq<(string, real)>, r: real, entityChance: real, i: nat): (k: nat)
    requires i <= |chances|
    ensures i <= k <= |chances|
    ensures forall j :: i <= j < k ==> chances[j].1 + entityChance < r
    ensures k < |chances| ==> r <= chances[k].1 + entityChance
    decreases |chances| - i
  {
    if i == |chances| then i
    else if r <= chances[i].1 + entityChance then i
    else FirstMatchFrom(chances, r, entityChance, i + 1)
  }

  /** The outcome drawn for the fraction r: an entity below the entity
      chance; otherwise, with a stage table, the first entry whose own chance
      plus the entity chance admits r; with no stage table, a chest of the
      randomly chosen configuration when r is within the global chance plus
      the entity chance; a block in every other case. */
  function DecideOutcome(r: real, entityChance: real, chances: seq<(string, real)>,
                         chestChance: real, randomName: string): (o: Outcome)
    ensures o.isEntity <==> r <= entityChance
    ensures o.isEntity ==> !o.isChest
    ensures o.isChest <==> o.chestConfigName.Some?
    ensures r > entityChance && |chances| > 0 ==>
      (o.isChest <==> exists j :: 0 <= j < |chances| && r <= chances[j].1 + entityChance)
    ensures r > entityChance && |chances| > 0 && o.isChest ==>
      exists k :: 0 <= k < |chances| && o.chestConfigName == Some(chances[k].0)
        && r <= chances[k].1 + entityChance
        && forall j :: 0 <= j < k ==> chances[j].1 + entityChance < r
    ensures r > entityChance && |chances| == 0 ==>
      (o.isChest <==> r <= chestChance + entityChance)
    ensures r > entityChance && |chances| == 0 && o.isChest ==> o.chestConfigName == Some(randomName)
  {
    if r <= entityChance then Outcome(true, false, None)
    else if |chances| > 0 then
      var k := FirstMatchFrom(chances, r, entityChance, 0);
      if k < |chances| then Outcome(false, true, Some(chances[k].0)) else Outcome(false, false, None)
    else if r <= chestChance + entityChance then Outcome(false, true, Some(randomName))
    else Outcome(false, false, None)
  }

  /** The largest chance of the table from entry i on. */
  function MaxChance(chances: seq<(string, real)>, i: nat): (m: real)
    requires i < |chances|
    ensures forall j :: i <= j < |chances| ==> chances[j].1 <= m
    ensures exists j :: i <= j < |chances| && chances[j].1 == m
    decreases |chances| - i
  {
    if i == |chances| - 1 then chances[i].1
    else
      var m := MaxChance(chances, i + 1);
      if chances[i].1 >= m then chances[i].1 else m
  }

  /** Some entry from i on admits r exactly when the largest chance does. */
  lemma {:induction false} FirstMatchIffMax(chances: seq<(string, real)>, r: real, entityChance: real, i: nat)
    requires i < |chances|
    ensures FirstMatchFrom(chances, r, entityChance, i) < |chances| <==> r <= MaxChance(chances, i) + entityChance
    decreases |chances| - i
  {
    if i < |chances| - 1 {
      FirstMatchIffMax(chances, r, entityChance, i + 1);
    }
  }

  /** The stage table's chances do not add up: past the entity band a chest
      comes exactly when r is within the largest single chance plus the
      entity chance, however many entries the table has. */
  lemma TableChestIsMaxChance(r: real, entityChance: real, chances: seq<(string, real)>,
                              chestChance: real, randomName: string)
    requires r > entityChance && |chances| > 0
    ensures DecideOutcome(r, entityChance, chances, chestChance, randomName).isChest
      <==> r <= MaxChance(chances, 0) + entityChance
  {
    FirstMatchIffMax(chances, r, entityChance, 0);
  }

  /** Two entries of 10% each past a 5% entity band: r = 0.2 gives no
      chest, although the two chances sum to 20%. */
  lemma TableIsNotCumulative()
    ensures !DecideOutcome(0.2, 0.05, [("a", 0.1), ("b", 0.1)], DefaultChestChance, "a").isChest
  {
    var t := [("a", 0.1), ("b", 0.1)];
    assert FirstMatchFrom(t, 0.2, 0.05, 1) == 2;
  }

  /** `stageConfig != null ? stageConfig.entityChance : 0.05`. */
  function EntityChanceOf(config: Option<StageConfig>): (e: real)
    ensures config.None? ==> e == DefaultEntityChance
    ensures config.Some? ==> e == config.value.entityChance
  {
    if config.Some? then config.value.entityChance else DefaultEntityChance
  }

  /** `getChestChances`: the stage's table, empty without a stage. */
  function ChancesOf(config: Option<StageConfig>): (t: seq<(string, real)>)
    ensures config.None? ==> t == []
    ensures config.Some? ==> t == config.value.chestChances
  {
    if config.Some? then config.value.chestChances else []
  }

  /** The block that replaces the broken one: a chest for a chest outcome;
      otherwise the stage list's draw, or STONE when the stage has no list
      or the list is empty. */
  function NewBlock(isChest: bool, list: Option<Pool<BlockRef>>, draw: real): (b: BlockRef)
    ensures isChest ==> b == VanillaBlock(CHEST)
    ensures !isChest && (list.None? || |list.value.entries| == 0) ==> b == VanillaBlock(STONE)
    ensures !isChest && list.Some? && |list.value.entries| > 0 ==>
      exists i :: 0 <= i < |list.value.entries| && list.value.entries[i].item == b
  {
    if isChest then VanillaBlock(CHEST)
    else if list.None? then VanillaBlock(STONE)
    else
      ChooseYieldsAddedItem(list.value, draw);
      match Choose(list.value, draw)
      case Some(b) => b
      case None => VanillaBlock(STONE)
  }

  /** The block type string: a material's name or the custom key itself. */
  function BlockName(b: BlockRef): string {
    match b
    case VanillaBlock(m) => m
    case IaBlock(id) => id
  }

  /** The type written to the store: "CHEST:" and the configuration for a
      chest, the block's name otherwise. */
  function DbTag(o: Outcome, blockType: string): (t: string)
    ensures o.isChest && o.chestConfigName.Some? ==>
      StartsWith(t, ChestTagPrefix) && t[|ChestTagPrefix|..] == o.chestConfigName.value
    ensures !o.isChest ==> t == blockType
  {
    if o.isChest && o.chestConfigName.Some? then ChestTagPrefix + o.chestConfigName.value else blockType
  }

  /** What phase 1 puts into the world for a non-chest block: a material as
      it is; a custom key without its three-character prefix when the
      integration can place it, STONE when it cannot; nothing when the key is
      too short to drop a prefix (the substring throws). */
  function Placement(b: BlockRef, placeable: set<string>): (r: Option<Block>)
    ensures b.VanillaBlock? ==> r == Some(Vanilla(b.material))
    ensures b.IaBlock? && |b.id| < 3 ==> r.None?
    ensures b.IaBlock? && |b.id| >= 3 ==>
      r == Some(if b.id[3..] in placeable then Custom(b.id[3..]) else Vanilla(STONE))
  {
    match b
    case VanillaBlock(m) => Some(Vanilla(m))
    case IaBlock(id) =>
      if |id| < 3 then None
      else if id[3..] in placeable then Some(Custom(id[3..])) else Some(Vanilla(STONE))
  }

  /** A player's progress map once `initPlayerProgress` has run: an unknown
      player is put on the default stage when that stage loads. */
  function InitProgress(cache: map<string, StageConfig>, folder: DataFolder, view: map<PlayerId, Progress>, id: PlayerId)
    : (map<string, StageConfig>, map<PlayerId, Progress>)
  {
    if id in view then (cache, view)
    else
      var (c, config) := Load(cache, folder, DefaultStage);
      (c, if config.Some? then view[id := Progress(DefaultStage, 0)] else view)
  }

  /** The progress map after the initialisation and the counted break. */
  function BreakProgress(cache: map<string, StageConfig>, folder: DataFolder, view: map<PlayerId, Progress>,
                         id: PlayerId, online: bool): map<PlayerId, Progress>
  {
    var (c, v) := InitProgress(cache, folder, view, id);
    if id in v then v[id := AfterBreak(c, folder, v[id], online).1] else v
  }

  /** The sampler cached for a stage, if any. */
  function CachedList(lists: map<string, WeightedRandom<BlockRef>>, stageFile: string): Option<WeightedRandom<BlockRef>> {
    if WithYml(stageFile) in lists then Some(lists[WithYml(stageFile)]) else None
  }

  /** A player's row written last wins over one the initialisation wrote. */
  lemma RowWrittenLast(rows0: map<PlayerId, ProgressRow>, rows1: map<PlayerId, ProgressRow>,
                       rows2: map<PlayerId, ProgressRow>, id: PlayerId, row: ProgressRow)
    requires rows1 == rows0 || rows1 == rows0[id := ProgressRow(DefaultStage, 0)]
    requires rows2 == rows1[id := row]
    ensures rows2 == rows0[id := row]
  {
    if rows1 != rows0 {
      assert rows0[id := ProgressRow(DefaultStage, 0)][id := row] == rows0[id := row];
    }
  }

  /** The work a break hands to the deferred callbacks. */
  datatype Pending = Pending(pos: Pos, playerName: string, outcome: Outcome, block: BlockRef, blockType: string)

  class BlockBreakListener {
    var processedChests: set<Pos>

    constructor ()
      ensures processedChests == {}
    {
      processedChests := {};
    }

    /** The priority bands of `onBlockBreak`, with the loop over the stage
        table that stops at the first admitting entry. */
    static method ChooseOutcome(r: real, entityChance: real, chestChances: seq<(string, real)>,
                                chestChance: real, randomName: string) returns (o: Outcome)
      ensures o == DecideOutcome(r, entityChance, chestChances, chestChance, randomName)
    {
      var isChest := false;
      var isEntity := false;
      var chestConfigName: Option<string> := None;
      if r <= entityChance {
        isEntity := true;
      } else if |chestChances| > 0 {
        var i := 0;
        while i < |chestChances|
          invariant 0 <= i <= |chestChances|
          invariant FirstMatchFrom(chestChances, r, entityChance, 0) == FirstMatchFrom(chestChances, r, entityChance, i)
          invariant !isChest && chestConfigName.None?
        {
          if r <= chestChances[i].1 + entityChance {
            isChest := true;
            chestConfigName := Some(chestChances[i].0);
            break;
          }
          i := i + 1;
        }
      } else {
        var chestChance := chestChance;
        if r <= chestChance + entityChance {
          isChest := true;
          chestConfigName := Some(randomName);
        }
      }
      o := Outcome(isEntity, isChest, chestConfigName);
    }

    /** Steps 1 and 2 of a counted break: `initPlayerProgress` and then
        `incrementBlocksBroken`. `threw` says that the count's debug line
        threw for a player the server does not find. */
    static method CountBreak(stages: StageManager, folder: DataFolder, id: PlayerId, online: bool)
      returns (threw: bool)
      requires stages.Valid()
      modifies stages, stages.playerProgress.Values, stages.catalog, stages.db
      ensures stages.Valid()
      ensures threw <==> id in stages.View() && !online
      ensures var (c, v) := InitProgress(old(stages.catalog.configCache), folder, old(stages.View()), id);
        && stages.View() == BreakProgress(old(stages.catalog.configCache), folder, old(stages.View()), id, online)
        && (id in v ==> stages.catalog.configCache == AfterBreak(c, folder, v[id], online).0)
        && (id !in v ==> stages.catalog.configCache == c)
      ensures stages.db.blockRows == old(stages.db.blockRows)
      ensures id in stages.View() ==> id in old(stages.View()) || stages.db.progressRows == old(stages.db.progressRows)[id := ProgressRow(DefaultStage, 0)]
      ensures id in old(stages.View()) || id !in stages.View() ==> stages.db.progressRows == old(stages.db.progressRows)
    {
      var _ := stages.InitPlayerProgress(folder, id);
      var _, t := stages.IncrementBlocksBroken(folder, id, online);
      threw := t;
    }

    /** The outcome draw of `onBlockBreak`: the current stage's table and
        entity chance (both from the stage after the count), the global
        chest chance and the random configuration name. */
    static method DrawOutcome(stages: StageManager, chests: EnhancedChestManager, folder: DataFolder,
                              config: Section, id: PlayerId, r: real, chestDraw: nat) returns (outcome: Outcome)
      modifies stages.catalog
      ensures stages.View() == old(stages.View())
      ensures var stage := stages.GetCurrentStageFile(id);
        && stages.catalog.configCache == Load(old(stages.catalog.configCache), folder, stage).0
        && outcome == DecideOutcome(r, EntityChanceOf(Load(stages.catalog.configCache, folder, stage).1),
                                    ChancesOf(Load(stages.catalog.configCache, folder, stage).1),
                                    GetDouble(config, "chest-chance", DefaultChestChance),
                                    chests.GetRandomChestConfig(chestDraw))
    {
      var chestChances := stages.GetChestChances(folder, id);
      ghost var cache1 := old(stages.catalog.configCache);
      var stageConfig := stages.catalog.LoadStageConfig(folder, stages.GetCurrentStageFile(id));
      LoadIsStable(cache1, folder, stages.GetCurrentStageFile(id));
      var entityChance := if stageConfig.Some? then stageConfig.value.entityChance else DefaultEntityChance;
      outcome := ChooseOutcome(r, entityChance, chestChances,
                               GetDouble(config, "chest-chance", DefaultChestChance),
                               chests.GetRandomChestConfig(chestDraw));
    }

    /** The block choice of `onBlockBreak`: a chest, or a draw from the
        stage's block list with STONE as the fallback. */
    static method DrawBlock(blockLists: BlockListManager, known: set<Material>, folder: DataFolder,
                            stageFile: string, isChest: bool, blockDraw: real) returns (newBlock: BlockRef)
      requires blockLists.Valid()
      modifies blockLists
      ensures blockLists.Valid()
      ensures var list := CachedList(blockLists.blockLists, stageFile);
        newBlock == NewBlock(isChest, if list.Some? then Some(list.value.State()) else None, blockDraw)
      ensures forall name :: name != WithYml(stageFile) ==>
        (name in blockLists.blockLists <==> name in old(blockLists.blockLists))
    {
      var blockList := blockLists.GetBlockList(known, folder, stageFile);
      newBlock := VanillaBlock(STONE);
      if !isChest {
        if blockList.Some? {
          var drawn := blockList.value.GetRandom(blockDraw);
          if drawn.None? {
            newBlock := VanillaBlock(STONE);
          } else {
            newBlock := drawn.value;
          }
        }
      } else {
        newBlock := VanillaBlock(CHEST);
      }
    }

    /** The store writes of `onBlockBreak`: the player's progress row when
        the player has progress, then the block's new type. */
    static method WriteBack(stages: StageManager, id: PlayerId, progress: Option<ProgressRow>, blockId: int, tag: string)
      modifies stages.db
      ensures stages.View() == old(stages.View())
      ensures progress.Some? ==> stages.db.progressRows == old(stages.db.progressRows)[id := progress.value]
      ensures progress.None? ==> stages.db.progressRows == old(stages.db.progressRows)
      ensures stages.db.blockRows.Keys == old(stages.db.blockRows).Keys
      ensures forall c :: c in stages.db.blockRows ==>
        stages.db.blockRows[c] == if old(stages.db.blockRows)[c].id == blockId then BlockRow(blockId, tag) else old(stages.db.blockRows)[c]
    {
      var db := stages.db;
      if progress.Some? {
        db.UpdatePlayerStage(id, progress.value.stageFile, progress.value.blocksBroken);
      }
      db.UpdateBlockType(blockId, tag);
    }

    /** The second half of `onBlockBreak` for an owned block: the block
        draw, then the player's progress row and the block's new type in the
        store. */
    static method PlaceAndRecord(stages: StageManager, blockLists: BlockListManager, known: set<Material>,
                                 folder: DataFolder, id: PlayerId, outcome: Outcome, blockDraw: real, blockId: int)
      returns (newBlock: BlockRef)
      requires blockLists.Valid()
      modifies stages.db, blockLists
      ensures blockLists.Valid()
      ensures stages.View() == old(stages.View())
      ensures var list := CachedList(blockLists.blockLists, stages.GetCurrentStageFile(id));
        newBlock == NewBlock(outcome.isChest, if list.Some? then Some(list.value.State()) else None, blockDraw)
      ensures stages.db.blockRows.Keys == old(stages.db.blockRows).Keys
      ensures forall c :: c in stages.db.blockRows ==>
        stages.db.blockRows[c] == if old(stages.db.blockRows)[c].id == blockId
                                  then BlockRow(blockId, DbTag(outcome, BlockName(newBlock)))
                                  else old(stages.db.blockRows)[c]
      ensures id in stages.View() ==>
        stages.db.progressRows == old(stages.db.progressRows)[id :=
          ProgressRow(stages.View()[id].stageFile, stages.View()[id].blocksBroken)]
      ensures id !in stages.View() ==> stages.db.progressRows == old(stages.db.progressRows)
    {
      var stageFile := stages.GetCurrentStageFile(id);
      newBlock := DrawBlock(blockLists, known, folder, stageFile, outcome.isChest, blockDraw);
      ghost var list := CachedList(blockLists.blockLists, stageFile);
      ghost var pool := if list.Some? then Some(list.value.State()) else None;
      var newBlockType := BlockName(newBlock);
      var progress := if id in stages.playerProgress
                      then Some(ProgressRow(stages.playerProgress[id].stageFile, stages.playerProgress[id].blocksBroken))
                      else None;
      WriteBack(stages, id, progress, blockId, DbTag(outcome, newBlockType));
      assert CachedList(blockLists.blockLists, stageFile) == list;
      assert (if list.Some? then Some(list.value.State()) else None) == pool;
    }

    /** The part of `onBlockBreak` after a count that did not throw: the
        draws, the store writes and the work handed to phase 1. */
    static method DrawAndRecord(stages: StageManager, blockLists: BlockListManager, chests: EnhancedChestManager,
                                folder: DataFolder, known: set<Material>, config: Section,
                                id: PlayerId, playerName: string, pos: Pos,
                                r: real, blockDraw: real, chestDraw: nat, blockId: int) returns (p: Pending)
      requires stages.Valid() && blockLists.Valid()
      modifies stages.catalog, stages.db, blockLists
      ensures stages.Valid() && blockLists.Valid()
      ensures stages.View() == old(stages.View())
      ensures p.pos == pos && p.playerName == playerName
      ensures var stage := stages.GetCurrentStageFile(id);
        var stageConfig := Load(stages.catalog.configCache, folder, stage).1;
        && p.outcome == DecideOutcome(r, EntityChanceOf(stageConfig), ChancesOf(stageConfig),
                                      GetDouble(config, "chest-chance", DefaultChestChance),
                                      chests.GetRandomChestConfig(chestDraw))
        && p.blockType == BlockName(p.block)
        && (var list := CachedList(blockLists.blockLists, stage);
            p.block == NewBlock(p.outcome.isChest, if list.Some? then Some(list.value.State()) else None, blockDraw))
      ensures stages.db.blockRows.Keys == old(stages.db.blockRows).Keys
      ensures forall c :: c in stages.db.blockRows ==>
        stages.db.blockRows[c] == if old(stages.db.blockRows)[c].id == blockId
                                  then BlockRow(blockId, DbTag(p.outcome, p.blockType))
                                  else old(stages.db.blockRows)[c]
      ensures id in stages.View() ==>
        stages.db.progressRows == old(stages.db.progressRows)[id :=
          ProgressRow(stages.View()[id].stageFile, stages.View()[id].blocksBroken)]
      ensures id !in stages.View() ==> stages.db.progressRows == old(stages.db.progressRows)
    {
      var outcome := DrawOutcome(stages, chests, folder, config, id, r, chestDraw);
      var newBlock := PlaceAndRecord(stages, blockLists, known, folder, id, outcome, blockDraw, blockId);
      p := Pending(pos, playerName, outcome, newBlock, BlockName(newBlock));
    }

    /** `onBlockBreak(event)` for a block the plugin placed (its store row
        has id `blockId`): the count, the draws, the store writes and the
        work handed to phase 1. When the count throws (a counted player the
        server does not find), the handler ends there: no draw, no write and
        nothing for phase 1. */
    static method HandleOwnedBreak(stages: StageManager, blockLists: BlockListManager, chests: EnhancedChestManager,
                                   folder: DataFolder, known: set<Material>, config: Section,
                                   id: PlayerId, playerName: string, pos: Pos, online: bool,
                                   r: real, blockDraw: real, chestDraw: nat, blockId: int) returns (pending: Option<Pending>)
      requires stages.Valid() && blockLists.Valid()
      modifies stages, stages.playerProgress.Values, stages.catalog, stages.db, blockLists
      ensures stages.Valid() && blockLists.Valid()
      ensures stages.View() == BreakProgress(old(stages.catalog.configCache), folder, old(stages.View()), id, online)
      ensures pending.None? <==> id in stages.View() && !online
      ensures pending.None? ==>
        && stages.db.blockRows == old(stages.db.blockRows)
        && blockLists.blockLists == old(blockLists.blockLists)
        && stages.db.progressRows == if id in old(stages.View()) then old(stages.db.progressRows)
                                     else old(stages.db.progressRows)[id := ProgressRow(DefaultStage, 0)]
      ensures pending.Some? ==> var p := pending.value;
        && p.pos == pos && p.playerName == playerName
        && (var stage := stages.GetCurrentStageFile(id);
            var stageConfig := Load(stages.catalog.configCache, folder, stage).1;
            && p.outcome == DecideOutcome(r, EntityChanceOf(stageConfig), ChancesOf(stageConfig),
                                          GetDouble(config, "chest-chance", DefaultChestChance),
                                          chests.GetRandomChestConfig(chestDraw))
            && p.blockType == BlockName(p.block)
            && (var list := CachedList(blockLists.blockLists, stage);
                p.block == NewBlock(p.outcome.isChest, if list.Some? then Some(list.value.State()) else None, blockDraw)))
        && stages.db.blockRows.Keys == old(stages.db.blockRows).Keys
        && (forall c :: c in stages.db.blockRows ==>
              stages.db.blockRows[c] == if old(stages.db.blockRows)[c].id == blockId
                                        then BlockRow(blockId, DbTag(p.outcome, p.blockType))
                                        else old(stages.db.blockRows)[c])
        && (id in stages.View() ==>
              stages.db.progressRows == old(stages.db.progressRows)[id :=
                ProgressRow(stages.View()[id].stageFile, stages.View()[id].blocksBroken)])
        && (id !in stages.View() ==> stages.db.progressRows == old(stages.db.progressRows))
    {
      ghost var rows0 := stages.db.progressRows;
      var threw := CountBreak(stages, folder, id, online);
      if threw {
        return None;
      }
      ghost var rows1 := stages.db.progressRows;
      var p := DrawAndRecord(stages, blockLists, chests, folder, known, config, id, playerName, pos,
                             r, blockDraw, chestDraw, blockId);
      if id in stages.View() {
        RowWrittenLast(rows0, rows1, stages.db.progressRows, id,
                       ProgressRow(stages.View()[id].stageFile, stages.View()[id].blocksBroken));
      }
      pending := Some(p);
    }

    /** `onBlockBreak(event)` up to the scheduling of phase 1. `r` is the
        outcome fraction, `blockDraw` the block list's fraction and
        `chestDraw` the index draw of `getRandomChestConfig`; `config` is the
        plugin configuration and `online` whether the server finds the
        player. A block without a store row is not the plugin's, and nothing
        happens; when the count throws, the event ends after the count. */
    method OnBlockBreak(stages: StageManager, blockLists: BlockListManager, chests: EnhancedChestManager,
                        folder: DataFolder, known: set<Material>, config: Section,
                        id: PlayerId, playerName: string, pos: Pos, online: bool,
                        r: real, blockDraw: real, chestDraw: nat) returns (pending: Option<Pending>)
      requires stages.Valid() && blockLists.Valid()
      modifies stages, stages.playerProgress.Values, stages.catalog, stages.db, blockLists
      ensures stages.Valid() && blockLists.Valid()
      ensures old(stages.db.FindBlockByLocation(pos.x, pos.y, pos.z)).None? ==>
        && pending.None?
        && stages.View() == old(stages.View())
        && stages.catalog.configCache == old(stages.catalog.configCache)
        && stages.db.blockRows == old(stages.db.blockRows)
        && stages.db.progressRows == old(stages.db.progressRows)
        && blockLists.blockLists == old(blockLists.blockLists)
      ensures old(stages.db.FindBlockByLocation(pos.x, pos.y, pos.z)).Some? ==>
        var row := old(stages.db.FindBlockByLocation(pos.x, pos.y, pos.z)).value;
        && stages.View() == BreakProgress(old(stages.catalog.configCache), folder, old(stages.View()), id, online)
        && (pending.None? <==> id in stages.View() && !online)
        && (pending.None? ==>
              && stages.db.blockRows == old(stages.db.blockRows)
              && blockLists.blockLists == old(blockLists.blockLists)
              && stages.db.progressRows == if id in old(stages.View()) then old(stages.db.progressRows)
                                           else old(stages.db.progressRows)[id := ProgressRow(DefaultStage, 0)])
        && (pending.Some? ==> var p := pending.value;
              && p.pos == pos && p.playerName == playerName
              && (var stage := stages.GetCurrentStageFile(id);
                  var stageConfig := Load(stages.catalog.configCache, folder, stage).1;
                  && p.outcome == DecideOutcome(r, EntityChanceOf(stageConfig), ChancesOf(stageConfig),
                                                GetDouble(config, "chest-chance", DefaultChestChance),
                                                chests.GetRandomChestConfig(chestDraw))
                  && p.blockType == BlockName(p.block)
                  && (var list := CachedList(blockLists.blockLists, stage);
                      p.block == NewBlock(p.outcome.isChest, if list.Some? then Some(list.value.State()) else None, blockDraw)))
              && stages.db.blockRows.Keys == old(stages.db.blockRows).Keys
              && (forall c :: c in stages.db.blockRows ==>
                    stages.db.blockRows[c] == if old(stages.db.blockRows)[c].id == row.id
                                              then BlockRow(row.id, DbTag(p.outcome, p.blockType))
                                              else old(stages.db.blockRows)[c])
              && (id in stages.View() ==>
                    stages.db.progressRows == old(stages.db.progressRows)[id :=
                      ProgressRow(stages.View()[id].stageFile, stages.View()[id].blocksBroken)])
              && (id !in stages.View() ==> stages.db.progressRows == old(stages.db.progressRows)))
    {
      var blockInfo := stages.db.FindBlockByLocation(pos.x, pos.y, pos.z);
      if blockInfo.None? {
        return None;
      }
      pending := HandleOwnedBreak(stages, blockLists, chests, folder, known, config, id, playerName, pos, online,
                                  r, blockDraw, chestDraw, blockInfo.value.id);
    }

    /** The first deferred callback. Nothing happens unless the position is
        AIR. A chest is placed once per position until phase 2 clears the
        mark, and then phase 2 is due; any other block is placed and the
        replacement logged under the broken block's world. */
    method Phase1(world: World, p: Pending, placeable: set<string>, log: LogManager, date: string, time: string)
      returns (fillScheduled: bool)
      requires world.Valid()
      modifies this, world, log
      ensures world.Valid()
      ensures log.enabled == old(log.enabled)
      ensures old(world.BlockAt(p.pos)) != Vanilla(AIR) ==>
        && !fillScheduled && processedChests == old(processedChests)
        && world.blocks == old(world.blocks) && world.chests == old(world.chests) && log.files == old(log.files)
      ensures old(world.BlockAt(p.pos)) == Vanilla(AIR) && p.outcome.isChest && p.pos in old(processedChests) ==>
        && !fillScheduled && processedChests == old(processedChests)
        && world.blocks == old(world.blocks) && world.chests == old(world.chests) && log.files == old(log.files)
      ensures old(world.BlockAt(p.pos)) == Vanilla(AIR) && p.outcome.isChest && p.pos !in old(processedChests) ==>
        && fillScheduled && processedChests == old(processedChests) + {p.pos}
        && world.blocks == old(world.blocks)[p.pos := Vanilla(CHEST)]
        && p.pos in world.chests && fresh(world.chests[p.pos])
        && world.chests[p.pos].inventory.Length == ChestSize
        && forall i :: 0 <= i < ChestSize ==> world.chests[p.pos].inventory[i] == None
      ensures old(world.BlockAt(p.pos)) == Vanilla(AIR) && p.outcome.isChest ==> log.files == old(log.files)
      ensures old(world.BlockAt(p.pos)) == Vanilla(AIR) && !p.outcome.isChest && Placement(p.block, placeable).None? ==>
        && !fillScheduled && processedChests == old(processedChests)
        && world.blocks == old(world.blocks) && world.chests == old(world.chests) && log.files == old(log.files)
      ensures old(world.BlockAt(p.pos)) == Vanilla(AIR) && !p.outcome.isChest && Placement(p.block, placeable).Some? ==>
        && !fillScheduled && processedChests == old(processedChests)
        && world.blocks == old(world.blocks)[p.pos := Placement(p.block, placeable).value]
        && (!log.enabled ==> log.files == old(log.files))
        && (log.enabled ==> log.files == old(log.files)[LogFile(date) :=
              (if LogFile(date) in old(log.files) then old(log.files)[LogFile(date)] else [])
                + [ReplacementLine(time, p.playerName, p.pos.world, p.pos.x, p.pos.y, p.pos.z, p.blockType)]])
      ensures forall q :: q != p.pos ==> (q in world.chests <==> q in old(world.chests))
    {
      fillScheduled := false;
      var location := p.pos;
      if world.BlockAt(location) != Vanilla(AIR) {
        return;
      }
      if p.outcome.isChest {
        if location in processedChests {
          return;
        }
        processedChests := processedChests + {location};
        world.SetType(location, CHEST);
        fillScheduled := true;
        return;
      }
      match p.block {
        case VanillaBlock(material) =>
          world.SetType(location, material);
        case IaBlock(iaBlockId) =>
          if |iaBlockId| < 3 {
            return;
          }
          var realBlockId := iaBlockId[3..];
          var success := world.PlaceCustom(location, realBlockId, placeable);
          if !success {
            world.SetType(location, STONE);
          }
      }
      log.LogBlockReplacement(date, time, p.playerName, location.world, location.x, location.y, location.z, p.blockType);
    }

    /** The second deferred callback: the position's mark is cleared first,
        then a chest still standing there is filled from the outcome's
        configuration (`draws` and `custom` as for `fillChest`). */
    method Phase2(world: World, p: Pending, chests: EnhancedChestManager,
                  draws: nat -> GroupDraws, custom: map<string, ItemStack>) returns (completed: bool)
      requires world.Valid() && chests.Valid()
      requires p.outcome.chestConfigName.Some?
      modifies this, chests.items
      modifies if p.pos in world.chests then {world.chests[p.pos], world.chests[p.pos].inventory} else {}
      ensures chests.Valid()
      ensures processedChests == old(processedChests) - {p.pos}
      ensures p.pos !in world.chests ==> !completed && chests.Templates() == old(chests.Templates())
      ensures p.pos in world.chests && ConfigFor(chests.chestConfigs, p.outcome.chestConfigName.value).None? ==>
        && !completed && chests.Templates() == old(chests.Templates())
        && world.chests[p.pos].inventory[..] == old(world.chests[p.pos].inventory[..])
      ensures p.pos in world.chests && ConfigFor(chests.chestConfigs, p.outcome.chestConfigName.value).Some? ==>
        var chest := world.chests[p.pos];
        var config := ConfigFor(chests.chestConfigs, p.outcome.chestConfigName.value).value;
        && chest.customName == (if completed && config.name != "" then Some(config.name) else old(chest.customName))
        && Covers(GroupValues(config.groups), old(chests.Templates()))
        && var fin := FillFrom(GroupValues(config.groups), 0,
                               FillState(old(chest.inventory[..]), old(chests.Templates()), false), draws, custom);
           chest.inventory[..] == fin.inv && chests.Templates() == fin.tmpl && completed == !fin.threw
    {
      processedChests := processedChests - {p.pos};
      assert chests.Templates() == old(chests.Templates());
      completed := false;
      if p.pos in world.chests {
        var chest := world.chests[p.pos];
        completed := chests.FillChest(chest, true, p.outcome.chestConfigName.value, draws, custom);
      }
    }
  }
}
