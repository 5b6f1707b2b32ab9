# KaOneBlock gameplay core in Dafny

KaOneBlock is a "one block" Minecraft server plugin. A player stands on a
single block the plugin placed, and breaking it makes the plugin put a new
block in the same spot. The new block is drawn from the player's current
stage (a weighted list of vanilla and ItemsAdder blocks), or it is a loot
chest. A stage ends after a configured number of breaks, and the player
moves on to the stage's next file.

This project models the plugin's gameplay engine and proves what it
guarantees. One Dafny module stands for each Java class:

- the weighted sampler (`Weighted`);
- the stage definitions, their loader and cache (`StageConfigs`, `StageCatalog`);
- per-player progress and stage advancement (`Progression`);
- the stage block lists (`BlockLists`);
- chest loot entries, the poll that places them and the chest
  configurations (`ChestItems`, `ChestPolls`, `ChestManager`);
- entity packs (`Entities`);
- message languages (`Languages`);
- the block log (`Logging`);
- the block-break handler with its two deferred callbacks (`BreakListener`).

Classes whose fields the Java code updates are Dafny classes: the managers
and their caches, `WeightedRandom`, `ContainerItem`, `ContainerPoll`, the
progress objects and the listener's set of chest positions. Each of their
methods is proved against a specification function. The properties that
matter are lemmas about those functions. Among them:

- a sampler returns entry i exactly on its weight's share of fractions;
- a break causes at most one stage transition, and exactly the amount's
  worth of breaks reaches the next stage;
- a chest fill never displaces an item already in the chest;
- a shuffle of empty slots is a permutation of them;
- the stage's chest table is not cumulative;
- the caches give what reading the files gives.

The model also fixes how the world outside the engine appears:

- Files appear as a `DataFolder` value: each directory's files with what
  the YAML loader made of them.
- The persistence store is a table of rows.
- The game world is a map from positions to blocks plus chest inventories.
- Random draws are parameters: a fraction in [0, 1) for `nextDouble`, a
  natural number for `nextInt`, a stream of naturals for a shuffle.

## Model

| member | source | states |
|---|---|---|
| Weighted.AddEntry | src/main/java/org/katacr/kaOneBlock/WeightedRandom.java:22-26 | a weight of zero or less leaves the sampler as it was; a positive weight raises the total by that weight and appends an entry carrying the new running total |
| Weighted.AddEntryKeepsInvariant | src/main/java/org/katacr/kaOneBlock/WeightedRandom.java:22-26 | adding keeps cumulative weights strictly increasing from a positive first one and ending at the total, and the new entry's interval is exactly as wide as its weight |
| Weighted.FirstAbove | src/main/java/org/katacr/kaOneBlock/WeightedRandom.java:36-40 | the scan stops at the first entry whose cumulative weight exceeds the value; every entry before it is at or below the value |
| Weighted.ChosenIndex | src/main/java/org/katacr/kaOneBlock/WeightedRandom.java:35-41 | the entry chosen for any fraction is a valid index of a non-empty sampler, through the last-entry fallback |
| Weighted.ChooseYieldsAddedItem | src/main/java/org/katacr/kaOneBlock/WeightedRandom.java:33-42 | `getRandom` returns null exactly when the sampler is empty, and otherwise one of the items that were added, whatever the fraction |
| Weighted.ScaledBelowTotal | src/main/java/org/katacr/kaOneBlock/WeightedRandom.java:35 | a fraction in [0, 1) scaled by a positive total lies in [0, total) |
| Weighted.ChooseIntervalAt | src/main/java/org/katacr/kaOneBlock/WeightedRandom.java:35-41 | for a scaled value in [0, total) the scan always finds an entry (the fallback is never needed), and entry i is chosen exactly when the value lies in its half-open interval |
| Weighted.ChooseInterval | src/main/java/org/katacr/kaOneBlock/WeightedRandom.java:33-42 | for a fraction in [0, 1), entry i is returned exactly when fraction·total lies in [previous cumulative weight, its cumulative weight) |
| Weighted.WeightedRandom.constructor | src/main/java/org/katacr/kaOneBlock/WeightedRandom.java:11-14 | a new sampler is empty with total 0 and satisfies the invariant |
| Weighted.WeightedRandom.Add | src/main/java/org/katacr/kaOneBlock/WeightedRandom.java:22-26 | `add` keeps the invariant and leaves the sampler in the state `AddEntry` describes |
| Weighted.WeightedRandom.GetRandom | src/main/java/org/katacr/kaOneBlock/WeightedRandom.java:33-42 | the scan loop returns exactly what `Choose` describes for the fraction |
| StageConfigs.NewStageConfig | src/main/java/org/katacr/kaOneBlock/StageConfig.java:5-12 | a fresh stage definition has 500 blocks, no next stage, no message, an empty chest table, no entity pack and entity chance 0.05 |
| StageCatalog.ChancesAreTheDoubles | src/main/java/org/katacr/kaOneBlock/StageConfigManager.java:62-70 | a key enters the chest table exactly when it is among the `chests` keys with a double value, and it gets that value |
| StageCatalog.ParseStage | src/main/java/org/katacr/kaOneBlock/StageConfigManager.java:41-80 | `amount` defaults to 500; `next`, `message` and `entity_pack` are taken only when they are strings, `entity_chance` only when it is a double, each with its default otherwise |
| StageCatalog.EmptyStageIsDefault | src/main/java/org/katacr/kaOneBlock/StageConfigManager.java:41-80 | a stage file with none of the keys loads as a fresh stage definition |
| StageCatalog.LoadCases | src/main/java/org/katacr/kaOneBlock/StageConfigManager.java:22-86 | the name gains ".yml" when missing; a cached name returns the cached definition and changes nothing; a missing file returns null and caches nothing; otherwise the parsed file is returned and cached |
| StageCatalog.LoadIsStable | src/main/java/org/katacr/kaOneBlock/StageConfigManager.java:28-31 | loading the same name a second time returns the same answer and leaves the cache as it was, and the name with or without its ".yml" suffix finds the same entry |
| StageCatalog.LoadChestChances | src/main/java/org/katacr/kaOneBlock/StageConfigManager.java:62-70 | the loop over the `chests` keys builds exactly the chest table `ChancesUpTo` describes |
| StageCatalog.StageConfigManager.constructor | src/main/java/org/katacr/kaOneBlock/StageConfigManager.java:13-17 | the cache starts empty |
| StageCatalog.StageConfigManager.LoadStageConfig | src/main/java/org/katacr/kaOneBlock/StageConfigManager.java:22-86 | the result and the new cache are those of `Load` on the old cache |
| StageCatalog.StageConfigManager.ClearCache | src/main/java/org/katacr/kaOneBlock/StageConfigManager.java:91-94 | the cache is empty afterwards |
| BlockLists.Classify | src/main/java/org/katacr/kaOneBlock/BlockListManager.java:78-101 | a key whose lower-cased form starts with "ia:" is kept as a custom block under its original key; any other key is a vanilla block exactly when the registry has its `matchMaterial` normal form, and then is that material |
| BlockLists.ListPoolWellFormed | src/main/java/org/katacr/kaOneBlock/BlockListManager.java:76-105 | the block list built from a `blocks` section is a well-formed sampler |
| BlockLists.ListPoolSound | src/main/java/org/katacr/kaOneBlock/BlockListManager.java:78-102 | every entry of a block list comes from a key that classifies and has a positive weight, and carries that key's block |
| BlockLists.ListPoolComplete | src/main/java/org/katacr/kaOneBlock/BlockListManager.java:78-102 | every key that classifies and has a positive weight has an entry in the block list |
| BlockLists.BlockListManager.constructor | src/main/java/org/katacr/kaOneBlock/BlockListManager.java:14-18 | the cache of block lists starts empty |
| BlockLists.BlockListManager.LoadBlockList | src/main/java/org/katacr/kaOneBlock/BlockListManager.java:62-106 | null exactly when the file or its `blocks` section is missing; otherwise a new sampler holding `ListPool` over every key of the section |
| BlockLists.BlockListManager.AddListed | src/main/java/org/katacr/kaOneBlock/BlockListManager.java:79-101 | one key of the section moves the sampler from the list of the keys before it to the list including it |
| BlockLists.BlockListManager.GetBlockList | src/main/java/org/katacr/kaOneBlock/BlockListManager.java:23-60 | the name gains ".yml" when missing; a cached list is returned as is and the cache is unchanged; a missing file or a file without a `blocks` section gives null and caches nothing; otherwise the loaded list is returned and cached under the name |
| BlockLists.BlockListManager.ClearCache | src/main/java/org/katacr/kaOneBlock/BlockListManager.java:111-114 | the cache is empty afterwards |
| ChestItems.Quantity | src/main/java/org/katacr/kaOneBlock/chest/ContainerItem.java:37-45 | the amount is at least 1, and is the drawn amount whenever that is positive |
| ChestItems.QuantityRange | src/main/java/org/katacr/kaOneBlock/chest/ContainerItem.java:37-45 | with a positive minimum, an empty range gives the minimum and a proper range gives an amount between minimum and maximum |
| ChestItems.Built | src/main/java/org/katacr/kaOneBlock/chest/ContainerItem.java:47-62 | there is no stack exactly for an AIR template; otherwise the stack is the template's material and custom id with the quantity as its amount |
| ChestItems.Resolved | src/main/java/org/katacr/kaOneBlock/chest/ContainerItem.java:50-55 | only a BARRIER placeholder whose custom id the registry knows is replaced, by the registry's item; every other template stays |
| ChestItems.ContainerItem.constructor | src/main/java/org/katacr/kaOneBlock/chest/ContainerItem.java:20-26 | the entry keeps the template, slot, minimum and maximum it was given |
| ChestItems.ContainerItem.BuildItem | src/main/java/org/katacr/kaOneBlock/chest/ContainerItem.java:36-63 | the result is the stack `Built` describes for the old template, and the template afterwards is the old one `Resolved` |
| ChestItems.ContainerItem.ResolveDelayedItem | src/main/java/org/katacr/kaOneBlock/chest/ContainerItem.java:65-85 | the registry's item is returned exactly when the template carries a custom id the registry knows |
| ChestPolls.EmptySlotsExact | src/main/java/org/katacr/kaOneBlock/chest/ContainerPoll.java:36-41 | the list of empty slots holds exactly the empty slots, each once |
| ChestPolls.Swap | src/main/java/org/katacr/kaOneBlock/chest/ContainerPoll.java:46 | one swap of the shuffle keeps the length and the multiset of slots |
| ChestPolls.Pick | src/main/java/org/katacr/kaOneBlock/chest/ContainerPoll.java:46 | the position drawn for a swap lies below the current bound |
| ChestPolls.ShuffleDownPermutes | src/main/java/org/katacr/kaOneBlock/chest/ContainerPoll.java:46 | the shuffle is a permutation of the slot list |
| ChestPolls.PoolIsTheEmptySlots | src/main/java/org/katacr/kaOneBlock/chest/ContainerPoll.java:36-46 | the shuffled pool holds exactly the slots empty at the start, each once |
| ChestPolls.Step | src/main/java/org/katacr/kaOneBlock/chest/ContainerPoll.java:55-99 | one entry replaces only its own template, by its resolved form, and keeps the inventory's size |
| ChestPolls.PollFrom | src/main/java/org/katacr/kaOneBlock/chest/ContainerPoll.java:50-100 | the walk keeps the inventory's size and the set of templates, and leaves the templates of items outside the poll alone |
| ChestPolls.PlacedWithinTarget | src/main/java/org/katacr/kaOneBlock/chest/ContainerPoll.java:49-53 | the walk never places more entries than the drawn target |
| ChestPolls.StepKeeps | src/main/java/org/katacr/kaOneBlock/chest/ContainerPoll.java:63-85 | one entry never writes a slot that was occupied at the start, and its pool stays within the slots that were empty at the start |
| ChestPolls.PollKeepsOccupiedSlots | src/main/java/org/katacr/kaOneBlock/chest/ContainerPoll.java:50-100 | a whole poll never overwrites a slot occupied at the start and keeps the inventory's size |
| ChestPolls.InitialKeeps | src/main/java/org/katacr/kaOneBlock/chest/ContainerPoll.java:36-49 | the starting state of a poll satisfies what the walk keeps |
| ChestPolls.StopsWhenPoolEmpty | src/main/java/org/katacr/kaOneBlock/chest/ContainerPoll.java:51-53 | once the pool is empty the walk stops, even for later entries with a free fixed slot |
| ChestPolls.StepPlacement | src/main/java/org/katacr/kaOneBlock/chest/ContainerPoll.java:55-86 | an AIR entry changes nothing; an entry with an in-range empty fixed slot goes there and leaves the pool; any other entry takes the pool's head, which is removed |
| ChestPolls.FixedSlotCanBeOverwritten | src/main/java/org/katacr/kaOneBlock/chest/ContainerPoll.java:65-85 | a used fixed slot stays in the pool, so a later entry can replace the stack put there while both count as placed |
| ChestPolls.ContainerPoll.constructor | src/main/java/org/katacr/kaOneBlock/chest/ContainerPoll.java:19-24 | the poll keeps its minimum, maximum and entries |
| ChestPolls.ContainerPoll.Run | src/main/java/org/katacr/kaOneBlock/chest/ContainerPoll.java:26-103 | the inventory ends as `PollFrom` over the shuffled empty slots with the drawn target, and each entry's template ends as the walk's |
| ChestPolls.ContainerPoll.PlaceAt | src/main/java/org/katacr/kaOneBlock/chest/ContainerPoll.java:50-99 | one pass of the entry loop performs exactly one `Step` and keeps the template map in step with the entries |
| ChestPolls.CollectEmptySlots | src/main/java/org/katacr/kaOneBlock/chest/ContainerPoll.java:36-41 | the loop lists exactly `EmptySlotsUpTo` over the whole inventory |
| ChestPolls.PlaceOne | src/main/java/org/katacr/kaOneBlock/chest/ContainerPoll.java:55-99 | the inventory, pool, count and template after one entry are those of `Step` |
| Common.WithYml | src/main/java/org/katacr/kaOneBlock/StageConfigManager.java:24-26 | the normalised name always ends in ".yml"; it is the name itself exactly when that already ends in ".yml", and the name with ".yml" appended otherwise |
| Common.WithYmlIdempotent | src/main/java/org/katacr/kaOneBlock/StageManager.java:47-49 | normalising a name that was already normalised changes nothing, so the repeated suffix checks of the managers agree |
| Common.DrawBetween | src/main/java/org/katacr/kaOneBlock/chest/ContainerPoll.java:28-31 | an empty or one-point range gives its lower bound; a proper range gives a value between the bounds, both included |
| Common.DrawBetweenCovers | src/main/java/org/katacr/kaOneBlock/chest/ContainerPoll.java:28-31 | every value of a proper range is produced by some draw, so the injected draw does not narrow what `nextInt(min, max + 1)` can return |
| Common.Lookup | src/main/java/org/katacr/kaOneBlock/LanguageManager.java:49-50 | `get` finds nothing exactly when no entry has the key, and otherwise a value stored under the key |
| Common.Put | src/main/java/org/katacr/kaOneBlock/StageConfigManager.java:67 | after `put` the key maps to the new value and every other key to what it mapped to before; a new key is appended at the end of the iteration order and an existing key keeps its place |
| Common.ReplaceAll | src/main/java/org/katacr/kaOneBlock/chest/EnhancedChestManager.java:48 | removing every occurrence of ".yml" never makes a file name longer |
| Items.MatchMaterial | src/main/java/org/katacr/kaOneBlock/BlockListManager.java:90 | a name matches exactly when the registry has its normal form, and then matches that canonical material; a name already canonical matches itself when the registry has it and nothing otherwise |
| Items.Normalise | src/main/java/org/katacr/kaOneBlock/chest/EnhancedChestManager.java:160 | the normal form of any name is canonical: word characters only, no lower-case letter |
| Items.NormaliseIsStaged | src/main/java/org/katacr/kaOneBlock/BlockListManager.java:90 | the one-pass normal form equals upper-casing, then each whitespace run made one underscore, then every non-word character removed |
| Items.CanonicalIsNormal | src/main/java/org/katacr/kaOneBlock/BlockListManager.java:90 | a canonical name is its own registry key |
| Items.NormalNameIdempotent | src/main/java/org/katacr/kaOneBlock/BlockListManager.java:90 | normalising a name twice gives the same key as once |
| Items.MatchNamespacedName | src/main/java/org/katacr/kaOneBlock/BlockListManager.java:90 | "minecraft:ice" matches ICE: the namespace and the case are ignored |
| Items.MatchSpacedName | src/main/java/org/katacr/kaOneBlock/BlockListManager.java:90 | "a", a space, a tab, a space and "b" matches A_B: a whitespace run stands for one underscore |
| Items.MatchDropsPunctuation | src/main/java/org/katacr/kaOneBlock/chest/EnhancedChestManager.java:160 | "a-b" does not match A_B: punctuation is dropped, not made an underscore |
| Progression.PlayerStageProgress.constructor | src/main/java/org/katacr/kaOneBlock/StageManager.java:246-249 | a progress object holds the stage file and count it was made with |
| Progression.Announcement | src/main/java/org/katacr/kaOneBlock/StageManager.java:68-71 | a stage's message is sent exactly when it is non-empty, and it is that message |
| Progression.AtMostOneTransition | src/main/java/org/katacr/kaOneBlock/StageManager.java:101-173 | a break either only raises the count by one, or moves an online player, whose stage loaded and whose count reached the stage's amount, to that stage's next file (which exists), with the count at 0; nothing else can happen |
| Progression.ThresholdTransition | src/main/java/org/katacr/kaOneBlock/StageManager.java:149-173 | conversely, an online player whose count reaches the amount while the next stage's file exists always moves to that stage with the count at 0, and is sent the next stage's message |
| Progression.CountGrowsWithoutNextStage | src/main/java/org/katacr/kaOneBlock/StageManager.java:155-167 | when the next stage's file is missing, any number k of breaks leaves the player on the stage with the count raised by exactly k, past the amount |
| Progression.BreaksReachNextStage | src/main/java/org/katacr/kaOneBlock/StageManager.java:101-173 | from a count c below the stage's amount, exactly amount - c breaks put the player on the next stage with the count back at 0 |
| Progression.StageManager.constructor | src/main/java/org/katacr/kaOneBlock/StageManager.java:15-19 | a new manager tracks no player, and no two players share a progress object |
| Progression.StageManager.Bind | src/main/java/org/katacr/kaOneBlock/StageManager.java:43-63 | the stage is loaded through the catalogue; when it cannot be loaded no progress changes; otherwise the player, and only that player, is on the normalised stage with the count at 0 |
| Progression.StageManager.SetPlayerStage | src/main/java/org/katacr/kaOneBlock/StageManager.java:191-231 | a null player changes nothing; an unloadable stage changes no progress and writes nothing; otherwise the player is on the stage with count 0, the row (stage, 0) is stored for that player only, and the stage's message is sent |
| Progression.StageManager.SetPlayerStageAndSendMessage | src/main/java/org/katacr/kaOneBlock/StageManager.java:43-72 | as the forced set, without writing to the store: the player is on the stage with count 0 and gets its message, or nothing changes when the stage cannot be loaded |
| Progression.StageManager.ResetPlayerStage | src/main/java/org/katacr/kaOneBlock/StageManager.java:115-144 | the same outcome as `setPlayerStageAndSendMessage` for every input |
| Progression.StageManager.InitPlayerProgress | src/main/java/org/katacr/kaOneBlock/StageManager.java:24-30 | a tracked player is left alone; an untracked one is put on "normal.yml" with count 0, that row is stored and the stage's announcement is returned, when the default stage loads; no message otherwise |
| Progression.StageManager.OnPlayerJoin | src/main/java/org/katacr/kaOneBlock/StageManager.java:75-88 | a tracked player is left alone; an untracked one gets the stored row when the store has one, and otherwise starts on the default stage as with `initPlayerProgress` |
| Progression.StageManager.GetCurrentStageFile | src/main/java/org/katacr/kaOneBlock/StageManager.java:93-96 | a tracked player's stage file, and "normal.yml" for anyone else |
| Progression.StageManager.GetChestChances | src/main/java/org/katacr/kaOneBlock/StageManager.java:179-183 | the chest table of the player's current stage, or an empty table when that stage cannot be loaded |
| Progression.StageManager.CheckStageAdvancement | src/main/java/org/katacr/kaOneBlock/StageManager.java:149-174 | the player's progress afterwards, the catalogue cache and the message are those of the break transition `AfterBreak` for the count before the increment |
| Progression.StageManager.IncrementBlocksBroken | src/main/java/org/katacr/kaOneBlock/StageManager.java:101-110 | an untracked player changes nothing; a tracked player's progress, the cache and the message are those of `AfterBreak`, so an offline player's count rises with no advancement; the call throws exactly for a tracked player the server does not find |
| Progression.StageManager.CountBreak | src/main/java/org/katacr/kaOneBlock/StageManager.java:104 | the player's count goes up by one on the shared progress object, and no other player's progress changes |
| Entities.ParseType | src/main/java/org/katacr/kaOneBlock/EntityManager.java:69-76 | the type is the upper-cased name when that names a known entity type, and ZOMBIE otherwise |
| Entities.ParseTypeIgnoresCase | src/main/java/org/katacr/kaOneBlock/EntityManager.java:72 | a type name in lower case parses to the same type as the name itself |
| Entities.ArmorsUpToSlot | src/main/java/org/katacr/kaOneBlock/EntityManager.java:80-89 | the armour map holds a slot exactly when some key folds to it, with the upper-cased value of the last such key |
| Entities.Armors | src/main/java/org/katacr/kaOneBlock/EntityManager.java:80-89 | an entry without an `armors` section has no armour |
| Entities.ParseEntity | src/main/java/org/katacr/kaOneBlock/EntityManager.java:63-91 | an entity is named by its key; its type is known or ZOMBIE (ZOMBIE without `type`); the weight defaults to 10, the name tag to empty and the armour to none |
| Entities.EntityArmors | src/main/java/org/katacr/kaOneBlock/EntityManager.java:80-89 | an entity's armour slots are the lower-cased keys of its `armors` section, each holding the upper-cased value of its last key |
| Entities.PackUpToNext | src/main/java/org/katacr/kaOneBlock/EntityManager.java:61-98 | one more key of the `list` section adds its parsed entry under the key when its value is a section, and changes nothing otherwise |
| Entities.PackUpToLookup | src/main/java/org/katacr/kaOneBlock/EntityManager.java:61-98 | after any number of keys the pack holds exactly the keys read whose value is a section, each parsed from that section |
| Entities.PackOfLookup | src/main/java/org/katacr/kaOneBlock/EntityManager.java:58-98 | a file without a `list` section gives an empty pack; otherwise a name is in the pack exactly when the list has a section under it, parsed from it |
| Entities.LoadPackTransparent | src/main/java/org/katacr/kaOneBlock/EntityManager.java:45-103 | while the files do not change, a load gives what reading the file gives and the cache stays in agreement with the files; a missing file is not cached and an existing one is |
| Entities.LoadPackHit | src/main/java/org/katacr/kaOneBlock/EntityManager.java:46-48 | a cached pack is returned and the cache is unchanged, whatever the files now hold |
| Entities.FirstOver | src/main/java/org/katacr/kaOneBlock/EntityManager.java:120-128 | the scan stops at the first entry whose running weight sum exceeds the drawn value; all earlier sums are at most the value |
| Entities.ScanAlwaysReturns | src/main/java/org/katacr/kaOneBlock/EntityManager.java:120-130 | with a positive total the scan always finds an entry, so the trailing return of the first entry is never reached |
| Entities.RandomEntityShape | src/main/java/org/katacr/kaOneBlock/EntityManager.java:105-131 | `getRandomEntity` gives null exactly for an empty pack or a total weight that is not positive, and otherwise one of the pack's entities |
| Entities.RandomEntityBand | src/main/java/org/katacr/kaOneBlock/EntityManager.java:111-128 | with non-negative weights the drawn value falls in the band [sum before the entry, sum through it) of the entry returned, so each entity is returned for exactly its weight's share of the draws |
| Entities.RandomEntityReaches | src/main/java/org/katacr/kaOneBlock/EntityManager.java:111-128 | every entity with a positive weight is returned for some draw |
| Entities.FirstOverBand | src/main/java/org/katacr/kaOneBlock/EntityManager.java:120-128 | with non-negative weights a value in an entry's band selects that entry |
| Entities.EntityManager.constructor | src/main/java/org/katacr/kaOneBlock/EntityManager.java:22-27 | the pack cache starts empty |
| Entities.EntityManager.LoadEntityPack | src/main/java/org/katacr/kaOneBlock/EntityManager.java:45-103 | the pack and the new cache are those of `LoadPack`: the cached pack on a hit; an empty pack, not cached, for a missing file; otherwise the parsed pack, cached |
| Entities.EntityManager.ReadPack | src/main/java/org/katacr/kaOneBlock/EntityManager.java:58-98 | the loop over the `list` section builds exactly the pack `PackOf` describes |
| Entities.EntityManager.ReadArmors | src/main/java/org/katacr/kaOneBlock/EntityManager.java:80-89 | the armour map read for an entry is the one `Armors` describes |
| Entities.EntityManager.ReadArmorSection | src/main/java/org/katacr/kaOneBlock/EntityManager.java:83-88 | the loop over an `armors` section builds exactly the map `ArmorsUpTo` describes over all its keys |
| Entities.EntityManager.GetRandomEntity | src/main/java/org/katacr/kaOneBlock/EntityManager.java:105-131 | the pack is loaded as `loadEntityPack` does, and the summing loop and the scan return exactly `RandomEntity` of that pack for the draw |
| Entities.EntityManager.ClearCache | src/main/java/org/katacr/kaOneBlock/EntityManager.java:171-174 | the pack cache is empty afterwards |
| ChestManager.ParseItem | src/main/java/org/katacr/kaOneBlock/chest/EnhancedChestManager.java:133-286 | an entry without a material is rejected; an "IA:" material is accepted exactly when the integration is ready and knows the custom block; any other is accepted exactly when the registry has its `matchMaterial` normal form and that is not AIR, as a one-item stack of that material; the slot defaults to -1, `min` to 1 and `max` to `min` |
| ChestManager.ParseItemsStep | src/main/java/org/katacr/kaOneBlock/chest/EnhancedChestManager.java:82-91 | one key of an `items` section adds its entry with its `weight` (1.0 by default) exactly when its value is a section that parses, and adds nothing otherwise |
| ChestManager.ItemsPoolWellFormed | src/main/java/org/katacr/kaOneBlock/chest/EnhancedChestManager.java:82-91 | the sampler the entries are added into is well formed whatever the weights, because `add` drops weights that are not positive |
| ChestManager.Amounts | src/main/java/org/katacr/kaOneBlock/chest/EnhancedChestManager.java:55-67 | without an `amount` section the file's group sizes are 3 and 6 |
| ChestManager.ParseGroup | src/main/java/org/katacr/kaOneBlock/chest/EnhancedChestManager.java:73-93 | a group's `min` and `max` default to the file's sizes, and a group without an `items` section has no entries |
| ChestManager.ParseGroupsStep | src/main/java/org/katacr/kaOneBlock/chest/EnhancedChestManager.java:72-95 | one key of a `groups` section puts its parsed group under the key when its value is a section, and changes nothing otherwise |
| ChestManager.ParseConfig | src/main/java/org/katacr/kaOneBlock/chest/EnhancedChestManager.java:51-116 | the name defaults to "宝箱"; the sizes default to 3 and 6 without `amount`; top-level `items` become the group "global" with the file's sizes and exactly the entries that parse |
| ChestManager.FallbackShape | src/main/java/org/katacr/kaOneBlock/chest/EnhancedChestManager.java:305-317 | the fallback's single group is a well-formed sampler of six entries with total weight 29, and it returns DIAMOND exactly for the last twenty-ninth of the fractions |
| ChestManager.FallbackPool | src/main/java/org/katacr/kaOneBlock/chest/EnhancedChestManager.java:310-315 | the fallback entries STONE, DIRT, COAL, IRON_INGOT, GOLD_INGOT and DIAMOND have cumulative weights 10, 18, 23, 26, 28 and 29 |
| ChestManager.LoadedConfigs | src/main/java/org/katacr/kaOneBlock/chest/EnhancedChestManager.java:38-131 | after loading there is always at least one configuration, and a missing directory gives the fallback alone under "fallback" |
| ChestManager.MirrorsAdd | src/main/java/org/katacr/kaOneBlock/chest/EnhancedChestManager.java:85-88 | adding an entry object to a sampler and adding its configuration to the specification's sampler keep the two in step |
| ChestManager.PutGroupsMirror | src/main/java/org/katacr/kaOneBlock/chest/EnhancedChestManager.java:93 | putting a loaded group and its specification under the same key keeps the loaded groups in step with the file |
| ChestManager.PutConfigsMirror | src/main/java/org/katacr/kaOneBlock/chest/EnhancedChestManager.java:118 | putting a loaded configuration and its specification under the same name keeps the loaded table in step with the files |
| ChestManager.AddItem | src/main/java/org/katacr/kaOneBlock/chest/EnhancedChestManager.java:85-88 | a new entry object carries exactly its configuration, and the sampler gains it with its weight |
| ChestManager.BuildGroup | src/main/java/org/katacr/kaOneBlock/chest/EnhancedChestManager.java:75-92 | a fresh group whose sizes are as given and whose sampler holds, in order, the entries of its `items` section that parse |
| ChestManager.AddItems | src/main/java/org/katacr/kaOneBlock/chest/EnhancedChestManager.java:82-91 | the loop over an `items` section leaves the sampler holding exactly the parsed entries, in order, with their weights |
| ChestManager.AddItemAt | src/main/java/org/katacr/kaOneBlock/chest/EnhancedChestManager.java:82-90 | one pass of that loop moves the sampler from the entries of the keys before to the entries including this key |
| ChestManager.LoadConfig | src/main/java/org/katacr/kaOneBlock/chest/EnhancedChestManager.java:49-116 | the configuration built from one file is, group by group and entry by entry, the one `ParseConfig` describes |
| ChestManager.LoadGroups | src/main/java/org/katacr/kaOneBlock/chest/EnhancedChestManager.java:70-96 | the loop over a `groups` section builds exactly the groups `ParseGroupsUpTo` describes |
| ChestManager.LoadGroupAt | src/main/java/org/katacr/kaOneBlock/chest/EnhancedChestManager.java:72-95 | one pass of that loop moves the groups from those of the keys before to those including this key |
| ChestManager.AddGroup | src/main/java/org/katacr/kaOneBlock/chest/EnhancedChestManager.java:75-93 | a group built from an `items` section is put under its key, mirroring the specification with that group put |
| ChestManager.SelectStep | src/main/java/org/katacr/kaOneBlock/chest/EnhancedChestManager.java:364-368 | one pick adds at most one entry, always one of the group's, and leaves the set of entry objects with templates unchanged |
| ChestManager.SelectFrom | src/main/java/org/katacr/kaOneBlock/chest/EnhancedChestManager.java:363-369 | every entry picked is one of the group's |
| ChestManager.SelectionExtends | src/main/java/org/katacr/kaOneBlock/chest/EnhancedChestManager.java:363-369 | the picking loop only appends to the list of selected entries |
| ChestManager.SelectionCount | src/main/java/org/katacr/kaOneBlock/chest/EnhancedChestManager.java:363-369 | the loop picks at most the drawn number of entries, exactly that many from a non-empty group when nothing throws, and none from an empty group, which changes nothing |
| ChestManager.SelectionThrowsOnlyOnAir | src/main/java/org/katacr/kaOneBlock/chest/EnhancedChestManager.java:367 | the `buildItem` inside the debug message throws only for an AIR template: with no AIR template and no AIR custom item picking never throws |
| ChestManager.GroupStep | src/main/java/org/katacr/kaOneBlock/chest/EnhancedChestManager.java:357-374 | one group's fill keeps the chest's size and the set of entry objects with templates |
| ChestManager.FillFrom | src/main/java/org/katacr/kaOneBlock/chest/EnhancedChestManager.java:356-375 | the group loop keeps the chest's size and the set of entry objects with templates |
| ChestManager.FillKeepsOccupiedSlots | src/main/java/org/katacr/kaOneBlock/chest/EnhancedChestManager.java:356-375 | filling never removes or replaces an item that was in the chest before |
| ChestManager.EmptyGroupsFillNothing | src/main/java/org/katacr/kaOneBlock/chest/EnhancedChestManager.java:356-375 | groups without entries leave the chest and every template exactly as they were |
| ChestManager.ConfigFor | src/main/java/org/katacr/kaOneBlock/chest/EnhancedChestManager.java:323-336 | the configuration of the requested name when it is loaded, and the "fallback" configuration (or none) otherwise |
| ChestManager.ShouldGenerateChest | src/main/java/org/katacr/kaOneBlock/chest/EnhancedChestManager.java:440-443 | the path `chest.chance` is the key `chance` of the `chest` section: without that section or key a chest comes exactly when the fraction is at most 0.05, and with a number there exactly when the fraction is at most that number |
| ChestManager.ChestChanceIsNested | src/main/java/org/katacr/kaOneBlock/chest/EnhancedChestManager.java:440-443 | a top-level key spelled "chest.chance" is ignored (0.3 gives no chest), while the nested `chest: chance: 0.5` lets 0.3 through |
| ChestManager.BuildFallback | src/main/java/org/katacr/kaOneBlock/chest/EnhancedChestManager.java:298-317 | the fallback configuration built is the fallback specification: name "&6默认宝箱", sizes 3 and 6, one "global" group with the six entries in order |
| ChestManager.FallbackMirrors | src/main/java/org/katacr/kaOneBlock/chest/EnhancedChestManager.java:298-317 | a configuration with the fallback's name, sizes and single group whose sampler holds the six entries is the fallback specification |
| ChestManager.AddFallbackItems | src/main/java/org/katacr/kaOneBlock/chest/EnhancedChestManager.java:310-315 | three more fallback entries are added in order |
| ChestManager.AddFallbackItem | src/main/java/org/katacr/kaOneBlock/chest/EnhancedChestManager.java:310-315 | the k-th fallback entry is added with its weight |
| ChestManager.PutLoaded | src/main/java/org/katacr/kaOneBlock/chest/EnhancedChestManager.java:118 | putting a loaded configuration into a loaded table keeps the table in step with the files' configurations |
| ChestManager.LoadConfigAt | src/main/java/org/katacr/kaOneBlock/chest/EnhancedChestManager.java:46-122 | one file of the listing moves the table from the configurations of the files before to those including this one |
| ChestManager.CreateFallbackConfig | src/main/java/org/katacr/kaOneBlock/chest/EnhancedChestManager.java:298-320 | afterwards "fallback" is loaded, and the table is the old one with the fallback specification put under "fallback" |
| ChestManager.EnhancedChestManager.constructor | src/main/java/org/katacr/kaOneBlock/chest/EnhancedChestManager.java:33-36 | a new manager holds the configurations `loadChestConfigs` loads |
| ChestManager.EnhancedChestManager.LoadChestConfigs | src/main/java/org/katacr/kaOneBlock/chest/EnhancedChestManager.java:38-131 | the previous table is discarded and the new one holds exactly the configurations `LoadedConfigs` describes, entry by entry |
| ChestManager.EnhancedChestManager.Install | src/main/java/org/katacr/kaOneBlock/chest/EnhancedChestManager.java:39-118 | the table becomes the loaded configurations and the manager's invariant holds |
| ChestManager.EnhancedChestManager.GetRandomChestConfig | src/main/java/org/katacr/kaOneBlock/chest/EnhancedChestManager.java:431-438 | "fallback" when nothing is loaded, and otherwise the name of a loaded configuration, the one at the drawn position |
| ChestManager.EnhancedChestManager.FillChest | src/main/java/org/katacr/kaOneBlock/chest/EnhancedChestManager.java:321-421 | a null chest or a missing configuration (and no fallback) changes nothing; when the block is still a chest its inventory and the templates end as `FillFrom` over the configuration's groups; the block takes the configuration's name only when the fill completed, as the final block update commits the snapshot's name |
| ChestManager.EnhancedChestManager.FillWithConfig | src/main/java/org/katacr/kaOneBlock/chest/EnhancedChestManager.java:337-421 | the name goes on the snapshot, and the block carries it afterwards only when the fill completed; a block that is no longer a chest is neither filled nor renamed; otherwise the fill is `FillFrom` over the groups |
| ChestManager.EnhancedChestManager.FillIfStillChest | src/main/java/org/katacr/kaOneBlock/chest/EnhancedChestManager.java:344-375 | a block that is no longer a chest is left as it was; otherwise the inventory and templates end as `FillFrom` over the groups, and `completed` says no group threw |
| ChestManager.EnhancedChestManager.FillGroups | src/main/java/org/katacr/kaOneBlock/chest/EnhancedChestManager.java:356-375 | the group loop leaves the inventory and templates as `FillFrom` describes and reports whether it threw |
| ChestManager.EnhancedChestManager.FillGroup | src/main/java/org/katacr/kaOneBlock/chest/EnhancedChestManager.java:357-374 | one group's size draw, picks and poll leave the chest as `GroupStep` describes |
| ChestManager.EnhancedChestManager.PollInto | src/main/java/org/katacr/kaOneBlock/chest/EnhancedChestManager.java:372-374 | a poll of exactly the selected entries places them as `PollFrom` over the shuffled empty slots describes |
| ChestManager.EnhancedChestManager.SelectItems | src/main/java/org/katacr/kaOneBlock/chest/EnhancedChestManager.java:362-369 | the picking loop selects exactly what `SelectFrom` describes and reports whether the debug build threw |
| ChestManager.EnhancedChestManager.PickOne | src/main/java/org/katacr/kaOneBlock/chest/EnhancedChestManager.java:364-368 | one pick adds the sampler's entry for the fraction and resolves its template as `SelectStep` describes |
| BreakListener.FirstMatchFrom | src/main/java/org/katacr/kaOneBlock/BlockBreakListener.java:83-89 | the loop over the stage's chest table stops at the first entry whose chance plus the entity chance admits the fraction, and no earlier entry admits it |
| BreakListener.DecideOutcome | src/main/java/org/katacr/kaOneBlock/BlockBreakListener.java:75-97 | an entity exactly when the fraction is within the entity chance; past it, with a stage table, a chest exactly when some entry admits the fraction, named by the first that does; without one, a chest of the random configuration exactly when the fraction is within the global chance plus the entity chance; a chest always has a name |
| BreakListener.MaxChance | src/main/java/org/katacr/kaOneBlock/BlockBreakListener.java:83-89 | the largest chance of the table is one of its chances and bounds all of them |
| BreakListener.FirstMatchIffMax | src/main/java/org/katacr/kaOneBlock/BlockBreakListener.java:83-89 | some entry admits the fraction exactly when the largest chance does |
| BreakListener.TableChestIsMaxChance | src/main/java/org/katacr/kaOneBlock/BlockBreakListener.java:81-89 | past the entity band a stage table gives a chest exactly when the fraction is within its largest single chance plus the entity chance: the table's chances are not added up |
| BreakListener.TableIsNotCumulative | src/main/java/org/katacr/kaOneBlock/BlockBreakListener.java:81-89 | two entries of 10% past a 5% entity band give no chest at 0.2, although the chances sum to 20% |
| BreakListener.EntityChanceOf | src/main/java/org/katacr/kaOneBlock/BlockBreakListener.java:70-72 | the stage's entity chance, or 0.05 when the stage cannot be loaded |
| BreakListener.ChancesOf | src/main/java/org/katacr/kaOneBlock/StageManager.java:179-183 | the stage's chest table, or an empty one when the stage cannot be loaded |
| BreakListener.NewBlock | src/main/java/org/katacr/kaOneBlock/BlockBreakListener.java:103-120 | a chest outcome gives CHEST; otherwise a missing or empty block list gives STONE, and a non-empty one gives one of its blocks |
| BreakListener.DbTag | src/main/java/org/katacr/kaOneBlock/BlockBreakListener.java:138-142 | a chest is stored as "CHEST:" followed by its configuration's name, any other outcome as the block's type |
| BreakListener.Placement | src/main/java/org/katacr/kaOneBlock/BlockBreakListener.java:190-203 | a material is placed as it is; a custom key loses its three-character prefix and is placed when the integration can, STONE otherwise; a key shorter than three characters places nothing |
| BreakListener.RowWrittenLast | src/main/java/org/katacr/kaOneBlock/BlockBreakListener.java:126-135 | the progress row written after the count replaces the one the initialisation wrote for the same player |
| BreakListener.BlockBreakListener.constructor | src/main/java/org/katacr/kaOneBlock/BlockBreakListener.java:22-26 | no chest position is marked as being processed |
| BreakListener.BlockBreakListener.ChooseOutcome | src/main/java/org/katacr/kaOneBlock/BlockBreakListener.java:64-97 | the flags and the loop with its `break` produce exactly the outcome `DecideOutcome` describes |
| BreakListener.BlockBreakListener.CountBreak | src/main/java/org/katacr/kaOneBlock/BlockBreakListener.java:55-59 | initialising and then counting leaves the progress map as `BreakProgress`, stores the default row only for a new player and writes no block row; it throws exactly when the player is tracked afterwards and the server does not find them |
| BreakListener.BlockBreakListener.DrawOutcome | src/main/java/org/katacr/kaOneBlock/BlockBreakListener.java:61-97 | the outcome is `DecideOutcome` with the current stage's entity chance and table, the global chance (0.05 by default) and the random configuration name; player progress is untouched |
| BreakListener.BlockBreakListener.DrawAndRecord | src/main/java/org/katacr/kaOneBlock/BlockBreakListener.java:61-142 | after a count that did not throw: the outcome is `DecideOutcome` and the block `NewBlock` for the current stage, the block row is retagged, the player's progress is stored, and the progress map is unchanged |
| BreakListener.BlockBreakListener.DrawBlock | src/main/java/org/katacr/kaOneBlock/BlockBreakListener.java:99-120 | the new block is `NewBlock` over the stage's cached block list, and only that stage's cache entry can appear |
| BreakListener.BlockBreakListener.WriteBack | src/main/java/org/katacr/kaOneBlock/BlockBreakListener.java:126-142 | the player's row is written when they have progress, and the broken block's row gets the new type while every other row stays |
| BreakListener.BlockBreakListener.PlaceAndRecord | src/main/java/org/katacr/kaOneBlock/BlockBreakListener.java:99-142 | the drawn block is `NewBlock`; the block's row gets `DbTag` of the outcome and block; the player's current progress is stored when they have any |
| BreakListener.BlockBreakListener.HandleOwnedBreak | src/main/java/org/katacr/kaOneBlock/BlockBreakListener.java:55-142 | for a block the plugin placed the count is `BreakProgress`; when the count throws, nothing further happens: no block row, block list or progress row beyond the initial one changes and nothing is handed on; otherwise the outcome and block are `DecideOutcome` and `NewBlock` for the stage after the count, the block row is retagged and the player's final progress stored |
| BreakListener.BlockBreakListener.OnBlockBreak | src/main/java/org/katacr/kaOneBlock/BlockBreakListener.java:41-149 | a block without a store row changes nothing and schedules nothing; for any other block the count happens, and nothing is scheduled exactly when the count throws for a player the server does not find; otherwise the break does what `HandleOwnedBreak` states and hands its outcome to phase 1 |
| BreakListener.BlockBreakListener.Phase1 | src/main/java/org/katacr/kaOneBlock/BlockBreakListener.java:149-220 | nothing happens unless the position is AIR; a chest at an unmarked position is placed, empty, the position marked and phase 2 scheduled, while a marked one does nothing; any other block is placed as `Placement` says and the replacement logged, unless the key is too short |
| BreakListener.BlockBreakListener.Phase2 | src/main/java/org/katacr/kaOneBlock/BlockBreakListener.java:167-189 | the position's mark is always cleared; a chest still there is filled from the outcome's configuration, and takes its name only when the fill completed, exactly as `fillChest` states |
| Languages.LangFileLength | src/main/java/org/katacr/kaOneBlock/LanguageManager.java:28-34 | a name the listing accepts is long enough that "lang_" and ".yml" do not overlap, so the substring of line 34 never throws |
| Languages.LangCode | src/main/java/org/katacr/kaOneBlock/LanguageManager.java:34 | the code is what lies between "lang_" and ".yml": putting them back gives the file name |
| Languages.LangCodeRoundTrip | src/main/java/org/katacr/kaOneBlock/LanguageManager.java:28-34 | the file "lang_<code>.yml" passes the listing filter and yields exactly that code |
| Languages.LangCodeIff | src/main/java/org/katacr/kaOneBlock/LanguageManager.java:28-34 | a language file yields a code exactly when it is that code's file |
| Languages.LanguagesUpToHas | src/main/java/org/katacr/kaOneBlock/LanguageManager.java:27-39 | a code is loaded exactly when its file is in the listing |
| Languages.SelectedChain | src/main/java/org/katacr/kaOneBlock/LanguageManager.java:48-67 | the requested language when loaded, else en_US when loaded, else an empty configuration when nothing is loaded; whenever anything is loaded the choice is one of the loaded languages |
| Languages.LanguageManager.constructor | src/main/java/org/katacr/kaOneBlock/LanguageManager.java:13-19 | no language is loaded and none is selected |
| Languages.LanguageManager.LoadLanguageFiles | src/main/java/org/katacr/kaOneBlock/LanguageManager.java:21-46 | the old languages are discarded, the listing's languages are loaded, and the configured language (en_US by default) is selected through the fallback chain |
| Languages.LanguageManager.SetLanguage | src/main/java/org/katacr/kaOneBlock/LanguageManager.java:48-67 | the loaded languages stay, and the selection is the fallback chain's choice for the code |
| Languages.LanguageManager.GetMessage | src/main/java/org/katacr/kaOneBlock/LanguageManager.java:69-71 | fails exactly when no language was ever selected; a missing key gives "Message not found: " and the key; a string entry gives its text |
| Logging.Spaced | src/main/java/org/katacr/kaOneBlock/LogManager.java:105-107 | the length is kept, every underscore becomes a space and nothing else changes |
| Logging.FormatBlockName | src/main/java/org/katacr/kaOneBlock/LogManager.java:103-108 | an "IA:" type loses its prefix and keeps its case; any other type is lower-cased; underscores become spaces and none remain |
| Logging.LowerIaPrefixIsKept | src/main/java/org/katacr/kaOneBlock/LogManager.java:104 | the prefix test is case-sensitive: an "ia:" key, as block lists store custom blocks, keeps its prefix in the log |
| Logging.IaIdKeepsCase | src/main/java/org/katacr/kaOneBlock/LogManager.java:104-105 | an "IA:" id is logged without its prefix and with its case, underscores turned into spaces |
| Logging.MaterialNamesAgree | src/main/java/org/katacr/kaOneBlock/LogManager.java:103-108 | for a vanilla material the replacement log prints the same name as the generation log of line 54 |
| Logging.FormatBlockNameIdempotent | src/main/java/org/katacr/kaOneBlock/LogManager.java:103-108 | formatting a formatted vanilla name changes nothing |
| Logging.LogManager.constructor | src/main/java/org/katacr/kaOneBlock/LogManager.java:20-22 | logging is on unless the configuration's `log` says otherwise, and the existing log files are kept |
| Logging.LogManager.Append | src/main/java/org/katacr/kaOneBlock/LogManager.java:96-97 | the line is added at the end of the day's file, which is created when missing; no other file changes |
| Logging.LogManager.LogBlockGeneration | src/main/java/org/katacr/kaOneBlock/LogManager.java:39-65 | when disabled nothing is written; otherwise the generation line is appended to the day's file |
| Logging.LogManager.LogBlockReplacement | src/main/java/org/katacr/kaOneBlock/LogManager.java:75-101 | when disabled nothing is written; otherwise the replacement line, with the formatted block name, is appended to the day's file |
| Logging.LogManager.SetEnabled | src/main/java/org/katacr/kaOneBlock/LogManager.java:115-117 | the switch takes the given value and no file changes |

## Left out

- File and YAML input, directory listing and the `try`/`catch` around each file: a `DataFolder` value stands for the parsed files, and a file the YAML loader cannot read is an empty section.
- `DatabaseManager`: the store methods `findBlockByLocation`, `updateBlockType`, `updatePlayerStage`, `loadPlayerProgress` and `loadAllPlayerProgress` are not defined in `DatabaseManager.java`; they are modelled as an abstract table of rows, and the SQL behind them is not modelled.
- `StageManager.loadAllPlayerProgress` (StageManager.java:33-38) depends only on an undefined store method, and is not modelled.
- `StageManager.getPlayerProgress` (StageManager.java:234-236) is a plain map read, done inline where the listener uses it.
- Chat colours (`translateAlternateColorCodes`), messages sent to players, console logging and every `plugin.debug` line are left out, except where a debug line has an effect: the `buildItem()` inside fillChest's debug message and the `requireNonNull` in incrementBlocksBroken.
- `onChestBreak` (BlockBreakListener.java:28-39) only prints debug output.
- The debug message sent to the player after a break (BlockBreakListener.java:233-255) is not modelled.
- The logChestGeneration call (BlockBreakListener.java:187) names a method that `LogManager` does not define, so phase 2 logs nothing.
- The three-argument logBlockReplacement call (BlockBreakListener.java:219) does not match LogManager's four-argument method; it is modelled with the location's world name as the world argument.
- Entity spawning (`spawnEntity` and armour equipping, EntityManager.java:133-169) is not modelled: the file contains unresolved merge-conflict markers, and the listener never calls it. An entity outcome places a block like any other.
- `ContainerItem` display metadata (name, lore, enchantments, potion data, EnhancedChestManager.java:168-280) is not modelled; a template is its material, amount and custom-item id.
- `safeUpdateChestWithoutLock` (EnhancedChestManager.java:401-429) is modelled only by its effect on the name: the inventory of a placed chest is live, so the items are in place before it runs, and its copy of the name is what gives the block the configuration's name at the end of a completed fill. Its `try`/`catch` and the `update(true, true)` flags are not modelled. `debugChestContents` (445-470) and the count of placed items for the debug line (378-394) only report, and are not modelled.
- The private `ChestState` class of `EnhancedChestManager` (473-488) is never used, and is not modelled; the model's `Server.ChestState` is the Bukkit chest block state.
- Java `HashMap`s that the code iterates (`StageConfig.chestChances`, `ChestConfig.groups`, `EnhancedChestManager.chestConfigs`, `LanguageManager.languages`, and each entity pack's `entityConfigs` map built at `EntityManager.java:59`) are association lists in insertion order, while Java iterates them in hash order. The order matters in `DecideOutcome`/`ChooseOutcome` (which chest table entry a fraction lands in), `FillFrom`/`FillGroups` (which group fills first and so takes a slot), `GetRandomChestConfig` (which configuration name an index draw picks) `Selected` (which language is the last fallback) and `RandomEntity`/`GetRandomEntity` (which entity a weight draw lands on, and which one the fallback returns); the model fixes it to insertion order.
- `ItemsAdderManager.getCustomBlockItem` (called at EnhancedChestManager.java:149) is not defined in `ItemsAdderManager.java`; it is modelled as a lookup in the environment's `blockItems` table of custom block items.
- `Material.matchMaterial` also resolves legacy names; legacy names are not part of this model.
- Common.ReplaceAll: states only that removing ".yml" never lengthens a name, not the exact result.
- Java `int` overflow is not modelled: counts, weights and the entity total weight are unbounded integers, so a total above 2^31 - 1 does not wrap.
- Java `double`s are real numbers, so rounding in sums such as `chance + entityChance` is not modelled.
- Case mapping is ASCII only (`toUpperCase`, `toLowerCase`, `matchMaterial`).
- Bukkit's `Material` and `EntityType` enums are sets of names passed in as parameters.
- A YAML section's keys are taken to be distinct, as the loader makes them.
- `loadChestConfigs` fills a local table and installs it at the end, rather than clearing and filling the field in place; nothing reads the field in between, so the result is the same.
- The scheduler's one-tick delays are the two methods `Phase1` and `Phase2`, which a caller runs in any order; the scheduler itself is not modelled.
- A custom block key shorter than three characters would make `substring(3)` throw in phase 1 (BlockBreakListener.java:197); the model places nothing and logs nothing for it.
