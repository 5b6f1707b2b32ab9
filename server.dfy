/** The collaborators the gameplay engine talks to, reduced to what it uses:
    the plugin's data folder (which files exist and what they parse to), the
    persistence store (block ownership rows and player progress rows) and the
    game world (block types at positions and chest inventories). */
module Server {
  import opened Common
  import opened Items
  import opened Yaml

  /** A player's UUID. */
  type PlayerId = string

  /** A block location: its world's name and block coordinates. */
  datatype Pos = Pos(world: string, x: int, y: int, z: int)

  /** The plugin's data folder. A file exists exactly when its name is a key
      (or an entry of a directory listing); its value is what the YAML loader
      produced for it (an unparsable file loads as an empty section). */
  datatype DataFolder = DataFolder(
    blocks: map<string, Section>,
    chests: Option<seq<(string, Section)>>,
    entitys: map<string, Section>,
    lang: Option<seq<(string, Section)>>)

  datatype BlockRow = BlockRow(id: int, blockType: string)
  datatype ProgressRow = ProgressRow(stageFile: string, blocksBroken: int)

  /** The persistence store, as an abstract table of rows. Block rows are
      found by coordinates alone, as the store's lookup takes no world. */
  class Database {
    var blockRows: map<(int, int, int), BlockRow>
    var progressRows: map<PlayerId, ProgressRow>

    constructor (blocks: map<(int, int, int), BlockRow>, progress: map<PlayerId, ProgressRow>)
      ensures blockRows == blocks && progressRows == progress
    {
      blockRows := blocks;
      progressRows := progress;
    }

    function FindBlockByLocation(x: int, y: int, z: int): Option<BlockRow>
      reads this
    {
      if (x, y, z) in blockRows then Some(blockRows[(x, y, z)]) else None
    }

    function LoadPlayerProgress(player: PlayerId): Option<ProgressRow>
      reads this
    {
      if player in progressRows then Some(progressRows[player]) else None
    }

    /** Rewrites the block type of every row with this id. */
    method UpdateBlockType(id: int, blockType: string)
      modifies this
      ensures progressRows == old(progressRows)
      ensures blockRows.Keys == old(blockRows).Keys
      ensures forall c :: c in blockRows ==>
        blockRows[c] == if old(blockRows)[c].id == id then BlockRow(id, blockType) else old(blockRows)[c]
    {
      blockRows := map c | c in blockRows ::
        if blockRows[c].id == id then BlockRow(id, blockType) else blockRows[c];
    }

    method UpdatePlayerStage(player: PlayerId, stageFile: string, blocksBroken: int)
      modifies this
      ensures blockRows == old(blockRows)
      ensures progressRows == old(progressRows)[player := ProgressRow(stageFile, blocksBroken)]
    {
      progressRows := progressRows[player := ProgressRow(stageFile, blocksBroken)];
    }
  }

  datatype Block = Vanilla(material: Material) | Custom(id: string)

  /** A single chest's slot count. */
  const ChestSize: nat := 27

  /** A chest's block state: the custom name the block carries and its
      inventory slots. */
  class ChestState {
    var customName: Option<string>
    const inventory: array<Option<ItemStack>>

    constructor ()
      ensures customName == None
      ensures fresh(inventory) && inventory.Length == ChestSize
      ensures forall i :: 0 <= i < inventory.Length ==> inventory[i] == None
    {
      customName := None;
      inventory := new Option<ItemStack>[ChestSize](_ => None);
    }
  }

  /** The game world: the block at each position (absent means AIR) and the
      chest state behind each chest block. */
  class World {
    var blocks: map<Pos, Block>
    var chests: map<Pos, ChestState>

    ghost predicate Valid()
      reads this
    {
      forall p :: p in chests ==> BlockAt(p) == Vanilla(CHEST)
    }

    function BlockAt(p: Pos): Block
      reads this
    {
      if p in blocks then blocks[p] else Vanilla(AIR)
    }

    constructor (initial: map<Pos, Block>)
      ensures Valid() && blocks == initial && chests == map[]
    {
      blocks := initial;
      chests := map[];
    }

    /** `block.setType(m)`: a chest block gets a new, empty chest state;
        any other material removes the chest state at that position. */
    method SetType(p: Pos, m: Material)
      requires Valid()
      modifies this
      ensures Valid()
      ensures blocks == old(blocks)[p := Vanilla(m)]
      ensures m == CHEST ==> p in chests && fresh(chests[p]) && fresh(chests[p].inventory)
      ensures m == CHEST ==> chests[p].customName == None && chests[p].inventory.Length == ChestSize
      ensures m == CHEST ==> forall i :: 0 <= i < ChestSize ==> chests[p].inventory[i] == None
      ensures m != CHEST ==> chests == old(chests) - {p}
      ensures forall q :: q != p ==> (q in chests <==> q in old(chests))
      ensures forall q :: q != p && q in chests ==> chests[q] == old(chests)[q]
    {
      blocks := blocks[p := Vanilla(m)];
      if m == CHEST {
        var c := new ChestState();
        chests := chests[p := c];
      } else {
        chests := chests - {p};
      }
    }

    /** ItemsAdder's `placeBlock(location, id)`: succeeds exactly when the id
        is one of the custom blocks the integration can place (`placeable` is
        empty while the integration is not ready). */
    method PlaceCustom(p: Pos, id: string, placeable: set<string>) returns (ok: bool)
      requires Valid()
      modifies this
      ensures Valid()
      ensures ok <==> id in placeable
      ensures ok ==> blocks == old(blocks)[p := Custom(id)] && chests == old(chests) - {p}
      ensures !ok ==> blocks == old(blocks) && chests == old(chests)
    {
      ok := id in placeable;
      if ok {
        blocks := blocks[p := Custom(id)];
        chests := chests - {p};
      }
    }
  }
}
