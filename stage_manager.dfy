/** Per-player stage progress: each player is on a stage file with a count of
    blocks broken on it. A break bumps the count; reaching the stage's amount
    moves the player to the stage's next file (if that file exists) with the
    count reset, at most once per break. Setting or resetting a stage also
    resets the count; only the forced set persists it. */
module Progression {
  import opened Common
  import opened Server
  import opened StageConfigs
  import opened StageCatalog

  /** The stage every new player starts on. */
  const DefaultStage: string := "normal.yml"

  /** A player's progress as a value. */
  datatype Progress = Progress(stageFile: string, blocksBroken: int)

  /** `StageManager.PlayerStageProgress`: updated in place. */
  class PlayerStageProgress {
    var stageFile: string
    var blocksBroken: int

    constructor (stageFile: string, blocksBroken: int)
      ensures this.stageFile == stageFile && this.blocksBroken == blocksBroken
    {
      this.stageFile := stageFile;
      this.blocksBroken := blocksBroken;
    }
  }

  /** The stage-start message a player is sent, when the stage has one. */
  function Announcement(config: StageConfig): (m: Option<string>)
    ensures m.Some? <==> config.message != ""
    ensures m.Some? ==> m.value == config.message
  {
    if config.message != "" then Some(config.message) else None
  }

  /** One block break for a player with progress p: the catalogue cache, the
      player's progress and the message sent afterwards. The count goes up by
      one; a player the server cannot find stops there (the debug line throws
      before the advancement check); otherwise the current stage is loaded
      and, once the count reaches its amount and the next stage's file exists,
      the player is bound to that stage with the count reset. */
  function AfterBreak(cache: map<string, StageConfig>, folder: DataFolder, p: Progress, online: bool)
    : (map<string, StageConfig>, Progress, Option<string>)
  {
    var q := Progress(p.stageFile, p.blocksBroken + 1);
    if !online then (cache, q, None)
    else
      var (c1, current) := Load(cache, folder, q.stageFile);
      if current.None? || q.blocksBroken < current.value.amount then (c1, q, None)
      else
        var next := WithYml(current.value.nextStage);
        if next !in folder.blocks then (c1, q, None)
        else
          var (c2, nextConfig) := Load(c1, folder, next);
          if nextConfig.None? then (c2, q, None)
          else (c2, Progress(next, 0), Announcement(nextConfig.value))
  }

  /** A break either just counts, or performs exactly one transition: the
      threshold of the current stage was reached, and the player lands on
      that stage's next file, which exists, with the count at 0. */
  lemma AtMostOneTransition(cache: map<string, StageConfig>, folder: DataFolder, p: Progress, online: bool)
    ensures var (_, q, _) := AfterBreak(cache, folder, p, online);
      q == Progress(p.stageFile, p.blocksBroken + 1) ||
      (&& online
       && Load(cache, folder, p.stageFile).1.Some?
       && p.blocksBroken + 1 >= Load(cache, folder, p.stageFile).1.value.amount
       && q == Progress(WithYml(Load(cache, folder, p.stageFile).1.value.nextStage), 0)
       && q.stageFile in folder.blocks)
  {
  }

  /** Conversely, reaching the amount with an existing next stage always
      moves the player there and announces that stage's message. */
  lemma ThresholdTransition(cache: map<string, StageConfig>, folder: DataFolder, p: Progress, config: StageConfig)
    requires Load(cache, folder, p.stageFile).1 == Some(config)
    requires p.blocksBroken + 1 >= config.amount
    requires WithYml(config.nextStage) in folder.blocks
    ensures var (c, q, m) := AfterBreak(cache, folder, p, true);
      q == Progress(WithYml(config.nextStage), 0) &&
      m == Announcement(Load(c, folder, WithYml(config.nextStage)).1.value)
  {
    var (c1, _) := Load(cache, folder, p.stageFile);
    LoadCases(c1, folder, WithYml(config.nextStage));
    LoadIsStable(c1, folder, WithYml(config.nextStage));
  }

  /** k breaks in a row by an online player. */
  function Breaks(cache: map<string, StageConfig>, folder: DataFolder, p: Progress, k: nat)
    : (map<string, StageConfig>, Progress)
    decreases k
  {
    if k == 0 then (cache, p)
    else
      var (c, q, _) := AfterBreak(cache, folder, p, true);
      Breaks(c, folder, q, k - 1)
  }

  /** When the next stage's file does not exist, no number of breaks moves
      the player: the count just keeps growing past the amount. */
  lemma {:induction false} CountGrowsWithoutNextStage(
    cache: map<string, StageConfig>, folder: DataFolder, p: Progress, k: nat, config: StageConfig)
    requires Load(cache, folder, p.stageFile).1 == Some(config)
    requires WithYml(config.nextStage) !in folder.blocks
    ensures Breaks(cache, folder, p, k).1 == Progress(p.stageFile, p.blocksBroken + k)
    decreases k
  {
    if k > 0 {
      var (c, q, _) := AfterBreak(cache, folder, p, true);
      assert q == Progress(p.stageFile, p.blocksBroken + 1);
      LoadIsStable(cache, folder, p.stageFile);
      assert c == Load(cache, folder, p.stageFile).0;
      CountGrowsWithoutNextStage(c, folder, q, k - 1, config);
    }
  }

  /** From a count c below the amount, exactly amount - c breaks reach the
      next stage (when its file exists), with the count back at 0. */
  lemma {:induction false} BreaksReachNextStage(
    cache: map<string, StageConfig>, folder: DataFolder, p: Progress, config: StageConfig)
    requires Load(cache, folder, p.stageFile).1 == Some(config)
    requires WithYml(config.nextStage) in folder.blocks
    requires 0 <= p.blocksBroken < config.amount
    ensures Breaks(cache, folder, p, config.amount - p.blocksBroken).1 == Progress(WithYml(config.nextStage), 0)
    decreases config.amount - p.blocksBroken
  {
    var (c, q, _) := AfterBreak(cache, folder, p, true);
    LoadIsStable(cache, folder, p.stageFile);
    if p.blocksBroken + 1 == config.amount {
      ThresholdTransition(cache, folder, p, config);
    } else {
      assert q == Progress(p.stageFile, p.blocksBroken + 1);
      assert c == Load(cache, folder, p.stageFile).0;
      BreaksReachNextStage(c, folder, q, config);
    }
  }

  class StageManager {
    var playerProgress: map<PlayerId, PlayerStageProgress>
    const catalog: StageConfigManager
    const db: Database

    /** No two players share a progress object. */
    ghost predicate Valid()
      reads this
    {
      forall a, b :: a in playerProgress && b in playerProgress && a != b ==> playerProgress[a] != playerProgress[b]
    }

    /** The progress map as values. */
    function View(): map<PlayerId, Progress>
      reads this, playerProgress.Values
    {
      map id | id in playerProgress :: Progress(playerProgress[id].stageFile, playerProgress[id].blocksBroken)
    }

    constructor (catalog: StageConfigManager, db: Database)
      ensures Valid() && View() == map[] && this.catalog == catalog && this.db == db
    {
      playerProgress := map[];
      this.catalog := catalog;
      this.db := db;
    }

    /** The part `setPlayerStage`, `setPlayerStageAndSendMessage` and
        `resetPlayerStage` share: normalise the name, load the stage (giving
        up when it cannot be loaded), then bind the player to it with the
        count at 0, updating an existing progress object in place. */
    method Bind(folder: DataFolder, id: PlayerId, stageFile: string) returns (config: Option<StageConfig>)
      requires Valid()
      modifies this, playerProgress.Values, catalog
      ensures Valid()
      ensures forall o :: o in playerProgress.Values ==> o in old(playerProgress.Values) || fresh(o)
      ensures (catalog.configCache, config) == Load(old(catalog.configCache), folder, stageFile)
      ensures config.None? ==> View() == old(View())
      ensures config.Some? ==> View() == old(View())[id := Progress(WithYml(stageFile), 0)]
    {
      var name := WithYml(stageFile);
      WithYmlIdempotent(stageFile);
      config := catalog.LoadStageConfig(folder, name);
      if config.None? {
        return;
      }
      if id !in playerProgress {
        var progress := new PlayerStageProgress(name, 0);
        playerProgress := playerProgress[id := progress];
      } else {
        var progress := playerProgress[id];
        progress.stageFile := name;
        progress.blocksBroken := 0;
      }
    }

    /** `setPlayerStage(player, stageFile)`: a null player is refused;
        otherwise the player is bound to the stage and (stage, 0) is
        persisted. Returns the stage message sent, if any. */
    method SetPlayerStage(folder: DataFolder, player: Option<PlayerId>, stageFile: string) returns (message: Option<string>)
      requires Valid()
      modifies this, playerProgress.Values, catalog, db
      ensures Valid()
      ensures forall o :: o in playerProgress.Values ==> o in old(playerProgress.Values) || fresh(o)
      ensures player.None? ==>
        (View() == old(View()) && catalog.configCache == old(catalog.configCache)
         && db.progressRows == old(db.progressRows) && message == None)
      ensures player.Some? ==>
        var (c, config) := Load(old(catalog.configCache), folder, stageFile);
        && catalog.configCache == c
        && (config.None? ==> View() == old(View()) && db.progressRows == old(db.progressRows) && message == None)
        && (config.Some? ==>
              && View() == old(View())[player.value := Progress(WithYml(stageFile), 0)]
              && db.progressRows == old(db.progressRows)[player.value := ProgressRow(WithYml(stageFile), 0)]
              && message == Announcement(config.value))
      ensures db.blockRows == old(db.blockRows)
    {
      message := None;
      if player.None? {
        return;
      }
      var config := Bind(folder, player.value, stageFile);
      if config.None? {
        return;
      }
      message := Announcement(config.value);
      db.UpdatePlayerStage(player.value, WithYml(stageFile), 0);
    }

    /** `setPlayerStageAndSendMessage(player, stageFile)`: as the forced set,
        without persisting. */
    method SetPlayerStageAndSendMessage(folder: DataFolder, id: PlayerId, stageFile: string) returns (message: Option<string>)
      requires Valid()
      modifies this, playerProgress.Values, catalog
      ensures Valid()
      ensures var (c, config) := Load(old(catalog.configCache), folder, stageFile);
        && catalog.configCache == c
        && (config.None? ==> View() == old(View()) && message == None)
        && (config.Some? ==>
              View() == old(View())[id := Progress(WithYml(stageFile), 0)] && message == Announcement(config.value))
    {
      message := None;
      var config := Bind(folder, id, stageFile);
      if config.Some? {
        message := Announcement(config.value);
      }
    }

    /** `resetPlayerStage(player, stageFile)`: the same steps as
        `setPlayerStageAndSendMessage`. */
    method ResetPlayerStage(folder: DataFolder, id: PlayerId, stageFile: string) returns (message: Option<string>)
      requires Valid()
      modifies this, playerProgress.Values, catalog
      ensures Valid()
      ensures var (c, config) := Load(old(catalog.configCache), folder, stageFile);
        && catalog.configCache == c
        && (config.None? ==> View() == old(View()) && message == None)
        && (config.Some? ==>
              View() == old(View())[id := Progress(WithYml(stageFile), 0)] && message == Announcement(config.value))
    {
      message := None;
      var config := Bind(folder, id, stageFile);
      if config.Some? {
        message := Announcement(config.value);
      }
    }

    /** `initPlayerProgress(player)`: only a player without progress is set
        to the default stage. */
    method InitPlayerProgress(folder: DataFolder, id: PlayerId) returns (message: Option<string>)
      requires Valid()
      modifies this, playerProgress.Values, catalog, db
      ensures Valid()
      ensures forall o :: o in playerProgress.Values ==> o in old(playerProgress.Values) || fresh(o)
      ensures id in old(View()) ==>
        (View() == old(View()) && message == None
         && catalog.configCache == old(catalog.configCache) && db.progressRows == old(db.progressRows))
      ensures id !in old(View()) ==>
        var (c, config) := Load(old(catalog.configCache), folder, DefaultStage);
        && catalog.configCache == c
        && (config.Some? ==>
              (View() == old(View())[id := Progress(DefaultStage, 0)]
               && db.progressRows == old(db.progressRows)[id := ProgressRow(DefaultStage, 0)]
               && message == Announcement(config.value)))
        && (config.None? ==> View() == old(View()) && db.progressRows == old(db.progressRows) && message == None)
      ensures db.blockRows == old(db.blockRows)
    {
      message := None;
      if id !in playerProgress {
        message := SetPlayerStage(folder, Some(id), DefaultStage);
      }
    }

    /** `onPlayerJoin(player)`: a player without progress gets the stored
        progress row, or the default stage when the store has none. */
    method OnPlayerJoin(folder: DataFolder, id: PlayerId) returns (message: Option<string>)
      requires Valid()
      modifies this, playerProgress.Values, catalog, db
      ensures Valid()
      ensures id in old(View()) ==>
        (View() == old(View()) && message == None
         && catalog.configCache == old(catalog.configCache) && db.progressRows == old(db.progressRows))
      ensures id !in old(View()) && old(db.LoadPlayerProgress(id)).Some? ==>
        var row := old(db.LoadPlayerProgress(id)).value;
        View() == old(View())[id := Progress(row.stageFile, row.blocksBroken)]
        && catalog.configCache == old(catalog.configCache) && db.progressRows == old(db.progressRows)
      ensures id !in old(View()) && old(db.LoadPlayerProgress(id)).None? ==>
        var (c, config) := Load(old(catalog.configCache), folder, DefaultStage);
        && catalog.configCache == c
        && (config.Some? ==>
              (View() == old(View())[id := Progress(DefaultStage, 0)]
               && db.progressRows == old(db.progressRows)[id := ProgressRow(DefaultStage, 0)]))
        && (config.None? ==> View() == old(View()) && db.progressRows == old(db.progressRows))
      ensures db.blockRows == old(db.blockRows)
    {
      message := None;
      if id !in playerProgress {
        var row := db.LoadPlayerProgress(id);
        if row.Some? {
          var progress := new PlayerStageProgress(row.value.stageFile, row.value.blocksBroken);
          playerProgress := playerProgress[id := progress];
        } else {
          message := SetPlayerStage(folder, Some(id), DefaultStage);
        }
      }
    }

    /** `getCurrentStageFile(playerId)`. */
    function GetCurrentStageFile(id: PlayerId): (stage: string)
      reads this, playerProgress.Values
      ensures id in View() ==> stage == View()[id].stageFile
      ensures id !in View() ==> stage == DefaultStage
    {
      if id in playerProgress then playerProgress[id].stageFile else DefaultStage
    }

    /** `getChestChances(playerId)`: the current stage's chest table, or an
        empty one when the stage cannot be loaded. */
    method GetChestChances(folder: DataFolder, id: PlayerId) returns (chances: seq<(string, real)>)
      modifies catalog
      ensures var (c, config) := Load(old(catalog.configCache), folder, GetCurrentStageFile(id));
        catalog.configCache == c && chances == if config.Some? then config.value.chestChances else []
    {
      var stageFile := GetCurrentStageFile(id);
      var config := catalog.LoadStageConfig(folder, stageFile);
      chances := if config.Some? then config.value.chestChances else [];
    }

    /** `checkStageAdvancement(playerId, progress)`, for an online player. */
    method CheckStageAdvancement(folder: DataFolder, id: PlayerId, progress: PlayerStageProgress) returns (message: Option<string>)
      requires Valid() && id in playerProgress && playerProgress[id] == progress
      modifies this, playerProgress.Values, catalog
      ensures Valid()
      ensures var (c, q, m) := AfterBreak(old(catalog.configCache), folder,
                Progress(old(progress.stageFile), old(progress.blocksBroken) - 1), true);
        catalog.configCache == c && View() == old(View())[id := q] && message == m
    {
      message := None;
      ghost var v0 := View();
      ghost var q := Progress(progress.stageFile, progress.blocksBroken);
      ghost var after := AfterBreak(catalog.configCache, folder, Progress(q.stageFile, q.blocksBroken - 1), true);
      assert v0[id := q] == v0;
      var currentConfig := catalog.LoadStageConfig(folder, progress.stageFile);
      assert View() == v0;
      if currentConfig.None? || progress.blocksBroken < currentConfig.value.amount {
        assert after == (catalog.configCache, q, None);
        return;
      }
      var nextStage := WithYml(currentConfig.value.nextStage);
      if nextStage !in folder.blocks {
        assert after == (catalog.configCache, q, None);
        return;
      }
      WithYmlIdempotent(currentConfig.value.nextStage);
      message := SetPlayerStageAndSendMessage(folder, id, nextStage);
    }

    /** `incrementBlocksBroken(playerId)`. `online` says whether the server
        finds the player; when it does not, the debug line throws after the
        count was bumped, the advancement check never runs and `threw` tells
        the caller that the exception propagates. */
    method IncrementBlocksBroken(folder: DataFolder, id: PlayerId, online: bool)
      returns (message: Option<string>, threw: bool)
      requires Valid()
      modifies this, playerProgress.Values, catalog
      ensures Valid()
      ensures threw <==> id in old(View()) && !online
      ensures id !in old(View()) ==>
        View() == old(View()) && catalog.configCache == old(catalog.configCache) && message == None
      ensures id in old(View()) ==>
        var (c, q, m) := AfterBreak(old(catalog.configCache), folder, old(View())[id], online);
        catalog.configCache == c && View() == old(View())[id := q] && message == m
    {
      message, threw := None, false;
      if id !in playerProgress {
        return;
      }
      var progress := playerProgress[id];
      CountBreak(id, progress);
      if !online {
        threw := true;
        return;
      }
      message := CheckStageAdvancement(folder, id, progress);
    }

    /** `progress.blocksBroken++` on the player's shared progress object. */
    method CountBreak(id: PlayerId, progress: PlayerStageProgress)
      requires Valid() && id in playerProgress && playerProgress[id] == progress
      modifies progress
      ensures Valid() && progress.stageFile == old(progress.stageFile)
      ensures progress.blocksBroken == old(progress.blocksBroken) + 1
      ensures View() == old(View())[id := Progress(progress.stageFile, progress.blocksBroken)]
    {
      progress.blocksBroken := progress.blocksBroken + 1;
    }
  }
}
