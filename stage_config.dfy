/** A stage definition: how many blocks finish the stage, which stage comes
    next, the announcement sent on entering it, the stage's own chest table
    (chest configuration name to chance, in iteration order), and the entity
    pack with its spawn chance. */
module StageConfigs {

  datatype StageConfig = StageConfig(
    amount: int,
    nextStage: string,
    message: string,
    chestChances: seq<(string, real)>,
    entityPack: string,
    entityChance: real)

  const DefaultAmount: int := 500
  const DefaultEntityChance: real := 0.05

  /** `new StageConfig()`: every field at its initialiser. */
  function NewStageConfig(): (c: StageConfig)
    ensures c.amount == DefaultAmount && c.entityChance == DefaultEntityChance
    ensures c.nextStage == "" && c.message == "" && c.entityPack == ""
    ensures |c.chestChances| == 0
  {
    StageConfig(DefaultAmount, "", "", [], "", DefaultEntityChance)
  }
}
