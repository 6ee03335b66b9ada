/** The score ledger's document: one row per completed session. */
module ScoreModel {

  /** A stored score row; the creation timestamp the database adds is not modelled. */
  datatype ScoreRecord = ScoreRecord(
    playerId: string,
    gameName: string,
    score: int,
    level: int,
    duration: int)
}
