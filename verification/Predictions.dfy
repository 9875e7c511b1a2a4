/** The rows of the prediction table. */
module Predictions {
  import opened Scorelines

  /** One row per match and engine version. */
  datatype PredictionKey = PredictionKey(matchId: int, version: string)

  datatype PredictionRow = PredictionRow(
    probHome: real, probDraw: real, probAway: real,
    overTwoAndAHalf: real, btts: real,
    lambdaHome: real, lambdaAway: real,
    mostLikely: seq<Scoreline>,
    eloHome: real, eloAway: real)

  predicate Probability(x: real) {
    0.0 <= x <= 1.0
  }

  /** The prediction table's CHECKs. */
  predicate ChecksHold(row: PredictionRow) {
    && Probability(row.probHome) && Probability(row.probDraw) && Probability(row.probAway)
    && Probability(row.overTwoAndAHalf) && Probability(row.btts)
    && 0.0 <= row.lambdaHome && 0.0 <= row.lambdaAway
    && -0.0005 <= row.probHome + row.probDraw + row.probAway - 1.0 <= 0.0005
  }

  /** NUMERIC(6,4) for the rates and NUMERIC(7,2) for the ratings. */
  predicate FitsColumns(row: PredictionRow) {
    && row.lambdaHome < 100.0 && row.lambdaAway < 100.0
    && -100000.0 < row.eloHome < 100000.0 && -100000.0 < row.eloAway < 100000.0
  }
}
