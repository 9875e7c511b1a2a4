# Verified model of A-Game

A-Game predicts football matches. A daily worker syncs fixtures and results into Postgres and owes
one outbox event per changed match; the events are drained into a queue; the brain takes one message
at a time, rebuilds an Elo table and a Poisson goal model from the match history, stores probabilities
and an optional preview in one transaction and warms a cache; the API serves the preview from Redis,
falling back to Postgres. A script checks that every egress rule of the cluster's network policies has
its ingress half.

This project models those parts in Dafny and proves what they promise.

| module | what it holds |
|---|---|
| `PoissonWeights`, `ScoreMatrix`, `ExactScores`, `Truncation`, `Scorelines`, `StableScorelines`, `PoissonEngine` | the score matrix, what its numbers mean and obey, and the loop that computes them |
| `PoissonFit`, `StrengthFitting`, `FitMeaning`, `FitLaws` | decayed attack and defence strengths, the accumulation loop, the fit in plain weighted counts, and its laws |
| `Elo`, `EloReplay`, `EloAverage` | seeding, one match, the replay; reproducibility, causality, isolation, drift |
| `ChangeGate`, `Worker`, `Delivery`, `WorkerRefinement`, `Freshness`, `Staleness` | change-gated upserts, the outbox, one worker run, delivery as a state machine, and which numbers end up stored |
| `Predictions`, `Handler`, `ReadThrough`, `Serving`, `JobRefinement` | one brain job, one API request, and serving with a cache as a state machine |
| `NetworkPolicies`, `PolicyChecker` | what network policies mean, and the script that checks them |
| `RealArithmetic`, `Rounding`, `MapSums`, `MatchHistory`, `Options` | shared vocabulary |

Conventions. All arithmetic is over exact reals. The value of `exp(-rate)` is an arbitrary positive
number: it cancels. `0.5 ** x` is a function parameter (nonnegative where that is enough, a power law
where ageing is the subject), and so are the Elo expectation, kept in (0, 1), and the goal multiplier,
at least 1. Timestamps are integers. Every awaited effect on Postgres, RabbitMQ or Redis is one atomic
step that may also fail or never come; the preview text is an arbitrary optional string. Match ids are
unique and a match's two teams differ, as the database enforces, and only where a theorem says so.

## Where the code and its descriptions differ

Each of these is a theorem about the code as it is.

- `params.py` calls 1500 the place where every team starts. Only the two teams of a competition's
  first match do; everyone after them is seeded at 1450 or less
  (`EloAverage.SeedIsDefaultOnlyAtTheStart`).
- `seed_rating` explains drift by relegated teams leaving. Nobody leaves the rating map; the average
  moves through the seeding penalty alone, only down, and not at all through results
  (`EloAverage.ApplyMovesAverage`, `EloAverage.AverageIgnoresResults`).
- `params.py` says the tail beyond ten goals is worth under 0.01 % at any realistic rate. It is if and
  only if the un-normalised matrix, which `score_probabilities` adds up as `total`, already reaches
  0.9999 (`Truncation.TailNegligibleIff`). Both rates up to 2.4 meet that; a rate of 3 on either side
  does not (`Truncation.WhereTheTailMatters`).
- The prediction table's CHECKs always hold, but they are not the only limit: a rate of 99.99995 or
  more overflows its column and the job is dropped (`Handler.FitsIffInRange`,
  `Handler.AHundredGoalsDoNotFit`).
- A re-run of a batch is silent exactly when the batch does not contradict itself
  (`ChangeGate.RerunSilentIffConsistent`); what the gate does not watch goes stale until it moves
  (`ChangeGate.StaleDetails`); and a change the backfill wrote first is never announced
  (`ChangeGate.BackfillSilencesSync`).
- `_weight` clamps matches after the anchor. When the anchor moves, all weights scale by one factor if
  and only if all dates agree once limited to the stretch it moved over
  (`FitLaws.WeightsAgeTogetherIff`); with one match behind and one ahead even the league rates move
  (`FitLaws.AMatchAheadMovesTheRates`).
- The consumer takes one message at a time so that jobs do not overlap. With two consumers, as during a
  rollout, an older job can commit last and leave numbers a change behind
  (`Freshness.OlderJobCanCommitLast`); without overlap it cannot (`Freshness.QuietMeansStored`).
- A job reads its whole competition's history, but is only sent when its own match changed. A quiet
  match's numbers are what a job would read now if and only if the fixture and every result of its
  competition are as they were at its latest read (`Staleness.QuietMeansCurrentIff`); another match's
  result leaves them behind (`Staleness.OtherResultsLeaveNumbersBehind`).
- `docs/schema.md` speaks of one transaction per competition; the daily sync runs one per match, so a
  rejected payload loses only what follows it (`ChangeGate.Database.SyncMatches`).
- Once a match was served it is not answered 404 again, provided the request came in afterwards; a
  request already past its Postgres read can be overtaken (`Serving.ServedThenNever404`,
  `Serving.A404CanOvertake`).
- The policy script says it skips destinations no ingress policy selects and reports only pairs that
  can break. It compares selectors for equality, so it skips a destination that a broader default-deny
  isolates (`PolicyChecker.DefaultDenyIsSkipped`) and reports pairs that a broader ingress rule admits
  (`PolicyChecker.ReportedButConnected`). It also collects nothing from an egress policy without policy
  types, from a namespace peer that selects this very namespace, or from a rule without peers, so a
  destination protected by name can be cut off at exit 0 (`PolicyChecker.EgressPassedOver`).
  `PolicyChecker.ExitZeroMeansConnected` gives the exact condition, over everything the egress policies
  grant within the namespace.

## Model

| member | source | states |
|---|---|---|
| `ScoreMatrix.ProbabilityLaws` | a-game-brain/app/engine/poisson.py:248-291 | every market's probability lies in [0, 1], complements add to one, home, draw and away add to one, for all nonnegative rates and every matrix size |
| `ExactScores.ScoreIsShare` | a-game-brain/app/engine/poisson.py:248-277 | an exact score is as likely as its cell's weight over the whole matrix's |
| `ExactScores.MarketsAreTheirScores` | a-game-brain/app/engine/poisson.py:258-271 | each of the five markets is the sum of the exact scores it stands for, both-to-score through the scores with a blank |
| `ExactScores.OverIsAllButSixScores` | a-game-brain/app/engine/poisson.py:267-268 | over 2.5 is one minus the six exact scores with at most two goals |
| `ScoreMatrix.UpwardMonotone` | a-game-brain/app/engine/poisson.py:248-278 | likelihood-ratio dominance: a higher home rate never makes any event that survives an extra home goal less likely, in the normalised truncated matrix |
| `ScoreMatrix.MonotoneInHomeRate` | a-game-brain/app/engine/poisson.py:258-291 | raising the home rate never lowers home win, over 2.5 or both-to-score and never raises away win, for every matrix size |
| `ScoreMatrix.MonotoneInAwayRate` | a-game-brain/app/engine/poisson.py:258-291 | the same for the away rate |
| `ScoreMatrix.SwapSymmetry` | a-game-brain/app/engine/poisson.py:248-271 | swapping the rates swaps the sides of every event and nothing else |
| `ScoreMatrix.FavouriteIsHigherRate` | a-game-brain/app/engine/poisson.py:248-271 | home win is likelier than away win if and only if the home rate is higher, equal if and only if the rates are |
| `Truncation.ShiftBoundedByDroppedShare` | a-game-brain/app/engine/params.py:47-50 | enlarging the matrix moves no event's probability, exact scores included, by more than the share of weight the smaller one drops |
| `Truncation.TailNegligibleIff` | a-game-brain/app/engine/params.py:47-50 | for every bound and share, no larger matrix shows more than that share dropped if and only if the un-normalised total reaches the rest |
| `Truncation.WhereTheTailMatters` | a-game-brain/app/engine/poisson.py:277 | the total at bound 10 reaches 0.9999 for both rates up to 2.4 and misses it once either is 3 |
| `Truncation.TruncationHarmless` | a-game-brain/app/engine/params.py:47-50 | for rates up to 2.4, any larger bound than 10 moves every event's probability, exact scores included, by less than 0.0001 |
| `Truncation.DroppedShareMonotone` | a-game-brain/app/engine/params.py:47-50 | the dropped share only grows with the rates |
| `Truncation.TruncationCostly` | a-game-brain/app/engine/params.py:47-50 | with either rate at 3 or more the dropped share exceeds 0.0001, against any larger bound |
| `Scorelines.SortDescending` | a-game-brain/app/engine/poisson.py:279 | the stable descending sort: a permutation of the cells, ties left in row-major order |
| `Scorelines.ModeIsFirstMaximum` | a-game-brain/app/engine/poisson.py:228-230 | weights climb strictly up to min(N, max(0, ceil(rate) - 1)) and never exceed it afterwards |
| `Scorelines.TopScorelineIsModes` | a-game-brain/app/engine/poisson.py:279-283 | the first reported scoreline is the pair of closed-form modes |
| `Scorelines.TopScorelinesDistinct` | a-game-brain/app/engine/poisson.py:280-283 | the reported scorelines are pairwise distinct |
| `StableScorelines.ReportedIsProbability` | a-game-brain/app/engine/poisson.py:280-283 | the number beside each reported scoreline is the rounded probability of exactly that score |
| `StableScorelines.ScorelinesIgnoreLargerBounds` | a-game-brain/app/engine/poisson.py:256-283 | with both rates at most N - 1, every larger matrix reports the same scorelines in the same order |
| `StableScorelines.ListIgnoresLargerBoundsIff` | a-game-brain/app/engine/poisson.py:256-283 | for any rates, one more row and column leave the list as it is if and only if its last entry leads the two best cells just outside, and then no larger matrix changes it |
| `StableScorelines.RateAtTheBoundMovesTheList` | a-game-brain/app/engine/poisson.py:256-283 | with a home rate of N and no away goals the next matrix reports a different list |
| `StableScorelines.HeadlineIgnoresLargerBoundsIff` | a-game-brain/app/engine/poisson.py:279-283 | the pair of modes is the same for every larger bound if and only if neither rate exceeds N + 1 |
| `StableScorelines.ReportedScorelinesStable` | a-game-brain/app/engine/params.py:47-50 | at bound 10 and rates up to 2.4, larger bounds report the same three scorelines, each probability within 0.0001 before rounding |
| `PoissonEngine.ReportTop` | a-game-brain/app/engine/poisson.py:280-283 | the three reported cells outrank every cell left out, with their normalised share to four places |
| `PoissonEngine.Score` | a-game-brain/app/engine/poisson.py:233-294 | the double loop's normalised totals are the matrix probabilities whatever positive values the two exponentials take, and its list is the top of the ranking |
| `PoissonFit.AccumulatedIsTally` | a-game-brain/app/engine/poisson.py:149-175 | reading a dictionary of the loop at a team gives that team's declared weighted sum over the history |
| `StrengthFitting.Accumulate` | a-game-brain/app/engine/poisson.py:149-175 | the loop over five dictionaries, match by match |
| `StrengthFitting.Strengths.FillStrengths` | a-game-brain/app/engine/poisson.py:177-183 | every sampled team gets its shrunk attack and defence, and nobody else does |
| `StrengthFitting.Fit` | a-game-brain/app/engine/poisson.py:104-185 | the fitted object equals the declared model, team by team, with the empty and weightless histories giving the empty model |
| `FitMeaning.WeightLandmarks` | a-game-brain/app/engine/poisson.py:63-77 | a match at or after the anchor weighs 1, and 182.5 days more before it halve the weight, whatever else the match says |
| `FitMeaning.OneMoreMatch` | a-game-brain/app/engine/poisson.py:149-175 | what one more match adds to each of a team's five dictionaries, at home and away |
| `FitMeaning.ShrinkMeans` | a-game-brain/app/engine/poisson.py:80-101 | a strength is the team's own record plus six appearances of an average side, or 1 where there is nothing to go on |
| `FitMeaning.FitMeans` | a-game-brain/app/engine/poisson.py:128-185 | the whole fit in a team's plain weighted goals and appearances: both league rates, every attack from goals scored, every defence from goals conceded |
| `FitMeaning.NothingToFit` | a-game-brain/app/engine/poisson.py:121-132 | without weight both rates are 0 and nobody has a strength |
| `FitLaws.OrderIndependent` | a-game-brain/app/engine/poisson.py:128-185 | any permutation of the history fits the same model |
| `FitLaws.GoalsBalance` | a-game-brain/app/engine/poisson.py:128-175 | over the league scored = conceded = both baselines = weight times the two rates, and the samples add to twice the weight |
| `FitLaws.GuardDiscardsNothing` | a-game-brain/app/engine/poisson.py:97-98 | a team whose baseline is zero has scored or conceded nothing, so the guard loses no goal |
| `FitLaws.ShrinkBetween` | a-game-brain/app/engine/poisson.py:80-101 | a strength lies between 1 and the team's raw ratio |
| `FitLaws.ScalingFades` | a-game-brain/app/engine/poisson.py:80-183 | scaling every weight of any history by one factor in (0, 1] keeps both league rates and moves every strength toward 1 without crossing it |
| `FitLaws.WeightsAgeTogetherIff` | a-game-brain/app/engine/poisson.py:63-77 | some one factor scales all weights when the anchor moves if and only if all dates agree once limited to the stretch it moved over |
| `FitLaws.WeightsAgeInFullIff` | a-game-brain/app/engine/poisson.py:63-77 | that factor is the one for the whole move if and only if no match lies after the old anchor |
| `FitLaws.AgeingFades` | a-game-brain/app/engine/poisson.py:63-183 | so, whenever the dates agree in that sense, moving the anchor keeps the rates and fades every strength |
| `FitLaws.AMatchAheadMovesTheRates` | a-game-brain/app/engine/poisson.py:76 | with one match behind and one ahead of both anchors, a half-life of waiting moves the home rate from 1/2 to 1/3 |
| `FitLaws.FittedNonNegative` | a-game-brain/app/engine/poisson.py:104-185 | every rate and strength of a fitted model is nonnegative, empty history included |
| `FitLaws.FixtureRates` | a-game-brain/app/engine/poisson.py:188-225 | both expected-goal rates are nonnegative, and a fixture of two unknown teams gets the league rates |
| `FitMeaning.RatesAreProportional` | a-game-brain/app/engine/poisson.py:188-225 | scaling a side's league rate, its attack and the opponent's defence by any three factors scales its rate by their product, and nothing else reaches it |
| `FitMeaning.RateExample` | a-game-brain/app/engine/poisson.py:214-225 | a home rate of 1.5, a home attack of 1.2 and an away defence of 0.8 give 1.44, and 1.25 against a home defence of 0.5 gives 0.625 |
| `Elo.SeedRating` | a-game-brain/app/engine/elo.py:112-137 | the scan over live ratings returns 1500 for an unrated competition, else its average minus 50 |
| `Elo.EloState.ApplyMatch` | a-game-brain/app/engine/elo.py:140-199 | the map in place becomes the seeded map with the change added to one side and taken from the other; the snapshot is the pair before it |
| `Elo.ResultMovesRatings` | a-game-brain/app/engine/elo.py:167-197 | the two ratings keep their sum, the winner rises, a draw moves toward the side expected to do worse, no move reaches K times the margin's multiplier, everyone else stays |
| `Elo.ExactMoves` | a-game-brain/app/engine/elo.py:174-197 | the size of every move: 20 times the margin's multiplier times result less expectation, a draw unscaled, and the away side pays it |
| `Elo.WinAndDefeatApart` | a-game-brain/app/engine/elo.py:174-196 | a home win and a home defeat by the same margin leave the home side exactly 20 multipliers apart |
| `Elo.GainsInProportion` | a-game-brain/app/engine/elo.py:181-192 | two wins of the same fixture gain in the ratio of their margins' multipliers |
| `Elo.Run` | a-game-brain/app/engine/elo.py:202-222 | the loop over the sorted history leaves the replayed ratings and one snapshot per match |
| `EloReplay.SortForgetsOrder` | a-game-brain/app/engine/elo.py:205-219 | with unique ids the sort key is total, so sorting any permutation gives the same replay order |
| `EloReplay.TiesByAscendingId` | a-game-brain/app/engine/elo.py:205-219 | snapshots come by kickoff, and those of one kickoff by ascending match id |
| `EloReplay.Reproducible` | a-game-brain/app/engine/elo.py:205-222 | with unique ids every permutation of the history gives the same ratings and snapshots |
| `EloReplay.Causal` | a-game-brain/app/engine/elo.py:219-222 | each snapshot reads the ratings of the earlier matches alone, and a cutoff history replays to a prefix of the full one |
| `EloReplay.FilterSorted` | a-game-brain/app/engine/elo.py:219 | sorting commutes with selecting a competition or a cutoff |
| `EloReplay.CompetitionIsolation` | a-game-brain/app/engine/elo.py:131-222 | a mixed replay restricted to a competition is that competition's own replay, ratings and snapshots alike |
| `EloAverage.ApplyMovesAverage` | a-game-brain/app/engine/elo.py:164-197 | a match with k newcomers to n rated teams lowers the league average by exactly 50k/(n+k), whatever the result; the first pair starts it at 1500 |
| `EloAverage.ReplayAverage` | a-game-brain/app/engine/elo.py:112-222 | after any replay exactly the teams met are rated, averaging 1500 minus 50 per accumulated penalty share |
| `EloAverage.AverageIgnoresResults` | a-game-brain/app/engine/elo.py:112-222 | two histories with the same fixtures in the same replay order end on the same average, whatever their scores and curves |
| `EloAverage.AverageBounds` | a-game-brain/app/engine/elo.py:115-122 | a league of T teams averages between 1500 - 50(H_T - 3/2) and 1500 |
| `EloAverage.SeedIsDefaultOnlyAtTheStart` | a-game-brain/app/engine/params.py:16-17 | the seed is 1500 if and only if the competition has no rated team; afterwards it is at most 1450 |
| `Elo.HandlerPairIsSnapshot` | a-game-brain/app/handlers.py:55-60 | looking both sides up with the seed as default gives the snapshot the loop would take, whichever sides are unrated |
| `ChangeGate.Database.SyncMatches` | a-game-worker/app/db.py:150-262 | wherever the batch first raises, by a CHECK, a small column or anything else, the tables hold exactly what came before; the outbox is only appended to, by the returned count |
| `ChangeGate.Database.SyncHistoric` | a-game-worker/app/db.py:11-119 | all or nothing whatever raises, no outbox row, and a count of the events a daily sync would have owed |
| `ChangeGate.WithoutMembers` | a-game-worker/app/db.py:137-147 | a row survives a delete if and only if it was there and was not named |
| `ChangeGate.WholeBatchIff` | a-game-worker/postgres/05_match.sql:1-36 | a batch goes through whole if and only if nothing else raises and each row meets the table's CHECKs and small columns |
| `ChangeGate.MatchesStayStorable` | a-game-worker/postgres/05_match.sql:10-33 | whatever payloads come in, through the sync or the backfill, every stored match keeps two different teams, no negative goals and a known status |
| `ChangeGate.OutboxStaysInOrder` | a-game-worker/app/db.py:122-134 | syncs and deletes keep the outbox strictly ascending by id, so a fetch reads the oldest change first |
| `ChangeGate.StutterFilter` | a-game-worker/app/db.py:177-258 | over any stream of payloads the outbox gains one event exactly where a match's six-column tuple differs from its previous one, and the stored tuple is the latest payload's |
| `ChangeGate.SyncConcat` | a-game-worker/app/db.py:210-262 | how payloads are cut into batches does not matter |
| `ChangeGate.QuietIffUpToDate` | a-game-worker/app/db.py:201-258 | a batch adds no event if and only if every payload's tuple is already stored, and then nothing changes |
| `ChangeGate.RerunSilentIffConsistent` | a-game-worker/app/db.py:172-176 | running a batch twice is silent the second time if and only if no match appears with two tuples |
| `ChangeGate.DistinctIdsRerunSilently` | a-game-worker/app/db.py:172-176 | a batch with distinct ids changes nothing at all the second time |
| `ChangeGate.StaleDetails` | a-game-worker/app/db.py:185-206 | over any stream of payloads the whole stored row is that of the payload that last moved the match's tuple |
| `ChangeGate.BackfillSilencesSync` | a-game-worker/app/db.py:64-119 | after a backfill the same batch through the daily sync owes nothing if and only if it does not contradict itself, and then changes nothing |
| `Worker.Broker.RunProducer` | a-game-worker/app/producer.py:30-47 | the ids are queued in order, up to the publish that fails, and the failure is raised |
| `Worker.DailyRun` | a-game-worker/app/main.py:31-37 | exactly when a run succeeds; then the outbox is empty and every owed match queued in order, otherwise no event is deleted; either way each owed event is in the outbox or its match in the queue |
| `WorkerRefinement.DailyRunIsARun` | a-game-worker/app/main.py:31-37 | whatever a run leaves behind, steps of the delivery protocol leave behind from the same state, touching no consumer and no other worker |
| `Delivery.InvariantOverRuns` | a-game-worker/app/main.py:31-37 | outbox, drains, messages and versions stay consistent over every run of any number of workers and consumers dying anywhere |
| `Delivery.NoChangeLost` | a-game-worker/app/main.py:31-37 | every committed change is in the outbox, queued, held unacked, or was handed to a job that read it or something newer |
| `Delivery.QuietMeansCaughtUp` | a-game-brain/app/consumer.py:37-48 | with outbox, queue and consumers empty, every match was last read at its latest committed change |
| `Freshness.QuietMeansStored` | a-game-brain/app/handlers.py:43-85 | then also its stored numbers were computed from its latest read of that change, unless the job that last finished on it raised, in every run where jobs on one match do not overlap |
| `Freshness.OneConsumerIsExclusive` | a-game-brain/app/consumer.py:39 | with a single consumer, one unacked message at a time, jobs never overlap |
| `Freshness.OlderJobCanCommitLast` | a-game-brain/app/consumer.py:42-47 | with two consumers, a quiet state without failures whose stored numbers are a change behind |
| `Staleness.SameResultsIff` | a-game-brain/app/db.py:38-48 | two match tables give the same history if and only if every match contributes the same finished result to both |
| `Staleness.OwnCompetitionOnly` | a-game-brain/app/db.py:38-48 | a row is history if and only if it is finished with both scores known, in its season's competition and no other, and then with its own date, teams and goals |
| `Staleness.OrderIsNoInput` | a-game-brain/app/handlers.py:46-53 | the order in which a history is fetched does not reach the row |
| `Staleness.QuietMeansCurrentIff` | a-game-brain/app/handlers.py:39-47 | when all is quiet the stored numbers come from the match's latest read, and are what a job would read now if and only if the fixture and each result of its competition are unchanged since |
| `Staleness.UndisturbedStaysCurrent` | a-game-brain/app/handlers.py:39-47 | as long as no step changes the fixture's row or a finished match of its competition, what a job would read stays the same |
| `Staleness.OtherResultsLeaveNumbersBehind` | a-game-worker/app/main.py:34-36 | a quiet run without failures or overlap whose fixture keeps numbers from before another match's result |
| `Delivery.DeleteSparesLaterEvents` | a-game-worker/app/main.py:34-37 | the delete after a drain spares every event committed since its fetch |
| `Delivery.NoDuplicateWithinADrain` | a-game-worker/app/producer.py:30-41 | no drain publishes an event twice |
| `Handler.Compute` | a-game-brain/app/handlers.py:46-60 | from any history, empty included, and any fixture to the rounded row of both models, never dividing by zero |
| `Handler.ComputedColumns` | a-game-brain/app/handlers.py:46-75 | what each column says: both rates, all five markets and both ratings in their own place, each within half a unit of its last decimal, an unrated side at the seed |
| `Rounding.RoundedToScale` | a-game-brain/app/db.py:118-136 | stored numbers have no more decimals than their column |
| `FitLaws.RatesFollowStrengths` | a-game-brain/app/engine/poisson.py:188-225 | a side's rate rises with its own attack and its opponent's defence number and depends on nothing else of the model but its league rate |
| `Handler.BetterAttackNeverHurts` | a-game-brain/app/handlers.py:46-53 | from strengths to the stored row: a higher attack, all else fixed, never lowers its side's win share, the overs or both-to-score, and never raises the opponent's share |
| `Handler.RowsPassChecks` | a-game-brain/app/db.py:115-132 | whatever the two rates, the rounded row satisfies the table's CHECKs, with the three outcomes within 0.0001 of one |
| `Rounding.RoundedSharesSum` | a-game-worker/postgres/08_prediction.sql:42-46 | three shares of one, rounded to four places, add to 1 within one unit of the fourth |
| `Handler.FitsIffInRange` | a-game-worker/postgres/08_prediction.sql:21-33 | a rate fits its column if and only if it is below 99.99995, a rating if and only if below 99999.995 in size |
| `Handler.AHundredGoalsDoNotFit` | a-game-worker/postgres/08_prediction.sql:21-22 | a one-match history whose home rate rounds to 100, which the CHECKs admit and the column refuses |
| `Handler.RowsFitIff` | a-game-worker/postgres/08_prediction.sql:21-33 | a row fits its columns if and only if its rates stay below 99.99995 and its ratings below 99999.995 in size |
| `Handler.JobCommitsIff` | a-game-brain/app/handlers.py:62-85 | a job commits exactly when no effect raises and the numbers fit their columns; no CHECK ever stops it |
| `Handler.JobsByFault` | a-game-brain/app/handlers.py:62-112 | fault by fault, what is kept and returned: nothing before the commit stays, nothing after it is undone, and a lost warm costs neither rows nor reply |
| `Handler.RefusedRowsChangeNothing` | a-game-worker/postgres/08_prediction.sql:21-46 | a row that breaks a CHECK or overflows a column leaves everything as it was |
| `Handler.JobKeepsProseNumbered` | a-game-brain/app/handlers.py:65-85 | whatever raises, a match with prose keeps a prediction row |
| `Handler.Stores.ProcessJob` | a-game-brain/app/handlers.py:23-112 | the three stores and the return value after a job on any match and history, whatever raises where |
| `JobRefinement.ProcessJobIsAJob` | a-game-brain/app/handlers.py:66-95 | what a job leaves in Postgres and Redis is what one job's steps of the serving protocol leave there |
| `Serving.InvariantOverRuns` | a-game-api/app/main.py:80-116 | cache, jobs, requests and answers stay sound over every interleaving |
| `ReadThrough.Api.AsyncPrediction` | a-game-api/app/main.py:80-116 | a live cached text, else the stored one, and 404 if and only if there is neither; only a miss that finds a text writes the cache, for a day; exactly the awaited effects that were reached can fail it |
| `ReadThrough.RequestIsARun` | a-game-api/app/main.py:80-116 | the steps of one uninterrupted request, hit, miss, absent, direct or failed, leave exactly that reply and that cache and nothing else |
| `Serving.ServedWasCurrent` | a-game-api/app/main.py:88-102 | every served text was the committed preview of that match, and still was less than TTL + D before it was read |
| `Serving.ExpiryIsFromOneSet` | a-game-api/app/main.py:94-102 | whatever is cached was set by one earlier warm or backfill, expires TTL after that moment and has not changed since: hits never extend a life |
| `Serving.ServedThenNever404` | a-game-api/app/main.py:104-114 | a request asked after its match was served is never answered 404 |
| `Serving.A404CanOvertake` | a-game-api/app/main.py:96-114 | a run in which a 404 goes out after the match was served, because its request read Postgres before |
| `Serving.ProseImpliesNumbers` | a-game-brain/app/handlers.py:66-85 | in every reachable state a match with a preview has a prediction row |
| `Serving.ServedHasNumbers` | a-game-brain/app/handlers.py:66-95 | a match whose preview was served has a prediction row |
| `Serving.PredictionsGrow` | a-game-brain/app/db.py:96-116 | no (match, version) row ever disappears |
| `Serving.VersionsStayApart` | a-game-brain/app/db.py:82-116 | over any stretch of a run a row keeps its value unless a job under its own match and version commits |
| `NetworkPolicies.JoinIsLeast` | scripts/check_k8s_policies.py:29-33 | two selectors share a pod if and only if they agree where they overlap, and their join is the smallest such pod |
| `NetworkPolicies.IngressOpenIffAnswered` | scripts/check_k8s_policies.py:4-8 | ingress admits every pair of matching pods if and only if, for each ingress policy compatible with the destination, some rule admits the smallest pod of both; namespace peers count when they select this namespace |
| `PolicyChecker.Gather` | scripts/check_k8s_policies.py:65-88 | the nested loops collect the protected selectors and the ingress and egress triples |
| `PolicyChecker.IngressTriplesIff` | scripts/check_k8s_policies.py:78-82 | an ingress triple is collected if and only if some ingress policy's rule names that peer and that port |
| `PolicyChecker.EgressTriplesIff` | scripts/check_k8s_policies.py:84-88 | the same for egress triples |
| `PolicyChecker.CollectedAreTriples` | scripts/check_k8s_policies.py:84-88 | a typed egress policy's rule names a pod peer on a port if and only if a collected triple covers it |
| `PolicyChecker.EgressIsGranted` | scripts/check_k8s_policies.py:4-8 | a pod under egress policy may open a connection if and only if some granted pair of selectors covers it; grants include untyped policies, this namespace named by its labels, and rules without peers |
| `PolicyChecker.Check` | scripts/check_k8s_policies.py:59-123 | the reported pairs are exactly the unanswered ones, in the order they were collected, and the exit code is 1 if and only if there is one |
| `PolicyChecker.ReportedIff` | scripts/check_k8s_policies.py:93-110 | a pair is reported if and only if an egress rule names it, some ingress policy is for exactly its destination, and no rule of such a policy names exactly its source with no ports at all or the same protocol and port |
| `PolicyChecker.MatchedPairsConnect` | scripts/check_k8s_policies.py:93-99 | a matched pair works: every pod carrying the source labels reaches every pod carrying the destination labels, on every port the triple covers, under both sides' policies |
| `PolicyChecker.ReachableIffAnswered` | scripts/check_k8s_policies.py:4-8 | a granted pair works for all pods if and only if every ingress policy that can meet its destination answers it |
| `PolicyChecker.ExitZeroMeansConnected` | scripts/check_k8s_policies.py:10-18 | given exit 0, everything the egress policies grant within the namespace works if and only if every granted pair the script does not compare is answered |
| `PolicyChecker.DefaultDenyIsSkipped` | scripts/check_k8s_policies.py:10-13 | exit 0 with an egress pair that a namespace-wide default-deny blocks |
| `PolicyChecker.EgressPassedOver` | scripts/check_k8s_policies.py:43-49 | three egress policies that collect no triple: exit 0 although the destination is protected by name and cut off |
| `PolicyChecker.ReportedButConnected` | scripts/check_k8s_policies.py:10 | a reported pair that works for every pod and port |

## Left out

- Floating-point error, and the values of `exp`, `log`, `0.5 ** x` and `10 ** x`: reals and parameters stand in for them.
- Sockets, pools, clients and the retry loops that open them: their effects are atomic steps.
- Preview writing, its prompts and its validation: a preview is an arbitrary optional text.
- The season, team and competition upserts that precede each match: what they or the foreign keys raise is an arbitrary failure of that match.
- The columns of the commentary table besides its text.
- Liveness: a job that raises is acked and dropped, so an eventual prediction is not guaranteed.
- Serving.ServedWasCurrent: assumes a bound D between reading or committing a text and the Redis write that follows; the code sets none.
- Staleness.QuietMeansCurrentIff: compares what jobs read; the anchor date, which moves with the clock, is not among its inputs.
- Delivery.NoChangeLost: says a change reached a job, not that the job succeeded, because the handler swallows every exception.
- PolicyChecker.Check: takes parsed manifests and one namespace; YAML parsing, matchExpressions, port ranges and the message texts are not modelled.
- NetworkPolicies.IngressOpenIffAnswered: treats ipBlock peers as matching no pod, because pods carry labels here and no addresses.
- `evals/`, `check_k8s_refs.py`, configuration, health endpoints and deployment files.
