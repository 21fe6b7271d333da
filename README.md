# F1 dashboard predictions, modelled in Dafny

This project models the prediction logic of a Formula 1 dashboard's Predictions page
(`src/pages/Predictions.tsx`). It also models the image and flag lookups of the same
dashboard (`src/lib/images.ts`). The project then proves properties of that model.

- **Drivers' championship estimate.** The Monte Carlo `simulateChampionship` runs 10 000
  trials. Each trial clones every driver's points and plays the remaining races. In each
  race, positions 1–10 score 25, 18, 15, 12, 10, 8, 6, 4, 2 and 1 points. The driver with
  the most points then gets one win, the earliest such driver on a tie. Each driver's
  win probability is their share of the 10 000 trials, and the result is sorted by it.
  - The imperative parts keep their form. The race loop updates an `array<int>` of
    working totals. The trial loop updates a `map<string, nat>` of win counters. Each loop
    is proved equal to a recursive specification (`Season`, `WinTally`).
  - The random finishing orders are inputs. For every trial and race, the caller supplies
    the order the random performance draw produced, as a permutation of driver indices.
- **Constructors' championship estimate.** `predictConstructorChampionship` computes a
  closed formula per team and sorts the teams by it. Where the source would throw, or
  would divide zero by zero, the model returns an error.
- **Per-race winner odds** (`predictRaceOutcomes`). The first five drivers get base odds
  plus a variance supplied by the caller, with a floor of 1. The odds are then
  normalised to 100 percent, for each of the next five future races.
- **Next-race podium forecast** (`predictNextRacePodium`). It takes the first future
  race, a form score per driver, a sort, and the ten best drivers, numbered from 1.
- **Schedule filters.** These are the remaining-race count and the next race. Dates are
  timestamps, `None` when they cannot be parsed, and the current time is a parameter.
- **Image lookups.**
  - Team logos and driver photos are looked up by the id in lower case. `table[id] ||
    fallback` falls back on a missing key and on an empty value.
  - A headshot falls back to the photo for the same id.
  - Flags are looked up with the nationality exactly as given.
  - The URL tables are abstract maps. Their key sets are the ones the dashboard ships.

Arithmetic is exact: integers are unbounded and fractions are `real`.

## Model

| member | source | states |
|---|---|---|
| `PredictionInputs.IsAfter` | src/pages/Predictions.tsx:190 | a race counts as after `now` only when its date parsed: an unparseable date is never after |
| `PredictionInputs.IsAfterEarlier` | src/pages/Predictions.tsx:190 | a race still to come at a later time is still to come at any earlier time |
| `PredictionInputs.FewerRacesLater` | src/pages/Predictions.tsx:251 | as `now` advances, the number of races still to come never grows |
| `PredictionInputs.FutureRaces` | src/pages/Predictions.tsx:190 | the filter keeps no more races than the schedule has, and every race it keeps is dated after `now` |
| `PredictionInputs.FutureRacesMembership` | src/pages/Predictions.tsx:190 | a race is kept exactly when the schedule lists it and it is dated after `now` |
| `PredictionInputs.FutureRacesMultiplicity` | src/pages/Predictions.tsx:190 | the filter keeps each race dated after `now` exactly as many times as the schedule lists it, and no other race |
| `PredictionInputs.FutureRacesDistribute` | src/pages/Predictions.tsx:190 | filtering a concatenation is the concatenation of the filtered parts, so the kept races stay in schedule order |
| `PredictionInputs.FutureRacesCountsPositions` | src/pages/Predictions.tsx:251 | the filter's length is the number of schedule positions whose race is dated after `now` |
| `PredictionInputs.RemainingRaceCount` | src/pages/Predictions.tsx:251 | a schedule that has not loaded counts as 0 remaining races; otherwise the count is the length of the filter and the number of schedule positions dated after `now` |
| `PredictionInputs.NextRace` | src/pages/Predictions.tsx:127 | no race is found iff no race is after `now`; otherwise the result is the first race, in schedule order, dated after `now` |
| `PredictionInputs.NextRaceIsFirstFutureRace` | src/pages/Predictions.tsx:127-129 | `find` gives nothing exactly when the filtered schedule is empty, and otherwise its head |
| `Championship.PointsFor` | src/pages/Predictions.tsx:81 | no finishing position earns more than 25 points, and positions beyond 10th earn none |
| `Championship.StartingPoints` | src/pages/Predictions.tsx:89 | one working total per driver, in input order, equal to that driver's points |
| `Championship.InitialWins` | src/pages/Predictions.tsx:83-86 | a counter of 0 for exactly the drivers' ids |
| `Championship.RaceResult` | src/pages/Predictions.tsx:102-107 | one whole race's totals, one per driver; `RaceScoring` and `RacePointsHandedOut` state each gain and the sum |
| `Championship.TrialWinner` | src/pages/Predictions.tsx:88-113 | after the trial's season, the winner has the most points and every earlier driver has strictly fewer |
| `Championship.WinProbability` | src/pages/Predictions.tsx:119 | a win count's percentage of the 10 000 trials is non-negative and at most 100 for at most 10 000 wins |
| `Championship.WinProbabilityExtremes` | src/pages/Predictions.tsx:119 | no wins give 0 and winning all 10 000 trials gives 100 |
| `Championship.Award` | src/pages/Predictions.tsx:103-107 | the totals after the first k finishers of one race are scored; it keeps one total per driver, and `AwardFacts` states what each driver gains |
| `Championship.Season` | src/pages/Predictions.tsx:91-108 | the totals after every remaining race is scored in turn; it keeps one total per driver, and `SeasonBounds` bounds each |
| `Championship.WinTally` | src/pages/Predictions.tsx:83-115 | the win counters after the given trials, keyed by exactly the drivers' ids; `WinTallyStep`, `WinsConserved` and the zero and all-trials lemmas state its values |
| `Championship.Chances` | src/pages/Predictions.tsx:117-120 | one entry per driver, in input order, carrying that driver's share of the trials in percent |
| `Championship.AwardFacts` | src/pages/Predictions.tsx:102-107 | after positions 0..k-1 are handed out, the driver placed p-th gained exactly its points and no other driver gained any |
| `Championship.RaceScoring` | src/pages/Predictions.tsx:102-107 | in one race the driver ranked p-th gains `PointsFor(p)`, so every driver gains between 0 and 25 |
| `Championship.RacePointsHandedOut` | src/pages/Predictions.tsx:102-107 | one race adds the prize pool of its grid to the sum of all totals, exactly 101 points once ten or more drivers race |
| `Championship.AwardRace` | src/pages/Predictions.tsx:102-107 | the `forEach` over the finishing order updates the working-total array in place, to the totals after that race |
| `Championship.SimulateTrial` | src/pages/Predictions.tsx:89-108 | starting from a fresh clone of every driver's points, the race loop ends with the totals of the whole simulated season |
| `Championship.SeasonBounds` | src/pages/Predictions.tsx:91-108 | a working total never falls below the driver's points and grows by at most 25 per remaining race |
| `Championship.LeaderOfFirst` | src/pages/Predictions.tsx:111-113 | the strict-`>` `reduce` returns an index holding the maximum, with every earlier index strictly below it |
| `Championship.Leader` | src/pages/Predictions.tsx:111-113 | the trial winner has the most points, and is the first such driver on a tie |
| `Championship.PlayTrial` | src/pages/Predictions.tsx:89-113 | one trial's races are played and its winner found, equal to `TrialWinner` |
| `Championship.WinTallyStep` | src/pages/Predictions.tsx:114 | crediting one more trial increments exactly the winner's counter |
| `Championship.TallyTrials` | src/pages/Predictions.tsx:83-115 | the `wins` record built by the trial loop is the specified tally of all trials |
| `Championship.WinsConserved` | src/pages/Predictions.tsx:83-86 | with distinct driverIds, the counters add up to the number of trials |
| `Championship.Standing` | src/pages/Predictions.tsx:117-121 | the result is a permutation of the per-driver chances, sorted by non-increasing win probability |
| `Championship.ProbabilitiesSumTo100` | src/pages/Predictions.tsx:117-121 | with distinct driverIds, the returned win probabilities add up to 100 |
| `Championship.NeverWinnerTallyZero` | src/pages/Predictions.tsx:114 | with distinct driverIds, a driver that wins no trial keeps a zero counter |
| `Championship.AlwaysWinnerTallyAll` | src/pages/Predictions.tsx:114 | a driver that wins every trial has a counter equal to the number of trials |
| `Championship.CertainWinnerFirst` | src/pages/Predictions.tsx:117-121 | a driver credited with every trial heads the sorted standing with 100, and everyone behind has 0 |
| `Championship.NoRacesLeft` | src/pages/Predictions.tsx:79-121 | with distinct driverIds and no race left, the current leader (first on a tie) heads the result with probability 100 and every other driver has 0 |
| `Championship.EliminatedNeverWins` | src/pages/Predictions.tsx:88-114 | a driver who cannot reach another's points even by winning every remaining race never wins a trial; with distinct driverIds its counter stays 0 |
| `Championship.SimulateChampionship` | src/pages/Predictions.tsx:79-122 | no drivers gives the `reduce` error; otherwise the result is the sorted standing of the specified tally of all 10 000 trials |
| `Championship.ChampionshipPredictions` | src/pages/Predictions.tsx:251-252 | unloaded standings give an empty list; loaded standings simulate the top ten drivers over the remaining-race count, giving at most ten entries |
| `ConstructorPrediction.LeaderProbability` | src/pages/Predictions.tsx:170-171 | the team in position 1 gets at most 90, at least 60 when ahead of the runner-up, and 90 exactly when 300 or more points ahead |
| `ConstructorPrediction.ChaseProbability` | src/pages/Predictions.tsx:172-175 | a chasing team's value lies in [0, 85]: 85 when level or ahead, 0 when 25 points per remaining race cannot close the gap, positive when they can; zero over zero is the NaN error |
| `ConstructorPrediction.ChaseProbabilityNonIncreasing` | src/pages/Predictions.tsx:173-175 | a larger gap to the first entry never gives a larger probability |
| `ConstructorPrediction.TeamProbability` | src/pages/Predictions.tsx:163-176 | a team's value fails on a missing runner-up or on zero over zero, and otherwise respects the leader and chaser bounds |
| `ConstructorPrediction.Entries` | src/pages/Predictions.tsx:163-183 | each team keeps its record and gets its probability and `points + 44 * remainingRaces` |
| `ConstructorPrediction.PredictConstructorChampionship` | src/pages/Predictions.tsx:162-185 | fails with the missing-runner-up error iff a lone team is in position 1, and fails iff some value is undefined; otherwise gives a permutation of the entries sorted by probability |
| `ConstructorPrediction.PredictionDefinedWithRacesLeft` | src/pages/Predictions.tsx:162-185 | with a race left, only a lone team in position 1 makes the prediction fail |
| `ConstructorPrediction.OrderedStandingsProbabilities` | src/pages/Predictions.tsx:162-185 | for standings in championship order with a race left, every probability is in [0, 90], the leader's is at least 60, and the others' at most 85 |
| `RaceOutcomes.RawChance` | src/pages/Predictions.tsx:195-199 | the raw odds are at least 1 and at least base plus variance, and below base + 5 for a variance in [-5, 5) |
| `RaceOutcomes.RawChances` | src/pages/Predictions.tsx:194-201 | the first k drivers, in order, each with its raw odds, which together add up to at least k |
| `RaceOutcomes.Normalise` | src/pages/Predictions.tsx:205-208 | each entry keeps its driver and becomes its odds divided by the total, times 100 |
| `RaceOutcomes.RawTotal` | src/pages/Predictions.tsx:204 | the sum of the raw odds of the listed drivers is at least one per driver |
| `RaceOutcomes.NormaliseScales` | src/pages/Predictions.tsx:205-208 | normalising scales the sum of the odds by 100 / total |
| `RaceOutcomes.NormalisedSumsToHundred` | src/pages/Predictions.tsx:204-208 | odds normalised by their own sum add up to 100 |
| `RaceOutcomes.NormalisedAtMostHundred` | src/pages/Predictions.tsx:204-208 | each normalised entry is in (0, 100] |
| `RaceOutcomes.RaceOutcomeFor` | src/pages/Predictions.tsx:192-213 | one race's prediction lists the first five drivers in order; each probability is its raw odds' share of the raw total in percent, lies in (0, 100], and they sum to 100 when there is a driver |
| `RaceOutcomes.PredictRaceOutcomes` | src/pages/Predictions.tsx:188-215 | one outcome for each of the first five future races in schedule order; each lists the first min(5, drivers) drivers in order, each with its raw odds' share of that race's raw total, in (0, 100], adding up to 100 |
| `Podium.Momentum` | src/pages/Predictions.tsx:136 | between 0 and 10, exactly 10 in the top three and exactly 0 beyond fifth |
| `Podium.FormScore` | src/pages/Predictions.tsx:133-136 | the form score is non-negative for non-negative points and wins, and at least 46 in the top three |
| `Podium.Confidence` | src/pages/Predictions.tsx:144 | confidence never exceeds 95, and is at least 55 for non-negative points and wins |
| `Podium.Scored` | src/pages/Predictions.tsx:132-145 | one entry per input driver, in input order, with its form score times its track factor and its confidence |
| `Podium.TrackFactorBand` | src/pages/Predictions.tsx:139-143 | for a draw in [0.85, 1.15) a non-negative form score moves by at most 15 percent either way |
| `Podium.PodiumProbability` | src/pages/Predictions.tsx:153-156 | from fourth place on the probability is at least 5; with a unit draw it is at most 75, and above 45 in the top three |
| `Podium.Number` | src/pages/Predictions.tsx:150-157 | the k-th kept entry keeps its driver, score and confidence, and gets position k + 1 and the podium probability of index k |
| `Podium.Ranked` | src/pages/Predictions.tsx:132-146 | the scored drivers are sorted by non-increasing score as a permutation, each an input driver with its own confidence |
| `Podium.PredictNextRacePodium` | src/pages/Predictions.tsx:125-159 | no future race gives no predictions; otherwise the first min(10, drivers) entries of the ranked list with their own driver, score and confidence, numbered 1, 2, … by non-increasing score, each with `PodiumProbability` of its index and its own draw, at least 5 from fourth on; confidence at most 95 |
| `Podium.PodiumPlacesOdds` | src/pages/Predictions.tsx:153-156 | for draws in [0, 1), each of the first three predictions has podium odds above 45, and no prediction exceeds 75 |
| `Podium.TopRankedAreScored` | src/pages/Predictions.tsx:146-150 | the first m ranked entries, which the forecast copies, hold each scored entry at most as often as the scoring produced it, so no driver is repeated when the input lists each driver once |
| `Podium.PodiumKeepsBestScores` | src/pages/Predictions.tsx:146-150 | a driver left out of the forecast scores no more than the last driver kept |
| `Sorting.Insert` | src/pages/Predictions.tsx:146 | inserting into a sorted sequence keeps it sorted, adds exactly the element, and adds its key to the sum |
| `Sorting.SortDesc` | src/pages/Predictions.tsx:121 | the comparator sort yields a permutation in non-increasing key order with the same key sum |
| `Sorting.BeyondPrefixIsNoGreater` | src/pages/Predictions.tsx:150 | in a sorted sequence, an element outside the first m entries has a key no larger than the m-th |
| `Sorting.UniqueMaximumFirst` | src/pages/Predictions.tsx:121 | a sorted permutation starts with the unique strict maximum and holds it nowhere else |
| `Images.LookupOr` | src/lib/images.ts:148 | `table[key] \|\| fallback` is the fallback, or a non-empty value stored under the key, and is the stored value whenever that is non-empty |
| `Images.GetTeamLogo` | src/lib/images.ts:141-149 | always a non-empty URL: the entry under the lower-cased id when that is non-empty, and the fallback logo whenever the lower-cased id is not a key or its entry is empty |
| `Images.GetDriverPhoto` | src/lib/images.ts:155-163 | always a non-empty URL: the entry under the lower-cased id when that is non-empty, and the fallback image whenever the lower-cased id is not a key or its entry is empty |
| `Images.GetDriverHeadshot` | src/lib/images.ts:169-174 | a non-empty URL: the headshot entry under the lower-cased id when that is non-empty, and the photo lookup for the same id when there is no headshot or it is empty |
| `Images.GetCountryFlag` | src/lib/images.ts:271-273 | a non-empty flag: the table's entry for a nationality that is a key with a non-empty value, and the chequered flag for any nationality not in the table or with an empty entry |
| `Images.Lower` | src/lib/images.ts:142 | ASCII `toLowerCase` keeps the length; `LowerIdempotent` and `LowerKeepsLowercase` state its effect |
| `Images.LowerIdempotent` | src/lib/images.ts:142 | lowercasing twice is lowercasing once |
| `Images.TeamLogoIgnoresCase` | src/lib/images.ts:141-149 | a constructor id and its lower-case form get the same logo |
| `Images.DriverPhotoIgnoresCase` | src/lib/images.ts:155-163 | a driver id and its lower-case form get the same photo |
| `Images.DriverHeadshotIgnoresCase` | src/lib/images.ts:169-174 | a driver id and its lower-case form get the same headshot |
| `Images.ShippedKeysAreLowercase` | src/lib/images.ts:11-131 | every key of the shipped logo, photo and headshot tables is lower case |
| `Images.EveryEntryReachable` | src/lib/images.ts:141-174 | with lower-case keys and non-empty URLs, an id whose lower-cased form is a key gets that key's entry, so every entry is reachable |
| `Images.HeadshotFallbackChain` | src/lib/images.ts:169-174 | the headshot lookup falls through headshot, then photo, then the default image |
| `Images.FlagKeysAreCapitalised` | src/lib/images.ts:208-266 | every nationality key of the shipped flag table starts with a capital letter |
| `Images.CountryFlagIsCaseSensitive` | src/lib/images.ts:271-273 | a nationality starting with a lower-case letter gets the chequered flag, while "British" gets its own flag |

## Left out

- The random draws (`Math.random`) are inputs. These are the per-race finishing orders of
  the championship simulation, the variances of the race odds, and the track factors and
  noise of the podium forecast. The performance weighting `Math.pow(..., 0.8)` that orders
  a simulated race is not modelled. Any permutation is allowed as that race's order.
- Floating-point arithmetic is exact here, so rounding and overflow of doubles are not
  modelled. Division by zero is written out as its IEEE outcome: +Infinity gives 0,
  -Infinity gives 85, and NaN is an error (see below).
- `expectedPoints` (line 120) and `expectedFinalPoints` (line 181) are display-only
  fields computed beside the probabilities. They are not modelled.
- The page's rendering (JSX, charts, colours, skeletons) is not modelled. Neither are
  the `fetch` and `useQuery` loading of standings and schedule, or the image preloading
  helpers (`preloadImage`, `preloadTeamLogos`, `preloadDriverPhotos`), which do I/O.
- `new Date()` is read separately by each prediction. The model passes one `now` to all
  of them.
- Date parsing is not modelled. A `Session5Date` is a timestamp, or `None` when it does
  not parse, and `None` is never after `now`.
- `toLowerCase` is modelled on ASCII letters only. Other Unicode case mappings are not
  modelled.
- A lookup on a plain JavaScript object also finds inherited properties such as
  `"constructor"`. The tables are modelled as maps without them.
- The URLs and flag emoji in the tables are not modelled. Each table is a map whose key
  set is the shipped one and whose values are non-empty. The two fallback URLs and the
  chequered flag are constants.
- Points, wins and positions are integers. Fractional (half) points are not modelled.
- `Sorting.SortDesc`: the contract states sortedness, permutation and key sum, but not
  that the JavaScript sort is stable, even though the definition keeps equal keys in
  input order.
- `ConstructorPrediction.PredictConstructorChampionship`: a chasing team level on points
  with the first entry, when no race is left, gets NaN in the source and takes an
  implementation-defined place in the sort. The model returns the `NotANumber` error
  instead of a list.
- `Championship.SimulateChampionship`: an empty driver list makes the source's winner
  `reduce` throw, so the model returns `NoDrivers` rather than the empty list a reader
  might expect. `Championship.ChampionshipPredictions` passes loaded but empty standings
  on to it in the same way.
- `Championship.ProbabilitiesSumTo100`, `Championship.WinsConserved`,
  `Championship.NoRacesLeft`, `Championship.NeverWinnerTallyZero` and the counter clause of
  `Championship.EliminatedNeverWins` assume distinct driverIds. With a repeated id, two
  drivers share one counter, so the sum exceeds 100 and a driver that never wins can still
  show the wins of its namesake.
- The points scale is the ten-place scale in the source. Sprint points and the
  fastest-lap bonus are not part of the simulation.
