/**
 * The drivers' championship Monte Carlo estimator (`simulateChampionship`).
 *
 * Each of `Simulations` trials clones every driver's points into a working
 * total, plays the remaining races and credits one winner. The random
 * performance draw that orders the drivers in each simulated race is not
 * modelled: the caller supplies, per trial and per race, the finishing order
 * the sort would have produced, as a permutation of driver indices.
 */
module Championship {
  import opened Wrappers
  import opened PredictionInputs
  import opened Sorting

  const Simulations: nat := 10000
  const PointsDistribution: seq<nat> := [25, 18, 15, 12, 10, 8, 6, 4, 2, 1]

  /** Points earned for finishing at 0-based `position`. */
  function PointsFor(position: nat): (p: nat)
    ensures p <= 25
    ensures position >= |PointsDistribution| ==> p == 0
  {
    if position < |PointsDistribution| then PointsDistribution[position] else 0
  }

  /** A simulated race result: the indices of the `n` drivers in finishing order. */
  predicate IsRanking(order: seq<nat>, n: nat)
  {
    && |order| == n
    && (forall p :: 0 <= p < n ==> order[p] < n)
    && (forall p, q :: 0 <= p < q < n ==> order[p] != order[q])
  }

  predicate AreRankings(races: seq<seq<nat>>, n: nat)
  {
    forall k :: 0 <= k < |races| ==> IsRanking(races[k], n)
  }

  predicate AllTrialsRanked(trials: seq<seq<seq<nat>>>, n: nat)
  {
    forall s :: 0 <= s < |trials| ==> AreRankings(trials[s], n)
  }

  /** The working totals after the `forEach` has handed out finishing positions 0 .. k-1. */
  function Award(pts: seq<int>, order: seq<nat>, k: nat): (r: seq<int>)
    requires IsRanking(order, |pts|) && k <= |order|
    ensures |r| == |pts|
  {
    if k == 0 then pts
    else
      var prev := Award(pts, order, k - 1);
      if k - 1 < |PointsDistribution| then
        prev[order[k - 1] := prev[order[k - 1]] + PointsDistribution[k - 1]]
      else
        prev
  }

  /** The working totals after one simulated race finishing in `order`. */
  function RaceResult(pts: seq<int>, order: seq<nat>): (r: seq<int>)
    requires IsRanking(order, |pts|)
    ensures |r| == |pts|
  {
    Award(pts, order, |order|)
  }

  /** The working totals after the simulated races `races`, played in order. */
  function Season(pts: seq<int>, races: seq<seq<nat>>): (r: seq<int>)
    requires AreRankings(races, |pts|)
    ensures |r| == |pts|
    decreases |races|
  {
    if races == [] then pts
    else RaceResult(Season(pts, races[..|races| - 1]), races[|races| - 1])
  }

  /** `drivers.map(d => ({ ...d, simPoints: d.points }))`, the fresh clone of every trial. */
  function StartingPoints(drivers: seq<Driver>): (r: seq<int>)
    ensures |r| == |drivers|
    ensures forall i :: 0 <= i < |drivers| ==> r[i] == drivers[i].points
  {
    seq(|drivers|, i requires 0 <= i < |drivers| => drivers[i].points)
  }

  /** The `reduce((prev, current) => current.simPoints > prev.simPoints ? current : prev)`
      over the first `k` totals. */
  function LeaderOfFirst(pts: seq<int>, k: nat): (w: nat)
    requires 0 < k <= |pts|
    ensures w < k
    ensures forall j :: 0 <= j < k ==> pts[j] <= pts[w]
    ensures forall j :: 0 <= j < w ==> pts[j] < pts[w]
  {
    if k == 1 then 0
    else
      var prev := LeaderOfFirst(pts, k - 1);
      if pts[k - 1] > pts[prev] then k - 1 else prev
  }

  /** The trial winner: a driver with the most points, and the earliest such driver on a tie. */
  function Leader(pts: seq<int>): (w: nat)
    requires |pts| > 0
    ensures w < |pts|
    ensures forall j :: 0 <= j < |pts| ==> pts[j] <= pts[w]
    ensures forall j :: 0 <= j < w ==> pts[j] < pts[w]
  {
    LeaderOfFirst(pts, |pts|)
  }

  /** The index of the driver credited with the trial whose races finished as `races`. */
  function TrialWinner(drivers: seq<Driver>, races: seq<seq<nat>>): (w: nat)
    requires |drivers| > 0 && AreRankings(races, |drivers|)
    ensures w < |drivers|
    ensures var totals := Season(StartingPoints(drivers), races);
            && (forall j :: 0 <= j < |drivers| ==> totals[j] <= totals[w])
            && (forall j :: 0 <= j < w ==> totals[j] < totals[w])
  {
    Leader(Season(StartingPoints(drivers), races))
  }

  function DriverIds(drivers: seq<Driver>): set<string>
  {
    set i | 0 <= i < |drivers| :: drivers[i].driverId
  }

  predicate DistinctIds(drivers: seq<Driver>)
  {
    forall i, j :: 0 <= i < j < |drivers| ==> drivers[i].driverId != drivers[j].driverId
  }

  /** The `wins` record built by the first `reduce`: a zero counter per driverId. */
  function InitialWins(drivers: seq<Driver>): (w: map<string, nat>)
    ensures w.Keys == DriverIds(drivers)
    ensures forall id :: id in w ==> w[id] == 0
  {
    map id | id in DriverIds(drivers) :: 0
  }

  /** The `wins` record after the trials `trials`, each credited to its winner's driverId. */
  function WinTally(drivers: seq<Driver>, trials: seq<seq<seq<nat>>>): (w: map<string, nat>)
    requires |drivers| > 0 && AllTrialsRanked(trials, |drivers|)
    ensures w.Keys == DriverIds(drivers)
    decreases |trials|
  {
    if trials == [] then InitialWins(drivers)
    else
      var prev := WinTally(drivers, trials[..|trials| - 1]);
      var w := TrialWinner(drivers, trials[|trials| - 1]);
      var id := drivers[w].driverId;
      assert id in DriverIds(drivers);
      prev[id := prev[id] + 1]
  }

  /** Crediting trial `sim` extends the tally of the trials before it. */
  lemma {:induction false} WinTallyStep(drivers: seq<Driver>, trials: seq<seq<seq<nat>>>, sim: nat)
    requires |drivers| > 0 && AllTrialsRanked(trials, |drivers|) && sim < |trials|
    ensures var prev := WinTally(drivers, trials[..sim]);
            var id := drivers[TrialWinner(drivers, trials[sim])].driverId;
            id in prev && WinTally(drivers, trials[..sim + 1]) == prev[id := prev[id] + 1]
  {
    assert trials[..sim + 1][..sim] == trials[..sim];
  }

  lemma {:induction false} PrefixRanked(trials: seq<seq<seq<nat>>>, n: nat, k: nat)
    requires AllTrialsRanked(trials, n) && k <= |trials|
    ensures AllTrialsRanked(trials[..k], n)
  {
  }

  datatype DriverChance = DriverChance(driver: Driver, winProbability: real)

  datatype SimulationError =
    /** `reduce` of an empty array with no initial value throws a TypeError. */
    NoDrivers

  function ChanceKey(c: DriverChance): real
  {
    c.winProbability
  }

  /** `(wins[driver.driverId] / SIMULATIONS) * 100`, in exact arithmetic. */
  function WinProbability(winCount: nat): (p: real)
    ensures 0.0 <= p
    ensures winCount <= Simulations ==> p <= 100.0
  {
    (winCount as real / Simulations as real) * 100.0
  }

  lemma {:induction false} WinProbabilityExtremes()
    ensures WinProbability(0) == 0.0 && WinProbability(Simulations) == 100.0
  {
  }

  predicate Tallied(drivers: seq<Driver>, wins: map<string, nat>)
  {
    forall i :: 0 <= i < |drivers| ==> drivers[i].driverId in wins
  }

  /** The `drivers.map(...)` that attaches each driver's win probability, in input order. */
  function Chances(drivers: seq<Driver>, wins: map<string, nat>): (r: seq<DriverChance>)
    requires Tallied(drivers, wins)
    ensures |r| == |drivers|
    ensures forall i :: 0 <= i < |drivers| ==>
              r[i] == DriverChance(drivers[i], WinProbability(wins[drivers[i].driverId]))
  {
    if drivers == [] then []
    else [DriverChance(drivers[0], WinProbability(wins[drivers[0].driverId]))] + Chances(drivers[1..], wins)
  }

  /** The returned standing: the drivers with their win probabilities, by non-increasing probability. */
  function Standing(drivers: seq<Driver>, wins: map<string, nat>): (r: seq<DriverChance>)
    requires Tallied(drivers, wins)
    ensures |r| == |drivers|
    ensures multiset(r) == multiset(Chances(drivers, wins))
    ensures SortedDesc(r, ChanceKey)
  {
    SortDesc(Chances(drivers, wins), ChanceKey)
  }

  // ---------------------------------------------------------------------------
  // Per-race scoring

  /** After awarding positions 0 .. k-1, the driver at position p has gained exactly
      `PointsFor(p)` and a driver not yet placed has gained nothing. */
  lemma {:induction false} AwardFacts(pts: seq<int>, order: seq<nat>, k: nat)
    requires IsRanking(order, |pts|) && k <= |order|
    ensures forall p :: 0 <= p < k ==> Award(pts, order, k)[order[p]] == pts[order[p]] + PointsFor(p)
    ensures forall i :: 0 <= i < |pts| && (forall p :: 0 <= p < k ==> order[p] != i) ==>
              Award(pts, order, k)[i] == pts[i]
  {
    if k > 0 {
      AwardFacts(pts, order, k - 1);
      var prev := Award(pts, order, k - 1);
      var next := Award(pts, order, k);
      var o := order[k - 1];
      AwardStep(pts, order, k);
      assert prev[o] == pts[o];
      forall p | 0 <= p < k - 1
        ensures next[order[p]] == pts[order[p]] + PointsFor(p)
      {
        assert order[p] != o;
      }
    }
  }

  /** Handing out position k-1 adds `PointsFor(k - 1)` to that driver's total. */
  lemma {:induction false} AwardStep(pts: seq<int>, order: seq<nat>, k: nat)
    requires IsRanking(order, |pts|) && 0 < k <= |order|
    ensures var prev := Award(pts, order, k - 1);
            Award(pts, order, k) == prev[order[k - 1] := prev[order[k - 1]] + PointsFor(k - 1)]
  {
  }

  /** In one simulated race the driver ranked p-th gains `PointsFor(p)`; so every driver
      gains between 0 and 25 points. */
  lemma {:induction false} RaceScoring(pts: seq<int>, order: seq<nat>)
    requires IsRanking(order, |pts|)
    ensures forall p :: 0 <= p < |order| ==> RaceResult(pts, order)[order[p]] == pts[order[p]] + PointsFor(p)
    ensures forall i :: 0 <= i < |pts| ==> pts[i] <= RaceResult(pts, order)[i] <= pts[i] + 25
  {
    AwardFacts(pts, order, |order|);
    forall i | 0 <= i < |pts|
      ensures pts[i] <= RaceResult(pts, order)[i] <= pts[i] + 25
    {
      if i in order {
        var p :| 0 <= p < |order| && order[p] == i;
      }
    }
  }

  function Total(s: seq<int>): int
  {
    if s == [] then 0 else s[0] + Total(s[1..])
  }

  lemma {:induction false} TotalAfterGain(s: seq<int>, i: nat, d: int)
    requires i < |s|
    ensures Total(s[i := s[i] + d]) == Total(s) + d
  {
    if i > 0 {
      TotalAfterGain(s[1..], i - 1, d);
      assert s[i := s[i] + d][1..] == s[1..][i - 1 := s[i] + d];
    }
  }

  /** Points handed out to finishing positions 0 .. k-1. */
  function PrizePool(k: nat): nat
  {
    if k == 0 then 0 else PrizePool(k - 1) + PointsFor(k - 1)
  }

  lemma {:induction false} AwardTotal(pts: seq<int>, order: seq<nat>, k: nat)
    requires IsRanking(order, |pts|) && k <= |order|
    ensures Total(Award(pts, order, k)) == Total(pts) + PrizePool(k)
  {
    if k > 0 {
      AwardTotal(pts, order, k - 1);
      if k - 1 < |PointsDistribution| {
        TotalAfterGain(Award(pts, order, k - 1), order[k - 1], PointsDistribution[k - 1]);
      }
    }
  }

  lemma {:induction false} FullGridPrizePool(n: nat)
    requires n >= |PointsDistribution|
    ensures PrizePool(n) == 101
  {
    if n > |PointsDistribution| {
      FullGridPrizePool(n - 1);
    } else {
      assert PrizePool(10) == 101;
    }
  }

  /** A simulated race adds the prize pool of its grid to the sum of all totals:
      exactly 101 points once at least ten drivers take part. */
  lemma {:induction false} RacePointsHandedOut(pts: seq<int>, order: seq<nat>)
    requires IsRanking(order, |pts|)
    ensures Total(RaceResult(pts, order)) == Total(pts) + PrizePool(|pts|)
    ensures |pts| >= 10 ==> Total(RaceResult(pts, order)) == Total(pts) + 101
  {
    AwardTotal(pts, order, |order|);
    if |pts| >= 10 {
      FullGridPrizePool(|pts|);
    }
  }

  /** Working totals never decrease, and grow by at most 25 per simulated race. */
  lemma {:induction false} SeasonBounds(pts: seq<int>, races: seq<seq<nat>>)
    requires AreRankings(races, |pts|)
    ensures forall i :: 0 <= i < |pts| ==> pts[i] <= Season(pts, races)[i] <= pts[i] + 25 * |races|
    decreases |races|
  {
    if races != [] {
      var before := races[..|races| - 1];
      SeasonBounds(pts, before);
      RaceScoring(Season(pts, before), races[|races| - 1]);
    }
  }

  // ---------------------------------------------------------------------------
  // Conservation of wins

  /** Sum of the counters of the drivers, one term per entry of `drivers`. */
  function TallySum(drivers: seq<Driver>, wins: map<string, nat>): int
    requires Tallied(drivers, wins)
  {
    if drivers == [] then 0 else wins[drivers[0].driverId] + TallySum(drivers[1..], wins)
  }

  function Occurrences(drivers: seq<Driver>, id: string): nat
  {
    if drivers == [] then 0
    else (if drivers[0].driverId == id then 1 else 0) + Occurrences(drivers[1..], id)
  }

  lemma {:induction false} TallySumAfterWin(drivers: seq<Driver>, wins: map<string, nat>, id: string)
    requires Tallied(drivers, wins) && id in wins
    ensures TallySum(drivers, wins[id := wins[id] + 1]) == TallySum(drivers, wins) + Occurrences(drivers, id)
  {
    if drivers != [] {
      TallySumAfterWin(drivers[1..], wins, id);
    }
  }

  lemma {:induction false} TallySumOfZeros(drivers: seq<Driver>, wins: map<string, nat>)
    requires Tallied(drivers, wins)
    requires forall id :: id in wins ==> wins[id] == 0
    ensures TallySum(drivers, wins) == 0
  {
    if drivers != [] {
      TallySumOfZeros(drivers[1..], wins);
    }
  }

  lemma {:induction false} OccursOnce(drivers: seq<Driver>, k: nat)
    requires DistinctIds(drivers) && k < |drivers|
    ensures Occurrences(drivers, drivers[k].driverId) == 1
  {
    if k == 0 {
      NotOccurring(drivers[1..], drivers[0].driverId);
    } else {
      OccursOnce(drivers[1..], k - 1);
    }
  }

  lemma {:induction false} NotOccurring(drivers: seq<Driver>, id: string)
    requires forall i :: 0 <= i < |drivers| ==> drivers[i].driverId != id
    ensures Occurrences(drivers, id) == 0
  {
    if drivers != [] {
      NotOccurring(drivers[1..], id);
    }
  }

  /** Every trial increments exactly one counter: with distinct driverIds the counters
      add up to the number of trials. */
  lemma {:induction false} WinsConserved(drivers: seq<Driver>, trials: seq<seq<seq<nat>>>)
    requires |drivers| > 0 && AllTrialsRanked(trials, |drivers|) && DistinctIds(drivers)
    ensures TallySum(drivers, WinTally(drivers, trials)) == |trials|
    decreases |trials|
  {
    if trials == [] {
      TallySumOfZeros(drivers, InitialWins(drivers));
    } else {
      var before := trials[..|trials| - 1];
      WinsConserved(drivers, before);
      var w := TrialWinner(drivers, trials[|trials| - 1]);
      TallySumAfterWin(drivers, WinTally(drivers, before), drivers[w].driverId);
      OccursOnce(drivers, w);
    }
  }

  lemma {:induction false} ChancesSum(drivers: seq<Driver>, wins: map<string, nat>)
    requires Tallied(drivers, wins)
    ensures SumBy(Chances(drivers, wins), ChanceKey) == TallySum(drivers, wins) as real / 100.0
  {
    if drivers != [] {
      ChancesSum(drivers[1..], wins);
      assert Chances(drivers, wins)[1..] == Chances(drivers[1..], wins);
    }
  }

  /** The returned win probabilities add up to 100 (driverIds distinct). */
  lemma {:induction false} ProbabilitiesSumTo100(drivers: seq<Driver>, trials: seq<seq<seq<nat>>>)
    requires |drivers| > 0 && AllTrialsRanked(trials, |drivers|) && DistinctIds(drivers)
    requires |trials| == Simulations
    ensures SumBy(Standing(drivers, WinTally(drivers, trials)), ChanceKey) == 100.0
  {
    var wins := WinTally(drivers, trials);
    WinsConserved(drivers, trials);
    ChancesSum(drivers, wins);
  }

  // ---------------------------------------------------------------------------
  // No race left, and mathematical elimination

  /** A driver that is never a trial winner keeps a zero counter (driverIds distinct). */
  lemma {:induction false} NeverWinnerTallyZero(drivers: seq<Driver>, trials: seq<seq<seq<nat>>>, i: nat)
    requires |drivers| > 0 && AllTrialsRanked(trials, |drivers|) && DistinctIds(drivers)
    requires i < |drivers|
    requires forall s :: 0 <= s < |trials| ==> TrialWinner(drivers, trials[s]) != i
    ensures WinTally(drivers, trials)[drivers[i].driverId] == 0
    decreases |trials|
  {
    if trials != [] {
      NeverWinnerTallyZero(drivers, trials[..|trials| - 1], i);
    }
  }

  /** A driver that wins every trial collects every trial in its counter. */
  lemma {:induction false} AlwaysWinnerTallyAll(drivers: seq<Driver>, trials: seq<seq<seq<nat>>>, i: nat)
    requires |drivers| > 0 && AllTrialsRanked(trials, |drivers|)
    requires i < |drivers|
    requires forall s :: 0 <= s < |trials| ==> TrialWinner(drivers, trials[s]) == i
    ensures WinTally(drivers, trials)[drivers[i].driverId] == |trials|
    decreases |trials|
  {
    if trials != [] {
      AlwaysWinnerTallyAll(drivers, trials[..|trials| - 1], i);
    }
  }

  /** With no race left every trial is won by the first driver with the most current
      points, whose counter collects every trial while all other counters stay 0. */
  lemma {:induction false} NoRacesLeftTally(drivers: seq<Driver>, trials: seq<seq<seq<nat>>>)
    requires |drivers| > 0 && DistinctIds(drivers)
    requires forall s :: 0 <= s < |trials| ==> trials[s] == []
    ensures AllTrialsRanked(trials, |drivers|)
    ensures var l := Leader(StartingPoints(drivers));
            var wins := WinTally(drivers, trials);
            && wins[drivers[l].driverId] == |trials|
            && forall i :: 0 <= i < |drivers| && i != l ==> wins[drivers[i].driverId] == 0
  {
    assert AllTrialsRanked(trials, |drivers|);
    var l := Leader(StartingPoints(drivers));
    assert forall s :: 0 <= s < |trials| ==> TrialWinner(drivers, trials[s]) == l;
    AlwaysWinnerTallyAll(drivers, trials, l);
    forall i | 0 <= i < |drivers| && i != l
      ensures WinTally(drivers, trials)[drivers[i].driverId] == 0
    {
      NeverWinnerTallyZero(drivers, trials, i);
    }
  }

  /** With no race left the first driver with the most current points gets win probability
      100 and heads the standing; every other driver gets 0. */
  lemma {:induction false} NoRacesLeft(drivers: seq<Driver>, trials: seq<seq<seq<nat>>>)
    requires |drivers| > 0 && DistinctIds(drivers)
    requires |trials| == Simulations
    requires forall s :: 0 <= s < |trials| ==> trials[s] == []
    ensures AllTrialsRanked(trials, |drivers|)
    ensures var standing := Standing(drivers, WinTally(drivers, trials));
            && standing[0] == DriverChance(drivers[Leader(StartingPoints(drivers))], 100.0)
            && forall k :: 1 <= k < |standing| ==> standing[k].winProbability == 0.0
  {
    NoRacesLeftTally(drivers, trials);
    CertainWinnerFirst(drivers, WinTally(drivers, trials), Leader(StartingPoints(drivers)));
  }

  /** A driver credited with every trial, while every other counter stays 0, heads the
      standing with probability 100 ahead of drivers with probability 0. */
  lemma {:induction false} CertainWinnerFirst(drivers: seq<Driver>, wins: map<string, nat>, l: nat)
    requires Tallied(drivers, wins) && l < |drivers|
    requires wins[drivers[l].driverId] == Simulations
    requires forall i :: 0 <= i < |drivers| && i != l ==> wins[drivers[i].driverId] == 0
    ensures var standing := Standing(drivers, wins);
            && standing[0] == DriverChance(drivers[l], 100.0)
            && forall k :: 1 <= k < |standing| ==> standing[k].winProbability == 0.0
  {
    var chances := Chances(drivers, wins);
    var standing := Standing(drivers, wins);
    WinProbabilityExtremes();
    assert chances[l] == DriverChance(drivers[l], 100.0);
    assert forall i :: 0 <= i < |chances| && i != l ==> chances[i].winProbability == 0.0;
    UniqueMaximumFirst(chances, standing, ChanceKey, l);
    forall k | 1 <= k < |standing|
      ensures standing[k].winProbability == 0.0
    {
      var i :| 0 <= i < |chances| && i != l && standing[k] == chances[i];
    }
  }

  /** A driver who cannot reach another driver's current points, even by winning every
      remaining race, never wins a trial and so has win probability 0. */
  lemma {:induction false} EliminatedNeverWins(drivers: seq<Driver>, trials: seq<seq<seq<nat>>>, remainingRaces: nat, i: nat, j: nat)
    requires |drivers| > 0 && AllTrialsRanked(trials, |drivers|)
    requires forall s :: 0 <= s < |trials| ==> |trials[s]| == remainingRaces
    requires i < |drivers| && j < |drivers|
    requires drivers[i].points + 25 * remainingRaces < drivers[j].points
    ensures forall s :: 0 <= s < |trials| ==> TrialWinner(drivers, trials[s]) != i
    ensures DistinctIds(drivers) ==> WinTally(drivers, trials)[drivers[i].driverId] == 0
  {
    forall s | 0 <= s < |trials|
      ensures TrialWinner(drivers, trials[s]) != i
    {
      SeasonBounds(StartingPoints(drivers), trials[s]);
    }
    if DistinctIds(drivers) {
      NeverWinnerTallyZero(drivers, trials, i);
    }
  }

  /** The `forEach` of one simulated race: position p of `order` gains `POINTS_DISTRIBUTION[p]`. */
  method AwardRace(simPoints: array<int>, order: seq<nat>)
    requires IsRanking(order, simPoints.Length)
    modifies simPoints
    ensures simPoints[..] == RaceResult(old(simPoints[..]), order)
  {
    var position := 0;
    while position < |order|
      invariant 0 <= position <= |order|
      invariant simPoints[..] == Award(old(simPoints[..]), order, position)
    {
      if position < |PointsDistribution| {
        simPoints[order[position]] := simPoints[order[position]] + PointsDistribution[position];
      }
      position := position + 1;
    }
  }

  /** One trial: clone the points, then play every remaining race; returns the final totals. */
  method SimulateTrial(drivers: seq<Driver>, races: seq<seq<nat>>) returns (totals: seq<int>)
    requires AreRankings(races, |drivers|)
    ensures totals == Season(StartingPoints(drivers), races)
  {
    var n := |drivers|;
    var simPoints := new int[n](i requires 0 <= i < n => drivers[i].points);
    assert simPoints[..] == StartingPoints(drivers);
    var race := 0;
    while race < |races|
      invariant 0 <= race <= |races|
      invariant simPoints[..] == Season(StartingPoints(drivers), races[..race])
    {
      AwardRace(simPoints, races[race]);
      assert races[..race + 1][..race] == races[..race];
      race := race + 1;
    }
    assert races[..|races|] == races;
    totals := simPoints[..];
  }

  /** One trial and its winner: the first driver with the most points after the races. */
  method PlayTrial(drivers: seq<Driver>, races: seq<seq<nat>>) returns (winner: nat)
    requires |drivers| > 0 && AreRankings(races, |drivers|)
    ensures winner == TrialWinner(drivers, races)
  {
    var totals := SimulateTrial(drivers, races);
    winner := Leader(totals);
  }

  /** The trials of the `for (sim ...)` loop, each credited to its winner in `wins`. */
  method TallyTrials(drivers: seq<Driver>, rankings: seq<seq<seq<nat>>>) returns (wins: map<string, nat>)
    requires |drivers| > 0 && |rankings| == Simulations && AllTrialsRanked(rankings, |drivers|)
    ensures wins == WinTally(drivers, rankings)
  {
    wins := InitialWins(drivers);
    var sim := 0;
    assert rankings[..0] == [];
    while sim < Simulations
      invariant 0 <= sim <= Simulations
      invariant AllTrialsRanked(rankings[..sim], |drivers|)
      invariant wins == WinTally(drivers, rankings[..sim])
    {
      PrefixRanked(rankings, |drivers|, sim + 1);
      var winner := PlayTrial(drivers, rankings[sim]);
      var id := drivers[winner].driverId;
      WinTallyStep(drivers, rankings, sim);
      wins := wins[id := wins[id] + 1];
      sim := sim + 1;
    }
    assert rankings[..Simulations] == rankings;
  }

  /**
   * `simulateChampionship(drivers, remainingRaces)`, with `rankings[s][k]` the finishing
   * order of race `k` in trial `s`. The driver records are values and are left as they are;
   * the only state is the `wins` record and each trial's fresh array of working totals.
   * With no drivers the first trial's winner `reduce` throws.
   */
  method SimulateChampionship(drivers: seq<Driver>, remainingRaces: nat, rankings: seq<seq<seq<nat>>>)
    returns (r: Result<seq<DriverChance>, SimulationError>)
    requires |rankings| == Simulations
    requires forall s :: 0 <= s < |rankings| ==> |rankings[s]| == remainingRaces
    requires AllTrialsRanked(rankings, |drivers|)
    ensures |drivers| == 0 ==> r == Failure(NoDrivers)
    ensures |drivers| > 0 ==> r == Success(Standing(drivers, WinTally(drivers, rankings)))
  {
    if |drivers| == 0 {
      return Failure(NoDrivers);
    }
    var wins := TallyTrials(drivers, rankings);
    r := Success(Standing(drivers, wins));
  }

  /**
   * The page's use of the estimator: the remaining-race count from the schedule, and the
   * ten best-placed drivers when the standings have loaded. Standings that have not loaded
   * give no predictions; loaded but empty standings reach the estimator and fail.
   */
  method ChampionshipPredictions(drivers: Option<seq<Driver>>, schedule: Option<seq<RaceEvent>>, now: int,
                                 rankings: seq<seq<seq<nat>>>)
    returns (r: Result<seq<DriverChance>, SimulationError>)
    requires |rankings| == Simulations
    requires forall s :: 0 <= s < |rankings| ==> |rankings[s]| == RemainingRaceCount(schedule, now)
    requires drivers.Some? ==> AllTrialsRanked(rankings, MinNat(10, |drivers.value|))
    ensures drivers.None? ==> r == Success([])
    ensures drivers.Some? && |drivers.value| == 0 ==> r == Failure(NoDrivers)
    ensures drivers.Some? && |drivers.value| > 0 ==>
              var top := drivers.value[..MinNat(10, |drivers.value|)];
              && r == Success(Standing(top, WinTally(top, rankings)))
              && |r.value| == |top| <= 10
  {
    if drivers.None? {
      return Success([]);
    }
    var top := drivers.value[..MinNat(10, |drivers.value|)];
    r := SimulateChampionship(top, RemainingRaceCount(schedule, now), rankings);
  }
}
