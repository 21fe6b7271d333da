/**
 * Per-race winner odds for the season outlook (`predictRaceOutcomes`): for each of
 * the next five future races, the first five drivers get a base probability plus a
 * random variance, floored at 1, then normalised to 100 percent.
 *
 * The variance `Math.random() * 10 - 5` is supplied by the caller, one value per
 * race and driver.
 */
module RaceOutcomes {
  import opened PredictionInputs
  import opened Sorting

  const BaseWinProbabilities: seq<real> := [35.0, 28.0, 22.0, 10.0, 5.0]
  const MaxRaces: nat := 5
  const MaxDrivers: nat := 5

  datatype RaceWinChance = RaceWinChance(driver: Driver, winProbability: real)

  datatype RaceOutcome = RaceOutcome(race: RaceEvent, predictions: seq<RaceWinChance>)

  /** The range of `Math.random() * 10 - 5`. */
  predicate IsVariance(v: real) { -5.0 <= v < 5.0 }

  /** `Math.max(1, baseProb + variance)` for the driver at index `idx`. */
  function RawChance(idx: nat, variance: real): (p: real)
    requires idx < |BaseWinProbabilities|
    ensures p >= 1.0
    ensures p >= BaseWinProbabilities[idx] + variance
    ensures IsVariance(variance) ==> p < BaseWinProbabilities[idx] + 5.0
  {
    var v := BaseWinProbabilities[idx] + variance;
    if v >= 1.0 then v else 1.0
  }

  function ChanceKey(c: RaceWinChance): real
  {
    c.winProbability
  }

  /** The first `k` of the top drivers, each with the raw value `Math.max(1, ...)`. */
  function RawChances(drivers: seq<Driver>, variances: seq<real>, k: nat): (r: seq<RaceWinChance>)
    requires k <= |drivers| && k <= |variances| && k <= MaxDrivers
    ensures |r| == k
    ensures forall i :: 0 <= i < k ==> r[i] == RaceWinChance(drivers[i], RawChance(i, variances[i]))
    ensures SumBy(r, ChanceKey) >= k as real
  {
    if k == 0 then []
    else
      var prefix := RawChances(drivers, variances, k - 1);
      var r := prefix + [RaceWinChance(drivers[k - 1], RawChance(k - 1, variances[k - 1]))];
      SumBySnoc(prefix, r[k - 1]);
      assert r == prefix + [r[k - 1]];
      r
  }

  lemma {:induction false} SumBySnoc(s: seq<RaceWinChance>, x: RaceWinChance)
    ensures SumBy(s + [x], ChanceKey) == SumBy(s, ChanceKey) + x.winProbability
  {
    if s != [] {
      SumBySnoc(s[1..], x);
      assert (s + [x])[1..] == s[1..] + [x];
    }
  }

  /** `(d.winProbability / total) * 100` for every entry. */
  function Normalise(chances: seq<RaceWinChance>, total: real): (r: seq<RaceWinChance>)
    requires total > 0.0
    ensures |r| == |chances|
    ensures forall i :: 0 <= i < |r| ==>
              r[i] == RaceWinChance(chances[i].driver, (chances[i].winProbability / total) * 100.0)
  {
    if chances == [] then []
    else [RaceWinChance(chances[0].driver, (chances[0].winProbability / total) * 100.0)] + Normalise(chances[1..], total)
  }

  lemma {:induction false} NormaliseScales(chances: seq<RaceWinChance>, total: real)
    requires total > 0.0
    ensures SumBy(Normalise(chances, total), ChanceKey) == (SumBy(chances, ChanceKey) / total) * 100.0
  {
    if chances != [] {
      NormaliseScales(chances[1..], total);
      assert Normalise(chances, total)[1..] == Normalise(chances[1..], total);
      var a, b := chances[0].winProbability, SumBy(chances[1..], ChanceKey);
      assert (a / total) * 100.0 + (b / total) * 100.0 == ((a + b) / total) * 100.0;
    }
  }

  /** `total`: the sum of the raw odds of the listed drivers, at least one per driver. */
  function RawTotal(drivers: seq<Driver>, variances: seq<real>): (t: real)
    requires |variances| == MinNat(MaxDrivers, |drivers|)
    ensures t >= |variances| as real
  {
    SumBy(RawChances(drivers, variances, |variances|), ChanceKey)
  }

  /** The prediction for one race: the first five drivers (fewer if there are fewer), whose
      probabilities are each in (0, 100], each its raw odds' share of the raw total in
      percent, and add up to 100 whenever there is a driver. */
  function RaceOutcomeFor(race: RaceEvent, drivers: seq<Driver>, variances: seq<real>): (o: RaceOutcome)
    requires |variances| == MinNat(MaxDrivers, |drivers|)
    ensures o.race == race
    ensures |o.predictions| == |variances|
    ensures forall i :: 0 <= i < |o.predictions| ==> o.predictions[i].driver == drivers[i]
    ensures forall i :: 0 <= i < |o.predictions| ==> 0.0 < o.predictions[i].winProbability <= 100.0
    ensures forall i :: 0 <= i < |o.predictions| ==>
              o.predictions[i].winProbability == (RawChance(i, variances[i]) / RawTotal(drivers, variances)) * 100.0
    ensures |drivers| > 0 ==> SumBy(o.predictions, ChanceKey) == 100.0
  {
    var raw := RawChances(drivers, variances, |variances|);
    if raw == [] then RaceOutcome(race, [])
    else
      var total := RawTotal(drivers, variances);
      NormalisedSumsToHundred(raw, total);
      NormalisedAtMostHundred(raw, total);
      RaceOutcome(race, Normalise(raw, total))
  }

  /** Normalising by the sum gives entries adding up to 100. */
  lemma {:induction false} NormalisedSumsToHundred(raw: seq<RaceWinChance>, total: real)
    requires total > 0.0 && total == SumBy(raw, ChanceKey)
    ensures SumBy(Normalise(raw, total), ChanceKey) == 100.0
  {
    NormaliseScales(raw, total);
    assert total / total == 1.0;
  }

  /** An entry never exceeds the total it is normalised by, when every entry is positive. */
  lemma {:induction false} NormalisedAtMostHundred(raw: seq<RaceWinChance>, total: real)
    requires total > 0.0 && total == SumBy(raw, ChanceKey)
    requires forall i :: 0 <= i < |raw| ==> raw[i].winProbability >= 1.0
    ensures forall i :: 0 <= i < |raw| ==> 0.0 < (raw[i].winProbability / total) * 100.0 <= 100.0
  {
    forall i | 0 <= i < |raw|
      ensures 0.0 < (raw[i].winProbability / total) * 100.0 <= 100.0
    {
      EntryAtMostSum(raw, i);
      ShareOfWhole(raw[i].winProbability, total);
    }
  }

  /** A positive part of a whole, as a percentage of it, is in (0, 100]. */
  lemma ShareOfWhole(part: real, whole: real)
    requires 0.0 < part <= whole
    ensures 0.0 < (part / whole) * 100.0 <= 100.0
  {
    assert whole / whole - part / whole == (whole - part) / whole;
    assert whole / whole == 1.0;
  }

  lemma {:induction false} EntryAtMostSum(s: seq<RaceWinChance>, i: nat)
    requires i < |s|
    requires forall k :: 0 <= k < |s| ==> s[k].winProbability >= 1.0
    ensures s[i].winProbability <= SumBy(s, ChanceKey)
  {
    if i > 0 {
      EntryAtMostSum(s[1..], i - 1);
    } else if |s| > 1 {
      NonNegativeSum(s[1..]);
    }
  }

  lemma {:induction false} NonNegativeSum(s: seq<RaceWinChance>)
    requires forall k :: 0 <= k < |s| ==> s[k].winProbability >= 1.0
    ensures SumBy(s, ChanceKey) >= 0.0
  {
    if s != [] {
      NonNegativeSum(s[1..]);
    }
  }

  /** `predictRaceOutcomes(drivers, schedule)` at time `now`: one outcome for each of the
      first five future races, in schedule order; `variances[k]` are race k's draws. */
  function PredictRaceOutcomes(drivers: seq<Driver>, schedule: seq<RaceEvent>, now: int, variances: seq<seq<real>>)
    : (r: seq<RaceOutcome>)
    requires |variances| == MinNat(MaxRaces, |FutureRaces(schedule, now)|)
    requires forall k :: 0 <= k < |variances| ==> |variances[k]| == MinNat(MaxDrivers, |drivers|)
    ensures |r| == MinNat(MaxRaces, |FutureRaces(schedule, now)|)
    ensures forall k :: 0 <= k < |r| ==> r[k].race == FutureRaces(schedule, now)[k]
    ensures forall k :: 0 <= k < |r| ==> |r[k].predictions| == MinNat(MaxDrivers, |drivers|)
    ensures forall k :: 0 <= k < |r| ==> |r[k].predictions| <= MaxDrivers && |r[k].predictions| <= |drivers|
    ensures forall k, i :: 0 <= k < |r| && 0 <= i < |r[k].predictions| ==>
              r[k].predictions[i].driver == drivers[i] && 0.0 < r[k].predictions[i].winProbability <= 100.0
    ensures forall k, i :: 0 <= k < |r| && 0 <= i < |r[k].predictions| ==>
              r[k].predictions[i].winProbability ==
                (RawChance(i, variances[k][i]) / RawTotal(drivers, variances[k])) * 100.0
    ensures forall k :: 0 <= k < |r| && |drivers| > 0 ==> SumBy(r[k].predictions, ChanceKey) == 100.0
  {
    var future := FutureRaces(schedule, now);
    var r := seq(|variances|, k requires 0 <= k < |variances| => RaceOutcomeFor(future[k], drivers, variances[k]));
    assert forall k :: 0 <= k < |r| ==> r[k] == RaceOutcomeFor(future[k], drivers, variances[k]);
    r
  }
}
