/**
 * The next-race podium forecast (`predictNextRacePodium`): find the first future
 * race, score every driver by season form, sort by score, keep the top ten and
 * number them.
 *
 * The two random draws are supplied by the caller: `trackFactors[i]`
 * (`0.85 + Math.random() * 0.3`) for the i-th input driver, drawn before the
 * sort, and `noise[k]` (`Math.random()`) for the k-th prediction.
 */
module Podium {
  import opened Wrappers
  import opened PredictionInputs
  import opened Sorting

  const MaxPredictions: nat := 10
  const MaxConfidence: real := 95.0
  const MinLaterPodiumProbability: real := 5.0

  datatype ScoredDriver = ScoredDriver(driver: Driver, score: real, confidence: real)

  datatype PodiumPrediction = PodiumPrediction(
    driver: Driver, score: real, confidence: real, predictedPosition: nat, podiumProbability: real)

  datatype PodiumForecast = PodiumForecast(nextRace: Option<RaceEvent>, predictions: seq<PodiumPrediction>)

  predicate IsTrackFactor(f: real) { 0.85 <= f < 1.15 }

  predicate IsUnitDraw(x: real) { 0.0 <= x < 1.0 }

  /** `momentum`: 10 in the top three, 5 in fourth and fifth, nothing further back. */
  function Momentum(position: int): (m: real)
    ensures 0.0 <= m <= 10.0
    ensures m == 10.0 <==> position <= 3
    ensures m == 0.0 <==> position > 5
  {
    if position <= 3 then 10.0 else if position <= 5 then 5.0 else 0.0
  }

  /** `baseScore + winBonus + positionBonus + momentum`, before the track factor. */
  function FormScore(d: Driver): (s: real)
    ensures d.points >= 0 && d.wins >= 0 ==> s >= 0.0
    ensures d.position <= 3 && d.points >= 0 && d.wins >= 0 ==> s >= 46.0
  {
    var positionBonus := if 21 - d.position > 0 then (21 - d.position) * 2 else 0;
    d.points as real / 10.0 + (d.wins * 5) as real + positionBonus as real + Momentum(d.position)
  }

  /** `Math.min(95, 55 + driver.wins * 5 + driver.points / 20)`. */
  function Confidence(d: Driver): (c: real)
    ensures c <= MaxConfidence
    ensures d.points >= 0 && d.wins >= 0 ==> c >= 55.0
  {
    var raw := 55.0 + (d.wins * 5) as real + d.points as real / 20.0;
    if raw <= MaxConfidence then raw else MaxConfidence
  }

  /** The `drivers.map(...)` that scores each driver, in input order. */
  function Scored(drivers: seq<Driver>, trackFactors: seq<real>): (r: seq<ScoredDriver>)
    requires |trackFactors| == |drivers|
    ensures |r| == |drivers|
    ensures forall i :: 0 <= i < |r| ==>
              r[i] == ScoredDriver(drivers[i], FormScore(drivers[i]) * trackFactors[i], Confidence(drivers[i]))
  {
    seq(|drivers|, i requires 0 <= i < |drivers| =>
      ScoredDriver(drivers[i], FormScore(drivers[i]) * trackFactors[i], Confidence(drivers[i])))
  }

  /** The track factor moves a non-negative form score by at most 15 percent either way. */
  lemma {:induction false} TrackFactorBand(drivers: seq<Driver>, trackFactors: seq<real>, i: nat)
    requires |trackFactors| == |drivers| && i < |drivers|
    requires IsTrackFactor(trackFactors[i]) && drivers[i].points >= 0 && drivers[i].wins >= 0
    ensures var form := FormScore(drivers[i]);
            form * 0.85 <= Scored(drivers, trackFactors)[i].score <= form * 1.15
  {
    ScoreBand(FormScore(drivers[i]), trackFactors[i], Scored(drivers, trackFactors)[i].score);
  }

  lemma ScoreBand(form: real, f: real, score: real)
    requires form >= 0.0 && IsTrackFactor(f) && score == form * f
    ensures form * 0.85 <= score <= form * 1.15
  {
    var below, above := f - 0.85, 1.15 - f;
    assert below >= 0.0 && above > 0.0;
    assert form * below >= 0.0;
    assert form * above >= 0.0;
    assert score - form * 0.85 == form * below;
    assert form * 1.15 - score == form * above;
  }

  function ScoreKey(s: ScoredDriver): real
  {
    s.score
  }

  /** `podiumProbability` of the prediction at index `idx`, from the draw `noise`. */
  function PodiumProbability(idx: nat, noise: real): (p: real)
    ensures idx >= 3 ==> p >= MinLaterPodiumProbability
    ensures IsUnitDraw(noise) ==> p <= 75.0
    ensures IsUnitDraw(noise) && idx < 3 ==> p > 45.0
  {
    if idx == 0 then 75.0 - noise * 10.0
    else if idx == 1 then 65.0 - noise * 10.0
    else if idx == 2 then 55.0 - noise * 10.0
    else
      var v := 40.0 - (idx * 5) as real - noise * 10.0;
      if v >= MinLaterPodiumProbability then v else MinLaterPodiumProbability
  }

  /** `predictions`: the first entries of the sorted scores, numbered from 1. */
  function Number(ranked: seq<ScoredDriver>, noise: seq<real>): (r: seq<PodiumPrediction>)
    requires |noise| == |ranked|
    ensures |r| == |ranked|
    ensures forall k :: 0 <= k < |r| ==>
              r[k] == PodiumPrediction(ranked[k].driver, ranked[k].score, ranked[k].confidence,
                                       k + 1, PodiumProbability(k, noise[k]))
  {
    seq(|ranked|, k requires 0 <= k < |ranked| =>
      PodiumPrediction(ranked[k].driver, ranked[k].score, ranked[k].confidence,
                       k + 1, PodiumProbability(k, noise[k])))
  }

  /** The drivers ranked by score, as the sort leaves them. */
  function Ranked(drivers: seq<Driver>, trackFactors: seq<real>): (r: seq<ScoredDriver>)
    requires |trackFactors| == |drivers|
    ensures |r| == |drivers|
    ensures multiset(r) == multiset(Scored(drivers, trackFactors))
    ensures SortedDesc(r, ScoreKey)
    ensures forall k :: 0 <= k < |r| ==> r[k].driver in drivers && r[k].confidence == Confidence(r[k].driver)
  {
    var scored := Scored(drivers, trackFactors);
    var r := SortDesc(scored, ScoreKey);
    forall k | 0 <= k < |r|
      ensures r[k].driver in drivers && r[k].confidence == Confidence(r[k].driver)
    {
      assert r[k] in multiset(scored);
      var i :| 0 <= i < |scored| && scored[i] == r[k];
    }
    r
  }

  /** `predictNextRacePodium(drivers, schedule)` at time `now`. */
  function PredictNextRacePodium(drivers: seq<Driver>, schedule: seq<RaceEvent>, now: int,
                                 trackFactors: seq<real>, noise: seq<real>): (r: PodiumForecast)
    requires |trackFactors| == |drivers|
    requires |noise| == MinNat(MaxPredictions, |drivers|)
    ensures r.nextRace == NextRace(schedule, now)
    ensures r.nextRace.None? ==> r.predictions == []
    ensures r.nextRace.Some? ==> |r.predictions| == MinNat(MaxPredictions, |drivers|)
    ensures r.nextRace.Some? ==>
              forall k :: 0 <= k < |r.predictions| ==>
                var ranked := Ranked(drivers, trackFactors)[k];
                && r.predictions[k].driver == ranked.driver
                && r.predictions[k].score == ranked.score
                && r.predictions[k].confidence == ranked.confidence
                && r.predictions[k].podiumProbability == PodiumProbability(k, noise[k])
    ensures forall k :: 0 <= k < |r.predictions| ==>
              && r.predictions[k].predictedPosition == k + 1
              && r.predictions[k].confidence <= MaxConfidence
              && (k >= 3 ==> r.predictions[k].podiumProbability >= MinLaterPodiumProbability)
    ensures forall j, k :: 0 <= j < k < |r.predictions| ==> r.predictions[j].score >= r.predictions[k].score
    ensures forall k :: 0 <= k < |r.predictions| ==> r.predictions[k].driver in drivers
  {
    match NextRace(schedule, now)
    case None => PodiumForecast(None, [])
    case Some(race) =>
      var ranked := Ranked(drivers, trackFactors);
      var top := ranked[..|noise|];
      assert forall k :: 0 <= k < |top| ==> top[k] == ranked[k];
      PodiumForecast(Some(race), Number(top, noise))
  }

  /** For draws in [0, 1) the podium places get more than 45 percent, and no entry more than 75. */
  lemma {:induction false} PodiumPlacesOdds(drivers: seq<Driver>, schedule: seq<RaceEvent>, now: int,
                                             trackFactors: seq<real>, noise: seq<real>)
    requires |trackFactors| == |drivers|
    requires |noise| == MinNat(MaxPredictions, |drivers|)
    requires forall k :: 0 <= k < |noise| ==> IsUnitDraw(noise[k])
    ensures var preds := PredictNextRacePodium(drivers, schedule, now, trackFactors, noise).predictions;
            forall k :: 0 <= k < |preds| ==>
              && preds[k].podiumProbability <= 75.0
              && (k < 3 ==> preds[k].podiumProbability > 45.0)
  {
  }

  /** The forecast copies the first entries of the ranked list, and those hold each scored
      entry at most as often as the scoring produced it: no driver is repeated. */
  lemma {:induction false} TopRankedAreScored(drivers: seq<Driver>, trackFactors: seq<real>, m: nat)
    requires |trackFactors| == |drivers| && m <= |drivers|
    ensures multiset(Ranked(drivers, trackFactors)[..m]) <= multiset(Scored(drivers, trackFactors))
  {
    var ranked := Ranked(drivers, trackFactors);
    assert ranked == ranked[..m] + ranked[m..];
  }

  /** The forecast keeps the ten best scores: a scored driver left out of it scores no more
      than the last driver kept. */
  lemma {:induction false} PodiumKeepsBestScores(drivers: seq<Driver>, schedule: seq<RaceEvent>, now: int,
                              trackFactors: seq<real>, noise: seq<real>, s: ScoredDriver)
    requires |trackFactors| == |drivers|
    requires |noise| == MinNat(MaxPredictions, |drivers|)
    requires NextRace(schedule, now).Some? && |drivers| > 0
    requires s in Scored(drivers, trackFactors)
    ensures var preds := PredictNextRacePodium(drivers, schedule, now, trackFactors, noise).predictions;
            (exists k :: 0 <= k < |preds| && preds[k].driver == s.driver && preds[k].score == s.score)
            || s.score <= preds[|preds| - 1].score
  {
    var ranked := Ranked(drivers, trackFactors);
    var m := |noise|;
    var preds := PredictNextRacePodium(drivers, schedule, now, trackFactors, noise).predictions;
    assert preds == Number(ranked[..m], noise);
    assert s in multiset(ranked);
    if s in ranked[..m] {
      var k :| 0 <= k < m && ranked[..m][k] == s;
      assert preds[k].driver == s.driver && preds[k].score == s.score;
    } else {
      assert preds[m - 1].score == ranked[m - 1].score;
      BeyondPrefixIsNoGreater(ranked, ScoreKey, m, s);
    }
  }
}
