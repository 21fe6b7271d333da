/**
 * The constructors' championship estimate (`predictConstructorChampionship`): a
 * closed formula per team, then a sort by non-increasing probability.
 *
 * Arithmetic is exact. Where the source divides by zero the IEEE outcome is
 * written out: a positive gap over no race gives +Infinity (probability 0), a
 * negative gap -Infinity (probability 85) and a zero gap NaN, which the model
 * reports as `NotANumber`.
 */
module ConstructorPrediction {
  import opened Wrappers
  import opened PredictionInputs
  import opened Sorting

  /** Ceiling a team can still score per race, used for `maxPossiblePoints`. */
  const MaxTeamPointsPerRace: nat := 44
  /** Per-race catch-up a chasing team is credited with. */
  const CatchUpPointsPerRace: nat := 25

  datatype ConstructorChance = ConstructorChance(team: Constructor, championshipProbability: real, maxPossiblePoints: int)

  datatype PredictionError =
    /** A team in position 1 with no second entry: `constructors[1].points` throws a TypeError. */
    | MissingRunnerUp
    /** A chasing team level with the first entry and no race left: 0 / 0. */
    | NotANumber

  function Min(a: real, b: real): real { if a <= b then a else b }

  function Max(a: real, b: real): real { if a >= b then a else b }

  /** The position-1 branch: `60 + Math.min(30, (currentPoints - constructors[1].points) / 10)`. */
  function LeaderProbability(points: int, runnerUpPoints: int): (p: real)
    ensures p <= 90.0
    ensures points >= runnerUpPoints ==> 60.0 <= p
    ensures points - runnerUpPoints >= 300 <==> p == 90.0
  {
    60.0 + Min(30.0, (points - runnerUpPoints) as real / 10.0)
  }

  /** The chasing branch: `Math.max(0, Math.min(85, 100 - (pointsGap / catchupRate) * 100))`. */
  function ChaseProbability(gap: int, remainingRaces: nat): (r: Result<real, PredictionError>)
    ensures r.Failure? <==> remainingRaces == 0 && gap == 0
    ensures r.Success? ==> 0.0 <= r.value <= 85.0
    ensures r.Success? && gap <= 0 ==> r.value == 85.0
    ensures gap > 0 && gap >= CatchUpPointsPerRace * remainingRaces ==> r == Success(0.0)
    ensures 0 < gap < CatchUpPointsPerRace * remainingRaces ==> r.Success? && r.value > 0.0
  {
    var catchupRate := remainingRaces * CatchUpPointsPerRace;
    if catchupRate == 0 then
      if gap > 0 then Success(0.0)
      else if gap < 0 then Success(85.0)
      else Failure(NotANumber)
    else
      Success(Max(0.0, Min(85.0, 100.0 - (gap as real / catchupRate as real) * 100.0)))
  }

  /** A larger gap to the first entry never gives a larger probability. */
  lemma {:induction false} ChaseProbabilityNonIncreasing(gap1: int, gap2: int, remainingRaces: nat)
    requires gap1 <= gap2
    requires ChaseProbability(gap1, remainingRaces).Success? && ChaseProbability(gap2, remainingRaces).Success?
    ensures ChaseProbability(gap1, remainingRaces).value >= ChaseProbability(gap2, remainingRaces).value
  {
    if remainingRaces > 0 {
      var c := (remainingRaces * CatchUpPointsPerRace) as real;
      QuotientMonotone(gap1 as real, gap2 as real, c);
    }
  }

  lemma {:induction false} QuotientMonotone(a: real, b: real, c: real)
    requires a <= b && c > 0.0
    ensures a / c <= b / c
  {
    assert b / c - a / c == (b - a) / c;
  }

  /** The probability of the team at index `i`. */
  function TeamProbability(constructors: seq<Constructor>, i: nat, remainingRaces: nat): (r: Result<real, PredictionError>)
    requires i < |constructors|
    ensures r == Failure(MissingRunnerUp) <==> constructors[i].position == 1 && |constructors| < 2
    ensures r == Failure(NotANumber) <==>
              constructors[i].position != 1 && remainingRaces == 0 && constructors[i].points == constructors[0].points
    ensures r.Success? ==> r.value <= 90.0
    ensures r.Success? && constructors[i].position != 1 ==> 0.0 <= r.value <= 85.0
    ensures r.Success? && constructors[i].position == 1 && constructors[i].points >= constructors[1].points ==> r.value >= 60.0
  {
    var team := constructors[i];
    if team.position == 1 then
      if |constructors| < 2 then Failure(MissingRunnerUp)
      else Success(LeaderProbability(team.points, constructors[1].points))
    else
      ChaseProbability(constructors[0].points - team.points, remainingRaces)
  }

  predicate AllComputed(constructors: seq<Constructor>, remainingRaces: nat)
  {
    forall i :: 0 <= i < |constructors| ==> TeamProbability(constructors, i, remainingRaces).Success?
  }

  /** `constructors.map(...)`: each team with its probability and `points + 44 * remainingRaces`. */
  function Entries(constructors: seq<Constructor>, remainingRaces: nat): (r: seq<ConstructorChance>)
    requires AllComputed(constructors, remainingRaces)
    ensures |r| == |constructors|
    ensures forall i :: 0 <= i < |r| ==>
              && r[i].team == constructors[i]
              && r[i].championshipProbability == TeamProbability(constructors, i, remainingRaces).value
              && r[i].maxPossiblePoints == constructors[i].points + MaxTeamPointsPerRace * remainingRaces
  {
    seq(|constructors|, i requires 0 <= i < |constructors| =>
      ConstructorChance(constructors[i], TeamProbability(constructors, i, remainingRaces).value,
                        constructors[i].points + MaxTeamPointsPerRace * remainingRaces))
  }

  function ChanceKey(c: ConstructorChance): real
  {
    c.championshipProbability
  }

  /**
   * `predictConstructorChampionship(constructors, remainingRaces)`: the thrown TypeError
   * takes precedence over a NaN, as the throw ends the `map` before any sort.
   */
  function PredictConstructorChampionship(constructors: seq<Constructor>, remainingRaces: nat)
    : (r: Result<seq<ConstructorChance>, PredictionError>)
    ensures r == Failure(MissingRunnerUp) <==> |constructors| == 1 && constructors[0].position == 1
    ensures r.Failure? <==> !AllComputed(constructors, remainingRaces)
    ensures r.Success? ==>
              && |r.value| == |constructors|
              && multiset(r.value) == multiset(Entries(constructors, remainingRaces))
              && SortedDesc(r.value, ChanceKey)
  {
    if exists i :: 0 <= i < |constructors| && TeamProbability(constructors, i, remainingRaces) == Failure(MissingRunnerUp) then
      Failure(MissingRunnerUp)
    else if !AllComputed(constructors, remainingRaces) then
      Failure(NotANumber)
    else
      Success(SortDesc(Entries(constructors, remainingRaces), ChanceKey))
  }

  /** With a race left, only a lone team in position 1 makes the prediction fail. */
  lemma {:induction false} PredictionDefinedWithRacesLeft(constructors: seq<Constructor>, remainingRaces: nat)
    requires remainingRaces > 0
    requires !(|constructors| == 1 && constructors[0].position == 1)
    ensures PredictConstructorChampionship(constructors, remainingRaces).Success?
  {
    forall i | 0 <= i < |constructors|
      ensures TeamProbability(constructors, i, remainingRaces).Success?
    {
    }
  }

  /** Standings in championship order: points non-increasing and position i + 1 at index i. */
  predicate InChampionshipOrder(constructors: seq<Constructor>)
  {
    && (forall i, j :: 0 <= i < j < |constructors| ==> constructors[i].points >= constructors[j].points)
    && (forall i :: 0 <= i < |constructors| ==> constructors[i].position == i + 1)
  }

  /** For standings in championship order with a race left, every probability lies in [0, 90],
      the leader's is at least 60 and every other team's at most 85. */
  lemma {:induction false} OrderedStandingsProbabilities(constructors: seq<Constructor>, remainingRaces: nat)
    requires InChampionshipOrder(constructors) && |constructors| >= 2 && remainingRaces > 0
    ensures PredictConstructorChampionship(constructors, remainingRaces).Success?
    ensures forall c :: c in PredictConstructorChampionship(constructors, remainingRaces).value ==>
              && 0.0 <= c.championshipProbability <= 90.0
              && (c.team.position == 1 ==> 60.0 <= c.championshipProbability)
              && (c.team.position != 1 ==> c.championshipProbability <= 85.0)
  {
    PredictionDefinedWithRacesLeft(constructors, remainingRaces);
    var entries := Entries(constructors, remainingRaces);
    var r := PredictConstructorChampionship(constructors, remainingRaces).value;
    forall c | c in r
      ensures 0.0 <= c.championshipProbability <= 90.0
      ensures c.team.position == 1 ==> 60.0 <= c.championshipProbability
      ensures c.team.position != 1 ==> c.championshipProbability <= 85.0
    {
      assert c in multiset(entries);
      var i :| 0 <= i < |entries| && entries[i] == c;
      var p := TeamProbability(constructors, i, remainingRaces);
      if constructors[i].position == 1 {
        assert i == 0;
      }
    }
  }
}
