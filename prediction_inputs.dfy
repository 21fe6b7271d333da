/**
 * The records the predictions page receives from the standings and schedule
 * endpoints, and the schedule filters it derives from them.
 *
 * A race's `Session5Date` string is modelled as the timestamp it parses to, or
 * `None` when `new Date(...)` would give an invalid date (a NaN time that is
 * never "after" anything).
 */
module PredictionInputs {
  import opened Wrappers

  datatype Driver = Driver(position: int, points: int, wins: int, driverId: string)

  datatype Constructor = Constructor(position: int, points: int, wins: int, constructorId: string)

  datatype RaceEvent = RaceEvent(roundNumber: int, eventName: string, session5Date: Option<int>)

  /** `Math.min` on counts; `slice(0, m)` keeps this many elements. */
  function MinNat(a: nat, b: nat): nat { if a <= b then a else b }

  /** `new Date(race.Session5Date) > now` */
  predicate IsAfter(race: RaceEvent, now: int)
    ensures IsAfter(race, now) ==> race.session5Date.Some?
  {
    race.session5Date.Some? && race.session5Date.value > now
  }

  /** A race still to come at a later time is still to come at an earlier one. */
  lemma IsAfterEarlier(race: RaceEvent, earlier: int, later: int)
    requires earlier <= later && IsAfter(race, later)
    ensures IsAfter(race, earlier)
  {
  }

  /** As time passes, the number of races still to come never grows. */
  lemma {:induction false} FewerRacesLater(schedule: seq<RaceEvent>, earlier: int, later: int)
    requires earlier <= later
    ensures |FutureRaces(schedule, later)| <= |FutureRaces(schedule, earlier)|
  {
    if schedule != [] {
      FewerRacesLater(schedule[1..], earlier, later);
      if IsAfter(schedule[0], later) {
        IsAfterEarlier(schedule[0], earlier, later);
      }
    }
  }

  /** `schedule.filter(race => new Date(race.Session5Date) > now)`, in schedule order
      (`FutureRacesDistribute` states the order). */
  function FutureRaces(schedule: seq<RaceEvent>, now: int): (r: seq<RaceEvent>)
    ensures |r| <= |schedule|
    ensures forall k :: 0 <= k < |r| ==> IsAfter(r[k], now)
  {
    if schedule == [] then []
    else if IsAfter(schedule[0], now) then [schedule[0]] + FutureRaces(schedule[1..], now)
    else FutureRaces(schedule[1..], now)
  }

  /** A race is kept exactly when the schedule lists it and it is dated after `now`. */
  lemma {:induction false} FutureRacesMembership(schedule: seq<RaceEvent>, now: int, race: RaceEvent)
    ensures race in FutureRaces(schedule, now) <==> race in schedule && IsAfter(race, now)
  {
    FutureRacesMultiplicity(schedule, now, race);
    assert race in FutureRaces(schedule, now) <==> race in multiset(FutureRaces(schedule, now));
  }

  /** The filter keeps each race dated after `now` as often as the schedule lists it, and
      no other race. */
  lemma {:induction false} FutureRacesMultiplicity(schedule: seq<RaceEvent>, now: int, race: RaceEvent)
    ensures multiset(FutureRaces(schedule, now))[race] ==
              if IsAfter(race, now) then multiset(schedule)[race] else 0
  {
    if schedule != [] {
      FutureRacesMultiplicity(schedule[1..], now, race);
      assert schedule == [schedule[0]] + schedule[1..];
    }
  }

  /** Filtering a concatenation filters each part, keeping the parts in order. */
  lemma {:induction false} FutureRacesDistribute(a: seq<RaceEvent>, b: seq<RaceEvent>, now: int)
    ensures FutureRaces(a + b, now) == FutureRaces(a, now) + FutureRaces(b, now)
  {
    if a == [] {
      assert a + b == b;
    } else {
      var ab := a + b;
      assert ab[0] == a[0] && ab[1..] == a[1..] + b;
      FutureRacesDistribute(a[1..], b, now);
    }
  }

  /** The positions in the schedule of the races dated after `now`. */
  ghost function FutureIndices(schedule: seq<RaceEvent>, now: int): set<int>
  {
    set k | 0 <= k < |schedule| && IsAfter(schedule[k], now)
  }

  /** The filter keeps one race per schedule position dated after `now`. */
  lemma {:induction false} FutureRacesCountsPositions(schedule: seq<RaceEvent>, now: int)
    ensures |FutureRaces(schedule, now)| == |FutureIndices(schedule, now)|
    decreases |schedule|
  {
    if schedule == [] {
      assert FutureIndices(schedule, now) == {};
    } else {
      var init, last := schedule[..|schedule| - 1], schedule[|schedule| - 1];
      assert schedule == init + [last];
      FutureRacesCountsPositions(init, now);
      FutureRacesDistribute(init, [last], now);
      assert FutureRaces([last], now) == if IsAfter(last, now) then [last] else [];
      FutureIndicesSnoc(init, last, now);
    }
  }

  /** Appending a race adds its position exactly when it is dated after `now`. */
  lemma FutureIndicesSnoc(init: seq<RaceEvent>, last: RaceEvent, now: int)
    ensures |init| !in FutureIndices(init, now)
    ensures FutureIndices(init + [last], now) ==
              FutureIndices(init, now) + if IsAfter(last, now) then {|init|} else {}
  {
    var schedule := init + [last];
    var before, all := FutureIndices(init, now), FutureIndices(schedule, now);
    var added: set<int> := if IsAfter(last, now) then {|init|} else {};
    forall k | k in all ensures k in before + added {
      if k < |init| { assert schedule[k] == init[k]; }
    }
    forall k | k in before + added ensures k in all {
      if k < |init| { assert schedule[k] == init[k]; }
    }
  }

  /** `schedule?.filter(...).length || 0`: the number of races still to come. */
  function RemainingRaceCount(schedule: Option<seq<RaceEvent>>, now: int): (n: nat)
    ensures schedule.None? ==> n == 0
    ensures schedule.Some? ==> n == |FutureRaces(schedule.value, now)|
    ensures schedule.Some? ==> n == |FutureIndices(schedule.value, now)|
  {
    match schedule
    case None => 0
    case Some(races) =>
      FutureRacesCountsPositions(races, now);
      |FutureRaces(races, now)|
  }

  /** `schedule.find(race => new Date(race.Session5Date) > now)`. */
  function NextRace(schedule: seq<RaceEvent>, now: int): (r: Option<RaceEvent>)
    ensures r.None? <==> forall race :: race in schedule ==> !IsAfter(race, now)
    ensures r.Some? ==> exists k :: 0 <= k < |schedule| && schedule[k] == r.value && IsAfter(r.value, now)
                                    && forall j :: 0 <= j < k ==> !IsAfter(schedule[j], now)
  {
    if schedule == [] then None
    else if IsAfter(schedule[0], now) then Some(schedule[0])
    else
      var r := NextRace(schedule[1..], now);
      assert forall race :: race in schedule && race != schedule[0] ==> race in schedule[1..];
      if r.Some? then
        var k :| 0 <= k < |schedule[1..]| && schedule[1..][k] == r.value && IsAfter(r.value, now)
                 && forall j :: 0 <= j < k ==> !IsAfter(schedule[1..][j], now);
        assert schedule[k + 1] == r.value;
        r
      else r
  }

  /** `find` returns the head of what `filter` keeps. */
  lemma {:induction false} NextRaceIsFirstFutureRace(schedule: seq<RaceEvent>, now: int)
    ensures NextRace(schedule, now).None? <==> FutureRaces(schedule, now) == []
    ensures NextRace(schedule, now).Some? ==> NextRace(schedule, now).value == FutureRaces(schedule, now)[0]
  {
    if schedule != [] && !IsAfter(schedule[0], now) {
      NextRaceIsFirstFutureRace(schedule[1..], now);
    }
  }
}
