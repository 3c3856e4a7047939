/**
 * The workout domain of the activity tracker: a workout is either a run or a ride.
 * Both share an id, a creation date, a distance in km, a duration in minutes and the
 * map coordinate it was recorded at. A run carries its cadence and stores its pace
 * (minutes per km); a ride carries its elevation gain and stores its speed (km/h).
 *
 * Numbers are Dafny `real`s, so the derived metrics are exact quotients; they stand in
 * for the IEEE doubles of script.js without modelling rounding.
 */
module Workouts {

  /** A map coordinate, the `[lat, lng]` pair taken from a Leaflet click. */
  datatype LatLng = LatLng(lat: real, lng: real)

  /** Month index as returned by `Date.getMonth()`: 0 is January. */
  type Month = m: nat | m < 12

  /** Day of the week as returned by `Date.getDay()`: 0 is Sunday. */
  type Weekday = d: nat | d < 7

  /** The parts of a workout's creation date that the model uses. */
  datatype Date = Date(month: Month, weekday: Weekday)

  /** The two workout kinds, the `type` field of script.js. */
  datatype Kind = RunningKind | CyclingKind

  datatype Workout =
    | Running(id: nat, date: Date, distance: real, duration: real, coords: LatLng,
              cadence: real, pace: real)
    | Cycling(id: nat, date: Date, distance: real, duration: real, coords: LatLng,
              elevationGain: real, speed: real)

  function KindOf(w: Workout): Kind {
    if w.Running? then RunningKind else CyclingKind
  }

  /** The `type` string a workout class sets. */
  function KindName(k: Kind): (name: string)
    ensures |name| == 7
  {
    match k
    case RunningKind => "running"
    case CyclingKind => "cycling"
  }

  /** Pace in minutes per km: the time it takes to cover one km. */
  function CalcPace(distance: real, duration: real): (pace: real)
    requires distance != 0.0
    ensures pace * distance == duration
    ensures distance > 0.0 && duration > 0.0 ==> pace > 0.0
  {
    duration / distance
  }

  /** Speed in km per hour: the distance covered in 60 minutes. */
  function CalcSpeed(distance: real, duration: real): (speed: real)
    requires duration != 0.0
    ensures speed * duration == distance * 60.0
    ensures distance > 0.0 && duration > 0.0 ==> speed > 0.0
  {
    distance / (duration / 60.0)
  }

  /** The `Running` constructor: stores the inputs and computes the pace once. */
  function NewRunning(id: nat, date: Date, distance: real, duration: real, coords: LatLng,
                      cadence: real): (w: Workout)
    requires distance != 0.0
    ensures w.Running? && KindOf(w) == RunningKind
    ensures w.id == id && w.date == date && w.coords == coords
    ensures w.distance == distance && w.duration == duration && w.cadence == cadence
    ensures w.pace * distance == duration
  {
    Running(id, date, distance, duration, coords, cadence, CalcPace(distance, duration))
  }

  /** The `Cycling` constructor: stores the inputs and computes the speed once. */
  function NewCycling(id: nat, date: Date, distance: real, duration: real, coords: LatLng,
                      elevationGain: real): (w: Workout)
    requires duration != 0.0
    ensures w.Cycling? && KindOf(w) == CyclingKind
    ensures w.id == id && w.date == date && w.coords == coords
    ensures w.distance == distance && w.duration == duration && w.elevationGain == elevationGain
    ensures w.speed * duration == distance * 60.0
  {
    Cycling(id, date, distance, duration, coords, elevationGain, CalcSpeed(distance, duration))
  }

  /**
   * What every workout recorded through the form satisfies: positive distance and
   * duration, a positive cadence for a run, and the stored metric equal to the quotient.
   */
  predicate WellFormed(w: Workout) {
    && w.distance > 0.0
    && w.duration > 0.0
    && match w
       case Running(_, _, _, _, _, cadence, pace) =>
         cadence > 0.0 && pace == w.duration / w.distance
       case Cycling(_, _, _, _, _, _, speed) =>
         speed == w.distance / (w.duration / 60.0)
  }

  /**
   * Recomputing the derived metric of a stored workout (`_calcPace` / `_calcSpeed`, as the
   * list rendering does) gives back the stored value, and it is positive.
   */
  lemma RecomputeAgrees(w: Workout)
    requires WellFormed(w)
    ensures w.Running? ==> CalcPace(w.distance, w.duration) == w.pace && w.pace > 0.0
    ensures w.Cycling? ==> CalcSpeed(w.distance, w.duration) == w.speed && w.speed > 0.0
  {
  }

  /** A constructor applied to positive inputs yields a well-formed workout. */
  lemma {:induction false} NewWorkoutsWellFormed(id: nat, date: Date, distance: real, duration: real,
                                                 coords: LatLng, extra: real)
    requires distance > 0.0 && duration > 0.0
    ensures extra > 0.0 ==> WellFormed(NewRunning(id, date, distance, duration, coords, extra))
    ensures WellFormed(NewCycling(id, date, distance, duration, coords, extra))
  {
    var r := NewRunning(id, date, distance, duration, coords, extra);
    var c := NewCycling(id, date, distance, duration, coords, extra);
    PaceIsQuotient(distance, duration, r.pace);
    SpeedIsQuotient(distance, duration, c.speed);
  }

  /** The pace equation `pace * distance == duration` has exactly one solution. */
  lemma PaceIsQuotient(distance: real, duration: real, pace: real)
    requires distance != 0.0 && pace * distance == duration
    ensures pace == duration / distance
  {
  }

  /** The speed equation `speed * duration == distance * 60` has exactly one solution. */
  lemma SpeedIsQuotient(distance: real, duration: real, speed: real)
    requires duration != 0.0 && speed * duration == distance * 60.0
    ensures speed == distance / (duration / 60.0)
  {
    calc {
      distance / (duration / 60.0);
      (distance * 60.0) / duration;
      (speed * duration) / duration;
      speed;
    }
  }
}
