/**
 * The `App` controller's session state and its two transitions. The state is the pending
 * map click (`#mapEvent`) and the append-only workout list (`#workouts`); a map click
 * overwrites the pending coordinate, and a form submission either raises the validation
 * alert and changes nothing, or pushes one entry built at the pending coordinate.
 *
 * The Leaflet map, the DOM and the geolocation request are not modelled: `ShowForm`
 * receives the clicked coordinate, `Submit` receives the parsed form and the clock.
 */
module Session {
  import opened Wrappers
  import opened Workouts
  import opened Validation

  /**
   * An element of `#workouts`. When the form's type is neither "running" nor "cycling",
   * `_newWokout` pushes its initial value `[]`; that is `Placeholder`.
   */
  datatype Entry = Recorded(workout: Workout) | Placeholder

  datatype State = State(pending: Option<LatLng>, workouts: seq<Entry>)

  /** The state after construction: no click yet, no workouts. */
  const Initial: State := State(None, [])

  /** The form at submission: the type selector's value and the four parsed numeric inputs. */
  datatype Form = Form(workoutType: string, distance: Field, duration: Field,
                       cadence: Field, elevationGain: Field)

  /** What the workout constructors read from the clock: `Date.now()` and `new Date()`. */
  datatype Clock = Clock(now: nat, date: Date)

  /** The alert raised when a submission is rejected. */
  const InvalidInputAlert: string := "\U{1F6D1} Input should be valid and positive."

  /** The state after a submission, and the alert it raised, if any. */
  datatype Reply = Reply(next: State, alert: Option<string>)

  /** `_showForm`: the latest click becomes the pending coordinate; the list is untouched. */
  function ShowForm(s: State, click: LatLng): (r: State)
    ensures r.pending == Some(click)
    ensures r.workouts == s.workouts
  {
    s.(pending := Some(click))
  }

  /** The submissions `_newWokout` turns away with the alert. */
  predicate Rejected(f: Form) {
    || (f.workoutType == "running" && !RunningAccepted(f.distance, f.duration, f.cadence))
    || (f.workoutType == "cycling" && !CyclingAccepted(f.distance, f.duration, f.elevationGain))
  }

  /**
   * The entry an accepted submission of `f` at `at` pushes: a workout of the selected kind
   * holding the form's values, the clicked coordinate and the clock's id and date, or the
   * placeholder for any other type.
   */
  predicate Records(e: Entry, f: Form, at: LatLng, c: Clock) {
    if f.workoutType == "running" then
      && e.Recorded? && e.workout.Running?
      && e.workout.id == c.now && e.workout.date == c.date && e.workout.coords == at
      && f.distance == Some(e.workout.distance) && f.duration == Some(e.workout.duration)
      && f.cadence == Some(e.workout.cadence)
    else if f.workoutType == "cycling" then
      && e.Recorded? && e.workout.Cycling?
      && e.workout.id == c.now && e.workout.date == c.date && e.workout.coords == at
      && f.distance == Some(e.workout.distance) && f.duration == Some(e.workout.duration)
      && f.elevationGain == Some(e.workout.elevationGain)
    else
      e == Placeholder
  }

  /**
   * `_newWokout`. It reads `#mapEvent.latlng` first and throws without one, so a
   * pending click is required. A rejected submission alerts and returns before the push;
   * an accepted one appends exactly one entry at the end and keeps everything else.
   */
  function Submit(s: State, f: Form, c: Clock): (r: Reply)
    requires s.pending.Some?
    ensures r.alert.Some? <==> Rejected(f)
    ensures r.alert.Some? ==> r.alert == Some(InvalidInputAlert) && r.next == s
    ensures r.alert.None? ==> && r.next.pending == s.pending
                              && |r.next.workouts| == |s.workouts| + 1
                              && r.next.workouts[..|s.workouts|] == s.workouts
                              && Records(r.next.workouts[|s.workouts|], f, s.pending.value, c)
    ensures r.alert.None? && r.next.workouts[|s.workouts|].Recorded? ==>
              WellFormed(r.next.workouts[|s.workouts|].workout)
  {
    var at := s.pending.value;
    if f.workoutType == "running" then
      RunningGuardExact(f.distance, f.duration, f.cadence);
      if !RunningGuard(f.distance, f.duration, f.cadence) then Reply(s, Some(InvalidInputAlert))
      else
        var w := NewRunning(c.now, c.date, f.distance.value, f.duration.value, at, f.cadence.value);
        NewWorkoutsWellFormed(c.now, c.date, f.distance.value, f.duration.value, at, f.cadence.value);
        Reply(s.(workouts := s.workouts + [Recorded(w)]), None)
    else if f.workoutType == "cycling" then
      CyclingGuardExact(f.distance, f.duration, f.elevationGain);
      if !CyclingGuard(f.distance, f.duration, f.elevationGain) then Reply(s, Some(InvalidInputAlert))
      else
        var w := NewCycling(c.now, c.date, f.distance.value, f.duration.value, at, f.elevationGain.value);
        NewWorkoutsWellFormed(c.now, c.date, f.distance.value, f.duration.value, at, f.elevationGain.value);
        Reply(s.(workouts := s.workouts + [Recorded(w)]), None)
    else
      Reply(s.(workouts := s.workouts + [Placeholder]), None)
  }

  /** The two user events the controller handles. */
  datatype Event = MapClick(at: LatLng) | FormSubmit(form: Form, clock: Clock)

  /**
   * One event. A submission before any click throws at the `#mapEvent.latlng` read, before
   * anything is changed, so the state stays as it was.
   */
  function Step(s: State, e: Event): (r: State)
    ensures e.MapClick? ==> r.pending == Some(e.at) && r.workouts == s.workouts
    ensures e.FormSubmit? && s.pending.None? ==> r == s
    ensures e.FormSubmit? && s.pending.Some? ==> r == Submit(s, e.form, e.clock).next
  {
    match e
    case MapClick(at) => ShowForm(s, at)
    case FormSubmit(f, c) => if s.pending.None? then s else Submit(s, f, c).next
  }

  /** A session: the events applied in order. */
  function Run(s: State, events: seq<Event>): State
    decreases |events|
  {
    if |events| == 0 then s else Run(Step(s, events[0]), events[1..])
  }

  /** The coordinate of the last click in `events`, or `before` if there is none. */
  function LastClick(events: seq<Event>, before: Option<LatLng>): Option<LatLng>
    decreases |events|
  {
    if |events| == 0 then before
    else if events[|events| - 1].MapClick? then Some(events[|events| - 1].at)
    else LastClick(events[..|events| - 1], before)
  }

  /** Every recorded workout in the list is well formed. */
  predicate AllWellFormed(s: State) {
    forall i :: 0 <= i < |s.workouts| && s.workouts[i].Recorded? ==> WellFormed(s.workouts[i].workout)
  }

  /** Running one more event is one more step. */
  lemma {:induction false} RunSnoc(s: State, events: seq<Event>, e: Event)
    ensures Run(s, events + [e]) == Step(Run(s, events), e)
    decreases |events|
  {
    if |events| == 0 {
      assert [e][1..] == [];
    } else {
      assert (events + [e])[1..] == events[1..] + [e];
      RunSnoc(Step(s, events[0]), events[1..], e);
    }
  }

  /** No event removes, edits or reorders a workout: the list only grows at its end. */
  lemma {:induction false} RunAppendOnly(s: State, events: seq<Event>)
    ensures |s.workouts| <= |Run(s, events).workouts|
    ensures Run(s, events).workouts[..|s.workouts|] == s.workouts
    decreases |events|
  {
    if |events| > 0 {
      var t := Step(s, events[0]);
      assert |s.workouts| <= |t.workouts| && t.workouts[..|s.workouts|] == s.workouts;
      RunAppendOnly(t, events[1..]);
      var u := Run(t, events[1..]);
      assert u.workouts[..|s.workouts|] == u.workouts[..|t.workouts|][..|s.workouts|];
    }
  }

  /** The pending coordinate is always the most recent click: a later click wins. */
  lemma {:induction false} RunPendingIsLastClick(s: State, events: seq<Event>)
    ensures Run(s, events).pending == LastClick(events, s.pending)
    decreases |events|
  {
    if |events| > 0 {
      var init, e := events[..|events| - 1], events[|events| - 1];
      assert events == init + [e];
      RunSnoc(s, init, e);
      RunPendingIsLastClick(s, init);
    }
  }

  /** Every workout the session records is well formed, whatever the events. */
  lemma {:induction false} RunKeepsWellFormed(s: State, events: seq<Event>)
    requires AllWellFormed(s)
    ensures AllWellFormed(Run(s, events))
    decreases |events|
  {
    if |events| > 0 {
      var t := Step(s, events[0]);
      if events[0].FormSubmit? && s.pending.Some? {
        var r := Submit(s, events[0].form, events[0].clock);
        if r.alert.None? {
          forall i | 0 <= i < |t.workouts| && t.workouts[i].Recorded?
            ensures WellFormed(t.workouts[i].workout)
          {
            if i < |s.workouts| {
              assert t.workouts[i] == t.workouts[..|s.workouts|][i];
            }
          }
        }
      }
      RunKeepsWellFormed(t, events[1..]);
    }
  }
}
