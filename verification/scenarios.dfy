/**
 * Concrete sessions and labels: the behaviour the tracker shows for particular inputs,
 * derived from the general model.
 */
module Scenarios {
  import opened Wrappers
  import opened Workouts
  import opened Description
  import opened Validation
  import opened Session

  /** A run created in July on a Wednesday is titled "Running on July 3 ", trailing space included. */
  lemma JulyLabel()
    ensures Label("running", 6, 3) == "Running on July 3 "
    ensures Label("cycling", 0, 0) == "Cycling on January 0 "
  {
    KindPrefixes();
    PartsLabelShape(LabelParts(RunningKind, 6, 3));
    PartsLabelShape(LabelParts(CyclingKind, 0, 0));
  }

  /** Zero, negative or non-finite running inputs are all turned away. */
  lemma RunningRejections()
    ensures Rejected(Form("running", Some(0.0), Some(30.0), Some(180.0), None))
    ensures Rejected(Form("running", Some(-5.0), Some(30.0), Some(180.0), None))
    ensures Rejected(Form("running", Some(5.0), None, Some(180.0), None))
    ensures Rejected(Form("running", Some(5.0), Some(30.0), Some(0.0), None))
  {
  }

  /**
   * Clicking at `at` and submitting a 5.2 km, 30 minute run at cadence 180 records exactly
   * that run, at `at`, with pace 30 / 5.2 minutes per km.
   */
  lemma {:induction false} RecordOneRun(at: LatLng, c: Clock)
    ensures Run(Initial, [MapClick(at), FormSubmit(Form("running", Some(5.2), Some(30.0), Some(180.0), None), c)])
         == State(Some(at), [Recorded(Running(c.now, c.date, 5.2, 30.0, at, 180.0, 30.0 / 5.2))])
  {
    var f := Form("running", Some(5.2), Some(30.0), Some(180.0), None);
    var es := [MapClick(at), FormSubmit(f, c)];
    var s1 := ShowForm(Initial, at);
    assert Run(Initial, es) == Run(s1, es[1..]);
    assert es[1..][1..] == [];
    assert Run(Initial, es) == Submit(s1, f, c).next;
    RunningGuardExact(f.distance, f.duration, f.cadence);
  }

  /** Three accepted submissions are listed in the order they were made. */
  lemma {:induction false} SubmissionsInOrder(s: State, a: Form, b: Form, d: Form, c: Clock)
    requires s.pending.Some?
    requires !Rejected(a) && !Rejected(b) && !Rejected(d)
    ensures var s1 := Submit(s, a, c).next;
            var s2 := Submit(s1, b, c).next;
            var s3 := Submit(s2, d, c).next;
            && s3.workouts == s.workouts + [s1.workouts[|s.workouts|], s2.workouts[|s1.workouts|],
                                            s3.workouts[|s2.workouts|]]
            && Records(s3.workouts[|s.workouts|], a, s.pending.value, c)
            && Records(s3.workouts[|s.workouts| + 1], b, s.pending.value, c)
            && Records(s3.workouts[|s.workouts| + 2], d, s.pending.value, c)
  {
    var s1 := Submit(s, a, c).next;
    var s2 := Submit(s1, b, c).next;
    var s3 := Submit(s2, d, c).next;
    assert s1.workouts == s.workouts + [s1.workouts[|s.workouts|]];
    assert s2.workouts == s1.workouts + [s2.workouts[|s1.workouts|]];
    assert s3.workouts == s2.workouts + [s3.workouts[|s2.workouts|]];
  }

  /** A second click before submitting moves the new workout to the second coordinate. */
  lemma LatestClickWins(s: State, p: LatLng, q: LatLng, f: Form, c: Clock)
    requires f.workoutType == "running" || f.workoutType == "cycling"
    requires !Rejected(f)
    ensures var t := ShowForm(ShowForm(s, p), q);
            var r := Submit(t, f, c).next;
            r.workouts[|s.workouts|].Recorded? && r.workouts[|s.workouts|].workout.coords == q
  {
  }
}
