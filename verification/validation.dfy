/**
 * The input checks of `_newWokout`. A form field is read with unary `+`, which yields a
 * double; the model keeps only whether that double is finite (`Some(v)`) or NaN/±Infinity
 * (`None`), so `Number.isFinite(x)` is `x.Some?`.
 *
 * `ValidInputs` and `AllPositive` are the two variadic helpers of `_newWokout`, written over a
 * sequence of fields; `RunningAccepted` and `CyclingAccepted` say directly which
 * submissions pass, and the lemmas connect the two.
 */
module Validation {
  import opened Wrappers

  /** A parsed numeric form field: `None` stands for NaN or ±Infinity. */
  type Field = Option<real>

  /** `validInputs(...inputs)`: every input is a finite number. */
  function ValidInputs(inputs: seq<Field>): (ok: bool)
    ensures ok <==> forall i :: 0 <= i < |inputs| ==> inputs[i].Some?
  {
    if |inputs| == 0 then true else inputs[0].Some? && ValidInputs(inputs[1..])
  }

  /**
   * `allPositiveInput(...inputs)`: every input is greater than zero. A non-finite field
   * counts as not positive; `_newWokout` only asks after `ValidInputs` succeeded.
   */
  function AllPositive(inputs: seq<Field>): (ok: bool)
    ensures ok <==> forall i :: 0 <= i < |inputs| ==> inputs[i].Some? && inputs[i].value > 0.0
  {
    if |inputs| == 0 then true
    else inputs[0].Some? && inputs[0].value > 0.0 && AllPositive(inputs[1..])
  }

  /** The running guard of `_newWokout`, as script.js writes it. */
  predicate RunningGuard(distance: Field, duration: Field, cadence: Field) {
    !(!ValidInputs([distance, duration, cadence]) || !AllPositive([distance, duration, cadence]))
  }

  /** The cycling guard of `_newWokout`: elevation gain is checked for finiteness only. */
  predicate CyclingGuard(distance: Field, duration: Field, elevationGain: Field) {
    !(!ValidInputs([distance, duration, elevationGain]) || !AllPositive([distance, duration]))
  }

  /** A running submission is acceptable: all three fields finite and strictly positive. */
  predicate RunningAccepted(distance: Field, duration: Field, cadence: Field) {
    && distance.Some? && distance.value > 0.0
    && duration.Some? && duration.value > 0.0
    && cadence.Some? && cadence.value > 0.0
  }

  /**
   * A cycling submission is acceptable: all three fields finite, distance and duration
   * strictly positive; the elevation gain may be zero or negative.
   */
  predicate CyclingAccepted(distance: Field, duration: Field, elevationGain: Field) {
    && distance.Some? && distance.value > 0.0
    && duration.Some? && duration.value > 0.0
    && elevationGain.Some?
  }

  /** The running guard lets through exactly the acceptable running submissions. */
  lemma {:induction false} RunningGuardExact(distance: Field, duration: Field, cadence: Field)
    ensures RunningGuard(distance, duration, cadence) <==> RunningAccepted(distance, duration, cadence)
  {
    var xs := [distance, duration, cadence];
    assert xs[0] == distance && xs[1] == duration && xs[2] == cadence;
  }

  /** The cycling guard lets through exactly the acceptable cycling submissions. */
  lemma {:induction false} CyclingGuardExact(distance: Field, duration: Field, elevationGain: Field)
    ensures CyclingGuard(distance, duration, elevationGain) <==> CyclingAccepted(distance, duration, elevationGain)
  {
    var xs := [distance, duration, elevationGain];
    assert xs[0] == distance && xs[1] == duration && xs[2] == elevationGain;
    assert [distance, duration][0] == distance && [distance, duration][1] == duration;
  }

  /**
   * The two rules differ exactly in the third field's sign: a ride with a finite, zero or
   * negative elevation gain is accepted, a run with such a cadence is not.
   */
  lemma GuardsAsymmetric(distance: real, duration: real, third: real)
    requires distance > 0.0 && duration > 0.0 && third <= 0.0
    ensures CyclingGuard(Some(distance), Some(duration), Some(third))
    ensures !RunningGuard(Some(distance), Some(duration), Some(third))
  {
    RunningGuardExact(Some(distance), Some(duration), Some(third));
    CyclingGuardExact(Some(distance), Some(duration), Some(third));
  }
}
