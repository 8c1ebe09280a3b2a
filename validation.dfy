/**
 * The checks `_newWorkout` runs on the form before it builds a record:
 * `validInputs` (every input is a finite number) and `allPositive` (every
 * input is greater than zero), applied per kind.
 */
module Validation {
  import opened Workouts

  /**
   * A form field after the `+` string-to-number coercion: a finite value, an
   * infinity, or NaN (what `+"abc"` gives). An empty field coerces to 0.
   */
  datatype Num = Finite(value: real) | Infinite(negative: bool) | NaN

  /** `Number.isFinite`. */
  predicate IsFinite(x: Num)
    ensures IsFinite(x) <==> !x.NaN? && !x.Infinite?
  {
    x.Finite?
  }

  /** The comparison `x > 0`: false for NaN and -Infinity, true for +Infinity. */
  predicate IsPositive(x: Num)
    ensures IsPositive(x) <==> x == Infinite(false) || (IsFinite(x) && x.value > 0.0)
  {
    match x
    case Finite(v) => v > 0.0
    case Infinite(negative) => !negative
    case NaN => false
  }

  /** `validInputs(...inputs)`: `inputs.every(Number.isFinite)`. */
  function ValidInputs(inputs: seq<Num>): (r: bool)
    ensures r <==> forall i :: 0 <= i < |inputs| ==> IsFinite(inputs[i])
  {
    inputs == [] || (IsFinite(inputs[0]) && ValidInputs(inputs[1..]))
  }

  /** `allPositive(...inputs)`: `inputs.every(inp => inp > 0)`. */
  function AllPositive(inputs: seq<Num>): (r: bool)
    ensures r <==> forall i :: 0 <= i < |inputs| ==> IsPositive(inputs[i])
  {
    inputs == [] || (IsPositive(inputs[0]) && AllPositive(inputs[1..]))
  }

  /** The form as `_newWorkout` reads it; the kind selects which of cadence and elevation is read. */
  datatype FormInput = FormInput(kind: Kind, distance: Num, duration: Num, cadence: Num, elevation: Num)

  /**
   * Whether the submit passes validation. A run needs distance, duration and
   * cadence finite and positive; a ride needs distance, duration and elevation
   * finite but only distance and duration positive.
   */
  function Accepts(input: FormInput): (ok: bool)
    ensures input.kind == Running ==>
      (ok <==> && input.distance.Finite? && input.distance.value > 0.0
               && input.duration.Finite? && input.duration.value > 0.0
               && input.cadence.Finite? && input.cadence.value > 0.0)
    ensures input.kind == Cycling ==>
      (ok <==> && input.distance.Finite? && input.distance.value > 0.0
               && input.duration.Finite? && input.duration.value > 0.0
               && input.elevation.Finite?)
  {
    match input.kind
    case Running =>
      var inputs := [input.distance, input.duration, input.cadence];
      assert inputs[0] == input.distance && inputs[1] == input.duration && inputs[2] == input.cadence;
      ValidInputs(inputs) && AllPositive(inputs)
    case Cycling =>
      var inputs, positive := [input.distance, input.duration, input.elevation], [input.distance, input.duration];
      assert inputs[0] == positive[0] == input.distance && inputs[1] == positive[1] == input.duration;
      assert inputs[2] == input.elevation;
      ValidInputs(inputs) && AllPositive(positive)
  }

  /** A ride is accepted with any finite elevation gain, zero and negative ones included. */
  lemma CyclingAcceptsAnyFiniteElevation(input: FormInput, elevation: real)
    requires input.kind == Cycling && Accepts(input)
    ensures Accepts(input.(elevation := Finite(elevation)))
  {
  }
}
