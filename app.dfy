/**
 * The `App` controller's state: the in-memory workout list `#workouts`, the
 * submit handler that validates the form and appends a record, the startup
 * load from storage, the lookup a click on the list performs, and the reset.
 */
module WorkoutApp {
  import opened Wrappers
  import opened Workouts
  import opened Validation

  /** The one error a submit can end in: the "Invalid input" alert. */
  datatype SubmitError = InvalidInput

  /**
   * The part of `_newWorkout` that decides and builds: validate the form for
   * its kind, then construct a `Running` or `Cycling` record at the clicked
   * coordinates.
   */
  function MakeWorkout(input: FormInput, clicked: Coords, date: Date, id: string)
    : (r: Result<Workout, SubmitError>)
    ensures r.Success? <==> Accepts(input)
    ensures r.Success? ==>
      && WellFormed(r.value)
      && r.value.Kind() == input.kind
      && r.value.coords == clicked && r.value.date == date && r.value.id == id
      && r.value.distance == input.distance.value && r.value.distance > 0.0
      && r.value.duration == input.duration.value && r.value.duration > 0.0
      && (r.value.RunningWorkout? ==> r.value.cadence == input.cadence.value && r.value.cadence > 0.0)
      && (r.value.CyclingWorkout? ==> r.value.elevationGain == input.elevation.value)
  {
    if !Accepts(input) then Failure(InvalidInput)
    else match input.kind
      case Running =>
        Success(NewRunning(clicked, input.distance.value, input.duration.value,
                           input.cadence.value, date, id))
      case Cycling =>
        Success(NewCycling(clicked, input.distance.value, input.duration.value,
                           input.elevation.value, date, id))
  }

  /** The first index whose record has the given id, or `|ws|` when none has. */
  function FirstWithId(ws: seq<Workout>, id: string): (k: nat)
    ensures k <= |ws|
    ensures k < |ws| ==> ws[k].id == id
    ensures forall j :: 0 <= j < k ==> ws[j].id != id
  {
    if ws == [] || ws[0].id == id then 0 else 1 + FirstWithId(ws[1..], id)
  }

  /** Every record satisfies what its constructor established. */
  predicate AllWellFormed(ws: seq<Workout>) {
    forall i :: 0 <= i < |ws| ==> WellFormed(ws[i])
  }

  /** The browser's `localStorage` entry under the key 'workouts'. */
  class Storage {
    /** The parsed stored list, or None when the key is absent. */
    var saved: Option<seq<Workout>>

    constructor (saved: Option<seq<Workout>>)
      ensures this.saved == saved
    {
      this.saved := saved;
    }
  }

  class App {
    /** The storage the app reads at startup and writes after every append. */
    const store: Storage
    /** `#workouts`: the records of this session, oldest first. */
    var workouts: seq<Workout>

    /** `new App()`: starts with no records, then runs the startup load. */
    constructor (store: Storage)
      ensures this.store == store
      ensures workouts == if store.saved.Some? && |store.saved.value| > 0 then store.saved.value else []
    {
      this.store := store;
      workouts := [];
      new;
      LoadWorkouts();
    }

    /** `_getWorkouts`: adopts the stored list only when it is present and not empty. */
    method LoadWorkouts()
      modifies this
      ensures store.saved.Some? && |store.saved.value| > 0 ==> workouts == store.saved.value
      ensures store.saved.None? || |store.saved.value| == 0 ==> workouts == old(workouts)
    {
      var data := store.saved;
      if data.Some? && |data.value| > 0 {
        workouts := data.value;
      }
    }

    /** `_saveWorkouts`: writes the whole list over the stored one. */
    method SaveWorkouts()
      modifies store
      ensures store.saved == Some(workouts)
    {
      store.saved := Some(workouts);
    }

    /**
     * `_newWorkout`: on an invalid form, alerts and changes nothing; otherwise
     * appends exactly one new record at the end and saves the list.
     */
    method NewWorkout(input: FormInput, clicked: Coords, date: Date, id: string) returns (alerted: bool)
      modifies this, store
      ensures alerted <==> !Accepts(input)
      ensures alerted ==> workouts == old(workouts) && store.saved == old(store.saved)
      ensures !alerted ==>
        && |workouts| == |old(workouts)| + 1
        && workouts[..|old(workouts)|] == old(workouts)
        && workouts[|old(workouts)|] == MakeWorkout(input, clicked, date, id).value
        && store.saved == Some(workouts)
      ensures AllWellFormed(old(workouts)) ==> AllWellFormed(workouts)
    {
      var made := MakeWorkout(input, clicked, date, id);
      if made.Failure? {
        return true;
      }
      workouts := workouts + [made.value];
      SaveWorkouts();
      alerted := false;
    }

    /**
     * The lookup in `_moveToPopup`: nothing when the click hit no workout
     * element, otherwise the first record whose id is the element's id.
     */
    method FindById(clicked: Option<string>) returns (found: Option<Workout>)
      ensures clicked.None? ==> found.None?
      ensures clicked.Some? ==>
        (found.None? <==> forall i :: 0 <= i < |workouts| ==> workouts[i].id != clicked.value)
      ensures found.Some? ==> clicked.Some?
      ensures found.Some? ==>
        exists i :: (&& 0 <= i < |workouts| && workouts[i] == found.value && workouts[i].id == clicked.value
                     && forall j :: 0 <= j < i ==> workouts[j].id != clicked.value)
    {
      if clicked.None? {
        return None;
      }
      var k := FirstWithId(workouts, clicked.value);
      found := if k < |workouts| then Some(workouts[k]) else None;
    }

    /** `resetApp`: removes the stored list (the page reload is a new `App`). */
    method Reset()
      modifies store
      ensures store.saved.None?
    {
      store.saved := None;
    }
  }

  /** A session as the source's commented-out sample records describe it. */
  method SampleSession()
  {
    var store := new Storage(None);
    var app := new App(store);
    assert app.workouts == [];
    var date := Date(4, 12);
    var run := FormInput(Running, Finite(10.0), Finite(30.0), Finite(200.0), Finite(0.0));
    var alerted := app.NewWorkout(run, Coords(39.0, -12.0), date, "1234567890");
    assert !alerted && |app.workouts| == 1 && app.workouts[0].pace == 3.0;
    var ride := FormInput(Cycling, Finite(5.0), Finite(10.0), Finite(0.0), Finite(30.0));
    alerted := app.NewWorkout(ride, Coords(39.0, -12.0), date, "1234567891");
    assert !alerted && |app.workouts| == 2 && app.workouts[1].speed == 30.0;
    var badRun := run.(cadence := Finite(-1.0));
    alerted := app.NewWorkout(badRun, Coords(39.0, -12.0), date, "1234567892");
    assert alerted && |app.workouts| == 2;
    var saved := app.workouts;
    var reloaded := new App(store);
    assert reloaded.workouts == saved;
    reloaded.Reset();
    var afterReset := new App(store);
    assert afterReset.workouts == [];
  }
}
