/**
 * Workout records: the `Workout` base class and its `Running` and `Cycling`
 * subclasses, written as one tagged datatype. The derived fields (pace or
 * speed, and the description) are computed once, when the record is built.
 */
module Workouts {
  import opened Wrappers
  import opened Decimal

  /** The two kinds of workout; the source keeps the kind in the string field `type`. */
  datatype Kind = Running | Cycling

  /** `[lat, lng]` of the map click that placed the workout. */
  datatype Coords = Coords(lat: real, lng: real)

  /** `Date.prototype.getMonth()`: 0 for January up to 11 for December. */
  type MonthIndex = m: nat | m < 12

  /** `Date.prototype.getDate()`: the day of the month. */
  type DayOfMonth = d: nat | 1 <= d <= 31 witness 1

  /** The creation date, as far as the record uses it. */
  datatype Date = Date(month: MonthIndex, day: DayOfMonth)

  /** The `months` table: month names indexed by `getMonth()`. */
  const Months: seq<string> := ["January", "February", "March", "April", "May", "June",
                                "July", "August", "September", "October", "November", "December"]

  /**
   * One logged workout. Both variants share coords, distance (km), duration
   * (min), date, id and description; a run adds cadence and its pace
   * (min/km), a ride adds elevation gain and its speed (km/h).
   */
  datatype Workout =
    | RunningWorkout(coords: Coords, distance: real, duration: real, date: Date, id: string,
                     description: string, cadence: real, pace: real)
    | CyclingWorkout(coords: Coords, distance: real, duration: real, date: Date, id: string,
                     description: string, elevationGain: real, speed: real)
  {
    /** The kind discriminant. */
    function Kind(): Kind {
      if RunningWorkout? then Running else Cycling
    }
  }

  /** The value of the `type` field. */
  function TypeName(k: Kind): (r: string)
    ensures |r| > 0 && 'a' <= r[0] <= 'z'
  {
    match k
    case Running => "running"
    case Cycling => "cycling"
  }

  /** `toUpperCase` on the letters the type names use. */
  function UpperCase(c: char): char {
    if 'a' <= c <= 'z' then (c as int - 32) as char else c
  }

  /** The first character upper-cased, the rest as it is. */
  function Capitalize(s: string): string
    requires s != []
  {
    [UpperCase(s[0])] + s[1..]
  }

  /** The label a description starts with: the capitalized type and " on ". */
  function Label(k: Kind): (r: string)
    ensures r == (if k == Running then "Running on " else "Cycling on ")
  {
    Capitalize(TypeName(k)) + " on "
  }

  /** `_setDescription`: "<Type> on <Month> <day>". */
  function Description(k: Kind, d: Date): (r: string)
    ensures |r| > 11 && r[..11] == Label(k)
  {
    Label(k) + Months[d.month] + " " + NatToString(d.day)
  }

  /** `calcPace`: minutes per kilometre. */
  function Pace(distance: real, duration: real): (r: real)
    requires distance != 0.0
    ensures r * distance == duration
    ensures distance > 0.0 && duration > 0.0 ==> r > 0.0
  {
    duration / distance
  }

  /** `calcSpeed`: kilometres per hour, the duration being in minutes. */
  function Speed(distance: real, duration: real): (r: real)
    requires duration != 0.0
    ensures r * duration == distance * 60.0
    ensures distance > 0.0 && duration > 0.0 ==> r > 0.0
  {
    distance / (duration / 60.0)
  }

  /** Pace and speed of the same distance and duration are the two ends of one conversion. */
  lemma SpeedTimesPace(distance: real, duration: real)
    requires distance != 0.0 && duration != 0.0
    ensures Speed(distance, duration) * Pace(distance, duration) == 60.0
  {
  }

  /** What a constructor establishes: the derived fields agree with the raw ones. */
  predicate WellFormed(w: Workout) {
    && w.description == Description(w.Kind(), w.date)
    && match w
       case RunningWorkout(_, distance, duration, _, _, _, _, pace) =>
         distance != 0.0 && pace == Pace(distance, duration)
       case CyclingWorkout(_, distance, duration, _, _, _, _, speed) =>
         duration != 0.0 && speed == Speed(distance, duration)
  }

  /** `new Running(coords, distance, duration, cadence)`, with the clock's date and id passed in. */
  function NewRunning(coords: Coords, distance: real, duration: real, cadence: real,
                      date: Date, id: string): (w: Workout)
    requires distance != 0.0
    ensures w.Kind() == Running && WellFormed(w)
    ensures w.coords == coords && w.distance == distance && w.duration == duration
    ensures w.cadence == cadence && w.date == date && w.id == id
    ensures w.pace * distance == duration
  {
    RunningWorkout(coords, distance, duration, date, id, Description(Running, date),
                   cadence, Pace(distance, duration))
  }

  /** `new Cycling(coords, distance, duration, elevationGain)`, with the clock's date and id passed in. */
  function NewCycling(coords: Coords, distance: real, duration: real, elevationGain: real,
                      date: Date, id: string): (w: Workout)
    requires duration != 0.0
    ensures w.Kind() == Cycling && WellFormed(w)
    ensures w.coords == coords && w.distance == distance && w.duration == duration
    ensures w.elevationGain == elevationGain && w.date == date && w.id == id
    ensures w.speed * duration == distance * 60.0
  {
    CyclingWorkout(coords, distance, duration, date, id, Description(Cycling, date),
                   elevationGain, Speed(distance, duration))
  }

  // ---------------------------------------------------------------------
  // Reading a description back: the inverse of Description.

  /** The index of the first space in `s`, or `|s|` when there is none. */
  function FirstSpace(s: string): (k: nat)
    ensures k <= |s|
    ensures forall j :: 0 <= j < k ==> s[j] != ' '
    ensures k < |s| ==> s[k] == ' '
  {
    if s == [] || s[0] == ' ' then 0 else 1 + FirstSpace(s[1..])
  }

  /** The index of `name` in the months table at or after `from`, if any. */
  function MonthFrom(name: string, from: nat): (r: Option<MonthIndex>)
    requires from <= 12
    ensures r.Some? ==> from <= r.value && Months[r.value] == name
    ensures r.None? ==> forall m :: from <= m < 12 ==> Months[m] != name
    decreases 12 - from
  {
    if from == 12 then None
    else if Months[from] == name then Some(from)
    else MonthFrom(name, from + 1)
  }

  /** Recovers kind, month and day from a description, or None for any other text. */
  function ParseDescription(s: string): Option<(Kind, Date)> {
    if |s| < 11 then None
    else
      var kind := if s[..11] == Label(Running) then Some(Running)
                  else if s[..11] == Label(Cycling) then Some(Cycling)
                  else None;
      var rest := s[11..];
      var sp := FirstSpace(rest);
      if kind.None? || sp == |rest| then None
      else
        var month := MonthFrom(rest[..sp], 0);
        var dayText := rest[sp + 1..];
        if month.None? || dayText == [] || !AllDigits(dayText) then None
        else
          var day := ValueOf(dayText);
          if 1 <= day <= 31 then Some((kind.value, Date(month.value, day))) else None
  }

  lemma MonthNamesDistinct(i: MonthIndex, j: MonthIndex)
    requires Months[i] == Months[j]
    ensures i == j
  {
  }

  lemma MonthNamesHaveNoSpace(m: MonthIndex, j: nat)
    requires j < |Months[m]|
    ensures Months[m][j] != ' '
  {
  }

  /** Every description reads back as the kind and date it was made from. */
  lemma {:induction false} ParseDescriptionOfDescription(k: Kind, d: Date)
    ensures ParseDescription(Description(k, d)) == Some((k, d))
  {
    var s := Description(k, d);
    var name, dayText := Months[d.month], NatToString(d.day);
    var rest := s[11..];
    assert rest == name + " " + dayText;
    var sp := FirstSpace(rest);
    forall j | 0 <= j < |name| ensures rest[j] != ' ' {
      MonthNamesHaveNoSpace(d.month, j);
    }
    assert rest[|name|] == ' ';
    assert sp == |name|;
    assert rest[..sp] == name;
    var month := MonthFrom(name, 0);
    MonthNamesDistinct(month.value, d.month);
    assert rest[sp + 1..] == dayText;
    ValueOfNatToString(d.day);
    assert Label(Running) != Label(Cycling);
  }

  /** Records of different kinds or dates never share a description. */
  lemma DescriptionInjective(k1: Kind, d1: Date, k2: Kind, d2: Date)
    requires Description(k1, d1) == Description(k2, d2)
    ensures k1 == k2 && d1 == d2
  {
    ParseDescriptionOfDescription(k1, d1);
    ParseDescriptionOfDescription(k2, d2);
  }
}
