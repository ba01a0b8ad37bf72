/** The converter form that every conversion screen of the app repeats: a
    category picker over a static registry, an input-unit and an output-unit
    picker that offer the units of the selected category, an amount field and
    a reset action. The screens differ only in their registry, their initial
    values, which controls they show and how they render the result; those
    live in one module per screen. */
module Form {
  import opened Units

  /** The registry shape the form's indexing relies on: at least one category
      name, a unit row for every name the category picker can offer, and every
      row offering at least two units of one dimension whose first two differ,
      so that the category-change handler's `units[0]` and `units[1]` always
      exist and name two different units. */
  predicate WellFormed(names: seq<string>, rows: seq<seq<Unit>>) {
    1 <= |names| <= |rows| &&
    forall k :: 0 <= k < |rows| ==> RowShape(rows[k])
  }

  /** A unit row as the handler needs it. */
  predicate RowShape(row: seq<Unit>) {
    |row| >= 2 && row[0] != row[1] && Homogeneous(row)
  }

  /** What a user can do on a converter screen. Which of these a particular
      screen offers, and when, is decided by that screen. */
  datatype Action =
    | Enter(amount: real)   // typing into the amount field
    | Choose(k: int)        // the "Conversion" category picker
    | From(u: Unit)         // the "Convert from:" picker
    | To(u: Unit)           // the "Convert to:" picker
    | StartOver             // the reset button (after its alert, where there is one)

  /** The values of the form's @State fields. */
  datatype FormState = FormState(input: real, selected: int, inputUnit: Unit, outputUnit: Unit)

  /** The selected category indexes the registry and both selected units come
      from that category's row. */
  predicate InRow(rows: seq<seq<Unit>>, s: FormState) {
    0 <= s.selected < |rows| && s.inputUnit in rows[s.selected] && s.outputUnit in rows[s.selected]
  }

  /** What the controls can produce at all: the category picker lists the
      indices of `names`, the unit pickers list the selected row. */
  predicate Allowed(names: seq<string>, rows: seq<seq<Unit>>, s: FormState, a: Action) {
    match a
    case Enter(_) => true
    case Choose(k) => 0 <= k < |names|
    case From(u) => 0 <= s.selected < |rows| && u in rows[s.selected]
    case To(u) => 0 <= s.selected < |rows| && u in rows[s.selected]
    case StartOver => true
  }

  /** The specification of one action on the shared form, with SwiftUI's
      `onChange` semantics: writing `selectedUnits` runs the handler only when
      the value differs from the old one. The result keeps both units in the
      selected row; a reset always zeroes the amount and the category. */
  function Next(names: seq<string>, rows: seq<seq<Unit>>, s: FormState, a: Action): (r: FormState)
    requires WellFormed(names, rows) && InRow(rows, s) && Allowed(names, rows, s, a)
    ensures InRow(rows, r)
    ensures a.StartOver? ==> r.input == 0.0 && r.selected == 0
    ensures !a.Choose? && !a.StartOver? ==> r.selected == s.selected
  {
    match a
    case Enter(x) => s.(input := x)
    case Choose(k) =>
      if k == s.selected then s
      else s.(selected := k, inputUnit := rows[k][0], outputUnit := rows[k][1])
    case From(u) => s.(inputUnit := u)
    case To(u) => s.(outputUnit := u)
    case StartOver =>
      if s.selected == 0 then s.(input := 0.0)
      else FormState(0.0, 0, rows[0][0], rows[0][1])
  }

  /** Choosing a category either keeps the state (same category) or installs
      exactly that row's default pair; the amount is never touched. */
  lemma ChooseInstallsDefaultPair(names: seq<string>, rows: seq<seq<Unit>>, s: FormState, k: int)
    requires WellFormed(names, rows) && InRow(rows, s) && 0 <= k < |names|
    ensures Next(names, rows, s, Choose(k)).selected == k
    ensures Next(names, rows, s, Choose(k)).input == s.input
    ensures k != s.selected ==>
              (Next(names, rows, s, Choose(k)).inputUnit, Next(names, rows, s, Choose(k)).outputUnit)
              == (rows[k][0], rows[k][1])
    ensures k == s.selected ==> Next(names, rows, s, Choose(k)) == s
  {
  }

  /** A second reset changes nothing: after the first one the category is
      already 0, so the handler does not run again. */
  lemma StartOverIdempotent(names: seq<string>, rows: seq<seq<Unit>>, s: FormState)
    requires WellFormed(names, rows) && InRow(rows, s)
    ensures Next(names, rows, Next(names, rows, s, StartOver), StartOver) == Next(names, rows, s, StartOver)
  {
  }

  class Form {
    /** `conversionTypes`: the names the category picker lists. */
    const names: seq<string>
    /** `unitTypes`: one unit row per category. */
    const rows: seq<seq<Unit>>
    /** `Measurement(value:unit:).converted(to:)` followed by the screen's
        `MeasurementFormatter`; kept uninterpreted. */
    const convert: (real, Unit, Unit) -> string

    /** The @State fields of the screen. */
    var input: real
    var selected: int
    var inputUnit: Unit
    var outputUnit: Unit

    /** The current values of the @State fields. */
    function State(): FormState
      reads this
    {
      FormState(input, selected, inputUnit, outputUnit)
    }

    /** The form's invariant: a well-formed registry, and both selected units
        in the selected category's row. */
    ghost predicate Valid()
      reads this
    {
      WellFormed(names, rows) && InRow(rows, State())
    }

    /** The screen's property initialisers: amount 0, category 0 and the
        screen's own initial pair, which every screen picks from row 0. */
    constructor (names: seq<string>, rows: seq<seq<Unit>>, convert: (real, Unit, Unit) -> string,
                 inputUnit: Unit, outputUnit: Unit)
      requires WellFormed(names, rows) && inputUnit in rows[0] && outputUnit in rows[0]
      ensures Valid()
      ensures this.names == names && this.rows == rows && this.convert == convert
      ensures input == 0.0 && selected == 0
      ensures this.inputUnit == inputUnit && this.outputUnit == outputUnit
    {
      this.names := names;
      this.rows := rows;
      this.convert := convert;
      input := 0.0;
      selected := 0;
      this.inputUnit := inputUnit;
      this.outputUnit := outputUnit;
    }

    /** The `result` computed property: the amount converted from the input
        unit to the output unit and formatted. */
    function Result(): string
      reads this
    {
      convert(input, inputUnit, outputUnit)
    }

    /** The amount text field writes the typed value. */
    method EnterAmount(x: real)
      requires Valid()
      modifies this`input
      ensures Valid() && input == x
      ensures State() == Next(names, rows, old(State()), Enter(x))
    {
      input := x;
    }

    /** The `onChange(of: selectedUnits)` handler: both units become the
        default pair of the newly selected category. */
    method CategoryChanged()
      requires WellFormed(names, rows) && 0 <= selected < |rows|
      modifies this`inputUnit, this`outputUnit
      ensures Valid()
      ensures inputUnit == rows[selected][0] && outputUnit == rows[selected][1]
    {
      var units := rows[selected];
      inputUnit := units[0];
      outputUnit := units[1];
    }

    /** The category picker writes `selectedUnits`; the change handler runs
        only when the value actually changed, so choosing the category that is
        already selected keeps the units the user picked. */
    method SelectCategory(k: int)
      requires Valid() && 0 <= k < |names|
      modifies this`selected, this`inputUnit, this`outputUnit
      ensures Valid() && selected == k
      ensures State() == Next(names, rows, old(State()), Choose(k))
      ensures k != old(selected) ==> inputUnit == rows[k][0] && outputUnit == rows[k][1]
      ensures k == old(selected) ==> inputUnit == old(inputUnit) && outputUnit == old(outputUnit)
    {
      var previous := selected;
      selected := k;
      if selected != previous {
        CategoryChanged();
      }
    }

    /** The "Convert from:" picker; it only offers the selected category's row. */
    method PickInput(u: Unit)
      requires Valid() && u in rows[selected]
      modifies this`inputUnit
      ensures Valid() && inputUnit == u
      ensures State() == Next(names, rows, old(State()), From(u))
    {
      inputUnit := u;
    }

    /** The "Convert to:" picker; it only offers the selected category's row. */
    method PickOutput(u: Unit)
      requires Valid() && u in rows[selected]
      modifies this`outputUnit
      ensures Valid() && outputUnit == u
      ensures State() == Next(names, rows, old(State()), To(u))
    {
      outputUnit := u;
    }

    /** The part of `reset()` every screen shares: the amount back to 0 and the
        category back to 0. The units return to row 0's default pair only when
        the category was not already 0; otherwise the handler does not run and
        the units stay as they were. */
    method Reset()
      requires Valid()
      modifies this`input, this`selected, this`inputUnit, this`outputUnit
      ensures Valid() && input == 0.0 && selected == 0
      ensures State() == Next(names, rows, old(State()), StartOver)
      ensures old(selected) != 0 ==> inputUnit == rows[0][0] && outputUnit == rows[0][1]
      ensures old(selected) == 0 ==> inputUnit == old(inputUnit) && outputUnit == old(outputUnit)
    {
      input := 0.0;
      var previous := selected;
      selected := 0;
      if selected != previous {
        CategoryChanged();
      }
    }

    /** One action the controls allow, dispatched to the control that
        produces it. */
    method Perform(a: Action)
      requires Valid() && Allowed(names, rows, State(), a)
      modifies this`input, this`selected, this`inputUnit, this`outputUnit
      ensures Valid()
      ensures State() == Next(names, rows, old(State()), a)
    {
      match a
      case Enter(x) => EnterAmount(x);
      case Choose(k) => SelectCategory(k);
      case From(u) => PickInput(u);
      case To(u) => PickOutput(u);
      case StartOver => Reset();
    }
  }

  /** In every valid state the two selected units share a dimension, so the
      conversion the result line asks Foundation for is always defined. */
  lemma PairSharesDimension(f: Form)
    requires f.Valid()
    ensures DimensionOf(f.inputUnit) == DimensionOf(f.outputUnit)
  {
  }
}
