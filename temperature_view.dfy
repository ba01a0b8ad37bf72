/** The temperature-only screen: a single unit row and no category picker
    (it is commented out), so the category stays 0 and the change handler
    never runs. */
module TemperatureView {
  import opened Units
  import opened Form

  /** `conversions` */
  const Conversions: seq<string> := ["Temperature"]

  const TemperatureRow: seq<Unit> :=
    [UnitTemperature(Celsius), UnitTemperature(Fahrenheit), UnitTemperature(Kelvin)]

  /** `unitTypes` */
  const UnitTypes: seq<seq<Unit>> := [TemperatureRow]

  /** The registry is the single row [celsius, fahrenheit, kelvin]. */
  lemma RegistryShape()
    ensures UnitTypes == [[UnitTemperature(Celsius), UnitTemperature(Fahrenheit), UnitTemperature(Kelvin)]]
    ensures WellFormed(Conversions, UnitTypes)
  {
  }

  /** The states the screen can reach: its registry, category 0, both units
      in the temperature row. */
  ghost predicate Reachable(f: Form)
    reads f
  {
    f.Valid() && f.names == Conversions && f.rows == UnitTypes && f.selected == 0
  }

  /** The screen as first shown: amount 0, category 0 and (celsius,
      fahrenheit), the first two entries of the row. */
  method Open(convert: (real, Unit, Unit) -> string) returns (f: Form)
    ensures fresh(f) && Reachable(f) && f.convert == convert && f.input == 0.0
    ensures f.inputUnit == UnitTemperature(Celsius) && f.outputUnit == UnitTemperature(Fahrenheit)
    ensures (f.inputUnit, f.outputUnit) == (UnitTypes[0][0], UnitTypes[0][1])
  {
    RegistryShape();
    f := new Form(Conversions, UnitTypes, convert, UnitTemperature(Celsius), UnitTemperature(Fahrenheit));
  }

  /** The result section: always the formatted conversion. */
  function ResultText(f: Form, focused: bool): string
    reads f
  {
    f.Result()
  }

  /** The amount field, the two unit pickers over the selected row and the
      toolbar "Reset"; there is no category picker. */
  predicate Offered(f: Form, a: Action)
    reads f
  {
    !a.Choose? && Allowed(f.names, f.rows, f.State(), a)
  }

  /** One user action. The category is 0 before and after, so
      `unitTypes[selectedUnits]` is always in range and the change handler
      never fires: the units change only through the two unit pickers, and
      `reset()` only zeroes the amount. */
  method Perform(f: Form, a: Action)
    requires Reachable(f) && Offered(f, a)
    modifies f`input, f`selected, f`inputUnit, f`outputUnit
    ensures Reachable(f)
    ensures f.State() == Next(Conversions, UnitTypes, old(f.State()), a)
    ensures a.StartOver? ==> ResultText(f, false) == ResultText(f, true) == f.convert(0.0, f.inputUnit, f.outputUnit)
    ensures f.inputUnit in TemperatureRow && f.outputUnit in TemperatureRow
    ensures !a.From? ==> f.inputUnit == old(f.inputUnit)
    ensures !a.To? ==> f.outputUnit == old(f.outputUnit)
    ensures a.StartOver? ==> f.input == 0.0
  {
    f.Perform(a);
  }
}
