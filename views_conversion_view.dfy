/** The five-category converter screen with a plain "Reset" button: no reset
    counter and no review prompt. */
module ViewsConversionView {
  import opened Units
  import opened Form

  /** `conversionTypes` */
  const ConversionTypes: seq<string> := ["Temperature", "Distance", "Mass", "Time", "Speed"]

  const TemperatureRow: seq<Unit> :=
    [UnitTemperature(Fahrenheit), UnitTemperature(Celsius), UnitTemperature(Kelvin)]
  const DistanceRow: seq<Unit> :=
    [UnitLength(Inches), UnitLength(Feet), UnitLength(Meters), UnitLength(Centimeters),
     UnitLength(Miles), UnitLength(Kilometers)]
  const MassRow: seq<Unit> :=
    [UnitMass(Grams), UnitMass(Kilograms), UnitMass(Pounds), UnitMass(Ounces)]
  const TimeRow: seq<Unit> :=
    [UnitDuration(Hours), UnitDuration(Minutes), UnitDuration(Seconds), UnitDuration(Milliseconds)]
  const SpeedRow: seq<Unit> :=
    [UnitSpeed(MilesPerHour), UnitSpeed(KilometersPerHour), UnitSpeed(MetersPerSecond)]

  /** `unitTypes` */
  const UnitTypes: seq<seq<Unit>> := [TemperatureRow, DistanceRow, MassRow, TimeRow, SpeedRow]

  /** Five names and five rows, each with a default pair. */
  lemma RegistryShape()
    ensures |ConversionTypes| == 5 && |UnitTypes| == 5
    ensures WellFormed(ConversionTypes, UnitTypes)
  {
  }

  /** A form holding this screen's registry, in a valid state. */
  ghost predicate IsScreen(f: Form)
    reads f
  {
    f.Valid() && f.names == ConversionTypes && f.rows == UnitTypes
  }

  /** The screen as first shown: amount 0, Temperature and (fahrenheit,
      celsius), the first two entries of row 0. */
  method Open(convert: (real, Unit, Unit) -> string) returns (f: Form)
    ensures fresh(f) && IsScreen(f) && f.convert == convert
    ensures f.input == 0.0 && f.selected == 0
    ensures f.inputUnit == UnitTemperature(Fahrenheit) && f.outputUnit == UnitTemperature(Celsius)
    ensures (f.inputUnit, f.outputUnit) == (UnitTypes[0][0], UnitTypes[0][1])
  {
    RegistryShape();
    f := new Form(ConversionTypes, UnitTypes, convert, UnitTemperature(Fahrenheit), UnitTemperature(Celsius));
  }

  /** The result section: empty while the amount field has focus, otherwise
      the formatted conversion, a zero amount included. */
  function ResultText(f: Form, focused: bool): string
    reads f
  {
    if focused then "" else f.Result()
  }

  /** The category picker lists every name, the unit pickers list the selected
      row, and "Reset" is always available. */
  predicate Offered(f: Form, a: Action)
    reads f
  {
    Allowed(f.names, f.rows, f.State(), a)
  }

  /** One user action. "Reset" (`reset()`) changes only the amount and the
      category, both to 0, plus the units through the change handler when the
      category was not already 0; every action keeps both units in the
      selected row. */
  method Perform(f: Form, a: Action)
    requires IsScreen(f) && Offered(f, a)
    modifies f`input, f`selected, f`inputUnit, f`outputUnit
    ensures IsScreen(f)
    ensures f.State() == Next(ConversionTypes, UnitTypes, old(f.State()), a)
    ensures a.StartOver? ==> ResultText(f, false) == f.convert(0.0, f.inputUnit, f.outputUnit)
    ensures ResultText(f, true) == ""
    ensures f.inputUnit in UnitTypes[f.selected] && f.outputUnit in UnitTypes[f.selected]
    ensures a.StartOver? ==> f.input == 0.0 && f.selected == 0
    ensures a.StartOver? && old(f.selected) == 0 ==>
              f.inputUnit == old(f.inputUnit) && f.outputUnit == old(f.outputUnit)
    ensures a.StartOver? && old(f.selected) != 0 ==>
              f.inputUnit == UnitTemperature(Fahrenheit) && f.outputUnit == UnitTemperature(Celsius)
  {
    f.Perform(a);
  }
}
