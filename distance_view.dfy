/** The distance screen: three unit rows (Length, Mass, Duration; a
    temperature row is commented out) but no category picker, so only the
    Length row is ever offered. */
module DistanceView {
  import opened Units
  import opened Form

  /** `conversions` */
  const Conversions: seq<string> := ["Length"]

  const LengthRow: seq<Unit> :=
    [UnitLength(Feet), UnitLength(Kilometers), UnitLength(Meters), UnitLength(Miles), UnitLength(Yards)]
  const MassRow: seq<Unit> :=
    [UnitMass(Grams), UnitMass(Kilograms), UnitMass(Ounces), UnitMass(Pounds)]
  const DurationRow: seq<Unit> :=
    [UnitDuration(Hours), UnitDuration(Minutes), UnitDuration(Seconds)]

  /** `unitTypes` */
  const UnitTypes: seq<seq<Unit>> := [LengthRow, MassRow, DurationRow]

  /** The initial @State pair. */
  const InitialInputUnit: Unit := UnitLength(Kilometers)
  const InitialOutputUnit: Unit := UnitLength(Miles)

  /** Three rows, each with a default pair. */
  lemma RegistryShape()
    ensures |UnitTypes| == 3 && DimensionOf(UnitTypes[0][0]) == Length
    ensures WellFormed(Conversions, UnitTypes)
  {
  }

  /** The initial pair (kilometers, miles) lies in the Length row but is not
      its first two entries (feet, kilometers). */
  lemma InitialPairNotRowDefault()
    ensures InitialInputUnit in UnitTypes[0] && InitialOutputUnit in UnitTypes[0]
    ensures (InitialInputUnit, InitialOutputUnit) != (UnitTypes[0][0], UnitTypes[0][1])
  {
  }

  /** The states the screen can reach: its registry, category 0, both units
      in the Length row. */
  ghost predicate Reachable(f: Form)
    reads f
  {
    f.Valid() && f.names == Conversions && f.rows == UnitTypes && f.selected == 0
  }

  /** The screen as first shown: amount 0, category 0, (kilometers, miles). */
  method Open(convert: (real, Unit, Unit) -> string) returns (f: Form)
    ensures fresh(f) && Reachable(f) && f.convert == convert && f.input == 0.0
    ensures f.inputUnit == InitialInputUnit && f.outputUnit == InitialOutputUnit
  {
    RegistryShape();
    InitialPairNotRowDefault();
    f := new Form(Conversions, UnitTypes, convert, InitialInputUnit, InitialOutputUnit);
  }

  /** The result section: always the formatted conversion. */
  function ResultText(f: Form, focused: bool): string
    reads f
  {
    f.Result()
  }

  /** The amount field, the two unit pickers over the selected row and the
      toolbar "Reset"; there is no category picker. */
  predicate Offered(f: Form, a: Action)
    reads f
  {
    !a.Choose? && Allowed(f.names, f.rows, f.State(), a)
  }

  /** One user action. The category is 0 before and after, so both units stay
      in the Length row; the change handler cannot fire, so `reset()` zeroes
      the amount and leaves the units alone. */
  method Perform(f: Form, a: Action)
    requires Reachable(f) && Offered(f, a)
    modifies f`input, f`selected, f`inputUnit, f`outputUnit
    ensures Reachable(f)
    ensures f.State() == Next(Conversions, UnitTypes, old(f.State()), a)
    ensures a.StartOver? ==> ResultText(f, false) == ResultText(f, true) == f.convert(0.0, f.inputUnit, f.outputUnit)
    ensures f.inputUnit in LengthRow && f.outputUnit in LengthRow
    ensures !a.From? ==> f.inputUnit == old(f.inputUnit)
    ensures !a.To? ==> f.outputUnit == old(f.outputUnit)
    ensures a.StartOver? ==> f.input == 0.0
  {
    f.Perform(a);
  }
}
