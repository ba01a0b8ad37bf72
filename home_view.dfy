/** The home converter screen: five categories whose rows differ from the
    other screens', an initial pair that is the reverse of row 0's default,
    and a history list that nothing ever fills. */
module HomeView {
  import opened Units
  import opened Form

  /** `HistoryItem`: one saved conversion (its `UUID` identity left out). */
  datatype HistoryItem = HistoryItem(inputAmount: real, inputUnit: Unit, outputUnit: Unit, outputResult: string)

  /** `conversionTypes` */
  const ConversionTypes: seq<string> := ["Temperature", "Distance", "Mass", "Time", "Speed"]

  const TemperatureRow: seq<Unit> :=
    [UnitTemperature(Fahrenheit), UnitTemperature(Celsius), UnitTemperature(Kelvin)]
  const DistanceRow: seq<Unit> :=
    [UnitLength(Feet), UnitLength(Kilometers), UnitLength(Meters), UnitLength(Miles), UnitLength(Yards)]
  const MassRow: seq<Unit> :=
    [UnitMass(Grams), UnitMass(Kilograms), UnitMass(Ounces), UnitMass(Pounds)]
  const TimeRow: seq<Unit> :=
    [UnitDuration(Hours), UnitDuration(Minutes), UnitDuration(Seconds)]
  const SpeedRow: seq<Unit> :=
    [UnitSpeed(MilesPerHour), UnitSpeed(KilometersPerHour)]

  /** `unitTypes` */
  const UnitTypes: seq<seq<Unit>> := [TemperatureRow, DistanceRow, MassRow, TimeRow, SpeedRow]

  /** The initial @State pair. */
  const InitialInputUnit: Unit := UnitTemperature(Celsius)
  const InitialOutputUnit: Unit := UnitTemperature(Fahrenheit)

  /** Five names and five rows, each with a default pair; the Speed row holds
      exactly two units. */
  lemma RegistryShape()
    ensures |ConversionTypes| == 5 && |UnitTypes| == 5 && |UnitTypes[4]| == 2
    ensures WellFormed(ConversionTypes, UnitTypes)
  {
  }

  /** The initial pair (celsius, fahrenheit) lies in row 0 but is the reverse
      of that row's default pair (fahrenheit, celsius). */
  lemma InitialPairReversesDefault()
    ensures InitialInputUnit in UnitTypes[0] && InitialOutputUnit in UnitTypes[0]
    ensures (InitialInputUnit, InitialOutputUnit) == (UnitTypes[0][1], UnitTypes[0][0])
    ensures (InitialInputUnit, InitialOutputUnit) != (UnitTypes[0][0], UnitTypes[0][1])
  {
  }

  /** The screen's state: the converter form and `historyItems`. */
  class Screen {
    const form: Form
    var historyItems: seq<HistoryItem>

    /** The property initialisers: amount 0, Temperature, (celsius,
        fahrenheit) and an empty history. */
    constructor (convert: (real, Unit, Unit) -> string)
      ensures fresh(form) && form.Valid()
      ensures form.names == ConversionTypes && form.rows == UnitTypes && form.convert == convert
      ensures form.input == 0.0 && form.selected == 0
      ensures form.inputUnit == InitialInputUnit && form.outputUnit == InitialOutputUnit
      ensures historyItems == []
    {
      RegistryShape();
      form := new Form(ConversionTypes, UnitTypes, convert, InitialInputUnit, InitialOutputUnit);
      historyItems := [];
    }
  }

  /** A screen holding this registry in a valid state. The history stays
      empty: the only append to it is commented out. */
  ghost predicate Reachable(h: Screen)
    reads h, h.form
  {
    h.form.Valid() && h.form.names == ConversionTypes && h.form.rows == UnitTypes && h.historyItems == []
  }

  /** The result section: always the formatted conversion, with no
      placeholder, focused or not, a zero amount included. */
  function ResultText(f: Form, focused: bool): string
    reads f
  {
    f.Result()
  }

  /** The category picker lists every name, the unit pickers list the selected
      row, and the toolbar "Reset" is always available. */
  predicate Offered(f: Form, a: Action)
    reads f
  {
    Allowed(f.names, f.rows, f.State(), a)
  }

  /** One user action. Choosing a different category installs its default
      pair (`onChange(of: selectedUnits)`). `reset()` sets amount and category to 0; the units
      become (fahrenheit, celsius) if another category was selected and are
      left alone otherwise. No action touches the history. */
  method Perform(h: Screen, a: Action)
    requires Reachable(h) && Offered(h.form, a)
    modifies h.form`input, h.form`selected, h.form`inputUnit, h.form`outputUnit
    ensures Reachable(h)
    ensures h.form.State() == Next(ConversionTypes, UnitTypes, old(h.form.State()), a)
    ensures a.StartOver? ==> ResultText(h.form, false) == ResultText(h.form, true) == h.form.convert(0.0, h.form.inputUnit, h.form.outputUnit)
    ensures a.Choose? ==> h.form.selected == a.k
    ensures a.Choose? && a.k != old(h.form.selected) ==>
              h.form.inputUnit == UnitTypes[a.k][0] && h.form.outputUnit == UnitTypes[a.k][1]
    ensures a.Choose? && a.k == old(h.form.selected) ==>
              h.form.inputUnit == old(h.form.inputUnit) && h.form.outputUnit == old(h.form.outputUnit)
    ensures a.StartOver? ==> h.form.input == 0.0 && h.form.selected == 0
    ensures a.StartOver? && old(h.form.selected) == 0 ==>
              h.form.inputUnit == old(h.form.inputUnit) && h.form.outputUnit == old(h.form.outputUnit)
    ensures a.StartOver? && old(h.form.selected) != 0 ==>
              h.form.inputUnit == UnitTemperature(Fahrenheit) && h.form.outputUnit == UnitTemperature(Celsius)
  {
    h.form.Perform(a);
  }

  /** Open the screen, pick category `k`, then reset: staying on Temperature
      keeps the initial (celsius, fahrenheit), while visiting any other
      category first yields (fahrenheit, celsius), which is not the initial
      pair. The history is still empty. */
  method ChooseThenReset(convert: (real, Unit, Unit) -> string, k: int)
    returns (inputUnit: Unit, outputUnit: Unit, history: seq<HistoryItem>)
    requires 0 <= k < |ConversionTypes|
    ensures k == 0 ==> (inputUnit, outputUnit) == (InitialInputUnit, InitialOutputUnit)
    ensures k != 0 ==> (inputUnit, outputUnit) == (UnitTemperature(Fahrenheit), UnitTemperature(Celsius))
    ensures k != 0 ==> (inputUnit, outputUnit) != (InitialInputUnit, InitialOutputUnit)
    ensures history == []
  {
    var h := new Screen(convert);
    Perform(h, Choose(k));
    Perform(h, StartOver);
    inputUnit, outputUnit, history := h.form.inputUnit, h.form.outputUnit, h.historyItems;
  }
}
