/** The six-category converter screen with a "Start Over" button that counts
    completed resets in storage and may prompt for an App Store review. */
module MainContentView {
  import opened Units
  import opened Form
  import opened AppStorage
  import ReviewPrompt

  /** `conversionTypes` */
  const ConversionTypes: seq<string> := ["Temperature", "Distance", "Mass", "Time", "Speed", "Volume"]

  const TemperatureRow: seq<Unit> :=
    [UnitTemperature(Fahrenheit), UnitTemperature(Celsius), UnitTemperature(Kelvin)]
  const DistanceRow: seq<Unit> :=
    [UnitLength(Inches), UnitLength(Feet), UnitLength(Meters), UnitLength(Centimeters),
     UnitLength(Miles), UnitLength(Kilometers)]
  const MassRow: seq<Unit> :=
    [UnitMass(Grams), UnitMass(Kilograms), UnitMass(Pounds), UnitMass(Ounces)]
  const TimeRow: seq<Unit> :=
    [UnitDuration(Hours), UnitDuration(Minutes), UnitDuration(Seconds), UnitDuration(Milliseconds)]
  const SpeedRow: seq<Unit> :=
    [UnitSpeed(MilesPerHour), UnitSpeed(KilometersPerHour), UnitSpeed(MetersPerSecond)]
  const VolumeRow: seq<Unit> :=
    [UnitVolume(Liters), UnitVolume(Gallons), UnitVolume(AcreFeet), UnitVolume(Bushels),
     UnitVolume(Pints), UnitVolume(Quarts), UnitVolume(FluidOunces), UnitVolume(Centiliters),
     UnitVolume(Milliliters), UnitVolume(Cups)]

  /** `unitTypes` */
  const UnitTypes: seq<seq<Unit>> := [TemperatureRow, DistanceRow, MassRow, TimeRow, SpeedRow, VolumeRow]

  /** The @AppStorage default of both `currentAppVersion` and
      `lastVersionPromptedForReview`. */
  const AppVersionDefault: string := "1.2.2"

  /** Six names and six rows, so the category picker's every choice indexes a
      row, and `units[0]`, `units[1]` exist in each. */
  lemma RegistryShape()
    ensures |ConversionTypes| == 6 && |UnitTypes| == 6
    ensures WellFormed(ConversionTypes, UnitTypes)
  {
  }

  /** A form holding this screen's registry, in a valid state. */
  ghost predicate IsScreen(f: Form)
    reads f
  {
    f.Valid() && f.names == ConversionTypes && f.rows == UnitTypes
  }

  /** The screen as first shown on a fresh install: amount 0, Temperature, and
      the pair (fahrenheit, celsius), which is exactly the first two entries of
      the Temperature row; both stored versions hold the same default. */
  method FirstLaunch(convert: (real, Unit, Unit) -> string) returns (f: Form, d: Defaults)
    ensures fresh(f) && fresh(d) && IsScreen(f) && f.convert == convert
    ensures f.input == 0.0 && f.selected == 0
    ensures f.inputUnit == UnitTemperature(Fahrenheit) && f.outputUnit == UnitTemperature(Celsius)
    ensures (f.inputUnit, f.outputUnit) == (UnitTypes[0][0], UnitTypes[0][1])
    ensures d.processCompletedCount == 0
    ensures d.currentAppVersion == d.lastVersionPromptedForReview == AppVersionDefault
  {
    RegistryShape();
    f := new Form(ConversionTypes, UnitTypes, convert, UnitTemperature(Fahrenheit), UnitTemperature(Celsius));
    d := new Defaults(AppVersionDefault, AppVersionDefault);
  }

  /** The result section: "--" while the amount field has focus or the amount
      is 0, the formatted conversion otherwise. */
  function ResultText(f: Form, focused: bool): string
    reads f
  {
    if focused then "--"
    else if f.input == 0.0 then "--"
    else f.Result()
  }

  /** "Start Over" is enabled exactly when the amount is not 0; whenever it is
      disabled, the unfocused result line shows the placeholder. */
  function StartOverEnabled(f: Form): (enabled: bool)
    reads f
    ensures enabled <==> f.input != 0.0
    ensures !enabled ==> ResultText(f, false) == "--"
  {
    !(f.input == 0.0)
  }

  /** `reset()`: amount and category back to 0 (the change handler restoring
      (fahrenheit, celsius) only if the category was not already 0), one more
      completed process in storage, then the review check. */
  method Reset(f: Form, d: Defaults) returns (prompted: bool)
    requires IsScreen(f)
    modifies f`input, f`selected, f`inputUnit, f`outputUnit
    modifies d`processCompletedCount, d`lastVersionPromptedForReview
    ensures IsScreen(f) && f.input == 0.0 && f.selected == 0
    ensures f.State() == Next(ConversionTypes, UnitTypes, old(f.State()), StartOver)
    ensures ResultText(f, false) == "--" && ResultText(f, true) == "--"
    ensures old(f.selected) != 0 ==> f.inputUnit == UnitTemperature(Fahrenheit) && f.outputUnit == UnitTemperature(Celsius)
    ensures old(f.selected) == 0 ==> f.inputUnit == old(f.inputUnit) && f.outputUnit == old(f.outputUnit)
    ensures d.processCompletedCount == old(d.processCompletedCount) + 1
    ensures prompted <==> d.processCompletedCount >= 3 && d.currentAppVersion != old(d.lastVersionPromptedForReview)
    ensures d.lastVersionPromptedForReview == if prompted then d.currentAppVersion else old(d.lastVersionPromptedForReview)
  {
    f.Reset();
    d.processCompletedCount := d.processCompletedCount + 1;
    prompted := ReviewPrompt.ExperiencedReview(d);
  }

  /** What the screen lets the user do in the current state: the category
      picker lists every name, the unit pickers list the selected row, and
      "Start Over" is disabled while the amount is 0. */
  predicate Offered(f: Form, a: Action)
    reads f
  {
    Allowed(f.names, f.rows, f.State(), a) && (a.StartOver? ==> StartOverEnabled(f))
  }

  /** One user action. Every action keeps the form's invariant; only a
      confirmed "Start Over" touches storage; and since nothing on this screen
      writes `currentAppVersion`, a store whose two versions agree (as the
      defaults do) keeps them agreeing and never prompts. */
  method Perform(f: Form, d: Defaults, a: Action) returns (prompted: bool)
    requires IsScreen(f) && Offered(f, a)
    modifies f`input, f`selected, f`inputUnit, f`outputUnit
    modifies d`processCompletedCount, d`lastVersionPromptedForReview
    ensures IsScreen(f)
    ensures f.State() == Next(ConversionTypes, UnitTypes, old(f.State()), a)
    ensures a.StartOver? ==> ResultText(f, false) == "--"
    ensures a.Enter? && a.amount != 0.0 ==> ResultText(f, false) == f.convert(a.amount, f.inputUnit, f.outputUnit)
    ensures d.currentAppVersion == old(d.currentAppVersion)
    ensures !a.StartOver? ==> !prompted && d.processCompletedCount == old(d.processCompletedCount)
    ensures old(d.currentAppVersion == d.lastVersionPromptedForReview) ==>
              !prompted && d.currentAppVersion == d.lastVersionPromptedForReview
  {
    if a.StartOver? {
      prompted := Reset(f, d);
    } else {
      prompted := false;
      f.Perform(a);
    }
  }

  /** On a fresh install: pick a Temperature unit as output, type a non-zero
      amount, then confirm "Start Over". The category was already 0, so the
      change handler does not run and the picked pair survives the reset; and
      with the default versions no review is prompted. */
  method PickThenStartOver(convert: (real, Unit, Unit) -> string, u: Unit, x: real)
    returns (inputUnit: Unit, outputUnit: Unit, input: real, prompted: bool)
    requires u in TemperatureRow && x != 0.0
    ensures (inputUnit, outputUnit) == (UnitTemperature(Fahrenheit), u)
    ensures input == 0.0
    ensures !prompted
  {
    var f, d := FirstLaunch(convert);
    var p1 := Perform(f, d, To(u));
    var p2 := Perform(f, d, Enter(x));
    prompted := Perform(f, d, StartOver);
    inputUnit, outputUnit, input := f.inputUnit, f.outputUnit, f.input;
  }
}
