/** The Foundation units that the converter screens offer. Each is a static
    member of one `Dimension` subclass (`UnitTemperature.fahrenheit`,
    `UnitLength.feet`, ...), and a measurement can only be converted to a
    unit of the same subclass. */
module Units {

  datatype Dimension = Temperature | Length | Mass | Duration | Speed | Volume

  datatype TemperatureUnit = Fahrenheit | Celsius | Kelvin
  datatype LengthUnit = Inches | Feet | Meters | Centimeters | Miles | Kilometers | Yards
  datatype MassUnit = Grams | Kilograms | Pounds | Ounces
  datatype DurationUnit = Hours | Minutes | Seconds | Milliseconds
  datatype SpeedUnit = MilesPerHour | KilometersPerHour | MetersPerSecond
  datatype VolumeUnit =
    Liters | Gallons | AcreFeet | Bushels | Pints | Quarts | FluidOunces | Centiliters | Milliliters | Cups

  /** A unit together with the `Dimension` subclass it belongs to. */
  datatype Unit =
    | UnitTemperature(temperature: TemperatureUnit)
    | UnitLength(length: LengthUnit)
    | UnitMass(mass: MassUnit)
    | UnitDuration(duration: DurationUnit)
    | UnitSpeed(speed: SpeedUnit)
    | UnitVolume(volume: VolumeUnit)

  function DimensionOf(u: Unit): Dimension {
    match u
    case UnitTemperature(_) => Temperature
    case UnitLength(_) => Length
    case UnitMass(_) => Mass
    case UnitDuration(_) => Duration
    case UnitSpeed(_) => Speed
    case UnitVolume(_) => Volume
  }

  /** Every unit of the row has the dimension of the row's first unit. */
  predicate Homogeneous(row: seq<Unit>) {
    forall i :: 0 <= i < |row| ==> DimensionOf(row[i]) == DimensionOf(row[0])
  }
}
