/** Units of measure: symbols, dimensions and exact factors to SI. */
module Units {
  import opened Quantities
  import opened CanonicalText

  datatype Unit =
    | One | Kilogram | Gram | PoundMass | Ounce
    | Newton | PoundForce | Meter | Millimeter | Centimeter
    | Inch | Foot | Kilometer | NauticalMile | SquareMeter
    | SquareCentimeter | SquareDecimeter | SquareInch | SquareFoot | MeterPerSecond
    | KilometerPerHour | Knot | MilePerHour | FootPerSecond | KilogramPerCubicMeter
    | SlugPerCubicFoot | NewtonPerSquareMeter | PoundForcePerSquareFoot | KilogramPerSquareMeter | GramPerSquareDecimeter
    | OuncePerSquareFoot | Radian | Degree | Watt | Kilowatt
    | Horsepower | Joule | WattHour | KilowattHour | Second
    | Minute | Hour | Ampere | Milliampere | Volt
    | Millivolt | Coulomb | AmpereHour | MilliampereHour | RevolutionPerSecond
    | RevolutionPerMinute | PascalSecond | MicropascalSecond | KilogramMeter | GramMillimeter

  /** The printed symbol. */
  function SymbolOf(u: Unit): string {
    match u
    case One => "1"
    case Kilogram => "kg"
    case Gram => "g"
    case PoundMass => "lb"
    case Ounce => "oz"
    case Newton => "N"
    case PoundForce => "lbf"
    case Meter => "m"
    case Millimeter => "mm"
    case Centimeter => "cm"
    case Inch => "in"
    case Foot => "ft"
    case Kilometer => "km"
    case NauticalMile => "NM"
    case SquareMeter => "m^2"
    case SquareCentimeter => "cm^2"
    case SquareDecimeter => "dm^2"
    case SquareInch => "in^2"
    case SquareFoot => "ft^2"
    case MeterPerSecond => "m/s"
    case KilometerPerHour => "km/h"
    case Knot => "kn"
    case MilePerHour => "mph"
    case FootPerSecond => "ft/s"
    case KilogramPerCubicMeter => "kg/m^3"
    case SlugPerCubicFoot => "slug/ft^3"
    case NewtonPerSquareMeter => "N/m^2"
    case PoundForcePerSquareFoot => "lbf/ft^2"
    case KilogramPerSquareMeter => "kg/m^2"
    case GramPerSquareDecimeter => "g/dm^2"
    case OuncePerSquareFoot => "oz/ft^2"
    case Radian => "rad"
    case Degree => "deg"
    case Watt => "W"
    case Kilowatt => "kW"
    case Horsepower => "hp"
    case Joule => "J"
    case WattHour => "Wh"
    case KilowattHour => "kWh"
    case Second => "s"
    case Minute => "min"
    case Hour => "h"
    case Ampere => "A"
    case Milliampere => "mA"
    case Volt => "V"
    case Millivolt => "mV"
    case Coulomb => "C"
    case AmpereHour => "Ah"
    case MilliampereHour => "mAh"
    case RevolutionPerSecond => "rev/s"
    case RevolutionPerMinute => "rpm"
    case PascalSecond => "Pa*s"
    case MicropascalSecond => "uPa*s"
    case KilogramMeter => "kg*m"
    case GramMillimeter => "g*mm"
  }

  function DimensionOf(u: Unit): Dimension {
    match u
    case One => Dimensionless
    case Kilogram | Gram | PoundMass | Ounce => DimMass
    case Newton | PoundForce => DimForce
    case Meter | Millimeter | Centimeter | Inch | Foot | Kilometer | NauticalMile => DimLength
    case SquareMeter | SquareCentimeter | SquareDecimeter | SquareInch | SquareFoot => DimArea
    case MeterPerSecond | KilometerPerHour | Knot | MilePerHour | FootPerSecond => DimSpeed
    case KilogramPerCubicMeter | SlugPerCubicFoot => DimDensity
    case NewtonPerSquareMeter | PoundForcePerSquareFoot => DimForcePerArea
    case KilogramPerSquareMeter | GramPerSquareDecimeter | OuncePerSquareFoot => DimMassPerArea
    case Radian | Degree => DimAngle
    case Watt | Kilowatt | Horsepower => DimPower
    case Joule | WattHour | KilowattHour => DimEnergy
    case Second | Minute | Hour => DimTime
    case Ampere | Milliampere => DimCurrent
    case Volt | Millivolt => DimVoltage
    case Coulomb | AmpereHour | MilliampereHour => DimCharge
    case RevolutionPerSecond | RevolutionPerMinute => DimRotationRate
    case PascalSecond | MicropascalSecond => DimDynamicViscosity
    case KilogramMeter | GramMillimeter => DimMassMoment
  }

  /** A value in the unit times this is the value in SI. */
  function FactorOf(p: Platform, u: Unit): real {
    match u
    case One => 1.0
    case Kilogram => 1.0
    case Gram => 0.001
    case PoundMass => 0.45359237
    case Ounce => 0.45359237 / 16.0
    case Newton => 1.0
    case PoundForce => 4.4482216152605
    case Meter => 1.0
    case Millimeter => 0.001
    case Centimeter => 0.01
    case Inch => 0.0254
    case Foot => 0.3048
    case Kilometer => 1000.0
    case NauticalMile => 1852.0
    case SquareMeter => 1.0
    case SquareCentimeter => 0.0001
    case SquareDecimeter => 0.01
    case SquareInch => 0.0254 * 0.0254
    case SquareFoot => 0.3048 * 0.3048
    case MeterPerSecond => 1.0
    case KilometerPerHour => 1000.0 / 3600.0
    case Knot => 1852.0 / 3600.0
    case MilePerHour => 1609.344 / 3600.0
    case FootPerSecond => 0.3048
    case KilogramPerCubicMeter => 1.0
    case SlugPerCubicFoot => (4.4482216152605 / 0.3048) / (0.3048 * 0.3048 * 0.3048)
    case NewtonPerSquareMeter => 1.0
    case PoundForcePerSquareFoot => 4.4482216152605 / (0.3048 * 0.3048)
    case KilogramPerSquareMeter => 1.0
    case GramPerSquareDecimeter => 0.001 / 0.01
    case OuncePerSquareFoot => (0.45359237 / 16.0) / (0.3048 * 0.3048)
    case Radian => 1.0
    case Degree => p.pi / 180.0
    case Watt => 1.0
    case Kilowatt => 1000.0
    case Horsepower => 745.6998715822702
    case Joule => 1.0
    case WattHour => 3600.0
    case KilowattHour => 3600000.0
    case Second => 1.0
    case Minute => 60.0
    case Hour => 3600.0
    case Ampere => 1.0
    case Milliampere => 0.001
    case Volt => 1.0
    case Millivolt => 0.001
    case Coulomb => 1.0
    case AmpereHour => 3600.0
    case MilliampereHour => 3.6
    case RevolutionPerSecond => 1.0
    case RevolutionPerMinute => 1.0 / 60.0
    case PascalSecond => 1.0
    case MicropascalSecond => 0.000001
    case KilogramMeter => 1.0
    case GramMillimeter => 0.001 * 0.001
  }

  /** The supported units of a dimension, its SI unit first. */
  function UnitsOf(d: Dimension): seq<Unit> {
    match d
    case Dimensionless => [One]
    case DimMass => [Kilogram, Gram, PoundMass, Ounce]
    case DimForce => [Newton, PoundForce]
    case DimLength => [Meter, Millimeter, Centimeter, Inch, Foot, Kilometer, NauticalMile]
    case DimArea => [SquareMeter, SquareCentimeter, SquareDecimeter, SquareInch, SquareFoot]
    case DimSpeed => [MeterPerSecond, KilometerPerHour, Knot, MilePerHour, FootPerSecond]
    case DimDensity => [KilogramPerCubicMeter, SlugPerCubicFoot]
    case DimForcePerArea => [NewtonPerSquareMeter, PoundForcePerSquareFoot]
    case DimMassPerArea => [KilogramPerSquareMeter, GramPerSquareDecimeter, OuncePerSquareFoot]
    case DimAngle => [Radian, Degree]
    case DimPower => [Watt, Kilowatt, Horsepower]
    case DimEnergy => [Joule, WattHour, KilowattHour]
    case DimTime => [Second, Minute, Hour]
    case DimCurrent => [Ampere, Milliampere]
    case DimVoltage => [Volt, Millivolt]
    case DimCharge => [Coulomb, AmpereHour, MilliampereHour]
    case DimRotationRate => [RevolutionPerSecond, RevolutionPerMinute]
    case DimDynamicViscosity => [PascalSecond, MicropascalSecond]
    case DimMassMoment => [KilogramMeter, GramMillimeter]
  }

  function MechanicalUnits(): seq<Unit> {
    UnitsOf(Dimensionless) + UnitsOf(DimMass) + UnitsOf(DimForce) + UnitsOf(DimLength)
    + UnitsOf(DimArea) + UnitsOf(DimSpeed) + UnitsOf(DimDensity)
    + UnitsOf(DimForcePerArea) + UnitsOf(DimMassPerArea) + UnitsOf(DimAngle)
  }

  function ElectricalUnits(): seq<Unit> {
    UnitsOf(DimPower) + UnitsOf(DimEnergy) + UnitsOf(DimTime) + UnitsOf(DimCurrent)
    + UnitsOf(DimVoltage) + UnitsOf(DimCharge) + UnitsOf(DimRotationRate)
    + UnitsOf(DimDynamicViscosity) + UnitsOf(DimMassMoment)
  }

  /** Every supported unit, in table order. */
  function AllUnits(): seq<Unit> {
    MechanicalUnits() + ElectricalUnits()
  }

  /** The unit a dimension is stored in. */
  function SIUnit(d: Dimension): Unit {
    match d
    case Dimensionless => One
    case DimMass => Kilogram
    case DimForce => Newton
    case DimLength => Meter
    case DimArea => SquareMeter
    case DimSpeed => MeterPerSecond
    case DimDensity => KilogramPerCubicMeter
    case DimForcePerArea => NewtonPerSquareMeter
    case DimMassPerArea => KilogramPerSquareMeter
    case DimAngle => Radian
    case DimPower => Watt
    case DimEnergy => Joule
    case DimDynamicViscosity => PascalSecond
    case DimMassMoment => KilogramMeter
    case DimTime => Second
    case DimCurrent => Ampere
    case DimVoltage => Volt
    case DimCharge => Coulomb
    case DimRotationRate => RevolutionPerSecond
  }

  function FirstWith(units: seq<Unit>, symbol: string): Option<Unit> {
    if units == [] then None
    else if SymbolOf(units[0]) == symbol then Some(units[0])
    else FirstWith(units[1..], symbol)
  }

  /** The unit with the symbol; an unrecognised one never defaults to SI. */
  function ParseUnit(symbol: string): Option<Unit> {
    if symbol == "" then None else FirstWith(AllUnits(), symbol)
  }

  function NewQuantity(p: Platform, value: real, u: Unit): Quantity {
    Quantity(value * FactorOf(p, u), DimensionOf(u))
  }

  /** The quantity expressed in a unit of its own dimension. */
  function In(p: Platform, q: Quantity, u: Unit): Option<real> {
    if DimensionOf(u) != q.dim || FactorOf(p, u) == 0.0 then None else Some(q.si / FactorOf(p, u))
  }

  lemma OnlyMasses(u: Unit, v: Unit)
    requires DimensionOf(u) in {Dimensionless, DimMass} && SymbolOf(u) == SymbolOf(v)
    ensures u == v
  {
  }

  lemma OnlyForces(u: Unit, v: Unit)
    requires DimensionOf(u) in {DimForce, DimForcePerArea, DimDensity} && SymbolOf(u) == SymbolOf(v)
    ensures u == v
  {
  }

  lemma OnlyLengths(u: Unit, v: Unit)
    requires DimensionOf(u) in {DimLength} && SymbolOf(u) == SymbolOf(v)
    ensures u == v
  {
  }

  lemma OnlyAreas(u: Unit, v: Unit)
    requires DimensionOf(u) in {DimArea} && SymbolOf(u) == SymbolOf(v)
    ensures u == v
  {
  }

  lemma OnlyLoadings(u: Unit, v: Unit)
    requires DimensionOf(u) in {DimMassPerArea, DimMassMoment, DimAngle} && SymbolOf(u) == SymbolOf(v)
    ensures u == v
  {
  }

  lemma OnlySpeeds(u: Unit, v: Unit)
    requires DimensionOf(u) in {DimSpeed} && SymbolOf(u) == SymbolOf(v)
    ensures u == v
  {
  }

  lemma OnlyPowers(u: Unit, v: Unit)
    requires DimensionOf(u) in {DimPower, DimEnergy} && SymbolOf(u) == SymbolOf(v)
    ensures u == v
  {
  }

  lemma OnlyTimes(u: Unit, v: Unit)
    requires DimensionOf(u) in {DimTime, DimRotationRate} && SymbolOf(u) == SymbolOf(v)
    ensures u == v
  {
  }

  lemma OnlyCurrents(u: Unit, v: Unit)
    requires DimensionOf(u) in {DimCurrent, DimVoltage} && SymbolOf(u) == SymbolOf(v)
    ensures u == v
  {
  }

  lemma OnlyCharges(u: Unit, v: Unit)
    requires DimensionOf(u) in {DimCharge, DimDynamicViscosity} && SymbolOf(u) == SymbolOf(v)
    ensures u == v
  {
  }

  /** No two units print one symbol. */
  lemma SymbolsAreUnique(u: Unit, v: Unit)
    requires SymbolOf(u) == SymbolOf(v)
    ensures u == v
  {
    hide SymbolOf;
    match DimensionOf(u)
    case Dimensionless | DimMass => OnlyMasses(u, v);
    case DimForce | DimForcePerArea | DimDensity => OnlyForces(u, v);
    case DimLength => OnlyLengths(u, v);
    case DimArea => OnlyAreas(u, v);
    case DimMassPerArea | DimMassMoment | DimAngle => OnlyLoadings(u, v);
    case DimSpeed => OnlySpeeds(u, v);
    case DimPower | DimEnergy => OnlyPowers(u, v);
    case DimTime | DimRotationRate => OnlyTimes(u, v);
    case DimCurrent | DimVoltage => OnlyCurrents(u, v);
    case DimCharge | DimDynamicViscosity => OnlyCharges(u, v);
  }

  lemma SISymbols(d: Dimension)
    ensures SymbolOf(SIUnit(d)) == Symbol(d)
  {
  }

  /** Every unit is listed under its own dimension, and so in the table. */
  lemma UnitsAreListed(u: Unit)
    ensures u in UnitsOf(DimensionOf(u)) && u in AllUnits()
  {
    UnitsAreGrouped(u);
    GroupsAreListed(DimensionOf(u), u);
  }

  lemma UnitsAreGrouped(u: Unit)
    ensures u in UnitsOf(DimensionOf(u))
  {
    hide UnitsOf;
    if DimensionOf(u) in {Dimensionless, DimMass, DimForce, DimLength, DimArea} {
      BasicUnitsAreGrouped(u);
    } else if DimensionOf(u) in {DimSpeed, DimDensity, DimForcePerArea, DimMassPerArea, DimAngle} {
      DerivedUnitsAreGrouped(u);
    } else {
      ElectricalUnitsAreGrouped(u);
    }
  }

  lemma BasicUnitsAreGrouped(u: Unit)
    requires DimensionOf(u) in {Dimensionless, DimMass, DimForce, DimLength, DimArea}
    ensures u in UnitsOf(DimensionOf(u))
  {
  }

  lemma DerivedUnitsAreGrouped(u: Unit)
    requires DimensionOf(u) in {DimSpeed, DimDensity, DimForcePerArea, DimMassPerArea, DimAngle}
    ensures u in UnitsOf(DimensionOf(u))
  {
  }

  lemma ElectricalUnitsAreGrouped(u: Unit)
    requires DimensionOf(u) !in {Dimensionless, DimMass, DimForce, DimLength, DimArea}
    requires DimensionOf(u) !in {DimSpeed, DimDensity, DimForcePerArea, DimMassPerArea, DimAngle}
    ensures u in UnitsOf(DimensionOf(u))
  {
  }

  lemma GroupsAreListed(d: Dimension, u: Unit)
    requires u in UnitsOf(d)
    ensures u in AllUnits()
  {
    hide UnitsOf;
    assert u in MechanicalUnits() || u in ElectricalUnits();
  }

  /** Each SI unit is of its own dimension, with factor one. */
  lemma SIUnitsAreSound(p: Platform, d: Dimension)
    ensures DimensionOf(SIUnit(d)) == d && FactorOf(p, SIUnit(d)) == 1.0
  {
  }

  lemma SymbolsAreNotEmpty(u: Unit)
    ensures SymbolOf(u) != ""
  {
  }

  lemma {:induction false} FirstWithFindsTheOnlyOne(units: seq<Unit>, u: Unit)
    requires u in units && forall v: Unit :: SymbolOf(v) == SymbolOf(u) ==> v == u
    ensures FirstWith(units, SymbolOf(u)) == Some(u)
  {
    if SymbolOf(units[0]) != SymbolOf(u) {
      FirstWithFindsTheOnlyOne(units[1..], u);
    }
  }

  /** Every unit is found by its symbol. */
  lemma UnitsAreReadBack(u: Unit)
    ensures ParseUnit(SymbolOf(u)) == Some(u)
  {
    hide SymbolOf, AllUnits;
    UnitsAreListed(u);
    SymbolsAreNotEmpty(u);
    forall v: Unit | SymbolOf(v) == SymbolOf(u)
      ensures v == u
    {
      SymbolsAreUnique(u, v);
    }
    FirstWithFindsTheOnlyOne(AllUnits(), u);
  }

  /** A stored value written in its SI unit is read back exactly. */
  lemma SIValuesAreReadBack(p: Platform, q: Quantity)
    ensures ParseUnit(SymbolOf(SIUnit(q.dim))) == Some(SIUnit(q.dim))
    ensures In(p, q, SIUnit(q.dim)).Some?
    ensures NewQuantity(p, In(p, q, SIUnit(q.dim)).value, SIUnit(q.dim)) == q
  {
    hide SymbolOf, FactorOf, DimensionOf, SIUnit, ParseUnit;
    SIUnitsAreSound(p, q.dim);
    UnitsAreReadBack(SIUnit(q.dim));
  }
}

/** What the factors say of one another. */
module Conversions {
  import opened Quantities
  import opened Units

  lemma FactorsArePositive(p: Platform, u: Unit)
    requires p.Lawful()
    ensures FactorOf(p, u) > 0.0
  {
    SlugFactor();
  }

  lemma SlugFactor()
    ensures (4.4482216152605 / 0.3048) / (0.3048 * 0.3048 * 0.3048) > 0.0
  {
  }

  lemma OutOfTheUnit(si: real, x: real, factor: real)
    requires factor > 0.0 && si == x * factor
    ensures si / factor == x
  {
  }

  lemma IntoTheUnit(si: real, factor: real)
    requires factor > 0.0
    ensures si / factor * factor == si
  {
  }

  lemma BackFromTheUnit(p: Platform, x: real, u: Unit)
    requires p.Lawful()
    ensures In(p, NewQuantity(p, x, u), u) == Some(x)
  {
    hide FactorOf, DimensionOf;
    FactorsArePositive(p, u);
    OutOfTheUnit(NewQuantity(p, x, u).si, x, FactorOf(p, u));
  }

  lemma AcrossAndBack(p: Platform, q: Quantity, v: Unit)
    requires p.Lawful() && q.dim == DimensionOf(v)
    ensures In(p, q, v).Some? && NewQuantity(p, In(p, q, v).value, v) == q
  {
    hide FactorOf, DimensionOf;
    FactorsArePositive(p, v);
    IntoTheUnit(q.si, FactorOf(p, v));
  }

  /** A value goes into any unit of its dimension and comes back the same, from
      SI and from any other unit. */
  lemma ConversionsAreUndone(p: Platform, x: real, u: Unit, v: Unit)
    requires p.Lawful() && DimensionOf(u) == DimensionOf(v)
    ensures In(p, NewQuantity(p, x, u), u) == Some(x)
    ensures In(p, NewQuantity(p, x, u), v).Some?
    ensures NewQuantity(p, In(p, NewQuantity(p, x, u), v).value, v) == NewQuantity(p, x, u)
  {
    hide FactorOf, DimensionOf, In;
    BackFromTheUnit(p, x, u);
    AcrossAndBack(p, NewQuantity(p, x, u), v);
  }

  /** The two say the same. */
  predicate Equal(p: Platform, x: real, u: Unit, y: real, v: Unit) {
    NewQuantity(p, x, u) == NewQuantity(p, y, v)
  }

  /** A square of one length is this area. */
  predicate Squared(p: Platform, length: Unit, area: Unit) {
    && NewQuantity(p, 1.0, length).dim == DimLength && NewQuantity(p, 1.0, area).dim == DimArea
    && NewQuantity(p, 1.0, area).si == NewQuantity(p, 1.0, length).si * NewQuantity(p, 1.0, length).si
  }

  /** In SI, one of the first is this many of the second times the third. */
  predicate Times(p: Platform, u: Unit, n: real, v: Unit, w: Unit) {
    NewQuantity(p, 1.0, u).si == n * NewQuantity(p, 1.0, v).si * NewQuantity(p, 1.0, w).si
  }

  lemma MassesConvert(p: Platform)
    ensures Equal(p, 1000.0, Gram, 1.0, Kilogram)
    ensures Equal(p, 16.0, Ounce, 1.0, PoundMass) && Equal(p, 1.0, PoundMass, 453.59237, Gram)
    ensures Equal(p, 1.0, PoundForce, 0.45359237 * GRAVITY, Newton)
    ensures Equal(p, 1000.0 * 1000.0, GramMillimeter, 1.0, KilogramMeter)
  {
  }

  lemma LengthsConvert(p: Platform)
    ensures Equal(p, 1000.0, Millimeter, 1.0, Meter) && Equal(p, 10.0, Millimeter, 1.0, Centimeter)
    ensures Equal(p, 25.4, Millimeter, 1.0, Inch) && Equal(p, 12.0, Inch, 1.0, Foot)
    ensures Equal(p, 1000.0, Meter, 1.0, Kilometer) && Equal(p, 1852.0, Meter, 1.0, NauticalMile)
    ensures Squared(p, Meter, SquareMeter) && Squared(p, Centimeter, SquareCentimeter)
    ensures Squared(p, Inch, SquareInch) && Squared(p, Foot, SquareFoot)
    ensures Equal(p, 100.0, SquareDecimeter, 1.0, SquareMeter) && Equal(p, 100.0, SquareCentimeter, 1.0, SquareDecimeter)
  {
  }

  /** A speed held for its own time covers its own length. */
  lemma SpeedsConvert(p: Platform)
    ensures Times(p, Meter, 1.0, MeterPerSecond, Second) && Times(p, Foot, 1.0, FootPerSecond, Second)
    ensures Times(p, Kilometer, 1.0, KilometerPerHour, Hour)
  {
  }

  lemma KnotsAndMilesConvert(p: Platform)
    ensures Times(p, NauticalMile, 1.0, Knot, Hour)
    ensures NewQuantity(p, 5280.0, Foot).si == NewQuantity(p, 1.0, MilePerHour).si * NewQuantity(p, 1.0, Hour).si
  {
  }

  lemma TimesConvert(p: Platform)
    ensures Equal(p, 60.0, Second, 1.0, Minute) && Equal(p, 60.0, Minute, 1.0, Hour)
  {
  }

  lemma AnglesConvert(p: Platform)
    ensures Equal(p, 60.0, RevolutionPerMinute, 1.0, RevolutionPerSecond) && Equal(p, 180.0, Degree, p.pi, Radian)
  {
  }

  lemma PowersConvert(p: Platform)
    ensures Equal(p, 1000.0, Watt, 1.0, Kilowatt) && Equal(p, 1000.0, WattHour, 1.0, KilowattHour)
  {
  }

  /** A power held for its own time is its own energy. */
  lemma EnergiesConvert(p: Platform)
    ensures Times(p, Joule, 1.0, Watt, Second) && Times(p, WattHour, 1.0, Watt, Hour)
  {
  }

  /** And a current its own charge. */
  lemma ChargesConvert(p: Platform)
    ensures Times(p, AmpereHour, 1.0, Ampere, Hour)
  {
  }

  lemma VoltagesConvert(p: Platform)
    ensures Equal(p, 1000.0, Millivolt, 1.0, Volt)
  {
  }

  lemma CurrentsConvert(p: Platform)
    ensures Equal(p, 1000.0, Milliampere, 1.0, Ampere) && Equal(p, 1000.0, MilliampereHour, 1.0, AmpereHour)
  {
  }

  lemma ViscositiesConvert(p: Platform)
    ensures Equal(p, 1000.0 * 1000.0, MicropascalSecond, 1.0, PascalSecond)
  {
  }

  /** A horsepower is 550 foot-pounds a second, to the digits it is written in. */
  lemma HorsepowerConverts(p: Platform)
    ensures var foot, force := NewQuantity(p, 1.0, Foot).si, NewQuantity(p, 1.0, PoundForce).si;
            Abs(NewQuantity(p, 1.0, Horsepower).si - 550.0 * foot * force) <= 0.0000000000001
  {
  }

  /** A density or a loading times what it is spread over is what it spreads. */
  lemma LoadingsConvert(p: Platform)
    ensures Times(p, Kilogram, 1.0, KilogramPerSquareMeter, SquareMeter)
    ensures Times(p, Gram, 1.0, GramPerSquareDecimeter, SquareDecimeter)
    ensures Times(p, Ounce, 1.0, OuncePerSquareFoot, SquareFoot)
    ensures Times(p, Newton, 1.0, NewtonPerSquareMeter, SquareMeter)
    ensures Times(p, PoundForce, 1.0, PoundForcePerSquareFoot, SquareFoot)
  {
  }

  /** A slug is a pound-force second squared per foot. */
  lemma SlugsConvert(p: Platform)
    ensures var foot, force := NewQuantity(p, 1.0, Foot).si, NewQuantity(p, 1.0, PoundForce).si;
            NewQuantity(p, 1.0, SlugPerCubicFoot).si * (foot * foot * foot) * foot == force
  {
  }
}
