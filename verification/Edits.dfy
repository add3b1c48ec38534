/** What every edit writes and what it leaves: a design read field by field, and
    its lists read name by name. */
module EditEffects {
  import opened Quantities
  import opened Definition
  import opened Planforms
  import SolvableWings
  import opened Keys
  import opened Sorting
  import opened Lists
  import opened Commands
  import opened Editing

  // ----- A design read field by field ---------------------------------------

  datatype DesignField = DesignNameField | MassField | MassBasisField | MassModeField | ConfigurationField | TailField

  datatype DriverField = SpanField | AreaField | RootChordField | AspectField | TaperField | ShapeField

  datatype WingField =
    | WingNameField | RootAirfoilField | TipAirfoilField | AreaBasisField | SweepField | SweepReferenceField
    | DihedralField | DihedralModeField | TwistField | IncidenceField | BodyWidthField

  datatype PowerField =
    | PolarField | EfficiencyField | LimitsField | BatteryField
    | MissionNameField | MissionBasisField | ReserveBasisField | ReserveFractionField

  /** Everything a design holds outside its name-keyed lists. */
  datatype Field =
    OfDesign(design: DesignField) | OfDrivers(driver: DriverField) | OfWing(wing: WingField) | OfPower(power: PowerField)

  datatype Value =
    | Text(text: string) | Number(number: real) | Dimensioned(quantity: Quantity) | InMassMode(massMode: MassMode)
    | Configured(configuration: Configuration) | Tailed(tail: TailGeometry) | Section(airfoil: Airfoil)
    | OnBasis(areaBasis: AreaBasis) | Shaped(shape: PlanformShape) | Held(dihedralMode: DihedralMode)
    | OnPolar(polar: DragPolar) | AtEfficiency(efficiency: PropulsionEfficiency) | Within(limits: PropulsionLimits)
    | Powered(battery: Battery)

  function ReadDesign(d: Design, f: DesignField): Value {
    match f
    case DesignNameField => Text(d.name)
    case MassField => Dimensioned(d.mass)
    case MassBasisField => Text(d.massBasis)
    case MassModeField => InMassMode(d.massMode)
    case ConfigurationField => Configured(d.configuration)
    case TailField => Tailed(d.tail)
  }

  function ReadDriver(drivers: PlanformDrivers, f: DriverField): Value {
    match f
    case SpanField => Dimensioned(drivers.span)
    case AreaField => Dimensioned(drivers.area)
    case RootChordField => Dimensioned(drivers.rootChord)
    case AspectField => Number(drivers.aspectRatio)
    case TaperField => Number(drivers.taperRatio)
    case ShapeField => Shaped(drivers.shape)
  }

  function ReadWing(w: WingDefinition, f: WingField): Value {
    match f
    case WingNameField => Text(w.name)
    case RootAirfoilField => Section(w.rootAirfoil)
    case TipAirfoilField => Section(w.tipAirfoil)
    case AreaBasisField => OnBasis(w.areaBasis)
    case SweepField => Dimensioned(w.sweep)
    case SweepReferenceField => Number(w.sweepReference)
    case DihedralField => Dimensioned(w.dihedral)
    case DihedralModeField => Held(w.dihedralMode)
    case TwistField => Dimensioned(w.twist)
    case IncidenceField => Dimensioned(w.incidence)
    case BodyWidthField => Dimensioned(w.bodyWidth)
  }

  function ReadPower(d: Design, f: PowerField): Value {
    match f
    case PolarField => OnPolar(d.polar)
    case EfficiencyField => AtEfficiency(d.propulsion.efficiency)
    case LimitsField => Within(d.propulsion.limits)
    case BatteryField => Powered(d.battery)
    case MissionNameField => Text(d.mission.name)
    case MissionBasisField => Text(d.mission.basis)
    case ReserveBasisField => Text(d.mission.reserveBasis)
    case ReserveFractionField => Number(d.mission.reserveFraction)
  }

  function Read(d: Design, f: Field): Value {
    match f
    case OfDesign(g) => ReadDesign(d, g)
    case OfDrivers(g) => ReadDriver(d.wing.drivers, g)
    case OfWing(g) => ReadWing(d.wing, g)
    case OfPower(g) => ReadPower(d, g)
  }

  ghost predicate ReadAlike(a: Design, b: Design) {
    forall f :: Read(a, f) == Read(b, f)
  }

  lemma AlikeAt(a: Design, b: Design, f: Field)
    requires ReadAlike(a, b)
    ensures Read(a, f) == Read(b, f)
  {
  }

  lemma DriversAreTheirFields(a: Design, b: Design)
    requires ReadAlike(a, b)
    ensures a.wing.drivers == b.wing.drivers
  {
    hide ReadAlike;
    AlikeAt(a, b, OfDrivers(SpanField));
    AlikeAt(a, b, OfDrivers(AreaField));
    AlikeAt(a, b, OfDrivers(RootChordField));
    AlikeAt(a, b, OfDrivers(AspectField));
    AlikeAt(a, b, OfDrivers(TaperField));
    AlikeAt(a, b, OfDrivers(ShapeField));
  }

  lemma AnglesAreTheirFields(a: Design, b: Design)
    requires ReadAlike(a, b)
    ensures a.wing.sweep == b.wing.sweep && a.wing.dihedral == b.wing.dihedral
    ensures a.wing.twist == b.wing.twist && a.wing.incidence == b.wing.incidence
    ensures a.wing.sweepReference == b.wing.sweepReference && a.wing.dihedralMode == b.wing.dihedralMode
  {
    hide ReadAlike;
    AlikeAt(a, b, OfWing(SweepField));
    AlikeAt(a, b, OfWing(DihedralField));
    AlikeAt(a, b, OfWing(TwistField));
    AlikeAt(a, b, OfWing(IncidenceField));
    AlikeAt(a, b, OfWing(SweepReferenceField));
    AlikeAt(a, b, OfWing(DihedralModeField));
  }

  lemma TheWingIsItsFields(a: Design, b: Design)
    requires ReadAlike(a, b)
    ensures a.wing == b.wing
  {
    hide ReadAlike;
    DriversAreTheirFields(a, b);
    AnglesAreTheirFields(a, b);
    AlikeAt(a, b, OfWing(WingNameField));
    AlikeAt(a, b, OfWing(RootAirfoilField));
    AlikeAt(a, b, OfWing(TipAirfoilField));
    AlikeAt(a, b, OfWing(AreaBasisField));
    AlikeAt(a, b, OfWing(BodyWidthField));
  }

  lemma PowerIsItsFields(a: Design, b: Design)
    requires ReadAlike(a, b) && ListingsOf(a) == ListingsOf(b)
    ensures a.polar == b.polar && a.propulsion == b.propulsion && a.battery == b.battery && a.mission == b.mission
  {
    hide ReadAlike;
    AlikeAt(a, b, OfPower(PolarField));
    AlikeAt(a, b, OfPower(EfficiencyField));
    AlikeAt(a, b, OfPower(LimitsField));
    AlikeAt(a, b, OfPower(BatteryField));
    TheMissionIsItsFields(a, b);
  }

  lemma TheMissionIsItsFields(a: Design, b: Design)
    requires ReadAlike(a, b) && a.mission.segments == b.mission.segments
    ensures a.mission == b.mission
  {
    hide ReadAlike;
    AlikeAt(a, b, OfPower(MissionNameField));
    AlikeAt(a, b, OfPower(MissionBasisField));
    AlikeAt(a, b, OfPower(ReserveBasisField));
    AlikeAt(a, b, OfPower(ReserveFractionField));
  }

  /** Fields and lists are all there is to a design. */
  lemma ADesignIsItsFieldsAndLists(a: Design, b: Design)
    requires ListingsOf(a) == ListingsOf(b) && ReadAlike(a, b)
    ensures a == b
  {
    hide ReadAlike;
    TheWingIsItsFields(a, b);
    PowerIsItsFields(a, b);
    AlikeAt(a, b, OfDesign(DesignNameField));
    AlikeAt(a, b, OfDesign(MassField));
    AlikeAt(a, b, OfDesign(MassBasisField));
    AlikeAt(a, b, OfDesign(MassModeField));
    AlikeAt(a, b, OfDesign(ConfigurationField));
    AlikeAt(a, b, OfDesign(TailField));
  }

  /** What a field edit gives, field by field. */
  function Given(e: FieldEdit): map<Field, Value> {
    match e
    case SetMass(mass, basis) => map[OfDesign(MassField) := Dimensioned(mass), OfDesign(MassBasisField) := Text(basis)]
    case SetWingAngles(sweep, dihedral, twist, incidence, reference, mode) =>
      map[OfWing(SweepField) := Dimensioned(sweep), OfWing(DihedralField) := Dimensioned(dihedral), OfWing(TwistField) := Dimensioned(twist),
          OfWing(IncidenceField) := Dimensioned(incidence), OfWing(SweepReferenceField) := Number(reference), OfWing(DihedralModeField) := Held(mode)]
    case SetConfiguration(tail, configuration) =>
      map[OfDesign(TailField) := Tailed(tail), OfDesign(ConfigurationField) := Configured(configuration)]
    case SetMassMode(mode) => map[OfDesign(MassModeField) := InMassMode(mode)]
    case SetBodyWidth(width) => map[OfWing(BodyWidthField) := Dimensioned(width)]
    case SetDragPolar(polar) => map[OfPower(PolarField) := OnPolar(polar)]
    case SetPropulsionEfficiency(efficiency) => map[OfPower(EfficiencyField) := AtEfficiency(efficiency)]
    case SetPropulsionLimits(limits) => map[OfPower(LimitsField) := Within(limits)]
    case SetBattery(battery) => map[OfPower(BatteryField) := Powered(battery)]
    case SetMissionProfile(name, basis, reserveBasis, reserve) =>
      map[OfPower(MissionNameField) := Text(name), OfPower(MissionBasisField) := Text(basis), OfPower(ReserveBasisField) := Text(reserveBasis),
          OfPower(ReserveFractionField) := Number(reserve)]
  }

  function Overwritten(d: Design, given: map<Field, Value>, f: Field): Value {
    if f in given then given[f] else Read(d, f)
  }

  /** Every field an accepted field edit names reads what was given for it, every
      other field and every list reads as before. */
  lemma AFieldEditWritesWhatItGives(p: Platform, d: Design, e: FieldEdit)
    requires Apply(p, d, FieldCommand(e)).Ok?
    ensures var after := Apply(p, d, FieldCommand(e)).value;
            ListingsOf(after) == ListingsOf(d) && forall f :: Read(after, f) == Overwritten(d, Given(e), f)
  {
    hide FieldEditIssues, Overwritten, Given;
    FieldEditsKeepTheLists(d, e);
    forall f
      ensures Read(Apply(p, d, FieldCommand(e)).value, f) == Overwritten(d, Given(e), f)
    {
      OneFieldReads(d, e, f);
    }
  }

  lemma OneFieldReads(d: Design, e: FieldEdit, f: Field)
    ensures Read(WithField(d, e), f) == Overwritten(d, Given(e), f)
  {
    hide Read, WithField, Given;
    match e
    case SetMass(_, _) => MassReads(d, e, f);
    case SetConfiguration(_, _) => LayoutReads(d, e, f);
    case SetMassMode(_) => LayoutReads(d, e, f);
    case SetWingAngles(_, _, _, _, _, _) => AnglesRead(d, e, f);
    case SetBodyWidth(_) => WidthReads(d, e, f);
    case SetDragPolar(_) => AirReads(d, e, f);
    case SetPropulsionEfficiency(_) => AirReads(d, e, f);
    case SetPropulsionLimits(_) => InstallationReads(d, e, f);
    case SetBattery(_) => InstallationReads(d, e, f);
    case SetMissionProfile(_, _, _, _) => ProfileReads(d, e, f);
  }

  lemma MassReads(d: Design, e: FieldEdit, f: Field)
    requires e.SetMass?
    ensures Read(WithField(d, e), f) == Overwritten(d, Given(e), f)
  {
  }

  lemma LayoutReads(d: Design, e: FieldEdit, f: Field)
    requires e.SetConfiguration? || e.SetMassMode?
    ensures Read(WithField(d, e), f) == Overwritten(d, Given(e), f)
  {
  }

  lemma AnglesRead(d: Design, e: FieldEdit, f: Field)
    requires e.SetWingAngles?
    ensures Read(WithField(d, e), f) == Overwritten(d, Given(e), f)
  {
  }

  lemma WidthReads(d: Design, e: FieldEdit, f: Field)
    requires e.SetBodyWidth?
    ensures Read(WithField(d, e), f) == Overwritten(d, Given(e), f)
  {
  }

  lemma AirReads(d: Design, e: FieldEdit, f: Field)
    requires e.SetDragPolar? || e.SetPropulsionEfficiency?
    ensures Read(WithField(d, e), f) == Overwritten(d, Given(e), f)
  {
  }

  lemma InstallationReads(d: Design, e: FieldEdit, f: Field)
    requires e.SetPropulsionLimits? || e.SetBattery?
    ensures Read(WithField(d, e), f) == Overwritten(d, Given(e), f)
  {
  }

  lemma ProfileReads(d: Design, e: FieldEdit, f: Field)
    requires e.SetMissionProfile?
    ensures Read(WithField(d, e), f) == Overwritten(d, Given(e), f)
  {
  }

  // ----- When a field edit is accepted --------------------------------------

  /** Left out, or of its dimension. */
  predicate Fits(q: Quantity, dim: Dimension) {
    q == Quantity(0.0, Dimensionless) || q.dim == dim
  }

  predicate StatedAngle(q: Quantity) {
    q != Quantity(0.0, Dimensionless) && q.dim == DimAngle
  }

  predicate LimitsFit(l: PropulsionLimits) {
    && Fits(l.maxContinuousPower, DimPower) && Fits(l.maxPeakPower, DimPower)
    && Fits(l.maxRpm, DimRotationRate) && Fits(l.maxVoltage, DimVoltage)
    && Fits(l.propellerDiameter, DimLength) && Fits(l.propellerHubHeight, DimLength)
  }

  predicate BatteryFits(b: Battery) {
    && Fits(b.capacity, DimCharge) && Fits(b.nominalVoltage, DimVoltage) && Fits(b.energy, DimEnergy)
    && Fits(b.continuousCurrentLimit, DimCurrent) && Fits(b.peakCurrentLimit, DimCurrent)
  }

  predicate Acceptable(e: FieldEdit) {
    match e
    case SetMass(mass, _) => Fits(mass, DimMass)
    case SetWingAngles(sweep, dihedral, twist, incidence, reference, _) =>
      StatedAngle(sweep) && StatedAngle(dihedral) && StatedAngle(twist) && StatedAngle(incidence)
      && 0.0 <= reference <= 1.0
    case SetConfiguration(_, configuration) => configuration != ConfigurationUnknown
    case SetMassMode(mode) => mode != MassModeUnknown
    case SetBodyWidth(width) => Fits(width, DimLength) && (width.dim == DimLength ==> width.si > 0.0)
    case SetDragPolar(polar) => polar == NO_POLAR || polar.scope != ScopeAirfoilSection
    case SetPropulsionEfficiency(efficiency) => efficiency.total <= 1.0
    case SetPropulsionLimits(limits) => LimitsFit(limits)
    case SetBattery(battery) => BatteryFits(battery)
    case SetMissionProfile(_, _, _, reserve) => 0.0 <= reserve < 1.0
  }

  /** A field edit is accepted by what it gives alone, whatever the design. */
  lemma AFieldEditIsAcceptedExactlyWhenAcceptable(p: Platform, d: Design, e: FieldEdit)
    ensures Apply(p, d, FieldCommand(e)).Ok? <==> Acceptable(e)
  {
    hide WithField;
  }

  // ----- Two field edits ----------------------------------------------------

  function AfterBoth(p: Platform, d: Design, a: FieldEdit, b: FieldEdit): Design
    requires Acceptable(a) && Acceptable(b)
  {
    AFieldEditIsAcceptedExactlyWhenAcceptable(p, d, a);
    var first := Apply(p, d, FieldCommand(a)).value;
    AFieldEditIsAcceptedExactlyWhenAcceptable(p, first, b);
    Apply(p, first, FieldCommand(b)).value
  }

  /** They agree on every field both of them name. */
  predicate Agree(a: FieldEdit, b: FieldEdit) {
    forall f :: f in Given(a) && f in Given(b) ==> Given(a)[f] == Given(b)[f]
  }

  lemma TheLaterEditWins(p: Platform, d: Design, a: FieldEdit, b: FieldEdit, f: Field)
    requires Acceptable(a) && Acceptable(b)
    ensures Read(AfterBoth(p, d, a, b), f)
         == if f in Given(b) then Given(b)[f] else if f in Given(a) then Given(a)[f] else Read(d, f)
    ensures ListingsOf(AfterBoth(p, d, a, b)) == ListingsOf(d)
  {
    hide Read, Apply, Given, Acceptable, ListingsOf;
    AFieldEditIsAcceptedExactlyWhenAcceptable(p, d, a);
    AFieldEditWritesWhatItGives(p, d, a);
    var first := Apply(p, d, FieldCommand(a)).value;
    AFieldEditIsAcceptedExactlyWhenAcceptable(p, first, b);
    AFieldEditWritesWhatItGives(p, first, b);
  }

  /** Two field edits may be exchanged exactly when they agree on every field both
      name. */
  lemma FieldEditsCommuteExactlyWhenTheyAgree(p: Platform, d: Design, a: FieldEdit, b: FieldEdit)
    requires Acceptable(a) && Acceptable(b)
    ensures AfterBoth(p, d, a, b) == AfterBoth(p, d, b, a) <==> Agree(a, b)
  {
    hide Read, AfterBoth, Given, Acceptable, ListingsOf;
    var ab, ba := AfterBoth(p, d, a, b), AfterBoth(p, d, b, a);
    forall f
      ensures Read(ab, f) == if f in Given(b) then Given(b)[f] else if f in Given(a) then Given(a)[f] else Read(d, f)
      ensures Read(ba, f) == if f in Given(a) then Given(a)[f] else if f in Given(b) then Given(b)[f] else Read(d, f)
      ensures ListingsOf(ab) == ListingsOf(ba) == ListingsOf(d)
    {
      TheLaterEditWins(p, d, a, b, f);
      TheLaterEditWins(p, d, b, a, f);
    }
    TheLaterEditWins(p, d, a, b, OfDesign(MassField));
    TheLaterEditWins(p, d, b, a, OfDesign(MassField));
    if Agree(a, b) {
      ADesignIsItsFieldsAndLists(ab, ba);
    }
  }

  // ----- Driver edits -------------------------------------------------------

  function DriverNamed(key: ParameterKey): Option<DriverField> {
    match key
    case ParamSpanProjected | ParamSpanPanel => Some(SpanField)
    case ParamAreaReference | ParamAreaPanel => Some(AreaField)
    case ParamChordRoot => Some(RootChordField)
    case ParamAspectRatio => Some(AspectField)
    case _ => None
  }

  function DriverValue(f: DriverField, value: Quantity): Value {
    if f == AspectField then Number(value.si) else Dimensioned(value)
  }

  /** What a driver edit other than sizing gives. */
  function GivenDrivers(e: DriverEdit): map<Field, Value>
    requires !e.SizeAtStallLimit?
  {
    match e
    case SetDriver(key, value) =>
      if DriverNamed(key).None? then map[] else map[OfDrivers(DriverNamed(key).value) := DriverValue(DriverNamed(key).value, value)]
    case PromoteDriver(promote, release, value) =>
      if DriverNamed(promote).None? || DriverNamed(release).None? then map[]
      else
        map[OfDrivers(DriverNamed(release).value) := DriverValue(DriverNamed(release).value, UNSET)]
        [OfDrivers(DriverNamed(promote).value) := DriverValue(DriverNamed(promote).value, value)]
    case SetTaperRatio(taper) => map[OfDrivers(TaperField) := Number(taper)]
    case SetPlanformShape(shape, taper) => map[OfDrivers(ShapeField) := Shaped(shape), OfDrivers(TaperField) := Number(taper)]
  }

  /** An accepted driver edit writes the driver it names, a promotion clears the
      one it releases, and nothing else changes. */
  lemma ADriverEditWritesWhatItGives(p: Platform, d: Design, e: DriverEdit)
    requires Apply(p, d, DriverCommand(e)).Ok? && !e.SizeAtStallLimit?
    ensures var after := Apply(p, d, DriverCommand(e)).value;
            ListingsOf(after) == ListingsOf(d) && forall f :: Read(after, f) == Overwritten(d, GivenDrivers(e), f)
  {
    hide ValidSwaps, DriverKeys, DriverValueIssues, HoldsDriver, ApplySetDriver, ApplyPromoteDriver, ApplyShape, Overwritten,
      GivenDrivers, Read, WithSizeDriver;
    var after := Apply(p, d, DriverCommand(e)).value;
    forall f
      ensures Read(after, f) == Overwritten(d, GivenDrivers(e), f)
    {
      match e
      case SetDriver(key, value) => SetDriverReads(p, d, key, value, f);
      case PromoteDriver(promote, release, value) => PromotionReads(p, d, promote, release, value, f);
      case SetTaperRatio(taper) => ShapeReads(p, d, e, f);
      case SetPlanformShape(shape, taper) => ShapeReads(p, d, e, f);
    }
  }

  lemma ShapeReads(p: Platform, d: Design, e: DriverEdit, f: Field)
    requires e.SetTaperRatio? || e.SetPlanformShape?
    requires ApplyDriverEdit(p, d, e).Ok?
    ensures Read(WithDrivers(d, ApplyDriverEdit(p, d, e).value), f) == Overwritten(d, GivenDrivers(e), f)
  {
  }

  /** Writing one driver is writing its field. */
  lemma OneDriverReads(d: Design, key: ParameterKey, value: Quantity, f: Field)
    requires DriverNamed(key).Some?
    ensures Read(WithDrivers(d, WithSizeDriver(d.wing.drivers, key, value)), f)
         == if f == OfDrivers(DriverNamed(key).value) then DriverValue(f.driver, value) else Read(d, f)
  {
  }

  lemma SameDriverSameField(key: ParameterKey)
    ensures DriverNamed(key).Some? <==> CanonicalSizeKey(key).Some?
    ensures CanonicalSizeKey(key).Some? ==> DriverNamed(CanonicalSizeKey(key).value) == DriverNamed(key)
  {
  }

  lemma SetDriverReads(p: Platform, d: Design, key: ParameterKey, value: Quantity, f: Field)
    requires ApplySetDriver(p, d.wing, key, value).Ok?
    ensures Read(WithDrivers(d, ApplySetDriver(p, d.wing, key, value).value), f)
         == Overwritten(d, GivenDrivers(SetDriver(key, value)), f)
  {
    hide ValidSwaps, DriverKeys, DriverValueIssues, HoldsDriver, Read, WithSizeDriver, DriverNamed;
    SameDriverSameField(key);
    OneDriverReads(d, CanonicalSizeKey(key).value, value, f);
  }

  lemma PromotionReads(p: Platform, d: Design, promote: ParameterKey, release: ParameterKey, value: Quantity, f: Field)
    requires ApplyPromoteDriver(p, d.wing, promote, release, value).Ok?
    ensures Read(WithDrivers(d, ApplyPromoteDriver(p, d.wing, promote, release, value).value), f)
         == Overwritten(d, GivenDrivers(PromoteDriver(promote, release, value)), f)
  {
    hide ValidSwaps, DriverKeys, DriverValueIssues, HoldsDriver, Read, WithSizeDriver, DriverNamed;
    AcceptedPromotion(p, d.wing, promote, release, value);
    SameDriverSameField(promote);
    SameDriverSameField(release);
    var promoted, released := CanonicalSizeKey(promote).value, CanonicalSizeKey(release).value;
    var without := WithDrivers(d, WithSizeDriver(d.wing.drivers, released, UNSET));
    OneDriverReads(d, released, UNSET, f);
    OneDriverReads(without, promoted, value, f);
  }

  lemma AcceptedPromotion(p: Platform, d: WingDefinition, promote: ParameterKey, release: ParameterKey, value: Quantity)
    requires ApplyPromoteDriver(p, d, promote, release, value).Ok?
    ensures CanonicalSizeKey(promote).Some? && CanonicalSizeKey(release).Some?
    ensures ApplyPromoteDriver(p, d, promote, release, value).value
         == WithSizeDriver(WithSizeDriver(d.drivers, CanonicalSizeKey(release).value, UNSET),
                           CanonicalSizeKey(promote).value, value)
  {
    hide DriverKeys, DriverValueIssues, WithSizeDriver;
  }

  /** Of any accepted driver edit, sizing included: it writes drivers only. */
  lemma DriverEditsTouchOnlyTheDrivers(p: Platform, d: Design, e: DriverEdit, f: Field)
    requires Apply(p, d, DriverCommand(e)).Ok?
    ensures var after := Apply(p, d, DriverCommand(e)).value;
            ListingsOf(after) == ListingsOf(d) && (!f.OfDrivers? ==> Read(after, f) == Read(d, f))
  {
    hide ApplyDriverEdit;
  }

  function DimensionOfDriver(f: DriverField): Dimension {
    match f
    case AreaField => DimArea
    case AspectField => Dimensionless
    case _ => DimLength
  }

  /** A positive value of the driver's dimension. */
  predicate DrivesAt(key: ParameterKey, value: Quantity) {
    DriverNamed(key).Some? && value.dim == DimensionOfDriver(DriverNamed(key).value) && value.si > 0.0
  }

  /** When a driver edit other than sizing is accepted. A driver is set when it is
      held, or fewer than two are; cleared when it is held; promoted in exchange for
      a held one when it is not held, two are, and the taper is usable. */
  predicate DriverEditStands(drivers: PlanformDrivers, e: DriverEdit)
    requires !e.SizeAtStallLimit?
  {
    match e
    case SetDriver(key, value) =>
      if value == UNSET then HoldsDriver(drivers, key)
      else DrivesAt(key, value) && (HoldsDriver(drivers, key) || SuppliedDrivers(drivers) < 2)
    case PromoteDriver(promote, release, value) =>
      && DrivesAt(promote, value) && !HoldsDriver(drivers, promote) && HoldsDriver(drivers, release)
      && SuppliedDrivers(drivers) == 2 && SolvableWings.TaperStands(drivers)
    case SetTaperRatio(taper) => taper > 0.0
    case SetPlanformShape(shape, taper) =>
      (shape == ShapeRectangle && taper == 1.0) || (shape == ShapeTrapezoid && taper > 0.0)
  }

  lemma ADriverEditIsAcceptedExactly(p: Platform, d: Design, e: DriverEdit)
    requires !e.SizeAtStallLimit?
    ensures Apply(p, d, DriverCommand(e)).Ok? <==> DriverEditStands(d.wing.drivers, e)
  {
    hide ApplySetDriver, ApplyPromoteDriver, ApplyShape;
    match e
    case SetDriver(key, value) => ADriverIsSetExactly(p, d.wing, key, value);
    case PromoteDriver(promote, release, value) => ADriverIsPromotedExactly(p, d.wing, promote, release, value);
    case SetTaperRatio(taper) =>
    case SetPlanformShape(shape, taper) => AShapeIsSetExactly(d.wing, shape, taper);
  }

  lemma AShapeIsSetExactly(d: WingDefinition, shape: PlanformShape, taper: real)
    ensures ApplyShape(d, shape, taper).Ok?
       <==> (shape == ShapeRectangle && taper == 1.0) || (shape == ShapeTrapezoid && taper > 0.0)
  {
  }

  lemma DriverValuesExactly(key: ParameterKey, value: Quantity)
    requires CanonicalSizeKey(key).Some?
    ensures DriverValueIssues(CanonicalSizeKey(key).value, value) == [] <==> DrivesAt(key, value)
    ensures DriverNamed(key).Some?
  {
  }

  lemma OnlySizeKeysAreHeld(drivers: PlanformDrivers, key: ParameterKey)
    ensures HoldsDriver(drivers, key) ==> CanonicalSizeKey(key).Some?
    ensures CanonicalSizeKey(key).Some? ==> key != NoKey
    ensures CanonicalSizeKey(key).Some? ==>
              HoldsDriver(drivers, CanonicalSizeKey(key).value) == HoldsDriver(drivers, key)
    ensures DriverNamed(key).Some? <==> CanonicalSizeKey(key).Some?
  {
  }

  lemma ADriverIsSetExactly(p: Platform, d: WingDefinition, key: ParameterKey, value: Quantity)
    ensures ApplySetDriver(p, d, key, value).Ok? <==> DriverEditStands(d.drivers, SetDriver(key, value))
  {
    hide DriverKeys, ValidSwaps, SuppliedDrivers, HoldsDriver, DriverValueIssues, DrivesAt, CanonicalSizeKey, DriverNamed,
      WithSizeDriver;
    OnlySizeKeysAreHeld(d.drivers, key);
    DriverKeysAreTheHeldOnes(d, key);
    NothingDrivesElsewhere(key, value);
    if CanonicalSizeKey(key).Some? {
      DriverValuesExactly(key, value);
    }
  }

  lemma NothingDrivesElsewhere(key: ParameterKey, value: Quantity)
    ensures DrivesAt(key, value) ==> DriverNamed(key).Some? && value != UNSET
  {
  }

  lemma ADriverIsPromotedExactly(
    p: Platform, d: WingDefinition, promote: ParameterKey, release: ParameterKey, value: Quantity)
    ensures ApplyPromoteDriver(p, d, promote, release, value).Ok?
       <==> DriverEditStands(d.drivers, PromoteDriver(promote, release, value))
  {
    hide DriverKeys, ValidSwaps, SuppliedDrivers, HoldsDriver, DriverValueIssues, DrivesAt, CanonicalSizeKey, DriverNamed,
      WithSizeDriver, PlaneSizeKey, SolvableWings.TaperStands, ResolveTaper;
    SwapsAreTheHeldPair(p, d, promote);
    SolvableWings.TaperStandsExactly(d.drivers);
    OnlySizeKeysAreHeld(d.drivers, promote);
    OnlySizeKeysAreHeld(d.drivers, release);
    NothingDrivesElsewhere(promote, value);
    if CanonicalSizeKey(promote).Some? {
      DriverValuesExactly(promote, value);
    }
    if CanonicalSizeKey(release).Some? {
      SamePlaneSameDriver(d, release);
      DriverKeysAreTheHeldOnes(d, PlaneSizeKey(d.dihedralMode, CanonicalSizeKey(release).value));
      PlaneKeysStand(d.dihedralMode, release);
    }
  }

  lemma PlaneKeysStand(mode: DihedralMode, key: ParameterKey)
    requires CanonicalSizeKey(key).Some?
    ensures PlaneSizeKey(mode, PlaneSizeKey(mode, CanonicalSizeKey(key).value)) == PlaneSizeKey(mode, CanonicalSizeKey(key).value)
  {
  }

  // ----- The lists read name by name ----------------------------------------

  datatype Listed = Requirements | Cases | Components | Capabilities | Targets | Loads | Segments

  datatype Entry =
    | ARequirement(requirement: Requirement) | ACase(flown: DesignCase) | AComponent(item: MassItem)
    | ACapability(capability: PropulsionCapability) | ATarget(target: ThrustTarget) | ALoad(load: AuxiliaryLoad)
    | ASegment(segment: MissionSegment)

  function As<T>(found: Option<T>, entry: T -> Entry): Option<Entry> {
    if found.Some? then Some(entry(found.value)) else None
  }

  /** The entry a list finds under a name. */
  function EntryIn(l: Listings, list: Listed, name: string): Option<Entry> {
    match list
    case Requirements => As(Lookup(l.requirements, RequirementName, name), r => ARequirement(r))
    case Cases => As(Lookup(l.cases, CaseName, name), c => ACase(c))
    case Components => As(Lookup(l.components, ComponentName, name), m => AComponent(m))
    case Capabilities => As(Lookup(l.capabilities, CapabilityName, name), c => ACapability(c))
    case Targets => As(Lookup(l.targets, TargetName, name), t => ATarget(t))
    case Loads => As(Lookup(l.auxiliary, LoadName, name), a => ALoad(a))
    case Segments => As(Lookup(l.segments, SegmentName, name), s => ASegment(s))
  }

  function NamesOf<T>(items: seq<T>, nameOf: T -> string): seq<string> {
    seq(|items|, i requires 0 <= i < |items| => nameOf(items[i]))
  }

  /** The names of a list, in its order. */
  function NamesIn(l: Listings, list: Listed): seq<string> {
    match list
    case Requirements => NamesOf(l.requirements, RequirementName)
    case Cases => NamesOf(l.cases, CaseName)
    case Components => NamesOf(l.components, ComponentName)
    case Capabilities => NamesOf(l.capabilities, CapabilityName)
    case Targets => NamesOf(l.targets, TargetName)
    case Loads => NamesOf(l.auxiliary, LoadName)
    case Segments => NamesOf(l.segments, SegmentName)
  }

  /** The list an edit works on and the name it works on there. */
  function Worked(e: ListEdit): (Listed, string) {
    match e
    case SetRequirement(r) => (Requirements, r.name)
    case RemoveRequirement(name) => (Requirements, name)
    case SetRequirementPriority(name, _) => (Requirements, name)
    case SetCase(c) => (Cases, c.flight.name)
    case RemoveCase(name) => (Cases, name)
    case SetCasePriority(name, _) => (Cases, name)
    case SetCaseCLmax(name, _, _) => (Cases, name)
    case SetComponent(item) => (Components, item.name)
    case PlaceComponent(name, _) => (Components, name)
    case RemoveComponent(name) => (Components, name)
    case SetCapability(c) => (Capabilities, c.name)
    case RemoveCapability(name) => (Capabilities, name)
    case SetThrustTarget(t) => (Targets, t.name)
    case RemoveThrustTarget(name) => (Targets, name)
    case SetAuxiliaryLoad(a) => (Loads, a.name)
    case RemoveAuxiliaryLoad(name) => (Loads, name)
    case SetMissionSegment(s) => (Segments, s.name)
    case RemoveMissionSegment(name) => (Segments, name)
    case MoveMissionSegment(name, _) => (Segments, name)
  }

  /** How the named entry is to read, from how it read before. */
  function Edited(was: Option<Entry>, e: ListEdit): Option<Entry> {
    match e
    case SetRequirement(r) => Some(ARequirement(r))
    case SetCase(c) => Some(ACase(c))
    case SetComponent(item) => Some(AComponent(item))
    case SetCapability(c) => Some(ACapability(c))
    case SetThrustTarget(t) => Some(ATarget(t))
    case SetAuxiliaryLoad(a) => Some(ALoad(a))
    case SetMissionSegment(s) => Some(ASegment(s))
    case SetRequirementPriority(_, priority) =>
      if was.Some? && was.value.ARequirement? then
        var r := was.value.requirement;
        Some(ARequirement(
          Requirement(r.name, r.basis, r.cases, r.minimum, r.maximum, r.margin, r.subject, priority)))
      else None
    case SetCasePriority(_, priority) =>
      if was.Some? && was.value.ACase? then
        Some(ACase(DesignCase(was.value.flown.flight, was.value.flown.clmaxEvidence, priority)))
      else None
    case SetCaseCLmax(_, clmax, evidence) =>
      if was.Some? && was.value.ACase? then
        var f := was.value.flown.flight;
        Some(ACase(DesignCase(
          FlightCase(f.name, f.configuration, f.densityBasis, f.viscosityBasis, clmax, f.density, f.viscosity, f.loadFactor),
          evidence, was.value.flown.priority)))
      else None
    case PlaceComponent(_, position) =>
      if was.Some? && was.value.AComponent? then
        var m := was.value.item;
        Some(AComponent(MassItem(m.name, m.basis, position, m.mass, m.role)))
      else None
    case MoveMissionSegment(_, _) => was
    case _ => None
  }

  predicate Sets(e: ListEdit) {
    || e.SetRequirement? || e.SetCase? || e.SetComponent? || e.SetCapability? || e.SetThrustTarget?
    || e.SetAuxiliaryLoad? || e.SetMissionSegment?
  }

  predicate Removes(e: ListEdit) {
    || e.RemoveRequirement? || e.RemoveCase? || e.RemoveComponent? || e.RemoveCapability? || e.RemoveThrustTarget?
    || e.RemoveAuxiliaryLoad? || e.RemoveMissionSegment?
  }

  /** One standing of the name is gone and the rest are in order. */
  predicate TakenOut(was: seq<string>, now: seq<string>, name: string) {
    exists i: nat :: i < |was| && was[i] == name && now == was[..i] + was[i + 1..]
  }

  /** One standing of the name is at the position and the rest are in order. */
  predicate SentTo(was: seq<string>, now: seq<string>, name: string, to: int) {
    0 <= to < |now| && now[to] == name && TakenOut(was, now[..to] + now[to + 1..], name)
  }

  /** A new name comes last, a removed one leaves the rest in order, a moved one
      stands where it was sent; every other list's names are as they were. */
  predicate NamesStand(l: Listings, after: Listings, e: ListEdit, list: Listed) {
    var was, now, name := NamesIn(l, list), NamesIn(after, list), Worked(e).1;
    if list != Worked(e).0 then now == was
    else if Sets(e) then now == if name in was then was else was + [name]
    else if Removes(e) then TakenOut(was, now, name)
    else if e.MoveMissionSegment? then SentTo(was, now, name, e.index)
    else now == was
  }

  // ----- One list -----------------------------------------------------------

  lemma PutNames<T>(items: seq<T>, nameOf: T -> string, item: T)
    ensures NamesOf(Put(items, nameOf, item), nameOf)
         == if nameOf(item) in NamesOf(items, nameOf) then NamesOf(items, nameOf) else NamesOf(items, nameOf) + [nameOf(item)]
  {
    var i, names := IndexOf(items, nameOf, nameOf(item)), NamesOf(items, nameOf);
    if i < |items| {
      assert names[i] == nameOf(item);
    }
  }

  lemma WithoutNames<T>(items: seq<T>, nameOf: T -> string, i: nat)
    requires i < |items|
    ensures NamesOf(Without(items, i), nameOf) == NamesOf(items, nameOf)[..i] + NamesOf(items, nameOf)[i + 1..]
  {
  }

  lemma AmendNames<T>(items: seq<T>, nameOf: T -> string, name: string, edit: T -> T)
    requires Amend(items, nameOf, name, edit).Ok? && forall x :: nameOf(edit(x)) == nameOf(x)
    ensures NamesOf(Amend(items, nameOf, name, edit).value, nameOf) == NamesOf(items, nameOf)
  {
  }

  lemma WithoutReads<T(!new)>(items: seq<T>, nameOf: T -> string, i: nat, other: string)
    requires Distinct(items, nameOf) && i < |items|
    ensures Lookup(Without(items, i), nameOf, other)
         == if other == nameOf(items[i]) then None else Lookup(items, nameOf, other)
  {
    hide Distinct, Lookup;
    var r := Without(items, i);
    WithoutIsOneLess(items, i);
    WithoutKeepsNamesDistinct(items, nameOf, i);
    LookupFindsTheIndex(r, nameOf, other);
    LookupFindsTheIndex(items, nameOf, other);
    var k, k' := IndexOf(items, nameOf, other), IndexOf(r, nameOf, other);
    if k' < |r| {
      var j := if k' < i then k' else k' + 1;
      assert nameOf(items[j]) == other && r[k'] == items[j];
      OnlyOneOfAName(items, nameOf, k, j);
    }
    if k < |items| && k != i {
      assert nameOf(r[if k < i then k else k - 1]) == other;
    }
  }

  /** What a dropped name finds in a name-distinct list is nothing; every other
      name finds what it found. */
  lemma DropReads<T(!new)>(items: seq<T>, nameOf: T -> string, name: string, other: string)
    requires Distinct(items, nameOf) && Drop(items, nameOf, name).Ok?
    ensures Lookup(Drop(items, nameOf, name).value, nameOf, other)
         == if other == name then None else Lookup(items, nameOf, other)
  {
    hide Distinct, Without, Lookup;
    WithoutReads(items, nameOf, IndexOf(items, nameOf, name), other);
  }

  lemma OnlyOneOfAName<T(!new)>(items: seq<T>, nameOf: T -> string, i: nat, k: nat)
    requires Distinct(items, nameOf) && i < |items| && k < |items| && nameOf(items[i]) == nameOf(items[k])
    ensures i == k
  {
  }

  lemma AmendReads<T>(items: seq<T>, nameOf: T -> string, name: string, edit: T -> T, other: string)
    requires Amend(items, nameOf, name, edit).Ok? && forall x :: nameOf(edit(x)) == nameOf(x)
    ensures var r := Amend(items, nameOf, name, edit).value;
            && Lookup(items, nameOf, name).Some?
            && Lookup(r, nameOf, other)
               == if other == name then Some(edit(Lookup(items, nameOf, name).value)) else Lookup(items, nameOf, other)
  {
    var i, r := IndexOf(items, nameOf, name), Amend(items, nameOf, name, edit).value;
    LookupFindsTheIndex(items, nameOf, name);
    LookupFindsTheIndex(items, nameOf, other);
    LookupFindsTheIndex(r, nameOf, other);
    assert forall j :: 0 <= j < |items| ==> nameOf(r[j]) == nameOf(items[j]);
    SameNamesSameIndex(items, r, nameOf, other);
    if other != name {
      assert IndexOf(items, nameOf, other) != i;
    }
  }

  lemma SameNamesSameIndex<T>(a: seq<T>, b: seq<T>, nameOf: T -> string, name: string)
    requires |a| == |b| && forall j :: 0 <= j < |a| ==> nameOf(a[j]) == nameOf(b[j])
    ensures IndexOf(a, nameOf, name) == IndexOf(b, nameOf, name)
  {
    var i, k := IndexOf(a, nameOf, name), IndexOf(b, nameOf, name);
    if i < |a| {
      assert nameOf(b[i]) == name;
    }
    if k < |b| {
      assert nameOf(a[k]) == name;
    }
  }

  /** Rearranging a name-distinct list leaves what every name finds. */
  lemma RearrangedReads<T(!new)>(a: seq<T>, b: seq<T>, nameOf: T -> string, name: string)
    requires multiset(a) == multiset(b) && Distinct(a, nameOf)
    ensures Lookup(a, nameOf, name) == Lookup(b, nameOf, name)
  {
    hide Distinct;
    DistinctIsAboutTheItems(a, b, nameOf);
    LookupFindsTheIndex(a, nameOf, name);
    LookupFindsTheIndex(b, nameOf, name);
    HasMeansNamed(a, nameOf, name);
    HasMeansNamed(b, nameOf, name);
    var i, k := IndexOf(a, nameOf, name), IndexOf(b, nameOf, name);
    if k < |b| {
      assert b[k] in multiset(a);
      var j :| 0 <= j < |a| && a[j] == b[k];
      assert nameOf(a[j]) == name;
    }
    if i < |a| {
      assert a[i] in multiset(b);
      var j :| 0 <= j < |b| && b[j] == a[i];
      OnlyOneOfAName(b, nameOf, k, j);
    }
  }

  lemma PutReads<T>(items: seq<T>, nameOf: T -> string, item: T, other: string)
    ensures Lookup(Put(items, nameOf, item), nameOf, other)
         == if other == nameOf(item) then Some(item) else Lookup(items, nameOf, other)
  {
    hide Put;
    if other == nameOf(item) {
      PutIsFound(items, nameOf, item);
    } else {
      PutLeavesOtherNames(items, nameOf, item, other);
    }
  }

  /** A drop takes the name out of the names, in place. */
  lemma DropNames<T>(items: seq<T>, nameOf: T -> string, name: string)
    requires Drop(items, nameOf, name).Ok?
    ensures TakenOut(NamesOf(items, nameOf), NamesOf(Drop(items, nameOf, name).value, nameOf), name)
  {
    var i := IndexOf(items, nameOf, name);
    WithoutNames(items, nameOf, i);
    assert NamesOf(items, nameOf)[i] == name;
  }

  lemma MoveNames<T(!new)>(items: seq<T>, nameOf: T -> string, name: string, to: int)
    requires Move(items, nameOf, name, to).Ok?
    ensures 0 <= to < |items| && SentTo(NamesOf(items, nameOf), NamesOf(Move(items, nameOf, name, to).value, nameOf), name, to)
    ensures multiset(Move(items, nameOf, name, to).value) == multiset(items)
  {
    hide Without, InsertAt;
    var i, r := IndexOf(items, nameOf, name), Move(items, nameOf, name, to).value;
    MoveIsAPermutationUndoneByMovingBack(items, i, to);
    WithoutIsOneLess(items, i);
    InsertIsOneMore(Without(items, i), to, items[i]);
    WithoutNames(items, nameOf, i);
    WithoutNames(r, nameOf, to);
    assert NamesOf(items, nameOf)[i] == name;
  }

  lemma MoveReads<T(!new)>(items: seq<T>, nameOf: T -> string, name: string, to: int, other: string)
    requires Distinct(items, nameOf) && Move(items, nameOf, name, to).Ok?
    ensures Lookup(Move(items, nameOf, name, to).value, nameOf, other) == Lookup(items, nameOf, other)
  {
    hide Move, Distinct;
    MoveNames(items, nameOf, name, to);
    RearrangedReads(items, Move(items, nameOf, name, to).value, nameOf, other);
  }

  // ----- Every list edit ----------------------------------------------------

  /** The entry worked on reads as edited; every other entry of every list reads as
      before. */
  ghost predicate WritesItsEntry(l: Listings, after: Listings, e: ListEdit, list: Listed, name: string) {
    EntryIn(after, list, name)
    == if (list, name) == Worked(e) then Edited(EntryIn(l, list, name), e) else EntryIn(l, list, name)
  }

  lemma SettingWritesItsEntry(l: Listings, e: ListEdit, list: Listed, name: string)
    requires Sets(e) && Relist(l, e).Ok?
    ensures WritesItsEntry(l, Relist(l, e).value, e, list, name)
  {
    hide Put, Lookup;
    match e
    case SetRequirement(r) => PutReads(l.requirements, RequirementName, r, name);
    case SetCase(c) => PutReads(l.cases, CaseName, c, name);
    case SetComponent(item) => PutReads(l.components, ComponentName, item, name);
    case SetCapability(c) => PutReads(l.capabilities, CapabilityName, c, name);
    case SetThrustTarget(t) => PutReads(l.targets, TargetName, t, name);
    case SetAuxiliaryLoad(a) => PutReads(l.auxiliary, LoadName, a, name);
    case SetMissionSegment(s) => PutReads(l.segments, SegmentName, s, name);
  }

  lemma RemovingWritesItsEntry(l: Listings, e: ListEdit, list: Listed, name: string)
    requires Removes(e) && Relist(l, e).Ok? && NamesDistinct(l)
    ensures WritesItsEntry(l, Relist(l, e).value, e, list, name)
  {
    hide Drop, Lookup, Distinct;
    match e
    case RemoveRequirement(n) => DropReads(l.requirements, RequirementName, n, name);
    case RemoveCase(n) => DropReads(l.cases, CaseName, n, name);
    case RemoveComponent(n) => DropReads(l.components, ComponentName, n, name);
    case RemoveCapability(n) => DropReads(l.capabilities, CapabilityName, n, name);
    case RemoveThrustTarget(n) => DropReads(l.targets, TargetName, n, name);
    case RemoveAuxiliaryLoad(n) => DropReads(l.auxiliary, LoadName, n, name);
    case RemoveMissionSegment(n) => DropReads(l.segments, SegmentName, n, name);
  }

  lemma AmendingWritesItsEntry(l: Listings, e: ListEdit, list: Listed, name: string)
    requires !Sets(e) && !Removes(e) && Relist(l, e).Ok? && NamesDistinct(l)
    ensures WritesItsEntry(l, Relist(l, e).value, e, list, name)
  {
    hide Amend, Move, Lookup, Distinct;
    match e
    case SetRequirementPriority(n, priority) =>
      AmendReads(l.requirements, RequirementName, n, RequirementAt(priority), name);
    case SetCasePriority(n, priority) => AmendReads(l.cases, CaseName, n, CaseAt(priority), name);
    case SetCaseCLmax(n, clmax, evidence) => AmendReads(l.cases, CaseName, n, CaseWith(clmax, evidence), name);
    case PlaceComponent(n, position) => AmendReads(l.components, ComponentName, n, ComponentAt(position), name);
    case MoveMissionSegment(n, index) => MoveReads(l.segments, SegmentName, n, index, name);
  }

  lemma SettingKeepsNames(l: Listings, e: ListEdit, list: Listed)
    requires Sets(e) && Relist(l, e).Ok?
    ensures NamesStand(l, Relist(l, e).value, e, list)
  {
    hide Put, NamesOf;
    match e
    case SetRequirement(r) => PutNames(l.requirements, RequirementName, r);
    case SetCase(c) => PutNames(l.cases, CaseName, c);
    case SetComponent(item) => PutNames(l.components, ComponentName, item);
    case SetCapability(c) => PutNames(l.capabilities, CapabilityName, c);
    case SetThrustTarget(t) => PutNames(l.targets, TargetName, t);
    case SetAuxiliaryLoad(a) => PutNames(l.auxiliary, LoadName, a);
    case SetMissionSegment(s) => PutNames(l.segments, SegmentName, s);
  }

  lemma RemovingKeepsNames(l: Listings, e: ListEdit, list: Listed)
    requires Removes(e) && Relist(l, e).Ok?
    ensures NamesStand(l, Relist(l, e).value, e, list)
  {
    hide Drop, NamesOf, TakenOut;
    match e
    case RemoveRequirement(n) => DropNames(l.requirements, RequirementName, n);
    case RemoveCase(n) => DropNames(l.cases, CaseName, n);
    case RemoveComponent(n) => DropNames(l.components, ComponentName, n);
    case RemoveCapability(n) => DropNames(l.capabilities, CapabilityName, n);
    case RemoveThrustTarget(n) => DropNames(l.targets, TargetName, n);
    case RemoveAuxiliaryLoad(n) => DropNames(l.auxiliary, LoadName, n);
    case RemoveMissionSegment(n) => DropNames(l.segments, SegmentName, n);
  }

  lemma AmendingKeepsNames(l: Listings, e: ListEdit, list: Listed)
    requires !Sets(e) && !Removes(e) && Relist(l, e).Ok?
    ensures NamesStand(l, Relist(l, e).value, e, list)
  {
    hide Amend, Move, NamesOf, SentTo;
    match e
    case SetRequirementPriority(n, priority) => AmendNames(l.requirements, RequirementName, n, RequirementAt(priority));
    case SetCasePriority(n, priority) => AmendNames(l.cases, CaseName, n, CaseAt(priority));
    case SetCaseCLmax(n, clmax, evidence) => AmendNames(l.cases, CaseName, n, CaseWith(clmax, evidence));
    case PlaceComponent(n, position) => AmendNames(l.components, ComponentName, n, ComponentAt(position));
    case MoveMissionSegment(n, index) => MoveNames(l.segments, SegmentName, n, index);
  }

  /** What an accepted list edit does, for every list and every name: the one entry
      it works on reads as edited, every other reads as before, its list's names
      stand as the kind of edit says and the others' as they were, and no field of
      the design changes. */
  lemma AListEditWritesItsEntry(p: Platform, d: Design, e: ListEdit, list: Listed, name: string, f: Field)
    requires Apply(p, d, ListCommand(e)).Ok? && NamesDistinct(ListingsOf(d))
    ensures var after := Apply(p, d, ListCommand(e)).value;
            && WritesItsEntry(ListingsOf(d), ListingsOf(after), e, list, name)
            && NamesStand(ListingsOf(d), ListingsOf(after), e, list)
            && Read(after, f) == Read(d, f)
  {
    hide Relist, ListEditIssues, WritesItsEntry, NamesStand, NamesDistinct, Read, WithListings;
    ListEditsKeepTheRest(d, e);
    var l := ListingsOf(d);
    if Sets(e) {
      SettingWritesItsEntry(l, e, list, name);
      SettingKeepsNames(l, e, list);
    } else if Removes(e) {
      RemovingWritesItsEntry(l, e, list, name);
      RemovingKeepsNames(l, e, list);
    } else {
      AmendingWritesItsEntry(l, e, list, name);
      AmendingKeepsNames(l, e, list);
    }
    ListsAreNotFields(d, Relist(l, e).value, f);
  }

  lemma ListsAreNotFields(d: Design, l: Listings, f: Field)
    ensures Read(WithListings(d, l), f) == Read(d, f)
  {
  }

  // ----- When a list edit is accepted ---------------------------------------

  predicate PointFits(at: Point) {
    Fits(at.x, DimLength) && Fits(at.y, DimLength) && Fits(at.z, DimLength)
  }

  predicate ComponentFits(m: MassItem) {
    Fits(m.mass, DimMass) && PointFits(m.position)
  }

  predicate CapabilityFits(c: PropulsionCapability) {
    && Fits(c.speed, DimSpeed) && Fits(c.density, DimDensity) && Fits(c.voltage, DimVoltage)
    && Fits(c.rpm, DimRotationRate) && Fits(c.thrust, DimForce) && Fits(c.electricalPower, DimPower)
    && Fits(c.current, DimCurrent)
  }

  predicate LoadFits(a: AuxiliaryLoad) {
    Fits(a.continuous, DimPower) && Fits(a.peak, DimPower)
  }

  predicate SegmentFits(s: MissionSegment) {
    && Fits(s.speed, DimSpeed) && Fits(s.climbAngle, DimAngle) && Fits(s.duration, DimTime)
    && Fits(s.distance, DimLength) && Fits(s.windAlongTrack, DimSpeed) && Fits(s.enteredPower, DimPower)
  }

  /** The point is stated in full, and in lengths. */
  predicate Placed(at: Point) {
    && at.x.dim == DimLength && at.y.dim == DimLength && at.z.dim == DimLength
  }

  /** A stall requirement still names the case. */
  predicate CaseIsNamed(d: Design, name: string) {
    exists r :: r in d.requirements && r.subject == SubjectStallSpeed && name in r.cases
  }

  /** A thrust target or a mission segment still names the capability point. */
  predicate CapabilityIsNamed(d: Design, name: string) {
    || (exists t :: t in d.propulsion.targets && t.capability == name)
    || (exists s :: s in d.mission.segments && s.capability == name)
  }

  /** What the edit itself states is complete and fits. */
  predicate Stands(e: ListEdit) {
    match e
    case SetRequirement(r) => r.name != ""
    case SetRequirementPriority(_, priority) => priority != PriorityUnknown
    case SetCase(c) => c.flight.name != ""
    case SetCasePriority(_, priority) => priority != PriorityUnknown
    case SetComponent(m) => m.name != "" && m.role != ComponentRoleUnknown && ComponentFits(m)
    case PlaceComponent(_, at) => Placed(at)
    case SetCapability(c) => c.name != "" && c.kind != CapabilityKindUnknown && CapabilityFits(c)
    case SetThrustTarget(t) => t.name != ""
    case SetAuxiliaryLoad(a) => a.name != "" && LoadFits(a)
    case SetMissionSegment(s) => s.name != "" && SegmentFits(s)
    case _ => true
  }

  predicate AcceptedOf(d: Design, e: ListEdit) {
    && Stands(e)
    && (!Sets(e) ==> Worked(e).1 in NamesIn(ListingsOf(d), Worked(e).0))
    && (e.RemoveCase? ==> !CaseIsNamed(d, e.name))
    && (e.RemoveCapability? ==> !CapabilityIsNamed(d, e.name))
    && (e.MoveMissionSegment? ==> 0 <= e.index < |d.mission.segments|)
  }

  lemma UseIsNaming(d: Design, name: string)
    ensures CaseInUse(d, name) <==> CaseIsNamed(d, name)
    ensures CapabilityInUse(d, name) <==> CapabilityIsNamed(d, name)
  {
    forall r | r in d.requirements
      ensures exists i :: 0 <= i < |d.requirements| && d.requirements[i] == r
    {
    }
    forall t | t in d.propulsion.targets
      ensures exists i :: 0 <= i < |d.propulsion.targets| && d.propulsion.targets[i] == t
    {
    }
    forall s | s in d.mission.segments
      ensures exists i :: 0 <= i < |d.mission.segments| && d.mission.segments[i] == s
    {
    }
  }

  lemma StandsExactlyWithoutIssues(d: Design, e: ListEdit)
    ensures ListEditIssues(d, e) == []
       <==> && Stands(e) && (e.RemoveCase? ==> !CaseInUse(d, e.name))
            && (e.RemoveCapability? ==> !CapabilityInUse(d, e.name))
  {
    hide CaseInUse, CapabilityInUse;
  }

  lemma HasIsNamed<T>(items: seq<T>, nameOf: T -> string, name: string)
    ensures Has(items, nameOf, name) <==> name in NamesOf(items, nameOf)
  {
    HasMeansNamed(items, nameOf, name);
    var names := NamesOf(items, nameOf);
    assert forall i :: 0 <= i < |items| ==> names[i] == nameOf(items[i]);
  }

  lemma RelistsExactly(l: Listings, e: ListEdit)
    ensures Relist(l, e).Ok?
       <==> && (!Sets(e) ==> Worked(e).1 in NamesIn(l, Worked(e).0))
            && (e.MoveMissionSegment? ==> 0 <= e.index < |l.segments|)
  {
    hide NamesOf, Put, IndexOf, Without, MoveTo;
    match Worked(e).0
    case Requirements => HasIsNamed(l.requirements, RequirementName, Worked(e).1);
    case Cases => HasIsNamed(l.cases, CaseName, Worked(e).1);
    case Components => HasIsNamed(l.components, ComponentName, Worked(e).1);
    case Capabilities => HasIsNamed(l.capabilities, CapabilityName, Worked(e).1);
    case Targets => HasIsNamed(l.targets, TargetName, Worked(e).1);
    case Loads => HasIsNamed(l.auxiliary, LoadName, Worked(e).1);
    case Segments => HasIsNamed(l.segments, SegmentName, Worked(e).1);
  }

  /** A list edit is accepted exactly when what it states is complete and of the
      right dimensions, the name it edits is listed, and nothing it removes is
      still referred to. */
  lemma AListEditIsAcceptedExactly(p: Platform, d: Design, e: ListEdit)
    ensures Apply(p, d, ListCommand(e)).Ok? <==> AcceptedOf(d, e)
  {
    hide Relist, ListEditIssues, CaseInUse, CapabilityInUse, CaseIsNamed, CapabilityIsNamed, Stands, NamesIn, Sets, Worked,
      WithListings;
    StandsExactlyWithoutIssues(d, e);
    RelistsExactly(ListingsOf(d), e);
    if e.RemoveCase? {
      UseIsNaming(d, e.name);
    } else if e.RemoveCapability? {
      UseIsNaming(d, e.name);
    }
  }

  // ----- What is entered stays of its dimension -----------------------------

  ghost predicate ListsFit(l: Listings) {
    && (forall m :: m in l.components ==> ComponentFits(m))
    && (forall c :: c in l.capabilities ==> CapabilityFits(c))
    && (forall a :: a in l.auxiliary ==> LoadFits(a))
    && (forall s :: s in l.segments ==> SegmentFits(s))
  }

  predicate FieldsFit(d: Design) {
    && Fits(d.mass, DimMass) && LimitsFit(d.propulsion.limits) && BatteryFits(d.battery)
    && Fits(d.wing.sweep, DimAngle) && Fits(d.wing.dihedral, DimAngle) && Fits(d.wing.twist, DimAngle)
    && Fits(d.wing.incidence, DimAngle) && Fits(d.wing.bodyWidth, DimLength)
  }

  /** Every mass, position, angle, width, rating, battery figure, capability, load
      and segment figure is left out or of its own dimension. */
  ghost predicate WellDimensioned(d: Design) {
    FieldsFit(d) && ListsFit(ListingsOf(d))
  }

  lemma PutHolds<T>(items: seq<T>, nameOf: T -> string, item: T, x: T)
    requires x in Put(items, nameOf, item)
    ensures x == item || x in items
  {
  }

  lemma DropHolds<T>(items: seq<T>, nameOf: T -> string, name: string, x: T)
    requires Drop(items, nameOf, name).Ok? && x in Drop(items, nameOf, name).value
    ensures x in items
  {
  }

  lemma MoveHolds<T(!new)>(items: seq<T>, nameOf: T -> string, name: string, to: int, x: T)
    requires Move(items, nameOf, name, to).Ok? && x in Move(items, nameOf, name, to).value
    ensures x in items
  {
    MoveNames(items, nameOf, name, to);
    assert x in multiset(Move(items, nameOf, name, to).value);
  }

  lemma PlacingHolds(items: seq<MassItem>, name: string, at: Point, x: MassItem)
    requires Amend(items, ComponentName, name, ComponentAt(at)).Ok?
    requires x in Amend(items, ComponentName, name, ComponentAt(at)).value
    ensures x in items || exists m :: m in items && x == m.(position := at)
  {
    var i := IndexOf(items, ComponentName, name);
    assert items[i] in items;
  }

  lemma ListEditsKeepComponents(l: Listings, e: ListEdit, m: MassItem)
    requires Relist(l, e).Ok? && Stands(e) && ListsFit(l) && m in Relist(l, e).value.components
    ensures ComponentFits(m)
  {
    hide Put, Drop, Amend, Move;
    match e
    case SetComponent(item) => PutHolds(l.components, ComponentName, item, m);
    case RemoveComponent(name) => DropHolds(l.components, ComponentName, name, m);
    case PlaceComponent(name, at) => PlacingHolds(l.components, name, at, m);
    case _ => assert Relist(l, e).value.components == l.components;
  }

  lemma ListEditsKeepCapabilities(l: Listings, e: ListEdit, c: PropulsionCapability)
    requires Relist(l, e).Ok? && Stands(e) && ListsFit(l) && c in Relist(l, e).value.capabilities
    ensures CapabilityFits(c)
  {
    hide Put, Drop, Amend, Move, CapabilityFits;
    match e
    case SetCapability(capability) => PutHolds(l.capabilities, CapabilityName, capability, c);
    case RemoveCapability(name) => DropHolds(l.capabilities, CapabilityName, name, c);
    case _ => assert Relist(l, e).value.capabilities == l.capabilities;
  }

  lemma ListEditsKeepLoads(l: Listings, e: ListEdit, a: AuxiliaryLoad)
    requires Relist(l, e).Ok? && Stands(e) && ListsFit(l) && a in Relist(l, e).value.auxiliary
    ensures LoadFits(a)
  {
    hide Put, Drop, Amend, Move, LoadFits;
    match e
    case SetAuxiliaryLoad(load) => PutHolds(l.auxiliary, LoadName, load, a);
    case RemoveAuxiliaryLoad(name) => DropHolds(l.auxiliary, LoadName, name, a);
    case _ => assert Relist(l, e).value.auxiliary == l.auxiliary;
  }

  lemma ListEditsKeepSegments(l: Listings, e: ListEdit, s: MissionSegment)
    requires Relist(l, e).Ok? && Stands(e) && ListsFit(l) && s in Relist(l, e).value.segments
    ensures SegmentFits(s)
  {
    hide Put, Drop, Amend, Move, SegmentFits;
    match e
    case SetMissionSegment(segment) => PutHolds(l.segments, SegmentName, segment, s);
    case RemoveMissionSegment(name) => DropHolds(l.segments, SegmentName, name, s);
    case MoveMissionSegment(name, index) => MoveHolds(l.segments, SegmentName, name, index, s);
    case _ => assert Relist(l, e).value.segments == l.segments;
  }

  lemma ListEditsKeepListsFitting(l: Listings, e: ListEdit)
    requires Relist(l, e).Ok? && Stands(e) && ListsFit(l)
    ensures ListsFit(Relist(l, e).value)
  {
    hide Relist, Stands, ComponentFits, CapabilityFits, LoadFits, SegmentFits;
    var after := Relist(l, e).value;
    forall m | m in after.components
      ensures ComponentFits(m)
    {
      ListEditsKeepComponents(l, e, m);
    }
    forall c | c in after.capabilities
      ensures CapabilityFits(c)
    {
      ListEditsKeepCapabilities(l, e, c);
    }
    forall a | a in after.auxiliary
      ensures LoadFits(a)
    {
      ListEditsKeepLoads(l, e, a);
    }
    forall s | s in after.segments
      ensures SegmentFits(s)
    {
      ListEditsKeepSegments(l, e, s);
    }
  }

  lemma FieldEditsKeepFieldsFitting(d: Design, e: FieldEdit)
    requires ApplyFieldEdit(d, e).Ok? && Acceptable(e) && FieldsFit(d)
    ensures FieldsFit(ApplyFieldEdit(d, e).value)
  {
    hide FieldEditIssues, LimitsFit, BatteryFits;
  }

  /** Every accepted edit keeps everything entered of its own dimension. */
  lemma EditsKeepDimensions(p: Platform, d: Design, c: Command)
    requires Apply(p, d, c).Ok? && WellDimensioned(d)
    ensures WellDimensioned(Apply(p, d, c).value)
  {
    hide ApplyListEdit, ApplyFieldEdit, ApplyDriverEdit, ListsFit, Relist, Stands, Acceptable, LimitsFit, BatteryFits, Fits;
    match c
    case ListCommand(e) =>
      ListEditsKeepTheRest(d, e);
      StandsExactlyWithoutIssues(d, e);
      ListEditsKeepListsFitting(ListingsOf(d), e);
      ListEditsKeepFields(d, e);
    case FieldCommand(e) =>
      AFieldEditIsAcceptedExactlyWhenAcceptable(p, d, e);
      FieldEditsKeepTheLists(d, e);
      FieldEditsKeepFieldsFitting(d, e);
    case DriverCommand(e) =>
  }

  lemma ListEditsKeepFields(d: Design, e: ListEdit)
    requires ApplyListEdit(d, e).Ok?
    ensures FieldsFit(ApplyListEdit(d, e).value) == FieldsFit(d)
  {
    hide Relist, ListEditIssues, LimitsFit, BatteryFits, Fits;
  }

  // ----- Why an edit is refused ---------------------------------------------

  /** What a list edit leaves out: a name, a role or a kind, a priority, a
      coordinate, or an entry of that name. A misplaced point, and an entry still
      referred to, are refused before the list is looked at. */
  predicate LeavesOut(d: Design, e: ListEdit) {
    var listed := Worked(e).1 in NamesIn(ListingsOf(d), Worked(e).0);
    match e
    case SetRequirement(r) => r.name == ""
    case SetRequirementPriority(_, priority) => priority == PriorityUnknown || !listed
    case SetCase(c) => c.flight.name == ""
    case RemoveCase(name) => !CaseIsNamed(d, name) && !listed
    case SetCasePriority(_, priority) => priority == PriorityUnknown || !listed
    case SetComponent(m) => m.name == "" || m.role == ComponentRoleUnknown
    case PlaceComponent(_, at) => PointFits(at) && (!Placed(at) || !listed)
    case SetCapability(c) => c.name == "" || c.kind == CapabilityKindUnknown
    case RemoveCapability(name) => !CapabilityIsNamed(d, name) && !listed
    case SetThrustTarget(t) => t.name == ""
    case SetAuxiliaryLoad(a) => a.name == ""
    case SetMissionSegment(s) => s.name == ""
    case _ => !listed
  }

  lemma IssuesSayWhy(d: Design, e: ListEdit)
    ensures ListEditIssues(d, e) != [] ==>
              ListEditIssues(d, e) == [if LeavesOut(d, e) then IssueMissing else IssueInvalid]
    ensures ListEditIssues(d, e) == [] ==>
              (LeavesOut(d, e) <==> !Sets(e) && Worked(e).1 !in NamesIn(ListingsOf(d), Worked(e).0))
  {
    hide CaseInUse, CapabilityInUse, CaseIsNamed, CapabilityIsNamed, NamesIn, ListingsOf;
    if e.RemoveCase? {
      UseIsNaming(d, e.name);
    } else if e.RemoveCapability? {
      UseIsNaming(d, e.name);
    }
  }

  lemma RelistingSaysWhy(l: Listings, e: ListEdit)
    requires Relist(l, e).Refused?
    ensures Relist(l, e).issues
         == [if Worked(e).1 in NamesIn(l, Worked(e).0) then IssueInvalid else IssueMissing]
  {
    hide NamesOf, Put, IndexOf, Without, MoveTo;
    match Worked(e).0
    case Requirements => HasIsNamed(l.requirements, RequirementName, Worked(e).1);
    case Cases => HasIsNamed(l.cases, CaseName, Worked(e).1);
    case Components => HasIsNamed(l.components, ComponentName, Worked(e).1);
    case Capabilities => HasIsNamed(l.capabilities, CapabilityName, Worked(e).1);
    case Targets => HasIsNamed(l.targets, TargetName, Worked(e).1);
    case Loads => HasIsNamed(l.auxiliary, LoadName, Worked(e).1);
    case Segments => HasIsNamed(l.segments, SegmentName, Worked(e).1);
  }

  /** A refused list edit gives one reason: missing exactly when it leaves something
      out, and otherwise invalid. */
  lemma ARefusedListEditSaysWhy(p: Platform, d: Design, e: ListEdit)
    requires Apply(p, d, ListCommand(e)).Refused?
    ensures Apply(p, d, ListCommand(e)).issues == [if LeavesOut(d, e) then IssueMissing else IssueInvalid]
  {
    hide Relist, ListEditIssues, LeavesOut, NamesIn, Worked, WithListings, ListingsOf;
    IssuesSayWhy(d, e);
    if ListEditIssues(d, e) == [] {
      RelistsExactly(ListingsOf(d), e);
      RelistingSaysWhy(ListingsOf(d), e);
    }
  }

  predicate LeavesAngleOut(e: FieldEdit) {
    e.SetWingAngles? && (e.sweep == UNSET || e.dihedral == UNSET || e.twist == UNSET || e.incidence == UNSET)
  }

  predicate MisstatesAngle(e: FieldEdit) {
    && e.SetWingAngles?
    && (!Fits(e.sweep, DimAngle) || !Fits(e.dihedral, DimAngle) || !Fits(e.twist, DimAngle) || !Fits(e.incidence, DimAngle)
        || e.sweepReference < 0.0 || e.sweepReference > 1.0)
  }

  /** A refused field edit says what is missing, what is invalid and what is not
      supported: an angle or a choice left out, a value of another dimension or out
      of its range, and a section polar. */
  lemma ARefusedFieldEditSaysWhy(p: Platform, d: Design, e: FieldEdit)
    requires Apply(p, d, FieldCommand(e)).Refused?
    ensures var issues := Apply(p, d, FieldCommand(e)).issues;
            && (IssueMissing in issues <==> LeavesAngleOut(e) || e.SetConfiguration? || e.SetMassMode?)
            && (IssueUnsupported in issues <==> e.SetDragPolar?)
            && (IssueInvalid in issues <==>
                  MisstatesAngle(e) || !(e.SetWingAngles? || e.SetConfiguration? || e.SetMassMode? || e.SetDragPolar?))
  {
    hide WithField, AngleFieldIssues, MisdimensionedLimits, MisdimensionedBattery, Fits;
    if e.SetWingAngles? {
      AngleSaysWhy(e.sweep);
      AngleSaysWhy(e.dihedral);
      AngleSaysWhy(e.twist);
      AngleSaysWhy(e.incidence);
    }
  }

  lemma AngleSaysWhy(angle: Quantity)
    ensures IssueMissing in AngleFieldIssues(angle) <==> angle == UNSET
    ensures IssueInvalid in AngleFieldIssues(angle) <==> !Fits(angle, DimAngle)
    ensures IssueUnsupported !in AngleFieldIssues(angle)
  {
  }

  /** The key is no size driver, or releasing one for it would leave no supported
      path. */
  predicate IsUnsupported(drivers: PlanformDrivers, e: DriverEdit) {
    var exchangeable := SuppliedDrivers(drivers) == 2 && SolvableWings.TaperStands(drivers);
    match e
    case SetDriver(key, _) =>
      DriverNamed(key).None? || (!HoldsDriver(drivers, key) && SuppliedDrivers(drivers) >= 2 && !exchangeable)
    case PromoteDriver(promote, _, _) =>
      DriverNamed(promote).None? || (!HoldsDriver(drivers, promote) && SuppliedDrivers(drivers) != 0 && !exchangeable)
    case _ => false
  }

  predicate IsUnstated(drivers: PlanformDrivers, e: DriverEdit) {
    match e
    case SetPlanformShape(shape, _) => shape == ShapeUnknown
    case PromoteDriver(promote, release, _) =>
      !HoldsDriver(drivers, promote) && (SuppliedDrivers(drivers) == 0 || release == NoKey)
    case _ => false
  }

  /** A refused driver edit other than sizing gives one reason: unsupported as
      above, missing exactly when the shape, the release or any driver to exchange is
      not stated, and otherwise invalid. */
  lemma ARefusedDriverEditSaysWhy(p: Platform, d: Design, e: DriverEdit)
    requires Apply(p, d, DriverCommand(e)).Refused? && !e.SizeAtStallLimit?
    ensures Apply(p, d, DriverCommand(e)).issues
         == [if IsUnsupported(d.wing.drivers, e) then IssueUnsupported
             else if IsUnstated(d.wing.drivers, e) then IssueMissing else IssueInvalid]
  {
    hide ApplySetDriver, ApplyPromoteDriver;
    match e
    case SetDriver(key, value) => ARefusedDriverSaysWhy(p, d.wing, key, value);
    case PromoteDriver(promote, release, value) => ARefusedPromotionSaysWhy(p, d.wing, promote, release, value);
    case SetTaperRatio(taper) =>
    case SetPlanformShape(shape, taper) =>
  }

  lemma RefusedSwapsSayWhy(p: Platform, d: WingDefinition, promote: ParameterKey)
    requires ValidSwaps(p, d, promote).Refused?
    ensures ValidSwaps(p, d, promote).issues
         == [if CanonicalSizeKey(promote).None? then IssueUnsupported
             else if HoldsDriver(d.drivers, promote) then IssueInvalid
             else if SuppliedDrivers(d.drivers) == 0 then IssueMissing else IssueUnsupported]
  {
    hide DriverKeys, SuppliedDrivers, HoldsDriver, CanonicalSizeKey, SwapsAmong;
    OnlySizeKeysAreHeld(d.drivers, promote);
    DriverKeysAreTheHeldOnes(d, promote);
  }

  lemma ARefusedDriverSaysWhy(p: Platform, d: WingDefinition, key: ParameterKey, value: Quantity)
    requires ApplySetDriver(p, d, key, value).Refused?
    ensures ApplySetDriver(p, d, key, value).issues
         == [if IsUnsupported(d.drivers, SetDriver(key, value)) then IssueUnsupported else IssueInvalid]
  {
    hide DriverKeys, ValidSwaps, SuppliedDrivers, HoldsDriver, CanonicalSizeKey, DriverNamed, WithSizeDriver,
      SolvableWings.TaperStands, ResolveTaper;
    OnlySizeKeysAreHeld(d.drivers, key);
    DriverKeysAreTheHeldOnes(d, key);
    SwapsAreTheHeldPair(p, d, key);
    SolvableWings.TaperStandsExactly(d.drivers);
    if ValidSwaps(p, d, key).Refused? {
      RefusedSwapsSayWhy(p, d, key);
    }
  }

  lemma ARefusedPromotionSaysWhy(
    p: Platform, d: WingDefinition, promote: ParameterKey, release: ParameterKey, value: Quantity)
    requires ApplyPromoteDriver(p, d, promote, release, value).Refused?
    ensures ApplyPromoteDriver(p, d, promote, release, value).issues
         == [if IsUnsupported(d.drivers, PromoteDriver(promote, release, value)) then IssueUnsupported
             else if IsUnstated(d.drivers, PromoteDriver(promote, release, value)) then IssueMissing else IssueInvalid]
  {
    hide DriverKeys, ValidSwaps, SuppliedDrivers, HoldsDriver, CanonicalSizeKey, DriverNamed, WithSizeDriver,
      SolvableWings.TaperStands, ResolveTaper, PlaneSizeKey;
    OnlySizeKeysAreHeld(d.drivers, promote);
    SwapsAreTheHeldPair(p, d, promote);
    SolvableWings.TaperStandsExactly(d.drivers);
    if ValidSwaps(p, d, promote).Refused? {
      RefusedSwapsSayWhy(p, d, promote);
    }
  }
}
