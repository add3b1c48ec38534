/** The closed set of edits a design changes by. */
module Commands {
  import opened Quantities
  import opened Definition
  import opened Planforms
  import opened Wings
  import opened Sizing
  import opened Keys
  import opened Lists

  /** Edits of the plan form's drivers, its taper ratio and its shape. */
  datatype DriverEdit =
    | SetDriver(key: ParameterKey, value: Quantity)
    | PromoteDriver(promote: ParameterKey, release: ParameterKey, promoted: Quantity)
    | SetTaperRatio(taper: real)
    | SetPlanformShape(shape: PlanformShape, taperRatio: real)
    | SizeAtStallLimit(hold: ParameterKey, scope: CaseScope)

  /** Edits of the name-keyed lists. */
  datatype ListEdit =
    | SetRequirement(requirement: Requirement)
    | RemoveRequirement(name: string)
    | SetRequirementPriority(name: string, priority: Priority)
    | SetCase(flown: DesignCase)
    | RemoveCase(name: string)
    | SetCasePriority(name: string, priority: Priority)
    | SetCaseCLmax(name: string, clmax: LiftCoefficient, evidence: EvidenceQuality)
    | SetComponent(item: MassItem)
    | PlaceComponent(name: string, position: Point)
    | RemoveComponent(name: string)
    | SetCapability(capability: PropulsionCapability)
    | RemoveCapability(name: string)
    | SetThrustTarget(target: ThrustTarget)
    | RemoveThrustTarget(name: string)
    | SetAuxiliaryLoad(load: AuxiliaryLoad)
    | RemoveAuxiliaryLoad(name: string)
    | SetMissionSegment(segment: MissionSegment)
    | RemoveMissionSegment(name: string)
    | MoveMissionSegment(name: string, index: int)

  /** Edits that overwrite single fields. */
  datatype FieldEdit =
    | SetMass(mass: Quantity, basis: string)
    | SetWingAngles(sweep: Quantity, dihedral: Quantity, twist: Quantity, incidence: Quantity,
                    sweepReference: real, dihedralMode: DihedralMode)
    | SetConfiguration(tail: TailGeometry, configuration: Configuration)
    | SetMassMode(mode: MassMode)
    | SetBodyWidth(width: Quantity)
    | SetDragPolar(polar: DragPolar)
    | SetPropulsionEfficiency(efficiency: PropulsionEfficiency)
    | SetPropulsionLimits(limits: PropulsionLimits)
    | SetBattery(battery: Battery)
    | SetMissionProfile(name: string, basis: string, reserveBasis: string, reserveFraction: real)

  datatype Command = DriverCommand(driver: DriverEdit) | ListCommand(list: ListEdit) | FieldCommand(field: FieldEdit)

  // ----- Drivers ------------------------------------------------------------

  /** Which named solve path a driver set selects. */
  function SolvePath(p: Platform, drivers: PlanformDrivers): Outcome<SolveMode> {
    var t := ResolveTaper(drivers);
    var m := ResolveMode(p, drivers, TaperOrZero(t));
    if t.Ok? && m.Ok? then Ok(m.value) else Refused(IssuesOf(t) + IssuesOf(m))
  }

  /** The driver set with one driver exchanged for a placeholder of another. */
  function Trial(drivers: PlanformDrivers, release: ParameterKey, promote: ParameterKey): PlanformDrivers {
    WithSizeDriver(WithSizeDriver(drivers, release, UNSET), promote, Quantity(1.0, SizeDriverDimension(promote)))
  }

  function SwapsAmong(
    p: Platform, drivers: PlanformDrivers, promote: ParameterKey, held: seq<ParameterKey>): seq<ParameterKey>
  {
    if held == [] then []
    else
      var last := held[|held| - 1];
      SwapsAmong(p, drivers, promote, held[..|held| - 1])
      + if SolvePath(p, Trial(drivers, last, promote)).Ok? then [last] else []
  }

  /** The drivers that could be released to make promote a driver. */
  function ValidSwaps(p: Platform, d: WingDefinition, promote: ParameterKey): Outcome<seq<ParameterKey>> {
    match CanonicalSizeKey(promote)
    case None => Refused([IssueUnsupported])
    case Some(canonical) =>
      if HoldsDriver(d.drivers, canonical) then Refused([IssueInvalid])
      else if DriverKeys(d) == [] then Refused([IssueMissing])
      else
        var swaps := SwapsAmong(p, d.drivers, canonical, DriverKeys(d));
        if swaps == [] then Refused([IssueUnsupported]) else Ok(swaps)
  }

  method FindValidSwaps(p: Platform, d: WingDefinition, promote: ParameterKey) returns (r: Outcome<seq<ParameterKey>>)
    ensures r == ValidSwaps(p, d, promote)
  {
    hide SolvePath, DriverKeys;
    var canonical := CanonicalSizeKey(promote);
    if canonical.None? {
      return Refused([IssueUnsupported]);
    }
    if HoldsDriver(d.drivers, canonical.value) {
      return Refused([IssueInvalid]);
    }
    var held := ListDriverKeys(d);
    if held == [] {
      return Refused([IssueMissing]);
    }
    var swaps: seq<ParameterKey> := [];
    for n := 0 to |held|
      invariant swaps == SwapsAmong(p, d.drivers, canonical.value, held[..n])
    {
      assert held[..n + 1][..n] == held[..n];
      var trial := Trial(d.drivers, held[n], canonical.value);
      if SolvePath(p, trial).Ok? {
        swaps := swaps + [held[n]];
      }
    }
    assert held[..|held|] == held;
    if swaps == [] {
      return Refused([IssueUnsupported]);
    }
    r := Ok(swaps);
  }

  /** A driver value of the wrong dimension, or not positive, never reaches the
      solver. */
  function DriverValueIssues(key: ParameterKey, value: Quantity): Issues {
    if value.dim != SizeDriverDimension(key) || value.si <= 0.0 then [IssueInvalid] else []
  }

  const DRIVER_COUNT := 2

  function ApplySetDriver(p: Platform, d: WingDefinition, key: ParameterKey, value: Quantity): Outcome<PlanformDrivers> {
    match CanonicalSizeKey(key)
    case None => Refused([IssueUnsupported])
    case Some(canonical) =>
      if !HoldsDriver(d.drivers, canonical) && |DriverKeys(d)| >= DRIVER_COUNT then
        var _ :- ValidSwaps(p, d, key);
        Refused([IssueInvalid])
      else if value.Supplied() && DriverValueIssues(canonical, value) != [] then
        Refused(DriverValueIssues(canonical, value))
      else if !value.Supplied() && !HoldsDriver(d.drivers, canonical) then Refused([IssueInvalid])
      else Ok(WithSizeDriver(d.drivers, canonical, value))
  }

  function ApplyPromoteDriver(
    p: Platform, d: WingDefinition, promote: ParameterKey, release: ParameterKey, value: Quantity): Outcome<PlanformDrivers>
  {
    var swaps :- ValidSwaps(p, d, promote);
    var promoted, released := CanonicalSizeKey(promote).value, CanonicalSizeKey(release);
    if release == NoKey then Refused([IssueMissing])
    else if released.None? || PlaneSizeKey(d.dihedralMode, released.value) !in swaps then Refused([IssueInvalid])
    else if DriverValueIssues(promoted, value) != [] then Refused(DriverValueIssues(promoted, value))
    else Ok(WithSizeDriver(WithSizeDriver(d.drivers, released.value, UNSET), promoted, value))
  }

  function ApplyShape(d: WingDefinition, shape: PlanformShape, taper: real): Outcome<PlanformDrivers> {
    match shape
    case ShapeUnknown => Refused([IssueMissing])
    case ShapeRectangle =>
      if taper != 1.0 then Refused([IssueInvalid]) else Ok(d.drivers.(shape := shape, taperRatio := taper))
    case ShapeTrapezoid =>
      if taper <= 0.0 then Refused([IssueInvalid]) else Ok(d.drivers.(shape := shape, taperRatio := taper))
  }

  /** A plan-view area as the area driver of the plane the drivers are in. */
  function AreaDriverFor(p: Platform, d: WingDefinition, projected: Quantity): Outcome<Quantity> {
    if d.dihedralMode != DihedralHoldPanel || d.dihedral.si == 0.0 then Ok(projected)
    else Unfolded(p, projected, d.dihedral, DimArea)
  }

  /** Every driver but one released, in the order they are held. */
  function Released(drivers: PlanformDrivers, held: seq<ParameterKey>, hold: ParameterKey): PlanformDrivers {
    if held == [] then drivers
    else
      var last := held[|held| - 1];
      var before := Released(drivers, held[..|held| - 1], hold);
      if CanonicalSizeKey(last) != Some(hold) then WithSizeDriver(before, last, UNSET) else before
  }

  function ApplySizing(p: Platform, d: Design, key: ParameterKey, scope: CaseScope): Outcome<PlanformDrivers> {
    var hold := CanonicalSizeKey(key);
    if hold.None? || hold.value == ParamAreaReference then Refused([IssueUnsupported])
    else if !HoldsDriver(d.wing.drivers, hold.value) then Refused([IssueInvalid])
    else
      var bound :- AreaLowerBound(d, scope);
      if !bound.known then Refused([IssueMissing])
      else
        var area :- AreaDriverFor(p, d.wing, bound.value);
        Ok(WithSizeDriver(Released(d.wing.drivers, DriverKeys(d.wing), hold.value), ParamAreaReference, area))
  }

  /** Releases the held drivers one by one, then writes the area. */
  method SizeDrivers(p: Platform, d: Design, key: ParameterKey, scope: CaseScope) returns (r: Outcome<PlanformDrivers>)
    ensures r == ApplySizing(p, d, key, scope)
  {
    hide AreaLowerBound, AreaDriverFor, DriverKeys, WithSizeDriver, HoldsDriver;
    var hold := CanonicalSizeKey(key);
    if hold.None? || hold.value == ParamAreaReference {
      return Refused([IssueUnsupported]);
    }
    if !HoldsDriver(d.wing.drivers, hold.value) {
      return Refused([IssueInvalid]);
    }
    var bound := ComputeAreaLowerBound(d, scope);
    if bound.Refused? {
      return Refused(bound.issues);
    }
    if !bound.value.known {
      return Refused([IssueMissing]);
    }
    var area := AreaDriverFor(p, d.wing, bound.value.value);
    if area.Refused? {
      return Refused(area.issues);
    }
    var held := ListDriverKeys(d.wing);
    var drivers := d.wing.drivers;
    for n := 0 to |held|
      invariant drivers == Released(d.wing.drivers, held[..n], hold.value)
    {
      assert held[..n + 1][..n] == held[..n];
      if CanonicalSizeKey(held[n]) != hold {
        drivers := WithSizeDriver(drivers, held[n], UNSET);
      }
    }
    assert held[..|held|] == held;
    r := Ok(WithSizeDriver(drivers, ParamAreaReference, area.value));
  }

  function ApplyDriverEdit(p: Platform, d: Design, e: DriverEdit): Outcome<PlanformDrivers> {
    match e
    case SetDriver(key, value) => ApplySetDriver(p, d.wing, key, value)
    case PromoteDriver(promote, release, value) => ApplyPromoteDriver(p, d.wing, promote, release, value)
    case SetTaperRatio(t) => if t <= 0.0 then Refused([IssueInvalid]) else Ok(d.wing.drivers.(taperRatio := t))
    case SetPlanformShape(shape, t) => ApplyShape(d.wing, shape, t)
    case SizeAtStallLimit(hold, scope) => ApplySizing(p, d, hold, scope)
  }

  // ----- Lists --------------------------------------------------------------

  predicate WrongDimension(q: Quantity, want: Dimension) {
    q.Supplied() && q.dim != want
  }

  function Unless(refused: bool, issue: IssueKind): Issues {
    if refused then [issue] else []
  }

  predicate MisplacedPoint(at: Point) {
    WrongDimension(at.x, DimLength) || WrongDimension(at.y, DimLength) || WrongDimension(at.z, DimLength)
  }

  predicate MisdimensionedCapability(c: PropulsionCapability) {
    || WrongDimension(c.speed, DimSpeed) || WrongDimension(c.density, DimDensity)
    || WrongDimension(c.voltage, DimVoltage) || WrongDimension(c.rpm, DimRotationRate)
    || WrongDimension(c.thrust, DimForce) || WrongDimension(c.electricalPower, DimPower)
    || WrongDimension(c.current, DimCurrent)
  }

  predicate MisdimensionedSegment(s: MissionSegment) {
    || WrongDimension(s.speed, DimSpeed) || WrongDimension(s.climbAngle, DimAngle)
    || WrongDimension(s.duration, DimTime) || WrongDimension(s.distance, DimLength)
    || WrongDimension(s.windAlongTrack, DimSpeed) || WrongDimension(s.enteredPower, DimPower)
  }

  /** A requirement of the design still names the case. */
  predicate CaseInUse(d: Design, name: string) {
    exists i :: 0 <= i < |d.requirements| && PerCase(d.requirements[i].subject) && d.requirements[i].AppliesTo(name)
  }

  /** A thrust target or a mission segment still names the capability point. */
  predicate CapabilityInUse(d: Design, name: string) {
    || (exists i :: 0 <= i < |d.propulsion.targets| && d.propulsion.targets[i].capability == name)
    || (exists i :: 0 <= i < |d.mission.segments| && d.mission.segments[i].capability == name)
  }

  /** What a list edit is refused for before the list is looked at. */
  function ListEditIssues(d: Design, e: ListEdit): Issues {
    match e
    case SetRequirement(r) => Unless(r.name == "", IssueMissing)
    case SetRequirementPriority(_, priority) => Unless(priority == PriorityUnknown, IssueMissing)
    case SetCase(c) => Unless(c.flight.name == "", IssueMissing)
    case RemoveCase(name) => Unless(CaseInUse(d, name), IssueInvalid)
    case SetCasePriority(_, priority) => Unless(priority == PriorityUnknown, IssueMissing)
    case SetComponent(item) =>
      if item.name == "" || item.role == ComponentRoleUnknown then [IssueMissing]
      else Unless(WrongDimension(item.mass, DimMass) || MisplacedPoint(item.position), IssueInvalid)
    case PlaceComponent(_, at) =>
      if MisplacedPoint(at) then [IssueInvalid] else Unless(!at.Stated(), IssueMissing)
    case SetCapability(c) =>
      if c.name == "" || c.kind == CapabilityKindUnknown then [IssueMissing]
      else Unless(MisdimensionedCapability(c), IssueInvalid)
    case RemoveCapability(name) => Unless(CapabilityInUse(d, name), IssueInvalid)
    case SetThrustTarget(t) => Unless(t.name == "", IssueMissing)
    case SetAuxiliaryLoad(a) =>
      if a.name == "" then [IssueMissing]
      else Unless(WrongDimension(a.continuous, DimPower) || WrongDimension(a.peak, DimPower), IssueInvalid)
    case SetMissionSegment(s) =>
      if s.name == "" then [IssueMissing] else Unless(MisdimensionedSegment(s), IssueInvalid)
    case _ => []
  }

  function RequirementAt(priority: Priority): Requirement -> Requirement {
    (r: Requirement) => r.(priority := priority)
  }

  function CaseAt(priority: Priority): DesignCase -> DesignCase {
    (c: DesignCase) => c.(priority := priority)
  }

  function CaseWith(clmax: LiftCoefficient, evidence: EvidenceQuality): DesignCase -> DesignCase {
    (c: DesignCase) => c.(flight := c.flight.(clmax := clmax), clmaxEvidence := evidence)
  }

  function ComponentAt(position: Point): MassItem -> MassItem {
    (m: MassItem) => m.(position := position)
  }

  /** The seven name-keyed lists of a design. */
  datatype Listings = Listings(
    requirements: seq<Requirement>,
    cases: seq<DesignCase>,
    components: seq<MassItem>,
    capabilities: seq<PropulsionCapability>,
    targets: seq<ThrustTarget>,
    auxiliary: seq<AuxiliaryLoad>,
    segments: seq<MissionSegment>
  )

  function ListingsOf(d: Design): Listings {
    Listings(d.requirements, d.cases, d.components, d.propulsion.capabilities, d.propulsion.targets, d.auxiliary,
             d.mission.segments)
  }

  function WithListings(d: Design, l: Listings): Design {
    d.(requirements := l.requirements, cases := l.cases, components := l.components,
       propulsion := d.propulsion.(capabilities := l.capabilities, targets := l.targets),
       auxiliary := l.auxiliary, mission := d.mission.(segments := l.segments))
  }

  /** The edited lists. */
  function Relist(l: Listings, e: ListEdit): Outcome<Listings> {
    match e
    case SetRequirement(r) => Ok(l.(requirements := Put(l.requirements, RequirementName, r)))
    case RemoveRequirement(name) =>
      var kept :- Drop(l.requirements, RequirementName, name);
      Ok(l.(requirements := kept))
    case SetRequirementPriority(name, priority) =>
      var edited :- Amend(l.requirements, RequirementName, name, RequirementAt(priority));
      Ok(l.(requirements := edited))
    case SetCase(c) => Ok(l.(cases := Put(l.cases, CaseName, c)))
    case RemoveCase(name) =>
      var kept :- Drop(l.cases, CaseName, name);
      Ok(l.(cases := kept))
    case SetCasePriority(name, priority) =>
      var edited :- Amend(l.cases, CaseName, name, CaseAt(priority));
      Ok(l.(cases := edited))
    case SetCaseCLmax(name, clmax, evidence) =>
      var edited :- Amend(l.cases, CaseName, name, CaseWith(clmax, evidence));
      Ok(l.(cases := edited))
    case SetComponent(item) => Ok(l.(components := Put(l.components, ComponentName, item)))
    case PlaceComponent(name, position) =>
      var edited :- Amend(l.components, ComponentName, name, ComponentAt(position));
      Ok(l.(components := edited))
    case RemoveComponent(name) =>
      var kept :- Drop(l.components, ComponentName, name);
      Ok(l.(components := kept))
    case SetCapability(c) => Ok(l.(capabilities := Put(l.capabilities, CapabilityName, c)))
    case RemoveCapability(name) =>
      var kept :- Drop(l.capabilities, CapabilityName, name);
      Ok(l.(capabilities := kept))
    case SetThrustTarget(t) => Ok(l.(targets := Put(l.targets, TargetName, t)))
    case RemoveThrustTarget(name) =>
      var kept :- Drop(l.targets, TargetName, name);
      Ok(l.(targets := kept))
    case SetAuxiliaryLoad(a) => Ok(l.(auxiliary := Put(l.auxiliary, LoadName, a)))
    case RemoveAuxiliaryLoad(name) =>
      var kept :- Drop(l.auxiliary, LoadName, name);
      Ok(l.(auxiliary := kept))
    case SetMissionSegment(s) => Ok(l.(segments := Put(l.segments, SegmentName, s)))
    case RemoveMissionSegment(name) =>
      var kept :- Drop(l.segments, SegmentName, name);
      Ok(l.(segments := kept))
    case MoveMissionSegment(name, index) =>
      var moved :- Move(l.segments, SegmentName, name, index);
      Ok(l.(segments := moved))
  }

  function ApplyListEdit(d: Design, e: ListEdit): Outcome<Design> {
    if ListEditIssues(d, e) != [] then Refused(ListEditIssues(d, e))
    else
      var l :- Relist(ListingsOf(d), e);
      Ok(WithListings(d, l))
  }

  // ----- Fields -------------------------------------------------------------

  function AngleFieldIssues(angle: Quantity): Issues {
    if !angle.Supplied() then [IssueMissing] else Unless(angle.dim != DimAngle, IssueInvalid)
  }

  predicate MisdimensionedLimits(l: PropulsionLimits) {
    || WrongDimension(l.maxContinuousPower, DimPower) || WrongDimension(l.maxPeakPower, DimPower)
    || WrongDimension(l.maxRpm, DimRotationRate) || WrongDimension(l.maxVoltage, DimVoltage)
    || WrongDimension(l.propellerDiameter, DimLength) || WrongDimension(l.propellerHubHeight, DimLength)
  }

  predicate MisdimensionedBattery(b: Battery) {
    || WrongDimension(b.capacity, DimCharge) || WrongDimension(b.nominalVoltage, DimVoltage)
    || WrongDimension(b.energy, DimEnergy) || WrongDimension(b.continuousCurrentLimit, DimCurrent)
    || WrongDimension(b.peakCurrentLimit, DimCurrent)
  }

  function FieldEditIssues(e: FieldEdit): Issues {
    match e
    case SetMass(mass, _) => Unless(WrongDimension(mass, DimMass), IssueInvalid)
    case SetWingAngles(sweep, dihedral, twist, incidence, reference, _) =>
      AngleFieldIssues(sweep) + AngleFieldIssues(dihedral) + AngleFieldIssues(twist) + AngleFieldIssues(incidence)
      + Unless(reference < 0.0 || reference > 1.0, IssueInvalid)
    case SetConfiguration(_, configuration) => Unless(configuration == ConfigurationUnknown, IssueMissing)
    case SetMassMode(mode) => Unless(mode == MassModeUnknown, IssueMissing)
    case SetBodyWidth(width) => Unless(width.Supplied() && !width.Positive(DimLength), IssueInvalid)
    case SetDragPolar(polar) => Unless(polar != NO_POLAR && polar.scope == ScopeAirfoilSection, IssueUnsupported)
    case SetPropulsionEfficiency(efficiency) => Unless(efficiency.total > 1.0, IssueInvalid)
    case SetPropulsionLimits(limits) => Unless(MisdimensionedLimits(limits), IssueInvalid)
    case SetBattery(battery) => Unless(MisdimensionedBattery(battery), IssueInvalid)
    case SetMissionProfile(_, _, _, reserve) => Unless(reserve < 0.0 || reserve >= 1.0, IssueInvalid)
  }

  function WithField(d: Design, e: FieldEdit): Design {
    match e
    case SetMass(mass, basis) => d.(mass := mass, massBasis := basis)
    case SetWingAngles(sweep, dihedral, twist, incidence, reference, mode) =>
      d.(wing := d.wing.(sweep := sweep, dihedral := dihedral, twist := twist, incidence := incidence,
         sweepReference := reference, dihedralMode := mode))
    case SetConfiguration(tail, configuration) => d.(configuration := configuration, tail := tail)
    case SetMassMode(mode) => d.(massMode := mode)
    case SetBodyWidth(width) => d.(wing := d.wing.(bodyWidth := width))
    case SetDragPolar(polar) => d.(polar := polar)
    case SetPropulsionEfficiency(efficiency) => d.(propulsion := d.propulsion.(efficiency := efficiency))
    case SetPropulsionLimits(limits) => d.(propulsion := d.propulsion.(limits := limits))
    case SetBattery(battery) => d.(battery := battery)
    case SetMissionProfile(name, basis, reserveBasis, reserve) =>
      d.(mission := d.mission.(name := name, basis := basis, reserveBasis := reserveBasis, reserveFraction := reserve))
  }

  function ApplyFieldEdit(d: Design, e: FieldEdit): Outcome<Design> {
    if FieldEditIssues(e) != [] then Refused(FieldEditIssues(e)) else Ok(WithField(d, e))
  }

  // ----- One command --------------------------------------------------------

  function WithDrivers(d: Design, drivers: PlanformDrivers): Design {
    d.(wing := d.wing.(drivers := drivers))
  }

  /** The edited design, or why the edit was refused. */
  function Apply(p: Platform, d: Design, c: Command): Outcome<Design> {
    match c
    case DriverCommand(e) =>
      var drivers :- ApplyDriverEdit(p, d, e);
      Ok(WithDrivers(d, drivers))
    case ListCommand(e) => ApplyListEdit(d, e)
    case FieldCommand(e) => ApplyFieldEdit(d, e)
  }
}
