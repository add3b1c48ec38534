/** The authoritative parametric definition of one candidate aircraft. */
module Definition {
  import opened Quantities

  datatype PlanformShape = ShapeUnknown | ShapeRectangle | ShapeTrapezoid

  datatype AreaBasis = AreaBasisUnknown | AreaBasisReferenceTrapezoid | AreaBasisExposedPanels

  datatype DihedralMode = DihedralModeUnknown | DihedralHoldPanel | DihedralHoldProjected

  datatype Priority = PriorityUnknown | PriorityRequired | PriorityPreferred

  datatype EvidenceQuality =
    EvidenceUnstated | EvidenceAssumed | EvidenceMeasured | EvidenceSimulated

  datatype CoefficientScope = ScopeUnknown | ScopeAircraft | ScopeAirfoilSection

  datatype Configuration =
    ConfigurationUnknown | ConfigurationConventionalTail | ConfigurationVTail | ConfigurationFlyingWing

  datatype MassMode = MassModeUnknown | MassModeEntered | MassModeComponents

  datatype ComponentRole =
    | ComponentRoleUnknown | ComponentAirframe | ComponentBattery | ComponentMotor
    | ComponentAvionics | ComponentPayload | ComponentOther

  datatype RequirementSubject =
    | SubjectUnknown | SubjectStallSpeed | SubjectWingArea | SubjectSpan | SubjectMass
    | SubjectAspectRatio | SubjectWingLoadingMass | SubjectElectricalPower | SubjectMissionEnergy
    | SubjectMissionDuration | SubjectMissionRange | SubjectPropellerClearance

  datatype CapabilityKind = CapabilityKindUnknown | CapabilityStatic | CapabilityInFlight

  datatype RegulatorSide = RegulatorSideUnknown | RegulatorPackSide | RegulatorLoadSide

  datatype BatteryEnergyMode =
    BatteryEnergyModeUnknown | BatteryEnergyFromCapacity | BatteryEnergyEntered

  datatype SegmentKind =
    | SegmentKindUnknown | SegmentLaunch | SegmentClimb | SegmentCruise | SegmentLoiter
    | SegmentReturn | SegmentRecovery | SegmentOther

  datatype SegmentModel = SegmentModelUnknown | SegmentModelPolar | SegmentModelEntered

  datatype SegmentTiming = SegmentTimingUnknown | SegmentTimingDuration | SegmentTimingDistance

  /** What a builder chose: exactly two of span, area, aspect ratio and root
      chord. A zero aspect ratio means it is not one of them. */
  datatype PlanformDrivers = PlanformDrivers(
    span: Quantity,
    area: Quantity,
    rootChord: Quantity,
    aspectRatio: real,
    taperRatio: real,
    shape: PlanformShape
  )

  datatype Airfoil = Airfoil(designation: string, evidence: string, thicknessRatio: real)

  const NO_AIRFOIL := Airfoil("", "", 0.0)

  datatype WingDefinition = WingDefinition(
    name: string,
    rootAirfoil: Airfoil,
    tipAirfoil: Airfoil,
    drivers: PlanformDrivers,
    sweep: Quantity,
    dihedral: Quantity,
    twist: Quantity,
    incidence: Quantity,
    bodyWidth: Quantity,
    sweepReference: real,
    areaBasis: AreaBasis,
    dihedralMode: DihedralMode
  )

  datatype TailSurface = TailSurface(area: Quantity, span: Quantity, arm: Quantity)

  const NO_SURFACE := TailSurface(UNSET, UNSET, UNSET)

  datatype VTailPanels = VTailPanels(panelArea: Quantity, panelSpan: Quantity, cant: Quantity, arm: Quantity)

  const NO_VTAIL := VTailPanels(UNSET, UNSET, UNSET, UNSET)

  datatype TailGeometry = TailGeometry(horizontal: TailSurface, vertical: TailSurface, vtail: VTailPanels)

  const NO_TAIL := TailGeometry(NO_SURFACE, NO_SURFACE, NO_VTAIL)

  datatype LiftCoefficient = LiftCoefficient(basis: string, max: real, scope: CoefficientScope)

  datatype FlightCase = FlightCase(
    name: string,
    configuration: string,
    densityBasis: string,
    viscosityBasis: string,
    clmax: LiftCoefficient,
    density: Quantity,
    viscosity: Quantity,
    loadFactor: real
  )

  datatype DesignCase = DesignCase(flight: FlightCase, clmaxEvidence: EvidenceQuality, priority: Priority)

  datatype Requirement = Requirement(
    name: string,
    basis: string,
    cases: seq<string>,
    minimum: Quantity,
    maximum: Quantity,
    margin: real,
    subject: RequirementSubject,
    priority: Priority
  ) {
    predicate AppliesTo(caseName: string) {
      caseName in cases
    }

    /** The stated upper bound, tightened by the margin. */
    function EffectiveMaximum(): Quantity {
      if maximum.Supplied() then Quantity(maximum.si * (1.0 - margin), maximum.dim) else UNSET
    }

    function EffectiveMinimum(): Quantity {
      if minimum.Supplied() then Quantity(minimum.si * (1.0 + margin), minimum.dim) else UNSET
    }
  }

  datatype Point = Point(x: Quantity, y: Quantity, z: Quantity) {
    predicate Stated() {
      x.Supplied() && y.Supplied() && z.Supplied()
    }
  }

  datatype MassItem = MassItem(name: string, basis: string, position: Point, mass: Quantity, role: ComponentRole)

  datatype DragPolar = DragPolar(
    cd0Basis: string,
    efficiencyBasis: string,
    configuration: string,
    cd0: real,
    oswaldEfficiency: real,
    clValidMin: real,
    clValidMax: real,
    scope: CoefficientScope,
    evidence: EvidenceQuality
  )

  const NO_POLAR := DragPolar("", "", "", 0.0, 0.0, 0.0, 0.0, ScopeUnknown, EvidenceUnstated)

  datatype PropulsionCapability = PropulsionCapability(
    name: string,
    basis: string,
    densityBasis: string,
    note: string,
    speed: Quantity,
    density: Quantity,
    voltage: Quantity,
    rpm: Quantity,
    thrust: Quantity,
    electricalPower: Quantity,
    current: Quantity,
    throttle: real,
    evidence: EvidenceQuality,
    kind: CapabilityKind
  )

  datatype PropulsionEfficiency = PropulsionEfficiency(basis: string, total: real, evidence: EvidenceQuality)

  const NO_EFFICIENCY := PropulsionEfficiency("", 0.0, EvidenceUnstated)

  datatype PropulsionLimits = PropulsionLimits(
    basis: string,
    maxContinuousPower: Quantity,
    maxPeakPower: Quantity,
    maxRpm: Quantity,
    maxVoltage: Quantity,
    propellerDiameter: Quantity,
    propellerHubHeight: Quantity
  )

  const NO_LIMITS := PropulsionLimits("", UNSET, UNSET, UNSET, UNSET, UNSET, UNSET)

  datatype ThrustTarget = ThrustTarget(
    name: string, basis: string, capability: string, ratio: real, priority: Priority)

  datatype Propulsion = Propulsion(
    capabilities: seq<PropulsionCapability>,
    targets: seq<ThrustTarget>,
    efficiency: PropulsionEfficiency,
    limits: PropulsionLimits
  )

  datatype AuxiliaryLoad = AuxiliaryLoad(
    name: string,
    basis: string,
    component: string,
    continuous: Quantity,
    peak: Quantity,
    regulatorEfficiency: real,
    side: RegulatorSide,
    evidence: EvidenceQuality
  )

  datatype Battery = Battery(
    basis: string,
    component: string,
    capacity: Quantity,
    nominalVoltage: Quantity,
    energy: Quantity,
    continuousCurrentLimit: Quantity,
    peakCurrentLimit: Quantity,
    usableFraction: real,
    mode: BatteryEnergyMode,
    evidence: EvidenceQuality
  )

  const NO_BATTERY :=
    Battery("", "", UNSET, UNSET, UNSET, UNSET, UNSET, 0.0, BatteryEnergyModeUnknown, EvidenceUnstated)

  datatype MissionSegment = MissionSegment(
    name: string,
    caseName: string,
    notes: string,
    enteredBasis: string,
    efficiencyBasis: string,
    capability: string,
    speed: Quantity,
    climbAngle: Quantity,
    duration: Quantity,
    distance: Quantity,
    windAlongTrack: Quantity,
    enteredPower: Quantity,
    efficiency: real,
    kind: SegmentKind,
    model: SegmentModel,
    timing: SegmentTiming,
    enteredEvidence: EvidenceQuality
  )

  datatype Mission = Mission(
    name: string,
    basis: string,
    reserveBasis: string,
    segments: seq<MissionSegment>,
    reserveFraction: real
  )

  datatype Design = Design(
    name: string,
    massBasis: string,
    propulsion: Propulsion,
    requirements: seq<Requirement>,
    components: seq<MassItem>,
    auxiliary: seq<AuxiliaryLoad>,
    cases: seq<DesignCase>,
    mission: Mission,
    polar: DragPolar,
    battery: Battery,
    wing: WingDefinition,
    tail: TailGeometry,
    mass: Quantity,
    configuration: Configuration,
    massMode: MassMode
  )

  function CaseName(c: DesignCase): string {
    c.flight.name
  }

  function RequirementName(r: Requirement): string {
    r.name
  }

  function ComponentName(m: MassItem): string {
    m.name
  }

  function LoadName(a: AuxiliaryLoad): string {
    a.name
  }

  function CapabilityName(c: PropulsionCapability): string {
    c.name
  }

  function TargetName(t: ThrustTarget): string {
    t.name
  }

  function SegmentName(s: MissionSegment): string {
    s.name
  }

  /** The first entry carrying the name, as every lookup in the core finds it. */
  function Lookup<T>(items: seq<T>, nameOf: T -> string, name: string): Option<T> {
    if items == [] then None
    else if nameOf(items[0]) == name then Some(items[0])
    else Lookup(items[1..], nameOf, name)
  }

  /** Only a stall speed depends on the flight case. */
  predicate PerCase(subject: RequirementSubject) {
    subject == SubjectStallSpeed
  }

  /** An unset mass mode is read as the entered one. */
  function ResolvedMassMode(mode: MassMode): MassMode {
    if mode == MassModeUnknown then MassModeEntered else mode
  }
}
