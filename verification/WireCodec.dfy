/** The wire form of a design, and its way back. */
module WireCodec {
  import opened Quantities
  import opened Definition
  import opened Units
  import opened WireEnums
  import Conversions

  datatype WireQuantity = WireQuantity(value: real, unit: string)

  type Maybe = Option<WireQuantity>

  datatype WireAirfoil = WireAirfoil(designation: string, evidence: string, thicknessRatio: real)

  datatype WireWing = WireWing(
    name: string, shape: string, span: Maybe, area: Maybe, rootChord: Maybe, aspectRatio: real, taperRatio: real,
    sweep: Maybe, dihedral: Maybe, twist: Maybe, incidence: Maybe, bodyWidth: Maybe, sweepReference: real,
    areaBasis: string, dihedralMode: string, rootAirfoil: Option<WireAirfoil>, tipAirfoil: Option<WireAirfoil>)

  datatype WireSurface = WireSurface(area: Maybe, span: Maybe, arm: Maybe)

  datatype WireVTail = WireVTail(panelArea: Maybe, panelSpan: Maybe, cant: Maybe, arm: Maybe)

  datatype WireTail = WireTail(horizontal: Option<WireSurface>, vertical: Option<WireSurface>, vtail: Option<WireVTail>)

  datatype WireCLmax = WireCLmax(max: real, scope: string, basis: string, evidence: string)

  datatype WireCase = WireCase(
    name: string, configuration: string, densityBasis: string, viscosityBasis: string, priority: string,
    density: Maybe, viscosity: Maybe, clmax: WireCLmax, loadFactor: real)

  datatype WireRequirement = WireRequirement(
    name: string, subject: string, priority: string, basis: string, cases: seq<string>, minimum: Maybe,
    maximum: Maybe, margin: real)

  datatype WirePosition = WirePosition(x: Maybe, y: Maybe, z: Maybe)

  datatype WireComponent = WireComponent(name: string, role: string, basis: string, mass: Maybe, position: WirePosition)

  datatype WirePolar = WirePolar(
    cd0: real, cd0Basis: string, oswaldEfficiency: real, efficiencyBasis: string, configuration: string,
    clValidMin: real, clValidMax: real, scope: string, evidence: string)

  datatype WireCapability = WireCapability(
    name: string, basis: string, note: string, kind: string, speed: Maybe, density: Maybe, densityBasis: string,
    voltage: Maybe, rpm: Maybe, throttle: real, thrust: Maybe, electricalPower: Maybe, current: Maybe, evidence: string)

  datatype WireLimits = WireLimits(
    basis: string, maxContinuousPower: Maybe, maxPeakPower: Maybe, maxRpm: Maybe, maxVoltage: Maybe,
    propellerDiameter: Maybe, propellerHubHeight: Maybe)

  datatype WireTarget = WireTarget(name: string, basis: string, capability: string, ratio: real, priority: string)

  datatype WirePropulsion = WirePropulsion(
    efficiency: real, efficiencyBasis: string, efficiencyEvidence: string, limits: Option<WireLimits>,
    capabilities: seq<WireCapability>, targets: seq<WireTarget>)

  datatype WireBattery = WireBattery(
    basis: string, component: string, mode: string, capacity: Maybe, nominalVoltage: Maybe, energy: Maybe,
    usableFraction: real, continuousCurrentLimit: Maybe, peakCurrentLimit: Maybe, evidence: string)

  datatype WireLoad = WireLoad(
    name: string, basis: string, component: string, continuous: Maybe, peak: Maybe, regulatorEfficiency: real,
    side: string, evidence: string)

  datatype WireSegment = WireSegment(
    name: string, caseName: string, notes: string, kind: string, model: string, timing: string, speed: Maybe,
    climbAngle: Maybe, duration: Maybe, distance: Maybe, windAlongTrack: Maybe, enteredPower: Maybe,
    enteredBasis: string, enteredEvidence: string, efficiency: real, efficiencyBasis: string, capability: string)

  datatype WireMission = WireMission(
    name: string, basis: string, reserveFraction: real, reserveBasis: string, segments: seq<WireSegment>)

  datatype WireDesign = WireDesign(
    name: string, configuration: string, massBasis: string, massMode: string, mass: Maybe, tail: Option<WireTail>,
    components: seq<WireComponent>, cases: seq<WireCase>, requirements: seq<WireRequirement>,
    polar: Option<WirePolar>, propulsion: Option<WirePropulsion>, battery: Option<WireBattery>,
    auxiliary: seq<WireLoad>, mission: Option<WireMission>, wing: WireWing)

  const MAX_CASES := 32
  const MAX_REQUIREMENTS := 64
  const MAX_COMPONENTS := 64
  const MAX_CAPABILITIES := 32
  const MAX_THRUST_TARGETS := 16
  const MAX_AUXILIARY_LOADS := 64
  const MAX_MISSION_SEGMENTS := 32

  // ----- Encoding -----------------------------------------------------------

  /** Always in the dimension's SI unit; an unset quantity is absent. */
  function EncodeQuantity(p: Platform, q: Quantity): Maybe {
    if !q.Supplied() then None
    else
      match In(p, q, SIUnit(q.dim))
      case None => None
      case Some(v) => Some(WireQuantity(v, SymbolOf(SIUnit(q.dim))))
  }

  function EncodeAirfoil(a: Airfoil): Option<WireAirfoil> {
    if a == NO_AIRFOIL then None else Some(WireAirfoil(a.designation, a.evidence, a.thicknessRatio))
  }

  function EncodeWing(p: Platform, w: WingDefinition): WireWing {
    WireWing(
      w.name, Format(SHAPES, w.drivers.shape), EncodeQuantity(p, w.drivers.span), EncodeQuantity(p, w.drivers.area),
      EncodeQuantity(p, w.drivers.rootChord), w.drivers.aspectRatio, w.drivers.taperRatio, EncodeQuantity(p, w.sweep),
      EncodeQuantity(p, w.dihedral), EncodeQuantity(p, w.twist), EncodeQuantity(p, w.incidence),
      EncodeQuantity(p, w.bodyWidth), w.sweepReference, Format(AREA_BASES, w.areaBasis),
      Format(DIHEDRAL_MODES, w.dihedralMode), EncodeAirfoil(w.rootAirfoil), EncodeAirfoil(w.tipAirfoil))
  }

  function EncodeSurface(p: Platform, s: TailSurface): Option<WireSurface> {
    if s == NO_SURFACE then None
    else Some(WireSurface(EncodeQuantity(p, s.area), EncodeQuantity(p, s.span), EncodeQuantity(p, s.arm)))
  }

  function EncodeVTail(p: Platform, v: VTailPanels): Option<WireVTail> {
    if v == NO_VTAIL then None
    else
      Some(WireVTail(EncodeQuantity(p, v.panelArea), EncodeQuantity(p, v.panelSpan), EncodeQuantity(p, v.cant),
                     EncodeQuantity(p, v.arm)))
  }

  function EncodeTail(p: Platform, t: TailGeometry): Option<WireTail> {
    if t == NO_TAIL then None
    else Some(WireTail(EncodeSurface(p, t.horizontal), EncodeSurface(p, t.vertical), EncodeVTail(p, t.vtail)))
  }

  function EncodeCase(p: Platform, c: DesignCase): WireCase {
    WireCase(
      c.flight.name, c.flight.configuration, c.flight.densityBasis, c.flight.viscosityBasis,
      Format(PRIORITIES, c.priority), EncodeQuantity(p, c.flight.density), EncodeQuantity(p, c.flight.viscosity),
      WireCLmax(c.flight.clmax.max, Format(COEFFICIENT_SCOPES, c.flight.clmax.scope), c.flight.clmax.basis,
                Format(EVIDENCE_GRADES, c.clmaxEvidence)),
      c.flight.loadFactor)
  }

  function EncodeRequirement(p: Platform, r: Requirement): WireRequirement {
    WireRequirement(r.name, Format(SUBJECTS, r.subject), Format(PRIORITIES, r.priority), r.basis, r.cases,
                    EncodeQuantity(p, r.minimum), EncodeQuantity(p, r.maximum), r.margin)
  }

  function EncodeComponent(p: Platform, m: MassItem): WireComponent {
    WireComponent(m.name, Format(COMPONENT_ROLES, m.role), m.basis, EncodeQuantity(p, m.mass),
                  WirePosition(EncodeQuantity(p, m.position.x), EncodeQuantity(p, m.position.y),
                               EncodeQuantity(p, m.position.z)))
  }

  function EncodePolar(d: DragPolar): Option<WirePolar> {
    if d == NO_POLAR then None
    else
      Some(WirePolar(d.cd0, d.cd0Basis, d.oswaldEfficiency, d.efficiencyBasis, d.configuration, d.clValidMin,
                     d.clValidMax, Format(COEFFICIENT_SCOPES, d.scope), Format(EVIDENCE_GRADES, d.evidence)))
  }

  function EncodeCapability(p: Platform, c: PropulsionCapability): WireCapability {
    WireCapability(
      c.name, c.basis, c.note, Format(CAPABILITY_KINDS, c.kind), EncodeQuantity(p, c.speed),
      EncodeQuantity(p, c.density), c.densityBasis, EncodeQuantity(p, c.voltage), EncodeQuantity(p, c.rpm),
      c.throttle, EncodeQuantity(p, c.thrust), EncodeQuantity(p, c.electricalPower), EncodeQuantity(p, c.current),
      Format(EVIDENCE_GRADES, c.evidence))
  }

  function EncodeLimits(p: Platform, l: PropulsionLimits): Option<WireLimits> {
    if l == NO_LIMITS then None
    else
      Some(WireLimits(
        l.basis, EncodeQuantity(p, l.maxContinuousPower), EncodeQuantity(p, l.maxPeakPower),
        EncodeQuantity(p, l.maxRpm), EncodeQuantity(p, l.maxVoltage), EncodeQuantity(p, l.propellerDiameter),
        EncodeQuantity(p, l.propellerHubHeight)))
  }

  function EncodeTarget(t: ThrustTarget): WireTarget {
    WireTarget(t.name, t.basis, t.capability, t.ratio, Format(PRIORITIES, t.priority))
  }

  function EncodeAll<T, W>(items: seq<T>, encode: T -> W): seq<W> {
    if items == [] then [] else EncodeAll(items[..|items| - 1], encode) + [encode(items[|items| - 1])]
  }

  function EncodePropulsion(p: Platform, q: Propulsion): Option<WirePropulsion> {
    if q == Propulsion([], [], NO_EFFICIENCY, NO_LIMITS) then None
    else
      Some(WirePropulsion(
        q.efficiency.total, q.efficiency.basis, Format(EVIDENCE_GRADES, q.efficiency.evidence), EncodeLimits(p, q.limits),
        EncodeAll(q.capabilities, (c: PropulsionCapability) => EncodeCapability(p, c)),
        EncodeAll(q.targets, (t: ThrustTarget) => EncodeTarget(t))))
  }

  function EncodeBattery(p: Platform, b: Battery): Option<WireBattery> {
    if b == NO_BATTERY then None
    else
      Some(WireBattery(
        b.basis, b.component, Format(BATTERY_MODES, b.mode), EncodeQuantity(p, b.capacity),
        EncodeQuantity(p, b.nominalVoltage), EncodeQuantity(p, b.energy), b.usableFraction,
        EncodeQuantity(p, b.continuousCurrentLimit), EncodeQuantity(p, b.peakCurrentLimit),
        Format(EVIDENCE_GRADES, b.evidence)))
  }

  function EncodeLoad(p: Platform, a: AuxiliaryLoad): WireLoad {
    WireLoad(a.name, a.basis, a.component, EncodeQuantity(p, a.continuous), EncodeQuantity(p, a.peak),
             a.regulatorEfficiency, Format(REGULATOR_SIDES, a.side), Format(EVIDENCE_GRADES, a.evidence))
  }

  function EncodeSegment(p: Platform, s: MissionSegment): WireSegment {
    WireSegment(
      s.name, s.caseName, s.notes, Format(SEGMENT_KINDS, s.kind), Format(SEGMENT_MODELS, s.model),
      Format(SEGMENT_TIMINGS, s.timing), EncodeQuantity(p, s.speed), EncodeQuantity(p, s.climbAngle),
      EncodeQuantity(p, s.duration), EncodeQuantity(p, s.distance), EncodeQuantity(p, s.windAlongTrack),
      EncodeQuantity(p, s.enteredPower), s.enteredBasis, Format(EVIDENCE_GRADES, s.enteredEvidence), s.efficiency,
      s.efficiencyBasis, s.capability)
  }

  const NO_MISSION := Mission("", "", "", [], 0.0)

  /** A mission without a name and without segments is left off the wire. */
  function EncodeMission(p: Platform, m: Mission): Option<WireMission> {
    if m.name == "" && m.segments == [] then None
    else
      Some(WireMission(m.name, m.basis, m.reserveFraction, m.reserveBasis,
                       EncodeAll(m.segments, (s: MissionSegment) => EncodeSegment(p, s))))
  }

  function Encode(p: Platform, d: Design): WireDesign {
    WireDesign(
      d.name, Format(CONFIGURATIONS, d.configuration), d.massBasis, Format(MASS_MODES, d.massMode),
      EncodeQuantity(p, d.mass), EncodeTail(p, d.tail),
      EncodeAll(d.components, (m: MassItem) => EncodeComponent(p, m)),
      EncodeAll(d.cases, (c: DesignCase) => EncodeCase(p, c)),
      EncodeAll(d.requirements, (r: Requirement) => EncodeRequirement(p, r)),
      EncodePolar(d.polar), EncodePropulsion(p, d.propulsion), EncodeBattery(p, d.battery),
      EncodeAll(d.auxiliary, (a: AuxiliaryLoad) => EncodeLoad(p, a)), EncodeMission(p, d.mission), EncodeWing(p, d.wing))
  }

  method EncodeList<T, W>(items: seq<T>, encode: T -> W) returns (out: seq<W>)
    ensures out == EncodeAll(items, encode)
  {
    out := [];
    for n := 0 to |items|
      invariant out == EncodeAll(items[..n], encode)
    {
      assert items[..n + 1][..n] == items[..n];
      out := out + [encode(items[n])];
    }
    assert items[..|items|] == items;
  }

  // ----- Decoding -----------------------------------------------------------

  /** An absent quantity is unset; an unknown unit is refused, never guessed. */
  function DecodeQuantity(p: Platform, q: Maybe): Decoded<Quantity> {
    match q
    case None => Decoded(UNSET, [])
    case Some(w) =>
      match ParseUnit(w.unit)
      case None => Decoded(UNSET, [IssueInvalid])
      case Some(u) => Decoded(NewQuantity(p, w.value, u), [])
  }

  function DecodeAirfoil(a: Option<WireAirfoil>): Airfoil {
    match a
    case None => NO_AIRFOIL
    case Some(w) => Airfoil(w.designation, w.evidence, w.thicknessRatio)
  }

  function DecodeWing(p: Platform, w: WireWing): Decoded<WingDefinition> {
    var shape := EnumOrEmpty(SHAPES, ShapeUnknown, w.shape);
    var span := DecodeQuantity(p, w.span);
    var area := DecodeQuantity(p, w.area);
    var root := DecodeQuantity(p, w.rootChord);
    var sweep := DecodeQuantity(p, w.sweep);
    var dihedral := DecodeQuantity(p, w.dihedral);
    var twist := DecodeQuantity(p, w.twist);
    var incidence := DecodeQuantity(p, w.incidence);
    var body := DecodeQuantity(p, w.bodyWidth);
    var basis := EnumOrEmpty(AREA_BASES, AreaBasisUnknown, w.areaBasis);
    var mode := EnumOrEmpty(DIHEDRAL_MODES, DihedralModeUnknown, w.dihedralMode);
    Decoded(
      WingDefinition(
        w.name, DecodeAirfoil(w.rootAirfoil), DecodeAirfoil(w.tipAirfoil),
        PlanformDrivers(span.value, area.value, root.value, w.aspectRatio, w.taperRatio, shape.value),
        sweep.value, dihedral.value, twist.value, incidence.value, body.value, w.sweepReference, basis.value, mode.value),
      shape.issues + span.issues + area.issues + root.issues + sweep.issues + dihedral.issues + twist.issues
      + incidence.issues + body.issues + basis.issues + mode.issues)
  }

  function DecodeSurface(p: Platform, s: Option<WireSurface>): Decoded<TailSurface> {
    match s
    case None => Decoded(NO_SURFACE, [])
    case Some(w) =>
      var area := DecodeQuantity(p, w.area);
      var span := DecodeQuantity(p, w.span);
      var arm := DecodeQuantity(p, w.arm);
      Decoded(TailSurface(area.value, span.value, arm.value), area.issues + span.issues + arm.issues)
  }

  function DecodeVTail(p: Platform, v: Option<WireVTail>): Decoded<VTailPanels> {
    match v
    case None => Decoded(NO_VTAIL, [])
    case Some(w) =>
      var area := DecodeQuantity(p, w.panelArea);
      var span := DecodeQuantity(p, w.panelSpan);
      var cant := DecodeQuantity(p, w.cant);
      var arm := DecodeQuantity(p, w.arm);
      Decoded(VTailPanels(area.value, span.value, cant.value, arm.value),
              area.issues + span.issues + cant.issues + arm.issues)
  }

  function DecodeTail(p: Platform, t: Option<WireTail>): Decoded<TailGeometry> {
    match t
    case None => Decoded(NO_TAIL, [])
    case Some(w) =>
      var horizontal := DecodeSurface(p, w.horizontal);
      var vertical := DecodeSurface(p, w.vertical);
      var vtail := DecodeVTail(p, w.vtail);
      Decoded(TailGeometry(horizontal.value, vertical.value, vtail.value),
              horizontal.issues + vertical.issues + vtail.issues)
  }

  function DecodeCase(p: Platform, c: WireCase): Decoded<DesignCase> {
    var density := DecodeQuantity(p, c.density);
    var viscosity := DecodeQuantity(p, c.viscosity);
    var scope := EnumOrEmpty(COEFFICIENT_SCOPES, ScopeUnknown, c.clmax.scope);
    var evidence := EnumOrEmpty(EVIDENCE_GRADES, EvidenceUnstated, c.clmax.evidence);
    var priority := EnumOrEmpty(PRIORITIES, PriorityUnknown, c.priority);
    Decoded(
      DesignCase(
        FlightCase(c.name, c.configuration, c.densityBasis, c.viscosityBasis,
                   LiftCoefficient(c.clmax.basis, c.clmax.max, scope.value), density.value, viscosity.value, c.loadFactor),
        evidence.value, priority.value),
      density.issues + viscosity.issues + scope.issues + evidence.issues + priority.issues)
  }

  function DecodeRequirement(p: Platform, r: WireRequirement): Decoded<Requirement> {
    var minimum := DecodeQuantity(p, r.minimum);
    var maximum := DecodeQuantity(p, r.maximum);
    var subject := EnumOrEmpty(SUBJECTS, SubjectUnknown, r.subject);
    var priority := EnumOrEmpty(PRIORITIES, PriorityUnknown, r.priority);
    Decoded(
      Requirement(r.name, r.basis, r.cases, minimum.value, maximum.value, r.margin, subject.value, priority.value),
      minimum.issues + maximum.issues + subject.issues + priority.issues)
  }

  function DecodeComponent(p: Platform, c: WireComponent): Decoded<MassItem> {
    var role := EnumOrEmpty(COMPONENT_ROLES, ComponentRoleUnknown, c.role);
    var mass := DecodeQuantity(p, c.mass);
    var x := DecodeQuantity(p, c.position.x);
    var y := DecodeQuantity(p, c.position.y);
    var z := DecodeQuantity(p, c.position.z);
    Decoded(MassItem(c.name, c.basis, Point(x.value, y.value, z.value), mass.value, role.value),
            role.issues + mass.issues + x.issues + y.issues + z.issues)
  }

  function DecodePolar(d: Option<WirePolar>): Decoded<DragPolar> {
    match d
    case None => Decoded(NO_POLAR, [])
    case Some(w) =>
      var scope := EnumOrEmpty(COEFFICIENT_SCOPES, ScopeUnknown, w.scope);
      var evidence := EnumOrEmpty(EVIDENCE_GRADES, EvidenceUnstated, w.evidence);
      Decoded(
        DragPolar(w.cd0Basis, w.efficiencyBasis, w.configuration, w.cd0, w.oswaldEfficiency, w.clValidMin, w.clValidMax,
                  scope.value, evidence.value),
        scope.issues + evidence.issues)
  }

  function DecodeCapability(p: Platform, c: WireCapability): Decoded<PropulsionCapability> {
    var kind := EnumOrEmpty(CAPABILITY_KINDS, CapabilityKindUnknown, c.kind);
    var speed := DecodeQuantity(p, c.speed);
    var density := DecodeQuantity(p, c.density);
    var voltage := DecodeQuantity(p, c.voltage);
    var rpm := DecodeQuantity(p, c.rpm);
    var thrust := DecodeQuantity(p, c.thrust);
    var power := DecodeQuantity(p, c.electricalPower);
    var current := DecodeQuantity(p, c.current);
    var evidence := EnumOrEmpty(EVIDENCE_GRADES, EvidenceUnstated, c.evidence);
    Decoded(
      PropulsionCapability(c.name, c.basis, c.densityBasis, c.note, speed.value, density.value, voltage.value, rpm.value,
                           thrust.value, power.value, current.value, c.throttle, evidence.value, kind.value),
      kind.issues + speed.issues + density.issues + voltage.issues + rpm.issues + thrust.issues + power.issues
      + current.issues + evidence.issues)
  }

  function DecodeLimits(p: Platform, l: Option<WireLimits>): Decoded<PropulsionLimits> {
    match l
    case None => Decoded(NO_LIMITS, [])
    case Some(w) =>
      var continuous := DecodeQuantity(p, w.maxContinuousPower);
      var peak := DecodeQuantity(p, w.maxPeakPower);
      var rpm := DecodeQuantity(p, w.maxRpm);
      var voltage := DecodeQuantity(p, w.maxVoltage);
      var diameter := DecodeQuantity(p, w.propellerDiameter);
      var height := DecodeQuantity(p, w.propellerHubHeight);
      Decoded(
        PropulsionLimits(w.basis, continuous.value, peak.value, rpm.value, voltage.value, diameter.value, height.value),
        continuous.issues + peak.issues + rpm.issues + voltage.issues + diameter.issues + height.issues)
  }

  function DecodeTarget(t: WireTarget): Decoded<ThrustTarget> {
    var priority := EnumOrEmpty(PRIORITIES, PriorityUnknown, t.priority);
    Decoded(ThrustTarget(t.name, t.basis, t.capability, t.ratio, priority.value), priority.issues)
  }

  function DecodeAll<W, T>(items: seq<W>, decode: W -> Decoded<T>): Decoded<seq<T>> {
    if items == [] then Decoded([], [])
    else
      var front, last := DecodeAll(items[..|items| - 1], decode), decode(items[|items| - 1]);
      Decoded(front.value + [last.value], front.issues + last.issues)
  }

  function DecodePropulsion(p: Platform, q: Option<WirePropulsion>): Decoded<Propulsion> {
    match q
    case None => Decoded(Propulsion([], [], NO_EFFICIENCY, NO_LIMITS), [])
    case Some(w) =>
      var evidence := EnumOrEmpty(EVIDENCE_GRADES, EvidenceUnstated, w.efficiencyEvidence);
      var limits := DecodeLimits(p, w.limits);
      var efficiency := PropulsionEfficiency(w.efficiencyBasis, w.efficiency, evidence.value);
      var issues := evidence.issues + limits.issues;
      if |w.capabilities| > MAX_CAPABILITIES || |w.targets| > MAX_THRUST_TARGETS then
        Decoded(Propulsion([], [], efficiency, limits.value), issues + [IssueUnsupported])
      else
        var capabilities := DecodeAll(w.capabilities, (c: WireCapability) => DecodeCapability(p, c));
        var targets := DecodeAll(w.targets, (t: WireTarget) => DecodeTarget(t));
        Decoded(Propulsion(capabilities.value, targets.value, efficiency, limits.value),
                issues + capabilities.issues + targets.issues)
  }

  function DecodeBattery(p: Platform, b: Option<WireBattery>): Decoded<Battery> {
    match b
    case None => Decoded(NO_BATTERY, [])
    case Some(w) =>
      var mode := EnumOrEmpty(BATTERY_MODES, BatteryEnergyModeUnknown, w.mode);
      var capacity := DecodeQuantity(p, w.capacity);
      var voltage := DecodeQuantity(p, w.nominalVoltage);
      var energy := DecodeQuantity(p, w.energy);
      var continuous := DecodeQuantity(p, w.continuousCurrentLimit);
      var peak := DecodeQuantity(p, w.peakCurrentLimit);
      var evidence := EnumOrEmpty(EVIDENCE_GRADES, EvidenceUnstated, w.evidence);
      Decoded(
        Battery(w.basis, w.component, capacity.value, voltage.value, energy.value, continuous.value, peak.value,
                w.usableFraction, mode.value, evidence.value),
        mode.issues + capacity.issues + voltage.issues + energy.issues + continuous.issues + peak.issues + evidence.issues)
  }

  function DecodeLoad(p: Platform, a: WireLoad): Decoded<AuxiliaryLoad> {
    var continuous := DecodeQuantity(p, a.continuous);
    var peak := DecodeQuantity(p, a.peak);
    var side := EnumOrEmpty(REGULATOR_SIDES, RegulatorSideUnknown, a.side);
    var evidence := EnumOrEmpty(EVIDENCE_GRADES, EvidenceUnstated, a.evidence);
    Decoded(
      AuxiliaryLoad(a.name, a.basis, a.component, continuous.value, peak.value, a.regulatorEfficiency, side.value,
                    evidence.value),
      continuous.issues + peak.issues + side.issues + evidence.issues)
  }

  function DecodeSegment(p: Platform, s: WireSegment): Decoded<MissionSegment> {
    var kind := EnumOrEmpty(SEGMENT_KINDS, SegmentKindUnknown, s.kind);
    var model := EnumOrEmpty(SEGMENT_MODELS, SegmentModelUnknown, s.model);
    var timing := EnumOrEmpty(SEGMENT_TIMINGS, SegmentTimingUnknown, s.timing);
    var speed := DecodeQuantity(p, s.speed);
    var climb := DecodeQuantity(p, s.climbAngle);
    var duration := DecodeQuantity(p, s.duration);
    var distance := DecodeQuantity(p, s.distance);
    var wind := DecodeQuantity(p, s.windAlongTrack);
    var power := DecodeQuantity(p, s.enteredPower);
    var evidence := EnumOrEmpty(EVIDENCE_GRADES, EvidenceUnstated, s.enteredEvidence);
    Decoded(
      MissionSegment(s.name, s.caseName, s.notes, s.enteredBasis, s.efficiencyBasis, s.capability, speed.value,
                     climb.value, duration.value, distance.value, wind.value, power.value, s.efficiency, kind.value,
                     model.value, timing.value, evidence.value),
      kind.issues + model.issues + timing.issues + speed.issues + climb.issues + duration.issues + distance.issues
      + wind.issues + power.issues + evidence.issues)
  }

  function DecodeMission(p: Platform, m: Option<WireMission>): Decoded<Mission> {
    match m
    case None => Decoded(NO_MISSION, [])
    case Some(w) =>
      var header := Mission(w.name, w.basis, w.reserveBasis, [], w.reserveFraction);
      if |w.segments| > MAX_MISSION_SEGMENTS then Decoded(header, [IssueUnsupported])
      else
        var segments := DecodeAll(w.segments, (s: WireSegment) => DecodeSegment(p, s));
        Decoded(header.(segments := segments.value), segments.issues)
  }

  const EMPTY_PROPULSION := Propulsion([], [], NO_EFFICIENCY, NO_LIMITS)

  /** The fields outside the lists, and the design they leave. */
  function DecodeOutline(p: Platform, w: WireDesign): Decoded<Design> {
    var mass := DecodeQuantity(p, w.mass);
    var configuration := EnumOrEmpty(CONFIGURATIONS, ConfigurationUnknown, w.configuration);
    var mode := EnumOrEmpty(MASS_MODES, MassModeUnknown, w.massMode);
    var wing := DecodeWing(p, w.wing);
    var tail := DecodeTail(p, w.tail);
    Decoded(
      Design(w.name, w.massBasis, EMPTY_PROPULSION, [], [], [], [], NO_MISSION, NO_POLAR, NO_BATTERY, wing.value,
             tail.value, mass.value, configuration.value, mode.value),
      mass.issues + configuration.issues + mode.issues + wing.issues + tail.issues)
  }

  /** The polar, the chain, the battery and the mission. */
  function DecodePowerTrain(p: Platform, w: WireDesign, d: Design): Decoded<Design> {
    var polar := DecodePolar(w.polar);
    var propulsion := DecodePropulsion(p, w.propulsion);
    var battery := DecodeBattery(p, w.battery);
    var mission := DecodeMission(p, w.mission);
    Decoded(d.(polar := polar.value, propulsion := propulsion.value, battery := battery.value, mission := mission.value),
            polar.issues + propulsion.issues + battery.issues + mission.issues)
  }

  /** The power half: what the design flies on, and the loads it feeds. */
  function DecodePower(p: Platform, w: WireDesign, d: Design): Decoded<Design> {
    var train := DecodePowerTrain(p, w, d);
    if |w.auxiliary| > MAX_AUXILIARY_LOADS then Decoded(train.value, train.issues + [IssueUnsupported])
    else
      var auxiliary := DecodeAll(w.auxiliary, (a: WireLoad) => DecodeLoad(p, a));
      Decoded(train.value.(auxiliary := auxiliary.value), train.issues + auxiliary.issues)
  }

  /** A list over its limit stops the decoding where it is found. */
  function Decode(p: Platform, w: WireDesign): Decoded<Design> {
    var outline := DecodeOutline(p, w);
    if |w.cases| > MAX_CASES || |w.requirements| > MAX_REQUIREMENTS then
      Decoded(outline.value, outline.issues + [IssueUnsupported])
    else
      var cases := DecodeAll(w.cases, (c: WireCase) => DecodeCase(p, c));
      var requirements := DecodeAll(w.requirements, (r: WireRequirement) => DecodeRequirement(p, r));
      var judged := outline.value.(cases := cases.value, requirements := requirements.value);
      var issues := outline.issues + cases.issues + requirements.issues;
      if |w.components| > MAX_COMPONENTS then Decoded(judged, issues + [IssueUnsupported])
      else
        var components := DecodeAll(w.components, (c: WireComponent) => DecodeComponent(p, c));
        var power := DecodePower(p, w, judged.(components := components.value));
        Decoded(power.value, issues + components.issues + power.issues)
  }

  /** Accumulates what is wrong, so one bad request gets one complete answer. */
  class Decoder {
    var issues: Issues

    constructor ()
      ensures issues == []
    {
      issues := [];
    }

    method Take<T>(r: Decoded<T>) returns (v: T)
      modifies this
      ensures v == r.value && issues == old(issues) + r.issues
    {
      issues := issues + r.issues;
      v := r.value;
    }

    method Refuse(issue: IssueKind)
      modifies this
      ensures issues == old(issues) + [issue]
    {
      issues := issues + [issue];
    }

    method TakeAll<W, T>(items: seq<W>, decode: W -> Decoded<T>) returns (out: seq<T>)
      modifies this
      ensures out == DecodeAll(items, decode).value && issues == old(issues) + DecodeAll(items, decode).issues
    {
      out := [];
      assert issues + [] == issues;
      for n := 0 to |items|
        invariant out == DecodeAll(items[..n], decode).value
        invariant issues == old(issues) + DecodeAll(items[..n], decode).issues
      {
        assert items[..n + 1][..n] == items[..n];
        var v := Take(decode(items[n]));
        out := out + [v];
      }
      assert items[..|items|] == items;
    }

    method TakePowerTrain(p: Platform, w: WireDesign, d: Design) returns (out: Design)
      modifies this
      ensures out == DecodePowerTrain(p, w, d).value && issues == old(issues) + DecodePowerTrain(p, w, d).issues
    {
      hide DecodePolar, DecodePropulsion, DecodeBattery, DecodeMission;
      var polar := Take(DecodePolar(w.polar));
      var propulsion := Take(DecodePropulsion(p, w.propulsion));
      var battery := Take(DecodeBattery(p, w.battery));
      var mission := Take(DecodeMission(p, w.mission));
      out := d.(polar := polar, propulsion := propulsion, battery := battery, mission := mission);
    }

    method TakePower(p: Platform, w: WireDesign, d: Design) returns (out: Design)
      modifies this
      ensures out == DecodePower(p, w, d).value && issues == old(issues) + DecodePower(p, w, d).issues
    {
      hide DecodePowerTrain, DecodeAll, DecodeLoad;
      out := TakePowerTrain(p, w, d);
      if |w.auxiliary| > MAX_AUXILIARY_LOADS {
        Refuse(IssueUnsupported);
        return;
      }
      var auxiliary := TakeAll(w.auxiliary, (a: WireLoad) => DecodeLoad(p, a));
      out := out.(auxiliary := auxiliary);
    }

    method TakeDesign(p: Platform, w: WireDesign) returns (out: Design)
      modifies this
      ensures out == Decode(p, w).value && issues == old(issues) + Decode(p, w).issues
    {
      hide DecodeOutline, DecodePower, DecodeAll;
      out := Take(DecodeOutline(p, w));
      if |w.cases| > MAX_CASES {
        Refuse(IssueUnsupported);
        return;
      }
      if |w.requirements| > MAX_REQUIREMENTS {
        Refuse(IssueUnsupported);
        return;
      }
      var cases := TakeAll(w.cases, (c: WireCase) => DecodeCase(p, c));
      var requirements := TakeAll(w.requirements, (r: WireRequirement) => DecodeRequirement(p, r));
      out := out.(cases := cases, requirements := requirements);
      if |w.components| > MAX_COMPONENTS {
        Refuse(IssueUnsupported);
        return;
      }
      var components := TakeAll(w.components, (c: WireComponent) => DecodeComponent(p, c));
      out := TakePower(p, w, out.(components := components));
    }
  }

  // ----- Round trip ---------------------------------------------------------

  /** Every quantity is read back, unset ones and dimensioned zeros included. */
  lemma QuantitiesReadBack(p: Platform, q: Quantity)
    ensures DecodeQuantity(p, EncodeQuantity(p, q)) == Decoded(q, [])
  {
    SIValuesAreReadBack(p, q);
  }

  /** Written in any unit of its dimension, a quantity is read as itself. */
  lemma AnyUnitIsRead(p: Platform, q: Quantity, u: Unit)
    requires p.Lawful() && DimensionOf(u) == q.dim
    ensures In(p, q, u).Some?
    ensures DecodeQuantity(p, Some(WireQuantity(In(p, q, u).value, SymbolOf(u)))) == Decoded(q, [])
  {
    hide SymbolOf, DimensionOf, In, NewQuantity, ParseUnit;
    UnitsAreReadBack(u);
    Conversions.AcrossAndBack(p, q, u);
  }

  lemma {:induction false} FoundByItsSymbol(units: seq<Unit>, symbol: string)
    requires FirstWith(units, symbol).Some?
    ensures SymbolOf(FirstWith(units, symbol).value) == symbol
  {
    hide SymbolOf;
    if SymbolOf(units[0]) != symbol {
      FoundByItsSymbol(units[1..], symbol);
    }
  }

  /** A stated quantity is read without an issue exactly when its unit is a
      supported symbol, and otherwise not guessed. */
  lemma OnlySupportedUnitsAreRead(p: Platform, w: WireQuantity)
    ensures DecodeQuantity(p, Some(w)).issues == [] <==> exists u: Unit :: SymbolOf(u) == w.unit
    ensures DecodeQuantity(p, Some(w)).issues != [] ==> DecodeQuantity(p, Some(w)) == Decoded(UNSET, [IssueInvalid])
  {
    hide SymbolOf, NewQuantity, AllUnits;
    if u: Unit :| SymbolOf(u) == w.unit {
      UnitsAreReadBack(u);
    }
    if ParseUnit(w.unit).Some? {
      FoundByItsSymbol(AllUnits(), w.unit);
      assert SymbolOf(ParseUnit(w.unit).value) == w.unit;
    }
  }

  lemma AirfoilsReadBack(a: Airfoil)
    ensures DecodeAirfoil(EncodeAirfoil(a)) == a
  {
  }

  lemma WingsReadBack(p: Platform, w: WingDefinition)
    ensures DecodeWing(p, EncodeWing(p, w)) == Decoded(w, [])
  {
    hide DecodeQuantity, EncodeQuantity, EnumOrEmpty, Format, DecodeAirfoil, EncodeAirfoil;
    ShapeReadsBack(w.drivers.shape);
    QuantitiesReadBack(p, w.drivers.span);
    QuantitiesReadBack(p, w.drivers.area);
    QuantitiesReadBack(p, w.drivers.rootChord);
    QuantitiesReadBack(p, w.sweep);
    QuantitiesReadBack(p, w.dihedral);
    QuantitiesReadBack(p, w.twist);
    QuantitiesReadBack(p, w.incidence);
    QuantitiesReadBack(p, w.bodyWidth);
    AreaBasisReadsBack(w.areaBasis);
    DihedralModeReadsBack(w.dihedralMode);
    AirfoilsReadBack(w.rootAirfoil);
    AirfoilsReadBack(w.tipAirfoil);
  }

  lemma SurfacesReadBack(p: Platform, s: TailSurface)
    ensures DecodeSurface(p, EncodeSurface(p, s)) == Decoded(s, [])
  {
    hide DecodeQuantity, EncodeQuantity;
    QuantitiesReadBack(p, s.area);
    QuantitiesReadBack(p, s.span);
    QuantitiesReadBack(p, s.arm);
  }

  lemma VTailsReadBack(p: Platform, v: VTailPanels)
    ensures DecodeVTail(p, EncodeVTail(p, v)) == Decoded(v, [])
  {
    hide DecodeQuantity, EncodeQuantity;
    QuantitiesReadBack(p, v.panelArea);
    QuantitiesReadBack(p, v.panelSpan);
    QuantitiesReadBack(p, v.cant);
    QuantitiesReadBack(p, v.arm);
  }

  lemma TailsReadBack(p: Platform, t: TailGeometry)
    ensures DecodeTail(p, EncodeTail(p, t)) == Decoded(t, [])
  {
    hide DecodeSurface, EncodeSurface, DecodeVTail, EncodeVTail;
    SurfacesReadBack(p, t.horizontal);
    SurfacesReadBack(p, t.vertical);
    VTailsReadBack(p, t.vtail);
  }

  lemma CasesReadBack(p: Platform, c: DesignCase)
    ensures DecodeCase(p, EncodeCase(p, c)) == Decoded(c, [])
  {
    hide DecodeQuantity, EncodeQuantity, EnumOrEmpty, Format;
    QuantitiesReadBack(p, c.flight.density);
    QuantitiesReadBack(p, c.flight.viscosity);
    ScopeReadsBack(c.flight.clmax.scope);
    EvidenceReadsBack(c.clmaxEvidence);
    PriorityReadsBack(c.priority);
  }

  lemma RequirementsReadBack(p: Platform, r: Requirement)
    ensures DecodeRequirement(p, EncodeRequirement(p, r)) == Decoded(r, [])
  {
    hide DecodeQuantity, EncodeQuantity, EnumOrEmpty, Format;
    QuantitiesReadBack(p, r.minimum);
    QuantitiesReadBack(p, r.maximum);
    SubjectReadsBack(r.subject);
    PriorityReadsBack(r.priority);
  }

  lemma ComponentsReadBack(p: Platform, m: MassItem)
    ensures DecodeComponent(p, EncodeComponent(p, m)) == Decoded(m, [])
  {
    hide DecodeQuantity, EncodeQuantity, EnumOrEmpty, Format;
    RoleReadsBack(m.role);
    QuantitiesReadBack(p, m.mass);
    QuantitiesReadBack(p, m.position.x);
    QuantitiesReadBack(p, m.position.y);
    QuantitiesReadBack(p, m.position.z);
  }

  lemma PolarsReadBack(d: DragPolar)
    ensures DecodePolar(EncodePolar(d)) == Decoded(d, [])
  {
    hide EnumOrEmpty, Format;
    ScopeReadsBack(d.scope);
    EvidenceReadsBack(d.evidence);
  }

  lemma CapabilitiesReadBack(p: Platform, c: PropulsionCapability)
    ensures DecodeCapability(p, EncodeCapability(p, c)) == Decoded(c, [])
  {
    hide DecodeQuantity, EncodeQuantity, EnumOrEmpty, Format;
    CapabilityKindReadsBack(c.kind);
    QuantitiesReadBack(p, c.speed);
    QuantitiesReadBack(p, c.density);
    QuantitiesReadBack(p, c.voltage);
    QuantitiesReadBack(p, c.rpm);
    QuantitiesReadBack(p, c.thrust);
    QuantitiesReadBack(p, c.electricalPower);
    QuantitiesReadBack(p, c.current);
    EvidenceReadsBack(c.evidence);
  }

  lemma LimitsReadBack(p: Platform, l: PropulsionLimits)
    ensures DecodeLimits(p, EncodeLimits(p, l)) == Decoded(l, [])
  {
    hide DecodeQuantity, EncodeQuantity;
    QuantitiesReadBack(p, l.maxContinuousPower);
    QuantitiesReadBack(p, l.maxPeakPower);
    QuantitiesReadBack(p, l.maxRpm);
    QuantitiesReadBack(p, l.maxVoltage);
    QuantitiesReadBack(p, l.propellerDiameter);
    QuantitiesReadBack(p, l.propellerHubHeight);
  }

  lemma TargetsReadBack(t: ThrustTarget)
    ensures DecodeTarget(EncodeTarget(t)) == Decoded(t, [])
  {
    hide EnumOrEmpty, Format;
    PriorityReadsBack(t.priority);
  }

  /** A list whose entries are read back is read back, in order. */
  lemma {:induction false} ListsReadBack<T, W>(items: seq<T>, encode: T -> W, decode: W -> Decoded<T>)
    requires forall i :: 0 <= i < |items| ==> decode(encode(items[i])) == Decoded(items[i], [])
    ensures |EncodeAll(items, encode)| == |items|
    ensures DecodeAll(EncodeAll(items, encode), decode) == Decoded(items, [])
  {
    if items != [] {
      var front, last := items[..|items| - 1], items[|items| - 1];
      ListsReadBack(front, encode, decode);
      assert EncodeAll(items, encode)[..|front|] == EncodeAll(front, encode);
      assert items == front + [last];
    }
  }

  lemma PropulsionReadsBack(p: Platform, q: Propulsion)
    requires |q.capabilities| <= MAX_CAPABILITIES && |q.targets| <= MAX_THRUST_TARGETS
    ensures DecodePropulsion(p, EncodePropulsion(p, q)) == Decoded(q, [])
  {
    hide EnumOrEmpty, Format, DecodeLimits, EncodeLimits, DecodeAll, EncodeAll, DecodeCapability, EncodeCapability,
      DecodeTarget, EncodeTarget;
    EvidenceReadsBack(q.efficiency.evidence);
    LimitsReadBack(p, q.limits);
    forall i | 0 <= i < |q.capabilities|
      ensures DecodeCapability(p, EncodeCapability(p, q.capabilities[i])) == Decoded(q.capabilities[i], [])
    {
      CapabilitiesReadBack(p, q.capabilities[i]);
    }
    forall i | 0 <= i < |q.targets|
      ensures DecodeTarget(EncodeTarget(q.targets[i])) == Decoded(q.targets[i], [])
    {
      TargetsReadBack(q.targets[i]);
    }
    ListsReadBack(q.capabilities, (c: PropulsionCapability) => EncodeCapability(p, c),
                  (c: WireCapability) => DecodeCapability(p, c));
    ListsReadBack(q.targets, (t: ThrustTarget) => EncodeTarget(t), (t: WireTarget) => DecodeTarget(t));
  }

  lemma BatteriesReadBack(p: Platform, b: Battery)
    ensures DecodeBattery(p, EncodeBattery(p, b)) == Decoded(b, [])
  {
    hide DecodeQuantity, EncodeQuantity, EnumOrEmpty, Format;
    BatteryModeReadsBack(b.mode);
    QuantitiesReadBack(p, b.capacity);
    QuantitiesReadBack(p, b.nominalVoltage);
    QuantitiesReadBack(p, b.energy);
    QuantitiesReadBack(p, b.continuousCurrentLimit);
    QuantitiesReadBack(p, b.peakCurrentLimit);
    EvidenceReadsBack(b.evidence);
  }

  lemma LoadsReadBack(p: Platform, a: AuxiliaryLoad)
    ensures DecodeLoad(p, EncodeLoad(p, a)) == Decoded(a, [])
  {
    hide DecodeQuantity, EncodeQuantity, EnumOrEmpty, Format;
    QuantitiesReadBack(p, a.continuous);
    QuantitiesReadBack(p, a.peak);
    SideReadsBack(a.side);
    EvidenceReadsBack(a.evidence);
  }

  lemma SegmentsReadBack(p: Platform, s: MissionSegment)
    ensures DecodeSegment(p, EncodeSegment(p, s)) == Decoded(s, [])
  {
    hide DecodeQuantity, EncodeQuantity, EnumOrEmpty, Format;
    SegmentKindReadsBack(s.kind);
    SegmentModelReadsBack(s.model);
    SegmentTimingReadsBack(s.timing);
    QuantitiesReadBack(p, s.speed);
    QuantitiesReadBack(p, s.climbAngle);
    QuantitiesReadBack(p, s.duration);
    QuantitiesReadBack(p, s.distance);
    QuantitiesReadBack(p, s.windAlongTrack);
    QuantitiesReadBack(p, s.enteredPower);
    EvidenceReadsBack(s.enteredEvidence);
  }

  /** The encoder keeps the mission: it has a name, a segment, or nothing. */
  predicate MissionIsKept(m: Mission) {
    m.name != "" || m.segments != [] || m == NO_MISSION
  }

  /** A mission is read back exactly when the encoder does not drop it. */
  lemma MissionsReadBackExactlyWhenKept(p: Platform, m: Mission)
    requires |m.segments| <= MAX_MISSION_SEGMENTS
    ensures DecodeMission(p, EncodeMission(p, m)) == Decoded(m, []) <==> MissionIsKept(m)
    ensures DecodeMission(p, EncodeMission(p, m)).issues == []
    ensures !MissionIsKept(m) ==> DecodeMission(p, EncodeMission(p, m)).value == NO_MISSION
  {
    hide DecodeAll, EncodeAll, DecodeSegment, EncodeSegment;
    forall i | 0 <= i < |m.segments|
      ensures DecodeSegment(p, EncodeSegment(p, m.segments[i])) == Decoded(m.segments[i], [])
    {
      SegmentsReadBack(p, m.segments[i]);
    }
    ListsReadBack(m.segments, (s: MissionSegment) => EncodeSegment(p, s), (s: WireSegment) => DecodeSegment(p, s));
  }

  predicate WithinLimits(d: Design) {
    && |d.cases| <= MAX_CASES && |d.requirements| <= MAX_REQUIREMENTS && |d.components| <= MAX_COMPONENTS
    && |d.propulsion.capabilities| <= MAX_CAPABILITIES && |d.propulsion.targets| <= MAX_THRUST_TARGETS
    && |d.auxiliary| <= MAX_AUXILIARY_LOADS && |d.mission.segments| <= MAX_MISSION_SEGMENTS
  }

  lemma OutlineReadsBack(p: Platform, d: Design)
    ensures DecodeOutline(p, Encode(p, d))
         == Decoded(d.(propulsion := EMPTY_PROPULSION, requirements := [], components := [], auxiliary := [], cases := [],
                       mission := NO_MISSION, polar := NO_POLAR, battery := NO_BATTERY), [])
  {
    hide DecodeQuantity, EncodeQuantity, EnumOrEmpty, Format, DecodeWing, EncodeWing, DecodeTail, EncodeTail, EncodeAll,
      EncodePolar, EncodePropulsion, EncodeBattery, EncodeMission;
    QuantitiesReadBack(p, d.mass);
    ConfigurationReadsBack(d.configuration);
    MassModeReadsBack(d.massMode);
    WingsReadBack(p, d.wing);
    TailsReadBack(p, d.tail);
  }

  lemma JudgedListsReadBack(p: Platform, d: Design)
    ensures var w := Encode(p, d);
            && |w.cases| == |d.cases| && |w.requirements| == |d.requirements| && |w.components| == |d.components|
            && DecodeAll(w.cases, (c: WireCase) => DecodeCase(p, c)) == Decoded(d.cases, [])
            && DecodeAll(w.requirements, (r: WireRequirement) => DecodeRequirement(p, r)) == Decoded(d.requirements, [])
            && DecodeAll(w.components, (c: WireComponent) => DecodeComponent(p, c)) == Decoded(d.components, [])
  {
    hide DecodeAll, EncodeAll, DecodeCase, EncodeCase, DecodeRequirement, EncodeRequirement, DecodeComponent,
      EncodeComponent, EncodeWing, EncodeTail, EncodePolar, EncodePropulsion, EncodeBattery, EncodeMission;
    forall i | 0 <= i < |d.cases|
      ensures DecodeCase(p, EncodeCase(p, d.cases[i])) == Decoded(d.cases[i], [])
    {
      CasesReadBack(p, d.cases[i]);
    }
    forall i | 0 <= i < |d.requirements|
      ensures DecodeRequirement(p, EncodeRequirement(p, d.requirements[i])) == Decoded(d.requirements[i], [])
    {
      RequirementsReadBack(p, d.requirements[i]);
    }
    forall i | 0 <= i < |d.components|
      ensures DecodeComponent(p, EncodeComponent(p, d.components[i])) == Decoded(d.components[i], [])
    {
      ComponentsReadBack(p, d.components[i]);
    }
    ListsReadBack(d.cases, (c: DesignCase) => EncodeCase(p, c), (c: WireCase) => DecodeCase(p, c));
    ListsReadBack(d.requirements, (r: Requirement) => EncodeRequirement(p, r),
                  (r: WireRequirement) => DecodeRequirement(p, r));
    ListsReadBack(d.components, (m: MassItem) => EncodeComponent(p, m), (c: WireComponent) => DecodeComponent(p, c));
  }

  lemma PowerReadsBack(p: Platform, d: Design, base: Design)
    requires WithinLimits(d)
    ensures var r := DecodePower(p, Encode(p, d), base);
            && r.issues == []
            && r.value == base.(polar := d.polar, propulsion := d.propulsion, battery := d.battery,
                                auxiliary := d.auxiliary, mission := DecodeMission(p, EncodeMission(p, d.mission)).value)
  {
    hide DecodeAll, EncodeAll, DecodeLoad, EncodeLoad, EncodeWing, EncodeTail, EncodePolar, EncodePropulsion,
      EncodeBattery, EncodeMission, DecodePolar, DecodePropulsion, DecodeBattery, DecodeMission;
    PolarsReadBack(d.polar);
    PropulsionReadsBack(p, d.propulsion);
    BatteriesReadBack(p, d.battery);
    MissionsReadBackExactlyWhenKept(p, d.mission);
    forall i | 0 <= i < |d.auxiliary|
      ensures DecodeLoad(p, EncodeLoad(p, d.auxiliary[i])) == Decoded(d.auxiliary[i], [])
    {
      LoadsReadBack(p, d.auxiliary[i]);
    }
    ListsReadBack(d.auxiliary, (a: AuxiliaryLoad) => EncodeLoad(p, a), (a: WireLoad) => DecodeLoad(p, a));
  }

  /** A design within the list limits crosses the wire and back without an issue,
      and comes back itself exactly when its mission is one the encoder keeps. A
      mission that states a basis or a reserve but has neither a name nor a
      segment comes back empty. */
  lemma DesignsReadBackExactlyWithAKeptMission(p: Platform, d: Design)
    requires WithinLimits(d)
    ensures Decode(p, Encode(p, d)).issues == []
    ensures Decode(p, Encode(p, d)).value == d <==> MissionIsKept(d.mission)
    ensures Decode(p, Encode(p, d)).value == d.(mission := if MissionIsKept(d.mission) then d.mission else NO_MISSION)
  {
    hide DecodeAll, Encode, DecodeOutline, DecodePower, EncodeMission, DecodeMission, DecodeCase, DecodeRequirement,
      DecodeComponent;
    OutlineReadsBack(p, d);
    JudgedListsReadBack(p, d);
    var outline := DecodeOutline(p, Encode(p, d)).value;
    PowerReadsBack(p, d, outline.(cases := d.cases, requirements := d.requirements, components := d.components));
    MissionsReadBackExactlyWhenKept(p, d.mission);
  }

  /** Such a mission exists: a reserve stated before the mission is named. */
  lemma AnUnnamedReserveIsDropped(p: Platform, d: Design) returns (stated: Design)
    requires WithinLimits(d)
    ensures stated == d.(mission := Mission("", "", "club rule", [], 0.2))
    ensures Decode(p, Encode(p, stated)) == Decoded(stated.(mission := NO_MISSION), [])
  {
    hide Decode, Encode;
    stated := d.(mission := Mission("", "", "club rule", [], 0.2));
    DesignsReadBackExactlyWithAKeptMission(p, stated);
  }
}
