/** Which fields make up a design's identity, and in which order. */
module Snapshots {
  import opened Quantities
  import opened Definition
  import opened CanonicalText
  import opened Sorting

  function Note(name: string, text: string): Field {
    Field(name, Text(text))
  }

  function Num(name: string, x: real): Field {
    Field(name, Number(x))
  }

  function Enum(name: string, code: int): Field {
    Field(name, Code(code))
  }

  function Qty(name: string, q: Quantity): Field {
    Field(name, Size(q))
  }

  // ----- Enumerations as recorded -------------------------------------------

  function ConfigurationCode(c: Configuration): int {
    match c
    case ConfigurationUnknown => 0
    case ConfigurationConventionalTail => 1
    case ConfigurationVTail => 2
    case ConfigurationFlyingWing => 3
  }

  function MassModeCode(m: MassMode): int {
    match m
    case MassModeUnknown => 0
    case MassModeEntered => 1
    case MassModeComponents => 2
  }

  function RoleCode(r: ComponentRole): int {
    match r
    case ComponentRoleUnknown => 0
    case ComponentAirframe => 1
    case ComponentBattery => 2
    case ComponentMotor => 3
    case ComponentAvionics => 4
    case ComponentPayload => 5
    case ComponentOther => 6
  }

  function ScopeCode(s: CoefficientScope): int {
    match s
    case ScopeUnknown => 0
    case ScopeAircraft => 1
    case ScopeAirfoilSection => 2
  }

  function EvidenceCode(e: EvidenceQuality): int {
    match e
    case EvidenceUnstated => 0
    case EvidenceAssumed => 1
    case EvidenceMeasured => 2
    case EvidenceSimulated => 3
  }

  function PriorityCode(p: Priority): int {
    match p
    case PriorityUnknown => 0
    case PriorityRequired => 1
    case PriorityPreferred => 2
  }

  function CapabilityKindCode(k: CapabilityKind): int {
    match k
    case CapabilityKindUnknown => 0
    case CapabilityStatic => 1
    case CapabilityInFlight => 2
  }

  function BatteryModeCode(m: BatteryEnergyMode): int {
    match m
    case BatteryEnergyModeUnknown => 0
    case BatteryEnergyFromCapacity => 1
    case BatteryEnergyEntered => 2
  }

  function SideCode(s: RegulatorSide): int {
    match s
    case RegulatorSideUnknown => 0
    case RegulatorPackSide => 1
    case RegulatorLoadSide => 2
  }

  function SegmentKindCode(k: SegmentKind): int {
    match k
    case SegmentKindUnknown => 0
    case SegmentLaunch => 1
    case SegmentClimb => 2
    case SegmentCruise => 3
    case SegmentLoiter => 4
    case SegmentReturn => 5
    case SegmentRecovery => 6
    case SegmentOther => 7
  }

  function SegmentModelCode(m: SegmentModel): int {
    match m
    case SegmentModelUnknown => 0
    case SegmentModelPolar => 1
    case SegmentModelEntered => 2
  }

  function SegmentTimingCode(t: SegmentTiming): int {
    match t
    case SegmentTimingUnknown => 0
    case SegmentTimingDuration => 1
    case SegmentTimingDistance => 2
  }

  function ShapeCode(s: PlanformShape): int {
    match s
    case ShapeUnknown => 0
    case ShapeRectangle => 1
    case ShapeTrapezoid => 2
  }

  function AreaBasisCode(b: AreaBasis): int {
    match b
    case AreaBasisUnknown => 0
    case AreaBasisReferenceTrapezoid => 1
    case AreaBasisExposedPanels => 2
  }

  function DihedralModeCode(m: DihedralMode): int {
    match m
    case DihedralModeUnknown => 0
    case DihedralHoldPanel => 1
    case DihedralHoldProjected => 2
  }

  function SubjectCode(s: RequirementSubject): int {
    match s
    case SubjectUnknown => 0
    case SubjectStallSpeed => 1
    case SubjectWingArea => 2
    case SubjectSpan => 3
    case SubjectMass => 4
    case SubjectAspectRatio => 5
    case SubjectWingLoadingMass => 6
    case SubjectElectricalPower => 7
    case SubjectMissionEnergy => 8
    case SubjectMissionDuration => 9
    case SubjectMissionRange => 10
    case SubjectPropellerClearance => 11
  }

  // ----- Joined names -------------------------------------------------------

  const NAME_SEPARATOR := ", "

  function JoinTail(names: seq<string>): string {
    if names == [] then [] else NAME_SEPARATOR + names[0] + JoinTail(names[1..])
  }

  function JoinNames(names: seq<string>): string {
    if names == [] then "none" else names[0] + JoinTail(names[1..])
  }

  method Join(names: seq<string>) returns (out: string)
    ensures out == JoinNames(names)
  {
    if names == [] {
      return "none";
    }
    out := names[0];
    for n := 1 to |names|
      invariant out + JoinTail(names[n..]) == JoinNames(names)
    {
      assert names[n..][0] == names[n] && names[n..][1..] == names[n + 1..];
      out := out + NAME_SEPARATOR + names[n];
    }
    assert names[|names|..] == [] && out + [] == out;
  }

  // ----- The sections -------------------------------------------------------

  /** The fields of every entry, in order. */
  function Listed<T>(items: seq<T>, fieldsOf: (nat, T) -> seq<Field>): seq<Field> {
    if items == [] then []
    else Listed(items[..|items| - 1], fieldsOf) + fieldsOf(|items| - 1, items[|items| - 1])
  }

  /** The count first, then the entries. */
  function Counted<T>(name: string, items: seq<T>, fieldsOf: (nat, T) -> seq<Field>): seq<Field> {
    [Enum(name, |items|)] + Listed(items, fieldsOf)
  }

  function ComponentFields(item: MassItem): seq<Field> {
    var prefix := "component[" + item.name + "]";
    [ Note(prefix + ".name", item.name), Enum(prefix + ".role", RoleCode(item.role)), Qty(prefix + ".mass", item.mass),
      Note(prefix + ".basis", item.basis), Qty(prefix + ".x", item.position.x), Qty(prefix + ".y", item.position.y),
      Qty(prefix + ".z", item.position.z) ]
  }

  function PolarFields(d: DragPolar): seq<Field> {
    [ Num("polar.cd0", d.cd0), Note("polar.cd0_basis", d.cd0Basis), Num("polar.oswald_efficiency", d.oswaldEfficiency),
      Note("polar.oswald_basis", d.efficiencyBasis), Note("polar.configuration", d.configuration),
      Num("polar.cl_valid_min", d.clValidMin), Num("polar.cl_valid_max", d.clValidMax),
      Enum("polar.scope", ScopeCode(d.scope)), Enum("polar.evidence", EvidenceCode(d.evidence)) ]
  }

  function EfficiencyFields(e: PropulsionEfficiency): seq<Field> {
    [ Num("propulsion.efficiency", e.total), Note("propulsion.efficiency_basis", e.basis),
      Enum("propulsion.efficiency_evidence", EvidenceCode(e.evidence)) ]
  }

  function LimitsFields(l: PropulsionLimits): seq<Field> {
    [ Note("propulsion.limits_basis", l.basis), Qty("propulsion.max_continuous_power", l.maxContinuousPower),
      Qty("propulsion.max_peak_power", l.maxPeakPower), Qty("propulsion.max_rpm", l.maxRpm),
      Qty("propulsion.max_voltage", l.maxVoltage), Qty("propulsion.propeller_diameter", l.propellerDiameter),
      Qty("propulsion.propeller_hub_height", l.propellerHubHeight) ]
  }

  function CapabilityFields(c: PropulsionCapability): seq<Field> {
    var prefix := "capability[" + c.name + "]";
    [ Note(prefix + ".name", c.name), Note(prefix + ".basis", c.basis), Note(prefix + ".note", c.note),
      Enum(prefix + ".kind", CapabilityKindCode(c.kind)), Qty(prefix + ".speed", c.speed),
      Qty(prefix + ".density", c.density), Note(prefix + ".density_basis", c.densityBasis),
      Qty(prefix + ".voltage", c.voltage), Qty(prefix + ".rpm", c.rpm), Num(prefix + ".throttle", c.throttle),
      Qty(prefix + ".thrust", c.thrust), Qty(prefix + ".electrical_power", c.electricalPower),
      Qty(prefix + ".current", c.current), Enum(prefix + ".evidence", EvidenceCode(c.evidence)) ]
  }

  function TargetFields(t: ThrustTarget): seq<Field> {
    var prefix := "thrust_target[" + t.name + "]";
    [ Note(prefix + ".name", t.name), Note(prefix + ".basis", t.basis), Note(prefix + ".capability", t.capability),
      Num(prefix + ".ratio", t.ratio), Enum(prefix + ".priority", PriorityCode(t.priority)) ]
  }

  function BatteryFields(b: Battery): seq<Field> {
    [ Note("battery.basis", b.basis), Note("battery.component", b.component),
      Enum("battery.mode", BatteryModeCode(b.mode)), Qty("battery.capacity", b.capacity),
      Qty("battery.nominal_voltage", b.nominalVoltage), Qty("battery.energy", b.energy),
      Num("battery.usable_fraction", b.usableFraction),
      Qty("battery.continuous_current_limit", b.continuousCurrentLimit),
      Qty("battery.peak_current_limit", b.peakCurrentLimit), Enum("battery.evidence", EvidenceCode(b.evidence)) ]
  }

  function LoadFields(a: AuxiliaryLoad): seq<Field> {
    var prefix := "auxiliary[" + a.name + "]";
    [ Note(prefix + ".name", a.name), Note(prefix + ".basis", a.basis), Note(prefix + ".component", a.component),
      Qty(prefix + ".continuous", a.continuous), Qty(prefix + ".peak", a.peak),
      Num(prefix + ".regulator_efficiency", a.regulatorEfficiency), Enum(prefix + ".side", SideCode(a.side)),
      Enum(prefix + ".evidence", EvidenceCode(a.evidence)) ]
  }

  /** A segment is keyed by its position: the order flown is part of the mission. */
  function SegmentPrefix(p: Platform, index: nat): string {
    "segment[" + p.format(Float(index)) + "]"
  }

  function SegmentFields(prefix: string, s: MissionSegment): seq<Field> {
    [ Note(prefix + ".name", s.name), Note(prefix + ".case", s.caseName), Note(prefix + ".notes", s.notes),
      Enum(prefix + ".kind", SegmentKindCode(s.kind)), Enum(prefix + ".model", SegmentModelCode(s.model)),
      Enum(prefix + ".timing", SegmentTimingCode(s.timing)), Qty(prefix + ".speed", s.speed),
      Qty(prefix + ".climb_angle", s.climbAngle), Qty(prefix + ".duration", s.duration),
      Qty(prefix + ".distance", s.distance), Qty(prefix + ".wind_along_track", s.windAlongTrack),
      Qty(prefix + ".entered_power", s.enteredPower), Note(prefix + ".entered_basis", s.enteredBasis),
      Enum(prefix + ".entered_evidence", EvidenceCode(s.enteredEvidence)), Num(prefix + ".efficiency", s.efficiency),
      Note(prefix + ".efficiency_basis", s.efficiencyBasis), Note(prefix + ".capability", s.capability) ]
  }

  function MissionHeaderFields(m: Mission): seq<Field> {
    [ Note("mission.name", m.name), Note("mission.basis", m.basis), Num("mission.reserve", m.reserveFraction),
      Note("mission.reserve_basis", m.reserveBasis) ]
  }

  function MissionFields(p: Platform, m: Mission): seq<Field> {
    MissionHeaderFields(m)
    + Counted("mission.segments", m.segments, (n: nat, s: MissionSegment) => SegmentFields(SegmentPrefix(p, n), s))
  }

  function AirfoilFields(prefix: string, a: Airfoil): seq<Field> {
    [ Note(prefix + ".designation", a.designation), Note(prefix + ".evidence", a.evidence),
      Num(prefix + ".thickness_ratio", a.thicknessRatio) ]
  }

  function WingOwnFields(w: WingDefinition): seq<Field> {
    [ Note("wing", w.name), Enum("shape", ShapeCode(w.drivers.shape)), Qty("wing.span", w.drivers.span),
      Qty("wing.area", w.drivers.area), Qty("wing.root_chord", w.drivers.rootChord),
      Num("wing.aspect_ratio", w.drivers.aspectRatio), Num("wing.taper_ratio", w.drivers.taperRatio),
      Qty("wing.sweep", w.sweep), Num("wing.sweep_reference", w.sweepReference), Qty("wing.dihedral", w.dihedral),
      Qty("wing.twist", w.twist), Qty("wing.incidence", w.incidence), Qty("wing.body_width", w.bodyWidth),
      Enum("wing.area_basis", AreaBasisCode(w.areaBasis)),
      Enum("wing.dihedral_mode", DihedralModeCode(w.dihedralMode)) ]
  }

  function WingFields(w: WingDefinition): seq<Field> {
    WingOwnFields(w) + AirfoilFields("wing.root_airfoil", w.rootAirfoil) + AirfoilFields("wing.tip_airfoil", w.tipAirfoil)
  }

  function SurfaceFields(prefix: string, s: TailSurface): seq<Field> {
    [Qty(prefix + ".area", s.area), Qty(prefix + ".span", s.span), Qty(prefix + ".arm", s.arm)]
  }

  function TailFields(t: TailGeometry): seq<Field> {
    SurfaceFields("tail.horizontal", t.horizontal) + SurfaceFields("tail.vertical", t.vertical)
    + [ Qty("tail.vtail.panel_area", t.vtail.panelArea), Qty("tail.vtail.panel_span", t.vtail.panelSpan),
        Qty("tail.vtail.cant", t.vtail.cant), Qty("tail.vtail.arm", t.vtail.arm) ]
  }

  function CaseFields(c: DesignCase): seq<Field> {
    var prefix := "case[" + c.flight.name + "]";
    [ Note(prefix + ".name", c.flight.name), Note(prefix + ".configuration", c.flight.configuration),
      Qty(prefix + ".density", c.flight.density), Note(prefix + ".density_basis", c.flight.densityBasis),
      Qty(prefix + ".viscosity", c.flight.viscosity), Note(prefix + ".viscosity_basis", c.flight.viscosityBasis),
      Num(prefix + ".load_factor", c.flight.loadFactor), Num(prefix + ".clmax", c.flight.clmax.max),
      Enum(prefix + ".clmax_scope", ScopeCode(c.flight.clmax.scope)),
      Note(prefix + ".clmax_basis", c.flight.clmax.basis),
      Enum(prefix + ".clmax_evidence", EvidenceCode(c.clmaxEvidence)),
      Enum(prefix + ".priority", PriorityCode(c.priority)) ]
  }

  function RequirementFields(r: Requirement): seq<Field> {
    var prefix := "requirement[" + r.name + "]";
    [ Note(prefix + ".name", r.name), Enum(prefix + ".subject", SubjectCode(r.subject)),
      Enum(prefix + ".priority", PriorityCode(r.priority)), Qty(prefix + ".minimum", r.minimum),
      Qty(prefix + ".maximum", r.maximum), Num(prefix + ".margin", r.margin), Note(prefix + ".basis", r.basis),
      Note(prefix + ".cases", JoinNames(SortByName(r.cases, Itself))) ]
  }

  function HeaderFields(d: Design): seq<Field> {
    [ Note("design", d.name), Enum("configuration", ConfigurationCode(d.configuration)), Qty("mass", d.mass),
      Note("mass_basis", d.massBasis), Enum("mass_mode", MassModeCode(d.massMode)) ]
  }

  /** Every input of a design. Name-keyed lists are written in name order, the
      mission in its own. */
  function DesignFields(p: Platform, d: Design): seq<Field> {
    HeaderFields(d)
    + Counted("components", SortByName(d.components, ComponentName), (n: nat, x: MassItem) => ComponentFields(x))
    + PolarFields(d.polar)
    + EfficiencyFields(d.propulsion.efficiency) + LimitsFields(d.propulsion.limits)
    + Counted("capabilities", SortByName(d.propulsion.capabilities, CapabilityName),
              (n: nat, x: PropulsionCapability) => CapabilityFields(x))
    + Counted("thrust_targets", SortByName(d.propulsion.targets, TargetName),
              (n: nat, x: ThrustTarget) => TargetFields(x))
    + BatteryFields(d.battery)
    + Counted("auxiliary", SortByName(d.auxiliary, LoadName), (n: nat, x: AuxiliaryLoad) => LoadFields(x))
    + MissionFields(p, d.mission)
    + WingFields(d.wing) + TailFields(d.tail)
    + Counted("cases", SortByName(d.cases, CaseName), (n: nat, x: DesignCase) => CaseFields(x))
    + Counted("requirements", SortByName(d.requirements, RequirementName),
              (n: nat, x: Requirement) => RequirementFields(x))
  }

  function Snapshot(p: Platform, d: Design): string {
    Render(p, DesignFields(p, d))
  }

  // ----- Writing it ---------------------------------------------------------

  /** One section, after everything written before it. */
  method WriteSection(c: Canonical, p: Platform, ghost before: seq<Field>, fields: seq<Field>)
    requires c.out == Render(p, before)
    modifies c
    ensures c.out == Render(p, before + fields)
  {
    RenderJoins(p, before, fields);
    c.Write(p, fields);
  }

  /** A counted list: the count, then one entry after another. */
  method WriteList<T>(
    c: Canonical, p: Platform, ghost before: seq<Field>, name: string, items: seq<T>, fieldsOf: (nat, T) -> seq<Field>)
    requires c.out == Render(p, before)
    modifies c
    ensures c.out == Render(p, before + Counted(name, items, fieldsOf))
  {
    hide Render;
    WriteSection(c, p, before, [Enum(name, |items|)]);
    ghost var headed := before + [Enum(name, |items|)];
    assert headed + Listed(items[..0], fieldsOf) == headed;
    for n := 0 to |items|
      invariant c.out == Render(p, headed + Listed(items[..n], fieldsOf))
    {
      WriteSection(c, p, headed + Listed(items[..n], fieldsOf), fieldsOf(n, items[n]));
      ListedNext(headed, items, fieldsOf, n);
    }
    assert items[..|items|] == items;
    CountedAfter(before, name, items, fieldsOf);
  }

  lemma ListedNext<T>(headed: seq<Field>, items: seq<T>, fieldsOf: (nat, T) -> seq<Field>, n: nat)
    requires n < |items|
    ensures headed + Listed(items[..n], fieldsOf) + fieldsOf(n, items[n]) == headed + Listed(items[..n + 1], fieldsOf)
  {
    assert items[..n + 1][..n] == items[..n];
  }

  lemma CountedAfter<T>(before: seq<Field>, name: string, items: seq<T>, fieldsOf: (nat, T) -> seq<Field>)
    ensures before + [Enum(name, |items|)] + Listed(items, fieldsOf) == before + Counted(name, items, fieldsOf)
  {
  }

  method WriteMission(c: Canonical, p: Platform, ghost before: seq<Field>, m: Mission)
    requires c.out == Render(p, before)
    modifies c
    ensures c.out == Render(p, before + MissionFields(p, m))
  {
    hide MissionHeaderFields, Counted;
    WriteSection(c, p, before, MissionHeaderFields(m));
    var each := (n: nat, s: MissionSegment) => SegmentFields(SegmentPrefix(p, n), s);
    WriteList(c, p, before + MissionHeaderFields(m), "mission.segments", m.segments, each);
    assert before + MissionHeaderFields(m) + Counted("mission.segments", m.segments, each)
      == before + MissionFields(p, m);
  }

  /** Components, polar, propulsion chain: the first half of the form. */
  function FirstHalf(d: Design): seq<Field> {
    HeaderFields(d)
    + Counted("components", SortByName(d.components, ComponentName), (n: nat, x: MassItem) => ComponentFields(x))
    + PolarFields(d.polar)
    + EfficiencyFields(d.propulsion.efficiency) + LimitsFields(d.propulsion.limits)
    + Counted("capabilities", SortByName(d.propulsion.capabilities, CapabilityName),
              (n: nat, x: PropulsionCapability) => CapabilityFields(x))
    + Counted("thrust_targets", SortByName(d.propulsion.targets, TargetName),
              (n: nat, x: ThrustTarget) => TargetFields(x))
    + BatteryFields(d.battery)
  }

  method WriteFirstHalf(c: Canonical, p: Platform, d: Design)
    requires c.out == ""
    modifies c
    ensures c.out == Render(p, FirstHalf(d))
  {
    hide HeaderFields, Counted, PolarFields, EfficiencyFields, LimitsFields, BatteryFields, ComponentFields,
      CapabilityFields, TargetFields;
    assert [] + HeaderFields(d) == HeaderFields(d);
    WriteSection(c, p, [], HeaderFields(d));
    ghost var done := HeaderFields(d);
    var items := (n: nat, x: MassItem) => ComponentFields(x);
    WriteList(c, p, done, "components", SortByName(d.components, ComponentName), items);
    done := done + Counted("components", SortByName(d.components, ComponentName), items);
    WriteSection(c, p, done, PolarFields(d.polar));
    done := done + PolarFields(d.polar);
    WriteSection(c, p, done, EfficiencyFields(d.propulsion.efficiency));
    done := done + EfficiencyFields(d.propulsion.efficiency);
    WriteSection(c, p, done, LimitsFields(d.propulsion.limits));
    done := done + LimitsFields(d.propulsion.limits);
    var points := (n: nat, x: PropulsionCapability) => CapabilityFields(x);
    WriteList(c, p, done, "capabilities", SortByName(d.propulsion.capabilities, CapabilityName), points);
    done := done + Counted("capabilities", SortByName(d.propulsion.capabilities, CapabilityName), points);
    var targets := (n: nat, x: ThrustTarget) => TargetFields(x);
    WriteList(c, p, done, "thrust_targets", SortByName(d.propulsion.targets, TargetName), targets);
    done := done + Counted("thrust_targets", SortByName(d.propulsion.targets, TargetName), targets);
    WriteSection(c, p, done, BatteryFields(d.battery));
  }

  /** The whole form, appended section by section. */
  method WriteSnapshot(p: Platform, d: Design) returns (out: string)
    ensures out == Snapshot(p, d)
  {
    hide FirstHalf, Counted, MissionFields, WingFields, TailFields, LoadFields, CaseFields, RequirementFields;
    var c := new Canonical();
    WriteFirstHalf(c, p, d);
    ghost var done := FirstHalf(d);
    var loads := (n: nat, x: AuxiliaryLoad) => LoadFields(x);
    WriteList(c, p, done, "auxiliary", SortByName(d.auxiliary, LoadName), loads);
    done := done + Counted("auxiliary", SortByName(d.auxiliary, LoadName), loads);
    WriteMission(c, p, done, d.mission);
    done := done + MissionFields(p, d.mission);
    WriteSection(c, p, done, WingFields(d.wing));
    done := done + WingFields(d.wing);
    WriteSection(c, p, done, TailFields(d.tail));
    done := done + TailFields(d.tail);
    var cases := (n: nat, x: DesignCase) => CaseFields(x);
    WriteList(c, p, done, "cases", SortByName(d.cases, CaseName), cases);
    done := done + Counted("cases", SortByName(d.cases, CaseName), cases);
    var bounds := (n: nat, x: Requirement) => RequirementFields(x);
    WriteList(c, p, done, "requirements", SortByName(d.requirements, RequirementName), bounds);
    done := done + Counted("requirements", SortByName(d.requirements, RequirementName), bounds);
    HalvesJoin(p, d);
    out := c.out;
  }

  lemma HalvesJoin(p: Platform, d: Design)
    ensures DesignFields(p, d)
         == FirstHalf(d)
            + Counted("auxiliary", SortByName(d.auxiliary, LoadName), (n: nat, x: AuxiliaryLoad) => LoadFields(x))
            + MissionFields(p, d.mission) + WingFields(d.wing) + TailFields(d.tail)
            + Counted("cases", SortByName(d.cases, CaseName), (n: nat, x: DesignCase) => CaseFields(x))
            + Counted("requirements", SortByName(d.requirements, RequirementName),
                      (n: nat, x: Requirement) => RequirementFields(x))
  {
    hide HeaderFields, Counted, PolarFields, EfficiencyFields, LimitsFields, BatteryFields, MissionFields, WingFields,
      TailFields;
  }

  // ----- A mission is read back from its rendering --------------------------

  predicate SegmentRepresentable(p: Platform, s: MissionSegment) {
    && p.representable(s.speed.si) && p.representable(s.climbAngle.si) && p.representable(s.duration.si)
    && p.representable(s.distance.si) && p.representable(s.windAlongTrack.si)
    && p.representable(s.enteredPower.si) && p.representable(s.efficiency)
  }

  /** The mission's numbers are float64 values and its length is countable. */
  predicate MissionRepresentable(p: Platform, m: Mission) {
    && p.representable(m.reserveFraction) && |m.segments| <= MAX_EXACT
    && forall i :: 0 <= i < |m.segments| ==> SegmentRepresentable(p, m.segments[i])
  }

  function SegmentEntry(p: Platform): (nat, MissionSegment) -> seq<Field> {
    (n: nat, s: MissionSegment) => SegmentFields(SegmentPrefix(p, n), s)
  }

  lemma CodesAreRepresentable(p: Platform, n: int)
    requires p.LawfulFormat() && 0 <= n <= MAX_EXACT
    ensures p.representable(Float(n))
  {
  }

  lemma SegmentFieldsAreRepresentable(p: Platform, prefix: string, s: MissionSegment)
    requires p.LawfulFormat() && SegmentRepresentable(p, s)
    ensures AllRepresentable(p, SegmentFields(prefix, s))
  {
    hide Float;
    CodesAreRepresentable(p, SegmentKindCode(s.kind));
    CodesAreRepresentable(p, SegmentModelCode(s.model));
    CodesAreRepresentable(p, SegmentTimingCode(s.timing));
    CodesAreRepresentable(p, EvidenceCode(s.enteredEvidence));
  }

  lemma SegmentShapes(prefix: string, s: MissionSegment, t: MissionSegment)
    ensures SameShape(SegmentFields(prefix, s), SegmentFields(prefix, t))
    ensures |SegmentFields(prefix, s)| == 17
  {
  }

  lemma SegmentFieldsDiffer(prefix: string, s: MissionSegment, t: MissionSegment)
    requires SegmentFields(prefix, s) == SegmentFields(prefix, t)
    ensures s == t
  {
    var a, b := SegmentFields(prefix, s), SegmentFields(prefix, t);
    assert a[0] == b[0] && a[1] == b[1] && a[2] == b[2] && a[3] == b[3] && a[4] == b[4] && a[5] == b[5];
    assert a[6] == b[6] && a[7] == b[7] && a[8] == b[8] && a[9] == b[9] && a[10] == b[10] && a[11] == b[11];
    assert a[12] == b[12] && a[13] == b[13] && a[14] == b[14] && a[15] == b[15] && a[16] == b[16];
  }

  lemma {:induction false} SegmentListShapes(p: Platform, a: seq<MissionSegment>, b: seq<MissionSegment>)
    requires p.LawfulFormat() && |a| == |b|
    requires forall i :: 0 <= i < |a| ==> SegmentRepresentable(p, a[i]) && SegmentRepresentable(p, b[i])
    ensures SameShape(Listed(a, SegmentEntry(p)), Listed(b, SegmentEntry(p)))
    ensures AllRepresentable(p, Listed(a, SegmentEntry(p))) && AllRepresentable(p, Listed(b, SegmentEntry(p)))
  {
    hide SegmentFields, SameKind, Representable, SegmentRepresentable;
    if a != [] {
      var n := |a| - 1;
      var prefix := SegmentPrefix(p, n);
      SegmentListShapes(p, a[..n], b[..n]);
      SegmentShapes(prefix, a[n], b[n]);
      SegmentFieldsAreRepresentable(p, prefix, a[n]);
      SegmentFieldsAreRepresentable(p, prefix, b[n]);
    }
  }

  lemma {:induction false} SegmentListsDiffer(p: Platform, a: seq<MissionSegment>, b: seq<MissionSegment>)
    requires |a| == |b| && Listed(a, SegmentEntry(p)) == Listed(b, SegmentEntry(p))
    ensures a == b
  {
    hide SegmentFields;
    if a != [] {
      var n := |a| - 1;
      var prefix := SegmentPrefix(p, n);
      var fa, fb := SegmentFields(prefix, a[n]), SegmentFields(prefix, b[n]);
      var la, lb := Listed(a[..n], SegmentEntry(p)), Listed(b[..n], SegmentEntry(p));
      SegmentShapes(prefix, a[n], b[n]);
      assert la + fa == lb + fb && |fa| == |fb|;
      TailsAgree(la, fa, lb, fb);
      SegmentListsDiffer(p, a[..n], b[..n]);
      SegmentFieldsDiffer(prefix, a[n], b[n]);
      assert a == a[..n] + [a[n]] && b == b[..n] + [b[n]];
    }
  }

  lemma TailsAgree<T>(a: seq<T>, x: seq<T>, b: seq<T>, y: seq<T>)
    requires |x| == |y| && a + x == b + y
    ensures a == b && x == y
  {
    assert |a| == |b|;
    assert (a + x)[..|a|] == a && (b + y)[..|a|] == b;
    assert (a + x)[|a|..] == x && (b + y)[|a|..] == y;
  }

  /** Two missions with one rendering, whatever follows it, are one mission: the
      header, the count, and the segments in their order. */
  lemma MissionRenderingReadsBack(p: Platform, m: Mission, n: Mission, u: string, v: string)
    requires p.LawfulFormat() && MissionRepresentable(p, m) && MissionRepresentable(p, n)
    requires Render(p, MissionFields(p, m)) + u == Render(p, MissionFields(p, n)) + v
    ensures m == n && u == v
  {
    hide Render, SegmentFields, SameKind, Float, Listed, SegmentRepresentable;
    var hm, hn := MissionHeaderFields(m) + [Enum("mission.segments", |m.segments|)],
                  MissionHeaderFields(n) + [Enum("mission.segments", |n.segments|)];
    var lm, ln := Listed(m.segments, SegmentEntry(p)), Listed(n.segments, SegmentEntry(p));
    MissionSplits(p, m, u);
    MissionSplits(p, n, v);
    MissionHeads(p, m, n);
    RenderingsReadBack(p, hm, hn, Render(p, lm) + u, Render(p, ln) + v);
    MissionHeadersDiffer(m, n);
    SegmentListShapes(p, m.segments, n.segments);
    RenderingsReadBack(p, lm, ln, u, v);
    SegmentListsDiffer(p, m.segments, n.segments);
  }

  lemma MissionSplits(p: Platform, m: Mission, u: string)
    ensures Render(p, MissionFields(p, m)) + u
         == Render(p, MissionHeaderFields(m) + [Enum("mission.segments", |m.segments|)])
            + (Render(p, Listed(m.segments, SegmentEntry(p))) + u)
  {
    hide Render, Listed, MissionHeaderFields;
    var head := MissionHeaderFields(m) + [Enum("mission.segments", |m.segments|)];
    var list := Listed(m.segments, SegmentEntry(p));
    assert MissionFields(p, m) == head + list;
    RenderJoins(p, head, list);
    assert Render(p, head) + Render(p, list) + u == Render(p, head) + (Render(p, list) + u);
  }

  lemma MissionHeads(p: Platform, m: Mission, n: Mission)
    requires p.LawfulFormat() && MissionRepresentable(p, m) && MissionRepresentable(p, n)
    ensures var hm, hn := MissionHeaderFields(m) + [Enum("mission.segments", |m.segments|)],
                          MissionHeaderFields(n) + [Enum("mission.segments", |n.segments|)];
            SameShape(hm, hn) && AllRepresentable(p, hm) && AllRepresentable(p, hn)
  {
    hide Float, SegmentRepresentable;
    CodesAreRepresentable(p, |m.segments|);
    CodesAreRepresentable(p, |n.segments|);
  }

  lemma MissionHeadersDiffer(m: Mission, n: Mission)
    requires MissionHeaderFields(m) + [Enum("mission.segments", |m.segments|)]
          == MissionHeaderFields(n) + [Enum("mission.segments", |n.segments|)]
    ensures m.name == n.name && m.basis == n.basis && m.reserveBasis == n.reserveBasis
    ensures m.reserveFraction == n.reserveFraction && |m.segments| == |n.segments|
  {
    var a, b := MissionHeaderFields(m) + [Enum("mission.segments", |m.segments|)],
                MissionHeaderFields(n) + [Enum("mission.segments", |n.segments|)];
    assert a[0] == b[0] && a[1] == b[1] && a[2] == b[2] && a[3] == b[3] && a[4] == b[4];
  }

  // ----- Joined names are not read back -------------------------------------

  /** The text holds the separator. */
  predicate HoldsSeparator(text: string) {
    exists i :: 0 <= i < |text| - 1 && text[i] == ',' && text[i + 1] == ' '
  }

  predicate SeparatorFree(names: seq<string>) {
    forall i :: 0 <= i < |names| ==> !HoldsSeparator(names[i])
  }

  /** Nothing follows, or a separator does. */
  predicate Separated(rest: string) {
    rest == [] || (|rest| >= 2 && rest[0] == ',' && rest[1] == ' ')
  }

  lemma TailsAreSeparated(names: seq<string>)
    ensures Separated(JoinTail(names))
  {
  }

  /** The first separator of a joined text ends the first name. */
  lemma NameEnds(x: string, y: string, u: string, v: string)
    requires !HoldsSeparator(x) && !HoldsSeparator(y) && Separated(u) && Separated(v)
    requires x + u == y + v
    ensures x == y && u == v
  {
    if |x| < |y| {
      LongerNameHoldsTheSeparator(x, y, u, v);
    } else if |y| < |x| {
      LongerNameHoldsTheSeparator(y, x, v, u);
    }
    assert (x + u)[..|x|] == x && (y + v)[..|y|] == y;
    assert (x + u)[|x|..] == u && (y + v)[|y|..] == v;
  }

  lemma LongerNameHoldsTheSeparator(x: string, y: string, u: string, v: string)
    requires |x| < |y| && Separated(u) && Separated(v) && x + u == y + v
    ensures HoldsSeparator(y)
  {
    assert |x + u| == |x| + |u| == |y| + |v|;
    assert (x + u)[|x|] == ',' && (x + u)[|x| + 1] == ' ';
    assert y[|x|] == (y + v)[|x|];
    var next := |x| + 1;
    JoinedAt(y, v, next);
  }

  lemma JoinedAt(x: string, y: string, i: nat)
    requires i < |x + y|
    ensures (x + y)[i] == if i < |x| then x[i] else y[i - |x|]
  {
  }

  lemma {:induction false} TailsReadBack(a: seq<string>, b: seq<string>)
    requires SeparatorFree(a) && SeparatorFree(b) && JoinTail(a) == JoinTail(b)
    ensures a == b
  {
    if a != [] && b != [] {
      var ta, tb := a[0] + JoinTail(a[1..]), b[0] + JoinTail(b[1..]);
      assert JoinTail(a) == NAME_SEPARATOR + ta && JoinTail(b) == NAME_SEPARATOR + tb;
      SameHead(NAME_SEPARATOR, ta, tb);
      TailsAreSeparated(a[1..]);
      TailsAreSeparated(b[1..]);
      NameEnds(a[0], b[0], JoinTail(a[1..]), JoinTail(b[1..]));
      TailsReadBack(a[1..], b[1..]);
      assert a == [a[0]] + a[1..] && b == [b[0]] + b[1..];
    }
  }

  predicate NothingAgainstNone(a: seq<string>, b: seq<string>) {
    (a == [] && b == ["none"]) || (a == ["none"] && b == [])
  }

  /** Lists of names that hold no separator share a joined form exactly when they
      are equal, or when one is empty and the other is the single name "none". */
  lemma SeparatorFreeNamesAreReadBack(a: seq<string>, b: seq<string>)
    requires SeparatorFree(a) && SeparatorFree(b)
    ensures JoinNames(a) == JoinNames(b) <==> a == b || NothingAgainstNone(a, b)
  {
    assert "none" + [] == "none";
    if JoinNames(a) == JoinNames(b) {
      var a', b' := if a == [] then ["none"] else a, if b == [] then ["none"] else b;
      NoneHoldsNoSeparator();
      TailsAreSeparated(a'[1..]);
      TailsAreSeparated(b'[1..]);
      assert JoinNames(a) == a'[0] + JoinTail(a'[1..]) && JoinNames(b) == b'[0] + JoinTail(b'[1..]);
      NameEnds(a'[0], b'[0], JoinTail(a'[1..]), JoinTail(b'[1..]));
      TailsReadBack(a'[1..], b'[1..]);
      assert a' == [a'[0]] + a'[1..] && b' == [b'[0]] + b'[1..];
    }
  }

  lemma NoneHoldsNoSeparator()
    ensures !HoldsSeparator("none")
  {
  }

  /** A name list is the only one with its joined form exactly when it is a single
      name that holds no separator and is not "none". */
  lemma OnlyASinglePlainNameIsReadBack(a: seq<string>)
    ensures (forall b: seq<string> :: JoinNames(b) == JoinNames(a) ==> b == a)
       <==> |a| == 1 && !HoldsSeparator(a[0]) && a[0] != "none"
  {
    hide JoinNames, HoldsSeparator;
    if |a| == 1 && !HoldsSeparator(a[0]) && a[0] != "none" {
      forall b: seq<string> | JoinNames(b) == JoinNames(a)
        ensures b == a
      {
        OneNameJoins(a[0]);
        assert a == [a[0]];
        OnlyThisList(a[0], b);
      }
    } else {
      var b := AnotherListJoinsAlike(a);
    }
  }

  lemma OneNameJoins(name: string)
    ensures JoinNames([name]) == name
  {
    assert [name][1..] == [] && name + [] == name;
  }

  lemma OnlyThisList(name: string, b: seq<string>)
    requires JoinNames(b) == name && !HoldsSeparator(name) && name != "none"
    ensures b == [name]
  {
    if |b| == 1 {
      OneNameJoins(b[0]);
    } else if |b| >= 2 {
      TwoNamesHoldTheSeparator(b);
    }
  }

  lemma TwoNamesHoldTheSeparator(b: seq<string>)
    requires |b| >= 2
    ensures HoldsSeparator(JoinNames(b))
  {
    var rest := b[1] + JoinTail(b[1..][1..]);
    assert JoinTail(b[1..]) == NAME_SEPARATOR + rest;
    var n, joined := |b[0]|, JoinNames(b);
    assert joined == b[0] + (NAME_SEPARATOR + rest);
    assert joined[n] == ',' && joined[n + 1] == ' ';
  }

  lemma AnotherListJoinsAlike(a: seq<string>) returns (b: seq<string>)
    requires !(|a| == 1 && !HoldsSeparator(a[0]) && a[0] != "none")
    ensures JoinNames(b) == JoinNames(a) && b != a
  {
    OneNameJoins("none");
    if a == [] {
      b := ["none"];
    } else if |a| >= 2 {
      JoinedNamesCanBeForged(a);
      b := [JoinNames(a)];
    } else if a[0] == "none" {
      assert a == ["none"];
      b := [];
    } else {
      var i :| 0 <= i < |a[0]| - 1 && a[0][i] == ',' && a[0][i + 1] == ' ';
      b := [a[0][..i], a[0][i + 2..]];
      SplitJoins(a[0], i);
      OneNameJoins(a[0]);
      assert a == [a[0]];
    }
  }

  lemma SplitJoins(name: string, i: nat)
    requires i < |name| - 1 && name[i] == ',' && name[i + 1] == ' '
    ensures JoinNames([name[..i], name[i + 2..]]) == name
  {
    var x, y := name[..i], name[i + 2..];
    assert [x, y][1..] == [y] && [y][1..] == [];
    assert JoinTail([y]) == NAME_SEPARATOR + y + [] == NAME_SEPARATOR + y;
    assert x + (NAME_SEPARATOR + y) == name;
  }

  /** Every list of two or more names shares its joined form with the list of one
      name that spells them out. */
  lemma JoinedNamesCanBeForged(a: seq<string>)
    requires |a| >= 2
    ensures JoinNames(a) == JoinNames([JoinNames(a)]) && a != [JoinNames(a)]
  {
    assert [JoinNames(a)][1..] == [];
    assert JoinNames(a) + [] == JoinNames(a);
  }

  /** So two requirements that differ only in the cases they name, one naming two
      cases and the other a single case spelling both, have one canonical form. */
  lemma ForgedCasesShareAFingerprint(r: Requirement, s: Requirement)
    requires |r.cases| >= 2 && s == r.(cases := [JoinNames(SortByName(r.cases, Itself))])
    ensures RequirementFields(r) == RequirementFields(s) && r.cases != s.cases
  {
    var sorted := SortByName(r.cases, Itself);
    assert |multiset(sorted)| == |sorted| && |multiset(r.cases)| == |r.cases|;
    JoinedNamesCanBeForged(sorted);
    SortingOne(JoinNames(sorted));
  }

  lemma SortingOne(name: string)
    ensures SortByName([name], Itself) == [name]
  {
    var sorted := SortByName([name], Itself);
    assert |multiset(sorted)| == |sorted| == 1;
    assert sorted[0] in multiset([name]);
  }
}
