/** The steady-flight and energy equations a mission segment is evaluated with. */
module PowerEquations {
  import opened Quantities
  import opened Definition
  import opened Reals
  import opened Lift

  /** A rejected input continues as zero. */
  function Taken(q: Quantity, want: Dimension): real {
    if q.dim == want then q.si else 0.0
  }

  function When(condition: bool, issue: IssueKind): Issues {
    if condition then [issue] else []
  }

  function FinishSigned(issues: Issues, si: real, dim: Dimension): Outcome<Quantity> {
    if issues != [] then Refused(issues) else Ok(Quantity(si, dim))
  }

  function DynamicPressure(fc: FlightCase, speed: Quantity): Outcome<Quantity> {
    var issues := DensityIssues(fc) + QuantityIssues(speed, DimSpeed);
    if issues != [] then Refused(issues) else Finish(fc.density.si * Square(speed.si) / 2.0, DimForcePerArea)
  }

  function SegmentLift(p: Platform, mass: Quantity, loadFactor: real, climb: Quantity): Outcome<Quantity> {
    var issues := QuantityIssues(mass, DimMass) + ScalarIssues(loadFactor) + SignedIssues(climb, DimAngle)
                  + When(p.cos(Taken(climb, DimAngle)) <= 0.0, IssueUnsupported);
    if issues != [] then Refused(issues) else Finish(loadFactor * mass.si * GRAVITY * p.cos(climb.si), DimForce)
  }

  function SegmentLiftCoefficient(lift: Quantity, pressure: Quantity, area: Quantity): Outcome<Quantity> {
    var issues := QuantityIssues(lift, DimForce) + QuantityIssues(pressure, DimForcePerArea)
                  + QuantityIssues(area, DimArea);
    if issues != [] || pressure.si * area.si == 0.0 then Refused(issues)
    else Finish(lift.si / (pressure.si * area.si), Dimensionless)
  }

  predicate Covers(polar: DragPolar, cl: real) {
    polar.clValidMin <= cl <= polar.clValidMax
  }

  function InducedDragFactor(p: Platform, aspect: real, polar: DragPolar): Outcome<Quantity> {
    var issues := ScalarIssues(aspect) + ScalarIssues(polar.oswaldEfficiency);
    if issues != [] || p.pi * aspect * polar.oswaldEfficiency == 0.0 then Refused(issues)
    else Finish(1.0 / (p.pi * aspect * polar.oswaldEfficiency), Dimensionless)
  }

  function DragCoefficient(p: Platform, aspect: real, polar: DragPolar, cl: real): Outcome<Quantity> {
    var factor :- InducedDragFactor(p, aspect, polar);
    var issues := ScalarIssues(polar.cd0) + ScalarIssues(factor.si) + When(!Covers(polar, cl), IssueUnsupported);
    if issues != [] then Refused(issues) else Finish(polar.cd0 + factor.si * Square(cl), Dimensionless)
  }

  function LiftToDrag(cl: real, cd: real): Outcome<Quantity> {
    var issues := ScalarIssues(cl) + ScalarIssues(cd);
    if issues != [] || cd == 0.0 then Refused(issues) else Finish(cl / cd, Dimensionless)
  }

  function DragForce(pressure: Quantity, area: Quantity, cd: real): Outcome<Quantity> {
    var issues := QuantityIssues(pressure, DimForcePerArea) + QuantityIssues(area, DimArea) + ScalarIssues(cd);
    if issues != [] then Refused(issues) else Finish(pressure.si * area.si * cd, DimForce)
  }

  function RequiredThrust(p: Platform, drag: Quantity, mass: Quantity, climb: Quantity): Outcome<Quantity> {
    var issues := QuantityIssues(drag, DimForce) + QuantityIssues(mass, DimMass) + SignedIssues(climb, DimAngle);
    FinishSigned(issues, drag.si + mass.si * GRAVITY * p.sin(climb.si), DimForce)
  }

  function PropulsivePower(thrust: Quantity, speed: Quantity): Outcome<Quantity> {
    var issues := QuantityIssues(thrust, DimForce) + QuantityIssues(speed, DimSpeed)
                  + When(Taken(speed, DimSpeed) == 0.0, IssueUnsupported);
    if issues != [] then Refused(issues) else Finish(thrust.si * speed.si, DimPower)
  }

  function RequiredElectricalPower(useful: Quantity, efficiency: real, auxiliary: Quantity): Outcome<Quantity> {
    var issues := QuantityIssues(useful, DimPower) + ScalarIssues(efficiency) + SignedIssues(auxiliary, DimPower);
    if efficiency == 0.0 then Refused(issues)
    else
      var all := issues + When(efficiency > 1.0, IssueInvalid) + When(Taken(auxiliary, DimPower) < 0.0, IssueInvalid);
      if all != [] then Refused(all) else Finish(useful.si / efficiency + auxiliary.si, DimPower)
  }

  function SegmentEnergy(power: Quantity, duration: Quantity): Outcome<Quantity> {
    var issues := QuantityIssues(power, DimPower) + QuantityIssues(duration, DimTime);
    if issues != [] then Refused(issues) else Finish(power.si * duration.si, DimEnergy)
  }

  /** Signed, so a headwind stronger than the airspeed is backwards progress. */
  function GroundSpeed(p: Platform, speed: Quantity, climb: Quantity, wind: Quantity): Outcome<Quantity> {
    var issues := QuantityIssues(speed, DimSpeed) + SignedIssues(climb, DimAngle) + SignedIssues(wind, DimSpeed);
    FinishSigned(issues, speed.si * p.cos(climb.si) + wind.si, DimSpeed)
  }

  function SegmentDistance(ground: Quantity, duration: Quantity): Outcome<Quantity> {
    var issues := SignedIssues(ground, DimSpeed) + QuantityIssues(duration, DimTime)
                  + When(Taken(ground, DimSpeed) <= 0.0, IssueUnsupported);
    if issues != [] then Refused(issues) else Finish(ground.si * duration.si, DimLength)
  }

  function SegmentDuration(distance: Quantity, ground: Quantity): Outcome<Quantity> {
    var issues := QuantityIssues(distance, DimLength) + SignedIssues(ground, DimSpeed)
                  + When(Taken(ground, DimSpeed) <= 0.0, IssueUnsupported);
    if issues != [] || ground.si == 0.0 then Refused(issues) else Finish(distance.si / ground.si, DimTime)
  }

  function NominalEnergy(b: Battery): Outcome<Quantity> {
    match b.mode
    case BatteryEnergyFromCapacity =>
      var issues := QuantityIssues(b.capacity, DimCharge) + QuantityIssues(b.nominalVoltage, DimVoltage);
      if issues != [] then Refused(issues) else Finish(b.capacity.si * b.nominalVoltage.si, DimEnergy)
    case BatteryEnergyEntered => if !b.energy.Supplied() then Refused([IssueMissing]) else Ok(b.energy)
    case BatteryEnergyModeUnknown => Refused([IssueMissing])
  }

  function UsableEnergy(b: Battery): Outcome<Quantity> {
    var nominal :- NominalEnergy(b);
    var issues := QuantityIssues(nominal, DimEnergy) + ScalarIssues(b.usableFraction)
                  + When(b.usableFraction > 1.0, IssueInvalid);
    if issues != [] then Refused(issues) else Finish(nominal.si * b.usableFraction, DimEnergy)
  }

  /** The reserve is applied here and nowhere else. */
  function EnergyBudget(usable: Quantity, reserve: real): Outcome<Quantity> {
    var issues := QuantityIssues(usable, DimEnergy) + When(reserve < 0.0 || reserve >= 1.0, IssueInvalid);
    if issues != [] then Refused(issues) else Finish(usable.si * (1.0 - reserve), DimEnergy)
  }

  function PropellerClearance(limits: PropulsionLimits): Outcome<Quantity> {
    var issues := QuantityIssues(limits.propellerHubHeight, DimLength)
                  + QuantityIssues(limits.propellerDiameter, DimLength);
    FinishSigned(issues, limits.propellerHubHeight.si - limits.propellerDiameter.si / 2.0, DimLength)
  }
}

/** What a mission costs, and whether the battery can pay for it. */
module Missions {
  import opened Quantities
  import opened Definition
  import opened Reals
  import opened Recording
  import opened MassBalance
  import opened Planforms
  import opened Wings
  import opened PowerEquations
  import opened Electrical

  /** The steady force balance of one flight condition. */
  datatype Balance = Balance(
    pressure: Quantity,
    lift: Quantity,
    liftCoefficient: real,
    dragCoefficient: real,
    liftToDrag: real,
    drag: Quantity,
    thrust: Quantity,
    propulsive: Quantity,
    electrical: Quantity
  )

  datatype SegmentPower = SegmentPower(
    thrust: Quantity,
    propulsiveElectrical: Quantity,
    electrical: Quantity,
    efficiency: real,
    model: SegmentModel,
    evidence: EvidenceQuality,
    status: ResultStatus
  )

  function NoPower(model: SegmentModel, evidence: EvidenceQuality, status: ResultStatus): SegmentPower {
    SegmentPower(UNSET, UNSET, UNSET, 0.0, model, evidence, status)
  }

  datatype SegmentResult = SegmentResult(
    name: string,
    caseName: string,
    power: SegmentPower,
    groundSpeed: Quantity,
    duration: Quantity,
    distance: Quantity,
    energy: Quantity,
    kind: SegmentKind,
    status: ResultStatus
  )

  datatype MissionResult = MissionResult(
    segments: seq<SegmentResult>,
    requiredEnergy: Quantity,
    usableEnergy: Quantity,
    budget: Quantity,
    totalDuration: Quantity,
    totalDistance: Quantity,
    peakContinuousPower: Quantity,
    reserveFraction: real,
    energyStatus: LimitStatus,
    status: ResultStatus,
    complete: bool
  )

  /** The mass and the wing every segment of one mission rests on. */
  datatype PowerContext = PowerContext(mass: SubjectReading, wing: Outcome<Wing>)

  function ContextOf(p: Platform, d: Design): PowerContext {
    PowerContext(MassReading(d), SolveWing(p, d.wing))
  }

  // ----- One segment's power ------------------------------------------------

  /** A condition the aircraft's own lift evidence does not support. */
  function EnvelopeIssues(fc: FlightCase, polar: DragPolar, cl: real): Issues {
    (match fc.clmax.scope
     case ScopeAircraft => When(fc.clmax.max > 0.0 && cl > fc.clmax.max, IssueUnsupported)
     case ScopeAirfoilSection => [IssueUnsupported]
     case ScopeUnknown => [IssueMissing])
    + When(!Covers(polar, cl), IssueUnsupported)
  }

  function ChainEfficiency(d: Design, s: MissionSegment): real {
    if s.efficiency > 0.0 then s.efficiency
    else if d.propulsion.efficiency.total > 0.0 then d.propulsion.efficiency.total
    else 0.0
  }

  /** The physical chain: pressure, lift, lift coefficient, envelope, polar, drag,
      thrust, useful power, electrical draw. */
  function ResolveBalance(
    p: Platform, d: Design, s: MissionSegment, fc: FlightCase, mass: Quantity, wing: Wing, efficiency: real): Outcome<Balance>
  {
    var q := DynamicPressure(fc, s.speed);
    var lift := SegmentLift(p, mass, fc.loadFactor, s.climbAngle);
    if q.Refused? || lift.Refused? then Refused(IssuesOf(q) + IssuesOf(lift))
    else
      var area := wing.projected.area;
      var cl :- SegmentLiftCoefficient(lift.value, q.value, area);
      var envelope := EnvelopeIssues(fc, d.polar, cl.si);
      if envelope != [] then Refused(envelope)
      else
        var cd :- DragCoefficient(p, wing.projectedAspectRatio, d.polar, cl.si);
        var glide := LiftToDrag(cl.si, cd.si);
        var drag := DragForce(q.value, area, cd.si);
        if glide.Refused? || drag.Refused? then Refused(IssuesOf(glide) + IssuesOf(drag))
        else
          var thrust :- RequiredThrust(p, drag.value, mass, s.climbAngle);
          if thrust.si <= 0.0 then Refused([IssueInvalid])
          else
            var useful :- PropulsivePower(thrust, s.speed);
            var electrical :- RequiredElectricalPower(useful, efficiency, Quantity(0.0, DimPower));
            Ok(Balance(q.value, lift.value, cl.si, cd.si, glide.value.si, drag.value, thrust, useful, electrical))
  }

  /** The draw of the propulsion chain and the continuous auxiliary draw. */
  function WithAuxiliary(power: SegmentPower, auxiliary: ElectricalBudget): SegmentPower {
    power.(electrical := Quantity(power.propulsiveElectrical.si + auxiliary.continuous.si, DimPower))
  }

  function EnteredPower(s: MissionSegment, auxiliary: ElectricalBudget): SegmentPower {
    var open := NoPower(SegmentModelEntered, s.enteredEvidence, ResultComputed);
    if !s.enteredPower.Supplied() then open.(status := ResultMissing)
    else if s.enteredPower.dim != DimPower then open.(status := ResultInvalid)
    else WithAuxiliary(open.(propulsiveElectrical := s.enteredPower), auxiliary)
  }

  function PolarPower(
    p: Platform, d: Design, s: MissionSegment, context: PowerContext, auxiliary: ElectricalBudget): SegmentPower
  {
    var open :=
      NoPower(SegmentModelPolar, Weaker(d.polar.evidence, d.propulsion.efficiency.evidence), ResultMissing);
    var flown := Lookup(d.cases, CaseName, s.caseName);
    if flown.None? || d.polar == NO_POLAR then open
    else if context.wing.Refused? then open.(status := ResultInvalid)
    else if context.mass.status != ResultComputed then open.(status := context.mass.status)
    else if ChainEfficiency(d, s) == 0.0 then open
    else
      var e := ChainEfficiency(d, s);
      match ResolveBalance(p, d, s, flown.value.flight, context.mass.value, context.wing.value, e)
      case Refused(issues) => open.(efficiency := e, status := StatusForIssues(issues))
      case Ok(b) =>
        WithAuxiliary(open.(thrust := b.thrust, propulsiveElectrical := b.electrical, efficiency := e,
                            status := ResultComputed),
                      auxiliary)
  }

  function PowerOf(
    p: Platform, d: Design, s: MissionSegment, context: PowerContext, auxiliary: ElectricalBudget): SegmentPower
  {
    if auxiliary.status != ResultComputed then NoPower(s.model, EvidenceUnstated, auxiliary.status)
    else
      match s.model
      case SegmentModelEntered => EnteredPower(s, auxiliary)
      case SegmentModelPolar => PolarPower(p, d, s, context, auxiliary)
      case SegmentModelUnknown => NoPower(s.model, EvidenceUnstated, ResultMissing)
  }

  // ----- One segment --------------------------------------------------------

  function OpenSegment(s: MissionSegment): SegmentResult {
    SegmentResult(s.name, s.caseName, NoPower(SegmentModelUnknown, EvidenceUnstated, ResultMissing),
                  UNSET, UNSET, UNSET, UNSET, s.kind, ResultMissing)
  }

  /** The ground speed, the duration and the distance, and whether the segment
      may continue. A leg that makes no headway keeps its duration. */
  function TimeSegment(p: Platform, s: MissionSegment): (SegmentResult, bool) {
    var open := OpenSegment(s);
    match GroundSpeed(p, s.speed, s.climbAngle, s.windAlongTrack)
    case Refused(issues) => (open.(status := StatusForIssues(issues)), false)
    case Ok(ground) =>
      var timed := open.(groundSpeed := ground);
      match s.timing
      case SegmentTimingDuration =>
        var distance := SegmentDistance(ground, s.duration);
        (timed.(duration := s.duration, distance := ValueOf(distance)), true)
      case SegmentTimingDistance =>
        var duration := SegmentDuration(s.distance, ground);
        if duration.Refused? then
          (timed.(distance := s.distance, status := StatusForIssues(duration.issues)), false)
        else (timed.(distance := s.distance, duration := duration.value), true)
      case SegmentTimingUnknown => (timed, false)
  }

  function EvaluateSegment(
    p: Platform, d: Design, s: MissionSegment, context: PowerContext, auxiliary: ElectricalBudget): SegmentResult
  {
    var (timed, continues) := TimeSegment(p, s);
    if !continues then timed
    else
      var powered := timed.(power := PowerOf(p, d, s, context, auxiliary));
      if powered.power.status != ResultComputed then powered.(status := powered.power.status)
      else
        match SegmentEnergy(powered.power.electrical, powered.duration)
        case Refused(issues) => powered.(status := StatusForIssues(issues))
        case Ok(energy) => powered.(energy := energy, status := ResultComputed)
  }

  // ----- The mission totals -------------------------------------------------

  datatype Total = OfEnergy | OfDuration | OfDistance

  function TotalDimension(what: Total): Dimension {
    match what
    case OfEnergy => DimEnergy
    case OfDuration => DimTime
    case OfDistance => DimLength
  }

  function Share(r: SegmentResult, what: Total): Quantity {
    match what
    case OfEnergy => r.energy
    case OfDuration => r.duration
    case OfDistance => r.distance
  }

  /** The sum over the computed segments. */
  function SumOver(segments: seq<SegmentResult>, what: Total): real {
    if segments == [] then 0.0
    else
      var last := segments[|segments| - 1];
      SumOver(segments[..|segments| - 1], what)
      + if last.status == ResultComputed then Taken(Share(last, what), TotalDimension(what)) else 0.0
  }

  function SumIssues(segments: seq<SegmentResult>, what: Total): Issues {
    if segments == [] then []
    else
      var last := segments[|segments| - 1];
      SumIssues(segments[..|segments| - 1], what)
      + if last.status == ResultComputed then QuantityIssues(Share(last, what), TotalDimension(what)) else []
  }

  /** The largest draw any computed segment holds. */
  function PeakOver(segments: seq<SegmentResult>): real {
    if segments == [] then 0.0
    else
      var before, last := PeakOver(segments[..|segments| - 1]), segments[|segments| - 1];
      if last.status == ResultComputed && last.power.electrical.si > before then last.power.electrical.si else before
  }

  function FinishTotal(segments: seq<SegmentResult>, what: Total): Outcome<Quantity> {
    if SumIssues(segments, what) != [] then Refused(SumIssues(segments, what))
    else Finish(SumOver(segments, what), TotalDimension(what))
  }

  /** The three totals in order; the first that fails stops the rest. */
  function FinishSums(m: MissionResult): MissionResult {
    match FinishTotal(m.segments, OfEnergy)
    case Refused(issues) => m.(status := StatusForIssues(issues))
    case Ok(energy) =>
      var m1 := m.(requiredEnergy := energy);
      match FinishTotal(m.segments, OfDuration)
      case Refused(issues) => m1.(status := StatusForIssues(issues))
      case Ok(duration) =>
        var m2 := m1.(totalDuration := duration);
        match FinishTotal(m.segments, OfDistance)
        case Refused(issues) => m2.(status := StatusForIssues(issues))
        case Ok(distance) => m2.(totalDistance := distance, status := ResultComputed)
  }

  /** Compares the required energy with what the battery may spend. */
  function ApplyEnergyBudget(d: Design, m: MissionResult): MissionResult {
    if m.status != ResultComputed then m
    else
      match UsableEnergy(d.battery)
      case Refused(_) => m.(energyStatus := LimitUnknown)
      case Ok(usable) =>
        match EnergyBudget(usable, d.mission.reserveFraction)
        case Refused(_) => m.(usableEnergy := usable, energyStatus := LimitUnknown)
        case Ok(budget) =>
          m.(usableEnergy := usable, budget := budget,
             energyStatus := if !m.complete then LimitUnknown
                             else StatusFor(m.requiredEnergy.si <= budget.si + TOLERANCE * budget.si))
  }

  function Evaluated(
    p: Platform, d: Design, segments: seq<MissionSegment>, context: PowerContext, auxiliary: ElectricalBudget): seq<SegmentResult>
  {
    seq(|segments|, i requires 0 <= i < |segments| => EvaluateSegment(p, d, segments[i], context, auxiliary))
  }

  predicate AllComputed(segments: seq<SegmentResult>) {
    forall i :: 0 <= i < |segments| ==> segments[i].status == ResultComputed
  }

  predicate AnyComputed(segments: seq<SegmentResult>) {
    exists i :: 0 <= i < |segments| && segments[i].status == ResultComputed
  }

  function OpenMission(d: Design, segments: seq<SegmentResult>): MissionResult {
    MissionResult(segments, UNSET, UNSET, UNSET, UNSET, UNSET, UNSET, d.mission.reserveFraction,
                  LimitUnknown, ResultMissing, segments != [] && AllComputed(segments))
  }

  function Budgeted(d: Design, segments: seq<SegmentResult>): MissionResult {
    var open := OpenMission(d, segments);
    if !AnyComputed(segments) then open
    else
      ApplyEnergyBudget(d, FinishSums(open).(peakContinuousPower := Quantity(PeakOver(segments), DimPower)))
  }

  /** Every segment evaluated, the energies summed, the battery compared. */
  function Analysis(p: Platform, d: Design): MissionResult {
    Budgeted(d, Evaluated(p, d, d.mission.segments, ContextOf(p, d), Budget(d.auxiliary)))
  }

  method FinishMissionSums(
    m: MissionResult, energySum: Evaluation, durationSum: Evaluation, distanceSum: Evaluation,
    energy: real, duration: real, distance: real) returns (r: MissionResult)
    requires energySum.issues == SumIssues(m.segments, OfEnergy) && energy == SumOver(m.segments, OfEnergy)
    requires durationSum.issues == SumIssues(m.segments, OfDuration) && duration == SumOver(m.segments, OfDuration)
    requires distanceSum.issues == SumIssues(m.segments, OfDistance) && distance == SumOver(m.segments, OfDistance)
    ensures r == FinishSums(m)
  {
    hide SumOver, SumIssues;
    r := m;
    var e := energySum.Finish(energy, DimEnergy);
    if e.Refused? {
      return r.(status := StatusForIssues(e.issues));
    }
    r := r.(requiredEnergy := e.value.result);
    var t := durationSum.Finish(duration, DimTime);
    if t.Refused? {
      return r.(status := StatusForIssues(t.issues));
    }
    r := r.(totalDuration := t.value.result);
    var g := distanceSum.Finish(distance, DimLength);
    if g.Refused? {
      return r.(status := StatusForIssues(g.issues));
    }
    r := r.(totalDistance := g.value.result, status := ResultComputed);
  }

  /** Records one computed segment in the three sums. */
  method RecordSegment(segment: SegmentResult, energySum: Evaluation, durationSum: Evaluation, distanceSum: Evaluation)
    returns (e: real, t: real, g: real)
    requires energySum != durationSum && energySum != distanceSum && durationSum != distanceSum
    modifies energySum, durationSum, distanceSum
    ensures energySum.issues == old(energySum.issues) + QuantityIssues(segment.energy, DimEnergy)
    ensures durationSum.issues == old(durationSum.issues) + QuantityIssues(segment.duration, DimTime)
    ensures distanceSum.issues == old(distanceSum.issues) + QuantityIssues(segment.distance, DimLength)
    ensures e == Taken(segment.energy, DimEnergy)
    ensures t == Taken(segment.duration, DimTime)
    ensures g == Taken(segment.distance, DimLength)
  {
    e := energySum.Take(segment.energy, DimEnergy);
    t := durationSum.Take(segment.duration, DimTime);
    g := distanceSum.Take(segment.distance, DimLength);
  }

  method AnalyseMission(p: Platform, d: Design) returns (result: MissionResult)
    ensures result == Analysis(p, d)
  {
    hide EvaluateSegment, ContextOf, Budget, FinishSums, ApplyEnergyBudget, SumOver, SumIssues, PeakOver,
      AllComputed, AnyComputed, Taken, QuantityIssues;
    result := OpenMission(d, []);
    NothingComputed();
    if d.mission.segments == [] {
      assert Evaluated(p, d, [], ContextOf(p, d), Budget(d.auxiliary)) == [];
      return;
    }
    result := result.(complete := true);
    var context := ContextOf(p, d);
    var auxiliary := ComputeBudget(d.auxiliary);
    var energySum := new Evaluation();
    var durationSum := new Evaluation();
    var distanceSum := new Evaluation();
    var energy, duration, distance, peak, contributing := 0.0, 0.0, 0.0, 0.0, 0;
    ghost var all := Evaluated(p, d, d.mission.segments, context, auxiliary);
    for n := 0 to |d.mission.segments|
      invariant result == OpenMission(d, all[..n]).(complete := AllComputed(all[..n]))
      invariant contributing >= 0 && (contributing > 0 <==> AnyComputed(all[..n]))
      invariant energySum.issues == SumIssues(all[..n], OfEnergy) && energy == SumOver(all[..n], OfEnergy)
      invariant durationSum.issues == SumIssues(all[..n], OfDuration) && duration == SumOver(all[..n], OfDuration)
      invariant distanceSum.issues == SumIssues(all[..n], OfDistance) && distance == SumOver(all[..n], OfDistance)
      invariant peak == PeakOver(all[..n])
    {
      assert all[..n + 1] == all[..n] + [all[n]];
      ComputedExtends(all, n);
      SumsExtend(all, n, OfEnergy);
      SumsExtend(all, n, OfDuration);
      SumsExtend(all, n, OfDistance);
      var segment := EvaluateSegment(p, d, d.mission.segments[n], context, auxiliary);
      assert segment == all[n];
      result := result.(segments := result.segments + [segment]);
      if segment.status != ResultComputed {
        result := result.(complete := false);
      } else {
        contributing := contributing + 1;
        var e, t, g := RecordSegment(segment, energySum, durationSum, distanceSum);
        energy, duration, distance := energy + e, duration + t, distance + g;
        if segment.power.electrical.si > peak {
          peak := segment.power.electrical.si;
        }
      }
    }
    assert all[..|all|] == all;
    if contributing > 0 {
      result := FinishMissionSums(result, energySum, durationSum, distanceSum, energy, duration, distance);
      result := result.(peakContinuousPower := Quantity(peak, DimPower));
      result := ApplyEnergyBudget(d, result);
    }
  }

  lemma NothingComputed()
    ensures AllComputed([]) && !AnyComputed([]) && PeakOver([]) == 0.0
    ensures forall what :: SumOver([], what) == 0.0 && SumIssues([], what) == []
  {
  }

  lemma SumsExtend(all: seq<SegmentResult>, n: nat, what: Total)
    requires n < |all|
    ensures SumOver(all[..n + 1], what) == SumOver(all[..n], what)
              + if all[n].status == ResultComputed then Taken(Share(all[n], what), TotalDimension(what)) else 0.0
    ensures SumIssues(all[..n + 1], what) == SumIssues(all[..n], what)
              + if all[n].status == ResultComputed then QuantityIssues(Share(all[n], what), TotalDimension(what)) else []
    ensures PeakOver(all[..n + 1])
         == if all[n].status == ResultComputed && all[n].power.electrical.si > PeakOver(all[..n])
            then all[n].power.electrical.si else PeakOver(all[..n])
  {
    assert all[..n + 1][..n] == all[..n];
  }

  lemma ComputedExtends(all: seq<SegmentResult>, n: nat)
    requires n < |all|
    ensures AnyComputed(all[..n + 1]) <==> AnyComputed(all[..n]) || all[n].status == ResultComputed
    ensures AllComputed(all[..n + 1]) <==> AllComputed(all[..n]) && all[n].status == ResultComputed
  {
    var longer, shorter := all[..n + 1], all[..n];
    assert forall i :: 0 <= i < n ==> longer[i] == shorter[i];
    assert longer[n] == all[n];
    if AnyComputed(shorter) {
      var i :| 0 <= i < |shorter| && shorter[i].status == ResultComputed;
      assert longer[i].status == ResultComputed;
    }
  }

  // ----- What one computed segment says -------------------------------------

  /** Held at constant draw for its duration, a segment costs their product. */
  predicate Costs(energy: real, draw: real, duration: real) {
    energy == draw * duration
  }

  predicate Carries(distance: real, ground: real, duration: real) {
    distance == ground * duration
  }

  lemma SegmentEnergyLaw(power: Quantity, duration: Quantity)
    requires SegmentEnergy(power, duration).Ok?
    ensures power.Positive(DimPower) && duration.Positive(DimTime)
    ensures SegmentEnergy(power, duration).value.Positive(DimEnergy)
    ensures Costs(SegmentEnergy(power, duration).value.si, power.si, duration.si)
  {
  }

  lemma SegmentDistanceLaw(ground: Quantity, duration: Quantity)
    requires ground.dim == DimSpeed && duration.Positive(DimTime)
    ensures SegmentDistance(ground, duration).Ok? <==> ground.si > 0.0
    ensures SegmentDistance(ground, duration).Ok? ==>
              && SegmentDistance(ground, duration).value.Positive(DimLength)
              && Carries(SegmentDistance(ground, duration).value.si, ground.si, duration.si)
  {
    if ground.si > 0.0 {
      assert ground.si * duration.si > 0.0;
    }
  }

  lemma SegmentDurationLaw(distance: Quantity, ground: Quantity)
    requires SegmentDuration(distance, ground).Ok?
    ensures distance.Positive(DimLength) && ground.si > 0.0
    ensures Carries(distance.si, ground.si, SegmentDuration(distance, ground).value.si)
  {
    DivMul(distance.si, ground.si);
  }

  /** The whole draw is the propulsion chain's and the continuous auxiliary's. */
  lemma PowerIncludesAuxiliary(
    p: Platform, d: Design, s: MissionSegment, context: PowerContext, auxiliary: ElectricalBudget)
    requires PowerOf(p, d, s, context, auxiliary).status == ResultComputed
    ensures auxiliary.status == ResultComputed
    ensures var power := PowerOf(p, d, s, context, auxiliary);
            power.electrical == Quantity(power.propulsiveElectrical.si + auxiliary.continuous.si, DimPower)
  {
    hide ResolveBalance;
  }

  /** A computed segment: its energy is its draw held for its duration, its
      distance is its ground speed held for its duration, and it covers a
      distance exactly when it makes headway. */
  lemma ComputedSegmentFacts(
    p: Platform, d: Design, s: MissionSegment, context: PowerContext, auxiliary: ElectricalBudget)
    requires EvaluateSegment(p, d, s, context, auxiliary).status == ResultComputed
    ensures auxiliary.status == ResultComputed
    ensures var r := EvaluateSegment(p, d, s, context, auxiliary);
            && r.power.electrical.Positive(DimPower) && r.duration.Positive(DimTime) && r.energy.Positive(DimEnergy)
            && r.power.electrical.si == r.power.propulsiveElectrical.si + auxiliary.continuous.si
            && Costs(r.energy.si, r.power.electrical.si, r.duration.si)
            && r.groundSpeed.dim == DimSpeed
            && (r.groundSpeed.si > 0.0 ==> r.distance.Positive(DimLength)
                                           && Carries(r.distance.si, r.groundSpeed.si, r.duration.si))
            && (r.groundSpeed.si <= 0.0 ==> r.distance == UNSET && s.timing == SegmentTimingDuration)
  {
    hide PowerOf, SegmentEnergy, SegmentDistance, SegmentDuration, Costs, Carries;
    var r := EvaluateSegment(p, d, s, context, auxiliary);
    PowerIncludesAuxiliary(p, d, s, context, auxiliary);
    SegmentEnergyLaw(r.power.electrical, r.duration);
    if s.timing == SegmentTimingDuration {
      SegmentDistanceLaw(r.groundSpeed, s.duration);
    } else {
      SegmentDurationLaw(s.distance, r.groundSpeed);
    }
  }

  /** The steps behind a resolved balance, each the value of its own equation. */
  lemma BalanceSteps(
    p: Platform, d: Design, s: MissionSegment, fc: FlightCase, mass: Quantity, wing: Wing, efficiency: real)
    requires ResolveBalance(p, d, s, fc, mass, wing, efficiency).Ok?
    ensures var b, area := ResolveBalance(p, d, s, fc, mass, wing, efficiency).value, wing.projected.area;
            && DynamicPressure(fc, s.speed) == Ok(b.pressure)
            && SegmentLift(p, mass, fc.loadFactor, s.climbAngle) == Ok(b.lift)
            && SegmentLiftCoefficient(b.lift, b.pressure, area).Ok?
            && SegmentLiftCoefficient(b.lift, b.pressure, area).value.si == b.liftCoefficient
            && EnvelopeIssues(fc, d.polar, b.liftCoefficient) == []
            && DragCoefficient(p, wing.projectedAspectRatio, d.polar, b.liftCoefficient).Ok?
            && DragCoefficient(p, wing.projectedAspectRatio, d.polar, b.liftCoefficient).value.si == b.dragCoefficient
            && DragForce(b.pressure, area, b.dragCoefficient) == Ok(b.drag)
            && RequiredThrust(p, b.drag, mass, s.climbAngle) == Ok(b.thrust) && b.thrust.si > 0.0
            && PropulsivePower(b.thrust, s.speed) == Ok(b.propulsive)
            && RequiredElectricalPower(b.propulsive, efficiency, Quantity(0.0, DimPower)) == Ok(b.electrical)
  {
    hide SegmentLift, DynamicPressure, DragCoefficient, DragForce, RequiredThrust, PropulsivePower,
      RequiredElectricalPower, LiftToDrag, SegmentLiftCoefficient, EnvelopeIssues;
  }

  /** A computed segment flown on the polar balances: lift carries n*m*g across
      the flight path, thrust carries drag and the weight along it, and the
      electrical draw through the chain's efficiency is thrust times airspeed.
      The condition lies inside both the case's and the polar's lift envelope. */
  lemma PolarSegmentBalances(
    p: Platform, d: Design, s: MissionSegment, fc: FlightCase, mass: Quantity, wing: Wing, efficiency: real)
    requires p.Lawful()
    requires ResolveBalance(p, d, s, fc, mass, wing, efficiency).Ok?
    ensures var b := ResolveBalance(p, d, s, fc, mass, wing, efficiency).value;
            var q, area := b.pressure.si, wing.projected.area.si;
            && q == fc.density.si * Square(s.speed.si) / 2.0
            && b.liftCoefficient * (q * area) == fc.loadFactor * mass.si * GRAVITY * p.cos(s.climbAngle.si)
            && b.thrust.si == q * area * b.dragCoefficient + mass.si * GRAVITY * p.sin(s.climbAngle.si)
            && b.thrust.si > 0.0
            && b.electrical.si * efficiency == b.thrust.si * s.speed.si
            && 0.0 < efficiency <= 1.0
            && 0.0 < d.polar.cd0 < b.dragCoefficient
            && (b.dragCoefficient - d.polar.cd0) * (p.pi * wing.projectedAspectRatio * d.polar.oswaldEfficiency)
               == Square(b.liftCoefficient)
            && fc.clmax.scope == ScopeAircraft && (fc.clmax.max > 0.0 ==> b.liftCoefficient <= fc.clmax.max)
            && Covers(d.polar, b.liftCoefficient)
  {
    hide Square, SegmentLift, DynamicPressure, DragCoefficient, DragForce, RequiredThrust, PropulsivePower,
      RequiredElectricalPower, SegmentLiftCoefficient, ResolveBalance, EnvelopeIssues;
    BalanceSteps(p, d, s, fc, mass, wing, efficiency);
    var b := ResolveBalance(p, d, s, fc, mass, wing, efficiency).value;
    LiftChain(p, fc, mass, s, wing.projected.area);
    DragChain(p, wing.projectedAspectRatio, d.polar, b.liftCoefficient);
    ThrustChain(p, s, mass, b.pressure, wing.projected.area, b.dragCoefficient);
    DrawChain(b.thrust, s.speed, efficiency);
    ChainInsideEnvelope(fc, d.polar, b.liftCoefficient);
  }

  lemma LiftChain(p: Platform, fc: FlightCase, mass: Quantity, s: MissionSegment, area: Quantity)
    requires DynamicPressure(fc, s.speed).Ok? && SegmentLift(p, mass, fc.loadFactor, s.climbAngle).Ok?
    requires SegmentLiftCoefficient(SegmentLift(p, mass, fc.loadFactor, s.climbAngle).value,
                                    DynamicPressure(fc, s.speed).value, area).Ok?
    ensures var q, lift := DynamicPressure(fc, s.speed).value, SegmentLift(p, mass, fc.loadFactor, s.climbAngle).value;
            var cl := SegmentLiftCoefficient(lift, q, area).value.si;
            && q.si == fc.density.si * Square(s.speed.si) / 2.0
            && cl > 0.0
            && cl * (q.si * area.si) == fc.loadFactor * mass.si * GRAVITY * p.cos(s.climbAngle.si)
  {
    hide Square, DynamicPressure, SegmentLift, SegmentLiftCoefficient;
    var q, lift := DynamicPressure(fc, s.speed).value, SegmentLift(p, mass, fc.loadFactor, s.climbAngle).value;
    PressureLaw(fc, s.speed);
    LiftLaw(p, mass, fc.loadFactor, s.climbAngle);
    CoefficientLaw(lift, q, area);
  }

  lemma PressureLaw(fc: FlightCase, speed: Quantity)
    requires DynamicPressure(fc, speed).Ok?
    ensures DynamicPressure(fc, speed).value.si == fc.density.si * Square(speed.si) / 2.0
  {
    hide Square;
  }

  lemma LiftLaw(p: Platform, mass: Quantity, loadFactor: real, climb: Quantity)
    requires SegmentLift(p, mass, loadFactor, climb).Ok?
    ensures SegmentLift(p, mass, loadFactor, climb).value.si == loadFactor * mass.si * GRAVITY * p.cos(climb.si)
  {
  }

  lemma CoefficientLaw(lift: Quantity, pressure: Quantity, area: Quantity)
    requires SegmentLiftCoefficient(lift, pressure, area).Ok?
    ensures var cl := SegmentLiftCoefficient(lift, pressure, area).value.si;
            cl > 0.0 && cl * (pressure.si * area.si) == lift.si
  {
    DivMul(lift.si, pressure.si * area.si);
  }

  lemma DragChain(p: Platform, aspect: real, polar: DragPolar, cl: real)
    requires p.Lawful() && cl > 0.0 && DragCoefficient(p, aspect, polar, cl).Ok?
    ensures var cd := DragCoefficient(p, aspect, polar, cl).value.si;
            0.0 < polar.cd0 < cd && (cd - polar.cd0) * (p.pi * aspect * polar.oswaldEfficiency) == Square(cl)
  {
    hide Square;
    var k := p.pi * aspect * polar.oswaldEfficiency;
    DivMul(1.0, k);
    InducedDrag(InducedDragFactor(p, aspect, polar).value.si, Square(cl), k);
  }

  lemma InducedDrag(factor: real, cl2: real, k: real)
    requires factor > 0.0 && cl2 > 0.0 && factor * k == 1.0
    ensures factor * cl2 > 0.0 && factor * cl2 * k == cl2
  {
    assert factor * cl2 * k == factor * k * cl2;
  }

  lemma ThrustChain(p: Platform, s: MissionSegment, mass: Quantity, q: Quantity, area: Quantity, cd: real)
    requires DragForce(q, area, cd).Ok? && RequiredThrust(p, DragForce(q, area, cd).value, mass, s.climbAngle).Ok?
    ensures RequiredThrust(p, DragForce(q, area, cd).value, mass, s.climbAngle).value.si
         == q.si * area.si * cd + mass.si * GRAVITY * p.sin(s.climbAngle.si)
  {
  }

  lemma DrawChain(thrust: Quantity, speed: Quantity, efficiency: real)
    requires PropulsivePower(thrust, speed).Ok?
    requires RequiredElectricalPower(PropulsivePower(thrust, speed).value, efficiency, Quantity(0.0, DimPower)).Ok?
    ensures 0.0 < efficiency <= 1.0
    ensures RequiredElectricalPower(PropulsivePower(thrust, speed).value, efficiency, Quantity(0.0, DimPower)).value.si
              * efficiency == thrust.si * speed.si
  {
    DivMul(thrust.si * speed.si, efficiency);
  }

  lemma ChainInsideEnvelope(fc: FlightCase, polar: DragPolar, cl: real)
    requires EnvelopeIssues(fc, polar, cl) == [] && cl > 0.0
    ensures fc.clmax.scope == ScopeAircraft
    ensures fc.clmax.max > 0.0 ==> cl <= fc.clmax.max
    ensures Covers(polar, cl)
  {
  }

  // ----- What the mission conserves -----------------------------------------

  /** A computed segment's own figures, without the design behind them. */
  predicate Sound(r: SegmentResult, auxiliary: real) {
    && r.power.electrical.Positive(DimPower) && r.duration.Positive(DimTime) && r.energy.Positive(DimEnergy)
    && r.power.electrical.si == r.power.propulsiveElectrical.si + auxiliary
    && Costs(r.energy.si, r.power.electrical.si, r.duration.si)
    && (r.groundSpeed.si > 0.0 ==> r.distance.Positive(DimLength))
    && (r.groundSpeed.si <= 0.0 ==> r.distance == UNSET)
  }

  predicate AllSound(segments: seq<SegmentResult>, auxiliary: real) {
    forall i :: 0 <= i < |segments| && segments[i].status == ResultComputed ==> Sound(segments[i], auxiliary)
  }

  lemma EvaluatedIsSound(
    p: Platform, d: Design, stated: seq<MissionSegment>, context: PowerContext, auxiliary: ElectricalBudget)
    ensures AllSound(Evaluated(p, d, stated, context, auxiliary), auxiliary.continuous.si)
  {
    hide EvaluateSegment;
    var segments := Evaluated(p, d, stated, context, auxiliary);
    forall i | 0 <= i < |segments| && segments[i].status == ResultComputed
      ensures Sound(segments[i], auxiliary.continuous.si)
    {
      ComputedSegmentFacts(p, d, stated[i], context, auxiliary);
    }
  }

  /** The energy the propulsion chain draws over the computed segments. */
  function PropulsiveEnergy(segments: seq<SegmentResult>): real {
    if segments == [] then 0.0
    else
      var last := segments[|segments| - 1];
      PropulsiveEnergy(segments[..|segments| - 1])
      + if last.status == ResultComputed then last.power.propulsiveElectrical.si * last.duration.si else 0.0
  }

  lemma EnergySplits(energy: real, draw: real, propulsive: real, auxiliary: real, duration: real, total: real)
    requires Costs(energy, draw, duration) && draw == propulsive + auxiliary
    ensures energy == propulsive * duration + auxiliary * duration
    ensures auxiliary * (total + duration) == auxiliary * total + auxiliary * duration
  {
  }

  /** The energies of any list of sound segments split into the propulsion's and
      the continuous auxiliary draw over the whole duration. */
  lemma {:induction false} EnergiesSplit(segments: seq<SegmentResult>, auxiliary: real)
    requires AllSound(segments, auxiliary)
    ensures SumOver(segments, OfEnergy) == PropulsiveEnergy(segments) + auxiliary * SumOver(segments, OfDuration)
  {
    hide Costs;
    if segments != [] {
      var front, last := segments[..|segments| - 1], segments[|segments| - 1];
      EnergiesSplit(front, auxiliary);
      if last.status == ResultComputed {
        EnergySplits(last.energy.si, last.power.electrical.si, last.power.propulsiveElectrical.si, auxiliary,
                     last.duration.si, SumOver(front, OfDuration));
      }
    }
  }

  /** Every computed segment makes headway along its track. */
  predicate AllMakeHeadway(segments: seq<SegmentResult>) {
    forall i :: 0 <= i < |segments| && segments[i].status == ResultComputed ==> segments[i].groundSpeed.si > 0.0
  }

  lemma SoundShares(r: SegmentResult, auxiliary: real, what: Total)
    requires Sound(r, auxiliary)
    ensures r.power.electrical.si > 0.0
    ensures var q := Share(r, what);
            if what == OfDistance && r.groundSpeed.si <= 0.0
            then QuantityIssues(q, TotalDimension(what)) == [IssueMissing]
            else QuantityIssues(q, TotalDimension(what)) == [] && Taken(q, TotalDimension(what)) > 0.0
  {
    hide Costs;
  }

  /** Energies and durations always sum; distances sum exactly when every
      computed segment makes headway, and otherwise one is merely missing. */
  lemma {:induction false} SumsOfSoundSegments(segments: seq<SegmentResult>, auxiliary: real, what: Total)
    requires AllSound(segments, auxiliary)
    ensures SumIssues(segments, what) == [] <==> what != OfDistance || AllMakeHeadway(segments)
    ensures forall k :: k in SumIssues(segments, what) ==> k == IssueMissing
    ensures SumIssues(segments, what) == [] && AnyComputed(segments) ==> SumOver(segments, what) > 0.0
    ensures !AnyComputed(segments) ==> SumOver(segments, what) == 0.0
  {
    hide Sound, SumOver, SumIssues, Taken, QuantityIssues, PeakOver, TotalDimension, Share, AnyComputed, AllComputed;
    NothingComputed();
    if segments != [] {
      var n := |segments| - 1;
      assert segments[..n + 1] == segments;
      var front, last := segments[..n], segments[n];
      SumsOfSoundSegments(front, auxiliary, what);
      ComputedExtends(segments, n);
      SumsExtend(segments, n, what);
      if last.status == ResultComputed {
        SoundShares(last, auxiliary, what);
      }
      assert AllMakeHeadway(segments)
        <==> AllMakeHeadway(front) && (last.status == ResultComputed ==> last.groundSpeed.si > 0.0) by {
        assert forall i :: 0 <= i < n ==> front[i] == segments[i];
      }
    }
  }

  /** The mission's required energy is conserved: the propulsive draw of every
      computed segment over its duration, and the continuous auxiliary draw over
      the total duration. It holds even when the distances do not sum. */
  lemma MissionConservesEnergy(p: Platform, d: Design)
    requires AnyComputed(Analysis(p, d).segments)
    ensures var m := Analysis(p, d);
            m.requiredEnergy.si
              == PropulsiveEnergy(m.segments) + Budget(d.auxiliary).continuous.si * m.totalDuration.si
  {
    hide Evaluated, Budget, SumOver, SumIssues, AnyComputed, ContextOf, PropulsiveEnergy, PeakOver, AllComputed;
    var segments := Evaluated(p, d, d.mission.segments, ContextOf(p, d), Budget(d.auxiliary));
    AnalysisTotals(p, d);
    EvaluatedIsSound(p, d, d.mission.segments, ContextOf(p, d), Budget(d.auxiliary));
    EnergiesSplit(segments, Budget(d.auxiliary).continuous.si);
  }

  /** The totals an analysis with any computed segment reports. */
  lemma AnalysisTotals(p: Platform, d: Design)
    requires AnyComputed(Analysis(p, d).segments)
    ensures var m := Analysis(p, d);
            && m.segments == Evaluated(p, d, d.mission.segments, ContextOf(p, d), Budget(d.auxiliary))
            && m.requiredEnergy == Quantity(SumOver(m.segments, OfEnergy), DimEnergy)
            && m.totalDuration == Quantity(SumOver(m.segments, OfDuration), DimTime)
            && m.peakContinuousPower == Quantity(PeakOver(m.segments), DimPower)
            && (m.status == ResultComputed <==> AllMakeHeadway(m.segments))
            && (m.status == ResultComputed ==> m.totalDistance == Quantity(SumOver(m.segments, OfDistance), DimLength))
            && (m.status != ResultComputed ==> m.status == ResultMissing)
  {
    hide Evaluated, Budget, SumOver, SumIssues, ContextOf, PeakOver, AllComputed, UsableEnergy, EnergyBudget, AllMakeHeadway;
    var segments := Evaluated(p, d, d.mission.segments, ContextOf(p, d), Budget(d.auxiliary));
    EvaluatedIsSound(p, d, d.mission.segments, ContextOf(p, d), Budget(d.auxiliary));
    SumsOfSoundSegments(segments, Budget(d.auxiliary).continuous.si, OfEnergy);
    SumsOfSoundSegments(segments, Budget(d.auxiliary).continuous.si, OfDuration);
    SumsOfSoundSegments(segments, Budget(d.auxiliary).continuous.si, OfDistance);
  }

  lemma ComputedExactlyWithHeadwayOverResults(p: Platform, d: Design)
    ensures var m := Analysis(p, d);
            m.status == ResultComputed <==> AnyComputed(m.segments) && AllMakeHeadway(m.segments)
  {
    hide Evaluated, Budget, SumOver, SumIssues, ContextOf, PeakOver, AllComputed, AllMakeHeadway, AnyComputed;
    if AnyComputed(Analysis(p, d).segments) {
      AnalysisTotals(p, d);
    } else {
      assert Analysis(p, d).status == ResultMissing;
    }
  }

  /** A stated segment makes headway: its airspeed, climb and wind give a positive
      ground speed. */
  predicate MakesHeadway(p: Platform, s: MissionSegment) {
    var ground := GroundSpeed(p, s.speed, s.climbAngle, s.windAlongTrack);
    ground.Ok? && ground.value.si > 0.0
  }

  /** A stated segment has a duration: a positive one, or a positive distance to
      cover with headway. */
  predicate HasDuration(p: Platform, s: MissionSegment) {
    match s.timing
    case SegmentTimingDuration =>
      GroundSpeed(p, s.speed, s.climbAngle, s.windAlongTrack).Ok? && s.duration.Positive(DimTime)
    case SegmentTimingDistance => MakesHeadway(p, s) && s.distance.Positive(DimLength)
    case SegmentTimingUnknown => false
  }

  /** A stated segment costs energy: it has a duration, and its power model gives
      a positive draw. */
  predicate Costed(p: Platform, d: Design, s: MissionSegment) {
    var power := PowerOf(p, d, s, ContextOf(p, d), Budget(d.auxiliary));
    HasDuration(p, s) && power.status == ResultComputed && power.electrical.si > 0.0
  }

  lemma DurationsAreTimed(p: Platform, s: MissionSegment)
    ensures HasDuration(p, s) <==> TimeSegment(p, s).1 && TimeSegment(p, s).0.duration.Positive(DimTime)
    ensures TimeSegment(p, s).1 ==> (TimeSegment(p, s).0.groundSpeed.si > 0.0 <==> MakesHeadway(p, s))
    ensures !TimeSegment(p, s).1 ==> TimeSegment(p, s).0.status != ResultComputed
  {
    hide GroundSpeed;
    var ground := GroundSpeed(p, s.speed, s.climbAngle, s.windAlongTrack);
    if ground.Ok? && ground.value.si > 0.0 && s.distance.si > 0.0 {
      DivPositive(s.distance.si, ground.value.si);
    }
    GroundIsASpeed(p, s);
  }

  lemma GroundIsASpeed(p: Platform, s: MissionSegment)
    ensures GroundSpeed(p, s.speed, s.climbAngle, s.windAlongTrack).Ok? ==>
              GroundSpeed(p, s.speed, s.climbAngle, s.windAlongTrack).value.dim == DimSpeed
  {
  }

  /** A segment computes exactly when it is costed, as it is stated. */
  lemma SegmentsComputeExactlyWhenCosted(p: Platform, d: Design, s: MissionSegment)
    ensures var r := EvaluateSegment(p, d, s, ContextOf(p, d), Budget(d.auxiliary));
            && (r.status == ResultComputed <==> Costed(p, d, s))
            && (r.status == ResultComputed ==> (r.groundSpeed.si > 0.0 <==> MakesHeadway(p, s)))
  {
    hide PowerOf, TimeSegment, HasDuration, MakesHeadway, ContextOf, Budget;
    DurationsAreTimed(p, s);
    var power := PowerOf(p, d, s, ContextOf(p, d), Budget(d.auxiliary));
    if power.status == ResultComputed {
      PowerIncludesAuxiliary(p, d, s, ContextOf(p, d), Budget(d.auxiliary));
      EnergyNeedsPowerAndTime(power.electrical, TimeSegment(p, s).0.duration);
    }
  }

  lemma EnergyNeedsPowerAndTime(power: Quantity, duration: Quantity)
    requires power.dim == DimPower
    ensures SegmentEnergy(power, duration).Ok? <==> power.si > 0.0 && duration.Positive(DimTime)
    ensures SegmentEnergy(power, duration).Refused? ==> StatusForIssues(SegmentEnergy(power, duration).issues) != ResultComputed
  {
    if power.si > 0.0 && duration.si > 0.0 {
      assert power.si * duration.si > 0.0;
    }
  }

  /** A mission is computed exactly when some stated segment is costed and every
      costed segment makes headway: one leg against a headwind it cannot beat, its
      energy counted, withholds the mission's status. */
  lemma MissionIsComputedExactlyWithHeadway(p: Platform, d: Design)
    ensures Analysis(p, d).status == ResultComputed
       <==> && (exists i :: 0 <= i < |d.mission.segments| && Costed(p, d, d.mission.segments[i]))
            && forall i :: 0 <= i < |d.mission.segments| && Costed(p, d, d.mission.segments[i]) ==>
                             MakesHeadway(p, d.mission.segments[i])
  {
    hide Analysis, Budget, ContextOf, Costed, MakesHeadway, EvaluateSegment;
    ComputedExactlyWithHeadwayOverResults(p, d);
    AnalysedSegments(p, d);
    var stated, segments := d.mission.segments, Analysis(p, d).segments;
    forall i | 0 <= i < |stated|
      ensures segments[i].status == ResultComputed <==> Costed(p, d, stated[i])
      ensures segments[i].status == ResultComputed ==> (segments[i].groundSpeed.si > 0.0 <==> MakesHeadway(p, stated[i]))
    {
      SegmentsComputeExactlyWhenCosted(p, d, stated[i]);
    }
  }

  /** The peak continuous power is the largest draw of any computed segment. */
  lemma {:induction false} PeakIsTheLargestDraw(segments: seq<SegmentResult>, auxiliary: real)
    requires AllSound(segments, auxiliary)
    ensures forall i :: 0 <= i < |segments| && segments[i].status == ResultComputed ==>
                          segments[i].power.electrical.si <= PeakOver(segments)
    ensures AnyComputed(segments) ==>
              exists i :: 0 <= i < |segments| && segments[i].status == ResultComputed
                          && segments[i].power.electrical.si == PeakOver(segments)
    ensures !AnyComputed(segments) ==> PeakOver(segments) == 0.0
    ensures PeakOver(segments) >= 0.0
  {
    hide Sound, SumOver, SumIssues, PeakOver, AllComputed;
    NothingComputed();
    if segments != [] {
      var n := |segments| - 1;
      assert segments[..n + 1] == segments;
      var front := segments[..n];
      assert forall i :: 0 <= i < n ==> front[i] == segments[i];
      PeakIsTheLargestDraw(front, auxiliary);
      SumsExtend(segments, n, OfEnergy);
      if segments[n].status == ResultComputed {
        SoundShares(segments[n], auxiliary, OfEnergy);
      }
      ComputedExtends(segments, n);
      if AnyComputed(front) && PeakOver(segments) == PeakOver(front) {
        var i :| 0 <= i < |front| && front[i].status == ResultComputed
                 && front[i].power.electrical.si == PeakOver(front);
        assert segments[i].power.electrical.si == PeakOver(segments);
      }
    }
  }

  lemma MissionPeakIsTheLargestDraw(p: Platform, d: Design)
    requires AnyComputed(Analysis(p, d).segments)
    ensures var m := Analysis(p, d);
            && (forall i :: 0 <= i < |m.segments| && m.segments[i].status == ResultComputed ==>
                              m.segments[i].power.electrical.si <= m.peakContinuousPower.si)
            && exists i :: 0 <= i < |m.segments| && m.segments[i].status == ResultComputed
                           && m.segments[i].power.electrical == m.peakContinuousPower
  {
    hide Analysis, Evaluated, Budget, ContextOf, PeakOver;
    AnalysisTotals(p, d);
    EvaluatedIsSound(p, d, d.mission.segments, ContextOf(p, d), Budget(d.auxiliary));
    var m := Analysis(p, d);
    PeakIsTheLargestDraw(m.segments, Budget(d.auxiliary).continuous.si);
    var i :| 0 <= i < |m.segments| && m.segments[i].status == ResultComputed
             && m.segments[i].power.electrical.si == PeakOver(m.segments);
    assert m.segments[i].power.electrical == m.peakContinuousPower;
  }

  /** What the battery may spend: its usable energy less the reserve, once. */
  predicate PackAllows(usable: real, reserve: real, required: real) {
    required <= usable * (1.0 - reserve) * (1.0 + TOLERANCE)
  }

  lemma EnergyIsMetWithinTheBudget(p: Platform, d: Design)
    ensures var m := Analysis(p, d);
            m.energyStatus == LimitMet
            <==> && m.status == ResultComputed && m.segments != [] && AllComputed(m.segments)
                 && UsableEnergy(d.battery).Ok? && 0.0 <= d.mission.reserveFraction < 1.0
                 && PackAllows(UsableEnergy(d.battery).value.si, d.mission.reserveFraction, m.requiredEnergy.si)
  {
    hide Evaluated, Budget, SumOver, SumIssues, ContextOf, PeakOver, AllComputed, AnyComputed, NominalEnergy, FinishTotal;
    var m := Analysis(p, d);
    if UsableEnergy(d.battery).Ok? {
      BudgetLaw(UsableEnergy(d.battery).value, d.mission.reserveFraction, m.requiredEnergy.si);
    }
    assert m.complete == (m.segments != [] && AllComputed(m.segments));
  }

  /** The battery states a capacity and a voltage, or an energy outright, and what
      fraction of it may be used. */
  predicate StatesEnergy(b: Battery) {
    && 0.0 < b.usableFraction <= 1.0
    && match b.mode
       case BatteryEnergyFromCapacity =>
         b.capacity.dim == DimCharge && b.capacity.si > 0.0 && b.nominalVoltage.dim == DimVoltage && b.nominalVoltage.si > 0.0
       case BatteryEnergyEntered => b.energy.dim == DimEnergy && b.energy.si > 0.0
       case BatteryEnergyModeUnknown => false
  }

  function StoredEnergy(b: Battery): real {
    if b.mode == BatteryEnergyFromCapacity then b.capacity.si * b.nominalVoltage.si else b.energy.si
  }

  lemma ABatteryStatesAnEnergyExactlyOnItsOwnFields(b: Battery)
    ensures UsableEnergy(b).Ok? <==> StatesEnergy(b)
    ensures UsableEnergy(b).Ok? ==>
              StoredEnergy(b) > 0.0 && UsableEnergy(b).value == Quantity(StoredEnergy(b) * b.usableFraction, DimEnergy)
  {
    if b.mode == BatteryEnergyFromCapacity && b.capacity.si > 0.0 && b.nominalVoltage.si > 0.0 {
      Positive(b.capacity.si, b.nominalVoltage.si);
    }
    if StoredEnergy(b) > 0.0 && b.usableFraction > 0.0 {
      Positive(StoredEnergy(b), b.usableFraction);
    }
  }

  lemma Positive(x: real, y: real)
    requires x > 0.0 && y > 0.0
    ensures x * y > 0.0
  {
  }

  /** The required energy is within what the battery holds, the usable part of it,
      less the reserve, once each. */
  predicate Affords(b: Battery, reserve: real, required: real) {
    required <= StoredEnergy(b) * b.usableFraction * (1.0 - reserve) * (1.0 + TOLERANCE)
  }

  /** The energy check is met exactly when some segment was flown and every segment
      contributed, the mission computed, the battery states an energy and the
      reserve is a fraction, and the required energy is within
      stored*usable*(1 - reserve) to the tolerance, read off the battery's own
      figures. */
  lemma EnergyIsMetExactlyWithinTheReserve(p: Platform, d: Design)
    ensures var m := Analysis(p, d);
            m.energyStatus == LimitMet
            <==> && m.status == ResultComputed && m.segments != [] && AllComputed(m.segments)
                 && StatesEnergy(d.battery) && 0.0 <= d.mission.reserveFraction < 1.0
                 && Affords(d.battery, d.mission.reserveFraction, m.requiredEnergy.si)
  {
    hide Analysis, UsableEnergy, StatesEnergy, StoredEnergy, AllComputed;
    EnergyIsMetWithinTheBudget(p, d);
    ABatteryStatesAnEnergyExactlyOnItsOwnFields(d.battery);
  }

  /** The two figures shown beside it: what may be used, and that less the reserve. */
  lemma TheBudgetShownIsTheBatterys(p: Platform, d: Design)
    requires Analysis(p, d).status == ResultComputed && StatesEnergy(d.battery)
    ensures Analysis(p, d).usableEnergy == Quantity(StoredEnergy(d.battery) * d.battery.usableFraction, DimEnergy)
    ensures 0.0 <= d.mission.reserveFraction < 1.0 ==>
              Analysis(p, d).budget
              == Quantity(StoredEnergy(d.battery) * d.battery.usableFraction * (1.0 - d.mission.reserveFraction), DimEnergy)
  {
    hide Evaluated, Budget, SumOver, SumIssues, ContextOf, PeakOver, AllComputed, AnyComputed, NominalEnergy, FinishTotal,
      StoredEnergy, UsableEnergy;
    ABatteryStatesAnEnergyExactlyOnItsOwnFields(d.battery);
    BudgetLaw(UsableEnergy(d.battery).value, d.mission.reserveFraction, 0.0);
  }

  lemma BudgetLaw(usable: Quantity, reserve: real, required: real)
    requires usable.Positive(DimEnergy)
    ensures EnergyBudget(usable, reserve).Ok? <==> 0.0 <= reserve < 1.0
    ensures EnergyBudget(usable, reserve).Ok? ==>
              var budget := EnergyBudget(usable, reserve).value.si;
              budget == usable.si * (1.0 - reserve)
              && (required <= budget + TOLERANCE * budget <==> PackAllows(usable.si, reserve, required))
  {
    if 0.0 <= reserve < 1.0 {
      assert usable.si * (1.0 - reserve) > 0.0;
    }
  }

  /** A leg flown into a headwind twice its airspeed: an hour's hundred watts are
      counted as required energy, and the mission is nevertheless not computed. */
  lemma NoHeadwayLegWithholdsTheMission(p: Platform, d: Design) returns (flown: Design)
    requires p.Lawful()
    ensures flown == d.(mission := flown.mission, auxiliary := flown.auxiliary)
    ensures var m := Analysis(p, flown);
            && AllComputed(m.segments) && |m.segments| == 1
            && m.requiredEnergy == Quantity(360000.0, DimEnergy)
            && m.totalDuration == Quantity(3600.0, DimTime)
            && m.status == ResultMissing
  {
    hide Evaluated, ContextOf, Budget, EvaluateSegment, Analysis, SumOver;
    var load := AuxiliaryLoad("none", "measured", "", Quantity(0.0, DimPower), UNSET, 0.0, RegulatorPackSide,
                              EvidenceMeasured);
    var leg := MissionSegment("return", "", "", "estimate", "", "", Quantity(10.0, DimSpeed), Quantity(0.0, DimAngle),
                              Quantity(3600.0, DimTime), UNSET, Quantity(-20.0, DimSpeed), Quantity(100.0, DimPower),
                              0.0, SegmentReturn, SegmentModelEntered, SegmentTimingDuration, EvidenceAssumed);
    flown := d.(mission := Mission("home", "stated", "stated", [leg], 0.2), auxiliary := [load]);
    ZeroWattBudget(load);
    var context, auxiliary := ContextOf(p, flown), Budget(flown.auxiliary);
    NoHeadwayLeg(p, flown, leg, context, auxiliary);
    var r := EvaluateSegment(p, flown, leg, context, auxiliary);
    OneEvaluated(p, flown, leg, context, auxiliary);
    AnalysedSegments(p, flown);
    assert Analysis(p, flown).segments == [r];
    assert [r][0].status == ResultComputed;
    AnalysisTotals(p, flown);
    OneSegmentTotals(r);
  }

  lemma AnalysedSegments(p: Platform, d: Design)
    ensures Analysis(p, d).segments == Evaluated(p, d, d.mission.segments, ContextOf(p, d), Budget(d.auxiliary))
  {
    hide Evaluated, ContextOf, Budget, FinishTotal, UsableEnergy, EnergyBudget, AnyComputed, AllComputed, PeakOver;
  }

  lemma OneSegmentTotals(r: SegmentResult)
    requires r.status == ResultComputed && r.energy.dim == DimEnergy && r.duration.dim == DimTime
    ensures SumOver([r], OfEnergy) == r.energy.si && SumOver([r], OfDuration) == r.duration.si
  {
    assert [r][..0] == [];
  }

  lemma OneEvaluated(p: Platform, d: Design, s: MissionSegment, context: PowerContext, auxiliary: ElectricalBudget)
    ensures Evaluated(p, d, [s], context, auxiliary) == [EvaluateSegment(p, d, s, context, auxiliary)]
  {
  }

  lemma ZeroWattBudget(load: AuxiliaryLoad)
    requires load.continuous == Quantity(0.0, DimPower) && load.peak == UNSET && load.side == RegulatorPackSide
    ensures Budget([load]).status == ResultComputed && Budget([load]).continuous == Quantity(0.0, DimPower)
  {
    assert Electrical.Contribution([load][0]).known;
    assert [load][..0] == [];
    assert DrawIssues([load], Continuous) == [];
    assert TotalDraw([load], Continuous) == 0.0;
  }

  lemma NoHeadwayLeg(p: Platform, d: Design, s: MissionSegment, context: PowerContext, auxiliary: ElectricalBudget)
    requires p.Lawful()
    requires s.speed == Quantity(10.0, DimSpeed) && s.climbAngle == Quantity(0.0, DimAngle)
    requires s.windAlongTrack == Quantity(-20.0, DimSpeed) && s.duration == Quantity(3600.0, DimTime)
    requires s.timing == SegmentTimingDuration && s.model == SegmentModelEntered
    requires s.enteredPower == Quantity(100.0, DimPower)
    requires auxiliary.status == ResultComputed && auxiliary.continuous == Quantity(0.0, DimPower)
    ensures var r := EvaluateSegment(p, d, s, context, auxiliary);
            && r.status == ResultComputed && r.energy == Quantity(360000.0, DimEnergy)
            && r.duration == Quantity(3600.0, DimTime) && r.groundSpeed == Quantity(-10.0, DimSpeed)
  {
    hide PolarPower;
    assert p.cos(0.0) == 1.0;
  }
}
