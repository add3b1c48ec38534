/** When a mission segment can be flown and what it draws, read off the segment,
    the case, the polar and the wing. */
module FlightLaws {
  import opened Quantities
  import opened Definition
  import opened Reals
  import opened Lift
  import opened MassBalance
  import opened Planforms
  import opened Wings
  import opened PowerEquations
  import opened Electrical
  import opened Missions
  import opened StatedChecks

  // ----- Over the ground ----------------------------------------------------

  predicate StatesMotion(s: MissionSegment) {
    && s.speed.dim == DimSpeed && s.speed.si > 0.0 && s.climbAngle.dim == DimAngle && s.windAlongTrack.dim == DimSpeed
  }

  /** The airspeed seen from above, and the wind along the track. */
  function Along(p: Platform, s: MissionSegment): real {
    s.speed.si * p.cos(s.climbAngle.si) + s.windAlongTrack.si
  }

  lemma GroundIsAlong(p: Platform, s: MissionSegment)
    ensures var ground := GroundSpeed(p, s.speed, s.climbAngle, s.windAlongTrack);
            && (ground.Ok? <==> StatesMotion(s))
            && (ground.Ok? ==> ground.value == Quantity(Along(p, s), DimSpeed))
  {
  }

  /** A segment's ground speed is its airspeed seen from above with the wind along
      the track; it makes headway exactly when that is positive, and has a duration
      exactly when one is stated, or a distance it makes headway over. */
  lemma SegmentsMoveAsStated(p: Platform, d: Design, s: MissionSegment)
    ensures var r := EvaluateSegment(p, d, s, ContextOf(p, d), Budget(d.auxiliary));
            r.groundSpeed == if StatesMotion(s) then Quantity(Along(p, s), DimSpeed) else UNSET
    ensures MakesHeadway(p, s) <==> StatesMotion(s) && Along(p, s) > 0.0
    ensures HasDuration(p, s)
       <==> StatesMotion(s)
            && match s.timing
               case SegmentTimingDuration => s.duration.dim == DimTime && s.duration.si > 0.0
               case SegmentTimingDistance => Along(p, s) > 0.0 && s.distance.dim == DimLength && s.distance.si > 0.0
               case SegmentTimingUnknown => false
  {
    hide GroundSpeed, PowerOf, ContextOf, Budget, StatesMotion, Along;
    GroundIsAlong(p, s);
  }

  /** What a segment shows besides its power: its own name, case and kind, and of
      its timing what it states and what follows from headway, and nothing else. */
  lemma SegmentsShowTheirTiming(p: Platform, d: Design, s: MissionSegment)
    ensures var r := EvaluateSegment(p, d, s, ContextOf(p, d), Budget(d.auxiliary));
            && r.name == s.name && r.caseName == s.caseName && r.kind == s.kind
            && (if !StatesMotion(s) then r.duration == UNSET && r.distance == UNSET
                else match s.timing
                     case SegmentTimingDuration =>
                       && r.duration == s.duration
                       && (if Along(p, s) > 0.0 && s.duration.Positive(DimTime)
                           then r.distance.dim == DimLength && Carries(r.distance.si, Along(p, s), s.duration.si)
                           else r.distance == UNSET)
                     case SegmentTimingDistance =>
                       && r.distance == s.distance
                       && (if Along(p, s) > 0.0 && s.distance.Positive(DimLength)
                           then r.duration.dim == DimTime && Carries(s.distance.si, Along(p, s), r.duration.si)
                           else r.duration == UNSET)
                     case SegmentTimingUnknown => r.duration == UNSET && r.distance == UNSET)
  {
    hide GroundSpeed, PowerOf, ContextOf, Budget, StatesMotion, Along, Carries, SegmentDistance, SegmentDuration;
    GroundIsAlong(p, s);
    if StatesMotion(s) {
      var ground := Quantity(Along(p, s), DimSpeed);
      DistanceFollows(ground, s.duration);
      DurationFollows(s.distance, ground);
    }
  }

  lemma DistanceFollows(ground: Quantity, duration: Quantity)
    requires ground.dim == DimSpeed
    ensures var r := SegmentDistance(ground, duration);
            && (r.Ok? <==> ground.si > 0.0 && duration.Positive(DimTime))
            && (r.Ok? ==> r.value.dim == DimLength && Carries(r.value.si, ground.si, duration.si))
  {
    if ground.si > 0.0 && duration.si > 0.0 {
      assert ground.si * duration.si > 0.0;
    }
  }

  lemma DurationFollows(distance: Quantity, ground: Quantity)
    requires ground.dim == DimSpeed
    ensures var r := SegmentDuration(distance, ground);
            && (r.Ok? <==> ground.si > 0.0 && distance.Positive(DimLength))
            && (r.Ok? ==> r.value.dim == DimTime && Carries(distance.si, ground.si, r.value.si))
  {
    if ground.si > 0.0 && distance.si > 0.0 {
      DivPositive(distance.si, ground.si);
      DivMul(distance.si, ground.si);
    }
  }

  /** What is stated of the motion cannot be flown, rather than being left out. */
  predicate MisstatesMotion(s: MissionSegment) {
    || (s.speed != UNSET && !(s.speed.dim == DimSpeed && s.speed.si > 0.0))
    || (s.climbAngle != UNSET && s.climbAngle.dim != DimAngle)
    || (s.windAlongTrack != UNSET && s.windAlongTrack.dim != DimSpeed)
  }

  /** A segment that cannot be timed is missing what it leaves out and invalid for
      what it misstates, a distance without headway included; one that can be is
      what its power is, where that did not compute. */
  lemma SegmentStatusSaysWhy(p: Platform, d: Design, s: MissionSegment)
    ensures var r := EvaluateSegment(p, d, s, ContextOf(p, d), Budget(d.auxiliary));
            if !StatesMotion(s) then r.status == (if MisstatesMotion(s) then ResultInvalid else ResultMissing)
            else if s.timing == SegmentTimingUnknown then r.status == ResultMissing
            else if s.timing == SegmentTimingDistance && !(Along(p, s) > 0.0 && s.distance.Positive(DimLength)) then
              r.status == if Along(p, s) > 0.0 && s.distance == UNSET then ResultMissing else ResultInvalid
            else r.power.status != ResultComputed ==> r.status == r.power.status
  {
    hide GroundSpeed, PowerOf, ContextOf, Budget, StatesMotion, MisstatesMotion, Along, SegmentDistance, SegmentDuration,
      SegmentEnergy;
    GroundIsAlong(p, s);
    MotionSaysWhy(p, s);
    if StatesMotion(s) {
      DurationFollows(s.distance, Quantity(Along(p, s), DimSpeed));
      DurationSaysWhy(s.distance, Quantity(Along(p, s), DimSpeed));
    }
  }

  lemma MotionSaysWhy(p: Platform, s: MissionSegment)
    ensures var ground := GroundSpeed(p, s.speed, s.climbAngle, s.windAlongTrack);
            ground.Refused? ==> StatusForIssues(ground.issues) == if MisstatesMotion(s) then ResultInvalid else ResultMissing
  {
  }

  lemma DurationSaysWhy(distance: Quantity, ground: Quantity)
    requires ground.dim == DimSpeed
    ensures var r := SegmentDuration(distance, ground);
            r.Refused? ==>
              StatusForIssues(r.issues) == if ground.si > 0.0 && distance == UNSET then ResultMissing else ResultInvalid
  {
    if ground.si > 0.0 && distance.si > 0.0 {
      DivPositive(distance.si, ground.si);
    }
  }

  /** A segment without a power shows none, and one that does not compute shows no
      energy. */
  lemma UncomputedSegmentsShowNothing(p: Platform, d: Design, s: MissionSegment)
    ensures var r := EvaluateSegment(p, d, s, ContextOf(p, d), Budget(d.auxiliary));
            && (r.status != ResultComputed ==> r.energy == UNSET)
            && (r.power.status != ResultComputed ==>
                  r.power.thrust == r.power.propulsiveElectrical == r.power.electrical == UNSET)
  {
    hide GroundSpeed, ContextOf, Budget, SegmentDistance, SegmentDuration, ResolveBalance, ChainEfficiency;
  }

  // ----- Entered power ------------------------------------------------------

  /** An entered power is drawn with the continuous auxiliary draw on top, exactly
      when it is a power and the auxiliary budget is computed. */
  lemma EnteredPowerDraws(p: Platform, d: Design, s: MissionSegment)
    requires s.model == SegmentModelEntered
    ensures var power, auxiliary := PowerOf(p, d, s, ContextOf(p, d), Budget(d.auxiliary)), Budget(d.auxiliary);
            && (power.status == ResultComputed <==> auxiliary.status == ResultComputed && s.enteredPower.dim == DimPower)
            && (power.status == ResultComputed ==>
                  && power.propulsiveElectrical == s.enteredPower && power.evidence == s.enteredEvidence
                  && power.thrust == UNSET && power.efficiency == 0.0
                  && power.electrical == Quantity(s.enteredPower.si + auxiliary.continuous.si, DimPower))
  {
    hide ContextOf, Budget;
  }

  // ----- The polar ----------------------------------------------------------

  predicate StatesFlight(p: Platform, s: MissionSegment, fc: FlightCase, mass: Quantity) {
    && fc.densityBasis != "" && fc.density.dim == DimDensity && fc.density.si > 0.0 && fc.loadFactor > 0.0
    && s.speed.dim == DimSpeed && s.speed.si > 0.0 && s.climbAngle.dim == DimAngle && p.cos(s.climbAngle.si) > 0.0
    && mass.dim == DimMass && mass.si > 0.0
  }

  predicate StatesDrag(polar: DragPolar) {
    polar.cd0 > 0.0 && polar.oswaldEfficiency > 0.0
  }

  /** Half the density times the squared airspeed. */
  function Pressure(fc: FlightCase, s: MissionSegment): real {
    fc.density.si * Square(s.speed.si) / 2.0
  }

  /** The weight the lift carries across the path. */
  function WeightAcross(p: Platform, s: MissionSegment, fc: FlightCase, mass: real): real {
    fc.loadFactor * mass * GRAVITY * p.cos(s.climbAngle.si)
  }

  predicate Lifts(cl: real, pressure: real, area: real, lift: real) {
    cl * (pressure * area) == lift
  }

  function Slenderness(p: Platform, aspect: real, polar: DragPolar): real {
    p.pi * aspect * polar.oswaldEfficiency
  }

  predicate Drags(cd: real, polar: DragPolar, slenderness: real, cl: real) {
    (cd - polar.cd0) * slenderness == Square(cl)
  }

  /** The drag and the weight along the path. */
  function Thrust(pressure: real, area: real, cd: real, mass: real, sine: real): real {
    pressure * area * cd + mass * GRAVITY * sine
  }

  /** This lift coefficient carries the weight across the path, this drag
      coefficient is the polar's at it, and the thrust they ask for is forward. */
  predicate Trims(
    p: Platform, polar: DragPolar, s: MissionSegment, fc: FlightCase, mass: real, area: real, aspect: real, cl: real, cd: real)
  {
    && Lifts(cl, Pressure(fc, s), area, WeightAcross(p, s, fc, mass))
    && Drags(cd, polar, Slenderness(p, aspect, polar), cl)
    && Thrust(Pressure(fc, s), area, cd, mass, p.sin(s.climbAngle.si)) > 0.0
  }

  /** Inside the lift the case supports and the lift the polar is valid over. */
  predicate InsideBothEnvelopes(fc: FlightCase, polar: DragPolar, cl: real) {
    && fc.clmax.scope == ScopeAircraft && (fc.clmax.max > 0.0 ==> cl <= fc.clmax.max)
    && polar.clValidMin <= cl <= polar.clValidMax
  }

  predicate Flies(
    p: Platform, d: Design, s: MissionSegment, fc: FlightCase, mass: Quantity, wing: Wing, cl: real, cd: real)
  {
    && Trims(p, d.polar, s, fc, mass.si, wing.projected.area.si, wing.projectedAspectRatio, cl, cd)
    && InsideBothEnvelopes(fc, d.polar, cl)
  }

  lemma PressureIsStated(p: Platform, s: MissionSegment, fc: FlightCase, mass: Quantity)
    ensures var q, lift := DynamicPressure(fc, s.speed), SegmentLift(p, mass, fc.loadFactor, s.climbAngle);
            && (q.Ok? && lift.Ok? <==> StatesFlight(p, s, fc, mass))
            && (q.Ok? ==> q.value == Quantity(Pressure(fc, s), DimForcePerArea) && q.value.si > 0.0)
            && (lift.Ok? ==> lift.value == Quantity(WeightAcross(p, s, fc, mass.si), DimForce) && lift.value.si > 0.0)
  {
    hide Square;
    if fc.density.si > 0.0 && s.speed.si > 0.0 {
      assert Square(s.speed.si) > 0.0;
      assert fc.density.si * Square(s.speed.si) > 0.0;
    }
    if fc.loadFactor > 0.0 && mass.si > 0.0 && p.cos(s.climbAngle.si) > 0.0 {
      FourPositive(fc.loadFactor, mass.si, p.cos(s.climbAngle.si));
    }
  }

  lemma FourPositive(n: real, m: real, c: real)
    requires n > 0.0 && m > 0.0 && c > 0.0
    ensures n * m * GRAVITY * c > 0.0
  {
    assert n * m > 0.0;
    assert n * m * GRAVITY > 0.0;
  }

  lemma EnvelopeIsBoth(fc: FlightCase, polar: DragPolar, cl: real)
    ensures EnvelopeIssues(fc, polar, cl) == [] <==> InsideBothEnvelopes(fc, polar, cl)
  {
  }

  lemma CoefficientExists(lift: Quantity, q: Quantity, area: Quantity)
    requires lift.Positive(DimForce) && q.Positive(DimForcePerArea) && area.Positive(DimArea)
    ensures var cl := SegmentLiftCoefficient(lift, q, area);
            cl.Ok? && cl.value.si > 0.0 && Lifts(cl.value.si, q.si, area.si, lift.si)
  {
    assert q.si * area.si > 0.0;
    DivPositive(lift.si, q.si * area.si);
    DivMul(lift.si, q.si * area.si);
  }

  lemma OneCoefficient(cl: real, cl': real, q: real, area: real, lift: real)
    requires q > 0.0 && area > 0.0 && Lifts(cl, q, area, lift) && Lifts(cl', q, area, lift)
    ensures cl == cl'
  {
    assert q * area > 0.0;
    Scale(cl, cl', q * area);
  }

  lemma DragExists(p: Platform, aspect: real, polar: DragPolar, cl: real)
    requires p.Lawful() && aspect > 0.0 && cl > 0.0
    ensures var cd := DragCoefficient(p, aspect, polar, cl);
            && (cd.Ok? <==> StatesDrag(polar) && Covers(polar, cl))
            && (cd.Ok? ==> cd.value.si > 0.0 && Drags(cd.value.si, polar, Slenderness(p, aspect, polar), cl))
    ensures StatesDrag(polar) ==> Slenderness(p, aspect, polar) > 0.0
  {
    hide Square;
    if StatesDrag(polar) {
      assert p.pi * aspect > 0.0;
      var k := p.pi * aspect * polar.oswaldEfficiency;
      assert k > 0.0;
      DivPositive(1.0, k);
      assert 1.0 / k * Square(cl) >= 0.0 by {
        NonnegativeProduct(1.0 / k, Square(cl));
      }
      if Covers(polar, cl) {
        DragChain(p, aspect, polar, cl);
      }
    }
  }

  lemma OneDrag(cd: real, cd': real, polar: DragPolar, slenderness: real, cl: real)
    requires slenderness > 0.0 && Drags(cd, polar, slenderness, cl) && Drags(cd', polar, slenderness, cl)
    ensures cd == cd'
  {
    hide Square;
    Scale(cd - polar.cd0, cd' - polar.cd0, slenderness);
  }

  /** Drag, thrust, useful power and draw all follow once the thrust is forward. */
  lemma TheChainFollows(p: Platform, s: MissionSegment, q: Quantity, area: Quantity, mass: Quantity, cl: real, cd: real, e: real)
    requires q.Positive(DimForcePerArea) && area.Positive(DimArea) && mass.Positive(DimMass) && cl > 0.0 && cd > 0.0
    requires s.speed.Positive(DimSpeed) && s.climbAngle.dim == DimAngle
    ensures LiftToDrag(cl, cd).Ok? && DragForce(q, area, cd).Ok?
    ensures var thrust := RequiredThrust(p, DragForce(q, area, cd).value, mass, s.climbAngle);
            && thrust.Ok? && thrust.value.dim == DimForce
            && thrust.value.si == Thrust(q.si, area.si, cd, mass.si, p.sin(s.climbAngle.si))
            && (thrust.value.si > 0.0 ==>
                  && PropulsivePower(thrust.value, s.speed).Ok?
                  && (RequiredElectricalPower(PropulsivePower(thrust.value, s.speed).value, e, Quantity(0.0, DimPower)).Ok?
                      <==> 0.0 < e <= 1.0))
  {
    DivPositive(cl, cd);
    assert q.si * area.si > 0.0;
    assert q.si * area.si * cd > 0.0;
    var thrust := RequiredThrust(p, DragForce(q, area, cd).value, mass, s.climbAngle).value;
    if thrust.si > 0.0 {
      assert Product(thrust.si, s.speed.si) == thrust.si * s.speed.si;
      if 0.0 < e {
        DivPositive(thrust.si * s.speed.si, e);
      }
    }
  }

  /** The lift and drag coefficients the weight asks for, once the flight and the
      drag are stated. */
  lemma CoefficientsOf(
    p: Platform, d: Design, s: MissionSegment, fc: FlightCase, mass: Quantity, wing: Wing) returns (cl: real)
    requires p.Lawful() && wing.projected.area.Positive(DimArea) && wing.projectedAspectRatio > 0.0
    requires StatesFlight(p, s, fc, mass)
    ensures DynamicPressure(fc, s.speed).Ok? && SegmentLift(p, mass, fc.loadFactor, s.climbAngle).Ok?
    ensures var found := SegmentLiftCoefficient(SegmentLift(p, mass, fc.loadFactor, s.climbAngle).value,
                                                DynamicPressure(fc, s.speed).value, wing.projected.area);
            found.Ok? && found.value.si == cl
    ensures cl > 0.0 && Lifts(cl, Pressure(fc, s), wing.projected.area.si, WeightAcross(p, s, fc, mass.si))
    ensures forall other: real :: Lifts(other, Pressure(fc, s), wing.projected.area.si, WeightAcross(p, s, fc, mass.si)) ==>
              other == cl
  {
    hide Lifts, Pressure, WeightAcross, DynamicPressure, SegmentLift, SegmentLiftCoefficient, StatesFlight;
    PressureIsStated(p, s, fc, mass);
    var q, lift := DynamicPressure(fc, s.speed).value, SegmentLift(p, mass, fc.loadFactor, s.climbAngle).value;
    CoefficientExists(lift, q, wing.projected.area);
    cl := SegmentLiftCoefficient(lift, q, wing.projected.area).value.si;
    forall other: real | Lifts(other, Pressure(fc, s), wing.projected.area.si, WeightAcross(p, s, fc, mass.si))
      ensures other == cl
    {
      OneCoefficient(other, cl, Pressure(fc, s), wing.projected.area.si, WeightAcross(p, s, fc, mass.si));
    }
  }

  /** A balance is found exactly when the flight and the drag are stated, the chain
      has an efficiency, and some lift and drag coefficient fly the segment. */
  lemma ABalanceIsFoundExactly(
    p: Platform, d: Design, s: MissionSegment, fc: FlightCase, mass: Quantity, wing: Wing, e: real)
    requires p.Lawful() && wing.projected.area.Positive(DimArea) && wing.projectedAspectRatio > 0.0
    ensures ResolveBalance(p, d, s, fc, mass, wing, e).Ok?
       <==> && StatesFlight(p, s, fc, mass) && StatesDrag(d.polar) && 0.0 < e <= 1.0
            && exists cl: real, cd: real :: Flies(p, d, s, fc, mass, wing, cl, cd)
  {
    hide Lifts, Pressure, WeightAcross, DynamicPressure, SegmentLift, SegmentLiftCoefficient, StatesDrag, StatesFlight,
      Slenderness, Drags, Thrust, DragCoefficient, EnvelopeIssues, InsideBothEnvelopes, DragForce, LiftToDrag,
      RequiredThrust, PropulsivePower, RequiredElectricalPower, Covers;
    PressureIsStated(p, s, fc, mass);
    if StatesFlight(p, s, fc, mass) {
      FlightIsPositive(p, s, fc, mass);
      var q, area := DynamicPressure(fc, s.speed).value, wing.projected.area;
      var cl := CoefficientsOf(p, d, s, fc, mass, wing);
      EnvelopeIsBoth(fc, d.polar, cl);
      EnvelopesCover(fc, d.polar, cl);
      DragExists(p, wing.projectedAspectRatio, d.polar, cl);
      if StatesDrag(d.polar) && InsideBothEnvelopes(fc, d.polar, cl) {
        var cd := DragCoefficient(p, wing.projectedAspectRatio, d.polar, cl).value.si;
        TheChainFollows(p, s, q, area, mass, cl, cd, e);
        forall other: real | Drags(other, d.polar, Slenderness(p, wing.projectedAspectRatio, d.polar), cl)
          ensures other == cd
        {
          OneDrag(other, cd, d.polar, Slenderness(p, wing.projectedAspectRatio, d.polar), cl);
        }
        assert ResolveBalance(p, d, s, fc, mass, wing, e).Ok? ==> Flies(p, d, s, fc, mass, wing, cl, cd);
      }
    }
  }

  lemma FlightIsPositive(p: Platform, s: MissionSegment, fc: FlightCase, mass: Quantity)
    requires StatesFlight(p, s, fc, mass)
    ensures mass.Positive(DimMass) && s.speed.Positive(DimSpeed) && s.climbAngle.dim == DimAngle
  {
  }

  lemma EnvelopesCover(fc: FlightCase, polar: DragPolar, cl: real)
    ensures InsideBothEnvelopes(fc, polar, cl) ==> Covers(polar, cl)
  {
  }

  /** The segment's own efficiency, or the installation's where it states none. */
  predicate ChainIs(d: Design, s: MissionSegment, e: real) {
    e == if s.efficiency > 0.0 then s.efficiency else d.propulsion.efficiency.total
  }

  /** Everything a polar segment's power rests on: the case it names, a polar, the
      solved wing, the mass, and an efficiency at which some lift and drag
      coefficient fly it. */
  ghost predicate IsFlown(p: Platform, d: Design, s: MissionSegment, c: DesignCase, wing: Wing, mass: Quantity, e: real) {
    && Lookup(d.cases, CaseName, s.caseName) == Some(c) && d.polar != NO_POLAR
    && SolveWing(p, d.wing) == Ok(wing) && MassReading(d) == SubjectReading(mass, ResultComputed)
    && ChainIs(d, s, e) && 0.0 < e <= 1.0
    && StatesFlight(p, s, c.flight, mass) && StatesDrag(d.polar)
    && exists cl: real, cd: real :: Flies(p, d, s, c.flight, mass, wing, cl, cd)
  }

  lemma ChainEfficiencyIsTheChains(d: Design, s: MissionSegment, e: real)
    requires e > 0.0
    ensures ChainEfficiency(d, s) == e <==> ChainIs(d, s, e)
    ensures ChainEfficiency(d, s) >= 0.0
  {
  }

  lemma SolvedWingIsPositive(p: Platform, d: Design, wing: Wing)
    requires p.Lawful() && SolveWing(p, d.wing) == Ok(wing)
    ensures wing.projected.area.Positive(DimArea) && wing.projectedAspectRatio > 0.0
  {
    hide SolveWing, IsTrapezoid, Foreshortened, AspectRelation;
    PlanViewIsThePanelForeshortened(p, d.wing);
  }

  /** A polar segment has a power exactly when the auxiliary budget is computed and
      it is flown; the draw is then the propulsion's with the continuous auxiliary
      draw on top, and the propulsion's through the efficiency is thrust times
      airspeed. */
  lemma PolarPowerDraws(p: Platform, d: Design, s: MissionSegment)
    requires p.Lawful() && s.model == SegmentModelPolar
    ensures var power, auxiliary := PowerOf(p, d, s, ContextOf(p, d), Budget(d.auxiliary)), Budget(d.auxiliary);
            && (power.status == ResultComputed <==>
                  auxiliary.status == ResultComputed
                  && exists c, wing, mass, e: real :: IsFlown(p, d, s, c, wing, mass, e))
            && (power.status == ResultComputed ==>
                  && ChainIs(d, s, power.efficiency)
                  && power.electrical == Quantity(power.propulsiveElectrical.si + auxiliary.continuous.si, DimPower)
                  && power.propulsiveElectrical.si * power.efficiency == power.thrust.si * s.speed.si
                  && power.evidence == Weaker(d.polar.evidence, d.propulsion.efficiency.evidence))
  {
    hide ResolveBalance, Budget, SolveWing, MassReading, ChainEfficiency, ChainIs, StatesFlight, StatesDrag, Flies, Lookup;
    var flown, solved, mass := Lookup(d.cases, CaseName, s.caseName), SolveWing(p, d.wing), MassReading(d);
    var e := ChainEfficiency(d, s);
    forall x: real | x > 0.0
      ensures ChainEfficiency(d, s) == x <==> ChainIs(d, s, x)
      ensures e >= 0.0
    {
      ChainEfficiencyIsTheChains(d, s, x);
    }
    ChainEfficiencyIsTheChains(d, s, 1.0);
    if flown.Some? && solved.Ok? && mass.status == ResultComputed && e > 0.0 {
      SolvedWingIsPositive(p, d, solved.value);
      ABalanceIsFoundExactly(p, d, s, flown.value.flight, mass.value, solved.value, e);
      if ResolveBalance(p, d, s, flown.value.flight, mass.value, solved.value, e).Ok? {
        ResolvedDraw(p, d, s, flown.value.flight, mass.value, solved.value, e);
        assert d.polar != NO_POLAR ==> IsFlown(p, d, s, flown.value, solved.value, mass.value, e);
      }
    }
  }

  lemma ResolvedDraw(p: Platform, d: Design, s: MissionSegment, fc: FlightCase, mass: Quantity, wing: Wing, e: real)
    requires p.Lawful() && ResolveBalance(p, d, s, fc, mass, wing, e).Ok?
    ensures var b := ResolveBalance(p, d, s, fc, mass, wing, e).value;
            b.electrical.si * e == b.thrust.si * s.speed.si
  {
    hide ResolveBalance, Square, Covers;
    PolarSegmentBalances(p, d, s, fc, mass, wing, e);
  }

  /** A mission none of whose segments computes shows no figure and judges no
      energy, and any mission shows its segments in order and its own reserve. */
  lemma AnUncomputedMissionShowsNothing(p: Platform, d: Design)
    ensures var m := Analysis(p, d);
            && |m.segments| == |d.mission.segments| && m.reserveFraction == d.mission.reserveFraction
            && (!AnyComputed(m.segments) ==>
                  && m.status == ResultMissing && m.energyStatus == LimitUnknown
                  && m.requiredEnergy == m.usableEnergy == m.budget == UNSET
                  && m.totalDuration == m.totalDistance == m.peakContinuousPower == UNSET)
            && (m.status != ResultComputed ==> m.energyStatus == LimitUnknown && m.usableEnergy == m.budget == UNSET)
  {
    hide Budget, SumOver, SumIssues, ContextOf, PeakOver, AllComputed, AnyComputed, EvaluateSegment, UsableEnergy,
      EnergyBudget, FinishTotal;
  }
}
