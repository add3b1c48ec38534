/** What the reported checks say of the limits as they were stated, and of what
    the subjects read, without the functions that compute them. */
module StatedChecks {
  import opened Quantities
  import opened Definition
  import opened Reals
  import opened Lift
  import opened Planforms
  import opened Wings
  import opened MassBalance
  import opened PowerEquations
  import opened Electrical
  import opened Missions
  import opened Sizing
  import opened Requirements
  import opened Feasibility
  import opened Commands
  import opened Keys
  import opened Editing

  // ----- The margin tightens the bound it is stated on ----------------------

  function StatedSide(r: Requirement, direction: BoundDirection): Quantity {
    match direction
    case BoundLower => r.minimum
    case BoundUpper => r.maximum
  }

  /** The bound is the stated side moved inwards by the margin's share of it. */
  predicate IsTightened(r: Requirement, direction: BoundDirection, bound: Quantity) {
    match direction
    case BoundLower => bound.dim == r.minimum.dim && bound.si == r.minimum.si + r.margin * r.minimum.si
    case BoundUpper => bound.dim == r.maximum.dim && bound.si + r.margin * r.maximum.si == r.maximum.si
  }

  /** A bare number its margin takes to zero reads as a side not stated. */
  predicate MarginLeavesNothing(r: Requirement, direction: BoundDirection) {
    match direction
    case BoundLower => r.minimum.dim == Dimensionless && r.minimum.si + r.margin * r.minimum.si == 0.0
    case BoundUpper => r.maximum.dim == Dimensionless && r.margin * r.maximum.si == r.maximum.si
  }

  /** The side is stated and its margin leaves something of it. */
  predicate InForce(r: Requirement, direction: BoundDirection) {
    StatedSide(r, direction) != UNSET && !MarginLeavesNothing(r, direction)
  }

  /** A bound is read exactly when it is in force, and then it is the tightened
      one. */
  lemma TheBoundInForceIsTheTightenedOne(r: Requirement, direction: BoundDirection)
    ensures EffectiveBound(r, direction).Supplied() <==> InForce(r, direction)
    ensures EffectiveBound(r, direction).Supplied() ==> IsTightened(r, direction, EffectiveBound(r, direction))
  {
    Spread(r.maximum.si, r.margin);
    Spread(r.minimum.si, r.margin);
  }

  lemma Spread(x: real, m: real)
    ensures x * (1.0 - m) + m * x == x && x * (1.0 + m) == x + m * x
  {
  }

  lemma TightenedIsUnique(r: Requirement, direction: BoundDirection, a: Quantity, b: Quantity)
    requires IsTightened(r, direction, a) && IsTightened(r, direction, b)
    ensures a == b
  {
  }

  // ----- One check ----------------------------------------------------------

  /** The room left inside the bound, signed. */
  function Room(direction: BoundDirection, value: real, bound: real): real {
    match direction
    case BoundLower => value - bound
    case BoundUpper => bound - value
  }

  /** Past the bound by no more than the tolerance's share of it. */
  predicate Inside(direction: BoundDirection, value: real, bound: real) {
    Room(direction, value, bound) + TOLERANCE * Abs(bound) >= 0.0
  }

  /** The check carries the requirement, the case, the tightened bound and what
      the subject read. An uncomputed subject is unknown; a computed one is met
      exactly inside the bound, and its margin is the room as a share of it. */
  predicate Says(
    r: Requirement, c: DesignCase, direction: BoundDirection, reading: SubjectReading, check: RequirementCheck)
  {
    && check.name == r.name && check.caseName == c.flight.name && check.subject == r.subject
    && check.priority == r.priority && check.direction == direction && check.evidence == c.clmaxEvidence
    && IsTightened(r, direction, check.bound)
    && check.actual == reading.value && check.result == reading.status
    && if reading.status == ResultComputed then
         && check.status == (if Inside(direction, reading.value.si, check.bound.si) then LimitMet else LimitUnmet)
         && if check.bound.si == 0.0 then check.margin == 0.0
            else check.margin * Abs(check.bound.si) == Room(direction, reading.value.si, check.bound.si)
       else check.status == LimitUnknown && check.margin == 0.0
  }

  lemma BuiltChecksSay(r: Requirement, c: DesignCase, direction: BoundDirection, reading: SubjectReading)
    requires EffectiveBound(r, direction).Supplied()
    ensures Says(r, c, direction, reading, BuildCheck(r, c, reading, EffectiveBound(r, direction), direction))
  {
    hide IsTightened, EffectiveBound;
    TheBoundInForceIsTheTightenedOne(r, direction);
    var bound := EffectiveBound(r, direction);
    if bound.si != 0.0 {
      DivMul(Room(direction, reading.value.si, bound.si), Abs(bound.si));
    }
  }

  lemma OneCheckSays(
    r: Requirement, c: DesignCase, direction: BoundDirection, reading: SubjectReading, a: RequirementCheck, b: RequirementCheck)
    requires Says(r, c, direction, reading, a) && Says(r, c, direction, reading, b)
    ensures a == b
  {
    TightenedIsUnique(r, direction, a.bound, b.bound);
    if a.bound.si != 0.0 && reading.status == ResultComputed {
      Scale(a.margin, b.margin, Abs(a.bound.si));
    }
  }

  /** The requirement states the side and is judged in the case. */
  ghost predicate Judges(d: Design, r: Requirement, c: DesignCase, direction: BoundDirection) {
    r in d.requirements && JudgedIn(d, r, c) && InForce(r, direction)
  }

  /** A check is reported exactly when it is what some stated side of one of the
      design's requirements says, in a case it is judged in, of what its subject
      reads there. */
  lemma ReportedChecksSayWhatIsStated(p: Platform, d: Design, check: RequirementCheck)
    ensures check in Assessment(p, d)
       <==> exists r, c, direction ::
              && Judges(d, r, c, direction)
              && Says(r, c, direction, ReadSubject(p, d, r.subject, c, SolveWing(p, d.wing)), check)
  {
    hide EffectiveBound, InForce, ReadSubject, SolveWing, BuildCheck, Says, JudgedIn, ChecksOver;
    ChecksOverAre(p, d, d.requirements, check);
    forall r, c, direction | r in d.requirements && JudgedIn(d, r, c)
      ensures IsCheckOf(p, d, r, c, direction, check)
         <==> && Judges(d, r, c, direction)
              && Says(r, c, direction, ReadSubject(p, d, r.subject, c, SolveWing(p, d.wing)), check)
    {
      var reading := ReadSubject(p, d, r.subject, c, SolveWing(p, d.wing));
      TheBoundInForceIsTheTightenedOne(r, direction);
      if EffectiveBound(r, direction).Supplied() {
        var built := BuildCheck(r, c, reading, EffectiveBound(r, direction), direction);
        BuiltChecksSay(r, c, direction, reading);
        if Says(r, c, direction, reading, check) {
          OneCheckSays(r, c, direction, reading, check, built);
        }
      }
    }
  }

  /** A lookup finds a case exactly when one of that name is listed. */
  lemma {:induction false} ACaseIsListed(cases: seq<DesignCase>, name: string)
    ensures Lookup(cases, CaseName, name).Some? <==> exists c :: c in cases && c.flight.name == name
  {
    if cases != [] {
      ACaseIsListed(cases[1..], name);
      assert cases == [cases[0]] + cases[1..];
    }
  }

  // ----- What each subject reads --------------------------------------------

  /** The case states everything a stall speed is computed from. */
  predicate StatesLift(fc: FlightCase) {
    && fc.densityBasis != "" && fc.density.dim == DimDensity && fc.density.si > 0.0 && fc.loadFactor > 0.0
    && fc.clmax.scope == ScopeAircraft && fc.clmax.basis != "" && fc.clmax.max > 0.0
  }

  /** It states something no stall speed can be computed from, rather than leaving
      it out. */
  predicate MisstatesLift(fc: FlightCase) {
    || (fc.density != UNSET && !(fc.density.dim == DimDensity && fc.density.si > 0.0))
    || fc.loadFactor <= 0.0
    || fc.clmax.scope == ScopeAirfoilSection
    || (fc.clmax.scope == ScopeAircraft && fc.clmax.max <= 0.0)
  }

  lemma LiftIsStatedExactly(fc: FlightCase)
    ensures StallIssues(fc) == [] <==> StatesLift(fc)
    ensures !StatesLift(fc) ==> StatusForIssues(StallIssues(fc)) == if MisstatesLift(fc) then ResultInvalid else ResultMissing
  {
    LiftIssuesAre(fc);
  }

  lemma LiftIssuesAre(fc: FlightCase)
    ensures StallIssues(fc) == [] <==> StatesLift(fc)
    ensures IssueInvalid in StallIssues(fc) || IssueUnsupported in StallIssues(fc) <==> MisstatesLift(fc)
  {
  }

  /** The plan view's own dimensions, and the aspect ratio that is its squared span
      over its area. */
  lemma GeometryReads(p: Platform, d: Design, c: DesignCase, w: Wing)
    requires p.Lawful() && SolveWing(p, d.wing) == Ok(w)
    ensures ReadSubject(p, d, SubjectSpan, c, Ok(w)) == SubjectReading(w.projected.span, ResultComputed)
    ensures ReadSubject(p, d, SubjectWingArea, c, Ok(w)) == SubjectReading(w.projected.area, ResultComputed)
    ensures var aspect := ReadSubject(p, d, SubjectAspectRatio, c, Ok(w));
            && aspect.status == ResultComputed && aspect.value.dim == Dimensionless
            && aspect.value.si * w.projected.area.si == Square(w.projected.span.si)
    ensures w.projected.span.Positive(DimLength) && w.projected.area.Positive(DimArea)
  {
    hide *;
    GeometryIsReadOffTheWing(p, d, c, w);
    PlanViewOf(p, d.wing, w);
  }

  lemma PlanViewOf(p: Platform, def: WingDefinition, w: Wing)
    requires p.Lawful() && SolveWing(p, def) == Ok(w)
    ensures w.projected.span.Positive(DimLength) && w.projected.area.Positive(DimArea)
    ensures w.projectedAspectRatio * w.projected.area.si == Square(w.projected.span.si)
  {
    hide SolveWing, IsTrapezoid, Square, Foreshortened, Planforms.SolvePlanform, Quantity.Positive;
    PlanViewIsThePanelForeshortened(p, def);
  }

  lemma GeometryIsReadOffTheWing(p: Platform, d: Design, c: DesignCase, w: Wing)
    ensures ReadSubject(p, d, SubjectSpan, c, Ok(w)) == SubjectReading(w.projected.span, ResultComputed)
    ensures ReadSubject(p, d, SubjectWingArea, c, Ok(w)) == SubjectReading(w.projected.area, ResultComputed)
    ensures ReadSubject(p, d, SubjectAspectRatio, c, Ok(w))
         == SubjectReading(Quantity(w.projectedAspectRatio, Dimensionless), ResultComputed)
  {
    hide MassReading, Analysis;
  }

  /** A wing loading is read exactly of a positive mass, and is the mass the area
      carries per square metre. */
  lemma WingLoadingReads(p: Platform, d: Design, c: DesignCase, w: Wing)
    requires w.projected.area.Positive(DimArea)
    ensures var mass, r := MassReading(d), ReadSubject(p, d, SubjectWingLoadingMass, c, Ok(w));
            && (r.status == ResultComputed <==> mass.status == ResultComputed && mass.value.Positive(DimMass))
            && (r.status == ResultComputed ==>
                  r.value.Positive(DimMassPerArea) && r.value.si * w.projected.area.si == mass.value.si)
            && (r.status != ResultComputed ==>
                  r.value == UNSET && r.status == if mass.status != ResultComputed then mass.status else ResultInvalid)
  {
    hide SolveWing, MassReading;
    var mass := MassReading(d);
    UnreadMassHasNoValue(d);
    if mass.status == ResultComputed && mass.value.Positive(DimMass) {
      DivPositive(mass.value.si, w.projected.area.si);
      DivMul(mass.value.si, w.projected.area.si);
    }
  }

  lemma UnreadMassHasNoValue(d: Design)
    ensures MassReading(d).status != ResultComputed ==> MassReading(d).value == UNSET
    ensures MassReading(d).status == ResultComputed ==> MassReading(d).value != UNSET
  {
  }

  /** A stall speed is read exactly of a positive mass in a case that states its
      lift, and is the speed at which that lift carries it; what is left out reads
      as missing, and what is misstated as invalid. */
  lemma StallSpeedReads(p: Platform, d: Design, c: DesignCase, w: Wing)
    requires p.Lawful() && w.projected.area.Positive(DimArea)
    ensures var mass, fc, r := MassReading(d), c.flight, ReadSubject(p, d, SubjectStallSpeed, c, Ok(w));
            && (r.status == ResultComputed <==>
                  mass.status == ResultComputed && mass.value.Positive(DimMass) && StatesLift(fc))
            && (r.status == ResultComputed ==>
                  && r.value.Positive(DimSpeed)
                  && Square(r.value.si) * (fc.density.si * fc.clmax.max * w.projected.area.si)
                     == 2.0 * fc.loadFactor * GRAVITY * mass.value.si)
            && (r.status != ResultComputed ==>
                  && r.value == UNSET
                  && r.status == (if mass.status != ResultComputed then mass.status
                                  else if !mass.value.Positive(DimMass) || MisstatesLift(fc) then ResultInvalid
                                  else ResultMissing))
  {
    hide SolveWing, MassReading, StallIssues, StatesLift, MisstatesLift, Square, Analysis;
    var mass, fc := MassReading(d), c.flight;
    UnreadMassHasNoValue(d);
    LiftIsStatedExactly(fc);
    LiftIssuesAre(fc);
    if mass.status == ResultComputed && mass.value.Positive(DimMass) && StatesLift(fc) {
      StallSpeedBalances(p, fc, mass.value, w.projected.area);
    }
  }

  /** Without a wing nothing the wing feeds is read; the mass still is. */
  lemma NothingReadsWithoutAWing(
    p: Platform, d: Design, c: DesignCase, subject: RequirementSubject, issues: Issues)
    requires !FromPowerModel(subject)
    ensures var r := ReadSubject(p, d, subject, c, Refused(issues));
            if subject == SubjectMass then r == MassReading(d)
            else r == SubjectReading(UNSET, if IssueInvalid in issues || IssueUnsupported in issues then ResultInvalid
                                            else ResultMissing)
  {
  }

  /** A mission subject is read exactly of a computed mission to which every segment
      contributed: the summed energies, durations and distances, and the largest
      draw. */
  lemma MissionSubjectsRead(p: Platform, d: Design, c: DesignCase, subject: RequirementSubject, solved: Outcome<Wing>)
    requires FromPowerModel(subject) && subject != SubjectPropellerClearance
    ensures var m, r := Analysis(p, d), ReadSubject(p, d, subject, c, solved);
            && (r.status == ResultComputed <==>
                  m.status == ResultComputed && m.segments != [] && AllComputed(m.segments))
            && (r.status != ResultComputed ==> r == SubjectReading(UNSET, ResultMissing))
            && (r.status == ResultComputed ==>
                  && r.value.dim == SubjectDimension(subject)
                  && r.value.si == (match subject
                                    case SubjectMissionEnergy => SumOver(m.segments, OfEnergy)
                                    case SubjectMissionDuration => SumOver(m.segments, OfDuration)
                                    case SubjectMissionRange => SumOver(m.segments, OfDistance)
                                    case _ => PeakOver(m.segments)))
  {
    hide Analysis, SumOver, PeakOver, AllComputed, MassReading, AnyComputed, AllMakeHeadway;
    CompleteMeansEverySegment(p, d);
    if AnyComputed(Analysis(p, d).segments) {
      AnalysisTotals(p, d);
    }
  }

  lemma CompleteMeansEverySegment(p: Platform, d: Design)
    ensures var m := Analysis(p, d);
            && (m.complete <==> m.segments != [] && AllComputed(m.segments))
            && (m.status == ResultComputed ==> AnyComputed(m.segments))
            && (!AnyComputed(m.segments) ==> m.status == ResultMissing)
  {
    hide Evaluated, Budget, SumOver, SumIssues, ContextOf, PeakOver, AllComputed, UsableEnergy, EnergyBudget, FinishTotal;
  }

  /** The clearance is read exactly of a positive hub height and diameter, and is
      the height less half the diameter, of either sign. */
  lemma ClearanceReads(p: Platform, d: Design, c: DesignCase, solved: Outcome<Wing>)
    ensures var l, r := d.propulsion.limits, ReadSubject(p, d, SubjectPropellerClearance, c, solved);
            && (r.status == ResultComputed <==>
                  l.propellerHubHeight.Positive(DimLength) && l.propellerDiameter.Positive(DimLength))
            && (r.status == ResultComputed ==>
                  r.value.dim == DimLength
                  && 2.0 * r.value.si + l.propellerDiameter.si == 2.0 * l.propellerHubHeight.si)
            && (r.status != ResultComputed ==>
                  r == SubjectReading(UNSET, if l.propellerHubHeight == UNSET || l.propellerDiameter == UNSET
                                             then ResultMissing else ResultInvalid))
  {
    hide Analysis, MassReading;
  }

  // ----- Met as checked, met as stated --------------------------------------

  /** A side met to the tolerance keeps the stated limit to the tolerance, and in
      fact the part of it the margin leaves. */
  predicate KeepsStated(r: Requirement, direction: BoundDirection, value: real) {
    match direction
    case BoundLower =>
      && value >= (r.minimum.si + r.margin * r.minimum.si) * (1.0 - TOLERANCE)
      && value >= r.minimum.si * (1.0 - TOLERANCE)
    case BoundUpper =>
      && value <= (r.maximum.si - r.margin * r.maximum.si) * (1.0 + TOLERANCE)
      && value <= r.maximum.si * (1.0 + TOLERANCE)
  }

  lemma InsideKeepsStated(r: Requirement, direction: BoundDirection, bound: Quantity, value: real)
    requires IsTightened(r, direction, bound) && Inside(direction, value, bound.si)
    requires 0.0 <= r.margin < 1.0 && StatedSide(r, direction).si >= 0.0
    ensures KeepsStated(r, direction, value)
  {
    var stated := StatedSide(r, direction).si;
    SharesOf(stated, r.margin);
    Slack(value, bound.si, stated, r.margin * stated);
  }

  lemma Slack(value: real, bound: real, stated: real, share: real)
    requires 0.0 <= share <= stated
    ensures bound + share == stated && Inside(BoundUpper, value, bound) ==>
              value <= (stated - share) * (1.0 + TOLERANCE) && value <= stated * (1.0 + TOLERANCE)
    ensures bound == stated + share && Inside(BoundLower, value, bound) ==>
              value >= (stated + share) * (1.0 - TOLERANCE) && value >= stated * (1.0 - TOLERANCE)
  {
  }

  lemma SharesOf(x: real, m: real)
    requires x >= 0.0 && 0.0 <= m < 1.0
    ensures 0.0 <= m * x <= x && (m * x == x ==> x == 0.0)
  {
    NonnegativeProduct(m, x);
    NonnegativeProduct(1.0 - m, x);
    Spread(x, m);
  }

  /** When the combined status is met, every required side stated in a case, of a
      non-negative limit with a margin in [0, 1), was computed and keeps the limit
      as it was stated. */
  lemma AMetDesignKeepsWhatIsStated(
    p: Platform, d: Design, r: Requirement, c: DesignCase, direction: BoundDirection)
    requires Aggregated(Assessment(p, d)).0 == LimitMet
    requires r in d.requirements && r.priority == PriorityRequired && JudgedIn(d, r, c)
    requires StatedSide(r, direction) != UNSET && StatedSide(r, direction).si >= 0.0 && 0.0 <= r.margin < 1.0
    ensures var reading := ReadSubject(p, d, r.subject, c, SolveWing(p, d.wing));
            reading.status == ResultComputed && KeepsStated(r, direction, reading.value.si)
  {
    hide Assessment, ReadSubject, SolveWing, EffectiveBound, KeepsStated, IsTightened, JudgedIn;
    TheDesignIsMetExactlyWhenEveryDemandHolds(p, d);
    TheBoundInForceIsTheTightenedOne(r, direction);
    SharesOf(StatedSide(r, direction).si, r.margin);
    assert Demands(d, r, c, direction);
    assert SideHolds(p, d, r, c, direction);
    InsideKeepsStated(r, direction, EffectiveBound(r, direction),
                      ReadSubject(p, d, r.subject, c, SolveWing(p, d.wing)).value.si);
  }

  // ----- Sizing, against the stated stall maximum ---------------------------

  /** A required or named stall maximum that reaches the sizing: positive, with a
      margin in [0, 1), applied to a covered case that states its lift. */
  predicate StallMaximumInScope(d: Design, r: Requirement, c: DesignCase, scope: CaseScope) {
    && r in d.requirements && c in d.cases && r.AppliesTo(c.flight.name) && r.subject == SubjectStallSpeed
    && r.maximum.dim == DimSpeed && r.maximum.si > 0.0 && 0.0 <= r.margin < 1.0
    && StatesLift(c.flight)
    && match scope
       case AllRequiredCases => c.priority == PriorityRequired && r.priority == PriorityRequired
       case SingleCase(name) => c.flight.name == name
       case ScopeUnstated => c.priority == PriorityRequired
  }

  lemma LimitInScope(r: Requirement)
    requires r.maximum.dim == DimSpeed && r.maximum.si > 0.0 && 0.0 <= r.margin < 1.0
    ensures r.EffectiveMaximum().Positive(DimSpeed)
    ensures r.EffectiveMaximum().si == r.maximum.si - r.margin * r.maximum.si
  {
    TheBoundInForceIsTheTightenedOne(r, BoundUpper);
    SharesOf(r.maximum.si, r.margin);
  }

  lemma AStallMaximumInScopeCeils(d: Design, r: Requirement, c: DesignCase, scope: CaseScope)
    requires StallMaximumInScope(d, r, c, scope) && MassReading(d).value.Positive(DimMass)
    ensures StallCeiling(c, r) in CeilingsOver(d.cases, d.requirements, scope)
    ensures MinimumAreaOf(StallCeiling(c, r), MassReading(d).value).Ok?
    ensures r.EffectiveMaximum().si == r.maximum.si - r.margin * r.maximum.si
  {
    hide MassReading, CeilingsOver, StatesLift, MinimumWingArea, Requirement.EffectiveMaximum;
    LimitInScope(r);
    CeilingsOverAre(d.cases, d.requirements, scope, StallCeiling(c, r));
    LiftIsStatedExactly(c.flight);
    MinimumWingAreaSucceeds(c.flight, MassReading(d).value, r.EffectiveMaximum());
  }

  /** At the area sizing leaves, no case in scope stalls faster than its stated
      maximum less the margin: read as the assessment reads it, on the sized
      design. */
  lemma SizedStallSpeedKeepsTheStatedMaximum(
    p: Platform, d: Design, key: ParameterKey, scope: CaseScope, r: Requirement, c: DesignCase)
    requires p.Lawful() && ApplySizing(p, d, key, scope).Ok?
    requires SolveWing(p, Sized(p, d, key, scope).wing).Ok?
    requires MassReading(d).value.Positive(DimMass) && StallMaximumInScope(d, r, c, scope)
    ensures var out := Sized(p, d, key, scope);
            var v := ReadSubject(p, out, SubjectStallSpeed, c, SolveWing(p, out.wing));
            && v.status == ResultComputed
            && v.value.si <= r.maximum.si - r.margin * r.maximum.si <= r.maximum.si
  {
    hide ApplySizing, SolveWing, CeilingsOver, MassReading, StallMaximumInScope, MinimumAreaOf, IsTrapezoid, AreaLowerBound,
      StatesLift;
    var out := Sized(p, d, key, scope);
    var area := SolveWing(p, out.wing).value.projected.area;
    PlanViewIsThePanelForeshortened(p, out.wing);
    MassSurvivesSizing(d, ApplySizing(p, d, key, scope).value);
    UnreadMassHasNoValue(d);
    SizingReachesTheLeastArea(p, d, key, scope, area.si);
    AStallMaximumInScopeCeils(d, r, c, scope);
    var ceilings := CeilingsOver(d.cases, d.requirements, scope);
    var k :| 0 <= k < |ceilings| && ceilings[k] == StallCeiling(c, r);
    assert MeetsCeiling(p, ceilings[k], MassReading(d).value, area);
    InScopeStates(d, r, c, scope);
    SharesOf(r.maximum.si, r.margin);
  }

  lemma InScopeStates(d: Design, r: Requirement, c: DesignCase, scope: CaseScope)
    requires StallMaximumInScope(d, r, c, scope)
    ensures r.maximum.si > 0.0 && 0.0 <= r.margin < 1.0
  {
  }
}
