/** One complete assessment of a design. */
module Assessments {
  import opened Quantities
  import opened Definition
  import opened Planforms
  import opened Wings
  import opened MassBalance
  import opened Electrical
  import opened Missions
  import opened Sizing
  import opened Requirements
  import opened Snapshots
  import opened SessionModel
  import opened Lift
  import Sorting

  datatype Assessed = Assessed(
    request: RequestId,
    snapshot: string,
    design: Design,
    checks: seq<RequirementCheck>,
    aggregate: LimitStatus,
    hasRequired: bool,
    conflicts: seq<Conflict>,
    areaLower: Outcome<SizingBound>,
    areaUpper: SizingBound,
    mass: Outcome<MassInterval>,
    massProperties: MassProperties,
    electrical: ElectricalBudget,
    mission: MissionResult,
    geometry: ResultStatus
  )

  function Assess(p: Platform, d: Design): Assessed {
    var checks := Assessment(p, d);
    var (aggregate, claimed) := Aggregated(checks);
    var solved := SolveWing(p, d.wing);
    Assessed(NO_REQUEST, Snapshot(p, d), d, checks, aggregate, claimed, Conflicts(p, d),
             AreaLowerBound(d, AllRequiredCases), AreaUpperBound(d), MassIntervalOf(p, d, AllRequiredCases),
             MassBalance.Balance(d.components), Budget(d.auxiliary), Analysis(p, d),
             if solved.Ok? then ResultComputed else StatusForIssues(solved.issues))
  }

  // ----- Going stale --------------------------------------------------------

  function StaleCheck(c: RequirementCheck): RequirementCheck {
    c.(result := ResultStale, status := LimitUnknown, margin := 0.0)
  }

  function StaleChecks(checks: seq<RequirementCheck>): seq<RequirementCheck> {
    seq(|checks|, i requires 0 <= i < |checks| => StaleCheck(checks[i]))
  }

  function StaleMission(m: MissionResult): MissionResult {
    m.(status := ResultStale, energyStatus := LimitUnknown,
       segments := seq(|m.segments|, i requires 0 <= i < |m.segments| =>
                         m.segments[i].(status := ResultStale, power := m.segments[i].power.(status := ResultStale))))
  }

  /** A copy that claims nothing of the current design. */
  function Stale(e: Assessed): Assessed {
    var checks := StaleChecks(e.checks);
    var (aggregate, claimed) := Aggregated(checks);
    e.(checks := checks, aggregate := aggregate, hasRequired := claimed, geometry := ResultStale,
       massProperties := e.massProperties.(status := ResultStale), electrical := e.electrical.(status := ResultStale),
       mission := StaleMission(e.mission))
  }

  /** Rewrites a copy of the checks, one by one. */
  method MarkStale(checks: seq<RequirementCheck>) returns (stale: seq<RequirementCheck>)
    ensures stale == StaleChecks(checks)
  {
    var copied := new RequirementCheck[|checks|](i requires 0 <= i < |checks| => checks[i]);
    for n := 0 to copied.Length
      invariant forall i :: 0 <= i < n ==> copied[i] == StaleCheck(checks[i])
      invariant forall i :: n <= i < copied.Length ==> copied[i] == checks[i]
    {
      copied[n] := copied[n].(result := ResultStale, status := LimitUnknown, margin := 0.0);
    }
    stale := copied[..];
  }

  /** However good the evaluation was, its stale copy never calls anything met:
      every check and the energy are unknown, and so is the combined status
      wherever a required check existed; the geometry, the balance, the budget, the
      mission and each of its segments are stale. The numbers stay as they were. */
  lemma StaleClaimsNothing(e: Assessed)
    requires (e.aggregate, e.hasRequired) == Aggregated(e.checks)
    ensures Stale(e).hasRequired == e.hasRequired && Stale(e).aggregate == LimitUnknown
    ensures |Stale(e).checks| == |e.checks|
    ensures forall i :: 0 <= i < |e.checks| ==>
              && Stale(e).checks[i].status == LimitUnknown && Stale(e).checks[i].result == ResultStale
              && Stale(e).checks[i].bound == e.checks[i].bound && Stale(e).checks[i].actual == e.checks[i].actual
    ensures Stale(e).geometry == Stale(e).mission.status == ResultStale && Stale(e).mission.energyStatus == LimitUnknown
    ensures Stale(e).massProperties == e.massProperties.(status := ResultStale)
    ensures Stale(e).electrical == e.electrical.(status := ResultStale)
    ensures |Stale(e).mission.segments| == |e.mission.segments|
    ensures forall i :: 0 <= i < |e.mission.segments| ==>
              && Stale(e).mission.segments[i].status == Stale(e).mission.segments[i].power.status == ResultStale
              && Stale(e).mission.segments[i].energy == e.mission.segments[i].energy
  {
    var stale := StaleChecks(e.checks);
    assert forall i :: 0 <= i < |stale| ==> (Required(stale[i]) <==> Required(e.checks[i]));
    if AnyRequired(e.checks) {
      var i :| 0 <= i < |e.checks| && Required(e.checks[i]);
      assert Required(stale[i]) && stale[i].status == LimitUnknown;
    }
  }

  // ----- One design, read one way -------------------------------------------

  predicate IsPowerFigure(m: MissionResult, subject: RequirementSubject, value: Quantity) {
    match subject
    case SubjectElectricalPower => value == m.peakContinuousPower
    case SubjectMissionEnergy => value == m.requiredEnergy
    case SubjectMissionDuration => value == m.totalDuration
    case SubjectMissionRange => value == m.totalDistance
    case _ => true
  }

  /** The parts of an assessment are of one design and agree with one another: the
      claim is of the reported checks, the conflict of the two reported area bounds,
      a mission check reads a figure of the reported mission, whose energy rests on
      the reported auxiliary draw, and a mass taken from the components is the
      reported total. */
  lemma TheAssessmentAgreesWithItself(p: Platform, d: Design)
    ensures var e := Assess(p, d);
            && e.design == d && e.snapshot == Snapshot(p, d) && e.request == NO_REQUEST
            && (e.geometry == ResultComputed <==> SolveWing(p, d.wing).Ok?)
            && (e.hasRequired <==> exists i :: 0 <= i < |e.checks| && e.checks[i].priority == PriorityRequired)
            && (e.aggregate == LimitMet <==>
                  e.hasRequired && forall i :: 0 <= i < |e.checks| && e.checks[i].priority == PriorityRequired ==>
                                                 e.checks[i].status == LimitMet)
            && (e.conflicts != [] <==>
                  && e.areaLower.Ok? && e.areaLower.value.known && e.areaUpper.known
                  && e.areaLower.value.value.si > e.areaUpper.value.si * (1.0 + TOLERANCE))
            && (d.massMode == MassModeComponents && e.massProperties.status == ResultComputed && e.massProperties.complete ==>
                  MassReading(d) == SubjectReading(e.massProperties.total, ResultComputed))
            && e.mass == MassIntervalOf(p, d, AllRequiredCases)
  {
    hide Assessment, Snapshot, Analysis, MassBalance.Balance, SolveWing, AreaLowerBound, AreaUpperBound, MassIntervalOf,
      AreaAlternatives, Budget, Sorting.SortByName;
    MetExactlyWhenEveryRequiredCheckIs(Assessment(p, d));
    AggregateIsClaimed(Assessment(p, d));
  }

  lemma AggregateIsClaimed(checks: seq<RequirementCheck>)
    ensures Aggregated(checks).1 <==> AnyRequired(checks)
    ensures Aggregated(checks).0 == LimitMet ==> Aggregated(checks).1
  {
  }

  lemma TheMissionIsOfTheBudget(p: Platform, d: Design)
    ensures var e := Assess(p, d);
            AnyComputed(e.mission.segments) ==>
              e.mission.requiredEnergy.si
              == PropulsiveEnergy(e.mission.segments) + e.electrical.continuous.si * e.mission.totalDuration.si
  {
    hide Assessment, Snapshot, Analysis, MassBalance.Balance, SolveWing, AreaLowerBound, AreaUpperBound, MassIntervalOf,
      Conflicts, Budget, Aggregated;
    if AnyComputed(Analysis(p, d).segments) {
      MissionConservesEnergy(p, d);
    }
  }

  lemma MissionChecksAreOfTheMission(p: Platform, d: Design, check: RequirementCheck)
    requires check in Assess(p, d).checks && check.result == ResultComputed
    ensures IsPowerFigure(Assess(p, d).mission, check.subject, check.actual)
  {
    hide Snapshot, Analysis, MassBalance.Balance, SolveWing, AreaLowerBound, AreaUpperBound, MassIntervalOf,
      Conflicts, Budget, Aggregated, ChecksOver, JudgedIn, MassReading;
    ChecksOverAre(p, d, d.requirements, check);
    var r, c, direction :| r in d.requirements && JudgedIn(d, r, c) && IsCheckOf(p, d, r, c, direction, check);
    CheckReads(p, d, r, c, direction, check);
    PowerSubjectsReadTheMission(p, d, check.subject, c);
  }

  lemma CheckReads(
    p: Platform, d: Design, r: Requirement, c: DesignCase, direction: BoundDirection, check: RequirementCheck)
    requires IsCheckOf(p, d, r, c, direction, check)
    ensures check.subject == r.subject
    ensures SubjectReading(check.actual, check.result) == ReadSubject(p, d, r.subject, c, SolveWing(p, d.wing))
  {
    hide ReadSubject, SolveWing, EffectiveBound;
  }

  lemma PowerSubjectsReadTheMission(p: Platform, d: Design, subject: RequirementSubject, c: DesignCase)
    ensures var r := ReadSubject(p, d, subject, c, SolveWing(p, d.wing));
            r.status == ResultComputed ==> IsPowerFigure(Analysis(p, d), subject, r.value)
  {
    hide Analysis, SolveWing, MassReading, StallSpeed, WingLoadingMass;
  }
}
