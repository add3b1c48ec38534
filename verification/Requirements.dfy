/** Requirements judged against the solved design, one check per bound side. */
module Requirements {
  import opened Quantities
  import opened Definition
  import opened Lift
  import opened Planforms
  import opened Wings
  import opened MassBalance
  import opened PowerEquations
  import opened Missions
  import opened Sizing

  datatype RequirementCheck = RequirementCheck(
    name: string,
    caseName: string,
    bound: Quantity,
    actual: Quantity,
    margin: real,
    subject: RequirementSubject,
    direction: BoundDirection,
    priority: Priority,
    status: LimitStatus,
    result: ResultStatus,
    evidence: EvidenceQuality
  )

  /** The case a design-level subject is checked in. */
  const NO_CASE :=
    DesignCase(FlightCase("", "", "", "", LiftCoefficient("", 0.0, ScopeUnknown), UNSET, UNSET, 0.0),
               EvidenceUnstated, PriorityUnknown)

  // ----- Reading a subject --------------------------------------------------

  function Computed(value: Quantity): SubjectReading {
    SubjectReading(value, ResultComputed)
  }

  function ReadingOf(o: Outcome<Quantity>): SubjectReading {
    if o.Ok? then Computed(o.value) else SubjectReading(UNSET, StatusForIssues(o.issues))
  }

  predicate FromPowerModel(subject: RequirementSubject) {
    subject in {SubjectElectricalPower, SubjectMissionEnergy, SubjectMissionDuration, SubjectMissionRange,
                SubjectPropellerClearance}
  }

  /** An incomplete mission's totals understate it, so they are not read. */
  function ReadPowerSubject(p: Platform, d: Design, subject: RequirementSubject): SubjectReading {
    if subject == SubjectPropellerClearance then
      if !d.propulsion.limits.propellerDiameter.Supplied() || !d.propulsion.limits.propellerHubHeight.Supplied()
      then SubjectReading(UNSET, ResultMissing)
      else ReadingOf(PropellerClearance(d.propulsion.limits))
    else
      var m := Analysis(p, d);
      if m.status != ResultComputed then SubjectReading(UNSET, m.status)
      else if !m.complete then SubjectReading(UNSET, ResultMissing)
      else
        match subject
        case SubjectElectricalPower => Computed(m.peakContinuousPower)
        case SubjectMissionEnergy => Computed(m.requiredEnergy)
        case SubjectMissionDuration => Computed(m.totalDuration)
        case SubjectMissionRange => Computed(m.totalDistance)
        case _ => SubjectReading(UNSET, ResultMissing)
  }

  /** The value a subject has in a case. A geometry failure blocks every subject
      that reads the wing; mass, which no geometry feeds, still reads. */
  function ReadSubject(
    p: Platform, d: Design, subject: RequirementSubject, c: DesignCase, solved: Outcome<Wing>): SubjectReading
  {
    var mass := MassReading(d);
    if subject == SubjectMass then mass
    else if FromPowerModel(subject) then ReadPowerSubject(p, d, subject)
    else if solved.Refused? then SubjectReading(UNSET, StatusForIssues(solved.issues))
    else
      var plan := solved.value.projected;
      match subject
      case SubjectSpan => Computed(plan.span)
      case SubjectWingArea => Computed(plan.area)
      case SubjectAspectRatio => Computed(Ratio(solved.value.projectedAspectRatio))
      case SubjectWingLoadingMass =>
        if mass.status != ResultComputed then mass else ReadingOf(WingLoadingMass(mass.value, plan.area))
      case SubjectStallSpeed =>
        if mass.status != ResultComputed then mass else ReadingOf(StallSpeed(p, c.flight, mass.value, plan.area))
      case _ => SubjectReading(UNSET, ResultMissing)
  }

  // ----- Checks -------------------------------------------------------------

  function RelativeMargin(room: real, bound: real): real {
    if bound == 0.0 then 0.0 else room / Abs(bound)
  }

  /** Inside the bound, to the tolerance. */
  predicate Within(direction: BoundDirection, value: real, bound: real) {
    if direction == BoundLower then value >= bound - TOLERANCE * Abs(bound) else value <= bound + TOLERANCE * Abs(bound)
  }

  function BuildCheck(
    r: Requirement, c: DesignCase, reading: SubjectReading, bound: Quantity, direction: BoundDirection): RequirementCheck
  {
    var open := RequirementCheck(r.name, c.flight.name, bound, reading.value, 0.0, r.subject, direction, r.priority,
                                 LimitUnknown, reading.status, c.clmaxEvidence);
    if reading.status != ResultComputed then open
    else
      open.(status := StatusFor(Within(direction, reading.value.si, bound.si)),
            margin := RelativeMargin(
              if direction == BoundLower then reading.value.si - bound.si else bound.si - reading.value.si, bound.si))
  }

  function CheckSide(
    r: Requirement, c: DesignCase, reading: SubjectReading, direction: BoundDirection): seq<RequirementCheck>
  {
    var bound := EffectiveBound(r, direction);
    if bound.Supplied() then [BuildCheck(r, c, reading, bound, direction)] else []
  }

  /** The checks of one requirement in one case: the minimum, then the maximum. */
  function CheckBounds(p: Platform, d: Design, r: Requirement, c: DesignCase, solved: Outcome<Wing>): seq<RequirementCheck> {
    var reading := ReadSubject(p, d, r.subject, c, solved);
    CheckSide(r, c, reading, BoundLower) + CheckSide(r, c, reading, BoundUpper)
  }

  function ChecksInCases(
    p: Platform, d: Design, r: Requirement, cases: seq<DesignCase>, solved: Outcome<Wing>): seq<RequirementCheck>
  {
    if cases == [] then []
    else
      var c := cases[|cases| - 1];
      ChecksInCases(p, d, r, cases[..|cases| - 1], solved)
      + if r.AppliesTo(c.flight.name) then CheckBounds(p, d, r, c, solved) else []
  }

  function ChecksOf(p: Platform, d: Design, r: Requirement, solved: Outcome<Wing>): seq<RequirementCheck> {
    if PerCase(r.subject) then ChecksInCases(p, d, r, d.cases, solved) else CheckBounds(p, d, r, NO_CASE, solved)
  }

  function ChecksOver(
    p: Platform, d: Design, requirements: seq<Requirement>, solved: Outcome<Wing>): seq<RequirementCheck>
  {
    if requirements == [] then []
    else
      ChecksOver(p, d, requirements[..|requirements| - 1], solved)
      + ChecksOf(p, d, requirements[|requirements| - 1], solved)
  }

  function Assessment(p: Platform, d: Design): seq<RequirementCheck> {
    ChecksOver(p, d, d.requirements, SolveWing(p, d.wing))
  }

  /** Every requirement, in requirement order, then case order. */
  method Assess(p: Platform, d: Design) returns (checks: seq<RequirementCheck>)
    ensures checks == Assessment(p, d)
  {
    hide CheckBounds, SolveWing;
    var solved := SolveWing(p, d.wing);
    checks := [];
    for n := 0 to |d.requirements|
      invariant checks == ChecksOver(p, d, d.requirements[..n], solved)
    {
      assert d.requirements[..n + 1][..n] == d.requirements[..n];
      var r := d.requirements[n];
      if PerCase(r.subject) {
        var before := checks;
        for c := 0 to |d.cases|
          invariant checks == before + ChecksInCases(p, d, r, d.cases[..c], solved)
        {
          assert d.cases[..c + 1][..c] == d.cases[..c];
          if r.AppliesTo(d.cases[c].flight.name) {
            checks := checks + CheckBounds(p, d, r, d.cases[c], solved);
          }
        }
        assert d.cases[..|d.cases|] == d.cases;
      } else {
        checks := checks + CheckBounds(p, d, r, NO_CASE, solved);
      }
    }
    assert d.requirements[..|d.requirements|] == d.requirements;
  }

  /** A requirement is judged in a case: the one it names, or none. */
  predicate JudgedIn(d: Design, r: Requirement, c: DesignCase) {
    if PerCase(r.subject) then c in d.cases && r.AppliesTo(c.flight.name) else c == NO_CASE
  }

  /** This check is what one side of one requirement says in one case. */
  ghost predicate IsCheckOf(
    p: Platform, d: Design, r: Requirement, c: DesignCase, direction: BoundDirection, check: RequirementCheck)
  {
    && EffectiveBound(r, direction).Supplied()
    && check == BuildCheck(r, c, ReadSubject(p, d, r.subject, c, SolveWing(p, d.wing)),
                           EffectiveBound(r, direction), direction)
  }

  lemma BoundChecksAre(p: Platform, d: Design, r: Requirement, c: DesignCase, check: RequirementCheck)
    ensures check in CheckBounds(p, d, r, c, SolveWing(p, d.wing))
       <==> exists direction :: IsCheckOf(p, d, r, c, direction, check)
  {
    hide ReadSubject, SolveWing, BuildCheck, EffectiveBound;
    var checks := CheckBounds(p, d, r, c, SolveWing(p, d.wing));
    var reading := ReadSubject(p, d, r.subject, c, SolveWing(p, d.wing));
    assert check in checks <==> check in CheckSide(r, c, reading, BoundLower) || check in CheckSide(r, c, reading, BoundUpper);
    assert check in CheckSide(r, c, reading, BoundLower) <==> IsCheckOf(p, d, r, c, BoundLower, check);
    assert check in CheckSide(r, c, reading, BoundUpper) <==> IsCheckOf(p, d, r, c, BoundUpper, check);
    if direction: BoundDirection :| IsCheckOf(p, d, r, c, direction, check) {
      assert direction == BoundLower || direction == BoundUpper;
    }
  }

  lemma {:induction false} CaseChecksAre(
    p: Platform, d: Design, r: Requirement, cases: seq<DesignCase>, check: RequirementCheck)
    ensures check in ChecksInCases(p, d, r, cases, SolveWing(p, d.wing))
       <==> exists c, direction ::
              c in cases && r.AppliesTo(c.flight.name) && IsCheckOf(p, d, r, c, direction, check)
  {
    hide IsCheckOf, SolveWing, CheckBounds;
    if cases != [] {
      var front, last := cases[..|cases| - 1], cases[|cases| - 1];
      assert cases == front + [last];
      CaseChecksAre(p, d, r, front, check);
      BoundChecksAre(p, d, r, last, check);
    }
  }

  /** A check is reported exactly when it is what a supplied side of one of the
      given requirements says in a case it is judged in. */
  lemma {:induction false} ChecksOverAre(p: Platform, d: Design, requirements: seq<Requirement>, check: RequirementCheck)
    ensures check in ChecksOver(p, d, requirements, SolveWing(p, d.wing))
       <==> exists r, c, direction ::
              r in requirements && JudgedIn(d, r, c) && IsCheckOf(p, d, r, c, direction, check)
  {
    hide IsCheckOf, SolveWing, CheckBounds, ChecksInCases;
    if requirements != [] {
      var front, last := requirements[..|requirements| - 1], requirements[|requirements| - 1];
      assert requirements == front + [last];
      ChecksOverAre(p, d, front, check);
      CaseChecksAre(p, d, last, d.cases, check);
      BoundChecksAre(p, d, last, NO_CASE, check);
    }
  }

  /** A check is met exactly when its subject was computed and lies inside the
      bound to the tolerance, and unknown exactly when it was not computed. */
  lemma CheckStatusMeansItsComparison(
    r: Requirement, c: DesignCase, reading: SubjectReading, bound: Quantity, direction: BoundDirection)
    ensures var status := BuildCheck(r, c, reading, bound, direction).status;
            && (status == LimitMet <==> reading.status == ResultComputed && Within(direction, reading.value.si, bound.si))
            && (status == LimitUnknown <==> reading.status != ResultComputed)
  {
  }

  // ----- One status for the whole set ---------------------------------------

  predicate Required(c: RequirementCheck) {
    c.priority == PriorityRequired
  }

  predicate AnyRequired(checks: seq<RequirementCheck>) {
    exists i :: 0 <= i < |checks| && Required(checks[i])
  }

  predicate AnyRequiredWith(checks: seq<RequirementCheck>, status: LimitStatus) {
    exists i :: 0 <= i < |checks| && Required(checks[i]) && checks[i].status == status
  }

  /** Unmet if any required check is unmet, otherwise unknown if any is unknown,
      otherwise met. An empty required set makes no claim. */
  function Aggregated(checks: seq<RequirementCheck>): (LimitStatus, bool) {
    if !AnyRequired(checks) then (LimitUnknown, false)
    else if AnyRequiredWith(checks, LimitUnmet) then (LimitUnmet, true)
    else if AnyRequiredWith(checks, LimitUnknown) then (LimitUnknown, true)
    else (LimitMet, true)
  }

  function WithPriority(checks: seq<RequirementCheck>, priority: Priority): seq<RequirementCheck> {
    if checks == [] then []
    else
      var last := checks[|checks| - 1];
      WithPriority(checks[..|checks| - 1], priority) + if last.priority == priority then [last] else []
  }

  method FilterByPriority(checks: seq<RequirementCheck>, priority: Priority) returns (kept: seq<RequirementCheck>)
    ensures kept == WithPriority(checks, priority)
  {
    kept := [];
    for n := 0 to |checks|
      invariant kept == WithPriority(checks[..n], priority)
    {
      assert checks[..n + 1][..n] == checks[..n];
      if checks[n].priority == priority {
        kept := kept + [checks[n]];
      }
    }
    assert checks[..|checks|] == checks;
  }

  lemma {:induction false} FilterKeeps(checks: seq<RequirementCheck>, priority: Priority, c: RequirementCheck)
    ensures c in WithPriority(checks, priority) <==> c in checks && c.priority == priority
  {
    if checks != [] {
      FilterKeeps(checks[..|checks| - 1], priority, c);
      assert checks == checks[..|checks| - 1] + [checks[|checks| - 1]];
    }
  }

  method Aggregate(checks: seq<RequirementCheck>) returns (status: LimitStatus, claimed: bool)
    ensures (status, claimed) == Aggregated(checks)
  {
    var required := FilterByPriority(checks, PriorityRequired);
    forall c: RequirementCheck
      ensures c in required <==> c in checks && Required(c)
    {
      FilterKeeps(checks, PriorityRequired, c);
    }
    if required == [] {
      assert forall i :: 0 <= i < |checks| ==> Required(checks[i]) ==> checks[i] in required;
      return LimitUnknown, false;
    }
    assert required[0] in required;
    status := LimitMet;
    for n := 0 to |required|
      invariant status == LimitMet || status == LimitUnknown
      invariant status == LimitUnknown <==> exists i :: 0 <= i < n && required[i].status == LimitUnknown
      invariant forall i :: 0 <= i < n ==> required[i].status != LimitUnmet
    {
      match required[n].status
      case LimitUnmet =>
        assert required[n] in required;
        return LimitUnmet, true;
      case LimitUnknown =>
        status := LimitUnknown;
      case LimitMet =>
    }
    if status == LimitUnknown {
      var i :| 0 <= i < |required| && required[i].status == LimitUnknown;
      assert required[i] in required;
    }
    forall i | 0 <= i < |checks| && Required(checks[i])
      ensures checks[i].status != LimitUnmet && (status == LimitMet ==> checks[i].status != LimitUnknown)
    {
      assert checks[i] in required;
    }
    claimed := true;
  }

  /** The set is met exactly when it is not empty and every required check is. */
  lemma MetExactlyWhenEveryRequiredCheckIs(checks: seq<RequirementCheck>)
    ensures Aggregated(checks) == (LimitMet, true)
       <==> AnyRequired(checks) && forall i :: 0 <= i < |checks| && Required(checks[i]) ==> checks[i].status == LimitMet
  {
  }

  /** The design demands this: a required requirement states this side, and is
      judged in this case. */
  ghost predicate Demands(d: Design, r: Requirement, c: DesignCase, direction: BoundDirection) {
    r in d.requirements && r.priority == PriorityRequired && JudgedIn(d, r, c) && EffectiveBound(r, direction).Supplied()
  }

  ghost predicate SideIsComputed(p: Platform, d: Design, r: Requirement, c: DesignCase) {
    ReadSubject(p, d, r.subject, c, SolveWing(p, d.wing)).status == ResultComputed
  }

  /** The subject's value in the case lies inside the effective bound, to the
      tolerance. */
  ghost predicate SideHolds(p: Platform, d: Design, r: Requirement, c: DesignCase, direction: BoundDirection) {
    && SideIsComputed(p, d, r, c)
    && Within(direction, ReadSubject(p, d, r.subject, c, SolveWing(p, d.wing)).value.si, EffectiveBound(r, direction).si)
  }

  ghost predicate SideFails(p: Platform, d: Design, r: Requirement, c: DesignCase, direction: BoundDirection) {
    SideIsComputed(p, d, r, c) && !SideHolds(p, d, r, c, direction)
  }

  lemma DemandedSideIsChecked(p: Platform, d: Design, r: Requirement, c: DesignCase, direction: BoundDirection)
    returns (i: nat)
    requires Demands(d, r, c, direction)
    ensures i < |Assessment(p, d)| && Required(Assessment(p, d)[i])
    ensures Assessment(p, d)[i].status == LimitMet <==> SideHolds(p, d, r, c, direction)
    ensures Assessment(p, d)[i].status == LimitUnmet <==> SideFails(p, d, r, c, direction)
  {
    hide ReadSubject, SolveWing, ChecksOver, EffectiveBound, Within;
    var reading := ReadSubject(p, d, r.subject, c, SolveWing(p, d.wing));
    var check := BuildCheck(r, c, reading, EffectiveBound(r, direction), direction);
    CheckStatusMeansItsComparison(r, c, reading, EffectiveBound(r, direction), direction);
    assert IsCheckOf(p, d, r, c, direction, check);
    ChecksOverAre(p, d, d.requirements, check);
    i :| 0 <= i < |Assessment(p, d)| && Assessment(p, d)[i] == check;
  }

  lemma RequiredCheckIsDemanded(p: Platform, d: Design, i: nat)
    returns (r: Requirement, c: DesignCase, direction: BoundDirection)
    requires i < |Assessment(p, d)| && Required(Assessment(p, d)[i])
    ensures Demands(d, r, c, direction)
    ensures Assessment(p, d)[i].status == LimitMet <==> SideHolds(p, d, r, c, direction)
    ensures Assessment(p, d)[i].status == LimitUnmet <==> SideFails(p, d, r, c, direction)
  {
    hide ReadSubject, SolveWing, ChecksOver, EffectiveBound, Within, JudgedIn;
    var check := Assessment(p, d)[i];
    ChecksOverAre(p, d, d.requirements, check);
    r, c, direction :| r in d.requirements && JudgedIn(d, r, c) && IsCheckOf(p, d, r, c, direction, check);
    CheckStatusMeansItsComparison(
      r, c, ReadSubject(p, d, r.subject, c, SolveWing(p, d.wing)), EffectiveBound(r, direction), direction);
  }

  /** What the combined status says of the design: it makes a claim exactly when
      something is demanded; it is met exactly when every demanded side was
      computed and lies inside its bound; and unmet exactly when one was computed
      and does not. */
  lemma TheDesignIsMetExactlyWhenEveryDemandHolds(p: Platform, d: Design)
    ensures var (status, claimed) := Aggregated(Assessment(p, d));
            && (claimed <==> exists r, c, direction :: Demands(d, r, c, direction))
            && (status == LimitMet <==>
                  claimed && forall r, c, direction :: Demands(d, r, c, direction) ==> SideHolds(p, d, r, c, direction))
            && (status == LimitUnmet <==>
                  exists r, c, direction :: Demands(d, r, c, direction) && SideFails(p, d, r, c, direction))
  {
    hide Assessment, Demands, SideHolds, SideFails;
    var checks := Assessment(p, d);
    forall r, c, direction | Demands(d, r, c, direction)
      ensures AnyRequired(checks)
      ensures SideFails(p, d, r, c, direction) ==> AnyRequiredWith(checks, LimitUnmet)
      ensures !SideHolds(p, d, r, c, direction) ==>
                AnyRequiredWith(checks, LimitUnmet) || AnyRequiredWith(checks, LimitUnknown)
    {
      var i := DemandedSideIsChecked(p, d, r, c, direction);
    }
    forall i | 0 <= i < |checks| && Required(checks[i])
      ensures exists r, c, direction ::
                && Demands(d, r, c, direction) && (checks[i].status == LimitMet <==> SideHolds(p, d, r, c, direction))
                && (checks[i].status == LimitUnmet <==> SideFails(p, d, r, c, direction))
    {
      var r, c, direction := RequiredCheckIsDemanded(p, d, i);
    }
  }

  /** The combined status sees only which checks there are: order and
      repetition do not matter. */
  lemma AggregateForgetsOrder(a: seq<RequirementCheck>, b: seq<RequirementCheck>)
    requires forall c :: c in a <==> c in b
    ensures Aggregated(a) == Aggregated(b)
  {
    SameRequired(a, b);
    SameRequired(b, a);
  }

  lemma SameRequired(a: seq<RequirementCheck>, b: seq<RequirementCheck>)
    requires forall c :: c in a ==> c in b
    ensures AnyRequired(a) ==> AnyRequired(b)
    ensures forall status :: AnyRequiredWith(a, status) ==> AnyRequiredWith(b, status)
  {
    forall i | 0 <= i < |a|
      ensures exists j :: 0 <= j < |b| && b[j] == a[i]
    {
      assert a[i] in b;
    }
  }

  /** A required stall requirement that names a case is judged in it whatever the
      case's priority, and so counts in the combined status; but it bounds the
      wing area only when the case itself is required. */
  lemma PreferredCasesAreJudgedButDoNotBound(p: Platform, d: Design, r: Requirement, c: DesignCase)
    requires r in d.requirements && c in d.cases && r.AppliesTo(c.flight.name)
    requires r.subject == SubjectStallSpeed && r.priority == PriorityRequired && r.EffectiveMaximum().Supplied()
    ensures exists check :: check in Assessment(p, d) && Required(check) && IsCheckOf(p, d, r, c, BoundUpper, check)
    ensures Aggregated(Assessment(p, d)).1
    ensures StallCeiling(c, r) in CeilingsOver(d.cases, d.requirements, AllRequiredCases) <==> c.priority == PriorityRequired
  {
    hide ReadSubject, SolveWing, ChecksOver, Aggregated;
    var check := BuildCheck(r, c, ReadSubject(p, d, r.subject, c, SolveWing(p, d.wing)), r.EffectiveMaximum(), BoundUpper);
    assert IsCheckOf(p, d, r, c, BoundUpper, check) && JudgedIn(d, r, c);
    ChecksOverAre(p, d, d.requirements, check);
    var i :| 0 <= i < |Assessment(p, d)| && Assessment(p, d)[i] == check;
    AggregateClaims(Assessment(p, d), i);
    CeilingsOverAre(d.cases, d.requirements, AllRequiredCases, StallCeiling(c, r));
  }

  lemma AggregateClaims(checks: seq<RequirementCheck>, i: nat)
    requires i < |checks| && Required(checks[i])
    ensures Aggregated(checks).1
  {
  }
}
