/** Intersected sizing bounds and the conflicts between them. */
module Sizing {
  import opened Quantities
  import opened Definition
  import opened Reals
  import opened Roots
  import opened Lift
  import opened Planforms
  import opened Wings
  import opened MassBalance
  import Sorting

  datatype BoundDirection = BoundLower | BoundUpper

  datatype CaseScope = ScopeUnstated | AllRequiredCases | SingleCase(name: string) {
    predicate Covers(priority: Priority, caseName: string) {
      if SingleCase? then caseName == name else priority == PriorityRequired
    }
  }

  datatype BoundContribution = BoundContribution(source: string, value: Quantity, known: bool)

  datatype SizingBound = SizingBound(
    contributions: seq<BoundContribution>,
    controlling: seq<string>,
    value: Quantity,
    subject: RequirementSubject,
    direction: BoundDirection,
    partial: bool,
    known: bool
  )

  function EmptyBound(subject: RequirementSubject, direction: BoundDirection): SizingBound {
    SizingBound([], [], UNSET, subject, direction, false, false)
  }

  /** The dimension a bound on a subject carries. */
  function SubjectDimension(subject: RequirementSubject): Dimension {
    match subject
    case SubjectStallSpeed => DimSpeed
    case SubjectWingArea => DimArea
    case SubjectSpan => DimLength
    case SubjectMass => DimMass
    case SubjectWingLoadingMass => DimMassPerArea
    case SubjectElectricalPower => DimPower
    case SubjectMissionEnergy => DimEnergy
    case SubjectMissionDuration => DimTime
    case SubjectMissionRange => DimLength
    case SubjectPropellerClearance => DimLength
    case SubjectAspectRatio => Dimensionless
    case SubjectUnknown => Dimensionless
  }

  // ----- Intersection -------------------------------------------------------

  predicate Better(direction: BoundDirection, candidate: real, current: real) {
    if direction == BoundLower then candidate > current else candidate < current
  }

  /** The tightest known contribution. */
  function Best(cs: seq<BoundContribution>, direction: BoundDirection): Option<real> {
    if cs == [] then None
    else
      var best, c := Best(cs[..|cs| - 1], direction), cs[|cs| - 1];
      if !c.known then best
      else if best.None? || Better(direction, c.value.si, best.value) then Some(c.value.si)
      else best
  }

  predicate Tied(c: BoundContribution, best: real) {
    c.known && Abs(c.value.si - best) <= TOLERANCE * Abs(best)
  }

  /** The sources tied at the bound, in contribution order. */
  function Controllers(cs: seq<BoundContribution>, best: real): seq<string> {
    if cs == [] then []
    else
      var c := cs[|cs| - 1];
      Controllers(cs[..|cs| - 1], best) + if Tied(c, best) then [c.source] else []
  }

  predicate AllKnownIn(cs: seq<BoundContribution>) {
    forall i :: 0 <= i < |cs| ==> cs[i].known
  }

  /** A bound reduced to its tightest contribution. An unknown contribution
      leaves it partial for good. */
  function Intersected(b: SizingBound): SizingBound {
    var partial := b.partial || !AllKnownIn(b.contributions);
    match Best(b.contributions, b.direction)
    case None => b.(partial := partial, known := false)
    case Some(best) =>
      b.(partial := partial, known := true, value := Quantity(best, SubjectDimension(b.subject)),
         controlling := b.controlling + Controllers(b.contributions, best))
  }

  method Intersect(b: SizingBound) returns (r: SizingBound)
    ensures r == Intersected(b)
  {
    var cs := b.contributions;
    var best: Option<real> := None;
    r := b;
    for n := 0 to |cs|
      invariant best == Best(cs[..n], b.direction)
      invariant r == b.(partial := b.partial || !AllKnownIn(cs[..n]))
    {
      assert cs[..n + 1][..n] == cs[..n];
      if !cs[n].known {
        r := r.(partial := true);
        assert !cs[..n + 1][n].known;
      } else if best.None? || Better(b.direction, cs[n].value.si, best.value) {
        best := Some(cs[n].value.si);
      }
    }
    assert cs[..|cs|] == cs;
    if best.None? {
      return r.(known := false);
    }
    r := r.(known := true, value := Quantity(best.value, SubjectDimension(b.subject)));
    var controlling := b.controlling;
    for n := 0 to |cs|
      invariant controlling == b.controlling + Controllers(cs[..n], best.value)
    {
      assert cs[..n + 1][..n] == cs[..n];
      if Tied(cs[n], best.value) {
        controlling := controlling + [cs[n].source];
      }
    }
    r := r.(controlling := controlling);
  }

  /** The reduced value is attained by a known contribution, and no known
      contribution is tighter. */
  lemma {:induction false} BestIsTheExtreme(cs: seq<BoundContribution>, direction: BoundDirection)
    ensures Best(cs, direction).None? <==> forall i :: 0 <= i < |cs| ==> !cs[i].known
    ensures Best(cs, direction).Some? ==>
              && (exists i :: 0 <= i < |cs| && cs[i].known && cs[i].value.si == Best(cs, direction).value)
              && (forall i :: 0 <= i < |cs| && cs[i].known ==> !Better(direction, cs[i].value.si, Best(cs, direction).value))
  {
    if cs != [] {
      var front, last := cs[..|cs| - 1], cs[|cs| - 1];
      BestIsTheExtreme(front, direction);
      assert forall i :: 0 <= i < |front| ==> front[i] == cs[i];
      if Best(front, direction).Some? {
        var k :| 0 <= k < |front| && front[k].known && front[k].value.si == Best(front, direction).value;
        assert cs[k].known;
      }
    }
  }

  /** The controlling sources are exactly those of the tied contributions. */
  lemma {:induction false} ControllersAreTheTiedSources(cs: seq<BoundContribution>, best: real, source: string)
    ensures source in Controllers(cs, best)
       <==> exists i :: 0 <= i < |cs| && Tied(cs[i], best) && cs[i].source == source
  {
    if cs != [] {
      var front, last := cs[..|cs| - 1], cs[|cs| - 1];
      ControllersAreTheTiedSources(front, best, source);
      assert forall i :: 0 <= i < |front| ==> front[i] == cs[i];
      if exists i :: 0 <= i < |cs| && Tied(cs[i], best) && cs[i].source == source {
        var i :| 0 <= i < |cs| && Tied(cs[i], best) && cs[i].source == source;
        assert i == |front| || Tied(front[i], best);
      }
    }
  }

  /** Intersecting, appending and intersecting again is one intersection of the
      whole list, and a partial bound stays partial. */
  lemma ReintersectingIsOneIntersection(b: SizingBound, extra: seq<BoundContribution>)
    requires b.controlling == [] && !b.partial && !b.known && b.value == UNSET
    ensures Intersected(Intersected(b).(contributions := b.contributions + extra, controlling := []))
         == Intersected(b.(contributions := b.contributions + extra))
  {
    var whole := b.contributions + extra;
    assert AllKnownIn(whole) ==> AllKnownIn(b.contributions) by {
      if AllKnownIn(whole) {
        forall i | 0 <= i < |b.contributions|
          ensures b.contributions[i].known
        {
          assert whole[i].known;
        }
      }
    }
    if Best(b.contributions, b.direction).Some? {
      BestIsTheExtreme(b.contributions, b.direction);
      BestIsTheExtreme(whole, b.direction);
      var i :| 0 <= i < |b.contributions| && b.contributions[i].known;
      assert whole[i].known;
    }
  }

  // ----- Stall ceilings in scope --------------------------------------------

  datatype StallCeiling = StallCeiling(flown: DesignCase, requirement: Requirement) {
    function Limit(): Quantity {
      requirement.EffectiveMaximum()
    }
  }

  /** A stall-speed ceiling that counts in this scope. A preferred requirement
      counts only for one named case. */
  predicate Ceils(r: Requirement, c: DesignCase, scope: CaseScope) {
    && r.subject == SubjectStallSpeed && r.AppliesTo(c.flight.name)
    && (scope == AllRequiredCases ==> r.priority == PriorityRequired)
    && r.EffectiveMaximum().Supplied()
  }

  function CeilingsInCase(c: DesignCase, requirements: seq<Requirement>, scope: CaseScope): seq<StallCeiling> {
    if requirements == [] then []
    else
      var r := requirements[|requirements| - 1];
      CeilingsInCase(c, requirements[..|requirements| - 1], scope)
      + if Ceils(r, c, scope) then [StallCeiling(c, r)] else []
  }

  function CeilingsOver(cases: seq<DesignCase>, requirements: seq<Requirement>, scope: CaseScope): seq<StallCeiling> {
    if cases == [] then []
    else
      var c := cases[|cases| - 1];
      CeilingsOver(cases[..|cases| - 1], requirements, scope)
      + if scope.Covers(c.priority, c.flight.name) then CeilingsInCase(c, requirements, scope) else []
  }

  function ScopeIssues(d: Design, scope: CaseScope): Issues {
    match scope
    case AllRequiredCases => []
    case SingleCase(name) => if Lookup(d.cases, CaseName, name).Some? then [] else [IssueMissing]
    case ScopeUnstated => [IssueMissing]
  }

  function StallCeilings(d: Design, scope: CaseScope): Outcome<seq<StallCeiling>> {
    if ScopeIssues(d, scope) != [] then Refused(ScopeIssues(d, scope))
    else Ok(CeilingsOver(d.cases, d.requirements, scope))
  }

  method FindStallCeilings(d: Design, scope: CaseScope) returns (r: Outcome<seq<StallCeiling>>)
    ensures r == StallCeilings(d, scope)
  {
    if ScopeIssues(d, scope) != [] {
      return Refused(ScopeIssues(d, scope));
    }
    var found: seq<StallCeiling> := [];
    for c := 0 to |d.cases|
      invariant found == CeilingsOver(d.cases[..c], d.requirements, scope)
    {
      assert d.cases[..c + 1][..c] == d.cases[..c];
      var flown := d.cases[c];
      if scope.Covers(flown.priority, flown.flight.name) {
        var before := found;
        for n := 0 to |d.requirements|
          invariant found == before + CeilingsInCase(flown, d.requirements[..n], scope)
        {
          assert d.requirements[..n + 1][..n] == d.requirements[..n];
          if Ceils(d.requirements[n], flown, scope) {
            found := found + [StallCeiling(flown, d.requirements[n])];
          }
        }
        assert d.requirements[..|d.requirements|] == d.requirements;
      }
    }
    assert d.cases[..|d.cases|] == d.cases;
    r := Ok(found);
  }

  lemma {:induction false} CeilingsInCaseAre(c: DesignCase, requirements: seq<Requirement>, scope: CaseScope, x: StallCeiling)
    ensures x in CeilingsInCase(c, requirements, scope)
       <==> x.flown == c && x.requirement in requirements && Ceils(x.requirement, c, scope)
  {
    if requirements != [] {
      CeilingsInCaseAre(c, requirements[..|requirements| - 1], scope, x);
      assert requirements == requirements[..|requirements| - 1] + [requirements[|requirements| - 1]];
    }
  }

  /** A ceiling is found exactly when its case is covered, its requirement is
      the design's, and the requirement counts in that case. */
  lemma {:induction false} CeilingsOverAre(
    cases: seq<DesignCase>, requirements: seq<Requirement>, scope: CaseScope, x: StallCeiling)
    ensures x in CeilingsOver(cases, requirements, scope)
       <==> && x.flown in cases && scope.Covers(x.flown.priority, x.flown.flight.name)
            && x.requirement in requirements && Ceils(x.requirement, x.flown, scope)
  {
    if cases != [] {
      var last := cases[|cases| - 1];
      CeilingsOverAre(cases[..|cases| - 1], requirements, scope, x);
      CeilingsInCaseAre(last, requirements, scope, x);
      assert cases == cases[..|cases| - 1] + [last];
    }
  }

  // ----- Bounds -------------------------------------------------------------

  /** A failed evaluation is kept as an unknown contribution. */
  function Contribute(source: string, r: Outcome<Quantity>): BoundContribution {
    if r.Ok? then BoundContribution(source, r.value, true) else BoundContribution(source, UNSET, false)
  }

  function MinimumAreaOf(c: StallCeiling, mass: Quantity): Outcome<Quantity> {
    MinimumWingArea(c.flown.flight, mass, c.Limit())
  }

  function MaximumMassOf(c: StallCeiling, area: Quantity): Outcome<Quantity> {
    MaximumMass(c.flown.flight, area, c.Limit())
  }

  function AreaContributions(ceilings: seq<StallCeiling>, mass: Quantity): seq<BoundContribution> {
    seq(|ceilings|, i requires 0 <= i < |ceilings| =>
      Contribute(ceilings[i].flown.flight.name, MinimumAreaOf(ceilings[i], mass)))
  }

  function MassContributions(ceilings: seq<StallCeiling>, area: Quantity): seq<BoundContribution> {
    seq(|ceilings|, i requires 0 <= i < |ceilings| =>
      Contribute(ceilings[i].flown.flight.name, MaximumMassOf(ceilings[i], area)))
  }

  /** The smallest area each applicable case demands, intersected. */
  function AreaLowerBound(d: Design, scope: CaseScope): Outcome<SizingBound> {
    var ceilings :- StallCeilings(d, scope);
    Ok(Intersected(EmptyBound(SubjectWingArea, BoundLower).(
      contributions := AreaContributions(ceilings, MassReading(d).value))))
  }

  /** The largest mass each applicable case allows at the solved area. Without a
      solved wing nothing is intersected. */
  function MassUpperBound(p: Platform, d: Design, scope: CaseScope): Outcome<SizingBound> {
    var ceilings :- StallCeilings(d, scope);
    var bound := EmptyBound(SubjectMass, BoundUpper);
    match SolveWing(p, d.wing)
    case Refused(_) => Ok(bound.(partial := |ceilings| > 0))
    case Ok(w) => Ok(Intersected(bound.(contributions := MassContributions(ceilings, w.projected.area))))
  }

  /** A stated side, tightened by the margin. */
  function EffectiveBound(r: Requirement, direction: BoundDirection): Quantity {
    if direction == BoundLower then r.EffectiveMinimum() else r.EffectiveMaximum()
  }

  /** This requirement states the bound. */
  predicate States(r: Requirement, subject: RequirementSubject, direction: BoundDirection) {
    r.priority == PriorityRequired && r.subject == subject && EffectiveBound(r, direction).Supplied()
  }

  /** The first required bound of the direction on the subject. */
  function RequiredBound(
    requirements: seq<Requirement>, subject: RequirementSubject, direction: BoundDirection): Option<(string, Quantity)>
  {
    if requirements == [] then None
    else
      var r := requirements[0];
      if States(r, subject, direction) then Some((r.name, EffectiveBound(r, direction)))
      else RequiredBound(requirements[1..], subject, direction)
  }

  ghost predicate FirstStatement(
    requirements: seq<Requirement>, subject: RequirementSubject, direction: BoundDirection, k: nat)
  {
    && k < |requirements| && States(requirements[k], subject, direction)
    && forall i :: 0 <= i < k ==> !States(requirements[i], subject, direction)
  }

  ghost predicate ReadsTheFirst(requirements: seq<Requirement>, subject: RequirementSubject, direction: BoundDirection) {
    match RequiredBound(requirements, subject, direction)
    case None => forall i :: 0 <= i < |requirements| ==> !States(requirements[i], subject, direction)
    case Some(read) =>
      exists k: nat :: FirstStatement(requirements, subject, direction, k)
                       && read == (requirements[k].name, EffectiveBound(requirements[k], direction))
  }

  /** The bound read is the first one stated. */
  lemma {:induction false} TheFirstStatementIsRead(
    requirements: seq<Requirement>, subject: RequirementSubject, direction: BoundDirection)
    ensures ReadsTheFirst(requirements, subject, direction)
  {
    hide EffectiveBound, States, RequiredBound;
    NothingIsStated(subject, direction);
    if requirements != [] {
      var rest := requirements[1..];
      TheFirstStatementIsRead(rest, subject, direction);
      assert forall i :: 0 < i < |requirements| ==> requirements[i] == rest[i - 1];
      HeadIsRead(requirements, subject, direction);
      if States(requirements[0], subject, direction) {
        assert FirstStatement(requirements, subject, direction, 0);
      } else if RequiredBound(rest, subject, direction).Some? {
        var k: nat :| FirstStatement(rest, subject, direction, k)
                      && RequiredBound(rest, subject, direction)
                         == Some((rest[k].name, EffectiveBound(rest[k], direction)));
        assert FirstStatement(requirements, subject, direction, k + 1);
      }
    }
  }

  lemma NothingIsStated(subject: RequirementSubject, direction: BoundDirection)
    ensures RequiredBound([], subject, direction).None?
  {
  }

  lemma HeadIsRead(requirements: seq<Requirement>, subject: RequirementSubject, direction: BoundDirection)
    requires requirements != []
    ensures RequiredBound(requirements, subject, direction)
         == if States(requirements[0], subject, direction)
            then Some((requirements[0].name, EffectiveBound(requirements[0], direction)))
            else RequiredBound(requirements[1..], subject, direction)
  {
  }

  /** A required maximum on the subject. */
  predicate Caps(r: Requirement, subject: RequirementSubject) {
    r.priority == PriorityRequired && r.subject == subject && r.EffectiveMaximum().Supplied()
  }

  function MaximumContributions(requirements: seq<Requirement>, subject: RequirementSubject): seq<BoundContribution> {
    if requirements == [] then []
    else
      var r := requirements[|requirements| - 1];
      MaximumContributions(requirements[..|requirements| - 1], subject)
      + if Caps(r, subject) then [BoundContribution(r.name, r.EffectiveMaximum(), true)] else []
  }

  lemma {:induction false} MaximaAre(requirements: seq<Requirement>, subject: RequirementSubject, c: BoundContribution)
    ensures c in MaximumContributions(requirements, subject)
       <==> exists r :: r in requirements && Caps(r, subject) && c == BoundContribution(r.name, r.EffectiveMaximum(), true)
  {
    hide Caps;
    if requirements != [] {
      var front, last := requirements[..|requirements| - 1], requirements[|requirements| - 1];
      assert requirements == front + [last];
      MaximaAre(front, subject, c);
    }
  }

  /** The pair of limits that together bound the area: a span maximum and a
      positive aspect-ratio minimum. */
  function SpanAndAspect(d: Design): Option<(Quantity, Quantity)> {
    var span := RequiredBound(d.requirements, SubjectSpan, BoundUpper);
    var aspect := RequiredBound(d.requirements, SubjectAspectRatio, BoundLower);
    if span.Some? && aspect.Some? && aspect.value.1.si > 0.0 then Some((span.value.1, aspect.value.1)) else None
  }

  function PairContribution(d: Design): seq<BoundContribution> {
    var span := RequiredBound(d.requirements, SubjectSpan, BoundUpper);
    var aspect := RequiredBound(d.requirements, SubjectAspectRatio, BoundLower);
    match SpanAndAspect(d)
    case None => []
    case Some((b, a)) =>
      [BoundContribution(span.value.0 + " with " + aspect.value.0, Quantity(Square(b.si) / a.si, DimArea), true)]
  }

  /** The required upper bounds on the area: stated maxima, and S <= b^2/A from
      a span maximum with an aspect-ratio minimum. */
  function AreaUpperBound(d: Design): SizingBound {
    Intersected(EmptyBound(SubjectWingArea, BoundUpper).(
      contributions := MaximumContributions(d.requirements, SubjectWingArea) + PairContribution(d)))
  }

  method ComputeAreaLowerBound(d: Design, scope: CaseScope) returns (r: Outcome<SizingBound>)
    ensures r == AreaLowerBound(d, scope)
  {
    hide Intersected, MassReading, MinimumAreaOf, CeilingsOver, ScopeIssues;
    var ceilings := FindStallCeilings(d, scope);
    if ceilings.Refused? {
      return Refused(ceilings.issues);
    }
    var bound := EmptyBound(SubjectWingArea, BoundLower);
    var mass := MassReading(d).value;
    for n := 0 to |ceilings.value|
      invariant bound == EmptyBound(SubjectWingArea, BoundLower).(
                           contributions := AreaContributions(ceilings.value[..n], mass))
    {
      var c := ceilings.value[n];
      bound := bound.(contributions := bound.contributions + [Contribute(c.flown.flight.name, MinimumAreaOf(c, mass))]);
    }
    assert ceilings.value[..|ceilings.value|] == ceilings.value;
    bound := Intersect(bound);
    r := Ok(bound);
  }

  method ComputeAreaUpperBound(d: Design) returns (bound: SizingBound)
    ensures bound == AreaUpperBound(d)
  {
    bound := EmptyBound(SubjectWingArea, BoundUpper);
    for n := 0 to |d.requirements|
      invariant bound == EmptyBound(SubjectWingArea, BoundUpper).(
                           contributions := MaximumContributions(d.requirements[..n], SubjectWingArea))
    {
      assert d.requirements[..n + 1][..n] == d.requirements[..n];
      var r := d.requirements[n];
      if Caps(r, SubjectWingArea) {
        bound := bound.(contributions := bound.contributions + [BoundContribution(r.name, r.EffectiveMaximum(), true)]);
      }
    }
    assert d.requirements[..|d.requirements|] == d.requirements;
    bound := bound.(contributions := bound.contributions + PairContribution(d));
    bound := Intersect(bound);
  }

  // ----- The feasible mass interval -----------------------------------------

  datatype MassInterval = MassInterval(lower: SizingBound, upper: SizingBound, complete: bool, empty: bool)

  /** A loading minimum at the solved area implies a mass. */
  function LoadingContribution(r: Requirement, solved: Outcome<Wing>): BoundContribution {
    match solved
    case Refused(_) => BoundContribution(r.name, UNSET, false)
    case Ok(w) => BoundContribution(r.name, Quantity(r.EffectiveMinimum().si * w.projected.area.si, DimMass), true)
  }

  function MassFloor(r: Requirement, solved: Outcome<Wing>): seq<BoundContribution> {
    if r.priority != PriorityRequired || !r.EffectiveMinimum().Supplied() then []
    else if r.subject == SubjectMass then [BoundContribution(r.name, r.EffectiveMinimum(), true)]
    else if r.subject == SubjectWingLoadingMass then [LoadingContribution(r, solved)]
    else []
  }

  function MassFloors(requirements: seq<Requirement>, solved: Outcome<Wing>): seq<BoundContribution> {
    if requirements == [] then []
    else
      MassFloors(requirements[..|requirements| - 1], solved) + MassFloor(requirements[|requirements| - 1], solved)
  }

  function NewMassInterval(lower: SizingBound, upper: SizingBound): MassInterval {
    var complete := lower.known && upper.known;
    MassInterval(lower, upper, complete, complete && lower.value.si > upper.value.si * (1.0 + TOLERANCE))
  }

  function MassIntervalOf(p: Platform, d: Design, scope: CaseScope): Outcome<MassInterval> {
    var upper :- MassUpperBound(p, d, scope);
    var caps := MaximumContributions(d.requirements, SubjectMass);
    Ok(NewMassInterval(
      Intersected(EmptyBound(SubjectMass, BoundLower).(
        contributions := MassFloors(d.requirements, SolveWing(p, d.wing)))),
      Intersected(upper.(contributions := upper.contributions + caps, controlling := []))))
  }

  /** Records the lower bound one required requirement makes, if it makes one. */
  method AddMassLowerContribution(lower: SizingBound, r: Requirement, solved: Outcome<Wing>) returns (more: SizingBound)
    ensures more == lower.(contributions := lower.contributions + MassFloor(r, solved))
  {
    more := lower;
    assert lower.contributions + [] == lower.contributions;
    if r.priority == PriorityRequired && r.EffectiveMinimum().Supplied() {
      match r.subject
      case SubjectMass =>
        more := lower.(contributions := lower.contributions + [BoundContribution(r.name, r.EffectiveMinimum(), true)]);
      case SubjectWingLoadingMass =>
        more := lower.(contributions := lower.contributions + [LoadingContribution(r, solved)]);
      case _ =>
    }
  }

  method ComputeMassInterval(p: Platform, d: Design, scope: CaseScope) returns (r: Outcome<MassInterval>)
    ensures r == MassIntervalOf(p, d, scope)
  {
    hide SolveWing, MassUpperBound, Intersected, MassFloor;
    var ceiled := MassUpperBound(p, d, scope);
    if ceiled.Refused? {
      return Refused(ceiled.issues);
    }
    var solved := SolveWing(p, d.wing);
    var upper := ceiled.value;
    var lower := EmptyBound(SubjectMass, BoundLower);
    for n := 0 to |d.requirements|
      invariant lower == EmptyBound(SubjectMass, BoundLower).(contributions := MassFloors(d.requirements[..n], solved))
      invariant upper == ceiled.value.(contributions :=
                           ceiled.value.contributions + MaximumContributions(d.requirements[..n], SubjectMass))
    {
      assert d.requirements[..n + 1][..n] == d.requirements[..n];
      var q := d.requirements[n];
      lower := AddMassLowerContribution(lower, q, solved);
      if Caps(q, SubjectMass) {
        upper := upper.(contributions := upper.contributions + [BoundContribution(q.name, q.EffectiveMaximum(), true)]);
      }
    }
    assert d.requirements[..|d.requirements|] == d.requirements;
    upper := Intersect(upper.(controlling := []));
    lower := Intersect(lower);
    r := Ok(NewMassInterval(lower, upper));
  }

  // ----- Conflicts ----------------------------------------------------------

  /** A change that would resolve a conflict, offered and not applied. */
  datatype Alternative = GrowSpan(span: Quantity) | ReduceMass(mass: Quantity)

  datatype Conflict = Conflict(group: seq<string>, alternatives: seq<Alternative>)

  /** The span that carries the area at the aspect ratio. */
  function SpanCarrying(p: Platform, aspect: real, area: real): real {
    p.sqrt(aspect * area)
  }

  function AreaAlternatives(p: Platform, d: Design, lower: SizingBound): seq<Alternative> {
    var aspect := RequiredBound(d.requirements, SubjectAspectRatio, BoundLower);
    var ceiling := MassUpperBound(p, d, AllRequiredCases);
    (if aspect.Some? then [GrowSpan(Quantity(SpanCarrying(p, aspect.value.1.si, lower.value.si), DimLength))] else [])
    + (if ceiling.Ok? && ceiling.value.known then [ReduceMass(ceiling.value.value)] else [])
  }

  /** The one detected group: a required lower bound on the area above a
      required upper bound on it. */
  function Conflicts(p: Platform, d: Design): seq<Conflict> {
    match AreaLowerBound(d, AllRequiredCases)
    case Refused(_) => []
    case Ok(lower) =>
      var upper := AreaUpperBound(d);
      if !lower.known || !upper.known || lower.value.si <= upper.value.si * (1.0 + TOLERANCE) then []
      else
        [Conflict(Sorting.SortByName(lower.controlling + upper.controlling, Sorting.Itself), AreaAlternatives(p, d, lower))]
  }
}
