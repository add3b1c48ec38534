/** What the intersected bounds and the reported conflicts mean: statements
    about every wing and every mass, not about the numbers compared. */
module Feasibility {
  import opened Quantities
  import opened Definition
  import opened Reals
  import opened Roots
  import opened Lift
  import opened Planforms
  import opened Wings
  import opened MassBalance
  import opened Sizing

  // ----- Bounds read as quantifications -------------------------------------

  /** Clearing the tightest contribution is clearing them all. */
  lemma BestClears(cs: seq<BoundContribution>, direction: BoundDirection, x: real)
    requires Best(cs, direction).Some?
    ensures direction == BoundLower ==>
              (Best(cs, direction).value <= x <==> forall i :: 0 <= i < |cs| && cs[i].known ==> cs[i].value.si <= x)
    ensures direction == BoundUpper ==>
              (x <= Best(cs, direction).value <==> forall i :: 0 <= i < |cs| && cs[i].known ==> x <= cs[i].value.si)
  {
    BestIsTheExtreme(cs, direction);
  }

  lemma {:induction false} MaximumContributionsAre(requirements: seq<Requirement>, subject: RequirementSubject, x: real)
    ensures var cs := MaximumContributions(requirements, subject);
            && AllKnownIn(cs)
            && ((forall i :: 0 <= i < |cs| ==> x <= cs[i].value.si)
                <==> forall i :: 0 <= i < |requirements| && Caps(requirements[i], subject) ==>
                       x <= requirements[i].EffectiveMaximum().si)
  {
    if requirements != [] {
      var front, last := requirements[..|requirements| - 1], requirements[|requirements| - 1];
      MaximumContributionsAre(front, subject, x);
      var before, cs := MaximumContributions(front, subject), MaximumContributions(requirements, subject);
      assert forall i :: 0 <= i < |front| ==> front[i] == requirements[i];
      assert forall i :: 0 <= i < |before| ==> before[i] == cs[i];
      if Caps(last, subject) {
        assert cs == before + [BoundContribution(last.name, last.EffectiveMaximum(), true)];
        assert cs[|before|].value == last.EffectiveMaximum();
      } else {
        assert cs == before;
      }
    }
  }

  lemma SplitClears(a: seq<BoundContribution>, b: seq<BoundContribution>, x: real)
    requires AllKnownIn(a) && AllKnownIn(b)
    ensures (forall i :: 0 <= i < |a + b| && (a + b)[i].known ==> x <= (a + b)[i].value.si)
       <==> (forall i :: 0 <= i < |a| ==> x <= a[i].value.si) && (forall i :: 0 <= i < |b| ==> x <= b[i].value.si)
  {
    var cs := a + b;
    assert forall i :: 0 <= i < |a| ==> cs[i] == a[i];
    assert forall i :: 0 <= i < |b| ==> cs[|a| + i] == b[i];
    if forall i :: 0 <= i < |cs| && cs[i].known ==> x <= cs[i].value.si {
      forall i | 0 <= i < |a|
        ensures x <= a[i].value.si
      {
        assert cs[i].known;
      }
      forall i | 0 <= i < |b|
        ensures x <= b[i].value.si
      {
        assert cs[|a| + i].known;
      }
    }
  }

  // ----- One wing meeting the required area limits --------------------------

  /** The aircraft stalls no faster than the ceiling allows. */
  predicate MeetsCeiling(p: Platform, c: StallCeiling, mass: Quantity, area: Quantity) {
    var v := StallSpeed(p, c.flown.flight, mass, area);
    v.Ok? && v.value.si <= c.Limit().si
  }

  /** Every ceiling whose area demand could be evaluated is met. */
  predicate AllMet(p: Platform, ceilings: seq<StallCeiling>, mass: Quantity, area: Quantity) {
    forall i :: 0 <= i < |ceilings| && MinimumAreaOf(ceilings[i], mass).Ok? ==> MeetsCeiling(p, ceilings[i], mass, area)
  }

  predicate MeetsCeilings(p: Platform, d: Design, mass: Quantity, area: Quantity) {
    AllMet(p, CeilingsOver(d.cases, d.requirements, AllRequiredCases), mass, area)
  }

  predicate WithinAreaMaxima(d: Design, s: real) {
    forall i :: 0 <= i < |d.requirements| && Caps(d.requirements[i], SubjectWingArea) ==>
                  s <= d.requirements[i].EffectiveMaximum().si
  }

  /** The aspect ratio b^2/S. */
  function AspectOf(b: real, s: real): real
    requires s > 0.0
  {
    Square(b) / s
  }

  /** The span maximum and the aspect-ratio minimum that the area bound pairs. */
  predicate WithinPair(d: Design, b: real, s: real)
    requires s > 0.0
  {
    match SpanAndAspect(d)
    case None => true
    case Some((longest, slimmest)) => b <= longest.si && slimmest.si <= AspectOf(b, s)
  }

  /** One positive planform that, at the design's mass, meets the contributing
      stall ceilings, the area maxima and the paired limits together. */
  predicate MeetsAreaLimits(p: Platform, d: Design, b: real, s: real) {
    && b > 0.0 && s > 0.0
    && MeetsCeilings(p, d, MassReading(d).value, Quantity(s, DimArea))
    && WithinAreaMaxima(d, s)
    && WithinPair(d, b, s)
  }

  ghost predicate AreaLimitsAreFeasible(p: Platform, d: Design) {
    exists b: real, s: real :: MeetsAreaLimits(p, d, b, s)
  }

  /** The least area a list of ceilings demands at a mass. */
  function FloorOf(ceilings: seq<StallCeiling>, mass: Quantity): SizingBound {
    Intersected(EmptyBound(SubjectWingArea, BoundLower).(contributions := AreaContributions(ceilings, mass)))
  }

  /** The lower bound the conflict check computes; it never fails. */
  function AreaFloor(d: Design): SizingBound {
    FloorOf(CeilingsOver(d.cases, d.requirements, AllRequiredCases), MassReading(d).value)
  }

  lemma AreaFloorIsTheLowerBound(d: Design)
    ensures AreaLowerBound(d, AllRequiredCases) == Ok(AreaFloor(d))
  {
  }

  lemma CeilingIsAnArea(p: Platform, c: StallCeiling, mass: Quantity, area: Quantity)
    requires p.Lawful() && area.Positive(DimArea) && MinimumAreaOf(c, mass).Ok?
    ensures MinimumAreaOf(c, mass).value.si > 0.0
    ensures MeetsCeiling(p, c, mass, area) <==> MinimumAreaOf(c, mass).value.si <= area.si
  {
    hide StallSpeed, MinimumWingArea, MaximumMass;
    MinimumWingAreaSucceeds(c.flown.flight, mass, c.Limit());
    MinimumWingAreaBalances(c.flown.flight, mass, c.Limit());
    StallCeilingHasThreeForms(p, c.flown.flight, mass, area, c.Limit());
  }

  /** The intersected demand is exactly the least area at which every
      contributing ceiling is met. */
  lemma FloorIsWhatTheCeilingsDemand(p: Platform, ceilings: seq<StallCeiling>, mass: Quantity, s: real)
    requires p.Lawful() && FloorOf(ceilings, mass).known && s > 0.0
    ensures FloorOf(ceilings, mass).value.Positive(DimArea)
    ensures FloorOf(ceilings, mass).value.si <= s <==> AllMet(p, ceilings, mass, Quantity(s, DimArea))
  {
    hide MeetsCeiling, MinimumAreaOf;
    var area := Quantity(s, DimArea);
    var cs := AreaContributions(ceilings, mass);
    forall i | 0 <= i < |ceilings| && MinimumAreaOf(ceilings[i], mass).Ok?
      ensures cs[i].known && cs[i].value.si > 0.0
      ensures MeetsCeiling(p, ceilings[i], mass, area) <==> cs[i].value.si <= s
    {
      CeilingIsAnArea(p, ceilings[i], mass, area);
    }
    BestIsTheExtreme(cs, BoundLower);
    BestClears(cs, BoundLower, s);
  }

  lemma LowerBoundIsWhatTheCeilingsDemand(p: Platform, d: Design, s: real)
    requires p.Lawful() && AreaFloor(d).known && s > 0.0
    ensures AreaFloor(d).value.si > 0.0
    ensures AreaFloor(d).value.si <= s <==> MeetsCeilings(p, d, MassReading(d).value, Quantity(s, DimArea))
  {
    hide FloorOf, AllMet, MassReading, CeilingsOver;
    FloorIsWhatTheCeilingsDemand(
      p, CeilingsOver(d.cases, d.requirements, AllRequiredCases), MassReading(d).value, s);
  }

  /** The paired limits allow exactly the areas up to b^2/A, once the span limit
      is a length at all. */
  lemma PairIsAnArea(b: real, s: real, longest: real, slimmest: real)
    requires b > 0.0 && s > 0.0 && slimmest > 0.0
    ensures b <= longest && slimmest <= AspectOf(b, s) ==> s <= Square(longest) / slimmest
    ensures b == longest && s <= Square(longest) / slimmest ==> slimmest <= AspectOf(b, s)
  {
    hide Square;
    DivMul(Square(b), s);
    DivMul(Square(longest), slimmest);
    if b <= longest {
      SquareMonotone(b, longest);
      QuotientsOrder(Square(b), s, AspectOf(b, s), Square(longest), slimmest, Square(longest) / slimmest);
    }
  }

  lemma QuotientsOrder(b2: real, s: real, aspect: real, l2: real, slimmest: real, limit: real)
    requires s > 0.0 && slimmest > 0.0 && aspect * s == b2 && limit * slimmest == l2
    ensures b2 <= l2 && slimmest <= aspect ==> s <= limit
    ensures b2 == l2 && s <= limit ==> slimmest <= aspect
  {
    Scale(slimmest, aspect, s);
    Scale(s, limit, slimmest);
  }

  predicate BelowPair(d: Design, s: real) {
    match SpanAndAspect(d)
    case None => true
    case Some((longest, slimmest)) => slimmest.si != 0.0 && s <= Square(longest.si) / slimmest.si
  }

  /** The area upper bound is exactly the greatest area the stated maxima and
      the paired limits allow. */
  lemma UpperBoundIsWhatTheMaximaAllow(d: Design, s: real)
    requires AreaUpperBound(d).known
    ensures s <= AreaUpperBound(d).value.si <==> WithinAreaMaxima(d, s) && BelowPair(d, s)
  {
    hide RequiredBound, Square, Caps;
    var stated, pair := MaximumContributions(d.requirements, SubjectWingArea), PairContribution(d);
    var cs := stated + pair;
    MaximumContributionsAre(d.requirements, SubjectWingArea, s);
    BestClears(cs, BoundUpper, s);
    assert BelowPair(d, s) <==> forall i :: 0 <= i < |pair| ==> s <= pair[i].value.si;
    assert AllKnownIn(pair);
    SplitClears(stated, pair, s);
  }

  /** The span limit of the pair admits a positive span. */
  predicate PairAdmitsASpan(d: Design) {
    SpanAndAspect(d).Some? ==> SpanAndAspect(d).value.0.si > 0.0
  }

  /** When both bounds are known, the limits have a common planform exactly when
      the bounds do not cross and the paired span limit is positive. */
  lemma BoundsDecideFeasibility(p: Platform, d: Design)
    requires p.Lawful() && AreaFloor(d).known && AreaUpperBound(d).known
    ensures AreaLimitsAreFeasible(p, d) <==> AreaFloor(d).value.si <= AreaUpperBound(d).value.si && PairAdmitsASpan(d)
  {
    hide AreaFloor, AreaUpperBound, MeetsCeilings, WithinAreaMaxima, RequiredBound, MassReading, AspectOf, Square;
    var lower, upper := AreaFloor(d).value.si, AreaUpperBound(d).value.si;
    if AreaLimitsAreFeasible(p, d) {
      var b: real, s: real :| MeetsAreaLimits(p, d, b, s);
      LowerBoundIsWhatTheCeilingsDemand(p, d, s);
      if SpanAndAspect(d).Some? {
        PairIsAnArea(b, s, SpanAndAspect(d).value.0.si, SpanAndAspect(d).value.1.si);
      }
      UpperBoundIsWhatTheMaximaAllow(d, s);
    }
    if lower <= upper && PairAdmitsASpan(d) {
      LowerBoundIsWhatTheCeilingsDemand(p, d, 1.0);
      LowerBoundIsWhatTheCeilingsDemand(p, d, lower);
      UpperBoundIsWhatTheMaximaAllow(d, lower);
      var b := if SpanAndAspect(d).Some? then SpanAndAspect(d).value.0.si else 1.0;
      if SpanAndAspect(d).Some? {
        PairIsAnArea(b, lower, SpanAndAspect(d).value.0.si, SpanAndAspect(d).value.1.si);
      }
      assert MeetsAreaLimits(p, d, b, lower);
    }
  }

  lemma SlackKeepsOrder(lower: real, upper: real)
    requires lower > 0.0
    ensures lower > upper * (1.0 + TOLERANCE) ==> lower > upper
    ensures lower <= upper ==> lower <= upper * (1.0 + TOLERANCE)
  {
  }

  /** A reported conflict is real: no wing meets the contributing ceilings, the
      area maxima and the pair read together. And of bounds that do not cross
      nothing is reported. */
  lemma ConflictsAreReal(p: Platform, d: Design)
    requires p.Lawful()
    ensures Conflicts(p, d) != [] ==> !AreaLimitsAreFeasible(p, d)
    ensures AreaFloor(d).value.si <= AreaUpperBound(d).value.si ==> Conflicts(p, d) == []
  {
    hide AreaFloor, AreaUpperBound, AreaLowerBound, AreaAlternatives, AreaLimitsAreFeasible, PairAdmitsASpan;
    AreaFloorIsTheLowerBound(d);
    if Conflicts(p, d) != [] {
      LowerBoundIsWhatTheCeilingsDemand(p, d, 1.0);
      SlackKeepsOrder(AreaFloor(d).value.si, AreaUpperBound(d).value.si);
      BoundsDecideFeasibility(p, d);
    }
  }

  /** What the check misses: bounds that cross by no more than the comparison's
      own tolerance, or a pair whose span limit is not positive. */
  lemma UnreportedMeansFeasibleOrWithinTolerance(p: Platform, d: Design)
    requires p.Lawful() && AreaFloor(d).known && AreaUpperBound(d).known
    requires Conflicts(p, d) == []
    ensures AreaLimitsAreFeasible(p, d)
         <==> PairAdmitsASpan(d) && !(AreaUpperBound(d).value.si < AreaFloor(d).value.si
                                      <= AreaUpperBound(d).value.si * (1.0 + TOLERANCE))
  {
    hide AreaFloor, AreaUpperBound, AreaLowerBound, AreaAlternatives, AreaLimitsAreFeasible, PairAdmitsASpan;
    AreaFloorIsTheLowerBound(d);
    BoundsDecideFeasibility(p, d);
  }

  // ----- The alternatives offered -------------------------------------------

  /** The span alternative carries the demanded area at the required aspect
      ratio: with that span as the limit, the pair allows exactly that area. */
  lemma GrownSpanAllowsTheDemandedArea(p: Platform, d: Design, lower: SizingBound, k: nat)
    requires p.Lawful() && lower.value.si > 0.0
    requires k < |AreaAlternatives(p, d, lower)| && AreaAlternatives(p, d, lower)[k].GrowSpan?
    ensures var aspect := RequiredBound(d.requirements, SubjectAspectRatio, BoundLower).value.1.si;
            aspect > 0.0 ==>
              Square(AreaAlternatives(p, d, lower)[k].span.si) / aspect == lower.value.si
  {
    hide MassUpperBound, RequiredBound;
    var aspect := RequiredBound(d.requirements, SubjectAspectRatio, BoundLower).value.1.si;
    if aspect > 0.0 {
      var s := lower.value.si;
      assert aspect * s > 0.0;
      SqrtPositive(p, aspect * s);
      assert s * aspect == Square(p.sqrt(aspect * s));
      DivUnique(s, Square(p.sqrt(aspect * s)), aspect);
    }
  }

  lemma OneCeilingAtItsMaximumMass(c: StallCeiling, area: Quantity, m: real)
    requires m > 0.0 && MaximumMassOf(c, area).Ok?
    ensures MinimumAreaOf(c, Quantity(m, DimMass)).Ok?
    ensures m <= MaximumMassOf(c, area).value.si <==> MinimumAreaOf(c, Quantity(m, DimMass)).value.si <= area.si
    ensures m == MaximumMassOf(c, area).value.si ==> MinimumAreaOf(c, Quantity(m, DimMass)).value.si == area.si
  {
    hide MinimumWingArea, MaximumMass, Demand, Capacity, Square;
    var fc, limit, mass := c.flown.flight, c.Limit(), Quantity(m, DimMass);
    MaximumMassSucceeds(fc, area, limit);
    CapacityPositive(fc);
    MaximumMassBalances(fc, area, limit);
    MinimumWingAreaBalances(fc, mass, limit);
    BalanceInverts(Demand(fc), Capacity(fc), m, MaximumMass(fc, area, limit).value.si,
                   MinimumWingArea(fc, mass, limit).value.si, area.si, Square(limit.si));
  }

  lemma BalanceInverts(k: real, u: real, m: real, mMax: real, sMin: real, s: real, limit2: real)
    requires k > 0.0 && u > 0.0 && limit2 > 0.0
    requires Balanced(k, u, m, sMin, limit2) && Balanced(k, u, mMax, s, limit2)
    ensures m <= mMax <==> sMin <= s
    ensures m == mMax <==> sMin == s
  {
    assert u * limit2 > 0.0;
    Scale(m, mMax, k);
    Scale(sMin, s, u * limit2);
    assert limit2 * (u * sMin) == sMin * (u * limit2) && limit2 * (u * s) == s * (u * limit2);
  }

  /** The mass alternative resolves what it says: at the ceiling mass, the area
      the contributing cases demand is exactly the current area. */
  lemma CeilingMassDemandsTheCurrentArea(ceilings: seq<StallCeiling>, area: Quantity)
    requires area.Positive(DimArea)
    requires Best(MassContributions(ceilings, area), BoundUpper).Some?
    ensures var m := Best(MassContributions(ceilings, area), BoundUpper).value;
            m > 0.0 && Best(AreaContributions(ceilings, Quantity(m, DimMass)), BoundLower) == Some(area.si)
  {
    hide MinimumAreaOf, MaximumMassOf;
    var masses := MassContributions(ceilings, area);
    var m := Best(masses, BoundUpper).value;
    BestIsTheExtreme(masses, BoundUpper);
    var k :| 0 <= k < |masses| && masses[k].known && masses[k].value.si == m;
    KnownMassIsPositive(ceilings[k], area);
    var areas := AreaContributions(ceilings, Quantity(m, DimMass));
    forall i | 0 <= i < |ceilings|
      ensures areas[i].known <==> masses[i].known
      ensures areas[i].known ==> areas[i].value.si <= area.si
      ensures areas[i].known && masses[i].value.si == m ==> areas[i].value.si == area.si
    {
      SameCeilingsContribute(ceilings[i], area, m);
      if masses[i].known {
        OneCeilingAtItsMaximumMass(ceilings[i], area, m);
        assert !Better(BoundUpper, masses[i].value.si, m);
      }
    }
    BestIsTheExtreme(areas, BoundLower);
    assert areas[k].known && areas[k].value.si == area.si;
    var j :| 0 <= j < |areas| && areas[j].known && areas[j].value.si == Best(areas, BoundLower).value;
  }

  lemma KnownMassIsPositive(c: StallCeiling, area: Quantity)
    requires MaximumMassOf(c, area).Ok?
    ensures MaximumMassOf(c, area).value.si > 0.0
  {
    hide MaximumMass;
    MaximumMassSucceeds(c.flown.flight, area, c.Limit());
    MaximumMassBalances(c.flown.flight, area, c.Limit());
  }

  lemma SameCeilingsContribute(c: StallCeiling, area: Quantity, m: real)
    requires m > 0.0 && area.Positive(DimArea)
    ensures MinimumAreaOf(c, Quantity(m, DimMass)).Ok? <==> MaximumMassOf(c, area).Ok?
  {
    hide MaximumMass, MinimumWingArea;
    MaximumMassSucceeds(c.flown.flight, area, c.Limit());
    MinimumWingAreaSucceeds(c.flown.flight, Quantity(m, DimMass), c.Limit());
  }

  // ----- The mass interval --------------------------------------------------

  predicate IsRequired(r: Requirement, subject: RequirementSubject) {
    r.priority == PriorityRequired && r.subject == subject
  }

  /** A required mass requirement holds at this mass. */
  predicate WithinMassLimits(d: Design, m: real) {
    forall i :: 0 <= i < |d.requirements| && IsRequired(d.requirements[i], SubjectMass) ==>
      var r := d.requirements[i];
      && (r.EffectiveMinimum().Supplied() ==> r.EffectiveMinimum().si <= m)
      && (r.EffectiveMaximum().Supplied() ==> m <= r.EffectiveMaximum().si)
  }

  /** A required minimum wing loading holds at this mass on the solved area. */
  predicate AboveLoadingMinima(p: Platform, d: Design, m: real) {
    forall i :: 0 <= i < |d.requirements| && IsRequired(d.requirements[i], SubjectWingLoadingMass)
                && d.requirements[i].EffectiveMinimum().Supplied() ==>
      var w := SolveWing(p, d.wing);
      && w.Ok?
      && var loading := WingLoadingMass(Quantity(m, DimMass), w.value.projected.area);
         loading.Ok? && d.requirements[i].EffectiveMinimum().si <= loading.value.si
  }

  /** Every stall ceiling in scope holds at this mass on the solved area. */
  predicate BelowCeilings(p: Platform, d: Design, scope: CaseScope, m: real) {
    var ceilings := CeilingsOver(d.cases, d.requirements, scope);
    forall i :: 0 <= i < |ceilings| ==>
      var w := SolveWing(p, d.wing);
      w.Ok? && MeetsCeiling(p, ceilings[i], Quantity(m, DimMass), w.value.projected.area)
  }

  predicate MeetsMassLimits(p: Platform, d: Design, scope: CaseScope, m: real) {
    WithinMassLimits(d, m) && AboveLoadingMinima(p, d, m) && BelowCeilings(p, d, scope, m)
  }

  predicate ClearsMinimum(r: Requirement, solved: Outcome<Wing>, m: real) {
    if r.priority != PriorityRequired || !r.EffectiveMinimum().Supplied() then true
    else if r.subject == SubjectMass then r.EffectiveMinimum().si <= m
    else if r.subject == SubjectWingLoadingMass then
      && solved.Ok?
      && var loading := WingLoadingMass(Quantity(m, DimMass), solved.value.projected.area);
         loading.Ok? && r.EffectiveMinimum().si <= loading.value.si
    else true
  }

  lemma LoadingIsAMass(area: Quantity, floor: real, m: real)
    requires area.Positive(DimArea) && m > 0.0
    ensures var loading := WingLoadingMass(Quantity(m, DimMass), area);
            loading.Ok? && (floor <= loading.value.si <==> floor * area.si <= m)
  {
    DivPositive(m, area.si);
    DivMul(m, area.si);
    Scale(floor, m / area.si, area.si);
  }

  /** The floors one requirement records, all known, are cleared exactly when the
      requirement's own minimum is. */
  lemma FloorIsTheMinimum(r: Requirement, solved: Outcome<Wing>, m: real)
    requires m > 0.0 && (solved.Ok? ==> solved.value.projected.area.Positive(DimArea))
    requires AllKnownIn(MassFloor(r, solved))
    ensures (forall i :: 0 <= i < |MassFloor(r, solved)| ==> MassFloor(r, solved)[i].value.si <= m)
       <==> ClearsMinimum(r, solved, m)
  {
    hide WingLoadingMass;
    var floors := MassFloor(r, solved);
    if floors != [] {
      assert floors == [floors[0]];
      assert floors[0].known;
      if r.subject == SubjectWingLoadingMass {
        LoadingIsAMass(solved.value.projected.area, r.EffectiveMinimum().si, m);
      }
    }
  }

  lemma {:induction false} FloorsAreTheMinima(requirements: seq<Requirement>, solved: Outcome<Wing>, m: real)
    requires m > 0.0 && (solved.Ok? ==> solved.value.projected.area.Positive(DimArea))
    requires AllKnownIn(MassFloors(requirements, solved))
    ensures (forall i :: 0 <= i < |MassFloors(requirements, solved)| ==> MassFloors(requirements, solved)[i].value.si <= m)
       <==> forall i :: 0 <= i < |requirements| ==> ClearsMinimum(requirements[i], solved, m)
  {
    hide MassFloor, ClearsMinimum;
    if requirements != [] {
      var front, last := requirements[..|requirements| - 1], requirements[|requirements| - 1];
      var before, own := MassFloors(front, solved), MassFloor(last, solved);
      var all := MassFloors(requirements, solved);
      assert all == before + own;
      assert forall i :: 0 <= i < |before| ==> before[i] == all[i];
      assert forall i :: 0 <= i < |own| ==> own[i] == all[|before| + i];
      FloorsAreTheMinima(front, solved, m);
      FloorIsTheMinimum(last, solved, m);
      assert forall i :: 0 <= i < |front| ==> front[i] == requirements[i];
      assert (forall i :: 0 <= i < |all| ==> all[i].value.si <= m)
        <==> (forall i :: 0 <= i < |before| ==> before[i].value.si <= m)
             && (forall i :: 0 <= i < |own| ==> own[i].value.si <= m) by {
        if forall i :: 0 <= i < |all| ==> all[i].value.si <= m {
          forall i | 0 <= i < |own|
            ensures own[i].value.si <= m
          {
            assert all[|before| + i].value.si <= m;
          }
        }
      }
    }
  }

  lemma CeilingIsAMass(p: Platform, c: StallCeiling, area: Quantity, m: real)
    requires p.Lawful() && m > 0.0 && area.Positive(DimArea) && MaximumMassOf(c, area).Ok?
    ensures MeetsCeiling(p, c, Quantity(m, DimMass), area) <==> m <= MaximumMassOf(c, area).value.si
  {
    hide StallSpeed, MinimumWingArea, MaximumMass;
    MaximumMassSucceeds(c.flown.flight, area, c.Limit());
    StallCeilingHasThreeForms(p, c.flown.flight, Quantity(m, DimMass), area, c.Limit());
  }

  /** The mass bound from below is exactly the required minima. */
  lemma MassFloorIsTheMinima(p: Platform, d: Design, m: real)
    requires p.Lawful() && m > 0.0
    requires var lower := LowerMass(p, d); lower.known && !lower.partial
    ensures LowerMass(p, d).value.si <= m
       <==> forall i :: 0 <= i < |d.requirements| ==> ClearsMinimum(d.requirements[i], SolveWing(p, d.wing), m)
  {
    hide MassFloors, SolveWing, ClearsMinimum;
    var solved := SolveWing(p, d.wing);
    if solved.Ok? {
      PlanViewIsThePanelForeshortened(p, d.wing);
    }
    var cs := MassFloors(d.requirements, solved);
    FloorsAreTheMinima(d.requirements, solved, m);
    BestClears(cs, BoundLower, m);
    assert forall i :: 0 <= i < |cs| ==> cs[i].known;
  }

  function LowerMass(p: Platform, d: Design): SizingBound {
    Intersected(EmptyBound(SubjectMass, BoundLower).(contributions := MassFloors(d.requirements, SolveWing(p, d.wing))))
  }

  /** The ceilings' own mass bound, before the stated maxima join it. */
  function CeilingMasses(p: Platform, d: Design, scope: CaseScope): seq<BoundContribution> {
    match SolveWing(p, d.wing)
    case Refused(_) => []
    case Ok(w) => MassContributions(CeilingsOver(d.cases, d.requirements, scope), w.projected.area)
  }

  function UpperMass(p: Platform, d: Design, scope: CaseScope): SizingBound
    requires MassUpperBound(p, d, scope).Ok?
  {
    var bound := MassUpperBound(p, d, scope).value;
    Intersected(bound.(contributions := bound.contributions + MaximumContributions(d.requirements, SubjectMass),
                       controlling := []))
  }

  /** Intersecting the ceilings first and the stated maxima after them bounds the
      mass by both together, and neither is lost from what is unknown. */
  lemma UpperMassIsOneIntersection(p: Platform, d: Design, scope: CaseScope)
    requires MassUpperBound(p, d, scope).Ok?
    ensures var upper := UpperMass(p, d, scope);
            var cs := CeilingMasses(p, d, scope) + MaximumContributions(d.requirements, SubjectMass);
            && upper.known == Best(cs, BoundUpper).Some?
            && (upper.known ==> upper.value == Quantity(Best(cs, BoundUpper).value, DimMass))
            && (!upper.partial ==> AllKnownIn(cs)
                                   && (SolveWing(p, d.wing).Refused? ==> CeilingsOver(d.cases, d.requirements, scope) == []))
  {
    hide SolveWing, CeilingsOver, MassContributions, MaximumContributions, Best, Controllers;
  }

  predicate BelowMaxima(d: Design, m: real) {
    forall i :: 0 <= i < |d.requirements| && Caps(d.requirements[i], SubjectMass) ==>
                  m <= d.requirements[i].EffectiveMaximum().si
  }

  /** The mass bound from above is exactly the stated maxima and the ceilings. */
  lemma MassCeilingIsTheMaximaAndTheCeilings(p: Platform, d: Design, scope: CaseScope, m: real)
    requires p.Lawful() && m > 0.0
    requires MassUpperBound(p, d, scope).Ok?
    requires var upper := UpperMass(p, d, scope); upper.known && !upper.partial
    ensures m <= UpperMass(p, d, scope).value.si <==> BelowMaxima(d, m) && BelowCeilings(p, d, scope, m)
  {
    hide SolveWing, CeilingsOver, MaximumContributions, MassUpperBound, UpperMass, MaximumMassOf, MeetsCeiling, Caps;
    UpperMassIsOneIntersection(p, d, scope);
    var solved := SolveWing(p, d.wing);
    var ceilings := CeilingsOver(d.cases, d.requirements, scope);
    var masses, caps := CeilingMasses(p, d, scope), MaximumContributions(d.requirements, SubjectMass);
    BestClears(masses + caps, BoundUpper, m);
    MaximumContributionsAre(d.requirements, SubjectMass, m);
    assert AllKnownIn(masses) by {
      KnownInFront(masses, caps);
    }
    CeilingMassesAreTheCeilings(p, d, scope, m);
    SplitClears(masses, caps, m);
  }

  lemma KnownInFront(a: seq<BoundContribution>, b: seq<BoundContribution>)
    requires AllKnownIn(a + b)
    ensures AllKnownIn(a)
  {
    assert forall i :: 0 <= i < |a| ==> (a + b)[i] == a[i];
  }

  lemma CeilingMassesAreTheCeilings(p: Platform, d: Design, scope: CaseScope, m: real)
    requires p.Lawful() && m > 0.0
    requires AllKnownIn(CeilingMasses(p, d, scope))
    requires SolveWing(p, d.wing).Refused? ==> CeilingsOver(d.cases, d.requirements, scope) == []
    ensures (forall i :: 0 <= i < |CeilingMasses(p, d, scope)| ==> m <= CeilingMasses(p, d, scope)[i].value.si)
       <==> BelowCeilings(p, d, scope, m)
  {
    hide SolveWing, CeilingsOver, MaximumMassOf, MeetsCeiling;
    var solved := SolveWing(p, d.wing);
    var ceilings, masses := CeilingsOver(d.cases, d.requirements, scope), CeilingMasses(p, d, scope);
    if solved.Ok? {
      PlanViewIsThePanelForeshortened(p, d.wing);
      forall i | 0 <= i < |ceilings|
        ensures MeetsCeiling(p, ceilings[i], Quantity(m, DimMass), solved.value.projected.area)
           <==> m <= masses[i].value.si
      {
        assert masses[i].known;
        CeilingIsAMass(p, ceilings[i], solved.value.projected.area, m);
      }
    }
  }

  /** When every contribution is known and both ends exist, a mass lies in the
      interval exactly when it meets every required mass limit, every required
      loading minimum at the solved area, and every stall ceiling in scope. */
  lemma MassIntervalIsExact(p: Platform, d: Design, scope: CaseScope, m: real)
    requires p.Lawful() && m > 0.0
    requires MassIntervalOf(p, d, scope).Ok?
    requires var i := MassIntervalOf(p, d, scope).value; i.complete && !i.lower.partial && !i.upper.partial
    ensures var i := MassIntervalOf(p, d, scope).value;
            i.lower.value.si <= m <= i.upper.value.si <==> MeetsMassLimits(p, d, scope, m)
  {
    hide SolveWing, LowerMass, UpperMass, BelowCeilings, MassUpperBound;
    var i := MassIntervalOf(p, d, scope).value;
    assert i.lower == LowerMass(p, d) by {
      IntervalEnds(p, d, scope);
    }
    assert i.upper == UpperMass(p, d, scope) by {
      IntervalEnds(p, d, scope);
    }
    MassFloorIsTheMinima(p, d, m);
    MassCeilingIsTheMaximaAndTheCeilings(p, d, scope, m);
    LimitsSplit(p, d, m);
  }

  lemma IntervalEnds(p: Platform, d: Design, scope: CaseScope)
    requires MassIntervalOf(p, d, scope).Ok?
    ensures MassUpperBound(p, d, scope).Ok?
    ensures MassIntervalOf(p, d, scope).value.lower == LowerMass(p, d)
    ensures MassIntervalOf(p, d, scope).value.upper == UpperMass(p, d, scope)
  {
    hide SolveWing, MassUpperBound, Intersected;
  }

  lemma LimitsSplit(p: Platform, d: Design, m: real)
    ensures WithinMassLimits(d, m) && AboveLoadingMinima(p, d, m)
       <==> BelowMaxima(d, m)
            && forall i :: 0 <= i < |d.requirements| ==> ClearsMinimum(d.requirements[i], SolveWing(p, d.wing), m)
  {
    hide SolveWing, WingLoadingMass;
    var solved := SolveWing(p, d.wing);
    if BelowMaxima(d, m) && forall i :: 0 <= i < |d.requirements| ==> ClearsMinimum(d.requirements[i], solved, m) {
      forall i | 0 <= i < |d.requirements| && IsRequired(d.requirements[i], SubjectMass)
        ensures d.requirements[i].EffectiveMinimum().Supplied() ==> d.requirements[i].EffectiveMinimum().si <= m
        ensures d.requirements[i].EffectiveMaximum().Supplied() ==> m <= d.requirements[i].EffectiveMaximum().si
      {
        assert ClearsMinimum(d.requirements[i], solved, m);
        assert Caps(d.requirements[i], SubjectMass) ==> m <= d.requirements[i].EffectiveMaximum().si;
      }
    }
    if WithinMassLimits(d, m) && AboveLoadingMinima(p, d, m) {
      forall i | 0 <= i < |d.requirements|
        ensures ClearsMinimum(d.requirements[i], solved, m)
      {
        assert IsRequired(d.requirements[i], SubjectMass) || d.requirements[i].priority != PriorityRequired
               || d.requirements[i].subject != SubjectMass;
      }
    }
  }

  // ----- First, not tightest ------------------------------------------------

  /** A second, tighter span maximum is not read: exchanging the two changes the
      bound. */
  lemma TheFirstSpanMaximumIsReadNotTheTightest(d: Design, loose: Requirement, tight: Requirement, slim: Requirement)
    requires d.requirements == [loose, tight, slim]
    requires States(loose, SubjectSpan, BoundUpper) && States(tight, SubjectSpan, BoundUpper)
    requires States(slim, SubjectAspectRatio, BoundLower) && slim.EffectiveMinimum().si > 0.0
    requires 0.0 < tight.EffectiveMaximum().si < loose.EffectiveMaximum().si
    ensures AreaUpperBound(d).known
    ensures AreaUpperBound(d).value.si == Square(loose.EffectiveMaximum().si) / slim.EffectiveMinimum().si
    ensures AreaUpperBound(d.(requirements := [tight, loose, slim])).known
    ensures AreaUpperBound(d.(requirements := [tight, loose, slim])).value.si < AreaUpperBound(d).value.si
  {
    var b, t, a := loose.EffectiveMaximum().si, tight.EffectiveMaximum().si, slim.EffectiveMinimum().si;
    OnlyThePair(d, loose, tight, slim);
    OnlyThePair(d.(requirements := [tight, loose, slim]), tight, loose, slim);
    SquareMonotone(t, b);
    DivMonotone(Square(b), Square(t), a);
  }

  lemma OnlyThePair(d: Design, first: Requirement, second: Requirement, slim: Requirement)
    requires d.requirements == [first, second, slim]
    requires States(first, SubjectSpan, BoundUpper) && States(second, SubjectSpan, BoundUpper)
    requires States(slim, SubjectAspectRatio, BoundLower) && slim.EffectiveMinimum().si > 0.0
    ensures AreaUpperBound(d).known
    ensures AreaUpperBound(d).value.si == Square(first.EffectiveMaximum().si) / slim.EffectiveMinimum().si
  {
    hide Square, RequiredBound, MaximumContributions, States, Best;
    PairIsRead(d.requirements, first, second, slim);
    NoCapsNoContributions(d.requirements);
    assert MaximumContributions(d.requirements, SubjectWingArea) + PairContribution(d) == PairContribution(d);
    BestOfOne(PairContribution(d)[0], BoundUpper);
  }

  lemma PairIsRead(rs: seq<Requirement>, first: Requirement, second: Requirement, slim: Requirement)
    requires rs == [first, second, slim]
    requires States(first, SubjectSpan, BoundUpper) && States(second, SubjectSpan, BoundUpper)
    requires States(slim, SubjectAspectRatio, BoundLower)
    ensures RequiredBound(rs, SubjectSpan, BoundUpper) == Some((first.name, first.EffectiveMaximum()))
    ensures RequiredBound(rs, SubjectAspectRatio, BoundLower) == Some((slim.name, slim.EffectiveMinimum()))
    ensures forall i :: 0 <= i < |rs| ==> rs[i].subject != SubjectWingArea
  {
    assert rs[1..] == [second, slim] && rs[1..][1..] == [slim];
    assert RequiredBound([slim], SubjectAspectRatio, BoundLower) == Some((slim.name, slim.EffectiveMinimum()));
  }

  lemma BestOfOne(c: BoundContribution, direction: BoundDirection)
    requires c.known
    ensures Best([c], direction) == Some(c.value.si)
  {
    assert [c][..0] == [];
  }

  lemma {:induction false} NoCapsNoContributions(requirements: seq<Requirement>)
    requires forall i :: 0 <= i < |requirements| ==> requirements[i].subject != SubjectWingArea
    ensures MaximumContributions(requirements, SubjectWingArea) == []
  {
    if requirements != [] {
      var front, last := requirements[..|requirements| - 1], requirements[|requirements| - 1];
      assert forall i :: 0 <= i < |front| ==> front[i] == requirements[i];
      NoCapsNoContributions(front);
      assert last == requirements[|front|];
    }
  }
}
