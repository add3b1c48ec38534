/** What a reported conflict names and what it offers, stated over the cases and
    the requirements of the design. */
module ConflictReports {
  import opened Quantities
  import opened Definition
  import opened Reals
  import opened Roots
  import opened Lift
  import opened Planforms
  import opened Wings
  import opened MassBalance
  import opened Sizing
  import opened Sorting
  import opened Feasibility
  import opened StatedChecks

  // ----- The areas the cases need -------------------------------------------

  /** The stated stall maximum less the margin's share of it. */
  function StatedLimit(r: Requirement): real {
    r.maximum.si - r.margin * r.maximum.si
  }

  predicate LimitsASpeed(r: Requirement) {
    r.maximum.dim == DimSpeed && StatedLimit(r) > 0.0
  }

  /** At the limit the lift of this area just carries the mass. */
  predicate CarriesAt(fc: FlightCase, mass: real, area: real, limit: real) {
    Square(limit) * (fc.density.si * fc.clmax.max * area) == 2.0 * fc.loadFactor * GRAVITY * mass
  }

  /** A required stall maximum of a required case that states its lift. */
  predicate Limits(d: Design, c: DesignCase, r: Requirement) {
    && c in d.cases && c.priority == PriorityRequired
    && r in d.requirements && r.priority == PriorityRequired && r.subject == SubjectStallSpeed
    && c.flight.name in r.cases && StatesLift(c.flight) && LimitsASpeed(r)
  }

  /** The case, limited by the requirement, needs this area at the design's mass. */
  predicate Needs(d: Design, c: DesignCase, r: Requirement, area: real) {
    Limits(d, c, r) && MassReading(d).value.Positive(DimMass)
    && CarriesAt(c.flight, MassReading(d).value.si, area, StatedLimit(r))
  }

  /** The case, limited by the requirement, allows this mass on an area. */
  predicate Allows(d: Design, c: DesignCase, r: Requirement, area: real, mass: real) {
    Limits(d, c, r) && CarriesAt(c.flight, mass, area, StatedLimit(r))
  }

  /** The largest area any required case needs. */
  ghost predicate IsTheFloor(d: Design, floor: real) {
    && (exists c, r :: Needs(d, c, r, floor))
    && forall c, r, area: real :: Needs(d, c, r, area) ==> area <= floor
  }

  /** The smallest mass any required case allows on an area. */
  ghost predicate IsTheCeiling(d: Design, area: real, ceiling: real) {
    && (exists c, r :: Allows(d, c, r, area, ceiling))
    && forall c, r, mass: real :: Allows(d, c, r, area, mass) ==> ceiling <= mass
  }

  function RequiredCeilings(d: Design): seq<StallCeiling> {
    CeilingsOver(d.cases, d.requirements, AllRequiredCases)
  }

  lemma LimitIsTheStatedOne(r: Requirement)
    ensures r.EffectiveMaximum().Positive(DimSpeed) <==> LimitsASpeed(r)
    ensures LimitsASpeed(r) ==> r.EffectiveMaximum() == Quantity(StatedLimit(r), DimSpeed)
  {
    TheBoundInForceIsTheTightenedOne(r, BoundUpper);
  }

  lemma CeilingsAreLimits(d: Design, x: StallCeiling)
    ensures Limits(d, x.flown, x.requirement)
       <==> x in RequiredCeilings(d) && StatesLift(x.flown.flight) && x.Limit().Positive(DimSpeed)
  {
    hide CeilingsOver, StatesLift, Requirement.EffectiveMaximum, LimitsASpeed;
    LimitIsTheStatedOne(x.requirement);
    CeilingsOverAre(d.cases, d.requirements, AllRequiredCases, x);
  }

  lemma BalanceIsUnique(demand: real, capacity: real, limit2: real, mass: real, a: real, b: real)
    requires capacity > 0.0 && limit2 > 0.0
    requires limit2 * (capacity * a) == demand * mass && limit2 * (capacity * b) == demand * mass
    ensures a == b
  {
    Scale(capacity * a, capacity * b, limit2);
    Scale(a, b, capacity);
  }

  /** What a ceiling contributes to the area bound is what its case needs. */
  lemma DemandIsTheNeed(d: Design, x: StallCeiling, area: real)
    requires x in RequiredCeilings(d)
    ensures Needs(d, x.flown, x.requirement, area)
       <==> MinimumAreaOf(x, MassReading(d).value) == Ok(Quantity(area, DimArea))
  {
    hide MassReading, CeilingsOver, StatesLift, MinimumWingArea, Square, Requirement.EffectiveMaximum, Limits;
    var fc, mass := x.flown.flight, MassReading(d).value;
    CeilingsAreLimits(d, x);
    LimitIsTheStatedOne(x.requirement);
    LiftIsStatedExactly(fc);
    MinimumWingAreaSucceeds(fc, mass, x.Limit());
    if Limits(d, x.flown, x.requirement) && mass.Positive(DimMass) {
      CapacityPositive(fc);
      MinimumWingAreaBalances(fc, mass, x.Limit());
      var least := MinimumWingArea(fc, mass, x.Limit()).value.si;
      LimitIsPositive(d, x.flown, x.requirement);
      if CarriesAt(fc, mass.si, area, StatedLimit(x.requirement)) {
        BalanceIsUnique(Demand(fc), Capacity(fc), Square(StatedLimit(x.requirement)), mass.si, area, least);
      }
    }
  }

  lemma LimitIsPositive(d: Design, c: DesignCase, r: Requirement)
    requires Limits(d, c, r)
    ensures StatedLimit(r) > 0.0 && Square(StatedLimit(r)) > 0.0
  {
  }

  lemma CapacityIsTheAllowance(d: Design, x: StallCeiling, area: Quantity, mass: real)
    requires x in RequiredCeilings(d) && area.Positive(DimArea)
    ensures Allows(d, x.flown, x.requirement, area.si, mass)
       <==> MaximumMassOf(x, area) == Ok(Quantity(mass, DimMass))
  {
    hide CeilingsOver, StatesLift, MaximumMass, Square, Requirement.EffectiveMaximum, Limits;
    var fc := x.flown.flight;
    CeilingsAreLimits(d, x);
    LimitIsTheStatedOne(x.requirement);
    LiftIsStatedExactly(fc);
    MaximumMassSucceeds(fc, area, x.Limit());
    if Limits(d, x.flown, x.requirement) {
      CapacityPositive(fc);
      MaximumMassBalances(fc, area, x.Limit());
      if CarriesAt(fc, mass, area.si, StatedLimit(x.requirement)) {
        Scale(mass, MaximumMass(fc, area, x.Limit()).value.si, Demand(fc));
      }
    }
  }

  /** The demanded area is the largest any required case needs; where there is
      none, none is known. */
  lemma TheFloorIsTheLargestNeed(d: Design, floor: real)
    ensures IsTheFloor(d, floor) <==> AreaFloor(d).known && AreaFloor(d).value == Quantity(floor, DimArea)
  {
    hide MassReading, CeilingsOver, MinimumAreaOf, Needs;
    var ceilings, mass := RequiredCeilings(d), MassReading(d).value;
    var cs := AreaContributions(ceilings, mass);
    BestIsTheExtreme(cs, BoundLower);
    forall c, r, area: real | Needs(d, c, r, area)
      ensures exists i :: 0 <= i < |cs| && cs[i].known && cs[i].value.si == area
    {
      var i := NeedContributes(d, c, r, area);
      assert cs[i].known;
    }
    forall i | 0 <= i < |cs| && cs[i].known
      ensures Needs(d, ceilings[i].flown, ceilings[i].requirement, cs[i].value.si)
    {
      ContributionIsNeeded(d, i);
    }
    if AreaFloor(d).known {
      var k :| 0 <= k < |cs| && cs[k].known && cs[k].value.si == Best(cs, BoundLower).value;
      assert Needs(d, ceilings[k].flown, ceilings[k].requirement, Best(cs, BoundLower).value);
    }
  }

  lemma NeedContributes(d: Design, c: DesignCase, r: Requirement, area: real) returns (i: nat)
    requires Needs(d, c, r, area)
    ensures i < |RequiredCeilings(d)| && RequiredCeilings(d)[i] == StallCeiling(c, r)
    ensures MinimumAreaOf(RequiredCeilings(d)[i], MassReading(d).value) == Ok(Quantity(area, DimArea))
  {
    hide MassReading, CeilingsOver, MinimumAreaOf, Limits;
    CeilingsAreLimits(d, StallCeiling(c, r));
    i :| 0 <= i < |RequiredCeilings(d)| && RequiredCeilings(d)[i] == StallCeiling(c, r);
    DemandIsTheNeed(d, StallCeiling(c, r), area);
  }

  lemma ContributionIsNeeded(d: Design, i: nat)
    requires i < |RequiredCeilings(d)| && MinimumAreaOf(RequiredCeilings(d)[i], MassReading(d).value).Ok?
    ensures var x := RequiredCeilings(d)[i];
            Needs(d, x.flown, x.requirement, MinimumAreaOf(x, MassReading(d).value).value.si)
  {
    hide MassReading, CeilingsOver, MinimumAreaOf, Needs;
    var x := RequiredCeilings(d)[i];
    DemandIsAnArea(x, MassReading(d).value);
    DemandIsTheNeed(d, x, MinimumAreaOf(x, MassReading(d).value).value.si);
  }

  lemma DemandIsAnArea(x: StallCeiling, mass: Quantity)
    requires MinimumAreaOf(x, mass).Ok?
    ensures MinimumAreaOf(x, mass).value.dim == DimArea
  {
  }

  // ----- The areas the limits allow -----------------------------------------

  /** The stated minimum and the margin's share of it. */
  function StatedFloor(r: Requirement): real {
    r.minimum.si + r.margin * r.minimum.si
  }

  predicate LimitsTheArea(d: Design, r: Requirement) {
    r in d.requirements && r.priority == PriorityRequired && r.subject == SubjectWingArea && InForce(r, BoundUpper)
  }

  predicate StatesInForce(r: Requirement, subject: RequirementSubject, direction: BoundDirection) {
    r.priority == PriorityRequired && r.subject == subject && InForce(r, direction)
  }

  /** The first required side of the subject in force. */
  predicate FirstInForce(d: Design, subject: RequirementSubject, direction: BoundDirection, k: nat) {
    && k < |d.requirements| && StatesInForce(d.requirements[k], subject, direction)
    && forall i :: 0 <= i < k ==> !StatesInForce(d.requirements[i], subject, direction)
  }

  /** The first span maximum with the first aspect-ratio minimum leave this area,
      under both their names. */
  predicate PairLimitsTheArea(d: Design, i: nat, j: nat, name: string, area: real) {
    && i < |d.requirements| && j < |d.requirements|
    && FirstInForce(d, SubjectSpan, BoundUpper, i) && FirstInForce(d, SubjectAspectRatio, BoundLower, j)
    && StatedFloor(d.requirements[j]) > 0.0
    && area * StatedFloor(d.requirements[j]) == Square(StatedLimit(d.requirements[i]))
    && name == d.requirements[i].name + " with " + d.requirements[j].name
  }

  /** Something of this name caps the area here: a required area maximum, or the
      pair under both its names. */
  ghost predicate CapsTheArea(d: Design, name: string, area: real) {
    || (exists r :: LimitsTheArea(d, r) && name == r.name && area == StatedLimit(r))
    || (exists i: nat, j: nat :: PairLimitsTheArea(d, i, j, name, area))
  }

  /** The smallest area anything caps it at. */
  ghost predicate IsTheCap(d: Design, cap: real) {
    (exists name :: CapsTheArea(d, name, cap)) && forall name, area: real :: CapsTheArea(d, name, area) ==> cap <= area
  }

  lemma StatesAsInForce(r: Requirement, subject: RequirementSubject, direction: BoundDirection)
    ensures States(r, subject, direction) <==> StatesInForce(r, subject, direction)
  {
    hide InForce, EffectiveBound;
    TheBoundInForceIsTheTightenedOne(r, direction);
  }

  lemma BoundsAreTheStatedOnes(r: Requirement)
    ensures InForce(r, BoundUpper) ==> r.EffectiveMaximum() == Quantity(StatedLimit(r), r.maximum.dim)
    ensures InForce(r, BoundLower) ==> r.EffectiveMinimum() == Quantity(StatedFloor(r), r.minimum.dim)
  {
    hide InForce;
    TheBoundInForceIsTheTightenedOne(r, BoundUpper);
    TheBoundInForceIsTheTightenedOne(r, BoundLower);
  }

  /** What is read of a subject is its first side in force. */
  lemma TheFirstInForceIsRead(d: Design, subject: RequirementSubject, direction: BoundDirection)
    ensures var read := RequiredBound(d.requirements, subject, direction);
            && (read.None? ==> forall k :: !FirstInForce(d, subject, direction, k))
            && (read.Some? ==> exists k: nat ::
                  k < |d.requirements| && FirstInForce(d, subject, direction, k)
                  && read.value == (d.requirements[k].name, EffectiveBound(d.requirements[k], direction)))
  {
    hide States, StatesInForce, EffectiveBound, RequiredBound;
    forall r
      ensures States(r, subject, direction) <==> StatesInForce(r, subject, direction)
    {
      StatesAsInForce(r, subject, direction);
    }
    TheFirstStatementIsRead(d.requirements, subject, direction);
    var read := RequiredBound(d.requirements, subject, direction);
    if read.Some? {
      var k: nat :| FirstStatement(d.requirements, subject, direction, k)
                    && read.value == (d.requirements[k].name, EffectiveBound(d.requirements[k], direction));
      assert FirstInForce(d, subject, direction, k);
    }
  }

  lemma OnlyOneIsFirst(d: Design, subject: RequirementSubject, direction: BoundDirection, k: nat)
    requires FirstInForce(d, subject, direction, k)
    ensures forall i :: FirstInForce(d, subject, direction, i) ==> i == k
  {
  }

  lemma PairContributes(d: Design, name: string, area: real)
    ensures (exists i: nat, j: nat :: PairLimitsTheArea(d, i, j, name, area))
       <==> BoundContribution(name, Quantity(area, DimArea), true) in PairContribution(d)
  {
    hide FirstInForce, RequiredBound, Square, EffectiveBound, StatedLimit, StatedFloor;
    TheFirstInForceIsRead(d, SubjectSpan, BoundUpper);
    TheFirstInForceIsRead(d, SubjectAspectRatio, BoundLower);
    var span := RequiredBound(d.requirements, SubjectSpan, BoundUpper);
    var aspect := RequiredBound(d.requirements, SubjectAspectRatio, BoundLower);
    if span.Some? && aspect.Some? {
      var i: nat :| i < |d.requirements| && FirstInForce(d, SubjectSpan, BoundUpper, i)
                    && span.value == (d.requirements[i].name, EffectiveBound(d.requirements[i], BoundUpper));
      var j: nat :| j < |d.requirements| && FirstInForce(d, SubjectAspectRatio, BoundLower, j)
                    && aspect.value == (d.requirements[j].name, EffectiveBound(d.requirements[j], BoundLower));
      ReadAsStated(d, i, j);
      OnePairContributes(d, i, j, name, area);
    }
  }

  lemma ReadAsStated(d: Design, i: nat, j: nat)
    requires FirstInForce(d, SubjectSpan, BoundUpper, i) && FirstInForce(d, SubjectAspectRatio, BoundLower, j)
    ensures EffectiveBound(d.requirements[i], BoundUpper).si == StatedLimit(d.requirements[i])
    ensures EffectiveBound(d.requirements[j], BoundLower).si == StatedFloor(d.requirements[j])
    ensures forall i' :: FirstInForce(d, SubjectSpan, BoundUpper, i') ==> i' == i
    ensures forall j' :: FirstInForce(d, SubjectAspectRatio, BoundLower, j') ==> j' == j
  {
    BoundsAreTheStatedOnes(d.requirements[i]);
    BoundsAreTheStatedOnes(d.requirements[j]);
    OnlyOneIsFirst(d, SubjectSpan, BoundUpper, i);
    OnlyOneIsFirst(d, SubjectAspectRatio, BoundLower, j);
  }

  lemma OnePairContributes(d: Design, i: nat, j: nat, name: string, area: real)
    requires i < |d.requirements| && j < |d.requirements|
    requires FirstInForce(d, SubjectSpan, BoundUpper, i) && FirstInForce(d, SubjectAspectRatio, BoundLower, j)
    requires RequiredBound(d.requirements, SubjectSpan, BoundUpper)
          == Some((d.requirements[i].name, EffectiveBound(d.requirements[i], BoundUpper)))
    requires RequiredBound(d.requirements, SubjectAspectRatio, BoundLower)
          == Some((d.requirements[j].name, EffectiveBound(d.requirements[j], BoundLower)))
    requires EffectiveBound(d.requirements[i], BoundUpper).si == StatedLimit(d.requirements[i])
    requires EffectiveBound(d.requirements[j], BoundLower).si == StatedFloor(d.requirements[j])
    ensures PairLimitsTheArea(d, i, j, name, area)
       <==> BoundContribution(name, Quantity(area, DimArea), true) in PairContribution(d)
  {
    hide FirstInForce, RequiredBound, Square, EffectiveBound, StatedLimit, StatedFloor;
    var b, a := StatedLimit(d.requirements[i]), StatedFloor(d.requirements[j]);
    if a > 0.0 {
      DivMul(Square(b), a);
      Scale(area, Square(b) / a, a);
    }
  }

  /** The contributions to the upper bound are exactly the caps, by name. */
  lemma CapsAreTheContributions(d: Design, name: string, area: real)
    ensures CapsTheArea(d, name, area)
       <==> exists c: BoundContribution :: c in MaximumContributions(d.requirements, SubjectWingArea) + PairContribution(d)
                        && c.known && c.source == name && c.value.si == area
  {
    hide MaximumContributions, PairContribution, PairLimitsTheArea, InForce, StatedLimit, Requirement.EffectiveMaximum;
    var stated, pair := MaximumContributions(d.requirements, SubjectWingArea), PairContribution(d);
    PairContributes(d, name, area);
    PairIsKnown(d);
    if r :| LimitsTheArea(d, r) && name == r.name && area == StatedLimit(r) {
      var c := BoundContribution(r.name, r.EffectiveMaximum(), true);
      TheAreaMaximumContributes(d, r);
      assert c in stated && c.value.si == area;
    }
    if c: BoundContribution :| c in stated + pair && c.known && c.source == name && c.value.si == area {
      if c in stated {
        var r := ContributedByAMaximum(d, c);
        assert LimitsTheArea(d, r);
      } else {
        assert c == BoundContribution(name, Quantity(area, DimArea), true);
      }
    }
  }

  lemma PairIsKnown(d: Design)
    ensures forall c :: c in PairContribution(d) ==> c.known && c.value.dim == DimArea
  {
    hide RequiredBound, Square;
  }

  lemma TheAreaMaximumContributes(d: Design, r: Requirement)
    requires LimitsTheArea(d, r)
    ensures BoundContribution(r.name, r.EffectiveMaximum(), true) in MaximumContributions(d.requirements, SubjectWingArea)
    ensures r.EffectiveMaximum().si == StatedLimit(r)
  {
    hide MaximumContributions;
    BoundsAreTheStatedOnes(r);
    TheBoundInForceIsTheTightenedOne(r, BoundUpper);
    MaximaAre(d.requirements, SubjectWingArea, BoundContribution(r.name, r.EffectiveMaximum(), true));
  }

  lemma ContributedByAMaximum(d: Design, c: BoundContribution) returns (r: Requirement)
    requires c in MaximumContributions(d.requirements, SubjectWingArea)
    ensures LimitsTheArea(d, r) && c.source == r.name && c.value.si == StatedLimit(r)
  {
    hide MaximumContributions, InForce;
    MaximaAre(d.requirements, SubjectWingArea, c);
    r :| r in d.requirements && Sizing.Caps(r, SubjectWingArea) && c == BoundContribution(r.name, r.EffectiveMaximum(), true);
    TheBoundInForceIsTheTightenedOne(r, BoundUpper);
    BoundsAreTheStatedOnes(r);
  }

  /** The upper bound is the smallest cap; where there is none, none is known. */
  lemma TheUpperBoundIsTheSmallestCap(d: Design, cap: real)
    ensures IsTheCap(d, cap) <==> AreaUpperBound(d).known && AreaUpperBound(d).value == Quantity(cap, DimArea)
  {
    hide MaximumContributions, PairContribution, CapsTheArea;
    var cs := MaximumContributions(d.requirements, SubjectWingArea) + PairContribution(d);
    BestIsTheExtreme(cs, BoundUpper);
    forall name, area: real
      ensures CapsTheArea(d, name, area) <==> exists i :: 0 <= i < |cs| && cs[i].known && cs[i].source == name && cs[i].value.si == area
    {
      CapsAreTheContributions(d, name, area);
    }
    forall i | 0 <= i < |cs| && cs[i].known
      ensures CapsTheArea(d, cs[i].source, cs[i].value.si)
    {
    }
  }

  // ----- What is named ------------------------------------------------------

  /** Equal to the tolerance. */
  predicate Close(x: real, best: real) {
    Abs(x - best) <= TOLERANCE * Abs(best)
  }

  /** A required case of this name needs an area tied at the floor. */
  ghost predicate NamesATiedNeed(d: Design, floor: real, name: string) {
    exists c, r, area: real :: Needs(d, c, r, area) && Close(area, floor) && c.flight.name == name
  }

  ghost predicate NamesATiedCap(d: Design, cap: real, name: string) {
    exists area: real :: CapsTheArea(d, name, area) && Close(area, cap)
  }

  lemma TheFloorIsControlledByTheTiedNeeds(d: Design, floor: real, name: string)
    requires IsTheFloor(d, floor)
    ensures name in AreaFloor(d).controlling <==> NamesATiedNeed(d, floor, name)
  {
    hide MassReading, CeilingsOver, MinimumAreaOf, Needs, IsTheFloor, Controllers;
    TheFloorIsTheLargestNeed(d, floor);
    var ceilings, mass := RequiredCeilings(d), MassReading(d).value;
    var cs := AreaContributions(ceilings, mass);
    ControllersAreTheTiedSources(cs, floor, name);
    if c, r, area: real :| Needs(d, c, r, area) && Close(area, floor) && c.flight.name == name {
      var i := NeedContributes(d, c, r, area);
      assert Tied(cs[i], floor) && cs[i].source == name;
    }
    if i :| 0 <= i < |cs| && Tied(cs[i], floor) && cs[i].source == name {
      ContributionIsNeeded(d, i);
      assert Needs(d, ceilings[i].flown, ceilings[i].requirement, cs[i].value.si) && Close(cs[i].value.si, floor);
    }
  }

  lemma TheCapIsControlledByTheTiedCaps(d: Design, cap: real, name: string)
    requires IsTheCap(d, cap)
    ensures name in AreaUpperBound(d).controlling <==> NamesATiedCap(d, cap, name)
  {
    hide MaximumContributions, PairContribution, CapsTheArea, IsTheCap, Controllers;
    TheUpperBoundIsTheSmallestCap(d, cap);
    var cs := MaximumContributions(d.requirements, SubjectWingArea) + PairContribution(d);
    ControllersAreTheTiedSources(cs, cap, name);
    if area: real :| CapsTheArea(d, name, area) && Close(area, cap) {
      CapsAreTheContributions(d, name, area);
      var c: BoundContribution :| c in cs && c.known && c.source == name && c.value.si == area;
      var i :| 0 <= i < |cs| && cs[i] == c;
      assert Tied(cs[i], cap) && cs[i].source == name;
    }
    if i :| 0 <= i < |cs| && Tied(cs[i], cap) && cs[i].source == name {
      CapsAreTheContributions(d, name, cs[i].value.si);
      assert CapsTheArea(d, name, cs[i].value.si) && Close(cs[i].value.si, cap);
    }
  }

  /** A conflict is reported exactly when the largest need lies past the smallest
      cap by more than the tolerance. There is one, and it names, in name order,
      exactly the required cases whose need is tied at the floor and the limits
      tied at the cap. */
  lemma TheReportedConflictNamesBothSides(p: Platform, d: Design, floor: real, cap: real)
    requires IsTheFloor(d, floor) && IsTheCap(d, cap)
    ensures Conflicts(p, d) != [] <==> floor > cap * (1.0 + TOLERANCE)
    ensures Conflicts(p, d) != [] ==>
              && |Conflicts(p, d)| == 1
              && multiset(Conflicts(p, d)[0].group)
                 == multiset(AreaFloor(d).controlling) + multiset(AreaUpperBound(d).controlling)
              && Sorted(Conflicts(p, d)[0].group, Itself)
              && forall name :: name in Conflicts(p, d)[0].group
                                <==> NamesATiedNeed(d, floor, name) || NamesATiedCap(d, cap, name)
  {
    hide AreaFloor, AreaUpperBound, AreaLowerBound, AreaAlternatives, IsTheFloor, IsTheCap, NamesATiedNeed, NamesATiedCap,
      SortByName, Sorted;
    AreaFloorIsTheLowerBound(d);
    TheFloorIsTheLargestNeed(d, floor);
    TheUpperBoundIsTheSmallestCap(d, cap);
    if Conflicts(p, d) != [] {
      forall name
        ensures name in Conflicts(p, d)[0].group <==> NamesATiedNeed(d, floor, name) || NamesATiedCap(d, cap, name)
      {
        TheFloorIsControlledByTheTiedNeeds(d, floor, name);
        TheCapIsControlledByTheTiedCaps(d, cap, name);
        SortedHolds(AreaFloor(d).controlling + AreaUpperBound(d).controlling, name);
      }
    }
  }

  lemma SortedHolds(names: seq<string>, name: string)
    ensures name in SortByName(names, Itself) <==> name in names
    ensures Sorted(SortByName(names, Itself), Itself)
  {
    assert name in SortByName(names, Itself) <==> name in multiset(SortByName(names, Itself));
    assert name in names <==> name in multiset(names);
  }

  /** Without a need or without a cap there is nothing to report. */
  lemma NothingIsReportedOfOneSide(p: Platform, d: Design)
    requires Conflicts(p, d) != []
    ensures exists floor: real, cap: real :: IsTheFloor(d, floor) && IsTheCap(d, cap)
  {
    hide AreaFloor, AreaUpperBound, AreaLowerBound, AreaAlternatives, IsTheFloor, IsTheCap, SortByName;
    AreaFloorIsTheLowerBound(d);
    BoundsAreAreas(d);
    TheFloorIsTheLargestNeed(d, AreaFloor(d).value.si);
    TheUpperBoundIsTheSmallestCap(d, AreaUpperBound(d).value.si);
  }

  lemma BoundsAreAreas(d: Design)
    ensures AreaFloor(d).known ==> AreaFloor(d).value.dim == DimArea
    ensures AreaUpperBound(d).known ==> AreaUpperBound(d).value.dim == DimArea
  {
    hide MassReading, CeilingsOver, AreaContributions, MaximumContributions, PairContribution;
  }

  // ----- What is offered ----------------------------------------------------

  /** The mass ceiling at the solved area is the smallest mass any required case
      allows there; where there is none, none is known. */
  lemma TheCeilingIsTheSmallestAllowance(p: Platform, d: Design, w: Wing, ceiling: real)
    requires SolveWing(p, d.wing) == Ok(w) && w.projected.area.Positive(DimArea)
    ensures MassUpperBound(p, d, AllRequiredCases).Ok?
    ensures var bound := MassUpperBound(p, d, AllRequiredCases).value;
            IsTheCeiling(d, w.projected.area.si, ceiling) <==> bound.known && bound.value == Quantity(ceiling, DimMass)
  {
    hide SolveWing, CeilingsOver, MaximumMassOf, Allows;
    var ceilings, area := RequiredCeilings(d), w.projected.area;
    var cs := MassContributions(ceilings, area);
    BestIsTheExtreme(cs, BoundUpper);
    forall c, r, mass: real | Allows(d, c, r, area.si, mass)
      ensures exists i :: 0 <= i < |cs| && cs[i].known && cs[i].value.si == mass
    {
      var i := AllowanceContributes(d, c, r, area, mass);
      assert cs[i].known;
    }
    forall i | 0 <= i < |cs| && cs[i].known
      ensures Allows(d, ceilings[i].flown, ceilings[i].requirement, area.si, cs[i].value.si)
    {
      ContributionIsAllowed(d, i, area);
    }
    if Best(cs, BoundUpper).Some? {
      var k :| 0 <= k < |cs| && cs[k].known && cs[k].value.si == Best(cs, BoundUpper).value;
      assert Allows(d, ceilings[k].flown, ceilings[k].requirement, area.si, Best(cs, BoundUpper).value);
    }
  }

  lemma AllowanceContributes(d: Design, c: DesignCase, r: Requirement, area: Quantity, mass: real) returns (i: nat)
    requires area.Positive(DimArea) && Allows(d, c, r, area.si, mass)
    ensures i < |RequiredCeilings(d)| && RequiredCeilings(d)[i] == StallCeiling(c, r)
    ensures MaximumMassOf(RequiredCeilings(d)[i], area) == Ok(Quantity(mass, DimMass))
  {
    hide CeilingsOver, MaximumMassOf, Limits;
    CeilingsAreLimits(d, StallCeiling(c, r));
    i :| 0 <= i < |RequiredCeilings(d)| && RequiredCeilings(d)[i] == StallCeiling(c, r);
    CapacityIsTheAllowance(d, StallCeiling(c, r), area, mass);
  }

  lemma ContributionIsAllowed(d: Design, i: nat, area: Quantity)
    requires area.Positive(DimArea)
    requires i < |RequiredCeilings(d)| && MaximumMassOf(RequiredCeilings(d)[i], area).Ok?
    ensures var x := RequiredCeilings(d)[i];
            Allows(d, x.flown, x.requirement, area.si, MaximumMassOf(x, area).value.si)
  {
    hide CeilingsOver, MaximumMassOf, Allows;
    var x := RequiredCeilings(d)[i];
    AllowanceIsAMass(x, area);
    CapacityIsTheAllowance(d, x, area, MaximumMassOf(x, area).value.si);
  }

  lemma AllowanceIsAMass(x: StallCeiling, area: Quantity)
    requires MaximumMassOf(x, area).Ok?
    ensures MaximumMassOf(x, area).value.dim == DimMass
  {
  }

  ghost predicate AspectIsStated(d: Design) {
    exists k: nat :: FirstInForce(d, SubjectAspectRatio, BoundLower, k)
  }

  ghost predicate AMassIsAllowed(p: Platform, d: Design) {
    var w := SolveWing(p, d.wing);
    w.Ok? && exists m :: IsTheCeiling(d, w.value.projected.area.si, m)
  }

  predicate Spans(span: real, area: real, aspect: real) {
    span >= 0.0 && Square(span) == area * aspect
  }

  /** The span that carries the area at the first required aspect ratio. */
  ghost predicate CarriesTheArea(d: Design, span: Quantity, area: real) {
    && span.dim == DimLength
    && forall k: nat :: k < |d.requirements| && FirstInForce(d, SubjectAspectRatio, BoundLower, k)
                        && StatedFloor(d.requirements[k]) >= 0.0 ==>
         Spans(span.si, area, StatedFloor(d.requirements[k]))
  }

  /** A span is offered exactly when a required aspect-ratio minimum is in force,
      and carries the demanded area at it; then a mass exactly when the wing solves
      and some required case allows one on it, and is the smallest any allows. */
  lemma TheConflictOffers(p: Platform, d: Design, floor: real)
    requires p.Lawful() && Conflicts(p, d) != [] && IsTheFloor(d, floor)
    ensures var offered := Conflicts(p, d)[0].alternatives;
            && |offered| == (if AspectIsStated(d) then 1 else 0) + (if AMassIsAllowed(p, d) then 1 else 0)
            && (AspectIsStated(d) ==> offered[0].GrowSpan? && CarriesTheArea(d, offered[0].span, floor))
            && (AMassIsAllowed(p, d) ==>
                  && offered[|offered| - 1].ReduceMass? && offered[|offered| - 1].mass.dim == DimMass
                  && IsTheCeiling(d, SolveWing(p, d.wing).value.projected.area.si, offered[|offered| - 1].mass.si))
  {
    hide AreaFloor, AreaUpperBound, AreaLowerBound, IsTheFloor, IsTheCeiling, RequiredBound, MassUpperBound,
      SortByName, SolveWing, AspectIsStated, AMassIsAllowed, CarriesTheArea, SpanCarrying;
    AreaFloorIsTheLowerBound(d);
    TheFloorIsTheLargestNeed(d, floor);
    SpanOffered(p, d, AreaFloor(d).value);
    MassOffered(p, d);
  }

  lemma SpanOffered(p: Platform, d: Design, lower: Quantity)
    requires p.Lawful() && IsTheFloor(d, lower.si)
    ensures var aspect := RequiredBound(d.requirements, SubjectAspectRatio, BoundLower);
            && (aspect.Some? <==> AspectIsStated(d))
            && (aspect.Some? ==> CarriesTheArea(d, Quantity(SpanCarrying(p, aspect.value.1.si, lower.si), DimLength), lower.si))
  {
    hide RequiredBound, FirstInForce, Square, EffectiveBound, StatedFloor, Needs, IsTheFloor, Spans, SpanCarrying;
    TheFirstInForceIsRead(d, SubjectAspectRatio, BoundLower);
    FloorIsPositive(d, lower.si);
    var aspect := RequiredBound(d.requirements, SubjectAspectRatio, BoundLower);
    if aspect.Some? {
      var span := SpanCarrying(p, aspect.value.1.si, lower.si);
      forall k: nat | k < |d.requirements| && FirstInForce(d, SubjectAspectRatio, BoundLower, k)
                      && StatedFloor(d.requirements[k]) >= 0.0
        ensures Spans(span, lower.si, StatedFloor(d.requirements[k]))
      {
        ReadAsStatedAt(d, k);
        SpanSquared(p, aspect.value.1.si, lower.si, StatedFloor(d.requirements[k]));
      }
    }
  }

  lemma SpanSquared(p: Platform, aspect: real, area: real, stated: real)
    requires p.Lawful() && aspect >= 0.0 && area > 0.0 && stated == aspect
    ensures Spans(SpanCarrying(p, aspect, area), area, stated)
  {
    NonnegativeProduct(aspect, area);
  }

  lemma ReadAsStatedAt(d: Design, k: nat)
    requires k < |d.requirements| && FirstInForce(d, SubjectAspectRatio, BoundLower, k)
    ensures RequiredBound(d.requirements, SubjectAspectRatio, BoundLower).Some?
    ensures RequiredBound(d.requirements, SubjectAspectRatio, BoundLower).value.1.si == StatedFloor(d.requirements[k])
  {
    hide RequiredBound;
    TheFirstInForceIsRead(d, SubjectAspectRatio, BoundLower);
    OnlyOneIsFirst(d, SubjectAspectRatio, BoundLower, k);
    BoundsAreTheStatedOnes(d.requirements[k]);
  }

  lemma FloorIsPositive(d: Design, floor: real)
    requires IsTheFloor(d, floor)
    ensures floor > 0.0
  {
    hide MassReading, Needs;
    var c, r :| Needs(d, c, r, floor);
    var i := NeedContributes(d, c, r, floor);
    NeededAreaIsPositive(RequiredCeilings(d)[i], MassReading(d).value);
  }

  lemma NeededAreaIsPositive(x: StallCeiling, mass: Quantity)
    requires MinimumAreaOf(x, mass).Ok?
    ensures MinimumAreaOf(x, mass).value.si > 0.0
  {
  }

  lemma MassOffered(p: Platform, d: Design)
    requires p.Lawful()
    ensures var bound := MassUpperBound(p, d, AllRequiredCases);
            && (bound.Ok? && bound.value.known <==> AMassIsAllowed(p, d))
            && (AMassIsAllowed(p, d) ==>
                  && bound.value.value.dim == DimMass
                  && IsTheCeiling(d, SolveWing(p, d.wing).value.projected.area.si, bound.value.value.si))
  {
    hide SolveWing, CeilingsOver, IsTheCeiling, MassContributions, IsTrapezoid;
    var w := SolveWing(p, d.wing);
    if w.Ok? {
      PlanViewOf(p, d.wing, w.value);
      var bound := MassUpperBound(p, d, AllRequiredCases).value;
      TheCeilingIsTheSmallestAllowance(p, d, w.value, bound.value.si);
      if m :| IsTheCeiling(d, w.value.projected.area.si, m) {
        TheCeilingIsTheSmallestAllowance(p, d, w.value, m);
      }
    }
  }

  /** And taken, it resolves what it says: at that mass the largest area any
      required case needs is the current one. */
  lemma TheOfferedMassNeedsTheCurrentArea(d: Design, area: real, mass: real)
    requires area > 0.0 && IsTheCeiling(d, area, mass)
    ensures IsTheFloor(d.(mass := Quantity(mass, DimMass), massMode := MassModeEntered), area)
  {
    hide Limits, CarriesAt, MassReading;
    var after := d.(mass := Quantity(mass, DimMass), massMode := MassModeEntered);
    var c, r :| Allows(d, c, r, area, mass);
    AllowedMassIsPositive(d, c, r, area, mass);
    EnteredMassIsRead(after);
    forall x, q | Limits(after, x, q)
      ensures Limits(d, x, q)
    {
      SameLimits(d, after, x, q);
    }
    SameLimits(d, after, c, r);
    assert Needs(after, c, r, area);
    forall x, q, s: real | Needs(after, x, q, s)
      ensures s <= area
    {
      var most := AllowanceOf(d, x, q, area);
      NeedFollowsAllowance(d, x, q, area, most, s, mass);
    }
  }

  lemma SameLimits(d: Design, after: Design, c: DesignCase, r: Requirement)
    requires after.cases == d.cases && after.requirements == d.requirements
    ensures Limits(d, c, r) <==> Limits(after, c, r)
  {
  }

  lemma EnteredMassIsRead(d: Design)
    requires d.massMode == MassModeEntered && d.mass.Positive(DimMass)
    ensures MassReading(d).value == d.mass
  {
  }

  lemma LimitsWeigh(d: Design, c: DesignCase, r: Requirement)
    requires Limits(d, c, r)
    ensures Demand(c.flight) > 0.0 && Capacity(c.flight) > 0.0 && Square(StatedLimit(r)) > 0.0
  {
    LimitIsPositive(d, c, r);
    LiftIsStatedExactly(c.flight);
    CapacityPositive(c.flight);
  }

  lemma AllowanceOf(d: Design, c: DesignCase, r: Requirement, area: real) returns (mass: real)
    requires Limits(d, c, r)
    ensures Allows(d, c, r, area, mass)
  {
    hide Limits, Square;
    LimitsWeigh(d, c, r);
    mass := Square(StatedLimit(r)) * (Capacity(c.flight) * area) / Demand(c.flight);
    DivMul(Square(StatedLimit(r)) * (Capacity(c.flight) * area), Demand(c.flight));
  }

  lemma AllowedMassIsPositive(d: Design, c: DesignCase, r: Requirement, area: real, mass: real)
    requires area > 0.0 && Allows(d, c, r, area, mass)
    ensures mass > 0.0
  {
    hide Limits, Square;
    LimitsWeigh(d, c, r);
    assert Capacity(c.flight) * area > 0.0;
    assert Square(StatedLimit(r)) * (Capacity(c.flight) * area) > 0.0;
    Scale(mass, 0.0, Demand(c.flight));
  }

  lemma NeedFollowsAllowance(d: Design, c: DesignCase, r: Requirement, area: real, most: real, s: real, mass: real)
    requires Limits(d, c, r) && mass <= most
    requires CarriesAt(c.flight, most, area, StatedLimit(r)) && CarriesAt(c.flight, mass, s, StatedLimit(r))
    ensures s <= area
  {
    hide Limits, Square;
    LimitsWeigh(d, c, r);
    Scale(mass, most, Demand(c.flight));
    Scale(Capacity(c.flight) * s, Capacity(c.flight) * area, Square(StatedLimit(r)));
    Scale(s, area, Capacity(c.flight));
  }

  // ----- What a bound shows -------------------------------------------------

  /** A required case is limited by a required stall maximum in force, and no area
      it needs is known. */
  ghost predicate SomeNeedIsUnknown(d: Design) {
    exists c, r ::
      && IsLimited(d, c, r)
      && forall area: real :: !Needs(d, c, r, area)
  }

  predicate IsLimited(d: Design, c: DesignCase, r: Requirement) {
    && c in d.cases && c.priority == PriorityRequired
    && StatesInForce(r, SubjectStallSpeed, BoundUpper) && r in d.requirements && c.flight.name in r.cases
  }

  lemma LimitedAreTheCeilings(d: Design, x: StallCeiling)
    ensures x in RequiredCeilings(d) <==> IsLimited(d, x.flown, x.requirement)
  {
    hide CeilingsOver, InForce, Requirement.EffectiveMaximum;
    CeilingsOverAre(d.cases, d.requirements, AllRequiredCases, x);
    TheBoundInForceIsTheTightenedOne(x.requirement, BoundUpper);
  }

  lemma UnknownNeed(d: Design, x: StallCeiling)
    requires x in RequiredCeilings(d)
    ensures MinimumAreaOf(x, MassReading(d).value).Refused? <==> forall area: real :: !Needs(d, x.flown, x.requirement, area)
  {
    hide CeilingsOver, MassReading, MinimumAreaOf, Needs;
    forall area: real
      ensures Needs(d, x.flown, x.requirement, area) <==> MinimumAreaOf(x, MassReading(d).value) == Ok(Quantity(area, DimArea))
    {
      DemandIsTheNeed(d, x, area);
    }
    if MinimumAreaOf(x, MassReading(d).value).Ok? {
      DemandIsAnArea(x, MassReading(d).value);
      assert Needs(d, x.flown, x.requirement, MinimumAreaOf(x, MassReading(d).value).value.si);
    }
  }

  /** A bound nothing contributes to shows no value and nothing in control of it,
      and the lower one is partial exactly when some required stall maximum in force
      needs an area that is not known. */
  lemma UnknownBoundsShowNothing(d: Design)
    ensures !AreaFloor(d).known ==> AreaFloor(d).value == UNSET && AreaFloor(d).controlling == []
    ensures !AreaUpperBound(d).known ==> AreaUpperBound(d).value == UNSET && AreaUpperBound(d).controlling == []
    ensures AreaFloor(d).partial <==> SomeNeedIsUnknown(d)
    ensures !AreaUpperBound(d).partial
  {
    hide CeilingsOver, MassReading, MinimumAreaOf, Needs, MaximumContributions, PairContribution, Controllers, Best, IsLimited;
    var ceilings, mass := RequiredCeilings(d), MassReading(d).value;
    forall i | 0 <= i < |ceilings|
      ensures !AreaContributions(ceilings, mass)[i].known
         <==> forall area: real :: !Needs(d, ceilings[i].flown, ceilings[i].requirement, area)
      ensures IsLimited(d, ceilings[i].flown, ceilings[i].requirement)
    {
      UnknownNeed(d, ceilings[i]);
      LimitedAreTheCeilings(d, ceilings[i]);
    }
    if c, r :| IsLimited(d, c, r) && forall area: real :: !Needs(d, c, r, area) {
      LimitedAreTheCeilings(d, StallCeiling(c, r));
      var i :| 0 <= i < |ceilings| && ceilings[i] == StallCeiling(c, r);
      assert !AreaContributions(ceilings, mass)[i].known;
    }
    MaximumContributionsAre(d.requirements, SubjectWingArea, 0.0);
    PairIsKnown(d);
    var stated, pair := MaximumContributions(d.requirements, SubjectWingArea), PairContribution(d);
    assert forall i :: 0 <= i < |stated + pair| ==> (stated + pair)[i] in stated || (stated + pair)[i] in pair;
  }
}
