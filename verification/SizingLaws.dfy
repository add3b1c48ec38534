/** When sizing at the stall limit is accepted, and when the mass interval is
    empty. */
module SizingLaws {
  import opened Quantities
  import opened Definition
  import opened Reals
  import opened Lift
  import opened Planforms
  import opened Wings
  import opened MassBalance
  import opened Sizing
  import opened Feasibility
  import opened Keys
  import opened Commands
  import opened Editing
  import opened StatedChecks
  import opened ConflictReports

  // ----- Sizing -------------------------------------------------------------

  /** Every required case, or one the design lists. */
  predicate ScopeIsNamed(d: Design, scope: CaseScope) {
    match scope
    case AllRequiredCases => true
    case SingleCase(name) => exists c :: c in d.cases && c.flight.name == name
    case ScopeUnstated => false
  }

  /** A stall maximum that sizes the wing: in scope, of a case that states its lift,
      with something left of it under its margin. */
  predicate Sizes(d: Design, scope: CaseScope, c: DesignCase, r: Requirement) {
    && c in d.cases && r in d.requirements && r.subject == SubjectStallSpeed && c.flight.name in r.cases
    && (match scope
        case AllRequiredCases => c.priority == PriorityRequired && r.priority == PriorityRequired
        case SingleCase(name) => c.flight.name == name
        case ScopeUnstated => false)
    && StatesLift(c.flight) && LimitsASpeed(r) && MassReading(d).value.Positive(DimMass)
  }

  /** The area has a driver to be written to. */
  predicate HasAnAreaDriver(p: Platform, def: WingDefinition) {
    || def.dihedralMode != DihedralHoldPanel || def.dihedral.si == 0.0
    || (def.dihedral.dim == DimAngle && p.cos(def.dihedral.si) > 0.0)
  }

  lemma ScopesAreNamed(d: Design, scope: CaseScope)
    ensures StallCeilings(d, scope).Ok? <==> ScopeIsNamed(d, scope)
    ensures StallCeilings(d, scope).Ok? ==> StallCeilings(d, scope).value == CeilingsOver(d.cases, d.requirements, scope)
  {
    hide CeilingsOver, Lookup;
    if scope.SingleCase? {
      ACaseIsListed(d.cases, scope.name);
    }
  }

  lemma SizingCeilings(d: Design, scope: CaseScope, x: StallCeiling)
    requires ScopeIsNamed(d, scope)
    ensures x in CeilingsOver(d.cases, d.requirements, scope) && MinimumAreaOf(x, MassReading(d).value).Ok?
       <==> Sizes(d, scope, x.flown, x.requirement)
  {
    hide MassReading, CeilingsOver, StatesLift, MinimumWingArea, Requirement.EffectiveMaximum, LimitsASpeed;
    LimitIsTheStatedOne(x.requirement);
    CeilingsOverAre(d.cases, d.requirements, scope, x);
    LiftIsStatedExactly(x.flown.flight);
    MinimumWingAreaSucceeds(x.flown.flight, MassReading(d).value, x.Limit());
  }

  lemma AreaIsDrivenExactly(p: Platform, def: WingDefinition, area: Quantity)
    requires area.Positive(DimArea)
    ensures AreaDriverFor(p, def, area).Ok? <==> HasAnAreaDriver(p, def)
  {
    var c := p.cos(def.dihedral.si);
    if c > 0.0 {
      DivPositive(area.si, c);
    } else if c < 0.0 {
      NegativeQuotient(area.si, c);
    }
  }

  lemma NegativeQuotient(x: real, y: real)
    requires x > 0.0 && y < 0.0
    ensures x / y < 0.0
  {
    DivMul(x, y);
  }

  lemma BoundIsKnownExactly(d: Design, scope: CaseScope)
    requires ScopeIsNamed(d, scope)
    ensures AreaLowerBound(d, scope).Ok?
    ensures AreaLowerBound(d, scope).value.known <==> exists c, r :: Sizes(d, scope, c, r)
  {
    hide MassReading, CeilingsOver, MinimumAreaOf, Sizes, ScopeIsNamed;
    ScopesAreNamed(d, scope);
    var ceilings, mass := CeilingsOver(d.cases, d.requirements, scope), MassReading(d).value;
    var cs := AreaContributions(ceilings, mass);
    BestIsTheExtreme(cs, BoundLower);
    if c, r :| Sizes(d, scope, c, r) {
      SizingCeilings(d, scope, StallCeiling(c, r));
      var i :| 0 <= i < |ceilings| && ceilings[i] == StallCeiling(c, r);
      assert cs[i].known;
    }
    if i :| 0 <= i < |cs| && cs[i].known {
      SizingCeilings(d, scope, ceilings[i]);
      assert Sizes(d, scope, ceilings[i].flown, ceilings[i].requirement);
    }
  }

  /** Sizing is accepted exactly when it holds a driver other than the area, its
      scope names cases, some stall maximum in it sizes the wing, and the area has a
      driver to be written to. */
  lemma SizingIsAcceptedExactly(p: Platform, d: Design, key: ParameterKey, scope: CaseScope)
    requires p.Lawful()
    ensures ApplySizing(p, d, key, scope).Ok?
       <==> && CanonicalSizeKey(key) in {Some(ParamSpanProjected), Some(ParamAspectRatio), Some(ParamChordRoot)}
            && HoldsDriver(d.wing.drivers, key) && ScopeIsNamed(d, scope)
            && (exists c, r :: Sizes(d, scope, c, r)) && HasAnAreaDriver(p, d.wing)
  {
    hide AreaLowerBound, ApplySizing, AreaDriverFor, Sizes, ScopeIsNamed, HasAnAreaDriver, HoldsDriver, CanonicalSizeKey,
      StallCeilings;
    SizingGoesThrough(p, d, key, scope);
    HeldKeys(d.wing, key);
    ScopesAreNamed(d, scope);
    UnnamedScopesHaveNoBound(d, scope);
    if ScopeIsNamed(d, scope) {
      BoundIsKnownExactly(d, scope);
      if AreaLowerBound(d, scope).value.known {
        KnownLowerBoundIsAnArea(p, d, scope);
        AreaIsDrivenExactly(p, d.wing, AreaLowerBound(d, scope).value.value);
      }
    }
  }

  lemma SizingGoesThrough(p: Platform, d: Design, key: ParameterKey, scope: CaseScope)
    ensures ApplySizing(p, d, key, scope).Ok?
       <==> && CanonicalSizeKey(key).Some? && CanonicalSizeKey(key).value != ParamAreaReference
            && HoldsDriver(d.wing.drivers, CanonicalSizeKey(key).value)
            && AreaLowerBound(d, scope).Ok? && AreaLowerBound(d, scope).value.known
            && AreaDriverFor(p, d.wing, AreaLowerBound(d, scope).value.value).Ok?
  {
    hide AreaLowerBound, DriverKeys, Released, AreaDriverFor, WithSizeDriver, HoldsDriver, CanonicalSizeKey;
  }

  lemma HeldKeys(def: WingDefinition, key: ParameterKey)
    ensures CanonicalSizeKey(key).Some? && CanonicalSizeKey(key).value != ParamAreaReference
       <==> CanonicalSizeKey(key) in {Some(ParamSpanProjected), Some(ParamAspectRatio), Some(ParamChordRoot)}
    ensures CanonicalSizeKey(key).Some? ==>
              HoldsDriver(def.drivers, CanonicalSizeKey(key).value) == HoldsDriver(def.drivers, key)
  {
  }

  lemma UnnamedScopesHaveNoBound(d: Design, scope: CaseScope)
    ensures AreaLowerBound(d, scope).Ok? <==> StallCeilings(d, scope).Ok?
  {
    hide CeilingsOver, StallCeilings;
  }

  // ----- The mass interval --------------------------------------------------

  /** The interval is complete exactly when both ends are known, and empty exactly
      when they cross by more than the tolerance; with everything known no mass
      meets the limits of an empty one, and one whose ends do not cross holds a mass
      wherever it allows any. */
  lemma AnEmptyIntervalHoldsNoMass(p: Platform, d: Design, scope: CaseScope)
    requires p.Lawful() && MassIntervalOf(p, d, scope).Ok?
    ensures var i := MassIntervalOf(p, d, scope).value;
            && (i.complete <==> i.lower.known && i.upper.known)
            && (i.lower.known ==> i.lower.value.dim == DimMass) && (i.upper.known ==> i.upper.value.dim == DimMass)
            && (i.empty <==> i.complete && i.lower.value.si > i.upper.value.si * (1.0 + TOLERANCE))
            && (i.complete && !i.lower.partial && !i.upper.partial && i.upper.value.si > 0.0 ==>
                  && (i.empty ==> forall m: real :: m > 0.0 ==> !MeetsMassLimits(p, d, scope, m))
                  && (i.lower.value.si <= i.upper.value.si <==>
                        exists m: real :: m > 0.0 && MeetsMassLimits(p, d, scope, m)))
  {
    hide Intersected, MassUpperBound, MassFloors, MaximumContributions, SolveWing, MeetsMassLimits;
    IntervalFlags(p, d, scope);
    var i := MassIntervalOf(p, d, scope).value;
    if i.complete && !i.lower.partial && !i.upper.partial && i.upper.value.si > 0.0 {
      forall m: real | m > 0.0
        ensures i.lower.value.si <= m <= i.upper.value.si <==> MeetsMassLimits(p, d, scope, m)
      {
        MassIntervalIsExact(p, d, scope, m);
      }
      if i.lower.value.si <= i.upper.value.si {
        assert MeetsMassLimits(p, d, scope, i.upper.value.si);
      }
    }
  }

  lemma IntervalFlags(p: Platform, d: Design, scope: CaseScope)
    requires MassIntervalOf(p, d, scope).Ok?
    ensures var i := MassIntervalOf(p, d, scope).value;
            && (i.complete <==> i.lower.known && i.upper.known)
            && (i.lower.known ==> i.lower.value.dim == DimMass) && (i.upper.known ==> i.upper.value.dim == DimMass)
            && (i.empty <==> i.complete && i.lower.value.si > i.upper.value.si * (1.0 + TOLERANCE))
  {
    hide Best, Controllers, MassContributions, MassFloors, MaximumContributions, SolveWing, StallCeilings;
  }

  /** A case in scope is limited by a stall maximum in force that counts there. */
  predicate IsLimitedIn(d: Design, scope: CaseScope, c: DesignCase, r: Requirement) {
    && c in d.cases && r in d.requirements && r.subject == SubjectStallSpeed && c.flight.name in r.cases
    && InForce(r, BoundUpper)
    && (match scope
        case AllRequiredCases => c.priority == PriorityRequired && r.priority == PriorityRequired
        case SingleCase(name) => c.flight.name == name
        case ScopeUnstated => c.priority == PriorityRequired)
  }

  lemma LimitedInScope(d: Design, scope: CaseScope, x: StallCeiling)
    ensures x in CeilingsOver(d.cases, d.requirements, scope) <==> IsLimitedIn(d, scope, x.flown, x.requirement)
  {
    hide CeilingsOver, InForce, Requirement.EffectiveMaximum;
    CeilingsOverAre(d.cases, d.requirements, scope, x);
    TheBoundInForceIsTheTightenedOne(x.requirement, BoundUpper);
  }

  lemma SomeCeilingMeansLimited(d: Design, scope: CaseScope)
    ensures |CeilingsOver(d.cases, d.requirements, scope)| > 0 <==> exists c, r :: IsLimitedIn(d, scope, c, r)
  {
    hide CeilingsOver, IsLimitedIn;
    var ceilings := CeilingsOver(d.cases, d.requirements, scope);
    if ceilings != [] {
      LimitedInScope(d, scope, ceilings[0]);
    }
    if c, r :| IsLimitedIn(d, scope, c, r) {
      LimitedInScope(d, scope, StallCeiling(c, r));
    }
  }

  /** Without a solved wing no ceiling bounds the mass, and the ceiling bound is
      partial exactly when some case in scope is limited at all. */
  lemma WithoutAWingNoCeilingBinds(p: Platform, d: Design, scope: CaseScope)
    requires SolveWing(p, d.wing).Refused? && ScopeIsNamed(d, scope)
    ensures MassUpperBound(p, d, scope).Ok?
    ensures var bound := MassUpperBound(p, d, scope).value;
            && !bound.known && bound.value == UNSET && bound.contributions == []
            && (bound.partial <==> exists c, r :: IsLimitedIn(d, scope, c, r))
  {
    hide SolveWing, CeilingsOver, IsLimitedIn, StallCeilings, ScopeIsNamed;
    ScopesAreNamed(d, scope);
    SomeCeilingMeansLimited(d, scope);
  }
}
