/** When a sweep or a search is planned, where its samples lie, what it draws and
    how a candidate is judged, over the settings, the design and its requirements. */
module SweepLaws {
  import opened Quantities
  import opened Definition
  import opened Reals
  import opened Planforms
  import opened MassBalance
  import opened Sizing
  import opened Requirements
  import opened StatedChecks
  import opened Keys
  import opened Commands
  import opened Editing
  import opened Snapshots
  import opened Sweeps
  import PowerSearch
  import SolvableWings

  // ----- Planning -----------------------------------------------------------

  /** An entered mass, or a size driver the design holds. */
  predicate MayMove(d: Design, key: ParameterKey) {
    if key == ParamAllUpMass then d.massMode != MassModeComponents else HoldsDriver(d.wing.drivers, key)
  }

  function MovedDimension(key: ParameterKey): Dimension {
    match key
    case ParamAllUpMass => DimMass
    case ParamAreaReference | ParamAreaPanel => DimArea
    case ParamAspectRatio => Dimensionless
    case _ => DimLength
  }

  /** Two different positive ends, and from 2 to 65 samples. */
  predicate RangeStands(s: SweepSettings) {
    && s.from.dim == s.to.dim == MovedDimension(s.driver)
    && s.from.si > 0.0 && s.to.si > 0.0 && s.from.si != s.to.si
    && 2 <= s.samples <= 65
  }

  /** A known subject, with a listed case exactly when it is the stall speed. */
  predicate OutputStands(d: Design, o: SweepOutput) {
    && o.subject != SubjectUnknown
    && if o.subject == SubjectStallSpeed
       then o.caseName != "" && exists c :: c in d.cases && c.flight.name == o.caseName
       else o.caseName == ""
  }

  lemma DriverMovesExactly(d: Design, key: ParameterKey)
    ensures ResolveSweptDriver(d, key).1 == [] <==> MayMove(d, key)
    ensures MayMove(d, key) ==> SweptDimension(ResolveSweptDriver(d, key).0) == MovedDimension(key)
  {
  }

  lemma RangeStandsExactly(s: SweepSettings)
    ensures RangeIssues(s, MovedDimension(s.driver)) == [] <==> RangeStands(s)
  {
  }

  lemma OutputStandsExactly(d: Design, o: SweepOutput)
    ensures OutputIssues(d, o) == [] <==> OutputStands(d, o)
  {
    hide Lookup;
    ACaseIsListed(d.cases, o.caseName);
  }

  /** A sweep is planned exactly when its driver may move, the plan form has a
      supported path, and its range and output stand. */
  lemma ASweepIsPlannedExactly(p: Platform, d: Design, s: SweepSettings)
    ensures PlanSweep(p, d, s).Ok?
       <==> && MayMove(d, s.driver) && RangeStands(s) && OutputStands(d, s.output)
            && SuppliedDrivers(d.wing.drivers) == 2 && SolvableWings.TaperStands(d.wing.drivers)
  {
    hide SolvePath, OutputIssues, RangeIssues, ResolveSweptDriver, Snapshot, MayMove, RangeStands, OutputStands,
      SweptDimension, MovedDimension, SuppliedDrivers, SolvableWings.TaperStands, ResolveTaper, HeldDuringSweep;
    DriverMovesExactly(d, s.driver);
    RangeStandsExactly(s);
    OutputStandsExactly(d, s.output);
    SupportedExactlyWithTwoDrivers(p, d.wing.drivers);
    SolvableWings.TaperStandsExactly(d.wing.drivers);
  }

  /** A power search is planned exactly when its ceiling is a power, a mission is
      stated, and the same range of the same driver may be swept. */
  lemma ASearchIsPlannedExactly(p: Platform, d: Design, s: PowerSearch.SearchSettings)
    ensures PowerSearch.PlanSearch(p, d, s).Ok?
       <==> && s.ceiling.dim == DimPower && d.mission.segments != []
            && MayMove(d, s.driver)
            && RangeStands(SweepSettings(s.driver, SweepOutput("", SubjectElectricalPower), s.from, s.to, s.samples))
            && SuppliedDrivers(d.wing.drivers) == 2 && SolvableWings.TaperStands(d.wing.drivers)
  {
    hide PlanSweep, MayMove, RangeStands, SuppliedDrivers, SolvableWings.TaperStands;
    ASweepIsPlannedExactly(p, d, PowerSearch.SweepOf(s));
  }

  // ----- Samples ------------------------------------------------------------

  /** The samples are evenly spaced from one end to the other. */
  lemma SamplesAreEvenlySpaced(s: SweepSettings, n: int)
    requires RangeStands(s) && 0 <= n < s.samples
    ensures DriverValue(s, n).dim == s.from.dim
    ensures (DriverValue(s, n).si - s.from.si) * Float(s.samples - 1) == (s.to.si - s.from.si) * Float(n)
  {
    hide Fraction, DriverValue;
    ValueIsInterpolated(s, n);
    FractionOfTheWhole(n, s.samples - 1);
    Spaced(s.from.si, s.to.si, Fraction(n, s.samples - 1), Float(s.samples - 1), Float(n), DriverValue(s, n).si);
  }

  lemma Spaced(from: real, to: real, fraction: real, whole: real, n: real, value: real)
    requires value == Along(from, to, fraction) && fraction * whole == n
    ensures (value - from) * whole == (to - from) * n
  {
    assert (to - from) * fraction * whole == (to - from) * (fraction * whole);
  }

  // ----- Boundaries ---------------------------------------------------------

  /** The boundary is a side the requirement states on the plotted output,
      tightened by its margin. */
  predicate Draws(r: Requirement, o: SweepOutput, b: SweepBound) {
    && r.subject == o.subject && (o.subject == SubjectStallSpeed ==> o.caseName in r.cases)
    && InForce(r, b.direction) && IsTightened(r, b.direction, b.value)
    && b.name == r.name && b.priority == r.priority
  }

  /** A boundary is drawn exactly when some requirement states it. */
  lemma ABoundaryIsDrawnExactlyWhenStated(requirements: seq<Requirement>, o: SweepOutput, b: SweepBound)
    ensures b in BoundsOn(requirements, o) <==> exists r :: r in requirements && Draws(r, o, b)
  {
    hide BoundsOn, BoundSide, InForce, IsTightened, Plotted;
    BoundsAreTheStatedSides(requirements, o, b);
    forall r: Requirement
      ensures Plotted(r, o) && (b in BoundSide(r, BoundLower) || b in BoundSide(r, BoundUpper)) <==> Draws(r, o, b)
    {
      OneBoundaryIsDrawn(r, o, b);
    }
    if b in BoundsOn(requirements, o) {
      var r: Requirement, direction: BoundDirection :| r in requirements && Plotted(r, o) && b in BoundSide(r, direction);
      assert direction == BoundLower || direction == BoundUpper;
      assert Draws(r, o, b);
    }
    if r: Requirement :| r in requirements && Draws(r, o, b) {
      var direction := if b in BoundSide(r, BoundLower) then BoundLower else BoundUpper;
      assert r in requirements && Plotted(r, o) && b in BoundSide(r, direction);
    }
  }

  lemma OneBoundaryIsDrawn(r: Requirement, o: SweepOutput, b: SweepBound)
    ensures Plotted(r, o) && (b in BoundSide(r, BoundLower) || b in BoundSide(r, BoundUpper)) <==> Draws(r, o, b)
  {
    hide InForce, IsTightened, EffectiveBound;
    TheBoundInForceIsTheTightenedOne(r, BoundLower);
    TheBoundInForceIsTheTightenedOne(r, BoundUpper);
    if IsTightened(r, b.direction, b.value) && InForce(r, b.direction) {
      TightenedIsUnique(r, b.direction, b.value, EffectiveBound(r, b.direction));
    }
  }

  // ----- Candidates ---------------------------------------------------------

  /** A candidate shows its value, what it demands and whether its required checks
      hold. Where the demand is computed, the margin is the room under the ceiling as
      a share of it, and it lies within exactly to the tolerance; otherwise it shows
      no demand and is not feasible. */
  lemma ACandidateIsJudged(p: Platform, driver: Quantity, candidate: Design, ceiling: Quantity)
    ensures var c := PowerSearch.JudgeCandidate(p, driver, candidate, ceiling);
            var demand := ReadPowerSubject(p, candidate, SubjectElectricalPower);
            && c.driver == driver && c.status == demand.status
            && (c.feasibility, c.hasRequired) == Aggregated(Assessment(p, candidate))
            && if demand.status == ResultComputed then
                 && c.demand == demand.value
                 && (c.withinCeiling <==> demand.value.si <= ceiling.si + TOLERANCE * ceiling.si)
                 && if ceiling.si == 0.0 then c.margin == 0.0
                    else c.margin * Abs(ceiling.si) == ceiling.si - demand.value.si
               else c.demand == UNSET && c.margin == 0.0 && !c.withinCeiling && !c.feasible
  {
    hide ReadPowerSubject, Assessment, Aggregated;
    var demand := ReadPowerSubject(p, candidate, SubjectElectricalPower);
    if ceiling.si != 0.0 {
      DivMul(ceiling.si - demand.value.si, Abs(ceiling.si));
    }
  }

  /** An interval runs from the first to the last value of its run; an end is open
      exactly when no candidate lies beyond it, and is otherwise bracketed by the
      infeasible candidate next to it. */
  lemma AnIntervalBracketsItsRun(cs: seq<PowerSearch.SearchCandidate>, r: PowerSearch.Run)
    requires PowerSearch.IsMaximalRun(cs, r)
    ensures var i := PowerSearch.Interval(cs, r);
            && i.first == cs[r.first].driver && cs[r.first].feasible
            && i.last == cs[r.last].driver && cs[r.last].feasible
            && (if i.openLow then r.first == 0 && i.belowFirst == UNSET
                else r.first > 0 && i.belowFirst == cs[r.first - 1].driver && !cs[r.first - 1].feasible)
            && (if i.openHigh then r.last == |cs| - 1 && i.aboveLast == UNSET
                else r.last < |cs| - 1 && i.aboveLast == cs[r.last + 1].driver && !cs[r.last + 1].feasible)
  {
  }
}
