/** The lumped lift equations and the flight case they are evaluated in. */
module Lift {
  import opened Quantities
  import opened Definition
  import opened Reals
  import opened Roots

  /** A density states where it came from. */
  function DensityIssues(fc: FlightCase): Issues {
    (if fc.densityBasis == "" then [IssueMissing] else []) + QuantityIssues(fc.density, DimDensity)
  }

  /** A section coefficient is never read as a whole-aircraft one. */
  function CLmaxIssues(fc: FlightCase): Issues {
    match fc.clmax.scope
    case ScopeAirfoilSection => [IssueUnsupported]
    case ScopeUnknown => [IssueMissing]
    case ScopeAircraft =>
      (if fc.clmax.basis == "" then [IssueMissing] else []) + ScalarIssues(fc.clmax.max)
  }

  function StallIssues(fc: FlightCase): Issues {
    DensityIssues(fc) + ScalarIssues(fc.loadFactor) + CLmaxIssues(fc)
  }

  function StallSpeed(p: Platform, fc: FlightCase, mass: Quantity, area: Quantity): Outcome<Quantity> {
    var issues := QuantityIssues(mass, DimMass) + QuantityIssues(area, DimArea) + StallIssues(fc);
    if issues != [] then Refused(issues)
    else Finish(p.sqrt(2.0 * fc.loadFactor * mass.si * GRAVITY / (fc.density.si * area.si * fc.clmax.max)), DimSpeed)
  }

  /** The smallest area whose stall speed meets the limit. */
  function MinimumWingArea(fc: FlightCase, mass: Quantity, limit: Quantity): Outcome<Quantity> {
    var issues := QuantityIssues(mass, DimMass) + QuantityIssues(limit, DimSpeed) + StallIssues(fc);
    if issues != [] then Refused(issues)
    else Finish(2.0 * fc.loadFactor * mass.si * GRAVITY / (fc.density.si * Square(limit.si) * fc.clmax.max), DimArea)
  }

  /** The largest mass whose stall speed meets the limit at the given area. */
  function MaximumMass(fc: FlightCase, area: Quantity, limit: Quantity): Outcome<Quantity> {
    var issues := QuantityIssues(area, DimArea) + QuantityIssues(limit, DimSpeed) + StallIssues(fc);
    if issues != [] then Refused(issues)
    else Finish(fc.density.si * Square(limit.si) * area.si * fc.clmax.max / (2.0 * fc.loadFactor * GRAVITY), DimMass)
  }

  function WingLoadingMass(mass: Quantity, area: Quantity): Outcome<Quantity> {
    var issues := QuantityIssues(mass, DimMass) + QuantityIssues(area, DimArea);
    if issues != [] then Refused(issues) else Finish(mass.si / area.si, DimMassPerArea)
  }

  // ----- The stall equation and its two inversions answer one question ------

  /** The lift a kilogram demands, n*g doubled. */
  function Demand(fc: FlightCase): real {
    2.0 * fc.loadFactor * GRAVITY
  }

  /** The lift a square metre gives at CLmax, per squared speed, doubled. */
  function Capacity(fc: FlightCase): real {
    fc.density.si * fc.clmax.max
  }

  /** At this squared speed the area just carries the mass. */
  predicate Balanced(demand: real, capacity: real, mass: real, area: real, speed2: real) {
    speed2 * (capacity * area) == demand * mass
  }

  lemma CapacityPositive(fc: FlightCase)
    requires StallIssues(fc) == []
    ensures Demand(fc) > 0.0 && Capacity(fc) > 0.0
  {
  }

  lemma StallSpeedBalances(p: Platform, fc: FlightCase, mass: Quantity, area: Quantity)
    requires p.Lawful() && StallIssues(fc) == []
    requires mass.Positive(DimMass) && area.Positive(DimArea)
    ensures StallSpeed(p, fc, mass, area).Ok? && StallSpeed(p, fc, mass, area).value.Positive(DimSpeed)
    ensures Balanced(Demand(fc), Capacity(fc), mass.si, area.si, Square(StallSpeed(p, fc, mass, area).value.si))
  {
    var n, rho, cl := fc.loadFactor, fc.density.si, fc.clmax.max;
    var lift, atArea := 2.0 * n * mass.si * GRAVITY, rho * area.si * cl;
    assert lift == Demand(fc) * mass.si && lift > 0.0;
    assert rho * area.si > 0.0;
    assert atArea == Capacity(fc) * area.si && atArea > 0.0;
    DivPositive(lift, atArea);
    DivMul(lift, atArea);
    SqrtPositive(p, lift / atArea);
  }

  lemma MinimumWingAreaBalances(fc: FlightCase, mass: Quantity, limit: Quantity)
    requires StallIssues(fc) == []
    requires mass.Positive(DimMass) && limit.Positive(DimSpeed)
    ensures MinimumWingArea(fc, mass, limit).Ok? && MinimumWingArea(fc, mass, limit).value.Positive(DimArea)
    ensures Balanced(Demand(fc), Capacity(fc), mass.si, MinimumWingArea(fc, mass, limit).value.si, Square(limit.si))
  {
    hide Square;
    var n, rho, cl, l2 := fc.loadFactor, fc.density.si, fc.clmax.max, Square(limit.si);
    var lift, atLimit := 2.0 * n * mass.si * GRAVITY, rho * l2 * cl;
    assert lift == Demand(fc) * mass.si && lift > 0.0;
    assert rho * l2 > 0.0;
    assert atLimit == Capacity(fc) * l2 && atLimit > 0.0;
    DivPositive(lift, atLimit);
    DivMul(lift, atLimit);
    var s := lift / atLimit;
    assert l2 * (Capacity(fc) * s) == s * atLimit;
  }

  lemma MaximumMassBalances(fc: FlightCase, area: Quantity, limit: Quantity)
    requires StallIssues(fc) == []
    requires area.Positive(DimArea) && limit.Positive(DimSpeed)
    ensures MaximumMass(fc, area, limit).Ok? && MaximumMass(fc, area, limit).value.Positive(DimMass)
    ensures Balanced(Demand(fc), Capacity(fc), MaximumMass(fc, area, limit).value.si, area.si, Square(limit.si))
  {
    hide Square;
    var rho, cl, l2 := fc.density.si, fc.clmax.max, Square(limit.si);
    var lift := rho * l2 * area.si * cl;
    assert rho * l2 > 0.0;
    assert rho * l2 * area.si > 0.0;
    assert lift == l2 * (Capacity(fc) * area.si) && lift > 0.0;
    DivPositive(lift, Demand(fc));
    DivMul(lift, Demand(fc));
  }

  /** Of three balances sharing a mass, an area or a squared speed, the three
      comparisons are one. */
  lemma BalanceOrders(k: real, u: real, m: real, s: real, limit2: real, v2: real, sMin: real, mMax: real)
    requires k > 0.0 && u > 0.0 && s > 0.0 && limit2 > 0.0
    requires Balanced(k, u, m, s, v2)
    requires Balanced(k, u, m, sMin, limit2)
    requires Balanced(k, u, mMax, s, limit2)
    ensures v2 <= limit2 <==> sMin <= s
    ensures v2 == limit2 <==> sMin == s
    ensures v2 <= limit2 <==> m <= mMax
  {
    assert u * s > 0.0 && u * limit2 > 0.0;
    Scale(v2, limit2, u * s);
    Scale(sMin, s, u * limit2);
    assert limit2 * (u * s) == s * (u * limit2) && limit2 * (u * sMin) == sMin * (u * limit2);
    Scale(m, mMax, k);
  }

  /** A ceiling on the stall speed, the smallest area it demands and the largest
      mass it allows are three readings of one constraint: the speed meets the
      ceiling exactly when the area is at least the minimum, and exactly when
      the mass is at most the maximum. */
  lemma StallCeilingHasThreeForms(p: Platform, fc: FlightCase, mass: Quantity, area: Quantity, limit: Quantity)
    requires p.Lawful()
    requires StallIssues(fc) == []
    requires mass.Positive(DimMass) && area.Positive(DimArea) && limit.Positive(DimSpeed)
    ensures StallSpeed(p, fc, mass, area).Ok? && MinimumWingArea(fc, mass, limit).Ok? && MaximumMass(fc, area, limit).Ok?
    ensures StallSpeed(p, fc, mass, area).value.si <= limit.si
       <==> MinimumWingArea(fc, mass, limit).value.si <= area.si
    ensures StallSpeed(p, fc, mass, area).value.si <= limit.si
       <==> mass.si <= MaximumMass(fc, area, limit).value.si
    ensures StallSpeed(p, fc, mass, area).value.si == limit.si
       <==> MinimumWingArea(fc, mass, limit).value.si == area.si
  {
    hide Square, Balanced, StallSpeed, MinimumWingArea, MaximumMass, Demand, Capacity;
    CapacityPositive(fc);
    StallSpeedBalances(p, fc, mass, area);
    MinimumWingAreaBalances(fc, mass, limit);
    MaximumMassBalances(fc, area, limit);
    var v := StallSpeed(p, fc, mass, area).value.si;
    BalanceOrders(Demand(fc), Capacity(fc), mass.si, area.si, Square(limit.si), Square(v),
                  MinimumWingArea(fc, mass, limit).value.si, MaximumMass(fc, area, limit).value.si);
    SquareMonotone(v, limit.si);
  }

  /** The minimum-area evaluation succeeds exactly on positive inputs. */
  lemma MinimumWingAreaSucceeds(fc: FlightCase, mass: Quantity, limit: Quantity)
    ensures MinimumWingArea(fc, mass, limit).Ok?
       <==> StallIssues(fc) == [] && mass.Positive(DimMass) && limit.Positive(DimSpeed)
  {
    if StallIssues(fc) == [] && mass.Positive(DimMass) && limit.Positive(DimSpeed) {
      MinimumWingAreaBalances(fc, mass, limit);
    }
  }

  lemma MaximumMassSucceeds(fc: FlightCase, area: Quantity, limit: Quantity)
    ensures MaximumMass(fc, area, limit).Ok?
       <==> StallIssues(fc) == [] && area.Positive(DimArea) && limit.Positive(DimSpeed)
  {
    if StallIssues(fc) == [] && area.Positive(DimArea) && limit.Positive(DimSpeed) {
      MaximumMassBalances(fc, area, limit);
    }
  }

  /** A stall speed is computed exactly on positive inputs. */
  lemma StallSpeedSucceeds(p: Platform, fc: FlightCase, mass: Quantity, area: Quantity)
    requires p.Lawful()
    ensures StallSpeed(p, fc, mass, area).Ok?
       <==> StallIssues(fc) == [] && mass.Positive(DimMass) && area.Positive(DimArea)
  {
    if StallIssues(fc) == [] && mass.Positive(DimMass) && area.Positive(DimArea) {
      StallSpeedBalances(p, fc, mass, area);
    }
  }
}
