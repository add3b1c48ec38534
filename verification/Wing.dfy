/** A solved wing: the same planform in the plan view and in the panel plane. */
module Wings {
  import opened Quantities
  import opened Definition
  import opened Reals
  import opened Planforms

  /** The dimensions that differ between the two planes. */
  datatype Spanwise = Spanwise(span: Quantity, area: Quantity, yMac: Quantity, half: Quantity)

  datatype Wing = Wing(
    definition: WingDefinition,
    planform: Planform,
    projected: Spanwise,
    panel: Spanwise,
    exposedArea: Quantity,
    projectedAspectRatio: real
  )

  function AngleIssues(p: Platform, q: Quantity, maxDegrees: real): Issues {
    if !q.Supplied() then [IssueMissing]
    else if q.dim != DimAngle then [IssueInvalid]
    else if Abs(q.si) > maxDegrees * p.pi / 180.0 then [IssueUnsupported]
    else []
  }

  function AirfoilIssues(a: Airfoil): Issues {
    if a == NO_AIRFOIL then []
    else
      (if a.designation == "" then [IssueMissing] else [])
      + (if a.evidence == "" then [IssueMissing] else [])
      + (if a.thicknessRatio < 0.0 || a.thicknessRatio >= 1.0 then [IssueInvalid] else [])
  }

  /** The choices that are recorded rather than evaluated. */
  function ChoiceIssues(p: Platform, def: WingDefinition): Issues {
    (match def.areaBasis
     case AreaBasisReferenceTrapezoid => []
     case AreaBasisUnknown => [IssueMissing]
     case AreaBasisExposedPanels => [IssueUnsupported])
    + AngleIssues(p, def.sweep, 60.0)
    + (if def.sweepReference < 0.0 || def.sweepReference > 1.0 then [IssueInvalid] else [])
    + AngleIssues(p, def.dihedral, 60.0)
    + AngleIssues(p, def.twist, 15.0)
    + AngleIssues(p, def.incidence, 15.0)
    + AirfoilIssues(def.rootAirfoil)
    + AirfoilIssues(def.tipAirfoil)
  }

  /** A length or an area foreshortened by the dihedral. */
  function Projected(p: Platform, panel: Quantity, dihedral: Quantity, dim: Dimension): Outcome<Quantity> {
    var issues := QuantityIssues(panel, dim) + SignedIssues(dihedral, DimAngle);
    if issues != [] then Refused(issues) else Finish(panel.si * p.cos(dihedral.si), dim)
  }

  /** The panel dimension that foreshortens to the given one. The cosine of a
      supported dihedral is never zero. */
  function Unfolded(p: Platform, projected: Quantity, dihedral: Quantity, dim: Dimension): Outcome<Quantity> {
    var issues := QuantityIssues(projected, dim) + SignedIssues(dihedral, DimAngle);
    if issues != [] then Refused(issues)
    else if p.cos(dihedral.si) == 0.0 then Refused([IssueInvalid])
    else Finish(projected.si / p.cos(dihedral.si), dim)
  }

  function SemiSpan(span: Quantity): Outcome<Quantity> {
    var issues := QuantityIssues(span, DimLength);
    if issues != [] then Refused(issues) else Finish(span.si / 2.0, DimLength)
  }

  /** Completes a plane from its span and area. */
  function Plane(span: Outcome<Quantity>, area: Outcome<Quantity>, taper: real): Outcome<Spanwise> {
    var y := MacStation(ValueOf(span), taper);
    var half := SemiSpan(ValueOf(span));
    if span.Ok? && area.Ok? && y.Ok? && half.Ok? then Ok(Spanwise(span.value, area.value, y.value, half.value))
    else Refused(IssuesOf(span) + IssuesOf(area) + IssuesOf(y) + IssuesOf(half))
  }

  /** Projects the solved planform into the plane it was not given in. The
      result is the plan view, then the panel plane. */
  function ResolvePlanes(p: Platform, def: WingDefinition, w: Planform): Outcome<(Spanwise, Spanwise)> {
    if def.dihedralMode == DihedralModeUnknown && def.dihedral.si != 0.0 then Refused([IssueMissing])
    else
      var half := SemiSpan(w.span);
      var given := Spanwise(w.span, w.area, w.yMac, ValueOf(half));
      var other :=
        if def.dihedralMode == DihedralHoldPanel then
          Plane(Projected(p, w.span, def.dihedral, DimLength), Projected(p, w.area, def.dihedral, DimArea), w.taperRatio)
        else
          Plane(Unfolded(p, w.span, def.dihedral, DimLength), Unfolded(p, w.area, def.dihedral, DimArea), w.taperRatio);
      if half.Refused? || other.Refused? then Refused(IssuesOf(half) + IssuesOf(other))
      else if def.dihedralMode == DihedralHoldPanel then Ok((other.value, given))
      else Ok((given, other.value))
  }

  /** The chord at the side of the body. */
  function SideChord(root: real, taper: real, width: real, span: real): real
    requires span != 0.0
  {
    root * (1.0 - (1.0 - taper) * width / span)
  }

  function ExposedArea(
    area: Quantity, root: Quantity, taper: real, span: Quantity, width: Quantity): Outcome<Quantity>
  {
    var issues := QuantityIssues(area, DimArea) + QuantityIssues(root, DimLength) + ScalarIssues(taper)
                  + QuantityIssues(span, DimLength) + QuantityIssues(width, DimLength)
                  + (if span.si > 0.0 && !(0.0 <= width.si <= span.si) then [IssueUnsupported] else []);
    if issues != [] then Refused(issues)
    else Finish(area.si - width.si * (root.si + SideChord(root.si, taper, width.si, span.si)) / 2.0, DimArea)
  }

  function SolveWing(p: Platform, def: WingDefinition): Outcome<Wing> {
    var choices := ChoiceIssues(p, def);
    var planform := SolvePlanform(p, def.drivers);
    if choices != [] || planform.Refused? then Refused(choices + IssuesOf(planform))
    else
      var w := planform.value;
      var planes :- ResolvePlanes(p, def, w);
      var (projected, panel) := planes;
      var aspect := AspectRatio(projected.span, projected.area);
      var exposed :=
        if !def.bodyWidth.Supplied() then Ok(UNSET)
        else ExposedArea(projected.area, w.rootChord, w.taperRatio, projected.span, def.bodyWidth);
      if aspect.Refused? || exposed.Refused? then Refused(IssuesOf(aspect) + IssuesOf(exposed))
      else Ok(Wing(def, w, projected, panel, exposed.value, aspect.value.si))
  }

  // ----- Solving, stage by stage --------------------------------------------

  method RequireAngle(p: Platform, rs: ResultSet, q: Quantity, maxDegrees: real)
    modifies rs
    ensures rs.issues == old(rs.issues) + AngleIssues(p, q, maxDegrees)
  {
    assert rs.issues + [] == rs.issues;
    if !q.Supplied() {
      rs.Add(IssueMissing);
    } else if q.dim != DimAngle {
      rs.Add(IssueInvalid);
    } else if Abs(q.si) > maxDegrees * p.pi / 180.0 {
      rs.Add(IssueUnsupported);
    }
  }

  method ValidateAirfoil(rs: ResultSet, a: Airfoil)
    modifies rs
    ensures rs.issues == old(rs.issues) + AirfoilIssues(a)
  {
    assert forall s: Issues :: s + [] == s;
    if a == NO_AIRFOIL {
      return;
    }
    if a.designation == "" {
      rs.Add(IssueMissing);
    }
    if a.evidence == "" {
      rs.Add(IssueMissing);
    }
    if a.thicknessRatio < 0.0 || a.thicknessRatio >= 1.0 {
      rs.Add(IssueInvalid);
    }
  }

  method ValidateChoices(p: Platform, rs: ResultSet, def: WingDefinition)
    requires rs.issues == []
    modifies rs
    ensures rs.issues == ChoiceIssues(p, def)
  {
    hide AngleIssues, AirfoilIssues;
    match def.areaBasis {
      case AreaBasisReferenceTrapezoid =>
      case AreaBasisUnknown => rs.Add(IssueMissing);
      case AreaBasisExposedPanels => rs.Add(IssueUnsupported);
    }
    RequireAngle(p, rs, def.sweep, 60.0);
    assert forall s: Issues :: s + [] == s;
    if def.sweepReference < 0.0 || def.sweepReference > 1.0 {
      rs.Add(IssueInvalid);
    }
    RequireAngle(p, rs, def.dihedral, 60.0);
    RequireAngle(p, rs, def.twist, 15.0);
    RequireAngle(p, rs, def.incidence, 15.0);
    ValidateAirfoil(rs, def.rootAirfoil);
    ValidateAirfoil(rs, def.tipAirfoil);
  }

  /** Completes the other plane, every failure recorded. */
  method TakePlane(rs: ResultSet, span: Outcome<Quantity>, area: Outcome<Quantity>, taper: real) returns (plane: Spanwise)
    requires Explained(span) && Explained(area)
    modifies rs
    ensures rs.issues == old(rs.issues) + IssuesOf(Plane(span, area, taper))
    ensures Plane(span, area, taper).Ok? ==> Plane(span, area, taper).value == plane
    ensures Explained(Plane(span, area, taper))
  {
    hide IssuesOf, MacStation, SemiSpan;
    PlaneIssues(span, area, taper);
    Joined(rs.issues, IssuesOf(span), IssuesOf(area), IssuesOf(MacStation(ValueOf(span), taper)),
           IssuesOf(SemiSpan(ValueOf(span))));
    var b := rs.Take(span);
    var s := rs.Take(area);
    var y := rs.Take(MacStation(b, taper));
    var half := rs.Take(SemiSpan(b));
    plane := Spanwise(b, s, y, half);
  }

  lemma Joined(s: Issues, a: Issues, b: Issues, c: Issues, d: Issues)
    ensures s + a + b + c + d == s + (a + b + c + d)
  {
  }

  /** A plane fails with exactly what its four parts say, and never silently. */
  lemma PlaneIssues(span: Outcome<Quantity>, area: Outcome<Quantity>, taper: real)
    requires Explained(span) && Explained(area)
    ensures IssuesOf(Plane(span, area, taper))
         == IssuesOf(span) + IssuesOf(area) + IssuesOf(MacStation(ValueOf(span), taper)) + IssuesOf(SemiSpan(ValueOf(span)))
    ensures Explained(Plane(span, area, taper))
  {
    hide MacStation, SemiSpan;
    StationsAreExplained(ValueOf(span), taper);
  }

  lemma StationsAreExplained(span: Quantity, taper: real)
    ensures Explained(MacStation(span, taper)) && Explained(SemiSpan(span))
  {
  }

  lemma PlanesAreExplained(p: Platform, q: Quantity, dihedral: Quantity, dim: Dimension)
    ensures Explained(Projected(p, q, dihedral, dim)) && Explained(Unfolded(p, q, dihedral, dim))
  {
  }

  method TakePlanes(p: Platform, rs: ResultSet, def: WingDefinition, w: Planform)
    returns (projected: Spanwise, panel: Spanwise)
    requires rs.issues == []
    modifies rs
    ensures rs.issues == IssuesOf(ResolvePlanes(p, def, w)) && Explained(ResolvePlanes(p, def, w))
    ensures ResolvePlanes(p, def, w).Ok? ==> ResolvePlanes(p, def, w).value == (projected, panel)
  {
    hide Plane, SemiSpan, Projected, Unfolded;
    projected, panel := Spanwise(UNSET, UNSET, UNSET, UNSET), Spanwise(UNSET, UNSET, UNSET, UNSET);
    if def.dihedralMode == DihedralModeUnknown && def.dihedral.si != 0.0 {
      rs.Add(IssueMissing);
      return;
    }
    StationsAreExplained(w.span, w.taperRatio);
    PlanesAreExplained(p, w.span, def.dihedral, DimLength);
    PlanesAreExplained(p, w.area, def.dihedral, DimArea);
    var half := rs.Take(SemiSpan(w.span));
    var given := Spanwise(w.span, w.area, w.yMac, half);
    if def.dihedralMode == DihedralHoldPanel {
      panel := given;
      projected := TakePlane(rs, Projected(p, w.span, def.dihedral, DimLength),
                             Projected(p, w.area, def.dihedral, DimArea), w.taperRatio);
    } else {
      projected := given;
      panel := TakePlane(rs, Unfolded(p, w.span, def.dihedral, DimLength),
                         Unfolded(p, w.area, def.dihedral, DimArea), w.taperRatio);
    }
  }

  lemma MeasuresAreExplained(w: Planform, projected: Spanwise, width: Quantity)
    ensures Explained(AspectRatio(projected.span, projected.area))
    ensures Explained(ExposedArea(projected.area, w.rootChord, w.taperRatio, projected.span, width))
  {
  }

  /** Solves the planform, then the planes, then what is measured in them. */
  method ComputeWing(p: Platform, def: WingDefinition) returns (r: Outcome<Wing>)
    ensures r == SolveWing(p, def)
  {
    hide ChoiceIssues, SolvePlanform, ResolvePlanes, AspectRatio, ExposedArea;
    var rs := new ResultSet();
    ValidateChoices(p, rs, def);
    var planform := ComputePlanform(p, def.drivers);
    if planform.Refused? || rs.issues != [] {
      return Refused(rs.issues + IssuesOf(planform));
    }
    var w := planform.value;
    var projected, panel := TakePlanes(p, rs, def, w);
    if rs.issues != [] {
      return Refused(rs.issues);
    }
    MeasuresAreExplained(w, projected, def.bodyWidth);
    var aspect := rs.Take(AspectRatio(projected.span, projected.area));
    var exposed := UNSET;
    if def.bodyWidth.Supplied() {
      exposed := rs.Take(ExposedArea(projected.area, w.rootChord, w.taperRatio, projected.span, def.bodyWidth));
    }
    assert forall s: Issues :: s + [] == s;
    if rs.issues != [] {
      return Refused(rs.issues);
    }
    r := Ok(Wing(def, w, projected, panel, exposed, aspect.si));
  }

  // ----- The two planes of one wing -----------------------------------------

  /** x in one plane is y in the other, seen through a cosine. */
  predicate Foreshortened(plan: real, panel: real, cosine: real) {
    plan == panel * cosine
  }

  lemma ProjectedLaw(p: Platform, panel: Quantity, dihedral: Quantity, dim: Dimension)
    requires p.Lawful() && panel.Positive(dim) && dihedral.dim == DimAngle && 0.0 < p.cos(dihedral.si)
    ensures Projected(p, panel, dihedral, dim).Ok? && Projected(p, panel, dihedral, dim).value.Positive(dim)
    ensures Foreshortened(Projected(p, panel, dihedral, dim).value.si, panel.si, p.cos(dihedral.si))
  {
    assert panel.si * p.cos(dihedral.si) > 0.0;
  }

  lemma UnfoldedLaw(p: Platform, projected: Quantity, dihedral: Quantity, dim: Dimension)
    requires p.Lawful() && projected.Positive(dim) && dihedral.dim == DimAngle && 0.0 < p.cos(dihedral.si)
    ensures Unfolded(p, projected, dihedral, dim).Ok? && Unfolded(p, projected, dihedral, dim).value.Positive(dim)
    ensures Foreshortened(projected.si, Unfolded(p, projected, dihedral, dim).value.si, p.cos(dihedral.si))
  {
    QuotientLaw(projected.si / p.cos(dihedral.si), projected.si, p.cos(dihedral.si));
  }

  /** The plane the drivers are given in: the panel plane when panel dimensions
      are held, and the plan view otherwise. */
  predicate DriversInPanelPlane(def: WingDefinition) {
    def.dihedralMode == DihedralHoldPanel
  }

  /** In every dihedral mode the plan view is the panel foreshortened by the
      cosine of the dihedral, and the planform is the plane its drivers name. */
  lemma PlanViewIsThePanelForeshortened(p: Platform, def: WingDefinition)
    requires p.Lawful() && SolveWing(p, def).Ok?
    ensures var w, c := SolveWing(p, def).value, p.cos(def.dihedral.si);
            && 0.0 < c <= 1.0
            && Foreshortened(w.projected.span.si, w.panel.span.si, c)
            && Foreshortened(w.projected.area.si, w.panel.area.si, c)
            && w.projected.span.Positive(DimLength) && w.projected.area.Positive(DimArea)
            && (var given := if DriversInPanelPlane(def) then w.panel else w.projected;
                given.span == w.planform.span && given.area == w.planform.area)
            && w.definition == def && SolvePlanform(p, def.drivers) == Ok(w.planform)
            && IsTrapezoid(w.planform)
            && AspectRelation(w.projectedAspectRatio, w.projected.span.si, w.projected.area.si)
            && w.projectedAspectRatio > 0.0
  {
    hide SolvePlanform, Projected, Unfolded, Foreshortened, AspectRelation, TrapezoidArea, MeanRelation, MacRelation,
      TipRelation, StationRelation, ExposedArea, AspectRatio, MacStation, SemiSpan;
    SolvesExactlyWellFormedDrivers(p, def.drivers);
    SolvedPlanformIsTrapezoid(p, def.drivers);
    var w := SolveWing(p, def).value;
    DihedralHasACosine(p, def);
    if DriversInPanelPlane(def) {
      ProjectedLaw(p, w.planform.span, def.dihedral, DimLength);
      ProjectedLaw(p, w.planform.area, def.dihedral, DimArea);
    } else {
      UnfoldedLaw(p, w.planform.span, def.dihedral, DimLength);
      UnfoldedLaw(p, w.planform.area, def.dihedral, DimArea);
    }
    AspectRatioLaw(w.projected.span, w.projected.area);
  }

  lemma DihedralHasACosine(p: Platform, def: WingDefinition)
    requires p.Lawful() && ChoiceIssues(p, def) == []
    ensures def.dihedral.dim == DimAngle && 0.0 < p.cos(def.dihedral.si) <= 1.0
  {
    assert AngleIssues(p, def.dihedral, 60.0) == [];
  }

  lemma OutboardPanels(b: real, s: real, c: real, t: real, d: real)
    requires b > 0.0 && TrapezoidArea(b, s, c, t)
    ensures var side := SideChord(c, t, d, b); s - d * (c + side) / 2.0 == (b - d) * (side + t * c) / 2.0
  {
    var x := d / b;
    DivMul(d, b);
    var side := SideChord(c, t, d, b);
    assert (1.0 - t) * d / b == (1.0 - t) * x by {
      DivUnique((1.0 - t) * x, (1.0 - t) * d, b);
    }
    var f := 1.0 - (1.0 - t) * x;
    assert side == c * f;
    var bc := b * c;
    assert 2.0 * s == bc * (1.0 + t);
    assert d * (c + side) == bc * (x * (1.0 + f)) by {
      assert c + side == c * (1.0 + f);
      assert d * (c * (1.0 + f)) == b * x * (c * (1.0 + f));
    }
    assert (b - d) * (side + t * c) == bc * ((1.0 - x) * (f + t)) by {
      assert side + t * c == c * (f + t);
      assert b - d == b * (1.0 - x);
    }
    OutboardPolynomial(x, t, f);
    assert bc * (1.0 + t) - bc * (x * (1.0 + f)) == bc * ((1.0 - x) * (f + t));
  }

  lemma OutboardPolynomial(x: real, t: real, f: real)
    requires f == 1.0 - (1.0 - t) * x
    ensures 1.0 + t - x * (1.0 + f) == (1.0 - x) * (f + t)
  {
    assert (1.0 - x) * (f + t) == f + t - x * f - x * t;
  }

  /** The area outside the body is that of the two outboard panels, from the
      chord at the body's side to the tip, so it is what is left of the span. */
  lemma ExposedAreaIsTheOutboardPanels(area: Quantity, root: Quantity, taper: real, span: Quantity, width: Quantity)
    requires ExposedArea(area, root, taper, span, width).Ok?
    requires TrapezoidArea(span.si, area.si, root.si, taper)
    ensures 0.0 < width.si < span.si
    ensures var side := SideChord(root.si, taper, width.si, span.si);
            ExposedArea(area, root, taper, span, width).value.si
              == (span.si - width.si) * (side + taper * root.si) / 2.0
  {
    OutboardPanels(span.si, area.si, root.si, taper, width.si);
  }

  lemma ForeshortenedTrapezoid(b: real, s: real, b': real, s': real, c: real, t: real, cosine: real)
    requires TrapezoidArea(b, s, c, t) && Foreshortened(b', b, cosine) && Foreshortened(s', s, cosine)
    ensures TrapezoidArea(b', s', c, t)
  {
    var ck := c * (1.0 + t);
    assert 2.0 * s * cosine == b * cosine * ck;
  }

  /** A solved wing that reports an exposed area reports what its two plan-view
      outboard panels measure, and its body is narrower than its span. */
  lemma SolvedExposedArea(p: Platform, def: WingDefinition)
    requires p.Lawful() && SolveWing(p, def).Ok? && def.bodyWidth.Supplied()
    ensures var w := SolveWing(p, def).value;
            var b, d, c, t := w.projected.span.si, def.bodyWidth.si, w.planform.rootChord.si, w.planform.taperRatio;
            && 0.0 < d < b
            && w.exposedArea.si == (b - d) * (SideChord(c, t, d, b) + t * c) / 2.0
  {
    hide SolvePlanform, ResolvePlanes, Foreshortened, AspectRelation, TrapezoidArea, MeanRelation, MacRelation,
      TipRelation, StationRelation, ExposedArea, AspectRatio, SideChord;
    PlanViewIsThePanelForeshortened(p, def);
    var w := SolveWing(p, def).value;
    if DriversInPanelPlane(def) {
      ForeshortenedTrapezoid(w.planform.span.si, w.planform.area.si, w.projected.span.si, w.projected.area.si,
                             w.planform.rootChord.si, w.planform.taperRatio, p.cos(def.dihedral.si));
    }
    ExposedAreaIsTheOutboardPanels(w.projected.area, w.planform.rootChord, w.planform.taperRatio,
                                   w.projected.span, def.bodyWidth);
  }
}
