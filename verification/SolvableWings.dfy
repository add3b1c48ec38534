/** When a wing solves, read off its definition, and what both of its planes
    measure. */
module SolvableWings {
  import opened Quantities
  import opened Definition
  import opened Reals
  import opened Roots
  import opened Planforms
  import opened Wings

  // ----- When a wing solves -------------------------------------------------

  /** An angle stated within so many degrees either way. */
  predicate AngleWithin(p: Platform, q: Quantity, degrees: real) {
    q.dim == DimAngle && -degrees * p.pi <= 180.0 * q.si <= degrees * p.pi
  }

  /** Not named at all, or named with its evidence and a thickness below one. */
  predicate AirfoilStands(a: Airfoil) {
    a == NO_AIRFOIL || (a.designation != "" && a.evidence != "" && 0.0 <= a.thicknessRatio < 1.0)
  }

  predicate ChoicesStand(p: Platform, def: WingDefinition) {
    && def.areaBasis == AreaBasisReferenceTrapezoid
    && AngleWithin(p, def.sweep, 60.0) && AngleWithin(p, def.dihedral, 60.0)
    && AngleWithin(p, def.twist, 15.0) && AngleWithin(p, def.incidence, 15.0)
    && 0.0 <= def.sweepReference <= 1.0
    && AirfoilStands(def.rootAirfoil) && AirfoilStands(def.tipAirfoil)
  }

  /** A rectangle states no taper or one, a trapezoid a positive taper. */
  predicate TaperStands(d: PlanformDrivers) {
    match d.shape
    case ShapeRectangle => d.taperRatio == 0.0 || d.taperRatio == 1.0
    case ShapeTrapezoid => d.taperRatio > 0.0
    case ShapeUnknown => false
  }

  /** Left out, or a positive value of its dimension. */
  predicate Usable(q: Quantity, dim: Dimension) {
    q == Quantity(0.0, Dimensionless) || (q.dim == dim && q.si > 0.0)
  }

  function One(holds: bool): nat {
    if holds then 1 else 0
  }

  /** Exactly two of span, area, aspect ratio and root chord, each positive. */
  predicate DriversStand(d: PlanformDrivers) {
    && TaperStands(d)
    && Usable(d.span, DimLength) && Usable(d.area, DimArea) && Usable(d.rootChord, DimLength) && d.aspectRatio >= 0.0
    && One(d.span.si > 0.0) + One(d.area.si > 0.0) + One(d.rootChord.si > 0.0) + One(d.aspectRatio > 0.0) == 2
  }

  /** The plane the drivers are in is stated, or the two planes coincide. */
  predicate PlaneIsStated(def: WingDefinition) {
    def.dihedralMode != DihedralModeUnknown || def.dihedral.si == 0.0
  }

  lemma AngleStandsExactly(p: Platform, q: Quantity, degrees: real)
    ensures AngleIssues(p, q, degrees) == [] <==> AngleWithin(p, q, degrees)
  {
  }

  lemma TaperStandsExactly(d: PlanformDrivers)
    ensures ResolveTaper(d).Ok? <==> TaperStands(d)
  {
  }

  lemma ChoicesStandExactly(p: Platform, def: WingDefinition)
    ensures ChoiceIssues(p, def) == [] <==> ChoicesStand(p, def)
  {
    hide AngleIssues, AngleWithin;
    AngleStandsExactly(p, def.sweep, 60.0);
    AngleStandsExactly(p, def.dihedral, 60.0);
    AngleStandsExactly(p, def.twist, 15.0);
    AngleStandsExactly(p, def.incidence, 15.0);
  }

  lemma DriversStandExactly(p: Platform, d: PlanformDrivers)
    requires p.Lawful()
    ensures SolvePlanform(p, d).Ok? <==> DriversStand(d)
  {
    hide SolvePlanform;
    SolvesExactlyWellFormedDrivers(p, d);
  }

  // ----- Both planes --------------------------------------------------------

  /** A plane of the wing: its half is half its span, its station where the mean
      aerodynamic chord sits, and its area a trapezoid's on the shared chords. */
  predicate IsPlane(plane: Spanwise, root: real, taper: real) {
    && plane.span.Positive(DimLength) && plane.area.Positive(DimArea)
    && plane.half.Positive(DimLength) && 2.0 * plane.half.si == plane.span.si
    && plane.yMac.Positive(DimLength) && StationRelation(plane.yMac.si, plane.span.si, taper)
    && TrapezoidArea(plane.span.si, plane.area.si, root, taper)
  }

  lemma GivenPlane(w: Planform)
    requires IsTrapezoid(w)
    ensures SemiSpan(w.span).Ok?
    ensures IsPlane(Spanwise(w.span, w.area, w.yMac, SemiSpan(w.span).value), w.rootChord.si, w.taperRatio)
    ensures w.span.Positive(DimLength) && w.area.Positive(DimArea) && w.rootChord.Positive(DimLength) && w.taperRatio > 0.0
  {
    hide AspectRelation, TipRelation, MeanRelation, MacRelation, StationRelation, TrapezoidArea;
  }

  lemma OtherPlane(span: Quantity, area: Quantity, root: real, taper: real)
    requires span.Positive(DimLength) && area.Positive(DimArea) && taper > 0.0
    requires TrapezoidArea(span.si, area.si, root, taper)
    ensures Plane(Ok(span), Ok(area), taper).Ok?
    ensures IsPlane(Plane(Ok(span), Ok(area), taper).value, root, taper)
    ensures Plane(Ok(span), Ok(area), taper).value.span == span && Plane(Ok(span), Ok(area), taper).value.area == area
  {
    hide MacStation, StationRelation, TrapezoidArea;
    MacStationLaw(span, taper);
  }

  /** The plan-view span of a solved planform. */
  function PlanSpan(p: Platform, def: WingDefinition, w: Planform): real {
    if DriversInPanelPlane(def) then w.span.si * p.cos(def.dihedral.si) else w.span.si
  }

  lemma PanelSeenFromAbove(p: Platform, def: WingDefinition, w: Planform)
    requires p.Lawful() && IsTrapezoid(w) && DriversInPanelPlane(def)
    requires def.dihedral.dim == DimAngle && 0.0 < p.cos(def.dihedral.si)
    ensures var plane := Plane(Projected(p, w.span, def.dihedral, DimLength),
                               Projected(p, w.area, def.dihedral, DimArea), w.taperRatio);
            plane.Ok? && IsPlane(plane.value, w.rootChord.si, w.taperRatio) && plane.value.span.si == PlanSpan(p, def, w)
  {
    hide Projected, IsTrapezoid, IsPlane, TrapezoidArea, Plane;
    GivenPlane(w);
    GivenIsATrapezoid(w);
    ProjectedLaw(p, w.span, def.dihedral, DimLength);
    ProjectedLaw(p, w.area, def.dihedral, DimArea);
    var span, area := Projected(p, w.span, def.dihedral, DimLength).value, Projected(p, w.area, def.dihedral, DimArea).value;
    ForeshortenedTrapezoid(w.span.si, w.area.si, span.si, area.si, w.rootChord.si, w.taperRatio, p.cos(def.dihedral.si));
    OtherPlane(span, area, w.rootChord.si, w.taperRatio);
  }

  lemma PlanSeenAlongThePanel(p: Platform, def: WingDefinition, w: Planform)
    requires p.Lawful() && IsTrapezoid(w)
    requires def.dihedral.dim == DimAngle && 0.0 < p.cos(def.dihedral.si)
    ensures var plane := Plane(Unfolded(p, w.span, def.dihedral, DimLength),
                               Unfolded(p, w.area, def.dihedral, DimArea), w.taperRatio);
            plane.Ok? && IsPlane(plane.value, w.rootChord.si, w.taperRatio)
  {
    hide Unfolded, IsTrapezoid, IsPlane, TrapezoidArea, Plane;
    GivenPlane(w);
    GivenIsATrapezoid(w);
    UnfoldedLaw(p, w.span, def.dihedral, DimLength);
    UnfoldedLaw(p, w.area, def.dihedral, DimArea);
    var span, area := Unfolded(p, w.span, def.dihedral, DimLength).value, Unfolded(p, w.area, def.dihedral, DimArea).value;
    UnfoldedTrapezoid(w.span.si, w.area.si, span.si, area.si, w.rootChord.si, w.taperRatio, p.cos(def.dihedral.si));
    OtherPlane(span, area, w.rootChord.si, w.taperRatio);
  }

  lemma GivenIsATrapezoid(w: Planform)
    requires IsTrapezoid(w)
    ensures TrapezoidArea(w.span.si, w.area.si, w.rootChord.si, w.taperRatio)
  {
    hide AspectRelation, TipRelation, MeanRelation, MacRelation, StationRelation, TrapezoidArea;
  }

  lemma UnfoldedTrapezoid(b: real, s: real, b': real, s': real, c: real, t: real, cosine: real)
    requires cosine > 0.0 && TrapezoidArea(b, s, c, t) && Foreshortened(b, b', cosine) && Foreshortened(s, s', cosine)
    ensures TrapezoidArea(b', s', c, t)
  {
    var ck := c * (1.0 + t);
    assert 2.0 * s' * cosine == b' * ck * cosine;
    Scale(2.0 * s', b' * ck, cosine);
  }

  /** The planes of a planform exist exactly when the plane its drivers are in is
      stated, and both are planes of it. */
  lemma PlanesExistExactly(p: Platform, def: WingDefinition, w: Planform)
    requires p.Lawful() && IsTrapezoid(w)
    requires def.dihedral.dim == DimAngle && 0.0 < p.cos(def.dihedral.si)
    ensures ResolvePlanes(p, def, w).Ok? <==> PlaneIsStated(def)
    ensures ResolvePlanes(p, def, w).Ok? ==>
              var (projected, panel) := ResolvePlanes(p, def, w).value;
              && IsPlane(projected, w.rootChord.si, w.taperRatio) && IsPlane(panel, w.rootChord.si, w.taperRatio)
              && projected.span.si == PlanSpan(p, def, w)
  {
    hide Projected, Unfolded, SemiSpan, IsPlane, IsTrapezoid, Plane;
    GivenPlane(w);
    if DriversInPanelPlane(def) {
      PanelSeenFromAbove(p, def, w);
    } else {
      PlanSeenAlongThePanel(p, def, w);
    }
  }

  // ----- The exposed area ---------------------------------------------------

  lemma SideChordIsPositive(c: real, t: real, d: real, b: real)
    requires c > 0.0 && t > 0.0 && 0.0 <= d <= b && b > 0.0
    ensures SideChord(c, t, d, b) > 0.0
  {
    var x := d / b;
    DivMul(d, b);
    Scale(0.0, x, b);
    Scale(x, 1.0, b);
    DivUnique((1.0 - t) * x, (1.0 - t) * d, b) by {
      assert (1.0 - t) * x * b == (1.0 - t) * (x * b);
    }
    Share(x, t);
    assert SideChord(c, t, d, b) == c * (1.0 - (1.0 - t) * x);
  }

  lemma Share(x: real, t: real)
    requires 0.0 <= x <= 1.0 && t > 0.0
    ensures 1.0 - (1.0 - t) * x > 0.0
  {
    NonnegativeProduct(t, x);
    assert 1.0 - (1.0 - t) * x == 1.0 - x + t * x;
    if x == 1.0 {
      assert t * x == t;
    }
  }

  /** An exposed area is reported exactly when a body of positive width leaves some
      span on both sides of it. */
  lemma ExposedExactly(area: Quantity, root: Quantity, taper: real, span: Quantity, width: Quantity)
    requires area.Positive(DimArea) && root.Positive(DimLength) && taper > 0.0 && span.Positive(DimLength)
    requires TrapezoidArea(span.si, area.si, root.si, taper)
    ensures ExposedArea(area, root, taper, span, width).Ok? <==> width.Positive(DimLength) && width.si < span.si
  {
    hide SideChord, TrapezoidArea;
    if width.Positive(DimLength) && width.si <= span.si {
      OutboardPanels(span.si, area.si, root.si, taper, width.si);
      var side := SideChord(root.si, taper, width.si, span.si);
      SideChordIsPositive(root.si, taper, width.si, span.si);
      assert Product(taper, root.si) == taper * root.si;
      OutboardIsPositive(span.si - width.si, side, taper * root.si);
    }
  }

  lemma OutboardIsPositive(rest: real, side: real, tip: real)
    requires rest >= 0.0 && side > 0.0
    ensures tip > 0.0 ==> (rest * (side + tip) / 2.0 > 0.0 <==> rest > 0.0)
  {
  }

  // ----- The whole wing -----------------------------------------------------

  /** No body is stated, or one narrower than the plan-view span. */
  predicate BodyStands(p: Platform, def: WingDefinition, w: Outcome<Planform>) {
    def.bodyWidth == Quantity(0.0, Dimensionless)
    || (def.bodyWidth.Positive(DimLength) && w.Ok? && def.bodyWidth.si < PlanSpan(p, def, w.value))
  }

  lemma PlaneIsPositive(plane: Spanwise, root: real, taper: real)
    requires IsPlane(plane, root, taper)
    ensures plane.span.Positive(DimLength) && plane.area.Positive(DimArea)
    ensures TrapezoidArea(plane.span.si, plane.area.si, root, taper)
  {
    hide TrapezoidArea, StationRelation;
  }

  /** With its choices, drivers and plane stated, a wing solves exactly when its
      body leaves some span. */
  lemma OnlyTheBodyCanStop(p: Platform, def: WingDefinition, w: Planform)
    requires p.Lawful() && ChoicesStand(p, def) && PlaneIsStated(def)
    requires SolvePlanform(p, def.drivers) == Ok(w) && IsTrapezoid(w)
    ensures SolveWing(p, def).Ok? <==> BodyStands(p, def, Ok(w))
  {
    hide ChoicesStand, ChoiceIssues, ResolvePlanes, SolvePlanform, IsTrapezoid, IsPlane, ExposedArea, AspectRatio, PlanSpan,
      AspectRelation, TrapezoidArea;
    ChoicesStandExactly(p, def);
    DihedralHasACosine(p, def);
    GivenPlane(w);
    PlanesExistExactly(p, def, w);
    var (projected, panel) := ResolvePlanes(p, def, w).value;
    PlaneIsPositive(projected, w.rootChord.si, w.taperRatio);
    AspectRatioLaw(projected.span, projected.area);
    ExposedExactly(projected.area, w.rootChord, w.taperRatio, projected.span, def.bodyWidth);
  }

  /** A wing solves exactly when every recorded choice stands, exactly two drivers
      are stated and positive, the plane they are in is stated under a dihedral, and
      the body, if one is stated, is narrower than the plan-view span. */
  lemma AWingSolvesExactly(p: Platform, def: WingDefinition)
    requires p.Lawful()
    ensures SolveWing(p, def).Ok?
       <==> && ChoicesStand(p, def) && DriversStand(def.drivers) && PlaneIsStated(def)
            && BodyStands(p, def, SolvePlanform(p, def.drivers))
  {
    hide ChoicesStand, DriversStand, SolveWing, SolvePlanform, IsTrapezoid, PlaneIsStated, BodyStands;
    DriversStandExactly(p, def.drivers);
    ASolvedWingStands(p, def);
    if DriversStand(def.drivers) {
      SolvesExactlyWellFormedDrivers(p, def.drivers);
      SolvedPlanformIsTrapezoid(p, def.drivers);
      if ChoicesStand(p, def) && PlaneIsStated(def) {
        OnlyTheBodyCanStop(p, def, SolvePlanform(p, def.drivers).value);
      }
    }
  }

  lemma ASolvedWingStands(p: Platform, def: WingDefinition)
    requires p.Lawful()
    ensures SolveWing(p, def).Ok? ==>
              ChoicesStand(p, def) && SolvePlanform(p, def.drivers).Ok? && PlaneIsStated(def)
  {
    hide ChoicesStand, ChoiceIssues, SolvePlanform, Plane, Projected, Unfolded;
    ChoicesStandExactly(p, def);
  }

  /** Both planes of a solved wing are planes of its one planform: the half spans,
      the stations and the areas agree with the chords they share. */
  lemma BothPlanesAreTrapezoids(p: Platform, def: WingDefinition)
    requires p.Lawful() && SolveWing(p, def).Ok?
    ensures var w := SolveWing(p, def).value;
            && IsPlane(w.projected, w.planform.rootChord.si, w.planform.taperRatio)
            && IsPlane(w.panel, w.planform.rootChord.si, w.planform.taperRatio)
  {
    hide ChoicesStand, ChoiceIssues, ResolvePlanes, SolvePlanform, IsTrapezoid, IsPlane, ExposedArea, AspectRatio;
    ASolvedWingStands(p, def);
    ChoicesStandExactly(p, def);
    DihedralHasACosine(p, def);
    SolvesExactlyWellFormedDrivers(p, def.drivers);
    SolvedPlanformIsTrapezoid(p, def.drivers);
    PlanesExistExactly(p, def, SolvePlanform(p, def.drivers).value);
  }

  // ----- More drivers than a path takes -------------------------------------

  /** Equal to one part in a million. */
  predicate AgreesWith(got: real, want: real) {
    Abs(got - want) <= 0.000001 * Abs(want)
  }

  /** The size the reference pair fixes: span and area where both are stated,
      otherwise the one stated with the aspect ratio. */
  predicate IsReference(d: PlanformDrivers, b: real, s: real) {
    && b > 0.0 && s > 0.0
    && (d.span.Supplied() ==> b == d.span.si) && (d.area.Supplied() ==> s == d.area.si)
    && (!(d.span.Supplied() && d.area.Supplied()) ==> AspectRelation(d.aspectRatio, b, s))
  }

  /** The aspect ratio and the root chord, where stated, agree with the size. */
  predicate AgreesWithTheSize(d: PlanformDrivers, b: real, s: real, taper: real) {
    && (d.aspectRatio != 0.0 ==> AspectAgrees(d.aspectRatio, b, s))
    && (d.rootChord.Supplied() ==> ChordAgrees(d.rootChord.si, b, s, taper))
  }

  /** A*S is b^2, to one part in a million. */
  predicate AspectAgrees(aspect: real, b: real, s: real) {
    AgreesWith(aspect * s, Square(b))
  }

  /** c*b*(1 + taper) is 2S, to one part in a million. */
  predicate ChordAgrees(chord: real, b: real, s: real, taper: real) {
    AgreesWith(chord * (b * (1.0 + taper)), 2.0 * s)
  }

  lemma ScaledAgreement(got: real, want: real, scale: real, scaledGot: real, scaledWant: real)
    requires scale > 0.0 && scaledGot == got * scale && scaledWant == want * scale
    ensures AgreesWith(got, want) <==> AgreesWith(scaledGot, scaledWant)
  {
    var gap, slack := Abs(got - want), 0.000001 * Abs(want);
    ScaledAbs(got - want, scale, scaledGot - scaledWant);
    ScaledAbs(want, scale, scaledWant);
    Scale(gap, slack, scale);
    assert slack * scale == 0.000001 * Abs(scaledWant);
  }

  lemma ScaledAbs(x: real, scale: real, scaled: real)
    requires scale > 0.0 && scaled == x * scale
    ensures Abs(scaled) == Abs(x) * scale
  {
    Scale(x, 0.0, scale);
  }

  lemma AgreesAsStated(got: real, want: real)
    requires want != 0.0
    ensures Agrees(got, Some(want)) <==> AgreesWith(got, want)
  {
  }

  lemma AspectIsCompared(aspect: real, b: real, s: real)
    requires b > 0.0 && s > 0.0
    ensures Agrees(aspect, ImpliedAspect(Some(b), Some(s))) <==> AspectAgrees(aspect, b, s)
  {
    hide Square, AgreesWith, Agrees;
    SquareIsPositive(b);
    DivMul(Square(b), s);
    DivPositive(Square(b), s);
    ScaledComparison(aspect, Square(b) / s, s, aspect * s, Square(b));
  }

  lemma ChordIsCompared(chord: real, b: real, s: real, taper: real)
    requires b > 0.0 && s > 0.0 && taper > 0.0
    ensures Agrees(chord, ImpliedChord(Some(b), Some(s), taper)) <==> ChordAgrees(chord, b, s, taper)
  {
    hide AgreesWith, Agrees;
    assert Product(b, 1.0 + taper) == b * (1.0 + taper);
    DivMul(2.0 * s, b * (1.0 + taper));
    DivPositive(2.0 * s, b * (1.0 + taper));
    ScaledComparison(chord, 2.0 * s / (b * (1.0 + taper)), b * (1.0 + taper), chord * (b * (1.0 + taper)), 2.0 * s);
  }

  lemma ScaledComparison(got: real, want: real, scale: real, scaledGot: real, scaledWant: real)
    requires scale > 0.0 && want > 0.0 && scaledGot == got * scale && scaledWant == want * scale
    ensures Agrees(got, Some(want)) <==> AgreesWith(scaledGot, scaledWant)
  {
    hide AgreesWith;
    AgreesAsStated(got, want);
    ScaledAgreement(got, want, scale, scaledGot, scaledWant);
  }

  lemma SquareIsPositive(b: real)
    requires b > 0.0
    ensures Square(b) > 0.0
  {
  }

  lemma ItselfAgrees(x: real)
    requires x > 0.0
    ensures Agrees(x, Some(x))
  {
  }

  /** Three positive drivers always have a reference, and it is what the core
      compares them with. */
  lemma TheReferenceIsThePair(p: Platform, d: PlanformDrivers, taper: real) returns (b: real, s: real)
    requires p.Lawful() && DriversPositive(d) && SuppliedDrivers(d) > 2 && taper > 0.0
    ensures IsReference(d, b, s) && IndependentPair(p, d, taper) == (Some(b), Some(s))
    ensures forall b': real, s': real :: IsReference(d, b', s') ==> b' == b && s' == s
  {
    hide Square;
    var pair := IndependentPair(p, d, taper);
    if d.span.Supplied() && d.area.Supplied() {
      b, s := d.span.si, d.area.si;
    } else if d.span.Supplied() {
      b, s := d.span.si, Square(d.span.si) / d.aspectRatio;
      SquareIsPositive(b);
      DivPositive(Square(b), d.aspectRatio);
      DivMul(Square(b), d.aspectRatio);
      forall s': real | AspectRelation(d.aspectRatio, b, s')
        ensures s' == s
      {
        Scale(s, s', d.aspectRatio);
      }
    } else {
      s := d.area.si;
      assert Product(d.aspectRatio, s) == d.aspectRatio * s;
      SqrtPositive(p, d.aspectRatio * s);
      b := p.sqrt(d.aspectRatio * s);
      forall b': real | b' > 0.0 && AspectRelation(d.aspectRatio, b', s)
        ensures b' == b
      {
        SquareMonotone(b, b');
      }
    }
  }

  /** Too many positive drivers are redundant exactly when the others agree, to one
      part in a million, with the size the reference pair fixes; otherwise they
      conflict. */
  lemma OverDeterminationIsExact(p: Platform, d: PlanformDrivers, taper: real)
    requires p.Lawful() && DriversPositive(d) && SuppliedDrivers(d) > 2 && taper > 0.0
    ensures ResolveMode(p, d, taper)
         == Refused([if exists b: real, s: real :: IsReference(d, b, s) && AgreesWithTheSize(d, b, s, taper)
                     then IssueUnsupported else IssueInvalid])
  {
    hide Square, Agrees, AgreesWith, AgreesWithTheSize, IsReference, IndependentPair, SuppliedDrivers, Consistent;
    var b, s := TheReferenceIsThePair(p, d, taper);
    ComparedExactly(p, d, b, s, taper);
  }

  lemma ComparedExactly(p: Platform, d: PlanformDrivers, b: real, s: real, taper: real)
    requires taper > 0.0 && IsReference(d, b, s) && IndependentPair(p, d, taper) == (Some(b), Some(s))
    ensures Consistent(p, d, taper) <==> AgreesWithTheSize(d, b, s, taper)
  {
    hide Agrees, AspectAgrees, ChordAgrees, IsReference, IndependentPair, ImpliedAspect, ImpliedChord;
    ReferenceStates(d, b, s);
    AspectIsCompared(d.aspectRatio, b, s);
    ChordIsCompared(d.rootChord.si, b, s, taper);
    ItselfAgrees(b);
    ItselfAgrees(s);
  }

  lemma ReferenceStates(d: PlanformDrivers, b: real, s: real)
    requires IsReference(d, b, s)
    ensures b > 0.0 && s > 0.0
    ensures (d.span.Supplied() ==> b == d.span.si) && (d.area.Supplied() ==> s == d.area.si)
  {
    hide AspectRelation;
  }
}
