/** The plan form: two size drivers and a taper ratio, solved by named paths. */
module Planforms {
  import opened Quantities
  import opened Definition
  import opened Reals
  import opened Roots

  datatype SolveMode =
    | SolveFromSpanAndArea | SolveFromSpanAndAspectRatio | SolveFromAreaAndAspectRatio
    | SolveFromSpanAndRootChord | SolveFromAreaAndRootChord | SolveFromAspectRatioAndRootChord

  datatype Planform = Planform(
    span: Quantity,
    area: Quantity,
    rootChord: Quantity,
    tipChord: Quantity,
    meanChord: Quantity,
    mac: Quantity,
    yMac: Quantity,
    aspectRatio: real,
    taperRatio: real,
    shape: PlanformShape,
    mode: SolveMode
  )

  // ----- The planform equations ---------------------------------------------

  function AspectRatio(span: Quantity, area: Quantity): Outcome<Quantity> {
    var issues := QuantityIssues(span, DimLength) + QuantityIssues(area, DimArea);
    if issues != [] then Refused(issues) else Finish(Square(span.si) / area.si, Dimensionless)
  }

  function SpanFromAreaAndAspect(p: Platform, area: Quantity, aspect: real): Outcome<Quantity> {
    var issues := QuantityIssues(area, DimArea) + ScalarIssues(aspect);
    if issues != [] then Refused(issues) else Finish(p.sqrt(aspect * area.si), DimLength)
  }

  function AreaFromSpanAndAspect(span: Quantity, aspect: real): Outcome<Quantity> {
    var issues := QuantityIssues(span, DimLength) + ScalarIssues(aspect);
    if issues != [] then Refused(issues) else Finish(Square(span.si) / aspect, DimArea)
  }

  function SpanFromAreaAndRootChord(area: Quantity, root: Quantity, taper: real): Outcome<Quantity> {
    var issues := QuantityIssues(area, DimArea) + QuantityIssues(root, DimLength) + ScalarIssues(taper);
    if issues != [] then Refused(issues) else Finish(2.0 * area.si / (root.si * (1.0 + taper)), DimLength)
  }

  function AreaFromSpanAndRootChord(span: Quantity, root: Quantity, taper: real): Outcome<Quantity> {
    var issues := QuantityIssues(span, DimLength) + QuantityIssues(root, DimLength) + ScalarIssues(taper);
    if issues != [] then Refused(issues) else Finish(span.si * root.si * (1.0 + taper) / 2.0, DimArea)
  }

  function SpanFromAspectAndRootChord(aspect: real, root: Quantity, taper: real): Outcome<Quantity> {
    var issues := ScalarIssues(aspect) + QuantityIssues(root, DimLength) + ScalarIssues(taper);
    if issues != [] then Refused(issues) else Finish(aspect * root.si * (1.0 + taper) / 2.0, DimLength)
  }

  function RootChord(area: Quantity, span: Quantity, taper: real): Outcome<Quantity> {
    var issues := QuantityIssues(area, DimArea) + QuantityIssues(span, DimLength) + ScalarIssues(taper);
    if issues != [] then Refused(issues) else Finish(2.0 * area.si / (span.si * (1.0 + taper)), DimLength)
  }

  function TipChord(root: Quantity, taper: real): Outcome<Quantity> {
    var issues := QuantityIssues(root, DimLength) + ScalarIssues(taper);
    if issues != [] then Refused(issues) else Finish(taper * root.si, DimLength)
  }

  function MeanChord(area: Quantity, span: Quantity): Outcome<Quantity> {
    var issues := QuantityIssues(area, DimArea) + QuantityIssues(span, DimLength);
    if issues != [] then Refused(issues) else Finish(area.si / span.si, DimLength)
  }

  function MeanAerodynamicChord(root: Quantity, taper: real): Outcome<Quantity> {
    var issues := QuantityIssues(root, DimLength) + ScalarIssues(taper);
    if issues != [] then Refused(issues)
    else Finish(2.0 / 3.0 * root.si * (1.0 + taper + Square(taper)) / (1.0 + taper), DimLength)
  }

  function MacStation(span: Quantity, taper: real): Outcome<Quantity> {
    var issues := QuantityIssues(span, DimLength) + ScalarIssues(taper);
    if issues != [] then Refused(issues)
    else Finish(span.si * (1.0 + 2.0 * taper) / (6.0 * (1.0 + taper)), DimLength)
  }

  // ----- Choosing the solve path --------------------------------------------

  /** The taper ratio implied by the shape and the drivers. */
  function ResolveTaper(d: PlanformDrivers): Outcome<real> {
    match d.shape
    case ShapeRectangle =>
      if d.taperRatio != 0.0 && d.taperRatio != 1.0 then Refused([IssueInvalid]) else Ok(1.0)
    case ShapeTrapezoid =>
      if d.taperRatio == 0.0 then Refused([IssueMissing])
      else if d.taperRatio < 0.0 then Refused([IssueInvalid])
      else Ok(d.taperRatio)
    case ShapeUnknown => Refused([IssueMissing])
  }

  /** A rejected taper ratio continues as zero, so that one pass can report the
      driver set as well. */
  function TaperOrZero(t: Outcome<real>): real {
    if t.Ok? then t.value else 0.0
  }

  function Count(b: bool): nat {
    if b then 1 else 0
  }

  function SuppliedDrivers(d: PlanformDrivers): nat {
    Count(d.span.Supplied()) + Count(d.area.Supplied()) + Count(d.aspectRatio != 0.0) + Count(d.rootChord.Supplied())
  }

  /** The named path of a driver set holding exactly two drivers. */
  function ModeOfPair(d: PlanformDrivers): SolveMode
    requires SuppliedDrivers(d) == 2
  {
    if d.span.Supplied() then
      if d.area.Supplied() then SolveFromSpanAndArea
      else if d.aspectRatio != 0.0 then SolveFromSpanAndAspectRatio
      else SolveFromSpanAndRootChord
    else if d.area.Supplied() then
      if d.aspectRatio != 0.0 then SolveFromAreaAndAspectRatio else SolveFromAreaAndRootChord
    else SolveFromAspectRatioAndRootChord
  }

  /** Selects the solve path, or says why the driver set is not one. */
  function ResolveMode(p: Platform, d: PlanformDrivers, taper: real): Outcome<SolveMode> {
    var n := SuppliedDrivers(d);
    if n == 2 then Ok(ModeOfPair(d))
    else if n < 2 then Refused([IssueMissing])
    else Refused([OverDetermined(p, d, taper)])
  }

  const DRIVER_CONSISTENCY := 0.000001

  /** Relative agreement. A value that is not a finite number agrees with
      nothing. */
  predicate Agrees(got: real, want: Option<real>) {
    match want
    case None => false
    case Some(w) => if w == 0.0 then got == 0.0 else Abs(got - w) <= DRIVER_CONSISTENCY * Abs(w)
  }

  /** A quotient that is not a number when its divisor is zero. */
  function Quotient(x: Option<real>, y: Option<real>): Option<real> {
    if x.Some? && y.Some? && y.value != 0.0 then Some(x.value / y.value) else None
  }

  /** sqrt(A*S), which is not a number when the product is negative. */
  function ImpliedSpan(p: Platform, aspect: real, area: real): Option<real> {
    if aspect * area < 0.0 then None else Some(p.sqrt(aspect * area))
  }

  function ImpliedAspect(span: Option<real>, area: Option<real>): Option<real> {
    Quotient(if span.Some? then Some(Square(span.value)) else None, area)
  }

  function ImpliedChord(span: Option<real>, area: Option<real>, taper: real): Option<real> {
    if span.Some? && area.Some? then ChordOf(span.value, area.value, taper) else None
  }

  function ChordOf(span: real, area: real, taper: real): Option<real> {
    if span * (1.0 + taper) != 0.0 then Some(2.0 * area / (span * (1.0 + taper))) else None
  }

  /** Span and area recovered from the first supported pair present. */
  function IndependentPair(p: Platform, d: PlanformDrivers, taper: real): (Option<real>, Option<real>) {
    if d.span.Supplied() && d.area.Supplied() then (Some(d.span.si), Some(d.area.si))
    else if d.span.Supplied() && d.aspectRatio != 0.0 then
      (Some(d.span.si), Some(Square(d.span.si) / d.aspectRatio))
    else if d.area.Supplied() && d.aspectRatio != 0.0 then
      (ImpliedSpan(p, d.aspectRatio, d.area.si), Some(d.area.si))
    else if d.span.Supplied() then (Some(d.span.si), Some(d.span.si * d.rootChord.si * (1.0 + taper) / 2.0))
    else (Quotient(Some(2.0 * d.area.si), Some(d.rootChord.si * (1.0 + taper))), Some(d.area.si))
  }

  /** Every supplied driver agrees with the reference pair's span and area. */
  predicate Consistent(p: Platform, d: PlanformDrivers, taper: real) {
    var (span, area) := IndependentPair(p, d, taper);
    && (d.span.Supplied() ==> Agrees(d.span.si, span))
    && (d.area.Supplied() ==> Agrees(d.area.si, area))
    && (d.aspectRatio != 0.0 ==> Agrees(d.aspectRatio, ImpliedAspect(span, area)))
    && (d.rootChord.Supplied() ==> Agrees(d.rootChord.si, ImpliedChord(span, area, taper)))
  }

  /** Redundant drivers are outside the supported modes; conflicting ones
      cannot all be true. */
  function OverDetermined(p: Platform, d: PlanformDrivers, taper: real): IssueKind {
    if Consistent(p, d, taper) then IssueUnsupported else IssueInvalid
  }

  // ----- Solving ------------------------------------------------------------

  function IssuesOf<T>(o: Outcome<T>): Issues {
    if o.Ok? then [] else o.issues
  }

  /** A failed evaluation yields the zero Quantity to what follows it. */
  function ValueOf(o: Outcome<Quantity>): Quantity {
    if o.Ok? then o.value else UNSET
  }

  /** The named path down to span and area. */
  function SolveSize(p: Platform, d: PlanformDrivers, mode: SolveMode, taper: real): Outcome<(Quantity, Quantity)> {
    match mode
    case SolveFromSpanAndArea => Ok((d.span, d.area))
    case SolveFromSpanAndAspectRatio =>
      var s :- AreaFromSpanAndAspect(d.span, d.aspectRatio);
      Ok((d.span, s))
    case SolveFromAreaAndAspectRatio =>
      var b :- SpanFromAreaAndAspect(p, d.area, d.aspectRatio);
      Ok((b, d.area))
    case SolveFromSpanAndRootChord =>
      var s :- AreaFromSpanAndRootChord(d.span, d.rootChord, taper);
      Ok((d.span, s))
    case SolveFromAreaAndRootChord =>
      var b :- SpanFromAreaAndRootChord(d.area, d.rootChord, taper);
      Ok((b, d.area))
    case SolveFromAspectRatioAndRootChord =>
      var b := SpanFromAspectAndRootChord(d.aspectRatio, d.rootChord, taper);
      var s := AreaFromSpanAndAspect(ValueOf(b), d.aspectRatio);
      if b.Ok? && s.Ok? then Ok((b.value, s.value)) else Refused(IssuesOf(b) + IssuesOf(s))
  }

  /** A value that is a driver keeps the builder's number. */
  function ChosenAspect(d: PlanformDrivers, span: Quantity, area: Quantity): Outcome<Quantity> {
    if d.aspectRatio != 0.0 then Ok(Ratio(d.aspectRatio)) else AspectRatio(span, area)
  }

  function ChosenRoot(d: PlanformDrivers, span: Quantity, area: Quantity, taper: real): Outcome<Quantity> {
    if d.rootChord.Supplied() then Ok(d.rootChord) else RootChord(area, span, taper)
  }

  /** Derives every remaining dimension. */
  function CompleteFrom(
    d: PlanformDrivers, mode: SolveMode, span: Quantity, area: Quantity, taper: real): Outcome<Planform>
  {
    var aspect := ChosenAspect(d, span, area);
    var root := ChosenRoot(d, span, area, taper);
    if aspect.Refused? || root.Refused? then Refused(IssuesOf(aspect) + IssuesOf(root))
    else
      var tip := TipChord(root.value, taper);
      var mean := MeanChord(area, span);
      var mac := MeanAerodynamicChord(root.value, taper);
      var yMac := MacStation(span, taper);
      if tip.Ok? && mean.Ok? && mac.Ok? && yMac.Ok? then
        Ok(Planform(span, area, root.value, tip.value, mean.value, mac.value, yMac.value,
                    aspect.value.si, taper, d.shape, mode))
      else Refused(IssuesOf(tip) + IssuesOf(mean) + IssuesOf(mac) + IssuesOf(yMac))
  }

  function SolvePlanform(p: Platform, d: PlanformDrivers): Outcome<Planform> {
    var t := ResolveTaper(d);
    var m := ResolveMode(p, d, TaperOrZero(t));
    if t.Refused? || m.Refused? then Refused(IssuesOf(t) + IssuesOf(m))
    else
      var size :- SolveSize(p, d, m.value, t.value);
      CompleteFrom(d, m.value, size.0, size.1, t.value)
  }

  // ----- Solving, stage by stage --------------------------------------------

  /** Collects the issues of one solve, so that a stage reports all of its
      problems and not only the first. */
  class ResultSet {
    var issues: Issues

    constructor ()
      ensures issues == []
    {
      issues := [];
    }

    /** A failed evaluation yields the zero Quantity. */
    method Take(r: Outcome<Quantity>) returns (q: Quantity)
      modifies this
      ensures q == ValueOf(r) && issues == old(issues) + IssuesOf(r)
    {
      match r
      case Ok(value) =>
        q := value;
        assert issues + [] == issues;
      case Refused(found) =>
        issues := issues + found;
        q := UNSET;
    }

    method Add(issue: IssueKind)
      modifies this
      ensures issues == old(issues) + [issue]
    {
      issues := issues + [issue];
    }
  }

  /** An evaluation that fails says why. */
  predicate Explained<T>(r: Outcome<T>) {
    r.Refused? ==> r.issues != []
  }

  method TakeTaper(d: PlanformDrivers, rs: ResultSet) returns (taper: real)
    modifies rs
    ensures taper == TaperOrZero(ResolveTaper(d)) && rs.issues == old(rs.issues) + IssuesOf(ResolveTaper(d))
  {
    taper := 0.0;
    assert rs.issues + [] == rs.issues;
    match d.shape
    case ShapeRectangle =>
      if d.taperRatio != 0.0 && d.taperRatio != 1.0 {
        rs.Add(IssueInvalid);
        return;
      }
      taper := 1.0;
    case ShapeTrapezoid =>
      if d.taperRatio == 0.0 {
        rs.Add(IssueMissing);
      } else if d.taperRatio < 0.0 {
        rs.Add(IssueInvalid);
      } else {
        taper := d.taperRatio;
      }
    case ShapeUnknown =>
      rs.Add(IssueMissing);
  }

  method TakeMode(p: Platform, d: PlanformDrivers, rs: ResultSet, taper: real) returns (mode: Option<SolveMode>)
    modifies rs
    ensures mode == (if SuppliedDrivers(d) == 2 then Some(ModeOfPair(d)) else None)
    ensures rs.issues == old(rs.issues) + IssuesOf(ResolveMode(p, d, taper))
  {
    hide OverDetermined, ModeOfPair;
    var n := SuppliedDrivers(d);
    assert rs.issues + [] == rs.issues;
    if n == 2 {
      return Some(ModeOfPair(d));
    }
    mode := None;
    if n < 2 {
      rs.Add(IssueMissing);
    } else {
      rs.Add(OverDetermined(p, d, taper));
    }
  }

  method TakeSize(p: Platform, d: PlanformDrivers, rs: ResultSet, mode: SolveMode, taper: real)
    returns (span: Quantity, area: Quantity)
    modifies rs
    ensures rs.issues == old(rs.issues) + IssuesOf(SolveSize(p, d, mode, taper))
    ensures SolveSize(p, d, mode, taper).Ok? ==> SolveSize(p, d, mode, taper).value == (span, area)
  {
    hide AreaFromSpanAndAspect, SpanFromAreaAndAspect, AreaFromSpanAndRootChord, SpanFromAreaAndRootChord,
      SpanFromAspectAndRootChord;
    span, area := d.span, d.area;
    match mode
    case SolveFromSpanAndArea =>
    case SolveFromSpanAndAspectRatio => area := rs.Take(AreaFromSpanAndAspect(d.span, d.aspectRatio));
    case SolveFromAreaAndAspectRatio => span := rs.Take(SpanFromAreaAndAspect(p, d.area, d.aspectRatio));
    case SolveFromSpanAndRootChord => area := rs.Take(AreaFromSpanAndRootChord(d.span, d.rootChord, taper));
    case SolveFromAreaAndRootChord => span := rs.Take(SpanFromAreaAndRootChord(d.area, d.rootChord, taper));
    case SolveFromAspectRatioAndRootChord =>
      span := rs.Take(SpanFromAspectAndRootChord(d.aspectRatio, d.rootChord, taper));
      area := rs.Take(AreaFromSpanAndAspect(span, d.aspectRatio));
  }

  lemma SizeIsExplained(p: Platform, d: PlanformDrivers, mode: SolveMode, taper: real)
    ensures Explained(SolveSize(p, d, mode, taper))
  {
    assert Explained(SpanFromAspectAndRootChord(d.aspectRatio, d.rootChord, taper));
  }

  method TakeDriven(d: PlanformDrivers, rs: ResultSet, span: Quantity, area: Quantity, taper: real)
    returns (aspect: real, root: Quantity)
    modifies rs
    ensures rs.issues == old(rs.issues) + IssuesOf(ChosenAspect(d, span, area)) + IssuesOf(ChosenRoot(d, span, area, taper))
    ensures aspect == ValueOf(ChosenAspect(d, span, area)).si && root == ValueOf(ChosenRoot(d, span, area, taper))
  {
    hide AspectRatio, RootChord;
    aspect, root := d.aspectRatio, d.rootChord;
    assert forall s: Issues :: s + [] == s;
    if d.aspectRatio == 0.0 {
      var value := rs.Take(AspectRatio(span, area));
      aspect := value.si;
    }
    if !d.rootChord.Supplied() {
      root := rs.Take(RootChord(area, span, taper));
    }
  }

  method TakeRest(d: PlanformDrivers, rs: ResultSet, mode: SolveMode, span: Quantity, area: Quantity, taper: real)
    returns (w: Planform)
    requires rs.issues == []
    modifies rs
    ensures rs.issues == IssuesOf(CompleteFrom(d, mode, span, area, taper))
    ensures CompleteFrom(d, mode, span, area, taper).Ok? ==> CompleteFrom(d, mode, span, area, taper).value == w
    ensures Explained(CompleteFrom(d, mode, span, area, taper))
  {
    hide ChosenAspect, ChosenRoot, TipChord, MeanChord, MeanAerodynamicChord, MacStation;
    DrivenAreExplained(d, span, area, taper);
    var aspect, root := TakeDriven(d, rs, span, area, taper);
    w := Planform(span, area, root, UNSET, UNSET, UNSET, UNSET, aspect, taper, d.shape, mode);
    if rs.issues != [] {
      return;
    }
    DimensionsAreExplained(span, area, root, taper);
    var tip := rs.Take(TipChord(root, taper));
    var mean := rs.Take(MeanChord(area, span));
    var mac := rs.Take(MeanAerodynamicChord(root, taper));
    var yMac := rs.Take(MacStation(span, taper));
    w := w.(tipChord := tip, meanChord := mean, mac := mac, yMac := yMac);
  }

  lemma DrivenAreExplained(d: PlanformDrivers, span: Quantity, area: Quantity, taper: real)
    ensures Explained(ChosenAspect(d, span, area)) && Explained(ChosenRoot(d, span, area, taper))
  {
  }

  lemma DimensionsAreExplained(span: Quantity, area: Quantity, root: Quantity, taper: real)
    ensures Explained(TipChord(root, taper)) && Explained(MeanChord(area, span))
    ensures Explained(MeanAerodynamicChord(root, taper)) && Explained(MacStation(span, taper))
  {
  }

  /** Solves in stages, stopping at the first one that found an issue. */
  method ComputePlanform(p: Platform, d: PlanformDrivers) returns (r: Outcome<Planform>)
    ensures r == SolvePlanform(p, d)
  {
    hide SolveSize, CompleteFrom, OverDetermined, ModeOfPair;
    var rs := new ResultSet();
    var taper := TakeTaper(d, rs);
    var mode := TakeMode(p, d, rs, taper);
    if rs.issues != [] {
      return Refused(rs.issues);
    }
    SizeIsExplained(p, d, mode.value, taper);
    var span, area := TakeSize(p, d, rs, mode.value, taper);
    if rs.issues != [] {
      return Refused(rs.issues);
    }
    var w := TakeRest(d, rs, mode.value, span, area, taper);
    if rs.issues != [] {
      return Refused(rs.issues);
    }
    r := Ok(w);
  }

  // ----- What every solved planform satisfies -------------------------------

  /** A = b^2/S, cross-multiplied. */
  predicate AspectRelation(a: real, b: real, s: real) {
    a * s == Square(b)
  }

  /** S = b*c*(1 + taper)/2: the area of a trapezoid. */
  predicate TrapezoidArea(b: real, s: real, c: real, taper: real) {
    2.0 * s == b * (c * (1.0 + taper))
  }

  predicate MeanRelation(mean: real, b: real, s: real) {
    mean * b == s
  }

  predicate MacRelation(mac: real, c: real, taper: real) {
    mac * (3.0 * (1.0 + taper)) == 2.0 * c * (1.0 + taper + Square(taper))
  }

  predicate TipRelation(tip: real, c: real, taper: real) {
    tip == taper * c
  }

  predicate StationRelation(y: real, b: real, taper: real) {
    y * (6.0 * (1.0 + taper)) == b * (1.0 + 2.0 * taper)
  }

  /** A planform in the geometric sense: positive dimensions tied together by
      the trapezoid's own relations. */
  ghost predicate IsTrapezoid(w: Planform) {
    && w.span.Positive(DimLength) && w.area.Positive(DimArea) && w.rootChord.Positive(DimLength)
    && w.tipChord.Positive(DimLength) && w.meanChord.Positive(DimLength)
    && w.mac.Positive(DimLength) && w.yMac.Positive(DimLength)
    && w.aspectRatio > 0.0 && w.taperRatio > 0.0
    && AspectRelation(w.aspectRatio, w.span.si, w.area.si)
    && TrapezoidArea(w.span.si, w.area.si, w.rootChord.si, w.taperRatio)
    && TipRelation(w.tipChord.si, w.rootChord.si, w.taperRatio)
    && MeanRelation(w.meanChord.si, w.span.si, w.area.si)
    && MacRelation(w.mac.si, w.rootChord.si, w.taperRatio)
    && StationRelation(w.yMac.si, w.span.si, w.taperRatio)
  }

  /** The shape and the taper ratio belong together. */
  predicate ShapeAllows(shape: PlanformShape, taper: real) {
    match shape
    case ShapeRectangle => taper == 1.0
    case ShapeTrapezoid => taper > 0.0
    case ShapeUnknown => false
  }

  /** Every driver that was supplied is a positive value of its dimension. */
  predicate DriversPositive(d: PlanformDrivers) {
    && (d.span.Supplied() ==> d.span.Positive(DimLength))
    && (d.area.Supplied() ==> d.area.Positive(DimArea))
    && (d.rootChord.Supplied() ==> d.rootChord.Positive(DimLength))
    && d.aspectRatio >= 0.0
  }

  /** A driver set is true of a span and an area. */
  predicate DriversFit(d: PlanformDrivers, span: Quantity, area: Quantity, taper: real) {
    && span.Positive(DimLength) && area.Positive(DimArea) && taper > 0.0
    && (d.span.Supplied() ==> d.span == span)
    && (d.area.Supplied() ==> d.area == area)
    && (d.aspectRatio != 0.0 ==> d.aspectRatio > 0.0 && AspectRelation(d.aspectRatio, span.si, area.si))
    && (d.rootChord.Supplied() ==>
          d.rootChord.Positive(DimLength) && TrapezoidArea(span.si, area.si, d.rootChord.si, taper))
  }

  // Each equation, undone: the relation its result satisfies.

  lemma QuotientLaw(q: real, x: real, y: real)
    requires x > 0.0 && y > 0.0 && q == x / y
    ensures q > 0.0 && q * y == x
  {
    DivPositive(x, y);
    DivMul(x, y);
  }

  lemma AspectRatioLaw(span: Quantity, area: Quantity)
    requires span.Positive(DimLength) && area.Positive(DimArea)
    ensures AspectRatio(span, area).Ok? && AspectRatio(span, area).value.Positive(Dimensionless)
    ensures AspectRelation(AspectRatio(span, area).value.si, span.si, area.si)
  {
    QuotientLaw(Square(span.si) / area.si, Square(span.si), area.si);
  }

  lemma SpanFromAreaAndAspectLaw(p: Platform, area: Quantity, aspect: real)
    requires p.Lawful() && area.Positive(DimArea) && aspect > 0.0
    ensures SpanFromAreaAndAspect(p, area, aspect).Ok?
    ensures SpanFromAreaAndAspect(p, area, aspect).value.Positive(DimLength)
    ensures AspectRelation(aspect, SpanFromAreaAndAspect(p, area, aspect).value.si, area.si)
  {
    assert aspect * area.si > 0.0;
    SqrtPositive(p, aspect * area.si);
  }

  lemma AreaFromSpanAndAspectLaw(span: Quantity, aspect: real)
    requires span.Positive(DimLength) && aspect > 0.0
    ensures AreaFromSpanAndAspect(span, aspect).Ok? && AreaFromSpanAndAspect(span, aspect).value.Positive(DimArea)
    ensures AspectRelation(aspect, span.si, AreaFromSpanAndAspect(span, aspect).value.si)
  {
    QuotientLaw(Square(span.si) / aspect, Square(span.si), aspect);
  }

  lemma ChordLaw(b: real, s: real, c: real, k: real)
    requires b > 0.0 && s > 0.0 && k > 0.0 && b * k > 0.0 && c == 2.0 * s / (b * k)
    ensures c > 0.0 && 2.0 * s == b * (c * k)
  {
    QuotientLaw(c, 2.0 * s, b * k);
    assert c * (b * k) == b * (c * k);
  }

  lemma RootChordLaw(area: Quantity, span: Quantity, taper: real)
    requires area.Positive(DimArea) && span.Positive(DimLength) && taper > 0.0
    ensures RootChord(area, span, taper).Ok? && RootChord(area, span, taper).value.Positive(DimLength)
    ensures TrapezoidArea(span.si, area.si, RootChord(area, span, taper).value.si, taper)
  {
    assert span.si * (1.0 + taper) > 0.0;
    ChordLaw(span.si, area.si, 2.0 * area.si / (span.si * (1.0 + taper)), 1.0 + taper);
  }

  lemma SpanFromAreaAndRootChordLaw(area: Quantity, root: Quantity, taper: real)
    requires area.Positive(DimArea) && root.Positive(DimLength) && taper > 0.0
    ensures SpanFromAreaAndRootChord(area, root, taper).Ok?
    ensures SpanFromAreaAndRootChord(area, root, taper).value.Positive(DimLength)
    ensures TrapezoidArea(SpanFromAreaAndRootChord(area, root, taper).value.si, area.si, root.si, taper)
  {
    var ck := root.si * (1.0 + taper);
    assert ck > 0.0;
    QuotientLaw(2.0 * area.si / ck, 2.0 * area.si, ck);
  }

  lemma AreaFromSpanAndRootChordLaw(span: Quantity, root: Quantity, taper: real)
    requires span.Positive(DimLength) && root.Positive(DimLength) && taper > 0.0
    ensures AreaFromSpanAndRootChord(span, root, taper).Ok?
    ensures AreaFromSpanAndRootChord(span, root, taper).value.Positive(DimArea)
    ensures TrapezoidArea(span.si, AreaFromSpanAndRootChord(span, root, taper).value.si, root.si, taper)
  {
    var b, c, k := span.si, root.si, 1.0 + taper;
    assert b * c > 0.0;
    assert b * c * k > 0.0 && b * c * k == b * (c * k);
  }

  lemma SpanFromAspectLaw(a: real, c: real, k: real, b: real, s: real)
    requires a > 0.0 && b == a * c * k / 2.0 && a * s == Square(b)
    ensures 2.0 * s == b * (c * k)
  {
    var ck := c * k;
    assert a * ck == 2.0 * b;
    assert Square(b) == Product(b, b) == b * b;
    calc {
      2.0 * s * a;
      2.0 * (b * b);
      b * (a * ck);
      b * ck * a;
    }
    Scale(2.0 * s, b * ck, a);
  }

  /** The last path solves the span first and takes the area from it. */
  lemma AspectAndRootChordLaw(aspect: real, root: Quantity, taper: real)
    requires aspect > 0.0 && root.Positive(DimLength) && taper > 0.0
    ensures SpanFromAspectAndRootChord(aspect, root, taper).Ok?
    ensures var b := SpanFromAspectAndRootChord(aspect, root, taper).value;
            && b.Positive(DimLength)
            && AreaFromSpanAndAspect(b, aspect).Ok?
            && TrapezoidArea(b.si, AreaFromSpanAndAspect(b, aspect).value.si, root.si, taper)
  {
    var c, k := root.si, 1.0 + taper;
    assert aspect * c > 0.0;
    assert aspect * c * k > 0.0;
    var b := SpanFromAspectAndRootChord(aspect, root, taper).value;
    AreaFromSpanAndAspectLaw(b, aspect);
    SpanFromAspectLaw(aspect, c, k, b.si, AreaFromSpanAndAspect(b, aspect).value.si);
  }

  lemma TipChordLaw(root: Quantity, taper: real)
    requires root.Positive(DimLength) && taper > 0.0
    ensures TipChord(root, taper).Ok? && TipChord(root, taper).value.Positive(DimLength)
    ensures TipRelation(TipChord(root, taper).value.si, root.si, taper)
  {
    assert taper * root.si > 0.0;
  }

  lemma MeanChordLaw(area: Quantity, span: Quantity)
    requires area.Positive(DimArea) && span.Positive(DimLength)
    ensures MeanChord(area, span).Ok? && MeanChord(area, span).value.Positive(DimLength)
    ensures MeanRelation(MeanChord(area, span).value.si, span.si, area.si)
  {
    QuotientLaw(area.si / span.si, area.si, span.si);
  }

  lemma MacLaw(root: Quantity, taper: real)
    requires root.Positive(DimLength) && taper > 0.0
    ensures MeanAerodynamicChord(root, taper).Ok? && MeanAerodynamicChord(root, taper).value.Positive(DimLength)
    ensures MacRelation(MeanAerodynamicChord(root, taper).value.si, root.si, taper)
  {
    var c, n, k := root.si, 1.0 + taper + Square(taper), 1.0 + taper;
    var x := 2.0 / 3.0 * c * n;
    assert c * n > 0.0;
    assert x == 2.0 / 3.0 * (c * n) && x > 0.0;
    QuotientLaw(x / k, x, k);
    assert x / k * (3.0 * k) == 3.0 * (x / k * k);
  }

  lemma MacStationLaw(span: Quantity, taper: real)
    requires span.Positive(DimLength) && taper > 0.0
    ensures MacStation(span, taper).Ok? && MacStation(span, taper).value.Positive(DimLength)
    ensures StationRelation(MacStation(span, taper).value.si, span.si, taper)
  {
    var x := span.si * (1.0 + 2.0 * taper);
    assert x > 0.0;
    QuotientLaw(x / (6.0 * (1.0 + taper)), x, 6.0 * (1.0 + taper));
  }

  /** Each named path arrives at a span and an area its drivers fit. */
  lemma SizeFits(p: Platform, d: PlanformDrivers, taper: real)
    requires p.Lawful() && taper > 0.0
    requires SuppliedDrivers(d) == 2 && DriversPositive(d)
    ensures SolveSize(p, d, ModeOfPair(d), taper).Ok?
    ensures var (b, s) := SolveSize(p, d, ModeOfPair(d), taper).value; DriversFit(d, b, s, taper)
  {
    hide AspectRelation, TrapezoidArea, AreaFromSpanAndAspect, SpanFromAreaAndAspect, AreaFromSpanAndRootChord,
      SpanFromAreaAndRootChord, SpanFromAspectAndRootChord;
    match ModeOfPair(d)
    case SolveFromSpanAndArea =>
    case SolveFromSpanAndAspectRatio => AreaFromSpanAndAspectLaw(d.span, d.aspectRatio);
    case SolveFromAreaAndAspectRatio => SpanFromAreaAndAspectLaw(p, d.area, d.aspectRatio);
    case SolveFromSpanAndRootChord => AreaFromSpanAndRootChordLaw(d.span, d.rootChord, taper);
    case SolveFromAreaAndRootChord => SpanFromAreaAndRootChordLaw(d.area, d.rootChord, taper);
    case SolveFromAspectRatioAndRootChord =>
      AspectAndRootChordLaw(d.aspectRatio, d.rootChord, taper);
      AreaFromSpanAndAspectLaw(SpanFromAspectAndRootChord(d.aspectRatio, d.rootChord, taper).value, d.aspectRatio);
  }

  /** A span and an area its drivers fit complete to a trapezoid. */
  lemma CompletionIsTrapezoid(d: PlanformDrivers, mode: SolveMode, span: Quantity, area: Quantity, taper: real)
    requires DriversFit(d, span, area, taper)
    ensures CompleteFrom(d, mode, span, area, taper).Ok?
    ensures var w := CompleteFrom(d, mode, span, area, taper).value;
            && IsTrapezoid(w) && w.span == span && w.area == area && w.taperRatio == taper
            && w.shape == d.shape && w.mode == mode
            && (d.aspectRatio != 0.0 ==> w.aspectRatio == d.aspectRatio)
            && (d.rootChord.Supplied() ==> w.rootChord == d.rootChord)
  {
    hide AspectRelation, TrapezoidArea, MeanRelation, MacRelation, TipRelation, StationRelation,
      AspectRatio, RootChord, TipChord, MeanChord, MeanAerodynamicChord, MacStation;
    AspectRatioLaw(span, area);
    RootChordLaw(area, span, taper);
    var root := if d.rootChord.Supplied() then d.rootChord else RootChord(area, span, taper).value;
    TipChordLaw(root, taper);
    MeanChordLaw(area, span);
    MacLaw(root, taper);
    MacStationLaw(span, taper);
  }

  /** Every solved planform satisfies b^2 = A*S and 2S = b*c_root*(1 + taper),
      and keeps the two values the builder chose. */
  lemma SolvedPlanformIsTrapezoid(p: Platform, d: PlanformDrivers)
    requires p.Lawful()
    requires ResolveTaper(d).Ok? && SuppliedDrivers(d) == 2 && DriversPositive(d)
    ensures SolvePlanform(p, d).Ok?
    ensures var w := SolvePlanform(p, d).value;
            && IsTrapezoid(w) && ShapeAllows(w.shape, w.taperRatio)
            && DriversFit(d, w.span, w.area, w.taperRatio)
            && w.mode == ModeOfPair(d) && w.shape == d.shape && w.taperRatio == ResolveTaper(d).value
            && (d.aspectRatio != 0.0 ==> w.aspectRatio == d.aspectRatio)
            && (d.rootChord.Supplied() ==> w.rootChord == d.rootChord)
  {
    hide SolveSize, CompleteFrom, AspectRelation, TrapezoidArea, MeanRelation, MacRelation, TipRelation, StationRelation;
    var t := ResolveTaper(d).value;
    SizeFits(p, d, t);
    var (b, s) := SolveSize(p, d, ModeOfPair(d), t).value;
    CompletionIsTrapezoid(d, ModeOfPair(d), b, s, t);
  }

  /** The solve succeeds exactly when the taper ratio belongs to the shape and
      exactly two drivers are supplied, each a positive value of its dimension. */
  lemma SolvesExactlyWellFormedDrivers(p: Platform, d: PlanformDrivers)
    requires p.Lawful()
    ensures SolvePlanform(p, d).Ok? <==> ResolveTaper(d).Ok? && SuppliedDrivers(d) == 2 && DriversPositive(d)
  {
    if ResolveTaper(d).Ok? && SuppliedDrivers(d) == 2 && DriversPositive(d) {
      SolvedPlanformIsTrapezoid(p, d);
    }
  }

  // ----- Driver interchange -------------------------------------------------

  lemma OneAspect(a: real, a': real, b: real, s: real)
    requires s > 0.0 && AspectRelation(a, b, s) && AspectRelation(a', b, s)
    ensures a == a'
  {
    Scale(a, a', s);
  }

  lemma OneChord(b: real, s: real, c: real, c': real, taper: real)
    requires b > 0.0 && taper > 0.0 && TrapezoidArea(b, s, c, taper) && TrapezoidArea(b, s, c', taper)
    ensures c == c'
  {
    var k := 1.0 + taper;
    Scale(c * k, c' * k, b);
    Scale(c, c', k);
  }

  lemma OneMean(m: real, m': real, b: real, s: real)
    requires b > 0.0 && MeanRelation(m, b, s) && MeanRelation(m', b, s)
    ensures m == m'
  {
    Scale(m, m', b);
  }

  lemma OneMac(m: real, m': real, c: real, taper: real)
    requires taper > 0.0 && MacRelation(m, c, taper) && MacRelation(m', c, taper)
    ensures m == m'
  {
    Scale(m, m', 3.0 * (1.0 + taper));
  }

  lemma OneTip(tip: real, tip': real, c: real, taper: real)
    requires TipRelation(tip, c, taper) && TipRelation(tip', c, taper)
    ensures tip == tip'
  {
  }

  lemma OneStation(y: real, y': real, b: real, taper: real)
    requires taper > 0.0 && StationRelation(y, b, taper) && StationRelation(y', b, taper)
    ensures y == y'
  {
    Scale(y, y', 6.0 * (1.0 + taper));
  }

  /** Span, area and taper ratio determine every other dimension. */
  lemma TrapezoidIsDetermined(v: Planform, w: Planform)
    requires IsTrapezoid(v) && IsTrapezoid(w)
    requires v.span == w.span && v.area == w.area && v.taperRatio == w.taperRatio
    requires v.shape == w.shape && v.mode == w.mode
    ensures v == w
  {
    hide AspectRelation, TrapezoidArea, MeanRelation, MacRelation, TipRelation, StationRelation;
    OneAspect(v.aspectRatio, w.aspectRatio, v.span.si, v.area.si);
    OneChord(v.span.si, v.area.si, v.rootChord.si, w.rootChord.si, v.taperRatio);
    OneMean(v.meanChord.si, w.meanChord.si, v.span.si, v.area.si);
    OneMac(v.mac.si, w.mac.si, v.rootChord.si, v.taperRatio);
    OneTip(v.tipChord.si, w.tipChord.si, v.rootChord.si, v.taperRatio);
    OneStation(v.yMac.si, w.yMac.si, v.span.si, v.taperRatio);
  }

  /** The values of a solved planform entered as the drivers of a mode. */
  function DriversFrom(w: Planform, mode: SolveMode): PlanformDrivers {
    var none := PlanformDrivers(UNSET, UNSET, UNSET, 0.0, w.taperRatio, w.shape);
    match mode
    case SolveFromSpanAndArea => none.(span := w.span, area := w.area)
    case SolveFromSpanAndAspectRatio => none.(span := w.span, aspectRatio := w.aspectRatio)
    case SolveFromAreaAndAspectRatio => none.(area := w.area, aspectRatio := w.aspectRatio)
    case SolveFromSpanAndRootChord => none.(span := w.span, rootChord := w.rootChord)
    case SolveFromAreaAndRootChord => none.(area := w.area, rootChord := w.rootChord)
    case SolveFromAspectRatioAndRootChord => none.(aspectRatio := w.aspectRatio, rootChord := w.rootChord)
  }

  lemma AspectFitsOneArea(a: real, b: real, s: real, s': real)
    requires a > 0.0 && AspectRelation(a, b, s) && AspectRelation(a, b, s')
    ensures s == s'
  {
    Scale(s, s', a);
  }

  lemma AspectFitsOneSpan(a: real, b: real, b': real, s: real)
    requires b > 0.0 && b' > 0.0 && AspectRelation(a, b, s) && AspectRelation(a, b', s)
    ensures b == b'
  {
    SquareMonotone(b, b');
  }

  lemma ChordFitsOneSpan(b: real, b': real, s: real, c: real, taper: real)
    requires c > 0.0 && taper > 0.0 && TrapezoidArea(b, s, c, taper) && TrapezoidArea(b', s, c, taper)
    ensures b == b'
  {
    assert c * (1.0 + taper) > 0.0;
    Scale(b, b', c * (1.0 + taper));
  }

  lemma AspectAndChordGiveSpan(a: real, b: real, s: real, ck: real)
    requires b > 0.0 && AspectRelation(a, b, s) && 2.0 * s == b * ck
    ensures 2.0 * b == a * ck
  {
    assert Square(b) == Product(b, b) == b * b;
    calc {
      2.0 * b * b;
      2.0 * (a * s);
      a * (b * ck);
      a * ck * b;
    }
    Scale(2.0 * b, a * ck, b);
  }

  lemma AspectAndChordFitOneSpan(a: real, b: real, s: real, b': real, s': real, c: real, taper: real)
    requires b > 0.0 && AspectRelation(a, b, s) && TrapezoidArea(b, s, c, taper)
    requires b' > 0.0 && AspectRelation(a, b', s') && TrapezoidArea(b', s', c, taper)
    ensures b == b'
  {
    var ck := c * (1.0 + taper);
    AspectAndChordGiveSpan(a, b, s, ck);
    AspectAndChordGiveSpan(a, b', s', ck);
  }

  /** Two supplied drivers fit at most one size. */
  lemma PairFitsOneSize(d: PlanformDrivers, b: Quantity, s: Quantity, b': Quantity, s': Quantity, t: real)
    requires SuppliedDrivers(d) >= 2
    requires DriversFit(d, b, s, t) && DriversFit(d, b', s', t)
    ensures b == b' && s == s'
  {
    hide AspectRelation, TrapezoidArea;
    if d.span.Supplied() && !d.area.Supplied() {
      if d.aspectRatio != 0.0 {
        AspectFitsOneArea(d.aspectRatio, b.si, s.si, s'.si);
      } else {
        assert 2.0 * s.si == 2.0 * s'.si by {
          ChordGivesArea(b.si, s.si, d.rootChord.si, t);
          ChordGivesArea(b.si, s'.si, d.rootChord.si, t);
        }
      }
    } else if !d.span.Supplied() {
      if !d.area.Supplied() {
        AspectAndChordFitOneSpan(d.aspectRatio, b.si, s.si, b'.si, s'.si, d.rootChord.si, t);
        AspectFitsOneArea(d.aspectRatio, b.si, s.si, s'.si);
      } else if d.aspectRatio != 0.0 {
        AspectFitsOneSpan(d.aspectRatio, b.si, b'.si, s.si);
      } else {
        ChordFitsOneSpan(b.si, b'.si, s.si, d.rootChord.si, t);
      }
    }
  }

  lemma ChordGivesArea(b: real, s: real, c: real, taper: real)
    requires TrapezoidArea(b, s, c, taper)
    ensures 2.0 * s == b * (c * (1.0 + taper))
  {
  }

  /** Interchange: a solved planform re-solved from any supported pair of its
      own values, at the same taper ratio, is the same planform. */
  lemma ResolvingFromAnyPairReturnsThePlanform(p: Platform, d: PlanformDrivers, mode: SolveMode)
    requires p.Lawful() && SolvePlanform(p, d).Ok?
    ensures var w := SolvePlanform(p, d).value; SolvePlanform(p, DriversFrom(w, mode)) == Ok(w.(mode := mode))
  {
    hide SolvePlanform, AspectRelation, TrapezoidArea, MeanRelation, MacRelation, TipRelation, StationRelation;
    SolvesExactlyWellFormedDrivers(p, d);
    SolvedPlanformIsTrapezoid(p, d);
    var w := SolvePlanform(p, d).value;
    var e := DriversFrom(w, mode);
    assert DriversFit(e, w.span, w.area, w.taperRatio);
    SolvedPlanformIsTrapezoid(p, e);
    var v := SolvePlanform(p, e).value;
    PairFitsOneSize(e, w.span, w.area, v.span, v.area, w.taperRatio);
    TrapezoidIsDetermined(v, w.(mode := mode));
  }

  // ----- Over-determined drivers --------------------------------------------

  lemma AgreesWithItself(x: real)
    requires x > 0.0
    ensures Agrees(x, Some(x))
  {
  }

  lemma AreaFromAspect(a: real, b: real, s: real)
    requires a > 0.0 && AspectRelation(a, b, s)
    ensures s == Square(b) / a
  {
    DivUnique(s, Square(b), a);
  }

  lemma SpanFromAspect(p: Platform, a: real, b: real, s: real)
    requires p.Lawful() && b > 0.0 && AspectRelation(a, b, s)
    ensures ImpliedSpan(p, a, s) == Some(b)
  {
    SqrtUnique(p, b);
  }

  lemma AspectFromSize(a: real, b: real, s: real)
    requires s > 0.0 && AspectRelation(a, b, s)
    ensures ImpliedAspect(Some(b), Some(s)) == Some(a)
  {
    DivUnique(a, Square(b), s);
  }

  lemma ChordFromSize(b: real, s: real, c: real, taper: real)
    requires b > 0.0 && taper > 0.0 && TrapezoidArea(b, s, c, taper)
    ensures ImpliedChord(Some(b), Some(s), taper) == Some(c)
  {
    assert b * (1.0 + taper) > 0.0;
    assert c * (b * (1.0 + taper)) == b * (c * (1.0 + taper));
    DivUnique(c, 2.0 * s, b * (1.0 + taper));
    assert c == 2.0 * s / (b * (1.0 + taper));
  }

  lemma ReferencePairIsTheSize(p: Platform, d: PlanformDrivers, span: Quantity, area: Quantity, t: real)
    requires p.Lawful() && SuppliedDrivers(d) > 2 && DriversFit(d, span, area, t)
    ensures IndependentPair(p, d, t) == (Some(span.si), Some(area.si))
  {
    hide AspectRelation, TrapezoidArea, Square, ImpliedSpan;
    if d.span.Supplied() && !d.area.Supplied() {
      AreaFromAspect(d.aspectRatio, span.si, area.si);
    } else if !d.span.Supplied() {
      SpanFromAspect(p, d.aspectRatio, span.si, area.si);
    }
  }

  /** Three or four drivers that one positive size fits are called redundant and
      never conflicting, whichever pair is taken as the reference. */
  lemma ConsistentDriversAreNeverConflicting(p: Platform, d: PlanformDrivers, span: Quantity, area: Quantity)
    requires p.Lawful() && ResolveTaper(d).Ok?
    requires SuppliedDrivers(d) > 2
    requires DriversFit(d, span, area, ResolveTaper(d).value)
    ensures SolvePlanform(p, d) == Refused([IssueUnsupported])
  {
    hide AspectRelation, TrapezoidArea, IndependentPair, ImpliedAspect, ImpliedChord, Agrees;
    var t := ResolveTaper(d).value;
    ReferencePairIsTheSize(p, d, span, area, t);
    AgreesWithItself(span.si);
    AgreesWithItself(area.si);
    if d.aspectRatio != 0.0 {
      AspectFromSize(d.aspectRatio, span.si, area.si);
      AgreesWithItself(d.aspectRatio);
    }
    if d.rootChord.Supplied() {
      ChordFromSize(span.si, area.si, d.rootChord.si, t);
      AgreesWithItself(d.rootChord.si);
    }
    assert Consistent(p, d, t);
  }

  /** A reported conflict is a real one: no size fits all the drivers. */
  lemma ReportedConflictFitsNoSize(p: Platform, d: PlanformDrivers, span: Quantity, area: Quantity)
    requires p.Lawful() && ResolveTaper(d).Ok?
    requires SuppliedDrivers(d) > 2
    requires SolvePlanform(p, d) == Refused([IssueInvalid])
    ensures !DriversFit(d, span, area, ResolveTaper(d).value)
  {
    if DriversFit(d, span, area, ResolveTaper(d).value) {
      ConsistentDriversAreNeverConflicting(p, d, span, area);
    }
  }

  lemma TaperSquare(t: real)
    ensures 4.0 * (1.0 + t + Square(t)) - 3.0 * ((1.0 + t) * (1.0 + t)) == Square(1.0 - t)
  {
    assert Square(t) == Product(t, t) == t * t;
    ProductSum(1.0, -t, 1.0, -t);
    assert Square(1.0 - t) == Product(1.0 + -t, 1.0 + -t);
  }

  /** The mean aerodynamic chord is never shorter than the geometric mean chord,
      and the two agree only without taper. */
  lemma MacIsAtLeastTheMeanChord(w: Planform)
    requires IsTrapezoid(w)
    ensures w.meanChord.si <= w.mac.si
    ensures w.meanChord.si == w.mac.si <==> w.taperRatio == 1.0
  {
    MeanAndMac(w.span.si, w.area.si, w.rootChord.si, w.taperRatio, w.meanChord.si, w.mac.si);
  }

  lemma MeanAndMac(b: real, s: real, c: real, t: real, mean: real, mac: real)
    requires b > 0.0 && c > 0.0 && t > 0.0
    requires TrapezoidArea(b, s, c, t) && MeanRelation(mean, b, s) && MacRelation(mac, c, t)
    ensures mean <= mac
    ensures mean == mac <==> t == 1.0
  {
    hide Square, Product;
    var k := 1.0 + t;
    assert 2.0 * mean * b == c * k * b;
    Scale(2.0 * mean, c * k, b);
    TaperSquare(t);
    var n, gap := 1.0 + t + Square(t), Square(1.0 - t);
    assert mean * (6.0 * k) == 3.0 * (c * k * k);
    assert c * k * k == c * (k * k);
    assert mac * (6.0 * k) == 4.0 * (c * n);
    assert mac * (6.0 * k) - mean * (6.0 * k) == c * gap by {
      assert c * gap == c * (4.0 * n - 3.0 * (k * k));
    }
    Scale(mean, mac, 6.0 * k);
    Scale(0.0, gap, c);
  }
}
