/** What the edges of a wing's parameters mean: a derived value is a function of
    the values it is said to depend on, and a driver is a value the builder gave. */
module ParameterValues {
  import opened Quantities
  import opened Definition
  import opened Reals
  import opened Planforms
  import opened Wings
  import opened SolvableWings
  import opened Keys
  import opened Parameters

  /** The value a solved wing has under a key. */
  function ValueOf(w: Wing, key: ParameterKey): Quantity {
    match key
    case ParamSpanProjected => w.projected.span
    case ParamSpanPanel => w.panel.span
    case ParamAreaReference => w.projected.area
    case ParamAreaPanel => w.panel.area
    case ParamAreaExposed => w.exposedArea
    case ParamSemiSpanProjected => w.projected.half
    case ParamSemiSpanPanel => w.panel.half
    case ParamAspectRatio => Ratio(w.planform.aspectRatio)
    case ParamAspectRatioProjected => Ratio(w.projectedAspectRatio)
    case ParamTaperRatio => Ratio(w.planform.taperRatio)
    case ParamChordRoot => w.planform.rootChord
    case ParamChordTip => w.planform.tipChord
    case ParamChordMeanGeo => w.planform.meanChord
    case ParamChordMAC => w.planform.mac
    case ParamStationMAC => w.projected.yMac
    case ParamSweepReference => w.definition.sweep
    case ParamDihedral => w.definition.dihedral
    case ParamTwist => w.definition.twist
    case ParamIncidence => w.definition.incidence
    case ParamBodyWidth => w.definition.bodyWidth
    case _ => UNSET
  }

  /** The leading-edge stations belong to the outline, which is not part of this
      model. */
  predicate IsValued(key: ParameterKey) {
    key !in {ParamSweepLeadingEdge, ParamTipLEOffset, ParamTipRise, ParamStationMACLeading}
  }

  /** The relations a solved wing's values stand in. */
  ghost predicate Holds(p: Platform, w: Wing) {
    var c := p.cos(w.definition.dihedral.si);
    && IsTrapezoid(w.planform) && c > 0.0
    && IsPlane(w.projected, w.planform.rootChord.si, w.planform.taperRatio)
    && IsPlane(w.panel, w.planform.rootChord.si, w.planform.taperRatio)
    && Foreshortened(w.projected.span.si, w.panel.span.si, c)
    && Foreshortened(w.projected.area.si, w.panel.area.si, c)
    && (var given := if DriversInPanelPlane(w.definition) then w.panel else w.projected;
        given.span == w.planform.span && given.area == w.planform.area)
    && AspectRelation(w.projectedAspectRatio, w.projected.span.si, w.projected.area.si)
    && (w.definition.bodyWidth.Supplied() ==> w.exposedArea == Exposed(w))
  }

  /** What is exposed is the two panels outboard of the body. */
  function OutboardPanels(b: real, d: real, c: real, t: real): Quantity {
    if b == 0.0 then UNSET else Quantity((b - d) * (SideChord(c, t, d, b) + t * c) / 2.0, DimArea)
  }

  function Exposed(w: Wing): Quantity {
    OutboardPanels(w.projected.span.si, w.definition.bodyWidth.si, w.planform.rootChord.si, w.planform.taperRatio)
  }

  lemma ExposedIsOutboard(area: Quantity, root: Quantity, taper: real, span: Quantity, width: Quantity)
    requires ExposedArea(area, root, taper, span, width).Ok?
    requires TrapezoidArea(span.si, area.si, root.si, taper)
    ensures ExposedArea(area, root, taper, span, width).value == OutboardPanels(span.si, width.si, root.si, taper)
  {
    hide SideChord, TrapezoidArea;
    ExposedAreaIsTheOutboardPanels(area, root, taper, span, width);
  }

  lemma SolvedExposure(p: Platform, def: WingDefinition)
    requires p.Lawful() && SolveWing(p, def).Ok? && def.bodyWidth.Supplied()
    ensures SolveWing(p, def).value.exposedArea == Exposed(SolveWing(p, def).value)
  {
    hide SolvePlanform, ResolvePlanes, AspectRatio, ChoiceIssues, SideChord, ExposedArea, OutboardPanels, TrapezoidArea,
      StationRelation;
    BothPlanesAreTrapezoids(p, def);
    var w := SolveWing(p, def).value;
    ExposedIsOutboard(w.projected.area, w.planform.rootChord, w.planform.taperRatio, w.projected.span, def.bodyWidth);
  }

  lemma SolvedWingsHold(p: Platform, def: WingDefinition)
    requires p.Lawful() && SolveWing(p, def).Ok?
    ensures Holds(p, SolveWing(p, def).value)
  {
    hide SolveWing, IsTrapezoid, IsPlane, Foreshortened, AspectRelation, Exposed;
    PlanViewIsThePanelForeshortened(p, def);
    BothPlanesAreTrapezoids(p, def);
    if def.bodyWidth.Supplied() {
      SolvedExposure(p, def);
    }
  }

  // ----- Each relation, read as a function ----------------------------------

  lemma OneSpanOfAreaAndAspect(a: real, b: real, b': real, s: real)
    requires b > 0.0 && b' > 0.0 && AspectRelation(a, b, s) && AspectRelation(a, b', s)
    ensures b == b'
  {
    hide Square;
    SquareMonotone(b, b');
  }

  lemma OneSpanOfAreaAndRoot(b: real, b': real, s: real, c: real, t: real)
    requires c > 0.0 && t > 0.0 && TrapezoidArea(b, s, c, t) && TrapezoidArea(b', s, c, t)
    ensures b == b'
  {
    assert Product(c, 1.0 + t) == c * (1.0 + t);
    Scale(b, b', c * (1.0 + t));
  }

  lemma SpanOfAspectAndRoot(a: real, b: real, s: real, k: real)
    requires b > 0.0 && a * s == b * b && 2.0 * s == b * k
    ensures 2.0 * b == a * k
  {
    assert a * (2.0 * s) == a * (b * k);
    assert 2.0 * b * b == a * k * b;
    Scale(2.0 * b, a * k, b);
  }

  lemma OneSpanOfAspectAndRoot(a: real, b: real, s: real, b': real, s': real, c: real, t: real)
    requires b > 0.0 && b' > 0.0
    requires AspectRelation(a, b, s) && AspectRelation(a, b', s')
    requires TrapezoidArea(b, s, c, t) && TrapezoidArea(b', s', c, t)
    ensures b == b'
  {
    SpanOfAspectAndRoot(a, b, s, c * (1.0 + t));
    SpanOfAspectAndRoot(a, b', s', c * (1.0 + t));
  }

  lemma OneAreaOfSpanAndAspect(a: real, b: real, s: real, s': real)
    requires a > 0.0 && AspectRelation(a, b, s) && AspectRelation(a, b, s')
    ensures s == s'
  {
    hide Square;
    Scale(s, s', a);
  }

  lemma OnePanel(plan: real, panel: real, panel': real, c: real)
    requires c > 0.0 && Foreshortened(plan, panel, c) && Foreshortened(plan, panel', c)
    ensures panel == panel'
  {
    Scale(panel, panel', c);
  }

  // ----- The edges ----------------------------------------------------------

  /** The same choices: the solve mode, the plane of the drivers, and whether a
      body is stated. */
  predicate SameChoices(v: Wing, w: Wing) {
    && v.planform.mode == w.planform.mode && v.definition.dihedralMode == w.definition.dihedralMode
    && v.definition.bodyWidth.Supplied() == w.definition.bodyWidth.Supplied()
  }

  predicate SameAt(v: Wing, w: Wing, keys: seq<ParameterKey>) {
    forall i :: 0 <= i < |keys| ==> ValueOf(v, keys[i]) == ValueOf(w, keys[i])
  }

  lemma GivenValues(p: Platform, w: Wing)
    requires Holds(p, w)
    ensures var (span, area, _, _) := PlaneKeys(w.definition.dihedralMode);
            ValueOf(w, span) == w.planform.span && ValueOf(w, area) == w.planform.area
  {
    hide IsTrapezoid, IsPlane, Foreshortened, AspectRelation;
  }

  lemma SpanIsDetermined(v: Planform, w: Planform, mode: SolveMode)
    requires IsTrapezoid(v) && IsTrapezoid(w) && v.mode == w.mode == mode
    requires match mode
             case SolveFromAreaAndAspectRatio => v.area == w.area && v.aspectRatio == w.aspectRatio
             case SolveFromAreaAndRootChord => v.area == w.area && v.rootChord == w.rootChord && v.taperRatio == w.taperRatio
             case SolveFromAspectRatioAndRootChord =>
               v.aspectRatio == w.aspectRatio && v.rootChord == w.rootChord && v.taperRatio == w.taperRatio
             case _ => false
    ensures v.span == w.span
  {
    hide AspectRelation, TrapezoidArea, TipRelation, MeanRelation, MacRelation, StationRelation;
    match mode
    case SolveFromAreaAndAspectRatio => OneSpanOfAreaAndAspect(v.aspectRatio, v.span.si, w.span.si, v.area.si);
    case SolveFromAreaAndRootChord => OneSpanOfAreaAndRoot(v.span.si, w.span.si, v.area.si, v.rootChord.si, v.taperRatio);
    case SolveFromAspectRatioAndRootChord =>
      OneSpanOfAspectAndRoot(v.aspectRatio, v.span.si, v.area.si, w.span.si, w.area.si, v.rootChord.si, v.taperRatio);
  }

  lemma AreaIsDetermined(v: Planform, w: Planform)
    requires IsTrapezoid(v) && IsTrapezoid(w) && v.span == w.span
    requires v.aspectRatio == w.aspectRatio || (v.rootChord == w.rootChord && v.taperRatio == w.taperRatio)
    ensures v.area == w.area
  {
    hide AspectRelation, TipRelation, MeanRelation, MacRelation, StationRelation;
    if v.aspectRatio == w.aspectRatio {
      OneAreaOfSpanAndAspect(v.aspectRatio, v.span.si, v.area.si, w.area.si);
    }
  }

  lemma PlanformValues(w: Wing)
    ensures ValueOf(w, ParamAspectRatio) == Ratio(w.planform.aspectRatio)
    ensures ValueOf(w, ParamTaperRatio) == Ratio(w.planform.taperRatio)
    ensures ValueOf(w, ParamChordRoot) == w.planform.rootChord && ValueOf(w, ParamChordTip) == w.planform.tipChord
    ensures ValueOf(w, ParamChordMeanGeo) == w.planform.meanChord && ValueOf(w, ParamChordMAC) == w.planform.mac
  {
  }

  lemma PlanformHolds(p: Platform, w: Wing)
    requires Holds(p, w)
    ensures IsTrapezoid(w.planform)
  {
    hide IsTrapezoid, IsPlane, Foreshortened, AspectRelation;
  }

  lemma SpanFollows(v: Wing, w: Wing, area: ParameterKey)
    requires IsTrapezoid(v.planform) && IsTrapezoid(w.planform) && v.planform.mode == w.planform.mode
    requires ValueOf(v, area) == v.planform.area && ValueOf(w, area) == w.planform.area
    requires SpanInputs(w.planform.mode, area) != [] && SameAt(v, w, SpanInputs(w.planform.mode, area))
    ensures v.planform.span == w.planform.span
  {
    hide IsTrapezoid, ValueOf;
    PlanformValues(v);
    PlanformValues(w);
    var inputs := SpanInputs(w.planform.mode, area);
    assert ValueOf(v, inputs[0]) == ValueOf(w, inputs[0]) && ValueOf(v, inputs[1]) == ValueOf(w, inputs[1]);
    assert |inputs| > 2 ==> ValueOf(v, inputs[2]) == ValueOf(w, inputs[2]);
    SpanIsDetermined(v.planform, w.planform, w.planform.mode);
  }

  lemma AreaFollows(v: Wing, w: Wing, span: ParameterKey)
    requires IsTrapezoid(v.planform) && IsTrapezoid(w.planform) && v.planform.mode == w.planform.mode
    requires ValueOf(v, span) == v.planform.span && ValueOf(w, span) == w.planform.span
    requires AreaInputs(w.planform.mode, span) != [] && SameAt(v, w, AreaInputs(w.planform.mode, span))
    ensures v.planform.area == w.planform.area
  {
    hide IsTrapezoid, ValueOf;
    PlanformValues(v);
    PlanformValues(w);
    var inputs := AreaInputs(w.planform.mode, span);
    assert ValueOf(v, inputs[0]) == ValueOf(w, inputs[0]) && ValueOf(v, inputs[1]) == ValueOf(w, inputs[1]);
    assert |inputs| > 2 ==> ValueOf(v, inputs[2]) == ValueOf(w, inputs[2]);
    AreaIsDetermined(v.planform, w.planform);
  }

  /** Two planforms of one span and area, and of one taper ratio or root chord with
      it, have the same chords. */
  lemma ChordsFollow(v: Planform, w: Planform)
    requires IsTrapezoid(v) && IsTrapezoid(w)
    ensures v.span == w.span && v.area == w.area ==> v.aspectRatio == w.aspectRatio && v.meanChord == w.meanChord
    ensures v.span == w.span && v.area == w.area && v.taperRatio == w.taperRatio ==> v.rootChord == w.rootChord
    ensures v.rootChord == w.rootChord && v.taperRatio == w.taperRatio ==> v.tipChord == w.tipChord && v.mac == w.mac
  {
    hide AspectRelation, TrapezoidArea, MeanRelation, MacRelation, TipRelation, StationRelation;
    if v.span == w.span && v.area == w.area {
      OneAspect(v.aspectRatio, w.aspectRatio, v.span.si, v.area.si);
      OneMean(v.meanChord.si, w.meanChord.si, v.span.si, v.area.si);
      if v.taperRatio == w.taperRatio {
        OneChord(v.span.si, v.area.si, v.rootChord.si, w.rootChord.si, v.taperRatio);
      }
    }
    if v.rootChord == w.rootChord && v.taperRatio == w.taperRatio {
      OneMac(v.mac.si, w.mac.si, v.rootChord.si, v.taperRatio);
      OneTip(v.tipChord.si, w.tipChord.si, v.rootChord.si, v.taperRatio);
    }
  }

  /** The keys of the plane the drivers are in. */
  function SpanKey(w: Wing): ParameterKey {
    PlaneKeys(w.definition.dihedralMode).0
  }

  function AreaKey(w: Wing): ParameterKey {
    PlaneKeys(w.definition.dihedralMode).1
  }

  lemma SizesAreDetermined(p: Platform, v: Wing, w: Wing, q: Parameter)
    requires Holds(p, v) && Holds(p, w) && SameChoices(v, w) && q.role == RoleDerived && SameAt(v, w, q.dependsOn)
    requires q in SizeParameters(w.planform.mode, SpanKey(w), AreaKey(w))
    ensures ValueOf(v, q.key) == ValueOf(w, q.key)
  {
    hide IsTrapezoid, ValueOf, Holds, SpanInputs, AreaInputs, SameAt, SizeDriverKeys;
    GivenValues(p, v);
    GivenValues(p, w);
    PlanformHolds(p, v);
    PlanformHolds(p, w);
    PlanformValues(v);
    PlanformValues(w);
    ChordsFollow(v.planform, w.planform);
    DerivedSizesHaveInputs(w.planform.mode, SpanKey(w), AreaKey(w), q);
    if q.key == SpanKey(w) {
      SpanFollows(v, w, AreaKey(w));
    } else if q.key == AreaKey(w) {
      AreaFollows(v, w, SpanKey(w));
    } else if q.key == ParamAspectRatio {
      TwoValues(v, w, q.dependsOn);
    } else {
      ThreeValues(v, w, q.dependsOn);
    }
  }

  lemma TwoValues(v: Wing, w: Wing, keys: seq<ParameterKey>)
    requires SameAt(v, w, keys) && |keys| >= 2
    ensures ValueOf(v, keys[0]) == ValueOf(w, keys[0]) && ValueOf(v, keys[1]) == ValueOf(w, keys[1])
  {
  }

  lemma ThreeValues(v: Wing, w: Wing, keys: seq<ParameterKey>)
    requires SameAt(v, w, keys) && |keys| >= 3
    ensures ValueOf(v, keys[0]) == ValueOf(w, keys[0]) && ValueOf(v, keys[1]) == ValueOf(w, keys[1])
    ensures ValueOf(v, keys[2]) == ValueOf(w, keys[2])
  {
  }

  lemma DerivedSizesHaveInputs(mode: SolveMode, span: ParameterKey, area: ParameterKey, q: Parameter)
    requires q in SizeParameters(mode, span, area) && q.role == RoleDerived
    requires span in {ParamSpanProjected, ParamSpanPanel} && area in {ParamAreaReference, ParamAreaPanel}
    ensures q.key in {span, area, ParamAspectRatio, ParamChordRoot}
    ensures q.key == span ==> SpanInputs(mode, area) != [] && q.dependsOn == SpanInputs(mode, area)
    ensures q.key == area ==> AreaInputs(mode, span) != [] && q.dependsOn == AreaInputs(mode, span)
    ensures q.key == ParamAspectRatio ==> q.dependsOn == [span, area]
    ensures q.key == ParamChordRoot ==> q.dependsOn == [area, span, ParamTaperRatio]
  {
  }

  lemma ChordsAreDetermined(p: Platform, v: Wing, w: Wing, q: Parameter)
    requires Holds(p, v) && Holds(p, w) && SameChoices(v, w) && SameAt(v, w, q.dependsOn)
    requires q in ChordParameters(SpanKey(w), AreaKey(w))
    ensures ValueOf(v, q.key) == ValueOf(w, q.key)
  {
    hide IsTrapezoid, ValueOf, Holds, SameAt;
    GivenValues(p, v);
    GivenValues(p, w);
    PlanformHolds(p, v);
    PlanformHolds(p, w);
    PlanformValues(v);
    PlanformValues(w);
    ChordsFollow(v.planform, w.planform);
    TwoValues(v, w, q.dependsOn);
  }

  /** The relations between the two planes and within each. */
  lemma PlanesHold(p: Platform, w: Wing)
    requires Holds(p, w)
    ensures p.cos(w.definition.dihedral.si) > 0.0 && w.planform.taperRatio > 0.0
    ensures Foreshortened(w.projected.span.si, w.panel.span.si, p.cos(w.definition.dihedral.si))
    ensures Foreshortened(w.projected.area.si, w.panel.area.si, p.cos(w.definition.dihedral.si))
    ensures w.projected.span.Positive(DimLength) && w.panel.span.Positive(DimLength)
    ensures w.projected.area.Positive(DimArea) && w.panel.area.Positive(DimArea)
    ensures w.projected.yMac.dim == DimLength
    ensures StationRelation(w.projected.yMac.si, w.projected.span.si, w.planform.taperRatio)
    ensures w.projected.half.dim == w.panel.half.dim == DimLength
    ensures 2.0 * w.projected.half.si == w.projected.span.si && 2.0 * w.panel.half.si == w.panel.span.si
    ensures AspectRelation(w.projectedAspectRatio, w.projected.span.si, w.projected.area.si)
  {
    hide AspectRelation, TrapezoidArea, MeanRelation, MacRelation, TipRelation, StationRelation, Foreshortened;
  }

  lemma OtherPlaneIsDetermined(p: Platform, v: Wing, w: Wing, q: Parameter)
    requires Holds(p, v) && Holds(p, w) && SameChoices(v, w) && SameAt(v, w, q.dependsOn)
    requires q in OtherPlaneParameters(w.definition.dihedralMode)
    ensures ValueOf(v, q.key) == ValueOf(w, q.key)
  {
    hide Holds, SameAt, Foreshortened, AspectRelation, StationRelation;
    PlanesHold(p, v);
    PlanesHold(p, w);
    if |q.dependsOn| > 1 {
      TwoValues(v, w, q.dependsOn);
    } else {
      OneValue(v, w, q.dependsOn);
    }
    var c := p.cos(w.definition.dihedral.si);
    match q.key
    case ParamSpanPanel => OnePanel(w.projected.span.si, v.panel.span.si, w.panel.span.si, c);
    case ParamAreaPanel => OnePanel(w.projected.area.si, v.panel.area.si, w.panel.area.si, c);
    case ParamSpanProjected => OnePlan(v.projected.span.si, w.projected.span.si, w.panel.span.si, c);
    case ParamAreaReference => OnePlan(v.projected.area.si, w.projected.area.si, w.panel.area.si, c);
    case ParamStationMAC =>
      OneStation(v.projected.yMac.si, w.projected.yMac.si, w.projected.span.si, w.planform.taperRatio);
    case ParamAspectRatioProjected =>
      OneAspect(v.projectedAspectRatio, w.projectedAspectRatio, w.projected.span.si, w.projected.area.si);
    case _ =>
  }

  lemma OneValue(v: Wing, w: Wing, keys: seq<ParameterKey>)
    requires SameAt(v, w, keys) && |keys| >= 1
    ensures ValueOf(v, keys[0]) == ValueOf(w, keys[0])
  {
  }

  lemma OnePlan(plan: real, plan': real, panel: real, c: real)
    requires Foreshortened(plan, panel, c) && Foreshortened(plan', panel, c)
    ensures plan == plan'
  {
  }

  lemma BodyIsDetermined(p: Platform, v: Wing, w: Wing, q: Parameter)
    requires Holds(p, v) && Holds(p, w) && SameChoices(v, w) && SameAt(v, w, q.dependsOn)
    requires q in BodyParameters(w.definition.bodyWidth) && q.role == RoleDerived
    ensures ValueOf(v, q.key) == ValueOf(w, q.key)
  {
    hide SameAt, IsTrapezoid, IsPlane, Foreshortened, AspectRelation, OutboardPanels;
    ThreeValues(v, w, q.dependsOn);
    ThreeValues(v, w, q.dependsOn[2..]) by {
      SameAtTheRest(v, w, q.dependsOn);
    }
  }

  lemma SameAtTheRest(v: Wing, w: Wing, keys: seq<ParameterKey>)
    requires SameAt(v, w, keys) && |keys| >= 2
    ensures SameAt(v, w, keys[2..])
  {
  }

  /** A derived value is a function of the values its parameter depends on: two
      solved wings of the same choices that agree on those agree on it, in every
      solve mode and dihedral mode. */
  lemma DependenciesDetermineTheValue(p: Platform, v: Wing, w: Wing, q: Parameter)
    requires Holds(p, v) && Holds(p, w) && SameChoices(v, w)
    requires q in WingParameters(w) && q.role == RoleDerived && IsValued(q.key)
    requires SameAt(v, w, q.dependsOn)
    ensures ValueOf(v, q.key) == ValueOf(w, q.key)
  {
    hide Holds, SameAt, ValueOf, SizeParameters, ChordParameters, OtherPlaneParameters, BodyParameters;
    if q in SizeParameters(w.planform.mode, SpanKey(w), AreaKey(w)) {
      SizesAreDetermined(p, v, w, q);
    } else if q in ChordParameters(SpanKey(w), AreaKey(w)) {
      ChordsAreDetermined(p, v, w, q);
    } else if q in OtherPlaneParameters(w.definition.dihedralMode) {
      OtherPlaneIsDetermined(p, v, w, q);
    } else {
      BodyIsDetermined(p, v, w, q);
    }
  }

  // ----- The drivers --------------------------------------------------------

  /** The definition states the value itself. */
  predicate IsStated(def: WingDefinition, key: ParameterKey) {
    || key in {ParamTaperRatio, ParamSweepReference, ParamDihedral, ParamTwist, ParamIncidence}
    || (key == ParamBodyWidth && def.bodyWidth.Supplied())
    || key in DriverKeys(def)
  }

  /** In a solved wing the driver parameters are exactly the values its definition
      states. */
  lemma DriversAreWhatIsStated(p: Platform, def: WingDefinition, q: Parameter)
    requires p.Lawful() && SolveWing(p, def).Ok? && q in WingParameters(SolveWing(p, def).value)
    ensures q.role == RoleDriver <==> IsStated(def, q.key)
  {
    hide SolveWing, IsStated, SizeParameters, ChordParameters, OtherPlaneParameters, AngleParameters, BodyParameters,
      IsTrapezoid, Foreshortened, AspectRelation;
    var w := SolveWing(p, def).value;
    PlanViewIsThePanelForeshortened(p, def);
    ModeIsOfTheDrivers(p, def.drivers);
    if q in SizeParameters(w.planform.mode, SpanKey(w), AreaKey(w)) {
      SizesAreStated(def, q);
    } else {
      OthersAreStated(def, SpanKey(w), AreaKey(w), q);
    }
  }

  lemma SizesAreStated(def: WingDefinition, q: Parameter)
    requires SuppliedDrivers(def.drivers) == 2
    requires q in SizeParameters(ModeOfPair(def.drivers), PlaneKeys(def.dihedralMode).0, PlaneKeys(def.dihedralMode).1)
    ensures q.role == RoleDriver <==> IsStated(def, q.key)
  {
    hide SpanInputs, AreaInputs, SizeDriverKeys, ModeOfPair, HoldsDriver, SuppliedDrivers, DriverKeys;
    DriverKeysAreTheHeldOnes(def, q.key);
    SizeDriversAreHeld(def, q.key);
  }

  lemma SizeDriversAreHeld(def: WingDefinition, key: ParameterKey)
    requires SuppliedDrivers(def.drivers) == 2
    ensures var (span, area, _, _) := PlaneKeys(def.dihedralMode);
            var drivers := SizeDriverKeys(ModeOfPair(def.drivers), span, area);
            key in {span, area, ParamAspectRatio, ParamChordRoot} ==>
              (key == drivers.0 || key == drivers.1 <==> HoldsDriver(def.drivers, key))
  {
  }

  lemma OthersAreStated(def: WingDefinition, span: ParameterKey, area: ParameterKey, q: Parameter)
    requires q in ChordParameters(span, area) + OtherPlaneParameters(def.dihedralMode) + AngleParameters()
                  + BodyParameters(def.bodyWidth)
    ensures q.role == RoleDriver <==> IsStated(def, q.key)
  {
    hide IsStated, ChordParameters, OtherPlaneParameters, AngleParameters, BodyParameters;
    if q in ChordParameters(span, area) {
      ChordsAreDerived(def, span, area, q);
    } else if q in OtherPlaneParameters(def.dihedralMode) {
      OtherPlaneIsDerived(def, q);
    } else {
      AnglesAndBodyAreStated(def, q);
    }
  }

  lemma ChordsAreDerived(def: WingDefinition, span: ParameterKey, area: ParameterKey, q: Parameter)
    requires q in ChordParameters(span, area)
    ensures q.role == RoleDriver <==> IsStated(def, q.key)
  {
    hide DriverKeys, HoldsDriver;
    DriverKeysAreTheHeldOnes(def, q.key);
    OtherSizesAreNotHeld(def, q.key);
  }

  lemma OtherPlaneIsDerived(def: WingDefinition, q: Parameter)
    requires q in OtherPlaneParameters(def.dihedralMode)
    ensures q.role == RoleDriver <==> IsStated(def, q.key)
  {
    hide DriverKeys, HoldsDriver;
    DriverKeysAreTheHeldOnes(def, q.key);
    OtherSizesAreNotHeld(def, q.key);
  }

  lemma AnglesAndBodyAreStated(def: WingDefinition, q: Parameter)
    requires q in AngleParameters() + BodyParameters(def.bodyWidth)
    ensures q.role == RoleDriver <==> IsStated(def, q.key)
  {
    hide DriverKeys, HoldsDriver;
    DriverKeysAreTheHeldOnes(def, q.key);
    OtherSizesAreNotHeld(def, q.key);
  }

  lemma OtherSizesAreNotHeld(def: WingDefinition, key: ParameterKey)
    ensures HoldsDriver(def.drivers, key) && PlaneSizeKey(def.dihedralMode, key) == key ==>
              key in {PlaneKeys(def.dihedralMode).0, PlaneKeys(def.dihedralMode).1, ParamAspectRatio, ParamChordRoot}
  {
  }

  lemma ModeIsOfTheDrivers(p: Platform, d: PlanformDrivers)
    requires p.Lawful() && SolvePlanform(p, d).Ok?
    ensures SuppliedDrivers(d) == 2 && SolvePlanform(p, d).value.mode == ModeOfPair(d)
  {
    hide SolvePlanform, ModeOfPair;
    SolvesExactlyWellFormedDrivers(p, d);
    SolvedPlanformIsTrapezoid(p, d);
  }
}
