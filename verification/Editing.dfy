/** What every edit keeps, and what sizing at the stall limit achieves. */
module Editing {
  import opened Quantities
  import opened Definition
  import opened Planforms
  import opened Wings
  import opened MassBalance
  import opened Lift
  import opened Sizing
  import opened Feasibility
  import opened Requirements
  import opened Keys
  import opened Lists
  import opened Commands
  import opened Sorting
  import opened Reals

  // ----- Drivers ------------------------------------------------------------

  /** The value a driver set holds under a size key; unset when it does not. */
  function SizeValue(drivers: PlanformDrivers, key: ParameterKey): Quantity {
    match key
    case ParamSpanProjected | ParamSpanPanel => drivers.span
    case ParamAreaReference | ParamAreaPanel => drivers.area
    case ParamAspectRatio => Ratio(drivers.aspectRatio)
    case ParamChordRoot => drivers.rootChord
    case _ => UNSET
  }

  predicate IsCanonical(key: ParameterKey) {
    CanonicalSizeKey(key) == Some(key)
  }

  lemma HeldMeansValued(drivers: PlanformDrivers, key: ParameterKey)
    ensures HoldsDriver(drivers, key) <==> SizeValue(drivers, key) != UNSET
  {
  }

  /** Writing one driver sets its value and no other's. */
  lemma WritingOneDriver(drivers: PlanformDrivers, key: ParameterKey, value: Quantity, other: ParameterKey)
    requires CanonicalSizeKey(key).Some? && (CanonicalSizeKey(key) == Some(ParamAspectRatio) ==> value.dim == Dimensionless)
    ensures var out := WithSizeDriver(drivers, key, value);
            && SizeValue(out, other)
               == (if CanonicalSizeKey(other) == CanonicalSizeKey(key) then value else SizeValue(drivers, other))
            && out.taperRatio == drivers.taperRatio && out.shape == drivers.shape
  {
  }

  /** A path is supported exactly with two drivers and a usable taper ratio. */
  lemma SupportedExactlyWithTwoDrivers(p: Platform, drivers: PlanformDrivers)
    ensures SolvePath(p, drivers).Ok? <==> ResolveTaper(drivers).Ok? && SuppliedDrivers(drivers) == 2
  {
  }

  lemma TrialKeepsTheCount(drivers: PlanformDrivers, release: ParameterKey, promote: ParameterKey)
    requires HoldsDriver(drivers, release) && IsCanonical(promote) && !HoldsDriver(drivers, promote)
    ensures SuppliedDrivers(Trial(drivers, release, promote)) == SuppliedDrivers(drivers)
    ensures ResolveTaper(Trial(drivers, release, promote)) == ResolveTaper(drivers)
  {
  }

  lemma {:induction false} EverySwapOrNone(
    p: Platform, drivers: PlanformDrivers, promote: ParameterKey, held: seq<ParameterKey>, supported: bool)
    requires forall i :: 0 <= i < |held| ==> (SolvePath(p, Trial(drivers, held[i], promote)).Ok? <==> supported)
    ensures SwapsAmong(p, drivers, promote, held) == if supported then held else []
  {
    hide SolvePath, Trial;
    if held != [] {
      var front := held[..|held| - 1];
      assert forall i :: 0 <= i < |front| ==> front[i] == held[i];
      EverySwapOrNone(p, drivers, promote, front, supported);
      assert held == front + [held[|held| - 1]];
    }
  }

  /** A size value can be promoted exactly when it is derived, two drivers are
      held and the taper ratio is usable; then either driver may be released. */
  lemma SwapsAreTheHeldPair(p: Platform, d: WingDefinition, promote: ParameterKey)
    ensures ValidSwaps(p, d, promote).Ok?
       <==> && CanonicalSizeKey(promote).Some? && !HoldsDriver(d.drivers, promote)
            && SuppliedDrivers(d.drivers) == 2 && ResolveTaper(d.drivers).Ok?
    ensures ValidSwaps(p, d, promote).Ok? ==> ValidSwaps(p, d, promote).value == DriverKeys(d)
  {
    hide SolvePath, DriverKeys, SuppliedDrivers;
    var held := DriverKeys(d);
    DriverKeysAreTheHeldOnes(d, promote);
    if CanonicalSizeKey(promote).Some? && !HoldsDriver(d.drivers, promote) {
      var canonical := CanonicalSizeKey(promote).value;
      forall i | 0 <= i < |held|
        ensures SolvePath(p, Trial(d.drivers, held[i], canonical)).Ok?
           <==> ResolveTaper(d.drivers).Ok? && SuppliedDrivers(d.drivers) == 2
      {
        DriverKeysAreTheHeldOnes(d, held[i]);
        TrialKeepsTheCount(d.drivers, held[i], canonical);
        SupportedExactlyWithTwoDrivers(p, Trial(d.drivers, held[i], canonical));
      }
      EverySwapOrNone(p, d.drivers, canonical, held, ResolveTaper(d.drivers).Ok? && SuppliedDrivers(d.drivers) == 2);
    }
  }

  /** A promotion swaps exactly one driver and lands on a supported path: the
      promoted key takes the given value, the released one is gone, the other
      driver keeps its value, and two are held as before. */
  lemma PromotionSwapsExactlyOne(
    p: Platform, d: WingDefinition, promote: ParameterKey, release: ParameterKey, value: Quantity)
    requires ApplyPromoteDriver(p, d, promote, release, value).Ok?
    ensures var out := ApplyPromoteDriver(p, d, promote, release, value).value;
            && !HoldsDriver(d.drivers, promote) && HoldsDriver(d.drivers, release)
            && SizeValue(out, promote) == value && HoldsDriver(out, promote)
            && !HoldsDriver(out, release)
            && (forall key :: CanonicalSizeKey(key) != CanonicalSizeKey(promote)
                              && CanonicalSizeKey(key) != CanonicalSizeKey(release) ==>
                                SizeValue(out, key) == SizeValue(d.drivers, key))
            && SuppliedDrivers(out) == 2 && SolvePath(p, out).Ok?
  {
    hide SolvePath, DriverKeys, ValidSwaps, SuppliedDrivers, WithSizeDriver, SizeValue, DriversPositive, HoldsDriver;
    SwapsAreTheHeldPair(p, d, promote);
    var promoted, released := CanonicalSizeKey(promote).value, CanonicalSizeKey(release).value;
    DriverKeysAreTheHeldOnes(d, PlaneSizeKey(d.dihedralMode, released));
    SamePlaneSameDriver(d, release);
    SamePlaneSameDriver(d, promote);
    var without := WithSizeDriver(d.drivers, released, UNSET);
    var out := WithSizeDriver(without, promoted, value);
    WithSizeDriverCounts(d.drivers, released, UNSET);
    WithSizeDriverCounts(without, promoted, value);
    forall key
      ensures SizeValue(out, key) == if CanonicalSizeKey(key) == Some(promoted) then value
                                     else if CanonicalSizeKey(key) == Some(released) then UNSET
                                     else SizeValue(d.drivers, key)
    {
      WritingOneDriver(d.drivers, released, UNSET, key);
      WritingOneDriver(without, promoted, value, key);
    }
    HeldMeansValued(without, promoted);
    HeldMeansValued(d.drivers, promoted);
    WritingOneDriver(d.drivers, released, UNSET, promoted);
    HeldMeansValued(out, promote);
    HeldMeansValued(out, release);
    WritingOneDriver(d.drivers, released, UNSET, ParamSpanProjected);
    WritingOneDriver(without, promoted, value, ParamSpanProjected);
    SupportedExactlyWithTwoDrivers(p, out);
  }

  lemma SamePlaneSameDriver(d: WingDefinition, key: ParameterKey)
    requires CanonicalSizeKey(key).Some?
    ensures var canonical := CanonicalSizeKey(key).value;
            && IsCanonical(canonical)
            && CanonicalSizeKey(PlaneSizeKey(d.dihedralMode, canonical)) == Some(canonical)
            && HoldsDriver(d.drivers, key) == HoldsDriver(d.drivers, canonical)
               == HoldsDriver(d.drivers, PlaneSizeKey(d.dihedralMode, canonical))
  {
  }

  lemma WithSizeDriverCounts(drivers: PlanformDrivers, key: ParameterKey, value: Quantity)
    requires IsCanonical(key)
    requires value == UNSET || DriverValueIssues(key, value) == []
    ensures var out := WithSizeDriver(drivers, key, value);
            && SuppliedDrivers(out) == SuppliedDrivers(drivers)
                 - (if HoldsDriver(drivers, key) then 1 else 0) + (if value != UNSET then 1 else 0)
            && (DriversPositive(drivers) ==> DriversPositive(out))
  {
  }

  lemma SetDriverCounts(p: Platform, d: WingDefinition, key: ParameterKey, value: Quantity)
    requires ApplySetDriver(p, d, key, value).Ok?
    ensures var out := ApplySetDriver(p, d, key, value).value;
            && (SuppliedDrivers(d.drivers) <= 2 ==> SuppliedDrivers(out) <= 2)
            && (DriversPositive(d.drivers) ==> DriversPositive(out))
            && (value != UNSET ==> SizeValue(out, key) == value && value.Positive(SizeDriverDimension(key)))
            && (value == UNSET ==> !HoldsDriver(out, key))
  {
    hide DriverKeys, ValidSwaps, SuppliedDrivers, DriversPositive;
    DriverKeysAreTheHeldOnes(d, key);
    WithSizeDriverCounts(d.drivers, CanonicalSizeKey(key).value, value);
  }

  lemma PromotionKeepsPositive(
    p: Platform, d: WingDefinition, promote: ParameterKey, release: ParameterKey, value: Quantity)
    requires ApplyPromoteDriver(p, d, promote, release, value).Ok? && DriversPositive(d.drivers)
    ensures DriversPositive(ApplyPromoteDriver(p, d, promote, release, value).value)
  {
    hide ValidSwaps, SuppliedDrivers, DriversPositive;
    SwapsAreTheHeldPair(p, d, promote);
    var released := WithSizeDriver(d.drivers, CanonicalSizeKey(release).value, UNSET);
    WithSizeDriverCounts(d.drivers, CanonicalSizeKey(release).value, UNSET);
    WithSizeDriverCounts(released, CanonicalSizeKey(promote).value, value);
  }

  lemma {:induction false} ReleasedClearsTheRest(
    drivers: PlanformDrivers, held: seq<ParameterKey>, hold: ParameterKey, key: ParameterKey)
    requires IsCanonical(hold) && IsCanonical(key)
    requires forall i :: 0 <= i < |held| ==> CanonicalSizeKey(held[i]).Some?
    ensures var out := Released(drivers, held, hold);
            && SizeValue(out, key)
               == (if key != hold && exists i :: 0 <= i < |held| && CanonicalSizeKey(held[i]) == Some(key)
                   then UNSET else SizeValue(drivers, key))
            && out.taperRatio == drivers.taperRatio && out.shape == drivers.shape
  {
    hide WithSizeDriver, SizeValue;
    if held != [] {
      var front := held[..|held| - 1];
      assert forall i :: 0 <= i < |front| ==> front[i] == held[i];
      ReleasedClearsTheRest(drivers, front, hold, key);
      WritingOneDriver(Released(drivers, front, hold), held[|front|], UNSET, key);
      if exists i :: 0 <= i < |front| && CanonicalSizeKey(front[i]) == Some(key) {
        var i :| 0 <= i < |front| && CanonicalSizeKey(front[i]) == Some(key);
        assert CanonicalSizeKey(held[i]) == Some(key);
      }
    }
  }

  /** The drivers sizing leaves: the held one as it was, and the area. */
  function OnlyHeldAndArea(drivers: PlanformDrivers, hold: ParameterKey, area: Quantity): PlanformDrivers {
    PlanformDrivers(
      if hold == ParamSpanProjected then drivers.span else UNSET,
      area,
      if hold == ParamChordRoot then drivers.rootChord else UNSET,
      if hold == ParamAspectRatio then drivers.aspectRatio else 0.0,
      drivers.taperRatio,
      drivers.shape)
  }

  lemma ReleasingLeavesTheHeldDriver(d: WingDefinition, hold: ParameterKey, area: Quantity)
    requires IsCanonical(hold) && hold != ParamAreaReference && HoldsDriver(d.drivers, hold)
    ensures WithSizeDriver(Released(d.drivers, DriverKeys(d), hold), ParamAreaReference, area)
         == OnlyHeldAndArea(d.drivers, hold, area)
  {
    hide DriverKeys, Released;
    var held := DriverKeys(d);
    forall i | 0 <= i < |held|
      ensures CanonicalSizeKey(held[i]).Some?
    {
      DriverKeysAreTheHeldOnes(d, held[i]);
    }
    ReleasedAt(d, hold, ParamSpanProjected);
    ReleasedAt(d, hold, ParamAspectRatio);
    ReleasedAt(d, hold, ParamChordRoot);
  }

  lemma ReleasedAt(d: WingDefinition, hold: ParameterKey, key: ParameterKey)
    requires IsCanonical(hold) && IsCanonical(key)
    ensures var out := Released(d.drivers, DriverKeys(d), hold);
            && SizeValue(out, key) == (if key == hold then SizeValue(d.drivers, key) else UNSET)
            && out.taperRatio == d.drivers.taperRatio && out.shape == d.drivers.shape
  {
    hide DriverKeys, Released;
    var held := DriverKeys(d);
    forall i | 0 <= i < |held|
      ensures CanonicalSizeKey(held[i]).Some?
    {
      DriverKeysAreTheHeldOnes(d, held[i]);
    }
    ReleasedClearsTheRest(d.drivers, held, hold, key);
    HeldMeansValued(d.drivers, key);
    if key != hold && HoldsDriver(d.drivers, key) {
      DriverKeysAreTheHeldOnes(d, PlaneSizeKey(d.dihedralMode, key));
      var i :| 0 <= i < |held| && held[i] == PlaneSizeKey(d.dihedralMode, key);
      assert CanonicalSizeKey(held[i]) == Some(key);
    }
  }

  lemma DriverAreaIsAnArea(p: Platform, d: WingDefinition, projected: Quantity)
    requires projected.Positive(DimArea) && AreaDriverFor(p, d, projected).Ok?
    ensures AreaDriverFor(p, d, projected).value.Positive(DimArea)
  {
  }

  /** Sizing at the stall limit ends with exactly two drivers: the held one,
      unchanged, and a positive area. */
  lemma SizingLeavesTheHeldDriverAndTheArea(p: Platform, d: Design, key: ParameterKey, scope: CaseScope)
    requires p.Lawful() && ApplySizing(p, d, key, scope).Ok?
    ensures AreaLowerBound(d, scope).Ok? && AreaLowerBound(d, scope).value.known
    ensures var out := ApplySizing(p, d, key, scope).value;
            var hold := CanonicalSizeKey(key).value;
            && CanonicalSizeKey(key).Some? && hold != ParamAreaReference && HoldsDriver(d.wing.drivers, hold)
            && AreaDriverFor(p, d.wing, AreaLowerBound(d, scope).value.value) == Ok(out.area)
            && out == OnlyHeldAndArea(d.wing.drivers, hold, out.area)
            && out.area.Positive(DimArea)
            && SuppliedDrivers(out) == 2
            && (DriversPositive(d.wing.drivers) ==> DriversPositive(out))
  {
    hide AreaLowerBound, DriverKeys, Released, AreaDriverFor, OnlyHeldAndArea, SuppliedDrivers, DriversPositive,
      HoldsDriver, WithSizeDriver, ApplySizing, MassReading, CeilingsOver, FloorOf;
    AcceptedSizing(p, d, key, scope);
    var hold := CanonicalSizeKey(key).value;
    var bound := AreaLowerBound(d, scope).value;
    KnownLowerBoundIsAnArea(p, d, scope);
    var area := AreaDriverFor(p, d.wing, bound.value).value;
    DriverAreaIsAnArea(p, d.wing, bound.value);
    ReleasingLeavesTheHeldDriver(d.wing, hold, area);
    OnlyHeldIsTwo(d.wing.drivers, hold, area);
  }

  lemma AcceptedSizing(p: Platform, d: Design, key: ParameterKey, scope: CaseScope)
    requires ApplySizing(p, d, key, scope).Ok?
    ensures AreaLowerBound(d, scope).Ok? && AreaLowerBound(d, scope).value.known
    ensures var hold := CanonicalSizeKey(key);
            var area := AreaDriverFor(p, d.wing, AreaLowerBound(d, scope).value.value);
            && hold.Some? && hold.value != ParamAreaReference && HoldsDriver(d.wing.drivers, hold.value) && area.Ok?
            && ApplySizing(p, d, key, scope).value
               == WithSizeDriver(Released(d.wing.drivers, DriverKeys(d.wing), hold.value), ParamAreaReference, area.value)
  {
    hide AreaLowerBound, DriverKeys, Released, AreaDriverFor, HoldsDriver, WithSizeDriver, CanonicalSizeKey;
  }

  lemma OnlyHeldIsTwo(drivers: PlanformDrivers, hold: ParameterKey, area: Quantity)
    requires IsCanonical(hold) && hold != ParamAreaReference && HoldsDriver(drivers, hold) && area.Positive(DimArea)
    ensures var out := OnlyHeldAndArea(drivers, hold, area);
            && out.area == area && SuppliedDrivers(out) == 2
            && (DriversPositive(drivers) ==> DriversPositive(out))
  {
  }

  lemma KnownLowerBoundIsAnArea(p: Platform, d: Design, scope: CaseScope)
    requires p.Lawful() && AreaLowerBound(d, scope).Ok? && AreaLowerBound(d, scope).value.known
    ensures AreaLowerBound(d, scope).value == FloorOf(CeilingsOver(d.cases, d.requirements, scope), MassReading(d).value)
    ensures AreaLowerBound(d, scope).value.value.Positive(DimArea)
  {
    hide CeilingsOver, MassReading;
    FloorIsWhatTheCeilingsDemand(p, CeilingsOver(d.cases, d.requirements, scope), MassReading(d).value, 1.0);
  }

  /** Whatever the edit, at most two drivers stay at most two, and drivers that
      are positive values of their dimensions stay so. */
  lemma EditsKeepTheDriversSound(p: Platform, d: Design, c: Command)
    requires p.Lawful() && Apply(p, d, c).Ok?
    ensures var before, after := d.wing.drivers, Apply(p, d, c).value.wing.drivers;
            && (SuppliedDrivers(before) <= 2 ==> SuppliedDrivers(after) <= 2)
            && (DriversPositive(before) ==> DriversPositive(after))
  {
    hide ApplyListEdit, ApplyFieldEdit, ApplySetDriver, ApplyPromoteDriver, ApplySizing, ApplyShape, SuppliedDrivers,
      DriversPositive;
    match c
    case ListCommand(e) => ListEditsKeepTheRest(d, e);
    case FieldCommand(e) => FieldEditsKeepTheLists(d, e);
    case DriverCommand(e) =>
      match e
      case SetDriver(key, value) => SetDriverCounts(p, d.wing, key, value);
      case PromoteDriver(promote, release, value) =>
        PromotionSwapsExactlyOne(p, d.wing, promote, release, value);
        if DriversPositive(d.wing.drivers) {
          PromotionKeepsPositive(p, d.wing, promote, release, value);
        }
      case SizeAtStallLimit(hold, scope) => SizingLeavesTheHeldDriverAndTheArea(p, d, hold, scope);
      case SetTaperRatio(t) => TaperIsNotADriver(d.wing.drivers, d.wing.drivers.shape, t);
      case SetPlanformShape(shape, t) =>
        ShapeIsNotADriver(d.wing, shape, t);
  }

  lemma TaperIsNotADriver(drivers: PlanformDrivers, shape: PlanformShape, taper: real)
    ensures var out := drivers.(shape := shape, taperRatio := taper);
            SuppliedDrivers(out) == SuppliedDrivers(drivers) && DriversPositive(out) == DriversPositive(drivers)
  {
  }

  lemma ShapeIsNotADriver(d: WingDefinition, shape: PlanformShape, taper: real)
    requires ApplyShape(d, shape, taper).Ok?
    ensures var out := ApplyShape(d, shape, taper).value;
            SuppliedDrivers(out) == SuppliedDrivers(d.drivers) && DriversPositive(out) == DriversPositive(d.drivers)
  {
    hide SuppliedDrivers, DriversPositive;
    TaperIsNotADriver(d.drivers, shape, taper);
  }

  lemma ListEditsKeepTheRest(d: Design, e: ListEdit)
    requires ApplyListEdit(d, e).Ok?
    ensures ListEditIssues(d, e) == [] && Relist(ListingsOf(d), e).Ok?
    ensures ApplyListEdit(d, e).value == WithListings(d, Relist(ListingsOf(d), e).value)
    ensures ListingsOf(ApplyListEdit(d, e).value) == Relist(ListingsOf(d), e).value
    ensures ApplyListEdit(d, e).value.wing == d.wing
  {
    hide Relist, ListEditIssues;
  }

  lemma FieldEditsKeepTheLists(d: Design, e: FieldEdit)
    requires ApplyFieldEdit(d, e).Ok?
    ensures ListingsOf(ApplyFieldEdit(d, e).value) == ListingsOf(d)
    ensures ApplyFieldEdit(d, e).value.wing.drivers == d.wing.drivers
  {
    hide FieldEditIssues;
  }

  // ----- Names --------------------------------------------------------------

  /** No two entries of one list share a name. */
  ghost predicate NamesDistinct(l: Listings) {
    && Distinct(l.requirements, RequirementName) && Distinct(l.cases, CaseName)
    && Distinct(l.components, ComponentName) && Distinct(l.capabilities, CapabilityName)
    && Distinct(l.targets, TargetName) && Distinct(l.auxiliary, LoadName) && Distinct(l.segments, SegmentName)
  }

  lemma DropKeepsNames<T(!new)>(items: seq<T>, nameOf: T -> string, name: string)
    requires Distinct(items, nameOf) && Drop(items, nameOf, name).Ok?
    ensures Distinct(Drop(items, nameOf, name).value, nameOf)
  {
    DropTakesExactlyOne(items, nameOf, name);
  }

  lemma MoveKeepsNames<T(!new)>(items: seq<T>, nameOf: T -> string, name: string, to: int)
    requires Distinct(items, nameOf) && Move(items, nameOf, name, to).Ok?
    ensures Distinct(Move(items, nameOf, name, to).value, nameOf)
  {
    MoveKeepsNamesDistinct(items, nameOf, IndexOf(items, nameOf, name), to);
  }

  lemma ListEditsKeepNamesDistinct(l: Listings, e: ListEdit)
    requires NamesDistinct(l) && Relist(l, e).Ok?
    ensures NamesDistinct(Relist(l, e).value)
  {
    hide Distinct, Put, Drop, Amend, Move;
    match e
    case SetRequirement(r) => PutKeepsNamesDistinct(l.requirements, RequirementName, r);
    case RemoveRequirement(name) => DropKeepsNames(l.requirements, RequirementName, name);
    case SetRequirementPriority(name, priority) =>
      AmendKeepsNamesDistinct(l.requirements, RequirementName, name, RequirementAt(priority));
    case SetCase(c) => PutKeepsNamesDistinct(l.cases, CaseName, c);
    case RemoveCase(name) => DropKeepsNames(l.cases, CaseName, name);
    case SetCasePriority(name, priority) => AmendKeepsNamesDistinct(l.cases, CaseName, name, CaseAt(priority));
    case SetCaseCLmax(name, clmax, evidence) =>
      AmendKeepsNamesDistinct(l.cases, CaseName, name, CaseWith(clmax, evidence));
    case SetComponent(item) => PutKeepsNamesDistinct(l.components, ComponentName, item);
    case PlaceComponent(name, position) =>
      AmendKeepsNamesDistinct(l.components, ComponentName, name, ComponentAt(position));
    case RemoveComponent(name) => DropKeepsNames(l.components, ComponentName, name);
    case SetCapability(c) => PutKeepsNamesDistinct(l.capabilities, CapabilityName, c);
    case RemoveCapability(name) => DropKeepsNames(l.capabilities, CapabilityName, name);
    case SetThrustTarget(t) => PutKeepsNamesDistinct(l.targets, TargetName, t);
    case RemoveThrustTarget(name) => DropKeepsNames(l.targets, TargetName, name);
    case SetAuxiliaryLoad(a) => PutKeepsNamesDistinct(l.auxiliary, LoadName, a);
    case RemoveAuxiliaryLoad(name) => DropKeepsNames(l.auxiliary, LoadName, name);
    case SetMissionSegment(s) => PutKeepsNamesDistinct(l.segments, SegmentName, s);
    case RemoveMissionSegment(name) => DropKeepsNames(l.segments, SegmentName, name);
    case MoveMissionSegment(name, index) => MoveKeepsNames(l.segments, SegmentName, name, index);
  }

  /** Every edit keeps the names of every list distinct. */
  lemma EditsKeepNamesDistinct(p: Platform, d: Design, c: Command)
    requires Apply(p, d, c).Ok? && NamesDistinct(ListingsOf(d))
    ensures NamesDistinct(ListingsOf(Apply(p, d, c).value))
  {
    hide ApplyListEdit, ApplyFieldEdit, ApplyDriverEdit, NamesDistinct;
    match c
    case ListCommand(e) =>
      ListEditsKeepTheRest(d, e);
      ListEditsKeepNamesDistinct(ListingsOf(d), e);
    case FieldCommand(e) => FieldEditsKeepTheLists(d, e);
    case DriverCommand(e) =>
  }

  // ----- References ---------------------------------------------------------

  lemma DropLeavesOtherNames<T>(items: seq<T>, nameOf: T -> string, name: string, other: string)
    requires Drop(items, nameOf, name).Ok? && other != name
    ensures Has(Drop(items, nameOf, name).value, nameOf, other) <==> Has(items, nameOf, other)
  {
    var i, r := IndexOf(items, nameOf, name), Drop(items, nameOf, name).value;
    WithoutIsOneLess(items, i);
    HasMeansNamed(items, nameOf, other);
    HasMeansNamed(r, nameOf, other);
    if k :| 0 <= k < |items| && nameOf(items[k]) == other {
      var k' := if k < i then k else k - 1;
      assert r[k'] == items[k];
    }
  }

  /** A per-case requirement that found its case still does. */
  lemma RemovingACaseStrandsNoRequirement(d: Design, name: string, i: nat, caseName: string)
    requires ApplyListEdit(d, RemoveCase(name)).Ok?
    requires i < |d.requirements| && PerCase(d.requirements[i].subject) && caseName in d.requirements[i].cases
    requires Has(d.cases, CaseName, caseName)
    ensures var out := ApplyListEdit(d, RemoveCase(name)).value;
            out.requirements == d.requirements && Has(out.cases, CaseName, caseName)
  {
    assert caseName != name;
    DropLeavesOtherNames(d.cases, CaseName, name, caseName);
  }

  /** A thrust target and a mission segment that found their capability point
      still do. */
  lemma RemovingACapabilityStrandsNothing(d: Design, name: string)
    requires ApplyListEdit(d, RemoveCapability(name)).Ok?
    ensures var out := ApplyListEdit(d, RemoveCapability(name)).value;
            && out.propulsion.targets == d.propulsion.targets && out.mission == d.mission
            && (forall i :: 0 <= i < |d.propulsion.targets|
                            && Has(d.propulsion.capabilities, CapabilityName, d.propulsion.targets[i].capability) ==>
                              Has(out.propulsion.capabilities, CapabilityName, d.propulsion.targets[i].capability))
            && (forall i :: 0 <= i < |d.mission.segments|
                            && Has(d.propulsion.capabilities, CapabilityName, d.mission.segments[i].capability) ==>
                              Has(out.propulsion.capabilities, CapabilityName, d.mission.segments[i].capability))
  {
    hide Drop, Has;
    ListEditsKeepTheRest(d, RemoveCapability(name));
    forall other | other != name
      ensures Has(Drop(d.propulsion.capabilities, CapabilityName, name).value, CapabilityName, other)
         <==> Has(d.propulsion.capabilities, CapabilityName, other)
    {
      DropLeavesOtherNames(d.propulsion.capabilities, CapabilityName, name, other);
    }
  }

  /** Removing a case looks at the requirements only. With distinct case names a
      mission segment that found its case loses it exactly when it names the
      case removed. */
  lemma RemovingACaseStrandsExactlyItsSegments(d: Design, name: string, i: nat)
    requires ApplyListEdit(d, RemoveCase(name)).Ok?
    requires Distinct(d.cases, CaseName)
    requires i < |d.mission.segments| && Has(d.cases, CaseName, d.mission.segments[i].caseName)
    ensures var out := ApplyListEdit(d, RemoveCase(name)).value;
            && out.mission == d.mission
            && (!Has(out.cases, CaseName, out.mission.segments[i].caseName) <==> d.mission.segments[i].caseName == name)
  {
    hide Drop, Has;
    ListEditsKeepTheRest(d, RemoveCase(name));
    DropTakesExactlyOne(d.cases, CaseName, name);
    if d.mission.segments[i].caseName != name {
      DropLeavesOtherNames(d.cases, CaseName, name, d.mission.segments[i].caseName);
    }
  }

  // ----- Sizing at the stall limit ------------------------------------------

  /** The design that sizing leaves. */
  function Sized(p: Platform, d: Design, key: ParameterKey, scope: CaseScope): Design
    requires ApplySizing(p, d, key, scope).Ok?
  {
    WithDrivers(d, ApplySizing(p, d, key, scope).value)
  }

  lemma SizedSolvesFromItsArea(p: Platform, wing: WingDefinition, area: Quantity)
    requires p.Lawful() && SolveWing(p, wing).Ok?
    requires wing.drivers.area == area && area.Positive(DimArea)
    ensures SolveWing(p, wing).value.planform.area == area
  {
    hide SolvePlanform, SolveSize, CompleteFrom, AspectRelation, TrapezoidArea, MeanRelation, MacRelation, TipRelation,
      StationRelation, SolveWing;
    PlanViewIsThePanelForeshortened(p, wing);
    SolvesExactlyWellFormedDrivers(p, wing.drivers);
    SolvedPlanformIsTrapezoid(p, wing.drivers);
  }

  /** Through the area driver and back through the dihedral, in every dihedral
      mode, the plan view carries the area asked for. */
  lemma AreaDriverProjectsBack(p: Platform, wing: WingDefinition, projected: Quantity)
    requires p.Lawful() && SolveWing(p, wing).Ok? && projected.Positive(DimArea)
    requires AreaDriverFor(p, wing, projected) == Ok(wing.drivers.area)
    ensures SolveWing(p, wing).value.projected.area == projected
  {
    hide SolveWing, AspectRelation, IsTrapezoid;
    PlanViewIsThePanelForeshortened(p, wing);
    DriverAreaIsAnArea(p, wing, projected);
    SizedSolvesFromItsArea(p, wing, wing.drivers.area);
    if DriversInPanelPlane(wing) && wing.dihedral.si != 0.0 {
      UnfoldedThenProjected(p, projected, wing.dihedral);
    }
  }

  lemma UnfoldedThenProjected(p: Platform, projected: Quantity, dihedral: Quantity)
    requires p.Lawful() && projected.Positive(DimArea) && Unfolded(p, projected, dihedral, DimArea).Ok?
    ensures Foreshortened(projected.si, Unfolded(p, projected, dihedral, DimArea).value.si, p.cos(dihedral.si))
  {
    DivMul(projected.si, p.cos(dihedral.si));
  }

  /** After sizing at the stall limit, if the wing solves, its plan-view area is
      exactly the scoped lower bound: the least area at which every ceiling in
      scope that could be evaluated holds. */
  lemma SizingReachesTheLeastArea(p: Platform, d: Design, key: ParameterKey, scope: CaseScope, s: real)
    requires p.Lawful() && ApplySizing(p, d, key, scope).Ok? && s > 0.0
    requires SolveWing(p, Sized(p, d, key, scope).wing).Ok?
    ensures var area := SolveWing(p, Sized(p, d, key, scope).wing).value.projected.area;
            && area == AreaLowerBound(d, scope).value.value
            && (area.si <= s
                <==> AllMet(p, CeilingsOver(d.cases, d.requirements, scope), MassReading(d).value, Quantity(s, DimArea)))
  {
    hide ApplySizing, AreaLowerBound, SolveWing, CeilingsOver, MassReading, AllMet, AreaDriverFor, FloorOf;
    SizingLeavesTheHeldDriverAndTheArea(p, d, key, scope);
    KnownLowerBoundIsAnArea(p, d, scope);
    var out := Sized(p, d, key, scope);
    SamePlane(p, d.wing, out.wing, AreaLowerBound(d, scope).value.value);
    AreaDriverProjectsBack(p, out.wing, AreaLowerBound(d, scope).value.value);
    FloorIsWhatTheCeilingsDemand(p, CeilingsOver(d.cases, d.requirements, scope), MassReading(d).value, s);
  }

  lemma SamePlane(p: Platform, before: WingDefinition, after: WingDefinition, projected: Quantity)
    requires after == before.(drivers := after.drivers)
    ensures AreaDriverFor(p, before, projected) == AreaDriverFor(p, after, projected)
  {
  }

  /** And the assessment agrees: every check of a ceiling in scope whose area
      demand could be evaluated is reported, and reported met. */
  lemma SizingMeetsEveryCheckInScope(p: Platform, d: Design, key: ParameterKey, scope: CaseScope, k: nat)
    requires p.Lawful() && ApplySizing(p, d, key, scope).Ok?
    requires SolveWing(p, Sized(p, d, key, scope).wing).Ok?
    requires k < |CeilingsOver(d.cases, d.requirements, scope)|
    requires MinimumAreaOf(CeilingsOver(d.cases, d.requirements, scope)[k], MassReading(d).value).Ok?
    ensures var out, c := Sized(p, d, key, scope), CeilingsOver(d.cases, d.requirements, scope)[k];
            exists check :: && check in Assessment(p, out)
                            && IsCheckOf(p, out, c.requirement, c.flown, BoundUpper, check)
                            && check.status == LimitMet
  {
    hide ApplySizing, AreaLowerBound, SolveWing, CeilingsOver, MassReading, AreaDriverFor, FloorOf, MeetsCeiling,
      ReadSubject, BuildCheck, MinimumAreaOf;
    var out, ceilings := Sized(p, d, key, scope), CeilingsOver(d.cases, d.requirements, scope);
    var c := ceilings[k];
    var area := SolveWing(p, out.wing).value.projected.area;
    PlanViewIsThePanelForeshortened(p, out.wing);
    SizingReachesTheLeastArea(p, d, key, scope, area.si);
    assert MeetsCeiling(p, c, MassReading(d).value, area);
    MassSurvivesSizing(d, ApplySizing(p, d, key, scope).value);
    CeilingsOverAre(d.cases, d.requirements, scope, c);
    assert JudgedIn(out, c.requirement, c.flown);
    var check := BuildCheck(c.requirement, c.flown,
                            ReadSubject(p, out, SubjectStallSpeed, c.flown, SolveWing(p, out.wing)),
                            c.Limit(), BoundUpper);
    MetCeilingIsAMetCheck(p, out, c);
    assert IsCheckOf(p, out, c.requirement, c.flown, BoundUpper, check);
    ChecksOverAre(p, out, out.requirements, check);
  }

  lemma MassSurvivesSizing(d: Design, drivers: PlanformDrivers)
    ensures MassReading(WithDrivers(d, drivers)) == MassReading(d)
  {
    hide Balance;
  }

  lemma MetCeilingIsAMetCheck(p: Platform, d: Design, c: StallCeiling)
    requires p.Lawful() && SolveWing(p, d.wing).Ok? && c.requirement.subject == SubjectStallSpeed
    requires MinimumAreaOf(c, MassReading(d).value).Ok?
    requires MeetsCeiling(p, c, MassReading(d).value, SolveWing(p, d.wing).value.projected.area)
    ensures BuildCheck(c.requirement, c.flown, ReadSubject(p, d, SubjectStallSpeed, c.flown, SolveWing(p, d.wing)),
                       c.Limit(), BoundUpper).status == LimitMet
  {
    hide SolveWing, MassReading, StallSpeed, MinimumWingArea, RelativeMargin;
    MinimumWingAreaSucceeds(c.flown.flight, MassReading(d).value, c.Limit());
    MassReadingIsComputed(d);
  }

  lemma MassReadingIsComputed(d: Design)
    requires MassReading(d).value != UNSET
    ensures MassReading(d).status == ResultComputed
  {
    hide Balance;
  }
}
