/** A name-keyed list has no order: rearranging the components, loads, cases,
    requirements, capability points and thrust targets of a design changes none
    of its answers.  The one exception is a bound read from the first
    requirement that states it. */
module Reordering {
  import opened Quantities
  import opened Definition
  import opened Reals
  import opened Sorting
  import opened Lists
  import opened CanonicalText
  import opened Snapshots
  import opened SnapshotReadBack
  import opened Planforms
  import opened Wings
  import MassBalance
  import Electrical
  import opened PowerEquations
  import opened Missions
  import opened Sizing
  import opened Requirements
  import opened Feasibility
  import opened StatedLimits

  /** The same entries, in any order. */
  ghost predicate Rearranged<T>(a: seq<T>, b: seq<T>) {
    multiset(a) == multiset(b)
  }

  ghost predicate SameMembers<T(!new)>(a: seq<T>, b: seq<T>) {
    forall x :: x in a <==> x in b
  }

  /** One design, its name-keyed lists rearranged. */
  ghost predicate Reordered(a: Design, b: Design) {
    && Rearranged(a.components, b.components) && Rearranged(a.auxiliary, b.auxiliary)
    && Rearranged(a.cases, b.cases) && Rearranged(a.requirements, b.requirements)
    && Rearranged(a.propulsion.capabilities, b.propulsion.capabilities)
    && Rearranged(a.propulsion.targets, b.propulsion.targets)
    && b == a.(components := b.components, auxiliary := b.auxiliary, cases := b.cases, requirements := b.requirements,
               propulsion := a.propulsion.(capabilities := b.propulsion.capabilities, targets := b.propulsion.targets))
  }

  /** No two entries of one name-keyed list share a name. */
  ghost predicate NamedApart(d: Design) {
    && Distinct(d.components, ComponentName) && Distinct(d.auxiliary, LoadName)
    && Distinct(d.cases, CaseName) && Distinct(d.requirements, RequirementName)
    && Distinct(d.propulsion.capabilities, CapabilityName) && Distinct(d.propulsion.targets, TargetName)
  }

  // ----- Lists --------------------------------------------------------------

  lemma RearrangedHaveTheSameMembers<T(!new)>(a: seq<T>, b: seq<T>)
    requires Rearranged(a, b)
    ensures SameMembers(a, b) && |a| == |b|
  {
    forall x: T
      ensures x in a <==> x in b
    {
      assert x in a <==> x in multiset(a);
      assert x in b <==> x in multiset(b);
    }
    assert |multiset(a)| == |a| && |multiset(b)| == |b|;
  }

  function SumBy<T>(items: seq<T>, value: T -> real): real {
    if items == [] then 0.0 else SumBy(items[..|items| - 1], value) + value(items[|items| - 1])
  }

  lemma {:induction false} SumWithout<T>(items: seq<T>, value: T -> real, k: nat)
    requires k < |items|
    ensures SumBy(items, value) == SumBy(Without(items, k), value) + value(items[k])
  {
    var n := |items| - 1;
    if k == n {
      assert Without(items, k) == items[..n];
    } else {
      SumWithout(items[..n], value, k);
      assert Without(items, k)[..n - 1] == Without(items[..n], k);
    }
  }

  /** A sum does not depend on the order of its terms. */
  lemma {:induction false} SumForgetsOrder<T(!new)>(a: seq<T>, b: seq<T>, value: T -> real)
    requires Rearranged(a, b)
    ensures SumBy(a, value) == SumBy(b, value)
    decreases |a|
  {
    hide SumBy;
    RearrangedHaveTheSameMembers(a, b);
    if a != [] {
      assert a[0] in b;
      var k :| 0 <= k < |b| && b[k] == a[0];
      SumWithout(a, value, 0);
      SumWithout(b, value, k);
      WithoutIsOneLess(a, 0);
      WithoutIsOneLess(b, k);
      SumForgetsOrder(Without(a, 0), Without(b, k), value);
    } else {
      assert a == b;
    }
  }

  lemma Named<T>(items: seq<T>, nameOf: T -> string, name: string)
    ensures Lookup(items, nameOf, name).Some? ==>
              Lookup(items, nameOf, name).value in items && nameOf(Lookup(items, nameOf, name).value) == name
    ensures Lookup(items, nameOf, name).None? ==> forall i :: 0 <= i < |items| ==> nameOf(items[i]) != name
  {
    LookupFindsTheIndex(items, nameOf, name);
  }

  /** With distinct names a lookup finds the same entry in any order. */
  lemma LookupForgetsOrder<T(!new)>(a: seq<T>, b: seq<T>, nameOf: T -> string, name: string)
    requires Rearranged(a, b) && Distinct(a, nameOf)
    ensures Lookup(a, nameOf, name) == Lookup(b, nameOf, name)
  {
    RearrangedHaveTheSameMembers(a, b);
    Named(a, nameOf, name);
    Named(b, nameOf, name);
    if Lookup(a, nameOf, name).Some? {
      assert Lookup(a, nameOf, name).value in b;
    }
    if Lookup(b, nameOf, name).Some? {
      assert Lookup(b, nameOf, name).value in a;
    }
  }

  // ----- The recorded form --------------------------------------------------

  /** Rearranged lists have one canonical form, and so one fingerprint. */
  lemma SnapshotForgetsOrder(p: Platform, a: Design, b: Design)
    requires Reordered(a, b) && NamedApart(a)
    ensures Snapshot(p, a) == Snapshot(p, b)
  {
    hide Counted, Render, Sorted, Distinct;
    SortingForgetsOrder(a.components, b.components, ComponentName);
    SortingForgetsOrder(a.auxiliary, b.auxiliary, LoadName);
    SortingForgetsOrder(a.cases, b.cases, CaseName);
    SortingForgetsOrder(a.requirements, b.requirements, RequirementName);
    SortingForgetsOrder(a.propulsion.capabilities, b.propulsion.capabilities, CapabilityName);
    SortingForgetsOrder(a.propulsion.targets, b.propulsion.targets, TargetName);
  }

  lemma {:induction false} AlikeRequirementsAreListedAlike(a: seq<Requirement>, b: seq<Requirement>)
    requires SameRequirements(a, b)
    ensures Listed(a, (n: nat, x: Requirement) => RequirementFields(x))
         == Listed(b, (n: nat, x: Requirement) => RequirementFields(x))
  {
    hide SortByName, JoinNames;
    if a != [] {
      var n := |a| - 1;
      AlikeRequirementsAreListedAlike(a[..n], b[..n]);
      assert SameRequirement(a[n], b[n]);
    }
  }

  /** One record, one snapshot. */
  lemma SameRecordsShareASnapshot(p: Platform, a: Design, b: Design)
    requires SameRecord(a, b) && NamedApart(a)
    ensures Snapshot(p, a) == Snapshot(p, b)
  {
    hide Render, Sorted, Distinct, SortByName, Listed, ComponentFields, CapabilityFields, TargetFields, LoadFields,
      CaseFields, RequirementFields, HeaderFields, PolarFields, EfficiencyFields, LimitsFields, BatteryFields,
      MissionFields, WingFields, TailFields, SameRequirement;
    SortingForgetsOrder(a.components, b.components, ComponentName);
    SortingForgetsOrder(a.auxiliary, b.auxiliary, LoadName);
    SortingForgetsOrder(a.cases, b.cases, CaseName);
    SortingForgetsOrder(a.propulsion.capabilities, b.propulsion.capabilities, CapabilityName);
    SortingForgetsOrder(a.propulsion.targets, b.propulsion.targets, TargetName);
    AlikeRequirementsAreListedAlike(SortByName(a.requirements, RequirementName), SortByName(b.requirements, RequirementName));
    SameHeader(a, b);
  }

  lemma SameHeader(a: Design, b: Design)
    requires a.name == b.name && a.configuration == b.configuration && a.mass == b.mass && a.massBasis == b.massBasis
    requires a.massMode == b.massMode
    ensures HeaderFields(a) == HeaderFields(b)
  {
  }

  /** With distinct names that hold no closing bracket, two designs share a snapshot
      exactly when they are one design up to the order of their lists and to the
      way their requirements' case names are joined. */
  lemma SnapshotsAgreeExactlyOnOneRecord(p: Platform, a: Design, b: Design)
    requires p.LawfulFormat() && Recordable(p, a) && Recordable(p, b)
    requires NamesStayInBrackets(a) && NamesStayInBrackets(b) && NamedApart(a)
    ensures Snapshot(p, a) == Snapshot(p, b) <==> SameRecord(a, b)
  {
    hide Snapshot, SameRecord, Recordable, NamesStayInBrackets, NamedApart;
    if Snapshot(p, a) == Snapshot(p, b) {
      SnapshotsReadBack(p, a, b);
    }
    if SameRecord(a, b) {
      SameRecordsShareASnapshot(p, a, b);
    }
  }

  // ----- Mass ---------------------------------------------------------------

  function MassTerm(what: MassBalance.Reading): MassItem -> real {
    (item: MassItem) => if MassBalance.Contributes(item) then MassBalance.Read(item, what) else 0.0
  }

  lemma {:induction false} MassSumIsASum(items: seq<MassItem>, what: MassBalance.Reading)
    ensures MassBalance.Sum(items, what) == SumBy(items, MassTerm(what))
  {
    hide MassBalance.Contributes, MassBalance.Read;
    if items != [] {
      MassSumIsASum(items[..|items| - 1], what);
    }
  }

  lemma {:induction false} NothingRecorded(items: seq<MassItem>)
    ensures MassBalance.Substitutions(items, MassBalance.OfMass) == []
       <==> forall i :: 0 <= i < |items| ==> !MassBalance.Known(items[i])
  {
    hide MassBalance.Known, MassBalance.Recorded;
    if items != [] {
      var front := items[..|items| - 1];
      NothingRecorded(front);
      assert forall i :: 0 <= i < |front| ==> front[i] == items[i];
    }
  }

  lemma SameKnowledge(a: seq<MassItem>, b: seq<MassItem>)
    requires Rearranged(a, b)
    ensures MassBalance.AllKnown(a) <==> MassBalance.AllKnown(b)
    ensures MassBalance.Substitutions(a, MassBalance.OfMass) == [] <==> MassBalance.Substitutions(b, MassBalance.OfMass) == []
  {
    hide MassBalance.Known;
    RearrangedHaveTheSameMembers(a, b);
    NothingRecorded(a);
    NothingRecorded(b);
    assert forall i :: 0 <= i < |a| ==> a[i] in b;
    assert forall i :: 0 <= i < |b| ==> b[i] in a;
  }

  lemma MassSumsAgree(a: seq<MassItem>, b: seq<MassItem>, what: MassBalance.Reading)
    requires Rearranged(a, b)
    ensures MassBalance.Sum(a, what) == MassBalance.Sum(b, what)
  {
    MassSumIsASum(a, what);
    MassSumIsASum(b, what);
    SumForgetsOrder(a, b, MassTerm(what));
  }

  /** The total, the centre of gravity, the status and the completeness do not
      depend on the order the components are listed in. */
  lemma BalanceForgetsOrder(a: seq<MassItem>, b: seq<MassItem>)
    requires Rearranged(a, b)
    ensures var x, y := MassBalance.Balance(a), MassBalance.Balance(b);
            x.total == y.total && x.cg == y.cg && x.status == y.status && x.complete == y.complete
  {
    hide MassBalance.Sum, MassBalance.Substitutions, MassBalance.AllKnown, MassBalance.CenterOfGravity;
    RearrangedHaveTheSameMembers(a, b);
    SameKnowledge(a, b);
    MassSumsAgree(a, b, MassBalance.OfMass);
    MassSumsAgree(a, b, MassBalance.OfMoment(MassBalance.AxisX));
    MassSumsAgree(a, b, MassBalance.OfMoment(MassBalance.AxisY));
    MassSumsAgree(a, b, MassBalance.OfMoment(MassBalance.AxisZ));
  }

  lemma MassReadingForgetsOrder(a: Design, b: Design)
    requires Reordered(a, b)
    ensures MassBalance.MassReading(a) == MassBalance.MassReading(b)
  {
    hide MassBalance.Balance;
    BalanceForgetsOrder(a.components, b.components);
  }

  // ----- Electrical ---------------------------------------------------------

  function DrawTerm(draw: Electrical.Draw): AuxiliaryLoad -> real {
    (load: AuxiliaryLoad) => Electrical.FigurePower(load, draw)
  }

  lemma {:induction false} DrawsAgree(loads: seq<AuxiliaryLoad>, draw: Electrical.Draw)
    ensures Electrical.TotalDraw(loads, draw) == SumBy(loads, DrawTerm(draw))
  {
    hide Electrical.FigurePower;
    if loads != [] {
      DrawsAgree(loads[..|loads| - 1], draw);
    }
  }

  lemma {:induction false} DrawIssuesAre(loads: seq<AuxiliaryLoad>, draw: Electrical.Draw, issue: IssueKind)
    ensures issue in Electrical.DrawIssues(loads, draw)
       <==> exists load :: load in loads && issue in Electrical.FigureIssues(load, draw)
  {
    hide Electrical.FigureIssues;
    if loads != [] {
      var front, last := loads[..|loads| - 1], loads[|loads| - 1];
      assert loads == front + [last];
      DrawIssuesAre(front, draw, issue);
    }
  }

  lemma IssuesAgree(a: seq<AuxiliaryLoad>, b: seq<AuxiliaryLoad>, draw: Electrical.Draw)
    requires SameMembers(a, b)
    ensures Electrical.DrawIssues(a, draw) == [] <==> Electrical.DrawIssues(b, draw) == []
    ensures StatusForIssues(Electrical.DrawIssues(a, draw)) == StatusForIssues(Electrical.DrawIssues(b, draw))
  {
    hide Electrical.DrawIssues, Electrical.FigureIssues;
    var x, y := Electrical.DrawIssues(a, draw), Electrical.DrawIssues(b, draw);
    forall issue: IssueKind
      ensures issue in x <==> issue in y
    {
      DrawIssuesAre(a, draw, issue);
      DrawIssuesAre(b, draw, issue);
    }
    if x != [] {
      assert x[0] in y;
    }
    if y != [] {
      assert y[0] in x;
    }
  }

  /** The reported evidence is that of the weakest load that contributed. */
  lemma {:induction false} EvidenceIsTheWeakest(loads: seq<AuxiliaryLoad>)
    ensures var weakest := Electrical.WeakestEvidence(loads);
            && (forall load :: load in loads && Electrical.Contribution(load).known ==>
                  Electrical.Rank(weakest) <= Electrical.Rank(load.evidence))
            && (weakest != EvidenceMeasured ==>
                  exists load :: load in loads && Electrical.Contribution(load).known && load.evidence == weakest)
  {
    hide Electrical.Contribution;
    if loads != [] {
      var front, last := loads[..|loads| - 1], loads[|loads| - 1];
      assert loads == front + [last];
      EvidenceIsTheWeakest(front);
    }
  }

  lemma EvidenceAgrees(a: seq<AuxiliaryLoad>, b: seq<AuxiliaryLoad>)
    requires SameMembers(a, b)
    ensures Electrical.WeakestEvidence(a) == Electrical.WeakestEvidence(b)
  {
    hide Electrical.Contribution, Electrical.WeakestEvidence;
    EvidenceIsTheWeakest(a);
    EvidenceIsTheWeakest(b);
  }

  lemma ContributorsAgree(a: seq<AuxiliaryLoad>, b: seq<AuxiliaryLoad>)
    requires SameMembers(a, b)
    ensures Electrical.AnyKnown(a) <==> Electrical.AnyKnown(b)
    ensures Electrical.AllKnown(a) <==> Electrical.AllKnown(b)
  {
    hide Electrical.Contribution;
    assert forall i :: 0 <= i < |a| ==> a[i] in b;
    assert forall i :: 0 <= i < |b| ==> b[i] in a;
  }

  /** Both totals, the evidence, the status and the completeness do not depend on
      the order the loads are listed in. */
  lemma BudgetForgetsOrder(a: seq<AuxiliaryLoad>, b: seq<AuxiliaryLoad>)
    requires Rearranged(a, b)
    ensures var x, y := Electrical.Budget(a), Electrical.Budget(b);
            && x.continuous == y.continuous && x.peak == y.peak && x.evidence == y.evidence
            && x.status == y.status && x.complete == y.complete
  {
    hide Electrical.TotalDraw, Electrical.DrawIssues, Electrical.WeakestEvidence, Electrical.AnyKnown,
      Electrical.AllKnown, Electrical.Contributions;
    RearrangedHaveTheSameMembers(a, b);
    forall draw: Electrical.Draw
      ensures Electrical.TotalDraw(a, draw) == Electrical.TotalDraw(b, draw)
      ensures Electrical.DrawIssues(a, draw) == [] <==> Electrical.DrawIssues(b, draw) == []
      ensures StatusForIssues(Electrical.DrawIssues(a, draw)) == StatusForIssues(Electrical.DrawIssues(b, draw))
    {
      DrawsAgree(a, draw);
      DrawsAgree(b, draw);
      SumForgetsOrder(a, b, DrawTerm(draw));
      IssuesAgree(a, b, draw);
    }
    EvidenceAgrees(a, b);
    ContributorsAgree(a, b);
  }

  // ----- Mission ------------------------------------------------------------

  lemma BalanceReadsNoList(
    p: Platform, a: Design, b: Design, s: MissionSegment, fc: FlightCase, mass: Quantity, wing: Wing, e: real)
    requires a.polar == b.polar
    ensures ResolveBalance(p, a, s, fc, mass, wing, e) == ResolveBalance(p, b, s, fc, mass, wing, e)
  {
    hide DynamicPressure, SegmentLift, SegmentLiftCoefficient, EnvelopeIssues, DragCoefficient, LiftToDrag, DragForce,
      RequiredThrust, PropulsivePower, RequiredElectricalPower;
  }

  lemma PowerForgetsOrder(
    p: Platform, a: Design, b: Design, s: MissionSegment, context: PowerContext,
    x: Electrical.ElectricalBudget, y: Electrical.ElectricalBudget)
    requires Reordered(a, b) && Distinct(a.cases, CaseName) && x.continuous == y.continuous && x.status == y.status
    ensures PowerOf(p, a, s, context, x) == PowerOf(p, b, s, context, y)
  {
    hide Lookup, Distinct, Rearranged, ResolveBalance;
    LookupForgetsOrder(a.cases, b.cases, CaseName, s.caseName);
    var flown := Lookup(a.cases, CaseName, s.caseName);
    if flown.Some? && context.wing.Ok? {
      BalanceReadsNoList(p, a, b, s, flown.value.flight, context.mass.value, context.wing.value, ChainEfficiency(a, s));
    }
  }

  /** The whole mission result, segment by segment, is the same value. */
  lemma AnalysisForgetsOrder(p: Platform, a: Design, b: Design)
    requires Reordered(a, b) && Distinct(a.cases, CaseName)
    ensures Analysis(p, a) == Analysis(p, b)
  {
    hide PowerOf, Electrical.Budget, MassBalance.MassReading, Distinct, Rearranged, TimeSegment, Budgeted, SolveWing;
    MassReadingForgetsOrder(a, b);
    BudgetForgetsOrder(a.auxiliary, b.auxiliary);
    var context, x, y := ContextOf(p, a), Electrical.Budget(a.auxiliary), Electrical.Budget(b.auxiliary);
    forall i | 0 <= i < |a.mission.segments|
      ensures EvaluateSegment(p, a, a.mission.segments[i], context, x) == EvaluateSegment(p, b, a.mission.segments[i], context, y)
    {
      PowerForgetsOrder(p, a, b, a.mission.segments[i], context, x, y);
    }
    assert Evaluated(p, a, a.mission.segments, context, x) == Evaluated(p, b, b.mission.segments, ContextOf(p, b), y);
    BudgetingReadsNoList(a, b, Evaluated(p, a, a.mission.segments, context, x));
  }

  lemma BudgetingReadsNoList(a: Design, b: Design, segments: seq<SegmentResult>)
    requires Reordered(a, b)
    ensures Budgeted(a, segments) == Budgeted(b, segments)
  {
    hide Rearranged, FinishSums, PeakOver, AllComputed, AnyComputed;
  }

  // ----- Checks -------------------------------------------------------------

  lemma ReadingForgetsOrder(
    p: Platform, a: Design, b: Design, subject: RequirementSubject, c: DesignCase, solved: Outcome<Wing>)
    requires Reordered(a, b) && Distinct(a.cases, CaseName)
    ensures ReadSubject(p, a, subject, c, solved) == ReadSubject(p, b, subject, c, solved)
  {
    hide Analysis, MassBalance.MassReading, Rearranged, Distinct;
    MassReadingForgetsOrder(a, b);
    AnalysisForgetsOrder(p, a, b);
  }

  lemma CheckForgetsOrder(p: Platform, a: Design, b: Design, check: RequirementCheck)
    requires Reordered(a, b) && Distinct(a.cases, CaseName) && check in Assessment(p, a)
    ensures check in Assessment(p, b)
  {
    hide ReadSubject, BuildCheck, SolveWing, ChecksOver, EffectiveBound, Rearranged, Distinct;
    ChecksOverAre(p, a, a.requirements, check);
    ChecksOverAre(p, b, b.requirements, check);
    var r, c, direction :| r in a.requirements && JudgedIn(a, r, c) && IsCheckOf(p, a, r, c, direction, check);
    RearrangedHaveTheSameMembers(a.requirements, b.requirements);
    RearrangedHaveTheSameMembers(a.cases, b.cases);
    ReadingForgetsOrder(p, a, b, r.subject, c, SolveWing(p, a.wing));
    assert r in b.requirements && JudgedIn(b, r, c) && IsCheckOf(p, b, r, c, direction, check);
  }

  lemma ReorderedBack(a: Design, b: Design)
    requires Reordered(a, b) && NamedApart(a)
    ensures Reordered(b, a) && NamedApart(b)
  {
    hide Distinct;
    DistinctIsAboutTheItems(a.components, b.components, ComponentName);
    DistinctIsAboutTheItems(a.auxiliary, b.auxiliary, LoadName);
    DistinctIsAboutTheItems(a.cases, b.cases, CaseName);
    DistinctIsAboutTheItems(a.requirements, b.requirements, RequirementName);
    DistinctIsAboutTheItems(a.propulsion.capabilities, b.propulsion.capabilities, CapabilityName);
    DistinctIsAboutTheItems(a.propulsion.targets, b.propulsion.targets, TargetName);
  }

  /** The same checks are reported, so the combined status is the same. */
  lemma AggregateSeesNoOrder(p: Platform, a: Design, b: Design)
    requires Reordered(a, b) && NamedApart(a)
    ensures SameMembers(Assessment(p, a), Assessment(p, b))
    ensures Aggregated(Assessment(p, a)) == Aggregated(Assessment(p, b))
  {
    hide Assessment, Aggregated, Reordered;
    ReorderedBack(a, b);
    forall check: RequirementCheck
      ensures check in Assessment(p, a) <==> check in Assessment(p, b)
    {
      if check in Assessment(p, a) {
        CheckForgetsOrder(p, a, b, check);
      }
      if check in Assessment(p, b) {
        CheckForgetsOrder(p, b, a, check);
      }
    }
    AggregateForgetsOrder(Assessment(p, a), Assessment(p, b));
  }

  // ----- Bounds -------------------------------------------------------------

  /** Two bounds that differ only in the order their parts are listed in. */
  ghost predicate SameBound(x: SizingBound, y: SizingBound) {
    && x.subject == y.subject && x.direction == y.direction && x.value == y.value
    && x.known == y.known && x.partial == y.partial
    && SameMembers(x.contributions, y.contributions) && SameMembers(x.controlling, y.controlling)
  }

  lemma BestForgetsOrder(a: seq<BoundContribution>, b: seq<BoundContribution>, direction: BoundDirection)
    requires SameMembers(a, b)
    ensures Best(a, direction) == Best(b, direction)
    ensures AllKnownIn(a) <==> AllKnownIn(b)
  {
    hide Best;
    BestIsTheExtreme(a, direction);
    BestIsTheExtreme(b, direction);
    assert forall i :: 0 <= i < |a| ==> a[i] in b;
    assert forall i :: 0 <= i < |b| ==> b[i] in a;
  }

  lemma ControllersForgetOrder(a: seq<BoundContribution>, b: seq<BoundContribution>, best: real)
    requires SameMembers(a, b)
    ensures SameMembers(Controllers(a, best), Controllers(b, best))
  {
    hide Controllers, Tied;
    forall source: string
      ensures source in Controllers(a, best) <==> source in Controllers(b, best)
    {
      ControllersAreTheTiedSources(a, best, source);
      ControllersAreTheTiedSources(b, best, source);
      assert forall i :: 0 <= i < |a| ==> a[i] in b;
      assert forall i :: 0 <= i < |b| ==> b[i] in a;
    }
  }

  /** Intersection sees its contributions as a set. */
  lemma IntersectionForgetsOrder(x: SizingBound, y: SizingBound)
    requires SameBound(x, y) && x.controlling == y.controlling == []
    ensures SameBound(Intersected(x), Intersected(y))
  {
    hide Best, Controllers, AllKnownIn;
    BestForgetsOrder(x.contributions, y.contributions, x.direction);
    if best: real :| Best(x.contributions, x.direction) == Some(best) {
      ControllersForgetOrder(x.contributions, y.contributions, best);
    }
  }

  lemma JoinsHaveTheSameMembers<T(!new)>(a: seq<T>, b: seq<T>, c: seq<T>, d: seq<T>)
    requires SameMembers(a, b) && SameMembers(c, d)
    ensures SameMembers(a + c, b + d)
  {
  }

  lemma CeilingsForgetOrder(a: Design, b: Design, scope: CaseScope)
    requires Reordered(a, b) && Distinct(a.cases, CaseName)
    ensures ScopeIssues(a, scope) == ScopeIssues(b, scope)
    ensures SameMembers(CeilingsOver(a.cases, a.requirements, scope), CeilingsOver(b.cases, b.requirements, scope))
  {
    hide CeilingsOver, Lookup, Ceils, Distinct;
    RearrangedHaveTheSameMembers(a.cases, b.cases);
    RearrangedHaveTheSameMembers(a.requirements, b.requirements);
    if scope.SingleCase? {
      LookupForgetsOrder(a.cases, b.cases, CaseName, scope.name);
    }
    forall x: StallCeiling
      ensures x in CeilingsOver(a.cases, a.requirements, scope) <==> x in CeilingsOver(b.cases, b.requirements, scope)
    {
      CeilingsOverAre(a.cases, a.requirements, scope, x);
      CeilingsOverAre(b.cases, b.requirements, scope, x);
    }
  }

  lemma AreaContributionsAgree(a: seq<StallCeiling>, b: seq<StallCeiling>, mass: Quantity, x: BoundContribution)
    requires SameMembers(a, b) && x in AreaContributions(a, mass)
    ensures x in AreaContributions(b, mass)
  {
    hide Contribute, MinimumAreaOf;
    var i :| 0 <= i < |a| && AreaContributions(a, mass)[i] == x;
    assert a[i] in b;
    var j :| 0 <= j < |b| && b[j] == a[i];
    assert AreaContributions(b, mass)[j] == x;
  }

  lemma MassContributionsAgree(a: seq<StallCeiling>, b: seq<StallCeiling>, area: Quantity, x: BoundContribution)
    requires SameMembers(a, b) && x in MassContributions(a, area)
    ensures x in MassContributions(b, area)
  {
    hide Contribute, MaximumMassOf;
    var i :| 0 <= i < |a| && MassContributions(a, area)[i] == x;
    assert a[i] in b;
    var j :| 0 <= j < |b| && b[j] == a[i];
    assert MassContributions(b, area)[j] == x;
  }

  lemma CeilingContributionsAgree(a: seq<StallCeiling>, b: seq<StallCeiling>, q: Quantity)
    requires SameMembers(a, b)
    ensures SameMembers(AreaContributions(a, q), AreaContributions(b, q))
    ensures SameMembers(MassContributions(a, q), MassContributions(b, q))
  {
    hide AreaContributions, MassContributions;
    forall x: BoundContribution
      ensures x in AreaContributions(a, q) <==> x in AreaContributions(b, q)
      ensures x in MassContributions(a, q) <==> x in MassContributions(b, q)
    {
      if x in AreaContributions(a, q) { AreaContributionsAgree(a, b, q, x); }
      if x in AreaContributions(b, q) { AreaContributionsAgree(b, a, q, x); }
      if x in MassContributions(a, q) { MassContributionsAgree(a, b, q, x); }
      if x in MassContributions(b, q) { MassContributionsAgree(b, a, q, x); }
    }
  }

  /** The area every stall ceiling in scope demands does not depend on the order
      of the cases, the requirements or the components. */
  lemma AreaLowerBoundForgetsOrder(a: Design, b: Design, scope: CaseScope)
    requires Reordered(a, b) && Distinct(a.cases, CaseName)
    ensures match AreaLowerBound(a, scope)
            case Refused(issues) => AreaLowerBound(b, scope) == Refused(issues)
            case Ok(bound) => AreaLowerBound(b, scope).Ok? && SameBound(bound, AreaLowerBound(b, scope).value)
  {
    hide CeilingsOver, ScopeIssues, Intersected, AreaContributions, MassBalance.MassReading, Distinct;
    MassReadingForgetsOrder(a, b);
    CeilingsForgetOrder(a, b, scope);
    var mass := MassBalance.MassReading(a).value;
    var x, y := CeilingsOver(a.cases, a.requirements, scope), CeilingsOver(b.cases, b.requirements, scope);
    CeilingContributionsAgree(x, y, mass);
    var open := EmptyBound(SubjectWingArea, BoundLower);
    IntersectionForgetsOrder(open.(contributions := AreaContributions(x, mass)),
                             open.(contributions := AreaContributions(y, mass)));
  }

  lemma MaximaForgetOrder(a: seq<Requirement>, b: seq<Requirement>, subject: RequirementSubject)
    requires SameMembers(a, b)
    ensures SameMembers(MaximumContributions(a, subject), MaximumContributions(b, subject))
  {
    hide MaximumContributions, Caps;
    forall c: BoundContribution
      ensures c in MaximumContributions(a, subject) <==> c in MaximumContributions(b, subject)
    {
      MaximaAre(a, subject, c);
      MaximaAre(b, subject, c);
    }
  }

  lemma {:induction false} FloorsAre(requirements: seq<Requirement>, solved: Outcome<Wing>, c: BoundContribution)
    ensures c in MassFloors(requirements, solved) <==> exists r :: r in requirements && c in MassFloor(r, solved)
  {
    hide MassFloor;
    if requirements != [] {
      var front, last := requirements[..|requirements| - 1], requirements[|requirements| - 1];
      assert requirements == front + [last];
      FloorsAre(front, solved, c);
    }
  }

  lemma FloorsForgetOrder(a: seq<Requirement>, b: seq<Requirement>, solved: Outcome<Wing>)
    requires SameMembers(a, b)
    ensures SameMembers(MassFloors(a, solved), MassFloors(b, solved))
  {
    hide MassFloors, MassFloor;
    forall c: BoundContribution
      ensures c in MassFloors(a, solved) <==> c in MassFloors(b, solved)
    {
      FloorsAre(a, solved, c);
      FloorsAre(b, solved, c);
    }
  }

  lemma MassUpperBoundForgetsOrder(p: Platform, a: Design, b: Design, scope: CaseScope)
    requires Reordered(a, b) && Distinct(a.cases, CaseName)
    ensures match MassUpperBound(p, a, scope)
            case Refused(issues) => MassUpperBound(p, b, scope) == Refused(issues)
            case Ok(bound) => MassUpperBound(p, b, scope).Ok? && SameBound(bound, MassUpperBound(p, b, scope).value)
  {
    hide CeilingsOver, ScopeIssues, Intersected, MassContributions, SolveWing, Distinct;
    CeilingsForgetOrder(a, b, scope);
    var x, y := CeilingsOver(a.cases, a.requirements, scope), CeilingsOver(b.cases, b.requirements, scope);
    match SolveWing(p, a.wing)
    case Refused(_) =>
      if x != [] { assert x[0] in y; }
      if y != [] { assert y[0] in x; }
    case Ok(w) =>
      CeilingContributionsAgree(x, y, w.projected.area);
      var open := EmptyBound(SubjectMass, BoundUpper);
      IntersectionForgetsOrder(open.(contributions := MassContributions(x, w.projected.area)),
                               open.(contributions := MassContributions(y, w.projected.area)));
  }

  /** Both ends of the feasible mass interval, and what it says of them. */
  lemma MassIntervalForgetsOrder(p: Platform, a: Design, b: Design, scope: CaseScope)
    requires Reordered(a, b) && Distinct(a.cases, CaseName)
    ensures match MassIntervalOf(p, a, scope)
            case Refused(issues) => MassIntervalOf(p, b, scope) == Refused(issues)
            case Ok(x) =>
              && MassIntervalOf(p, b, scope).Ok?
              && var y := MassIntervalOf(p, b, scope).value;
              && SameBound(x.lower, y.lower) && SameBound(x.upper, y.upper)
              && x.complete == y.complete && x.empty == y.empty
  {
    hide MassUpperBound, Intersected, MaximumContributions, MassFloors, SolveWing, Distinct, SameMembers;
    MassUpperBoundForgetsOrder(p, a, b, scope);
    RearrangedHaveTheSameMembers(a.requirements, b.requirements);
    MaximaForgetOrder(a.requirements, b.requirements, SubjectMass);
    FloorsForgetOrder(a.requirements, b.requirements, SolveWing(p, a.wing));
    NothingHasTheSameMembers<string>();
    if MassUpperBound(p, a, scope).Ok? {
      var x, y := MassUpperBound(p, a, scope).value, MassUpperBound(p, b, scope).value;
      var capsA, capsB := MaximumContributions(a.requirements, SubjectMass), MaximumContributions(b.requirements, SubjectMass);
      JoinsHaveTheSameMembers(x.contributions, y.contributions, capsA, capsB);
      IntersectionForgetsOrder(x.(contributions := x.contributions + capsA, controlling := []),
                               y.(contributions := y.contributions + capsB, controlling := []));
      var open := EmptyBound(SubjectMass, BoundLower);
      IntersectionForgetsOrder(open.(contributions := MassFloors(a.requirements, SolveWing(p, a.wing))),
                               open.(contributions := MassFloors(b.requirements, SolveWing(p, a.wing))));
    }
  }

  lemma NothingHasTheSameMembers<T(!new)>()
    ensures SameMembers<T>([], [])
  {
  }

  // ----- The bound that is read first ---------------------------------------

  ghost predicate StatedAtMostOnce(requirements: seq<Requirement>, subject: RequirementSubject, direction: BoundDirection) {
    forall i, j :: 0 <= i < j < |requirements| && States(requirements[i], subject, direction) ==>
      !States(requirements[j], subject, direction)
  }

  lemma TheOneStatementIsRead(a: seq<Requirement>, subject: RequirementSubject, direction: BoundDirection, i: nat)
    requires StatedAtMostOnce(a, subject, direction) && i < |a| && States(a[i], subject, direction)
    ensures RequiredBound(a, subject, direction) == Some((a[i].name, EffectiveBound(a[i], direction)))
  {
    hide RequiredBound, States, EffectiveBound;
    TheFirstStatementIsRead(a, subject, direction);
  }

  lemma OneStatementIsFound(a: seq<Requirement>, b: seq<Requirement>, subject: RequirementSubject, direction: BoundDirection)
    requires Rearranged(a, b) && StatedAtMostOnce(a, subject, direction)
    ensures RequiredBound(a, subject, direction) == RequiredBound(b, subject, direction)
  {
    hide RequiredBound, States, EffectiveBound, StatedAtMostOnce;
    RearrangedHaveTheSameMembers(a, b);
    TheFirstStatementIsRead(b, subject, direction);
    if RequiredBound(b, subject, direction).Some? {
      var k: nat :| FirstStatement(b, subject, direction, k)
                    && RequiredBound(b, subject, direction) == Some((b[k].name, EffectiveBound(b[k], direction)));
      assert b[k] in a;
      var i :| 0 <= i < |a| && a[i] == b[k];
      TheOneStatementIsRead(a, subject, direction, i);
    } else {
      assert forall i :: 0 <= i < |a| ==> a[i] in b;
      TheFirstStatementIsRead(a, subject, direction);
    }
  }

  lemma BroughtForward(a: seq<Requirement>, k: nat, subject: RequirementSubject, direction: BoundDirection)
    requires k < |a| && States(a[k], subject, direction)
    ensures Rearranged(a, [a[k]] + Without(a, k))
    ensures RequiredBound([a[k]] + Without(a, k), subject, direction) == Some((a[k].name, EffectiveBound(a[k], direction)))
  {
    hide States, EffectiveBound;
    WithoutIsOneLess(a, k);
    HeadIsRead([a[k]] + Without(a, k), subject, direction);
  }

  lemma TwoStatementsAreToldApart(
    a: seq<Requirement>, i: nat, j: nat, subject: RequirementSubject, direction: BoundDirection)
    requires i < |a| && j < |a| && a[i].name != a[j].name
    requires States(a[i], subject, direction) && States(a[j], subject, direction)
    ensures exists b :: Rearranged(a, b) && RequiredBound(b, subject, direction) != RequiredBound(a, subject, direction)
  {
    hide RequiredBound, States, EffectiveBound, Without, Rearranged;
    BroughtForward(a, i, subject, direction);
    BroughtForward(a, j, subject, direction);
    if RequiredBound([a[i]] + Without(a, i), subject, direction) == RequiredBound(a, subject, direction) {
      assert RequiredBound([a[j]] + Without(a, j), subject, direction) != RequiredBound(a, subject, direction);
    }
  }

  /** Among requirements with distinct names, the bound read is the same in every
      order exactly when at most one requirement states it. */
  lemma BoundIsReadInAnyOrderExactlyWhenStatedOnce(
    a: seq<Requirement>, subject: RequirementSubject, direction: BoundDirection)
    requires Distinct(a, RequirementName)
    ensures StatedAtMostOnce(a, subject, direction)
       <==> forall b :: Rearranged(a, b) ==> RequiredBound(b, subject, direction) == RequiredBound(a, subject, direction)
  {
    hide RequiredBound, States, EffectiveBound, Rearranged;
    if StatedAtMostOnce(a, subject, direction) {
      forall b | Rearranged(a, b)
        ensures RequiredBound(b, subject, direction) == RequiredBound(a, subject, direction)
      {
        OneStatementIsFound(a, b, subject, direction);
      }
    } else {
      var i, j :| 0 <= i < j < |a| && States(a[i], subject, direction) && States(a[j], subject, direction);
      assert RequirementName(a[i]) != RequirementName(a[j]);
      TwoStatementsAreToldApart(a, i, j, subject, direction);
    }
  }

  /** The area bound from above pairs a span maximum with an aspect-ratio minimum
      it reads first; stated once each, the order does not matter. */
  lemma AreaUpperBoundForgetsOrder(a: Design, b: Design)
    requires Reordered(a, b)
    requires StatedAtMostOnce(a.requirements, SubjectSpan, BoundUpper)
    requires StatedAtMostOnce(a.requirements, SubjectAspectRatio, BoundLower)
    ensures SameBound(AreaUpperBound(a), AreaUpperBound(b))
  {
    hide Intersected, MaximumContributions, RequiredBound, StatedAtMostOnce, SameMembers;
    OneStatementIsFound(a.requirements, b.requirements, SubjectSpan, BoundUpper);
    OneStatementIsFound(a.requirements, b.requirements, SubjectAspectRatio, BoundLower);
    RearrangedHaveTheSameMembers(a.requirements, b.requirements);
    MaximaForgetOrder(a.requirements, b.requirements, SubjectWingArea);
    NothingHasTheSameMembers<string>();
    var capsA, capsB :=
      MaximumContributions(a.requirements, SubjectWingArea), MaximumContributions(b.requirements, SubjectWingArea);
    PairIsItself(PairContribution(a));
    JoinsHaveTheSameMembers(capsA, capsB, PairContribution(a), PairContribution(b));
    var open := EmptyBound(SubjectWingArea, BoundUpper);
    IntersectionForgetsOrder(open.(contributions := capsA + PairContribution(a)),
                             open.(contributions := capsB + PairContribution(b)));
  }

  lemma PairIsItself<T(!new)>(a: seq<T>)
    ensures SameMembers(a, a)
  {
  }

  /** And then a conflict is reported in every order or in none. */
  lemma ConflictsForgetOrder(p: Platform, a: Design, b: Design)
    requires Reordered(a, b) && NamedApart(a)
    requires StatedAtMostOnce(a.requirements, SubjectSpan, BoundUpper)
    requires StatedAtMostOnce(a.requirements, SubjectAspectRatio, BoundLower)
    ensures Conflicts(p, a) == [] <==> Conflicts(p, b) == []
  {
    hide AreaLowerBound, AreaUpperBound, Reordered, Distinct, StatedAtMostOnce, SortByName, AreaAlternatives, SameMembers;
    AreaLowerBoundForgetsOrder(a, b, AllRequiredCases);
    AreaUpperBoundForgetsOrder(a, b);
  }

  // ----- When the pair read does not matter ---------------------------------

  /** What one span maximum with one aspect-ratio minimum lets through; a minimum
      that is not positive pairs with nothing. */
  predicate PairLets(span: Requirement, aspect: Requirement, s: real) {
    MinimumOf(aspect) > 0.0 ==> s <= Square(MaximumOf(span)) / MinimumOf(aspect)
  }

  /** Within the area maxima, every stated pair lets through the areas that the one
      read first does. */
  ghost predicate EveryPairLetsTheSame(d: Design) {
    forall i, j, s: real ::
      0 <= i < |d.requirements| && 0 <= j < |d.requirements|
      && CapsSpan(d.requirements[i]) && FloorsAspect(d.requirements[j]) && WithinAreaMaxima(d, s) ==>
        (PairLets(d.requirements[i], d.requirements[j], s) <==> BelowPair(d, s))
  }

  /** The two bounds limit alike. */
  ghost predicate SameLimit(a: Design, b: Design) {
    && AreaUpperBound(a).known == AreaUpperBound(b).known
    && (AreaUpperBound(a).known ==> AreaUpperBound(a).value == AreaUpperBound(b).value)
  }

  /** Restated in any order, the requirements limit the area alike. */
  ghost predicate OrderIsFree(a: Design) {
    forall rs :: Rearranged(a.requirements, rs) ==> SameLimit(a, Restated(a, rs))
  }

  function Restated(d: Design, requirements: seq<Requirement>): Design {
    d.(requirements := requirements)
  }

  /** Bounds that let the same areas through are the same. */
  lemma LimitsThatAllowAlikeAreTheSame(a: Design, b: Design)
    requires forall s: real :: UpperAllows(a, s) <==> UpperAllows(b, s)
    ensures SameLimit(a, b)
  {
    hide Best, Controllers, RequiredBound, MaximumContributions, SpanAndAspect, PairContribution;
    var x, y := AreaUpperBound(a), AreaUpperBound(b);
    assert UpperAllows(a, x.value.si + 1.0) <==> UpperAllows(b, x.value.si + 1.0);
    assert UpperAllows(a, y.value.si + 1.0) <==> UpperAllows(b, y.value.si + 1.0);
    assert UpperAllows(a, x.value.si) <==> UpperAllows(b, x.value.si);
    assert UpperAllows(a, y.value.si) <==> UpperAllows(b, y.value.si);
  }

  /** What a design's own order lets through, by the first span and the first
      aspect stated in it. */
  lemma FirstPairLets(d: Design, i: nat, j: nat, s: real)
    requires FirstStatement(d.requirements, SubjectSpan, BoundUpper, i)
    requires FirstStatement(d.requirements, SubjectAspectRatio, BoundLower, j)
    ensures BelowPair(d, s) <==> PairLets(d.requirements[i], d.requirements[j], s)
  {
    hide RequiredBound, States, Square;
    TheFirstStatementIsRead(d.requirements, SubjectSpan, BoundUpper);
    TheFirstStatementIsRead(d.requirements, SubjectAspectRatio, BoundLower);
  }

  lemma SomeFirst(rs: seq<Requirement>, subject: RequirementSubject, direction: BoundDirection, k: nat) returns (i: nat)
    requires k < |rs| && States(rs[k], subject, direction)
    ensures FirstStatement(rs, subject, direction, i)
  {
    hide States, RequiredBound, EffectiveBound;
    TheFirstStatementIsRead(rs, subject, direction);
    i :| FirstStatement(rs, subject, direction, i);
  }

  lemma NothingPairedIsBelow(d: Design, s: real)
    requires (forall i :: 0 <= i < |d.requirements| ==> !CapsSpan(d.requirements[i]))
             || (forall j :: 0 <= j < |d.requirements| ==> !FloorsAspect(d.requirements[j]))
    ensures BelowPair(d, s)
  {
    hide RequiredBound, States, EffectiveBound;
    TheFirstStatementIsRead(d.requirements, SubjectSpan, BoundUpper);
    TheFirstStatementIsRead(d.requirements, SubjectAspectRatio, BoundLower);
  }

  lemma MaximaSeeNoOrder(a: Design, b: Design, s: real)
    requires SameMembers(a.requirements, b.requirements)
    ensures WithinAreaMaxima(a, s) <==> WithinAreaMaxima(b, s)
  {
    hide Caps;
    assert forall i :: 0 <= i < |a.requirements| ==> a.requirements[i] in b.requirements;
    assert forall i :: 0 <= i < |b.requirements| ==> b.requirements[i] in a.requirements;
  }

  /** Whatever order a design is restated in, the pair it reads is one of its
      stated pairs. */
  lemma SomeStatedPairIsRead(a: Design, b: Design, i0: nat, j0: nat, s: real) returns (k: nat, l: nat)
    requires SameMembers(a.requirements, b.requirements)
    requires i0 < |b.requirements| && CapsSpan(b.requirements[i0])
    requires j0 < |b.requirements| && FloorsAspect(b.requirements[j0])
    ensures k < |a.requirements| && l < |a.requirements|
    ensures CapsSpan(a.requirements[k]) && FloorsAspect(a.requirements[l])
    ensures BelowPair(b, s) <==> PairLets(a.requirements[k], a.requirements[l], s)
  {
    hide BelowPair, PairLets, States;
    var i := SomeFirst(b.requirements, SubjectSpan, BoundUpper, i0);
    var j := SomeFirst(b.requirements, SubjectAspectRatio, BoundLower, j0);
    FirstPairLets(b, i, j, s);
    assert b.requirements[i] in a.requirements && b.requirements[j] in a.requirements;
    k :| 0 <= k < |a.requirements| && a.requirements[k] == b.requirements[i];
    l :| 0 <= l < |a.requirements| && a.requirements[l] == b.requirements[j];
  }

  lemma PairsAlikeInEveryOrder(a: Design, rs: seq<Requirement>, s: real)
    requires EveryPairLetsTheSame(a) && Rearranged(a.requirements, rs)
    ensures UpperAllows(a, s) <==> UpperAllows(Restated(a, rs), s)
  {
    hide UpperAllows, BelowPair, WithinAreaMaxima, PairLets, CapsSpan, FloorsAspect, Rearranged;
    var b := Restated(a, rs);
    RearrangedHaveTheSameMembers(a.requirements, rs);
    MaximaSeeNoOrder(a, b, s);
    UpperAllowsWhatItReads(a, s);
    UpperAllowsWhatItReads(b, s);
    if i0, j0 :| 0 <= i0 < |rs| && CapsSpan(rs[i0]) && 0 <= j0 < |rs| && FloorsAspect(rs[j0]) {
      var k, l := SomeStatedPairIsRead(a, b, i0, j0, s);
    } else {
      assert forall i :: 0 <= i < |a.requirements| ==> a.requirements[i] in rs;
      NothingPairedIsBelow(a, s);
      NothingPairedIsBelow(b, s);
    }
  }

  /** A span maximum and an aspect-ratio minimum can both be read first. */
  lemma BothBroughtForward(rs: seq<Requirement>, i: nat, j: nat) returns (out: seq<Requirement>)
    requires i < |rs| && j < |rs| && CapsSpan(rs[i]) && FloorsAspect(rs[j])
    ensures Rearranged(rs, out)
    ensures |out| == |rs| && |rs| >= 2
    ensures FirstStatement(out, SubjectSpan, BoundUpper, 1) && out[1] == rs[i]
    ensures FirstStatement(out, SubjectAspectRatio, BoundLower, 0) && out[0] == rs[j]
  {
    hide EffectiveBound, Rearranged;
    assert i != j;
    var once := MoveTo(rs, i, 0);
    MovedIsRearranged(rs, i, 0);
    MovedToTheFront(rs, i, j);
    var at := if j < i then j + 1 else j;
    out := MoveTo(once, at, 0);
    MovedIsRearranged(once, at, 0);
    MovedToTheFront(once, at, 0);
    RearrangedTwice(rs, once, out);
  }

  lemma RearrangedTwice<T>(a: seq<T>, b: seq<T>, c: seq<T>)
    requires Rearranged(a, b) && Rearranged(b, c)
    ensures Rearranged(a, c)
  {
  }

  lemma MovedToTheFront<T(!new)>(rs: seq<T>, i: nat, j: nat)
    requires i < |rs| && j < |rs| && i != j
    ensures |MoveTo(rs, i, 0)| == |rs| && MoveTo(rs, i, 0)[0] == rs[i]
    ensures MoveTo(rs, i, 0)[if j < i then j + 1 else j] == rs[j]
  {
    WithoutIsOneLess(rs, i);
  }

  lemma PairReadInSomeOrder(a: Design, i: nat, j: nat, s: real)
    requires OrderIsFree(a)
    requires i < |a.requirements| && j < |a.requirements|
    requires CapsSpan(a.requirements[i]) && FloorsAspect(a.requirements[j]) && WithinAreaMaxima(a, s)
    ensures PairLets(a.requirements[i], a.requirements[j], s) <==> UpperAllows(a, s)
  {
    hide AreaUpperBound, BelowPair, WithinAreaMaxima, PairLets, States, Rearranged;
    var rs := BothBroughtForward(a.requirements, i, j);
    var b := Restated(a, rs);
    RearrangedHaveTheSameMembers(a.requirements, rs);
    MaximaSeeNoOrder(a, b, s);
    UpperAllowsWhatItReads(b, s);
    FirstPairLets(b, 1, 0, s);
    assert SameLimit(a, b);
  }

  lemma PairsAgreeWhereOrderIsFree(a: Design)
    requires OrderIsFree(a)
    ensures EveryPairLetsTheSame(a)
  {
    hide OrderIsFree, PairLets, CapsSpan, FloorsAspect, WithinAreaMaxima, BelowPair, UpperAllows;
    var all := a.requirements;
    forall i, j, s: real | 0 <= i < |all| && 0 <= j < |all| && CapsSpan(all[i]) && FloorsAspect(all[j])
                           && WithinAreaMaxima(a, s)
      ensures PairLets(all[i], all[j], s) <==> BelowPair(a, s)
    {
      PairReadInSomeOrder(a, i, j, s);
      UpperAllowsWhatItReads(a, s);
    }
  }

  lemma RestatedAlike(a: Design, rs: seq<Requirement>)
    requires EveryPairLetsTheSame(a) && Rearranged(a.requirements, rs)
    ensures SameLimit(a, Restated(a, rs))
  {
    hide SameLimit, UpperAllows, EveryPairLetsTheSame, Rearranged;
    forall s: real
      ensures UpperAllows(a, s) <==> UpperAllows(Restated(a, rs), s)
    {
      PairsAlikeInEveryOrder(a, rs, s);
    }
    LimitsThatAllowAlikeAreTheSame(a, Restated(a, rs));
  }

  /** The area upper bound is the same in every order of the requirements exactly
      when, within the area maxima, every stated pair of a span maximum and an
      aspect-ratio minimum lets through what the first does. */
  lemma AreaUpperBoundIsOrderFreeExactlyWhenPairsAgree(a: Design)
    ensures OrderIsFree(a) <==> EveryPairLetsTheSame(a)
  {
    hide SameLimit, EveryPairLetsTheSame, Rearranged, Restated;
    if EveryPairLetsTheSame(a) {
      forall rs | Rearranged(a.requirements, rs)
        ensures SameLimit(a, Restated(a, rs))
      {
        RestatedAlike(a, rs);
      }
    }
    if OrderIsFree(a) {
      PairsAgreeWhereOrderIsFree(a);
    }
  }

  /** And then a conflict is reported in every order or in none. */
  lemma ConflictsAreOrderFreeWhenPairsAgree(p: Platform, a: Design, rs: seq<Requirement>)
    requires EveryPairLetsTheSame(a) && Rearranged(a.requirements, rs) && Distinct(a.cases, CaseName)
    ensures Conflicts(p, a) == [] <==> Conflicts(p, Restated(a, rs)) == []
  {
    hide AreaLowerBound, AreaUpperBound, EveryPairLetsTheSame, Distinct, SortByName, AreaAlternatives, SameMembers;
    var b := Restated(a, rs);
    RestatedIsReordered(a, rs);
    AreaLowerBoundForgetsOrder(a, b, AllRequiredCases);
    RestatedAlike(a, rs);
  }

  lemma RestatedIsReordered(a: Design, rs: seq<Requirement>)
    requires Rearranged(a.requirements, rs)
    ensures Reordered(a, Restated(a, rs))
  {
  }

  lemma NamesOfHovering(d: Design, first: Requirement, second: Requirement)
    requires first.name != second.name && IsASpan(first) && IsASpan(second)
    ensures NamedApart(WithSpans(d, first, second))
  {
    assert NO_FASTER.name[0] == 's' && LOOSE.name[0] == 'l' && TIGHT.name[0] == 't' && SLIM.name[1] == 'l'
           && NO_FASTER.name[2] == 'o' && SLIM.name[2] == 'i';
  }

  /** Without that, one recorded form can stand for two answers: two orders of the
      same requirements share a snapshot, and one is reported in conflict and the
      other is not. */
  lemma OneFormTwoAnswers(p: Platform, d: Design) returns (hidden: Design, shown: Design)
    requires p.Lawful()
    ensures Reordered(hidden, shown) && NamedApart(hidden) && Snapshot(p, hidden) == Snapshot(p, shown)
    ensures AreaUpperBound(shown).value.si < AreaUpperBound(hidden).value.si
    ensures Conflicts(p, hidden) == [] && Conflicts(p, shown) != []
  {
    hide AreaUpperBound, AreaFloor, Conflicts, Snapshot, Distinct, Reordered, WithSpans;
    hidden, shown := WithSpans(d, LOOSE, TIGHT), WithSpans(d, TIGHT, LOOSE);
    AnUnreadSpanHidesAConflict(p, d);
    LooseIsNotTight();
    NamesOfHovering(d, LOOSE, TIGHT);
    SpansTurnedAround(d);
    SnapshotForgetsOrder(p, hidden, shown);
  }

  lemma SpansTurnedAround(d: Design)
    ensures Reordered(WithSpans(d, LOOSE, TIGHT), WithSpans(d, TIGHT, LOOSE))
  {
    hide Rearranged, MoveTo;
    var a := WithSpans(d, LOOSE, TIGHT);
    MovedIsRearranged(a.requirements, 1, 2);
    MiddleTurnedAround(NO_FASTER, LOOSE, TIGHT, SLIM);
    AsItIs(a.components);
    AsItIs(a.auxiliary);
    AsItIs(a.cases);
    AsItIs(a.propulsion.capabilities);
    AsItIs(a.propulsion.targets);
  }

  lemma AsItIs<T>(a: seq<T>)
    ensures Rearranged(a, a)
  {
  }

  lemma MovedIsRearranged<T(!new)>(a: seq<T>, from: nat, to: nat)
    requires from < |a| && to < |a|
    ensures Rearranged(a, MoveTo(a, from, to))
  {
    MoveIsAPermutationUndoneByMovingBack(a, from, to);
  }

  lemma MiddleTurnedAround<T>(w: T, x: T, y: T, z: T)
    ensures MoveTo([w, x, y, z], 1, 2) == [w, y, x, z]
  {
    var rest := Without([w, x, y, z], 1);
    assert rest[0] == w && rest[1] == y && rest[2] == z;
  }

  lemma LooseIsNotTight()
    ensures LOOSE.name != TIGHT.name
  {
    assert LOOSE.name[0] == 'l' && TIGHT.name[0] == 't';
  }
}
