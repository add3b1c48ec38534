/** The dependency graph of a wing's named values, and the order they evaluate
    in. */
module Parameters {
  import opened Quantities
  import opened Definition
  import opened Planforms
  import opened Wings
  import opened Keys

  datatype ParameterRole = RoleDriver | RoleDerived

  /** One named value: how it came about and what it was computed from. */
  datatype Parameter = Parameter(key: ParameterKey, role: ParameterRole, dependsOn: seq<ParameterKey>)

  // ----- The graph ----------------------------------------------------------

  predicate KeysDistinct(ps: seq<Parameter>) {
    forall i, j :: 0 <= i < j < |ps| ==> ps[i].key != ps[j].key
  }

  predicate Defines(ps: seq<Parameter>, key: ParameterKey) {
    exists i :: 0 <= i < |ps| && ps[i].key == key
  }

  /** Every dependency is in the set. */
  predicate DependenciesPresent(ps: seq<Parameter>) {
    forall i :: 0 <= i < |ps| ==> forall d :: d in ps[i].dependsOn ==> Defines(ps, d)
  }

  /** The key is computed from the dependency. */
  predicate DependsOn(ps: seq<Parameter>, key: ParameterKey, dep: ParameterKey) {
    exists i :: 0 <= i < |ps| && ps[i].key == key && dep in ps[i].dependsOn
  }

  /** Each key depends on the next, and the last on the first. */
  predicate IsCycle(ps: seq<Parameter>, cycle: seq<ParameterKey>) {
    && cycle != []
    && (forall i :: 0 <= i < |cycle| - 1 ==> DependsOn(ps, cycle[i], cycle[i + 1]))
    && DependsOn(ps, cycle[|cycle| - 1], cycle[0])
  }

  ghost predicate Acyclic(ps: seq<Parameter>) {
    forall cycle: seq<ParameterKey> :: !IsCycle(ps, cycle)
  }

  /** The order lists the keys of the set, each once. */
  predicate ListsTheKeys(ps: seq<Parameter>, order: seq<ParameterKey>) {
    && (forall i, j :: 0 <= i < j < |order| ==> order[i] != order[j])
    && (forall key :: key in order ==> Defines(ps, key))
    && (forall i :: 0 <= i < |ps| ==> ps[i].key in order)
  }

  /** Every dependency comes before the value that uses it. */
  predicate DependenciesFirst(ps: seq<Parameter>, order: seq<ParameterKey>) {
    forall i, j :: 0 <= i < |order| && 0 <= j < |ps| && ps[j].key == order[i] ==>
                     forall d :: d in ps[j].dependsOn ==> d in order[..i]
  }

  // ----- Ordering it --------------------------------------------------------

  /** The first duplicate or missing dependency, if there is one. */
  method CheckKeys(ps: seq<Parameter>) returns (issue: Option<IssueKind>)
    ensures issue.None? <==> KeysDistinct(ps) && DependenciesPresent(ps)
    ensures issue.Some? ==> issue.value == if KeysDistinct(ps) then IssueMissing else IssueInvalid
  {
    var remaining: map<ParameterKey, seq<ParameterKey>> := map[];
    for n := 0 to |ps|
      invariant forall key :: key in remaining <==> exists i :: 0 <= i < n && ps[i].key == key
      invariant forall i, j :: 0 <= i < j < n ==> ps[i].key != ps[j].key
    {
      if ps[n].key in remaining {
        return Some(IssueInvalid);
      }
      remaining := remaining[ps[n].key := ps[n].dependsOn];
    }
    for n := 0 to |ps|
      invariant forall i :: 0 <= i < n ==> forall d :: d in ps[i].dependsOn ==> Defines(ps, d)
    {
      var deps := ps[n].dependsOn;
      for k := 0 to |deps|
        invariant forall j :: 0 <= j < k ==> Defines(ps, deps[j])
      {
        if deps[k] !in remaining {
          assert !Defines(ps, deps[k]);
          return Some(IssueMissing);
        }
      }
    }
    issue := None;
  }

  method AllPlaced(placed: set<ParameterKey>, deps: seq<ParameterKey>) returns (all: bool)
    ensures all <==> forall d :: d in deps ==> d in placed
  {
    for n := 0 to |deps|
      invariant forall k :: 0 <= k < n ==> deps[k] in placed
    {
      if deps[n] !in placed {
        return false;
      }
    }
    all := true;
  }

  /** What holds of the keys placed so far. */
  ghost predicate PlacedSoFar(ps: seq<Parameter>, order: seq<ParameterKey>, placed: set<ParameterKey>) {
    && (forall key :: key in placed <==> key in order)
    && (forall i, j :: 0 <= i < j < |order| ==> order[i] != order[j])
    && (forall key :: key in order ==> Defines(ps, key))
    && DependenciesFirst(ps, order)
  }

  /** A value that cannot be placed waits for one that is not. */
  predicate Blocked(p: Parameter, placed: set<ParameterKey>) {
    p.key in placed || exists d :: d in p.dependsOn && d !in placed
  }

  lemma PlacingKeepsTheOrder(ps: seq<Parameter>, order: seq<ParameterKey>, placed: set<ParameterKey>, n: nat)
    requires KeysDistinct(ps) && PlacedSoFar(ps, order, placed)
    requires n < |ps| && ps[n].key !in placed
    requires forall d :: d in ps[n].dependsOn ==> d in placed
    ensures PlacedSoFar(ps, order + [ps[n].key], placed + {ps[n].key})
  {
    var longer := order + [ps[n].key];
    forall i, j, d | 0 <= i < |longer| && 0 <= j < |ps| && ps[j].key == longer[i] && d in ps[j].dependsOn
      ensures d in longer[..i]
    {
      if i < |order| {
        assert d in order[..i];
        assert longer[..i] == order[..i];
      } else {
        assert j == n;
        assert longer[..i] == order;
      }
    }
  }

  /** Rounds over the set until everything is placed, or a round places nothing. */
  method Place(ps: seq<Parameter>) returns (order: seq<ParameterKey>, stuck: bool, ghost placed: set<ParameterKey>)
    requires KeysDistinct(ps)
    ensures PlacedSoFar(ps, order, placed)
    ensures !stuck ==> |order| == |ps|
    ensures stuck ==> |order| < |ps| && forall i :: 0 <= i < |ps| ==> Blocked(ps[i], placed)
  {
    order := [];
    var done: set<ParameterKey> := {};
    placed := done;
    while |order| < |ps|
      invariant PlacedSoFar(ps, order, done) && placed == done
      invariant |order| <= |ps|
      decreases |ps| - |order|
    {
      var progressed := false;
      ghost var before := order;
      for n := 0 to |ps|
        invariant PlacedSoFar(ps, order, done)
        invariant !progressed ==> order == before && forall i :: 0 <= i < n ==> Blocked(ps[i], done)
        invariant progressed ==> |order| > |before|
        invariant |order| >= |before|
      {
        if ps[n].key !in done {
          var ready := AllPlaced(done, ps[n].dependsOn);
          if ready {
            PlacingKeepsTheOrder(ps, order, done, n);
            done := done + {ps[n].key};
            order := order + [ps[n].key];
            progressed := true;
          }
        }
      }
      PlacedNeverExceeds(ps, order, done);
      placed := done;
      if !progressed {
        return order, true, placed;
      }
    }
    stuck := false;
  }

  function KeySet(ps: seq<Parameter>): set<ParameterKey> {
    set i | 0 <= i < |ps| :: ps[i].key
  }

  lemma {:induction false} KeySetSize(ps: seq<Parameter>)
    requires KeysDistinct(ps)
    ensures |KeySet(ps)| == |ps|
  {
    if ps != [] {
      var front, last := ps[..|ps| - 1], ps[|ps| - 1];
      KeySetSize(front);
      assert KeySet(ps) == KeySet(front) + {last.key} by {
        assert forall i :: 0 <= i < |front| ==> front[i] == ps[i];
        forall key | key in KeySet(ps)
          ensures key in KeySet(front) + {last.key}
        {
          var i :| 0 <= i < |ps| && ps[i].key == key;
          assert i < |front| ==> front[i].key == key;
        }
        forall key | key in KeySet(front)
          ensures key in KeySet(ps)
        {
          var i :| 0 <= i < |front| && front[i].key == key;
          assert ps[i].key == key;
        }
      }
      assert last.key !in KeySet(front);
    }
  }

  lemma {:induction false} SetOfDistinct(order: seq<ParameterKey>)
    requires forall i, j :: 0 <= i < j < |order| ==> order[i] != order[j]
    ensures |set key | key in order| == |order|
  {
    if order != [] {
      var front, last := order[..|order| - 1], order[|order| - 1];
      SetOfDistinct(front);
      assert (set key | key in order) == (set key | key in front) + {last} by {
        assert order == front + [last];
      }
      assert last !in front;
    }
  }

  lemma SubsetSize<T>(a: set<T>, b: set<T>)
    requires a <= b
    ensures |a| <= |b|
    ensures |a| == |b| ==> a == b
  {
    assert b == a + (b - a);
    assert |b| == |a| + |b - a|;
  }

  /** Distinct keys of the set number at most its size, and when they reach it
      they are all of them. */
  lemma PlacedNeverExceeds(ps: seq<Parameter>, order: seq<ParameterKey>, placed: set<ParameterKey>)
    requires KeysDistinct(ps) && PlacedSoFar(ps, order, placed)
    ensures |order| <= |ps|
    ensures |order| == |ps| <==> forall i :: 0 <= i < |ps| ==> ps[i].key in order
  {
    var listed := set key | key in order;
    KeySetSize(ps);
    SetOfDistinct(order);
    forall key | key in listed
      ensures key in KeySet(ps)
    {
      assert Defines(ps, key);
    }
    SubsetSize(listed, KeySet(ps));
    if |order| == |ps| {
      forall i | 0 <= i < |ps|
        ensures ps[i].key in order
      {
        assert ps[i].key in KeySet(ps);
      }
    }
    if forall i :: 0 <= i < |ps| ==> ps[i].key in order {
      assert KeySet(ps) <= listed;
      assert KeySet(ps) == listed;
    }
  }

  // ----- An order excludes cycles -------------------------------------------

  function PositionOf(order: seq<ParameterKey>, key: ParameterKey): (i: nat)
    requires key in order
    ensures i < |order| && order[i] == key
  {
    if order[0] == key then 0 else 1 + PositionOf(order[1..], key)
  }

  lemma DependencyComesEarlier(ps: seq<Parameter>, order: seq<ParameterKey>, key: ParameterKey, dep: ParameterKey)
    requires ListsTheKeys(ps, order) && DependenciesFirst(ps, order) && DependsOn(ps, key, dep)
    ensures key in order && dep in order && PositionOf(order, dep) < PositionOf(order, key)
  {
    var j :| 0 <= j < |ps| && ps[j].key == key && dep in ps[j].dependsOn;
    var i := PositionOf(order, key);
    assert dep in order[..i];
    var k :| 0 <= k < i && order[..i][k] == dep;
    assert order[k] == dep;
  }

  lemma {:induction false} PositionsFallAlongAPath(
    ps: seq<Parameter>, order: seq<ParameterKey>, path: seq<ParameterKey>)
    requires ListsTheKeys(ps, order) && DependenciesFirst(ps, order)
    requires |path| >= 2 && forall i :: 0 <= i < |path| - 1 ==> DependsOn(ps, path[i], path[i + 1])
    ensures path[0] in order && path[|path| - 1] in order
    ensures PositionOf(order, path[|path| - 1]) < PositionOf(order, path[0])
  {
    DependencyComesEarlier(ps, order, path[0], path[1]);
    if |path| > 2 {
      PositionsFallAlongAPath(ps, order, path[1..]);
    }
  }

  lemma OrderedMeansAcyclic(ps: seq<Parameter>, order: seq<ParameterKey>)
    requires ListsTheKeys(ps, order) && DependenciesFirst(ps, order)
    ensures Acyclic(ps)
  {
    forall cycle: seq<ParameterKey> | IsCycle(ps, cycle)
      ensures false
    {
      var path := cycle + [cycle[0]];
      forall i | 0 <= i < |path| - 1
        ensures DependsOn(ps, path[i], path[i + 1])
      {
      }
      PositionsFallAlongAPath(ps, order, path);
    }
  }

  // ----- A round that places nothing has found a cycle ----------------------

  predicate Unplaced(ps: seq<Parameter>, placed: set<ParameterKey>, key: ParameterKey) {
    Defines(ps, key) && key !in placed
  }

  lemma NextUnplaced(ps: seq<Parameter>, placed: set<ParameterKey>, key: ParameterKey) returns (dep: ParameterKey)
    requires DependenciesPresent(ps) && forall i :: 0 <= i < |ps| ==> Blocked(ps[i], placed)
    requires Unplaced(ps, placed, key)
    ensures DependsOn(ps, key, dep) && Unplaced(ps, placed, dep)
  {
    var i :| 0 <= i < |ps| && ps[i].key == key;
    assert Blocked(ps[i], placed);
    dep :| dep in ps[i].dependsOn && dep !in placed;
  }

  /** Unplaced values lead to unplaced values for as long as one likes. */
  lemma {:induction false} Walk(ps: seq<Parameter>, placed: set<ParameterKey>, key: ParameterKey, length: nat)
    returns (path: seq<ParameterKey>)
    requires DependenciesPresent(ps) && forall i :: 0 <= i < |ps| ==> Blocked(ps[i], placed)
    requires Unplaced(ps, placed, key)
    ensures |path| == length + 1 && path[0] == key
    ensures forall i :: 0 <= i < |path| ==> Unplaced(ps, placed, path[i])
    ensures forall i :: 0 <= i < |path| - 1 ==> DependsOn(ps, path[i], path[i + 1])
    decreases length
  {
    hide Blocked, DependsOn, Unplaced;
    if length == 0 {
      path := [key];
    } else {
      var dep := NextUnplaced(ps, placed, key);
      var rest := Walk(ps, placed, dep, length - 1);
      path := [key] + rest;
    }
  }

  /** Longer than the set, a walk visits some value twice. */
  lemma WalkRepeats(ps: seq<Parameter>, path: seq<ParameterKey>) returns (i: nat, j: nat)
    requires |path| > |ps| && forall k :: 0 <= k < |path| ==> Defines(ps, path[k])
    ensures i < j < |path| && path[i] == path[j]
  {
    if forall i, j :: 0 <= i < j < |path| ==> path[i] != path[j] {
      var visited := set key | key in path;
      SetOfDistinct(path);
      forall key | key in visited
        ensures key in KeySet(ps)
      {
        assert Defines(ps, key);
      }
      SubsetSize(visited, KeySet(ps));
      KeySetIsSmall(ps);
    }
    i, j :| 0 <= i < j < |path| && path[i] == path[j];
  }

  lemma {:induction false} KeySetIsSmall(ps: seq<Parameter>)
    ensures |KeySet(ps)| <= |ps|
  {
    if ps != [] {
      var front, last := ps[..|ps| - 1], ps[|ps| - 1];
      KeySetIsSmall(front);
      forall key | key in KeySet(ps)
        ensures key in KeySet(front) + {last.key}
      {
        var i :| 0 <= i < |ps| && ps[i].key == key;
        assert i < |front| ==> front[i].key == key;
      }
      SubsetSize(KeySet(ps), KeySet(front) + {last.key});
    }
  }

  /** A round without progress names a real cycle among the unplaced values. */
  lemma NoProgressMeansACycle(ps: seq<Parameter>, placed: set<ParameterKey>, n: nat) returns (cycle: seq<ParameterKey>)
    requires DependenciesPresent(ps) && forall i :: 0 <= i < |ps| ==> Blocked(ps[i], placed)
    requires n < |ps| && ps[n].key !in placed
    ensures IsCycle(ps, cycle) && forall i :: 0 <= i < |cycle| ==> Unplaced(ps, placed, cycle[i])
  {
    hide Blocked, DependsOn;
    assert Unplaced(ps, placed, ps[n].key);
    var path := Walk(ps, placed, ps[n].key, |ps|);
    assert forall k :: 0 <= k < |path| ==> Unplaced(ps, placed, path[k]);
    var i, j := WalkRepeats(ps, path);
    cycle := path[i..j];
    PathClosesUp(ps, path, i, j);
  }

  /** The stretch of a path between two visits to one value is a cycle. */
  lemma PathClosesUp(ps: seq<Parameter>, path: seq<ParameterKey>, i: nat, j: nat)
    requires i < j < |path| && path[i] == path[j]
    requires forall k :: 0 <= k < |path| - 1 ==> DependsOn(ps, path[k], path[k + 1])
    ensures IsCycle(ps, path[i..j])
  {
    hide DependsOn;
    var cycle := path[i..j];
    forall k | 0 <= k < |cycle| - 1
      ensures DependsOn(ps, cycle[k], cycle[k + 1])
    {
      assert DependsOn(ps, path[i + k], path[i + k + 1]);
    }
    assert DependsOn(ps, path[j - 1], path[j - 1 + 1]);
  }

  /** Succeeds exactly when the keys are distinct, every dependency is in the set
      and the graph is acyclic; the result then lists every key once, with each
      dependency before the value that uses it. */
  method EvaluationOrder(ps: seq<Parameter>) returns (r: Outcome<seq<ParameterKey>>)
    ensures r.Ok? <==> KeysDistinct(ps) && DependenciesPresent(ps) && Acyclic(ps)
    ensures r.Ok? ==> |r.value| == |ps| && ListsTheKeys(ps, r.value) && DependenciesFirst(ps, r.value)
    ensures r.Refused? ==> r.issues == [if KeysDistinct(ps) && !DependenciesPresent(ps) then IssueMissing else IssueInvalid]
  {
    var issue := CheckKeys(ps);
    if issue.Some? {
      return Refused([issue.value]);
    }
    var order, stuck;
    ghost var placed;
    order, stuck, placed := Place(ps);
    PlacedNeverExceeds(ps, order, placed);
    if stuck {
      ghost var n :| 0 <= n < |ps| && ps[n].key !in order;
      ghost var cycle := NoProgressMeansACycle(ps, placed, n);
      return Refused([IssueInvalid]);
    }
    OrderedMeansAcyclic(ps, order);
    r := Ok(order);
  }

  // ----- A wing's own graph -------------------------------------------------

  /** Which two size values the solve mode treats as drivers. */
  function SizeDriverKeys(mode: SolveMode, span: ParameterKey, area: ParameterKey): (ParameterKey, ParameterKey) {
    match mode
    case SolveFromSpanAndArea => (span, area)
    case SolveFromSpanAndAspectRatio => (span, ParamAspectRatio)
    case SolveFromAreaAndAspectRatio => (area, ParamAspectRatio)
    case SolveFromSpanAndRootChord => (span, ParamChordRoot)
    case SolveFromAreaAndRootChord => (area, ParamChordRoot)
    case SolveFromAspectRatioAndRootChord => (ParamAspectRatio, ParamChordRoot)
  }

  /** The inputs of the equation that gave the span in this mode. */
  function SpanInputs(mode: SolveMode, area: ParameterKey): seq<ParameterKey> {
    match mode
    case SolveFromAreaAndAspectRatio => [area, ParamAspectRatio]
    case SolveFromAreaAndRootChord => [area, ParamChordRoot, ParamTaperRatio]
    case SolveFromAspectRatioAndRootChord => [ParamAspectRatio, ParamChordRoot, ParamTaperRatio]
    case _ => []
  }

  function AreaInputs(mode: SolveMode, span: ParameterKey): seq<ParameterKey> {
    match mode
    case SolveFromSpanAndAspectRatio => [span, ParamAspectRatio]
    case SolveFromAspectRatioAndRootChord => [span, ParamAspectRatio]
    case SolveFromSpanAndRootChord => [span, ParamChordRoot, ParamTaperRatio]
    case _ => []
  }

  function Driven(key: ParameterKey): Parameter {
    Parameter(key, RoleDriver, [])
  }

  function Derived(key: ParameterKey, deps: seq<ParameterKey>): Parameter {
    Parameter(key, RoleDerived, deps)
  }

  /** A size value is a driver of the mode, or derived from the given inputs. */
  function SizeParameter(drivers: (ParameterKey, ParameterKey), key: ParameterKey, deps: seq<ParameterKey>): Parameter {
    if key == drivers.0 || key == drivers.1 then Driven(key) else Derived(key, deps)
  }

  function SizeParameters(mode: SolveMode, span: ParameterKey, area: ParameterKey): seq<Parameter> {
    var drivers := SizeDriverKeys(mode, span, area);
    [ Driven(ParamTaperRatio),
      SizeParameter(drivers, span, SpanInputs(mode, area)),
      SizeParameter(drivers, area, AreaInputs(mode, span)),
      SizeParameter(drivers, ParamAspectRatio, [span, area]),
      SizeParameter(drivers, ParamChordRoot, [area, span, ParamTaperRatio]) ]
  }

  function ChordParameters(span: ParameterKey, area: ParameterKey): seq<Parameter> {
    [ Derived(ParamChordTip, [ParamChordRoot, ParamTaperRatio]),
      Derived(ParamChordMeanGeo, [area, span]),
      Derived(ParamChordMAC, [ParamChordRoot, ParamTaperRatio]) ]
  }

  function OtherPlaneParameters(mode: DihedralMode): seq<Parameter> {
    var (span, area, otherSpan, otherArea) := PlaneKeys(mode);
    [ Derived(otherSpan, [span, ParamDihedral]),
      Derived(otherArea, [area, ParamDihedral]),
      Derived(ParamStationMAC, [ParamSpanProjected, ParamTaperRatio]),
      Derived(ParamAspectRatioProjected, [ParamSpanProjected, ParamAreaReference]),
      Derived(ParamSemiSpanProjected, [ParamSpanProjected]),
      Derived(ParamSemiSpanPanel, [ParamSpanPanel]) ]
  }

  function AngleParameters(): seq<Parameter> {
    [ Driven(ParamSweepReference), Driven(ParamDihedral), Driven(ParamTwist), Driven(ParamIncidence),
      Derived(ParamSweepLeadingEdge, [ParamSweepReference, ParamAspectRatioProjected, ParamTaperRatio]),
      Derived(ParamTipLEOffset, [ParamSpanProjected, ParamSweepLeadingEdge]),
      Derived(ParamTipRise, [ParamSpanProjected, ParamDihedral]),
      Derived(ParamStationMACLeading, [ParamStationMAC, ParamSweepLeadingEdge]) ]
  }

  function BodyParameters(bodyWidth: Quantity): seq<Parameter> {
    if !bodyWidth.Supplied() then []
    else
      [ Driven(ParamBodyWidth),
        Derived(ParamAreaExposed,
                [ParamAreaReference, ParamChordRoot, ParamTaperRatio, ParamSpanProjected, ParamBodyWidth]) ]
  }

  /** A solved wing as a graph of named values. The keys are the same in every
      mode; the roles and the edges record what the builder chose. */
  function WingParameters(w: Wing): seq<Parameter> {
    var (span, area, _, _) := PlaneKeys(w.definition.dihedralMode);
    SizeParameters(w.planform.mode, span, area) + ChordParameters(span, area)
    + OtherPlaneParameters(w.definition.dihedralMode) + AngleParameters() + BodyParameters(w.definition.bodyWidth)
  }

  class ParameterBuilder {
    var params: seq<Parameter>

    constructor ()
      ensures params == []
    {
      params := [];
    }

    method AddDriver(key: ParameterKey)
      modifies this
      ensures params == old(params) + [Driven(key)]
    {
      params := params + [Parameter(key, RoleDriver, [])];
    }

    method AddDerived(key: ParameterKey, deps: seq<ParameterKey>)
      modifies this
      ensures params == old(params) + [Derived(key, deps)]
    {
      params := params + [Parameter(key, RoleDerived, deps)];
    }

    method AddSize(drivers: (ParameterKey, ParameterKey), key: ParameterKey, deps: seq<ParameterKey>)
      modifies this
      ensures params == old(params) + [SizeParameter(drivers, key, deps)]
    {
      if key == drivers.0 || key == drivers.1 {
        AddDriver(key);
      } else {
        AddDerived(key, deps);
      }
    }

    method AddSizeDrivers(mode: SolveMode, span: ParameterKey, area: ParameterKey)
      modifies this
      ensures params == old(params) + SizeParameters(mode, span, area)
    {
      var drivers := SizeDriverKeys(mode, span, area);
      AddDriver(ParamTaperRatio);
      AddSize(drivers, span, SpanInputs(mode, area));
      AddSize(drivers, area, AreaInputs(mode, span));
      AddSize(drivers, ParamAspectRatio, [span, area]);
      AddSize(drivers, ParamChordRoot, [area, span, ParamTaperRatio]);
    }

    method AddChords(span: ParameterKey, area: ParameterKey)
      modifies this
      ensures params == old(params) + ChordParameters(span, area)
    {
      AddDerived(ParamChordTip, [ParamChordRoot, ParamTaperRatio]);
      AddDerived(ParamChordMeanGeo, [area, span]);
      AddDerived(ParamChordMAC, [ParamChordRoot, ParamTaperRatio]);
    }

    method AddOtherPlane(mode: DihedralMode)
      modifies this
      ensures params == old(params) + OtherPlaneParameters(mode)
    {
      var (span, area, otherSpan, otherArea) := PlaneKeys(mode);
      AddDerived(otherSpan, [span, ParamDihedral]);
      AddDerived(otherArea, [area, ParamDihedral]);
      AddDerived(ParamStationMAC, [ParamSpanProjected, ParamTaperRatio]);
      AddDerived(ParamAspectRatioProjected, [ParamSpanProjected, ParamAreaReference]);
      AddDerived(ParamSemiSpanProjected, [ParamSpanProjected]);
      AddDerived(ParamSemiSpanPanel, [ParamSpanPanel]);
    }

    method AddAngles()
      modifies this
      ensures params == old(params) + AngleParameters()
    {
      AddDriver(ParamSweepReference);
      AddDriver(ParamDihedral);
      AddDriver(ParamTwist);
      AddDriver(ParamIncidence);
      AddDerived(ParamSweepLeadingEdge, [ParamSweepReference, ParamAspectRatioProjected, ParamTaperRatio]);
      AddDerived(ParamTipLEOffset, [ParamSpanProjected, ParamSweepLeadingEdge]);
      AddDerived(ParamTipRise, [ParamSpanProjected, ParamDihedral]);
      AddDerived(ParamStationMACLeading, [ParamStationMAC, ParamSweepLeadingEdge]);
    }

    method AddBody(bodyWidth: Quantity)
      modifies this
      ensures params == old(params) + BodyParameters(bodyWidth)
    {
      if bodyWidth.Supplied() {
        AddDriver(ParamBodyWidth);
        AddDerived(ParamAreaExposed,
                   [ParamAreaReference, ParamChordRoot, ParamTaperRatio, ParamSpanProjected, ParamBodyWidth]);
      }
    }
  }

  method BuildParameters(w: Wing) returns (params: seq<Parameter>)
    ensures params == WingParameters(w)
  {
    hide SizeParameters, ChordParameters, OtherPlaneParameters, AngleParameters, BodyParameters;
    var b := new ParameterBuilder();
    var (span, area, _, _) := PlaneKeys(w.definition.dihedralMode);
    b.AddSizeDrivers(w.planform.mode, span, area);
    b.AddChords(span, area);
    b.AddOtherPlane(w.definition.dihedralMode);
    b.AddAngles();
    b.AddBody(w.definition.bodyWidth);
    params := b.params;
  }

  function SpanDepth(mode: SolveMode): nat {
    match mode
    case SolveFromAreaAndAspectRatio | SolveFromAreaAndRootChord | SolveFromAspectRatioAndRootChord => 1
    case _ => 0
  }

  function AreaDepth(mode: SolveMode): nat {
    match mode
    case SolveFromSpanAndAspectRatio | SolveFromSpanAndRootChord => 1
    case SolveFromAspectRatioAndRootChord => 2
    case _ => 0
  }

  function AspectDepth(mode: SolveMode): nat {
    match mode
    case SolveFromSpanAndArea | SolveFromSpanAndRootChord | SolveFromAreaAndRootChord => 3
    case _ => 0
  }

  function RootDepth(mode: SolveMode): nat {
    match mode
    case SolveFromSpanAndArea | SolveFromSpanAndAspectRatio | SolveFromAreaAndAspectRatio => 3
    case _ => 0
  }

  /** How far a value is from the drivers of the mode. */
  function Depth(mode: SolveMode, key: ParameterKey, panel: bool): nat {
    match key
    case ParamSpanProjected => if panel then 3 else SpanDepth(mode)
    case ParamSpanPanel => if panel then SpanDepth(mode) else 3
    case ParamAreaReference => if panel then 3 else AreaDepth(mode)
    case ParamAreaPanel => if panel then AreaDepth(mode) else 3
    case ParamAspectRatio => AspectDepth(mode)
    case ParamChordRoot => RootDepth(mode)
    case ParamChordTip | ParamChordMeanGeo | ParamChordMAC => 4
    case ParamStationMAC | ParamAspectRatioProjected | ParamSemiSpanProjected | ParamSemiSpanPanel | ParamTipRise => 4
    case ParamAreaExposed => 4
    case ParamSweepLeadingEdge => 5
    case ParamTipLEOffset | ParamStationMACLeading => 6
    case _ => 0
  }

  /** Where a key stands in a wing's set. */
  function Seat(key: ParameterKey, panel: bool): nat {
    match key
    case ParamTaperRatio => 0
    case ParamSpanProjected => if panel then 8 else 1
    case ParamSpanPanel => if panel then 1 else 8
    case ParamAreaReference => if panel then 9 else 2
    case ParamAreaPanel => if panel then 2 else 9
    case ParamAspectRatio => 3
    case ParamChordRoot => 4
    case ParamChordTip => 5
    case ParamChordMeanGeo => 6
    case ParamChordMAC => 7
    case ParamStationMAC => 10
    case ParamAspectRatioProjected => 11
    case ParamSemiSpanProjected => 12
    case ParamSemiSpanPanel => 13
    case ParamSweepReference => 14
    case ParamDihedral => 15
    case ParamTwist => 16
    case ParamIncidence => 17
    case ParamSweepLeadingEdge => 18
    case ParamTipLEOffset => 19
    case ParamTipRise => 20
    case ParamStationMACLeading => 21
    case ParamBodyWidth => 22
    case ParamAreaExposed => 23
    case _ => 24
  }

  predicate InPanel(plane: DihedralMode) {
    plane == DihedralHoldPanel
  }

  /** The dependency is seated below the bound and nearer the drivers. */
  predicate Nearer(dep: ParameterKey, key: ParameterKey, mode: SolveMode, panel: bool, seats: nat) {
    Seat(dep, panel) < seats && Depth(mode, dep, panel) < Depth(mode, key, panel)
  }

  predicate Grounded(p: Parameter, mode: SolveMode, panel: bool, seats: nat) {
    forall k :: 0 <= k < |p.dependsOn| ==> Nearer(p.dependsOn[k], p.key, mode, panel, seats)
  }

  /** The entries sit one after another from the given seat, each grounded. */
  predicate WellSeated(ps: seq<Parameter>, from: nat, mode: SolveMode, panel: bool, seats: nat) {
    forall i :: 0 <= i < |ps| ==> Seat(ps[i].key, panel) == from + i && Grounded(ps[i], mode, panel, seats)
  }

  lemma SpanIsSeated(mode: SolveMode, plane: DihedralMode)
    ensures var (span, area, _, _), panel := PlaneKeys(plane), InPanel(plane);
            var p := SizeParameter(SizeDriverKeys(mode, span, area), span, SpanInputs(mode, area));
            p.key == span && Seat(span, panel) == 1 && Grounded(p, mode, panel, 22)
  {
    hide Nearer;
    NearKeys(mode, plane);
  }

  lemma AreaIsSeated(mode: SolveMode, plane: DihedralMode)
    ensures var (span, area, _, _), panel := PlaneKeys(plane), InPanel(plane);
            var p := SizeParameter(SizeDriverKeys(mode, span, area), area, AreaInputs(mode, span));
            p.key == area && Seat(area, panel) == 2 && Grounded(p, mode, panel, 22)
  {
    hide Nearer;
    NearKeys(mode, plane);
  }

  lemma AspectAndRootAreSeated(mode: SolveMode, plane: DihedralMode)
    ensures var (span, area, _, _), panel := PlaneKeys(plane), InPanel(plane);
            var drivers := SizeDriverKeys(mode, span, area);
            && Grounded(SizeParameter(drivers, ParamAspectRatio, [span, area]), mode, panel, 22)
            && Grounded(SizeParameter(drivers, ParamChordRoot, [area, span, ParamTaperRatio]), mode, panel, 22)
  {
    hide Nearer;
    NearKeys(mode, plane);
  }

  /** Which size values lie nearer the drivers than which, mode by mode. */
  lemma NearKeys(mode: SolveMode, plane: DihedralMode)
    ensures var (span, area, _, _), panel := PlaneKeys(plane), InPanel(plane);
            && Seat(span, panel) == 1 && Seat(area, panel) == 2
            && (SpanInputs(mode, area) != [] ==> Nearer(ParamTaperRatio, span, mode, panel, 22))
            && (mode == SolveFromAreaAndAspectRatio ==>
                  Nearer(area, span, mode, panel, 22) && Nearer(ParamAspectRatio, span, mode, panel, 22))
            && (mode == SolveFromAreaAndRootChord ==>
                  Nearer(area, span, mode, panel, 22) && Nearer(ParamChordRoot, span, mode, panel, 22))
            && (mode == SolveFromAspectRatioAndRootChord ==>
                  && Nearer(ParamAspectRatio, span, mode, panel, 22) && Nearer(ParamChordRoot, span, mode, panel, 22)
                  && Nearer(span, area, mode, panel, 22) && Nearer(ParamAspectRatio, area, mode, panel, 22))
            && (mode == SolveFromSpanAndAspectRatio ==>
                  Nearer(span, area, mode, panel, 22) && Nearer(ParamAspectRatio, area, mode, panel, 22))
            && (mode == SolveFromSpanAndRootChord ==>
                  && Nearer(span, area, mode, panel, 22) && Nearer(ParamChordRoot, area, mode, panel, 22)
                  && Nearer(ParamTaperRatio, area, mode, panel, 22))
            && (AspectDepth(mode) > 0 ==>
                  Nearer(span, ParamAspectRatio, mode, panel, 22) && Nearer(area, ParamAspectRatio, mode, panel, 22))
            && (RootDepth(mode) > 0 ==>
                  && Nearer(span, ParamChordRoot, mode, panel, 22) && Nearer(area, ParamChordRoot, mode, panel, 22)
                  && Nearer(ParamTaperRatio, ParamChordRoot, mode, panel, 22))
  {
  }

  lemma SizesAreSeated(mode: SolveMode, plane: DihedralMode)
    ensures WellSeated(SizeParameters(mode, PlaneKeys(plane).0, PlaneKeys(plane).1), 0, mode, InPanel(plane), 22)
  {
    hide Grounded, PlaneKeys;
    var (span, area, _, _) := PlaneKeys(plane);
    SpanIsSeated(mode, plane);
    AreaIsSeated(mode, plane);
    AspectAndRootAreSeated(mode, plane);
    NothingToGround(ParamTaperRatio, mode, InPanel(plane));
  }

  lemma NothingToGround(key: ParameterKey, mode: SolveMode, panel: bool)
    ensures Grounded(Driven(key), mode, panel, 22)
  {
  }

  lemma ChordsAreSeated(mode: SolveMode, plane: DihedralMode)
    ensures WellSeated(ChordParameters(PlaneKeys(plane).0, PlaneKeys(plane).1), 5, mode, InPanel(plane), 22)
  {
    hide Grounded;
    ChordsAreGrounded(mode, plane);
  }

  lemma ChordsAreGrounded(mode: SolveMode, plane: DihedralMode)
    ensures var ps, panel := ChordParameters(PlaneKeys(plane).0, PlaneKeys(plane).1), InPanel(plane);
            Grounded(ps[0], mode, panel, 22) && Grounded(ps[1], mode, panel, 22) && Grounded(ps[2], mode, panel, 22)
  {
    hide Nearer, PlaneKeys;
    NearChords(mode, plane);
  }

  lemma NearChords(mode: SolveMode, plane: DihedralMode)
    ensures var panel := InPanel(plane);
            && Nearer(ParamChordRoot, ParamChordTip, mode, panel, 22)
            && Nearer(ParamTaperRatio, ParamChordTip, mode, panel, 22)
            && Nearer(PlaneKeys(plane).1, ParamChordMeanGeo, mode, panel, 22)
            && Nearer(PlaneKeys(plane).0, ParamChordMeanGeo, mode, panel, 22)
            && Nearer(ParamChordRoot, ParamChordMAC, mode, panel, 22)
            && Nearer(ParamTaperRatio, ParamChordMAC, mode, panel, 22)
  {
  }

  lemma OtherPlaneIsSeated(mode: SolveMode, plane: DihedralMode)
    ensures WellSeated(OtherPlaneParameters(plane), 8, mode, InPanel(plane), 22)
  {
    hide Grounded;
    OtherPlaneIsGrounded(mode, plane);
  }

  lemma OtherPlaneIsGrounded(mode: SolveMode, plane: DihedralMode)
    ensures var ps, panel := OtherPlaneParameters(plane), InPanel(plane);
            && Grounded(ps[0], mode, panel, 22) && Grounded(ps[1], mode, panel, 22) && Grounded(ps[2], mode, panel, 22)
            && Grounded(ps[3], mode, panel, 22) && Grounded(ps[4], mode, panel, 22) && Grounded(ps[5], mode, panel, 22)
  {
    hide Nearer, PlaneKeys;
    NearOtherPlane(mode, plane);
  }

  lemma NearOtherPlane(mode: SolveMode, plane: DihedralMode)
    ensures var (span, area, otherSpan, otherArea), panel := PlaneKeys(plane), InPanel(plane);
            && Nearer(span, otherSpan, mode, panel, 22) && Nearer(ParamDihedral, otherSpan, mode, panel, 22)
            && Nearer(area, otherArea, mode, panel, 22) && Nearer(ParamDihedral, otherArea, mode, panel, 22)
            && Nearer(ParamSpanProjected, ParamStationMAC, mode, panel, 22)
            && Nearer(ParamTaperRatio, ParamStationMAC, mode, panel, 22)
            && Nearer(ParamSpanProjected, ParamAspectRatioProjected, mode, panel, 22)
            && Nearer(ParamAreaReference, ParamAspectRatioProjected, mode, panel, 22)
            && Nearer(ParamSpanProjected, ParamSemiSpanProjected, mode, panel, 22)
            && Nearer(ParamSpanPanel, ParamSemiSpanPanel, mode, panel, 22)
  {
  }

  lemma AnglesAreSeated(mode: SolveMode, panel: bool)
    ensures WellSeated(AngleParameters(), 14, mode, panel, 22)
  {
    hide Grounded;
    SweepsAreGrounded(mode, panel);
    NothingToGround(ParamSweepReference, mode, panel);
    NothingToGround(ParamDihedral, mode, panel);
    NothingToGround(ParamTwist, mode, panel);
    NothingToGround(ParamIncidence, mode, panel);
  }

  lemma SweepsAreGrounded(mode: SolveMode, panel: bool)
    ensures Grounded(AngleParameters()[4], mode, panel, 22) && Grounded(AngleParameters()[5], mode, panel, 22)
    ensures Grounded(AngleParameters()[6], mode, panel, 22) && Grounded(AngleParameters()[7], mode, panel, 22)
  {
    hide Nearer;
    NearAngles(mode, panel);
  }

  lemma NearAngles(mode: SolveMode, panel: bool)
    ensures Nearer(ParamSweepReference, ParamSweepLeadingEdge, mode, panel, 22)
    ensures Nearer(ParamAspectRatioProjected, ParamSweepLeadingEdge, mode, panel, 22)
    ensures Nearer(ParamTaperRatio, ParamSweepLeadingEdge, mode, panel, 22)
    ensures Nearer(ParamSpanProjected, ParamTipLEOffset, mode, panel, 22)
    ensures Nearer(ParamSweepLeadingEdge, ParamTipLEOffset, mode, panel, 22)
    ensures Nearer(ParamSpanProjected, ParamTipRise, mode, panel, 22)
    ensures Nearer(ParamDihedral, ParamTipRise, mode, panel, 22)
    ensures Nearer(ParamStationMAC, ParamStationMACLeading, mode, panel, 22)
    ensures Nearer(ParamSweepLeadingEdge, ParamStationMACLeading, mode, panel, 22)
  {
  }

  lemma BodyIsSeated(mode: SolveMode, panel: bool, bodyWidth: Quantity)
    ensures WellSeated(BodyParameters(bodyWidth), 22, mode, panel, 24)
  {
  }

  lemma SeatsJoin(a: seq<Parameter>, b: seq<Parameter>, from: nat, mode: SolveMode, panel: bool, m: nat, n: nat)
    requires WellSeated(a, from, mode, panel, m) && WellSeated(b, from + |a|, mode, panel, n) && m <= n
    ensures WellSeated(a + b, from, mode, panel, n)
  {
    hide Seat, Depth;
    forall i | 0 <= i < |a + b|
      ensures Seat((a + b)[i].key, panel) == from + i && Grounded((a + b)[i], mode, panel, n)
    {
      if i < |a| {
        assert Grounded(a[i], mode, panel, m);
      } else {
        assert (a + b)[i] == b[i - |a|];
      }
    }
  }

  lemma WingIsSeated(w: Wing)
    ensures var ps := WingParameters(w); WellSeated(ps, 0, w.planform.mode, InPanel(w.definition.dihedralMode), |ps|)
    ensures |WingParameters(w)| <= 24
  {
    hide WellSeated, PlaneKeys;
    var mode, plane := w.planform.mode, w.definition.dihedralMode;
    var panel := InPanel(plane);
    var span, area := PlaneKeys(plane).0, PlaneKeys(plane).1;
    var sizes, chords, others, angles := SizeParameters(mode, span, area), ChordParameters(span, area),
                                         OtherPlaneParameters(plane), AngleParameters();
    var body := BodyParameters(w.definition.bodyWidth);
    SizesAreSeated(mode, plane);
    ChordsAreSeated(mode, plane);
    OtherPlaneIsSeated(mode, plane);
    AnglesAreSeated(mode, panel);
    SeatsJoin(sizes, chords, 0, mode, panel, 22, 22);
    SeatsJoin(sizes + chords, others, 0, mode, panel, 22, 22);
    SeatsJoin(sizes + chords + others, angles, 0, mode, panel, 22, 22);
    if body == [] {
      assert sizes + chords + others + angles + body == sizes + chords + others + angles;
    } else {
      BodyIsSeated(mode, panel, w.definition.bodyWidth);
      SeatsJoin(sizes + chords + others + angles, body, 0, mode, panel, 22, 24);
    }
  }

  lemma SeatsAreDistinct(a: ParameterKey, b: ParameterKey, panel: bool)
    requires Seat(a, panel) == Seat(b, panel) < 24
    ensures a == b
  {
  }

  lemma {:induction false} DepthsFallAlongAPath(
    ps: seq<Parameter>, path: seq<ParameterKey>, mode: SolveMode, panel: bool, seats: nat)
    requires WellSeated(ps, 0, mode, panel, seats)
    requires |path| >= 2 && forall i :: 0 <= i < |path| - 1 ==> DependsOn(ps, path[i], path[i + 1])
    ensures Depth(mode, path[|path| - 1], panel) < Depth(mode, path[0], panel)
  {
    hide Seat, Depth;
    assert DependsOn(ps, path[0], path[0 + 1]);
    var j :| 0 <= j < |ps| && ps[j].key == path[0] && path[1] in ps[j].dependsOn;
    assert Grounded(ps[j], mode, panel, seats);
    if |path| > 2 {
      DepthsFallAlongAPath(ps, path[1..], mode, panel, seats);
    }
  }

  /** Every solved wing's parameters can be ordered: the keys are distinct, every
      dependency is among them, and nothing depends on itself however far round,
      in all six modes, in either plane, with and without a body. */
  lemma EveryWingCanBeOrdered(w: Wing)
    ensures KeysDistinct(WingParameters(w)) && DependenciesPresent(WingParameters(w)) && Acyclic(WingParameters(w))
  {
    hide WingParameters, Depth, Seat;
    var ps, mode, panel := WingParameters(w), w.planform.mode, InPanel(w.definition.dihedralMode);
    WingIsSeated(w);
    forall i, d | 0 <= i < |ps| && d in ps[i].dependsOn
      ensures Defines(ps, d)
    {
      assert Grounded(ps[i], mode, panel, |ps|);
      var s := Seat(d, panel);
      assert Seat(ps[s].key, panel) == s;
      SeatsAreDistinct(ps[s].key, d, panel);
    }
    forall cycle: seq<ParameterKey> | IsCycle(ps, cycle)
      ensures false
    {
      var path := cycle + [cycle[0]];
      forall i | 0 <= i < |path| - 1
        ensures DependsOn(ps, path[i], path[i + 1])
      {
      }
      DepthsFallAlongAPath(ps, path, mode, panel, |ps|);
    }
  }

  /** So ordering a solved wing's parameters never fails. */
  method OrderWing(w: Wing) returns (order: seq<ParameterKey>)
    ensures |order| == |WingParameters(w)|
    ensures ListsTheKeys(WingParameters(w), order) && DependenciesFirst(WingParameters(w), order)
  {
    hide WingParameters;
    var params := BuildParameters(w);
    EveryWingCanBeOrdered(w);
    var r := EvaluationOrder(params);
    order := r.value;
  }
}
