/** A bounded search for the candidates inside a power ceiling. */
module PowerSearch {
  import opened Quantities
  import opened Definition
  import opened Requirements
  import opened Keys
  import opened Commands
  import opened CanonicalText
  import opened Snapshots
  import opened Sweeps

  datatype SearchSettings = SearchSettings(
    driver: ParameterKey, from: Quantity, to: Quantity, ceiling: Quantity, samples: int)

  function SearchFields(s: SearchSettings): seq<Field> {
    [ Note("search.driver", KeyText(s.driver)), Qty("search.from", s.from), Qty("search.to", s.to),
      Qty("search.ceiling", s.ceiling), Enum("search.samples", s.samples) ]
  }

  function SearchFingerprint(p: Platform, s: SearchSettings): string {
    Render(p, SearchFields(s))
  }

  predicate SearchRepresentable(p: Platform, s: SearchSettings) {
    && p.representable(s.from.si) && p.representable(s.to.si) && p.representable(s.ceiling.si)
    && p.representable(Float(s.samples))
  }

  /** Equal search fingerprints mean equal settings. */
  lemma SearchFingerprintsAreTheSettings(p: Platform, s: SearchSettings, t: SearchSettings)
    requires p.LawfulFormat() && SearchRepresentable(p, s) && SearchRepresentable(p, t)
    ensures SearchFingerprint(p, s) == SearchFingerprint(p, t)
       <==> KeyText(s.driver) == KeyText(t.driver) && s == t.(driver := s.driver)
  {
    hide Render, KeyText, Float;
    var a, b := SearchFields(s), SearchFields(t);
    if SearchFingerprint(p, s) == SearchFingerprint(p, t) {
      assert Render(p, a) + [] == Render(p, b) + [];
      RenderingsReadBack(p, a, b, [], []);
      assert a[0] == b[0] && a[1] == b[1] && a[2] == b[2] && a[3] == b[3] && a[4] == b[4];
    }
  }

  /** The sweep whose rules the search reuses. */
  function SweepOf(s: SearchSettings): SweepSettings {
    SweepSettings(s.driver, SweepOutput("", SubjectElectricalPower), s.from, s.to, s.samples)
  }

  function PlanSearch(p: Platform, d: Design, s: SearchSettings): Outcome<SweepPlan> {
    var issues := (if !s.ceiling.Supplied() then [IssueMissing] else Unless(s.ceiling.dim != DimPower, IssueInvalid))
                  + Unless(d.mission.segments == [], IssueMissing);
    if issues != [] then Refused(issues) else PlanSweep(p, d, SweepOf(s))
  }

  datatype SearchCandidate = SearchCandidate(
    driver: Quantity,
    demand: Quantity,
    margin: real,
    status: ResultStatus,
    feasibility: LimitStatus,
    hasRequired: bool,
    withinCeiling: bool,
    feasible: bool
  )

  function JudgeCandidate(p: Platform, driver: Quantity, candidate: Design, ceiling: Quantity): SearchCandidate {
    var (status, claimed) := Aggregated(Assessment(p, candidate));
    var demand := ReadPowerSubject(p, candidate, SubjectElectricalPower);
    var open := SearchCandidate(driver, UNSET, 0.0, demand.status, status, claimed, false, false);
    if demand.status != ResultComputed then open
    else
      var within := demand.value.si <= ceiling.si + TOLERANCE * ceiling.si;
      open.(demand := demand.value, margin := RelativeMargin(ceiling.si - demand.value.si, ceiling.si),
            withinCeiling := within, feasible := within && (!claimed || status == LimitMet))
  }

  function PowerCandidate(p: Platform, plan: SweepPlan, n: int, ceiling: Quantity): SearchCandidate {
    var driver := DriverValue(plan.settings, n);
    match Candidate(p, plan, n)
    case Refused(issues) =>
      SearchCandidate(driver, UNSET, 0.0, StatusForIssues(issues), LimitUnknown, false, false, false)
    case Ok(candidate) => JudgeCandidate(p, driver, candidate, ceiling)
  }

  // ----- Runs of feasible candidates ----------------------------------------

  datatype Run = Run(first: nat, last: nat)

  datatype SearchInterval = SearchInterval(
    first: Quantity, last: Quantity, belowFirst: Quantity, aboveLast: Quantity, openLow: bool, openHigh: bool)

  /** Where the run that reaches the end of the list starts; none when the last
      candidate is infeasible. */
  function Trailing(cs: seq<SearchCandidate>): (r: Option<nat>)
    ensures r.Some? ==> r.value < |cs|
  {
    if cs == [] || !cs[|cs| - 1].feasible then None
    else
      var before := Trailing(cs[..|cs| - 1]);
      if before.Some? then before else Some(|cs| - 1)
  }

  /** The runs that have ended. */
  function Closed(cs: seq<SearchCandidate>): seq<Run> {
    if cs == [] then []
    else
      var front := cs[..|cs| - 1];
      if !cs[|cs| - 1].feasible && Trailing(front).Some?
      then Closed(front) + [Run(Trailing(front).value, |front| - 1)]
      else Closed(front)
  }

  function Runs(cs: seq<SearchCandidate>): seq<Run> {
    Closed(cs) + if Trailing(cs).Some? then [Run(Trailing(cs).value, |cs| - 1)] else []
  }

  function CountFeasible(cs: seq<SearchCandidate>): nat {
    if cs == [] then 0 else CountFeasible(cs[..|cs| - 1]) + if cs[|cs| - 1].feasible then 1 else 0
  }

  /** One run with the evaluated candidates that bracket its ends. */
  function Interval(cs: seq<SearchCandidate>, r: Run): SearchInterval
    requires r.first < |cs| && r.last < |cs|
  {
    var openLow, openHigh := r.first == 0, r.last == |cs| - 1;
    SearchInterval(cs[r.first].driver, cs[r.last].driver,
                   if openLow then UNSET else cs[r.first - 1].driver,
                   if openHigh then UNSET else cs[r.last + 1].driver, openLow, openHigh)
  }

  /** Every index from first to last is feasible, and its neighbours are not. */
  predicate IsMaximalRun(cs: seq<SearchCandidate>, r: Run) {
    && r.first <= r.last < |cs|
    && (forall k :: r.first <= k <= r.last ==> cs[k].feasible)
    && (r.first == 0 || !cs[r.first - 1].feasible)
    && (r.last == |cs| - 1 || !cs[r.last + 1].feasible)
  }

  predicate Within(r: Run, k: nat) {
    r.first <= k <= r.last
  }

  /** Disjoint, in ascending order, with a gap between neighbours. */
  predicate InOrder(runs: seq<Run>) {
    forall i, j :: 0 <= i < j < |runs| ==> runs[i].last + 1 < runs[j].first
  }

  lemma {:induction false} TrailingIsFeasible(cs: seq<SearchCandidate>)
    ensures match Trailing(cs)
            case None => cs == [] || !cs[|cs| - 1].feasible
            case Some(t) => && (forall k :: t <= k < |cs| ==> cs[k].feasible)
                            && (t == 0 || !cs[t - 1].feasible)
  {
    if cs != [] {
      TrailingIsFeasible(cs[..|cs| - 1]);
    }
  }

  /** Every run is maximal and ends below the bound, with an infeasible
      candidate after it. */
  predicate MaximalBelow(cs: seq<SearchCandidate>, runs: seq<Run>, end: nat) {
    forall i :: 0 <= i < |runs| ==> IsMaximalRun(cs, runs[i]) && runs[i].last < end && runs[i].last + 1 < |cs|
  }

  /** No feasible candidate below the bound is outside the runs. */
  predicate CoveredBelow(cs: seq<SearchCandidate>, runs: seq<Run>, end: nat) {
    forall k :: 0 <= k < end && k < |cs| && cs[k].feasible ==> exists i :: 0 <= i < |runs| && Within(runs[i], k)
  }

  lemma StillMaximal(cs: seq<SearchCandidate>, n: nat, runs: seq<Run>, end: nat)
    requires n < |cs| && end <= n && MaximalBelow(cs[..n], runs, end)
    ensures MaximalBelow(cs, runs, end)
  {
    assert forall k :: 0 <= k < n ==> cs[..n][k] == cs[k];
  }

  lemma StillCovered(cs: seq<SearchCandidate>, n: nat, runs: seq<Run>, end: nat)
    requires n < |cs| && end <= n && CoveredBelow(cs[..n], runs, end)
    ensures CoveredBelow(cs, runs, end)
    ensures end == n && !cs[n].feasible ==> CoveredBelow(cs, runs, n + 1)
  {
    forall k | 0 <= k < end && cs[k].feasible
      ensures exists i :: 0 <= i < |runs| && Within(runs[i], k)
    {
      assert cs[..n][k].feasible;
    }
  }

  /** Where the trailing run starts, or the end. */
  function TrailingStart(cs: seq<SearchCandidate>): (t: nat)
    ensures t <= |cs|
  {
    if Trailing(cs).Some? then Trailing(cs).value else |cs|
  }

  lemma {:induction false} ClosedRunsAreMaximal(cs: seq<SearchCandidate>)
    ensures InOrder(Closed(cs)) && MaximalBelow(cs, Closed(cs), TrailingStart(cs))
    ensures CoveredBelow(cs, Closed(cs), TrailingStart(cs))
  {
    hide IsMaximalRun, MaximalBelow, CoveredBelow, InOrder;
    if cs != [] {
      var n := |cs| - 1;
      var front := cs[..n];
      ClosedRunsAreMaximal(front);
      StillMaximal(cs, n, Closed(front), TrailingStart(front));
      StillCovered(cs, n, Closed(front), TrailingStart(front));
      if !cs[n].feasible {
        if Trailing(front).Some? {
          TrailingIsFeasible(front);
          RunCloses(cs, n, Closed(front), TrailingStart(front));
        } else {
          EndMoves(cs, Closed(front), n);
        }
      }
    } else {
      NoRuns();
    }
  }

  lemma NoRuns()
    ensures InOrder([]) && MaximalBelow([], [], 0) && CoveredBelow([], [], 0)
  {
  }

  lemma EndMoves(cs: seq<SearchCandidate>, runs: seq<Run>, n: nat)
    requires MaximalBelow(cs, runs, n)
    ensures MaximalBelow(cs, runs, n + 1)
  {
  }

  /** An infeasible candidate ends the run before it. */
  lemma RunCloses(cs: seq<SearchCandidate>, n: nat, before: seq<Run>, t: nat)
    requires n == |cs| - 1 && t < n && !cs[n].feasible
    requires forall k :: t <= k < n ==> cs[..n][k].feasible
    requires t == 0 || !cs[..n][t - 1].feasible
    requires InOrder(before) && MaximalBelow(cs, before, t) && CoveredBelow(cs, before, t)
    ensures var after := before + [Run(t, n - 1)];
            InOrder(after) && MaximalBelow(cs, after, n + 1) && CoveredBelow(cs, after, n + 1)
  {
    var after := before + [Run(t, n - 1)];
    assert IsMaximalRun(cs, Run(t, n - 1)) by {
      assert forall k :: 0 <= k < n ==> cs[..n][k] == cs[k];
    }
    GapBefore(cs, before, t);
    forall k | 0 <= k <= n && cs[k].feasible
      ensures exists i :: 0 <= i < |after| && Within(after[i], k)
    {
      if k < t {
        var i :| 0 <= i < |before| && Within(before[i], k);
        assert Within(after[i], k);
      } else {
        assert Within(after[|before|], k);
      }
    }
  }

  lemma GapBefore(cs: seq<SearchCandidate>, before: seq<Run>, t: nat)
    requires t < |cs| && cs[t].feasible && MaximalBelow(cs, before, t)
    ensures forall i :: 0 <= i < |before| ==> before[i].last + 1 < t
  {
  }

  /** Each run found is maximal, and they are disjoint and ascending. */
  lemma RunsAreMaximal(cs: seq<SearchCandidate>)
    ensures InOrder(Runs(cs))
    ensures forall i :: 0 <= i < |Runs(cs)| ==> IsMaximalRun(cs, Runs(cs)[i])
  {
    ClosedRunsAreMaximal(cs);
    TrailingIsFeasible(cs);
    assert forall i :: 0 <= i < |Closed(cs)| ==> Runs(cs)[i] == Closed(cs)[i];
    if Trailing(cs).Some? {
      GapBefore(cs, Closed(cs), TrailingStart(cs));
    }
  }

  lemma RunsCover(cs: seq<SearchCandidate>, k: nat) returns (i: nat)
    requires k < |cs| && cs[k].feasible
    ensures i < |Runs(cs)| && Within(Runs(cs)[i], k)
  {
    ClosedRunsAreMaximal(cs);
    assert CoveredBelow(cs, Closed(cs), TrailingStart(cs));
    if Trailing(cs).Some? && Trailing(cs).value <= k {
      i := |Closed(cs)|;
    } else {
      i :| 0 <= i < |Closed(cs)| && Within(Closed(cs)[i], k);
      assert Runs(cs)[i] == Closed(cs)[i];
    }
  }

  /** The runs found are exactly the maximal feasible ones: each is feasible
      throughout and bounded by an infeasible candidate or the end of the range,
      they are disjoint and ascending, and no feasible candidate is left out. */
  lemma RunsAreExactlyTheMaximalOnes(cs: seq<SearchCandidate>)
    ensures InOrder(Runs(cs))
    ensures forall r: Run :: r in Runs(cs) <==> IsMaximalRun(cs, r)
    ensures forall k :: 0 <= k < |cs| ==> (cs[k].feasible <==> exists r :: r in Runs(cs) && Within(r, k))
  {
    hide Runs;
    RunsAreMaximal(cs);
    forall k | 0 <= k < |cs| && cs[k].feasible
      ensures exists r :: r in Runs(cs) && Within(r, k)
    {
      var i := RunsCover(cs, k);
      assert Runs(cs)[i] in Runs(cs);
    }
    forall r: Run | IsMaximalRun(cs, r)
      ensures r in Runs(cs)
    {
      var i := RunsCover(cs, r.first);
      MaximalRunsMeetOnce(cs, Runs(cs)[i], r);
    }
  }

  lemma MaximalRunsMeetOnce(cs: seq<SearchCandidate>, a: Run, b: Run)
    requires IsMaximalRun(cs, a) && IsMaximalRun(cs, b) && Within(a, b.first)
    ensures a == b
  {
  }

  function IntervalsOf(cs: seq<SearchCandidate>, runs: seq<Run>): seq<SearchInterval>
    requires forall i :: 0 <= i < |runs| ==> runs[i].first < |cs| && runs[i].last < |cs|
  {
    seq(|runs|, i requires 0 <= i < |runs| => Interval(cs, runs[i]))
  }

  lemma RunsAreInRange(cs: seq<SearchCandidate>)
    ensures forall i :: 0 <= i < |Runs(cs)| ==> Runs(cs)[i].first < |cs| && Runs(cs)[i].last < |cs|
  {
    RunsAreMaximal(cs);
    assert forall i :: 0 <= i < |Runs(cs)| ==> IsMaximalRun(cs, Runs(cs)[i]);
  }

  lemma {:induction false} ClosedGrows(cs: seq<SearchCandidate>, n: nat)
    requires n <= |cs|
    ensures forall i :: 0 <= i < |Closed(cs[..n])| ==> Closed(cs[..n])[i].first < |cs| && Closed(cs[..n])[i].last < |cs|
  {
    ClosedRunsAreMaximal(cs[..n]);
    assert forall i :: 0 <= i < |Closed(cs[..n])| ==> IsMaximalRun(cs[..n], Closed(cs[..n])[i]);
  }

  /** Groups the feasible candidates into runs, with their brackets. */
  method CollectIntervals(cs: seq<SearchCandidate>) returns (intervals: seq<SearchInterval>, found: bool, unique: bool)
    ensures forall i :: 0 <= i < |Runs(cs)| ==> Runs(cs)[i].first < |cs| && Runs(cs)[i].last < |cs|
    ensures intervals == IntervalsOf(cs, Runs(cs))
    ensures found <==> exists k :: 0 <= k < |cs| && cs[k].feasible
    ensures unique <==> exists k: nat :: OnlyFeasible(cs, k)
  {
    hide Interval;
    RunsAreInRange(cs);
    var feasibleCount, start := 0, -1;
    intervals := [];
    ClosedGrows(cs, 0);
    for n := 0 to |cs|
      invariant feasibleCount == CountFeasible(cs[..n])
      invariant start == if Trailing(cs[..n]).Some? then Trailing(cs[..n]).value else -1
      invariant forall i :: 0 <= i < |Closed(cs[..n])| ==>
                              Closed(cs[..n])[i].first < |cs| && Closed(cs[..n])[i].last < |cs|
      invariant intervals == IntervalsOf(cs, Closed(cs[..n]))
    {
      assert cs[..n + 1][..n] == cs[..n];
      ClosedGrows(cs, n + 1);
      if cs[n].feasible {
        feasibleCount := feasibleCount + 1;
        if start < 0 {
          start := n;
        }
      } else if start >= 0 {
        intervals := intervals + [Interval(cs, Run(start, n - 1))];
        start := -1;
      }
    }
    assert cs[..|cs|] == cs;
    if start >= 0 {
      intervals := intervals + [Interval(cs, Run(start, |cs| - 1))];
    }
    found := feasibleCount > 0;
    unique := feasibleCount == 1;
    CountZeroMeans(cs);
    CountOneMeans(cs);
  }

  predicate NoneFeasible(cs: seq<SearchCandidate>) {
    forall k :: 0 <= k < |cs| ==> !cs[k].feasible
  }

  predicate OnlyFeasible(cs: seq<SearchCandidate>, k: nat) {
    k < |cs| && cs[k].feasible && forall j :: 0 <= j < |cs| && cs[j].feasible ==> j == k
  }

  lemma {:induction false} CountZeroMeans(cs: seq<SearchCandidate>)
    ensures CountFeasible(cs) == 0 <==> NoneFeasible(cs)
  {
    if cs != [] {
      var n := |cs| - 1;
      CountZeroMeans(cs[..n]);
      assert forall k :: 0 <= k < n ==> cs[..n][k] == cs[k];
    }
  }

  lemma {:induction false} CountOneMeans(cs: seq<SearchCandidate>)
    ensures CountFeasible(cs) == 1 <==> exists k: nat :: OnlyFeasible(cs, k)
  {
    if cs != [] {
      var n := |cs| - 1;
      var front := cs[..n];
      assert forall k :: 0 <= k < n ==> front[k] == cs[k];
      if cs[n].feasible {
        CountZeroMeans(front);
        assert NoneFeasible(front) <==> OnlyFeasible(cs, n);
        assert forall k: nat :: OnlyFeasible(cs, k) ==> k == n;
      } else {
        CountOneMeans(front);
        assert forall k: nat :: OnlyFeasible(front, k) <==> OnlyFeasible(cs, k);
      }
    }
  }

  // ----- The whole search ---------------------------------------------------

  datatype SearchResult = SearchResult(
    settings: SearchSettings,
    fingerprint: string,
    snapshot: string,
    candidates: seq<SearchCandidate>,
    intervals: seq<SearchInterval>,
    unique: bool,
    found: bool
  )

  function Candidates(p: Platform, plan: SweepPlan, ceiling: Quantity, count: nat): seq<SearchCandidate> {
    if count == 0 then []
    else Candidates(p, plan, ceiling, count - 1) + [PowerCandidate(p, plan, count - 1, ceiling)]
  }

  /** Something is found exactly when a candidate is feasible, and it is unique
      exactly when only one is. */
  ghost predicate FindsWhatIsFeasible(r: SearchResult) {
    && (r.found <==> exists k :: 0 <= k < |r.candidates| && r.candidates[k].feasible)
    && (r.unique <==> exists k: nat :: OnlyFeasible(r.candidates, k))
  }

  /** Evaluates every candidate, then groups them. It selects nothing. */
  method Search(p: Platform, d: Design, s: SearchSettings) returns (r: Outcome<SearchResult>)
    ensures r.Refused? <==> PlanSearch(p, d, s).Refused?
    ensures r.Ok? ==>
              && s.samples >= 0
              && r.value.candidates == Candidates(p, PlanSearch(p, d, s).value, s.ceiling, s.samples)
              && (forall i :: 0 <= i < |Runs(r.value.candidates)| ==>
                                && Runs(r.value.candidates)[i].first < |r.value.candidates|
                                && Runs(r.value.candidates)[i].last < |r.value.candidates|)
              && r.value.intervals == IntervalsOf(r.value.candidates, Runs(r.value.candidates))
              && r.value.fingerprint == SearchFingerprint(p, s) && r.value.snapshot == Snapshot(p, d)
    ensures r.Ok? ==> FindsWhatIsFeasible(r.value)
  {
    hide PowerCandidate, PlanSearch, Runs, Snapshot, SearchFingerprint, IntervalsOf;
    var plan := PlanSearch(p, d, s);
    if plan.Refused? {
      return Refused(plan.issues);
    }
    SearchPlanIsASweepPlan(p, d, s);
    var candidates: seq<SearchCandidate> := [];
    for n := 0 to s.samples
      invariant candidates == Candidates(p, plan.value, s.ceiling, n)
    {
      candidates := candidates + [PowerCandidate(p, plan.value, n, s.ceiling)];
    }
    var intervals, found, unique := CollectIntervals(candidates);
    r := Ok(SearchResult(s, SearchFingerprint(p, s), plan.value.snapshot, candidates, intervals, unique, found));
  }

  lemma SearchPlanIsASweepPlan(p: Platform, d: Design, s: SearchSettings)
    requires PlanSearch(p, d, s).Ok?
    ensures PlanSweep(p, d, SweepOf(s)) == PlanSearch(p, d, s)
    ensures s.samples >= 0 && PlanSearch(p, d, s).value.snapshot == Snapshot(p, d)
    ensures PlanSearch(p, d, s).value.settings == SweepOf(s)
  {
    hide SolvePath, OutputIssues, Snapshot;
    RangeIsSound(p, d, SweepOf(s));
  }

  /** In a validated search every candidate is an accepted edit of the driver
      alone, so each is judged and none is refused; the searched values run
      strictly one way between exact ends. */
  lemma SearchCandidatesAreJudgedDesigns(p: Platform, d: Design, s: SearchSettings, n: int)
    requires p.Lawful() && PlanSearch(p, d, s).Ok? && 0 <= n < s.samples
    ensures var plan := PlanSearch(p, d, s).value;
            && Candidate(p, plan, n).Ok?
            && CurrentValue(Candidate(p, plan, n).value, plan.canonical) == DriverValue(plan.settings, n)
            && PowerCandidate(p, plan, n, s.ceiling)
               == JudgeCandidate(p, DriverValue(plan.settings, n), Candidate(p, plan, n).value, s.ceiling)
    ensures forall m :: n < m < s.samples ==>
                          DriverValue(SweepOf(s), n).si != DriverValue(SweepOf(s), m).si
  {
    hide Candidate, DriverValue, JudgeCandidate, PlanSearch, PlanSweep;
    SearchPlanIsASweepPlan(p, d, s);
    CandidatesAreAcceptedAndMoveOnlyTheDriver(p, d, SweepOf(s), n);
    forall m | n < m < s.samples
      ensures DriverValue(SweepOf(s), n).si != DriverValue(SweepOf(s), m).si
    {
      DriverValuesAreStrictlyMonotone(p, d, SweepOf(s), n, m);
    }
  }

  lemma {:induction false} CandidatesAre(p: Platform, plan: SweepPlan, ceiling: Quantity, count: nat)
    ensures |Candidates(p, plan, ceiling, count)| == count
    ensures forall n :: 0 <= n < count ==> Candidates(p, plan, ceiling, count)[n] == PowerCandidate(p, plan, n, ceiling)
  {
    hide PowerCandidate;
    if count > 0 {
      CandidatesAre(p, plan, ceiling, count - 1);
    }
  }

  lemma CandidateHoldsItsValue(p: Platform, plan: SweepPlan, n: int, ceiling: Quantity)
    ensures PowerCandidate(p, plan, n, ceiling).driver == DriverValue(plan.settings, n)
  {
    hide Candidate, Aggregated, Assessment, ReadPowerSubject, DriverValue;
  }

  /** The drivers run strictly from one end to the other. */
  predicate RunsFromTo(cs: seq<SearchCandidate>, from: Quantity, to: Quantity) {
    && cs != [] && cs[0].driver == from && cs[|cs| - 1].driver == to && from.si != to.si
    && forall n, m :: 0 <= n < m < |cs| ==> (cs[n].driver.si < cs[m].driver.si <==> from.si < to.si)
  }

  /** The bracket named below a run lies below it, and the one named above lies
      above it, exactly when the range runs upwards; an open end is an end of it. */
  predicate BracketsFollow(i: SearchInterval, from: Quantity, to: Quantity) {
    && (i.openLow ==> i.first == from) && (i.openHigh ==> i.last == to)
    && (!i.openLow ==> (i.belowFirst.si < i.first.si <==> from.si < to.si))
    && (!i.openHigh ==> (i.last.si < i.aboveLast.si <==> from.si < to.si))
  }

  lemma BracketsFollowTheRange(cs: seq<SearchCandidate>, r: Run, from: Quantity, to: Quantity)
    requires RunsFromTo(cs, from, to) && r in Runs(cs)
    ensures r.first <= r.last < |cs| && BracketsFollow(Interval(cs, r), from, to)
  {
    hide Runs;
    RunsAreExactlyTheMaximalOnes(cs);
    assert IsMaximalRun(cs, r);
  }

  /** A search names its brackets for an upward range. A downward one, which is
      accepted, has the ends the other way about. */
  lemma BracketsAreNamedForAnUpwardSearch(p: Platform, d: Design, s: SearchSettings, plan: SweepPlan, r: Run)
    requires p.Lawful() && PlanSearch(p, d, s) == Ok(plan) && s.samples >= 0
    requires r in Runs(Candidates(p, plan, s.ceiling, s.samples))
    ensures r.first <= r.last < |Candidates(p, plan, s.ceiling, s.samples)|
    ensures BracketsFollow(Interval(Candidates(p, plan, s.ceiling, s.samples), r), s.from, s.to)
  {
    hide PlanSearch, Runs, Candidates, RunsFromTo, BracketsFollow;
    CandidatesRunFromTo(p, d, s, plan);
    BracketsFollowTheRange(Candidates(p, plan, s.ceiling, s.samples), r, s.from, s.to);
  }

  predicate ValuesRun(s: SweepSettings) {
    && s.samples >= 2 && DriverValue(s, 0) == s.from && DriverValue(s, s.samples - 1) == s.to && s.from.si != s.to.si
    && forall n, m :: 0 <= n < m < s.samples ==> (DriverValue(s, n).si < DriverValue(s, m).si <==> s.from.si < s.to.si)
  }

  lemma ValuesFollowTheRange(p: Platform, d: Design, s: SweepSettings, n: int, m: int)
    requires PlanSweep(p, d, s).Ok? && 0 <= n < m < s.samples
    ensures DriverValue(s, n).si < DriverValue(s, m).si <==> s.from.si < s.to.si
  {
    hide *;
    DriverValuesAreStrictlyMonotone(p, d, s, n, m);
  }

  lemma EndsOfTheRange(p: Platform, d: Design, s: SweepSettings)
    requires PlanSweep(p, d, s).Ok?
    ensures s.samples >= 2 && DriverValue(s, 0) == s.from && DriverValue(s, s.samples - 1) == s.to
    ensures s.from.si != s.to.si
  {
    hide *;
    SampledPlan(p, d, s);
    DriverValuesAreStrictlyMonotone(p, d, s, 0, s.samples - 1);
  }

  lemma ValidatedValuesRun(p: Platform, d: Design, s: SweepSettings)
    requires PlanSweep(p, d, s).Ok?
    ensures ValuesRun(s)
  {
    hide PlanSweep, DriverValue;
    EndsOfTheRange(p, d, s);
    forall n, m | 0 <= n < m < s.samples
      ensures DriverValue(s, n).si < DriverValue(s, m).si <==> s.from.si < s.to.si
    {
      ValuesFollowTheRange(p, d, s, n, m);
    }
  }

  lemma DriversRun(cs: seq<SearchCandidate>, s: SweepSettings)
    requires ValuesRun(s) && |cs| == s.samples
    requires forall n :: 0 <= n < |cs| ==> cs[n].driver == DriverValue(s, n)
    ensures RunsFromTo(cs, s.from, s.to)
  {
    hide DriverValue;
  }

  lemma CandidatesRunFromTo(p: Platform, d: Design, s: SearchSettings, plan: SweepPlan)
    requires p.Lawful() && PlanSearch(p, d, s) == Ok(plan) && s.samples >= 0
    ensures RunsFromTo(Candidates(p, plan, s.ceiling, s.samples), s.from, s.to)
  {
    hide PowerCandidate, PlanSearch, DriverValue, PlanSweep, Candidates, ValuesRun, RunsFromTo, Snapshot;
    var cs := Candidates(p, plan, s.ceiling, s.samples);
    CandidatesAre(p, plan, s.ceiling, s.samples);
    SearchPlanIsASweepPlan(p, d, s);
    ValidatedValuesRun(p, d, SweepOf(s));
    forall n | 0 <= n < s.samples
      ensures cs[n].driver == DriverValue(SweepOf(s), n)
    {
      CandidateHoldsItsValue(p, plan, n, s.ceiling);
    }
    DriversRun(cs, SweepOf(s));
  }

  /** A candidate is offered exactly when its demand is computed, fits the
      ceiling to the tolerance, and its own required checks, if any, are met. */
  lemma FeasibleMeansWithinAndMet(p: Platform, driver: Quantity, candidate: Design, ceiling: Quantity)
    ensures JudgeCandidate(p, driver, candidate, ceiling).feasible
       <==> var demand := ReadPowerSubject(p, candidate, SubjectElectricalPower);
            && demand.status == ResultComputed && demand.value.si <= ceiling.si + TOLERANCE * ceiling.si
            && forall i :: 0 <= i < |Assessment(p, candidate)| && Required(Assessment(p, candidate)[i]) ==>
                             Assessment(p, candidate)[i].status == LimitMet
  {
    hide ReadPowerSubject, Assessment, RelativeMargin, Aggregated;
    MetExactlyWhenEveryRequiredCheckIs(Assessment(p, candidate));
    ClaimMeansRequired(Assessment(p, candidate));
  }

  lemma ClaimMeansRequired(checks: seq<RequirementCheck>)
    ensures Aggregated(checks).1 <==> AnyRequired(checks)
  {
  }
}
