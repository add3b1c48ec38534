/** One driver moved over a range while the rest of the design stays. */
module Sweeps {
  import opened Quantities
  import opened Definition
  import opened Reals
  import opened Planforms
  import opened Wings
  import opened MassBalance
  import opened Requirements
  import opened Sizing
  import opened Keys
  import opened Lists
  import opened Commands
  import opened Editing
  import opened CanonicalText
  import opened Snapshots

  const MIN_SAMPLES := 2
  const MAX_SAMPLES := 65

  datatype SweepOutput = SweepOutput(caseName: string, subject: RequirementSubject)

  datatype SweepSettings = SweepSettings(
    driver: ParameterKey, output: SweepOutput, from: Quantity, to: Quantity, samples: int)

  datatype SweepSample = SweepSample(
    driver: Quantity, value: Quantity, status: ResultStatus, feasibility: LimitStatus, hasRequired: bool)

  datatype SweepPlan = SweepPlan(
    snapshot: string,
    canonical: ParameterKey,
    held: seq<ParameterKey>,
    settings: SweepSettings,
    design: Design,
    mode: SolveMode
  )

  // ----- Fingerprint --------------------------------------------------------

  function SettingsFields(s: SweepSettings): seq<Field> {
    [ Note("sweep.driver", KeyText(s.driver)), Qty("sweep.from", s.from), Qty("sweep.to", s.to),
      Enum("sweep.samples", s.samples), Enum("sweep.subject", SubjectCode(s.output.subject)),
      Note("sweep.case", s.output.caseName) ]
  }

  function Fingerprint(p: Platform, s: SweepSettings): string {
    Render(p, SettingsFields(s))
  }

  /** Two settings are one question: the same key text and the same values. */
  predicate SameQuestion(s: SweepSettings, t: SweepSettings) {
    KeyText(s.driver) == KeyText(t.driver) && s == t.(driver := s.driver)
  }

  predicate SettingsRepresentable(p: Platform, s: SweepSettings) {
    p.representable(s.from.si) && p.representable(s.to.si) && p.representable(Float(s.samples))
  }

  /** The fingerprint is the question: equal fingerprints mean equal settings. */
  lemma FingerprintsAreTheSettings(p: Platform, s: SweepSettings, t: SweepSettings)
    requires p.LawfulFormat() && SettingsRepresentable(p, s) && SettingsRepresentable(p, t)
    ensures Fingerprint(p, s) == Fingerprint(p, t) <==> SameQuestion(s, t)
  {
    hide Render, KeyText, Float;
    var a, b := SettingsFields(s), SettingsFields(t);
    if Fingerprint(p, s) == Fingerprint(p, t) {
      CodesAreRepresentable(p, SubjectCode(s.output.subject));
      CodesAreRepresentable(p, SubjectCode(t.output.subject));
      assert Render(p, a) + [] == Render(p, b) + [];
      RenderingsReadBack(p, a, b, [], []);
      assert a[0] == b[0] && a[1] == b[1] && a[2] == b[2] && a[3] == b[3] && a[4] == b[4] && a[5] == b[5];
    }
  }

  predicate Sweepable(key: ParameterKey) {
    key == ParamAllUpMass || CanonicalSizeKey(key).Some?
  }

  /** The keys that can be swept are told apart by their length and a letter. */
  lemma SweepableKeysAreTold(a: ParameterKey, b: ParameterKey)
    requires Sweepable(a) && Sweepable(b) && KeyText(a) == KeyText(b)
    ensures a == b
  {
    assert |KeyText(a)| == |KeyText(b)| && KeyText(a)[5] == KeyText(b)[5];
  }

  // ----- Planning -----------------------------------------------------------

  /** What the swept key edits, and why it may not. */
  function ResolveSweptDriver(d: Design, key: ParameterKey): (ParameterKey, Issues) {
    if key == ParamAllUpMass then
      (ParamAllUpMass, Unless(ResolvedMassMode(d.massMode) == MassModeComponents, IssueInvalid))
    else
      match CanonicalSizeKey(key)
      case None => (NoKey, [IssueUnsupported])
      case Some(canonical) => (canonical, Unless(!HoldsDriver(d.wing.drivers, canonical), IssueInvalid))
  }

  function SweptDimension(key: ParameterKey): Dimension {
    if key == ParamAllUpMass then DimMass else SizeDriverDimension(key)
  }

  function EndIssues(end: Quantity, want: Dimension): Issues {
    if !end.Supplied() then [IssueMissing]
    else if end.dim != want then [IssueInvalid]
    else Unless(end.si <= 0.0, IssueInvalid)
  }

  function RangeIssues(s: SweepSettings, want: Dimension): Issues {
    EndIssues(s.from, want) + EndIssues(s.to, want)
    + Unless(s.from.Supplied() && s.to.Supplied() && s.from.si == s.to.si, IssueInvalid)
    + Unless(s.samples < MIN_SAMPLES || s.samples > MAX_SAMPLES, IssueInvalid)
  }

  function OutputIssues(d: Design, o: SweepOutput): Issues {
    if o.subject == SubjectUnknown then [IssueMissing]
    else if !PerCase(o.subject) then Unless(o.caseName != "", IssueInvalid)
    else Unless(o.caseName == "" || Lookup(d.cases, CaseName, o.caseName).None?, IssueMissing)
  }

  function HeldKeys(d: WingDefinition, keys: seq<ParameterKey>, swept: ParameterKey): seq<ParameterKey> {
    if keys == [] then []
    else
      var last := keys[|keys| - 1];
      HeldKeys(d, keys[..|keys| - 1], swept) + if last != swept then Held(d, last) else []
  }

  /** What does not move: the mass, the other size driver, the taper ratio and
      the dihedral. */
  function HeldDuringSweep(d: Design, swept: ParameterKey): seq<ParameterKey> {
    (if swept != ParamAllUpMass && ResolvedMassMode(d.massMode) == MassModeEntered then [ParamAllUpMass] else [])
    + HeldKeys(d.wing, SIZE_KEYS, swept)
    + [ParamTaperRatio, ParamDihedral]
  }

  method ListHeldKeys(d: WingDefinition, keys: seq<ParameterKey>, swept: ParameterKey) returns (held: seq<ParameterKey>)
    ensures held == HeldKeys(d, keys, swept)
  {
    held := [];
    for n := 0 to |keys|
      invariant held == HeldKeys(d, keys[..n], swept)
    {
      assert keys[..n + 1][..n] == keys[..n];
      assert held + [] == held;
      if keys[n] != swept && HoldsDriver(d.drivers, keys[n]) {
        held := held + [PlaneSizeKey(d.dihedralMode, keys[n])];
      }
    }
    assert keys[..|keys|] == keys;
  }

  method ListHeldDuringSweep(d: Design, swept: ParameterKey) returns (held: seq<ParameterKey>)
    ensures held == HeldDuringSweep(d, swept)
  {
    hide HeldKeys;
    held := [];
    if swept != ParamAllUpMass && ResolvedMassMode(d.massMode) == MassModeEntered {
      held := held + [ParamAllUpMass];
    }
    var drivers := ListHeldKeys(d.wing, SIZE_KEYS, swept);
    held := held + drivers + [ParamTaperRatio, ParamDihedral];
  }

  lemma {:induction false} HeldKeysAre(d: WingDefinition, keys: seq<ParameterKey>, swept: ParameterKey, key: ParameterKey)
    ensures key in HeldKeys(d, keys, swept)
       <==> exists k :: k in keys && k != swept && HoldsDriver(d.drivers, k) && key == PlaneSizeKey(d.dihedralMode, k)
  {
    hide HoldsDriver, PlaneSizeKey;
    if keys != [] {
      var front, last := keys[..|keys| - 1], keys[|keys| - 1];
      assert keys == front + [last];
      HeldKeysAre(d, front, swept, key);
    }
  }

  /** What a sweep reports as held is exactly every size driver the design holds
      but the swept one, each in the design's own plane, the taper ratio and the
      dihedral, and the mass when it is an entered one and not itself swept. */
  lemma ExactlyWhatIsNotSweptIsHeld(d: Design, swept: ParameterKey, key: ParameterKey)
    requires swept == ParamAllUpMass || swept in SIZE_KEYS
    ensures key in HeldDuringSweep(d, swept)
       <==> || (key in DriverKeys(d.wing) && CanonicalSizeKey(key) != Some(swept))
            || key == ParamTaperRatio || key == ParamDihedral
            || (key == ParamAllUpMass && swept != ParamAllUpMass && ResolvedMassMode(d.massMode) == MassModeEntered)
  {
    hide HeldKeys, DriverKeys, HoldsDriver;
    HeldKeysAre(d.wing, SIZE_KEYS, swept, key);
    DriverKeysAreTheHeldOnes(d.wing, key);
    HeldKeyIsOneOfTheDrivers(d.wing, swept, key);
  }

  lemma HeldKeyIsOneOfTheDrivers(d: WingDefinition, swept: ParameterKey, key: ParameterKey)
    requires swept == ParamAllUpMass || swept in SIZE_KEYS
    ensures (exists k :: k in SIZE_KEYS && k != swept && HoldsDriver(d.drivers, k) && key == PlaneSizeKey(d.dihedralMode, k))
       <==> HoldsDriver(d.drivers, key) && PlaneSizeKey(d.dihedralMode, key) == key && CanonicalSizeKey(key) != Some(swept)
  {
    if HoldsDriver(d.drivers, key) && PlaneSizeKey(d.dihedralMode, key) == key && CanonicalSizeKey(key) != Some(swept) {
      var k := CanonicalSizeKey(key).value;
      assert k in SIZE_KEYS && HoldsDriver(d.drivers, k) && key == PlaneSizeKey(d.dihedralMode, k);
    }
  }

  function PlanIssues(p: Platform, d: Design, s: SweepSettings): Issues {
    var (canonical, driverIssues) := ResolveSweptDriver(d, s.driver);
    driverIssues + IssuesOf(SolvePath(p, d.wing.drivers)) + RangeIssues(s, SweptDimension(canonical))
    + OutputIssues(d, s.output)
  }

  /** A validated sweep, or every reason it is refused. */
  function PlanSweep(p: Platform, d: Design, s: SweepSettings): Outcome<SweepPlan> {
    if PlanIssues(p, d, s) != [] || SolvePath(p, d.wing.drivers).Refused? then Refused(PlanIssues(p, d, s))
    else
      var canonical := ResolveSweptDriver(d, s.driver).0;
      Ok(SweepPlan(Snapshot(p, d), canonical, HeldDuringSweep(d, canonical), s, d, SolvePath(p, d.wing.drivers).value))
  }

  /** Between validated sweeps, equal fingerprints mean equal settings. */
  lemma ValidatedFingerprintsAreTheSettings(p: Platform, d: Design, e: Design, s: SweepSettings, t: SweepSettings)
    requires p.LawfulFormat() && SettingsRepresentable(p, s) && SettingsRepresentable(p, t)
    requires PlanSweep(p, d, s).Ok? && PlanSweep(p, e, t).Ok?
    ensures Fingerprint(p, s) == Fingerprint(p, t) <==> s == t
  {
    hide Fingerprint, KeyText, PlanSweep, SolvePath;
    FingerprintsAreTheSettings(p, s, t);
    DriverResolves(p, d, s);
    DriverResolves(p, e, t);
    if Fingerprint(p, s) == Fingerprint(p, t) {
      SweepableKeysAreTold(s.driver, t.driver);
    }
  }

  lemma DriverResolves(p: Platform, d: Design, s: SweepSettings)
    requires PlanSweep(p, d, s).Ok?
    ensures Sweepable(s.driver) && ResolveSweptDriver(d, s.driver).1 == []
  {
    hide SolvePath, OutputIssues, RangeIssues, Snapshot;
  }

  // ----- Candidates ---------------------------------------------------------

  /** The driver value at sample n. The endpoints are exact. */
  function DriverValue(s: SweepSettings, n: int): Quantity {
    var last := s.samples - 1;
    if n <= 0 then s.from
    else if n >= last then s.to
    else Quantity(s.from.si + (s.to.si - s.from.si) * (Float(n) / Float(last)), s.from.dim)
  }

  /** The candidate is an ordinary design made by the ordinary edit. */
  function Candidate(p: Platform, plan: SweepPlan, n: int): Outcome<Design> {
    var value := DriverValue(plan.settings, n);
    if plan.canonical == ParamAllUpMass then
      Apply(p, plan.design, FieldCommand(SetMass(value, plan.design.massBasis)))
    else Apply(p, plan.design, DriverCommand(SetDriver(plan.settings.driver, value)))
  }

  /** The value a design holds under a swept key. */
  function CurrentValue(d: Design, key: ParameterKey): Quantity {
    if key == ParamAllUpMass then d.mass else SizeValue(d.wing.drivers, key)
  }

  /** Where a sample lies between the ends, from 0 to 1. */
  function Fraction(n: int, last: int): real {
    if n <= 0 then 0.0 else if n >= last then 1.0 else Float(n) / Float(last)
  }

  lemma FractionOfTheWhole(n: int, last: int)
    requires 0 <= n <= last && 0 < last
    ensures Fraction(n, last) * Float(last) == Float(n)
  {
    DivMul(Float(n), Float(last));
  }

  lemma QuotientsAscend(x: real, y: real, a: real, b: real, whole: real)
    requires x * whole == a && y * whole == b && 0.0 <= a < b <= whole
    ensures 0.0 <= x < y <= 1.0
  {
    Scale(0.0, x, whole);
    Scale(y, x, whole);
    Scale(y, 1.0, whole);
  }

  lemma FractionsAscend(n: int, m: int, last: int)
    requires 0 <= n < m <= last
    ensures 0.0 <= Fraction(n, last) < Fraction(m, last) <= 1.0
  {
    FractionOfTheWhole(n, last);
    FractionOfTheWhole(m, last);
    QuotientsAscend(Fraction(n, last), Fraction(m, last), Float(n), Float(m), Float(last));
  }

  function Along(from: real, to: real, fraction: real): real {
    from + (to - from) * fraction
  }

  lemma ValueIsInterpolated(s: SweepSettings, n: int)
    requires s.samples >= 2 && s.from.dim == s.to.dim
    ensures DriverValue(s, n) == Quantity(Along(s.from.si, s.to.si, Fraction(n, s.samples - 1)), s.from.dim)
  {
  }

  lemma EndpointsAreExact(s: SweepSettings)
    requires s.samples >= 2
    ensures DriverValue(s, 0) == s.from && DriverValue(s, s.samples - 1) == s.to
  {
  }

  lemma StepIsStrict(from: real, to: real, f: real, g: real)
    requires f < g
    ensures from < to ==> Along(from, to, f) < Along(from, to, g)
    ensures from > to ==> Along(from, to, f) > Along(from, to, g)
  {
    if from < to {
      assert (to - from) * (g - f) > 0.0;
    } else if from > to {
      assert (from - to) * (g - f) > 0.0;
    }
  }

  lemma Between(from: real, to: real, f: real)
    requires 0.0 <= f <= 1.0
    ensures from <= to ==> from <= Along(from, to, f) <= to
    ensures from >= to ==> from >= Along(from, to, f) >= to
  {
    if from <= to {
      NonnegativeProduct(to - from, f);
      NonnegativeProduct(to - from, 1.0 - f);
    } else {
      NonnegativeProduct(from - to, f);
      NonnegativeProduct(from - to, 1.0 - f);
    }
  }

  /** The values run strictly one way between exact endpoints: upwards when the
      range does, and downwards when it does, since only equal ends are refused. */
  lemma DriverValuesAreStrictlyMonotone(p: Platform, d: Design, s: SweepSettings, n: int, m: int)
    requires PlanSweep(p, d, s).Ok? && 0 <= n < m < s.samples
    ensures DriverValue(s, 0) == s.from && DriverValue(s, s.samples - 1) == s.to
    ensures s.from.si != s.to.si
    ensures s.from.si < s.to.si ==> s.from.si <= DriverValue(s, n).si < DriverValue(s, m).si <= s.to.si
    ensures s.from.si > s.to.si ==> s.from.si >= DriverValue(s, n).si > DriverValue(s, m).si >= s.to.si
  {
    hide SolvePath, OutputIssues, ResolveSweptDriver, Fraction, Snapshot, Along, PlanSweep, DriverValue;
    RangeIsSound(p, d, s);
    EndpointsAreExact(s);
    var last := s.samples - 1;
    FractionsAscend(n, m, last);
    ValueIsInterpolated(s, n);
    ValueIsInterpolated(s, m);
    StepIsStrict(s.from.si, s.to.si, Fraction(n, last), Fraction(m, last));
    Between(s.from.si, s.to.si, Fraction(n, last));
    Between(s.from.si, s.to.si, Fraction(m, last));
  }

  /** What a validated range is. */
  lemma RangeIsSound(p: Platform, d: Design, s: SweepSettings)
    requires PlanSweep(p, d, s).Ok?
    ensures var want := SweptDimension(ResolveSweptDriver(d, s.driver).0);
            s.from.Positive(want) && s.to.Positive(want) && s.from.si != s.to.si
    ensures MIN_SAMPLES <= s.samples <= MAX_SAMPLES
    ensures ResolveSweptDriver(d, s.driver).1 == [] && SolvePath(p, d.wing.drivers).Ok?
  {
    hide SolvePath, OutputIssues, ResolveSweptDriver, Snapshot;
  }

  /** A sweep may run downwards: reversing a validated range validates too. */
  lemma AReversedRangeIsAccepted(p: Platform, d: Design, s: SweepSettings)
    requires PlanSweep(p, d, s).Ok?
    ensures PlanSweep(p, d, s.(from := s.to, to := s.from)).Ok?
  {
    hide SolvePath, OutputIssues, ResolveSweptDriver, Snapshot;
    RangeIsSound(p, d, s);
  }

  lemma ValuesArePositive(p: Platform, d: Design, s: SweepSettings, n: int)
    requires PlanSweep(p, d, s).Ok? && 0 <= n < s.samples
    ensures DriverValue(s, n).Positive(SweptDimension(ResolveSweptDriver(d, s.driver).0))
  {
    hide SolvePath, OutputIssues, ResolveSweptDriver, Fraction, Snapshot;
    RangeIsSound(p, d, s);
    if n == 0 {
      assert DriverValue(s, n) == s.from;
    } else {
      DriverValuesAreStrictlyMonotone(p, d, s, 0, n);
      ValueIsInterpolated(s, n);
    }
  }

  /** In a validated sweep every candidate is an accepted edit, and it changes
      the swept value and nothing else. */
  lemma CandidatesAreAcceptedAndMoveOnlyTheDriver(p: Platform, d: Design, s: SweepSettings, n: int)
    requires p.Lawful() && PlanSweep(p, d, s).Ok? && 0 <= n < s.samples
    ensures var plan := PlanSweep(p, d, s).value;
            var candidate := Candidate(p, plan, n);
            && candidate.Ok?
            && CurrentValue(candidate.value, plan.canonical) == DriverValue(s, n)
            && (plan.canonical == ParamAllUpMass ==> candidate.value == d.(mass := DriverValue(s, n)))
            && (plan.canonical != ParamAllUpMass ==>
                  && candidate.value == WithDrivers(d, candidate.value.wing.drivers)
                  && candidate.value.wing.drivers
                     == WithSizeDriver(d.wing.drivers, plan.canonical, DriverValue(s, n))
                  && forall key :: CanonicalSizeKey(key) != Some(plan.canonical) ==>
                                     SizeValue(candidate.value.wing.drivers, key) == SizeValue(d.wing.drivers, key))
  {
    hide SolvePath, OutputIssues, SizeValue, WithSizeDriver, DriverValue, Snapshot, Apply;
    RangeIsSound(p, d, s);
    ValuesArePositive(p, d, s, n);
    var plan := PlanSweep(p, d, s).value;
    var value := DriverValue(s, n);
    if plan.canonical == ParamAllUpMass {
      SettingTheMass(p, d, value);
    } else {
      SettingAHeldDriver(p, d, s.driver, value);
      forall key
        ensures SizeValue(WithSizeDriver(d.wing.drivers, plan.canonical, value), key)
             == if CanonicalSizeKey(key) == Some(plan.canonical) then value else SizeValue(d.wing.drivers, key)
      {
        WritingOneDriver(d.wing.drivers, plan.canonical, value, key);
      }
    }
  }

  lemma SettingTheMass(p: Platform, d: Design, mass: Quantity)
    requires mass.dim == DimMass
    ensures Apply(p, d, FieldCommand(SetMass(mass, d.massBasis))) == Ok(d.(mass := mass))
  {
  }

  lemma SettingAHeldDriver(p: Platform, d: Design, key: ParameterKey, value: Quantity)
    requires CanonicalSizeKey(key).Some? && HoldsDriver(d.wing.drivers, CanonicalSizeKey(key).value)
    requires value.Positive(SizeDriverDimension(CanonicalSizeKey(key).value))
    ensures Apply(p, d, DriverCommand(SetDriver(key, value)))
         == Ok(WithDrivers(d, WithSizeDriver(d.wing.drivers, CanonicalSizeKey(key).value, value)))
  {
    hide DriverKeys, WithSizeDriver, ValidSwaps;
  }

  // ----- Samples ------------------------------------------------------------

  /** One candidate evaluated: the plotted output and the required checks. */
  function ReadCandidate(p: Platform, o: SweepOutput, driver: Quantity, candidate: Design): SweepSample {
    var flown :=
      if PerCase(o.subject) && Lookup(candidate.cases, CaseName, o.caseName).Some?
      then Lookup(candidate.cases, CaseName, o.caseName).value else NO_CASE;
    var reading := ReadSubject(p, candidate, o.subject, flown, SolveWing(p, candidate.wing));
    var (status, claimed) := Aggregated(Assessment(p, candidate));
    SweepSample(driver, reading.value, reading.status, status, claimed)
  }

  function Sample(p: Platform, plan: SweepPlan, n: int): SweepSample {
    match Candidate(p, plan, n)
    case Refused(issues) =>
      SweepSample(DriverValue(plan.settings, n), UNSET, StatusForIssues(issues), LimitUnknown, false)
    case Ok(candidate) => ReadCandidate(p, plan.settings.output, DriverValue(plan.settings, n), candidate)
  }

  predicate IsComputed(s: SweepSample) {
    s.status == ResultComputed
  }

  predicate Near(v: real, first: real) {
    Abs(v - first) <= TOLERANCE * Abs(first)
  }

  /** The first computed sample, or the length. */
  function FirstComputed(samples: seq<SweepSample>): (i: nat)
    ensures i <= |samples|
    ensures forall j :: 0 <= j < i ==> !IsComputed(samples[j])
    ensures i < |samples| ==> IsComputed(samples[i])
  {
    if samples == [] || IsComputed(samples[0]) then 0 else 1 + FirstComputed(samples[1..])
  }

  /** Every computed sample gave the output of the first. One point is not a flat
      line. */
  predicate Flat(samples: seq<SweepSample>) {
    var i := FirstComputed(samples);
    && (exists j :: i < j < |samples| && IsComputed(samples[j]))
    && forall j :: i < j < |samples| && IsComputed(samples[j]) ==> Near(samples[j].value.si, samples[i].value.si)
  }

  method InvariantOutput(samples: seq<SweepSample>) returns (flat: bool)
    ensures flat <==> Flat(samples)
  {
    var computed, first := 0, 0.0;
    ghost var i := FirstComputed(samples);
    for n := 0 to |samples|
      invariant computed >= 0
      invariant computed == 0 <==> n <= i
      invariant computed >= 1 ==> first == samples[i].value.si
      invariant computed >= 2 <==> exists j :: i < j < n && IsComputed(samples[j])
      invariant forall j :: i < j < n && IsComputed(samples[j]) ==> Near(samples[j].value.si, samples[i].value.si)
    {
      if samples[n].status == ResultComputed {
        computed := computed + 1;
        if computed == 1 {
          first := samples[n].value.si;
        } else if Abs(samples[n].value.si - first) > TOLERANCE * Abs(first) {
          assert !Near(samples[n].value.si, samples[i].value.si);
          return false;
        } else {
          assert IsComputed(samples[n]);
        }
      }
    }
    flat := computed >= 2;
  }

  /** A requirement boundary on the plotted output. */
  datatype SweepBound = SweepBound(name: string, value: Quantity, direction: BoundDirection, priority: Priority)

  predicate Plotted(r: Requirement, o: SweepOutput) {
    r.subject == o.subject && (PerCase(o.subject) ==> r.AppliesTo(o.caseName))
  }

  function BoundSide(r: Requirement, direction: BoundDirection): seq<SweepBound> {
    var value := EffectiveBound(r, direction);
    if value.Supplied() then [SweepBound(r.name, value, direction, r.priority)] else []
  }

  function BoundsOn(requirements: seq<Requirement>, o: SweepOutput): seq<SweepBound> {
    if requirements == [] then []
    else
      var r := requirements[|requirements| - 1];
      BoundsOn(requirements[..|requirements| - 1], o)
      + if Plotted(r, o) then BoundSide(r, BoundLower) + BoundSide(r, BoundUpper) else []
  }

  method ListBounds(requirements: seq<Requirement>, o: SweepOutput) returns (bounds: seq<SweepBound>)
    ensures bounds == BoundsOn(requirements, o)
  {
    hide BoundSide;
    bounds := [];
    for n := 0 to |requirements|
      invariant bounds == BoundsOn(requirements[..n], o)
    {
      assert requirements[..n + 1][..n] == requirements[..n];
      var r := requirements[n];
      assert bounds + [] == bounds;
      if Plotted(r, o) {
        var before := bounds;
        bounds := bounds + BoundSide(r, BoundLower);
        bounds := bounds + BoundSide(r, BoundUpper);
        assert bounds == before + (BoundSide(r, BoundLower) + BoundSide(r, BoundUpper));
      }
    }
    assert requirements[..|requirements|] == requirements;
  }

  /** The boundaries drawn are exactly the stated sides of the requirements on
      the plotted output. */
  lemma {:induction false} BoundsAreTheStatedSides(requirements: seq<Requirement>, o: SweepOutput, b: SweepBound)
    ensures b in BoundsOn(requirements, o)
       <==> exists r, direction :: r in requirements && Plotted(r, o) && b in BoundSide(r, direction)
  {
    hide BoundSide, Plotted;
    if requirements != [] {
      var front, last := requirements[..|requirements| - 1], requirements[|requirements| - 1];
      assert requirements == front + [last];
      BoundsAreTheStatedSides(front, o, b);
      if r: Requirement, direction: BoundDirection :| r in requirements && Plotted(r, o) && b in BoundSide(r, direction) {
        assert direction == BoundLower || direction == BoundUpper;
        assert r in front || r == last;
      }
    }
  }

  datatype SweepResult = SweepResult(
    settings: SweepSettings,
    fingerprint: string,
    snapshot: string,
    mode: SolveMode,
    held: seq<ParameterKey>,
    samples: seq<SweepSample>,
    current: SweepSample,
    bounds: seq<SweepBound>,
    flat: bool
  )

  function Samples(p: Platform, plan: SweepPlan, count: nat): seq<SweepSample> {
    if count == 0 then [] else Samples(p, plan, count - 1) + [Sample(p, plan, count - 1)]
  }

  function RunPlan(p: Platform, plan: SweepPlan): SweepResult {
    var samples := Samples(p, plan, if plan.settings.samples < 0 then 0 else plan.settings.samples);
    SweepResult(plan.settings, Fingerprint(p, plan.settings), plan.snapshot, plan.mode, plan.held, samples,
                ReadCandidate(p, plan.settings.output, CurrentValue(plan.design, plan.canonical), plan.design),
                BoundsOn(plan.design.requirements, plan.settings.output), Flat(samples))
  }

  /** Every sample in order, then the marker at the value the design holds. */
  method Run(p: Platform, plan: SweepPlan) returns (result: SweepResult)
    ensures result == RunPlan(p, plan)
  {
    hide Sample, ReadCandidate, Fingerprint, Flat, BoundsOn;
    var samples: seq<SweepSample> := [];
    var n := 0;
    while n < plan.settings.samples
      invariant 0 <= n && (n <= plan.settings.samples || n == 0)
      invariant samples == Samples(p, plan, n)
    {
      samples := samples + [Sample(p, plan, n)];
      n := n + 1;
    }
    var current := ReadCandidate(p, plan.settings.output, CurrentValue(plan.design, plan.canonical), plan.design);
    var bounds := ListBounds(plan.design.requirements, plan.settings.output);
    var flat := InvariantOutput(samples);
    result := SweepResult(plan.settings, Fingerprint(p, plan.settings), plan.snapshot, plan.mode, plan.held, samples,
                          current, bounds, flat);
  }

  lemma {:induction false} SamplesAre(p: Platform, plan: SweepPlan, count: nat)
    ensures |Samples(p, plan, count)| == count
    ensures forall n :: 0 <= n < count ==> Samples(p, plan, count)[n] == Sample(p, plan, n)
  {
    hide Sample;
    if count > 0 {
      SamplesAre(p, plan, count - 1);
    }
  }

  /** The design with the swept value moved and nothing else. */
  function Moved(d: Design, swept: ParameterKey, value: Quantity): Design {
    if swept == ParamAllUpMass then d.(mass := value) else WithDrivers(d, WithSizeDriver(d.wing.drivers, swept, value))
  }

  /** The sample is the plotted subject of a design, read in the plotted case if
      it has one, and the combined status of its required checks. */
  ghost predicate Shows(p: Platform, sample: SweepSample, o: SweepOutput, d: Design) {
    && (sample.feasibility, sample.hasRequired) == Aggregated(Assessment(p, d))
    && exists c ::
         && (PerCase(o.subject) ==> Lookup(d.cases, CaseName, o.caseName) == Some(c))
         && SubjectReading(sample.value, sample.status) == ReadSubject(p, d, o.subject, c, SolveWing(p, d.wing))
  }

  lemma ReadingShowsTheDesign(p: Platform, o: SweepOutput, driver: Quantity, d: Design)
    requires PerCase(o.subject) ==> Lookup(d.cases, CaseName, o.caseName).Some?
    ensures Shows(p, ReadCandidate(p, o, driver, d), o, d) && ReadCandidate(p, o, driver, d).driver == driver
  {
    hide ReadSubject, SolveWing, Assessment, Aggregated;
  }

  /** What a sweep shows: as many samples as asked for, and sample n is the plotted
      subject and the combined status of the design itself, moved to the n-th value
      and otherwise as it was; the marker is those of the design as it stands. */
  lemma EverySampleIsAJudgedDesign(p: Platform, d: Design, s: SweepSettings, plan: SweepPlan, n: int)
    requires p.Lawful() && PlanSweep(p, d, s) == Ok(plan) && 0 <= n < s.samples
    ensures |RunPlan(p, plan).samples| == s.samples && RunPlan(p, plan).snapshot == Snapshot(p, d)
    ensures RunPlan(p, plan).samples[n].driver == DriverValue(s, n)
    ensures Shows(p, RunPlan(p, plan).samples[n], s.output, Moved(d, plan.canonical, DriverValue(s, n)))
    ensures RunPlan(p, plan).current.driver == CurrentValue(d, plan.canonical)
    ensures Shows(p, RunPlan(p, plan).current, s.output, d)
  {
    hide Candidate, DriverValue, WithSizeDriver, Flat, BoundsOn, Fingerprint, Samples, CurrentValue, PlanSweep,
      ReadCandidate, Shows, Snapshot;
    SampledPlan(p, d, s);
    CandidatesAreAcceptedAndMoveOnlyTheDriver(p, d, s, n);
    SamplesAre(p, plan, s.samples);
    ReadingShowsTheDesign(p, s.output, DriverValue(s, n), Candidate(p, plan, n).value);
    ReadingShowsTheDesign(p, s.output, CurrentValue(d, plan.canonical), d);
  }

  lemma SampledPlan(p: Platform, d: Design, s: SweepSettings)
    requires PlanSweep(p, d, s).Ok?
    ensures var plan := PlanSweep(p, d, s).value;
            plan.settings == s && plan.design == d && plan.snapshot == Snapshot(p, d) && s.samples >= 2
    ensures PerCase(s.output.subject) ==> Lookup(d.cases, CaseName, s.output.caseName).Some?
  {
    hide SolvePath, OutputIssues, Snapshot;
    RangeIsSound(p, d, s);
    OutputIsListed(p, d, s);
  }

  lemma OutputIsListed(p: Platform, d: Design, s: SweepSettings)
    requires PlanSweep(p, d, s).Ok?
    ensures PerCase(s.output.subject) ==> Lookup(d.cases, CaseName, s.output.caseName).Some?
  {
    hide SolvePath, ResolveSweptDriver, Snapshot, RangeIssues;
  }
}
