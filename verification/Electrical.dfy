/** What the avionics, servos, sensors and payload draw from the battery. */
module Electrical {
  import opened Quantities
  import opened Definition
  import opened Reals
  import opened Recording

  datatype AuxiliaryContribution = AuxiliaryContribution(
    name: string,
    component: string,
    continuous: Quantity,
    peak: Quantity,
    side: RegulatorSide,
    evidence: EvidenceQuality,
    known: bool
  )

  datatype ElectricalBudget = ElectricalBudget(
    loads: seq<AuxiliaryContribution>,
    continuous: Quantity,
    peak: Quantity,
    evidence: EvidenceQuality,
    status: ResultStatus,
    complete: bool
  )

  function Rank(q: EvidenceQuality): nat {
    match q
    case EvidenceUnstated => 0
    case EvidenceAssumed => 1
    case EvidenceSimulated => 2
    case EvidenceMeasured => 3
  }

  /** A result is only as good as the worst evidence it rests on. */
  function Weaker(a: EvidenceQuality, b: EvidenceQuality): EvidenceQuality {
    if Rank(a) <= Rank(b) then a else b
  }

  /** A load-side figure becomes the draw the battery supplies. */
  function AuxiliaryPackSideDraw(load: Quantity, efficiency: real): Outcome<Quantity> {
    var issues := QuantityIssues(load, DimPower) + ScalarIssues(efficiency);
    if efficiency == 0.0 then Refused(issues)
    else if issues != [] || efficiency > 1.0 then
      Refused(issues + if efficiency > 1.0 then [IssueInvalid] else [])
    else Finish(load.si / efficiency, DimPower)
  }

  /** A pack-side figure passes through, whatever it is. */
  function PackSide(load: AuxiliaryLoad, figure: Quantity): Outcome<Quantity> {
    if load.side == RegulatorLoadSide then AuxiliaryPackSideDraw(figure, load.regulatorEfficiency) else Ok(figure)
  }

  function Contribution(load: AuxiliaryLoad): AuxiliaryContribution {
    var none := AuxiliaryContribution(load.name, load.component, UNSET, UNSET, load.side, load.evidence, false);
    if !load.continuous.Supplied() || load.side == RegulatorSideUnknown then none
    else
      match PackSide(load, load.continuous)
      case Refused(_) => none
      case Ok(continuous) =>
        if !load.peak.Supplied() then none.(continuous := continuous, known := true)
        else
          match PackSide(load, load.peak)
          case Refused(_) => none.(continuous := continuous)
          case Ok(peak) => none.(continuous := continuous, peak := peak, known := true)
  }

  // ----- The sums -----------------------------------------------------------

  datatype Draw = Continuous | Peak

  /** The figure a known load adds to a sum. An unstated peak adds nothing and is
      not recorded. */
  function Figure(load: AuxiliaryLoad, draw: Draw): Option<Quantity> {
    var c := Contribution(load);
    if !c.known then None
    else if draw == Continuous then Some(c.continuous)
    else if c.peak.Supplied() then Some(c.peak)
    else None
  }

  function FigurePower(load: AuxiliaryLoad, draw: Draw): real {
    match Figure(load, draw)
    case None => 0.0
    case Some(q) => if q.dim == DimPower then q.si else 0.0
  }

  function FigureIssues(load: AuxiliaryLoad, draw: Draw): Issues {
    match Figure(load, draw)
    case None => []
    case Some(q) => SignedIssues(q, DimPower)
  }

  function TotalDraw(loads: seq<AuxiliaryLoad>, draw: Draw): real {
    if loads == [] then 0.0
    else TotalDraw(loads[..|loads| - 1], draw) + FigurePower(loads[|loads| - 1], draw)
  }

  function DrawIssues(loads: seq<AuxiliaryLoad>, draw: Draw): Issues {
    if loads == [] then []
    else DrawIssues(loads[..|loads| - 1], draw) + FigureIssues(loads[|loads| - 1], draw)
  }

  /** The weakest evidence any contributing load rests on. */
  function WeakestEvidence(loads: seq<AuxiliaryLoad>): EvidenceQuality {
    if loads == [] then EvidenceMeasured
    else
      var last := loads[|loads| - 1];
      var before := WeakestEvidence(loads[..|loads| - 1]);
      if Contribution(last).known then Weaker(before, last.evidence) else before
  }

  function Contributions(loads: seq<AuxiliaryLoad>): seq<AuxiliaryContribution> {
    seq(|loads|, i requires 0 <= i < |loads| => Contribution(loads[i]))
  }

  predicate AllKnown(loads: seq<AuxiliaryLoad>) {
    forall i :: 0 <= i < |loads| ==> Contribution(loads[i]).known
  }

  predicate AnyKnown(loads: seq<AuxiliaryLoad>) {
    exists i :: 0 <= i < |loads| && Contribution(loads[i]).known
  }

  /** The two totals. A continuous total of zero is a statement and is kept; a
      peak is reported only when one was stated. */
  function Totals(loads: seq<AuxiliaryLoad>, open: ElectricalBudget): ElectricalBudget {
    if DrawIssues(loads, Continuous) != [] then open.(status := StatusForIssues(DrawIssues(loads, Continuous)))
    else
      open.(continuous := Quantity(TotalDraw(loads, Continuous), DimPower),
            peak := if TotalDraw(loads, Peak) > 0.0 && DrawIssues(loads, Peak) == []
                    then Quantity(TotalDraw(loads, Peak), DimPower) else UNSET,
            status := ResultComputed)
  }

  /** The auxiliary demand. An empty list is a missing answer, not a zero one. */
  function Budget(loads: seq<AuxiliaryLoad>): ElectricalBudget {
    var open := ElectricalBudget(Contributions(loads), UNSET, UNSET, WeakestEvidence(loads), ResultMissing,
                                 loads != [] && AllKnown(loads));
    if !AnyKnown(loads) then open else Totals(loads, open)
  }

  method FinishBudget(
    b: ElectricalBudget, continuous: Evaluation, peak: Evaluation, continuousTotal: real, peakTotal: real,
    ghost loads: seq<AuxiliaryLoad>) returns (r: ElectricalBudget)
    requires b.peak == UNSET
    requires continuous.issues == DrawIssues(loads, Continuous) && continuousTotal == TotalDraw(loads, Continuous)
    requires peak.issues == DrawIssues(loads, Peak) && peakTotal == TotalDraw(loads, Peak)
    ensures r == Totals(loads, b)
  {
    hide DrawIssues, TotalDraw;
    r := b;
    var result := continuous.FinishSigned(continuousTotal, DimPower);
    if result.Refused? {
      return r.(status := StatusForIssues(result.issues));
    }
    r := r.(continuous := result.value.result);
    if peakTotal > 0.0 {
      var peakResult := peak.FinishSigned(peakTotal, DimPower);
      if peakResult.Ok? {
        r := r.(peak := peakResult.value.result);
      }
    }
    r := r.(status := ResultComputed);
  }

  method ComputeBudget(loads: seq<AuxiliaryLoad>) returns (budget: ElectricalBudget)
    ensures budget == Budget(loads)
  {
    hide Contribution, Weaker, Totals, QuantityIssues, WeakestEvidence, DrawIssues, TotalDraw, AllKnown, AnyKnown;
    NothingListed();
    budget := ElectricalBudget([], UNSET, UNSET, EvidenceMeasured, ResultMissing, true);
    if loads == [] {
      return budget.(complete := false);
    }
    var continuous := new Evaluation();
    var peak := new Evaluation();
    var continuousTotal, peakTotal, contributing := 0.0, 0.0, 0;
    for n := 0 to |loads|
      invariant budget == ElectricalBudget(Contributions(loads[..n]), UNSET, UNSET, WeakestEvidence(loads[..n]),
                                           ResultMissing, AllKnown(loads[..n]))
      invariant contributing > 0 <==> AnyKnown(loads[..n])
      invariant contributing >= 0
      invariant continuous.issues == DrawIssues(loads[..n], Continuous)
      invariant peak.issues == DrawIssues(loads[..n], Peak)
      invariant continuousTotal == TotalDraw(loads[..n], Continuous)
      invariant peakTotal == TotalDraw(loads[..n], Peak)
    {
      assert loads[..n + 1] == loads[..n] + [loads[n]];
      var c := Contribution(loads[n]);
      AnyKnownExtends(loads, n);
      SumsExtend(loads, n);
      budget := budget.(loads := budget.loads + [c]);
      if !c.known {
        budget := budget.(complete := false);
      } else {
        contributing := contributing + 1;
        budget := budget.(evidence := Weaker(budget.evidence, loads[n].evidence));
        var p := continuous.TakeSigned(c.continuous, DimPower);
        continuousTotal := continuousTotal + p;
        if c.peak.Supplied() {
          var q := peak.TakeSigned(c.peak, DimPower);
          peakTotal := peakTotal + q;
        }
      }
    }
    assert loads[..|loads|] == loads;
    if contributing > 0 {
      budget := FinishBudget(budget, continuous, peak, continuousTotal, peakTotal, loads);
    }
  }

  lemma NothingListed()
    ensures AllKnown([]) && !AnyKnown([]) && WeakestEvidence([]) == EvidenceMeasured
    ensures forall draw :: DrawIssues([], draw) == [] && TotalDraw([], draw) == 0.0
  {
  }

  /** One more load, in every sum. */
  lemma SumsExtend(loads: seq<AuxiliaryLoad>, n: nat)
    requires n < |loads|
    ensures forall draw :: DrawIssues(loads[..n + 1], draw) == DrawIssues(loads[..n], draw) + FigureIssues(loads[n], draw)
    ensures forall draw :: TotalDraw(loads[..n + 1], draw) == TotalDraw(loads[..n], draw) + FigurePower(loads[n], draw)
    ensures WeakestEvidence(loads[..n + 1])
         == if Contribution(loads[n]).known then Weaker(WeakestEvidence(loads[..n]), loads[n].evidence)
            else WeakestEvidence(loads[..n])
  {
    hide Contribution, Weaker;
    assert loads[..n + 1][..n] == loads[..n];
  }

  lemma AnyKnownExtends(loads: seq<AuxiliaryLoad>, n: nat)
    requires n < |loads|
    ensures AnyKnown(loads[..n + 1]) <==> AnyKnown(loads[..n]) || Contribution(loads[n]).known
    ensures AllKnown(loads[..n + 1]) <==> AllKnown(loads[..n]) && Contribution(loads[n]).known
  {
    hide Contribution;
    var longer, shorter := loads[..n + 1], loads[..n];
    assert forall i :: 0 <= i < n ==> longer[i] == shorter[i];
    assert longer[n] == loads[n];
    if AnyKnown(shorter) {
      var i :| 0 <= i < |shorter| && Contribution(shorter[i]).known;
      assert Contribution(longer[i]).known;
    }
  }

  // ----- What a computed budget says ----------------------------------------

  /** The continuous draws at the battery of the loads that contributed. */
  function KnownDraws(contributions: seq<AuxiliaryContribution>): real {
    if contributions == [] then 0.0
    else
      var last := contributions[|contributions| - 1];
      KnownDraws(contributions[..|contributions| - 1]) + if last.known then last.continuous.si else 0.0
  }

  lemma {:induction false} TotalDrawIsTheKnownDraws(loads: seq<AuxiliaryLoad>)
    requires DrawIssues(loads, Continuous) == []
    ensures TotalDraw(loads, Continuous) == KnownDraws(Contributions(loads))
  {
    hide Contribution;
    if loads != [] {
      var front := loads[..|loads| - 1];
      assert Contributions(loads)[..|front|] == Contributions(front);
      TotalDrawIsTheKnownDraws(front);
    }
  }

  /** A computed continuous total is the sum of every contributing load's own
      pack-side draw, and the budget is complete exactly when every listed load
      is one of them. */
  lemma ComputedBudgetCountsEveryKnownDraw(loads: seq<AuxiliaryLoad>)
    requires Budget(loads).status == ResultComputed
    ensures var b := Budget(loads);
            && b.continuous == Quantity(KnownDraws(b.loads), DimPower)
            && |b.loads| == |loads| > 0
            && (b.complete <==> forall i :: 0 <= i < |b.loads| ==> b.loads[i].known)
  {
    hide Contribution, TotalDraw, DrawIssues, WeakestEvidence, KnownDraws;
    TotalDrawIsTheKnownDraws(loads);
    var b := Budget(loads);
    assert forall i :: 0 <= i < |loads| ==> b.loads[i] == Contribution(loads[i]);
  }

  /** A regulator's loss is counted once: through its efficiency the draw
      at the battery is the figure measured behind it, and a pack-side figure is untouched. */
  lemma RegulatorLossIsCountedOnce(load: AuxiliaryLoad)
    requires Contribution(load).known
    ensures load.side == RegulatorPackSide ==> Contribution(load).continuous == load.continuous
    ensures load.side == RegulatorLoadSide ==>
              && 0.0 < load.regulatorEfficiency <= 1.0
              && Contribution(load).continuous.si * load.regulatorEfficiency == load.continuous.si
              && Contribution(load).continuous.si >= load.continuous.si
  {
    if load.side == RegulatorLoadSide {
      var p, eta := load.continuous.si, load.regulatorEfficiency;
      DivMul(p, eta);
      LessThanWhole(p, eta, p / eta);
    }
  }

  lemma LessThanWhole(p: real, eta: real, drawn: real)
    requires p > 0.0 && 0.0 < eta <= 1.0 && drawn * eta == p
    ensures drawn >= p
  {
    Scale(p, drawn, eta);
    Scale(eta, 1.0, p);
    assert p * eta == eta * p;
  }

  // ----- What one load contributes ------------------------------------------

  /** The figure can be carried to the battery: measured there, or a positive power
      behind a regulator of known efficiency. */
  predicate CanBeCarried(load: AuxiliaryLoad, figure: Quantity) {
    match load.side
    case RegulatorPackSide => true
    case RegulatorLoadSide =>
      figure.dim == DimPower && figure.si > 0.0 && 0.0 < load.regulatorEfficiency <= 1.0
    case RegulatorSideUnknown => false
  }

  /** What the battery gives for it. */
  predicate IsCarried(load: AuxiliaryLoad, figure: Quantity, drawn: Quantity) {
    if load.side == RegulatorLoadSide then
      drawn.dim == DimPower && drawn.si * load.regulatorEfficiency == figure.si
    else drawn == figure
  }

  lemma FiguresAreCarried(load: AuxiliaryLoad, figure: Quantity)
    requires load.side != RegulatorSideUnknown
    ensures PackSide(load, figure).Ok? <==> CanBeCarried(load, figure)
    ensures PackSide(load, figure).Ok? ==> IsCarried(load, figure, PackSide(load, figure).value)
  {
    if load.side == RegulatorLoadSide && CanBeCarried(load, figure) {
      DivPositive(figure.si, load.regulatorEfficiency);
      DivMul(figure.si, load.regulatorEfficiency);
    }
  }

  /** A load is known exactly when its continuous figure is stated and carried, and
      its peak, if it states one, is carried too; each figure is then carried on its
      own, and a continuous one is kept beside a peak that is not. */
  lemma AContributionReadsItsLoad(load: AuxiliaryLoad)
    ensures var c := Contribution(load);
            && c.name == load.name && c.component == load.component && c.side == load.side && c.evidence == load.evidence
            && (c.known <==>
                  && load.continuous != UNSET && CanBeCarried(load, load.continuous)
                  && (load.peak != UNSET ==> CanBeCarried(load, load.peak)))
            && (if load.continuous != UNSET && CanBeCarried(load, load.continuous)
                then IsCarried(load, load.continuous, c.continuous) else c.continuous == UNSET)
            && (if c.known && load.peak != UNSET then IsCarried(load, load.peak, c.peak) else c.peak == UNSET)
  {
    hide PackSide, CanBeCarried, IsCarried;
    if load.side == RegulatorSideUnknown {
      NothingIsCarried(load);
    } else {
      FiguresAreCarried(load, load.continuous);
      FiguresAreCarried(load, load.peak);
    }
  }

  lemma NothingIsCarried(load: AuxiliaryLoad)
    requires load.side == RegulatorSideUnknown
    ensures !CanBeCarried(load, load.continuous)
  {
  }

  // ----- Peaks and evidence -------------------------------------------------

  /** The stated peaks at the battery of the loads that contributed. */
  function KnownPeaks(contributions: seq<AuxiliaryContribution>): real {
    if contributions == [] then 0.0
    else
      var last := contributions[|contributions| - 1];
      KnownPeaks(contributions[..|contributions| - 1]) + if last.known then last.peak.si else 0.0
  }

  /** Every stated peak of a contributing load is a power. */
  predicate PeaksArePowers(contributions: seq<AuxiliaryContribution>) {
    forall i :: 0 <= i < |contributions| && contributions[i].known ==>
                  contributions[i].peak == UNSET || contributions[i].peak.dim == DimPower
  }

  lemma {:induction false} PeaksAreTotalled(loads: seq<AuxiliaryLoad>)
    ensures DrawIssues(loads, Peak) == [] <==> PeaksArePowers(Contributions(loads))
    ensures DrawIssues(loads, Peak) == [] ==> TotalDraw(loads, Peak) == KnownPeaks(Contributions(loads))
  {
    hide Contribution;
    if loads != [] {
      var front, all := loads[..|loads| - 1], Contributions(loads);
      assert all[..|front|] == Contributions(front);
      PeaksAreTotalled(front);
      assert forall i :: 0 <= i < |front| ==> Contributions(front)[i] == all[i];
      var last := all[|front|];
      assert PeaksArePowers(all)
        <==> PeaksArePowers(Contributions(front)) && (last.known ==> last.peak == UNSET || last.peak.dim == DimPower);
    }
  }

  /** The evidence is no better than any contributing load's. */
  lemma {:induction false} EvidenceIsTheWeakest(loads: seq<AuxiliaryLoad>)
    ensures forall i :: 0 <= i < |loads| && Contribution(loads[i]).known ==>
              Rank(WeakestEvidence(loads)) <= Rank(loads[i].evidence)
    ensures AnyKnown(loads) ==>
              exists i :: 0 <= i < |loads| && Contribution(loads[i]).known && loads[i].evidence == WeakestEvidence(loads)
    ensures !AnyKnown(loads) ==> WeakestEvidence(loads) == EvidenceMeasured
  {
    hide Contribution;
    if loads != [] {
      var front, n := loads[..|loads| - 1], |loads| - 1;
      EvidenceIsTheWeakest(front);
      assert forall i :: 0 <= i < n ==> front[i] == loads[i];
      if AnyKnown(front) {
        var i :| 0 <= i < |front| && Contribution(front[i]).known && front[i].evidence == WeakestEvidence(front);
        assert Contribution(loads[i]).known && loads[i].evidence == WeakestEvidence(front);
      }
      if Contribution(loads[n]).known && !AnyKnown(front) {
        RankIsOne(WeakestEvidence(loads), loads[n].evidence);
      }
    }
  }

  lemma RankIsOne(a: EvidenceQuality, b: EvidenceQuality)
    ensures Rank(a) == Rank(b) ==> a == b
    ensures Rank(b) <= Rank(EvidenceMeasured)
  {
  }

  /** A computed budget's peak is the sum of the stated peaks, where they are powers
      and come to something, and its evidence is the weakest of the loads that
      contributed. */
  lemma ComputedBudgetPeakAndEvidence(loads: seq<AuxiliaryLoad>)
    requires Budget(loads).status == ResultComputed
    ensures var b := Budget(loads);
            && b.peak == (if PeaksArePowers(b.loads) && KnownPeaks(b.loads) > 0.0
                          then Quantity(KnownPeaks(b.loads), DimPower) else UNSET)
            && (forall i :: 0 <= i < |loads| && b.loads[i].known ==> Rank(b.evidence) <= Rank(loads[i].evidence))
            && exists i :: 0 <= i < |loads| && b.loads[i].known && loads[i].evidence == b.evidence
  {
    hide Contribution, TotalDraw, DrawIssues, WeakestEvidence, KnownPeaks, PeaksArePowers, Rank;
    PeaksAreTotalled(loads);
    EvidenceIsTheWeakest(loads);
    var b := Budget(loads);
    assert forall i :: 0 <= i < |loads| ==> b.loads[i] == Contribution(loads[i]);
  }

  /** A budget is computed exactly when some load contributes and every contributing
      continuous draw is a power. */
  lemma ABudgetIsComputedExactly(loads: seq<AuxiliaryLoad>)
    ensures Budget(loads).status == ResultComputed
       <==> && (exists i :: 0 <= i < |loads| && Contribution(loads[i]).known)
            && forall i :: 0 <= i < |loads| && Contribution(loads[i]).known ==>
                             Contribution(loads[i]).continuous.dim == DimPower
  {
    hide Contribution, TotalDraw, DrawIssues, WeakestEvidence;
    DrawsArePowers(loads);
  }

  lemma {:induction false} DrawsArePowers(loads: seq<AuxiliaryLoad>)
    ensures DrawIssues(loads, Continuous) == []
       <==> forall i :: 0 <= i < |loads| && Contribution(loads[i]).known ==>
                          Contribution(loads[i]).continuous.dim == DimPower
  {
    hide Contribution;
    if loads != [] {
      var front := loads[..|loads| - 1];
      DrawsArePowers(front);
      assert forall i :: 0 <= i < |front| ==> front[i] == loads[i];
    }
  }
}
