/** The area limits a design states, all of them, against the ones the upper
    bound reads: every required area maximum, but of the span maxima and the
    aspect-ratio minima only the first. */
module StatedLimits {
  import opened Quantities
  import opened Definition
  import opened Reals
  import opened Lift
  import opened Planforms
  import opened Wings
  import opened MassBalance
  import opened Sizing
  import opened Feasibility
  import Sorting

  predicate CapsSpan(r: Requirement) {
    States(r, SubjectSpan, BoundUpper)
  }

  predicate FloorsAspect(r: Requirement) {
    States(r, SubjectAspectRatio, BoundLower)
  }

  function MaximumOf(r: Requirement): real {
    r.EffectiveMaximum().si
  }

  function MinimumOf(r: Requirement): real {
    r.EffectiveMinimum().si
  }

  predicate WithinSpans(d: Design, b: real) {
    forall i :: 0 <= i < |d.requirements| && CapsSpan(d.requirements[i]) ==> b <= MaximumOf(d.requirements[i])
  }

  predicate AboveAspects(d: Design, b: real, s: real)
    requires s > 0.0
  {
    forall i :: 0 <= i < |d.requirements| && FloorsAspect(d.requirements[i]) ==>
                  MinimumOf(d.requirements[i]) <= AspectOf(b, s)
  }

  /** With a span it may have, a wing of this area meets every required area
      maximum, span maximum and aspect-ratio minimum. */
  ghost predicate Allowed(d: Design, s: real) {
    && s > 0.0 && WithinAreaMaxima(d, s)
    && exists b: real :: b > 0.0 && WithinSpans(d, b) && AboveAspects(d, b, s)
  }

  /** What the upper bound lets through; an unknown bound limits nothing. */
  predicate UpperAllows(d: Design, s: real) {
    AreaUpperBound(d).known ==> s <= AreaUpperBound(d).value.si
  }

  /** The upper bound is what the stated limits allow together. */
  ghost predicate BoundIsExact(d: Design) {
    forall s: real :: s > 0.0 ==> (UpperAllows(d, s) <==> Allowed(d, s))
  }

  // ----- What the bound lets through ----------------------------------------

  lemma UpperAllowsWhatItReads(d: Design, s: real)
    ensures UpperAllows(d, s) <==> WithinAreaMaxima(d, s) && BelowPair(d, s)
  {
    hide RequiredBound, Square, Caps, Best;
    if AreaUpperBound(d).known {
      UpperBoundIsWhatTheMaximaAllow(d, s);
    } else {
      var stated, pair := MaximumContributions(d.requirements, SubjectWingArea), PairContribution(d);
      MaximumContributionsAre(d.requirements, SubjectWingArea, s);
      SomethingKnownIsBest(stated, pair, BoundUpper);
    }
  }

  lemma SomethingKnownIsBest(a: seq<BoundContribution>, b: seq<BoundContribution>, direction: BoundDirection)
    requires AllKnownIn(a) && AllKnownIn(b)
    ensures Best(a + b, direction).None? ==> a == [] && b == []
  {
    hide Best;
    var cs := a + b;
    BestIsTheExtreme(cs, direction);
    assert AllKnownIn(cs);
    assert cs == [] || cs[0].known;
  }

  /** The upper bound is attained: by a required area maximum or by the pair. */
  lemma UpperBoundIsAttained(d: Design)
    requires AreaUpperBound(d).known
    ensures (exists i :: 0 <= i < |d.requirements| && Caps(d.requirements[i], SubjectWingArea)
                         && MaximumOf(d.requirements[i]) == AreaUpperBound(d).value.si)
            || (SpanAndAspect(d).Some?
                && AreaUpperBound(d).value.si
                   == Square(SpanAndAspect(d).value.0.si) / SpanAndAspect(d).value.1.si)
  {
    hide RequiredBound, Square, Caps, Best, MaximumContributions;
    var stated, pair := MaximumContributions(d.requirements, SubjectWingArea), PairContribution(d);
    var cs, upper := stated + pair, AreaUpperBound(d).value.si;
    BestIsTheExtreme(cs, BoundUpper);
    var k :| 0 <= k < |cs| && cs[k].known && cs[k].value.si == upper;
    if k < |stated| {
      MaximaAre(d.requirements, SubjectWingArea, cs[k]);
      assert cs[k] in stated;
    }
  }

  /** The limits the pair was read from are two of the stated ones. */
  lemma ThePairIsStated(d: Design) returns (i: nat, j: nat)
    requires SpanAndAspect(d).Some?
    ensures i < |d.requirements| && CapsSpan(d.requirements[i])
            && MaximumOf(d.requirements[i]) == SpanAndAspect(d).value.0.si
    ensures j < |d.requirements| && FloorsAspect(d.requirements[j])
            && MinimumOf(d.requirements[j]) == SpanAndAspect(d).value.1.si > 0.0
  {
    hide RequiredBound, States;
    TheFirstStatementIsRead(d.requirements, SubjectSpan, BoundUpper);
    TheFirstStatementIsRead(d.requirements, SubjectAspectRatio, BoundLower);
    i :| FirstStatement(d.requirements, SubjectSpan, BoundUpper, i)
         && RequiredBound(d.requirements, SubjectSpan, BoundUpper)
            == Some((d.requirements[i].name, EffectiveBound(d.requirements[i], BoundUpper)));
    j :| FirstStatement(d.requirements, SubjectAspectRatio, BoundLower, j)
         && RequiredBound(d.requirements, SubjectAspectRatio, BoundLower)
            == Some((d.requirements[j].name, EffectiveBound(d.requirements[j], BoundLower)));
  }

  // ----- What the stated limits let through ---------------------------------

  predicate SpansArePositive(d: Design) {
    forall i :: 0 <= i < |d.requirements| && CapsSpan(d.requirements[i]) ==> MaximumOf(d.requirements[i]) > 0.0
  }

  /** No wider than a*s <= b^2, cross-multiplied. */
  predicate FitsPair(aspect: real, s: real, span: real) {
    aspect * s <= Square(span)
  }

  /** The area fits every span maximum with every positive aspect-ratio minimum. */
  predicate FitsEveryPair(d: Design, s: real) {
    forall i, j :: 0 <= i < |d.requirements| && 0 <= j < |d.requirements|
                   && CapsSpan(d.requirements[i]) && FloorsAspect(d.requirements[j]) && MinimumOf(d.requirements[j]) > 0.0 ==>
                     FitsPair(MinimumOf(d.requirements[j]), s, MaximumOf(d.requirements[i]))
  }

  lemma AspectFits(aspect: real, b: real, s: real)
    requires s > 0.0
    ensures aspect <= AspectOf(b, s) <==> FitsPair(aspect, s, b)
  {
    hide Square;
    DivMul(Square(b), s);
    Scale(aspect, AspectOf(b, s), s);
  }

  lemma SmallerFits(aspect: real, s: real, t: real, span: real)
    requires aspect > 0.0 && s <= t && FitsPair(aspect, t, span)
    ensures FitsPair(aspect, s, span)
  {
    Scale(s, t, aspect);
  }

  lemma WiderFits(aspect: real, s: real, b: real, wider: real)
    requires 0.0 < b <= wider && FitsPair(aspect, s, b)
    ensures FitsPair(aspect, s, wider)
  {
    hide Square;
    SquareMonotone(b, wider);
  }

  lemma LowerAspectFits(aspect: real, higher: real, s: real, b: real)
    requires s > 0.0 && aspect <= higher && FitsPair(higher, s, b)
    ensures FitsPair(aspect, s, b)
  {
    Scale(aspect, higher, s);
  }

  lemma NoAspectAlwaysFits(aspect: real, s: real, b: real)
    requires s > 0.0 && aspect <= 0.0
    ensures FitsPair(aspect, s, b)
  {
    Scale(aspect, 0.0, s);
  }

  /** Among the requirements that state a bound one is the tightest. */
  lemma {:induction false} Tightest(rs: seq<Requirement>, subject: RequirementSubject, direction: BoundDirection) returns (k: nat)
    ensures (exists i :: 0 <= i < |rs| && States(rs[i], subject, direction)) ==>
              && k < |rs| && States(rs[k], subject, direction)
              && forall i :: 0 <= i < |rs| && States(rs[i], subject, direction) ==>
                   !Better(direction, EffectiveBound(rs[i], direction).si, EffectiveBound(rs[k], direction).si)
  {
    hide States, EffectiveBound;
    k := 0;
    if rs != [] {
      var n := |rs| - 1;
      k := Tightest(rs[..n], subject, direction);
      assert forall i :: 0 <= i < n ==> rs[..n][i] == rs[i];
      if States(rs[n], subject, direction) {
        if (forall i :: 0 <= i < n ==> !States(rs[i], subject, direction))
           || Better(direction, EffectiveBound(rs[n], direction).si, EffectiveBound(rs[k], direction).si) {
          k := n;
        }
      }
    }
  }

  /** A span that suits an area fitting every pair: the least span maximum, or
      one large enough when there is none. */
  lemma SomeSpanSuits(d: Design, s: real) returns (b: real)
    requires s > 0.0 && SpansArePositive(d) && FitsEveryPair(d, s)
    ensures b > 0.0 && WithinSpans(d, b) && AboveAspects(d, b, s)
  {
    hide Square, AspectOf, States, FitsPair;
    var rs := d.requirements;
    var i := Tightest(rs, SubjectSpan, BoundUpper);
    var j := Tightest(rs, SubjectAspectRatio, BoundLower);
    if exists k :: 0 <= k < |rs| && CapsSpan(rs[k]) {
      b := MaximumOf(rs[i]);
    } else if exists k :: 0 <= k < |rs| && FloorsAspect(rs[k]) {
      b := WideEnough(MinimumOf(rs[j]), s);
    } else {
      b := 1.0;
    }
    forall k | 0 <= k < |rs| && FloorsAspect(rs[k])
      ensures MinimumOf(rs[k]) <= AspectOf(b, s)
    {
      if MinimumOf(rs[k]) <= 0.0 {
        NoAspectAlwaysFits(MinimumOf(rs[k]), s, b);
      } else if !exists l :: 0 <= l < |rs| && CapsSpan(rs[l]) {
        LowerAspectFits(MinimumOf(rs[k]), MinimumOf(rs[j]), s, b);
      }
      AspectFits(MinimumOf(rs[k]), b, s);
    }
  }

  lemma WideEnough(aspect: real, s: real) returns (b: real)
    requires s > 0.0
    ensures b > 0.0 && FitsPair(aspect, s, b)
  {
    var need := aspect * s;
    b := if need <= 1.0 then 1.0 else need;
    Scale(1.0, b, b);
  }

  /** The stated limits allow exactly the areas within every area maximum that fit
      every pair, once every span maximum is a length at all. */
  lemma AllowedIsFittingEveryPair(d: Design, s: real)
    requires s > 0.0
    ensures Allowed(d, s) <==> WithinAreaMaxima(d, s) && SpansArePositive(d) && FitsEveryPair(d, s)
  {
    hide WithinAreaMaxima, AspectOf, FitsPair, States;
    var rs := d.requirements;
    if Allowed(d, s) {
      var b: real :| b > 0.0 && WithinSpans(d, b) && AboveAspects(d, b, s);
      forall i, j | 0 <= i < |rs| && 0 <= j < |rs| && CapsSpan(rs[i]) && FloorsAspect(rs[j]) && MinimumOf(rs[j]) > 0.0
        ensures FitsPair(MinimumOf(rs[j]), s, MaximumOf(rs[i]))
      {
        AspectFits(MinimumOf(rs[j]), b, s);
        WiderFits(MinimumOf(rs[j]), s, b, MaximumOf(rs[i]));
      }
    }
    if WithinAreaMaxima(d, s) && SpansArePositive(d) && FitsEveryPair(d, s) {
      var b := SomeSpanSuits(d, s);
    }
  }

  /** A smaller area is allowed wherever a larger one is. */
  lemma AllowedDownwards(d: Design, s: real, t: real)
    requires 0.0 < s <= t && Allowed(d, t)
    ensures Allowed(d, s)
  {
    hide FitsPair, States, Caps, Allowed;
    AllowedIsFittingEveryPair(d, t);
    AllowedIsFittingEveryPair(d, s);
    var rs := d.requirements;
    forall i, j | 0 <= i < |rs| && 0 <= j < |rs| && CapsSpan(rs[i]) && FloorsAspect(rs[j]) && MinimumOf(rs[j]) > 0.0
      ensures FitsPair(MinimumOf(rs[j]), s, MaximumOf(rs[i]))
    {
      SmallerFits(MinimumOf(rs[j]), s, t, MaximumOf(rs[i]));
    }
  }

  /** The bound never refuses what the stated limits allow. */
  lemma UpperBoundRefusesNothingAllowed(d: Design, s: real)
    requires Allowed(d, s)
    ensures UpperAllows(d, s)
  {
    hide WithinAreaMaxima, SpanAndAspect, States, UpperAllows, Square;
    AllowedIsFittingEveryPair(d, s);
    UpperAllowsWhatItReads(d, s);
    if SpanAndAspect(d).Some? {
      var i, j := ThePairIsStated(d);
      PairFits(MinimumOf(d.requirements[j]), s, MaximumOf(d.requirements[i]));
    }
  }

  lemma PairFits(aspect: real, s: real, span: real)
    requires aspect > 0.0
    ensures FitsPair(aspect, s, span) <==> s <= Square(span) / aspect
  {
    hide Square;
    DivMul(Square(span), aspect);
    Scale(s, Square(span) / aspect, aspect);
  }

  // ----- When the bound is exact --------------------------------------------

  /** No span maximum, or no positive aspect-ratio minimum. */
  predicate NothingToPair(d: Design) {
    || (forall i :: 0 <= i < |d.requirements| ==> !CapsSpan(d.requirements[i]))
    || (forall j :: 0 <= j < |d.requirements| && FloorsAspect(d.requirements[j]) ==> MinimumOf(d.requirements[j]) <= 0.0)
  }

  /** The span maximum read first is the least stated, and the aspect-ratio
      minimum read first is the greatest. */
  predicate FirstPairIsTightest(d: Design) {
    && SpanAndAspect(d).Some?
    && WithinSpans(d, SpanAndAspect(d).value.0.si)
    && forall j :: 0 <= j < |d.requirements| && FloorsAspect(d.requirements[j]) ==>
                     MinimumOf(d.requirements[j]) <= SpanAndAspect(d).value.1.si
  }

  /** A required area maximum that fits every pair. */
  predicate AnAreaMaximumBindsBelow(d: Design) {
    exists k :: 0 <= k < |d.requirements| && Caps(d.requirements[k], SubjectWingArea)
                && FitsEveryPair(d, MaximumOf(d.requirements[k]))
  }

  /** A required area maximum that leaves no area. */
  predicate AnAreaMaximumForbidsAll(d: Design) {
    exists k :: 0 <= k < |d.requirements| && Caps(d.requirements[k], SubjectWingArea) && MaximumOf(d.requirements[k]) <= 0.0
  }

  predicate TheFirstSpanIsZero(d: Design) {
    SpanAndAspect(d).Some? && SpanAndAspect(d).value.0.si == 0.0
  }

  /** What a builder can read off the requirements before asking for the bound. */
  predicate FirstIsEnough(d: Design) {
    if SpansArePositive(d) then NothingToPair(d) || FirstPairIsTightest(d) || AnAreaMaximumBindsBelow(d)
    else AnAreaMaximumForbidsAll(d) || TheFirstSpanIsZero(d)
  }

  lemma NothingPairedIsExact(d: Design, s: real)
    requires s > 0.0 && SpansArePositive(d) && NothingToPair(d)
    ensures UpperAllows(d, s) ==> Allowed(d, s)
  {
    hide WithinAreaMaxima, BelowPair, FitsPair, Allowed, UpperAllows;
    AllowedIsFittingEveryPair(d, s);
    UpperAllowsWhatItReads(d, s);
  }

  lemma TightestPairIsExact(d: Design, s: real)
    requires s > 0.0 && SpansArePositive(d) && FirstPairIsTightest(d)
    ensures UpperAllows(d, s) ==> Allowed(d, s)
  {
    hide WithinAreaMaxima, States, FitsPair, Square, SpanAndAspect, Allowed, UpperAllows;
    AllowedIsFittingEveryPair(d, s);
    UpperAllowsWhatItReads(d, s);
    if UpperAllows(d, s) {
      var f, g := ThePairIsStated(d);
      var rs := d.requirements;
      var b, a := MaximumOf(rs[f]), MinimumOf(rs[g]);
      PairFits(a, s, b);
      forall i, j | 0 <= i < |rs| && 0 <= j < |rs| && CapsSpan(rs[i]) && FloorsAspect(rs[j]) && MinimumOf(rs[j]) > 0.0
        ensures FitsPair(MinimumOf(rs[j]), s, MaximumOf(rs[i]))
      {
        LowerAspectFits(MinimumOf(rs[j]), a, s, b);
        WiderFits(MinimumOf(rs[j]), s, b, MaximumOf(rs[i]));
      }
    }
  }

  lemma BindingMaximumIsExact(d: Design, s: real)
    requires s > 0.0 && SpansArePositive(d) && AnAreaMaximumBindsBelow(d)
    ensures UpperAllows(d, s) ==> Allowed(d, s)
  {
    hide States, FitsPair, BelowPair, Caps, Allowed, UpperAllows;
    AllowedIsFittingEveryPair(d, s);
    UpperAllowsWhatItReads(d, s);
    if UpperAllows(d, s) {
      var rs := d.requirements;
      var k :| 0 <= k < |rs| && Caps(rs[k], SubjectWingArea) && FitsEveryPair(d, MaximumOf(rs[k]));
      forall i, j | 0 <= i < |rs| && 0 <= j < |rs| && CapsSpan(rs[i]) && FloorsAspect(rs[j]) && MinimumOf(rs[j]) > 0.0
        ensures FitsPair(MinimumOf(rs[j]), s, MaximumOf(rs[i]))
      {
        SmallerFits(MinimumOf(rs[j]), s, MaximumOf(rs[k]), MaximumOf(rs[i]));
      }
    }
  }

  lemma NothingLeftIsExact(d: Design, s: real)
    requires s > 0.0 && (AnAreaMaximumForbidsAll(d) || TheFirstSpanIsZero(d))
    ensures !UpperAllows(d, s)
  {
    hide Caps, SpanAndAspect, UpperAllows;
    UpperAllowsWhatItReads(d, s);
    if TheFirstSpanIsZero(d) {
      assert Square(0.0) == 0.0;
    }
  }

  /** An area beyond a pair, when the bound is unknown. */
  lemma PairsRunOut(aspect: real, span: real) returns (s: real)
    requires aspect > 0.0
    ensures s > 0.0 && !FitsPair(aspect, s, span)
  {
    hide Square;
    s := Square(span) / aspect + 1.0;
    DivMul(Square(span), aspect);
    PairFits(aspect, s, span);
    if span != 0.0 {
      DivPositive(Square(span), aspect);
    }
  }

  /** If the bound admits an area, an area it admits and the stated limits do not
      shows it is not exact; so an exact bound is known and itself allowed. */
  lemma ExactBoundIsAllowed(d: Design)
    requires BoundIsExact(d) && SpansArePositive(d) && !NothingToPair(d)
    ensures AreaUpperBound(d).known
    ensures AreaUpperBound(d).value.si > 0.0 ==> FitsEveryPair(d, AreaUpperBound(d).value.si)
  {
    hide FitsPair, States, Allowed, AreaUpperBound;
    var rs := d.requirements;
    var i :| 0 <= i < |rs| && CapsSpan(rs[i]);
    var j :| 0 <= j < |rs| && FloorsAspect(rs[j]) && MinimumOf(rs[j]) > 0.0;
    var s := PairsRunOut(MinimumOf(rs[j]), MaximumOf(rs[i]));
    AllowedIsFittingEveryPair(d, s);
    assert UpperAllows(d, s) <==> Allowed(d, s);
    var upper := AreaUpperBound(d).value.si;
    if upper > 0.0 {
      AllowedIsFittingEveryPair(d, upper);
      assert UpperAllows(d, upper) <==> Allowed(d, upper);
    }
  }

  lemma NonpositiveMaximumFits(d: Design, s: real)
    requires s <= 0.0
    ensures FitsEveryPair(d, s)
  {
    hide States;
    var rs := d.requirements;
    forall i, j | 0 <= i < |rs| && 0 <= j < |rs| && CapsSpan(rs[i]) && FloorsAspect(rs[j]) && MinimumOf(rs[j]) > 0.0
      ensures FitsPair(MinimumOf(rs[j]), s, MaximumOf(rs[i]))
    {
      Scale(s, 0.0, MinimumOf(rs[j]));
    }
  }

  /** When the pair itself attains a bound that fits every pair, it was the
      tightest. */
  lemma AttainingPairIsTightest(d: Design)
    requires SpansArePositive(d) && SpanAndAspect(d).Some?
    requires FitsEveryPair(d, Square(SpanAndAspect(d).value.0.si) / SpanAndAspect(d).value.1.si)
    ensures FirstPairIsTightest(d)
  {
    hide States, FitsPair, Square, SpanAndAspect;
    var f, g := ThePairIsStated(d);
    var rs := d.requirements;
    var b, a := MaximumOf(rs[f]), MinimumOf(rs[g]);
    forall i | 0 <= i < |rs| && CapsSpan(rs[i])
      ensures b <= MaximumOf(rs[i])
    {
      PairAtItsLimit(a, b, a, MaximumOf(rs[i]));
    }
    forall j | 0 <= j < |rs| && FloorsAspect(rs[j])
      ensures MinimumOf(rs[j]) <= a
    {
      if MinimumOf(rs[j]) > 0.0 {
        PairAtItsLimit(a, b, MinimumOf(rs[j]), b);
      }
    }
  }

  lemma PairAtItsLimit(a: real, b: real, aspect: real, span: real)
    requires a > 0.0 && b > 0.0 && span > 0.0 && FitsPair(aspect, Square(b) / a, span)
    ensures aspect == a ==> b <= span
    ensures span == b ==> aspect <= a
  {
    hide Square;
    DivMul(Square(b), a);
    DivPositive(Square(b), a);
    SquareMonotone(b, span);
    Scale(aspect, a, Square(b) / a);
  }

  /** Reading the first span maximum and the first aspect-ratio minimum gives what
      all the stated limits allow exactly when the first pair is the tightest, or
      there is nothing to pair, or an area maximum binds below every pair; and,
      where a span maximum leaves no span at all, exactly when the bound leaves no
      area either. */
  lemma TheUpperBoundIsExactExactlyWhenTheFirstIsEnough(d: Design)
    ensures BoundIsExact(d) <==> FirstIsEnough(d)
  {
    hide UpperAllows, Allowed, NothingToPair, FirstPairIsTightest, AnAreaMaximumBindsBelow, AnAreaMaximumForbidsAll,
      TheFirstSpanIsZero, SpansArePositive;
    if FirstIsEnough(d) {
      forall s: real | s > 0.0
        ensures UpperAllows(d, s) <==> Allowed(d, s)
      {
        FirstIsEnoughFor(d, s);
      }
    }
    if BoundIsExact(d) {
      if SpansArePositive(d) {
        ExactMeansFirstIsEnough(d);
      } else {
        ExactMeansNothingIsLeft(d);
      }
    }
  }

  lemma FirstIsEnoughFor(d: Design, s: real)
    requires s > 0.0 && FirstIsEnough(d)
    ensures UpperAllows(d, s) <==> Allowed(d, s)
  {
    hide UpperAllows, Allowed, NothingToPair, FirstPairIsTightest, AnAreaMaximumBindsBelow, AnAreaMaximumForbidsAll,
      TheFirstSpanIsZero, SpansArePositive, WithinAreaMaxima, FitsEveryPair;
    if Allowed(d, s) {
      UpperBoundRefusesNothingAllowed(d, s);
    }
    AllowedIsFittingEveryPair(d, s);
    if !SpansArePositive(d) {
      NothingLeftIsExact(d, s);
    } else if NothingToPair(d) {
      NothingPairedIsExact(d, s);
    } else if FirstPairIsTightest(d) {
      TightestPairIsExact(d, s);
    } else {
      BindingMaximumIsExact(d, s);
    }
  }

  lemma ExactMeansFirstIsEnough(d: Design)
    requires BoundIsExact(d) && SpansArePositive(d)
    ensures NothingToPair(d) || FirstPairIsTightest(d) || AnAreaMaximumBindsBelow(d)
  {
    hide BoundIsExact, NothingToPair, FirstPairIsTightest, AreaUpperBound, SpanAndAspect, FitsEveryPair, Caps, States, Square;
    if !NothingToPair(d) {
      ExactBoundIsAllowed(d);
      UpperBoundIsAttained(d);
      if AreaUpperBound(d).value.si <= 0.0 {
        NonpositiveMaximumFits(d, AreaUpperBound(d).value.si);
      }
      if k :| 0 <= k < |d.requirements| && Caps(d.requirements[k], SubjectWingArea)
              && MaximumOf(d.requirements[k]) == AreaUpperBound(d).value.si {
        assert AnAreaMaximumBindsBelow(d);
      } else {
        AttainingPairIsTightest(d);
      }
    }
  }

  lemma ExactMeansNothingIsLeft(d: Design)
    requires BoundIsExact(d) && !SpansArePositive(d)
    ensures AnAreaMaximumForbidsAll(d) || TheFirstSpanIsZero(d)
  {
    hide AreaUpperBound, SpanAndAspect, Allowed, Caps, SpansArePositive, WithinAreaMaxima, FitsEveryPair, Square;
    AllowedIsFittingEveryPair(d, 1.0);
    assert UpperAllows(d, 1.0) <==> Allowed(d, 1.0);
    var upper := AreaUpperBound(d).value.si;
    if upper > 0.0 {
      AllowedIsFittingEveryPair(d, upper);
      assert UpperAllows(d, upper) <==> Allowed(d, upper);
    }
    UpperBoundIsAttained(d);
    if SpanAndAspect(d).Some? {
      var f, g := ThePairIsStated(d);
      if MaximumOf(d.requirements[f]) != 0.0 {
        DivPositive(Square(MaximumOf(d.requirements[f])), MinimumOf(d.requirements[g]));
      }
    }
  }

  // ----- Conflicts, against everything stated -------------------------------

  /** One positive planform that meets the contributing stall ceilings and every
      required area maximum, span maximum and aspect-ratio minimum. */
  predicate MeetsStatedLimits(p: Platform, d: Design, b: real, s: real) {
    && b > 0.0 && s > 0.0
    && MeetsCeilings(p, d, MassReading(d).value, Quantity(s, DimArea))
    && WithinAreaMaxima(d, s) && WithinSpans(d, b) && AboveAspects(d, b, s)
  }

  ghost predicate StatedLimitsAreFeasible(p: Platform, d: Design) {
    exists b: real, s: real :: MeetsStatedLimits(p, d, b, s)
  }

  /** What is stated is feasible exactly when the demanded area is allowed. */
  lemma FeasibleExactlyWhenTheFloorIsAllowed(p: Platform, d: Design)
    requires p.Lawful() && AreaFloor(d).known
    ensures AreaFloor(d).value.si > 0.0
    ensures StatedLimitsAreFeasible(p, d) <==> Allowed(d, AreaFloor(d).value.si)
  {
    hide AreaFloor, MeetsCeilings, WithinAreaMaxima, WithinSpans, AboveAspects, MassReading;
    var floor := AreaFloor(d).value.si;
    LowerBoundIsWhatTheCeilingsDemand(p, d, 1.0);
    LowerBoundIsWhatTheCeilingsDemand(p, d, floor);
    if StatedLimitsAreFeasible(p, d) {
      var b: real, s: real :| MeetsStatedLimits(p, d, b, s);
      LowerBoundIsWhatTheCeilingsDemand(p, d, s);
      assert Allowed(d, s);
      AllowedDownwards(d, floor, s);
    }
    if Allowed(d, floor) {
      var b: real :| b > 0.0 && WithinSpans(d, b) && AboveAspects(d, b, floor);
      assert MeetsStatedLimits(p, d, b, floor);
    }
  }

  /** A reported conflict is real against everything stated, and where the first
      pair is enough the stated limits are feasible exactly when the bounds do not
      cross. */
  lemma TheBoundsDecideWhatIsStated(p: Platform, d: Design)
    requires p.Lawful() && AreaFloor(d).known
    ensures StatedLimitsAreFeasible(p, d) ==> UpperAllows(d, AreaFloor(d).value.si)
    ensures FirstIsEnough(d) ==> (StatedLimitsAreFeasible(p, d) <==> UpperAllows(d, AreaFloor(d).value.si))
  {
    hide AreaFloor, UpperAllows, Allowed, StatedLimitsAreFeasible, FirstIsEnough;
    FeasibleExactlyWhenTheFloorIsAllowed(p, d);
    TheUpperBoundIsExactExactlyWhenTheFirstIsEnough(d);
    if Allowed(d, AreaFloor(d).value.si) {
      UpperBoundRefusesNothingAllowed(d, AreaFloor(d).value.si);
    }
  }

  /** So a conflict is only reported of stated limits no wing meets; and when none
      is reported, the first pair is enough and the demand is known, no wing meets
      them only if the bounds cross by no more than the tolerance. */
  lemma ConflictsAgainstWhatIsStated(p: Platform, d: Design)
    requires p.Lawful()
    ensures Conflicts(p, d) != [] ==> !StatedLimitsAreFeasible(p, d)
    ensures Conflicts(p, d) == [] && AreaFloor(d).known && FirstIsEnough(d) ==>
              (StatedLimitsAreFeasible(p, d)
               <==> !(AreaUpperBound(d).known
                      && AreaUpperBound(d).value.si < AreaFloor(d).value.si
                         <= AreaUpperBound(d).value.si * (1.0 + TOLERANCE)))
  {
    hide AreaFloor, AreaUpperBound, AreaLowerBound, AreaAlternatives, StatedLimitsAreFeasible, FirstIsEnough,
      Sorting.SortByName;
    AreaFloorIsTheLowerBound(d);
    if AreaFloor(d).known {
      FeasibleExactlyWhenTheFloorIsAllowed(p, d);
      TheBoundsDecideWhatIsStated(p, d);
      SlackKeepsOrder(AreaFloor(d).value.si, AreaUpperBound(d).value.si);
    }
  }

  // ----- A conflict that is not reported ------------------------------------

  const HOVERING :=
    DesignCase(FlightCase("stall", "clean", "ISA", "", LiftCoefficient("measured", 1.0, ScopeAircraft),
                          Quantity(1.0, DimDensity), UNSET, 1.0),
               EvidenceMeasured, PriorityRequired)

  function Stating(
    name: string, cases: seq<string>, minimum: Quantity, maximum: Quantity, subject: RequirementSubject): Requirement
  {
    Requirement(name, "stated", cases, minimum, maximum, 0.0, subject, PriorityRequired)
  }

  const NO_FASTER := Stating("slow", ["stall"], UNSET, Quantity(10.0, DimSpeed), SubjectStallSpeed)
  const LOOSE := Stating("loose", [], UNSET, Quantity(10.0, DimLength), SubjectSpan)
  const TIGHT := Stating("tight", [], UNSET, Quantity(0.1, DimLength), SubjectSpan)
  const SLIM := Stating("slim", [], Quantity(1.0, Dimensionless), UNSET, SubjectAspectRatio)

  /** A kilogram to be flown no faster than ten metres a second, at an aspect ratio
      of one or more, within two spans. */
  function WithSpans(d: Design, first: Requirement, second: Requirement): Design {
    d.(mass := Quantity(1.0, DimMass), massMode := MassModeEntered, components := [], auxiliary := [],
       propulsion := d.propulsion.(capabilities := [], targets := []),
       cases := [HOVERING], requirements := [NO_FASTER, first, second, SLIM])
  }

  predicate IsASpan(r: Requirement) {
    r == LOOSE || r == TIGHT
  }

  lemma TheOnlyCeiling(d: Design, first: Requirement, second: Requirement, x: StallCeiling)
    requires IsASpan(first) && IsASpan(second)
    ensures var e := WithSpans(d, first, second);
            x in CeilingsOver(e.cases, e.requirements, AllRequiredCases) <==> x == StallCeiling(HOVERING, NO_FASTER)
  {
    var e := WithSpans(d, first, second);
    CeilingsOverAre(e.cases, e.requirements, AllRequiredCases, x);
    assert "stall" in NO_FASTER.cases;
  }

  /** It needs between a tenth of a square metre and one. */
  lemma HoveringDemand(p: Platform, mass: Quantity)
    requires mass == Quantity(1.0, DimMass)
    ensures MinimumAreaOf(StallCeiling(HOVERING, NO_FASTER), mass).Ok?
    ensures 0.1 < MinimumAreaOf(StallCeiling(HOVERING, NO_FASTER), mass).value.si <= 1.0
  {
    var limit := NO_FASTER.EffectiveMaximum();
    assert limit == Quantity(10.0, DimSpeed);
    assert StallIssues(HOVERING.flight) == [];
    MinimumWingAreaBalances(HOVERING.flight, mass, limit);
    assert Square(10.0) == 100.0;
    var area := MinimumWingArea(HOVERING.flight, mass, limit).value.si;
    assert 100.0 * area == 2.0 * GRAVITY;
  }

  lemma FloorOfHovering(p: Platform, d: Design, first: Requirement, second: Requirement)
    requires p.Lawful() && IsASpan(first) && IsASpan(second)
    ensures AreaFloor(WithSpans(d, first, second)).known
    ensures 0.1 < AreaFloor(WithSpans(d, first, second)).value.si <= 1.0
  {
    hide CeilingsOver, MinimumAreaOf, Best, Controllers, AllMet;
    var e := WithSpans(d, first, second);
    var mass := MassReading(e).value;
    var ceilings := CeilingsOver(e.cases, e.requirements, AllRequiredCases);
    var only := StallCeiling(HOVERING, NO_FASTER);
    assert mass == Quantity(1.0, DimMass);
    HoveringDemand(p, mass);
    TheOnlyCeiling(d, first, second, only);
    var k :| 0 <= k < |ceilings| && ceilings[k] == only;
    assert AreaContributions(ceilings, mass)[k].known;
    BestIsTheExtreme(AreaContributions(ceilings, mass), BoundLower);
    forall i | 0 <= i < |ceilings|
      ensures ceilings[i] == only
    {
      TheOnlyCeiling(d, first, second, ceilings[i]);
    }
    FloorOfOne(p, ceilings, mass, only, 0.1);
    FloorOfOne(p, ceilings, mass, only, 1.0);
  }

  lemma FloorOfOne(p: Platform, ceilings: seq<StallCeiling>, mass: Quantity, only: StallCeiling, s: real)
    requires p.Lawful() && FloorOf(ceilings, mass).known && s > 0.0
    requires only in ceilings && MinimumAreaOf(only, mass).Ok?
    requires forall i :: 0 <= i < |ceilings| ==> ceilings[i] == only
    ensures FloorOf(ceilings, mass).value.si <= s <==> MinimumAreaOf(only, mass).value.si <= s
  {
    hide FloorOf, MinimumAreaOf, MeetsCeiling;
    FloorIsWhatTheCeilingsDemand(p, ceilings, mass, s);
    CeilingIsAnArea(p, only, mass, Quantity(s, DimArea));
  }

  lemma PairOfSpans(d: Design, first: Requirement, second: Requirement, s: real)
    requires IsASpan(first) && IsASpan(second)
    ensures UpperAllows(WithSpans(d, first, second), s) <==> s <= Square(MaximumOf(first))
  {
    hide AreaUpperBound, UpperAllows, Square;
    var e := WithSpans(d, first, second);
    var rs := e.requirements;
    assert rs[1..] == [first, second, SLIM] && rs[1..][1..] == [second, SLIM] && rs[1..][1..][1..] == [SLIM];
    HeadIsRead(rs, SubjectSpan, BoundUpper);
    HeadIsRead(rs[1..], SubjectSpan, BoundUpper);
    HeadIsRead(rs, SubjectAspectRatio, BoundLower);
    HeadIsRead(rs[1..], SubjectAspectRatio, BoundLower);
    HeadIsRead(rs[1..][1..], SubjectAspectRatio, BoundLower);
    HeadIsRead(rs[1..][1..][1..], SubjectAspectRatio, BoundLower);
    UpperAllowsWhatItReads(e, s);
    assert Square(MaximumOf(first)) / 1.0 == Square(MaximumOf(first));
  }

  /** The area upper bound is read from the first span: with the loose one first
      nothing is reported although no wing meets both, and turning the two around
      reports it. */
  lemma AnUnreadSpanHidesAConflict(p: Platform, d: Design)
    requires p.Lawful()
    ensures var hidden, shown := WithSpans(d, LOOSE, TIGHT), WithSpans(d, TIGHT, LOOSE);
            && AreaFloor(hidden).known && AreaUpperBound(hidden).known
            && Conflicts(p, hidden) == [] && !StatedLimitsAreFeasible(p, hidden)
            && Conflicts(p, shown) != []
            && AreaUpperBound(shown).value.si < AreaUpperBound(hidden).value.si
  {
    hide AreaFloor, AreaUpperBound, AreaLowerBound, AreaAlternatives, StatedLimitsAreFeasible, Allowed, WithSpans, Square,
      Sorting.SortByName;
    var hidden, shown := WithSpans(d, LOOSE, TIGHT), WithSpans(d, TIGHT, LOOSE);
    SquaresOfSpans();
    AreaFloorIsTheLowerBound(hidden);
    AreaFloorIsTheLowerBound(shown);
    FloorOfHovering(p, d, LOOSE, TIGHT);
    FloorOfHovering(p, d, TIGHT, LOOSE);
    PairOfSpans(d, LOOSE, TIGHT, AreaFloor(hidden).value.si);
    PairOfSpans(d, LOOSE, TIGHT, 1.0);
    PairOfSpans(d, LOOSE, TIGHT, 101.0);
    PairOfSpans(d, TIGHT, LOOSE, 0.05);
    FeasibleExactlyWhenTheFloorIsAllowed(p, hidden);
    TightRefuses(d, AreaFloor(hidden).value.si);
  }

  lemma SquaresOfSpans()
    ensures Square(MaximumOf(LOOSE)) == 100.0 && Square(MaximumOf(TIGHT)) == 0.01
  {
  }

  lemma TightRefuses(d: Design, s: real)
    requires s > 0.1
    ensures !Allowed(WithSpans(d, LOOSE, TIGHT), s)
  {
    hide WithinAreaMaxima, SpansArePositive, Allowed;
    var e := WithSpans(d, LOOSE, TIGHT);
    AllowedIsFittingEveryPair(e, s);
    assert CapsSpan(e.requirements[2]) && FloorsAspect(e.requirements[3]);
    assert !FitsPair(MinimumOf(SLIM), s, MaximumOf(TIGHT)) by {
      SquaresOfSpans();
    }
  }
}
