/** The evaluation recorder: every input reaches the arithmetic through a
    recording method, so a trace cannot drift from the values used. */
module Recording {
  import opened Quantities

  /** The substitutions of one evaluation and the value they gave. */
  datatype Trace = Trace(substitutions: seq<Quantity>, result: Quantity)

  function Substituted(q: Quantity, want: Dimension): seq<Quantity> {
    if q.dim == want then [q] else []
  }

  /** Any issue withholds the result; so does a sign the result may not have. */
  function Concluded(substitutions: seq<Quantity>, issues: Issues, si: real, dim: Dimension, signed: bool): Outcome<Trace> {
    if issues != [] then Refused(issues)
    else if signed || si > 0.0 then Ok(Trace(substitutions, Quantity(si, dim)))
    else Refused([IssueInvalid])
  }

  class Evaluation {
    var substitutions: seq<Quantity>
    var issues: Issues

    constructor ()
      ensures substitutions == [] && issues == []
    {
      substitutions, issues := [], [];
    }

    /** Records an input that must be positive. A rejected one yields zero, so
        that one pass reports every bad field. */
    method Take(q: Quantity, want: Dimension) returns (si: real)
      modifies this
      ensures substitutions == old(substitutions) + Substituted(q, want)
      ensures issues == old(issues) + QuantityIssues(q, want)
      ensures si == if q.dim == want then q.si else 0.0
    {
      if q.dim != want {
        issues := issues + [if q == UNSET then IssueMissing else IssueInvalid];
        return 0.0;
      }
      substitutions := substitutions + [q];
      if q.si <= 0.0 {
        issues := issues + [IssueInvalid];
      }
      si := q.si;
    }

    /** Records an input whose sign is meaningful. */
    method TakeSigned(q: Quantity, want: Dimension) returns (si: real)
      modifies this
      ensures substitutions == old(substitutions) + Substituted(q, want)
      ensures issues == old(issues) + SignedIssues(q, want)
      ensures si == if q.dim == want then q.si else 0.0
    {
      if q.dim != want {
        issues := issues + [if q == UNSET then IssueMissing else IssueInvalid];
        return 0.0;
      }
      substitutions := substitutions + [q];
      si := q.si;
    }

    /** Any recorded issue suppresses the result entirely. */
    method Finish(si: real, dim: Dimension) returns (r: Outcome<Trace>)
      ensures r == Concluded(substitutions, issues, si, dim, false)
    {
      if issues != [] {
        return Refused(issues);
      }
      if si <= 0.0 {
        return Refused([IssueInvalid]);
      }
      r := Ok(Trace(substitutions, Quantity(si, dim)));
    }

    method FinishSigned(si: real, dim: Dimension) returns (r: Outcome<Trace>)
      ensures r == Concluded(substitutions, issues, si, dim, true)
    {
      if issues != [] {
        return Refused(issues);
      }
      r := Ok(Trace(substitutions, Quantity(si, dim)));
    }
  }

  // ----- What an evaluation promises its caller -----------------------------

  /** One input as it reaches the recorder, its sign meaningful or not. */
  datatype Input = Input(q: Quantity, want: Dimension, signed: bool) {
    predicate Accepted() {
      q.dim == want && (signed || q.si > 0.0)
    }

    function Issues(): Issues {
      if signed then SignedIssues(q, want) else QuantityIssues(q, want)
    }
  }

  function IssuesAfter(inputs: seq<Input>): Issues {
    if inputs == [] then [] else IssuesAfter(inputs[..|inputs| - 1]) + inputs[|inputs| - 1].Issues()
  }

  function SubstitutionsAfter(inputs: seq<Input>): seq<Quantity> {
    if inputs == [] then []
    else
      SubstitutionsAfter(inputs[..|inputs| - 1])
      + Substituted(inputs[|inputs| - 1].q, inputs[|inputs| - 1].want)
  }

  predicate AllAccepted(inputs: seq<Input>) {
    forall i :: 0 <= i < |inputs| ==> inputs[i].Accepted()
  }

  function Rejected(inputs: seq<Input>): nat {
    if inputs == [] then 0
    else Rejected(inputs[..|inputs| - 1]) + if inputs[|inputs| - 1].Accepted() then 0 else 1
  }

  /** One issue is noted for each rejected input, so none is noted exactly when
      all are accepted, and then every input is a substitution, in order. */
  lemma {:induction false} OneIssuePerRejectedInput(inputs: seq<Input>)
    ensures |IssuesAfter(inputs)| == Rejected(inputs)
    ensures Rejected(inputs) == 0 <==> AllAccepted(inputs)
    ensures AllAccepted(inputs) ==>
              && |SubstitutionsAfter(inputs)| == |inputs|
              && forall i :: 0 <= i < |inputs| ==> SubstitutionsAfter(inputs)[i] == inputs[i].q
  {
    if inputs != [] {
      var front, last := inputs[..|inputs| - 1], inputs[|inputs| - 1];
      OneIssuePerRejectedInput(front);
      assert forall i :: 0 <= i < |front| ==> front[i] == inputs[i];
      assert AllAccepted(inputs) <==> AllAccepted(front) && last.Accepted();
    }
  }

  /** An evaluation succeeds exactly when every input it was given is accepted
      and its result may have the sign it has; then its trace lists exactly those
      inputs in order, and otherwise it reports every rejected one. */
  lemma AnEvaluationSucceedsExactlyOnAcceptedInputs(inputs: seq<Input>, si: real, dim: Dimension, signed: bool)
    ensures var r := Concluded(SubstitutionsAfter(inputs), IssuesAfter(inputs), si, dim, signed);
            && (r.Ok? <==> AllAccepted(inputs) && (signed || si > 0.0))
            && (r.Ok? ==> && r.value.result == Quantity(si, dim)
                          && |r.value.substitutions| == |inputs|
                          && forall i :: 0 <= i < |inputs| ==> r.value.substitutions[i] == inputs[i].q)
            && (!AllAccepted(inputs) ==> |r.issues| == Rejected(inputs))
  {
    hide IssuesAfter, SubstitutionsAfter, Rejected, AllAccepted;
    OneIssuePerRejectedInput(inputs);
  }

}

/** The mechanical balance of the listed components. */
module MassBalance {
  import opened Quantities
  import opened Definition
  import opened Reals
  import opened Recording

  datatype Axis = AxisX | AxisY | AxisZ

  function Station(p: Point, axis: Axis): Quantity {
    match axis
    case AxisX => p.x
    case AxisY => p.y
    case AxisZ => p.z
  }

  datatype MassContribution = MassContribution(item: MassItem, moments: seq<Quantity>, known: bool)

  datatype MassProperties = MassProperties(
    contributions: seq<MassContribution>,
    traces: seq<Trace>,
    total: Quantity,
    cg: Point,
    status: ResultStatus,
    complete: bool
  )

  const NO_POINT := Point(UNSET, UNSET, UNSET)

  /** An item with a stated mass and a complete position enters the sums. */
  predicate Contributes(item: MassItem) {
    item.mass.Supplied() && item.position.Stated()
  }

  function ComponentMoment(mass: Quantity, station: Quantity): Outcome<Quantity> {
    var issues := QuantityIssues(mass, DimMass) + SignedIssues(station, DimLength);
    if issues != [] then Refused(issues) else Ok(Quantity(mass.si * station.si, DimMassMoment))
  }

  /** A rejected coordinate leaves the whole item out. */
  function Contribution(item: MassItem): MassContribution {
    var x := ComponentMoment(item.mass, item.position.x);
    var y := ComponentMoment(item.mass, item.position.y);
    var z := ComponentMoment(item.mass, item.position.z);
    if Contributes(item) && x.Ok? && y.Ok? && z.Ok?
    then MassContribution(item, [x.value, y.value, z.value], true)
    else MassContribution(item, [], false)
  }

  predicate Known(item: MassItem) {
    Contribution(item).known
  }

  /** What one item adds to a sum. */
  datatype Reading = OfMass | OfMoment(axis: Axis)

  function Read(item: MassItem, what: Reading): real {
    match what
    case OfMass => item.mass.si
    case OfMoment(axis) => item.mass.si * Station(item.position, axis).si
  }

  /** The sum the core forms: over every contributing item. */
  function Sum(items: seq<MassItem>, what: Reading): real {
    if items == [] then 0.0
    else
      var last := items[|items| - 1];
      Sum(items[..|items| - 1], what) + if Contributes(last) then Read(last, what) else 0.0
  }

  method SumOf(items: seq<MassItem>, what: Reading) returns (sum: real)
    ensures sum == Sum(items, what)
  {
    sum := 0.0;
    for n := 0 to |items|
      invariant sum == Sum(items[..n], what)
    {
      if Contributes(items[n]) {
        sum := sum + Read(items[n], what);
      }
      assert items[..n + 1][..n] == items[..n];
    }
    assert items[..|items|] == items;
  }

  /** The quantity an evaluated item records: its mass, or one axis's moment. */
  function Recorded(item: MassItem, what: Reading): Quantity
    requires Known(item)
  {
    match what
    case OfMass => item.mass
    case OfMoment(AxisX) => Contribution(item).moments[0]
    case OfMoment(AxisY) => Contribution(item).moments[1]
    case OfMoment(AxisZ) => Contribution(item).moments[2]
  }

  /** The substitutions the trace of a sum records: over every known item. */
  function Substitutions(items: seq<MassItem>, what: Reading): seq<Quantity> {
    if items == [] then []
    else
      var last := items[|items| - 1];
      Substitutions(items[..|items| - 1], what) + if Known(last) then [Recorded(last, what)] else []
  }

  lemma SubstitutionsLast(items: seq<MassItem>, what: Reading)
    requires items != [] && !Known(items[|items| - 1])
    ensures Substitutions(items, what) == Substitutions(items[..|items| - 1], what)
  {
    assert Substitutions(items[..|items| - 1], what) + [] == Substitutions(items[..|items| - 1], what);
  }

  function Contributions(items: seq<MassItem>): seq<MassContribution> {
    seq(|items|, i requires 0 <= i < |items| => Contribution(items[i]))
  }

  predicate AllKnown(items: seq<MassItem>) {
    forall i :: 0 <= i < |items| ==> Known(items[i])
  }

  function CenterOfGravity(moment: Quantity, total: Quantity): Quantity
    requires total.si > 0.0
  {
    Quantity(moment.si / total.si, DimLength)
  }

  /** A moment sum and the station it puts the centre of gravity at. */
  function AxisTraces(items: seq<MassItem>, axis: Axis, total: Quantity): seq<Trace>
    requires total.si > 0.0
  {
    var moment := Quantity(Sum(items, OfMoment(axis)), DimMassMoment);
    [ Trace(Substitutions(items, OfMoment(axis)), moment),
      Trace([moment, total], CenterOfGravity(moment, total)) ]
  }

  /** The sums divided: the total first, then each axis. */
  function Finished(items: seq<MassItem>, open: MassProperties): MassProperties {
    if Sum(items, OfMass) <= 0.0 then open.(status := ResultInvalid)
    else
      var total := Quantity(Sum(items, OfMass), DimMass);
      var x, y, z :=
        AxisTraces(items, AxisX, total), AxisTraces(items, AxisY, total), AxisTraces(items, AxisZ, total);
      open.(traces := [Trace(Substitutions(items, OfMass), total)] + x + y + z, total := total,
            cg := Point(x[1].result, y[1].result, z[1].result), status := ResultComputed)
  }

  function Balance(items: seq<MassItem>): MassProperties {
    var open := MassProperties(Contributions(items), [], UNSET, NO_POINT, ResultMissing, items != [] && AllKnown(items));
    if Substitutions(items, OfMass) == [] then open else Finished(items, open)
  }

  /** Records one known item in the four sums. */
  method RecordItem(item: MassItem, total: Evaluation, x: Evaluation, y: Evaluation, z: Evaluation)
    requires Known(item)
    requires total != x && total != y && total != z && x != y && x != z && y != z
    modifies total, x, y, z
    ensures total.substitutions == old(total.substitutions) + [Recorded(item, OfMass)]
    ensures x.substitutions == old(x.substitutions) + [Recorded(item, OfMoment(AxisX))]
    ensures y.substitutions == old(y.substitutions) + [Recorded(item, OfMoment(AxisY))]
    ensures z.substitutions == old(z.substitutions) + [Recorded(item, OfMoment(AxisZ))]
    ensures total.issues == old(total.issues) && x.issues == old(x.issues)
    ensures y.issues == old(y.issues) && z.issues == old(z.issues)
  {
    var moments := Contribution(item).moments;
    var _ := total.Take(item.mass, DimMass);
    var _ := x.TakeSigned(moments[0], DimMassMoment);
    var _ := y.TakeSigned(moments[1], DimMassMoment);
    var _ := z.TakeSigned(moments[2], DimMassMoment);
  }

  /** Completes one axis: its moment sum, then the station. */
  method FinishAxis(items: seq<MassItem>, axis: Axis, sum: Evaluation, total: Quantity) returns (traces: seq<Trace>)
    requires total.Positive(DimMass)
    requires sum.issues == [] && sum.substitutions == Substitutions(items, OfMoment(axis))
    ensures traces == AxisTraces(items, axis, total)
  {
    var momentSum := SumOf(items, OfMoment(axis));
    var moment := sum.FinishSigned(momentSum, DimMassMoment);
    assert moment.Ok?;
    var division := new Evaluation();
    var m := division.TakeSigned(moment.value.result, DimMassMoment);
    var t := division.Take(total, DimMass);
    assert m == moment.value.result.si && t == total.si;
    assert m / t == CenterOfGravity(moment.value.result, total).si;
    var station := division.FinishSigned(m / t, DimLength);
    assert station.Ok? && division.substitutions == [moment.value.result, total];
    traces := [moment.value, station.value];
  }

  /** Completes the sums and divides them. A failed moment sum or station has no
      branch here: with every recorded moment accepted neither can fail. */
  method FinishBalance(
    items: seq<MassItem>, open: MassProperties, total: Evaluation, x: Evaluation, y: Evaluation, z: Evaluation)
    returns (mp: MassProperties)
    requires total.issues == [] && total.substitutions == Substitutions(items, OfMass)
    requires x.issues == [] && x.substitutions == Substitutions(items, OfMoment(AxisX))
    requires y.issues == [] && y.substitutions == Substitutions(items, OfMoment(AxisY))
    requires z.issues == [] && z.substitutions == Substitutions(items, OfMoment(AxisZ))
    ensures mp == Finished(items, open)
  {
    var massSum := SumOf(items, OfMass);
    var totalMass := total.Finish(massSum, DimMass);
    if totalMass.Refused? {
      return open.(status := StatusForIssues(totalMass.issues));
    }
    var t := totalMass.value.result;
    var tx := FinishAxis(items, AxisX, x, t);
    var ty := FinishAxis(items, AxisY, y, t);
    var tz := FinishAxis(items, AxisZ, z, t);
    mp := open.(traces := [totalMass.value] + tx + ty + tz, total := t,
                cg := Point(tx[1].result, ty[1].result, tz[1].result), status := ResultComputed);
  }

  /** Balances the listed components. */
  method ComputeBalance(items: seq<MassItem>) returns (mp: MassProperties)
    ensures mp == Balance(items)
  {
    hide Finished, Contribution, Recorded, Sum;
    var contributions: seq<MassContribution> := [];
    var complete, contributing := items != [], 0;
    var total := new Evaluation();
    var x := new Evaluation();
    var y := new Evaluation();
    var z := new Evaluation();
    for n := 0 to |items|
      invariant contributions == Contributions(items[..n])
      invariant complete <==> items != [] && AllKnown(items[..n])
      invariant total.issues == x.issues == y.issues == z.issues == []
      invariant total.substitutions == Substitutions(items[..n], OfMass)
      invariant x.substitutions == Substitutions(items[..n], OfMoment(AxisX))
      invariant y.substitutions == Substitutions(items[..n], OfMoment(AxisY))
      invariant z.substitutions == Substitutions(items[..n], OfMoment(AxisZ))
      invariant contributing == |total.substitutions|
    {
      assert items[..n + 1][..n] == items[..n];
      contributions := contributions + [Contribution(items[n])];
      if Known(items[n]) {
        contributing := contributing + 1;
        RecordItem(items[n], total, x, y, z);
      } else {
        complete := false;
        assert !Known(items[..n + 1][n]);
      }
    }
    assert items[..|items|] == items;
    mp := MassProperties(contributions, [], UNSET, NO_POINT, ResultMissing, complete);
    if contributing > 0 {
      mp := FinishBalance(items, mp, total, x, y, z);
    }
  }

  // ----- The all-up mass ----------------------------------------------------

  datatype SubjectReading = SubjectReading(value: Quantity, status: ResultStatus)

  /** The mass the design is judged at, in the mode it selected. An incomplete
      inventory establishes none. */
  function MassReading(d: Design): SubjectReading {
    if ResolvedMassMode(d.massMode) == MassModeComponents then
      var mp := Balance(d.components);
      if mp.status != ResultComputed then SubjectReading(UNSET, mp.status)
      else if !mp.complete then SubjectReading(UNSET, ResultMissing)
      else SubjectReading(mp.total, ResultComputed)
    else if !d.mass.Supplied() then SubjectReading(UNSET, ResultMissing)
    else SubjectReading(d.mass, ResultComputed)
  }

  // ----- What the balance conserves -----------------------------------------

  /** The sum of the values a trace records. */
  function Total(substitutions: seq<Quantity>): real {
    if substitutions == [] then 0.0
    else Total(substitutions[..|substitutions| - 1]) + substitutions[|substitutions| - 1].si
  }

  lemma TotalOfAppend(s: seq<Quantity>, q: Quantity)
    ensures Total(s + [q]) == Total(s) + q.si
  {
    assert (s + [q])[..|s|] == s;
  }

  /** A contributing item states a mass and three lengths. */
  predicate RightlyDimensioned(item: MassItem) {
    Contributes(item) ==>
      && item.mass.dim == DimMass
      && item.position.x.dim == DimLength && item.position.y.dim == DimLength && item.position.z.dim == DimLength
  }

  predicate AllRightlyDimensioned(items: seq<MassItem>) {
    forall i :: 0 <= i < |items| ==> RightlyDimensioned(items[i])
  }

  /** No contributing item states a negative mass. */
  predicate NoNegativeMass(items: seq<MassItem>) {
    forall i :: 0 <= i < |items| && Contributes(items[i]) ==> items[i].mass.si >= 0.0
  }

  /** Every contributing item states a positive mass, rightly dimensioned. */
  predicate SoundInventory(items: seq<MassItem>) {
    forall i :: 0 <= i < |items| && Contributes(items[i]) ==> items[i].mass.si > 0.0 && RightlyDimensioned(items[i])
  }

  lemma KnownMeansPositive(item: MassItem)
    ensures Known(item) <==> Contributes(item) && item.mass.si > 0.0 && RightlyDimensioned(item)
  {
  }

  lemma RecordedIsRead(item: MassItem, what: Reading)
    requires Known(item)
    ensures Recorded(item, what).si == Read(item, what)
  {
    match what
    case OfMass =>
    case OfMoment(axis) =>
      match axis
      case AxisX =>
      case AxisY =>
      case AxisZ =>
  }

  /** When every contributing item is sound, what was recorded is what was
      added, for the mass and for each moment. */
  lemma {:induction false} RecordedIsAdded(items: seq<MassItem>, what: Reading)
    requires SoundInventory(items)
    ensures Total(Substitutions(items, what)) == Sum(items, what)
  {
    hide Contribution, Recorded, Read;
    if items != [] {
      var front, last := items[..|items| - 1], items[|items| - 1];
      RecordedIsAdded(front, what);
      KnownMeansPositive(last);
      if Known(last) {
        RecordedIsRead(last, what);
        TotalOfAppend(Substitutions(front, what), Recorded(last, what));
      } else {
        SubstitutionsLast(items, what);
      }
    }
  }

  /** What contributing items that are not known add to a sum without being
      recorded: a negative mass, a mass or a coordinate of another dimension. */
  function Unrecorded(items: seq<MassItem>, what: Reading): real {
    if items == [] then 0.0
    else
      var last := items[|items| - 1];
      Unrecorded(items[..|items| - 1], what) + if Contributes(last) && !Known(last) then Read(last, what) else 0.0
  }

  /** Every sum is what its trace records and what went unrecorded. */
  lemma {:induction false} SumIsRecordedAndUnrecorded(items: seq<MassItem>, what: Reading)
    ensures Sum(items, what) == Total(Substitutions(items, what)) + Unrecorded(items, what)
  {
    hide Contribution, Recorded, Read;
    if items != [] {
      var front, last := items[..|items| - 1], items[|items| - 1];
      SumIsRecordedAndUnrecorded(front, what);
      KnownMeansPositive(last);
      if Known(last) {
        RecordedIsRead(last, what);
        TotalOfAppend(Substitutions(front, what), Recorded(last, what));
      } else {
        SubstitutionsLast(items, what);
      }
    }
  }

  /** Every contributing item that weighs something is rightly dimensioned. */
  predicate WeightsAreRightlyDimensioned(items: seq<MassItem>) {
    forall i :: 0 <= i < |items| && Contributes(items[i]) && items[i].mass.si > 0.0 ==> RightlyDimensioned(items[i])
  }

  /** The sign of what goes unrecorded: negative masses among items of the right
      dimensions, positive ones where the dimensions are wrong. */
  lemma {:induction false} UnrecordedMassHasASign(items: seq<MassItem>)
    ensures AllRightlyDimensioned(items) ==>
              Unrecorded(items, OfMass) <= 0.0 && (Unrecorded(items, OfMass) == 0.0 <==> NoNegativeMass(items))
    ensures NoNegativeMass(items) ==>
              Unrecorded(items, OfMass) >= 0.0
              && (Unrecorded(items, OfMass) == 0.0 <==> WeightsAreRightlyDimensioned(items))
  {
    hide Contribution, RightlyDimensioned;
    if items != [] {
      var front, last := items[..|items| - 1], items[|items| - 1];
      UnrecordedMassHasASign(front);
      KnownMeansPositive(last);
      assert forall i :: 0 <= i < |front| ==> front[i] == items[i];
      assert NoNegativeMass(items) <==> NoNegativeMass(front) && (Contributes(last) ==> last.mass.si >= 0.0);
      assert AllRightlyDimensioned(items) <==> AllRightlyDimensioned(front) && RightlyDimensioned(last);
      assert WeightsAreRightlyDimensioned(items)
        <==> WeightsAreRightlyDimensioned(front) && (Contributes(last) && last.mass.si > 0.0 ==> RightlyDimensioned(last));
    }
  }

  /** What a computed balance holds. */
  lemma BalanceFacts(items: seq<MassItem>)
    requires Balance(items).status == ResultComputed
    ensures var mp := Balance(items);
            && mp.total == Quantity(Sum(items, OfMass), DimMass) && mp.total.si > 0.0
            && |mp.traces| == 7 && mp.traces[0].substitutions == Substitutions(items, OfMass) != []
            && mp.complete == AllKnown(items)
            && forall axis :: Station(mp.cg, axis)
                              == CenterOfGravity(Quantity(Sum(items, OfMoment(axis)), DimMassMoment), mp.total)
  {
    hide CenterOfGravity, Contribution, Recorded, Sum;
  }

  /** The computed total is the sum its trace records exactly when the unrecorded
      masses sum to zero, whatever the inventory. */
  lemma TotalMatchesItsTraceExactlyWhenNothingIsUnrecorded(items: seq<MassItem>)
    requires Balance(items).status == ResultComputed
    ensures Balance(items).total.si == Total(Balance(items).traces[0].substitutions) + Unrecorded(items, OfMass)
    ensures Balance(items).total.si == Total(Balance(items).traces[0].substitutions) <==> Unrecorded(items, OfMass) == 0.0
  {
    hide Balance;
    BalanceFacts(items);
    SumIsRecordedAndUnrecorded(items, OfMass);
  }

  /** What that asks of an inventory. Without negative masses: that whatever
      weighs something states its mass and position in the right dimensions. In
      the right dimensions: that no mass is negative. With every mass positive
      and every position stated: that the balance is complete. */
  lemma TotalMatchesItsTraceExactlyOnASoundInventory(items: seq<MassItem>)
    requires Balance(items).status == ResultComputed
    ensures var matches := Balance(items).total.si == Total(Balance(items).traces[0].substitutions);
            && (NoNegativeMass(items) ==> (matches <==> WeightsAreRightlyDimensioned(items)))
            && (AllRightlyDimensioned(items) ==> (matches <==> NoNegativeMass(items)))
            && ((forall i :: 0 <= i < |items| ==> Contributes(items[i]) && items[i].mass.si > 0.0) ==>
                  (matches <==> Balance(items).complete))
  {
    hide Balance, Unrecorded, Contribution, RightlyDimensioned;
    BalanceFacts(items);
    TotalMatchesItsTraceExactlyWhenNothingIsUnrecorded(items);
    UnrecordedMassHasASign(items);
    forall i | 0 <= i < |items|
      ensures Known(items[i]) <==> Contributes(items[i]) && items[i].mass.si > 0.0 && RightlyDimensioned(items[i])
    {
      KnownMeansPositive(items[i]);
    }
  }

  /** One failing family has a member: a two-kilogram part and a minus-one
      kilogram part total one kilogram against a recorded two. */
  lemma NegativeMassIsAddedButNotRecorded() returns (items: seq<MassItem>)
    ensures AllRightlyDimensioned(items) && !NoNegativeMass(items)
    ensures Balance(items).status == ResultComputed && Balance(items).total.si == 1.0
    ensures Total(Balance(items).traces[0].substitutions) == 2.0
  {
    var o := Quantity(0.0, DimLength);
    var part := MassItem("wing", "weighed", Point(o, o, o), Quantity(2.0, DimMass), ComponentAirframe);
    var lighter := part.(mass := Quantity(-1.0, DimMass));
    items := [part, lighter];
    OnlyTheFirstIsRecorded(part, lighter);
    assert !NoNegativeMass(items) by {
      assert items[1].mass.si < 0.0;
    }
  }

  /** And so has the other: one kilogram placed a kilogram aft totals three with
      the same part, against the same recorded two. */
  lemma MisplacedMassIsAddedButNotRecorded() returns (items: seq<MassItem>)
    ensures NoNegativeMass(items) && !WeightsAreRightlyDimensioned(items)
    ensures Balance(items).status == ResultComputed && Balance(items).total.si == 3.0
    ensures Total(Balance(items).traces[0].substitutions) == 2.0
  {
    var o := Quantity(0.0, DimLength);
    var part := MassItem("wing", "weighed", Point(o, o, o), Quantity(2.0, DimMass), ComponentAirframe);
    var misplaced :=
      MassItem("pod", "weighed", Point(Quantity(1.0, DimMass), o, o), Quantity(1.0, DimMass), ComponentPayload);
    items := [part, misplaced];
    OnlyTheFirstIsRecorded(part, misplaced);
    assert !WeightsAreRightlyDimensioned(items) by {
      assert items[1].mass.si > 0.0 && !RightlyDimensioned(items[1]);
    }
  }

  lemma OnlyTheFirstIsRecorded(part: MassItem, other: MassItem)
    requires Known(part) && Contributes(other) && !Known(other) && part.mass.si + other.mass.si > 0.0
    ensures Balance([part, other]).status == ResultComputed
    ensures Balance([part, other]).total.si == part.mass.si + other.mass.si
    ensures Total(Balance([part, other]).traces[0].substitutions) == part.mass.si
  {
    hide CenterOfGravity, Contribution;
    var items := [part, other];
    KnownMeansPositive(part);
    assert items[..1] == [part];
    assert Sum([part], OfMass) == part.mass.si;
    assert Substitutions([part], OfMass) == [part.mass];
    assert Substitutions(items, OfMass) == [part.mass];
    TotalOfAppend([], part.mass);
    assert [] + [part.mass] == [part.mass];
    ComputedWhenPositive(items);
    BalanceFacts(items);
  }

  lemma QuotientTimesTotal(moment: Quantity, total: Quantity)
    requires total.si > 0.0
    ensures CenterOfGravity(moment, total).si * total.si == moment.si
  {
    DivMul(moment.si, total.si);
  }

  /** The balance: the total is the sum of the recorded masses, and on each axis
      the centre of gravity times the total is the sum of the recorded moments. */
  lemma BalanceConservesMassAndMoment(items: seq<MassItem>, axis: Axis)
    requires Balance(items).status == ResultComputed
    requires SoundInventory(items)
    ensures var mp := Balance(items);
            && mp.total.si == Total(mp.traces[0].substitutions) == Total(Substitutions(items, OfMass))
            && Station(mp.cg, axis).si * mp.total.si == Total(Substitutions(items, OfMoment(axis)))
  {
    hide Balance, Sum, Substitutions, Station, CenterOfGravity;
    BalanceFacts(items);
    RecordedIsAdded(items, OfMass);
    RecordedIsAdded(items, OfMoment(axis));
    QuotientTimesTotal(Quantity(Sum(items, OfMoment(axis)), DimMassMoment), Balance(items).total);
  }

  /** Whatever the inventory, the centre of gravity times the total is the recorded
      moments and the unrecorded ones. */
  lemma MomentIsRecordedAndUnrecorded(items: seq<MassItem>, axis: Axis)
    requires Balance(items).status == ResultComputed
    ensures var mp := Balance(items);
            Station(mp.cg, axis).si * mp.total.si
              == Total(Substitutions(items, OfMoment(axis))) + Unrecorded(items, OfMoment(axis))
  {
    hide Balance, Sum, Substitutions, Station, CenterOfGravity, Unrecorded;
    BalanceFacts(items);
    SumIsRecordedAndUnrecorded(items, OfMoment(axis));
    QuotientTimesTotal(Quantity(Sum(items, OfMoment(axis)), DimMassMoment), Balance(items).total);
  }

  /** Every contributing item lies strictly ahead of a plane on one axis. */
  predicate AllBeyond(items: seq<MassItem>, axis: Axis, at: real) {
    forall i :: 0 <= i < |items| && Contributes(items[i]) ==> Station(items[i].position, axis).si > at
  }

  predicate AllBefore(items: seq<MassItem>, axis: Axis, at: real) {
    forall i :: 0 <= i < |items| && Contributes(items[i]) ==> Station(items[i].position, axis).si < at
  }

  /** The moment about a plane rather than the datum. */
  function About(items: seq<MassItem>, axis: Axis, at: real): real {
    Sum(items, OfMoment(axis)) - at * Sum(items, OfMass)
  }

  /** One item's own moment about a plane. */
  function Lever(item: MassItem, axis: Axis, at: real): real {
    item.mass.si * (Station(item.position, axis).si - at)
  }

  lemma AboutExtends(front: real, moment: real, mass: real, m: real, r: real, at: real)
    requires front == moment - at * mass
    ensures moment + m * r - at * (mass + m) == front + m * (r - at)
  {
  }

  /** With every station on one side of a plane, so is the moment about it. */
  lemma {:induction false} MomentAgainstAPlane(items: seq<MassItem>, axis: Axis, at: real)
    requires SoundInventory(items) && Substitutions(items, OfMass) != []
    ensures AllBeyond(items, axis, at) ==> About(items, axis, at) > 0.0
    ensures AllBefore(items, axis, at) ==> About(items, axis, at) < 0.0
  {
    hide About, Recorded, Contribution, Station, Lever;
    var front, last := items[..|items| - 1], items[|items| - 1];
    KnownMeansPositive(last);
    if Substitutions(front, OfMass) != [] {
      MomentAgainstAPlane(front, axis, at);
    } else {
      NothingAddsNothing(front, axis, at);
    }
    AboutLast(items, axis, at);
    if Contributes(last) {
      LeverSign(last, axis, at);
    } else {
      SubstitutionsLast(items, OfMass);
    }
  }

  lemma LeverSign(item: MassItem, axis: Axis, at: real)
    requires item.mass.si > 0.0
    ensures Station(item.position, axis).si > at ==> Lever(item, axis, at) > 0.0
    ensures Station(item.position, axis).si < at ==> Lever(item, axis, at) < 0.0
  {
    var m, arm := item.mass.si, Station(item.position, axis).si - at;
    if arm < 0.0 {
      assert m * -arm > 0.0;
    } else if arm > 0.0 {
      assert m * arm > 0.0;
    }
  }

  lemma AboutLast(items: seq<MassItem>, axis: Axis, at: real)
    requires items != []
    ensures var front, last := items[..|items| - 1], items[|items| - 1];
            About(items, axis, at)
            == About(front, axis, at)
               + if Contributes(last) then Lever(last, axis, at) else 0.0
  {
    hide Station;
    var front, last := items[..|items| - 1], items[|items| - 1];
    if Contributes(last) {
      AboutExtends(About(front, axis, at), Sum(front, OfMoment(axis)), Sum(front, OfMass),
                   last.mass.si, Station(last.position, axis).si, at);
    }
  }

  lemma {:induction false} NothingAddsNothing(items: seq<MassItem>, axis: Axis, at: real)
    requires SoundInventory(items) && Substitutions(items, OfMass) == []
    ensures About(items, axis, at) == 0.0
  {
    hide Recorded, Contribution, Station, About;
    if items != [] {
      KnownMeansPositive(items[|items| - 1]);
      NothingAddsNothing(items[..|items| - 1], axis, at);
      AboutLast(items, axis, at);
    } else {
      EmptyAbout(axis, at);
    }
  }

  lemma EmptyAbout(axis: Axis, at: real)
    ensures About([], axis, at) == 0.0
  {
  }

  /** On every axis the centre of gravity lies between the extreme positions:
      some contributing component is at or behind it and some at or ahead. */
  lemma CenterOfGravityLiesBetweenTheExtremes(items: seq<MassItem>, axis: Axis)
    requires Balance(items).status == ResultComputed
    requires SoundInventory(items)
    ensures var at := Station(Balance(items).cg, axis).si;
            && (exists i :: 0 <= i < |items| && Contributes(items[i]) && Station(items[i].position, axis).si <= at)
            && (exists i :: 0 <= i < |items| && Contributes(items[i]) && Station(items[i].position, axis).si >= at)
  {
    hide Balance, Sum, Substitutions, Station, CenterOfGravity, Contributes;
    BalanceFacts(items);
    var at := Station(Balance(items).cg, axis).si;
    QuotientTimesTotal(Quantity(Sum(items, OfMoment(axis)), DimMassMoment), Balance(items).total);
    assert About(items, axis, at) == 0.0;
    MomentAgainstAPlane(items, axis, at);
    assert !AllBeyond(items, axis, at) && !AllBefore(items, axis, at);
  }

  // ----- Moving is not resizing ---------------------------------------------

  lemma {:induction false} SumAfterReplacing(items: seq<MassItem>, k: nat, item: MassItem, what: Reading)
    requires k < |items| && Contributes(items[k]) && Contributes(item)
    ensures Sum(items[k := item], what) == Sum(items, what) - Read(items[k], what) + Read(item, what)
  {
    hide Read, Contributes;
    var n := |items| - 1;
    if k == n {
      assert items[k := item][..n] == items[..n];
    } else {
      assert items[k := item][..n] == items[..n][k := item];
      SumAfterReplacing(items[..n], k, item, what);
    }
  }

  lemma ShiftByLever(before: Quantity, after: Quantity, m: real, from: real, to: real, total: Quantity)
    requires total.si > 0.0 && after.si == before.si - m * from + m * to
    ensures CenterOfGravity(after, total).si - CenterOfGravity(before, total).si == m * (to - from) / total.si
  {
    var shift := CenterOfGravity(after, total).si - CenterOfGravity(before, total).si;
    QuotientTimesTotal(before, total);
    QuotientTimesTotal(after, total);
    assert shift * total.si == m * (to - from);
    DivUnique(shift, m * (to - from), total.si);
  }

  lemma {:induction false} SubstitutionsPresent(items: seq<MassItem>, k: nat)
    requires k < |items| && Known(items[k])
    ensures Substitutions(items, OfMass) != []
  {
    if k < |items| - 1 {
      SubstitutionsPresent(items[..|items| - 1], k);
    }
  }

  lemma ReplacingKeepsKnown(items: seq<MassItem>, k: nat, item: MassItem)
    requires k < |items| && Known(items[k]) && Known(item)
    ensures AllKnown(items) <==> AllKnown(items[k := item])
  {
    hide Contribution;
    var items' := items[k := item];
    assert forall i :: 0 <= i < |items| && i != k ==> items'[i] == items[i];
  }

  lemma ComputedWhenPositive(items: seq<MassItem>)
    requires Substitutions(items, OfMass) != [] && Sum(items, OfMass) > 0.0
    ensures Balance(items).status == ResultComputed
  {
  }

  /** Moving a component that already contributes leaves the total alone and
      shifts the centre of gravity by its mass times the move, over the total. */
  lemma PlacingKeepsTheTotalAndShiftsTheBalance(items: seq<MassItem>, k: nat, position: Point, axis: Axis)
    requires Balance(items).status == ResultComputed
    requires k < |items| && Known(items[k]) && Known(items[k].(position := position))
    ensures var before, after := Balance(items), Balance(items[k := items[k].(position := position)]);
            && after.status == ResultComputed && after.total == before.total && after.complete == before.complete
            && Station(after.cg, axis).si - Station(before.cg, axis).si
               == items[k].mass.si * (Station(position, axis).si - Station(items[k].position, axis).si) / before.total.si
  {
    hide Balance, Sum, Substitutions, Contribution, CenterOfGravity, Contributes, AllKnown;
    var moved := items[k].(position := position);
    var items' := items[k := moved];
    BalanceFacts(items);
    KnownMeansPositive(items[k]);
    KnownMeansPositive(moved);
    SumAfterReplacing(items, k, moved, OfMass);
    SumAfterReplacing(items, k, moved, OfMoment(axis));
    SubstitutionsPresent(items', k);
    ComputedWhenPositive(items');
    BalanceFacts(items');
    ReplacingKeepsKnown(items, k, moved);
    ShiftByLever(Quantity(Sum(items, OfMoment(axis)), DimMassMoment), Quantity(Sum(items', OfMoment(axis)), DimMassMoment),
                 moved.mass.si, Station(items[k].position, axis).si, Station(position, axis).si, Balance(items).total);
  }

  // ----- When a mass is established -----------------------------------------

  /** A component that weighs something, placed by three lengths. */
  predicate Weighed(item: MassItem) {
    && item.mass.dim == DimMass && item.mass.si > 0.0
    && item.position.x.dim == DimLength && item.position.y.dim == DimLength && item.position.z.dim == DimLength
  }

  /** The masses of all the listed components, added up. */
  function PlainMass(items: seq<MassItem>): real {
    if items == [] then 0.0 else items[0].mass.si + PlainMass(items[1..])
  }

  lemma {:induction false} PlainMassFromTheEnd(items: seq<MassItem>)
    requires items != []
    ensures PlainMass(items) == PlainMass(items[..|items| - 1]) + items[|items| - 1].mass.si
  {
    if |items| > 1 {
      PlainMassFromTheEnd(items[1..]);
      assert items[1..][..|items| - 2] == items[..|items| - 1][1..];
    }
  }

  lemma KnownMeansWeighed(item: MassItem)
    ensures Known(item) <==> Weighed(item)
  {
    KnownMeansPositive(item);
  }

  lemma {:induction false} WeighedSumIsPlain(items: seq<MassItem>)
    requires forall i :: 0 <= i < |items| ==> Weighed(items[i])
    ensures Sum(items, OfMass) == PlainMass(items)
    ensures items != [] ==> Sum(items, OfMass) > 0.0
  {
    hide Contribution;
    if items != [] {
      var front, last := items[..|items| - 1], items[|items| - 1];
      WeighedSumIsPlain(front);
      PlainMassFromTheEnd(items);
      assert Weighed(last) && Contributes(last);
    }
  }

  /** The inventory establishes a mass: something is listed, and every component is
      weighed and placed. */
  predicate InventoryIsWeighed(items: seq<MassItem>) {
    items != [] && forall i :: 0 <= i < |items| ==> Weighed(items[i])
  }

  /** A design has a mass exactly when its mode establishes one: an entered figure,
      or an inventory with nothing left unweighed or unplaced, whose mass is then
      that of every listed component. */
  lemma AMassIsReadExactlyWhenItIsEstablished(d: Design)
    ensures MassReading(d).status == ResultComputed
       <==> if d.massMode == MassModeComponents then InventoryIsWeighed(d.components) else d.mass != UNSET
    ensures MassReading(d).status == ResultComputed ==>
              MassReading(d).value
              == if d.massMode == MassModeComponents then Quantity(PlainMass(d.components), DimMass) else d.mass
    ensures MassReading(d).status != ResultComputed ==> MassReading(d).value == UNSET
  {
    hide Sum, Substitutions, Contribution, Finished, PlainMass, Weighed;
    var items := d.components;
    forall i | 0 <= i < |items|
      ensures Known(items[i]) <==> Weighed(items[i])
    {
      KnownMeansWeighed(items[i]);
    }
    if InventoryIsWeighed(items) {
      WeighedSumIsPlain(items);
      SubstitutionsPresent(items, 0);
      ComputedWhenPositive(items);
    }
    if Balance(items).status == ResultComputed {
      BalanceFacts(items);
    }
    BalanceCompleteMeans(items);
  }

  lemma BalanceCompleteMeans(items: seq<MassItem>)
    ensures Balance(items).complete <==> items != [] && AllKnown(items)
  {
    hide Sum, Substitutions, Contribution;
  }

  // ----- The balance, over what is stated -----------------------------------

  /** A stated mass at a point stated on all three axes, whatever their dimensions. */
  predicate IsPlaced(item: MassItem) {
    item.mass != UNSET && item.position.x != UNSET && item.position.y != UNSET && item.position.z != UNSET
  }

  function PlacedMass(items: seq<MassItem>): real {
    if items == [] then 0.0
    else (if IsPlaced(items[0]) then items[0].mass.si else 0.0) + PlacedMass(items[1..])
  }

  function Coordinate(at: Point, axis: Axis): real {
    if axis == AxisX then at.x.si else if axis == AxisY then at.y.si else at.z.si
  }

  /** A mass's moment about the datum on one axis. */
  function MomentOf(item: MassItem, axis: Axis): real {
    MassTimes(item.mass.si, Coordinate(item.position, axis))
  }

  function MassTimes(mass: real, at: real): real {
    mass * at
  }

  function PlacedMoment(items: seq<MassItem>, axis: Axis): real {
    if items == [] then 0.0
    else (if IsPlaced(items[0]) then MomentOf(items[0], axis) else 0.0) + PlacedMoment(items[1..], axis)
  }

  lemma {:induction false} PlacedMassFromTheEnd(items: seq<MassItem>)
    requires items != []
    ensures var last := items[|items| - 1];
            PlacedMass(items) == PlacedMass(items[..|items| - 1]) + if IsPlaced(last) then last.mass.si else 0.0
  {
    if |items| > 1 {
      PlacedMassFromTheEnd(items[1..]);
      assert items[1..][..|items| - 2] == items[..|items| - 1][1..];
    }
  }

  lemma {:induction false} PlacedMomentFromTheEnd(items: seq<MassItem>, axis: Axis)
    requires items != []
    ensures var last := items[|items| - 1];
            PlacedMoment(items, axis)
            == PlacedMoment(items[..|items| - 1], axis) + if IsPlaced(last) then MomentOf(last, axis) else 0.0
  {
    hide IsPlaced, MomentOf;
    if |items| > 1 {
      PlacedMomentFromTheEnd(items[1..], axis);
      assert items[1..][..|items| - 2] == items[..|items| - 1][1..];
    }
  }

  lemma {:induction false} SumsAreOfWhatIsPlaced(items: seq<MassItem>, axis: Axis)
    ensures Sum(items, OfMass) == PlacedMass(items)
    ensures Sum(items, OfMoment(axis)) == PlacedMoment(items, axis)
  {
    hide MomentOf, Read, Contributes, IsPlaced;
    if items != [] {
      var front := items[..|items| - 1];
      SumsAreOfWhatIsPlaced(front, axis);
      PlacedMassFromTheEnd(items);
      PlacedMomentFromTheEnd(items, axis);
      PlacedReads(items[|items| - 1], axis);
    }
  }

  lemma PlacedReads(item: MassItem, axis: Axis)
    ensures Contributes(item) <==> IsPlaced(item)
    ensures Read(item, OfMass) == item.mass.si && Read(item, OfMoment(axis)) == MomentOf(item, axis)
  {
  }

  lemma {:induction false} SomethingIsRecordedExactly(items: seq<MassItem>)
    ensures Substitutions(items, OfMass) != [] <==> exists i :: 0 <= i < |items| && Weighed(items[i])
  {
    hide Contribution, Weighed;
    if items != [] {
      var front, last := items[..|items| - 1], items[|items| - 1];
      SomethingIsRecordedExactly(front);
      KnownMeansWeighed(last);
      assert forall i :: 0 <= i < |front| ==> front[i] == items[i];
    }
  }

  /** A balance is computed exactly when some component is weighed and placed and
      the placed masses come to something; its total is then theirs, on each axis the
      centre of gravity times it is their moments, and it is complete exactly when
      every listed component is weighed and placed. With none weighed it is missing,
      and with no mass left over invalid. */
  lemma ABalanceIsComputedExactly(items: seq<MassItem>, axis: Axis)
    ensures var mp, some := Balance(items), exists i :: 0 <= i < |items| && Weighed(items[i]);
            && mp.status == (if !some then ResultMissing else if PlacedMass(items) > 0.0 then ResultComputed else ResultInvalid)
            && (mp.status == ResultComputed ==>
                  && mp.total == Quantity(PlacedMass(items), DimMass)
                  && Station(mp.cg, axis).dim == DimLength
                  && Station(mp.cg, axis).si * PlacedMass(items) == PlacedMoment(items, axis))
            && (mp.status != ResultComputed ==> mp.total == UNSET && mp.cg == NO_POINT)
            && (mp.complete <==> InventoryIsWeighed(items))
  {
    hide Sum, Substitutions, Contribution, PlacedMass, PlacedMoment, Weighed, AxisTraces;
    SumsAreOfWhatIsPlaced(items, axis);
    SomethingIsRecordedExactly(items);
    BalanceCompleteMeans(items);
    forall i | 0 <= i < |items|
      ensures Known(items[i]) <==> Weighed(items[i])
    {
      KnownMeansWeighed(items[i]);
    }
    if Balance(items).status == ResultComputed {
      BalanceFacts(items);
      QuotientTimesTotal(Quantity(Sum(items, OfMoment(axis)), DimMassMoment), Balance(items).total);
    }
  }

  /** What is shown of one component: itself, and, exactly when it is weighed and
      placed, its three moments about the datum. */
  lemma ContributionsShowTheirMoments(items: seq<MassItem>, i: nat)
    requires i < |items|
    ensures |Balance(items).contributions| == |items|
    ensures var c, item := Balance(items).contributions[i], items[i];
            && c.item == item && (c.known <==> Weighed(item))
            && (c.known ==>
                  c.moments == [ Quantity(MomentOf(item, AxisX), DimMassMoment), Quantity(MomentOf(item, AxisY), DimMassMoment),
                                 Quantity(MomentOf(item, AxisZ), DimMassMoment) ])
            && (!c.known ==> c.moments == [])
  {
    hide Substitutions, Sum, AxisTraces, Contribution, MomentOf;
    KnownMeansWeighed(items[i]);
    OneContributionShows(items[i]);
  }

  lemma OneContributionShows(item: MassItem)
    ensures Contribution(item).item == item
    ensures Contribution(item).moments
         == if Contribution(item).known
            then [ Quantity(MomentOf(item, AxisX), DimMassMoment), Quantity(MomentOf(item, AxisY), DimMassMoment),
                   Quantity(MomentOf(item, AxisZ), DimMassMoment) ]
            else []
  {
    hide MassTimes;
    MomentIsAbout(item.mass, item.position.x);
    MomentIsAbout(item.mass, item.position.y);
    MomentIsAbout(item.mass, item.position.z);
  }

  lemma MomentIsAbout(mass: Quantity, station: Quantity)
    ensures ComponentMoment(mass, station).Ok? ==>
              ComponentMoment(mass, station).value == Quantity(MassTimes(mass.si, station.si), DimMassMoment)
  {
  }
}
