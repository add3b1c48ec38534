/** What a snapshot says of the design it was taken of: everything, up to the
    order of its name-keyed lists and the way case names are joined. */
module SnapshotReadBack {
  import opened Quantities
  import opened Definition
  import opened CanonicalText
  import opened Sorting
  import opened Snapshots

  // ----- Sections -----------------------------------------------------------

  lemma RepresentableJoins(p: Platform, a: seq<Field>, b: seq<Field>)
    ensures AllRepresentable(p, a + b) <==> AllRepresentable(p, a) && AllRepresentable(p, b)
  {
    hide Representable;
    assert forall i :: 0 <= i < |a| ==> (a + b)[i] == a[i];
    assert forall i :: 0 <= i < |b| ==> (a + b)[|a| + i] == b[i];
  }

  /** Takes one section off the front of two renderings. */
  lemma SectionReadsBack(p: Platform, a: seq<Field>, b: seq<Field>, u: seq<Field>, v: seq<Field>)
    requires p.LawfulFormat() && SameShape(a, b) && AllRepresentable(p, a + u) && AllRepresentable(p, b + v)
    requires Render(p, a + u) == Render(p, b + v)
    ensures a == b && Render(p, u) == Render(p, v) && AllRepresentable(p, u) && AllRepresentable(p, v)
  {
    hide Render, SameShape, AllRepresentable;
    RepresentableJoins(p, a, u);
    RepresentableJoins(p, b, v);
    RenderJoins(p, a, u);
    RenderJoins(p, b, v);
    RenderingsReadBack(p, a, b, Render(p, u), Render(p, v));
  }

  // ----- Lists keyed by name ------------------------------------------------

  /** Every entry starts with a field named for it, entries of one name have one
      shape, and the position does not matter. */
  ghost predicate Keyed<T(!new)>(fieldsOf: (nat, T) -> seq<Field>, nameOf: T -> string, prefix: string) {
    && (forall n, x :: fieldsOf(n, x) == fieldsOf(0, x))
    && (forall x :: fieldsOf(0, x) != [] && fieldsOf(0, x)[0].name == prefix + nameOf(x) + "].name")
    && (forall x, y :: nameOf(x) == nameOf(y) ==> SameShape(fieldsOf(0, x), fieldsOf(0, y)))
  }

  /** No name closes the bracket it is written in. */
  predicate NamesStayInside<T>(items: seq<T>, nameOf: T -> string) {
    forall i :: 0 <= i < |items| ==> ']' !in nameOf(items[i])
  }

  lemma {:induction false} ListedFromTheFront<T(!new)>(items: seq<T>, fieldsOf: (nat, T) -> seq<Field>)
    requires items != [] && forall n, x :: fieldsOf(n, x) == fieldsOf(0, x)
    ensures Listed(items, fieldsOf) == fieldsOf(0, items[0]) + Listed(items[1..], fieldsOf)
  {
    var n := |items| - 1;
    if n == 0 {
      assert items[..0] == [] && items[1..] == [];
      assert fieldsOf(0, items[0]) + [] == fieldsOf(0, items[0]);
    } else {
      var rest := items[1..];
      ListedFromTheFront(items[..n], fieldsOf);
      assert items[..n][1..] == rest[..n - 1] && rest[n - 1] == items[n];
      assert fieldsOf(n - 1, rest[n - 1]) == fieldsOf(0, items[n]) == fieldsOf(n, items[n]);
      assert Listed(rest, fieldsOf) == Listed(rest[..n - 1], fieldsOf) + fieldsOf(0, items[n]);
    }
  }

  lemma BracketEndsTheName(x: string, y: string, u: string, v: string)
    requires ']' !in x && ']' !in y && x + ("]" + u) == y + ("]" + v)
    ensures x == y
  {
    var l, r := x + ("]" + u), y + ("]" + v);
    if |x| < |y| {
      CloserIsInside(x, y, u, v);
    } else if |y| < |x| {
      CloserIsInside(y, x, v, u);
    }
    assert l[..|x|] == x && r[..|y|] == y;
  }

  lemma CloserIsInside(x: string, y: string, u: string, v: string)
    requires |x| < |y| && x + ("]" + u) == y + ("]" + v)
    ensures ']' in y
  {
    assert (x + ("]" + u))[|x|] == ']' && (y + ("]" + v))[|x|] == y[|x|];
  }

  lemma NameLeads<T(!new)>(
    p: Platform, fieldsOf: (nat, T) -> seq<Field>, nameOf: T -> string, prefix: string, x: T, u: seq<Field>)
    returns (rest: string)
    requires Keyed(fieldsOf, nameOf, prefix)
    ensures Render(p, fieldsOf(0, x) + u) == prefix + (nameOf(x) + ("]" + rest))
  {
    hide ValueText, SameShape;
    var fields := fieldsOf(0, x) + u;
    var value, after := ValueText(p, fields[0].value), Render(p, fields[1..]);
    rest := ".name=" + value + ";" + after;
    assert fields[0].name == prefix + nameOf(x) + "].name";
    assert fields[0].name + "=" + value + ";" + after == prefix + (nameOf(x) + ("]" + rest));
  }

  /** The entries of two lists of one length are read back one by one. */
  lemma {:induction false} EntriesReadBack<T(!new)>(
    p: Platform, fieldsOf: (nat, T) -> seq<Field>, nameOf: T -> string, prefix: string,
    a: seq<T>, b: seq<T>, u: seq<Field>, v: seq<Field>)
    requires p.LawfulFormat() && Keyed(fieldsOf, nameOf, prefix)
    requires |a| == |b| && NamesStayInside(a, nameOf) && NamesStayInside(b, nameOf)
    requires AllRepresentable(p, Listed(a, fieldsOf) + u) && AllRepresentable(p, Listed(b, fieldsOf) + v)
    requires Render(p, Listed(a, fieldsOf) + u) == Render(p, Listed(b, fieldsOf) + v)
    ensures forall i :: 0 <= i < |a| ==> fieldsOf(0, a[i]) == fieldsOf(0, b[i])
    ensures Render(p, u) == Render(p, v) && AllRepresentable(p, u) && AllRepresentable(p, v)
  {
    hide Render, SameShape, AllRepresentable, Listed;
    if a == [] {
      NothingListed(fieldsOf, u);
      NothingListed(fieldsOf, v);
    } else {
      var ra, rb := Listed(a[1..], fieldsOf) + u, Listed(b[1..], fieldsOf) + v;
      ListedFromTheFront(a, fieldsOf);
      ListedFromTheFront(b, fieldsOf);
      assert Listed(a, fieldsOf) + u == fieldsOf(0, a[0]) + ra;
      assert Listed(b, fieldsOf) + v == fieldsOf(0, b[0]) + rb;
      var ta := NameLeads(p, fieldsOf, nameOf, prefix, a[0], ra);
      var tb := NameLeads(p, fieldsOf, nameOf, prefix, b[0], rb);
      SameHead(prefix, nameOf(a[0]) + ("]" + ta), nameOf(b[0]) + ("]" + tb));
      BracketEndsTheName(nameOf(a[0]), nameOf(b[0]), ta, tb);
      SectionReadsBack(p, fieldsOf(0, a[0]), fieldsOf(0, b[0]), ra, rb);
      EntriesReadBack(p, fieldsOf, nameOf, prefix, a[1..], b[1..], u, v);
    }
  }

  lemma NothingListed<T>(fieldsOf: (nat, T) -> seq<Field>, u: seq<Field>)
    ensures Listed<T>([], fieldsOf) + u == u
  {
  }

  /** A counted list is taken off the front: its count, then its entries. */
  lemma ListReadsBack<T(!new)>(
    p: Platform, count: string, fieldsOf: (nat, T) -> seq<Field>, nameOf: T -> string, prefix: string,
    a: seq<T>, b: seq<T>, u: seq<Field>, v: seq<Field>)
    requires p.LawfulFormat() && Keyed(fieldsOf, nameOf, prefix)
    requires NamesStayInside(a, nameOf) && NamesStayInside(b, nameOf)
    requires AllRepresentable(p, Counted(count, a, fieldsOf) + u) && AllRepresentable(p, Counted(count, b, fieldsOf) + v)
    requires Render(p, Counted(count, a, fieldsOf) + u) == Render(p, Counted(count, b, fieldsOf) + v)
    ensures |a| == |b| && forall i :: 0 <= i < |a| ==> fieldsOf(0, a[i]) == fieldsOf(0, b[i])
    ensures Render(p, u) == Render(p, v) && AllRepresentable(p, u) && AllRepresentable(p, v)
  {
    hide Render, AllRepresentable, Listed, Keyed, NamesStayInside;
    var la, lb := Listed(a, fieldsOf) + u, Listed(b, fieldsOf) + v;
    var ha, hb := [Enum(count, |a|)], [Enum(count, |b|)];
    assert Counted(count, a, fieldsOf) + u == ha + la;
    assert Counted(count, b, fieldsOf) + v == hb + lb;
    SectionReadsBack(p, ha, hb, la, lb);
    assert ha[0] == hb[0];
    EntriesReadBack(p, fieldsOf, nameOf, prefix, a, b, u, v);
  }

  // ----- The entries of each list -------------------------------------------

  lemma ComponentShape(x: MassItem, y: MassItem)
    ensures ComponentFields(x) != [] && ComponentFields(x)[0].name == "component[" + ComponentName(x) + "].name"
    ensures ComponentName(x) == ComponentName(y) ==> SameShape(ComponentFields(x), ComponentFields(y))
  {
  }

  lemma ComponentsAreKeyed()
    ensures Keyed((n: nat, x: MassItem) => ComponentFields(x), ComponentName, "component[")
  {
    hide ComponentFields, ComponentName, SameShape;
    forall x: MassItem, y: MassItem
      ensures ComponentFields(x) != [] && ComponentFields(x)[0].name == "component[" + ComponentName(x) + "].name"
      ensures ComponentName(x) == ComponentName(y) ==> SameShape(ComponentFields(x), ComponentFields(y))
    {
      ComponentShape(x, y);
    }
  }

  lemma ComponentFieldsDiffer(x: MassItem, y: MassItem)
    requires ComponentFields(x) == ComponentFields(y)
    ensures x == y
  {
    var a, b := ComponentFields(x), ComponentFields(y);
    assert a[0] == b[0] && a[1] == b[1] && a[2] == b[2] && a[3] == b[3] && a[4] == b[4] && a[5] == b[5] && a[6] == b[6];
  }

  lemma CapabilityShape(x: PropulsionCapability, y: PropulsionCapability)
    ensures CapabilityFields(x) != [] && CapabilityFields(x)[0].name == "capability[" + CapabilityName(x) + "].name"
    ensures CapabilityName(x) == CapabilityName(y) ==> SameShape(CapabilityFields(x), CapabilityFields(y))
  {
  }

  lemma CapabilitiesAreKeyed()
    ensures Keyed((n: nat, x: PropulsionCapability) => CapabilityFields(x), CapabilityName, "capability[")
  {
    hide CapabilityFields, CapabilityName, SameShape;
    forall x: PropulsionCapability, y: PropulsionCapability
      ensures CapabilityFields(x) != [] && CapabilityFields(x)[0].name == "capability[" + CapabilityName(x) + "].name"
      ensures CapabilityName(x) == CapabilityName(y) ==> SameShape(CapabilityFields(x), CapabilityFields(y))
    {
      CapabilityShape(x, y);
    }
  }

  lemma CapabilityFieldsDiffer(x: PropulsionCapability, y: PropulsionCapability)
    requires CapabilityFields(x) == CapabilityFields(y)
    ensures x == y
  {
    var a, b := CapabilityFields(x), CapabilityFields(y);
    assert a[0] == b[0] && a[1] == b[1] && a[2] == b[2] && a[3] == b[3] && a[4] == b[4] && a[5] == b[5] && a[6] == b[6];
    assert a[7] == b[7] && a[8] == b[8] && a[9] == b[9] && a[10] == b[10] && a[11] == b[11] && a[12] == b[12];
    assert a[13] == b[13];
  }

  lemma TargetShape(x: ThrustTarget, y: ThrustTarget)
    ensures TargetFields(x) != [] && TargetFields(x)[0].name == "thrust_target[" + TargetName(x) + "].name"
    ensures TargetName(x) == TargetName(y) ==> SameShape(TargetFields(x), TargetFields(y))
  {
  }

  lemma TargetsAreKeyed()
    ensures Keyed((n: nat, x: ThrustTarget) => TargetFields(x), TargetName, "thrust_target[")
  {
    hide TargetFields, TargetName, SameShape;
    forall x: ThrustTarget, y: ThrustTarget
      ensures TargetFields(x) != [] && TargetFields(x)[0].name == "thrust_target[" + TargetName(x) + "].name"
      ensures TargetName(x) == TargetName(y) ==> SameShape(TargetFields(x), TargetFields(y))
    {
      TargetShape(x, y);
    }
  }

  lemma TargetFieldsDiffer(x: ThrustTarget, y: ThrustTarget)
    requires TargetFields(x) == TargetFields(y)
    ensures x == y
  {
    var a, b := TargetFields(x), TargetFields(y);
    assert a[0] == b[0] && a[1] == b[1] && a[2] == b[2] && a[3] == b[3] && a[4] == b[4];
  }

  lemma LoadShape(x: AuxiliaryLoad, y: AuxiliaryLoad)
    ensures LoadFields(x) != [] && LoadFields(x)[0].name == "auxiliary[" + LoadName(x) + "].name"
    ensures LoadName(x) == LoadName(y) ==> SameShape(LoadFields(x), LoadFields(y))
  {
  }

  lemma LoadsAreKeyed()
    ensures Keyed((n: nat, x: AuxiliaryLoad) => LoadFields(x), LoadName, "auxiliary[")
  {
    hide LoadFields, LoadName, SameShape;
    forall x: AuxiliaryLoad, y: AuxiliaryLoad
      ensures LoadFields(x) != [] && LoadFields(x)[0].name == "auxiliary[" + LoadName(x) + "].name"
      ensures LoadName(x) == LoadName(y) ==> SameShape(LoadFields(x), LoadFields(y))
    {
      LoadShape(x, y);
    }
  }

  lemma LoadFieldsDiffer(x: AuxiliaryLoad, y: AuxiliaryLoad)
    requires LoadFields(x) == LoadFields(y)
    ensures x == y
  {
    var a, b := LoadFields(x), LoadFields(y);
    assert a[0] == b[0] && a[1] == b[1] && a[2] == b[2] && a[3] == b[3] && a[4] == b[4] && a[5] == b[5] && a[6] == b[6];
    assert a[7] == b[7];
  }

  lemma CaseShape(x: DesignCase, y: DesignCase)
    ensures CaseFields(x) != [] && CaseFields(x)[0].name == "case[" + CaseName(x) + "].name"
    ensures CaseName(x) == CaseName(y) ==> SameShape(CaseFields(x), CaseFields(y))
  {
  }

  lemma CasesAreKeyed()
    ensures Keyed((n: nat, x: DesignCase) => CaseFields(x), CaseName, "case[")
  {
    hide CaseFields, CaseName, SameShape;
    forall x: DesignCase, y: DesignCase
      ensures CaseFields(x) != [] && CaseFields(x)[0].name == "case[" + CaseName(x) + "].name"
      ensures CaseName(x) == CaseName(y) ==> SameShape(CaseFields(x), CaseFields(y))
    {
      CaseShape(x, y);
    }
  }

  lemma CaseFieldsDiffer(x: DesignCase, y: DesignCase)
    requires CaseFields(x) == CaseFields(y)
    ensures x == y
  {
    var a, b := CaseFields(x), CaseFields(y);
    assert a[0] == b[0] && a[1] == b[1] && a[2] == b[2] && a[3] == b[3] && a[4] == b[4] && a[5] == b[5] && a[6] == b[6];
    assert a[7] == b[7] && a[8] == b[8] && a[9] == b[9] && a[10] == b[10] && a[11] == b[11];
  }

  lemma RequirementShape(x: Requirement, y: Requirement)
    ensures RequirementFields(x) != [] && RequirementFields(x)[0].name == "requirement[" + RequirementName(x) + "].name"
    ensures RequirementName(x) == RequirementName(y) ==> SameShape(RequirementFields(x), RequirementFields(y))
  {
    hide JoinNames, SortByName;
  }

  lemma RequirementsAreKeyed()
    ensures Keyed((n: nat, x: Requirement) => RequirementFields(x), RequirementName, "requirement[")
  {
    hide RequirementFields, RequirementName, SameShape;
    forall x: Requirement, y: Requirement
      ensures RequirementFields(x) != [] && RequirementFields(x)[0].name == "requirement[" + RequirementName(x) + "].name"
      ensures RequirementName(x) == RequirementName(y) ==> SameShape(RequirementFields(x), RequirementFields(y))
    {
      RequirementShape(x, y);
    }
  }

  /** Equal but for how their case names may be joined. */
  predicate SameRequirement(x: Requirement, y: Requirement) {
    && y == x.(cases := y.cases)
    && JoinNames(SortByName(x.cases, Itself)) == JoinNames(SortByName(y.cases, Itself))
  }

  lemma RequirementFieldsDiffer(x: Requirement, y: Requirement)
    requires RequirementFields(x) == RequirementFields(y)
    ensures SameRequirement(x, y)
  {
    hide JoinNames, SortByName;
    var a, b := RequirementFields(x), RequirementFields(y);
    assert a[0] == b[0] && a[1] == b[1] && a[2] == b[2] && a[3] == b[3] && a[4] == b[4] && a[5] == b[5] && a[6] == b[6];
    assert a[7] == b[7];
  }

  // ----- The fields outside the lists ---------------------------------------

  lemma HeadersReadBack(x: Design, y: Design)
    ensures SameShape(HeaderFields(x), HeaderFields(y))
    ensures HeaderFields(x) == HeaderFields(y) ==>
              && x.name == y.name && x.configuration == y.configuration && x.mass == y.mass
              && x.massBasis == y.massBasis && x.massMode == y.massMode
  {
    var a, b := HeaderFields(x), HeaderFields(y);
    assert a == b ==> a[0] == b[0] && a[1] == b[1] && a[2] == b[2] && a[3] == b[3] && a[4] == b[4];
  }

  function TrainFields(d: Design): seq<Field> {
    PolarFields(d.polar) + EfficiencyFields(d.propulsion.efficiency) + LimitsFields(d.propulsion.limits)
  }

  lemma PolarsReadBack(x: DragPolar, y: DragPolar)
    ensures SameShape(PolarFields(x), PolarFields(y)) && |PolarFields(x)| == 9
    ensures PolarFields(x) == PolarFields(y) ==> x == y
  {
    var a, b := PolarFields(x), PolarFields(y);
    assert a == b ==> a[0] == b[0] && a[1] == b[1] && a[2] == b[2] && a[3] == b[3] && a[4] == b[4] && a[5] == b[5]
                      && a[6] == b[6] && a[7] == b[7] && a[8] == b[8];
  }

  lemma EfficienciesReadBack(x: PropulsionEfficiency, y: PropulsionEfficiency)
    ensures SameShape(EfficiencyFields(x), EfficiencyFields(y)) && |EfficiencyFields(x)| == 3
    ensures EfficiencyFields(x) == EfficiencyFields(y) ==> x == y
  {
    var a, b := EfficiencyFields(x), EfficiencyFields(y);
    assert a == b ==> a[0] == b[0] && a[1] == b[1] && a[2] == b[2];
  }

  lemma LimitsReadBack(x: PropulsionLimits, y: PropulsionLimits)
    ensures SameShape(LimitsFields(x), LimitsFields(y)) && |LimitsFields(x)| == 7
    ensures LimitsFields(x) == LimitsFields(y) ==> x == y
  {
    var a, b := LimitsFields(x), LimitsFields(y);
    assert a == b ==> a[0] == b[0] && a[1] == b[1] && a[2] == b[2] && a[3] == b[3] && a[4] == b[4] && a[5] == b[5]
                      && a[6] == b[6];
  }

  lemma ShapesJoin(a: seq<Field>, b: seq<Field>, c: seq<Field>, d: seq<Field>)
    requires SameShape(a, b) && SameShape(c, d)
    ensures SameShape(a + c, b + d) && |a + c| == |a| + |c|
    ensures a + c == b + d ==> a == b && c == d
  {
    hide SameKind;
    assert (a + c)[..|a|] == a && (b + d)[..|b|] == b;
    assert (a + c)[|a|..] == c && (b + d)[|b|..] == d;
  }

  lemma TrainsReadBack(x: Design, y: Design)
    ensures SameShape(TrainFields(x), TrainFields(y))
    ensures TrainFields(x) == TrainFields(y) ==>
              && x.polar == y.polar && x.propulsion.efficiency == y.propulsion.efficiency
              && x.propulsion.limits == y.propulsion.limits
  {
    hide SameShape, PolarFields, EfficiencyFields, LimitsFields;
    PolarsReadBack(x.polar, y.polar);
    EfficienciesReadBack(x.propulsion.efficiency, y.propulsion.efficiency);
    LimitsReadBack(x.propulsion.limits, y.propulsion.limits);
    ShapesJoin(PolarFields(x.polar), PolarFields(y.polar), EfficiencyFields(x.propulsion.efficiency),
               EfficiencyFields(y.propulsion.efficiency));
    ShapesJoin(PolarFields(x.polar) + EfficiencyFields(x.propulsion.efficiency),
               PolarFields(y.polar) + EfficiencyFields(y.propulsion.efficiency),
               LimitsFields(x.propulsion.limits), LimitsFields(y.propulsion.limits));
  }

  lemma BatteriesReadBack(x: Battery, y: Battery)
    ensures SameShape(BatteryFields(x), BatteryFields(y))
    ensures BatteryFields(x) == BatteryFields(y) ==> x == y
  {
    var a, b := BatteryFields(x), BatteryFields(y);
    assert a == b ==> a[0] == b[0] && a[1] == b[1] && a[2] == b[2] && a[3] == b[3] && a[4] == b[4] && a[5] == b[5]
                      && a[6] == b[6] && a[7] == b[7] && a[8] == b[8] && a[9] == b[9];
  }

  lemma WingOwnFieldsReadBack(x: WingDefinition, y: WingDefinition)
    ensures SameShape(WingOwnFields(x), WingOwnFields(y))
    ensures WingOwnFields(x) == WingOwnFields(y) ==> x == y.(rootAirfoil := x.rootAirfoil, tipAirfoil := x.tipAirfoil)
  {
    var a, b := WingOwnFields(x), WingOwnFields(y);
    assert a == b ==> a[0] == b[0] && a[1] == b[1] && a[2] == b[2] && a[3] == b[3] && a[4] == b[4] && a[5] == b[5]
                      && a[6] == b[6] && a[7] == b[7] && a[8] == b[8] && a[9] == b[9] && a[10] == b[10]
                      && a[11] == b[11] && a[12] == b[12] && a[13] == b[13] && a[14] == b[14];
  }

  lemma AirfoilsReadBack(prefix: string, x: Airfoil, y: Airfoil)
    ensures SameShape(AirfoilFields(prefix, x), AirfoilFields(prefix, y))
    ensures AirfoilFields(prefix, x) == AirfoilFields(prefix, y) ==> x == y
  {
    var a, b := AirfoilFields(prefix, x), AirfoilFields(prefix, y);
    assert a == b ==> a[0] == b[0] && a[1] == b[1] && a[2] == b[2];
  }

  lemma WingsReadBack(x: WingDefinition, y: WingDefinition)
    ensures SameShape(WingFields(x), WingFields(y))
    ensures WingFields(x) == WingFields(y) ==> x == y
  {
    hide SameShape, AirfoilFields, WingOwnFields;
    WingOwnFieldsReadBack(x, y);
    AirfoilsReadBack("wing.root_airfoil", x.rootAirfoil, y.rootAirfoil);
    AirfoilsReadBack("wing.tip_airfoil", x.tipAirfoil, y.tipAirfoil);
    var rx, ry := AirfoilFields("wing.root_airfoil", x.rootAirfoil), AirfoilFields("wing.root_airfoil", y.rootAirfoil);
    var tx, ty := AirfoilFields("wing.tip_airfoil", x.tipAirfoil), AirfoilFields("wing.tip_airfoil", y.tipAirfoil);
    ShapesJoin(WingOwnFields(x), WingOwnFields(y), rx, ry);
    ShapesJoin(WingOwnFields(x) + rx, WingOwnFields(y) + ry, tx, ty);
  }

  lemma TailsReadBack(x: TailGeometry, y: TailGeometry)
    ensures SameShape(TailFields(x), TailFields(y))
    ensures TailFields(x) == TailFields(y) ==> x == y
  {
    var a, b := TailFields(x), TailFields(y);
    assert a == b ==> a[0] == b[0] && a[1] == b[1] && a[2] == b[2] && a[3] == b[3] && a[4] == b[4] && a[5] == b[5]
                      && a[6] == b[6] && a[7] == b[7] && a[8] == b[8] && a[9] == b[9];
  }

  lemma SurfacesReadBack(x: Design, y: Design)
    ensures SameShape(WingFields(x.wing) + TailFields(x.tail), WingFields(y.wing) + TailFields(y.tail))
    ensures WingFields(x.wing) + TailFields(x.tail) == WingFields(y.wing) + TailFields(y.tail) ==>
              x.wing == y.wing && x.tail == y.tail
  {
    hide SameShape, WingFields, TailFields;
    WingsReadBack(x.wing, y.wing);
    TailsReadBack(x.tail, y.tail);
    ShapesJoin(WingFields(x.wing), WingFields(y.wing), TailFields(x.tail), TailFields(y.tail));
  }

  // ----- The whole design ---------------------------------------------------

  function ComponentList(d: Design): seq<Field> {
    Counted("components", SortByName(d.components, ComponentName), (n: nat, x: MassItem) => ComponentFields(x))
  }

  function CapabilityList(d: Design): seq<Field> {
    Counted("capabilities", SortByName(d.propulsion.capabilities, CapabilityName),
            (n: nat, x: PropulsionCapability) => CapabilityFields(x))
  }

  function TargetList(d: Design): seq<Field> {
    Counted("thrust_targets", SortByName(d.propulsion.targets, TargetName), (n: nat, x: ThrustTarget) => TargetFields(x))
  }

  function LoadList(d: Design): seq<Field> {
    Counted("auxiliary", SortByName(d.auxiliary, LoadName), (n: nat, x: AuxiliaryLoad) => LoadFields(x))
  }

  function CaseList(d: Design): seq<Field> {
    Counted("cases", SortByName(d.cases, CaseName), (n: nat, x: DesignCase) => CaseFields(x))
  }

  function RequirementList(d: Design): seq<Field> {
    Counted("requirements", SortByName(d.requirements, RequirementName), (n: nat, x: Requirement) => RequirementFields(x))
  }

  function FromCases(d: Design): seq<Field> {
    CaseList(d) + (RequirementList(d) + [])
  }

  function FromMission(p: Platform, d: Design): seq<Field> {
    MissionFields(p, d.mission) + ((WingFields(d.wing) + TailFields(d.tail)) + FromCases(d))
  }

  function FromTargets(p: Platform, d: Design): seq<Field> {
    TargetList(d) + (BatteryFields(d.battery) + (LoadList(d) + FromMission(p, d)))
  }

  /** The recorded form, section after section. */
  function FromHeader(p: Platform, d: Design): seq<Field> {
    HeaderFields(d) + (ComponentList(d) + (TrainFields(d) + (CapabilityList(d) + FromTargets(p, d))))
  }

  lemma Nested(a: seq<Field>, b: seq<Field>, c: seq<Field>)
    ensures a + b + c == a + (b + c)
  {
  }

  lemma FormIsFromTheHeader(p: Platform, d: Design)
    ensures DesignFields(p, d) == FromHeader(p, d)
  {
    hide HeaderFields, Counted, PolarFields, EfficiencyFields, LimitsFields, BatteryFields, MissionFields, WingFields,
      TailFields;
    var h, c, t, k := HeaderFields(d), ComponentList(d), TrainFields(d), CapabilityList(d);
    var g, b, l, m := TargetList(d), BatteryFields(d.battery), LoadList(d), MissionFields(p, d.mission);
    var w, e, r := WingFields(d.wing) + TailFields(d.tail), CaseList(d), RequirementList(d);
    var polar, rest := PolarFields(d.polar), EfficiencyFields(d.propulsion.efficiency);
    assert h + c + polar + rest + LimitsFields(d.propulsion.limits) == h + c + t;
    assert h + c + t + k + g + b + l + m + WingFields(d.wing) + TailFields(d.tail) == h + c + t + k + g + b + l + m + w;
    assert DesignFields(p, d) == h + c + t + k + g + b + l + m + w + e + r;
    RightNested(h, c, t, k, g, b, l, m, w, e, r);
  }

  lemma RightNested(
    h: seq<Field>, c: seq<Field>, t: seq<Field>, k: seq<Field>, g: seq<Field>, b: seq<Field>, l: seq<Field>,
    m: seq<Field>, w: seq<Field>, e: seq<Field>, r: seq<Field>)
    ensures h + c + t + k + g + b + l + m + w + e + r
         == h + (c + (t + (k + (g + (b + (l + (m + (w + (e + (r + []))))))))))
  {
    var r0 := r + [];
    assert r0 == r;
    Nested(h + c + t + k + g + b + l + m + w, e, r0);
    Nested(h + c + t + k + g + b + l + m, w, e + r0);
    Nested(h + c + t + k + g + b + l, m, w + (e + r0));
    Nested(h + c + t + k + g + b, l, m + (w + (e + r0)));
    Nested(h + c + t + k + g, b, l + (m + (w + (e + r0))));
    Nested(h + c + t + k, g, b + (l + (m + (w + (e + r0)))));
    Nested(h + c + t, k, g + (b + (l + (m + (w + (e + r0))))));
    Nested(h + c, t, k + (g + (b + (l + (m + (w + (e + r0)))))));
    Nested(h, c, t + (k + (g + (b + (l + (m + (w + (e + r0))))))));
  }

  /** Every number recorded is a float64, and the mission is countable. */
  predicate Recordable(p: Platform, d: Design) {
    AllRepresentable(p, DesignFields(p, d)) && MissionRepresentable(p, d.mission)
  }

  /** No name of a name-keyed list holds a closing bracket. */
  predicate NamesStayInBrackets(d: Design) {
    && NamesStayInside(d.components, ComponentName) && NamesStayInside(d.propulsion.capabilities, CapabilityName)
    && NamesStayInside(d.propulsion.targets, TargetName) && NamesStayInside(d.auxiliary, LoadName)
    && NamesStayInside(d.cases, CaseName) && NamesStayInside(d.requirements, RequirementName)
  }

  /** One list, in some order. */
  ghost predicate SameList<T>(a: seq<T>, b: seq<T>) {
    multiset(a) == multiset(b)
  }

  /** One design, its name-keyed lists in some order and the case names of its
      requirements joined into the same texts. */
  ghost predicate SameRecord(a: Design, b: Design) {
    && a.name == b.name && a.configuration == b.configuration && a.mass == b.mass && a.massBasis == b.massBasis
    && a.massMode == b.massMode && a.polar == b.polar && a.propulsion.efficiency == b.propulsion.efficiency
    && a.propulsion.limits == b.propulsion.limits && a.battery == b.battery && a.mission == b.mission
    && a.wing == b.wing && a.tail == b.tail
    && SameList(a.components, b.components) && SameList(a.propulsion.capabilities, b.propulsion.capabilities)
    && SameList(a.propulsion.targets, b.propulsion.targets) && SameList(a.auxiliary, b.auxiliary)
    && SameList(a.cases, b.cases)
    && SameRequirements(SortByName(a.requirements, RequirementName), SortByName(b.requirements, RequirementName))
  }

  predicate SameRequirements(a: seq<Requirement>, b: seq<Requirement>) {
    |a| == |b| && forall i :: 0 <= i < |a| ==> SameRequirement(a[i], b[i])
  }

  lemma SortedNamesStayInside<T(!new)>(items: seq<T>, nameOf: T -> string)
    requires NamesStayInside(items, nameOf)
    ensures NamesStayInside(SortByName(items, nameOf), nameOf)
  {
    hide Sorted;
    var sorted := SortByName(items, nameOf);
    forall i | 0 <= i < |sorted|
      ensures ']' !in nameOf(sorted[i])
    {
      assert sorted[i] in multiset(items);
    }
  }

  lemma SortedAlikeIsOneList<T(!new)>(a: seq<T>, b: seq<T>, nameOf: T -> string)
    requires var x, y := SortByName(a, nameOf), SortByName(b, nameOf);
             |x| == |y| && forall i :: 0 <= i < |x| ==> x[i] == y[i]
    ensures SameList(a, b)
  {
    hide Sorted;
    assert SortByName(a, nameOf) == SortByName(b, nameOf);
  }

  /** The mission and what surrounds it: the last sections. */
  lemma LastSectionsReadBack(p: Platform, a: Design, b: Design)
    requires p.LawfulFormat() && NamesStayInBrackets(a) && NamesStayInBrackets(b)
    requires AllRepresentable(p, FromCases(a)) && AllRepresentable(p, FromCases(b))
    requires Render(p, FromCases(a)) == Render(p, FromCases(b))
    ensures SameList(a.cases, b.cases)
    ensures SameRequirements(SortByName(a.requirements, RequirementName), SortByName(b.requirements, RequirementName))
  {
    hide Render, AllRepresentable, Counted, Keyed, NamesStayInside, CaseFields, RequirementFields, SameRequirement,
      SameList, SortByName;
    SortedNamesStayInside(a.cases, CaseName);
    SortedNamesStayInside(b.cases, CaseName);
    SortedNamesStayInside(a.requirements, RequirementName);
    SortedNamesStayInside(b.requirements, RequirementName);
    CasesAreKeyed();
    RequirementsAreKeyed();
    var ca, cb := SortByName(a.cases, CaseName), SortByName(b.cases, CaseName);
    var ra, rb := SortByName(a.requirements, RequirementName), SortByName(b.requirements, RequirementName);
    ListReadsBack(p, "cases", (n: nat, x: DesignCase) => CaseFields(x), CaseName, "case[", ca, cb,
                  RequirementList(a) + [], RequirementList(b) + []);
    ListReadsBack(p, "requirements", (n: nat, x: Requirement) => RequirementFields(x), RequirementName, "requirement[",
                  ra, rb, [], []);
    forall i | 0 <= i < |ca|
      ensures ca[i] == cb[i]
    {
      CaseFieldsDiffer(ca[i], cb[i]);
    }
    SortedAlikeIsOneList(a.cases, b.cases, CaseName);
    forall i | 0 <= i < |ra|
      ensures SameRequirement(ra[i], rb[i])
    {
      RequirementFieldsDiffer(ra[i], rb[i]);
    }
  }

  lemma MissionSectionReadsBack(p: Platform, a: Design, b: Design)
    requires p.LawfulFormat() && NamesStayInBrackets(a) && NamesStayInBrackets(b)
    requires MissionRepresentable(p, a.mission) && MissionRepresentable(p, b.mission)
    requires AllRepresentable(p, FromMission(p, a)) && AllRepresentable(p, FromMission(p, b))
    requires Render(p, FromMission(p, a)) == Render(p, FromMission(p, b))
    ensures a.mission == b.mission && a.wing == b.wing && a.tail == b.tail && SameList(a.cases, b.cases)
    ensures SameRequirements(SortByName(a.requirements, RequirementName), SortByName(b.requirements, RequirementName))
  {
    hide Render, AllRepresentable, SameShape, MissionFields, WingFields, TailFields, FromCases, SameList,
      SameRequirements, SortByName, NamesStayInBrackets, MissionRepresentable;
    var wa, wb := WingFields(a.wing) + TailFields(a.tail), WingFields(b.wing) + TailFields(b.tail);
    RenderJoins(p, MissionFields(p, a.mission), wa + FromCases(a));
    RenderJoins(p, MissionFields(p, b.mission), wb + FromCases(b));
    RepresentableJoins(p, MissionFields(p, a.mission), wa + FromCases(a));
    RepresentableJoins(p, MissionFields(p, b.mission), wb + FromCases(b));
    MissionRenderingReadsBack(p, a.mission, b.mission, Render(p, wa + FromCases(a)), Render(p, wb + FromCases(b)));
    SurfacesReadBack(a, b);
    SectionReadsBack(p, wa, wb, FromCases(a), FromCases(b));
    LastSectionsReadBack(p, a, b);
  }

  lemma MiddleSectionsReadBack(p: Platform, a: Design, b: Design)
    requires p.LawfulFormat() && NamesStayInBrackets(a) && NamesStayInBrackets(b)
    requires AllRepresentable(p, FromTargets(p, a)) && AllRepresentable(p, FromTargets(p, b))
    requires Render(p, FromTargets(p, a)) == Render(p, FromTargets(p, b))
    ensures SameList(a.propulsion.targets, b.propulsion.targets) && a.battery == b.battery
    ensures SameList(a.auxiliary, b.auxiliary)
    ensures AllRepresentable(p, FromMission(p, a)) && AllRepresentable(p, FromMission(p, b))
    ensures Render(p, FromMission(p, a)) == Render(p, FromMission(p, b))
  {
    hide Render, AllRepresentable, Counted, Keyed, NamesStayInside, TargetFields, LoadFields, BatteryFields, SameShape,
      SameList, SortByName, FromMission;
    SortedNamesStayInside(a.propulsion.targets, TargetName);
    SortedNamesStayInside(b.propulsion.targets, TargetName);
    SortedNamesStayInside(a.auxiliary, LoadName);
    SortedNamesStayInside(b.auxiliary, LoadName);
    TargetsAreKeyed();
    LoadsAreKeyed();
    var ta, tb := SortByName(a.propulsion.targets, TargetName), SortByName(b.propulsion.targets, TargetName);
    var la, lb := SortByName(a.auxiliary, LoadName), SortByName(b.auxiliary, LoadName);
    ListReadsBack(p, "thrust_targets", (n: nat, x: ThrustTarget) => TargetFields(x), TargetName, "thrust_target[", ta, tb,
                  BatteryFields(a.battery) + (LoadList(a) + FromMission(p, a)),
                  BatteryFields(b.battery) + (LoadList(b) + FromMission(p, b)));
    BatteriesReadBack(a.battery, b.battery);
    SectionReadsBack(p, BatteryFields(a.battery), BatteryFields(b.battery), LoadList(a) + FromMission(p, a),
                     LoadList(b) + FromMission(p, b));
    ListReadsBack(p, "auxiliary", (n: nat, x: AuxiliaryLoad) => LoadFields(x), LoadName, "auxiliary[", la, lb,
                  FromMission(p, a), FromMission(p, b));
    forall i | 0 <= i < |ta|
      ensures ta[i] == tb[i]
    {
      TargetFieldsDiffer(ta[i], tb[i]);
    }
    SortedAlikeIsOneList(a.propulsion.targets, b.propulsion.targets, TargetName);
    forall i | 0 <= i < |la|
      ensures la[i] == lb[i]
    {
      LoadFieldsDiffer(la[i], lb[i]);
    }
    SortedAlikeIsOneList(a.auxiliary, b.auxiliary, LoadName);
  }

  lemma FirstSectionsReadBack(p: Platform, a: Design, b: Design)
    requires p.LawfulFormat() && NamesStayInBrackets(a) && NamesStayInBrackets(b)
    requires AllRepresentable(p, FromHeader(p, a)) && AllRepresentable(p, FromHeader(p, b))
    requires Render(p, FromHeader(p, a)) == Render(p, FromHeader(p, b))
    ensures a.name == b.name && a.configuration == b.configuration && a.mass == b.mass && a.massBasis == b.massBasis
    ensures a.massMode == b.massMode && a.polar == b.polar && a.propulsion.efficiency == b.propulsion.efficiency
    ensures a.propulsion.limits == b.propulsion.limits
    ensures SameList(a.components, b.components) && SameList(a.propulsion.capabilities, b.propulsion.capabilities)
    ensures AllRepresentable(p, FromTargets(p, a)) && AllRepresentable(p, FromTargets(p, b))
    ensures Render(p, FromTargets(p, a)) == Render(p, FromTargets(p, b))
  {
    hide Render, AllRepresentable, Counted, Keyed, NamesStayInside, ComponentFields, CapabilityFields, HeaderFields,
      TrainFields, SameShape, SameList, SortByName, FromTargets;
    SortedNamesStayInside(a.components, ComponentName);
    SortedNamesStayInside(b.components, ComponentName);
    SortedNamesStayInside(a.propulsion.capabilities, CapabilityName);
    SortedNamesStayInside(b.propulsion.capabilities, CapabilityName);
    ComponentsAreKeyed();
    CapabilitiesAreKeyed();
    var ca, cb := SortByName(a.components, ComponentName), SortByName(b.components, ComponentName);
    var ka, kb := SortByName(a.propulsion.capabilities, CapabilityName), SortByName(b.propulsion.capabilities, CapabilityName);
    var ra, rb := CapabilityList(a) + FromTargets(p, a), CapabilityList(b) + FromTargets(p, b);
    HeadersReadBack(a, b);
    SectionReadsBack(p, HeaderFields(a), HeaderFields(b), ComponentList(a) + (TrainFields(a) + ra),
                     ComponentList(b) + (TrainFields(b) + rb));
    ListReadsBack(p, "components", (n: nat, x: MassItem) => ComponentFields(x), ComponentName, "component[", ca, cb,
                  TrainFields(a) + ra, TrainFields(b) + rb);
    TrainsReadBack(a, b);
    SectionReadsBack(p, TrainFields(a), TrainFields(b), ra, rb);
    ListReadsBack(p, "capabilities", (n: nat, x: PropulsionCapability) => CapabilityFields(x), CapabilityName,
                  "capability[", ka, kb, FromTargets(p, a), FromTargets(p, b));
    forall i | 0 <= i < |ca|
      ensures ca[i] == cb[i]
    {
      ComponentFieldsDiffer(ca[i], cb[i]);
    }
    SortedAlikeIsOneList(a.components, b.components, ComponentName);
    forall i | 0 <= i < |ka|
      ensures ka[i] == kb[i]
    {
      CapabilityFieldsDiffer(ka[i], kb[i]);
    }
    SortedAlikeIsOneList(a.propulsion.capabilities, b.propulsion.capabilities, CapabilityName);
  }

  /** A snapshot is read back: two designs whose list names hold no closing bracket
      share a snapshot only when they are one design, up to the order of the
      name-keyed lists and to case names joined into one text. */
  lemma SnapshotsReadBack(p: Platform, a: Design, b: Design)
    requires p.LawfulFormat() && Recordable(p, a) && Recordable(p, b)
    requires NamesStayInBrackets(a) && NamesStayInBrackets(b)
    requires Snapshot(p, a) == Snapshot(p, b)
    ensures SameRecord(a, b)
  {
    hide Render, AllRepresentable, DesignFields, FromHeader, FromTargets, FromMission, SameList, SameRequirements,
      SortByName, NamesStayInBrackets, MissionRepresentable;
    FormIsFromTheHeader(p, a);
    FormIsFromTheHeader(p, b);
    FirstSectionsReadBack(p, a, b);
    MiddleSectionsReadBack(p, a, b);
    MissionSectionReadsBack(p, a, b);
  }

  /** Where no case name holds the separator, and an empty list is not set against
      the name "none", the case names themselves are read back. */
  lemma PlainCaseNamesAreReadBack(x: Requirement, y: Requirement)
    requires SameRequirement(x, y) && SeparatorFree(x.cases) && SeparatorFree(y.cases)
    ensures SameList(x.cases, y.cases) || NothingAgainstNone(x.cases, y.cases)
  {
    hide Sorted, JoinNames, HoldsSeparator;
    var sx, sy := SortByName(x.cases, Itself), SortByName(y.cases, Itself);
    SortedIsSeparatorFree(x.cases);
    SortedIsSeparatorFree(y.cases);
    SeparatorFreeNamesAreReadBack(sx, sy);
    if NothingAgainstNone(sx, sy) {
      NothingSortsToNothing(x.cases);
      NothingSortsToNothing(y.cases);
    }
  }

  lemma SortedIsSeparatorFree(names: seq<string>)
    requires SeparatorFree(names)
    ensures SeparatorFree(SortByName(names, Itself))
  {
    hide Sorted, HoldsSeparator;
    var sorted := SortByName(names, Itself);
    forall i | 0 <= i < |sorted|
      ensures !HoldsSeparator(sorted[i])
    {
      assert sorted[i] in multiset(names);
    }
  }

  lemma NothingSortsToNothing(names: seq<string>)
    ensures SortByName(names, Itself) == [] ==> names == []
    ensures forall name :: SortByName(names, Itself) == [name] ==> names == [name]
  {
    hide Sorted;
    var sorted := SortByName(names, Itself);
    assert |multiset(sorted)| == |sorted| && |multiset(names)| == |names|;
    if |names| == 1 {
      assert names[0] in multiset(sorted);
    }
  }
}
