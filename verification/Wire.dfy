/** Wire tokens of the enumerations, in both directions. */
module WireEnums {
  import opened Quantities
  import opened Definition

  /** A converted value and what was wrong with its wire form. */
  datatype Decoded<+T> = Decoded(value: T, issues: Issues)

  datatype Entry<+T> = Entry(value: T, token: string)

  /** The token of a value; an unmapped one has none. */
  function Format<T(==)>(table: seq<Entry<T>>, v: T): string {
    if table == [] then ""
    else if table[0].value == v then table[0].token
    else Format(table[1..], v)
  }

  function Find<T>(table: seq<Entry<T>>, token: string): Option<T> {
    if table == [] then None
    else if table[0].token == token then Some(table[0].value)
    else Find(table[1..], token)
  }

  /** An empty token leaves the zero value in place. */
  function EnumOrEmpty<T>(table: seq<Entry<T>>, zero: T, token: string): Decoded<T> {
    if token == "" then Decoded(zero, [])
    else
      match Find(table, token)
      case Some(v) => Decoded(v, [])
      case None => Decoded(zero, [IssueInvalid])
  }

  /** Tokens are told apart and never empty, and the zero value has none. */
  predicate Sound<T(==)>(table: seq<Entry<T>>, zero: T) {
    && (forall i, j :: 0 <= i < j < |table| ==> table[i].token != table[j].token)
    && (forall i :: 0 <= i < |table| ==> table[i].token != "" && table[i].value != zero)
  }

  lemma {:induction false} FormatIsFound<T>(table: seq<Entry<T>>, zero: T, v: T, k: nat)
    requires Sound(table, zero) && k < |table| && table[k].value == v
    ensures Format(table, v) != "" && Find(table, Format(table, v)) == Some(v)
    ensures exists i :: 0 <= i < |table| && table[i].token == Format(table, v)
  {
    if table[0].value != v {
      FormatIsFound(table[1..], zero, v, k - 1);
      var i :| 0 <= i < |table[1..]| && table[1..][i].token == Format(table[1..], v);
      assert table[i + 1].token == Format(table, v);
      assert table[0].token != table[i + 1].token;
    }
  }

  lemma {:induction false} ZeroHasNoToken<T>(table: seq<Entry<T>>, zero: T)
    requires Sound(table, zero)
    ensures Format(table, zero) == ""
  {
    if table != [] {
      ZeroHasNoToken(table[1..], zero);
    }
  }

  /** The zero value, or the value of some entry. */
  predicate Covered<T(==)>(table: seq<Entry<T>>, zero: T, v: T) {
    v == zero || exists k :: 0 <= k < |table| && table[k].value == v
  }

  /** A value written as its token is read back. */
  lemma TokensReadBack<T>(table: seq<Entry<T>>, zero: T, v: T)
    requires Sound(table, zero) && Covered(table, zero, v)
    ensures EnumOrEmpty(table, zero, Format(table, v)) == Decoded(v, [])
  {
    if v == zero {
      ZeroHasNoToken(table, zero);
    } else {
      var k :| 0 <= k < |table| && table[k].value == v;
      FormatIsFound(table, zero, v, k);
    }
  }

  const CONFIGURATIONS := [
    Entry(ConfigurationConventionalTail, "conventional-tail"), Entry(ConfigurationVTail, "v-tail"),
    Entry(ConfigurationFlyingWing, "flying-wing")
  ]

  const SHAPES := [Entry(ShapeRectangle, "rectangle"), Entry(ShapeTrapezoid, "trapezoid")]

  const AREA_BASES := [
    Entry(AreaBasisReferenceTrapezoid, "reference-trapezoid"), Entry(AreaBasisExposedPanels, "exposed-panels")
  ]

  const DIHEDRAL_MODES := [Entry(DihedralHoldPanel, "hold-panel"), Entry(DihedralHoldProjected, "hold-projected")]

  const COEFFICIENT_SCOPES := [Entry(ScopeAircraft, "aircraft"), Entry(ScopeAirfoilSection, "airfoil-section")]

  const PRIORITIES := [Entry(PriorityRequired, "required"), Entry(PriorityPreferred, "preferred")]

  const EVIDENCE_GRADES := [
    Entry(EvidenceAssumed, "assumed"), Entry(EvidenceMeasured, "measured"), Entry(EvidenceSimulated, "simulated")
  ]

  const SUBJECTS := [
    Entry(SubjectStallSpeed, "stall-speed"), Entry(SubjectWingArea, "wing-area"), Entry(SubjectSpan, "span"),
    Entry(SubjectMass, "mass"), Entry(SubjectAspectRatio, "aspect-ratio"),
    Entry(SubjectWingLoadingMass, "mass-wing-loading"), Entry(SubjectElectricalPower, "electrical-power"),
    Entry(SubjectMissionEnergy, "mission-energy"), Entry(SubjectMissionDuration, "mission-duration"),
    Entry(SubjectMissionRange, "mission-range"), Entry(SubjectPropellerClearance, "propeller-clearance")
  ]

  const COMPONENT_ROLES := [
    Entry(ComponentAirframe, "airframe"), Entry(ComponentBattery, "battery"), Entry(ComponentMotor, "motor"),
    Entry(ComponentAvionics, "avionics"), Entry(ComponentPayload, "payload"), Entry(ComponentOther, "other")
  ]

  const MASS_MODES := [Entry(MassModeEntered, "entered"), Entry(MassModeComponents, "components")]

  const CAPABILITY_KINDS := [Entry(CapabilityStatic, "static"), Entry(CapabilityInFlight, "in-flight")]

  const REGULATOR_SIDES := [Entry(RegulatorPackSide, "pack-side"), Entry(RegulatorLoadSide, "load-side")]

  const BATTERY_MODES := [
    Entry(BatteryEnergyFromCapacity, "capacity-and-voltage"), Entry(BatteryEnergyEntered, "entered-energy")
  ]

  const SEGMENT_KINDS := [
    Entry(SegmentLaunch, "launch"), Entry(SegmentClimb, "climb"), Entry(SegmentCruise, "cruise"),
    Entry(SegmentLoiter, "loiter"), Entry(SegmentReturn, "return"), Entry(SegmentRecovery, "recovery"),
    Entry(SegmentOther, "other")
  ]

  const SEGMENT_MODELS := [Entry(SegmentModelPolar, "drag-polar"), Entry(SegmentModelEntered, "entered-estimate")]

  const SEGMENT_TIMINGS := [
    Entry(SegmentTimingDuration, "duration"), Entry(SegmentTimingDistance, "ground-distance")
  ]

  lemma ConfigurationReadsBack(v: Configuration)
    ensures EnumOrEmpty(CONFIGURATIONS, ConfigurationUnknown, Format(CONFIGURATIONS, v)) == Decoded(v, [])
  {
    assert CONFIGURATIONS[0].value == ConfigurationConventionalTail && CONFIGURATIONS[1].value == ConfigurationVTail
           && CONFIGURATIONS[2].value == ConfigurationFlyingWing;
    TokensReadBack(CONFIGURATIONS, ConfigurationUnknown, v);
  }

  lemma ShapeReadsBack(v: PlanformShape)
    ensures EnumOrEmpty(SHAPES, ShapeUnknown, Format(SHAPES, v)) == Decoded(v, [])
  {
    assert SHAPES[0].value == ShapeRectangle && SHAPES[1].value == ShapeTrapezoid;
    TokensReadBack(SHAPES, ShapeUnknown, v);
  }

  lemma AreaBasisReadsBack(v: AreaBasis)
    ensures EnumOrEmpty(AREA_BASES, AreaBasisUnknown, Format(AREA_BASES, v)) == Decoded(v, [])
  {
    assert AREA_BASES[0].value == AreaBasisReferenceTrapezoid && AREA_BASES[1].value == AreaBasisExposedPanels;
    TokensReadBack(AREA_BASES, AreaBasisUnknown, v);
  }

  lemma DihedralModeReadsBack(v: DihedralMode)
    ensures EnumOrEmpty(DIHEDRAL_MODES, DihedralModeUnknown, Format(DIHEDRAL_MODES, v)) == Decoded(v, [])
  {
    assert DIHEDRAL_MODES[0].value == DihedralHoldPanel && DIHEDRAL_MODES[1].value == DihedralHoldProjected;
    TokensReadBack(DIHEDRAL_MODES, DihedralModeUnknown, v);
  }

  lemma ScopeReadsBack(v: CoefficientScope)
    ensures EnumOrEmpty(COEFFICIENT_SCOPES, ScopeUnknown, Format(COEFFICIENT_SCOPES, v)) == Decoded(v, [])
  {
    assert COEFFICIENT_SCOPES[0].value == ScopeAircraft && COEFFICIENT_SCOPES[1].value == ScopeAirfoilSection;
    TokensReadBack(COEFFICIENT_SCOPES, ScopeUnknown, v);
  }

  lemma PriorityReadsBack(v: Priority)
    ensures EnumOrEmpty(PRIORITIES, PriorityUnknown, Format(PRIORITIES, v)) == Decoded(v, [])
  {
    assert PRIORITIES[0].value == PriorityRequired && PRIORITIES[1].value == PriorityPreferred;
    TokensReadBack(PRIORITIES, PriorityUnknown, v);
  }

  lemma EvidenceReadsBack(v: EvidenceQuality)
    ensures EnumOrEmpty(EVIDENCE_GRADES, EvidenceUnstated, Format(EVIDENCE_GRADES, v)) == Decoded(v, [])
  {
    assert EVIDENCE_GRADES[0].value == EvidenceAssumed && EVIDENCE_GRADES[1].value == EvidenceMeasured
           && EVIDENCE_GRADES[2].value == EvidenceSimulated;
    TokensReadBack(EVIDENCE_GRADES, EvidenceUnstated, v);
  }

  lemma SubjectReadsBack(v: RequirementSubject)
    ensures EnumOrEmpty(SUBJECTS, SubjectUnknown, Format(SUBJECTS, v)) == Decoded(v, [])
  {
    assert Covered(SUBJECTS, SubjectUnknown, v) by {
      SubjectsAreCovered(v);
    }
    SubjectsAreSound();
    TokensReadBack(SUBJECTS, SubjectUnknown, v);
  }

  lemma SubjectsAreCovered(v: RequirementSubject)
    ensures Covered(SUBJECTS, SubjectUnknown, v)
  {
    assert SUBJECTS[0].value == SubjectStallSpeed && SUBJECTS[1].value == SubjectWingArea
           && SUBJECTS[2].value == SubjectSpan && SUBJECTS[3].value == SubjectMass
           && SUBJECTS[4].value == SubjectAspectRatio && SUBJECTS[5].value == SubjectWingLoadingMass
           && SUBJECTS[6].value == SubjectElectricalPower && SUBJECTS[7].value == SubjectMissionEnergy
           && SUBJECTS[8].value == SubjectMissionDuration && SUBJECTS[9].value == SubjectMissionRange
           && SUBJECTS[10].value == SubjectPropellerClearance;
  }

  lemma SubjectsAreSound()
    ensures Sound(SUBJECTS, SubjectUnknown)
  {
  }

  lemma RoleReadsBack(v: ComponentRole)
    ensures EnumOrEmpty(COMPONENT_ROLES, ComponentRoleUnknown, Format(COMPONENT_ROLES, v)) == Decoded(v, [])
  {
    assert COMPONENT_ROLES[0].value == ComponentAirframe && COMPONENT_ROLES[1].value == ComponentBattery
           && COMPONENT_ROLES[2].value == ComponentMotor && COMPONENT_ROLES[3].value == ComponentAvionics
           && COMPONENT_ROLES[4].value == ComponentPayload && COMPONENT_ROLES[5].value == ComponentOther;
    TokensReadBack(COMPONENT_ROLES, ComponentRoleUnknown, v);
  }

  lemma MassModeReadsBack(v: MassMode)
    ensures EnumOrEmpty(MASS_MODES, MassModeUnknown, Format(MASS_MODES, v)) == Decoded(v, [])
  {
    assert MASS_MODES[0].value == MassModeEntered && MASS_MODES[1].value == MassModeComponents;
    TokensReadBack(MASS_MODES, MassModeUnknown, v);
  }

  lemma CapabilityKindReadsBack(v: CapabilityKind)
    ensures EnumOrEmpty(CAPABILITY_KINDS, CapabilityKindUnknown, Format(CAPABILITY_KINDS, v)) == Decoded(v, [])
  {
    assert CAPABILITY_KINDS[0].value == CapabilityStatic && CAPABILITY_KINDS[1].value == CapabilityInFlight;
    TokensReadBack(CAPABILITY_KINDS, CapabilityKindUnknown, v);
  }

  lemma SideReadsBack(v: RegulatorSide)
    ensures EnumOrEmpty(REGULATOR_SIDES, RegulatorSideUnknown, Format(REGULATOR_SIDES, v)) == Decoded(v, [])
  {
    assert REGULATOR_SIDES[0].value == RegulatorPackSide && REGULATOR_SIDES[1].value == RegulatorLoadSide;
    TokensReadBack(REGULATOR_SIDES, RegulatorSideUnknown, v);
  }

  lemma BatteryModeReadsBack(v: BatteryEnergyMode)
    ensures EnumOrEmpty(BATTERY_MODES, BatteryEnergyModeUnknown, Format(BATTERY_MODES, v)) == Decoded(v, [])
  {
    assert BATTERY_MODES[0].value == BatteryEnergyFromCapacity && BATTERY_MODES[1].value == BatteryEnergyEntered;
    TokensReadBack(BATTERY_MODES, BatteryEnergyModeUnknown, v);
  }

  lemma SegmentKindReadsBack(v: SegmentKind)
    ensures EnumOrEmpty(SEGMENT_KINDS, SegmentKindUnknown, Format(SEGMENT_KINDS, v)) == Decoded(v, [])
  {
    assert SEGMENT_KINDS[0].value == SegmentLaunch && SEGMENT_KINDS[1].value == SegmentClimb
           && SEGMENT_KINDS[2].value == SegmentCruise && SEGMENT_KINDS[3].value == SegmentLoiter
           && SEGMENT_KINDS[4].value == SegmentReturn && SEGMENT_KINDS[5].value == SegmentRecovery
           && SEGMENT_KINDS[6].value == SegmentOther;
    TokensReadBack(SEGMENT_KINDS, SegmentKindUnknown, v);
  }

  lemma SegmentModelReadsBack(v: SegmentModel)
    ensures EnumOrEmpty(SEGMENT_MODELS, SegmentModelUnknown, Format(SEGMENT_MODELS, v)) == Decoded(v, [])
  {
    assert SEGMENT_MODELS[0].value == SegmentModelPolar && SEGMENT_MODELS[1].value == SegmentModelEntered;
    TokensReadBack(SEGMENT_MODELS, SegmentModelUnknown, v);
  }

  lemma SegmentTimingReadsBack(v: SegmentTiming)
    ensures EnumOrEmpty(SEGMENT_TIMINGS, SegmentTimingUnknown, Format(SEGMENT_TIMINGS, v)) == Decoded(v, [])
  {
    assert SEGMENT_TIMINGS[0].value == SegmentTimingDuration && SEGMENT_TIMINGS[1].value == SegmentTimingDistance;
    TokensReadBack(SEGMENT_TIMINGS, SegmentTimingUnknown, v);
  }
}
