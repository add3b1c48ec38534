/** Stable names of the values in a design definition. */
module Keys {
  import opened Quantities
  import opened Definition
  import opened Planforms

  datatype ParameterKey =
    | NoKey | OtherKey(name: string)
    | ParamSpanProjected | ParamSpanPanel | ParamAreaReference | ParamAreaPanel | ParamAreaExposed
    | ParamSemiSpanProjected | ParamSemiSpanPanel | ParamAspectRatio | ParamAspectRatioProjected
    | ParamTaperRatio | ParamChordRoot | ParamChordTip | ParamChordMeanGeo | ParamChordMAC | ParamStationMAC
    | ParamSweepReference | ParamSweepLeadingEdge | ParamDihedral | ParamTwist | ParamIncidence
    | ParamTipLEOffset | ParamTipRise | ParamStationMACLeading | ParamBodyWidth | ParamAllUpMass

  /** The text a key is written as. */
  function KeyText(key: ParameterKey): string {
    match key
    case NoKey => ""
    case OtherKey(name) => name
    case ParamSpanProjected => "wing.span.projected"
    case ParamSpanPanel => "wing.span.panel"
    case ParamAreaReference => "wing.area.reference"
    case ParamAreaPanel => "wing.area.panel"
    case ParamAreaExposed => "wing.area.exposed"
    case ParamSemiSpanProjected => "wing.semispan.projected"
    case ParamSemiSpanPanel => "wing.semispan.panel"
    case ParamAspectRatio => "wing.aspect_ratio.planform"
    case ParamAspectRatioProjected => "wing.aspect_ratio.projected"
    case ParamTaperRatio => "wing.taper_ratio"
    case ParamChordRoot => "wing.chord.root"
    case ParamChordTip => "wing.chord.tip"
    case ParamChordMeanGeo => "wing.chord.mean_geometric"
    case ParamChordMAC => "wing.chord.mac"
    case ParamStationMAC => "wing.station.mac"
    case ParamSweepReference => "wing.sweep.reference"
    case ParamSweepLeadingEdge => "wing.sweep.leading_edge"
    case ParamDihedral => "wing.dihedral"
    case ParamTwist => "wing.twist"
    case ParamIncidence => "wing.incidence"
    case ParamTipLEOffset => "wing.tip.leading_edge_offset"
    case ParamTipRise => "wing.tip.rise"
    case ParamStationMACLeading => "wing.station.mac_leading_edge"
    case ParamBodyWidth => "body.width_at_wing"
    case ParamAllUpMass => "design.mass"
  }

  /** The plane the drivers are given in and the plane derived from it: span,
      area, other span, other area. */
  function PlaneKeys(mode: DihedralMode): (ParameterKey, ParameterKey, ParameterKey, ParameterKey) {
    if mode == DihedralHoldPanel then (ParamSpanPanel, ParamAreaPanel, ParamSpanProjected, ParamAreaReference)
    else (ParamSpanProjected, ParamAreaReference, ParamSpanPanel, ParamAreaPanel)
  }

  /** A driver may be named in either plane; the machinery works in one. */
  function CanonicalSizeKey(key: ParameterKey): Option<ParameterKey> {
    match key
    case ParamSpanProjected | ParamSpanPanel => Some(ParamSpanProjected)
    case ParamAreaReference | ParamAreaPanel => Some(ParamAreaReference)
    case ParamAspectRatio => Some(ParamAspectRatio)
    case ParamChordRoot => Some(ParamChordRoot)
    case _ => None
  }

  function PlaneSizeKey(mode: DihedralMode, key: ParameterKey): ParameterKey {
    match key
    case ParamSpanProjected | ParamSpanPanel => PlaneKeys(mode).0
    case ParamAreaReference | ParamAreaPanel => PlaneKeys(mode).1
    case _ => key
  }

  function SizeDriverDimension(key: ParameterKey): Dimension {
    match key
    case ParamSpanProjected | ParamSpanPanel | ParamChordRoot => DimLength
    case ParamAreaReference | ParamAreaPanel => DimArea
    case _ => Dimensionless
  }

  predicate HoldsDriver(drivers: PlanformDrivers, key: ParameterKey) {
    match key
    case ParamSpanProjected | ParamSpanPanel => drivers.span.Supplied()
    case ParamAreaReference | ParamAreaPanel => drivers.area.Supplied()
    case ParamAspectRatio => drivers.aspectRatio != 0.0
    case ParamChordRoot => drivers.rootChord.Supplied()
    case _ => false
  }

  /** Writes a size driver's value, or clears it. A key that is not a size key
      writes nothing. */
  function WithSizeDriver(drivers: PlanformDrivers, key: ParameterKey, value: Quantity): PlanformDrivers {
    match key
    case ParamSpanProjected | ParamSpanPanel => drivers.(span := value)
    case ParamAreaReference | ParamAreaPanel => drivers.(area := value)
    case ParamAspectRatio => drivers.(aspectRatio := value.si)
    case ParamChordRoot => drivers.(rootChord := value)
    case _ => drivers
  }

  /** The fixed order size drivers are reported in. */
  const SIZE_KEYS := [ParamSpanProjected, ParamAreaReference, ParamAspectRatio, ParamChordRoot]

  function Held(d: WingDefinition, key: ParameterKey): seq<ParameterKey> {
    if HoldsDriver(d.drivers, key) then [PlaneSizeKey(d.dihedralMode, key)] else []
  }

  function HeldAmong(d: WingDefinition, keys: seq<ParameterKey>): seq<ParameterKey> {
    if keys == [] then [] else HeldAmong(d, keys[..|keys| - 1]) + Held(d, keys[|keys| - 1])
  }

  /** The size drivers held, in a stable order and in the plane they were given. */
  function DriverKeys(d: WingDefinition): seq<ParameterKey> {
    HeldAmong(d, SIZE_KEYS)
  }

  method ListDriverKeys(d: WingDefinition) returns (keys: seq<ParameterKey>)
    ensures keys == DriverKeys(d)
  {
    keys := [];
    for n := 0 to |SIZE_KEYS|
      invariant keys == HeldAmong(d, SIZE_KEYS[..n])
    {
      assert SIZE_KEYS[..n + 1][..n] == SIZE_KEYS[..n];
      assert HeldAmong(d, SIZE_KEYS[..n]) + [] == HeldAmong(d, SIZE_KEYS[..n]);
      if HoldsDriver(d.drivers, SIZE_KEYS[n]) {
        keys := keys + [PlaneSizeKey(d.dihedralMode, SIZE_KEYS[n])];
      }
    }
    assert SIZE_KEYS[..|SIZE_KEYS|] == SIZE_KEYS;
  }

  lemma HeldAppend(d: WingDefinition, keys: seq<ParameterKey>, key: ParameterKey)
    ensures HeldAmong(d, keys + [key]) == HeldAmong(d, keys) + Held(d, key)
  {
    assert (keys + [key])[..|keys|] == keys;
  }

  lemma DriverKeysListed(d: WingDefinition)
    ensures DriverKeys(d) == Held(d, ParamSpanProjected) + Held(d, ParamAreaReference) + Held(d, ParamAspectRatio)
                             + Held(d, ParamChordRoot)
  {
    hide Held, HeldAmong;
    HeldAppend(d, [], ParamSpanProjected);
    HeldAppend(d, [ParamSpanProjected], ParamAreaReference);
    HeldAppend(d, [ParamSpanProjected, ParamAreaReference], ParamAspectRatio);
    HeldAppend(d, [ParamSpanProjected, ParamAreaReference, ParamAspectRatio], ParamChordRoot);
    NothingHeld(d);
    assert [] + [ParamSpanProjected] == [ParamSpanProjected];
    assert [ParamSpanProjected] + [ParamAreaReference] == [ParamSpanProjected, ParamAreaReference];
    assert [ParamSpanProjected, ParamAreaReference] + [ParamAspectRatio]
      == [ParamSpanProjected, ParamAreaReference, ParamAspectRatio];
    assert [ParamSpanProjected, ParamAreaReference, ParamAspectRatio] + [ParamChordRoot] == SIZE_KEYS;
  }

  lemma NothingHeld(d: WingDefinition)
    ensures HeldAmong(d, []) == []
  {
  }

  lemma AmongFour(key: ParameterKey, a: seq<ParameterKey>, b: seq<ParameterKey>, c: seq<ParameterKey>, e: seq<ParameterKey>)
    ensures key in a + b + c + e <==> key in a || key in b || key in c || key in e
    ensures |a + b + c + e| == |a| + |b| + |c| + |e|
  {
  }

  lemma HeldCount(d: WingDefinition)
    ensures |Held(d, ParamSpanProjected)| + |Held(d, ParamAreaReference)| + |Held(d, ParamAspectRatio)|
            + |Held(d, ParamChordRoot)| == SuppliedDrivers(d.drivers)
  {
  }

  lemma HeldMeansNamedInThePlane(d: WingDefinition, key: ParameterKey)
    ensures key in Held(d, ParamSpanProjected) || key in Held(d, ParamAreaReference) || key in Held(d, ParamAspectRatio)
            || key in Held(d, ParamChordRoot)
       <==> HoldsDriver(d.drivers, key) && PlaneSizeKey(d.dihedralMode, key) == key
  {
  }

  /** The reported drivers are exactly the held ones, each named in the design's
      own plane, and each once. */
  lemma DriverKeysAreTheHeldOnes(d: WingDefinition, key: ParameterKey)
    ensures key in DriverKeys(d)
       <==> HoldsDriver(d.drivers, key) && PlaneSizeKey(d.dihedralMode, key) == key
    ensures |DriverKeys(d)| == SuppliedDrivers(d.drivers)
  {
    hide HeldAmong, DriverKeys, Held, HoldsDriver, PlaneSizeKey, SuppliedDrivers;
    DriverKeysListed(d);
    AmongFour(key, Held(d, ParamSpanProjected), Held(d, ParamAreaReference), Held(d, ParamAspectRatio),
              Held(d, ParamChordRoot));
    HeldCount(d);
    HeldMeansNamedInThePlane(d, key);
  }
}
