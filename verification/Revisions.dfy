/** Stored revisions: designs whose lists are slices, edited on a deep copy. */
module Revisions {
  import opened Quantities
  import opened Definition
  import opened Keys
  import opened Lists
  import opened Commands
  import opened Editing

  // ----- One list edit, whichever list it is made on ------------------------

  datatype SliceEdit<!T> =
    | PutItem(item: T)
    | DropItem(name: string)
    | AmendItem(name: string, edit: T -> T)
    | MoveItem(name: string, index: int)

  function EditList<T>(items: seq<T>, nameOf: T -> string, e: SliceEdit<T>): Outcome<seq<T>> {
    match e
    case PutItem(item) => Ok(Put(items, nameOf, item))
    case DropItem(name) => Drop(items, nameOf, name)
    case AmendItem(name, edit) => Amend(items, nameOf, name, edit)
    case MoveItem(name, index) => Move(items, nameOf, name, index)
  }

  method MoveNamed<T>(s: Slice<T>, nameOf: T -> string, name: string, index: int) returns (r: Outcome<Slice<T>>)
    requires s.Valid()
    modifies s.backing
    ensures r.Ok? <==> old(Move(s.View(), nameOf, name, index)).Ok?
    ensures r.Ok? ==> && r.value.Valid() && (r.value.backing == s.backing || fresh(r.value.backing))
                      && r.value.View() == old(Move(s.View(), nameOf, name, index)).value
    ensures r.Refused? ==> r.issues == old(Move(s.View(), nameOf, name, index)).issues
  {
    var from := Find(s, nameOf, name);
    if from == s.len {
      return Refused([IssueMissing]);
    }
    if index < 0 || index >= s.len {
      return Refused([IssueInvalid]);
    }
    var moved := MoveInPlace(s, from, index);
    r := Ok(moved);
  }

  method EditInPlace<T>(s: Slice<T>, nameOf: T -> string, e: SliceEdit<T>) returns (r: Outcome<Slice<T>>)
    requires s.Valid()
    modifies s.backing
    ensures r.Ok? <==> old(EditList(s.View(), nameOf, e)).Ok?
    ensures r.Ok? ==> && r.value.Valid() && (r.value.backing == s.backing || fresh(r.value.backing))
                      && r.value.View() == old(EditList(s.View(), nameOf, e)).value
    ensures r.Refused? ==> r.issues == old(EditList(s.View(), nameOf, e)).issues
  {
    match e
    case PutItem(item) =>
      var put := PutInPlace(s, nameOf, item);
      r := Ok(put);
    case DropItem(name) => r := DropInPlace(s, nameOf, name);
    case AmendItem(name, edit) => r := AmendInPlace(s, nameOf, name, edit);
    case MoveItem(name, index) => r := MoveNamed(s, nameOf, name, index);
  }

  function RequirementEdit(e: ListEdit): Option<SliceEdit<Requirement>> {
    match e
    case SetRequirement(r) => Some(PutItem(r))
    case RemoveRequirement(name) => Some(DropItem(name))
    case SetRequirementPriority(name, priority) => Some(AmendItem(name, RequirementAt(priority)))
    case _ => None
  }

  function CaseEdit(e: ListEdit): Option<SliceEdit<DesignCase>> {
    match e
    case SetCase(c) => Some(PutItem(c))
    case RemoveCase(name) => Some(DropItem(name))
    case SetCasePriority(name, priority) => Some(AmendItem(name, CaseAt(priority)))
    case SetCaseCLmax(name, clmax, evidence) => Some(AmendItem(name, CaseWith(clmax, evidence)))
    case _ => None
  }

  function ComponentEdit(e: ListEdit): Option<SliceEdit<MassItem>> {
    match e
    case SetComponent(item) => Some(PutItem(item))
    case PlaceComponent(name, position) => Some(AmendItem(name, ComponentAt(position)))
    case RemoveComponent(name) => Some(DropItem(name))
    case _ => None
  }

  function CapabilityEdit(e: ListEdit): Option<SliceEdit<PropulsionCapability>> {
    match e
    case SetCapability(c) => Some(PutItem(c))
    case RemoveCapability(name) => Some(DropItem(name))
    case _ => None
  }

  function TargetEdit(e: ListEdit): Option<SliceEdit<ThrustTarget>> {
    match e
    case SetThrustTarget(t) => Some(PutItem(t))
    case RemoveThrustTarget(name) => Some(DropItem(name))
    case _ => None
  }

  function LoadEdit(e: ListEdit): Option<SliceEdit<AuxiliaryLoad>> {
    match e
    case SetAuxiliaryLoad(a) => Some(PutItem(a))
    case RemoveAuxiliaryLoad(name) => Some(DropItem(name))
    case _ => None
  }

  function SegmentEdit(e: ListEdit): Option<SliceEdit<MissionSegment>> {
    match e
    case SetMissionSegment(s) => Some(PutItem(s))
    case RemoveMissionSegment(name) => Some(DropItem(name))
    case MoveMissionSegment(name, index) => Some(MoveItem(name, index))
    case _ => None
  }

  /** The edited lists, list by list. */
  function Relisted(l: Listings, e: ListEdit): Outcome<Listings> {
    if RequirementEdit(e).Some? then
      var edited :- EditList(l.requirements, RequirementName, RequirementEdit(e).value);
      Ok(l.(requirements := edited))
    else if CaseEdit(e).Some? then
      var edited :- EditList(l.cases, CaseName, CaseEdit(e).value);
      Ok(l.(cases := edited))
    else if ComponentEdit(e).Some? then
      var edited :- EditList(l.components, ComponentName, ComponentEdit(e).value);
      Ok(l.(components := edited))
    else if CapabilityEdit(e).Some? then
      var edited :- EditList(l.capabilities, CapabilityName, CapabilityEdit(e).value);
      Ok(l.(capabilities := edited))
    else if TargetEdit(e).Some? then
      var edited :- EditList(l.targets, TargetName, TargetEdit(e).value);
      Ok(l.(targets := edited))
    else if LoadEdit(e).Some? then
      var edited :- EditList(l.auxiliary, LoadName, LoadEdit(e).value);
      Ok(l.(auxiliary := edited))
    else if SegmentEdit(e).Some? then
      var edited :- EditList(l.segments, SegmentName, SegmentEdit(e).value);
      Ok(l.(segments := edited))
    else Ok(l)
  }

  lemma RelistedIsRelist(l: Listings, e: ListEdit)
    ensures Relisted(l, e) == Relist(l, e)
  {
    hide Put, Drop, Amend, Move;
    match e
    case SetRequirement(_) =>
    case RemoveRequirement(_) =>
    case SetRequirementPriority(_, _) =>
    case SetCase(_) =>
    case RemoveCase(_) =>
    case SetCasePriority(_, _) =>
    case SetCaseCLmax(_, _, _) =>
    case SetComponent(_) =>
    case PlaceComponent(_, _) =>
    case RemoveComponent(_) =>
    case SetCapability(_) =>
    case RemoveCapability(_) =>
    case SetThrustTarget(_) =>
    case RemoveThrustTarget(_) =>
    case SetAuxiliaryLoad(_) =>
    case RemoveAuxiliaryLoad(_) =>
    case SetMissionSegment(_) =>
    case RemoveMissionSegment(_) =>
    case MoveMissionSegment(_, _) =>
  }

  // ----- A stored revision --------------------------------------------------

  /** The seven lists of a stored design, each in its own backing array. */
  datatype StoredLists = StoredLists(
    requirements: Slice<Requirement>,
    cases: Slice<DesignCase>,
    components: Slice<MassItem>,
    capabilities: Slice<PropulsionCapability>,
    targets: Slice<ThrustTarget>,
    auxiliary: Slice<AuxiliaryLoad>,
    segments: Slice<MissionSegment>
  ) {
    predicate Valid() {
      && requirements.Valid() && cases.Valid() && components.Valid() && capabilities.Valid() && targets.Valid()
      && auxiliary.Valid() && segments.Valid()
    }

    ghost function Arrays(): set<object> {
      {requirements.backing as object} + {cases.backing as object} + {components.backing as object}
      + {capabilities.backing as object} + {targets.backing as object} + {auxiliary.backing as object}
      + {segments.backing as object}
    }

    function View(): Listings
      requires Valid()
      reads Arrays()
    {
      Listings(requirements.View(), cases.View(), components.View(), capabilities.View(), targets.View(),
               auxiliary.View(), segments.View())
    }
  }

  datatype StoredDesign = StoredDesign(fields: Design, lists: StoredLists) {
    function View(): Design
      requires lists.Valid()
      reads lists.Arrays()
    {
      WithListings(fields, lists.View())
    }
  }

  /** A deep copy: every list in an array of its own. */
  method CloneLists(s: StoredLists) returns (r: StoredLists)
    requires s.Valid()
    ensures r.Valid() && fresh(r.Arrays()) && r.View() == s.View()
  {
    var requirements := Clone(s.requirements);
    var cases := Clone(s.cases);
    var components := Clone(s.components);
    var capabilities := Clone(s.capabilities);
    var targets := Clone(s.targets);
    var auxiliary := Clone(s.auxiliary);
    var segments := Clone(s.segments);
    r := StoredLists(requirements, cases, components, capabilities, targets, auxiliary, segments);
  }

  method Slicing<T>(items: seq<T>) returns (s: Slice<T>)
    ensures s.Valid() && fresh(s.backing) && s.View() == items
  {
    var backing := new T[|items|](i requires 0 <= i < |items| => items[i]);
    s := Slice(backing, |items|);
    assert s.View() == items;
  }

  /** A loaded draft is copied, so nothing the caller holds reaches it. */
  method Store(d: Design) returns (r: StoredDesign)
    ensures r.lists.Valid() && fresh(r.lists.Arrays()) && r.View() == d
  {
    hide NamesDistinct;
    var requirements := Slicing(d.requirements);
    var cases := Slicing(d.cases);
    var components := Slicing(d.components);
    var capabilities := Slicing(d.propulsion.capabilities);
    var targets := Slicing(d.propulsion.targets);
    var auxiliary := Slicing(d.auxiliary);
    var segments := Slicing(d.mission.segments);
    r := StoredDesign(d, StoredLists(requirements, cases, components, capabilities, targets, auxiliary, segments));
    assert r.lists.View() == ListingsOf(d);
  }

  /** One list spliced in its own array; the other six are not touched. */
  method RelistInPlace(s: StoredLists, e: ListEdit) returns (r: Outcome<StoredLists>)
    requires s.Valid()
    modifies s.Arrays()
    ensures r.Ok? <==> old(Relisted(s.View(), e)).Ok?
    ensures r.Ok? ==> && r.value.Valid() && (forall o :: o in r.value.Arrays() ==> o in s.Arrays() || fresh(o))
                      && r.value.View() == old(Relisted(s.View(), e)).value
    ensures r.Refused? ==> r.issues == old(Relisted(s.View(), e)).issues
  {
    hide EditList, RequirementEdit, CaseEdit, ComponentEdit, CapabilityEdit, TargetEdit, LoadEdit, SegmentEdit;
    if RequirementEdit(e).Some? {
      var edited :- EditInPlace(s.requirements, RequirementName, RequirementEdit(e).value);
      return Ok(s.(requirements := edited));
    }
    if CaseEdit(e).Some? {
      var edited :- EditInPlace(s.cases, CaseName, CaseEdit(e).value);
      return Ok(s.(cases := edited));
    }
    if ComponentEdit(e).Some? {
      var edited :- EditInPlace(s.components, ComponentName, ComponentEdit(e).value);
      return Ok(s.(components := edited));
    }
    if CapabilityEdit(e).Some? {
      var edited :- EditInPlace(s.capabilities, CapabilityName, CapabilityEdit(e).value);
      return Ok(s.(capabilities := edited));
    }
    if TargetEdit(e).Some? {
      var edited :- EditInPlace(s.targets, TargetName, TargetEdit(e).value);
      return Ok(s.(targets := edited));
    }
    if LoadEdit(e).Some? {
      var edited :- EditInPlace(s.auxiliary, LoadName, LoadEdit(e).value);
      return Ok(s.(auxiliary := edited));
    }
    if SegmentEdit(e).Some? {
      var edited :- EditInPlace(s.segments, SegmentName, SegmentEdit(e).value);
      return Ok(s.(segments := edited));
    }
    r := Ok(s);
  }

  lemma OwnListsChangeNothing(d: Design)
    ensures WithListings(d, ListingsOf(d)) == d
  {
  }

  /** Applies a command to a copy. It modifies nothing that existed before, so no
      earlier revision can be reached through it. */
  method ApplyStored(p: Platform, s: StoredDesign, c: Command) returns (r: Outcome<StoredDesign>)
    requires s.lists.Valid()
    ensures r.Ok? <==> Apply(p, s.View(), c).Ok?
    ensures r.Ok? ==> && r.value.lists.Valid() && fresh(r.value.lists.Arrays())
                      && r.value.View() == Apply(p, s.View(), c).value
    ensures r.Refused? ==> r.issues == Apply(p, s.View(), c).issues
  {
    hide Relist, Relisted, ApplyDriverEdit, ApplyFieldEdit, ApplyListEdit, ListEditIssues, ListingsOf, WithListings;
    var d := s.View();
    match c
    case ListCommand(e) =>
      r := ApplyStoredListEdit(s, e);
    case DriverCommand(e) =>
      var drivers := ApplyDriverEdit(p, d, e);
      if drivers.Refused? {
        return Refused(drivers.issues);
      }
      var stored := Store(WithDrivers(d, drivers.value));
      r := Ok(stored);
    case FieldCommand(e) =>
      var edited := ApplyFieldEdit(d, e);
      if edited.Refused? {
        return Refused(edited.issues);
      }
      var stored := Store(edited.value);
      r := Ok(stored);
  }

  method ApplyStoredListEdit(s: StoredDesign, e: ListEdit) returns (r: Outcome<StoredDesign>)
    requires s.lists.Valid()
    ensures r.Ok? <==> ApplyListEdit(s.View(), e).Ok?
    ensures r.Ok? ==> && r.value.lists.Valid() && fresh(r.value.lists.Arrays())
                      && r.value.View() == ApplyListEdit(s.View(), e).value
    ensures r.Refused? ==> r.issues == ApplyListEdit(s.View(), e).issues
  {
    hide Relist, Relisted, ListEditIssues, WithListings, ListingsOf;
    ghost var d, l := s.View(), s.lists.View();
    ViewLists(s);
    RelistedIsRelist(l, e);
    var issues := ListEditIssues(s.View(), e);
    if issues != [] {
      return Refused(issues);
    }
    var copied := CloneLists(s.lists);
    var edited := RelistInPlace(copied, e);
    assert s.lists.View() == l && s.View() == d;
    if edited.Refused? {
      return Refused(edited.issues);
    }
    r := Ok(StoredDesign(s.fields, edited.value));
    assert r.value.View() == WithListings(s.fields, Relist(l, e).value);
    assert WithListings(d, Relist(l, e).value) == WithListings(s.fields, Relist(l, e).value);
  }

  lemma ViewLists(s: StoredDesign)
    requires s.lists.Valid()
    ensures ListingsOf(s.View()) == s.lists.View()
    ensures forall l: Listings :: WithListings(s.View(), l) == WithListings(s.fields, l)
  {
  }
}
