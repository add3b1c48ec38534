/** The requirement outcomes that differ between two assessments. */
module DiffChecks {
  import opened Quantities
  import opened Definition
  import opened Wings
  import opened Sizing
  import opened Requirements
  import opened Sorting

  /** The same bound in the same case, wherever it stands in the list. */
  datatype CheckKey = CheckKey(name: string, caseName: string, direction: BoundDirection)

  datatype RequirementChange = RequirementChange(
    name: string,
    caseName: string,
    subject: RequirementSubject,
    direction: BoundDirection,
    from: LimitStatus,
    to: LimitStatus,
    appeared: bool,
    vanished: bool
  )

  function KeyOf(c: RequirementCheck): CheckKey {
    CheckKey(c.name, c.caseName, c.direction)
  }

  function ChangedKey(c: RequirementChange): CheckKey {
    CheckKey(c.name, c.caseName, c.direction)
  }

  /** The status a set of checks records under a key: the last one stated. */
  function StatusIn(checks: seq<RequirementCheck>, key: CheckKey): Option<LimitStatus> {
    if checks == [] then None
    else
      var last := checks[|checks| - 1];
      if KeyOf(last) == key then Some(last.status) else StatusIn(checks[..|checks| - 1], key)
  }

  predicate HasKey(checks: seq<RequirementCheck>, key: CheckKey) {
    StatusIn(checks, key).Some?
  }

  function ChangeOf(before: seq<RequirementCheck>, c: RequirementCheck): seq<RequirementChange> {
    var was := StatusIn(before, KeyOf(c));
    if was == Some(c.status) then []
    else
      [RequirementChange(c.name, c.caseName, c.subject, c.direction,
                         if was.Some? then was.value else LimitUnknown, c.status, was.None?, false)]
  }

  function RemovalOf(after: seq<RequirementCheck>, c: RequirementCheck): seq<RequirementChange> {
    if HasKey(after, KeyOf(c)) then []
    else [RequirementChange(c.name, c.caseName, c.subject, c.direction, c.status, LimitUnknown, false, true)]
  }

  function Changes(before: seq<RequirementCheck>, after: seq<RequirementCheck>): seq<RequirementChange> {
    if after == [] then [] else Changes(before, after[..|after| - 1]) + ChangeOf(before, after[|after| - 1])
  }

  function Removals(before: seq<RequirementCheck>, after: seq<RequirementCheck>): seq<RequirementChange> {
    if before == [] then [] else Removals(before[..|before| - 1], after) + RemovalOf(after, before[|before| - 1])
  }

  /** The changes in the later set's order, then the removals in the earlier's. */
  function Difference(before: seq<RequirementCheck>, after: seq<RequirementCheck>): seq<RequirementChange> {
    Changes(before, after) + Removals(before, after)
  }

  /** The map agrees with the checks it was filled from. */
  ghost predicate Records(m: map<CheckKey, LimitStatus>, checks: seq<RequirementCheck>) {
    forall key :: StatusIn(checks, key) == if key in m then Some(m[key]) else None
  }

  method CollectChanges(
    before: seq<RequirementCheck>, previous: map<CheckKey, LimitStatus>, after: seq<RequirementCheck>)
    returns (changes: seq<RequirementChange>, seen: set<CheckKey>)
    requires Records(previous, before)
    ensures changes == Changes(before, after)
    ensures forall key :: key in seen <==> HasKey(after, key)
  {
    seen := {};
    changes := [];
    for n := 0 to |after|
      invariant forall key :: key in seen <==> HasKey(after[..n], key)
      invariant changes == Changes(before, after[..n])
    {
      assert after[..n + 1][..n] == after[..n];
      assert changes + [] == changes;
      var c := after[n];
      var key := KeyOf(c);
      seen := seen + {key};
      var existed := key in previous;
      var was := if existed then previous[key] else LimitUnknown;
      assert StatusIn(before, key) == if existed then Some(was) else None;
      if !(existed && was == c.status) {
        changes := changes + [RequirementChange(c.name, c.caseName, c.subject, c.direction, was, c.status, !existed, false)];
      }
    }
    assert after[..|after|] == after;
  }

  method Diff(before: seq<RequirementCheck>, after: seq<RequirementCheck>) returns (changes: seq<RequirementChange>)
    ensures changes == Difference(before, after)
  {
    var previous: map<CheckKey, LimitStatus> := map[];
    for n := 0 to |before|
      invariant Records(previous, before[..n])
    {
      assert before[..n + 1][..n] == before[..n];
      previous := previous[KeyOf(before[n]) := before[n].status];
    }
    assert before[..|before|] == before;
    var later, seen := CollectChanges(before, previous, after);
    changes := later;
    assert later + Removals(before[..0], after) == later;
    for n := 0 to |before|
      invariant changes == later + Removals(before[..n], after)
    {
      assert before[..n + 1][..n] == before[..n];
      var c := before[n];
      if KeyOf(c) !in seen {
        changes := changes + [RequirementChange(c.name, c.caseName, c.subject, c.direction, c.status, LimitUnknown, false, true)];
      }
      assert changes == later + Removals(before[..n + 1], after);
    }
  }

  // ----- The difference is exact --------------------------------------------

  predicate KeysUnique(checks: seq<RequirementCheck>) {
    forall i, j :: 0 <= i < j < |checks| ==> KeyOf(checks[i]) != KeyOf(checks[j])
  }

  function CountKey(changes: seq<RequirementChange>, key: CheckKey): nat {
    if changes == [] then 0
    else CountKey(changes[..|changes| - 1], key) + if ChangedKey(changes[|changes| - 1]) == key then 1 else 0
  }

  lemma {:induction false} CountJoins(a: seq<RequirementChange>, b: seq<RequirementChange>, key: CheckKey)
    ensures CountKey(a + b, key) == CountKey(a, key) + CountKey(b, key)
  {
    if b == [] {
      assert a + b == a;
    } else {
      assert (a + b)[..|a + b| - 1] == a + b[..|b| - 1];
      CountJoins(a, b[..|b| - 1], key);
    }
  }

  lemma CountOne(c: RequirementChange, key: CheckKey)
    ensures CountKey([c], key) == if ChangedKey(c) == key then 1 else 0
    ensures CountKey([], key) == 0
  {
    assert [c][..0] == [];
  }

  lemma {:induction false} KeyIsHeldByAnEntry(checks: seq<RequirementCheck>, key: CheckKey)
    ensures HasKey(checks, key) <==> exists i :: 0 <= i < |checks| && KeyOf(checks[i]) == key
  {
    if checks != [] {
      var front := checks[..|checks| - 1];
      KeyIsHeldByAnEntry(front, key);
      assert forall i :: 0 <= i < |front| ==> front[i] == checks[i];
    }
  }

  lemma FrontLacksTheLastKey(checks: seq<RequirementCheck>)
    requires checks != [] && KeysUnique(checks)
    ensures KeysUnique(checks[..|checks| - 1])
    ensures !HasKey(checks[..|checks| - 1], KeyOf(checks[|checks| - 1]))
  {
    KeyIsHeldByAnEntry(checks[..|checks| - 1], KeyOf(checks[|checks| - 1]));
  }

  lemma {:induction false} ChangesCount(before: seq<RequirementCheck>, after: seq<RequirementCheck>, key: CheckKey)
    requires KeysUnique(after)
    ensures CountKey(Changes(before, after), key)
         == if HasKey(after, key) && StatusIn(after, key) != StatusIn(before, key) then 1 else 0
  {
    if after != [] {
      var front, last := after[..|after| - 1], after[|after| - 1];
      FrontLacksTheLastKey(after);
      ChangesCount(before, front, key);
      CountJoins(Changes(before, front), ChangeOf(before, last), key);
      if ChangeOf(before, last) != [] {
        CountOne(ChangeOf(before, last)[0], key);
      }
    }
  }

  lemma {:induction false} RemovalsCount(before: seq<RequirementCheck>, after: seq<RequirementCheck>, key: CheckKey)
    requires KeysUnique(before)
    ensures CountKey(Removals(before, after), key) == if HasKey(before, key) && !HasKey(after, key) then 1 else 0
  {
    if before != [] {
      var front, last := before[..|before| - 1], before[|before| - 1];
      FrontLacksTheLastKey(before);
      RemovalsCount(front, after, key);
      CountJoins(Removals(front, after), RemovalOf(after, last), key);
      if RemovalOf(after, last) != [] {
        CountOne(RemovalOf(after, last)[0], key);
      }
    }
  }

  /** A key is reported once when its status differs, appears or vanishes, and
      otherwise not at all. */
  lemma DifferenceIsExact(before: seq<RequirementCheck>, after: seq<RequirementCheck>, key: CheckKey)
    requires KeysUnique(before) && KeysUnique(after)
    ensures CountKey(Difference(before, after), key) == if StatusIn(before, key) != StatusIn(after, key) then 1 else 0
  {
    ChangesCount(before, after, key);
    RemovalsCount(before, after, key);
    CountJoins(Changes(before, after), Removals(before, after), key);
  }

  /** One key's status after a list of changes is applied to it. */
  function Patched(was: Option<LimitStatus>, changes: seq<RequirementChange>, key: CheckKey): Option<LimitStatus> {
    if changes == [] then was
    else
      var last := changes[|changes| - 1];
      if ChangedKey(last) == key then (if last.vanished then None else Some(last.to))
      else Patched(was, changes[..|changes| - 1], key)
  }

  lemma {:induction false} PatchJoins(was: Option<LimitStatus>, a: seq<RequirementChange>, b: seq<RequirementChange>, key: CheckKey)
    ensures Patched(was, a + b, key) == Patched(Patched(was, a, key), b, key)
  {
    if b == [] {
      assert a + b == a;
    } else {
      assert (a + b)[..|a + b| - 1] == a + b[..|b| - 1];
      PatchJoins(was, a, b[..|b| - 1], key);
    }
  }

  lemma PatchOne(was: Option<LimitStatus>, c: RequirementChange, key: CheckKey)
    ensures Patched(was, [c], key) == if ChangedKey(c) == key then (if c.vanished then None else Some(c.to)) else was
    ensures Patched(was, [], key) == was
  {
    assert [c][..0] == [];
  }

  lemma {:induction false} ChangesPatch(before: seq<RequirementCheck>, after: seq<RequirementCheck>, key: CheckKey)
    requires KeysUnique(after)
    ensures Patched(StatusIn(before, key), Changes(before, after), key)
         == if HasKey(after, key) then StatusIn(after, key) else StatusIn(before, key)
  {
    if after != [] {
      var front, last := after[..|after| - 1], after[|after| - 1];
      FrontLacksTheLastKey(after);
      ChangesPatch(before, front, key);
      PatchJoins(StatusIn(before, key), Changes(before, front), ChangeOf(before, last), key);
      if ChangeOf(before, last) != [] {
        PatchOne(Patched(StatusIn(before, key), Changes(before, front), key), ChangeOf(before, last)[0], key);
      }
    }
  }

  lemma {:induction false} RemovalsPatch(
    was: Option<LimitStatus>, before: seq<RequirementCheck>, after: seq<RequirementCheck>, key: CheckKey)
    ensures Patched(was, Removals(before, after), key) == if HasKey(before, key) && !HasKey(after, key) then None else was
  {
    if before != [] {
      var front, last := before[..|before| - 1], before[|before| - 1];
      RemovalsPatch(was, front, after, key);
      PatchJoins(was, Removals(front, after), RemovalOf(after, last), key);
      if RemovalOf(after, last) != [] {
        PatchOne(Patched(was, Removals(front, after), key), RemovalOf(after, last)[0], key);
      }
    }
  }

  /** Applying the difference to the earlier outcomes gives the later ones. */
  lemma PatchingGivesTheLaterOutcomes(before: seq<RequirementCheck>, after: seq<RequirementCheck>, key: CheckKey)
    requires KeysUnique(after)
    ensures Patched(StatusIn(before, key), Difference(before, after), key) == StatusIn(after, key)
  {
    PatchJoins(StatusIn(before, key), Changes(before, after), Removals(before, after), key);
    ChangesPatch(before, after, key);
    RemovalsPatch(Patched(StatusIn(before, key), Changes(before, after), key), before, after, key);
  }

  /** The keys of the changes, as the subsequence of a list they come from. */
  predicate InOrderOf(changes: seq<RequirementChange>, checks: seq<RequirementCheck>, at: seq<nat>) {
    && |at| == |changes|
    && (forall i :: 0 <= i < |at| ==> at[i] < |checks| && ChangedKey(changes[i]) == KeyOf(checks[at[i]]))
    && (forall i, j :: 0 <= i < j < |at| ==> at[i] < at[j])
  }

  lemma OrderExtends(changes: seq<RequirementChange>, checks: seq<RequirementCheck>, at: seq<nat>, c: RequirementChange)
    requires checks != [] && InOrderOf(changes, checks[..|checks| - 1], at)
    requires ChangedKey(c) == KeyOf(checks[|checks| - 1])
    ensures InOrderOf(changes + [c], checks, at + [|checks| - 1])
  {
  }

  lemma {:induction false} ChangesKeepTheLaterOrder(before: seq<RequirementCheck>, after: seq<RequirementCheck>)
    returns (at: seq<nat>)
    ensures InOrderOf(Changes(before, after), after, at)
  {
    if after == [] {
      at := [];
    } else {
      hide StatusIn;
      at := ChangesKeepTheLaterOrder(before, after[..|after| - 1]);
      if ChangeOf(before, after[|after| - 1]) != [] {
        OrderExtends(Changes(before, after[..|after| - 1]), after, at, ChangeOf(before, after[|after| - 1])[0]);
        at := at + [|after| - 1];
      }
    }
  }

  lemma {:induction false} RemovalsKeepTheEarlierOrder(before: seq<RequirementCheck>, after: seq<RequirementCheck>)
    returns (at: seq<nat>)
    ensures InOrderOf(Removals(before, after), before, at)
  {
    if before == [] {
      at := [];
    } else {
      hide HasKey;
      at := RemovalsKeepTheEarlierOrder(before[..|before| - 1], after);
      if RemovalOf(after, before[|before| - 1]) != [] {
        OrderExtends(Removals(before[..|before| - 1], after), before, at, RemovalOf(after, before[|before| - 1])[0]);
        at := at + [|before| - 1];
      }
    }
  }

  // ----- An assessment never repeats a key ----------------------------------

  predicate AllNamed(checks: seq<RequirementCheck>, name: string) {
    forall i :: 0 <= i < |checks| ==> checks[i].name == name
  }

  predicate NoneNamed(checks: seq<RequirementCheck>, name: string) {
    forall i :: 0 <= i < |checks| ==> checks[i].name != name
  }

  predicate NoneInCase(checks: seq<RequirementCheck>, caseName: string) {
    forall i :: 0 <= i < |checks| ==> checks[i].caseName != caseName
  }

  predicate NoCaseNamed(cases: seq<DesignCase>, name: string) {
    forall i :: 0 <= i < |cases| ==> CaseName(cases[i]) != name
  }

  predicate NoRequirementNamed(requirements: seq<Requirement>, name: string) {
    forall i :: 0 <= i < |requirements| ==> RequirementName(requirements[i]) != name
  }

  lemma OneRequirementInOneCase(p: Platform, d: Design, r: Requirement, c: DesignCase, solved: Outcome<Wing>)
    ensures var checks := CheckBounds(p, d, r, c, solved);
            && KeysUnique(checks) && AllNamed(checks, r.name)
            && forall i :: 0 <= i < |checks| ==> checks[i].caseName == c.flight.name
  {
    hide ReadSubject, RelativeMargin;
  }

  lemma UniqueJoins(a: seq<RequirementCheck>, b: seq<RequirementCheck>)
    requires KeysUnique(a) && KeysUnique(b)
    requires forall i, j :: 0 <= i < |a| && 0 <= j < |b| ==> KeyOf(a[i]) != KeyOf(b[j])
    ensures KeysUnique(a + b)
  {
  }

  lemma {:induction false} OneRequirementInItsCases(
    p: Platform, d: Design, r: Requirement, cases: seq<DesignCase>, solved: Outcome<Wing>)
    requires Distinct(cases, CaseName)
    ensures var checks := ChecksInCases(p, d, r, cases, solved);
            && KeysUnique(checks) && AllNamed(checks, r.name)
            && forall name :: NoCaseNamed(cases, name) ==> NoneInCase(checks, name)
  {
    hide CheckBounds, KeysUnique;
    if cases != [] {
      var front, last := cases[..|cases| - 1], cases[|cases| - 1];
      assert forall i :: 0 <= i < |front| ==> front[i] == cases[i];
      OneRequirementInItsCases(p, d, r, front, solved);
      OneRequirementInOneCase(p, d, r, last, solved);
      assert NoCaseNamed(front, CaseName(last));
      assert ChecksInCases(p, d, r, front, solved) + [] == ChecksInCases(p, d, r, front, solved);
      UniqueJoins(ChecksInCases(p, d, r, front, solved), CheckBounds(p, d, r, last, solved));
      forall name | NoCaseNamed(cases, name)
        ensures NoneInCase(ChecksInCases(p, d, r, cases, solved), name)
      {
        assert NoCaseNamed(front, name);
        assert CaseName(cases[|front|]) != name;
      }
    } else {
      NothingRepeats();
    }
  }

  lemma NothingRepeats()
    ensures KeysUnique([])
  {
  }

  lemma OneRequirement(p: Platform, d: Design, r: Requirement, solved: Outcome<Wing>)
    requires Distinct(d.cases, CaseName)
    ensures KeysUnique(ChecksOf(p, d, r, solved)) && AllNamed(ChecksOf(p, d, r, solved), r.name)
  {
    hide CheckBounds, ChecksInCases;
    OneRequirementInItsCases(p, d, r, d.cases, solved);
    OneRequirementInOneCase(p, d, r, NO_CASE, solved);
  }

  lemma {:induction false} RequirementsDoNotMeet(
    p: Platform, d: Design, requirements: seq<Requirement>, solved: Outcome<Wing>)
    requires Distinct(d.cases, CaseName) && Distinct(requirements, RequirementName)
    ensures KeysUnique(ChecksOver(p, d, requirements, solved))
    ensures forall name :: NoRequirementNamed(requirements, name) ==> NoneNamed(ChecksOver(p, d, requirements, solved), name)
  {
    hide ChecksOf, KeysUnique;
    if requirements != [] {
      var front, last := requirements[..|requirements| - 1], requirements[|requirements| - 1];
      assert forall i :: 0 <= i < |front| ==> front[i] == requirements[i];
      RequirementsDoNotMeet(p, d, front, solved);
      OneRequirement(p, d, last, solved);
      assert NoRequirementNamed(front, last.name);
      UniqueJoins(ChecksOver(p, d, front, solved), ChecksOf(p, d, last, solved));
      forall name | NoRequirementNamed(requirements, name)
        ensures NoneNamed(ChecksOver(p, d, requirements, solved), name)
      {
        assert NoRequirementNamed(front, name);
        assert RequirementName(requirements[|front|]) != name;
      }
    } else {
      NothingRepeats();
    }
  }

  /** With distinct case and requirement names no check is reported twice, so a
      preview's difference is exact. */
  lemma AssessmentKeysAreUnique(p: Platform, d: Design)
    requires Distinct(d.cases, CaseName) && Distinct(d.requirements, RequirementName)
    ensures KeysUnique(Assessment(p, d))
  {
    hide ChecksOver, SolveWing, KeysUnique;
    RequirementsDoNotMeet(p, d, d.requirements, SolveWing(p, d.wing));
  }
}
