/** The session: an undoable history in a slice, and two streams of acceptance
    over one counter. */
module Sessions {
  import opened Quantities
  import opened Definition
  import opened Planforms
  import opened Keys
  import opened Lists
  import opened Commands
  import opened Editing
  import opened Snapshots
  import opened Sweeps
  import opened SessionModel
  import opened Revisions
  import Assessments
  import Requirements
  import DiffChecks
  import EditEffects

  function CoreOf(p: Platform): Core {
    Core((d: Design, c: Command) => Apply(p, d, c),
         (d: Design, s: SweepSettings) => PlanSweep(p, d, s).Ok?,
         (d: Design) => Snapshot(p, d))
  }

  // ----- The history slice --------------------------------------------------

  /** Every stored revision reads as its design, out of arrays that are owned and
      are not the history's. */
  ghost predicate Holds(history: Slice<StoredDesign>, designs: seq<Design>, owned: set<object>)
    reads history.backing, owned
  {
    && history.Valid() && |designs| == history.len
    && forall i :: 0 <= i < history.len ==>
         && history.backing[i].lists.Valid() && history.backing[i].lists.Arrays() <= owned
         && history.backing[i].View() == designs[i]
  }

  /** Appends over the redo tail, in the same array while it has room. The
      revisions before it are untouched, whatever their slots share. */
  method AppendRevision(
    history: Slice<StoredDesign>, keep: nat, d: StoredDesign, ghost designs: seq<Design>, ghost owned: set<object>)
    returns (longer: Slice<StoredDesign>)
    requires Holds(history, designs, owned) && keep <= history.len
    requires d.lists.Valid() && d.lists.Arrays() <= owned && history.backing !in owned
    modifies history.backing
    ensures longer.backing !in owned && (longer.backing == history.backing || fresh(longer.backing))
    ensures Holds(longer, designs[..keep] + [old(d.View())], owned)
  {
    hide StoredDesign.View, StoredLists.View, StoredLists.Valid, StoredLists.Arrays;
    ghost var before, view := history.View(), d.View();
    assert forall i :: 0 <= i < keep ==> before[i] == history.backing[i];
    longer := Append(Slice(history.backing, keep), d);
    assert longer.View() == before[..keep] + [d];
    assert forall i :: 0 <= i < longer.len ==> longer.backing[i] == longer.View()[i];
    assert d.View() == view;
  }

  /** What a command would do, without doing it. */
  datatype Preview = Preview(
    before: Assessments.Assessed, after: Assessments.Assessed, changes: seq<DiffChecks.RequirementChange>)

  /** An assessment answering a request. */
  function AssessedAs(p: Platform, d: Design, request: RequestId): Assessments.Assessed {
    Assessments.Assess(p, d).(request := request)
  }

  /** The two designs assessed under the next two identities, and how their
      requirement outcomes differ. */
  function PreviewOf(p: Platform, s: SessionState, c: Command): Outcome<Preview>
    requires s.Valid()
  {
    var edited :- Apply(p, s.Design(), c);
    var before := AssessedAs(p, s.Design(), RequestId(s.name, s.next + 1));
    var after := AssessedAs(p, edited, RequestId(s.name, s.next + 2));
    Ok(Preview(before, after, DiffChecks.Difference(before.checks, after.checks)))
  }

  datatype SweepReport = SweepReport(request: RequestId, result: SweepResult)

  class Session {
    const p: Platform
    const name: string
    var history: Slice<StoredDesign>
    var cursor: nat
    var next: nat
    var current: RequestId
    var currentSweep: RequestId
    ghost var revisions: seq<Design>
    ghost var owned: set<object>

    ghost function Repr(): set<object>
      reads this
    {
      {this, history.backing} + owned
    }

    ghost predicate Valid()
      reads this, Repr()
    {
      && this !in owned && history.backing !in owned
      && Holds(history, revisions, owned) && State().Valid()
    }

    ghost function State(): SessionState
      reads this
    {
      SessionState(name, revisions, cursor, next, current, currentSweep)
    }

    /** Starts over a copy of the initial design. */
    constructor (platform: Platform, title: string, initial: Design)
      ensures Valid() && fresh(Repr())
      ensures p == platform && State() == Fresh(title, initial)
    {
      hide StoredDesign.View, StoredLists.View, StoredLists.Valid;
      p := platform;
      name := title;
      var stored := Store(initial);
      ghost var arrays := stored.lists.Arrays();
      var backing := new StoredDesign[1](_ => stored);
      history := Slice(backing, 1);
      cursor, next := 0, 0;
      current, currentSweep := NO_REQUEST, NO_REQUEST;
      revisions := [initial];
      owned := arrays;
      new;
      assert history.backing[0] == stored;
    }

    method InvalidateRequest()
      modifies this`current, this`currentSweep
      ensures current == NO_REQUEST && currentSweep == NO_REQUEST
    {
      current := NO_REQUEST;
      currentSweep := NO_REQUEST;
    }

    /** Records a new revision and moves onto it. */
    method Record(d: StoredDesign, ghost arrays: set<object>)
      requires Valid() && d.lists.Valid() && d.lists.Arrays() == arrays
      requires this !in arrays && history.backing !in arrays
      modifies this, history.backing
      ensures Valid() && fresh(Repr() - old(Repr()) - arrays)
      ensures State() == SessionModel.Record(old(State()), old(d.View()))
    {
      hide StoredDesign.View, StoredLists.View, StoredLists.Valid, StoredLists.Arrays, Holds;
      ghost var view, all := d.View(), owned + arrays;
      HoldsMore(history, revisions, owned, all);
      var longer := AppendRevision(history, cursor + 1, d, revisions, all);
      history, cursor := longer, cursor + 1;
      revisions, owned := revisions[..cursor] + [view], all;
      InvalidateRequest();
    }

    /** Applies a command and records the result. A refused one changes nothing. */
    method Do(c: Command) returns (error: Option<Issues>)
      requires Valid()
      modifies this, history.backing
      ensures Valid() && fresh(Repr() - old(Repr()))
      ensures error == var edited := Apply(p, old(State()).Design(), c);
                       if edited.Refused? then Some(edited.issues) else None
      ensures State() == Step(CoreOf(p), old(State()), SessionModel.Do(c))
    {
      hide Apply, StoredDesign.View, StoredLists.View, StoredLists.Valid, StoredLists.Arrays, Snapshot, PlanSweep,
        SessionModel.Record;
      var edited := ApplyStored(p, history.backing[cursor], c);
      if edited.Refused? {
        return Some(edited.issues);
      }
      error := None;
      ghost var arrays := edited.value.lists.Arrays();
      Record(edited.value, arrays);
    }

    method Undo() returns (error: Option<Issues>)
      requires Valid()
      modifies this`cursor, this`current, this`currentSweep
      ensures Valid() && State() == Step(CoreOf(p), old(State()), SessionModel.Undo)
      ensures error == if old(cursor) == 0 then Some([IssueMissing]) else None
    {
      hide Apply, Snapshot, PlanSweep, StoredDesign.View, StoredLists.View, StoredLists.Valid, StoredLists.Arrays;
      if cursor == 0 {
        return Some([IssueMissing]);
      }
      cursor := cursor - 1;
      InvalidateRequest();
      error := None;
    }

    method Redo() returns (error: Option<Issues>)
      requires Valid()
      modifies this`cursor, this`current, this`currentSweep
      ensures Valid() && State() == Step(CoreOf(p), old(State()), SessionModel.Redo)
      ensures error == if old(cursor) == old(history.len) - 1 then Some([IssueMissing]) else None
    {
      hide Apply, Snapshot, PlanSweep, StoredDesign.View, StoredLists.View, StoredLists.Valid, StoredLists.Arrays;
      if cursor == history.len - 1 {
        return Some([IssueMissing]);
      }
      cursor := cursor + 1;
      InvalidateRequest();
      error := None;
    }

    /** Replaces the design with a copy of a draft, as a new revision. */
    method Load(loaded: Design)
      requires Valid()
      modifies this, history.backing
      ensures Valid() && fresh(Repr() - old(Repr()))
      ensures State() == Step(CoreOf(p), old(State()), SessionModel.Load(loaded))
    {
      hide StoredDesign.View, StoredLists.View, StoredLists.Valid, StoredLists.Arrays, SessionModel.Record;
      var stored := Store(loaded);
      ghost var arrays := stored.lists.Arrays();
      Record(stored, arrays);
    }

    /** The design the cursor is on, read out of its slices. */
    method CurrentDesign() returns (d: Design)
      requires Valid()
      ensures d == State().Design()
    {
      hide StoredDesign.View, StoredLists.View, StoredLists.Valid, StoredLists.Arrays;
      d := history.backing[cursor].View();
    }

    /** Mints a fresh identity and assesses the current design under it. */
    method Evaluate() returns (e: Assessments.Assessed)
      requires Valid()
      modifies this`next, this`current
      ensures Valid() && State() == Step(CoreOf(p), old(State()), RequestEvaluation)
      ensures e == AssessedAs(p, old(State()).Design(), RequestId(name, old(next) + 1))
    {
      hide AssessedAs, Holds;
      var d := CurrentDesign();
      next := next + 1;
      current := RequestId(name, next);
      e := AssessedAs(p, d, current);
    }

    /** Takes only the answer to the current request over the current inputs. */
    method Accept(e: Assessments.Assessed) returns (error: Option<Issues>)
      requires Valid()
      ensures error.None? <==> Accepts(CoreOf(p), State(), Result(e.request, e.snapshot))
    {
      hide Snapshot, Holds;
      if current == NO_REQUEST || e.request != current {
        return Some([IssueInvalid]);
      }
      var d := CurrentDesign();
      if e.snapshot != Snapshot(p, d) {
        return Some([IssueInvalid]);
      }
      error := None;
    }

    method Freshness(e: Assessments.Assessed) returns (status: ResultStatus)
      requires Valid()
      ensures status == if Accepts(CoreOf(p), State(), Result(e.request, e.snapshot)) then ResultComputed else ResultStale
    {
      hide Snapshot, Holds;
      var d := CurrentDesign();
      if current == NO_REQUEST || e.request != current || e.snapshot != Snapshot(p, d) {
        return ResultStale;
      }
      status := ResultComputed;
    }

    /** Assesses what a command would produce. Both answers carry identities of
        their own, and neither is the current one. */
    method DoPreview(c: Command) returns (r: Outcome<Preview>)
      requires Valid()
      modifies this`next
      ensures Valid() && State() == Step(CoreOf(p), old(State()), RequestPreview(c))
      ensures r == PreviewOf(p, old(State()), c)
    {
      hide AssessedAs, Holds, Apply, Snapshot, PlanSweep;
      var d := CurrentDesign();
      var edited := Apply(p, d, c);
      if edited.Refused? {
        return Refused(edited.issues);
      }
      next := next + 1;
      var before := AssessedAs(p, d, RequestId(name, next));
      next := next + 1;
      var after := AssessedAs(p, edited.value, RequestId(name, next));
      var changes := DiffChecks.Diff(before.checks, after.checks);
      r := Ok(Preview(before, after, changes));
    }

    /** Samples a range under a fresh identity of the sweep stream. */
    method Sweep(settings: SweepSettings) returns (r: Outcome<SweepReport>)
      requires Valid()
      modifies this`next, this`currentSweep
      ensures Valid() && State() == Step(CoreOf(p), old(State()), RequestSweep(settings))
      ensures match PlanSweep(p, old(State()).Design(), settings)
              case Refused(issues) => r == Refused(issues)
              case Ok(plan) => r == Ok(SweepReport(RequestId(name, old(next) + 1), RunPlan(p, plan)))
    {
      hide Holds, PlanSweep, RunPlan, Snapshot, Apply;
      var d := CurrentDesign();
      var plan := PlanSweep(p, d, settings);
      if plan.Refused? {
        return Refused(plan.issues);
      }
      next := next + 1;
      var result := Sweeps.Run(p, plan.value);
      currentSweep := RequestId(name, next);
      r := Ok(SweepReport(currentSweep, result));
    }

    method AcceptSweep(a: SweepReport, settings: SweepSettings) returns (error: Option<Issues>)
      requires Valid()
      ensures error.None?
         <==> AcceptsSweep(CoreOf(p), State(), SweepAnswer(a.request, a.result.snapshot, a.result.fingerprint),
                           Fingerprint(p, settings))
    {
      hide Snapshot, Holds, Fingerprint;
      if currentSweep == NO_REQUEST || a.request != currentSweep {
        return Some([IssueInvalid]);
      }
      var d := CurrentDesign();
      if a.result.snapshot != Snapshot(p, d) || a.result.fingerprint != Fingerprint(p, settings) {
        return Some([IssueInvalid]);
      }
      error := None;
    }
  }

  lemma HoldsMore(history: Slice<StoredDesign>, designs: seq<Design>, owned: set<object>, all: set<object>)
    requires Holds(history, designs, owned) && owned <= all
    ensures Holds(history, designs, all)
  {
  }

  // ----- What every revision of every session keeps -------------------------

  /** At most two drivers, each a positive value of its dimension, and no name
      used twice in one list. */
  ghost predicate SoundDesign(d: Design) {
    && SuppliedDrivers(d.wing.drivers) <= 2 && DriversPositive(d.wing.drivers)
    && NamesDistinct(ListingsOf(d))
  }

  lemma EditsKeepSoundness(p: Platform, d: Design, c: Command)
    requires p.Lawful() && SoundDesign(d) && Apply(p, d, c).Ok?
    ensures SoundDesign(Apply(p, d, c).value)
  {
    hide Apply, NamesDistinct, DriversPositive, SuppliedDrivers;
    EditsKeepTheDriversSound(p, d, c);
    EditsKeepNamesDistinct(p, d, c);
  }

  ghost predicate LoadsAreSound(events: seq<Event>) {
    forall i :: 0 <= i < |events| && events[i].Load? ==> SoundDesign(events[i].loaded)
  }

  /** Over every run whose loaded drafts are sound, every revision in the history
      is sound, those still reachable by redo included. */
  lemma RunsKeepEveryRevisionSound(p: Platform, s: SessionState, events: seq<Event>, n: nat)
    requires p.Lawful() && s.Valid() && LoadsAreSound(events)
    requires forall i :: 0 <= i < |s.history| ==> SoundDesign(s.history[i])
    requires n < |SessionModel.Run(CoreOf(p), s, events).history|
    ensures SoundDesign(SessionModel.Run(CoreOf(p), s, events).history[n])
  {
    hide Apply, SoundDesign, PlanSweep, Snapshot;
    ghost var keeps := (d: Design) => SoundDesign(d);
    forall d, c | keeps(d) && CoreOf(p).apply(d, c).Ok?
      ensures keeps(CoreOf(p).apply(d, c).value)
    {
      EditsKeepSoundness(p, d, c);
    }
    RunsKeepWhatEditsKeep(CoreOf(p), s, events, keeps);
    assert keeps(SessionModel.Run(CoreOf(p), s, events).history[n]);
  }

  /** Over every run whose loaded drafts are dimensioned, everything entered in
      every revision is left out or of its own dimension. */
  lemma RunsKeepEveryRevisionDimensioned(p: Platform, s: SessionState, events: seq<Event>, n: nat)
    requires s.Valid()
    requires forall i :: 0 <= i < |events| && events[i].Load? ==> EditEffects.WellDimensioned(events[i].loaded)
    requires forall i :: 0 <= i < |s.history| ==> EditEffects.WellDimensioned(s.history[i])
    requires n < |SessionModel.Run(CoreOf(p), s, events).history|
    ensures EditEffects.WellDimensioned(SessionModel.Run(CoreOf(p), s, events).history[n])
  {
    hide Apply, EditEffects.WellDimensioned, PlanSweep, Snapshot;
    ghost var keeps := (d: Design) => EditEffects.WellDimensioned(d);
    forall d, c | keeps(d) && CoreOf(p).apply(d, c).Ok?
      ensures keeps(CoreOf(p).apply(d, c).value)
    {
      EditEffects.EditsKeepDimensions(p, d, c);
    }
    RunsKeepWhatEditsKeep(CoreOf(p), s, events, keeps);
    assert keeps(SessionModel.Run(CoreOf(p), s, events).history[n]);
  }

  /** A preview's changes are exact between designs without repeated names. */
  lemma PreviewsAreExact(p: Platform, d: Design, c: Command, key: DiffChecks.CheckKey)
    requires p.Lawful() && SoundDesign(d) && Apply(p, d, c).Ok?
    ensures var before, after := Assessments.Assess(p, d).checks, Assessments.Assess(p, Apply(p, d, c).value).checks;
            && DiffChecks.CountKey(DiffChecks.Difference(before, after), key)
               == (if DiffChecks.StatusIn(before, key) != DiffChecks.StatusIn(after, key) then 1 else 0)
            && DiffChecks.Patched(DiffChecks.StatusIn(before, key), DiffChecks.Difference(before, after), key)
               == DiffChecks.StatusIn(after, key)
  {
    hide Apply, Assessments.Assess, DiffChecks.Difference, DiffChecks.StatusIn;
    var e := Apply(p, d, c).value;
    EditsKeepSoundness(p, d, c);
    AssessedChecks(p, d);
    AssessedChecks(p, e);
    DiffChecks.AssessmentKeysAreUnique(p, d);
    DiffChecks.AssessmentKeysAreUnique(p, e);
    DiffChecks.DifferenceIsExact(Assessments.Assess(p, d).checks, Assessments.Assess(p, e).checks, key);
    DiffChecks.PatchingGivesTheLaterOutcomes(Assessments.Assess(p, d).checks, Assessments.Assess(p, e).checks, key);
  }

  lemma AssessedChecks(p: Platform, d: Design)
    ensures Assessments.Assess(p, d).checks == Requirements.Assessment(p, d)
  {
  }
}
