/** The session as a state machine over its events. */
module SessionModel {
  import opened Quantities
  import opened Definition
  import opened Commands
  import opened Sweeps

  /** Identities are minted by a session, strictly increasing and never reused. */
  datatype RequestId = RequestId(session: string, sequence: nat)

  const NO_REQUEST := RequestId("", 0)

  /** What a session asks of the designs it holds: the edits they accept, the
      sweeps they can plan, and the fingerprint of their inputs. */
  datatype Core = Core(
    apply: (Design, Command) -> Outcome<Design>,
    canSweep: (Design, SweepSettings) -> bool,
    snapshot: Design -> string
  )

  datatype SessionState = SessionState(
    name: string,
    history: seq<Design>,
    cursor: nat,
    next: nat,
    current: RequestId,
    currentSweep: RequestId
  ) {
    /** The cursor is on a revision, and an outstanding identity is one of the
        session's own. */
    predicate Valid() {
      && cursor < |history|
      && (current == NO_REQUEST || (current.session == name && 1 <= current.sequence <= next))
      && (currentSweep == NO_REQUEST || (currentSweep.session == name && 1 <= currentSweep.sequence <= next))
    }

    function Design(): Design
      requires Valid()
    {
      history[cursor]
    }
  }

  datatype Event =
    | Do(command: Command)
    | Undo
    | Redo
    | Load(loaded: Design)
    | RequestEvaluation
    | RequestPreview(previewed: Command)
    | RequestSweep(settings: SweepSettings)

  function Fresh(name: string, d: Design): SessionState {
    SessionState(name, [d], 0, 0, NO_REQUEST, NO_REQUEST)
  }

  /** Appends over the redo tail and moves onto the new revision. */
  function Record(s: SessionState, d: Design): SessionState
    requires s.Valid()
  {
    s.(history := s.history[..s.cursor + 1] + [d], cursor := s.cursor + 1, current := NO_REQUEST,
       currentSweep := NO_REQUEST)
  }

  function MoveCursor(s: SessionState, to: nat): SessionState {
    s.(cursor := to, current := NO_REQUEST, currentSweep := NO_REQUEST)
  }

  function Step(core: Core, s: SessionState, e: Event): (r: SessionState)
    requires s.Valid()
    ensures r.Valid() && r.name == s.name && r.next >= s.next
  {
    match e
    case Do(c) =>
      var edited := core.apply(s.Design(), c);
      if edited.Refused? then s else Record(s, edited.value)
    case Undo => if s.cursor == 0 then s else MoveCursor(s, s.cursor - 1)
    case Redo => if s.cursor == |s.history| - 1 then s else MoveCursor(s, s.cursor + 1)
    case Load(d) => Record(s, d)
    case RequestEvaluation => s.(next := s.next + 1, current := RequestId(s.name, s.next + 1))
    case RequestPreview(c) => if core.apply(s.Design(), c).Refused? then s else s.(next := s.next + 2)
    case RequestSweep(settings) =>
      if !core.canSweep(s.Design(), settings) then s
      else s.(next := s.next + 1, currentSweep := RequestId(s.name, s.next + 1))
  }

  function Run(core: Core, s: SessionState, events: seq<Event>): (r: SessionState)
    requires s.Valid()
    ensures r.Valid() && r.name == s.name && r.next >= s.next
  {
    if events == [] then s else Step(core, Run(core, s, events[..|events| - 1]), events[|events| - 1])
  }

  /** The design is replaced: an accepted edit, a cursor move, a load. */
  predicate ChangesDesign(core: Core, s: SessionState, e: Event)
    requires s.Valid()
  {
    match e
    case Do(c) => core.apply(s.Design(), c).Ok?
    case Undo => s.cursor > 0
    case Redo => s.cursor < |s.history| - 1
    case Load(_) => true
    case _ => false
  }

  // ----- Results and their acceptance ---------------------------------------

  /** What a result carries of the request it answers. */
  datatype Result = Result(request: RequestId, snapshot: string)

  datatype SweepAnswer = SweepAnswer(request: RequestId, snapshot: string, fingerprint: string)

  /** What an evaluation requested in a state answers with. */
  function Answer(core: Core, s: SessionState): Result
    requires s.Valid()
  {
    Result(RequestId(s.name, s.next + 1), core.snapshot(s.Design()))
  }

  predicate Accepts(core: Core, s: SessionState, e: Result)
    requires s.Valid()
  {
    s.current != NO_REQUEST && e.request == s.current && e.snapshot == core.snapshot(s.Design())
  }

  function AnswerSweep(core: Core, s: SessionState, fingerprint: string): SweepAnswer
    requires s.Valid()
  {
    SweepAnswer(RequestId(s.name, s.next + 1), core.snapshot(s.Design()), fingerprint)
  }

  predicate AcceptsSweep(core: Core, s: SessionState, a: SweepAnswer, fingerprint: string)
    requires s.Valid()
  {
    && s.currentSweep != NO_REQUEST && a.request == s.currentSweep
    && a.snapshot == core.snapshot(s.Design()) && a.fingerprint == fingerprint
  }

  /** The event makes an earlier evaluation out of date. */
  predicate Retires(core: Core, s: SessionState, e: Event)
    requires s.Valid()
  {
    e == RequestEvaluation || ChangesDesign(core, s, e)
  }

  predicate RetiresSweep(core: Core, s: SessionState, e: Event)
    requires s.Valid()
  {
    ChangesDesign(core, s, e) || (e.RequestSweep? && core.canSweep(s.Design(), e.settings))
  }

  /** Nothing in the run retires an evaluation requested before it. */
  predicate NothingRetires(core: Core, s: SessionState, events: seq<Event>)
    requires s.Valid()
  {
    forall n :: 0 <= n < |events| ==> !Retires(core, Run(core, s, events[..n]), events[n])
  }

  predicate NothingRetiresSweep(core: Core, s: SessionState, events: seq<Event>)
    requires s.Valid()
  {
    forall n :: 0 <= n < |events| ==> !RetiresSweep(core, Run(core, s, events[..n]), events[n])
  }

  lemma NothingRetiresExtends(core: Core, s: SessionState, events: seq<Event>)
    requires s.Valid() && events != []
    ensures var front := events[..|events| - 1];
            && (NothingRetires(core, s, events)
                <==> NothingRetires(core, s, front) && !Retires(core, Run(core, s, front), events[|front|]))
            && (NothingRetiresSweep(core, s, events)
                <==> NothingRetiresSweep(core, s, front) && !RetiresSweep(core, Run(core, s, front), events[|front|]))
  {
    hide Retires, RetiresSweep, Run;
    var front := events[..|events| - 1];
    assert forall n :: 0 <= n < |front| ==> front[..n] == events[..n] && front[n] == events[n];
    assert events[..|front|] == front;
  }

  lemma EmptyRunRetiresNothing(core: Core, s: SessionState)
    requires s.Valid()
    ensures NothingRetires(core, s, []) && NothingRetiresSweep(core, s, [])
  {
  }

  lemma OneStepOutstanding(core: Core, s: SessionState, e: Event, q: nat)
    requires s.Valid() && 1 <= q <= s.next
    ensures var r := Step(core, s, e);
            && (Retires(core, s, e) ==> r.current != RequestId(s.name, q))
            && (!Retires(core, s, e) ==> r.current == s.current && r.Design() == s.Design())
            && (RetiresSweep(core, s, e) ==> r.currentSweep != RequestId(s.name, q))
            && (!RetiresSweep(core, s, e) ==> r.currentSweep == s.currentSweep && r.Design() == s.Design())
  {
    match e
    case Do(_) =>
    case Undo =>
    case Redo =>
    case Load(_) =>
    case RequestEvaluation =>
    case RequestPreview(_) =>
    case RequestSweep(_) =>
  }

  /** Past an evaluation's own event, its identity is outstanding exactly while
      nothing retires it, and then the design is the one it was computed from. */
  lemma {:induction false} OutstandingExactlyWhileNothingRetires(core: Core, s: SessionState, events: seq<Event>)
    requires s.Valid() && s.current == RequestId(s.name, s.next) && s.next >= 1
    ensures var r := Run(core, s, events);
            && (r.current == s.current <==> NothingRetires(core, s, events))
            && (NothingRetires(core, s, events) ==> r.Design() == s.Design())
  {
    hide Step, Retires, NothingRetires;
    if events != [] {
      var front, last := events[..|events| - 1], events[|events| - 1];
      OutstandingExactlyWhileNothingRetires(core, s, front);
      NothingRetiresExtends(core, s, events);
      OneStepOutstanding(core, Run(core, s, front), last, s.next);
    } else {
      EmptyRunRetiresNothing(core, s);
    }
  }

  /** Once an identity is not outstanding it never is again. */
  lemma {:induction false} Superseded(core: Core, s: SessionState, events: seq<Event>, q: nat)
    requires s.Valid() && 1 <= q <= s.next
    ensures s.current.sequence != q ==> Run(core, s, events).current.sequence != q
    ensures s.currentSweep.sequence != q ==> Run(core, s, events).currentSweep.sequence != q
  {
    hide Step;
    if events != [] {
      Superseded(core, s, events[..|events| - 1], q);
      OneStepNeverReturns(core, Run(core, s, events[..|events| - 1]), events[|events| - 1], q);
    }
  }

  lemma OneStepNeverReturns(core: Core, s: SessionState, e: Event, q: nat)
    requires s.Valid() && 1 <= q <= s.next
    ensures s.current.sequence != q ==> Step(core, s, e).current.sequence != q
    ensures s.currentSweep.sequence != q ==> Step(core, s, e).currentSweep.sequence != q
  {
  }

  lemma {:induction false} RunsGoOn(core: Core, s: SessionState, events: seq<Event>, more: seq<Event>)
    requires s.Valid()
    ensures Run(core, s, events + more) == Run(core, Run(core, s, events), more)
  {
    hide Step;
    if more == [] {
      assert events + more == events;
    } else {
      assert (events + more)[..|events + more| - 1] == events + more[..|more| - 1];
      RunsGoOn(core, s, events, more[..|more| - 1]);
    }
  }

  /** Acceptance: over every run, a result is accepted exactly when it answers
      the latest evaluation request and no design change succeeded since, even
      if undo or a load restored the very inputs it was computed from. */
  lemma AcceptsExactlyTheLatestEvaluation(core: Core, s: SessionState, after: seq<Event>)
    requires s.Valid()
    ensures Accepts(core, Run(core, Step(core, s, RequestEvaluation), after), Answer(core, s))
       <==> NothingRetires(core, Step(core, s, RequestEvaluation), after)
  {
    hide Run, NothingRetires;
    var requested := Step(core, s, RequestEvaluation);
    OutstandingExactlyWhileNothingRetires(core, requested, after);
  }

  lemma {:induction false} SweepOutstandingExactlyWhileNothingRetires(core: Core, s: SessionState, events: seq<Event>)
    requires s.Valid() && s.currentSweep == RequestId(s.name, s.next) && s.next >= 1
    ensures var r := Run(core, s, events);
            && (r.currentSweep == s.currentSweep <==> NothingRetiresSweep(core, s, events))
            && (NothingRetiresSweep(core, s, events) ==> r.Design() == s.Design())
  {
    hide Step, RetiresSweep, NothingRetiresSweep;
    if events != [] {
      var front, last := events[..|events| - 1], events[|events| - 1];
      SweepOutstandingExactlyWhileNothingRetires(core, s, front);
      NothingRetiresExtends(core, s, events);
      OneStepOutstanding(core, Run(core, s, front), last, s.next);
    } else {
      EmptyRunRetiresNothing(core, s);
    }
  }

  /** The sweep stream obeys the same law by itself, with its settings checked
      as well: a sweep is accepted exactly when it is the latest, no design
      change succeeded since, and the settings now selected are its own. */
  lemma AcceptsExactlyTheLatestSweep(
    core: Core, s: SessionState, settings: SweepSettings, after: seq<Event>, fingerprint: string, selected: string)
    requires s.Valid() && core.canSweep(s.Design(), settings)
    ensures AcceptsSweep(core, Run(core, Step(core, s, RequestSweep(settings)), after),
                         AnswerSweep(core, s, fingerprint), selected)
       <==> NothingRetiresSweep(core, Step(core, s, RequestSweep(settings)), after) && fingerprint == selected
  {
    hide Run, NothingRetiresSweep;
    SweepOutstandingExactlyWhileNothingRetires(core, Step(core, s, RequestSweep(settings)), after);
  }

  /** The event mints this identity. */
  predicate Mints(core: Core, s: SessionState, e: Event, q: nat)
    requires s.Valid()
  {
    s.next < q <= Step(core, s, e).next
  }

  /** Identities never repeat over a session: whatever two events mint, and
      whatever happens between them, they mint different identities. */
  lemma IdentitiesNeverRepeat(core: Core, s: SessionState, events: seq<Event>, i: nat, j: nat, q: nat)
    requires s.Valid() && i < j < |events|
    requires Mints(core, Run(core, s, events[..i]), events[i], q)
    ensures !Mints(core, Run(core, s, events[..j]), events[j], q)
  {
    hide Step;
    assert events[..j] == events[..i + 1] + events[i + 1..j];
    RunsGoOn(core, s, events[..i + 1], events[i + 1..j]);
    assert events[..i + 1][..i] == events[..i];
    assert Run(core, s, events[..i + 1]) == Step(core, Run(core, s, events[..i]), events[i]);
  }

  /** What a preview or a sweep mints is never the outstanding evaluation, then
      or ever after; and what an evaluation mints is never the outstanding sweep. */
  lemma OtherIdentitiesAreNeverAccepted(core: Core, s: SessionState, e: Event, after: seq<Event>, q: nat)
    requires s.Valid() && Mints(core, s, e, q)
    ensures e != RequestEvaluation ==> Run(core, Step(core, s, e), after).current.sequence != q
    ensures !e.RequestSweep? ==> Run(core, Step(core, s, e), after).currentSweep.sequence != q
  {
    hide Run;
    Superseded(core, Step(core, s, e), after, q);
  }

  // ----- History ------------------------------------------------------------

  /** A refused edit changes nothing at all. */
  lemma RefusedEditsChangeNothing(core: Core, s: SessionState, e: Event)
    requires s.Valid()
    ensures !ChangesDesign(core, s, e) ==> Step(core, s, e).history == s.history && Step(core, s, e).cursor == s.cursor
    ensures (e.Do? || e.Undo? || e.Redo?) && !ChangesDesign(core, s, e) ==> Step(core, s, e) == s
    ensures e.RequestPreview? && core.apply(s.Design(), e.previewed).Refused? ==> Step(core, s, e) == s
    ensures e.RequestSweep? && !core.canSweep(s.Design(), e.settings) ==> Step(core, s, e) == s
  {
  }

  /** No event touches a revision at or before the cursor. */
  lemma RevisionsUpToTheCursorStand(core: Core, s: SessionState, e: Event)
    requires s.Valid()
    ensures var r := Step(core, s, e);
            |r.history| > s.cursor && r.history[..s.cursor + 1] == s.history[..s.cursor + 1]
  {
  }

  function Repeated(e: Event, k: nat): seq<Event> {
    seq(k, _ => e)
  }

  lemma {:induction false} UndoRun(core: Core, s: SessionState, k: nat)
    requires s.Valid() && k <= s.cursor
    ensures var r := Run(core, s, Repeated(Undo, k)); r.history == s.history && r.cursor == s.cursor - k
  {
    if k > 0 {
      assert Repeated(Undo, k)[..k - 1] == Repeated(Undo, k - 1);
      UndoRun(core, s, k - 1);
    }
  }

  lemma {:induction false} RedoRun(core: Core, s: SessionState, k: nat)
    requires s.Valid() && s.cursor + k < |s.history|
    ensures var r := Run(core, s, Repeated(Redo, k)); r.history == s.history && r.cursor == s.cursor + k
  {
    if k > 0 {
      assert Repeated(Redo, k)[..k - 1] == Repeated(Redo, k - 1);
      RedoRun(core, s, k - 1);
    }
  }

  /** k undos and k redos restore the design and the whole history. */
  lemma UndosThenRedosRestore(core: Core, s: SessionState, k: nat)
    requires s.Valid() && k <= s.cursor
    ensures var r := Run(core, Run(core, s, Repeated(Undo, k)), Repeated(Redo, k));
            r.history == s.history && r.cursor == s.cursor && r.Design() == s.Design()
  {
    hide Step, Run;
    UndoRun(core, s, k);
    RedoRun(core, Run(core, s, Repeated(Undo, k)), k);
  }

  /** Undoing an accepted edit restores the design it was made on. */
  lemma UndoRestoresTheEdited(core: Core, s: SessionState, c: Command)
    requires s.Valid() && core.apply(s.Design(), c).Ok?
    ensures Step(core, Step(core, s, Do(c)), Undo).Design() == s.Design()
    ensures Step(core, Step(core, Step(core, s, Do(c)), Undo), Redo).Design() == core.apply(s.Design(), c).value
  {
  }

  // ----- What every revision of every run keeps -----------------------------

  predicate AllKept(history: seq<Design>, keeps: Design -> bool) {
    forall i :: 0 <= i < |history| ==> keeps(history[i])
  }

  /** Whatever every accepted edit and every loaded draft keeps, every revision
      of every run keeps, those still reachable by redo included. */
  lemma {:induction false} RunsKeepWhatEditsKeep(
    core: Core, s: SessionState, events: seq<Event>, keeps: Design -> bool)
    requires s.Valid() && AllKept(s.history, keeps)
    requires forall d, c :: keeps(d) && core.apply(d, c).Ok? ==> keeps(core.apply(d, c).value)
    requires forall i :: 0 <= i < |events| && events[i].Load? ==> keeps(events[i].loaded)
    ensures AllKept(Run(core, s, events).history, keeps)
  {
    if events != [] {
      var front := events[..|events| - 1];
      assert forall i :: 0 <= i < |front| ==> front[i] == events[i];
      RunsKeepWhatEditsKeep(core, s, front, keeps);
      OneStepKeeps(core, Run(core, s, front), events[|front|], keeps);
    }
  }

  lemma OneStepKeeps(core: Core, s: SessionState, e: Event, keeps: Design -> bool)
    requires s.Valid() && AllKept(s.history, keeps)
    requires forall d, c :: keeps(d) && core.apply(d, c).Ok? ==> keeps(core.apply(d, c).value)
    requires e.Load? ==> keeps(e.loaded)
    ensures AllKept(Step(core, s, e).history, keeps)
  {
    if e.Do? && core.apply(s.Design(), e.command).Ok? {
      var edited := core.apply(s.Design(), e.command).value;
      assert keeps(s.history[s.cursor]);
      assert keeps(edited);
    }
  }
}
