/**
 Executions as their durable steps, over any run of submissions, executions, startups,
 other writers and crashes: what a restarted manager reads back, and which executions the
 generation fence lets start.
 */
module ExecutionProtocol {
  import opened Models
  import opened LineFiles
  import opened Replay
  import opened Stores
  import opened ContinuityEngines
  import opened Reconstruction
  import opened DeterministicExecution
  import opened ExecutionLog

  /** How far an execution has come: its last durable step, or `Started`, which leaves no trace in the files. */
  datatype Phase =
    | RecordSaved
    | EventQueued
    | Started(o: Outcome)
    | OutcomeSaved(o: Outcome)
    | OutcomeLogged(o: Outcome)
    | Fenced(recorded: Status)

  /** What has been done for an execution: its record, saved at position `at` under `continuityId`, and how far it came. */
  datatype History = History(task: Task, continuityId: string, at: nat, phase: Phase)

  datatype Worker = Created | Ended | WorkerFailed

  /** What the running process holds of an execution; `era` counts the startups before it was submitted. */
  datatype Live = Live(generation: int, era: nat, status: Status, reason: Option<FailureReason>, worker: Worker)

  /** A worker started, in era `started`, for an execution submitted in era `submitted`. */
  datatype Start = Start(x: string, submitted: nat, started: nat)

  /**
   `counter` is the number in the generation file, `current` the one the runtime engine
   holds, `era` how many startups and crashes there have been.
   */
  datatype World = World(
    memory: Memory, written: seq<Op>,
    history: map<string, History>, live: map<string, Live>,
    current: int, counter: int, era: nat, starts: seq<Start>)

  datatype Move =
    | Submit(x: string, continuityId: string, task: Task)
    | LogSubmit(x: string, eventId: string)
    | Execute(x: string, o: Outcome, eventId: string)
    | SaveOutcome(x: string)
    | LogOutcome(x: string, eventId: string)
    | Startup
    | StartupElsewhere
    | Other(op: Op)
    | Crash

  function Initial(m: Memory, counter: int): World {
    World(m, [], map[], map[], counter, counter, 0, [])
  }

  /** Nothing in the log concerns the name. */
  ghost predicate FreshName(m: Memory, name: string) {
    && (forall r :: r in m.records ==> !RecordConcerns(r, name))
    && (forall e :: e in m.events ==> !EventConcerns(e, name))
  }

  /** The record is another one, of another task, and does not concern the execution. */
  predicate Apart(r: Record, x: string, h: History) {
    !RecordConcerns(r, x) && r.taskId != h.task.taskId && r.continuityId != h.continuityId
  }

  /** An operation of someone else's that leaves all these executions alone. */
  ghost predicate Unrelated(op: Op, history: map<string, History>) {
    match op
    case Reload => true
    case Save(r) => forall y :: y in history ==> Apart(r, y, history[y])
    case Append(e) => forall y :: y in history ==> !EventConcerns(e, y)
  }

  predicate Stale(w: World, x: string)
    requires x in w.live
  {
    w.live[x].generation != w.current
  }

  predicate InPhase(w: World, x: string) {
    x in w.history && x in w.live
  }

  ghost predicate Enabled(w: World, move: Move) {
    match move
    case Submit(x, continuityId, task) =>
      FreshName(w.memory, x) && FreshName(w.memory, continuityId) && FreshName(w.memory, task.taskId)
    case LogSubmit(x, _) => InPhase(w, x) && w.history[x].phase.RecordSaved?
    case Execute(x, o, _) =>
      && InPhase(w, x) && !w.history[x].phase.RecordSaved? && IsExecutionStatus(o.status)
      && (Stale(w, x) || w.live[x].worker.Created?)
    case SaveOutcome(x) => InPhase(w, x) && w.history[x].phase.Started?
    case LogOutcome(x, _) => InPhase(w, x) && w.history[x].phase.OutcomeSaved?
    case Other(op) => Unrelated(op, w.history)
    case _ => true
  }

  function Write(w: World, op: Op): World {
    w.(memory := ApplyMemory(w.memory, op), written := w.written + [op])
  }

  function ToPhase(w: World, x: string, phase: Phase): World
    requires x in w.history
  {
    w.(history := w.history[x := w.history[x].(phase := phase)])
  }

  function StepSubmit(w: World, x: string, continuityId: string, task: Task): World {
    var u := Write(w, Save(QueuedRecord(x, continuityId, task)));
    u.(history := w.history[x := History(task, continuityId, |w.memory.records|, RecordSaved)],
       live := w.live[x := Live(w.current, w.era, Queued, None, Created)])
  }

  function StepLogSubmit(w: World, x: string, eventId: string): World
    requires InPhase(w, x)
  {
    ToPhase(Write(w, Append(QueuedEvent(x, eventId, w.history[x].task, w.live[x].generation))), x, EventQueued)
  }

  /** The status the execution's record has in the files. */
  function Recorded(phase: Phase): Status {
    match phase
    case OutcomeSaved(o) => o.status
    case OutcomeLogged(o) => o.status
    case Fenced(recorded) => recorded
    case _ => Pending
  }

  function StepFence(w: World, x: string, eventId: string): World
    requires InPhase(w, x)
  {
    var h, l := w.history[x], w.live[x];
    var u := ToPhase(Write(w, Append(FencedEvent(x, eventId, h.task, l.generation))), x, Fenced(Recorded(h.phase)));
    u.(live := w.live[x := l.(status := Failed, reason := Some(AuthorizationDenied), worker := WorkerFailed)])
  }

  function StepStart(w: World, x: string, o: Outcome): World
    requires InPhase(w, x)
  {
    var l := w.live[x];
    ToPhase(w, x, Started(o)).(
      live := w.live[x := l.(status := o.status, reason := o.reason, worker := Ended)],
      starts := w.starts + [Start(x, l.era, w.era)])
  }

  function StepSaveOutcome(w: World, x: string): World
    requires InPhase(w, x) && w.history[x].phase.Started?
  {
    var h := w.history[x];
    var u := match OwnRecord(w.memory, x, h.task.taskId)
      case Some(r) => Write(w, Save(OutcomeRecord(r, h.phase.o)))
      case None => w;
    ToPhase(u, x, OutcomeSaved(h.phase.o))
  }

  function StepLogOutcome(w: World, x: string, eventId: string): World
    requires InPhase(w, x) && w.history[x].phase.OutcomeSaved?
  {
    var h := w.history[x];
    ToPhase(
      Write(w, Append(OutcomeEvent(x, eventId, h.task, w.live[x].generation, h.phase.o))), x, OutcomeLogged(h.phase.o))
  }

  /** A startup takes the next generation and loads the log, once when the engine is made and once more. */
  function StepStartup(w: World): World {
    Write(Write(w, Reload), Reload).(current := w.counter + 1, counter := w.counter + 1, era := w.era + 1)
  }

  /** A move that is not enabled does nothing. */
  ghost function Step(w: World, move: Move): World {
    if !Enabled(w, move) then w
    else match move
      case Submit(x, continuityId, task) => StepSubmit(w, x, continuityId, task)
      case LogSubmit(x, eventId) => StepLogSubmit(w, x, eventId)
      case Execute(x, o, eventId) => if Stale(w, x) then StepFence(w, x, eventId) else StepStart(w, x, o)
      case SaveOutcome(x) => StepSaveOutcome(w, x)
      case LogOutcome(x, eventId) => StepLogOutcome(w, x, eventId)
      case Startup => StepStartup(w)
      case StartupElsewhere => w.(counter := w.counter + 1)
      case Other(op) => Write(w, op)
      case Crash => Write(w, Reload).(live := map[], current := w.counter, era := w.era + 1)
  }

  ghost function RunMoves(w: World, moves: seq<Move>): World
    decreases moves
  {
    if moves == [] then w else Step(RunMoves(w, moves[..|moves| - 1]), moves[|moves| - 1])
  }

  // ---- What has been written accounts for memory ----

  lemma WriteKeeps(m: Memory, w: World, op: Op)
    requires w.memory == RunMemory(m, w.written)
    ensures Write(w, op).memory == RunMemory(m, Write(w, op).written)
  {
    RunMemorySnoc(m, w.written, op);
  }

  lemma WrittenStep(m: Memory, w: World, move: Move)
    requires w.memory == RunMemory(m, w.written)
    ensures Step(w, move).memory == RunMemory(m, Step(w, move).written)
  {
    if Enabled(w, move) && move.Startup? {
      WriteKeeps(m, w, Reload);
      WriteKeeps(m, Write(w, Reload), Reload);
    } else {
      var u := Step(w, move);
      if u.written != w.written {
        WriteKeeps(m, w, u.written[|w.written|]);
      }
    }
  }

  lemma {:induction false} WrittenIsMemory(m: Memory, counter: int, moves: seq<Move>)
    ensures var u := RunMoves(Initial(m, counter), moves);
      u.memory == RunMemory(m, u.written)
    decreases moves
  {
    if moves != [] {
      WrittenIsMemory(m, counter, moves[..|moves| - 1]);
      WrittenStep(m, RunMoves(Initial(m, counter), moves[..|moves| - 1]), moves[|moves| - 1]);
    }
  }

  // ---- What the files say of an execution ----

  /** The status of the last event of the execution. */
  function LoggedStatus(phase: Phase): Option<Status> {
    match phase
    case RecordSaved => None
    case OutcomeLogged(o) => Some(o.status)
    case Fenced(_) => Some(Failed)
    case _ => Some(Queued)
  }

  predicate PhaseOk(phase: Phase) {
    match phase
    case Started(o) => IsExecutionStatus(o.status)
    case OutcomeSaved(o) => IsExecutionStatus(o.status)
    case OutcomeLogged(o) => IsExecutionStatus(o.status)
    case _ => true
  }

  /** The execution's own record and last event are as its phase says, and every other record is apart from it. */
  ghost predicate Tracked(m: Memory, x: string, h: History) {
    && h.at < |m.records|
    && m.records[h.at].executionId == Some(x)
    && m.records[h.at].taskId == h.task.taskId
    && m.records[h.at].continuityId == h.continuityId
    && m.records[h.at].status == Recorded(h.phase)
    && (forall j :: 0 <= j < |m.records| && j != h.at ==> Apart(m.records[j], x, h))
    && LastStatus(m.events, x) == LoggedStatus(h.phase)
    && PhaseOk(h.phase)
  }

  ghost predicate AllTracked(m: Memory, history: map<string, History>) {
    forall x :: x in history ==> Tracked(m, x, history[x])
  }

  lemma SaveApart(m: Memory, r: Record, y: string, h: History)
    requires Tracked(m, y, h) && Apart(r, y, h)
    ensures Tracked(Saved(m, r), y, h)
  {
    var i := Position(m.records, r.continuityId);
    PositionIsFirst(m.records, r.continuityId);
    assert i != h.at;
  }

  lemma AppendApart(m: Memory, e: Event, y: string, h: History)
    requires Tracked(m, y, h) && !EventConcerns(e.(sequence := m.sequence + 1), y)
    ensures Tracked(Appended(m, e), y, h)
  {
    LastStatusSnoc(m.events, e.(sequence := m.sequence + 1), y);
  }

  lemma OtherApart(m: Memory, op: Op, history: map<string, History>)
    requires AllTracked(m, history) && Unrelated(op, history)
    ensures AllTracked(ApplyMemory(m, op), history)
  {
    forall y | y in history ensures Tracked(ApplyMemory(m, op), y, history[y]) {
      match op
      case Reload =>
      case Save(r) => SaveApart(m, r, y, history[y]);
      case Append(e) => AppendApart(m, e, y, history[y]);
    }
  }

  /** What names one execution names no other. */
  lemma OthersApart(m: Memory, x: string, hx: History, y: string, hy: History)
    requires Tracked(m, x, hx) && Tracked(m, y, hy) && x != y
    ensures Apart(m.records[hx.at], y, hy)
    ensures hx.task.taskId != y
  {
    assert hx.at != hy.at;
  }

  const NO_OUTCOME := Outcome(Pending, None, None)

  /** The event is one of the execution `x` of the task. */
  ghost predicate IsOf(e: Event, x: string, taskId: string) {
    forall y :: EventConcerns(e, y) <==> y == x || y == taskId
  }

  lemma AppendTracks(m: Memory, e: Event, x: string, h: History, phase: Phase)
    requires Tracked(m, x, h) && EventConcerns(e.(sequence := m.sequence + 1), x)
    requires Recorded(phase) == Recorded(h.phase) && LoggedStatus(phase) == Some(e.status) && PhaseOk(phase)
    ensures Tracked(Appended(m, e), x, h.(phase := phase))
  {
    LastStatusSnoc(m.events, e.(sequence := m.sequence + 1), x);
  }

  lemma AppendElsewhere(m: Memory, e: Event, x: string, h: History, y: string, other: History)
    requires Tracked(m, x, h) && Tracked(m, y, other) && x != y
    requires IsOf(e.(sequence := m.sequence + 1), x, h.task.taskId)
    ensures Tracked(Appended(m, e), y, other)
  {
    OthersApart(m, x, h, y, other);
    assert !EventConcerns(e.(sequence := m.sequence + 1), y);
    AppendApart(m, e, y, other);
  }

  /** An event of the execution itself. */
  lemma AppendOwn(m: Memory, e: Event, x: string, phase: Phase, history: map<string, History>)
    requires AllTracked(m, history) && x in history
    requires IsOf(e.(sequence := m.sequence + 1), x, history[x].task.taskId)
    requires Recorded(phase) == Recorded(history[x].phase) && LoggedStatus(phase) == Some(e.status) && PhaseOk(phase)
    ensures AllTracked(Appended(m, e), history[x := history[x].(phase := phase)])
  {
    assert Tracked(m, x, history[x]);
    assert EventConcerns(e.(sequence := m.sequence + 1), x);
    AppendTracks(m, e, x, history[x], phase);
    forall y | y in history && y != x ensures Tracked(Appended(m, e), y, history[y]) {
      AppendElsewhere(m, e, x, history[x], y, history[y]);
    }
  }

  /** The outcome written to the record that the manager finds, which is the execution's own. */
  lemma OutcomeFinds(m: Memory, x: string, h: History)
    requires Tracked(m, x, h)
    ensures OwnRecord(m, x, h.task.taskId) == Some(m.records[h.at])
  {
    PositionIsFirst(m.records, x);
    LastOfTask(m.records, h.task.taskId, h.at);
  }

  lemma UpsertOwn(m: Memory, x: string, h: History, r: Record)
    requires Tracked(m, x, h) && r.continuityId == h.continuityId
    ensures Upsert(m.records, r) == m.records[h.at := r]
  {
    PositionIsFirst(m.records, r.continuityId);
  }

  lemma SaveOwn(m: Memory, x: string, o: Outcome, history: map<string, History>)
    requires AllTracked(m, history) && x in history && history[x].phase == Started(o)
    ensures OwnRecord(m, x, history[x].task.taskId).Some?
    ensures AllTracked(
      Saved(m, OutcomeRecord(OwnRecord(m, x, history[x].task.taskId).value, o)),
      history[x := history[x].(phase := OutcomeSaved(o))])
  {
    var h := history[x];
    OutcomeFinds(m, x, h);
    var r := OutcomeRecord(m.records[h.at], o);
    UpsertOwn(m, x, h, r);
    var after := history[x := h.(phase := OutcomeSaved(o))];
    forall y | y in after ensures Tracked(Saved(m, r), y, after[y]) {
      if y != x {
        OthersApart(m, x, h, y, history[y]);
        assert Apart(r, y, history[y]);
        SaveApart(m, r, y, history[y]);
      }
    }
  }

  lemma {:induction false} NoEvents(events: seq<Event>, x: string)
    requires forall e :: e in events ==> !EventConcerns(e, x)
    ensures EventsFor(events, x) == []
  {
    if events != [] {
      NoEvents(events[1..], x);
    }
  }

  lemma SubmitTracksOwn(m: Memory, x: string, continuityId: string, task: Task)
    requires FreshName(m, x) && FreshName(m, continuityId) && FreshName(m, task.taskId)
    ensures Tracked(Saved(m, QueuedRecord(x, continuityId, task)), x, History(task, continuityId, |m.records|, RecordSaved))
  {
    NoEvents(m.events, x);
    forall j | 0 <= j < |m.records|
      ensures m.records[j].continuityId != continuityId && m.records[j].taskId != task.taskId && !RecordConcerns(m.records[j], x)
    {
      assert m.records[j] in m.records;
    }
    NoSuchId(m.records, continuityId);
  }

  lemma SubmitApart(m: Memory, x: string, continuityId: string, task: Task, y: string, h: History)
    requires FreshName(m, x) && FreshName(m, continuityId) && FreshName(m, task.taskId)
    requires Tracked(m, y, h)
    ensures x != y && Apart(QueuedRecord(x, continuityId, task), y, h)
  {
    assert m.records[h.at] in m.records;
  }

  lemma SubmitTracks(m: Memory, x: string, continuityId: string, task: Task, history: map<string, History>)
    requires AllTracked(m, history)
    requires FreshName(m, x) && FreshName(m, continuityId) && FreshName(m, task.taskId)
    ensures x !in history
    ensures AllTracked(
      Saved(m, QueuedRecord(x, continuityId, task)),
      history[x := History(task, continuityId, |m.records|, RecordSaved)])
  {
    var r, h := QueuedRecord(x, continuityId, task), History(task, continuityId, |m.records|, RecordSaved);
    SubmitTracksOwn(m, x, continuityId, task);
    forall y | y in history ensures y != x && Tracked(Saved(m, r), y, history[y]) {
      SubmitApart(m, x, continuityId, task, y, history[y]);
      SaveApart(m, r, y, history[y]);
    }
  }

  lemma TrackedLogSubmit(w: World, x: string, eventId: string)
    requires AllTracked(w.memory, w.history) && Enabled(w, LogSubmit(x, eventId))
    ensures AllTracked(StepLogSubmit(w, x, eventId).memory, StepLogSubmit(w, x, eventId).history)
  {
    QueuedAppended(w.memory, x, eventId, w.live[x].generation, w.history);
  }

  lemma QueuedAppended(m: Memory, x: string, eventId: string, generation: int, history: map<string, History>)
    requires AllTracked(m, history) && x in history && history[x].phase.RecordSaved?
    ensures AllTracked(
      Appended(m, QueuedEvent(x, eventId, history[x].task, generation)),
      history[x := history[x].(phase := EventQueued)])
  {
    EventsAreOwn(x, eventId, history[x].task, generation, NO_OUTCOME, m.sequence + 1);
    AppendOwn(m, QueuedEvent(x, eventId, history[x].task, generation), x, EventQueued, history);
  }

  /** The three events that an execution logs are its own. */
  lemma EventsAreOwn(x: string, eventId: string, task: Task, generation: int, o: Outcome, n: int)
    ensures IsOf(OutcomeEvent(x, eventId, task, generation, o).(sequence := n), x, task.taskId)
    ensures IsOf(FencedEvent(x, eventId, task, generation).(sequence := n), x, task.taskId)
    ensures IsOf(QueuedEvent(x, eventId, task, generation).(sequence := n), x, task.taskId)
  {
    forall y
      ensures EventConcerns(OutcomeEvent(x, eventId, task, generation, o).(sequence := n), y) <==> y == x || y == task.taskId
      ensures EventConcerns(FencedEvent(x, eventId, task, generation).(sequence := n), y) <==> y == x || y == task.taskId
      ensures EventConcerns(QueuedEvent(x, eventId, task, generation).(sequence := n), y) <==> y == x || y == task.taskId
    {
      ConcernsOnly(x, eventId, task, generation, o, n, y);
    }
  }

  lemma OutcomeAppended(m: Memory, x: string, eventId: string, generation: int, o: Outcome, history: map<string, History>)
    requires AllTracked(m, history) && x in history && history[x].phase == OutcomeSaved(o)
    ensures AllTracked(
      Appended(m, OutcomeEvent(x, eventId, history[x].task, generation, o)),
      history[x := history[x].(phase := OutcomeLogged(o))])
  {
    assert Tracked(m, x, history[x]);
    EventsAreOwn(x, eventId, history[x].task, generation, o, m.sequence + 1);
    AppendOwn(m, OutcomeEvent(x, eventId, history[x].task, generation, o), x, OutcomeLogged(o), history);
  }

  lemma TrackedLogOutcome(w: World, x: string, eventId: string)
    requires AllTracked(w.memory, w.history) && Enabled(w, LogOutcome(x, eventId))
    ensures AllTracked(StepLogOutcome(w, x, eventId).memory, StepLogOutcome(w, x, eventId).history)
  {
    OutcomeAppended(w.memory, x, eventId, w.live[x].generation, w.history[x].phase.o, w.history);
  }

  lemma FenceAppended(m: Memory, x: string, eventId: string, generation: int, history: map<string, History>)
    requires AllTracked(m, history) && x in history
    ensures AllTracked(
      Appended(m, FencedEvent(x, eventId, history[x].task, generation)),
      history[x := history[x].(phase := Fenced(Recorded(history[x].phase)))])
  {
    assert Tracked(m, x, history[x]);
    EventsAreOwn(x, eventId, history[x].task, generation, NO_OUTCOME, m.sequence + 1);
    AppendOwn(m, FencedEvent(x, eventId, history[x].task, generation), x, Fenced(Recorded(history[x].phase)), history);
  }

  /** A start leaves no trace in the files. */
  lemma StartTracked(m: Memory, x: string, o: Outcome, history: map<string, History>)
    requires AllTracked(m, history) && x in history && history[x].phase.EventQueued? && IsExecutionStatus(o.status)
    ensures AllTracked(m, history[x := history[x].(phase := Started(o))])
  {
    var after := history[x := history[x].(phase := Started(o))];
    forall y | y in after ensures Tracked(m, y, after[y]) {
      assert Tracked(m, y, history[y]);
    }
  }

  lemma TrackedExecute(w: World, x: string, o: Outcome, eventId: string)
    requires AllTracked(w.memory, w.history) && Enabled(w, Execute(x, o, eventId))
    requires !Stale(w, x) ==> w.history[x].phase.EventQueued?
    ensures var u := if Stale(w, x) then StepFence(w, x, eventId) else StepStart(w, x, o);
      AllTracked(u.memory, u.history)
  {
    if Stale(w, x) {
      FenceAppended(w.memory, x, eventId, w.live[x].generation, w.history);
    } else {
      StartTracked(w.memory, x, o, w.history);
    }
  }

  lemma TrackedSaveOutcome(w: World, x: string)
    requires AllTracked(w.memory, w.history) && Enabled(w, SaveOutcome(x))
    ensures AllTracked(StepSaveOutcome(w, x).memory, StepSaveOutcome(w, x).history)
  {
    SaveOwn(w.memory, x, w.history[x].phase.o, w.history);
  }

  lemma TrackedStep(w: World, move: Move)
    requires AllTracked(w.memory, w.history)
    requires move.Execute? && Enabled(w, move) && !Stale(w, move.x) ==> w.history[move.x].phase.EventQueued?
    ensures AllTracked(Step(w, move).memory, Step(w, move).history)
  {
    if Enabled(w, move) {
      match move
      case Submit(x, continuityId, task) => SubmitTracks(w.memory, x, continuityId, task, w.history);
      case LogSubmit(x, eventId) =>
        TrackedLogSubmit(w, x, eventId);
        assert Step(w, move) == StepLogSubmit(w, x, eventId);
      case Execute(x, o, eventId) =>
        TrackedExecute(w, x, o, eventId);
        assert Step(w, move) == if Stale(w, x) then StepFence(w, x, eventId) else StepStart(w, x, o);
      case SaveOutcome(x) =>
        TrackedSaveOutcome(w, x);
        assert Step(w, move) == StepSaveOutcome(w, x);
      case LogOutcome(x, eventId) =>
        TrackedLogOutcome(w, x, eventId);
        assert Step(w, move) == StepLogOutcome(w, x, eventId);
      case Other(op) => OtherApart(w.memory, op, w.history);
      case Startup =>
      case StartupElsewhere =>
      case Crash =>
    }
  }

  // ---- What the running process holds ----

  /**
   A context has the engine's generation exactly if no startup came after its submission;
   its worker is untouched exactly until it is started or fenced; a fenced context says so.
   */
  ghost predicate LiveOk(w: World, x: string)
    requires x in w.live
  {
    var l := w.live[x];
    && x in w.history
    && l.generation <= w.current && l.era <= w.era
    && (l.generation == w.current <==> l.era == w.era)
    && (l.worker.Created? <==> w.history[x].phase.RecordSaved? || w.history[x].phase.EventQueued?)
    && (w.history[x].phase.Fenced? ==>
          l.era < w.era && l.status == Failed && l.reason == Some(AuthorizationDenied) && l.worker.WorkerFailed?)
  }

  ghost predicate AllLive(w: World) {
    w.current <= w.counter && forall x :: x in w.live ==> LiveOk(w, x)
  }

  ghost predicate StartOk(w: World, s: Start) {
    s.x in w.history && s.submitted == s.started && (s.x in w.live ==> !w.live[s.x].worker.Created?)
  }

  ghost predicate Distinct(starts: seq<Start>) {
    forall i, j :: 0 <= i < j < |starts| ==> starts[i].x != starts[j].x
  }

  ghost predicate StartsOk(w: World) {
    (forall s :: s in w.starts ==> StartOk(w, s)) && Distinct(w.starts)
  }

  ghost predicate Invariant(w: World) {
    AllTracked(w.memory, w.history) && AllLive(w) && StartsOk(w)
  }

  /** A move of one execution, within an era. */
  lemma LiveOne(w: World, u: World, x: string)
    requires AllLive(w) && u.current == w.current && u.era == w.era && u.counter == w.counter
    requires x in u.live && LiveOk(u, x)
    requires u.live.Keys <= w.live.Keys + {x}
    requires w.history.Keys <= u.history.Keys
    requires forall y :: y in u.live && y != x ==> u.live[y] == w.live[y]
    requires forall y :: y in w.history && y != x ==> u.history[y] == w.history[y]
    ensures AllLive(u)
  {
    forall y | y in u.live ensures LiveOk(u, y) {
      if y != x { assert LiveOk(w, y); }
    }
  }

  lemma LiveStep(w: World, move: Move)
    requires AllLive(w)
    ensures AllLive(Step(w, move))
  {
    if Enabled(w, move) {
      match move
      case Submit(x, continuityId, task) => LiveSubmit(w, x, continuityId, task);
      case LogSubmit(x, eventId) => LiveLogSubmit(w, x, eventId);
      case Execute(x, o, eventId) => LiveExecute(w, x, o, eventId);
      case SaveOutcome(x) => LiveSaveOutcome(w, x);
      case LogOutcome(x, eventId) => LiveLogOutcome(w, x, eventId);
      case Startup => LiveElse(w, move);
      case StartupElsewhere => LiveElse(w, move);
      case Other(op) => LiveElse(w, move);
      case Crash =>
    }
  }

  lemma LiveSubmit(w: World, x: string, continuityId: string, task: Task)
    requires AllLive(w)
    ensures AllLive(StepSubmit(w, x, continuityId, task))
  {
    LiveOne(w, StepSubmit(w, x, continuityId, task), x);
  }

  lemma LiveLogSubmit(w: World, x: string, eventId: string)
    requires AllLive(w) && Enabled(w, LogSubmit(x, eventId))
    ensures AllLive(StepLogSubmit(w, x, eventId))
  {
    assert LiveOk(w, x);
    LiveOne(w, StepLogSubmit(w, x, eventId), x);
  }

  lemma LiveExecute(w: World, x: string, o: Outcome, eventId: string)
    requires AllLive(w) && Enabled(w, Execute(x, o, eventId))
    ensures AllLive(if Stale(w, x) then StepFence(w, x, eventId) else StepStart(w, x, o))
  {
    assert LiveOk(w, x);
    if Stale(w, x) { LiveFence(w, x, eventId); } else { LiveStart(w, x, o); }
  }

  lemma LiveFence(w: World, x: string, eventId: string)
    requires AllLive(w) && InPhase(w, x) && Stale(w, x) && LiveOk(w, x)
    ensures AllLive(StepFence(w, x, eventId))
  {
    LiveOne(w, StepFence(w, x, eventId), x);
  }

  lemma LiveStart(w: World, x: string, o: Outcome)
    requires AllLive(w) && InPhase(w, x) && LiveOk(w, x)
    ensures AllLive(StepStart(w, x, o))
  {
    LiveOne(w, StepStart(w, x, o), x);
  }

  lemma LiveSaveOutcome(w: World, x: string)
    requires AllLive(w) && InPhase(w, x) && w.history[x].phase.Started? && LiveOk(w, x)
    ensures AllLive(StepSaveOutcome(w, x))
  {
    LiveOne(w, StepSaveOutcome(w, x), x);
  }

  lemma LiveLogOutcome(w: World, x: string, eventId: string)
    requires AllLive(w) && InPhase(w, x) && w.history[x].phase.OutcomeSaved? && LiveOk(w, x)
    ensures AllLive(StepLogOutcome(w, x, eventId))
  {
    LiveOne(w, StepLogOutcome(w, x, eventId), x);
  }

  lemma LiveElse(w: World, move: Move)
    requires AllLive(w) && (move.Startup? || move.StartupElsewhere? || move.Other?)
    ensures AllLive(Step(w, move))
  {
    var u := Step(w, move);
    forall y | y in u.live ensures LiveOk(u, y) {
      assert LiveOk(w, y);
    }
  }

  lemma StartsSame(w: World, u: World)
    requires StartsOk(w) && u.starts == w.starts && w.history.Keys <= u.history.Keys
    requires forall y :: y in u.live ==>
      y !in w.history || (y in w.live && (u.live[y].worker.Created? ==> w.live[y].worker.Created?))
    ensures StartsOk(u)
  {
    forall s | s in u.starts ensures StartOk(u, s) {
      assert StartOk(w, s);
    }
  }

  lemma StartsStart(w: World, x: string, o: Outcome)
    requires AllLive(w) && StartsOk(w) && InPhase(w, x) && w.live[x].worker.Created? && !Stale(w, x)
    ensures StartsOk(StepStart(w, x, o))
  {
    var u, last := StepStart(w, x, o), Start(x, w.live[x].era, w.era);
    assert LiveOk(w, x);
    forall s | s in w.starts ensures s.x != x && StartOk(u, s) {
      assert StartOk(w, s);
    }
    assert StartOk(u, last);
  }

  lemma StartsFence(w: World, x: string, eventId: string)
    requires StartsOk(w) && InPhase(w, x)
    ensures StartsOk(StepFence(w, x, eventId))
  {
    StartsSame(w, StepFence(w, x, eventId));
  }

  /** Neither a submission nor an execution. */
  lemma StartsElse(w: World, move: Move)
    requires StartsOk(w) && !move.Submit? && !move.Execute?
    ensures StartsOk(Step(w, move))
  {
    StartsSame(w, Step(w, move));
  }

  lemma StartsStep(w: World, move: Move)
    requires Invariant(w)
    ensures StartsOk(Step(w, move))
  {
    if move.Submit? && Enabled(w, move) {
      SubmitTracks(w.memory, move.x, move.continuityId, move.task, w.history);
      StartsSame(w, Step(w, move));
    } else if move.Execute? && Enabled(w, move) {
      if Stale(w, move.x) { StartsFence(w, move.x, move.eventId); } else { StartsStart(w, move.x, move.o); }
    } else if !move.Submit? && !move.Execute? {
      StartsElse(w, move);
    }
  }

  lemma KeepsStep(w: World, move: Move)
    requires Invariant(w)
    ensures Invariant(Step(w, move))
  {
    if move.Execute? && Enabled(w, move) {
      assert LiveOk(w, move.x);
    }
    TrackedStep(w, move);
    LiveStep(w, move);
    StartsStep(w, move);
  }

  lemma {:induction false} RunKeeps(w: World, moves: seq<Move>)
    requires Invariant(w)
    ensures Invariant(RunMoves(w, moves))
    decreases moves
  {
    if moves != [] {
      RunKeeps(w, moves[..|moves| - 1]);
      KeepsStep(RunMoves(w, moves[..|moves| - 1]), moves[|moves| - 1]);
    }
  }

  // ---- The results ----

  /** What a restarted manager should say of an execution that came this far. */
  function Answer(phase: Phase): Status {
    match phase
    case OutcomeSaved(o) => o.status
    case OutcomeLogged(o) => o.status
    case _ => Failed
  }

  lemma AnswerOfPhase(m: Memory, x: string, h: History)
    requires Tracked(m, x, h) && Increasing(0, m.events)
    ensures RestartStatus(m, x) == Some(Answer(h.phase))
  {
    AnswerIs(m, x, h.at);
  }

  /**
   Whatever ran before, whatever else writes to the log, and wherever in a submission or
   an execution the crash falls: a new manager over the files answers the final status of
   every execution whose outcome was saved, whichever status it is, and FAILED for every
   other one whose record was saved.
   */
  lemma FinalStatusSurvives(cs: LogCodecs, s: Store, counter: int, moves: seq<Move>, x: string)
    requires LawfulCodecs(cs) && Sound(cs, s)
    requires x in RunMoves(Initial(s.memory, counter), moves).history
    ensures var u := RunMoves(Initial(s.memory, counter), moves);
      RestartStatus(Load(cs, Run(cs, s, u.written).disk).memory, x) == Some(Answer(u.history[x].phase))
  {
    var u := RunMoves(Initial(s.memory, counter), moves);
    WrittenIsMemory(s.memory, counter, moves);
    CrashFindsMemory(cs, s, u.written);
    RunKeeps(Initial(s.memory, counter), moves);
    SoundIsOrdered(cs, Run(cs, s, u.written));
    ReloadIsIdentity(cs, Run(cs, s, u.written));
    AnswerOfPhase(u.memory, x, u.history[x]);
  }

  /** In every run a worker is started at most once for an execution, and never across a startup. */
  lemma StartsAreFenced(m: Memory, counter: int, moves: seq<Move>)
    ensures var starts := RunMoves(Initial(m, counter), moves).starts;
      && (forall i :: 0 <= i < |starts| ==> starts[i].submitted == starts[i].started)
      && (forall i, j :: 0 <= i < j < |starts| ==> starts[i].x != starts[j].x)
  {
    RunKeeps(Initial(m, counter), moves);
    var u := RunMoves(Initial(m, counter), moves);
    forall i | 0 <= i < |u.starts| ensures u.starts[i].submitted == u.starts[i].started {
      assert StartOk(u, u.starts[i]);
    }
  }

  /**
   Executing what was submitted before a later startup starts nothing, logs one
   ACTION_FAILED event, and leaves context and worker failed with AUTHORIZATION_DENIED;
   executing what was submitted since then starts it and logs nothing yet.
   */
  lemma ExecuteIsFenced(m: Memory, counter: int, moves: seq<Move>, x: string, o: Outcome, eventId: string)
    requires Enabled(RunMoves(Initial(m, counter), moves), Execute(x, o, eventId))
    ensures var u := RunMoves(Initial(m, counter), moves);
      var v := Step(u, Execute(x, o, eventId));
      if u.live[x].era < u.era then
        && v.live[x] == u.live[x].(status := Failed, reason := Some(AuthorizationDenied), worker := WorkerFailed)
        && v.starts == u.starts
        && v.written == u.written + [Append(FencedEvent(x, eventId, u.history[x].task, u.live[x].generation))]
      else
        && v.starts == u.starts + [Start(x, u.era, u.era)]
        && v.written == u.written
        && v.live[x].status == o.status
  {
    RunKeeps(Initial(m, counter), moves);
    assert LiveOk(RunMoves(Initial(m, counter), moves), x);
  }

  /** A move of one execution leaves the others' alone. */
  lemma MovesApart(w: World, move: Move, x: string)
    requires x in w.history
    requires move.Submit? || move.LogSubmit? || move.Execute? || move.SaveOutcome? || move.LogOutcome? ==> move.x != x
    ensures var u := Step(w, move);
      && x in u.history && u.history[x] == w.history[x]
      && (x in u.live ==> x in w.live && u.live[x] == w.live[x])
  {
  }

  lemma FencedStep(w: World, move: Move, x: string)
    requires Invariant(w) && x in w.history && w.history[x].phase.Fenced?
    ensures var u := Step(w, move);
      && x in u.history && u.history[x].phase.Fenced?
      && (x in u.live ==> x in w.live && u.live[x] == w.live[x])
  {
    if Enabled(w, move) {
      match move
      case Submit(y, continuityId, task) =>
        SubmitTracks(w.memory, y, continuityId, task, w.history);
        MovesApart(w, move, x);
      case Execute(y, o, eventId) =>
        if y == x { FencedAgain(w, x, o, eventId); } else { MovesApart(w, move, x); }
      case LogSubmit(y, _) => MovesApart(w, move, x);
      case SaveOutcome(y) => MovesApart(w, move, x);
      case LogOutcome(y, _) => MovesApart(w, move, x);
      case _ => MovesApart(w, move, x);
    }
  }

  lemma FencedAgain(w: World, x: string, o: Outcome, eventId: string)
    requires Invariant(w) && Enabled(w, Execute(x, o, eventId)) && w.history[x].phase.Fenced?
    ensures var u := Step(w, Execute(x, o, eventId));
      x in u.history && u.history[x].phase.Fenced? && x in u.live && u.live[x] == w.live[x]
  {
    assert LiveOk(w, x);
  }

  lemma {:induction false} FencedStays(w: World, moves: seq<Move>, x: string)
    requires Invariant(w) && x in w.history && w.history[x].phase.Fenced?
    ensures var u := RunMoves(w, moves);
      && x in u.history && u.history[x].phase.Fenced?
      && (x in u.live ==> x in w.live && u.live[x] == w.live[x])
    decreases moves
  {
    if moves != [] {
      FencedStays(w, moves[..|moves| - 1], x);
      RunKeeps(w, moves[..|moves| - 1]);
      FencedStep(RunMoves(w, moves[..|moves| - 1]), moves[|moves| - 1], x);
    }
  }

  lemma {:induction false} RunMovesConcat(w: World, a: seq<Move>, b: seq<Move>)
    ensures RunMoves(w, a + b) == RunMoves(RunMoves(w, a), b)
    decreases b
  {
    if b == [] {
      assert a + b == a;
    } else {
      assert (a + b)[..|a + b| - 1] == a + b[..|b| - 1];
      RunMovesConcat(w, a, b[..|b| - 1]);
    }
  }

  /** What a new manager answers after a crash and a load. */
  function AfterRestart(cs: LogCodecs, s: Store, w: World, x: string): Option<Status> {
    RestartStatus(Load(cs, Run(cs, s, w.written).disk).memory, x)
  }

  /** The run from `w` on continues a run from the start. */
  ghost predicate Continues(m: Memory, counter: int, before: seq<Move>, w: World, moves: seq<Move>, u: World) {
    w == RunMoves(Initial(m, counter), before) && u == RunMoves(w, moves)
  }

  lemma AnswerAfterRun(cs: LogCodecs, s: Store, counter: int, before: seq<Move>, w: World, moves: seq<Move>, u: World, x: string)
    requires LawfulCodecs(cs) && Sound(cs, s) && Continues(s.memory, counter, before, w, moves, u) && x in u.history
    ensures AfterRestart(cs, s, u, x) == Some(Answer(u.history[x].phase))
  {
    RunMovesConcat(Initial(s.memory, counter), before, moves);
    FinalStatusSurvives(cs, s, counter, before + moves, x);
  }

  lemma FencedHolds(m: Memory, counter: int, before: seq<Move>, w: World, moves: seq<Move>, u: World, x: string)
    requires Continues(m, counter, before, w, moves, u)
    requires x in w.history && w.history[x].phase.Fenced?
    ensures x in u.history && u.history[x].phase.Fenced?
    ensures x in u.live ==>
      u.live[x].status == Failed && u.live[x].reason == Some(AuthorizationDenied) && u.live[x].worker.WorkerFailed?
  {
    RunKeeps(Initial(m, counter), before);
    FencedStays(w, moves, x);
    if x in w.live {
      assert LiveOk(w, x);
    }
  }

  lemma AnswerOfFenced(phase: Phase)
    requires phase.Fenced?
    ensures Answer(phase) == Failed
  {
  }

  /**
   What was fenced in any run stays failed: no later move of any kind starts it or changes
   its context, which is failed with AUTHORIZATION_DENIED, and whenever the process crashes
   a new manager answers FAILED.
   */
  lemma FencedForGood(cs: LogCodecs, s: Store, counter: int, before: seq<Move>, w: World, moves: seq<Move>, u: World, x: string)
    requires LawfulCodecs(cs) && Sound(cs, s) && Continues(s.memory, counter, before, w, moves, u)
    requires x in w.history && w.history[x].phase.Fenced?
    ensures AfterRestart(cs, s, u, x) == Some(Failed)
    ensures x in u.live ==>
      u.live[x].status == Failed && u.live[x].reason == Some(AuthorizationDenied) && u.live[x].worker.WorkerFailed?
  {
    FencedHolds(s.memory, counter, before, w, moves, u, x);
    AnswerAfterRun(cs, s, counter, before, w, moves, u, x);
    AnswerOfFenced(u.history[x].phase);
  }

  // ---- A finished execution executed again ----

  /** The execution is executed at some move although a startup came after its submission. */
  ghost predicate FencedIn(w: World, moves: seq<Move>, x: string) {
    exists j: nat :: j < |moves| && FencesAt(w, moves, j, x)
  }

  ghost predicate FencesAt(w: World, moves: seq<Move>, j: nat, x: string)
    requires j < |moves|
  {
    var u := RunMoves(w, moves[..j]);
    moves[j].Execute? && moves[j].x == x && Enabled(u, moves[j]) && Stale(u, x)
  }

  lemma FencedInMore(w: World, moves: seq<Move>, move: Move, x: string)
    ensures FencedIn(w, moves + [move], x) <==>
      FencedIn(w, moves, x) || (var u := RunMoves(w, moves); move.Execute? && move.x == x && Enabled(u, move) && Stale(u, x))
  {
    var all := moves + [move];
    assert all[..|moves|] == moves && all[|moves|] == move;
    forall j: nat | j < |moves| ensures FencesAt(w, all, j, x) <==> FencesAt(w, moves, j, x) {
      assert all[..j] == moves[..j];
    }
    if move.Execute? && move.x == x && Enabled(RunMoves(w, moves), move) && Stale(RunMoves(w, moves), x) {
      assert FencesAt(w, all, |moves|, x);
    }
  }

  /** Only being fenced changes what the files say of a finished execution. */
  lemma FinishedStep(w: World, move: Move, x: string, o: Outcome)
    requires Invariant(w) && x in w.history && (w.history[x].phase == OutcomeLogged(o) || w.history[x].phase == Fenced(o.status))
    ensures x in Step(w, move).history
    ensures Step(w, move).history[x].phase ==
      if move.Execute? && move.x == x && Enabled(w, move) && Stale(w, x) then Fenced(o.status) else w.history[x].phase
  {
    if Enabled(w, move) {
      match move
      case Submit(y, continuityId, task) =>
        SubmitTracks(w.memory, y, continuityId, task, w.history);
        MovesApart(w, move, x);
      case Execute(y, o', eventId) =>
        if y != x {
          MovesApart(w, move, x);
        } else {
          assert LiveOk(w, x);
          FinishedExecute(w, x, o', eventId, o);
        }
      case LogSubmit(y, _) => MovesApart(w, move, x);
      case SaveOutcome(y) => MovesApart(w, move, x);
      case LogOutcome(y, _) => MovesApart(w, move, x);
      case _ => MovesApart(w, move, x);
    }
  }

  lemma FinishedExecute(w: World, x: string, o': Outcome, eventId: string, o: Outcome)
    requires x in w.live && LiveOk(w, x) && Enabled(w, Execute(x, o', eventId))
    requires w.history[x].phase == OutcomeLogged(o) || w.history[x].phase == Fenced(o.status)
    ensures var u := Step(w, Execute(x, o', eventId));
      Stale(w, x) && x in u.history && u.history[x].phase == Fenced(o.status)
  {
    assert Step(w, Execute(x, o', eventId)) == StepFence(w, x, eventId);
  }

  lemma {:induction false} FinishedRun(w: World, moves: seq<Move>, x: string, o: Outcome)
    requires Invariant(w) && x in w.history && w.history[x].phase == OutcomeLogged(o)
    ensures x in RunMoves(w, moves).history
    ensures RunMoves(w, moves).history[x].phase == if FencedIn(w, moves, x) then Fenced(o.status) else OutcomeLogged(o)
    decreases moves
  {
    if moves != [] {
      var front, move := moves[..|moves| - 1], moves[|moves| - 1];
      assert moves == front + [move];
      FinishedRun(w, front, x, o);
      RunKeeps(w, front);
      FencedInMore(w, front, move, x);
      FinishedStep(RunMoves(w, front), move, x, o);
    }
  }

  lemma FinishedHolds(m: Memory, counter: int, before: seq<Move>, w: World, moves: seq<Move>, u: World, x: string, o: Outcome)
    requires Continues(m, counter, before, w, moves, u)
    requires x in w.history && w.history[x].phase == OutcomeLogged(o)
    ensures x in u.history && u.history[x].phase == if FencedIn(w, moves, x) then Fenced(o.status) else OutcomeLogged(o)
  {
    RunKeeps(Initial(m, counter), before);
    FinishedRun(w, moves, x, o);
  }

  lemma FinishedAnswer(
    cs: LogCodecs, s: Store, counter: int, before: seq<Move>, w: World, moves: seq<Move>, u: World, x: string, o: Outcome, fenced: bool)
    requires LawfulCodecs(cs) && Sound(cs, s) && Continues(s.memory, counter, before, w, moves, u)
    requires x in u.history && u.history[x].phase == if fenced then Fenced(o.status) else OutcomeLogged(o)
    ensures AfterRestart(cs, s, u, x) == Some(if fenced then Failed else o.status)
  {
    AnswerAfterRun(cs, s, counter, before, w, moves, u, x);
  }

  /**
   An execution that has finished, however it ended, keeps its answer through every later
   run and crash, unless it is executed again after a later startup: the fence comes before
   any look at the status, and from then on the answer is FAILED, even for one that SUCCEEDED.
   */
  lemma FinishedAnswerExactly(
    cs: LogCodecs, s: Store, counter: int, before: seq<Move>, w: World, moves: seq<Move>, u: World, x: string, o: Outcome)
    requires LawfulCodecs(cs) && Sound(cs, s) && Continues(s.memory, counter, before, w, moves, u)
    requires x in w.history && w.history[x].phase == OutcomeLogged(o)
    ensures AfterRestart(cs, s, u, x) == Some(if FencedIn(w, moves, x) then Failed else o.status)
  {
    FinishedHolds(s.memory, counter, before, w, moves, u, x, o);
    FinishedAnswer(cs, s, counter, before, w, moves, u, x, o, FencedIn(w, moves, x));
  }

  /** It does happen: a startup and one more execution of a finished execution that is still held are enough. */
  lemma FinishedIsOverturned(cs: LogCodecs, s: Store, counter: int, before: seq<Move>, w: World, u: World, x: string, o: Outcome, eventId: string)
    requires LawfulCodecs(cs) && Sound(cs, s)
    requires Continues(s.memory, counter, before, w, [Startup, Execute(x, o, eventId)], u)
    requires x in w.history && x in w.live && w.history[x].phase == OutcomeLogged(o)
    ensures AfterRestart(cs, s, w, x) == Some(o.status) && AfterRestart(cs, s, u, x) == Some(Failed)
  {
    assert Continues(s.memory, counter, before, w, [], w);
    AnswerAfterRun(cs, s, counter, before, w, [], w, x);
    RunKeeps(Initial(s.memory, counter), before);
    assert LiveOk(w, x) && Tracked(w.memory, x, w.history[x]);
    StaleNow(w, x, o, eventId);
    StaleAfterStartup(w, x, o, eventId);
    FinishedAnswerExactly(cs, s, counter, before, w, [Startup, Execute(x, o, eventId)], u, x, o);
  }

  lemma StaleAfterStartup(w: World, x: string, o: Outcome, eventId: string)
    requires Enabled(StepStartup(w), Execute(x, o, eventId)) && Stale(StepStartup(w), x)
    ensures FencedIn(w, [Startup, Execute(x, o, eventId)], x)
  {
    RunMovesOne(w, Startup);
    FencesSecond(w, Startup, Execute(x, o, eventId), x);
  }

  lemma FencesSecond(w: World, first: Move, second: Move, x: string)
    requires var u := RunMoves(w, [first]);
      second.Execute? && second.x == x && Enabled(u, second) && Stale(u, x)
    ensures FencedIn(w, [first, second], x)
  {
    assert [first, second] == [first] + [second];
    FencedInMore(w, [first], second, x);
  }

  lemma StaleNow(w: World, x: string, o: Outcome, eventId: string)
    requires x in w.live && LiveOk(w, x) && w.current <= w.counter
    requires w.history[x].phase == OutcomeLogged(o) && IsExecutionStatus(o.status)
    ensures Enabled(StepStartup(w), Execute(x, o, eventId)) && Stale(StepStartup(w), x)
  {
    var u := StepStartup(w);
    assert u.live == w.live && u.history == w.history && u.current == w.counter + 1;
  }

  lemma RunMovesOne(w: World, move: Move)
    ensures RunMoves(w, [move]) == Step(w, move)
  {
    assert [move][..0] == [];
  }

  // ---- A whole call is its moves ----

  lemma RunMovesSnoc(w: World, moves: seq<Move>, move: Move)
    ensures RunMoves(w, moves + [move]) == Step(RunMoves(w, moves), move)
  {
    assert (moves + [move])[..|moves + [move]| - 1] == moves;
  }

  lemma RunMovesTwo(w: World, a: Move, b: Move)
    ensures RunMoves(w, [a, b]) == Step(Step(w, a), b)
  {
    RunMovesSnoc(w, [], a);
    RunMovesSnoc(w, [a], b);
    assert [] + [a] == [a] && [a] + [b] == [a, b];
  }

  /** A submission without a crash writes what the manager's method writes. */
  lemma SubmitIsMoves(w: World, x: string, continuityId: string, task: Task, eventId: string)
    requires Enabled(w, Submit(x, continuityId, task))
    ensures RunMoves(w, [Submit(x, continuityId, task), LogSubmit(x, eventId)]).written
         == w.written + SubmitOps(x, continuityId, eventId, task, w.current)
  {
    RunMovesTwo(w, Submit(x, continuityId, task), LogSubmit(x, eventId));
    var u := StepSubmit(w, x, continuityId, task);
    assert Enabled(u, LogSubmit(x, eventId));
    assert w.written + [Save(QueuedRecord(x, continuityId, task))] + [Append(QueuedEvent(x, eventId, task, w.current))]
        == w.written + SubmitOps(x, continuityId, eventId, task, w.current);
  }

  lemma RunMovesThree(w: World, a: Move, b: Move, c: Move)
    ensures RunMoves(w, [a, b, c]) == Step(Step(Step(w, a), b), c)
  {
    RunMovesTwo(w, a, b);
    RunMovesSnoc(w, [a, b], c);
    assert [a, b] + [c] == [a, b, c];
  }

  /** What the two moves that follow a start write. */
  lemma OutcomeMoves(w: World, x: string, o: Outcome, eventId: string)
    requires InPhase(w, x) && w.history[x].phase == Started(o)
    ensures Step(Step(w, SaveOutcome(x)), LogOutcome(x, eventId)).written
         == w.written + OutcomeOps(w.memory, x, eventId, w.history[x].task, w.live[x].generation, o)
  {
    var saves := OutcomeSaves(w.memory, x, w.history[x].task, o);
    var log := Append(OutcomeEvent(x, eventId, w.history[x].task, w.live[x].generation, o));
    var u := StepSaveOutcome(w, x);
    assert u.written == w.written + saves;
    LogOutcomeWrites(u, x, o, eventId);
    Assoc(w.written, saves, [log]);
  }

  lemma LogOutcomeWrites(u: World, x: string, o: Outcome, eventId: string)
    requires InPhase(u, x) && u.history[x].phase == OutcomeSaved(o)
    ensures Step(u, LogOutcome(x, eventId)).written
         == u.written + [Append(OutcomeEvent(x, eventId, u.history[x].task, u.live[x].generation, o))]
  {
  }

  /** An unfenced execution without a crash writes what the manager's method writes. */
  lemma ExecuteIsMoves(w: World, x: string, o: Outcome, eventId: string)
    requires Invariant(w) && Enabled(w, Execute(x, o, eventId)) && !Stale(w, x)
    ensures RunMoves(w, [Execute(x, o, eventId), SaveOutcome(x), LogOutcome(x, eventId)]).written
         == w.written + OutcomeOps(w.memory, x, eventId, w.history[x].task, w.current, o)
  {
    RunMovesThree(w, Execute(x, o, eventId), SaveOutcome(x), LogOutcome(x, eventId));
    KeepsStep(w, Execute(x, o, eventId));
    OutcomeMoves(StepStart(w, x, o), x, o, eventId);
  }
}
