/**
 The mutation protocol as its durable steps, for any number of calls that interleave. A
 crash can fall between any two steps; what reconciliation then says is worked out from
 how far each call had come.
 */
module MutationProtocol {
  import opened Models
  import opened LineFiles
  import opened Replay
  import opened Stores
  import opened Mutation
  import opened Reconciliation

  /** How far a call has come: its last durable step. */
  datatype Phase = RecordActive | EventPrepared | RecordComplete | EventFinalized | EventMutated

  /** `prepared` is the PREPARED event, `record` the record as the last save left it, `f` the arguments of finalize once it has begun. */
  datatype Call = Call(p: Prepare, at: nat, phase: Phase, prepared: Event, record: Record, f: Finalize)

  /** Memory, what has been written to the files so far, and the calls of the running process. */
  datatype World = World(memory: Memory, written: seq<Op>, calls: seq<Call>)

  datatype Move =
    | Begin(p: Prepare)
    | LogPrepared(call: nat)
    | Close(call: nat, f: Finalize)
    | LogFinalized(call: nat)
    | LogMutated(call: nat)
    | TakeUp(k: nat)
    | Reconcile(env: Env, written: nat)
    | Restart

  const NO_FINALIZE := Finalize("", [], [], [], "", "")

  function Write(w: World, op: Op): World {
    World(ApplyMemory(w.memory, op), w.written + [op], w.calls)
  }

  /** A reconciliation, or what it has written when it is stopped. */
  function WriteAll(w: World, ops: seq<Op>): World {
    World(RunMemory(w.memory, ops), w.written + ops, w.calls)
  }

  predicate Enabled(w: World, move: Move) {
    match move
    case Begin(p) => StepRecord(w.memory.records, p.missionId, p.stepId).Some?
    case LogPrepared(i) => i < |w.calls| && w.calls[i].phase.RecordActive?
    case Close(i, _) =>
      && i < |w.calls| && w.calls[i].phase.EventPrepared?
      && StepRecord(w.memory.records, w.calls[i].prepared.missionId, w.calls[i].prepared.stepId).Some?
    case LogFinalized(i) => i < |w.calls| && w.calls[i].phase.RecordComplete?
    case LogMutated(i) => i < |w.calls| && w.calls[i].phase.EventFinalized?
    case TakeUp(k) =>
      && k < |w.memory.events| && w.memory.events[k].eventType.MutationPrepared?
      && StepRecord(w.memory.records, w.memory.events[k].missionId, w.memory.events[k].stepId).Some?
    case Reconcile(_, _) => true
    case Restart => true
  }

  function Advanced(w: World, i: nat, c: Call): World
    requires i < |w.calls|
  {
    w.(calls := w.calls[i := c])
  }

  function NumberedEvent(m: Memory, e: Event): Event {
    e.(sequence := m.sequence + 1)
  }

  /** One durable step; a move that is not enabled does nothing. */
  function Step(w: World, move: Move): World {
    if !Enabled(w, move) then w
    else match move
      case Begin(p) => StepBegin(w, p)
      case LogPrepared(i) => StepPrepared(w, i)
      case Close(i, f) => StepClose(w, i, f)
      case LogFinalized(i) => StepFinalized(w, i)
      case LogMutated(i) => StepMutated(w, i)
      case TakeUp(k) => StepTakeUp(w, k)
      case Reconcile(env, n) => WriteAll(w, PartialPass(w.memory, env, n))
      case Restart => w.(calls := [])
  }

  function StepBegin(w: World, p: Prepare): World
    requires Enabled(w, Begin(p))
  {
    var r := StepRecord(w.memory.records, p.missionId, p.stepId).value;
    var q := PreparedRecord(r, p);
    var w' := Write(w, Save(q));
    w'.(calls := w.calls + [Call(p, Position(w.memory.records, r.continuityId), RecordActive, PreparedEvent(q, p), q, NO_FINALIZE)])
  }

  function StepPrepared(w: World, i: nat): World
    requires Enabled(w, LogPrepared(i))
  {
    var c := w.calls[i];
    Advanced(Write(w, Append(c.prepared)), i, c.(phase := EventPrepared, prepared := NumberedEvent(w.memory, c.prepared)))
  }

  function StepClose(w: World, i: nat, f: Finalize): World
    requires Enabled(w, Close(i, f))
  {
    var c := w.calls[i];
    var q := FinalizedRecord(StepRecord(w.memory.records, c.prepared.missionId, c.prepared.stepId).value, f);
    Advanced(Write(w, Save(q)), i, c.(phase := RecordComplete, record := q, f := f))
  }

  function StepFinalized(w: World, i: nat): World
    requires Enabled(w, LogFinalized(i))
  {
    var c := w.calls[i];
    Advanced(Write(w, Append(FinalizedEvent(c.record, c.prepared, c.f))), i, c.(phase := EventFinalized))
  }

  function StepMutated(w: World, i: nat): World
    requires Enabled(w, LogMutated(i))
  {
    var c := w.calls[i];
    Advanced(Write(w, Append(MutatedEvent(c.record, c.prepared, c.f))), i, c.(phase := EventMutated))
  }

  /** A finalize may be given any PREPARED event of the log: one of an earlier process, or one that was finalized before. */
  function StepTakeUp(w: World, k: nat): World
    requires Enabled(w, TakeUp(k))
  {
    var e := w.memory.events[k];
    var r := StepRecord(w.memory.records, e.missionId, e.stepId).value;
    var p := Prepare(e.missionId, e.taskId, e.stepId, "", "", "", "", e.intent, "", e.executionId, e.eventId);
    w.(calls := w.calls + [Call(p, Position(w.memory.records, r.continuityId), EventPrepared, e, r, NO_FINALIZE)])
  }

  function RunMoves(w: World, moves: seq<Move>): World
    decreases moves
  {
    if moves == [] then w else Step(RunMoves(w, moves[..|moves| - 1]), moves[|moves| - 1])
  }

  lemma WrittenStep(m: Memory, w: World, move: Move)
    requires w.memory == RunMemory(m, w.written)
    ensures Step(w, move).memory == RunMemory(m, Step(w, move).written)
  {
    var u := Step(w, move);
    if move.Reconcile? {
      RunMemoryConcat(m, w.written, PartialPass(w.memory, move.env, move.written));
    } else if u.written != w.written {
      RunMemorySnoc(m, w.written, u.written[|w.written|]);
    }
  }

  /** What has been written accounts for memory. */
  lemma {:induction false} WrittenIsMemory(m: Memory, moves: seq<Move>)
    ensures var u := RunMoves(World(m, [], []), moves);
      u.memory == RunMemory(m, u.written)
    decreases moves
  {
    if moves != [] {
      var front := moves[..|moves| - 1];
      WrittenIsMemory(m, front);
      WrittenStep(m, RunMoves(World(m, [], []), front), moves[|moves| - 1]);
    }
  }

  // ---- The shape of the log ----

  /** Event `j` names event `i` as its parent. */
  predicate Names(events: seq<Event>, j: nat, i: nat)
    requires i < j < |events|
  {
    events[j].parentEventId == Some(events[i].eventId)
  }

  ghost predicate HasPrepared(events: seq<Event>, j: nat)
    requires j < |events|
  {
    exists i: nat :: i < j && Names(events, j, i)
      && events[i].eventType.MutationPrepared?
      && events[i].missionId == events[j].missionId && events[i].stepId == events[j].stepId
      && events[i].commitBefore == events[j].commitBefore
  }

  ghost predicate HasFinalized(events: seq<Event>, j: nat)
    requires j < |events|
  {
    exists i: nat :: i < j && Names(events, j, i) && events[i].eventType.MutationFinalized?
      && events[i].missionId == events[j].missionId && events[i].stepId == events[j].stepId
  }

  ghost predicate LogShape(events: seq<Event>) {
    && (forall j: nat :: j < |events| && events[j].eventType.MutationFinalized? ==> HasPrepared(events, j))
    && (forall j: nat :: j < |events| && events[j].eventType.RepositoryMutated? ==> HasFinalized(events, j))
  }

  /** The event is in the log, under some number. */
  ghost predicate Logged(events: seq<Event>, e: Event) {
    exists k :: 0 <= k < |events| && IsNumbered(events[k], e)
  }

  predicate IsNumbered(logged: Event, e: Event) {
    logged == e.(sequence := logged.sequence)
  }

  /** A call's own events are in the log once it has come past them. */
  ghost predicate CallLogged(events: seq<Event>, c: Call) {
    && c.prepared.eventType.MutationPrepared?
    && (!c.phase.RecordActive? ==> Logged(events, c.prepared))
    && (c.phase.EventFinalized? || c.phase.EventMutated? ==> Logged(events, FinalizedEvent(c.record, c.prepared, c.f)))
  }

  lemma LoggedGrows(events: seq<Event>, e: Event, x: Event)
    requires Logged(events, x)
    ensures Logged(events + [e], x)
  {
    var k :| 0 <= k < |events| && IsNumbered(events[k], x);
    assert (events + [e])[k] == events[k];
  }

  lemma LoggedNow(events: seq<Event>, x: Event, n: int)
    ensures Logged(events + [x.(sequence := n)], x)
  {
    assert IsNumbered((events + [x.(sequence := n)])[|events|], x);
  }

  lemma HasPreparedGrows(events: seq<Event>, e: Event, j: nat)
    requires j < |events| && HasPrepared(events, j)
    ensures HasPrepared(events + [e], j)
  {
    var i: nat :| i < j && Names(events, j, i) && events[i].eventType.MutationPrepared?
      && events[i].missionId == events[j].missionId && events[i].stepId == events[j].stepId
      && events[i].commitBefore == events[j].commitBefore;
    assert Names(events + [e], j, i);
  }

  lemma HasFinalizedGrows(events: seq<Event>, e: Event, j: nat)
    requires j < |events| && HasFinalized(events, j)
    ensures HasFinalized(events + [e], j)
  {
    var i: nat :| i < j && Names(events, j, i) && events[i].eventType.MutationFinalized?
      && events[i].missionId == events[j].missionId && events[i].stepId == events[j].stepId;
    assert Names(events + [e], j, i);
  }

  lemma LogShapeSnoc(events: seq<Event>, e: Event)
    requires LogShape(events)
    requires e.eventType.MutationFinalized? ==> HasPrepared(events + [e], |events|)
    requires e.eventType.RepositoryMutated? ==> HasFinalized(events + [e], |events|)
    ensures LogShape(events + [e])
  {
    var all := events + [e];
    forall j: nat | j < |all| && all[j].eventType.MutationFinalized? ensures HasPrepared(all, j) {
      if j < |events| { HasPreparedGrows(events, e, j); }
    }
    forall j: nat | j < |all| && all[j].eventType.RepositoryMutated? ensures HasFinalized(all, j) {
      if j < |events| { HasFinalizedGrows(events, e, j); }
    }
  }

  /** A finalized event logged after the prepared event it was made from. */
  lemma FinalizedHasParent(events: seq<Event>, c: Call, n: int)
    requires c.prepared.eventType.MutationPrepared? && Logged(events, c.prepared)
    ensures HasPrepared(events + [FinalizedEvent(c.record, c.prepared, c.f).(sequence := n)], |events|)
  {
    var k: nat :| 0 <= k < |events| && IsNumbered(events[k], c.prepared);
    assert Names(events + [FinalizedEvent(c.record, c.prepared, c.f).(sequence := n)], |events|, k);
  }

  lemma MutatedHasParent(events: seq<Event>, c: Call, n: int)
    requires Logged(events, FinalizedEvent(c.record, c.prepared, c.f))
    ensures HasFinalized(events + [MutatedEvent(c.record, c.prepared, c.f).(sequence := n)], |events|)
  {
    var k: nat :| 0 <= k < |events| && IsNumbered(events[k], FinalizedEvent(c.record, c.prepared, c.f));
    assert Names(events + [MutatedEvent(c.record, c.prepared, c.f).(sequence := n)], |events|, k);
  }

  ghost predicate CallsLogged(events: seq<Event>, calls: seq<Call>) {
    forall i :: 0 <= i < |calls| ==> CallLogged(events, calls[i])
  }

  lemma CallsLoggedGrow(events: seq<Event>, e: Event, calls: seq<Call>)
    requires CallsLogged(events, calls)
    ensures CallsLogged(events + [e], calls)
  {
    forall i | 0 <= i < |calls| ensures CallLogged(events + [e], calls[i]) {
      var c := calls[i];
      if !c.phase.RecordActive? {
        LoggedGrows(events, e, c.prepared);
      }
      if c.phase.EventFinalized? || c.phase.EventMutated? {
        LoggedGrows(events, e, FinalizedEvent(c.record, c.prepared, c.f));
      }
    }
  }

  ghost predicate WorldShape(w: World) {
    LogShape(w.memory.events) && CallsLogged(w.memory.events, w.calls)
  }

  lemma ShapeAppend(w: World, i: nat, e: Event, c: Call)
    requires WorldShape(w) && i < |w.calls|
    requires LogShape(w.memory.events + [NumberedEvent(w.memory, e)])
    requires CallLogged(w.memory.events + [NumberedEvent(w.memory, e)], c)
    ensures WorldShape(Advanced(Write(w, Append(e)), i, c))
  {
    CallsLoggedGrow(w.memory.events, NumberedEvent(w.memory, e), w.calls);
  }

  lemma ShapePrepared(w: World, i: nat)
    requires WorldShape(w) && Enabled(w, LogPrepared(i))
    ensures WorldShape(StepPrepared(w, i))
  {
    var c, n := w.calls[i], w.memory.sequence + 1;
    LogShapeSnoc(w.memory.events, NumberedEvent(w.memory, c.prepared));
    LoggedNow(w.memory.events, NumberedEvent(w.memory, c.prepared), n);
    ShapeAppend(w, i, c.prepared, c.(phase := EventPrepared, prepared := NumberedEvent(w.memory, c.prepared)));
  }

  lemma ShapeFinalized(w: World, i: nat)
    requires WorldShape(w) && Enabled(w, LogFinalized(i))
    ensures WorldShape(StepFinalized(w, i))
  {
    var c, n := w.calls[i], w.memory.sequence + 1;
    var e := FinalizedEvent(c.record, c.prepared, c.f);
    FinalizedHasParent(w.memory.events, c, n);
    LogShapeSnoc(w.memory.events, e.(sequence := n));
    LoggedNow(w.memory.events, e, n);
    LoggedGrows(w.memory.events, e.(sequence := n), c.prepared);
    ShapeAppend(w, i, e, c.(phase := EventFinalized));
  }

  lemma MutatedIsLogged(events: seq<Event>, e: Event, c: Call)
    requires CallLogged(events, c) && c.phase.EventFinalized?
    ensures CallLogged(events + [e], c.(phase := EventMutated))
  {
    LoggedGrows(events, e, c.prepared);
    LoggedGrows(events, e, FinalizedEvent(c.record, c.prepared, c.f));
  }

  lemma ShapeMutated(w: World, i: nat)
    requires WorldShape(w) && Enabled(w, LogMutated(i))
    ensures WorldShape(StepMutated(w, i))
  {
    var c := w.calls[i];
    assert CallLogged(w.memory.events, c);
    MutatedKeepsShape(w.memory.events, c, w.memory.sequence + 1);
    ShapeAppend(w, i, MutatedEvent(c.record, c.prepared, c.f), c.(phase := EventMutated));
  }

  lemma MutatedKeepsShape(events: seq<Event>, c: Call, n: int)
    requires LogShape(events) && CallLogged(events, c) && c.phase.EventFinalized?
    ensures var all := events + [MutatedEvent(c.record, c.prepared, c.f).(sequence := n)];
      LogShape(all) && CallLogged(all, c.(phase := EventMutated))
  {
    var e := MutatedEvent(c.record, c.prepared, c.f).(sequence := n);
    MutatedHasParent(events, c, n);
    LogShapeSnoc(events, e);
    MutatedIsLogged(events, e, c);
  }

  lemma ShapeBegin(w: World, p: Prepare)
    requires WorldShape(w) && Enabled(w, Begin(p))
    ensures WorldShape(StepBegin(w, p))
  {
  }

  lemma ShapeClose(w: World, i: nat, f: Finalize)
    requires WorldShape(w) && Enabled(w, Close(i, f))
    ensures WorldShape(StepClose(w, i, f))
  {
    assert CallLogged(w.memory.events, w.calls[i]);
  }

  lemma ShapeTakeUp(w: World, k: nat)
    requires WorldShape(w) && Enabled(w, TakeUp(k))
    ensures WorldShape(StepTakeUp(w, k))
  {
    assert IsNumbered(w.memory.events[k], w.memory.events[k]);
  }

  lemma {:induction false} ShapeBlockers(events: seq<Event>, calls: seq<Call>, extra: seq<Event>)
    requires LogShape(events) && CallsLogged(events, calls) && AllBlockers(extra)
    ensures LogShape(events + extra) && CallsLogged(events + extra, calls)
    decreases extra
  {
    if extra == [] {
      assert events + extra == events;
    } else {
      var front, e := extra[..|extra| - 1], extra[|extra| - 1];
      assert e in extra && extra == front + [e];
      ShapeBlockers(events, calls, front);
      Assoc(events, front, [e]);
      LogShapeSnoc(events + front, e);
      CallsLoggedGrow(events + front, e, calls);
    }
  }

  lemma ShapeReconcile(w: World, env: Env, n: nat)
    requires WorldShape(w)
    ensures WorldShape(WriteAll(w, PartialPass(w.memory, env, n)))
  {
    PassLogsGaps(w.memory, w.memory.records, env);
    var extra := GapsOnly(w.memory, PartialPass(w.memory, env, n));
    ShapeBlockers(w.memory.events, w.calls, extra);
  }

  lemma ShapeStep(w: World, move: Move)
    requires WorldShape(w)
    ensures WorldShape(Step(w, move))
  {
    if Enabled(w, move) {
      match move
      case Begin(p) => ShapeBegin(w, p);
      case Restart =>
      case Close(i, f) => ShapeClose(w, i, f);
      case TakeUp(k) => ShapeTakeUp(w, k);
      case Reconcile(env, n) => ShapeReconcile(w, env, n);
      case LogPrepared(i) => ShapePrepared(w, i);
      case LogFinalized(i) => ShapeFinalized(w, i);
      case LogMutated(i) => ShapeMutated(w, i);
    }
  }

  lemma {:induction false} ShapeRun(w: World, moves: seq<Move>)
    requires WorldShape(w)
    ensures WorldShape(RunMoves(w, moves))
    decreases moves
  {
    if moves != [] {
      ShapeRun(w, moves[..|moves| - 1]);
      ShapeStep(RunMoves(w, moves[..|moves| - 1]), moves[|moves| - 1]);
    }
  }

  /**
   In every log that any number of interleaving calls, crashes and restarts can leave,
   found by a reload: each FINALIZED event names as parent a PREPARED event before it of
   the same mission, step and commit, each MUTATED event a FINALIZED event before it of
   the same mission and step, and events that come before have smaller numbers.
   */
  lemma LogShapeHolds(cs: LogCodecs, s: Store, moves: seq<Move>)
    requires LawfulCodecs(cs) && Sound(cs, s) && LogShape(s.memory.events)
    ensures var u := RunMoves(World(s.memory, [], []), moves);
      var found := Load(cs, Run(cs, s, u.written).disk).memory;
      && found == u.memory
      && LogShape(found.events)
      && forall i, j :: 0 <= i < j < |found.events| ==> found.events[i].sequence < found.events[j].sequence
  {
    var u := RunMoves(World(s.memory, [], []), moves);
    WrittenIsMemory(s.memory, moves);
    CrashFindsMemory(cs, s, u.written);
    ShapeRun(World(s.memory, [], []), moves);
    SoundIsOrdered(cs, Run(cs, s, u.written));
    ReloadIsIdentity(cs, Run(cs, s, u.written));
  }
}
