/**
 Conservation between record and events over the durable steps of the mutation protocol:
 calls interleave, crash and are taken up again, and a record's lists are still accounted
 for by the finalizes that were saved, an event's lists by those that were logged.
 */
module InterleavedConservation {
  import opened Models
  import opened LineFiles
  import opened Replay
  import opened Stores
  import opened Mutation
  import opened Reconciliation
  import opened MutationProtocol
  import opened Conservation

  /** Changed files and evidence, of a record or of events. */
  datatype Lists = Lists(files: seq<string>, evidence: seq<string>)

  function Add(a: Lists, b: Lists): Lists {
    Lists(a.files + b.files, a.evidence + b.evidence)
  }

  function RecordLists(r: Record): Lists {
    Lists(r.filesChanged, r.evidenceRefs)
  }

  function EventLists(events: seq<Event>, missionId: string, stepId: string): Lists {
    Lists(Files(events, missionId, stepId), Evidence(events, missionId, stepId))
  }

  /** One save of a finalize, and whether its FINALIZED event has followed. */
  datatype Closing = Closing(lists: Lists, logged: bool)

  function SavedLists(closings: seq<Closing>): Lists {
    if closings == [] then Lists([], [])
    else Add(SavedLists(closings[..|closings| - 1]), closings[|closings| - 1].lists)
  }

  function LoggedLists(closings: seq<Closing>): Lists {
    if closings == [] then Lists([], [])
    else
      var last := closings[|closings| - 1];
      Add(LoggedLists(closings[..|closings| - 1]), if last.logged then last.lists else Lists([], []))
  }

  predicate OfCallStep(c: Call, missionId: string, stepId: string) {
    c.prepared.missionId == missionId && c.prepared.stepId == stepId
  }

  function MarkLast(closings: seq<Closing>): seq<Closing> {
    if closings == [] then [] else closings[|closings| - 1 := closings[|closings| - 1].(logged := true)]
  }

  /** What one move adds to the saves of the step's finalizes. */
  function ClosingsAfter(w: World, move: Move, missionId: string, stepId: string, before: seq<Closing>): seq<Closing> {
    if !Enabled(w, move) then before
    else match move
      case Close(i, f) =>
        if OfCallStep(w.calls[i], missionId, stepId) then before + [Closing(Lists(f.filesChanged, f.evidenceRefs), false)] else before
      case LogFinalized(i) =>
        if OfCallStep(w.calls[i], missionId, stepId) then MarkLast(before) else before
      case _ => before
  }

  /** The saves of the step's finalizes in a run, in order. */
  function Closings(m: Memory, moves: seq<Move>, missionId: string, stepId: string): seq<Closing>
    decreases moves
  {
    if moves == [] then []
    else
      var front := moves[..|moves| - 1];
      ClosingsAfter(RunMoves(World(m, [], []), front), moves[|moves| - 1], missionId, stepId, Closings(m, front, missionId, stepId))
  }

  /** The call has saved its record and not yet logged its FINALIZED event. */
  predicate Between(c: Call) {
    c.phase.RecordComplete?
  }

  /** No finalize saves its record while another one of the same step is between save and event. */
  ghost predicate OneBetween(m: Memory, moves: seq<Move>)
    decreases moves
  {
    moves == [] ||
    (var (front, move) := (moves[..|moves| - 1], moves[|moves| - 1]);
     var w := RunMoves(World(m, [], []), front);
     OneBetween(m, front) && (move.Close? && Enabled(w, move) ==> NoneBetween(w, w.calls[move.call])))
  }

  ghost predicate NoneBetween(w: World, c: Call) {
    forall k :: 0 <= k < |w.calls| && Between(w.calls[k]) ==> !OfCallStep(w.calls[k], c.prepared.missionId, c.prepared.stepId)
  }

  // ---- Sums ----

  lemma SavedSnoc(closings: seq<Closing>, c: Closing)
    ensures SavedLists(closings + [c]) == Add(SavedLists(closings), c.lists)
    ensures LoggedLists(closings + [c]) == Add(LoggedLists(closings), if c.logged then c.lists else Lists([], []))
  {
    assert (closings + [c])[..|closings + [c]| - 1] == closings;
  }

  lemma AddNothing(a: Lists)
    ensures Add(a, Lists([], [])) == a
  {
  }

  lemma AddAssoc(a: Lists, b: Lists, c: Lists)
    ensures Add(Add(a, b), c) == Add(a, Add(b, c))
  {
    Assoc(a.files, b.files, c.files);
    Assoc(a.evidence, b.evidence, c.evidence);
  }

  /** Marking the last save as logged moves its lists to the logged ones. */
  lemma MarkedLists(closings: seq<Closing>)
    requires closings != [] && !closings[|closings| - 1].logged
    ensures SavedLists(MarkLast(closings)) == SavedLists(closings)
    ensures LoggedLists(MarkLast(closings)) == Add(LoggedLists(closings), closings[|closings| - 1].lists)
  {
    var front, last := closings[..|closings| - 1], closings[|closings| - 1];
    assert closings == front + [last] && MarkLast(closings) == front + [last.(logged := true)];
    SavedSnoc(front, last);
    SavedSnoc(front, last.(logged := true));
    AddNothing(LoggedLists(front));
  }

  // ---- Invariant ----

  /** The record holds what it held and what was saved since; the events hold what they held and what was logged since. */
  ghost predicate Accounted(was: Record, before: seq<Event>, r: Record, events: seq<Event>, closings: seq<Closing>) {
    && r.continuityId == was.continuityId && r.missionId == was.missionId && r.stepId == was.stepId
    && RecordLists(r) == Add(RecordLists(was), SavedLists(closings))
    && EventLists(events, was.missionId, was.stepId) == Add(EventLists(before, was.missionId, was.stepId), LoggedLists(closings))
  }

  ghost predicate RecordsAccounted(m: Memory, moves: seq<Move>, w: World) {
    && |w.memory.records| == |m.records|
    && forall j :: 0 <= j < |m.records| ==>
         Accounted(m.records[j], m.events, w.memory.records[j], w.memory.events,
           Closings(m, moves, m.records[j].missionId, m.records[j].stepId))
  }

  ghost predicate CallOk(m: Memory, moves: seq<Move>, c: Call) {
    && c.prepared.eventType.MutationPrepared?
    && (Between(c) ==>
          var closings := Closings(m, moves, c.prepared.missionId, c.prepared.stepId);
          closings != [] && closings[|closings| - 1] == Closing(Lists(c.f.filesChanged, c.f.evidenceRefs), false))
  }

  ghost predicate CallsOk(m: Memory, moves: seq<Move>, w: World) {
    && (forall i :: 0 <= i < |w.calls| ==> CallOk(m, moves, w.calls[i]))
    && (forall i, k :: 0 <= i < k < |w.calls| && Between(w.calls[i]) && Between(w.calls[k]) ==>
          !OfCallStep(w.calls[k], w.calls[i].prepared.missionId, w.calls[i].prepared.stepId))
  }

  lemma ClosingsSnoc(m: Memory, moves: seq<Move>, move: Move, missionId: string, stepId: string)
    ensures Closings(m, moves + [move], missionId, stepId)
         == ClosingsAfter(RunMoves(World(m, [], []), moves), move, missionId, stepId, Closings(m, moves, missionId, stepId))
  {
    assert (moves + [move])[..|moves + [move]| - 1] == moves;
  }

  lemma StaysDistinct(m: Memory, moves: seq<Move>, w: World)
    requires OneRecordPerStep(m.records) && RecordsAccounted(m, moves, w)
    ensures OneRecordPerStep(w.memory.records)
  {
    forall i, j | 0 <= i < j < |m.records|
      ensures w.memory.records[i].continuityId != w.memory.records[j].continuityId
      ensures !(w.memory.records[i].missionId == w.memory.records[j].missionId && w.memory.records[i].stepId == w.memory.records[j].stepId)
    {
      assert Accounted(m.records[i], m.events, w.memory.records[i], w.memory.events, Closings(m, moves, m.records[i].missionId, m.records[i].stepId));
      assert Accounted(m.records[j], m.events, w.memory.records[j], w.memory.events, Closings(m, moves, m.records[j].missionId, m.records[j].stepId));
    }
  }

  // ---- One record, one move ----

  /** A move that saves no lists and logs no FINALIZED event. */
  lemma IdleAccounted(was: Record, before: seq<Event>, r: Record, events: seq<Event>, closings: seq<Closing>, r': Record, extra: seq<Event>)
    requires Accounted(was, before, r, events, closings)
    requires r'.continuityId == r.continuityId && r'.missionId == r.missionId && r'.stepId == r.stepId && RecordLists(r') == RecordLists(r)
    requires forall e :: e in extra ==> !e.eventType.MutationFinalized?
    ensures Accounted(was, before, r', events + extra, closings)
  {
    LogIdle(events, extra, was.missionId, was.stepId);
  }

  lemma CloseAccounted(was: Record, before: seq<Event>, r: Record, events: seq<Event>, closings: seq<Closing>, f: Finalize)
    requires Accounted(was, before, r, events, closings)
    ensures Accounted(was, before, FinalizedRecord(r, f), events, closings + [Closing(Lists(f.filesChanged, f.evidenceRefs), false)])
  {
    var lists := Lists(f.filesChanged, f.evidenceRefs);
    SavedSnoc(closings, Closing(lists, false));
    AddAssoc(RecordLists(was), SavedLists(closings), lists);
    AddNothing(LoggedLists(closings));
  }

  lemma LogAccounted(was: Record, before: seq<Event>, r: Record, events: seq<Event>, closings: seq<Closing>, e: Event)
    requires Accounted(was, before, r, events, closings) && Finalizes(e, was.missionId, was.stepId)
    requires closings != [] && closings[|closings| - 1] == Closing(Lists(e.filesChanged, e.evidenceRefs), false)
    ensures Accounted(was, before, r, events + [e], MarkLast(closings))
  {
    MarkedLists(closings);
    LogOne(events, e, was.missionId, was.stepId);
    AddAssoc(EventLists(before, was.missionId, was.stepId), LoggedLists(closings), Lists(e.filesChanged, e.evidenceRefs));
  }

  lemma OtherAccounted(was: Record, before: seq<Event>, r: Record, events: seq<Event>, closings: seq<Closing>, e: Event)
    requires Accounted(was, before, r, events, closings) && !Finalizes(e, was.missionId, was.stepId)
    ensures Accounted(was, before, r, events + [e], closings)
  {
    LogOne(events, e, was.missionId, was.stepId);
  }

  // ---- All records, one move ----

  /** A move that changes no closings, saves no lists and logs no FINALIZED event. */
  lemma IdleStep(m: Memory, moves: seq<Move>, move: Move, w: World, u: World, extra: seq<Event>)
    requires RecordsAccounted(m, moves, w) && w == RunMoves(World(m, [], []), moves)
    requires !Enabled(w, move) || !(move.Close? || move.LogFinalized?)
    requires |u.memory.records| == |w.memory.records| && u.memory.events == w.memory.events + extra
    requires forall e :: e in extra ==> !e.eventType.MutationFinalized?
    requires forall j :: 0 <= j < |m.records| ==>
      var (r, r') := (w.memory.records[j], u.memory.records[j]);
      r'.continuityId == r.continuityId && r'.missionId == r.missionId && r'.stepId == r.stepId && RecordLists(r') == RecordLists(r)
    ensures RecordsAccounted(m, moves + [move], u)
  {
    forall j | 0 <= j < |m.records|
      ensures Accounted(m.records[j], m.events, u.memory.records[j], u.memory.events,
        Closings(m, moves + [move], m.records[j].missionId, m.records[j].stepId))
    {
      ClosingsSnoc(m, moves, move, m.records[j].missionId, m.records[j].stepId);
      IdleAccounted(m.records[j], m.events, w.memory.records[j], w.memory.events,
        Closings(m, moves, m.records[j].missionId, m.records[j].stepId), u.memory.records[j], extra);
    }
  }

  /** A move that saves one record without touching its lists. */
  lemma IdleSave(m: Memory, moves: seq<Move>, move: Move, w: World, u: World, i: nat, q: Record)
    requires RecordsAccounted(m, moves, w) && w == RunMoves(World(m, [], []), moves)
    requires !Enabled(w, move) || !(move.Close? || move.LogFinalized?)
    requires i < |w.memory.records| && u.memory.records == w.memory.records[i := q] && u.memory.events == w.memory.events
    requires var r := w.memory.records[i];
      q.continuityId == r.continuityId && q.missionId == r.missionId && q.stepId == r.stepId && RecordLists(q) == RecordLists(r)
    ensures RecordsAccounted(m, moves + [move], u)
  {
    forall j | 0 <= j < |m.records|
      ensures Accounted(m.records[j], m.events, u.memory.records[j], u.memory.events,
        Closings(m, moves + [move], m.records[j].missionId, m.records[j].stepId))
    {
      ClosingsSnoc(m, moves, move, m.records[j].missionId, m.records[j].stepId);
      assert Accounted(m.records[j], m.events, w.memory.records[j], w.memory.events,
        Closings(m, moves, m.records[j].missionId, m.records[j].stepId));
    }
  }

  lemma BeginStep(m: Memory, moves: seq<Move>, w: World, p: Prepare)
    requires OneRecordPerStep(m.records) && RecordsAccounted(m, moves, w) && w == RunMoves(World(m, [], []), moves)
    requires Enabled(w, Begin(p))
    ensures RecordsAccounted(m, moves + [Begin(p)], StepBegin(w, p))
  {
    StaysDistinct(m, moves, w);
    var i := StepRecordIndex(w.memory.records, p.missionId, p.stepId);
    UpsertAt(w.memory.records, i, PreparedRecord(w.memory.records[i], p));
    IdleSave(m, moves, Begin(p), w, StepBegin(w, p), i, PreparedRecord(w.memory.records[i], p));
  }

  lemma CloseStep(m: Memory, moves: seq<Move>, w: World, i: nat, f: Finalize)
    requires OneRecordPerStep(m.records) && RecordsAccounted(m, moves, w) && w == RunMoves(World(m, [], []), moves)
    requires Enabled(w, Close(i, f))
    ensures RecordsAccounted(m, moves + [Close(i, f)], StepClose(w, i, f))
  {
    StaysDistinct(m, moves, w);
    var e := w.calls[i].prepared;
    var at := StepRecordIndex(w.memory.records, e.missionId, e.stepId);
    UpsertAt(w.memory.records, at, FinalizedRecord(w.memory.records[at], f));
    forall j | 0 <= j < |m.records|
      ensures Accounted(m.records[j], m.events, w.memory.records[at := FinalizedRecord(w.memory.records[at], f)][j], w.memory.events,
        Closings(m, moves + [Close(i, f)], m.records[j].missionId, m.records[j].stepId))
    {
      var was, closings := m.records[j], Closings(m, moves, m.records[j].missionId, m.records[j].stepId);
      ClosingsSnoc(m, moves, Close(i, f), was.missionId, was.stepId);
      assert Accounted(was, m.events, w.memory.records[j], w.memory.events, closings);
      assert OfCallStep(w.calls[i], was.missionId, was.stepId) <==> j == at;
      if j == at {
        CloseAccounted(was, m.events, w.memory.records[j], w.memory.events, closings, f);
      }
    }
  }

  lemma LogFinalizedStep(m: Memory, moves: seq<Move>, w: World, i: nat)
    requires RecordsAccounted(m, moves, w) && CallsOk(m, moves, w) && w == RunMoves(World(m, [], []), moves)
    requires Enabled(w, LogFinalized(i))
    ensures RecordsAccounted(m, moves + [LogFinalized(i)], StepFinalized(w, i))
  {
    var c := w.calls[i];
    var e := NumberedEvent(w.memory, FinalizedEvent(c.record, c.prepared, c.f));
    assert CallOk(m, moves, c);
    forall j | 0 <= j < |m.records|
      ensures Accounted(m.records[j], m.events, w.memory.records[j], w.memory.events + [e],
        Closings(m, moves + [LogFinalized(i)], m.records[j].missionId, m.records[j].stepId))
    {
      var was, closings := m.records[j], Closings(m, moves, m.records[j].missionId, m.records[j].stepId);
      ClosingsSnoc(m, moves, LogFinalized(i), was.missionId, was.stepId);
      assert Accounted(was, m.events, w.memory.records[j], w.memory.events, closings);
      LoggedOne(was, m.events, w.memory.records[j], w.memory.events, closings, c, e);
    }
  }

  lemma LoggedOne(was: Record, before: seq<Event>, r: Record, events: seq<Event>, closings: seq<Closing>, c: Call, e: Event)
    requires Accounted(was, before, r, events, closings) && Finalizes(e, c.prepared.missionId, c.prepared.stepId)
    requires OfCallStep(c, was.missionId, was.stepId) ==>
      closings != [] && closings[|closings| - 1] == Closing(Lists(e.filesChanged, e.evidenceRefs), false)
    ensures Accounted(was, before, r, events + [e], if OfCallStep(c, was.missionId, was.stepId) then MarkLast(closings) else closings)
  {
    if OfCallStep(c, was.missionId, was.stepId) {
      LogAccounted(was, before, r, events, closings, e);
    } else {
      OtherAccounted(was, before, r, events, closings, e);
    }
  }

  /** A reconciliation, stopped anywhere, changes no lists and no names. */
  lemma ReconcileKeeps(m: Memory, env: Env, n: nat) returns (extra: seq<Event>)
    requires OneRecordPerStep(m.records)
    ensures var after := RunMemory(m, PartialPass(m, env, n));
      && |after.records| == |m.records| && after.events == m.events + extra
      && (forall e :: e in extra ==> !e.eventType.MutationFinalized?)
      && forall j :: 0 <= j < |m.records| ==>
           var (r, r') := (m.records[j], after.records[j]);
           r'.continuityId == r.continuityId && r'.missionId == r.missionId && r'.stepId == r.stepId && RecordLists(r') == RecordLists(r)
  {
    extra := PartialEffect(m, env, n);
    var after := RunMemory(m, PartialPass(m, env, n));
    forall j | 0 <= j < |m.records|
      ensures var (r, r') := (m.records[j], after.records[j]);
        r'.continuityId == r.continuityId && r'.missionId == r.missionId && r'.stepId == r.stepId && RecordLists(r') == RecordLists(r)
    {
      assert after.records[j] == m.records[j] || after.records[j] == Settled(m.events, m.records[j], env);
    }
  }

  lemma ReconcileStep(m: Memory, moves: seq<Move>, w: World, env: Env, n: nat)
    requires OneRecordPerStep(m.records) && RecordsAccounted(m, moves, w) && w == RunMoves(World(m, [], []), moves)
    ensures RecordsAccounted(m, moves + [Reconcile(env, n)], WriteAll(w, PartialPass(w.memory, env, n)))
  {
    StaysDistinct(m, moves, w);
    var extra := ReconcileKeeps(w.memory, env, n);
    IdleStep(m, moves, Reconcile(env, n), w, WriteAll(w, PartialPass(w.memory, env, n)), extra);
  }

  lemma LogPreparedStep(m: Memory, moves: seq<Move>, w: World, i: nat)
    requires RecordsAccounted(m, moves, w) && CallsOk(m, moves, w) && w == RunMoves(World(m, [], []), moves)
    requires Enabled(w, LogPrepared(i))
    ensures RecordsAccounted(m, moves + [LogPrepared(i)], StepPrepared(w, i))
  {
    assert CallOk(m, moves, w.calls[i]);
    var extra := [NumberedEvent(w.memory, w.calls[i].prepared)];
    assert StepPrepared(w, i).memory.events == w.memory.events + extra;
    IdleStep(m, moves, LogPrepared(i), w, StepPrepared(w, i), extra);
  }

  lemma LogMutatedStep(m: Memory, moves: seq<Move>, w: World, i: nat)
    requires RecordsAccounted(m, moves, w) && w == RunMoves(World(m, [], []), moves)
    requires Enabled(w, LogMutated(i))
    ensures RecordsAccounted(m, moves + [LogMutated(i)], StepMutated(w, i))
  {
    var c := w.calls[i];
    var extra := [NumberedEvent(w.memory, MutatedEvent(c.record, c.prepared, c.f))];
    assert StepMutated(w, i).memory.events == w.memory.events + extra;
    IdleStep(m, moves, LogMutated(i), w, StepMutated(w, i), extra);
  }

  lemma RecordsStep(m: Memory, moves: seq<Move>, move: Move)
    requires OneRecordPerStep(m.records)
    requires RecordsAccounted(m, moves, RunMoves(World(m, [], []), moves)) && CallsOk(m, moves, RunMoves(World(m, [], []), moves))
    ensures RecordsAccounted(m, moves + [move], Step(RunMoves(World(m, [], []), moves), move))
  {
    var w := RunMoves(World(m, [], []), moves);
    assert w.memory.events + [] == w.memory.events;
    if !Enabled(w, move) {
      IdleStep(m, moves, move, w, w, []);
    } else {
      match move
      case Begin(p) => BeginStep(m, moves, w, p);
      case LogPrepared(i) => LogPreparedStep(m, moves, w, i);
      case Close(i, f) => CloseStep(m, moves, w, i, f);
      case LogFinalized(i) => LogFinalizedStep(m, moves, w, i);
      case LogMutated(i) => LogMutatedStep(m, moves, w, i);
      case TakeUp(k) => IdleStep(m, moves, move, w, StepTakeUp(w, k), []);
      case Reconcile(env, n) => ReconcileStep(m, moves, w, env, n);
      case Restart => IdleStep(m, moves, move, w, w.(calls := []), []);
    }
  }

  // ---- The calls, one move ----

  /** The saves of a step are the same after a move of another step, or of one that neither saves nor logs. */
  lemma ClosingsStay(m: Memory, moves: seq<Move>, move: Move, w: World, c: Call)
    requires w == RunMoves(World(m, [], []), moves)
    requires CallOk(m, moves, c)
    requires Between(c) ==> Elsewhere(w, move, c.prepared.missionId, c.prepared.stepId)
    ensures CallOk(m, moves + [move], c)
  {
    if Between(c) {
      ClosingsSnoc(m, moves, move, c.prepared.missionId, c.prepared.stepId);
      SameClosings(w, move, c.prepared.missionId, c.prepared.stepId, Closings(m, moves, c.prepared.missionId, c.prepared.stepId));
    }
  }

  /** The move neither saves nor logs a finalize of the step. */
  predicate Elsewhere(w: World, move: Move, missionId: string, stepId: string) {
    Enabled(w, move) && (move.Close? || move.LogFinalized?) ==> !OfCallStep(w.calls[move.call], missionId, stepId)
  }

  lemma SameClosings(w: World, move: Move, missionId: string, stepId: string, before: seq<Closing>)
    requires Elsewhere(w, move, missionId, stepId)
    ensures ClosingsAfter(w, move, missionId, stepId, before) == before
  {
  }

  /** A call that is not between save and event needs no account. */
  lemma AtRest(m: Memory, moves: seq<Move>, c: Call)
    requires c.prepared.eventType.MutationPrepared? && !Between(c)
    ensures CallOk(m, moves, c)
  {
  }

  lemma CallsClose(m: Memory, moves: seq<Move>, w: World, i: nat, f: Finalize)
    requires CallsOk(m, moves, w) && w == RunMoves(World(m, [], []), moves)
    requires Enabled(w, Close(i, f)) && NoneBetween(w, w.calls[i])
    ensures CallsOk(m, moves + [Close(i, f)], StepClose(w, i, f))
  {
    var u := StepClose(w, i, f);
    var c := w.calls[i];
    assert CallOk(m, moves, c);
    ClosingsSnoc(m, moves, Close(i, f), c.prepared.missionId, c.prepared.stepId);
    forall k | 0 <= k < |u.calls| ensures CallOk(m, moves + [Close(i, f)], u.calls[k]) {
      if k != i {
        ClosingsStay(m, moves, Close(i, f), w, w.calls[k]);
      }
    }
  }

  lemma CallsLogFinalized(m: Memory, moves: seq<Move>, w: World, i: nat)
    requires CallsOk(m, moves, w) && w == RunMoves(World(m, [], []), moves) && Enabled(w, LogFinalized(i))
    ensures CallsOk(m, moves + [LogFinalized(i)], StepFinalized(w, i))
  {
    var u := StepFinalized(w, i);
    forall k | 0 <= k < |u.calls| ensures CallOk(m, moves + [LogFinalized(i)], u.calls[k]) {
      assert CallOk(m, moves, w.calls[k]);
      if k == i {
        AtRest(m, moves + [LogFinalized(i)], u.calls[i]);
      } else {
        ClosingsStay(m, moves, LogFinalized(i), w, w.calls[k]);
      }
    }
  }

  /** A move that neither saves nor logs a finalize, after which each call is as before or at rest. */
  lemma CallsElse(m: Memory, moves: seq<Move>, move: Move, w: World, u: World)
    requires CallsOk(m, moves, w) && w == RunMoves(World(m, [], []), moves)
    requires !Enabled(w, move) || !(move.Close? || move.LogFinalized?)
    requires forall k :: 0 <= k < |u.calls| ==>
      || (k < |w.calls| && u.calls[k] == w.calls[k])
      || (u.calls[k].prepared.eventType.MutationPrepared? && !Between(u.calls[k]))
    ensures CallsOk(m, moves + [move], u)
  {
    forall k | 0 <= k < |u.calls| ensures CallOk(m, moves + [move], u.calls[k]) {
      if k < |w.calls| && u.calls[k] == w.calls[k] {
        ClosingsStay(m, moves, move, w, w.calls[k]);
      } else {
        AtRest(m, moves + [move], u.calls[k]);
      }
    }
  }

  lemma CallsBegin(m: Memory, moves: seq<Move>, w: World, p: Prepare)
    requires CallsOk(m, moves, w) && w == RunMoves(World(m, [], []), moves) && Enabled(w, Begin(p))
    ensures CallsOk(m, moves + [Begin(p)], StepBegin(w, p))
  {
    CallsElse(m, moves, Begin(p), w, StepBegin(w, p));
  }

  lemma CallsTakeUp(m: Memory, moves: seq<Move>, w: World, k: nat)
    requires CallsOk(m, moves, w) && w == RunMoves(World(m, [], []), moves) && Enabled(w, TakeUp(k))
    ensures CallsOk(m, moves + [TakeUp(k)], StepTakeUp(w, k))
  {
    CallsElse(m, moves, TakeUp(k), w, StepTakeUp(w, k));
  }

  lemma CallsLogPrepared(m: Memory, moves: seq<Move>, w: World, i: nat)
    requires CallsOk(m, moves, w) && w == RunMoves(World(m, [], []), moves) && Enabled(w, LogPrepared(i))
    ensures CallsOk(m, moves + [LogPrepared(i)], StepPrepared(w, i))
  {
    assert CallOk(m, moves, w.calls[i]);
    CallsElse(m, moves, LogPrepared(i), w, StepPrepared(w, i));
  }

  lemma CallsLogMutated(m: Memory, moves: seq<Move>, w: World, i: nat)
    requires CallsOk(m, moves, w) && w == RunMoves(World(m, [], []), moves) && Enabled(w, LogMutated(i))
    ensures CallsOk(m, moves + [LogMutated(i)], StepMutated(w, i))
  {
    assert CallOk(m, moves, w.calls[i]);
    CallsElse(m, moves, LogMutated(i), w, StepMutated(w, i));
  }

  lemma CallsStep(m: Memory, moves: seq<Move>, move: Move)
    requires CallsOk(m, moves, RunMoves(World(m, [], []), moves))
    requires var w := RunMoves(World(m, [], []), moves);
      move.Close? && Enabled(w, move) ==> NoneBetween(w, w.calls[move.call])
    ensures CallsOk(m, moves + [move], Step(RunMoves(World(m, [], []), moves), move))
  {
    var w := RunMoves(World(m, [], []), moves);
    if !Enabled(w, move) {
      CallsElse(m, moves, move, w, w);
    } else {
      match move
      case Begin(p) => CallsBegin(m, moves, w, p);
      case LogPrepared(i) => CallsLogPrepared(m, moves, w, i);
      case Close(i, f) => CallsClose(m, moves, w, i, f);
      case LogFinalized(i) => CallsLogFinalized(m, moves, w, i);
      case LogMutated(i) => CallsLogMutated(m, moves, w, i);
      case TakeUp(k) => CallsTakeUp(m, moves, w, k);
      case Reconcile(env, n) => CallsElse(m, moves, move, w, WriteAll(w, PartialPass(w.memory, env, n)));
      case Restart => CallsElse(m, moves, move, w, w.(calls := []));
    }
  }

  // ---- The result ----

  lemma StartAccounted(m: Memory)
    ensures RecordsAccounted(m, [], World(m, [], [])) && CallsOk(m, [], World(m, [], []))
  {
    forall j | 0 <= j < |m.records| ensures Accounted(m.records[j], m.events, m.records[j], m.events, []) {
      AddNothing(RecordLists(m.records[j]));
      AddNothing(EventLists(m.events, m.records[j].missionId, m.records[j].stepId));
    }
  }

  lemma {:induction false} RunAccounted(m: Memory, moves: seq<Move>)
    requires OneRecordPerStep(m.records) && OneBetween(m, moves)
    ensures RecordsAccounted(m, moves, RunMoves(World(m, [], []), moves)) && CallsOk(m, moves, RunMoves(World(m, [], []), moves))
    decreases moves
  {
    if moves == [] {
      StartAccounted(m);
    } else {
      var front, move := moves[..|moves| - 1], moves[|moves| - 1];
      assert moves == front + [move];
      RunAccounted(m, front);
      RecordsStep(m, front, move);
      CallsStep(m, front, move);
    }
  }

  /**
   With one record per mission and step, over any interleaving of the durable steps of any
   number of calls, with crashes, restarts and PREPARED events that are taken up again, in
   which no two finalizes of one step are between save and event at once: after a crash and
   a reload each record's files and evidence are the initial ones followed by those of every
   finalize of its step that was saved, in order, and its step's FINALIZED events carry the
   initial ones followed by those of the finalizes among these that were logged, in the same
   order. So the record is ahead of its events by what was stopped between save and event.
   */
  lemma StepsConserve(cs: LogCodecs, s: Store, moves: seq<Move>, j: nat)
    requires LawfulCodecs(cs) && Sound(cs, s)
    requires OneRecordPerStep(s.memory.records) && OneBetween(s.memory, moves) && j < |s.memory.records|
    ensures var u := RunMoves(World(s.memory, [], []), moves);
      var (found, was) := (Load(cs, Run(cs, s, u.written).disk).memory, s.memory.records[j]);
      var closings := Closings(s.memory, moves, was.missionId, was.stepId);
      && |found.records| == |s.memory.records|
      && RecordLists(found.records[j]) == Add(RecordLists(was), SavedLists(closings))
      && EventLists(found.events, was.missionId, was.stepId)
         == Add(EventLists(s.memory.events, was.missionId, was.stepId), LoggedLists(closings))
  {
    var u := RunMoves(World(s.memory, [], []), moves);
    WrittenIsMemory(s.memory, moves);
    CrashFindsMemory(cs, s, u.written);
    RunAccounted(s.memory, moves);
    assert Accounted(s.memory.records[j], s.memory.events, u.memory.records[j], u.memory.events,
      Closings(s.memory, moves, s.memory.records[j].missionId, s.memory.records[j].stepId));
  }
}
