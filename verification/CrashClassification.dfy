/**
 What reconciliation makes of a crash inside the mutation protocol: it demands
 reconciliation exactly when some call is stuck in a PREPARED event that no FINALIZED
 event of the step follows, or left a record marked COMPLETE with no mutation event.
 */
module CrashClassification {
  import opened Models
  import opened LineFiles
  import opened Replay
  import opened Stores
  import opened Mutation
  import opened Reconciliation
  import opened Reconstruction
  import opened MutationProtocol

  ghost predicate DistinctSteps(records: seq<Record>) {
    forall i, j :: 0 <= i < j < |records| ==> records[i].stepId != records[j].stepId
  }

  /**
   Before the calls: one record per step, nothing that asks for reconciliation.
   */
  ghost predicate Quiet(m: Memory) {
    DistinctIds(m.records) && DistinctSteps(m.records) && !AnyRequired(m.events, m.records)
  }

  /** The call may begin: it is the first of its step in this process. */
  ghost predicate FirstOfStep(calls: seq<Call>, p: Prepare) {
    forall i :: 0 <= i < |calls| ==> calls[i].p.stepId != p.stepId
  }

  /** Each step is prepared at most once and nothing restarts in between. */
  ghost predicate OncePerStep(m: Memory, moves: seq<Move>)
    decreases moves
  {
    moves == [] ||
    (&& OncePerStep(m, moves[..|moves| - 1])
     && match moves[|moves| - 1]
        case Begin(p) => FirstOfStep(RunMoves(World(m, [], []), moves[..|moves| - 1]).calls, p)
        case Restart => false
        case TakeUp(_) => false
        case Reconcile(_, _) => false
        case _ => true)
  }

  // ---- Events of a step ----

  lemma {:induction false} EventsOfSnoc(events: seq<Event>, e: Event, stepId: string, eventType: EventType)
    ensures EventsOf(events + [e], stepId, eventType)
         == EventsOf(events, stepId, eventType) + (if e.stepId == stepId && e.eventType == eventType then [e] else [])
  {
    if events == [] {
      assert events + [e] == [e];
      assert [e][1..] == [];
    } else {
      var head := if events[0].stepId == stepId && events[0].eventType == eventType then [events[0]] else [];
      var last := if e.stepId == stepId && e.eventType == eventType then [e] else [];
      assert (events + [e])[0] == events[0] && (events + [e])[1..] == events[1..] + [e];
      assert EventsOf(events + [e], stepId, eventType) == head + EventsOf(events[1..] + [e], stepId, eventType);
      EventsOfSnoc(events[1..], e, stepId, eventType);
      Assoc(head, EventsOf(events[1..], stepId, eventType), last);
    }
  }

  /** What reconciliation looks at of a step's events. */
  ghost predicate SameStepEvents(a: seq<Event>, b: seq<Event>, stepId: string) {
    && EventsOf(a, stepId, MutationPrepared) == EventsOf(b, stepId, MutationPrepared)
    && EventsOf(a, stepId, MutationFinalized) == EventsOf(b, stepId, MutationFinalized)
    && EventsOf(a, stepId, RepositoryMutated) == EventsOf(b, stepId, RepositoryMutated)
  }

  lemma OtherStepEvents(events: seq<Event>, e: Event, stepId: string)
    requires e.stepId != stepId
    ensures SameStepEvents(events + [e], events, stepId)
  {
    EventsOfSnoc(events, e, stepId, MutationPrepared);
    EventsOfSnoc(events, e, stepId, MutationFinalized);
    EventsOfSnoc(events, e, stepId, RepositoryMutated);
  }

  // ---- The state of each record, by how far its call has come ----

  ghost predicate InPhase(m: Memory, events: seq<Event>, r: Record, c: Call) {
    && c.at < |m.records| && r.status == m.records[c.at].status
    && r.missionId == c.p.missionId == c.prepared.missionId && r.stepId == c.p.stepId == c.prepared.stepId
    && r.repository == Some(c.p.repository)
    && c.prepared.eventType.MutationPrepared?
    && c.prepared.repository == Some(c.p.repository) && c.prepared.commitBefore == Some(c.p.commitBefore)
    && StepEventsInPhase(m, events, c)
    && (if c.phase.RecordActive? || c.phase.EventPrepared? then r.implementationState.Active? else r.implementationState.Complete?)
  }

  /** The mutation events of the call's step, by how far the call has come. */
  ghost predicate StepEventsInPhase(m: Memory, events: seq<Event>, c: Call) {
    var (prepared, finalized) := (EventsOf(events, c.p.stepId, MutationPrepared), EventsOf(events, c.p.stepId, MutationFinalized));
    match c.phase
    case RecordActive => SameStepEvents(events, m.events, c.p.stepId)
    case EventPrepared =>
      prepared == EventsOf(m.events, c.p.stepId, MutationPrepared) + [c.prepared] && SameOutcomes(events, m.events, c.p.stepId)
    case RecordComplete => SameOutcomes(events, m.events, c.p.stepId)
    case _ => finalized != []
  }

  ghost predicate SameOutcomes(a: seq<Event>, b: seq<Event>, stepId: string) {
    && EventsOf(a, stepId, MutationFinalized) == EventsOf(b, stepId, MutationFinalized)
    && EventsOf(a, stepId, RepositoryMutated) == EventsOf(b, stepId, RepositoryMutated)
  }

  lemma StepEventsStay(m: Memory, events: seq<Event>, events': seq<Event>, c: Call)
    requires StepEventsInPhase(m, events, c) && SameStepEvents(events', events, c.p.stepId)
    ensures StepEventsInPhase(m, events', c)
  {
  }

  /** The record at `j` has no call and is as it was, and so are its step's events. */
  ghost predicate AsBefore(m: Memory, w: World, j: nat)
    requires j < |m.records| == |w.memory.records|
  {
    w.memory.records[j] == m.records[j] && SameStepEvents(w.memory.events, m.events, m.records[j].stepId)
  }

  ghost predicate Tracked(m: Memory, w: World) {
    && |w.memory.records| == |m.records|
    && (forall j :: 0 <= j < |m.records| ==>
         && w.memory.records[j].continuityId == m.records[j].continuityId
         && w.memory.records[j].stepId == m.records[j].stepId
         && w.memory.records[j].missionId == m.records[j].missionId)
    && (forall i :: 0 <= i < |w.calls| ==>
         w.calls[i].at < |m.records| && InPhase(m, w.memory.events, w.memory.records[w.calls[i].at], w.calls[i]))
    && (forall j: nat :: j < |m.records| ==> Called(w.calls, j) || AsBefore(m, w, j))
    && (forall i, k :: 0 <= i < k < |w.calls| ==> w.calls[i].at != w.calls[k].at)
  }

  ghost predicate Called(calls: seq<Call>, j: nat) {
    exists i :: 0 <= i < |calls| && calls[i].at == j
  }

  lemma StepRecordAt(m: Memory, w: World, missionId: string, stepId: string) returns (j: nat)
    requires Quiet(m) && Tracked(m, w) && StepRecord(w.memory.records, missionId, stepId).Some?
    ensures var r := StepRecord(w.memory.records, missionId, stepId).value;
      && j < |m.records| && w.memory.records[j] == r && j == Position(w.memory.records, r.continuityId)
      && r.stepId == m.records[j].stepId == stepId && r.missionId == missionId
      && DistinctIds(w.memory.records)
  {
    var r := StepRecord(w.memory.records, missionId, stepId).value;
    j :| 0 <= j < |w.memory.records| && w.memory.records[j] == r;
    PositionOf(w.memory.records, j);
  }

  // ---- Each move keeps every record in the state its call's phase says ----

  lemma NotYetCalled(m: Memory, w: World, p: Prepare, j: nat)
    requires Tracked(m, w) && FirstOfStep(w.calls, p)
    requires j < |m.records| && m.records[j].stepId == p.stepId
    ensures !Called(w.calls, j) && AsBefore(m, w, j)
  {
    forall i | 0 <= i < |w.calls| ensures w.calls[i].at != j {
      assert InPhase(m, w.memory.events, w.memory.records[w.calls[i].at], w.calls[i]);
      assert w.calls[i].p.stepId != p.stepId;
    }
  }

  lemma TrackedBegin(m: Memory, w: World, p: Prepare)
    requires Quiet(m) && Tracked(m, w) && FirstOfStep(w.calls, p) && Enabled(w, Begin(p))
    ensures Tracked(m, StepBegin(w, p))
  {
    var u := StepBegin(w, p);
    var j := StepRecordAt(m, w, p.missionId, p.stepId);
    UpsertAt(w.memory.records, j, PreparedRecord(w.memory.records[j], p));
    NotYetCalled(m, w, p, j);
    StartsInPhase(m, w, j, u.memory.records[j], u.calls[|w.calls|]);
    TrackedWithCall(m, w, j, u.memory.records[j], u.calls[|w.calls|], u);
  }

  lemma StartsInPhase(m: Memory, w: World, j: nat, q: Record, c: Call)
    requires j < |m.records| == |w.memory.records| && AsBefore(m, w, j)
    requires c.phase.RecordActive? && c.at == j && m.records[j].stepId == c.p.stepId && m.records[j].missionId == c.p.missionId
    requires q == PreparedRecord(m.records[j], c.p) && c.prepared == PreparedEvent(q, c.p)
    ensures InPhase(m, w.memory.events, q, c)
  {
  }

  lemma TrackedWithCall(m: Memory, w: World, j: nat, q: Record, c: Call, u: World)
    requires Tracked(m, w) && j < |m.records| && !Called(w.calls, j)
    requires u.memory.records == w.memory.records[j := q] && u.memory.events == w.memory.events && u.calls == w.calls + [c]
    requires q.continuityId == m.records[j].continuityId && q.stepId == m.records[j].stepId && q.missionId == m.records[j].missionId
    requires c.at == j && InPhase(m, w.memory.events, q, c)
    ensures Tracked(m, u)
  {
    forall k: nat | k < |m.records| ensures Called(u.calls, k) || AsBefore(m, u, k) {
      CalledAfterBegin(w.calls, c, k);
      if k != j && !Called(w.calls, k) {
        assert AsBefore(m, w, k);
      }
    }
    forall i | 0 <= i < |u.calls|
      ensures u.calls[i].at < |m.records| && InPhase(m, u.memory.events, u.memory.records[u.calls[i].at], u.calls[i])
    {
      if i < |w.calls| {
        assert w.calls[i].at != j;
      }
    }
  }

  lemma CalledAfterBegin(calls: seq<Call>, c: Call, k: nat)
    ensures Called(calls, k) || c.at == k ==> Called(calls + [c], k)
  {
    if c.at == k {
      assert (calls + [c])[|calls|].at == k;
    } else if Called(calls, k) {
      var i :| 0 <= i < |calls| && calls[i].at == k;
      assert (calls + [c])[i].at == k;
    }
  }

  /** `u` differs from `w` in call `i`, its record, and events of its step. */
  ghost predicate OnlyCall(w: World, i: nat, u: World)
    requires i < |w.calls| && w.calls[i].at < |w.memory.records|
  {
    var at := w.calls[i].at;
    && |u.calls| == |w.calls| && u.calls == w.calls[i := u.calls[i]]
    && u.calls[i].at == at && u.calls[i].p == w.calls[i].p
    && |u.memory.records| == |w.memory.records| && u.memory.records == w.memory.records[at := u.memory.records[at]]
    && u.memory.records[at].continuityId == w.memory.records[at].continuityId
    && (forall stepId :: stepId != w.calls[i].p.stepId ==> SameStepEvents(u.memory.events, w.memory.events, stepId))
  }

  lemma OtherCallKept(m: Memory, w: World, i: nat, u: World, k: nat)
    requires Quiet(m) && Tracked(m, w) && i < |w.calls| && OnlyCall(w, i, u)
    requires k < |w.calls| && k != i
    ensures u.calls[k] == w.calls[k] && w.calls[k].at < |u.memory.records|
    ensures InPhase(m, u.memory.events, u.memory.records[w.calls[k].at], w.calls[k])
  {
    var at, other := w.calls[i].at, w.calls[k].at;
    assert other != at;
    assert InPhase(m, w.memory.events, w.memory.records[at], w.calls[i]);
    assert InPhase(m, w.memory.events, w.memory.records[other], w.calls[k]);
    OtherStep(m, other, at);
    StepEventsStay(m, w.memory.events, u.memory.events, w.calls[k]);
  }

  lemma OtherRecordKept(m: Memory, w: World, i: nat, u: World, j: nat)
    requires Quiet(m) && Tracked(m, w) && i < |w.calls| && OnlyCall(w, i, u)
    requires j < |m.records| && !Called(w.calls, j)
    ensures AsBefore(m, u, j)
  {
    var at := w.calls[i].at;
    assert at != j;
    assert InPhase(m, w.memory.events, w.memory.records[at], w.calls[i]);
    OtherStep(m, j, at);
    assert AsBefore(m, w, j);
    assert SameStepEvents(u.memory.events, w.memory.events, m.records[j].stepId);
  }

  lemma AllCallsKept(m: Memory, w: World, i: nat, u: World)
    requires Quiet(m) && Tracked(m, w) && i < |w.calls| && OnlyCall(w, i, u)
    requires InPhase(m, u.memory.events, u.memory.records[w.calls[i].at], u.calls[i])
    ensures forall k :: 0 <= k < |u.calls| ==>
      u.calls[k].at == w.calls[k].at < |m.records| && InPhase(m, u.memory.events, u.memory.records[u.calls[k].at], u.calls[k])
  {
    forall k | 0 <= k < |u.calls|
      ensures u.calls[k].at == w.calls[k].at < |m.records|
      ensures InPhase(m, u.memory.events, u.memory.records[u.calls[k].at], u.calls[k])
    {
      if k != i {
        OtherCallKept(m, w, i, u, k);
      }
    }
  }

  /** A move of one call leaves all the others, and the records without a call, as they were. */
  lemma TrackedAdvance(m: Memory, w: World, i: nat, u: World)
    requires Quiet(m) && Tracked(m, w) && i < |w.calls| && OnlyCall(w, i, u)
    requires InPhase(m, u.memory.events, u.memory.records[w.calls[i].at], u.calls[i])
    ensures Tracked(m, u)
  {
    assert InPhase(m, w.memory.events, w.memory.records[w.calls[i].at], w.calls[i]);
    AllCallsKept(m, w, i, u);
    forall j: nat | j < |m.records| ensures Called(u.calls, j) || AsBefore(m, u, j) {
      if Called(w.calls, j) {
        var l :| 0 <= l < |w.calls| && w.calls[l].at == j;
        assert u.calls[l].at == j;
      } else {
        OtherRecordKept(m, w, i, u, j);
      }
    }
  }

  lemma OtherStep(m: Memory, j: nat, k: nat)
    requires DistinctSteps(m.records) && j < |m.records| && k < |m.records| && j != k
    ensures m.records[j].stepId != m.records[k].stepId
  {
  }

  /** An event of the call's step is logged. */
  lemma TrackedAppend(m: Memory, w: World, i: nat, e: Event, c: Call)
    requires Quiet(m) && Tracked(m, w) && i < |w.calls|
    requires e.stepId == w.calls[i].p.stepId && c.at == w.calls[i].at && c.p == w.calls[i].p
    requires InPhase(m, w.memory.events + [NumberedEvent(w.memory, e)], w.memory.records[c.at], c)
    ensures Tracked(m, Advanced(Write(w, Append(e)), i, c))
  {
    forall stepId | stepId != w.calls[i].p.stepId
      ensures SameStepEvents(w.memory.events + [NumberedEvent(w.memory, e)], w.memory.events, stepId)
    {
      OtherStepEvents(w.memory.events, NumberedEvent(w.memory, e), stepId);
    }
    TrackedAdvance(m, w, i, Advanced(Write(w, Append(e)), i, c));
  }

  lemma TrackedPrepared(m: Memory, w: World, i: nat)
    requires Quiet(m) && Tracked(m, w) && Enabled(w, LogPrepared(i))
    ensures Tracked(m, StepPrepared(w, i))
  {
    var c := w.calls[i];
    var n := NumberedEvent(w.memory, c.prepared);
    EventsOfSnoc(w.memory.events, n, c.p.stepId, MutationPrepared);
    EventsOfSnoc(w.memory.events, n, c.p.stepId, MutationFinalized);
    EventsOfSnoc(w.memory.events, n, c.p.stepId, RepositoryMutated);
    TrackedAppend(m, w, i, c.prepared, c.(phase := EventPrepared, prepared := n));
  }

  lemma TrackedClose(m: Memory, w: World, i: nat, f: Finalize)
    requires Quiet(m) && Tracked(m, w) && Enabled(w, Close(i, f))
    ensures Tracked(m, StepClose(w, i, f))
  {
    var c := w.calls[i];
    assert InPhase(m, w.memory.events, w.memory.records[c.at], c);
    var j := StepRecordAt(m, w, c.prepared.missionId, c.prepared.stepId);
    if j != c.at {
      OtherStep(m, j, c.at);
    }
    UpsertAt(w.memory.records, j, FinalizedRecord(w.memory.records[j], f));
    TrackedAdvance(m, w, i, StepClose(w, i, f));
  }

  lemma TrackedFinalized(m: Memory, w: World, i: nat)
    requires Quiet(m) && Tracked(m, w) && Enabled(w, LogFinalized(i))
    ensures Tracked(m, StepFinalized(w, i))
  {
    var c := w.calls[i];
    assert InPhase(m, w.memory.events, w.memory.records[c.at], c);
    EventsOfSnoc(w.memory.events, NumberedEvent(w.memory, FinalizedEvent(c.record, c.prepared, c.f)), c.p.stepId, MutationFinalized);
    TrackedAppend(m, w, i, FinalizedEvent(c.record, c.prepared, c.f), c.(phase := EventFinalized));
  }

  lemma TrackedMutated(m: Memory, w: World, i: nat)
    requires Quiet(m) && Tracked(m, w) && Enabled(w, LogMutated(i))
    ensures Tracked(m, StepMutated(w, i))
  {
    var c := w.calls[i];
    assert InPhase(m, w.memory.events, w.memory.records[c.at], c);
    EventsOfSnoc(w.memory.events, NumberedEvent(w.memory, MutatedEvent(c.record, c.prepared, c.f)), c.p.stepId, MutationFinalized);
    TrackedAppend(m, w, i, MutatedEvent(c.record, c.prepared, c.f), c.(phase := EventMutated));
  }

  lemma TrackedStep(m: Memory, w: World, move: Move)
    requires Quiet(m) && Tracked(m, w) && !move.Restart? && !move.TakeUp? && !move.Reconcile?
    requires move.Begin? ==> FirstOfStep(w.calls, move.p)
    ensures Tracked(m, Step(w, move))
  {
    if Enabled(w, move) {
      match move
      case Begin(p) => TrackedBegin(m, w, p);
      case LogPrepared(i) => TrackedPrepared(m, w, i);
      case Close(i, f) => TrackedClose(m, w, i, f);
      case LogFinalized(i) => TrackedFinalized(m, w, i);
      case LogMutated(i) => TrackedMutated(m, w, i);
    }
  }

  lemma {:induction false} TrackedRun(m: Memory, moves: seq<Move>)
    requires Quiet(m) && OncePerStep(m, moves)
    ensures Tracked(m, RunMoves(World(m, [], []), moves))
    decreases moves
  {
    if moves != [] {
      TrackedRun(m, moves[..|moves| - 1]);
      TrackedStep(m, RunMoves(World(m, [], []), moves[..|moves| - 1]), moves[|moves| - 1]);
    }
  }

  // ---- What reconciliation says ----

  /** A named repository, and no mutation of the step was finalized before. */
  predicate Open(m: Memory, c: Call) {
    c.p.repository != "" && EventsOf(m.events, c.p.stepId, MutationFinalized) == []
  }

  /**
   The PREPARED event the call is stuck in: its own once that is logged, until its record is
   saved as complete; before that the last one an earlier process left for the step.
   */
  function StuckIn(m: Memory, c: Call): Option<Event> {
    if !Open(m, c) then None
    else match c.phase
      case RecordActive => Last(EventsOf(m.events, c.p.stepId, MutationPrepared))
      case EventPrepared => Some(c.prepared)
      case _ => None
  }

  /** The call is on a record that was marked COMPLETE and that no event backs so far. */
  predicate Unbacked(m: Memory, c: Call) {
    && (c.phase.RecordActive? || c.phase.EventPrepared? || c.phase.RecordComplete?)
    && Open(m, c) && c.at < |m.records| && m.records[c.at].status.Complete?
    && EventsOf(m.events, c.p.stepId, RepositoryMutated) == []
  }

  lemma PhaseDecides(m: Memory, events: seq<Event>, r: Record, c: Call)
    requires InPhase(m, events, r, c)
    ensures Required(events, r) <==> StuckIn(m, c).Some? || Unbacked(m, c)
    ensures Orphan(events, r) == StuckIn(m, c)
  {
  }

  lemma UncalledIsQuiet(m: Memory, w: World, j: nat)
    requires Quiet(m) && Tracked(m, w) && j < |m.records| && !Called(w.calls, j)
    ensures !Required(w.memory.events, w.memory.records[j])
  {
    assert AsBefore(m, w, j);
    assert m.records[j] in m.records;
  }

  ghost predicate SomeAsks(m: Memory, calls: seq<Call>) {
    exists i :: 0 <= i < |calls| && (StuckIn(m, calls[i]).Some? || Unbacked(m, calls[i]))
  }

  lemma RequiredIsAsked(m: Memory, w: World)
    requires Quiet(m) && Tracked(m, w)
    ensures AnyRequired(w.memory.events, w.memory.records) <==> SomeAsks(m, w.calls)
  {
    if SomeAsks(m, w.calls) {
      var i :| 0 <= i < |w.calls| && (StuckIn(m, w.calls[i]).Some? || Unbacked(m, w.calls[i]));
      PhaseDecides(m, w.memory.events, w.memory.records[w.calls[i].at], w.calls[i]);
      assert w.memory.records[w.calls[i].at] in w.memory.records;
    }
    if AnyRequired(w.memory.events, w.memory.records) {
      var r :| r in w.memory.records && Required(w.memory.events, r);
      var j: nat :| j < |w.memory.records| && w.memory.records[j] == r;
      if Called(w.calls, j) {
        var i :| 0 <= i < |w.calls| && w.calls[i].at == j;
        PhaseDecides(m, w.memory.events, r, w.calls[i]);
      } else {
        UncalledIsQuiet(m, w, j);
      }
    }
  }

  /**
   Any number of calls, one per step, interleaved in any way and stopped by a crash at any
   point; the log is then reloaded and reconciled. Reconciliation is demanded exactly when
   some call, on a named repository and a step never finalized before, has begun and not
   yet saved its record as complete while the step has a PREPARED event, its own or one left
   from before; or has begun on a record marked COMPLETE, with no MUTATED event from before,
   and not yet logged its FINALIZED event. The record of each call of the first kind is
   labelled by whether HEAD has moved from the commit its PREPARED event names; every other
   record stays as it is, but for the rule of the one mission.
   */
  lemma CrashIsClassified(cs: LogCodecs, s: Store, moves: seq<Move>, env: Env)
    requires LawfulCodecs(cs) && Sound(cs, s)
    requires Quiet(s.memory) && OncePerStep(s.memory, moves)
    ensures var w := RunMoves(World(s.memory, [], []), moves);
      var found := Load(cs, Run(cs, s, w.written).disk).memory;
      var after := RunMemory(found, FullPass(found, env).ops);
      && (VerdictOf(FullPass(found, env)) == ReconciliationRequired <==> SomeAsks(s.memory, w.calls))
      && |after.records| == |found.records| == |s.memory.records|
      && (forall j :: 0 <= j < |found.records| ==> AsClassified(s.memory, w.calls, j, found.records[j], after.records[j], env))
  {
    var w := RunMoves(World(s.memory, [], []), moves);
    WrittenIsMemory(s.memory, moves);
    CrashFindsMemory(cs, s, w.written);
    TrackedRun(s.memory, moves);
    ClassifiedFrom(s.memory, w, env);
  }

  /** What a pass does to the record at `j`: label it if its call is stuck, else apply the rule of the one mission. */
  ghost predicate AsClassified(m: Memory, calls: seq<Call>, j: int, before: Record, after: Record, env: Env) {
    && (forall i :: 0 <= i < |calls| && calls[i].at == j && StuckIn(m, calls[i]).Some? ==>
          after == before.(status := Label(StuckIn(m, calls[i]).value, env)))
    && ((forall i :: 0 <= i < |calls| && calls[i].at == j ==> StuckIn(m, calls[i]).None?) ==>
          after == if Bare(before) then before.(status := OrphanedRequiresReconciliation, reason := BARE_REASON) else before)
  }

  lemma ClassifiedFrom(m: Memory, w: World, env: Env)
    requires Quiet(m) && Tracked(m, w)
    ensures var after := RunMemory(w.memory, FullPass(w.memory, env).ops);
      && (VerdictOf(FullPass(w.memory, env)) == ReconciliationRequired <==> SomeAsks(m, w.calls))
      && |after.records| == |w.memory.records| == |m.records|
      && (forall j :: 0 <= j < |w.memory.records| ==> AsClassified(m, w.calls, j, w.memory.records[j], after.records[j], env))
  {
    assert DistinctIds(w.memory.records);
    var extra := ReconcileIsExact(w.memory, env);
    RequiredIsAsked(m, w);
    forall j: nat | j < |w.memory.records|
      ensures AsClassified(m, w.calls, j, w.memory.records[j], Settled(w.memory.events, w.memory.records[j], env), env)
    {
      RecordIsClassified(m, w, j, env);
    }
  }

  lemma RecordIsClassified(m: Memory, w: World, j: nat, env: Env)
    requires Quiet(m) && Tracked(m, w) && j < |m.records|
    ensures AsClassified(m, w.calls, j, w.memory.records[j], Settled(w.memory.events, w.memory.records[j], env), env)
  {
    var r := w.memory.records[j];
    if Called(w.calls, j) {
      forall i | 0 <= i < |w.calls| && w.calls[i].at == j
        ensures Orphan(w.memory.events, r) == StuckIn(m, w.calls[i])
      {
        PhaseDecides(m, w.memory.events, r, w.calls[i]);
      }
    } else {
      UncalledIsQuiet(m, w, j);
    }
  }

  /**
   A crash right after a whole prepare is noticed exactly when the repository is named and
   no earlier mutation of the same step was ever finalized: a step prepared a second time,
   after it was finalized once, is never reported, whatever HEAD says.
   */
  lemma PreparedCrashIsNoticedExactly(m: Memory, p: Prepare)
    requires StepRecord(m.records, p.missionId, p.stepId).Some?
    ensures var after := RunMemory(m, PrepareOps(m, p).value);
      var r := PreparedRecord(StepRecord(m.records, p.missionId, p.stepId).value, p);
      && r in after.records
      && (Required(after.events, r) <==> p.repository != "" && EventsOf(m.events, p.stepId, MutationFinalized) == [])
  {
    var r := PreparedRecord(StepRecord(m.records, p.missionId, p.stepId).value, p);
    PrepareMemory(m, p, r);
    PreparedIsRequired(m.events, r, p, m.sequence + 1);
    UpsertHas(m.records, r);
  }

  lemma PrepareMemory(m: Memory, p: Prepare, r: Record)
    requires StepRecord(m.records, p.missionId, p.stepId).Some?
    requires r == PreparedRecord(StepRecord(m.records, p.missionId, p.stepId).value, p)
    ensures var after := RunMemory(m, PrepareOps(m, p).value);
      && after.records == Upsert(m.records, r)
      && after.events == m.events + [PreparedEvent(r, p).(sequence := m.sequence + 1)]
  {
    RunTwo(m, Save(r), Append(PreparedEvent(r, p)));
  }

  lemma UpsertHas(records: seq<Record>, r: Record)
    ensures r in Upsert(records, r)
  {
    var i := Position(records, r.continuityId);
    assert Upsert(records, r)[i] == r;
  }

  lemma PreparedIsRequired(events: seq<Event>, r: Record, p: Prepare, n: int)
    requires r.stepId == p.stepId && r.implementationState.Active? && r.repository == Some(p.repository)
    ensures Required(events + [PreparedEvent(r, p).(sequence := n)], r)
      <==> p.repository != "" && EventsOf(events, p.stepId, MutationFinalized) == []
  {
    var e := PreparedEvent(r, p).(sequence := n);
    EventsOfSnoc(events, e, p.stepId, MutationPrepared);
    EventsOfSnoc(events, e, p.stepId, MutationFinalized);
  }

  lemma PrepareInSteps(w: World, p: Prepare)
    requires Enabled(w, Begin(p))
    ensures PrepareOps(w.memory, p).Ok?
    ensures Step(Step(w, Begin(p)), LogPrepared(|w.calls|)).written == w.written + PrepareOps(w.memory, p).value
  {
    var q := PreparedRecord(StepRecord(w.memory.records, p.missionId, p.stepId).value, p);
    var u := StepBegin(w, p);
    assert Step(w, Begin(p)) == u && u.written == w.written + [Save(q)];
    assert Step(u, LogPrepared(|w.calls|)).written == u.written + [Append(PreparedEvent(q, p))];
    Assoc(w.written, [Save(q)], [Append(PreparedEvent(q, p))]);
  }

  lemma FinalizeInSteps(w: World, i: nat, f: Finalize)
    requires Enabled(w, Close(i, f))
    ensures FinalizeOps(w.memory, w.calls[i].prepared, f).Ok?
    ensures Step(Step(Step(w, Close(i, f)), LogFinalized(i)), LogMutated(i)).written
         == w.written + FinalizeOps(w.memory, w.calls[i].prepared, f).value
  {
    var e := w.calls[i].prepared;
    var q := FinalizedRecord(StepRecord(w.memory.records, e.missionId, e.stepId).value, f);
    var u := StepClose(w, i, f);
    assert Step(w, Close(i, f)) == u && u.written == w.written + [Save(q)];
    LogsInSteps(u, i);
    var logged := [Append(FinalizedEvent(q, e, f)), Append(MutatedEvent(q, e, f))];
    Assoc(w.written, [Save(q)], logged);
    assert [Save(q)] + logged == FinalizeOps(w.memory, e, f).value;
  }

  lemma LogsInSteps(u: World, i: nat)
    requires Enabled(u, LogFinalized(i))
    ensures var c := u.calls[i];
      Step(Step(u, LogFinalized(i)), LogMutated(i)).written
      == u.written + [Append(FinalizedEvent(c.record, c.prepared, c.f)), Append(MutatedEvent(c.record, c.prepared, c.f))]
  {
    var c, v := u.calls[i], StepFinalized(u, i);
    assert Step(u, LogFinalized(i)) == v && v.written == u.written + [Append(FinalizedEvent(c.record, c.prepared, c.f))];
    assert Step(v, LogMutated(i)).written == v.written + [Append(MutatedEvent(c.record, c.prepared, c.f))];
  }

  /** A call stepped through without a pause writes what the call's specification says. */
  lemma StepsMakeCalls(w: World, p: Prepare, i: nat, f: Finalize)
    ensures Enabled(w, Begin(p)) ==>
      var n := |w.calls|;
      PrepareOps(w.memory, p).Ok? && Step(Step(w, Begin(p)), LogPrepared(n)).written == w.written + PrepareOps(w.memory, p).value
    ensures Enabled(w, Close(i, f)) ==>
      var u := Step(Step(Step(w, Close(i, f)), LogFinalized(i)), LogMutated(i));
      var ops := FinalizeOps(w.memory, w.calls[i].prepared, f);
      ops.Ok? && u.written == w.written + ops.value
  {
    if Enabled(w, Begin(p)) {
      PrepareInSteps(w, p);
    }
    if Enabled(w, Close(i, f)) {
      FinalizeInSteps(w, i, f);
    }
  }
}
