/**
 Conservation between a step's record and its events: over any run of whole calls the
 record gains exactly the files and evidence that its FINALIZED events carry, in order.
 */
module Conservation {
  import opened Models
  import opened Replay
  import opened Stores
  import opened Mutation
  import opened Reconciliation

  datatype Whole = DoPrepare(p: Prepare) | DoFinalize(prepared: Event, f: Finalize) | DoReconcile(env: Env)

  /** What the call writes; a call that finds no record writes nothing. */
  function CallOps(m: Memory, call: Whole): seq<Op> {
    match call
    case DoPrepare(p) => (match PrepareOps(m, p) case Ok(ops) => ops case Err => [])
    case DoFinalize(e, f) => (match FinalizeOps(m, e, f) case Ok(ops) => ops case Err => [])
    case DoReconcile(env) => FullPass(m, env).ops
  }

  function RunCalls(m: Memory, calls: seq<Whole>): Memory
    decreases calls
  {
    if calls == [] then m
    else
      var before := RunCalls(m, calls[..|calls| - 1]);
      RunMemory(before, CallOps(before, calls[|calls| - 1]))
  }

  predicate Finalizes(e: Event, missionId: string, stepId: string) {
    e.eventType.MutationFinalized? && e.missionId == missionId && e.stepId == stepId
  }

  /** The files of the step's FINALIZED events, one after the other. */
  function Files(events: seq<Event>, missionId: string, stepId: string): seq<string> {
    if events == [] then [] else
      Files(events[..|events| - 1], missionId, stepId)
      + (if Finalizes(events[|events| - 1], missionId, stepId) then events[|events| - 1].filesChanged else [])
  }

  function Evidence(events: seq<Event>, missionId: string, stepId: string): seq<string> {
    if events == [] then [] else
      Evidence(events[..|events| - 1], missionId, stepId)
      + (if Finalizes(events[|events| - 1], missionId, stepId) then events[|events| - 1].evidenceRefs else [])
  }

  lemma LogOne(events: seq<Event>, e: Event, missionId: string, stepId: string)
    ensures Files(events + [e], missionId, stepId)
         == Files(events, missionId, stepId) + (if Finalizes(e, missionId, stepId) then e.filesChanged else [])
    ensures Evidence(events + [e], missionId, stepId)
         == Evidence(events, missionId, stepId) + (if Finalizes(e, missionId, stepId) then e.evidenceRefs else [])
  {
    assert (events + [e])[..|events + [e]| - 1] == events;
  }

  /** Events that finalize nothing carry nothing. */
  lemma {:induction false} LogIdle(events: seq<Event>, extra: seq<Event>, missionId: string, stepId: string)
    requires forall e :: e in extra ==> !e.eventType.MutationFinalized?
    ensures Files(events + extra, missionId, stepId) == Files(events, missionId, stepId)
    ensures Evidence(events + extra, missionId, stepId) == Evidence(events, missionId, stepId)
    decreases extra
  {
    if extra == [] {
      assert events + extra == events;
    } else {
      var front, e := extra[..|extra| - 1], extra[|extra| - 1];
      assert events + extra == (events + front) + [e];
      LogIdle(events, front, missionId, stepId);
      LogOne(events + front, e, missionId, stepId);
    }
  }

  ghost predicate OneRecordPerStep(records: seq<Record>) {
    && DistinctIds(records)
    && forall i, j :: 0 <= i < j < |records| ==>
         !(records[i].missionId == records[j].missionId && records[i].stepId == records[j].stepId)
  }

  /** The record now holds what `was` held and then what the step's FINALIZED events brought since. */
  ghost predicate Conserved(was: Record, before: seq<Event>, r: Record, events: seq<Event>) {
    && r.continuityId == was.continuityId && r.missionId == was.missionId && r.stepId == was.stepId
    && Files(before, was.missionId, was.stepId) <= Files(events, was.missionId, was.stepId)
    && Evidence(before, was.missionId, was.stepId) <= Evidence(events, was.missionId, was.stepId)
    && r.filesChanged == was.filesChanged + Files(events, was.missionId, was.stepId)[|Files(before, was.missionId, was.stepId)|..]
    && r.evidenceRefs == was.evidenceRefs + Evidence(events, was.missionId, was.stepId)[|Evidence(before, was.missionId, was.stepId)|..]
  }

  ghost predicate AllConserved(m: Memory, now: Memory) {
    && |now.records| == |m.records|
    && forall j :: 0 <= j < |m.records| ==> Conserved(m.records[j], m.events, now.records[j], now.events)
  }

  /** Lists that grow by the same strings at their ends. */
  lemma GrowBoth(was: seq<string>, before: seq<string>, now: seq<string>, r: seq<string>, more: seq<string>)
    requires before <= now && r == was + now[|before|..]
    ensures before <= now + more && r + more == was + (now + more)[|before|..]
  {
    assert (now + more)[|before|..] == now[|before|..] + more;
  }

  lemma StepConserved(was: Record, before: seq<Event>, r: Record, events: seq<Event>, r': Record, e: Event)
    requires Conserved(was, before, r, events)
    requires r'.continuityId == r.continuityId && r'.missionId == r.missionId && r'.stepId == r.stepId
    requires r'.filesChanged == r.filesChanged + (if Finalizes(e, r.missionId, r.stepId) then e.filesChanged else [])
    requires r'.evidenceRefs == r.evidenceRefs + (if Finalizes(e, r.missionId, r.stepId) then e.evidenceRefs else [])
    ensures Conserved(was, before, r', events + [e])
  {
    LogOne(events, e, was.missionId, was.stepId);
    GrowBoth(was.filesChanged, Files(before, was.missionId, was.stepId), Files(events, was.missionId, was.stepId), r.filesChanged,
      if Finalizes(e, r.missionId, r.stepId) then e.filesChanged else []);
    GrowBoth(was.evidenceRefs, Evidence(before, was.missionId, was.stepId), Evidence(events, was.missionId, was.stepId), r.evidenceRefs,
      if Finalizes(e, r.missionId, r.stepId) then e.evidenceRefs else []);
  }

  lemma IdleConserved(was: Record, before: seq<Event>, r: Record, events: seq<Event>, r': Record, extra: seq<Event>)
    requires Conserved(was, before, r, events)
    requires r'.continuityId == r.continuityId && r'.missionId == r.missionId && r'.stepId == r.stepId
    requires r'.filesChanged == r.filesChanged && r'.evidenceRefs == r.evidenceRefs
    requires forall e :: e in extra ==> !e.eventType.MutationFinalized?
    ensures Conserved(was, before, r', events + extra)
  {
    LogIdle(events, extra, was.missionId, was.stepId);
  }

  lemma StepRecordIndex(records: seq<Record>, missionId: string, stepId: string) returns (i: nat)
    requires OneRecordPerStep(records) && StepRecord(records, missionId, stepId).Some?
    ensures i < |records| && records[i] == StepRecord(records, missionId, stepId).value
    ensures forall j :: 0 <= j < |records| && j != i ==> !(records[j].missionId == missionId && records[j].stepId == stepId)
  {
    i :| 0 <= i < |records| && records[i] == StepRecord(records, missionId, stepId).value;
  }

  lemma PrepareConserves(m: Memory, now: Memory, p: Prepare)
    requires AllConserved(m, now) && OneRecordPerStep(now.records) && PrepareOps(now, p).Ok?
    ensures AllConserved(m, RunMemory(now, PrepareOps(now, p).value))
  {
    var i := StepRecordIndex(now.records, p.missionId, p.stepId);
    var q := PreparedRecord(now.records[i], p);
    SaveAndAppend(now, i, q, PreparedEvent(q, p));
    var e := PreparedEvent(q, p).(sequence := now.sequence + 1);
    AllIdle(m, now, i, q, e);
  }

  lemma AllIdle(m: Memory, now: Memory, i: nat, q: Record, e: Event)
    requires AllConserved(m, now) && i < |now.records| && !e.eventType.MutationFinalized?
    requires q.continuityId == now.records[i].continuityId && q.missionId == now.records[i].missionId && q.stepId == now.records[i].stepId
    requires q.filesChanged == now.records[i].filesChanged && q.evidenceRefs == now.records[i].evidenceRefs
    ensures forall j :: 0 <= j < |m.records| ==>
      Conserved(m.records[j], m.events, now.records[i := q][j], now.events + [e])
  {
    forall j | 0 <= j < |m.records|
      ensures Conserved(m.records[j], m.events, now.records[i := q][j], now.events + [e])
    {
      IdleConserved(m.records[j], m.events, now.records[j], now.events, now.records[i := q][j], [e]);
    }
  }

  lemma FinalizeMemory(now: Memory, i: nat, q: Record, e: Event, x: Event)
    requires DistinctIds(now.records) && i < |now.records| && q.continuityId == now.records[i].continuityId
    ensures var after := RunMemory(now, [Save(q), Append(e), Append(x)]);
      && after.records == now.records[i := q]
      && after.events == now.events + [e.(sequence := now.sequence + 1)] + [x.(sequence := now.sequence + 2)]
  {
    SaveAndAppend(now, i, q, e);
    var two, three := [Save(q), Append(e)], [Save(q), Append(e), Append(x)];
    assert two + [Append(x)] == three;
    RunMemorySnoc(now, two, Append(x));
  }

  lemma FinalizeConserves(m: Memory, now: Memory, prepared: Event, f: Finalize)
    requires AllConserved(m, now) && OneRecordPerStep(now.records) && FinalizeOps(now, prepared, f).Ok?
    ensures AllConserved(m, RunMemory(now, FinalizeOps(now, prepared, f).value))
  {
    var i := StepRecordIndex(now.records, prepared.missionId, prepared.stepId);
    var q := FinalizedRecord(now.records[i], f);
    var e, x := FinalizedEvent(q, prepared, f), MutatedEvent(q, prepared, f);
    FinalizeMemory(now, i, q, e, x);
    var e', x' := e.(sequence := now.sequence + 1), x.(sequence := now.sequence + 2);
    AllStepThenIdle(m, now, i, q, e', x');
  }

  lemma AllStepThenIdle(m: Memory, now: Memory, i: nat, q: Record, e: Event, x: Event)
    requires AllConserved(m, now) && i < |now.records| && !x.eventType.MutationFinalized?
    requires forall j :: 0 <= j < |now.records| ==> (Finalizes(e, now.records[j].missionId, now.records[j].stepId) <==> j == i)
    requires q.continuityId == now.records[i].continuityId && q.missionId == now.records[i].missionId && q.stepId == now.records[i].stepId
    requires q.filesChanged == now.records[i].filesChanged + e.filesChanged
    requires q.evidenceRefs == now.records[i].evidenceRefs + e.evidenceRefs
    ensures forall j :: 0 <= j < |m.records| ==>
      Conserved(m.records[j], m.events, now.records[i := q][j], now.events + [e] + [x])
  {
    forall j | 0 <= j < |m.records|
      ensures Conserved(m.records[j], m.events, now.records[i := q][j], now.events + [e] + [x])
    {
      StepThenIdle(m.records[j], m.events, now.records[j], now.events, now.records[i := q][j], e, x);
    }
  }

  lemma StepThenIdle(was: Record, before: seq<Event>, r: Record, events: seq<Event>, r': Record, e: Event, x: Event)
    requires Conserved(was, before, r, events) && !x.eventType.MutationFinalized?
    requires r'.continuityId == r.continuityId && r'.missionId == r.missionId && r'.stepId == r.stepId
    requires r'.filesChanged == r.filesChanged + (if Finalizes(e, r.missionId, r.stepId) then e.filesChanged else [])
    requires r'.evidenceRefs == r.evidenceRefs + (if Finalizes(e, r.missionId, r.stepId) then e.evidenceRefs else [])
    ensures Conserved(was, before, r', events + [e] + [x])
  {
    StepConserved(was, before, r, events, r', e);
    IdleConserved(was, before, r', events + [e], r', [x]);
  }

  lemma ReconcileConserves(m: Memory, now: Memory, env: Env)
    requires AllConserved(m, now) && OneRecordPerStep(now.records)
    ensures AllConserved(m, RunMemory(now, FullPass(now, env).ops))
  {
    var extra := ReconcileIsExact(now, env);
    SettlingConserves(m, now, env, RunMemory(now, FullPass(now, env).ops), extra);
  }

  lemma SettlingConserves(m: Memory, now: Memory, env: Env, after: Memory, extra: seq<Event>)
    requires AllConserved(m, now) && AllBlockers(extra)
    requires after.records == SettleAll(now.events, now.records, env) && after.events == now.events + extra
    ensures AllConserved(m, after)
  {
    forall j | 0 <= j < |m.records|
      ensures Conserved(m.records[j], m.events, after.records[j], now.events + extra)
    {
      IdleConserved(m.records[j], m.events, now.records[j], now.events, after.records[j], extra);
    }
  }

  lemma NamesStayDistinct(m: Memory, now: Memory)
    requires OneRecordPerStep(m.records) && AllConserved(m, now)
    ensures OneRecordPerStep(now.records)
  {
    forall i, j | 0 <= i < j < |m.records|
      ensures now.records[i].continuityId != now.records[j].continuityId
      ensures !(now.records[i].missionId == now.records[j].missionId && now.records[i].stepId == now.records[j].stepId)
    {
      assert Conserved(m.records[i], m.events, now.records[i], now.events);
      assert Conserved(m.records[j], m.events, now.records[j], now.events);
    }
  }

  lemma CallConserves(m: Memory, now: Memory, call: Whole)
    requires OneRecordPerStep(m.records) && AllConserved(m, now)
    ensures AllConserved(m, RunMemory(now, CallOps(now, call)))
  {
    NamesStayDistinct(m, now);
    match call
    case DoPrepare(p) => if PrepareOps(now, p).Ok? { PrepareConserves(m, now, p); }
    case DoFinalize(e, f) => if FinalizeOps(now, e, f).Ok? { FinalizeConserves(m, now, e, f); }
    case DoReconcile(env) => ReconcileConserves(m, now, env);
  }

  /**
   With one record per mission and step: over any run of whole prepare, finalize and
   reconcile calls, each record's changed files and evidence are what they were, followed
   by those of the FINALIZED events its step has gained, in sequence order.
   */
  lemma {:induction false} RunConserves(m: Memory, calls: seq<Whole>)
    requires OneRecordPerStep(m.records)
    ensures AllConserved(m, RunCalls(m, calls))
    decreases calls
  {
    if calls != [] {
      RunConserves(m, calls[..|calls| - 1]);
      CallConserves(m, RunCalls(m, calls[..|calls| - 1]), calls[|calls| - 1]);
    }
  }

  lemma AloneConserved(was: Record, events: seq<Event>, r: Record)
    requires r.continuityId == was.continuityId && r.missionId == was.missionId && r.stepId == was.stepId
    ensures Conserved(was, events, r, events) <==> r.filesChanged == was.filesChanged && r.evidenceRefs == was.evidenceRefs
  {
    var files, evidence := Files(events, was.missionId, was.stepId), Evidence(events, was.missionId, was.stepId);
    assert files[|files|..] == [] && evidence[|evidence|..] == [];
    assert was.filesChanged + [] == was.filesChanged && was.evidenceRefs + [] == was.evidenceRefs;
  }

  lemma SaveAloneConserves(m: Memory, i: nat, q: Record, after: Memory)
    requires i < |m.records| && after.records == m.records[i := q] && after.events == m.events
    requires q.continuityId == m.records[i].continuityId && q.missionId == m.records[i].missionId && q.stepId == m.records[i].stepId
    ensures AllConserved(m, after) <==> q.filesChanged == m.records[i].filesChanged && q.evidenceRefs == m.records[i].evidenceRefs
  {
    forall j | 0 <= j < |m.records|
      ensures Conserved(m.records[j], m.events, after.records[j], m.events) <==>
        after.records[j].filesChanged == m.records[j].filesChanged && after.records[j].evidenceRefs == m.records[j].evidenceRefs
    {
      AloneConserved(m.records[j], m.events, after.records[j]);
    }
    assert after.records[i] == q;
  }

  /**
   A crash between finalize's save and its FINALIZED event breaks the balance, unless the
   interrupted call brought no file and no evidence: the record has them, no event does.
   */
  lemma CrashInFinalizeExact(m: Memory, prepared: Event, f: Finalize)
    requires OneRecordPerStep(m.records) && FinalizeOps(m, prepared, f).Ok?
    ensures AllConserved(m, RunMemory(m, FinalizeOps(m, prepared, f).value[..1])) <==> f.filesChanged == [] && f.evidenceRefs == []
  {
    var i := StepRecordIndex(m.records, prepared.missionId, prepared.stepId);
    var was, q := m.records[i], FinalizedRecord(m.records[i], f);
    assert FinalizeOps(m, prepared, f).value[..1] == [Save(q)];
    RunOne(m, Save(q));
    UpsertAt(m.records, i, q);
    SaveAloneConserves(m, i, q, Saved(m, q));
    assert |q.filesChanged| == |was.filesChanged| + |f.filesChanged|;
    assert |q.evidenceRefs| == |was.evidenceRefs| + |f.evidenceRefs|;
    assert was.filesChanged + [] == was.filesChanged && was.evidenceRefs + [] == was.evidenceRefs;
  }
}
