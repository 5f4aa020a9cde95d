/**
 Reconciliation after a crash: every record is compared with the events of its step and
 with the repository's HEAD; a record that prepared a mutation and never finalized it is
 relabelled and a gap event is logged.
 */
module Reconciliation {
  import opened Models
  import opened LineFiles
  import opened Replay
  import opened Stores
  import opened ContinuityEngines
  import opened Reconstruction

  datatype Verdict = Coherent | ReconciliationRequired

  /** The answers of git for a repository's HEAD ("" when it has none), and fresh event ids by sequence number. */
  datatype Env = Env(head: Option<string> -> string, freshId: int -> string)

  const MISSION_002 := "MISSION-002-R2-PHYSICAL"

  function EventsOf(events: seq<Event>, stepId: string, eventType: EventType): seq<Event> {
    if events == [] then []
    else
      (if events[0].stepId == stepId && events[0].eventType == eventType then [events[0]] else [])
      + EventsOf(events[1..], stepId, eventType)
  }

  /** The prepared mutation the record is stuck in, if it is stuck in one. */
  function Orphan(events: seq<Event>, r: Record): Option<Event> {
    if r.implementationState.Active? && Truthy(r.repository) && EventsOf(events, r.stepId, MutationFinalized) == []
    then Last(EventsOf(events, r.stepId, MutationPrepared))
    else None
  }

  function Label(prepared: Event, env: Env): Status {
    var head := env.head(prepared.repository);
    if head != "" && Truthy(prepared.commitBefore) && head != prepared.commitBefore.value
    then CommittedUnfinalized else PreparedNoCommit
  }

  function OrphanReason(prepared: Event, env: Env): string {
    if Label(prepared, env).CommittedUnfinalized?
    then "COMMITTED_UNFINALIZED: " + env.head(prepared.repository) + " after " + prepared.commitBefore.value
    else "PREPARED_NO_COMMIT"
  }

  const UNLOGGED_REASON := "COMPLETE without a mutation event"
  const BARE_REASON := "missing required evidence"

  /** Complete with a repository, and no event says that it was mutated. */
  predicate Unlogged(events: seq<Event>, r: Record) {
    && r.status.Complete? && Truthy(r.repository)
    && EventsOf(events, r.stepId, RepositoryMutated) == [] && EventsOf(events, r.stepId, MutationFinalized) == []
  }

  predicate Bare(r: Record) {
    r.missionId == MISSION_002 && r.evidenceRefs == [] && r.status.Complete?
  }

  /** The record asks for reconciliation. */
  predicate Required(events: seq<Event>, r: Record) {
    Orphan(events, r).Some? || Unlogged(events, r)
  }

  /** The record as a pass leaves it. */
  function Settled(events: seq<Event>, r: Record, env: Env): Record {
    match Orphan(events, r)
    case Some(prepared) => r.(status := Label(prepared, env))
    case None => if Bare(r) then r.(status := OrphanedRequiresReconciliation, reason := BARE_REASON) else r
  }

  function GapEvent(eventId: string, r: Record, reason: string): Event {
    Event(
      eventId, 0, r.missionId, r.taskId, r.stepId, None, BlockerCreated, "CONTINUITY", "RECONCILIATION",
      Dict(map["reason" := Text(reason)]), None, None, None, None, [], [],
      Blocked, Pending, Pending, NotCertified, Some("RECONCILE_STATE"), None, "")
  }

  /** The reasons of the gap events a pass logs for the record. */
  function Gaps(events: seq<Event>, r: Record, env: Env): seq<string> {
    match Orphan(events, r)
    case Some(prepared) => [OrphanReason(prepared, env)]
    case None => (if Unlogged(events, r) then [UNLOGGED_REASON] else []) + (if Bare(r) then [BARE_REASON] else [])
  }

  /** What a pass writes for one record; `number` is the engine's sequence number before it. */
  function RecordOps(events: seq<Event>, number: int, r: Record, env: Env): seq<Op> {
    var r' := Settled(events, r, env);
    match Orphan(events, r)
    case Some(prepared) =>
      [Save(r'), Append(GapEvent(env.freshId(number + 1), r', OrphanReason(prepared, env)))]
    case None =>
      var first := if Unlogged(events, r) then [Append(GapEvent(env.freshId(number + 1), r, UNLOGGED_REASON))] else [];
      first + (if Bare(r) then [Save(r'), Append(GapEvent(env.freshId(number + 1 + |first|), r', BARE_REASON))] else [])
  }

  /** A pass over the first records: what has been written, and whether any asked for reconciliation. */
  datatype Pass = Pass(ops: seq<Op>, required: bool)

  function ReconcileAll(m: Memory, records: seq<Record>, env: Env): Pass {
    if records == [] then Pass([], false)
    else
      var p := ReconcileAll(m, records[..|records| - 1], env);
      var (now, r) := (RunMemory(m, p.ops), records[|records| - 1]);
      Pass(p.ops + RecordOps(now.events, now.sequence, r, env), p.required || Required(now.events, r))
  }

  lemma ReconcileAllStep(m: Memory, records: seq<Record>, n: nat, env: Env, now: Memory)
    requires n < |records| && now == RunMemory(m, ReconcileAll(m, records[..n], env).ops)
    ensures var p := ReconcileAll(m, records[..n], env);
      ReconcileAll(m, records[..n + 1], env)
      == Pass(p.ops + RecordOps(now.events, now.sequence, records[n], env), p.required || Required(now.events, records[n]))
  {
    assert records[..n + 1][..n] == records[..n];
  }

  function FullPass(m: Memory, env: Env): Pass {
    ReconcileAll(m, m.records, env)
  }

  function VerdictOf(p: Pass): Verdict {
    if p.required then ReconciliationRequired else Coherent
  }

  // ---- Gap events are invisible to reconciliation ----

  ghost predicate AllBlockers(es: seq<Event>) {
    forall e :: e in es ==> e.eventType.BlockerCreated?
  }

  lemma {:induction false} BlockersIrrelevant(events: seq<Event>, extra: seq<Event>, stepId: string, eventType: EventType)
    requires AllBlockers(extra) && !eventType.BlockerCreated?
    ensures EventsOf(events + extra, stepId, eventType) == EventsOf(events, stepId, eventType)
    decreases |events| + |extra|
  {
    if events != [] {
      assert (events + extra)[1..] == events[1..] + extra;
      BlockersIrrelevant(events[1..], extra, stepId, eventType);
    } else if extra != [] {
      assert [] + extra == extra && [] + extra[1..] == extra[1..];
      assert AllBlockers(extra[1..]);
      BlockersIrrelevant([], extra[1..], stepId, eventType);
    } else {
      assert events + extra == events;
    }
  }

  lemma SameFindings(events: seq<Event>, extra: seq<Event>, r: Record, env: Env)
    requires AllBlockers(extra)
    ensures Orphan(events + extra, r) == Orphan(events, r)
    ensures Unlogged(events + extra, r) == Unlogged(events, r)
    ensures Settled(events + extra, r, env) == Settled(events, r, env)
    ensures Gaps(events + extra, r, env) == Gaps(events, r, env)
  {
    BlockersIrrelevant(events, extra, r.stepId, MutationPrepared);
    BlockersIrrelevant(events, extra, r.stepId, MutationFinalized);
    BlockersIrrelevant(events, extra, r.stepId, RepositoryMutated);
  }

  // ---- One record ----

  lemma GapsAreBlockers(eventId: string, r: Record, reason: string, n: int, before: seq<Event>)
    requires AllBlockers(before)
    ensures AllBlockers(before + [GapEvent(eventId, r, reason).(sequence := n)])
  {
  }

  lemma FirstGap(m: Memory, r: Record, env: Env) returns (extra: seq<Event>)
    ensures var ops := if Unlogged(m.events, r) then [Append(GapEvent(env.freshId(m.sequence + 1), r, UNLOGGED_REASON))] else [];
      var m' := RunMemory(m, ops);
      && m'.records == m.records && m'.events == m.events + extra && m'.sequence == m.sequence + |extra|
      && AllBlockers(extra) && |extra| == |ops|
  {
    extra := [];
    assert m.events + [] == m.events;
    if Unlogged(m.events, r) {
      var gap := GapEvent(env.freshId(m.sequence + 1), r, UNLOGGED_REASON);
      RunOne(m, Append(gap));
      extra := [gap.(sequence := m.sequence + 1)];
    }
  }

  /** A record settled in place and its gap logged, after the operations `first`. */
  lemma SettleAndLog(m: Memory, first: seq<Op>, i: nat, r': Record, eventId: string, front: seq<Event>) returns (extra: seq<Event>)
    requires DistinctIds(m.records) && i < |m.records| && r'.continuityId == m.records[i].continuityId
    requires RunMemory(m, first).records == m.records && RunMemory(m, first).events == m.events + front && AllBlockers(front)
    ensures var m' := RunMemory(m, first + [Save(r'), Append(GapEvent(eventId, r', BARE_REASON))]);
      && m'.records == m.records[i := r'] && m'.events == m.events + extra
    ensures AllBlockers(extra) && |extra| == |front| + 1
  {
    var m1, gap := RunMemory(m, first), GapEvent(eventId, r', BARE_REASON);
    RunMemoryConcat(m, first, [Save(r'), Append(gap)]);
    SaveAndAppend(m1, i, r', gap);
    Assoc(m.events, front, [gap.(sequence := m1.sequence + 1)]);
    GapsAreBlockers(eventId, r', BARE_REASON, m1.sequence + 1, front);
    extra := front + [gap.(sequence := m1.sequence + 1)];
  }

  lemma PlainEffect(m: Memory, i: nat, env: Env) returns (extra: seq<Event>)
    requires DistinctIds(m.records) && i < |m.records| && Orphan(m.events, m.records[i]).None?
    ensures var (r, m') := (m.records[i], RunMemory(m, RecordOps(m.events, m.sequence, m.records[i], env)));
      && m'.records == m.records[i := Settled(m.events, r, env)]
      && m'.events == m.events + extra
      && AllBlockers(extra) && |extra| == |Gaps(m.events, r, env)|
  {
    extra := FirstGap(m, m.records[i], env);
    if Bare(m.records[i]) {
      extra := BareEffect(m, i, env, extra);
    } else {
      var first := FirstOps(m, m.records[i], env);
      assert first + [] == first;
      assert m.records[i := m.records[i]] == m.records;
    }
  }

  function FirstOps(m: Memory, r: Record, env: Env): seq<Op> {
    if Unlogged(m.events, r) then [Append(GapEvent(env.freshId(m.sequence + 1), r, UNLOGGED_REASON))] else []
  }

  lemma BareEffect(m: Memory, i: nat, env: Env, front: seq<Event>) returns (extra: seq<Event>)
    requires DistinctIds(m.records) && i < |m.records| && Orphan(m.events, m.records[i]).None? && Bare(m.records[i])
    requires var m1 := RunMemory(m, FirstOps(m, m.records[i], env));
      m1.records == m.records && m1.events == m.events + front && AllBlockers(front) && |front| == |FirstOps(m, m.records[i], env)|
    ensures var (r, m') := (m.records[i], RunMemory(m, RecordOps(m.events, m.sequence, m.records[i], env)));
      && m'.records == m.records[i := Settled(m.events, r, env)]
      && m'.events == m.events + extra
      && AllBlockers(extra) && |extra| == |Gaps(m.events, r, env)|
  {
    var first, r' := FirstOps(m, m.records[i], env), Settled(m.events, m.records[i], env);
    var eventId := env.freshId(m.sequence + 1 + |first|);
    extra := SettleAndLog(m, first, i, r', eventId, front);
    assert RecordOps(m.events, m.sequence, m.records[i], env) == first + [Save(r'), Append(GapEvent(eventId, r', BARE_REASON))];
    assert |Gaps(m.events, m.records[i], env)| == |first| + 1;
  }

  /** A record's operations change its own entry and append as many gap events as it has gaps. */
  lemma RecordOpsEffect(m: Memory, i: nat, env: Env) returns (extra: seq<Event>)
    requires DistinctIds(m.records) && i < |m.records|
    ensures var (r, m') := (m.records[i], RunMemory(m, RecordOps(m.events, m.sequence, m.records[i], env)));
      && m'.records == m.records[i := Settled(m.events, r, env)]
      && m'.events == m.events + extra
      && AllBlockers(extra) && |extra| == |Gaps(m.events, r, env)|
  {
    match Orphan(m.events, m.records[i])
    case Some(prepared) =>
      var r' := Settled(m.events, m.records[i], env);
      var gap := GapEvent(env.freshId(m.sequence + 1), r', OrphanReason(prepared, env));
      SaveAndAppend(m, i, r', gap);
      extra := [gap.(sequence := m.sequence + 1)];
    case None =>
      extra := PlainEffect(m, i, env);
  }

  // ---- A whole pass ----

  function SettleAll(events: seq<Event>, records: seq<Record>, env: Env): (settled: seq<Record>)
    ensures |settled| == |records|
    ensures forall i :: 0 <= i < |records| ==> settled[i] == Settled(events, records[i], env)
  {
    seq(|records|, i requires 0 <= i < |records| => Settled(events, records[i], env))
  }

  function GapCount(events: seq<Event>, records: seq<Record>, env: Env): nat {
    if records == [] then 0
    else GapCount(events, records[..|records| - 1], env) + |Gaps(events, records[|records| - 1], env)|
  }

  ghost predicate AnyRequired(events: seq<Event>, records: seq<Record>) {
    exists r :: r in records && Required(events, r)
  }

  lemma AnyRequiredSnoc(events: seq<Event>, records: seq<Record>, n: nat)
    requires n < |records|
    ensures AnyRequired(events, records[..n + 1]) <==> AnyRequired(events, records[..n]) || Required(events, records[n])
  {
    assert records[..n + 1] == records[..n] + [records[n]];
  }

  /** What a pass has done after the first `n` records. */
  ghost predicate PassState(m: Memory, n: nat, env: Env, m': Memory, extra: seq<Event>)
    requires n <= |m.records|
  {
    && m'.records == SettleAll(m.events, m.records[..n], env) + m.records[n..]
    && m'.events == m.events + extra
    && AllBlockers(extra)
    && |extra| == GapCount(m.events, m.records[..n], env)
  }

  lemma PassStateStep(m: Memory, n: nat, env: Env, now: Memory, extra: seq<Event>) returns (extra': seq<Event>)
    requires DistinctIds(m.records) && n < |m.records| && PassState(m, n, env, now, extra)
    ensures PassState(m, n + 1, env, RunMemory(now, RecordOps(now.events, now.sequence, m.records[n], env)), extra')
    ensures Required(now.events, m.records[n]) == Required(m.events, m.records[n])
  {
    var r := m.records[n];
    SameFindings(m.events, extra, r, env);
    DistinctAfterSettling(m, n, env);
    var more := RecordOpsEffect(now, n, env);
    extra' := extra + more;
    Assoc(m.events, extra, more);
    SettleOneMore(m.events, m.records, n, env);
  }

  lemma SettleOneMore(events: seq<Event>, records: seq<Record>, n: nat, env: Env)
    requires n < |records|
    ensures var now := SettleAll(events, records[..n], env) + records[n..];
      && now[n] == records[n]
      && now[n := Settled(events, records[n], env)] == SettleAll(events, records[..n + 1], env) + records[n + 1..]
    ensures GapCount(events, records[..n + 1], env) == GapCount(events, records[..n], env) + |Gaps(events, records[n], env)|
  {
    assert records[..n + 1][..n] == records[..n];
  }

  lemma DistinctAfterSettling(m: Memory, n: nat, env: Env)
    requires DistinctIds(m.records) && n <= |m.records|
    ensures DistinctIds(SettleAll(m.events, m.records[..n], env) + m.records[n..])
  {
    var now := SettleAll(m.events, m.records[..n], env) + m.records[n..];
    assert forall i :: 0 <= i < |now| ==> now[i].continuityId == m.records[i].continuityId;
  }

  lemma {:induction false} PassEffect(m: Memory, n: nat, env: Env) returns (extra: seq<Event>)
    requires DistinctIds(m.records) && n <= |m.records|
    ensures var p := ReconcileAll(m, m.records[..n], env);
      && PassState(m, n, env, RunMemory(m, p.ops), extra)
      && (p.required <==> AnyRequired(m.events, m.records[..n]))
    decreases n
  {
    if n == 0 {
      extra := [];
      assert SettleAll(m.events, m.records[..0], env) + m.records[0..] == m.records;
      assert m.events + [] == m.events;
    } else {
      var front := PassEffect(m, n - 1, env);
      var p := ReconcileAll(m, m.records[..n - 1], env);
      var now := RunMemory(m, p.ops);
      assert m.records[..n][..n - 1] == m.records[..n - 1];
      extra := PassStateStep(m, n - 1, env, now, front);
      RunMemoryConcat(m, p.ops, RecordOps(now.events, now.sequence, m.records[n - 1], env));
      AnyRequiredSnoc(m.events, m.records, n - 1);
    }
  }

  /**
   A pass demands reconciliation exactly when some record, taken alone against the log as
   it was, is stuck in a prepared mutation or complete without a mutation event; it leaves
   every record as that comparison says, keeps the order of the records, and logs nothing
   but one gap event per gap.
   */
  lemma ReconcileIsExact(m: Memory, env: Env) returns (extra: seq<Event>)
    requires DistinctIds(m.records)
    ensures var (p, m') := (FullPass(m, env), RunMemory(m, FullPass(m, env).ops));
      && (VerdictOf(p) == ReconciliationRequired <==> AnyRequired(m.events, m.records))
      && m'.records == SettleAll(m.events, m.records, env)
      && m'.events == m.events + extra
      && AllBlockers(extra) && |extra| == GapCount(m.events, m.records, env)
  {
    assert m.records[..|m.records|] == m.records;
    extra := PassEffect(m, |m.records|, env);
    assert SettleAll(m.events, m.records, env) + m.records[|m.records|..] == SettleAll(m.events, m.records, env);
  }

  /** Outside the one mission with a rule of its own a record has at most one gap, exactly when it asks for reconciliation; a pass never touches the implementation state. */
  lemma OneGapPerRecord(events: seq<Event>, r: Record, env: Env)
    ensures r.missionId != MISSION_002 ==> |Gaps(events, r, env)| == if Required(events, r) then 1 else 0
    ensures |Gaps(events, r, env)| <= 2
    ensures Settled(events, r, env).implementationState == r.implementationState
    ensures r.missionId != MISSION_002 ==> Settled(events, r, env) == r.(status := Settled(events, r, env).status)
  {
  }

  /** The first `n` operations of a pass, or all of them. */
  function PartialPass(m: Memory, env: Env, n: nat): (ops: seq<Op>)
    ensures forall op :: op in ops ==> op in FullPass(m, env).ops
  {
    var ops := FullPass(m, env).ops;
    if n <= |ops| then ops[..n] else ops
  }

  predicate LogsGap(op: Op) {
    op.Save? || (op.Append? && op.e.eventType.BlockerCreated?)
  }

  /** Whatever a pass appends is a gap event. */
  lemma {:induction false} PassLogsGaps(m: Memory, records: seq<Record>, env: Env)
    ensures forall op :: op in ReconcileAll(m, records, env).ops ==> LogsGap(op)
    decreases records
  {
    if records != [] {
      var front, r := records[..|records| - 1], records[|records| - 1];
      PassLogsGaps(m, front, env);
      var p := ReconcileAll(m, front, env);
      var now := RunMemory(m, p.ops);
      RecordLogsGaps(now.events, now.sequence, r, env);
      assert ReconcileAll(m, records, env).ops == p.ops + RecordOps(now.events, now.sequence, r, env);
    }
  }

  lemma RecordLogsGaps(events: seq<Event>, number: int, r: Record, env: Env)
    ensures forall op :: op in RecordOps(events, number, r, env) ==> LogsGap(op)
  {
  }

  lemma {:induction false} GapsOnly(m: Memory, ops: seq<Op>) returns (extra: seq<Event>)
    requires forall op :: op in ops ==> LogsGap(op)
    ensures RunMemory(m, ops).events == m.events + extra && AllBlockers(extra)
    decreases ops
  {
    extra := [];
    if ops == [] {
      assert m.events + [] == m.events;
    } else {
      var op := ops[|ops| - 1];
      assert op in ops;
      var front := GapsOnly(m, ops[..|ops| - 1]);
      var now := RunMemory(m, ops[..|ops| - 1]);
      var more := if op.Append? then [op.e.(sequence := now.sequence + 1)] else [];
      extra := front + more;
      Assoc(m.events, front, more);
      assert now.events + [] == now.events;
    }
  }

  // ---- A second pass ----

  /** The record asks for reconciliation again in a second pass. */
  predicate Lasting(events: seq<Event>, r: Record) {
    Orphan(events, r).Some? || (Unlogged(events, r) && !Bare(r))
  }

  lemma SettledAgain(events: seq<Event>, extra: seq<Event>, r: Record, env: Env)
    requires AllBlockers(extra)
    ensures var r' := Settled(events, r, env);
      && (Required(events + extra, r') <==> Lasting(events, r))
      && Settled(events + extra, r', env) == r'
  {
    SameFindings(events, extra, Settled(events, r, env), env);
  }

  ghost predicate AnyLasting(events: seq<Event>, records: seq<Record>) {
    exists r :: r in records && Lasting(events, r)
  }

  lemma SettledAllAgain(events: seq<Event>, extra: seq<Event>, records: seq<Record>, env: Env)
    requires AllBlockers(extra)
    ensures SettleAll(events + extra, SettleAll(events, records, env), env) == SettleAll(events, records, env)
    ensures AnyRequired(events + extra, SettleAll(events, records, env)) <==> AnyLasting(events, records)
  {
    var settled := SettleAll(events, records, env);
    forall i | 0 <= i < |records|
      ensures Settled(events + extra, settled[i], env) == settled[i]
      ensures Required(events + extra, settled[i]) <==> Lasting(events, records[i])
    {
      SettledAgain(events, extra, records[i], env);
    }
    if r :| r in records && Lasting(events, r) {
      var i :| 0 <= i < |records| && records[i] == r;
      assert settled[i] in settled && Required(events + extra, settled[i]);
    }
  }

  lemma PassOverSettled(m: Memory, events: seq<Event>, extra: seq<Event>, records: seq<Record>, env: Env)
    requires DistinctIds(records) && AllBlockers(extra)
    requires m.records == SettleAll(events, records, env) && m.events == events + extra
    ensures RunMemory(m, FullPass(m, env).ops).records == m.records
    ensures VerdictOf(FullPass(m, env)) == ReconciliationRequired <==> AnyLasting(events, records)
  {
    assert forall i :: 0 <= i < |records| ==> m.records[i].continuityId == records[i].continuityId;
    var extra' := ReconcileIsExact(m, env);
    SettledAllAgain(events, extra, records, env);
  }

  /**
   With HEAD unchanged a second pass leaves every record as the first one left it, and
   demands reconciliation exactly when some record is stuck in a prepared mutation, or is
   complete without a mutation event and not relabelled by the rule of mission 002.
   */
  lemma SecondPass(m: Memory, env: Env)
    requires DistinctIds(m.records)
    ensures var m' := RunMemory(m, FullPass(m, env).ops);
      && RunMemory(m', FullPass(m', env).ops).records == m'.records
      && (VerdictOf(FullPass(m', env)) == ReconciliationRequired <==> AnyLasting(m.events, m.records))
  {
    var extra := ReconcileIsExact(m, env);
    PassOverSettled(RunMemory(m, FullPass(m, env).ops), m.events, extra, m.records, env);
  }

  /**
   The verdict of a second pass differs from the first exactly when something asked for
   reconciliation and everything that did was relabelled by the rule of mission 002.
   */
  lemma VerdictIsStable(m: Memory, env: Env)
    requires DistinctIds(m.records)
    ensures var m' := RunMemory(m, FullPass(m, env).ops);
      VerdictOf(FullPass(m', env)) == VerdictOf(FullPass(m, env)) <==>
        (AnyRequired(m.events, m.records) ==> AnyLasting(m.events, m.records))
    ensures (forall r :: r in m.records ==> r.missionId != MISSION_002) ==>
      (AnyRequired(m.events, m.records) ==> AnyLasting(m.events, m.records))
  {
    SecondPass(m, env);
    var extra := ReconcileIsExact(m, env);
    assert forall r :: Lasting(m.events, r) ==> Required(m.events, r);
  }

  // ---- A crash inside a pass ----

  /** Between the start and the end of a pass: some records settled, the rest untouched, some gap events logged. */
  ghost predicate Partway(m: Memory, env: Env, m': Memory, extra: seq<Event>) {
    && |m'.records| == |m.records|
    && (forall i :: 0 <= i < |m.records| ==> m'.records[i] == m.records[i] || m'.records[i] == Settled(m.events, m.records[i], env))
    && m'.events == m.events + extra
    && AllBlockers(extra)
  }

  ghost predicate NoMission002(records: seq<Record>) {
    forall r :: r in records ==> r.missionId != MISSION_002
  }

  /** A crash between a record's operations leaves the record as it was, or settled. */
  lemma RecordOpsPrefix(m: Memory, i: nat, env: Env, k: nat) returns (extra: seq<Event>)
    requires DistinctIds(m.records) && i < |m.records|
    requires k <= |RecordOps(m.events, m.sequence, m.records[i], env)|
    ensures var (r, m') := (m.records[i], RunMemory(m, RecordOps(m.events, m.sequence, m.records[i], env)[..k]));
      && (m'.records == m.records || m'.records == m.records[i := Settled(m.events, r, env)])
      && m'.events == m.events + extra && AllBlockers(extra)
  {
    var r := m.records[i];
    var ops := RecordOps(m.events, m.sequence, r, env);
    if k == |ops| {
      assert ops[..k] == ops;
      extra := RecordOpsEffect(m, i, env);
    } else if k == 0 || (Orphan(m.events, r).None? && Unlogged(m.events, r)) {
      extra := GapPrefix(m, i, env, k);
    } else {
      extra := [];
      assert m.events + [] == m.events;
      assert ops[..1] == [Save(Settled(m.events, r, env))];
      SaveAlone(m, i, Settled(m.events, r, env));
    }
  }

  lemma SaveAlone(m: Memory, i: nat, r': Record)
    requires DistinctIds(m.records) && i < |m.records| && r'.continuityId == m.records[i].continuityId
    ensures RunMemory(m, [Save(r')]) == m.(records := m.records[i := r'])
  {
    RunOne(m, Save(r'));
    UpsertAt(m.records, i, r');
  }

  /** Before anything, after the gap of a record that no mutation event backs, or after the save that follows it. */
  lemma GapPrefix(m: Memory, i: nat, env: Env, k: nat) returns (extra: seq<Event>)
    requires DistinctIds(m.records) && i < |m.records|
    requires k < |RecordOps(m.events, m.sequence, m.records[i], env)|
    requires k == 0 || (Orphan(m.events, m.records[i]).None? && Unlogged(m.events, m.records[i]))
    ensures var (r, m') := (m.records[i], RunMemory(m, RecordOps(m.events, m.sequence, m.records[i], env)[..k]));
      && (m'.records == m.records || m'.records == m.records[i := Settled(m.events, r, env)])
      && m'.events == m.events + extra && AllBlockers(extra)
  {
    var r, ops := m.records[i], RecordOps(m.events, m.sequence, m.records[i], env);
    if k == 0 {
      extra := [];
      assert ops[..0] == [] && m.events + [] == m.events;
    } else {
      var gap := GapEvent(env.freshId(m.sequence + 1), r, UNLOGGED_REASON);
      extra := [gap.(sequence := m.sequence + 1)];
      RunOne(m, Append(gap));
      if k == 1 {
        assert ops[..1] == [Append(gap)];
      } else {
        assert ops[..k] == [Append(gap), Save(Settled(m.events, r, env))];
        GapThenSave(m, i, gap, Settled(m.events, r, env));
      }
    }
  }

  lemma GapThenSave(m: Memory, i: nat, gap: Event, r': Record)
    requires DistinctIds(m.records) && i < |m.records| && r'.continuityId == m.records[i].continuityId
    ensures var m' := RunMemory(m, [Append(gap), Save(r')]);
      m'.records == m.records[i := r'] && m'.events == m.events + [gap.(sequence := m.sequence + 1)]
  {
    RunTwo(m, Append(gap), Save(r'));
    UpsertAt(m.records, i, r');
  }

  lemma PartwayFrom(m: Memory, n: nat, env: Env, now: Memory, front: seq<Event>, m': Memory, more: seq<Event>)
    requires n < |m.records| && PassState(m, n, env, now, front)
    requires |m'.records| == |now.records|
    requires forall i :: 0 <= i < |now.records| ==>
      m'.records[i] == now.records[i] || (i == n && m'.records[i] == Settled(m.events, m.records[n], env))
    requires m'.events == now.events + more && AllBlockers(more)
    ensures Partway(m, env, m', front + more)
  {
    Assoc(m.events, front, more);
    forall i | 0 <= i < |m.records|
      ensures m'.records[i] == m.records[i] || m'.records[i] == Settled(m.events, m.records[i], env)
    {
      if i < n {
        assert now.records[i] == Settled(m.events, m.records[..n][i], env);
      } else {
        assert now.records[i] == m.records[n..][i - n];
      }
    }
  }

  lemma PartwayStep(m: Memory, n: nat, env: Env, now: Memory, front: seq<Event>, k: nat) returns (extra: seq<Event>)
    requires DistinctIds(m.records) && n < |m.records| && PassState(m, n, env, now, front)
    requires k <= |RecordOps(now.events, now.sequence, m.records[n], env)|
    ensures Partway(m, env, RunMemory(now, RecordOps(now.events, now.sequence, m.records[n], env)[..k]), extra)
  {
    SameFindings(m.events, front, m.records[n], env);
    DistinctAfterSettling(m, n, env);
    assert now.records[n] == m.records[n];
    var more := RecordOpsPrefix(now, n, env, k);
    extra := front + more;
    PartwayFrom(m, n, env, now, front, RunMemory(now, RecordOps(now.events, now.sequence, m.records[n], env)[..k]), more);
  }

  lemma PassPrefixWithin(m: Memory, n: nat, env: Env, k: nat, before: seq<Op>, now: Memory, ops: seq<Op>)
    returns (extra: seq<Event>)
    requires DistinctIds(m.records) && n < |m.records|
    requires before == ReconcileAll(m, m.records[..n], env).ops && now == RunMemory(m, before)
    requires ops == RecordOps(now.events, now.sequence, m.records[n], env) && |before| <= k <= |before + ops|
    ensures Partway(m, env, RunMemory(m, (before + ops)[..k]), extra)
  {
    RunBeyond(m, before, ops, k, now);
    var front := PassEffect(m, n, env);
    extra := PartwayStep(m, n, env, now, front, k - |before|);
  }

  lemma RunBeyond(m: Memory, before: seq<Op>, ops: seq<Op>, k: nat, now: Memory)
    requires now == RunMemory(m, before) && |before| <= k <= |before + ops|
    ensures RunMemory(m, (before + ops)[..k]) == RunMemory(now, ops[..k - |before|])
  {
    assert (before + ops)[..k] == before + ops[..k - |before|];
    RunMemoryConcat(m, before, ops[..k - |before|]);
  }

  lemma {:induction false} PassPrefix(m: Memory, n: nat, env: Env, k: nat) returns (extra: seq<Event>)
    requires DistinctIds(m.records) && n <= |m.records|
    requires k <= |ReconcileAll(m, m.records[..n], env).ops|
    ensures Partway(m, env, RunMemory(m, ReconcileAll(m, m.records[..n], env).ops[..k]), extra)
    decreases n
  {
    if n == 0 {
      extra := [];
      assert m.events + [] == m.events;
    } else {
      var before := ReconcileAll(m, m.records[..n - 1], env).ops;
      var now := RunMemory(m, before);
      var ops := RecordOps(now.events, now.sequence, m.records[n - 1], env);
      ReconcileAllStep(m, m.records, n - 1, env, now);
      if k <= |before| {
        TakeFront(before, ops, k);
        extra := PassPrefix(m, n - 1, env, k);
      } else {
        extra := PassPrefixWithin(m, n - 1, env, k, before, now, ops);
      }
    }
  }

  lemma TakeFront(before: seq<Op>, ops: seq<Op>, k: nat)
    requires k <= |before|
    ensures (before + ops)[..k] == before[..k]
  {
  }

  lemma PartialEffect(m: Memory, env: Env, n: nat) returns (extra: seq<Event>)
    requires DistinctIds(m.records)
    ensures Partway(m, env, RunMemory(m, PartialPass(m, env, n)), extra)
  {
    var ops := FullPass(m, env).ops;
    assert m.records[..|m.records|] == m.records && ops[..|ops|] == ops;
    extra := PassPrefix(m, |m.records|, env, if n <= |ops| then n else |ops|);
  }

  /** The record still asks for reconciliation after the crash: it was not reached, or asks even when relabelled. */
  ghost predicate StillAsks(m: Memory, m': Memory, i: nat)
    requires i < |m.records| == |m'.records|
  {
    Lasting(m.events, m.records[i]) || (Required(m.events, m.records[i]) && m'.records[i] == m.records[i])
  }

  ghost predicate AnyStillAsks(m: Memory, m': Memory)
    requires |m.records| == |m'.records|
  {
    exists i: nat :: i < |m.records| && StillAsks(m, m', i)
  }

  lemma PartwayFinding(m: Memory, env: Env, m': Memory, extra: seq<Event>, i: nat)
    requires Partway(m, env, m', extra) && i < |m.records|
    ensures Settled(m'.events, m'.records[i], env) == Settled(m.events, m.records[i], env)
    ensures Required(m'.events, m'.records[i]) <==> StillAsks(m, m', i)
  {
    SameFindings(m.events, extra, m.records[i], env);
    SettledAgain(m.events, extra, m.records[i], env);
  }

  lemma PartwayFindings(m: Memory, env: Env, m': Memory, extra: seq<Event>)
    requires Partway(m, env, m', extra)
    ensures SettleAll(m'.events, m'.records, env) == SettleAll(m.events, m.records, env)
    ensures AnyRequired(m'.events, m'.records) <==> AnyStillAsks(m, m')
  {
    forall i: nat | i < |m.records|
      ensures Settled(m'.events, m'.records[i], env) == Settled(m.events, m.records[i], env)
      ensures Required(m'.events, m'.records[i]) <==> StillAsks(m, m', i)
    {
      PartwayFinding(m, env, m', extra, i);
    }
    if i: nat :| i < |m.records| && StillAsks(m, m', i) {
      assert m'.records[i] in m'.records;
    }
  }

  lemma StillAsksOutside(m: Memory, m': Memory)
    requires |m.records| == |m'.records| && NoMission002(m.records)
    ensures AnyRequired(m.events, m.records) ==> AnyStillAsks(m, m')
  {
    if AnyRequired(m.events, m.records) {
      var r :| r in m.records && Required(m.events, r);
      var i: nat :| i < |m.records| && m.records[i] == r;
      assert StillAsks(m, m', i);
    }
  }

  /**
   A pass that crashes after any number of its durable operations can be run again: the
   second attempt leaves the records that one undisturbed pass would have left. It gives the
   verdict of the undisturbed pass if and only if not everything that asked for
   reconciliation had already been relabelled by the rule of mission 002 before the crash;
   so always when there is no record of that mission.
   */
  lemma CrashedPassIsRepeatable(m: Memory, env: Env, k: nat)
    requires DistinctIds(m.records)
    requires k <= |FullPass(m, env).ops|
    ensures var m' := RunMemory(m, FullPass(m, env).ops[..k]);
      && |m'.records| == |m.records|
      && RunMemory(m', FullPass(m', env).ops).records == RunMemory(m, FullPass(m, env).ops).records
      && (VerdictOf(FullPass(m', env)) == VerdictOf(FullPass(m, env)) <==>
            (AnyRequired(m.events, m.records) ==> AnyStillAsks(m, m')))
      && (NoMission002(m.records) ==> VerdictOf(FullPass(m', env)) == VerdictOf(FullPass(m, env)))
  {
    assert m.records[..|m.records|] == m.records;
    var extra := PassPrefix(m, |m.records|, env, k);
    RepeatFromPartway(m, env, RunMemory(m, FullPass(m, env).ops[..k]), extra);
  }

  lemma RepeatFromPartway(m: Memory, env: Env, m': Memory, extra: seq<Event>)
    requires DistinctIds(m.records) && Partway(m, env, m', extra)
    ensures RunMemory(m', FullPass(m', env).ops).records == RunMemory(m, FullPass(m, env).ops).records
    ensures VerdictOf(FullPass(m', env)) == VerdictOf(FullPass(m, env)) <==>
      (AnyRequired(m.events, m.records) ==> AnyStillAsks(m, m'))
    ensures NoMission002(m.records) ==> VerdictOf(FullPass(m', env)) == VerdictOf(FullPass(m, env))
  {
    PartwayFindings(m, env, m', extra);
    assert forall i :: 0 <= i < |m.records| ==> m'.records[i].continuityId == m.records[i].continuityId;
    var once := ReconcileIsExact(m, env);
    var again := ReconcileIsExact(m', env);
    AskedBefore(m, m');
    if NoMission002(m.records) {
      StillAsksOutside(m, m');
    }
  }

  lemma AskedBefore(m: Memory, m': Memory)
    requires |m.records| == |m'.records|
    ensures AnyStillAsks(m, m') ==> AnyRequired(m.events, m.records)
  {
    if i: nat :| i < |m.records| && StillAsks(m, m', i) {
      assert m.records[i] in m.records && Required(m.events, m.records[i]);
    }
  }

  // ---- The object ----

  /** One more record handled by the loop over them. */
  lemma PassExtends(cs: LogCodecs, s: Store, records: seq<Record>, i: nat, env: Env, view: Store)
    requires i < |records|
    requires view == Run(cs, s, ReconcileAll(s.memory, records[..i], env).ops)
    requires view.memory == RunMemory(s.memory, ReconcileAll(s.memory, records[..i], env).ops)
    ensures var ops := RecordOps(view.memory.events, view.memory.sequence, records[i], env);
      var q := ReconcileAll(s.memory, records[..i + 1], env);
      && q.required == (ReconcileAll(s.memory, records[..i], env).required || Required(view.memory.events, records[i]))
      && Run(cs, view, ops) == Run(cs, s, q.ops)
      && Run(cs, view, ops).memory == RunMemory(s.memory, q.ops)
  {
    var ops := RecordOps(view.memory.events, view.memory.sequence, records[i], env);
    ReconcileAllStep(s.memory, records, i, env, view.memory);
    NoReload(view.memory.events, view.memory.sequence, records[i], env);
    RunExtends(cs, s, ReconcileAll(s.memory, records[..i], env).ops, view, ops);
  }

  lemma NoReload(events: seq<Event>, number: int, r: Record, env: Env)
    ensures Reload !in RecordOps(events, number, r, env)
  {
  }

  lemma RunExtends(cs: LogCodecs, s: Store, before: seq<Op>, view: Store, ops: seq<Op>)
    requires view == Run(cs, s, before) && view.memory == RunMemory(s.memory, before)
    requires Reload !in ops
    ensures Run(cs, view, ops) == Run(cs, s, before + ops)
    ensures Run(cs, view, ops).memory == RunMemory(s.memory, before + ops)
  {
    RunConcat(cs, s, before, ops);
    RunMemoryConcat(s.memory, before, ops);
    RunWithoutReload(cs, view, ops);
  }

  class Reconciler {
    const engine: ContinuityEngine

    constructor (engine: ContinuityEngine)
      ensures this.engine == engine
    {
      this.engine := engine;
    }

    method CreateGapEvent(eventId: string, r: Record, reason: string)
      modifies engine, engine.files
      ensures engine.View() == Apply(engine.codecs, old(engine.View()), Append(GapEvent(eventId, r, reason)))
    {
      var gap := engine.AppendEvent(GapEvent(eventId, r, reason));
    }

    method SaveAndReport(r: Record, reason: string, env: Env)
      modifies engine, engine.files
      ensures engine.View() == Run(engine.codecs, old(engine.View()),
        [Save(r), Append(GapEvent(env.freshId(old(engine.eventSequence) + 1), r, reason))])
    {
      var gap := GapEvent(env.freshId(engine.eventSequence + 1), r, reason);
      RunPair(engine.codecs, engine.View(), Save(r), Append(gap));
      engine.SaveRecord(r);
      CreateGapEvent(env.freshId(engine.eventSequence + 1), r, reason);
    }

    method RelabelOrphan(record: Record, env: Env) returns (r: Record, required: bool)
      modifies engine, engine.files
      ensures var m := old(engine.View().memory);
        match Orphan(m.events, record)
        case None => !required && r == record && engine.View() == old(engine.View())
        case Some(prepared) =>
          && required && r == record.(status := Label(prepared, env))
          && engine.View() == Run(engine.codecs, old(engine.View()),
               [Save(r), Append(GapEvent(env.freshId(m.sequence + 1), r, OrphanReason(prepared, env)))])
    {
      r, required := record, false;
      if r.implementationState.Active? && Truthy(r.repository) {
        var prepared := EventsOf(engine.events, r.stepId, MutationPrepared);
        var finalized := EventsOf(engine.events, r.stepId, MutationFinalized);
        if prepared != [] && finalized == [] {
          var last := prepared[|prepared| - 1];
          r := r.(status := Label(last, env));
          SaveAndReport(r, OrphanReason(last, env), env);
          required := true;
        }
      }
    }

    method CheckLogged(r: Record, env: Env) returns (required: bool)
      modifies engine, engine.files
      ensures var m := old(engine.View().memory);
        && required == Unlogged(m.events, r)
        && engine.View() == Run(engine.codecs, old(engine.View()),
             if required then [Append(GapEvent(env.freshId(m.sequence + 1), r, UNLOGGED_REASON))] else [])
    {
      required := false;
      if r.status.Complete? && Truthy(r.repository) {
        var mutated := EventsOf(engine.events, r.stepId, RepositoryMutated);
        var finalized := EventsOf(engine.events, r.stepId, MutationFinalized);
        if mutated == [] && finalized == [] {
          var eventId := env.freshId(engine.eventSequence + 1);
          RunSnoc(engine.codecs, engine.View(), [], Append(GapEvent(eventId, r, UNLOGGED_REASON)));
          assert [] + [Append(GapEvent(eventId, r, UNLOGGED_REASON))] == [Append(GapEvent(eventId, r, UNLOGGED_REASON))];
          CreateGapEvent(eventId, r, UNLOGGED_REASON);
          required := true;
        }
      }
    }

    method ReconcileMission002(record: Record, env: Env)
      modifies engine, engine.files
      ensures var (n, r) := (old(engine.View().memory).sequence, record.(status := OrphanedRequiresReconciliation, reason := BARE_REASON));
        engine.View() == Run(engine.codecs, old(engine.View()),
          if Bare(record) then [Save(r), Append(GapEvent(env.freshId(n + 1), r, BARE_REASON))] else [])
    {
      if record.missionId == MISSION_002 && record.evidenceRefs == [] && record.status.Complete? {
        var r := record.(status := OrphanedRequiresReconciliation, reason := BARE_REASON);
        SaveAndReport(r, BARE_REASON, env);
      }
    }

    /** One record of the loop: the checks in the program's order, against the live event list. */
    method ReconcileRecord(record: Record, env: Env) returns (required: bool)
      modifies engine, engine.files
      ensures var m := old(engine.View().memory);
        && engine.View() == Run(engine.codecs, old(engine.View()), RecordOps(m.events, m.sequence, record, env))
        && required == Required(m.events, record)
    {
      ghost var s := engine.View();
      var r, orphaned := RelabelOrphan(record, env);
      var unlogged := CheckLogged(r, env);
      ghost var first := if unlogged then [Append(GapEvent(env.freshId(s.memory.sequence + 1), r, UNLOGGED_REASON))] else [];
      ReconcileMission002(r, env);
      if !orphaned {
        RunConcat(engine.codecs, s, first, RecordOps(s.memory.events, s.memory.sequence, record, env)[|first|..]);
      }
      required := orphaned || unlogged;
    }

    method Reconcile(env: Env) returns (verdict: Verdict)
      modifies engine, engine.files
      ensures var p := FullPass(old(engine.View().memory), env);
        && engine.View() == Run(engine.codecs, old(engine.View()), p.ops)
        && verdict == VerdictOf(p)
    {
      ghost var s := engine.View();
      verdict := Coherent;
      var records := engine.records;
      for i := 0 to |records|
        invariant engine.View() == Run(engine.codecs, s, ReconcileAll(s.memory, records[..i], env).ops)
        invariant engine.View().memory == RunMemory(s.memory, ReconcileAll(s.memory, records[..i], env).ops)
        invariant verdict == VerdictOf(ReconcileAll(s.memory, records[..i], env))
      {
        PassExtends(engine.codecs, s, records, i, env, engine.View());
        var required := ReconcileRecord(records[i], env);
        if required {
          verdict := ReconciliationRequired;
        }
      }
      assert records[..|records|] == records;
    }
  }
}
