/** What the execution manager writes to the log, and what a restarted manager reads back from it. */
module ExecutionLog {
  import opened Models
  import opened Replay
  import opened Selections
  import opened Stores
  import opened ContinuityEngines
  import opened Reconstruction
  import opened DeterministicExecution

  datatype Task = Task(taskId: string, capabilityId: string)

  /** How an execution ended. */
  datatype Outcome = Outcome(status: Status, reason: Option<FailureReason>, hash: Option<string>)

  const DEFAULT_MISSION := "DEFAULT_MISSION"

  /** The status strings `ExecutionStatus` knows. */
  predicate IsExecutionStatus(s: Status) {
    s.Queued? || s.Running? || s.Succeeded? || s.Failed? || s.TimedOut? || s.Cancelled? || s.LimitExceeded?
  }

  function ReasonValue(reason: Option<FailureReason>): Value {
    match reason
    case None => Null
    case Some(ToolError) => Text("TOOL_ERROR")
    case Some(ExecutionError) => Text("EXECUTION_ERROR")
    case Some(Timeout) => Text("TIMEOUT")
    case Some(OverLimit) => Text("LIMIT_EXCEEDED")
    case Some(AuthorizationDenied) => Text("AUTHORIZATION_DENIED")
    case Some(InvalidTask) => Text("INVALID_TASK")
    case Some(UnsupportedExecutor) => Text("UNSUPPORTED_EXECUTOR")
  }

  function QueuedRecord(x: string, continuityId: string, task: Task): Record {
    Record(
      continuityId, DEFAULT_MISSION, task.taskId, task.capabilityId, Pending, Pending, Pending, NotCertified, "",
      None, None, None, None, [], [], [], None, Some(x), "")
  }

  function ExecutionEvent(
    x: string, eventId: string, task: Task, eventType: EventType, inputs: map<string, Value>,
    status: Status, verification: Status, evidence: seq<string>, next: Option<string>): Event
  {
    Event(
      eventId, 0, DEFAULT_MISSION, task.taskId, task.capabilityId, None, eventType, task.capabilityId, x, Dict(inputs),
      None, None, None, None, [], evidence, status, status, verification, NotCertified, next, Some(x), "")
  }

  function QueuedEvent(x: string, eventId: string, task: Task, generation: int): Event {
    ExecutionEvent(x, eventId, task, TaskCreated,
      map["execution_id" := Text(x), "generation" := Number(generation)], Queued, Pending, [], Some("EXECUTE"))
  }

  function EndInputs(x: string, generation: int, reason: Option<FailureReason>): map<string, Value> {
    map["execution_id" := Text(x), "generation" := Number(generation), "failure_reason" := ReasonValue(reason)]
  }

  function FencedEvent(x: string, eventId: string, task: Task, generation: int): Event {
    ExecutionEvent(x, eventId, task, ActionFailed,
      EndInputs(x, generation, Some(AuthorizationDenied)), Failed, Failed, [], None)
  }

  function Verification(status: Status): Status {
    if status.Succeeded? then Verified else Failed
  }

  function HashRefs(hash: Option<string>): seq<string> {
    if Truthy(hash) then [hash.value] else []
  }

  function OutcomeEvent(x: string, eventId: string, task: Task, generation: int, o: Outcome): Event {
    ExecutionEvent(x, eventId, task, if o.status.Succeeded? then ActionCompleted else ActionFailed,
      EndInputs(x, generation, o.reason), o.status, Verification(o.status), HashRefs(o.hash), None)
  }

  function OutcomeRecord(r: Record, o: Outcome): Record {
    r.(status := o.status, verificationState := Verification(o.status), evidenceRefs := r.evidenceRefs + HashRefs(o.hash))
  }

  /** The record an outcome is written to: the one with the execution's id, or else the last one of the task. */
  function OwnRecord(m: Memory, x: string, taskId: string): Option<Record> {
    var i := Position(m.records, x);
    if i < |m.records| then Some(m.records[i]) else Last(RecordsOfTask(m.records, taskId))
  }

  function SubmitOps(x: string, continuityId: string, eventId: string, task: Task, generation: int): seq<Op> {
    [Save(QueuedRecord(x, continuityId, task)), Append(QueuedEvent(x, eventId, task, generation))]
  }

  function OutcomeSaves(m: Memory, x: string, task: Task, o: Outcome): seq<Op> {
    match OwnRecord(m, x, task.taskId)
    case Some(r) => [Save(OutcomeRecord(r, o))]
    case None => []
  }

  function OutcomeOps(m: Memory, x: string, eventId: string, task: Task, generation: int, o: Outcome): seq<Op> {
    OutcomeSaves(m, x, task, o) + [Append(OutcomeEvent(x, eventId, task, generation, o))]
  }

  /** The status a restarted manager gives the execution; a status it does not know counts as failed. */
  function RestartStatus(m: Memory, x: string): Option<Status> {
    match Reconstruct(m, x)
    case None => None
    case Some(b) => Some(if IsExecutionStatus(b.status) then b.status else Failed)
  }

  /** The generation a restarted manager gives the execution: the one in the inputs of its last event. */
  function RestartGeneration(m: Memory, x: string): Option<int> {
    match Reconstruct(m, x)
    case None => None
    case Some(b) => if b.generation.Number? then Some(b.generation.number) else None
  }

  // ---- What the answer depends on ----

  /** The status of the last event that concerns the execution. */
  function LastStatus(events: seq<Event>, x: string): Option<Status> {
    match Last(EventsFor(events, x))
    case None => None
    case Some(e) => Some(e.status)
  }

  /** The record at `at` and no other concerns the execution. */
  ghost predicate OnlyRecord(records: seq<Record>, x: string, at: nat) {
    at < |records| && RecordConcerns(records[at], x)
    && forall j :: 0 <= j < |records| && j != at ==> !RecordConcerns(records[j], x)
  }

  function Read(recorded: Status, logged: Option<Status>): Status {
    var status := if logged.Some? && Conclusive(logged.value) then logged.value else recorded;
    if IsExecutionStatus(status) then status else Failed
  }

  lemma AnswerIs(m: Memory, x: string, at: nat)
    requires Increasing(0, m.events)
    requires OnlyRecord(m.records, x, at)
    ensures RestartStatus(m, x) == Some(Read(m.records[at].status, LastStatus(m.events, x)))
  {
    EventsForIncreasing(m.events, x, 0);
    SortedAlready(EventsFor(m.events, x));
    LastRecordFor(m.records, x);
    var k :| LatestRecord(m.records, x, k) && Last(RecordsFor(m.records, x)) == Some(m.records[k]);
    assert k == at;
  }

  lemma LastStatusSnoc(events: seq<Event>, e: Event, x: string)
    ensures LastStatus(events + [e], x) == if EventConcerns(e, x) then Some(e.status) else LastStatus(events, x)
  {
    EventsForSnoc(events, e, x);
    if !EventConcerns(e, x) {
      assert EventsFor(events, x) + [] == EventsFor(events, x);
    }
  }

  lemma LastOfTask(records: seq<Record>, taskId: string, at: nat)
    requires at < |records| && records[at].taskId == taskId
    requires forall j :: at < j < |records| ==> records[j].taskId != taskId
    ensures Last(RecordsOfTask(records, taskId)) == Some(records[at])
  {
    SelectedLast(records, OfTask(taskId), at);
  }

  /** An execution's events concern the execution, and nothing else but what has the task's id. */
  lemma ConcernsOnly(x: string, eventId: string, task: Task, generation: int, o: Outcome, n: int, y: string)
    ensures EventConcerns(OutcomeEvent(x, eventId, task, generation, o).(sequence := n), y) <==> y == x || y == task.taskId
    ensures EventConcerns(FencedEvent(x, eventId, task, generation).(sequence := n), y) <==> y == x || y == task.taskId
    ensures EventConcerns(QueuedEvent(x, eventId, task, generation).(sequence := n), y) <==> y == x || y == task.taskId
  {
  }

  // ---- Task ids that are used twice ----

  /** The outcome of `x` written to the record at `other`. */
  lemma OutcomeMemory(m: Memory, x: string, other: nat, eventId: string, task: Task, generation: int, o: Outcome)
    requires DistinctIds(m.records) && other < |m.records| && m.records[other].taskId == task.taskId
    requires forall j :: other < j < |m.records| ==> m.records[j].taskId != task.taskId
    requires forall j :: 0 <= j < |m.records| ==> m.records[j].continuityId != x
    ensures var after := RunMemory(m, OutcomeOps(m, x, eventId, task, generation, o));
      && after.records == m.records[other := OutcomeRecord(m.records[other], o)]
      && after.events == m.events + [OutcomeEvent(x, eventId, task, generation, o).(sequence := m.sequence + 1)]
  {
    LastOfTask(m.records, task.taskId, other);
    NoSuchId(m.records, x);
    var q, e := OutcomeRecord(m.records[other], o), OutcomeEvent(x, eventId, task, generation, o);
    assert OutcomeOps(m, x, eventId, task, generation, o) == [Save(q), Append(e)];
    SaveAndAppend(m, other, q, e);
  }

  lemma AnswerAfter(m: Memory, after: Memory, x: string, at: nat, e: Event)
    requires Increasing(0, m.events) && m.sequence == LastSequence(0, m.events)
    requires OnlyRecord(m.records, x, at)
    requires |after.records| == |m.records|
    requires forall j :: 0 <= j < |m.records| ==> after.records[j] == m.records[j].(
      status := after.records[j].status, verificationState := after.records[j].verificationState, evidenceRefs := after.records[j].evidenceRefs)
    requires after.events == m.events + [e.(sequence := m.sequence + 1)]
    ensures RestartStatus(after, x) ==
      Some(Read(after.records[at].status, if EventConcerns(e, x) then Some(e.status) else LastStatus(m.events, x)))
  {
    var n := e.(sequence := m.sequence + 1);
    LastStatusSnoc(m.events, n, x);
    IncreasingAppend(m, n);
    forall j | 0 <= j < |m.records| ensures RecordConcerns(after.records[j], x) == RecordConcerns(m.records[j], x) {}
    AnswerIs(after, x, at);
  }

  lemma IncreasingAppend(m: Memory, n: Event)
    requires Increasing(0, m.events) && m.sequence == LastSequence(0, m.events) && n.sequence == m.sequence + 1
    ensures Increasing(0, m.events + [n])
  {
    if m.events != [] {
      assert forall i :: 0 <= i < |m.events| ==> m.events[i].sequence <= m.events[|m.events| - 1].sequence;
    }
  }

  /**
   An execution `x` that was queued, with the record at `at` alone concerning it, ends as
   `o`; the last record of its task is the one at `other`. A restarted manager answers
   `o.status` exactly when that is a status an event may settle, or the record is the
   execution's own. It is not when the same task id has been submitted again since: then
   LIMIT_EXCEEDED, say, is read back as FAILED, and the execution whose record was taken
   is read back as `o.status` although it never ran.
   */
  lemma SharedTaskId(m: Memory, x: string, at: nat, other: nat, eventId: string, task: Task, generation: int, o: Outcome)
    requires DistinctIds(m.records) && Increasing(0, m.events) && m.sequence == LastSequence(0, m.events)
    requires OnlyRecord(m.records, x, at) && m.records[at].status == Pending
    requires forall j :: 0 <= j < |m.records| ==> m.records[j].continuityId != x
    requires other < |m.records| && m.records[other].taskId == task.taskId
    requires forall j :: other < j < |m.records| ==> m.records[j].taskId != task.taskId
    requires IsExecutionStatus(o.status)
    ensures var after := RunMemory(m, OutcomeOps(m, x, eventId, task, generation, o));
      && (RestartStatus(after, x) == Some(o.status) <==> Conclusive(o.status) || at == other)
      && (forall y :: y != x && y != task.taskId && OnlyRecord(m.records, y, other) && LastStatus(m.events, y) == Some(Queued) ==>
            RestartStatus(after, y) == Some(o.status))
  {
    OutcomeMemory(m, x, other, eventId, task, generation, o);
    var after := RunMemory(m, OutcomeOps(m, x, eventId, task, generation, o));
    SharedAnswers(m, after, x, at, other, eventId, task, generation, o);
  }

  lemma SharedAnswers(m: Memory, after: Memory, x: string, at: nat, other: nat, eventId: string, task: Task, generation: int, o: Outcome)
    requires Increasing(0, m.events) && m.sequence == LastSequence(0, m.events)
    requires OnlyRecord(m.records, x, at) && m.records[at].status == Pending
    requires other < |m.records| && IsExecutionStatus(o.status)
    requires after.records == m.records[other := OutcomeRecord(m.records[other], o)]
    requires after.events == m.events + [OutcomeEvent(x, eventId, task, generation, o).(sequence := m.sequence + 1)]
    ensures RestartStatus(after, x) == Some(o.status) <==> Conclusive(o.status) || at == other
    ensures forall y :: y != x && y != task.taskId && OnlyRecord(m.records, y, other) && LastStatus(m.events, y) == Some(Queued) ==>
      RestartStatus(after, y) == Some(o.status)
  {
    OwnAnswer(m, after, x, at, other, eventId, task, generation, o);
    forall y | y != x && y != task.taskId && OnlyRecord(m.records, y, other) && LastStatus(m.events, y) == Some(Queued)
      ensures RestartStatus(after, y) == Some(o.status)
    {
      OtherAnswer(m, after, x, y, other, eventId, task, generation, o);
    }
  }

  lemma OwnAnswer(m: Memory, after: Memory, x: string, at: nat, other: nat, eventId: string, task: Task, generation: int, o: Outcome)
    requires Increasing(0, m.events) && m.sequence == LastSequence(0, m.events)
    requires OnlyRecord(m.records, x, at) && m.records[at].status == Pending
    requires other < |m.records| && IsExecutionStatus(o.status)
    requires after.records == m.records[other := OutcomeRecord(m.records[other], o)]
    requires after.events == m.events + [OutcomeEvent(x, eventId, task, generation, o).(sequence := m.sequence + 1)]
    ensures RestartStatus(after, x) == Some(o.status) <==> Conclusive(o.status) || at == other
  {
    var e := OutcomeEvent(x, eventId, task, generation, o);
    ConcernsOnly(x, eventId, task, generation, o, 0, x);
    AnswerAfter(m, after, x, at, e);
    assert RestartStatus(after, x) == Some(Read(after.records[at].status, Some(o.status)));
    assert after.records[at].status == if at == other then o.status else Pending;
  }

  /** The execution whose record the outcome was saved in. */
  lemma OtherAnswer(m: Memory, after: Memory, x: string, y: string, other: nat, eventId: string, task: Task, generation: int, o: Outcome)
    requires Increasing(0, m.events) && m.sequence == LastSequence(0, m.events)
    requires other < |m.records| && IsExecutionStatus(o.status)
    requires y != x && y != task.taskId && OnlyRecord(m.records, y, other) && LastStatus(m.events, y) == Some(Queued)
    requires after.records == m.records[other := OutcomeRecord(m.records[other], o)]
    requires after.events == m.events + [OutcomeEvent(x, eventId, task, generation, o).(sequence := m.sequence + 1)]
    ensures RestartStatus(after, y) == Some(o.status)
  {
    var e := OutcomeEvent(x, eventId, task, generation, o);
    ConcernsOnly(x, eventId, task, generation, o, 0, y);
    AnswerAfter(m, after, y, other, e);
    assert RestartStatus(after, y) == Some(Read(o.status, Some(Queued)));
  }

  lemma {:induction false} NoSuchId(records: seq<Record>, id: string)
    requires forall j :: 0 <= j < |records| ==> records[j].continuityId != id
    ensures Position(records, id) == |records|
  {
    if records != [] {
      NoSuchId(records[1..], id);
    }
  }
}
