/** The values the continuity log carries. */
module Models {

  datatype Option<+T> = None | Some(value: T)

  datatype Result<+T> = Ok(value: T) | Err

  const STATUS_NAMES := {
    "PENDING", "ACTIVE", "COMPLETE", "FAILED", "NOT_CERTIFIED", "CERTIFIED", "BLOCKED",
    "SUCCESS", "VERIFIED", "QUEUED", "RUNNING", "SUCCEEDED", "TIMED_OUT", "CANCELLED", "LIMIT_EXCEEDED",
    "COMMITTED_UNFINALIZED", "PREPARED_NO_COMMIT", "ORPHANED_REQUIRES_RECONCILIATION"
  }

  /** A text that no constructor of `Status` stands for: each string is given in one way only. */
  type StatusText = s: string | s !in STATUS_NAMES

  /** Status strings; the ones no code compares against are `OtherStatus`. */
  datatype Status =
    | Pending | Active | Complete | Failed | NotCertified | Certified | Blocked
    | Success | Verified
    | Queued | Running | Succeeded | TimedOut | Cancelled | LimitExceeded
    | CommittedUnfinalized | PreparedNoCommit | OrphanedRequiresReconciliation
    | OtherStatus(text: StatusText)

  const TYPE_NAMES := {
    "TASK_CREATED", "ACTION_COMPLETED", "ACTION_FAILED",
    "MUTATION_PREPARED", "MUTATION_FINALIZED", "REPOSITORY_MUTATED", "BLOCKER_CREATED"
  }

  type TypeText = s: string | s !in TYPE_NAMES

  datatype EventType =
    | TaskCreated | ActionCompleted | ActionFailed
    | MutationPrepared | MutationFinalized | RepositoryMutated | BlockerCreated
    | OtherType(text: TypeText)

  datatype Value = Text(text: string) | Number(number: int) | Null

  /** `inputs` is a dictionary by convention only: a decoded line may hold anything there. */
  datatype Inputs = Dict(entries: map<string, Value>) | NotADict

  /** `rest` stands for all the fields that no modelled code reads or writes. */
  datatype Record = Record(
    continuityId: string,
    missionId: string,
    taskId: string,
    stepId: string,
    status: Status,
    implementationState: Status,
    verificationState: Status,
    certificationState: Status,
    reason: string,
    repository: Option<string>,
    branch: Option<string>,
    commitBefore: Option<string>,
    commitAfter: Option<string>,
    filesChanged: seq<string>,
    tests: seq<string>,
    evidenceRefs: seq<string>,
    nextAction: Option<string>,
    executionId: Option<string>,
    rest: string)

  datatype Event = Event(
    eventId: string,
    sequence: int,
    missionId: string,
    taskId: string,
    stepId: string,
    parentEventId: Option<string>,
    eventType: EventType,
    target: string,
    intent: string,
    inputs: Inputs,
    repository: Option<string>,
    branch: Option<string>,
    commitBefore: Option<string>,
    commitAfter: Option<string>,
    filesChanged: seq<string>,
    evidenceRefs: seq<string>,
    status: Status,
    implementationState: Status,
    verificationState: Status,
    certificationState: Status,
    nextAction: Option<string>,
    executionId: Option<string>,
    rest: string)

  /** Python truth of an optional string. */
  predicate Truthy(s: Option<string>) {
    s.Some? && s.value != ""
  }

  function InputOf(e: Event, key: string): Value {
    if e.inputs.Dict? && key in e.inputs.entries then e.inputs.entries[key] else Null
  }
}
