/** One execution of a deterministic capability and the states its context goes through. */
module DeterministicExecution {
  import opened Models

  datatype FailureReason =
    | ToolError | ExecutionError | Timeout | OverLimit | AuthorizationDenied | InvalidTask | UnsupportedExecutor

  /** What the program keeps of an execution; `result` is given by its encoding. */
  class ExecutionContext {
    var status: Status
    var failureReason: Option<FailureReason>
    var result: Option<string>
    var resultHash: Option<string>
    const generation: Option<int>
    const maxOutput: nat
    const maxWorkspace: nat

    ghost function View(): Context
      reads this
    {
      Context(status, failureReason, result, resultHash, generation, maxOutput, maxWorkspace)
    }

    constructor (status: Status, generation: Option<int>, maxOutput: nat, maxWorkspace: nat)
      ensures View() == Context(status, None, None, None, generation, maxOutput, maxWorkspace)
    {
      this.status, failureReason, result, resultHash := status, None, None, None;
      this.generation, this.maxOutput, this.maxWorkspace := generation, maxOutput, maxWorkspace;
    }
  }

  datatype Context = Context(
    status: Status, failureReason: Option<FailureReason>, result: Option<string>, resultHash: Option<string>,
    generation: Option<int>, maxOutput: nat, maxWorkspace: nat)

  /** What a handler raises. */
  datatype Fault = LimitsExceeded | SecurityError | DeadlineExceeded | OtherError

  /** A handler is what it does in turn: look at the clock, hand over an output, or raise. */
  datatype Act = CheckDeadline(expired: bool) | Emit(output: string) | Throw(fault: Fault)

  /** What the workspace holds when the execution is over: nothing, so many bytes, or something that makes the bookkeeping fail. */
  datatype Workspace = NoWorkspace | Measured(size: nat, hash: string) | Unwritable

  /** A call: the capability's handler, if it is supported, and the workspace it leaves. */
  datatype Job = Job(handler: Option<seq<Act>>, workspace: Workspace)

  datatype Handled = Handled(result: Option<string>, fault: Option<Fault>)

  /** A handler's run up to its end or its first fault. */
  function RunHandler(result: Option<string>, maxOutput: nat, acts: seq<Act>): Handled
    decreases acts
  {
    if acts == [] then Handled(result, None)
    else match acts[0]
      case CheckDeadline(expired) =>
        if expired then Handled(result, Some(DeadlineExceeded)) else RunHandler(result, maxOutput, acts[1..])
      case Emit(output) =>
        if |output| > maxOutput then Handled(result, Some(LimitsExceeded))
        else RunHandler(Some(output), maxOutput, acts[1..])
      case Throw(fault) => Handled(result, Some(fault))
  }

  function StatusOfFault(fault: Option<Fault>): (Status, Option<FailureReason>) {
    match fault
    case None => (Succeeded, None)
    case Some(LimitsExceeded) => (LimitExceeded, Some(OverLimit))
    case Some(SecurityError) => (Failed, Some(AuthorizationDenied))
    case Some(DeadlineExceeded) => (TimedOut, Some(Timeout))
    case Some(OtherError) => (Failed, Some(ExecutionError))
  }

  /** The workspace bookkeeping that closes every handled execution. */
  function Finalized(c: Context, w: Workspace): Context {
    match w
    case Measured(size, hash) =>
      var hashed := c.(resultHash := Some(hash));
      if size > c.maxWorkspace then hashed.(status := LimitExceeded, failureReason := Some(OverLimit)) else hashed
    case _ => c
  }

  predicate RunsHandler(c: Context, job: Job) {
    c.status.Queued? && job.handler.Some?
  }

  /** What a call leaves of the context. */
  function Executed(c: Context, job: Job): Context {
    if !c.status.Queued? || job.handler.None? then c.(status := Failed, failureReason := Some(InvalidTask))
    else
      var h := RunHandler(c.result, c.maxOutput, job.handler.value);
      var (status, reason) := StatusOfFault(h.fault);
      Finalized(c.(status := status, failureReason := if reason.Some? then reason else c.failureReason, result := h.result), job.workspace)
  }

  class DeterministicExecutor {
    constructor () {}

    /** Stores the output if it fits. */
    static method LimitOutput(context: ExecutionContext, output: string) returns (fault: Option<Fault>)
      modifies context`result
      ensures |output| > context.maxOutput ==> fault == Some(LimitsExceeded) && context.result == old(context.result)
      ensures |output| <= context.maxOutput ==> fault == None && context.result == Some(output)
    {
      if |output| > context.maxOutput {
        return Some(LimitsExceeded);
      }
      context.result := Some(output);
      fault := None;
    }

    static method Handle(context: ExecutionContext, acts: seq<Act>) returns (fault: Option<Fault>)
      modifies context`result
      ensures RunHandler(old(context.result), context.maxOutput, acts) == Handled(context.result, fault)
    {
      fault := None;
      var i := 0;
      while i < |acts| && fault == None
        invariant 0 <= i <= |acts|
        invariant fault == None ==>
          RunHandler(old(context.result), context.maxOutput, acts) == RunHandler(context.result, context.maxOutput, acts[i..])
        invariant fault != None ==>
          RunHandler(old(context.result), context.maxOutput, acts) == Handled(context.result, fault)
      {
        match acts[i] {
          case CheckDeadline(expired) =>
            if expired { fault := Some(DeadlineExceeded); }
          case Emit(output) =>
            fault := LimitOutput(context, output);
          case Throw(f) =>
            fault := Some(f);
        }
        i := i + 1;
      }
    }

    /** Returns whether the workspace bookkeeping itself failed. */
    static method Execute(context: ExecutionContext, job: Job) returns (broke: bool)
      modifies context
      ensures context.View() == Executed(old(context.View()), job)
      ensures broke <==> old(RunsHandler(context.View(), job)) && job.workspace.Unwritable?
    {
      broke := false;
      if !context.status.Queued? {
        context.failureReason := Some(InvalidTask);
        context.status := Failed;
        return;
      }
      context.status := Running;
      if job.handler.None? {
        context.status := Failed;
        context.failureReason := Some(InvalidTask);
        return;
      }
      var fault := Handle(context, job.handler.value);
      match fault {
        case None =>
          if context.status.Running? { context.status := Succeeded; }
        case Some(LimitsExceeded) =>
          context.status, context.failureReason := LimitExceeded, Some(OverLimit);
        case Some(SecurityError) =>
          context.status, context.failureReason := Failed, Some(AuthorizationDenied);
        case Some(DeadlineExceeded) =>
          context.status, context.failureReason := TimedOut, Some(Timeout);
        case Some(OtherError) =>
          context.status, context.failureReason := Failed, Some(ExecutionError);
      }
      match job.workspace {
        case NoWorkspace =>
        case Unwritable =>
          broke := true;
        case Measured(size, hash) =>
          context.resultHash := Some(hash);
          if size > context.maxWorkspace {
            context.status, context.failureReason := LimitExceeded, Some(OverLimit);
          }
      }
    }
  }

  // ---- Any series of calls on one context ----

  function Series(c: Context, jobs: seq<Job>): Context
    decreases jobs
  {
    if jobs == [] then c else Executed(Series(c, jobs[..|jobs| - 1]), jobs[|jobs| - 1])
  }

  /** How many of the calls ran a handler. */
  function HandlerRuns(c: Context, jobs: seq<Job>): nat
    decreases jobs
  {
    if jobs == [] then 0 else
      HandlerRuns(c, jobs[..|jobs| - 1])
      + (if RunsHandler(Series(c, jobs[..|jobs| - 1]), jobs[|jobs| - 1]) then 1 else 0)
  }

  predicate Over(c: Context) {
    !c.status.Queued? && !c.status.Running?
  }

  /** The status and the failure reason tell the same story. */
  predicate Agrees(c: Context) {
    && (c.status.Succeeded? <==> c.failureReason.None?)
    && (c.status.TimedOut? <==> c.failureReason == Some(Timeout))
    && (c.status.LimitExceeded? <==> c.failureReason == Some(OverLimit))
  }

  predicate Fits(c: Context) {
    c.result.Some? ==> |c.result.value| <= c.maxOutput
  }

  lemma {:induction false} HandlerOutputFits(result: Option<string>, maxOutput: nat, acts: seq<Act>)
    requires result.Some? ==> |result.value| <= maxOutput
    ensures var h := RunHandler(result, maxOutput, acts);
      h.result.Some? ==> |h.result.value| <= maxOutput
    decreases acts
  {
    if acts != [] {
      match acts[0]
      case CheckDeadline(expired) => HandlerOutputFits(result, maxOutput, acts[1..]);
      case Emit(output) => if |output| <= maxOutput { HandlerOutputFits(Some(output), maxOutput, acts[1..]); }
      case Throw(_) =>
    }
  }

  /**
   Any series of calls on a fresh context: a handler runs at most once; after at least one
   call the context is neither queued nor running and its status and failure reason
   agree; and a stored result always fits the output limit.
   */
  lemma {:induction false} RunsAtMostOnce(c: Context, jobs: seq<Job>)
    requires c.status.Queued? && c.failureReason.None? && c.result.None?
    ensures var d := Series(c, jobs);
      && HandlerRuns(c, jobs) <= 1
      && (jobs != [] ==> Over(d) && Agrees(d))
      && (jobs == [] ==> HandlerRuns(c, jobs) == 0 && d == c)
      && Fits(d) && d.maxOutput == c.maxOutput
    decreases jobs
  {
    if jobs != [] {
      var front, job := jobs[..|jobs| - 1], jobs[|jobs| - 1];
      RunsAtMostOnce(c, front);
      var before := Series(c, front);
      if RunsHandler(before, job) {
        HandlerOutputFits(before.result, before.maxOutput, job.handler.value);
      }
    }
  }
}
