/**
 The execution manager as the program has it: an object that holds contexts, tasks and
 workers, fences, runs and logs. What each call does to the log is given by the
 operations of `ExecutionLog`; what runs of calls and crashes then leave is proved in
 `ExecutionProtocol`.
 */
module ExecutionManagers {
  import opened Models
  import opened Stores
  import opened ContinuityEngines
  import opened Reconstruction
  import opened Generations
  import opened DeterministicExecution
  import opened ExecutionLog
  import opened Replay

  datatype WorkerState =
    | WorkerCreated | WorkerRunning
    | WorkerSucceeded | WorkerFailed | WorkerTimedOut | WorkerLimitExceeded | WorkerTerminated

  /**
   What a worker's executor does: nothing, since the deadline has passed; the
   deterministic executor; an outside executor that answers or raises; or there is none.
   */
  datatype Work =
    | TooLate
    | Deterministic(job: Job)
    | Answered(result: string, hash: Option<string>, workspace: Workspace)
    | Raised(fault: Fault)
    | NoExecutor

  const MAX_WORKSPACE: nat := 10 * 1024 * 1024

  /** An exception nothing else catches. */
  function Crashed(c: Context): Context {
    c.(status := Failed, failureReason := Some(ExecutionError))
  }

  /** What a started worker leaves of its context. */
  function Worked(c: Context, work: Work): Context {
    match work
    case TooLate => c.(status := TimedOut, failureReason := Some(Timeout))
    case Deterministic(job) =>
      if RunsHandler(c, job) && job.workspace.Unwritable? then Crashed(Executed(c, job)) else Executed(c, job)
    case Answered(result, hash, workspace) =>
      var answered := c.(status := Succeeded, result := Some(result), resultHash := hash);
      if workspace.Unwritable? then Crashed(answered) else Finalized(answered, workspace)
    case Raised(fault) =>
      var (status, reason) := StatusOfFault(Some(fault));
      c.(status := status, failureReason := reason)
    case NoExecutor => c.(status := Failed, failureReason := Some(UnsupportedExecutor))
  }

  function WorkerOf(status: Status): WorkerState {
    match status
    case Succeeded => WorkerSucceeded
    case TimedOut => WorkerTimedOut
    case LimitExceeded => WorkerLimitExceeded
    case _ => WorkerFailed
  }

  function OutcomeOf(c: Context): Outcome {
    Outcome(c.status, c.failureReason, c.resultHash)
  }

  /** However a started execution goes, it ends in one of four statuses, with the reason that goes with it. */
  lemma WorkEnds(c: Context, work: Work)
    requires c.status.Queued? && c.failureReason.None? && c.result.None?
    ensures var d := Worked(c, work);
      && (d.status.Succeeded? || d.status.Failed? || d.status.TimedOut? || d.status.LimitExceeded?)
      && Agrees(d) && IsExecutionStatus(d.status)
  {
    if work.Deterministic? {
      RunsAtMostOnce(c, [work.job]);
      assert [work.job][..0] == [];
      assert Series(c, [work.job]) == Executed(c, work.job);
    }
  }

  class ExecutionManager {
    const engine: ContinuityEngine
    const generation: RuntimeGeneration
    var executions: map<string, ExecutionContext>
    var tasks: map<string, Task>
    var workers: map<string, WorkerState>

    /** What was submitted here has a context with a generation, and a worker; what was only read back from the log has neither. */
    ghost predicate Valid()
      reads this
    {
      && tasks.Keys <= executions.Keys
      && tasks.Keys == workers.Keys
      && forall x :: x in tasks ==> executions[x].generation.Some?
    }

    constructor (engine: ContinuityEngine, generation: RuntimeGeneration)
      ensures Valid() && executions == map[] && tasks == map[]
      ensures this.engine == engine && this.generation == generation
    {
      this.engine, this.generation := engine, generation;
      executions, tasks, workers := map[], map[], map[];
    }

    /** `admitted` is what registry, policy, selector and workspace manager make of the task. */
    method SubmitTask(x: string, continuityId: string, eventId: string, task: Task, admitted: bool, maxOutput: nat)
      returns (result: Result<ExecutionContext>)
      requires Valid()
      modifies this, engine, engine.files
      ensures Valid()
      ensures !admitted ==>
        && result.Err? && engine.View() == old(engine.View())
        && executions == old(executions) && tasks == old(tasks) && workers == old(workers)
      ensures admitted ==>
        && result.Ok? && fresh(result.value)
        && result.value.View() == Context(Queued, None, None, None, Some(generation.current), maxOutput, MAX_WORKSPACE)
        && executions == old(executions)[x := result.value]
        && tasks == old(tasks)[x := task]
        && workers == old(workers)[x := WorkerCreated]
        && engine.View() == Run(engine.codecs, old(engine.View()), SubmitOps(x, continuityId, eventId, task, generation.current))
    {
      if !admitted {
        return Err;
      }
      var context := new ExecutionContext(Queued, Some(generation.current), maxOutput, MAX_WORKSPACE);
      tasks := tasks[x := task];
      executions := executions[x := context];
      workers := workers[x := WorkerCreated];
      var record, event := QueuedRecord(x, continuityId, task), QueuedEvent(x, eventId, task, generation.current);
      RunPair(engine.codecs, engine.View(), Save(record), Append(event));
      engine.SaveRecord(record);
      var _ := engine.AppendEvent(event);
      result := Ok(context);
    }

    /** Fails, and does nothing, unless the worker has never been started. */
    method StartWorker(x: string, context: ExecutionContext, work: Work) returns (result: Result<()>)
      requires x in workers
      modifies this`workers, context
      ensures old(workers)[x] != WorkerCreated ==>
        result.Err? && workers == old(workers) && context.View() == old(context.View())
      ensures old(workers)[x] == WorkerCreated ==>
        && result.Ok?
        && context.View() == Worked(old(context.View()), work)
        && workers == old(workers)[x := WorkerOf(context.status)]
    {
      if workers[x] != WorkerCreated {
        return Err;
      }
      workers := workers[x := WorkerRunning];
      match work {
        case TooLate =>
          context.status, context.failureReason := TimedOut, Some(Timeout);
        case Deterministic(job) =>
          var broke := DeterministicExecutor.Execute(context, job);
          if broke {
            context.status, context.failureReason := Failed, Some(ExecutionError);
          }
        case Answered(answer, hash, workspace) =>
          context.status, context.result, context.resultHash := Succeeded, Some(answer), hash;
          FinalizeAnswer(context, workspace);
        case Raised(LimitsExceeded) =>
          context.status, context.failureReason := LimitExceeded, Some(OverLimit);
        case Raised(SecurityError) =>
          context.status, context.failureReason := Failed, Some(AuthorizationDenied);
        case Raised(DeadlineExceeded) =>
          context.status, context.failureReason := TimedOut, Some(Timeout);
        case Raised(OtherError) =>
          context.status, context.failureReason := Failed, Some(ExecutionError);
        case NoExecutor =>
          context.status, context.failureReason := Failed, Some(UnsupportedExecutor);
      }
      workers := workers[x := WorkerOf(context.status)];
      result := Ok(());
    }

    method FinalizeAnswer(context: ExecutionContext, workspace: Workspace)
      modifies context
      ensures context.View() ==
        if workspace.Unwritable? then Crashed(old(context.View())) else Finalized(old(context.View()), workspace)
    {
      match workspace {
        case NoWorkspace =>
        case Unwritable =>
          context.status, context.failureReason := Failed, Some(ExecutionError);
        case Measured(size, hash) =>
          context.resultHash := Some(hash);
          if size > context.maxWorkspace {
            context.status, context.failureReason := LimitExceeded, Some(OverLimit);
          }
      }
    }

    method TerminateWorker(x: string)
      modifies this`workers
      ensures workers == if x in old(workers) && (old(workers)[x].WorkerCreated? || old(workers)[x].WorkerRunning?)
        then old(workers)[x := WorkerTerminated] else old(workers)
    {
      if x in workers && (workers[x].WorkerCreated? || workers[x].WorkerRunning?) {
        workers := workers[x := WorkerTerminated];
      }
    }

    /** The context of a stale generation is failed, its worker with it, and that is logged. */
    method FenceExecution(x: string, eventId: string)
      requires Valid() && x in tasks
      modifies this`workers, executions[x], engine, engine.files
      ensures Valid()
      ensures executions[x].View() == old(executions[x].View()).(status := Failed, failureReason := Some(AuthorizationDenied))
      ensures workers == old(workers)[x := WorkerFailed]
      ensures engine.View() == Run(engine.codecs, old(engine.View()),
        [Append(FencedEvent(x, eventId, tasks[x], executions[x].generation.value))])
    {
      var context := executions[x];
      context.status, context.failureReason := Failed, Some(AuthorizationDenied);
      workers := workers[x := WorkerFailed];
      var event := FencedEvent(x, eventId, tasks[x], context.generation.value);
      assert [Append(event)][..0] == [];
      var _ := engine.AppendEvent(event);
    }

    /** Writes the outcome to the execution's record, or else the last record of its task, and logs it. */
    method LogOutcome(x: string, eventId: string, task: Task, stamp: int, o: Outcome)
      modifies engine, engine.files
      ensures engine.View() == Run(engine.codecs, old(engine.View()),
        OutcomeOps(old(engine.View().memory), x, eventId, task, stamp, o))
    {
      ghost var s := engine.View();
      var event := OutcomeEvent(x, eventId, task, stamp, o);
      var record := engine.GetRecord(x);
      if record == None {
        assert Position(engine.records, x) == |engine.records|;
        var found := engine.GetRecordsByTask(task.taskId);
        record := Last(found);
      }
      if record.Some? {
        RunPair(engine.codecs, s, Save(OutcomeRecord(record.value, o)), Append(event));
        engine.SaveRecord(OutcomeRecord(record.value, o));
      } else {
        assert [] + [Append(event)] == [Append(event)] && [Append(event)][..0] == [];
      }
      var _ := engine.AppendEvent(event);
    }

    /** The unfenced path. */
    method RunAndLog(x: string, work: Work, eventId: string) returns (result: Result<Option<ExecutionContext>>)
      requires Valid() && x in tasks
      modifies this`workers, executions[x], engine, engine.files
      ensures Valid()
      ensures old(workers)[x] != WorkerCreated ==>
        && result.Err? && workers == old(workers) && engine.View() == old(engine.View())
        && executions[x].View() == old(executions[x].View())
      ensures old(workers)[x] == WorkerCreated ==>
        && result == Ok(None)
        && executions[x].View() == Worked(old(executions[x].View()), work)
        && workers == old(workers)[x := WorkerOf(executions[x].status)]
        && engine.View() == Run(engine.codecs, old(engine.View()), OutcomeOps(
             old(engine.View().memory), x, eventId, tasks[x], executions[x].generation.value, OutcomeOf(executions[x].View())))
    {
      var context := executions[x];
      ghost var s := engine.View();
      var started := StartWorker(x, context, work);
      assert engine.View() == s;
      if started.Err? {
        return Err;
      }
      TerminateWorker(x);
      assert workers == old(workers)[x := WorkerOf(context.status)] && engine.View() == s;
      LogOutcome(x, eventId, tasks[x], context.generation.value,
        Outcome(context.status, context.failureReason, context.resultHash));
      result := Ok(None);
    }

    /**
     Returns the context only when the execution is fenced; the normal path runs off the
     end without returning it. An execution that was not submitted here, or that was
     started before, is refused and nothing changes.
     */
    method ExecuteSync(x: string, registered: bool, work: Work, eventId: string) returns (result: Result<Option<ExecutionContext>>)
      requires Valid()
      modifies this`workers, if x in executions then {executions[x]} else {}, engine, engine.files
      ensures Valid()
      ensures x !in tasks || !registered ==>
        result.Err? && workers == old(workers) && engine.View() == old(engine.View())
        && (x in executions ==> executions[x].View() == old(executions[x].View()))
      ensures x in tasks && registered && old(executions[x].generation.value) != generation.current ==>
        && result == Ok(Some(executions[x]))
        && executions[x].View() == old(executions[x].View()).(status := Failed, failureReason := Some(AuthorizationDenied))
        && workers == old(workers)[x := WorkerFailed]
        && engine.View() == Run(engine.codecs, old(engine.View()),
             [Append(FencedEvent(x, eventId, tasks[x], executions[x].generation.value))])
      ensures x in tasks && registered && old(executions[x].generation.value) == generation.current && old(workers)[x] != WorkerCreated ==>
        && result.Err? && workers == old(workers) && engine.View() == old(engine.View())
        && executions[x].View() == old(executions[x].View())
      ensures x in tasks && registered && old(executions[x].generation.value) == generation.current && old(workers)[x] == WorkerCreated ==>
        && result == Ok(None)
        && executions[x].View() == Worked(old(executions[x].View()), work)
        && workers == old(workers)[x := WorkerOf(executions[x].status)]
        && engine.View() == Run(engine.codecs, old(engine.View()),
             OutcomeOps(old(engine.View().memory), x, eventId, tasks[x], executions[x].generation.value, OutcomeOf(executions[x].View())))
    {
      if x !in executions || x !in tasks || !registered {
        return Err;
      }
      var context := executions[x];
      if context.generation.Some? {
        var stale := generation.Fence(context.generation.value);
        if stale {
          FenceExecution(x, eventId);
          return Ok(Some(context));
        }
      }
      result := RunAndLog(x, work, eventId);
    }

    /** The context held here, or one rebuilt from the log, which is then held; the log is only read. */
    method GetExecution(x: string) returns (found: Option<ExecutionContext>)
      requires Valid()
      modifies this`executions
      ensures Valid()
      ensures x in old(executions) ==> found == Some(old(executions)[x]) && executions == old(executions)
      ensures x !in old(executions) ==>
        match RestartStatus(engine.View().memory, x)
        case None => found == None && executions == old(executions)
        case Some(status) =>
          && found.Some? && fresh(found.value)
          && found.value.status == status && found.value.failureReason == None && found.value.result == None
          && found.value.generation == RestartGeneration(engine.View().memory, x)
          && executions == old(executions)[x := found.value]
    {
      if x in executions {
        return Some(executions[x]);
      }
      var rebuilt := engine.ReconstructExecution(x);
      if rebuilt == None {
        return None;
      }
      var b := rebuilt.value;
      var stamp := match b.generation case Number(n) => Some(n) case _ => None;
      var context := new ExecutionContext(if IsExecutionStatus(b.status) then b.status else Failed, stamp, 0, 0);
      executions := executions[x := context];
      found := Some(context);
    }
  }
}
