# Verified model of the runtime's durable protocols

This project models, in Dafny, the parts of the runtime that have to survive crashes and
interleaving, and proves what they promise:

- **The continuity log** (`LineFiles`, `Codecs`, `Selections`, `Replay`, `Stores`, `TornWrites`,
  `CrashRuns`, `Reconstruction`, `ContinuityEngines`): two append-only files of lines, a record
  log read as a last-write-wins dictionary and an event log whose numbers a load repairs. Files
  are texts; lines are cut at `'\n'`, so an append that is torn by a crash leaves an unterminated
  tail that the next append is glued to.
- **Repository mutation and reconciliation** (`Mutation`, `MutationProtocol`, `Reconciliation`,
  `CrashClassification`, `Conservation`, `InterleavedConservation`, `UnorderedConservation`):
  prepare and finalize as sequences of durable operations, any number of calls interleaved, a
  crash between any two steps, and what `reconcile` then says.
- **Executions** (`ExecutionLog`, `ExecutionManagers`, `ExecutionProtocol`, `TornExecutions`,
  `DeterministicExecution`, `Generations`): submission, generation fencing, running, logging
  and the answer of a restarted manager.
- **The browser broker** (`SubmissionAuth`, `AuthorizationSpending`, `AuthorizationSessions`,
  `CdpCorrelation`): single-use submission authorizations and the matching of responses to
  requests, as steps of interleaving threads.

Each class has the fields of the program's class and methods that change them step by step.
Each method is proved against a function of the old state, mostly a sequence of log
operations given to `Stores.Run`; the results about whole runs are lemmas about those
functions and about step systems whose moves write the same operations. The lemmas that make
that link, and those that follow from one definition, are the last rows of the table.

JSON is abstract: a codec is a pair of functions with the laws of `Codecs.Lawful` (one line
per value, decoding undoes encoding, and text that a torn write leaves, alone or with a line
glued to it, does not decode). `Codecs.TallyCodecIsLawful` shows that the laws can be met. They
are asked of values in which each status and event type is given in one way only: the open
constructors of `Models.Status` and `Models.EventType` take no text that has a name of its own.

Where a promised property fails, the code was kept as it is and the exact condition proved:

- An append after unterminated text leaves memory out of step with the files
  (`Stores.AppendExact`, `Stores.SaveExact`).
- A prepare of a step that was ever finalized, and a prepare without a repository, are never
  noticed after a crash (`CrashClassification.PreparedCrashIsNoticedExactly`).
- Between finalize's save and its FINALIZED event the code reports COHERENT, unless the record
  was marked COMPLETE before (`CrashClassification.CrashIsClassified`), and the record is ahead of
  the log by exactly what was saved there and not logged (`InterleavedConservation.StepsConserve`,
  `UnorderedConservation.BagsConserve`, `Conservation.CrashInFinalizeExact`).
- A call that stops before its PREPARED event, on a step for which an earlier process left one
  that was never finalized, is labelled by that older event's commit
  (`CrashClassification.StuckIn`, `CrashClassification.CrashIsClassified`).
- A second reconciliation, and one after a crashed one, can change its verdict, exactly through
  the rule of mission MISSION-002-R2-PHYSICAL (`Reconciliation.VerdictIsStable`,
  `Reconciliation.CrashedPassIsRepeatable`).
- A task id submitted twice lets one execution's outcome land in the other's record
  (`ExecutionLog.SharedTaskId`).
- An execution that has finished is answered FAILED once it is executed again after a later
  startup, even if it had SUCCEEDED, because the fence comes before any look at the status; and
  only then (`ExecutionProtocol.FinishedAnswerExactly`, `ExecutionProtocol.FinishedIsOverturned`).
- The generation counter is written when its file is closed, after the lock is free. Numbers
  increase in lock order exactly when every call had read the number of the call before it
  (`Generations.IncreasingExactly`). That holds when no process reads while another one's number
  is unwritten and none dies between truncating and writing (`Generations.GenerationsIncrease`),
  and neither half can be dropped (`Generations.EarlyReadBreaks`, `Generations.LosingDeathBreaks`).
  Two calls are handed the same number exactly when the chains of calls they read from add up to
  the same (`Generations.ReusedExactly`); runs are `Generations.UnwrittenIsHandedOutAgain`, without
  a death, and `Generations.DeathInWindowReuses`, without an overlap.
- A final status whose line lacks only its `'\n'` is answered after one load and gone after the
  next, once another line has been glued to it (`TornExecutions.GluedLineIsLost`).
- Two requests pass on one authorization exactly when two handlers have seen it pending before
  either decided, both with a request it matches, and both decide
  (`AuthorizationSpending.SpentTwiceExactly`, with a run in `AuthorizationSpending.TwoHandlersSpendTwice`).
- An authorization is armed outside its own session exactly when a session begins or ends
  between the lookup that granted it and the arming
  (`AuthorizationSessions.ArmedInOwnSessionExactly`, with a run in `AuthorizationSessions.ArmsAcrossSessions`).

`dafny verify dfyconfig.toml` checks the whole project.

## Model

| member | source | states |
|---|---|---|
| `Codecs.ReadTorn` | runtime/continuity/engine.py:59-77 | a line that ends in a partly written value is quarantined, unless the value is whole and alone on its line |
| `Codecs.ReadAfter` | runtime/continuity/engine.py:59-77 | a value written behind visible text that was left unterminated is quarantined; behind blank text it is read back |
| `Replay.ValuesAfterAppend` | runtime/continuity/engine.py:124-136 | one more line adds its value to what a replay reads, or, behind unterminated text, destroys the value it is glued to and its own |
| `Replay.UpsertIsDictionaryUpdate` | runtime/continuity/engine.py:66 | replaying a record is dictionary assignment: keys stay distinct, a known key keeps its place and loses its old value, all other entries stay |
| `Replay.RepairIsOptimal` | runtime/continuity/engine.py:87-100 | repaired numbers are the pointwise least strictly increasing positive numbers at or above the logged ones; nothing else changes; repair is idempotent and leaves a log alone exactly when its numbers were positive and increasing |
| `Replay.QuarantineIsExact` | runtime/continuity/engine.py:67-77 | the quarantine list is exactly the undecodable lines of the file, stripped, with their line numbers, in scan order |
| `Replay.ScanRecordsIs` | runtime/continuity/engine.py:57-77 | the record loop's state after any number of lines is given by dictionary, quarantine list and status of those lines |
| `Replay.ScanEventsIs` | runtime/continuity/engine.py:80-111 | the same for the event loop: repaired events, highest number, quarantine list, status |
| `Replay.LastIncidentNamesStatus` | runtime/continuity/engine.py:90-110 | after the last line that raised an incident the status is the kind of that incident |
| `Stores.MemoryEqualsReplay` | runtime/continuity/engine.py:47-136 | from files with any contents that end in whole lines, after a load and any run of saves, appends and reloads, records, events, number, quarantine list and status are what a fresh load computes, with distinct ids and increasing numbers |
| `Stores.AppendExact` | runtime/continuity/engine.py:128-136 | an append keeps memory in step if and only if the event file held no unterminated text |
| `Stores.SaveExact` | runtime/continuity/engine.py:120-126 | a save keeps memory in step if and only if the record file held no unterminated text; otherwise the record is lost on reload |
| `Stores.NoiseIsInvisible` | runtime/continuity/engine.py:57-111 | blank and undecodable lines added or removed anywhere change no record, event or number |
| `Stores.CleanIsExact` | runtime/continuity/engine.py:54-111 | the status after a load is CLEAN if and only if every line is blank or decodes and the event numbers are positive and increasing |
| `Stores.StatusNamesLastIncident` | runtime/continuity/engine.py:54-111 | the status is the kind of the last incident of the event file, and without one it is QUARANTINED if and only if a record line does not decode |
| `Stores.CrashFindsMemory` | runtime/continuity/engine.py:47-136 | whatever was saved, appended and reloaded, a crash between two operations and a load find the memory those operations made |
| `TornWrites.TornAppendCost` | runtime/continuity/engine.py:79-136 | a crash inside an append of `e`, a reload, appends of `e1` to `en` and a reload leave the old events followed by `e2` to `en` with the numbers they were given |
| `TornWrites.CleanCrashCost` | runtime/continuity/engine.py:128-136 | a crash before the first or after the last character of the line costs nothing but the event that was not written |
| `CrashRuns.CrashBudget` | runtime/continuity/engine.py:47-136 | over any run of appends, saves and reloads with crashes inside any of the appends and saves: of the events begun at most twice as many are missing as appends were torn, the others are in order, with their numbers, strictly increasing; and the dictionary is the initial one updated, in order, by all but at most twice as many of the saves begun as saves were torn |
| `Reconstruction.ReconstructReadsLatest` | runtime/continuity/engine.py:158-211 | the answer is None exactly when nothing concerns the execution; else it is read from the last event in the log that concerns it, which has the greatest number, and the last such record in the dictionary |
| `Reconstruction.SortIsStable` | runtime/continuity/engine.py:178-180 | the sorted events do not decrease in number, and those of any one number are the given ones in the given order |
| `Reconstruction.ReconstructSurvivesReload` | runtime/continuity/engine.py:158-211 | the answer is the same from memory and after a reload, and the sort by number is the identity |
| `Reconstruction.DictionaryIsInSaveOrder` | runtime/continuity/engine.py:120-126 | the dictionary holds the last save of every id, in the order in which the ids were first saved |
| `ContinuityEngines.ContinuityEngine.Load` | runtime/continuity/engine.py:47-111 | the two loops leave the engine and the quarantine file as `Stores.Load` says |
| `ContinuityEngines.ContinuityEngine.LoadRecords` | runtime/continuity/engine.py:57-77 | the loop over record lines computes the fold over the lines |
| `ContinuityEngines.ContinuityEngine.LoadEvents` | runtime/continuity/engine.py:80-111 | the loop over event lines computes the fold over the lines, starting from the status and the quarantine list of the first |
| `ContinuityEngines.ContinuityEngine.SaveRecord` | runtime/continuity/engine.py:120-126 | dictionary and file are updated together, and nothing else |
| `ContinuityEngines.ContinuityEngine.AppendEvent` | runtime/continuity/engine.py:128-136 | the event gets the next number, in memory, in the file and for the caller |
| `ContinuityEngines.ContinuityEngine.GetRecord` | runtime/continuity/engine.py:138-140 | the record under the id, or None exactly when no record has it |
| `Selections.SelectedPositions` | runtime/continuity/engine.py:142-156 | a selection by mission or task, as every list comprehension, holds exactly the elements asked for, each as often as it occurs, in dictionary order |
| `Selections.SelectedLast` | runtime/continuity/mutation.py:30-34 | the last element of a selection is the one asked for that no later one follows |
| `ContinuityEngines.ContinuityEngine.ReconstructExecution` | runtime/continuity/engine.py:158-211 | None exactly when no record and no event concerns the execution; type, number and a conclusive status are those of the last event that concerns it, when memory is in step, and the lists those of the last record that does |
| `Mutation.StepRecordIsLast` | runtime/continuity/mutation.py:29-34 | the record a call works on is the last of the mission and step in dictionary order, and there is none exactly when no record is of them |
| `Mutation.RepositoryMutationContract.PrepareMutation` | runtime/continuity/mutation.py:14-89 | saves the step's record as ACTIVE and appends the PREPARED event with the next number, which it returns; fails and writes nothing when the step has no record |
| `Mutation.RepositoryMutationContract.FinalizeMutation` | runtime/continuity/mutation.py:92-195 | saves the record extended and COMPLETE, then appends the FINALIZED and the MUTATED event; fails and writes nothing when the step has no record |
| `MutationProtocol.LogShapeHolds` | runtime/continuity/mutation.py:51-195 | in every log that interleaved calls, reconciliations stopped anywhere, crashes and restarts leave, with finalizes of any logged PREPARED event any number of times, each FINALIZED event has an earlier PREPARED parent of its mission, step and commit, each MUTATED event an earlier FINALIZED parent, and parents have smaller numbers |
| `CrashClassification.CrashIsClassified` | runtime/continuity/reconciler.py:29-78 | in a log with distinct step ids in which nothing asks for reconciliation, for any number of interleaved calls, one per step, whatever happened to the step or the record before, and any crash point: reconciliation is demanded exactly when some call, on a named repository and a step never finalized before, is stuck (its own PREPARED event logged and its record not saved as complete, or begun while an earlier process had left one), or has begun on a record marked COMPLETE that no MUTATED event backs and not logged FINALIZED; stuck records are labelled by whether HEAD moved, all others stay, but for the rule of mission 002 |
| `CrashClassification.PreparedCrashIsNoticedExactly` | runtime/continuity/reconciler.py:31-43 | a crash after PREPARED is noticed if and only if the repository is named and the step was never finalized before, whatever the record's status |
| `Conservation.RunConserves` | runtime/continuity/mutation.py:101-153 | with one record per mission and step, in every run of prepare, finalize and reconcile calls each record's files and evidence are the initial ones followed by those of its step's FINALIZED events in order |
| `InterleavedConservation.StepsConserve` | runtime/continuity/mutation.py:101-153 | with one record per mission and step, over any interleaving of the durable steps with crashes, restarts, repeated finalizes and reconciliations stopped anywhere, no two finalizes of one step being between save and event at once: a record's lists are the initial ones followed by those of all saved finalizes of its step, and its FINALIZED events carry the initial ones followed by those of the logged ones among them |
| `UnorderedConservation.BagsConserve` | runtime/continuity/mutation.py:101-153 | the same without that assumption, as multisets: a record holds the initial lists and those of every saved finalize of its step, the FINALIZED events the initial ones and those of every logged one, and what was saved is what was logged, what was stopped between save and event, and what is between them now |
| `Conservation.CrashInFinalizeExact` | runtime/continuity/mutation.py:107-153 | a crash between finalize's save and its event breaks that balance if and only if the call brought a file or evidence |
| `Reconciliation.ReconcileIsExact` | runtime/continuity/reconciler.py:18-99 | a pass demands reconciliation exactly when some record, compared with the log as it was, is stuck or unlogged; it relabels each record accordingly and appends exactly one gap event per gap |
| `Reconciliation.SecondPass` | runtime/continuity/reconciler.py:18-99 | with HEAD unchanged a second pass leaves the records as the first left them and demands reconciliation exactly for what was not relabelled by the rule of mission 002 |
| `Reconciliation.VerdictIsStable` | runtime/continuity/reconciler.py:18-99 | two passes agree if and only if not everything that asked for reconciliation was relabelled by the rule of mission 002; without such records they always agree |
| `Reconciliation.CrashedPassIsRepeatable` | runtime/continuity/reconciler.py:18-99 | a pass that crashed after any number of its writes can be repeated and leaves the records of an undisturbed pass; it gives the same verdict if and only if not everything that asked had been relabelled by the rule of mission 002 before the crash, so always without records of that mission |
| `Reconciliation.Reconciler.Reconcile` | runtime/continuity/reconciler.py:18-99 | the loop over the records writes the operations of the pass, in order, and returns its verdict |
| `Reconciliation.Reconciler.RelabelOrphan` | runtime/continuity/reconciler.py:31-78 | a record stuck in a prepared mutation is saved with its label and a gap is logged; any other is left alone |
| `Reconciliation.Reconciler.CheckLogged` | runtime/continuity/reconciler.py:80-94 | a gap is logged exactly for a complete record with a repository and no mutation event |
| `Reconciliation.Reconciler.ReconcileMission002` | runtime/continuity/reconciler.py:138-152 | the one-mission rule saves and logs exactly when the record is complete without evidence |
| `Generations.RuntimeGeneration.Increment` | runtime/core/generation.py:37-65 | a call that nothing interleaves: file, field and result are all one more than what the file held, a missing or broken file counting as 0 |
| `Generations.RuntimeGeneration.Fence` | runtime/core/generation.py:67-74 | fails exactly on a generation that is not the current one |
| `Generations.GenerationsIncrease` | runtime/core/generation.py:37-65 | under any interleaving of processes in which none reads while another one's number is still to be written and none dies between truncating and writing, the numbers handed out strictly increase in lock order and lie above the initial number |
| `Generations.OrderedStep` | runtime/core/generation.py:37-65 | for numbers that are not negative, a step breaks the order if and only if it frees the lock for a call that had not read the last number handed out |
| `Generations.IncreasingExactly` | runtime/core/generation.py:37-65 | in every run, with any overlap and any deaths, the numbers strictly increase in lock order above the initial one if and only if every call had read the number of the call before it, and the first the initial one |
| `Generations.ReusedExactly` | runtime/core/generation.py:37-65 | in every run each number handed out is what the first call of a chain had read plus the length of the chain of calls that read one another's number; two are the same exactly when these sums are |
| `Generations.GenerationsUnique` | runtime/core/generation.py:37-65 | in the runs of `GenerationsIncrease` no number is handed out twice and at most one call was handed what the file now holds |
| `Generations.EarlyReadBreaks` | runtime/core/generation.py:42-63 | after any such run, one more increment keeps the order if and only if no number is still unwritten |
| `Generations.LosingDeathBreaks` | runtime/core/generation.py:42-63 | after any such run, when a process that has freed the lock dies before it has written its number, the next increment breaks the order |
| `Generations.UnwrittenIsHandedOutAgain` | runtime/core/generation.py:42-63 | without a death, from a file that holds `n`: a process reads before the number `n + 1` of the one before it is written, is handed 1, and `n` or `n + 1` increments after both have written, as the later text covers the earlier one or not, `n + 1` is handed out again |
| `Generations.DeathInWindowReuses` | runtime/core/generation.py:56-63 | from a file that holds `n`: one process is handed `n + 1`, the next dies between truncating and writing, and the `n + 1`-th increment after that is handed `n + 1` again |
| `DeterministicExecution.DeterministicExecutor.Execute` | runtime/execution/deterministic_executor.py:29-78 | the status machine with its handler, faults and workspace bookkeeping leaves the context `Executed` gives, and raises exactly when the bookkeeping does |
| `DeterministicExecution.DeterministicExecutor.Handle` | runtime/execution/deterministic_executor.py:55-105 | a handler runs up to its end or first fault, keeping the last output that fitted |
| `DeterministicExecution.DeterministicExecutor.LimitOutput` | runtime/execution/deterministic_executor.py:100-105 | an output is stored exactly when its encoding fits the limit |
| `DeterministicExecution.RunsAtMostOnce` | runtime/execution/deterministic_executor.py:29-78 | in any series of calls on one context a handler runs at most once, every call ends outside QUEUED and RUNNING, status and failure reason agree, and a stored result fits the limit |
| `ExecutionLog.AnswerIs` | runtime/execution/manager.py:297-332 | what a restarted manager answers is decided by the status of the execution's one record and of its last event |
| `ExecutionLog.SharedTaskId` | runtime/execution/manager.py:252-262 | an outcome is answered after restart if and only if an event may settle its status or the task's last record is the execution's own; the execution whose record was taken is answered with an outcome it never had |
| `ExecutionManagers.ExecutionManager.SubmitTask` | runtime/execution/manager.py:53-159 | a refused task changes nothing; an admitted one gets a QUEUED context with the current generation and a new worker, and the record and TASK_CREATED event are written |
| `ExecutionManagers.ExecutionManager.StartWorker` | runtime/execution/worker.py:109-268 | refused, with nothing changed, unless the worker was never started; then context and worker end in matching states |
| `ExecutionManagers.ExecutionManager.ExecuteSync` | runtime/execution/manager.py:161-295 | unknown, fenced, already started and normal executions: context, worker, log and result in each case; the normal path returns no context |
| `ExecutionManagers.ExecutionManager.FenceExecution` | runtime/execution/manager.py:174-224 | context failed with AUTHORIZATION_DENIED, worker failed, and exactly one ACTION_FAILED event appended |
| `ExecutionManagers.ExecutionManager.LogOutcome` | runtime/execution/manager.py:247-295 | the record found by id or else the task's last one is saved with the outcome, then the outcome event is appended |
| `ExecutionManagers.ExecutionManager.GetExecution` | runtime/execution/manager.py:297-332 | a held context is returned as it is; otherwise a new one with the status of the log is built and held, or None when the log does not know the execution; the log is not written |
| `ExecutionProtocol.FinalStatusSurvives` | runtime/execution/manager.py:112-332 | after any run of submissions, executions, startups and other writers and a crash between any two operations, a restarted manager answers the saved outcome whichever status it is, and FAILED for anything recorded and unfinished or fenced |
| `TornExecutions.CrashInsideLine` | runtime/execution/manager.py:112-295 | a crash after any number of characters of any line a submission, execution or other writer writes: a restarted manager answers as if the line had not been begun, or as if it had been written once only its `'\n'` is missing |
| `TornExecutions.GluedLineIsLost` | runtime/continuity/engine.py:120-136 | after such a crash, a load, one more line on that file and another load, a restarted manager answers as if neither line had been written, and memory and files are in step again |
| `ExecutionProtocol.StartsAreFenced` | runtime/execution/manager.py:174-226 | in every run each execution is started at most once, and only in the startup era it was submitted in |
| `ExecutionProtocol.ExecuteIsFenced` | runtime/execution/manager.py:174-226 | executing what was submitted before a later startup starts nothing, appends one ACTION_FAILED event and leaves context and worker failed; executing what was submitted since then starts it |
| `ExecutionProtocol.FencedForGood` | runtime/execution/manager.py:174-224 | no later move starts a fenced execution or changes its failed context, and after any later crash and load a new manager answers FAILED |
| `ExecutionProtocol.FinishedAnswerExactly` | runtime/execution/manager.py:174-224 | a finished execution, however it ended, keeps its answer through every later run and crash if and only if it is not executed again after a later startup, or had failed anyway |
| `ExecutionProtocol.FinishedIsOverturned` | runtime/execution/manager.py:174-224 | a startup and one more execution turn the answer of any finished execution that is still held, even SUCCEEDED, into FAILED |
| `SubmissionAuth.NoFragment` | runtime/browser/broker_server.py:277-279 | the longest prefix of a URL without a `#` that ends at the end or before a `#` |
| `AuthorizationSpending.SpentAtMostOnce` | runtime/browser/broker_server.py:247-307 | when requests are handled one at a time, no two requests pass on the same authorization |
| `AuthorizationSpending.ArmedAtMostOnce` | runtime/browser/broker_server.py:247-307 | in every run of any number of clients and handlers an authorization is armed at most once and only as issued; a request other than GET, HEAD and OPTIONS passes only on an armed authorization of its method, URL up to the fragment, and frame |
| `AuthorizationSpending.SpentTwiceExactly` | runtime/browser/broker_server.py:263-284 | in every such run two requests pass on one authorization if and only if at some point two undecided readings had seen it, both matching it, and both were decided later |
| `AuthorizationSpending.PairCanSpendTwice` | runtime/browser/broker_server.py:263-284 | from every state with two such readings the two decisions spend the authorization twice |
| `AuthorizationSpending.TwoHandlersSpendTwice` | runtime/browser/broker_server.py:263-284 | from a fresh broker: an authorization is issued, consumed and armed, two handlers look before either decides, and two requests pass on it |
| `AuthorizationSessions.ArmedInOwnSessionExactly` | runtime/browser/broker_server.py:672-740 | in every interleaved run with fresh session ids, whenever a client arms, it arms what its last lookup granted, for the target it asked for and before it expired; and the session then is the authorization's own if and only if no session has begun or ended between that lookup and the arming |
| `AuthorizationSessions.ArmsAcrossSessions` | runtime/browser/broker_server.py:377-380 | from a fresh broker: a client about to arm when the browser is started anew and everything is cleared arms all the same, and a request passes in the new session on an authorization of the old one |
| `SubmissionAuth.BrowserBroker.IssueAuth` | runtime/browser/broker_server.py:541-661 | issues exactly when the browser runs, the target and the session are the present ones and the page gives a form |
| `SubmissionAuth.BrowserBroker.Submit` | runtime/browser/broker_server.py:663-755 | each refusal in its order with nothing changed; otherwise the authorization is consumed, and armed when target and page allow it |
| `SubmissionAuth.BrowserBroker.HandleRequestPaused` | runtime/browser/broker_server.py:247-307 | the verdict on one request, and the pending submission cleared exactly when the request passes on it |
| `CdpCorrelation.AnswersReachTheirCallers` | runtime/browser/broker_server.py:211-344 | under any interleaving of senders, listeners, timeouts and reconnections no id is allotted twice, each returned response answers the caller's own send, none is returned twice, and those to asynchronous sends and to callers that gave up go to nobody |
| `CdpCorrelation.CdpChannel.SendRequest` | runtime/browser/broker_server.py:315-329 | every request takes the next id, even one whose send fails, which closes the connection |
| `CdpCorrelation.CdpChannel.SendAsync` | runtime/browser/broker_server.py:237-245 | an id is taken exactly when there is a connection |
| `CdpCorrelation.CdpChannel.Listen` | runtime/browser/broker_server.py:211-232 | the loop files every reply up to the first broken message, the last one for each id |
| `CdpCorrelation.CdpChannel.Poll` | runtime/browser/broker_server.py:331-341 | a response that is there is taken and removed, even after the connection closed; otherwise nothing changes |
| `Stores.ReloadIsIdentity` | runtime/continuity/engine.py:47-118 | by definition: a reload changes nothing but the quarantine file, which grows by exactly the quarantine list, if and only if memory was in step with the files |
| `Reconciliation.OneGapPerRecord` | runtime/continuity/reconciler.py:29-97 | by definition: outside mission 002 a record has one gap exactly when it asks for reconciliation, else none, and only its status may change; the implementation state never does |
| `ExecutionManagers.WorkEnds` | runtime/execution/worker.py:109-268 | by definition: however a started execution goes, it ends SUCCEEDED, FAILED, TIMED_OUT or LIMIT_EXCEEDED with the reason that goes with it |
| `CrashClassification.StepsMakeCalls` | runtime/continuity/mutation.py:45-195 | link: the steps of the protocol, taken without a pause, write what the two calls write |
| `ExecutionProtocol.SubmitIsMoves` | runtime/execution/manager.py:112-157 | link: the steps of a submission write what the method writes |
| `ExecutionProtocol.ExecuteIsMoves` | runtime/execution/manager.py:226-295 | link: the steps of an unfenced execution write what the method writes |
| `SubmissionAuth.SubmitIsMoves` | runtime/browser/broker_server.py:668-755 | link: a submission's steps, taken alone, do what the method does |
| `SubmissionAuth.HandleIsMoves` | runtime/browser/broker_server.py:247-307 | link: looking and deciding without a pause do what the handler does |
| `CdpCorrelation.RequestIsMove` | runtime/browser/broker_server.py:309-329 | link: a request changes the channel as the method does, and its sender waits under the id it was given for the send it has made |
| `CdpCorrelation.PollIsMove` | runtime/browser/broker_server.py:331-344 | link: a round of waiting takes and returns the response that is there, or leaves the channel alone |
| `CdpCorrelation.ListenIsMoves` | runtime/browser/broker_server.py:211-232 | link: filing one by one what the browser has sent leaves the responses the listener loop leaves |

## Left out

- JSON text, UTF-8 decoding errors and universal newlines; fields that no modelled code reads or writes are folded into `rest`, and times and random ids are inputs or dropped.
- Aliasing: records and events are values, so the same object appended twice, or a record changed in memory and never saved, is not covered.
- The wording of gap reasons and log messages is shortened, and the executor labels and error messages that executions put into event inputs are dropped.
- Two engines over the same files at once, and the locks inside one engine: its methods are taken as atomic.
- `InterleavedConservation.StepsConserve`: the order of the lists is stated only while no two finalizes of one step are between save and event at once; `BagsConserve` drops the order and the assumption.
- `CrashClassification.CrashIsClassified`: one call for each step in the process that crashes; calls that follow a whole one are in `PreparedCrashIsNoticedExactly`.
- `ExecutionProtocol.FinalStatusSurvives`: one call at a time for each execution, fresh execution, record and task ids, and generations that grow from startup to startup (`Generations.IncreasingExactly` says when they do); task ids used twice are in `SharedTaskId`.
- Managers without a continuity engine or a runtime engine, and the git call, capability registry, selector, workspace manager, evidence copying and telemetry: their answers are inputs or dropped.
- The memory a second startup loads in the same process: the manager keeps its engine, and one writer at a time is assumed.
- Worker cancellation and the executors outside the deterministic one, whose answers are inputs.
- Page scripts, frame discovery, URL and profile validation, process control and the wire format of the broker; nothing shows who enables request interception, so paused requests simply arrive.
- `AuthorizationSpending.ArmedAtMostOnce`: request methods are taken in upper case, and nothing is said about expiry after a submission is armed, because the handler does not look at it.
- The admin, compute, bootstrap, event bus and account modules: small maps, flags and network plumbing.
