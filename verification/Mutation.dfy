/**
 The two-phase repository mutation: prepare saves the step's record and logs a PREPARED
 event, finalize saves it again and logs a FINALIZED and a MUTATED event. What a call
 writes is a sequence of durable operations, so that a crash can fall between any two.
 */
module Mutation {
  import opened Models
  import opened Selections
  import opened Stores
  import opened ContinuityEngines
  import opened Reconstruction

  datatype Prepare = Prepare(
    missionId: string, taskId: string, stepId: string,
    repository: string, branch: string, commitBefore: string,
    reason: string, action: string, nextAction: string,
    executionId: Option<string>,
    eventId: string)

  datatype Finalize = Finalize(
    commitAfter: string, filesChanged: seq<string>, tests: seq<string>, evidenceRefs: seq<string>,
    finalizedId: string, mutatedId: string)

  function OfStep(stepId: string): Record -> bool {
    (r: Record) => r.stepId == stepId
  }

  function RecordsOfStep(records: seq<Record>, stepId: string): (found: seq<Record>)
    ensures forall r :: r in found <==> r in records && r.stepId == stepId
  {
    Selected(records, OfStep(stepId))
  }

  /** The record a call works on: the last in dictionary order of this mission and step. */
  function StepRecord(records: seq<Record>, missionId: string, stepId: string): (r: Option<Record>)
    ensures r.Some? ==> r.value in records && r.value.missionId == missionId && r.value.stepId == stepId
    ensures r.None? ==> forall q :: q in records ==> !(q.missionId == missionId && q.stepId == stepId)
  {
    var found := RecordsOfStep(RecordsOfMission(records, missionId), stepId);
    assert found != [] ==> found[|found| - 1] in found;
    assert found == [] ==> forall q :: q in records && q.missionId == missionId && q.stepId == stepId ==> q in found;
    Last(found)
  }

  function OfMissionStep(missionId: string, stepId: string): Record -> bool {
    (r: Record) => r.missionId == missionId && r.stepId == stepId
  }

  lemma StepSelected(records: seq<Record>, missionId: string, stepId: string)
    ensures StepRecord(records, missionId, stepId) == Last(Selected(records, OfMissionStep(missionId, stepId)))
  {
    SelectedTwice(records, OfMission(missionId), OfStep(stepId), OfMissionStep(missionId, stepId));
  }

  /** The record a call works on is the last in dictionary order of this mission and step, and there is one exactly when some record is of them. */
  lemma StepRecordIsLast(records: seq<Record>, missionId: string, stepId: string) returns (k: nat)
    ensures StepRecord(records, missionId, stepId).None? <==>
      forall j :: 0 <= j < |records| ==> !(records[j].missionId == missionId && records[j].stepId == stepId)
    ensures StepRecord(records, missionId, stepId).Some? ==>
      && k < |records| && StepRecord(records, missionId, stepId) == Some(records[k])
      && records[k].missionId == missionId && records[k].stepId == stepId
      && forall j :: k < j < |records| ==> !(records[j].missionId == missionId && records[j].stepId == stepId)
  {
    k := 0;
    StepSelected(records, missionId, stepId);
    var both := OfMissionStep(missionId, stepId);
    if Selected(records, both) != [] {
      k := SelectedHasLast(records, both);
    }
    assert forall j :: 0 <= j < |records| ==> records[j] in records;
  }

  function PreparedRecord(r: Record, p: Prepare): Record {
    r.(repository := Some(p.repository),
       branch := Some(p.branch),
       commitBefore := Some(p.commitBefore),
       reason := p.reason,
       nextAction := Some(p.nextAction),
       executionId := if Truthy(p.executionId) then p.executionId else r.executionId,
       implementationState := Active)
  }

  function PreparedEvent(r: Record, p: Prepare): Event {
    Event(
      p.eventId, 0, p.missionId, p.taskId, p.stepId, None, MutationPrepared, p.repository, p.action,
      Dict(if Truthy(p.executionId)
           then map["branch" := Text(p.branch), "execution_id" := Text(p.executionId.value)]
           else map["branch" := Text(p.branch)]),
      Some(p.repository), Some(p.branch), Some(p.commitBefore), None,
      [], [], Active, Active, r.verificationState, r.certificationState, Some(p.nextAction), p.executionId, "")
  }

  function FinalizedRecord(r: Record, f: Finalize): Record {
    r.(commitAfter := Some(f.commitAfter),
       filesChanged := r.filesChanged + f.filesChanged,
       tests := r.tests + f.tests,
       evidenceRefs := r.evidenceRefs + f.evidenceRefs,
       implementationState := Complete)
  }

  /** The FINALIZED and the MUTATED event differ in id, parent and type only. */
  function OutcomeEvent(r: Record, prepared: Event, f: Finalize, id: string, parent: string, eventType: EventType): Event {
    Event(
      id, 0, prepared.missionId, prepared.taskId, prepared.stepId, Some(parent), eventType, prepared.target, prepared.intent,
      prepared.inputs, prepared.repository, prepared.branch, prepared.commitBefore, Some(f.commitAfter),
      f.filesChanged, f.evidenceRefs, Complete, Complete, r.verificationState, r.certificationState,
      prepared.nextAction, prepared.executionId, "")
  }

  function FinalizedEvent(r: Record, prepared: Event, f: Finalize): Event {
    OutcomeEvent(r, prepared, f, f.finalizedId, prepared.eventId, MutationFinalized)
  }

  function MutatedEvent(r: Record, prepared: Event, f: Finalize): Event {
    OutcomeEvent(r, prepared, f, f.mutatedId, f.finalizedId, RepositoryMutated)
  }

  /** What a prepare writes; it fails, and writes nothing, when the step has no record. */
  function PrepareOps(m: Memory, p: Prepare): Result<seq<Op>> {
    match StepRecord(m.records, p.missionId, p.stepId)
    case None => Err
    case Some(r) =>
      var q := PreparedRecord(r, p);
      Ok([Save(q), Append(PreparedEvent(q, p))])
  }

  function FinalizeOps(m: Memory, prepared: Event, f: Finalize): Result<seq<Op>> {
    match StepRecord(m.records, prepared.missionId, prepared.stepId)
    case None => Err
    case Some(r) =>
      var q := FinalizedRecord(r, f);
      Ok([Save(q), Append(FinalizedEvent(q, prepared, f)), Append(MutatedEvent(q, prepared, f))])
  }

  class RepositoryMutationContract {
    const engine: ContinuityEngine

    constructor (engine: ContinuityEngine)
      ensures this.engine == engine
    {
      this.engine := engine;
    }

    method FindRecord(missionId: string, stepId: string) returns (record: Option<Record>)
      ensures record == StepRecord(engine.View().memory.records, missionId, stepId)
    {
      var found := engine.GetRecordsByMission(missionId);
      record := Last(RecordsOfStep(found, stepId));
    }

    method PrepareMutation(p: Prepare) returns (result: Result<Event>)
      modifies engine, engine.files
      ensures match PrepareOps(old(engine.View().memory), p)
        case Err => result.Err? && engine.View() == old(engine.View())
        case Ok(ops) =>
          && engine.View() == Run(engine.codecs, old(engine.View()), ops)
          && result == Ok(Numbered(old(engine.View()), ops[1].e))
    {
      var found := FindRecord(p.missionId, p.stepId);
      if found == None {
        return Err;
      }
      var record := found.value;
      record := record.(repository := Some(p.repository), branch := Some(p.branch), commitBefore := Some(p.commitBefore));
      record := record.(reason := p.reason, nextAction := Some(p.nextAction));
      if Truthy(p.executionId) {
        record := record.(executionId := p.executionId);
      }
      record := record.(implementationState := Active);
      assert record == PreparedRecord(found.value, p);
      result := SaveThenAppend(record, PreparedEvent(record, p));
    }

    method SaveThenAppend(record: Record, event: Event) returns (result: Result<Event>)
      modifies engine, engine.files
      ensures engine.View() == Run(engine.codecs, old(engine.View()), [Save(record), Append(event)])
      ensures result == Ok(Numbered(old(engine.View()), event))
    {
      RunPair(engine.codecs, engine.View(), Save(record), Append(event));
      engine.SaveRecord(record);
      var numbered := engine.AppendEvent(event);
      result := Ok(numbered);
    }

    method FinalizeMutation(prepared: Event, f: Finalize) returns (result: Result<Event>)
      modifies engine, engine.files
      ensures match FinalizeOps(old(engine.View().memory), prepared, f)
        case Err => result.Err? && engine.View() == old(engine.View())
        case Ok(ops) =>
          && engine.View() == Run(engine.codecs, old(engine.View()), ops)
          && result == Ok(Numbered(old(engine.View()), ops[1].e))
    {
      var found := FindRecord(prepared.missionId, prepared.stepId);
      if found == None {
        return Err;
      }
      ghost var s := engine.View();
      var record := found.value;
      record := record.(commitAfter := Some(f.commitAfter), filesChanged := record.filesChanged + f.filesChanged);
      record := record.(tests := record.tests + f.tests, evidenceRefs := record.evidenceRefs + f.evidenceRefs);
      record := record.(implementationState := Complete);
      assert record == FinalizedRecord(found.value, f);
      var event, compat := FinalizedEvent(record, prepared, f), MutatedEvent(record, prepared, f);
      result := SaveThenAppend(record, event);
      var numbered := engine.AppendEvent(compat);
      RunSnoc(engine.codecs, s, [Save(record), Append(event)], Append(compat));
      assert [Save(record), Append(event)] + [Append(compat)] == [Save(record), Append(event), Append(compat)];
    }
  }
}
