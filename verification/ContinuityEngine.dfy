/**
 The continuity engine as the program has it: an object over two append-only files. Each
 method is proved against the value-level functions of `Stores`, which say what the new
 state is; `MemoryEqualsReplay` and the other results there are about those functions.
 */
module ContinuityEngines {
  import opened Models
  import opened LineFiles
  import opened Codecs
  import opened Replay
  import opened Selections
  import Stores
  import opened Reconstruction

  /** The engine's directory; it outlives any engine, and several engines may be made over it. */
  class LogFiles {
    var recordText: string
    var eventText: string
    var quarantineFile: seq<QuarantineEntry>

    ghost function View(): Stores.Disk
      reads this
    {
      Stores.Disk(recordText, eventText, quarantineFile)
    }

    constructor ()
      ensures View() == Stores.Disk("", "", [])
    {
      recordText, eventText, quarantineFile := "", "", [];
    }
  }

  function OfMission(missionId: string): Record -> bool {
    (r: Record) => r.missionId == missionId
  }

  function OfTask(taskId: string): Record -> bool {
    (r: Record) => r.taskId == taskId
  }

  function RecordsOfMission(records: seq<Record>, missionId: string): (found: seq<Record>)
    ensures forall r :: r in found <==> r in records && r.missionId == missionId
  {
    Selected(records, OfMission(missionId))
  }

  function RecordsOfTask(records: seq<Record>, taskId: string): (found: seq<Record>)
    ensures forall r :: r in found <==> r in records && r.taskId == taskId
  {
    Selected(records, OfTask(taskId))
  }

  class ContinuityEngine {
    const codecs: Stores.LogCodecs
    const files: LogFiles
    var records: seq<Record>
    var events: seq<Event>
    var eventSequence: int
    var quarantined: seq<QuarantineEntry>
    var corruption: Corruption

    ghost function View(): Stores.Store
      reads this, files
    {
      Stores.Store(files.View(), Stores.Memory(records, events, eventSequence, quarantined, corruption))
    }

    constructor (codecs: Stores.LogCodecs, files: LogFiles)
      modifies files
      ensures this.codecs == codecs && this.files == files
      ensures View() == Stores.Load(codecs, old(files.View()))
    {
      this.codecs := codecs;
      this.files := files;
      new;
      Load();
    }

    /** Scans the record lines: dictionary assignment for each that decodes, quarantine for each that does not. */
    method LoadRecords()
      requires records == [] && quarantined == [] && corruption == Clean
      modifies this`records, this`quarantined, this`corruption, files`quarantineFile
      ensures ScanState(records, [], 0, quarantined, corruption) == ScanRecords(codecs.record, Lines(files.recordText))
      ensures files.quarantineFile == old(files.quarantineFile) + quarantined
    {
      var lines := Lines(files.recordText);
      for i := 0 to |lines|
        invariant ScanState(records, [], 0, quarantined, corruption) == ScanRecords(codecs.record, lines[..i])
        invariant files.quarantineFile == old(files.quarantineFile) + quarantined
      {
        assert lines[..i + 1][..i] == lines[..i];
        match Read(codecs.record, lines[i])
        case Blank =>
        case Good(record) =>
          records := Upsert(records, record);
        case Bad(raw) =>
          var entry := QuarantineEntry(RecordsFile, i + 1, raw);
          quarantined := quarantined + [entry];
          corruption := Quarantined;
          files.quarantineFile := files.quarantineFile + [entry];
      }
      assert lines[..|lines|] == lines;
    }

    /** Scans the event lines: repairs numbers that do not increase, quarantines what does not decode. */
    method LoadEvents()
      requires events == [] && eventSequence == 0
      modifies this`events, this`eventSequence, this`quarantined, this`corruption, files`quarantineFile
      ensures ScanState([], events, eventSequence, quarantined, corruption)
           == ScanEvents(codecs.event, old(quarantined), old(corruption), Lines(files.eventText))
      ensures old(quarantined) <= quarantined
      ensures files.quarantineFile == old(files.quarantineFile) + quarantined[|old(quarantined)|..]
    {
      var lines := Lines(files.eventText);
      for i := 0 to |lines|
        invariant ScanState([], events, eventSequence, quarantined, corruption)
               == ScanEvents(codecs.event, old(quarantined), old(corruption), lines[..i])
        invariant old(quarantined) <= quarantined
        invariant files.quarantineFile == old(files.quarantineFile) + quarantined[|old(quarantined)|..]
      {
        assert lines[..i + 1][..i] == lines[..i];
        match Read(codecs.event, lines[i])
        case Blank =>
        case Good(event) =>
          if event.sequence <= eventSequence {
            corruption := Recovered;
            event := event.(sequence := eventSequence + 1);
          }
          events := events + [event];
          if event.sequence > eventSequence {
            eventSequence := event.sequence;
          }
        case Bad(raw) =>
          var entry := QuarantineEntry(EventsFile, i + 1, raw);
          quarantined := quarantined + [entry];
          corruption := Quarantined;
          files.quarantineFile := files.quarantineFile + [entry];
      }
      assert lines[..|lines|] == lines;
    }

    method Load()
      modifies this, files`quarantineFile
      ensures View() == Stores.Load(codecs, old(files.View()))
    {
      records := [];
      events := [];
      eventSequence := 0;
      quarantined := [];
      corruption := Clean;
      LoadRecords();
      ghost var first := ScanState(records, [], 0, quarantined, corruption);
      LoadEvents();
      ghost var second := ScanState([], events, eventSequence, quarantined, corruption);
      Stores.LoadFromScans(codecs, old(files.View()), first, second);
    }

    method SaveRecord(record: Record)
      modifies this`records, files`recordText
      ensures View() == Stores.SaveRecord(codecs, old(View()), record)
    {
      records := Upsert(records, record);
      files.recordText := files.recordText + (codecs.record.encode(record) + "\n");
    }

    /** Returns the event with the number it was given. */
    method AppendEvent(event: Event) returns (numbered: Event)
      modifies this`events, this`eventSequence, files`eventText
      ensures numbered == Stores.Numbered(old(View()), event)
      ensures View() == Stores.AppendEvent(codecs, old(View()), event)
    {
      numbered := event.(sequence := eventSequence + 1);
      eventSequence := numbered.sequence;
      events := events + [numbered];
      files.eventText := files.eventText + (codecs.event.encode(numbered) + "\n");
    }

    method GetRecord(continuityId: string) returns (record: Option<Record>)
      ensures record.Some? ==>
        Position(records, continuityId) < |records| && record.value == records[Position(records, continuityId)]
      ensures record.Some? ==> record.value in records && record.value.continuityId == continuityId
      ensures record.None? ==> forall r :: r in records ==> r.continuityId != continuityId
    {
      var i := Position(records, continuityId);
      PositionIsFirst(records, continuityId);
      record := if i < |records| then Some(records[i]) else None;
    }

    method GetRecordsByMission(missionId: string) returns (found: seq<Record>)
      ensures found == RecordsOfMission(records, missionId)
    {
      found := RecordsOfMission(records, missionId);
    }

    method GetRecordsByTask(taskId: string) returns (found: seq<Record>)
      ensures found == RecordsOfTask(records, taskId)
    {
      found := RecordsOfTask(records, taskId);
    }

    method RelevantRecords(executionId: string) returns (relevant: seq<Record>)
      ensures relevant == RecordsFor(records, executionId)
    {
      relevant := [];
      for i := 0 to |records|
        invariant relevant == RecordsFor(records[..i], executionId)
      {
        assert records[..i + 1] == records[..i] + [records[i]];
        RecordsForSnoc(records[..i], records[i], executionId);
        if RecordConcerns(records[i], executionId) {
          relevant := relevant + [records[i]];
        }
      }
      assert records[..|records|] == records;
    }

    method RelevantEvents(executionId: string) returns (relevant: seq<Event>)
      ensures relevant == EventsFor(events, executionId)
    {
      relevant := [];
      for i := 0 to |events|
        invariant relevant == EventsFor(events[..i], executionId)
      {
        assert events[..i + 1] == events[..i] + [events[i]];
        EventsForSnoc(events[..i], events[i], executionId);
        if EventConcerns(events[i], executionId) {
          relevant := relevant + [events[i]];
        }
      }
      assert events[..|events|] == events;
    }

    /**
     Nothing exactly when nothing in the log concerns the execution; otherwise, when memory
     is in step with the files, type, number and a conclusive status come from the last
     event that concerns it, and the lists from the last record that does.
     */
    method ReconstructExecution(executionId: string) returns (rebuilt: Option<Rebuilt>)
      ensures rebuilt == Reconstruct(View().memory, executionId)
      ensures rebuilt.None? <==>
        && (forall r :: r in records ==> !RecordConcerns(r, executionId))
        && (forall e :: e in events ==> !EventConcerns(e, executionId))
      ensures Stores.InStep(codecs, View()) ==>
        forall k :: LatestEvent(events, executionId, k) ==>
          && rebuilt.Some?
          && rebuilt.value.latestEventType == Some(events[k].eventType) && rebuilt.value.latestSequence == events[k].sequence
          && (Conclusive(events[k].status) ==> rebuilt.value.status == events[k].status)
      ensures forall k :: LatestRecord(records, executionId, k) ==>
        && rebuilt.Some?
        && rebuilt.value.evidenceRefs == records[k].evidenceRefs && rebuilt.value.filesChanged == records[k].filesChanged
    {
      var relevantRecords := RelevantRecords(executionId);
      var relevantEvents := RelevantEvents(executionId);
      LatestRecordIs(records, executionId);
      LatestEventIs(events, executionId);
      if Stores.InStep(codecs, View()) {
        ReconstructSurvivesReload(codecs, View(), executionId);
      }
      if relevantRecords == [] && relevantEvents == [] {
        return None;
      }
      var latestRecord := Last(relevantRecords);
      var sortedEvents := SortBySequence(relevantEvents);
      SortKeepsLength(relevantEvents);
      var lastEvent := Last(sortedEvents);
      rebuilt := Some(RebuildFrom(executionId, latestRecord, lastEvent, |sortedEvents|));
    }
  }
}
