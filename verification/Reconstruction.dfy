/** Rebuilding what is known of one execution from the records and events of the log. */
module Reconstruction {
  import opened Models
  import opened LineFiles
  import opened Replay
  import opened Selections
  import opened Stores

  predicate RecordConcerns(r: Record, id: string) {
    r.executionId == Some(id) || r.taskId == id || r.continuityId == id
  }

  predicate EventConcerns(e: Event, id: string) {
    e.executionId == Some(id) || e.taskId == id || InputOf(e, "execution_id") == Text(id)
  }

  function RecordsFor(records: seq<Record>, id: string): seq<Record> {
    if records == [] then []
    else (if RecordConcerns(records[0], id) then [records[0]] else []) + RecordsFor(records[1..], id)
  }

  function EventsFor(events: seq<Event>, id: string): seq<Event> {
    if events == [] then []
    else (if EventConcerns(events[0], id) then [events[0]] else []) + EventsFor(events[1..], id)
  }

  /** Stable insertion by sequence number: behind every event numbered no higher. */
  function Insert(e: Event, sorted: seq<Event>): seq<Event> {
    if sorted == [] || sorted[|sorted| - 1].sequence <= e.sequence then sorted + [e]
    else Insert(e, sorted[..|sorted| - 1]) + [sorted[|sorted| - 1]]
  }

  function SortBySequence(es: seq<Event>): seq<Event> {
    if es == [] then [] else Insert(es[|es| - 1], SortBySequence(es[..|es| - 1]))
  }

  predicate Conclusive(status: Status) {
    status.Complete? || status.Success? || status.Failed? || status.Verified? || status.Succeeded? || status.TimedOut?
  }

  function Last<T>(xs: seq<T>): Option<T> {
    if xs == [] then None else Some(xs[|xs| - 1])
  }

  datatype Rebuilt = Rebuilt(
    executionId: string,
    taskId: string,
    capabilityId: string,
    status: Status,
    eventsCount: nat,
    latestEventType: Option<EventType>,
    latestSequence: int,
    evidenceRefs: seq<string>,
    filesChanged: seq<string>,
    commitBefore: Option<string>,
    commitAfter: Option<string>,
    routingClass: Value,
    generation: Value,
    failureReason: Value,
    errorMessage: Value)

  function StatusOf(record: Option<Record>, event: Option<Event>): Status {
    if event.Some? && Conclusive(event.value.status) then event.value.status
    else if record.Some? then record.value.status
    else if event.Some? then event.value.status
    else OtherStatus("UNKNOWN")
  }

  function RebuildFrom(id: string, record: Option<Record>, event: Option<Event>, count: nat): Rebuilt
    requires record.Some? || event.Some?
  {
    var detail := (key: string) => if event.Some? then InputOf(event.value, key) else Null;
    Rebuilt(
      id,
      if record.Some? then record.value.taskId else event.value.taskId,
      if record.Some? then record.value.stepId else event.value.stepId,
      StatusOf(record, event),
      count,
      if event.Some? then Some(event.value.eventType) else None,
      if event.Some? then event.value.sequence else 0,
      if record.Some? then record.value.evidenceRefs else event.value.evidenceRefs,
      if record.Some? then record.value.filesChanged else event.value.filesChanged,
      if record.Some? then record.value.commitBefore else event.value.commitBefore,
      if record.Some? then record.value.commitAfter else event.value.commitAfter,
      detail("routing_class"),
      detail("generation"),
      detail("failure_reason"),
      detail("error_message"))
  }

  function Reconstruct(m: Memory, id: string): Option<Rebuilt> {
    var records, events := RecordsFor(m.records, id), EventsFor(m.events, id);
    if records == [] && events == [] then None
    else
      var sorted := SortBySequence(events);
      SortKeepsLength(events);
      Some(RebuildFrom(id, Last(records), Last(sorted), |sorted|))
  }

  lemma {:induction false} InsertGrows(e: Event, sorted: seq<Event>)
    ensures |Insert(e, sorted)| == |sorted| + 1
  {
    if sorted != [] && sorted[|sorted| - 1].sequence > e.sequence {
      InsertGrows(e, sorted[..|sorted| - 1]);
    }
  }

  lemma {:induction false} SortKeepsLength(es: seq<Event>)
    ensures |SortBySequence(es)| == |es|
  {
    if es != [] {
      SortKeepsLength(es[..|es| - 1]);
      InsertGrows(es[|es| - 1], SortBySequence(es[..|es| - 1]));
    }
  }

  // ---- The sort is a stable sort ----

  ghost predicate NonDecreasing(es: seq<Event>) {
    forall i, j :: 0 <= i < j < |es| ==> es[i].sequence <= es[j].sequence
  }

  function OfNumber(n: int): Event -> bool {
    (e: Event) => e.sequence == n
  }

  lemma {:induction false} InsertSorts(e: Event, sorted: seq<Event>)
    requires NonDecreasing(sorted)
    ensures NonDecreasing(Insert(e, sorted))
    ensures forall x :: x in Insert(e, sorted) ==> x == e || x in sorted
    decreases sorted
  {
    if sorted != [] && sorted[|sorted| - 1].sequence > e.sequence {
      var front, last := sorted[..|sorted| - 1], sorted[|sorted| - 1];
      InsertSorts(e, front);
      forall x | x in Insert(e, front) ensures x.sequence <= last.sequence {}
    }
  }

  lemma SwapLast(front: seq<Event>, last: Event, e: Event, n: int)
    requires last.sequence != e.sequence
    ensures Selected(front + [e] + [last], OfNumber(n)) == Selected(front + [last] + [e], OfNumber(n))
  {
    SelectedSnoc(front + [e], last, OfNumber(n));
    SelectedSnoc(front, e, OfNumber(n));
    SelectedSnoc(front + [last], e, OfNumber(n));
    SelectedSnoc(front, last, OfNumber(n));
  }

  lemma {:induction false} InsertIsStable(e: Event, sorted: seq<Event>, n: int)
    ensures Selected(Insert(e, sorted), OfNumber(n)) == Selected(sorted + [e], OfNumber(n))
    decreases sorted
  {
    if sorted != [] && sorted[|sorted| - 1].sequence > e.sequence {
      var front, last := sorted[..|sorted| - 1], sorted[|sorted| - 1];
      assert sorted == front + [last];
      InsertIsStable(e, front, n);
      SelectedSnoc(Insert(e, front), last, OfNumber(n));
      SelectedSnoc(front + [e], last, OfNumber(n));
      SwapLast(front, last, e, n);
    }
  }

  /** The sorted events do not decrease, and those of any one number are the given ones, in the given order. */
  lemma {:induction false} SortIsStable(es: seq<Event>, n: int)
    ensures NonDecreasing(SortBySequence(es))
    ensures Selected(SortBySequence(es), OfNumber(n)) == Selected(es, OfNumber(n))
  {
    if es != [] {
      var front, e := es[..|es| - 1], es[|es| - 1];
      assert es == front + [e];
      SortIsStable(front, n);
      InsertSorts(e, SortBySequence(front));
      InsertIsStable(e, SortBySequence(front), n);
      SelectedSnoc(SortBySequence(front), e, OfNumber(n));
      SelectedSnoc(front, e, OfNumber(n));
    }
  }

  // ---- The entries it reads are the latest ones ----

  /** On events whose numbers increase the sort does nothing. */
  lemma {:induction false} SortedAlready(es: seq<Event>)
    requires forall i, j :: 0 <= i < j < |es| ==> es[i].sequence < es[j].sequence
    ensures SortBySequence(es) == es
  {
    if es != [] {
      SortedAlready(es[..|es| - 1]);
    }
  }

  lemma {:induction false} EventsForIncreasing(events: seq<Event>, id: string, floor: int)
    requires Increasing(floor, events)
    ensures Increasing(floor, EventsFor(events, id))
  {
    if events != [] {
      assert events == [events[0]] + events[1..];
      IncreasingCons(floor, events[0], events[1..]);
      EventsForIncreasing(events[1..], id, events[0].sequence);
      var rest := EventsFor(events[1..], id);
      IncreasingCons(floor, events[0], rest);
      IncreasingFloor(floor, events[0].sequence, rest);
      assert [] + rest == rest;
    }
  }

  lemma IncreasingFloor(floor: int, higher: int, es: seq<Event>)
    requires floor <= higher && Increasing(higher, es)
    ensures Increasing(floor, es)
  {
  }

  lemma {:induction false} EventsForConcat(a: seq<Event>, b: seq<Event>, id: string)
    ensures EventsFor(a + b, id) == EventsFor(a, id) + EventsFor(b, id)
  {
    if a == [] {
      assert a + b == b;
    } else {
      assert (a + b)[1..] == a[1..] + b;
      EventsForConcat(a[1..], b, id);
      Assoc(if EventConcerns(a[0], id) then [a[0]] else [], EventsFor(a[1..], id), EventsFor(b, id));
    }
  }

  lemma {:induction false} RecordsForConcat(a: seq<Record>, b: seq<Record>, id: string)
    ensures RecordsFor(a + b, id) == RecordsFor(a, id) + RecordsFor(b, id)
  {
    if a == [] {
      assert a + b == b;
    } else {
      assert (a + b)[1..] == a[1..] + b;
      RecordsForConcat(a[1..], b, id);
      Assoc(if RecordConcerns(a[0], id) then [a[0]] else [], RecordsFor(a[1..], id), RecordsFor(b, id));
    }
  }

  lemma EventsForSnoc(events: seq<Event>, e: Event, id: string)
    ensures EventsFor(events + [e], id) == EventsFor(events, id) + (if EventConcerns(e, id) then [e] else [])
  {
    EventsForConcat(events, [e], id);
    assert [e][1..] == [];
  }

  lemma RecordsForSnoc(records: seq<Record>, r: Record, id: string)
    ensures RecordsFor(records + [r], id) == RecordsFor(records, id) + (if RecordConcerns(r, id) then [r] else [])
  {
    RecordsForConcat(records, [r], id);
    assert [r][1..] == [];
  }

  /** The last event that concerns the id, by place in the log. */
  ghost predicate LatestEvent(events: seq<Event>, id: string, k: int) {
    0 <= k < |events| && EventConcerns(events[k], id)
    && forall j :: k < j < |events| ==> !EventConcerns(events[j], id)
  }

  ghost predicate LatestRecord(records: seq<Record>, id: string, k: int) {
    0 <= k < |records| && RecordConcerns(records[k], id)
    && forall j :: k < j < |records| ==> !RecordConcerns(records[j], id)
  }

  lemma {:induction false} LastEventFor(events: seq<Event>, id: string)
    ensures EventsFor(events, id) == [] ==> forall j :: 0 <= j < |events| ==> !EventConcerns(events[j], id)
    ensures EventsFor(events, id) != [] ==>
      exists k :: LatestEvent(events, id, k) && Last(EventsFor(events, id)) == Some(events[k])
    decreases events
  {
    if events != [] {
      var last := |events| - 1;
      var front := events[..last];
      assert front + [events[last]] == events;
      EventsForSnoc(front, events[last], id);
      LastEventFor(front, id);
      if EventConcerns(events[last], id) {
        assert LatestEvent(events, id, last);
      } else if EventsFor(front, id) != [] {
        var k :| LatestEvent(front, id, k) && Last(EventsFor(front, id)) == Some(front[k]);
        assert LatestEvent(events, id, k);
      }
    }
  }

  lemma {:induction false} LastRecordFor(records: seq<Record>, id: string)
    ensures RecordsFor(records, id) == [] ==> forall j :: 0 <= j < |records| ==> !RecordConcerns(records[j], id)
    ensures RecordsFor(records, id) != [] ==>
      exists k :: LatestRecord(records, id, k) && Last(RecordsFor(records, id)) == Some(records[k])
    decreases records
  {
    if records != [] {
      var last := |records| - 1;
      var front := records[..last];
      assert front + [records[last]] == records;
      RecordsForSnoc(front, records[last], id);
      LastRecordFor(front, id);
      if RecordConcerns(records[last], id) {
        assert LatestRecord(records, id, last);
      } else if RecordsFor(front, id) != [] {
        var k :| LatestRecord(front, id, k) && Last(RecordsFor(front, id)) == Some(front[k]);
        assert LatestRecord(records, id, k);
      }
    }
  }

  /** In step, the answer is the same from memory and after a reload, and the sort changes nothing. */
  lemma ReconstructSurvivesReload(cs: LogCodecs, s: Store, id: string)
    requires InStep(cs, s)
    ensures Reconstruct(s.memory, id) == Reconstruct(Load(cs, s.disk).memory, id)
    ensures SortBySequence(EventsFor(s.memory.events, id)) == EventsFor(s.memory.events, id)
  {
    SoundIsOrdered(cs, s);
    EventsForIncreasing(s.memory.events, id, 0);
    SortedAlready(EventsFor(s.memory.events, id));
  }

  /**
   In step, an execution is unknown exactly when nothing in the log concerns it; otherwise
   the answer is read from the last event in the log that concerns it, which also has the
   greatest number of those, and the last record in the dictionary that concerns it.
   */
  lemma ReconstructReadsLatest(cs: LogCodecs, s: Store, id: string) returns (record: Option<Record>, event: Option<Event>)
    requires InStep(cs, s)
    ensures event.None? ==> forall k :: 0 <= k < |s.memory.events| ==> !EventConcerns(s.memory.events[k], id)
    ensures event.Some? ==> exists k :: LatestEvent(s.memory.events, id, k) && event.value == s.memory.events[k]
    ensures event.Some? ==> forall j :: 0 <= j < |s.memory.events| && EventConcerns(s.memory.events[j], id) ==>
      s.memory.events[j].sequence <= event.value.sequence
    ensures record.None? ==> forall k :: 0 <= k < |s.memory.records| ==> !RecordConcerns(s.memory.records[k], id)
    ensures record.Some? ==> exists k :: LatestRecord(s.memory.records, id, k) && record.value == s.memory.records[k]
    ensures Reconstruct(s.memory, id) ==
      if record.None? && event.None? then None
      else Some(RebuildFrom(id, record, event, |EventsFor(s.memory.events, id)|))
  {
    var records, events := s.memory.records, s.memory.events;
    record, event := Last(RecordsFor(records, id)), Last(EventsFor(events, id));
    ReconstructSurvivesReload(cs, s, id);
    LastRecordFor(records, id);
    LastEventFor(events, id);
    SoundIsOrdered(cs, s);
    if event.Some? {
      var k :| LatestEvent(events, id, k) && event == Some(events[k]);
      forall j | 0 <= j < |events| && EventConcerns(events[j], id)
        ensures events[j].sequence <= event.value.sequence
      {
        assert j <= k;
      }
    }
  }

  lemma LatestRecordIs(records: seq<Record>, id: string)
    ensures RecordsFor(records, id) == [] <==> forall r :: r in records ==> !RecordConcerns(r, id)
    ensures forall k :: LatestRecord(records, id, k) ==> Last(RecordsFor(records, id)) == Some(records[k])
  {
    LastRecordFor(records, id);
    if r :| r in records && RecordConcerns(r, id) {
      var k :| LatestRecord(records, id, k) && Last(RecordsFor(records, id)) == Some(records[k]);
    }
  }

  lemma LatestEventIs(events: seq<Event>, id: string)
    ensures EventsFor(events, id) == [] <==> forall e :: e in events ==> !EventConcerns(e, id)
    ensures forall k :: LatestEvent(events, id, k) ==> Last(EventsFor(events, id)) == Some(events[k])
  {
    LastEventFor(events, id);
    if e :| e in events && EventConcerns(e, id) {
      var k :| LatestEvent(events, id, k) && Last(EventsFor(events, id)) == Some(events[k]);
    }
  }

  // ---- Dictionary order is the order of first saves ----

  /** Where in `rs` the id is first saved, or the length. */
  function FirstSave(rs: seq<Record>, id: string): nat {
    Position(rs, id)
  }

  ghost predicate LastSave(rs: seq<Record>, r: Record, k: int) {
    0 <= k < |rs| && rs[k] == r && forall j :: k < j < |rs| ==> rs[j].continuityId != r.continuityId
  }

  ghost predicate SavedLast(rs: seq<Record>, r: Record) {
    exists k :: LastSave(rs, r, k)
  }

  ghost predicate SameIds(rs: seq<Record>, records: seq<Record>) {
    forall id :: FirstSave(rs, id) < |rs| <==> Position(records, id) < |records|
  }

  ghost predicate InSaveOrder(rs: seq<Record>, records: seq<Record>) {
    && (forall i :: 0 <= i < |records| ==> FirstSave(rs, records[i].continuityId) < |rs|)
    && (forall i, j :: 0 <= i < j < |records| ==>
         FirstSave(rs, records[i].continuityId) < FirstSave(rs, records[j].continuityId))
  }

  ghost predicate HoldsLastSaves(rs: seq<Record>, records: seq<Record>) {
    forall i :: 0 <= i < |records| ==> SavedLast(rs, records[i])
  }

  lemma {:induction false} FirstSaveSnoc(rs: seq<Record>, r: Record, id: string)
    ensures FirstSave(rs + [r], id) ==
      if FirstSave(rs, id) < |rs| then FirstSave(rs, id) else if r.continuityId == id then |rs| else |rs| + 1
  {
    if rs == [] {
      assert rs + [r] == [r];
      assert [r][1..] == [];
    } else {
      assert (rs + [r])[1..] == rs[1..] + [r];
      if rs[0].continuityId != id {
        FirstSaveSnoc(rs[1..], r, id);
      }
    }
  }

  lemma LastSaveSnoc(rs: seq<Record>, r: Record, q: Record, k: int)
    requires LastSave(rs, q, k) && q.continuityId != r.continuityId
    ensures LastSave(rs + [r], q, k)
  {
  }

  lemma SameIdsStep(rs: seq<Record>, records: seq<Record>, r: Record)
    requires SameIds(rs, records)
    ensures SameIds(rs + [r], Upsert(records, r))
  {
    forall id
      ensures FirstSave(rs + [r], id) < |rs + [r]| <==> Position(Upsert(records, r), id) < |Upsert(records, r)|
    {
      FirstSaveSnoc(rs, r, id);
      UpsertPosition(records, r, id);
    }
  }

  lemma SaveOrderStep(rs: seq<Record>, records: seq<Record>, r: Record)
    requires SameIds(rs, records) && InSaveOrder(rs, records)
    ensures InSaveOrder(rs + [r], Upsert(records, r))
  {
    var u := Upsert(records, r);
    FirstSaveSnoc(rs, r, r.continuityId);
    forall i | 0 <= i < |records|
      ensures u[i].continuityId == records[i].continuityId
      ensures FirstSave(rs + [r], u[i].continuityId) == FirstSave(rs, records[i].continuityId)
    {
      FirstSaveSnoc(rs, r, records[i].continuityId);
    }
  }

  lemma LastSavesStep(rs: seq<Record>, records: seq<Record>, r: Record)
    requires DistinctIds(records) && HoldsLastSaves(rs, records)
    ensures HoldsLastSaves(rs + [r], Upsert(records, r))
  {
    var u, all := Upsert(records, r), rs + [r];
    forall j | 0 <= j < |u| ensures SavedLast(all, u[j]) {
      if u[j] == r {
        assert LastSave(all, r, |rs|);
      } else {
        assert u[j] == records[j];
        PositionIsFirst(records, r.continuityId);
        assert SavedLast(rs, records[j]);
        var k :| LastSave(rs, records[j], k);
        LastSaveSnoc(rs, r, records[j], k);
      }
    }
  }

  lemma DistinctFromOrder(rs: seq<Record>, records: seq<Record>)
    requires InSaveOrder(rs, records)
    ensures DistinctIds(records)
  {
  }

  lemma {:induction false} PositionFound(records: seq<Record>, i: nat)
    requires i < |records|
    ensures Position(records, records[i].continuityId) <= i
  {
    if i > 0 && records[0].continuityId != records[i].continuityId {
      PositionFound(records[1..], i - 1);
    }
  }

  lemma UpsertPosition(records: seq<Record>, r: Record, id: string)
    ensures Position(Upsert(records, r), id) < |Upsert(records, r)| <==> Position(records, id) < |records| || r.continuityId == id
  {
    var u := Upsert(records, r);
    var i := Position(records, r.continuityId);
    PositionFound(u, i);
    var p, q := Position(records, id), Position(u, id);
    if p < |records| {
      assert u[p].continuityId == id;
      PositionFound(u, p);
    }
    if q < |u| && q < |records| {
      assert records[q].continuityId == id;
      PositionFound(records, q);
    }
  }

  lemma {:induction false} UpsertAllInSaveOrder(rs: seq<Record>)
    ensures SameIds(rs, UpsertAll([], rs))
    ensures InSaveOrder(rs, UpsertAll([], rs))
    ensures HoldsLastSaves(rs, UpsertAll([], rs))
  {
    if rs != [] {
      var last := |rs| - 1;
      var front, records := rs[..last], UpsertAll([], rs[..last]);
      assert front + [rs[last]] == rs;
      UpsertAllInSaveOrder(front);
      UpsertAllSnoc([], front, rs[last]);
      SameIdsStep(front, records, rs[last]);
      SaveOrderStep(front, records, rs[last]);
      DistinctFromOrder(front, records);
      LastSavesStep(front, records, rs[last]);
    }
  }

  /**
   The dictionary holds, for each id ever saved, the record saved last under it, in the
   order in which the ids were first saved: so the record called latest is the one whose
   id was first saved last.
   */
  lemma DictionaryIsInSaveOrder(cs: LogCodecs, s: Store)
    requires InStep(cs, s)
    ensures InSaveOrder(TextValues(cs.record, s.disk.recordText), s.memory.records)
    ensures HoldsLastSaves(TextValues(cs.record, s.disk.recordText), s.memory.records)
    ensures forall r :: r in TextValues(cs.record, s.disk.recordText) ==>
      exists i :: 0 <= i < |s.memory.records| && s.memory.records[i].continuityId == r.continuityId
  {
    var rs := TextValues(cs.record, s.disk.recordText);
    UpsertAllInSaveOrder(rs);
    forall r | r in rs
      ensures exists i :: 0 <= i < |s.memory.records| && s.memory.records[i].continuityId == r.continuityId
    {
      var k :| 0 <= k < |rs| && rs[k] == r;
      PositionFound(rs, k);
      assert FirstSave(rs, r.continuityId) < |rs|;
    }
  }
}
