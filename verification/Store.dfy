/**
 The continuity log as a value: the two files and the quarantine file on one side, what
 the engine holds in memory on the other. The main result is that memory is always
 exactly what a fresh load of the files would compute.
 */
module Stores {
  import opened Models
  import opened LineFiles
  import opened Codecs
  import opened Replay

  datatype LogCodecs = LogCodecs(record: Codec<Record>, event: Codec<Event>)

  ghost predicate LawfulCodecs(cs: LogCodecs) {
    Lawful(cs.record) && Lawful(cs.event)
  }

  datatype Disk = Disk(recordText: string, eventText: string, quarantineFile: seq<QuarantineEntry>)

  datatype Memory = Memory(
    records: seq<Record>,
    events: seq<Event>,
    sequence: int,
    quarantined: seq<QuarantineEntry>,
    corruption: Corruption)

  datatype Store = Store(disk: Disk, memory: Memory)

  /** What one scan of both files computes. */
  function Scan(cs: LogCodecs, recordText: string, eventText: string): Memory {
    var events := Renumber(0, TextValues(cs.event, eventText));
    Memory(
      UpsertAll([], TextValues(cs.record, recordText)),
      events,
      LastSequence(0, events),
      Quarantine(cs.record, RecordsFile, 0, Lines(recordText)) + Quarantine(cs.event, EventsFile, 0, Lines(eventText)),
      EventStatus(cs.event, RecordStatus(cs.record, Clean, Lines(recordText)), 0, Lines(eventText)))
  }

  function Load(cs: LogCodecs, d: Disk): Store {
    var m := Scan(cs, d.recordText, d.eventText);
    Store(d.(quarantineFile := d.quarantineFile + m.quarantined), m)
  }

  /** A load is the two scans, one after the other. */
  lemma LoadFromScans(cs: LogCodecs, d: Disk, first: ScanState, second: ScanState)
    requires first == ScanRecords(cs.record, Lines(d.recordText))
    requires second == ScanEvents(cs.event, first.quarantined, first.corruption, Lines(d.eventText))
    ensures first.quarantined <= second.quarantined
    ensures Load(cs, d) == Store(
      d.(quarantineFile := d.quarantineFile + first.quarantined + second.quarantined[|first.quarantined|..]),
      Memory(first.records, second.events, second.number, second.quarantined, second.corruption))
  {
    ScanRecordsIs(cs.record, Lines(d.recordText));
    ScanEventsIs(cs.event, first.quarantined, first.corruption, Lines(d.eventText));
    Assoc(d.quarantineFile, first.quarantined, second.quarantined[|first.quarantined|..]);
  }

  function SaveRecord(cs: LogCodecs, s: Store, r: Record): Store {
    Store(
      s.disk.(recordText := s.disk.recordText + (cs.record.encode(r) + "\n")),
      s.memory.(records := Upsert(s.memory.records, r)))
  }

  /** The event as `AppendEvent` numbers it. */
  function Numbered(s: Store, e: Event): Event {
    e.(sequence := s.memory.sequence + 1)
  }

  function AppendEvent(cs: LogCodecs, s: Store, e: Event): Store {
    var n := Numbered(s, e);
    Store(
      s.disk.(eventText := s.disk.eventText + (cs.event.encode(n) + "\n")),
      s.memory.(events := s.memory.events + [n], sequence := n.sequence))
  }

  /** Memory is what a fresh load would compute: records in order, events, number, quarantine list and status. */
  ghost predicate InStep(cs: LogCodecs, s: Store) {
    s.memory == Scan(cs, s.disk.recordText, s.disk.eventText)
  }

  /** The file does not end in an unterminated line that holds anything. */
  ghost predicate Clear(text: string) {
    !Visible(Tail(text))
  }

  ghost predicate ClearDisk(d: Disk) {
    Clear(d.recordText) && Clear(d.eventText)
  }

  /** In step, and the next append starts a line of its own. */
  ghost predicate Sound(cs: LogCodecs, s: Store) {
    InStep(cs, s) && ClearDisk(s.disk)
  }

  lemma WholeIsClear(text: string)
    requires Whole(text)
    ensures Clear(text)
  {
  }

  // ---- One scan after one append ----

  lemma AppendedLine<T(!new)>(c: Codec<T>, text: string, x: T) returns (before: seq<string>, line: string)
    requires Lawful(c)
    ensures Lines(text + (c.encode(x) + "\n")) == before + [line]
    ensures Lines(text) == before + (if Whole(text) then [] else [Tail(text)])
    ensures Clear(text) ==> Read(c, line) == Good(x)
    ensures !Clear(text) ==> Read(c, line).Bad? && Strip(line) != Strip(Tail(text)) && line == Tail(text) + c.encode(x)
  {
    assert Framed(c.encode(x));
    before, line := Lines(Body(text)), Tail(text) + c.encode(x);
    LinesAfterAppend(text, c.encode(x));
    LinesOfBodyAndTail(text);
    ReadAfter(c, Tail(text), x);
    if !Clear(text) {
      var t, p := Tail(text), c.encode(x);
      StripOfVisible(t, p);
      StripRightKeepsVisible(p);
      assert |Strip(line)| > |StripLeft(t)| >= |Strip(t)|;
    }
  }

  lemma BlankTail<T>(c: Codec<T>, text: string)
    requires Clear(text)
    ensures Read(c, Tail(text)).Blank?
  {
    StripBlank(Tail(text));
  }

  lemma QuarantineAfterAppend<T(!new)>(c: Codec<T>, file: LogFile, text: string, x: T)
    requires Lawful(c) && Clear(text)
    ensures Quarantine(c, file, 0, Lines(text + (c.encode(x) + "\n"))) == Quarantine(c, file, 0, Lines(text))
  {
    var before, line := AppendedLine(c, text, x);
    QuarantineSnoc(c, file, before, line);
    BlankTail(c, text);
    if Whole(text) {
      assert before + [] == before;
    } else {
      QuarantineSnoc(c, file, before, Tail(text));
    }
  }

  lemma RecordStatusAfterAppend(c: Codec<Record>, text: string, r: Record)
    requires Lawful(c) && Clear(text)
    ensures RecordStatus(c, Clean, Lines(text + (c.encode(r) + "\n"))) == RecordStatus(c, Clean, Lines(text))
  {
    var before, line := AppendedLine(c, text, r);
    RecordStatusConcat(c, Clean, before, [line]);
    assert [line][1..] == [];
    BlankTail(c, text);
    if Whole(text) {
      assert before + [] == before;
    } else {
      RecordStatusConcat(c, Clean, before, [Tail(text)]);
      assert [Tail(text)][1..] == [];
    }
  }

  lemma {:induction false} EventStatusAfterAppend(c: Codec<Event>, status: Corruption, text: string, e: Event)
    requires Lawful(c) && Clear(text)
    requires e.sequence > ScanNumber(c, 0, Lines(text))
    ensures EventStatus(c, status, 0, Lines(text + (c.encode(e) + "\n"))) == EventStatus(c, status, 0, Lines(text))
  {
    var before, line := AppendedLine(c, text, e);
    BlankTail(c, text);
    if Whole(text) {
      assert before + [] == before;
    } else {
      BlankLineLast(c, status, before, Tail(text));
    }
    EventStatusConcat(c, status, 0, before, [line]);
    assert [line][1..] == [];
  }

  lemma BlankLineLast(c: Codec<Event>, status: Corruption, before: seq<string>, line: string)
    requires Read(c, line).Blank?
    ensures EventStatus(c, status, 0, before + [line]) == EventStatus(c, status, 0, before)
    ensures ScanNumber(c, 0, before + [line]) == ScanNumber(c, 0, before)
  {
    EventStatusConcat(c, status, 0, before, [line]);
    assert [line][1..] == [];
    ValuesConcat(c, before, [line]);
    ValuesOfOne(c, line);
    assert Values(c, before) + [] == Values(c, before);
  }

  /** A record saved to a clear file adds itself to what a load computes and nothing else. */
  lemma ScanAfterSave(cs: LogCodecs, recordText: string, eventText: string, r: Record)
    requires LawfulCodecs(cs) && Clear(recordText)
    ensures var before := Scan(cs, recordText, eventText);
      Scan(cs, recordText + (cs.record.encode(r) + "\n"), eventText)
      == before.(records := Upsert(before.records, r))
  {
    ValuesAfterAppend(cs.record, recordText, r);
    UpsertAllSnoc([], TextValues(cs.record, recordText), r);
    QuarantineAfterAppend(cs.record, RecordsFile, recordText, r);
    RecordStatusAfterAppend(cs.record, recordText, r);
  }

  /** An event numbered next and appended to a clear file adds itself to what a load computes and nothing else. */
  lemma ScanAfterAppend(cs: LogCodecs, recordText: string, eventText: string, e: Event)
    requires LawfulCodecs(cs) && Clear(eventText)
    requires e.sequence == Scan(cs, recordText, eventText).sequence + 1
    ensures var before := Scan(cs, recordText, eventText);
      Scan(cs, recordText, eventText + (cs.event.encode(e) + "\n"))
      == before.(events := before.events + [e], sequence := e.sequence)
  {
    ValuesAfterAppend(cs.event, eventText, e);
    RenumberConcat(0, TextValues(cs.event, eventText), [e]);
    assert [e][1..] == [];
    assert Renumber(e.sequence - 1, [e]) == [e];
    QuarantineAfterAppend(cs.event, EventsFile, eventText, e);
    EventStatusAfterAppend(cs.event, RecordStatus(cs.record, Clean, Lines(recordText)), eventText, e);
  }

  // ---- Memory equals a replay of the files ----

  lemma LoadIsSound(cs: LogCodecs, d: Disk)
    requires ClearDisk(d)
    ensures Sound(cs, Load(cs, d))
  {
  }

  /** Reloading a store that is in step changes nothing but the quarantine file, which grows by the quarantine list. */
  lemma ReloadIsIdentity(cs: LogCodecs, s: Store)
    ensures InStep(cs, s) <==>
      Load(cs, s.disk) == s.(disk := s.disk.(quarantineFile := s.disk.quarantineFile + s.memory.quarantined))
  {
  }

  lemma SaveKeepsSound(cs: LogCodecs, s: Store, r: Record)
    requires LawfulCodecs(cs) && Sound(cs, s)
    ensures Sound(cs, SaveRecord(cs, s, r))
  {
    ScanAfterSave(cs, s.disk.recordText, s.disk.eventText, r);
    ValuesAfterAppend(cs.record, s.disk.recordText, r);
    WholeIsClear(SaveRecord(cs, s, r).disk.recordText);
  }

  lemma AppendKeepsSound(cs: LogCodecs, s: Store, e: Event)
    requires LawfulCodecs(cs) && Sound(cs, s)
    ensures Sound(cs, AppendEvent(cs, s, e))
  {
    var n := Numbered(s, e);
    ScanAfterAppend(cs, s.disk.recordText, s.disk.eventText, n);
    ValuesAfterAppend(cs.event, s.disk.eventText, n);
    WholeIsClear(AppendEvent(cs, s, e).disk.eventText);
  }

  datatype Op = Reload | Save(r: Record) | Append(e: Event)

  function Apply(cs: LogCodecs, s: Store, op: Op): Store {
    match op
    case Reload => Load(cs, s.disk)
    case Save(r) => SaveRecord(cs, s, r)
    case Append(e) => AppendEvent(cs, s, e)
  }

  function Run(cs: LogCodecs, s: Store, ops: seq<Op>): Store
    decreases ops
  {
    if ops == [] then s else Apply(cs, Run(cs, s, ops[..|ops| - 1]), ops[|ops| - 1])
  }

  lemma ApplyKeepsSound(cs: LogCodecs, s: Store, op: Op)
    requires LawfulCodecs(cs) && Sound(cs, s)
    ensures Sound(cs, Apply(cs, s, op))
  {
    match op
    case Reload =>
      LoadIsSound(cs, s.disk);
      assert Apply(cs, s, op) == Load(cs, s.disk);
    case Save(r) =>
      SaveKeepsSound(cs, s, r);
      assert Apply(cs, s, op) == SaveRecord(cs, s, r);
    case Append(e) =>
      AppendKeepsSound(cs, s, e);
      assert Apply(cs, s, op) == AppendEvent(cs, s, e);
  }

  lemma {:induction false} RunKeepsSound(cs: LogCodecs, s: Store, ops: seq<Op>)
    requires LawfulCodecs(cs) && Sound(cs, s)
    ensures Sound(cs, Run(cs, s, ops))
    decreases ops
  {
    if ops != [] {
      RunKeepsSound(cs, s, ops[..|ops| - 1]);
      ApplyKeepsSound(cs, Run(cs, s, ops[..|ops| - 1]), ops[|ops| - 1]);
    }
  }

  /**
   From files with any contents, however corrupt or misnumbered, that end in whole lines:
   after a load and any run of saves, appends and reloads, memory is what a fresh load of
   the files computes, and the dictionary's ids are distinct and the events' numbers
   positive and strictly increasing.
   */
  lemma MemoryEqualsReplay(cs: LogCodecs, d: Disk, ops: seq<Op>)
    requires LawfulCodecs(cs) && ClearDisk(d)
    ensures var s := Run(cs, Load(cs, d), ops);
      && s.memory == Load(cs, s.disk).memory
      && DistinctIds(s.memory.records)
      && Increasing(0, s.memory.events)
      && s.memory.sequence == LastSequence(0, s.memory.events)
  {
    LoadIsSound(cs, d);
    RunKeepsSound(cs, Load(cs, d), ops);
    SoundIsOrdered(cs, Run(cs, Load(cs, d), ops));
  }

  // ---- Runs as memory sees them ----

  function Saved(m: Memory, r: Record): Memory {
    m.(records := Upsert(m.records, r))
  }

  function Appended(m: Memory, e: Event): Memory {
    var n := m.sequence + 1;
    m.(events := m.events + [e.(sequence := n)], sequence := n)
  }

  /** What an operation does to memory that is in step; a reload does nothing to it. */
  function ApplyMemory(m: Memory, op: Op): Memory {
    match op
    case Reload => m
    case Save(r) => Saved(m, r)
    case Append(e) => Appended(m, e)
  }

  function RunMemory(m: Memory, ops: seq<Op>): Memory
    decreases ops
  {
    if ops == [] then m else ApplyMemory(RunMemory(m, ops[..|ops| - 1]), ops[|ops| - 1])
  }

  lemma RunSnoc(cs: LogCodecs, s: Store, ops: seq<Op>, op: Op)
    ensures Run(cs, s, ops + [op]) == Apply(cs, Run(cs, s, ops), op)
  {
    assert (ops + [op])[..|ops + [op]| - 1] == ops;
  }

  lemma RunPair(cs: LogCodecs, s: Store, a: Op, b: Op)
    ensures Run(cs, s, [a, b]) == Apply(cs, Apply(cs, s, a), b)
  {
    RunSnoc(cs, s, [], a);
    RunSnoc(cs, s, [a], b);
    assert [] + [a] == [a] && [a] + [b] == [a, b];
  }

  lemma {:induction false} RunConcat(cs: LogCodecs, s: Store, a: seq<Op>, b: seq<Op>)
    ensures Run(cs, s, a + b) == Run(cs, Run(cs, s, a), b)
    decreases b
  {
    if b == [] {
      assert a + b == a;
    } else {
      var front, op := b[..|b| - 1], b[|b| - 1];
      assert a + b == (a + front) + [op];
      RunConcat(cs, s, a, front);
      RunSnoc(cs, s, a + front, op);
    }
  }

  lemma {:induction false} RunWithoutReload(cs: LogCodecs, s: Store, ops: seq<Op>)
    requires Reload !in ops
    ensures Run(cs, s, ops).memory == RunMemory(s.memory, ops)
    decreases ops
  {
    if ops != [] {
      assert ops[|ops| - 1] in ops;
      RunWithoutReload(cs, s, ops[..|ops| - 1]);
    }
  }

  lemma RunMemorySnoc(m: Memory, ops: seq<Op>, op: Op)
    ensures RunMemory(m, ops + [op]) == ApplyMemory(RunMemory(m, ops), op)
  {
    assert (ops + [op])[..|ops + [op]| - 1] == ops;
  }

  lemma {:induction false} RunMemoryConcat(m: Memory, a: seq<Op>, b: seq<Op>)
    ensures RunMemory(m, a + b) == RunMemory(RunMemory(m, a), b)
    decreases b
  {
    if b == [] {
      assert a + b == a;
    } else {
      var front, op := b[..|b| - 1], b[|b| - 1];
      assert a + b == (a + front) + [op];
      RunMemoryConcat(m, a, front);
      RunMemorySnoc(m, a + front, op);
    }
  }

  lemma {:induction false} PositionOf(records: seq<Record>, i: nat)
    requires DistinctIds(records) && i < |records|
    ensures Position(records, records[i].continuityId) == i
  {
    if i > 0 {
      assert records[0].continuityId != records[i].continuityId;
      PositionOf(records[1..], i - 1);
    }
  }

  lemma UpsertAt(records: seq<Record>, i: nat, r: Record)
    requires DistinctIds(records) && i < |records| && r.continuityId == records[i].continuityId
    ensures Upsert(records, r) == records[i := r]
    ensures DistinctIds(records[i := r])
  {
    PositionOf(records, i);
  }

  lemma RunOne(m: Memory, op: Op)
    ensures RunMemory(m, [op]) == ApplyMemory(m, op)
  {
    RunMemorySnoc(m, [], op);
    assert [] + [op] == [op];
  }

  lemma RunTwo(m: Memory, a: Op, b: Op)
    ensures RunMemory(m, [a, b]) == ApplyMemory(ApplyMemory(m, a), b)
  {
    RunOne(m, a);
    RunMemorySnoc(m, [a], b);
    assert [a] + [b] == [a, b];
  }

  lemma RunSaveAppend(m: Memory, r: Record, e: Event)
    ensures RunMemory(m, [Save(r), Append(e)]) == Appended(Saved(m, r), e)
  {
    RunTwo(m, Save(r), Append(e));
  }

  /** A record saved in place and one event appended. */
  lemma SaveAndAppend(m: Memory, i: nat, r: Record, e: Event)
    requires DistinctIds(m.records) && i < |m.records| && r.continuityId == m.records[i].continuityId
    ensures var after := RunMemory(m, [Save(r), Append(e)]);
      && after.records == m.records[i := r]
      && after.events == m.events + [e.(sequence := m.sequence + 1)]
      && after.sequence == m.sequence + 1
  {
    UpsertAt(m.records, i, r);
    RunSaveAppend(m, r, e);
    SavedThenAppended(m, r, e);
  }

  lemma SavedThenAppended(m: Memory, r: Record, e: Event)
    ensures var after := Appended(Saved(m, r), e);
      && after.records == Upsert(m.records, r)
      && after.events == m.events + [e.(sequence := m.sequence + 1)]
      && after.sequence == m.sequence + 1
  {
  }

  lemma ApplyIsMemory(cs: LogCodecs, s: Store, op: Op)
    requires InStep(cs, s)
    ensures Apply(cs, s, op).memory == ApplyMemory(s.memory, op)
  {
  }

  lemma {:induction false} RunIsMemory(cs: LogCodecs, s: Store, ops: seq<Op>)
    requires LawfulCodecs(cs) && Sound(cs, s)
    ensures Run(cs, s, ops).memory == RunMemory(s.memory, ops)
    decreases ops
  {
    if ops != [] {
      RunIsMemory(cs, s, ops[..|ops| - 1]);
      RunKeepsSound(cs, s, ops[..|ops| - 1]);
      ApplyIsMemory(cs, Run(cs, s, ops[..|ops| - 1]), ops[|ops| - 1]);
    }
  }

  /**
   From a sound store, whatever is written and reloaded on the way, a crash at any point
   and a reload find the memory that the saves and appends so far have made.
   */
  lemma CrashFindsMemory(cs: LogCodecs, s: Store, ops: seq<Op>)
    requires LawfulCodecs(cs) && Sound(cs, s)
    ensures Sound(cs, Run(cs, s, ops))
    ensures Load(cs, Run(cs, s, ops).disk).memory == RunMemory(s.memory, ops)
  {
    RunKeepsSound(cs, s, ops);
    RunIsMemory(cs, s, ops);
    ReloadIsIdentity(cs, Run(cs, s, ops));
  }

  lemma SoundIsOrdered(cs: LogCodecs, s: Store)
    requires InStep(cs, s)
    ensures DistinctIds(s.memory.records)
    ensures Increasing(0, s.memory.events)
    ensures s.memory.sequence == LastSequence(0, s.memory.events)
  {
    UpsertAllDistinct([], TextValues(cs.record, s.disk.recordText));
    RenumberIncreasing(0, TextValues(cs.event, s.disk.eventText));
  }

  /** An append leaves memory in step exactly when the file held no unterminated text. */
  lemma AppendExact(cs: LogCodecs, s: Store, e: Event)
    requires LawfulCodecs(cs) && InStep(cs, s)
    ensures InStep(cs, AppendEvent(cs, s, e)) <==> Clear(s.disk.eventText)
  {
    var n := Numbered(s, e);
    if Clear(s.disk.eventText) {
      ScanAfterAppend(cs, s.disk.recordText, s.disk.eventText, n);
    } else {
      ValuesAfterAppend(cs.event, s.disk.eventText, n);
      ValuesOfTail(cs.event, s.disk.eventText);
      assert |AppendEvent(cs, s, e).memory.events| == |s.memory.events| + 1;
    }
  }

  /** A save leaves memory in step exactly when the file held no unterminated text; otherwise the saved record is lost on reload. */
  lemma SaveExact(cs: LogCodecs, s: Store, r: Record)
    requires LawfulCodecs(cs) && InStep(cs, s)
    ensures InStep(cs, SaveRecord(cs, s, r)) <==> Clear(s.disk.recordText)
    ensures !Clear(s.disk.recordText) ==>
      Load(cs, SaveRecord(cs, s, r).disk).memory.records == UpsertAll([], TextValues(cs.record, Body(s.disk.recordText)))
  {
    var c, text := cs.record, s.disk.recordText;
    ValuesAfterAppend(c, text, r);
    if Clear(text) {
      ScanAfterSave(cs, text, s.disk.eventText, r);
    } else {
      GluedQuarantine(c, RecordsFile, text, r, Quarantine(cs.event, EventsFile, 0, Lines(s.disk.eventText)));
    }
  }

  /** Gluing a line to unterminated text shows in the quarantine list. */
  lemma GluedQuarantine<T(!new)>(c: Codec<T>, file: LogFile, text: string, x: T, later: seq<QuarantineEntry>)
    requires Lawful(c) && !Clear(text)
    ensures Quarantine(c, file, 0, Lines(text + (c.encode(x) + "\n"))) + later != Quarantine(c, file, 0, Lines(text)) + later
  {
    var before, line := AppendedLine(c, text, x);
    var tail := Tail(text);
    QuarantineSnoc(c, file, before, line);
    QuarantineSnoc(c, file, before, tail);
    var q := Quarantine(c, file, 0, before);
    var now, was := Quarantine(c, file, 0, before + [line]), Quarantine(c, file, 0, before + [tail]);
    assert now[|q|].raw == Strip(line);
    if Read(c, tail).Bad? {
      assert (now + later)[|q|].raw == Strip(line);
      assert (was + later)[|q|].raw == Strip(tail);
    } else {
      assert |now + later| == |was + later| + 1;
    }
  }

  // ---- Noise and status ----

  /**
   Blank and undecodable lines anywhere in either file change no record, no event and no
   sequence number: two disks whose readable lines agree load alike.
   */
  lemma NoiseIsInvisible(cs: LogCodecs, d: Disk, noisy: Disk)
    requires Signal(cs.record, Lines(d.recordText)) == Signal(cs.record, Lines(noisy.recordText))
    requires Signal(cs.event, Lines(d.eventText)) == Signal(cs.event, Lines(noisy.eventText))
    ensures var (m, n) := (Load(cs, d).memory, Load(cs, noisy).memory);
      m.records == n.records && m.events == n.events && m.sequence == n.sequence
  {
    ValuesOfSignal(cs.record, Lines(d.recordText));
    ValuesOfSignal(cs.record, Lines(noisy.recordText));
    ValuesOfSignal(cs.event, Lines(d.eventText));
    ValuesOfSignal(cs.event, Lines(noisy.eventText));
  }

  ghost predicate AllReadable<T>(c: Codec<T>, lines: seq<string>) {
    forall i :: 0 <= i < |lines| ==> !Read(c, lines[i]).Bad?
  }

  /**
   The status after a load is clean exactly when every line of both files decodes or is
   blank and the event numbers are positive and strictly increasing.
   */
  lemma CleanIsExact(cs: LogCodecs, d: Disk)
    ensures Load(cs, d).memory.corruption == Clean <==>
      && AllReadable(cs.record, Lines(d.recordText))
      && AllReadable(cs.event, Lines(d.eventText))
      && Increasing(0, TextValues(cs.event, d.eventText))
  {
    var status := RecordStatus(cs.record, Clean, Lines(d.recordText));
    CleanRecords(cs.record, Lines(d.recordText));
    CleanEvents(cs.event, status, Lines(d.eventText));
  }

  lemma CleanRecords(c: Codec<Record>, lines: seq<string>)
    ensures RecordStatus(c, Clean, lines) == Clean <==> AllReadable(c, lines)
  {
    RecordStatusIsQuarantined(c, Clean, lines);
  }

  lemma CleanEvents(c: Codec<Event>, status: Corruption, lines: seq<string>)
    ensures EventStatus(c, status, 0, lines) == Clean <==>
      status == Clean && AllReadable(c, lines) && Increasing(0, Values(c, lines))
  {
    NoIncidentMeansWellNumbered(c, 0, lines);
    if status != Clean {
      SpoiledStays(c, status, 0, lines);
    }
  }

  ghost predicate NoEventIncident(c: Codec<Event>, lines: seq<string>) {
    forall i :: 0 <= i < |lines| ==> EventIncident(c, 0, lines, i).None?
  }

  /**
   The status is the kind of the last incident of the events file if that has one;
   else it is quarantined exactly when the records file has an undecodable line.
   */
  lemma StatusNamesLastIncident(cs: LogCodecs, d: Disk)
    ensures forall i: nat :: LastIncidentAt(cs.event, 0, Lines(d.eventText), i) ==>
      Load(cs, d).memory.corruption == EventIncident(cs.event, 0, Lines(d.eventText), i).value
    ensures NoEventIncident(cs.event, Lines(d.eventText)) ==>
      Load(cs, d).memory.corruption == if AllReadable(cs.record, Lines(d.recordText)) then Clean else Quarantined
  {
    var lines := Lines(d.eventText);
    var status := RecordStatus(cs.record, Clean, Lines(d.recordText));
    RecordStatusIsQuarantined(cs.record, Clean, Lines(d.recordText));
    forall i: nat | LastIncidentAt(cs.event, 0, lines, i)
      ensures EventStatus(cs.event, status, 0, lines) == EventIncident(cs.event, 0, lines, i).value
    {
      LastIncidentNamesStatus(cs.event, status, 0, lines, i);
    }
    if NoEventIncident(cs.event, lines) {
      NoIncidentKeepsStatus(cs.event, status, 0, lines);
    }
  }
}
