/**
 Crashes in the middle of a line, for executions: what a new manager answers when the crash
 falls inside a save or an append of a submission or an execution, and what is left once
 the next line has been glued to what it left.
 */
module TornExecutions {
  import opened Models
  import opened LineFiles
  import opened Codecs
  import opened Replay
  import opened Stores
  import opened TornWrites
  import opened CrashRuns
  import opened Reconstruction
  import opened ExecutionLog
  import opened ExecutionProtocol

  /** The line the operation writes; a reload writes none. */
  function LineOf(cs: LogCodecs, s: Store, op: Op): string {
    match op
    case Reload => ""
    case Save(r) => Line(cs.record, r)
    case Append(e) => Line(cs.event, Numbered(s, e))
  }

  /** What `k` characters of that line leave on disk. */
  function TornOpDisk(cs: LogCodecs, s: Store, op: Op, k: nat): Disk
    requires k <= |LineOf(cs, s, op)|
  {
    match op
    case Reload => s.disk
    case Save(r) => TornSaveDisk(cs, s, r, k)
    case Append(e) => TornDisk(cs, s, e, k)
  }

  /** The records and events of two memories are the same; only quarantine list, status and number may differ. */
  predicate SameLog(a: Memory, b: Memory) {
    a.records == b.records && a.events == b.events
  }

  // ---- One file ----

  /** What a load reads from a file after a torn write: all of the line, once only its '\n' is missing, or none of it. */
  lemma TornValues<T(!new)>(c: Codec<T>, text: string, x: T, k: nat)
    requires Lawful(c) && Clear(text) && k <= |Line(c, x)|
    ensures TextValues(c, text + Line(c, x)[..k])
         == TextValues(c, text) + (if k + 1 >= |Line(c, x)| then [x] else [])
  {
    var line := Line(c, x);
    ValuesOfView(c, text);
    if k == |line| {
      assert line[..k] == line;
      ValuesAfterAppend(c, text, x);
      StripBlank(Tail(text));
    } else if k == 0 {
      assert text + line[..0] == text;
      assert Framed(c.encode(x));
      assert TextValues(c, text) + [] == TextValues(c, text);
    } else {
      ViewAfterTorn(c, text, x, k);
      ValuesOfView(c, text + line[..k]);
    }
  }

  /** The next line is glued to what a torn write left: a load then reads neither. */
  lemma GluedValues<T(!new)>(c: Codec<T>, text: string, x: T, k: nat, next: T)
    requires Lawful(c) && Clear(text) && 0 < k < |Line(c, x)|
    ensures TextValues(c, (text + Line(c, x)[..k]) + Line(c, next)) == TextValues(c, text)
    ensures Clear((text + Line(c, x)[..k]) + Line(c, next))
  {
    var torn := text + Line(c, x)[..k];
    ValuesOfView(c, text);
    ViewAfterTorn(c, text, x, k);
    ViewAfterAppend(c, torn, next);
    ValuesOfView(c, torn + Line(c, next));
  }

  function RecordsIn(cs: LogCodecs, text: string): seq<Record> {
    UpsertAll([], TextValues(cs.record, text))
  }

  function EventsIn(cs: LogCodecs, text: string): seq<Event> {
    Renumber(0, TextValues(cs.event, text))
  }

  lemma LoadLog(cs: LogCodecs, d: Disk)
    ensures Load(cs, d).memory.records == RecordsIn(cs, d.recordText)
    ensures Load(cs, d).memory.events == EventsIn(cs, d.eventText)
  {
  }

  lemma SoundLog(cs: LogCodecs, s: Store)
    requires Sound(cs, s)
    ensures s.memory.records == RecordsIn(cs, s.disk.recordText) && s.memory.events == EventsIn(cs, s.disk.eventText)
    ensures s.memory.sequence == LastSequence(0, EventsIn(cs, s.disk.eventText))
  {
  }

  // ---- One operation ----

  lemma TornRecords(cs: LogCodecs, text: string, r: Record, k: nat)
    requires Lawful(cs.record) && Clear(text) && k <= |Line(cs.record, r)|
    ensures RecordsIn(cs, text + Line(cs.record, r)[..k])
         == if k + 1 >= |Line(cs.record, r)| then Upsert(RecordsIn(cs, text), r) else RecordsIn(cs, text)
  {
    var values := TextValues(cs.record, text);
    TornValues(cs.record, text, r, k);
    UpsertAllSnoc([], values, r);
    assert values + [] == values;
  }

  lemma TornEvents(cs: LogCodecs, text: string, n: Event, k: nat)
    requires Lawful(cs.event) && Clear(text) && k <= |Line(cs.event, n)|
    requires n.sequence == LastSequence(0, EventsIn(cs, text)) + 1
    ensures EventsIn(cs, text + Line(cs.event, n)[..k])
         == if k + 1 >= |Line(cs.event, n)| then EventsIn(cs, text) + [n] else EventsIn(cs, text)
  {
    var values := TextValues(cs.event, text);
    TornValues(cs.event, text, n, k);
    RenumberSnoc(values, n);
    assert values + [] == values;
  }

  lemma TornLog(cs: LogCodecs, s: Store, op: Op, k: nat, d: Disk)
    requires LawfulCodecs(cs) && Sound(cs, s) && !op.Reload? && k <= |LineOf(cs, s, op)| && d == TornOpDisk(cs, s, op, k)
    requires s.memory.records == RecordsIn(cs, s.disk.recordText) && s.memory.events == EventsIn(cs, s.disk.eventText)
    requires s.memory.sequence == LastSequence(0, EventsIn(cs, s.disk.eventText))
    ensures var after := if k + 1 >= |LineOf(cs, s, op)| then ApplyMemory(s.memory, op) else s.memory;
      RecordsIn(cs, d.recordText) == after.records && EventsIn(cs, d.eventText) == after.events
  {
    match op
    case Save(r) => TornRecords(cs, s.disk.recordText, r, k);
    case Append(e) => TornEvents(cs, s.disk.eventText, Numbered(s, e), k);
  }

  /** A crash inside one operation's line leaves the log as it was before the operation, or as it is after it once only the '\n' is missing. */
  lemma TornOpFinds(cs: LogCodecs, s: Store, op: Op, k: nat, found: Store)
    requires LawfulCodecs(cs) && Sound(cs, s) && !op.Reload? && k <= |LineOf(cs, s, op)|
    requires found == Load(cs, TornOpDisk(cs, s, op, k))
    ensures SameLog(found.memory, if k + 1 >= |LineOf(cs, s, op)| then ApplyMemory(s.memory, op) else s.memory)
  {
    var d := TornOpDisk(cs, s, op, k);
    SoundLog(cs, s);
    LoadLog(cs, d);
    TornLog(cs, s, op, k, d);
  }

  predicate SameFile(a: Op, b: Op) {
    (a.Save? && b.Save?) || (a.Append? && b.Append?)
  }

  /**
   A crash inside one operation, with some but not all of its line written, and a load give
   `s1`; the next operation on the same file, a crash and a load give `s2`.
   */
  predicate Glued(cs: LogCodecs, s: Store, op: Op, k: nat, s1: Store, next: Op, s2: Store) {
    && SameFile(op, next) && 0 < k < |LineOf(cs, s, op)|
    && s1 == Load(cs, TornOpDisk(cs, s, op, k)) && s2 == Load(cs, Apply(cs, s1, next).disk)
  }

  lemma GluedDisk(cs: LogCodecs, s: Store, op: Op, k: nat, s1: Store, next: Op, s2: Store, d: Disk)
    requires LawfulCodecs(cs) && Sound(cs, s) && Glued(cs, s, op, k, s1, next, s2) && d == Apply(cs, s1, next).disk
    ensures RecordsIn(cs, d.recordText) == RecordsIn(cs, s.disk.recordText)
    ensures EventsIn(cs, d.eventText) == EventsIn(cs, s.disk.eventText)
    ensures ClearDisk(d)
  {
    match op
    case Save(r) => GluedValues(cs.record, s.disk.recordText, r, k, next.r);
    case Append(e) => GluedValues(cs.event, s.disk.eventText, Numbered(s, e), k, Numbered(s1, next.e));
  }

  /** The torn line and the next one on its file are both lost, even if the torn one had been read in between; from then on the log is sound again. */
  lemma GluedOpFinds(cs: LogCodecs, s: Store, op: Op, k: nat, s1: Store, next: Op, s2: Store)
    requires LawfulCodecs(cs) && Sound(cs, s) && Glued(cs, s, op, k, s1, next, s2)
    ensures SameLog(s2.memory, s.memory) && Sound(cs, s2)
  {
    var d := Apply(cs, s1, next).disk;
    SoundLog(cs, s);
    GluedDisk(cs, s, op, k, s1, next, s2, d);
    LoadLog(cs, d);
    LoadIsSound(cs, d);
  }

  // ---- Executions ----

  lemma SameAnswer(a: Memory, b: Memory, x: string)
    requires SameLog(a, b)
    ensures RestartStatus(a, x) == RestartStatus(b, x)
  {
  }

  /** What a new manager should answer, nothing for an execution that has not begun. */
  function AnswerIn(w: World, x: string): Option<Status> {
    if x in w.history then Some(Answer(w.history[x].phase)) else None
  }

  lemma {:induction false} NoRecords(records: seq<Record>, x: string)
    requires forall r :: r in records ==> !RecordConcerns(r, x)
    ensures RecordsFor(records, x) == []
  {
    if records != [] {
      NoRecords(records[1..], x);
    }
  }

  lemma FreshAnswer(m: Memory, x: string)
    requires FreshName(m, x)
    ensures RestartStatus(m, x) == None
  {
    NoRecords(m.records, x);
    NoEvents(m.events, x);
  }

  lemma TrackedAnswer(w: World, x: string)
    requires ExecutionProtocol.Invariant(w) && Increasing(0, w.memory.events)
    requires x in w.history || FreshName(w.memory, x)
    ensures RestartStatus(w.memory, x) == AnswerIn(w, x)
  {
    if x in w.history {
      AnswerOfPhase(w.memory, x, w.history[x]);
    } else {
      FreshAnswer(w.memory, x);
    }
  }

  /** What the files and memory are before the move, and that the move writes just this operation. */
  ghost predicate WritesNext(cs: LogCodecs, s: Store, counter: int, moves: seq<Move>, u: World, move: Move, v: World, base: Store, op: Op) {
    && u == RunMoves(Initial(s.memory, counter), moves) && v == ExecutionProtocol.Step(u, move)
    && v.written == u.written + [op] && !op.Reload?
    && base == Run(cs, s, u.written)
  }

  lemma BaseIs(cs: LogCodecs, s: Store, counter: int, moves: seq<Move>, u: World, base: Store)
    requires LawfulCodecs(cs) && Sound(cs, s)
    requires u == RunMoves(Initial(s.memory, counter), moves) && base == Run(cs, s, u.written)
    ensures Sound(cs, base) && base.memory == u.memory
    ensures Increasing(0, u.memory.events) && ExecutionProtocol.Invariant(u)
  {
    WrittenIsMemory(s.memory, counter, moves);
    RunKeepsSound(cs, s, u.written);
    RunIsMemory(cs, s, u.written);
    SoundIsOrdered(cs, base);
    RunKeeps(Initial(s.memory, counter), moves);
  }

  lemma NextMemory(cs: LogCodecs, s: Store, counter: int, moves: seq<Move>, u: World, move: Move, v: World, base: Store, op: Op)
    requires LawfulCodecs(cs) && Sound(cs, s) && WritesNext(cs, s, counter, moves, u, move, v, base, op)
    ensures v.memory == ApplyMemory(u.memory, op)
    ensures Increasing(0, v.memory.events) && ExecutionProtocol.Invariant(v)
  {
    assert (moves + [move])[..|moves + [move]| - 1] == moves;
    WrittenIsMemory(s.memory, counter, moves);
    WrittenIsMemory(s.memory, counter, moves + [move]);
    RunMemorySnoc(s.memory, u.written, op);
    BaseIs(cs, s, counter, moves + [move], v, Run(cs, s, v.written));
  }

  /** Before the move that submits it nothing concerns an execution. */
  lemma FreshBefore(u: World, move: Move, x: string)
    requires x in ExecutionProtocol.Step(u, move).history
    ensures x in u.history || FreshName(u.memory, x)
  {
  }

  /**
   Whatever ran before, and wherever inside a line that a submission or an execution writes
   the crash falls: a new manager answers as if the line had not been begun, or, once only
   its '\n' is missing, as if it had been written.
   */
  lemma CrashInsideLine(
    cs: LogCodecs, s: Store, counter: int, moves: seq<Move>, u: World, move: Move, v: World, base: Store, op: Op, k: nat, found: Store, x: string)
    requires LawfulCodecs(cs) && Sound(cs, s) && WritesNext(cs, s, counter, moves, u, move, v, base, op)
    requires k <= |LineOf(cs, base, op)| && found == Load(cs, TornOpDisk(cs, base, op, k))
    requires x in v.history
    ensures RestartStatus(found.memory, x) == AnswerIn(if k + 1 >= |LineOf(cs, base, op)| then v else u, x)
  {
    BaseIs(cs, s, counter, moves, u, base);
    NextMemory(cs, s, counter, moves, u, move, v, base, op);
    TornOpFinds(cs, base, op, k, found);
    FreshBefore(u, move, x);
    TrackedAnswer(u, x);
    TrackedAnswer(v, x);
    SameAnswer(found.memory, if k + 1 >= |LineOf(cs, base, op)| then v.memory else u.memory, x);
  }

  /**
   The next line on the same file, whoever writes it, is glued to what the crash has left:
   after another load a new manager answers as if neither had been written, even where the
   first load still gave the final status because only the '\n' was missing. From then on
   the log is sound again.
   */
  lemma GluedLineIsLost(
    cs: LogCodecs, s: Store, counter: int, moves: seq<Move>, u: World, move: Move, v: World, base: Store, op: Op, k: nat,
    s1: Store, next: Op, s2: Store, x: string)
    requires LawfulCodecs(cs) && Sound(cs, s) && WritesNext(cs, s, counter, moves, u, move, v, base, op)
    requires Glued(cs, base, op, k, s1, next, s2) && x in v.history
    ensures RestartStatus(s2.memory, x) == AnswerIn(u, x) && Sound(cs, s2)
  {
    BaseIs(cs, s, counter, moves, u, base);
    GluedOpFinds(cs, base, op, k, s1, next, s2);
    FreshBefore(u, move, x);
    TrackedAnswer(u, x);
    SameAnswer(s2.memory, u.memory, x);
  }
}
