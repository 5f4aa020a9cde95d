/**
 What a scan of the two log files computes: the decoded values, the last-write-wins
 record dictionary, the repaired event numbering, the quarantine and the corruption
 status.
 */
module Replay {
  import opened Models
  import opened LineFiles
  import opened Codecs

  // ---- Decoded values ----

  function ValueOf<T>(r: Reading<T>): seq<T> {
    if r.Good? then [r.value] else []
  }

  /** The decodable lines' values, in scan order. */
  function Values<T>(c: Codec<T>, lines: seq<string>): (vs: seq<T>)
    ensures |vs| <= |lines|
  {
    if lines == [] then [] else ValueOf(Read(c, lines[0])) + Values(c, lines[1..])
  }

  lemma {:induction false} ValuesConcat<T>(c: Codec<T>, a: seq<string>, b: seq<string>)
    ensures Values(c, a + b) == Values(c, a) + Values(c, b)
  {
    if a == [] {
      assert a + b == b;
    } else {
      var head := ValueOf(Read(c, a[0]));
      assert (a + b)[0] == a[0] && (a + b)[1..] == a[1..] + b;
      assert Values(c, a + b) == head + Values(c, a[1..] + b);
      ValuesConcat(c, a[1..], b);
      Assoc(head, Values(c, a[1..]), Values(c, b));
    }
  }

  lemma ValuesOfOne<T>(c: Codec<T>, line: string)
    ensures Values(c, [line]) == ValueOf(Read(c, line))
  {
    assert [line][1..] == [];
  }

  function TextValues<T>(c: Codec<T>, text: string): seq<T> {
    Values(c, Lines(text))
  }

  /** The lines that are neither blank nor undecodable. */
  function Signal<T>(c: Codec<T>, lines: seq<string>): seq<string> {
    if lines == [] then []
    else (if Read(c, lines[0]).Good? then [lines[0]] else []) + Signal(c, lines[1..])
  }

  lemma {:induction false} ValuesOfSignal<T>(c: Codec<T>, lines: seq<string>)
    ensures Values(c, lines) == Values(c, Signal(c, lines))
  {
    if lines != [] {
      ValuesOfSignal(c, lines[1..]);
      var front := if Read(c, lines[0]).Good? then [lines[0]] else [];
      ValuesConcat(c, front, Signal(c, lines[1..]));
      ValuesOfOne(c, lines[0]);
    }
  }

  // ---- Appending to a file ----

  lemma ValuesAfterAppend<T(!new)>(c: Codec<T>, text: string, x: T)
    requires Lawful(c)
    ensures TextValues(c, text + (c.encode(x) + "\n"))
         == if Visible(Tail(text)) then TextValues(c, Body(text)) else TextValues(c, text) + [x]
    ensures Whole(text + (c.encode(x) + "\n"))
  {
    var line := c.encode(x);
    assert Framed(line);
    LinesAfterAppend(text, line);
    ValuesConcat(c, Lines(Body(text)), [Tail(text) + line]);
    ValuesOfOne(c, Tail(text) + line);
    ReadAfter(c, Tail(text), x);
    ValuesOfTail(c, text);
    StripBlank(Tail(text));
  }

  lemma ValuesOfTail<T>(c: Codec<T>, text: string)
    ensures TextValues(c, text) == TextValues(c, Body(text)) + ValueOf(Read(c, Tail(text)))
  {
    LinesOfBodyAndTail(text);
    assert Strip("") == "";
    if Whole(text) {
      assert Lines(Body(text)) + [] == Lines(Body(text));
    } else {
      ValuesConcat(c, Lines(Body(text)), [Tail(text)]);
      ValuesOfOne(c, Tail(text));
    }
  }

  /** An append torn after `k` of the line's characters leaves an unterminated tail. */
  lemma TailAfterTorn<T(!new)>(c: Codec<T>, text: string, x: T, k: nat)
    requires Lawful(c) && k <= |c.encode(x)|
    ensures Tail(text + c.encode(x)[..k]) == Tail(text) + c.encode(x)[..k]
    ensures Body(text + c.encode(x)[..k]) == Body(text)
  {
    var p := c.encode(x)[..k];
    assert Framed(c.encode(x));
    assert '\n' !in p;
    var b, t := Body(text), Tail(text) + p;
    BodyAndTail(text);
    Assoc(b, Tail(text), p);
    TailOf(b, t);
    BodyAndTail(text + p);
    assert |Body(text + p)| == |b|;
    assert (b + t)[..|b|] == b;
    assert (Body(text + p) + t)[..|b|] == Body(text + p);
  }

  // ---- The record dictionary ----

  /** Where the record with this id stands, or the length. */
  function Position(records: seq<Record>, id: string): (i: nat)
    ensures i <= |records|
    ensures i < |records| ==> records[i].continuityId == id
  {
    if records == [] || records[0].continuityId == id then 0 else 1 + Position(records[1..], id)
  }

  /** Dictionary assignment: a known key keeps its place, a new one goes last. */
  function Upsert(records: seq<Record>, r: Record): seq<Record> {
    var i := Position(records, r.continuityId);
    if i < |records| then records[i := r] else records + [r]
  }

  function UpsertAll(base: seq<Record>, rs: seq<Record>): seq<Record>
    decreases rs
  {
    if rs == [] then base else UpsertAll(Upsert(base, rs[0]), rs[1..])
  }

  lemma {:induction false} UpsertAllSnoc(base: seq<Record>, rs: seq<Record>, r: Record)
    ensures UpsertAll(base, rs + [r]) == Upsert(UpsertAll(base, rs), r)
    decreases rs
  {
    if rs == [] {
      assert rs + [r] == [r];
      assert [r][1..] == [];
    } else {
      assert (rs + [r])[1..] == rs[1..] + [r];
      UpsertAllSnoc(Upsert(base, rs[0]), rs[1..], r);
    }
  }

  ghost predicate DistinctIds(records: seq<Record>) {
    forall i, j :: 0 <= i < j < |records| ==> records[i].continuityId != records[j].continuityId
  }

  lemma {:induction false} PositionIsFirst(records: seq<Record>, id: string)
    ensures forall i :: 0 <= i < Position(records, id) ==> records[i].continuityId != id
  {
    if records != [] && records[0].continuityId != id {
      PositionIsFirst(records[1..], id);
      forall i | 0 <= i < Position(records, id) ensures records[i].continuityId != id {
        if i > 0 { assert records[i] == records[1..][i - 1]; }
      }
    }
  }

  /**
   Dictionary semantics: after an assignment the key holds the new record, every other
   key holds what it held, keys stay distinct, and known keys keep their order.
   */
  lemma UpsertIsDictionaryUpdate(records: seq<Record>, r: Record)
    requires DistinctIds(records)
    ensures DistinctIds(Upsert(records, r))
    ensures r in Upsert(records, r)
    ensures forall q: Record :: q.continuityId != r.continuityId ==> (q in Upsert(records, r) <==> q in records)
    ensures forall i :: 0 <= i < |records| ==> Upsert(records, r)[i].continuityId == records[i].continuityId
    ensures |Upsert(records, r)| == |records| + (if exists q :: q in records && q.continuityId == r.continuityId then 0 else 1)
  {
    PositionIsFirst(records, r.continuityId);
    var i := Position(records, r.continuityId);
    var u := Upsert(records, r);
    if i < |records| {
      assert u[i] == r;
      assert records[i] in records;
      forall q: Record | q.continuityId != r.continuityId ensures q in u <==> q in records {
        if q in records {
          var j :| 0 <= j < |records| && records[j] == q;
          assert u[j] == q;
        }
      }
    } else {
      assert u[|records|] == r;
    }
  }

  lemma {:induction false} UpsertAllDistinct(base: seq<Record>, rs: seq<Record>)
    requires DistinctIds(base)
    ensures DistinctIds(UpsertAll(base, rs))
    decreases rs
  {
    if rs != [] {
      UpsertIsDictionaryUpdate(base, rs[0]);
      UpsertAllDistinct(Upsert(base, rs[0]), rs[1..]);
    }
  }

  // ---- Sequence repair ----

  /** A number that does not exceed the current one is replaced by the next one. */
  function Repaired(cur: int, sequence: int): int {
    if sequence <= cur then cur + 1 else sequence
  }

  function Renumber(cur: int, es: seq<Event>): (rs: seq<Event>)
    ensures |rs| == |es|
    decreases es
  {
    if es == [] then []
    else
      var n := Repaired(cur, es[0].sequence);
      [es[0].(sequence := n)] + Renumber(n, es[1..])
  }

  function LastSequence(cur: int, es: seq<Event>): int {
    if es == [] then cur else es[|es| - 1].sequence
  }

  lemma {:induction false} RenumberConcat(cur: int, a: seq<Event>, b: seq<Event>)
    ensures Renumber(cur, a + b) == Renumber(cur, a) + Renumber(LastSequence(cur, Renumber(cur, a)), b)
    decreases a
  {
    if a == [] {
      assert a + b == b;
    } else {
      var n := Repaired(cur, a[0].sequence);
      assert (a + b)[1..] == a[1..] + b;
      RenumberConcat(n, a[1..], b);
    }
  }

  ghost predicate Increasing(cur: int, es: seq<Event>) {
    && (forall i :: 0 <= i < |es| ==> cur < es[i].sequence)
    && (forall i, j :: 0 <= i < j < |es| ==> es[i].sequence < es[j].sequence)
  }

  lemma {:induction false} RenumberIncreasing(cur: int, es: seq<Event>)
    ensures Increasing(cur, Renumber(cur, es))
    ensures forall i :: 0 <= i < |es| ==> es[i].sequence <= Renumber(cur, es)[i].sequence
    ensures forall i :: 0 <= i < |es| ==> Renumber(cur, es)[i] == es[i].(sequence := Renumber(cur, es)[i].sequence)
    decreases es
  {
    if es != [] {
      RenumberIncreasing(Repaired(cur, es[0].sequence), es[1..]);
    }
  }

  /** A strictly increasing numbering above `cur` that nowhere lowers a logged number. */
  ghost predicate Admissible(cur: int, es: seq<Event>, numbers: seq<int>) {
    && |numbers| == |es|
    && (forall i :: 0 <= i < |es| ==> cur < numbers[i] && es[i].sequence <= numbers[i])
    && (forall i, j :: 0 <= i < j < |numbers| ==> numbers[i] < numbers[j])
  }

  function Numbers(es: seq<Event>): (ns: seq<int>)
    ensures |ns| == |es|
    ensures forall i :: 0 <= i < |es| ==> ns[i] == es[i].sequence
  {
    seq(|es|, i requires 0 <= i < |es| => es[i].sequence)
  }

  lemma {:induction false} RenumberLeast(cur: int, es: seq<Event>, numbers: seq<int>)
    requires Admissible(cur, es, numbers)
    ensures forall i :: 0 <= i < |es| ==> Renumber(cur, es)[i].sequence <= numbers[i]
    decreases es
  {
    if es != [] {
      RenumberLeast(Repaired(cur, es[0].sequence), es[1..], numbers[1..]);
    }
  }

  lemma {:induction false} RenumberIdentity(cur: int, es: seq<Event>)
    requires Increasing(cur, es)
    ensures Renumber(cur, es) == es
    decreases es
  {
    if es != [] {
      var n, rest := es[0].sequence, es[1..];
      assert es == [es[0]] + rest;
      IncreasingCons(cur, es[0], rest);
      RenumberIdentity(n, rest);
      assert Repaired(cur, n) == n;
    }
  }

  lemma {:induction false} RepairIsAdmissible(es: seq<Event>)
    ensures Admissible(0, es, Numbers(Renumber(0, es)))
    ensures forall i :: 0 <= i < |es| ==> Renumber(0, es)[i].(sequence := es[i].sequence) == es[i]
  {
    RenumberIncreasing(0, es);
  }

  lemma RepairIsIdempotent(es: seq<Event>)
    ensures Renumber(0, Renumber(0, es)) == Renumber(0, es)
    ensures Renumber(0, es) == es <==> Increasing(0, es)
  {
    RenumberIncreasing(0, es);
    RenumberIdentity(0, Renumber(0, es));
    if Increasing(0, es) {
      RenumberIdentity(0, es);
    }
  }

  lemma RepairIsLeast(es: seq<Event>)
    ensures forall numbers :: Admissible(0, es, numbers) ==>
      forall i :: 0 <= i < |es| ==> Renumber(0, es)[i].sequence <= numbers[i]
  {
    forall numbers | Admissible(0, es, numbers)
      ensures forall i :: 0 <= i < |es| ==> Renumber(0, es)[i].sequence <= numbers[i]
    {
      RenumberLeast(0, es, numbers);
    }
  }

  /**
   The repaired numbers are the pointwise least admissible ones; the repair changes nothing
   else, is idempotent, and leaves a log alone exactly when its numbers were positive and
   strictly increasing.
   */
  lemma RepairIsOptimal(es: seq<Event>)
    ensures Admissible(0, es, Numbers(Renumber(0, es)))
    ensures forall numbers :: Admissible(0, es, numbers) ==>
      forall i :: 0 <= i < |es| ==> Renumber(0, es)[i].sequence <= numbers[i]
    ensures forall i :: 0 <= i < |es| ==> Renumber(0, es)[i].(sequence := es[i].sequence) == es[i]
    ensures Renumber(0, Renumber(0, es)) == Renumber(0, es)
    ensures Renumber(0, es) == es <==> Increasing(0, es)
  {
    RepairIsAdmissible(es);
    RepairIsLeast(es);
    RepairIsIdempotent(es);
  }

  // ---- Quarantine ----

  datatype LogFile = RecordsFile | EventsFile

  datatype QuarantineEntry = QuarantineEntry(file: LogFile, lineNo: nat, raw: string)

  /** One entry for each undecodable line; `seen` lines came before. */
  function Quarantine<T>(c: Codec<T>, file: LogFile, seen: nat, lines: seq<string>): seq<QuarantineEntry>
    decreases lines
  {
    if lines == [] then []
    else
      var r := Read(c, lines[0]);
      (if r.Bad? then [QuarantineEntry(file, seen + 1, r.raw)] else []) + Quarantine(c, file, seen + 1, lines[1..])
  }

  lemma {:induction false} QuarantineConcat<T>(c: Codec<T>, file: LogFile, seen: nat, a: seq<string>, b: seq<string>)
    ensures Quarantine(c, file, seen, a + b) == Quarantine(c, file, seen, a) + Quarantine(c, file, seen + |a|, b)
    decreases a
  {
    if a == [] {
      assert a + b == b;
    } else {
      assert (a + b)[1..] == a[1..] + b;
      QuarantineConcat(c, file, seen + 1, a[1..], b);
      var r := Read(c, a[0]);
      Assoc(if r.Bad? then [QuarantineEntry(file, seen + 1, r.raw)] else [],
            Quarantine(c, file, seen + 1, a[1..]), Quarantine(c, file, seen + |a|, b));
    }
  }

  lemma {:induction false} QuarantineSound<T>(c: Codec<T>, file: LogFile, seen: nat, lines: seq<string>, q: QuarantineEntry)
    requires q in Quarantine(c, file, seen, lines)
    ensures q.file == file && seen < q.lineNo <= seen + |lines|
    ensures Read(c, lines[q.lineNo - seen - 1]) == Bad(q.raw)
    decreases lines
  {
    if q in Quarantine(c, file, seen + 1, lines[1..]) {
      QuarantineSound(c, file, seen + 1, lines[1..], q);
    }
  }

  lemma {:induction false} QuarantineComplete<T>(c: Codec<T>, file: LogFile, seen: nat, lines: seq<string>, i: nat, raw: string)
    requires i < |lines| && Read(c, lines[i]) == Bad(raw)
    ensures QuarantineEntry(file, seen + i + 1, raw) in Quarantine(c, file, seen, lines)
    decreases lines
  {
    if i > 0 {
      QuarantineComplete(c, file, seen + 1, lines[1..], i - 1, raw);
    }
  }

  ghost predicate Ascending(floor: nat, qs: seq<QuarantineEntry>) {
    && (forall i :: 0 <= i < |qs| ==> floor < qs[i].lineNo)
    && (forall i, j :: 0 <= i < j < |qs| ==> qs[i].lineNo < qs[j].lineNo)
  }

  lemma AscendingCons(q: QuarantineEntry, qs: seq<QuarantineEntry>, floor: nat)
    requires floor < q.lineNo && Ascending(q.lineNo, qs)
    ensures Ascending(floor, [q] + qs)
  {
    var all := [q] + qs;
    assert forall i :: 1 <= i < |all| ==> all[i] == qs[i - 1];
  }

  lemma {:induction false} QuarantineOrdered<T>(c: Codec<T>, file: LogFile, seen: nat, lines: seq<string>)
    ensures Ascending(seen, Quarantine(c, file, seen, lines))
    decreases lines
  {
    if lines != [] {
      QuarantineOrdered(c, file, seen + 1, lines[1..]);
      var rest := Quarantine(c, file, seen + 1, lines[1..]);
      match Read(c, lines[0])
      case Bad(raw) =>
        AscendingCons(QuarantineEntry(file, seen + 1, raw), rest, seen);
      case _ =>
        assert [] + rest == rest;
    }
  }

  lemma QuarantinesLine<T>(c: Codec<T>, file: LogFile, lines: seq<string>, n: nat, raw: string)
    ensures QuarantineEntry(file, n, raw) in Quarantine(c, file, 0, lines)
      <==> 1 <= n <= |lines| && Read(c, lines[n - 1]) == Bad(raw)
  {
    if QuarantineEntry(file, n, raw) in Quarantine(c, file, 0, lines) {
      QuarantineSound(c, file, 0, lines, QuarantineEntry(file, n, raw));
    }
    if 1 <= n <= |lines| && Read(c, lines[n - 1]) == Bad(raw) {
      QuarantineComplete(c, file, 0, lines, n - 1, raw);
    }
  }

  /** The quarantine list is exactly the undecodable lines, stripped, with their line numbers, in scan order. */
  lemma QuarantineIsExact<T>(c: Codec<T>, file: LogFile, lines: seq<string>)
    ensures forall n: nat, raw :: (
      QuarantineEntry(file, n, raw) in Quarantine(c, file, 0, lines)
      <==> 1 <= n <= |lines| && Read(c, lines[n - 1]) == Bad(raw))
    ensures Ascending(0, Quarantine(c, file, 0, lines))
  {
    QuarantineOrdered(c, file, 0, lines);
    forall n: nat, raw
      ensures QuarantineEntry(file, n, raw) in Quarantine(c, file, 0, lines)
        <==> 1 <= n <= |lines| && Read(c, lines[n - 1]) == Bad(raw)
    {
      QuarantinesLine(c, file, lines, n, raw);
    }
  }

  // ---- Corruption status ----

  datatype Corruption = Clean | Recovered | Quarantined

  /** The status after a scan of event lines that starts from `status` at number `cur`. */
  function EventStatus(c: Codec<Event>, status: Corruption, cur: int, lines: seq<string>): Corruption
    decreases lines
  {
    if lines == [] then status
    else match Read(c, lines[0])
      case Blank => EventStatus(c, status, cur, lines[1..])
      case Bad(_) => EventStatus(c, Quarantined, cur, lines[1..])
      case Good(e) =>
        EventStatus(c, if e.sequence <= cur then Recovered else status, Repaired(cur, e.sequence), lines[1..])
  }

  function RecordStatus(c: Codec<Record>, status: Corruption, lines: seq<string>): Corruption
    decreases lines
  {
    if lines == [] then status
    else RecordStatus(c, if Read(c, lines[0]).Bad? then Quarantined else status, lines[1..])
  }

  lemma {:induction false} RecordStatusConcat(c: Codec<Record>, status: Corruption, a: seq<string>, b: seq<string>)
    ensures RecordStatus(c, status, a + b) == RecordStatus(c, RecordStatus(c, status, a), b)
    decreases a
  {
    if a == [] {
      assert a + b == b;
    } else {
      assert (a + b)[1..] == a[1..] + b;
      RecordStatusConcat(c, if Read(c, a[0]).Bad? then Quarantined else status, a[1..], b);
    }
  }

  /** The current number after a scan of event lines. */
  function ScanNumber(c: Codec<Event>, cur: int, lines: seq<string>): int {
    LastSequence(cur, Renumber(cur, Values(c, lines)))
  }

  lemma ScanNumberStep(c: Codec<Event>, cur: int, lines: seq<string>)
    requires lines != []
    ensures ScanNumber(c, cur, lines)
         == ScanNumber(c, match Read(c, lines[0]) case Good(e) => Repaired(cur, e.sequence) case _ => cur, lines[1..])
  {
    var vs := Values(c, lines[1..]);
    match Read(c, lines[0])
    case Good(e) =>
      assert ([e] + vs)[1..] == vs;
    case _ =>
      assert [] + vs == vs;
  }

  lemma {:induction false} EventStatusConcat(c: Codec<Event>, status: Corruption, cur: int, a: seq<string>, b: seq<string>)
    ensures EventStatus(c, status, cur, a + b)
         == EventStatus(c, EventStatus(c, status, cur, a), ScanNumber(c, cur, a), b)
    decreases a
  {
    if a == [] {
      assert a + b == b;
    } else {
      assert (a + b)[1..] == a[1..] + b;
      ScanNumberStep(c, cur, a);
      match Read(c, a[0])
      case Blank => EventStatusConcat(c, status, cur, a[1..], b);
      case Bad(_) => EventStatusConcat(c, Quarantined, cur, a[1..], b);
      case Good(e) =>
        EventStatusConcat(c, if e.sequence <= cur then Recovered else status, Repaired(cur, e.sequence), a[1..], b);
    }
  }

  /** What the scan notes at event line `i`, if anything. */
  function EventIncident(c: Codec<Event>, cur: int, lines: seq<string>, i: nat): Option<Corruption>
    requires i < |lines|
  {
    match Read(c, lines[i])
    case Blank => None
    case Bad(_) => Some(Quarantined)
    case Good(e) => if e.sequence <= ScanNumber(c, cur, lines[..i]) then Some(Recovered) else None
  }

  ghost predicate LastIncidentAt(c: Codec<Event>, cur: int, lines: seq<string>, i: int) {
    && 0 <= i < |lines|
    && EventIncident(c, cur, lines, i).Some?
    && forall j :: i < j < |lines| ==> EventIncident(c, cur, lines, j).None?
  }

  lemma EventStatusOfLastLine(c: Codec<Event>, status: Corruption, cur: int, lines: seq<string>, last: nat)
    requires last + 1 == |lines|
    ensures EventStatus(c, status, cur, lines)
         == match EventIncident(c, cur, lines, last)
            case Some(kind) => kind
            case None => EventStatus(c, status, cur, lines[..last])
  {
    var front, line := lines[..last], lines[last];
    assert front + [line] == lines;
    EventStatusConcat(c, status, cur, front, [line]);
    assert [line][1..] == [];
  }

  lemma IncidentOfPrefix(c: Codec<Event>, cur: int, lines: seq<string>, last: nat, i: nat)
    requires i < last < |lines|
    ensures EventIncident(c, cur, lines[..last], i) == EventIncident(c, cur, lines, i)
  {
    assert lines[..last][..i] == lines[..i];
  }

  /** Without an incident the event scan keeps the status it started from. */
  lemma {:induction false} NoIncidentKeepsStatus(c: Codec<Event>, status: Corruption, cur: int, lines: seq<string>)
    requires forall i :: 0 <= i < |lines| ==> EventIncident(c, cur, lines, i).None?
    ensures EventStatus(c, status, cur, lines) == status
    decreases lines
  {
    if lines != [] {
      var last := |lines| - 1;
      EventStatusOfLastLine(c, status, cur, lines, last);
      forall i | 0 <= i < last ensures EventIncident(c, cur, lines[..last], i).None? {
        IncidentOfPrefix(c, cur, lines, last, i);
      }
      NoIncidentKeepsStatus(c, status, cur, lines[..last]);
    }
  }

  /** The event scan's status is the kind of its last incident. */
  lemma {:induction false} LastIncidentNamesStatus(c: Codec<Event>, status: Corruption, cur: int, lines: seq<string>, i: nat)
    requires LastIncidentAt(c, cur, lines, i)
    ensures EventStatus(c, status, cur, lines) == EventIncident(c, cur, lines, i).value
    decreases lines
  {
    var last := |lines| - 1;
    EventStatusOfLastLine(c, status, cur, lines, last);
    if i < last {
      LastIncidentBefore(c, cur, lines, last, i);
      LastIncidentNamesStatus(c, status, cur, lines[..last], i);
    }
  }

  lemma LastIncidentBefore(c: Codec<Event>, cur: int, lines: seq<string>, last: nat, i: nat)
    requires LastIncidentAt(c, cur, lines, i) && i < last < |lines|
    ensures LastIncidentAt(c, cur, lines[..last], i)
    ensures EventIncident(c, cur, lines[..last], i) == EventIncident(c, cur, lines, i)
  {
    forall j: nat | j < last ensures EventIncident(c, cur, lines[..last], j) == EventIncident(c, cur, lines, j) {
      IncidentOfPrefix(c, cur, lines, last, j);
    }
  }

  lemma {:induction false} RecordStatusIsQuarantined(c: Codec<Record>, status: Corruption, lines: seq<string>)
    ensures RecordStatus(c, status, lines)
         == if exists i :: 0 <= i < |lines| && Read(c, lines[i]).Bad? then Quarantined else status
    decreases lines
  {
    if lines != [] {
      RecordStatusIsQuarantined(c, if Read(c, lines[0]).Bad? then Quarantined else status, lines[1..]);
      if i :| 0 <= i < |lines| && Read(c, lines[i]).Bad? {
        if i > 0 { assert lines[1..][i - 1] == lines[i]; }
      }
    }
  }

  /** The event scan notes nothing exactly when every line decodes or is blank and the numbers are above `cur` and increase. */
  lemma {:induction false} NoIncidentMeansWellNumbered(c: Codec<Event>, cur: int, lines: seq<string>)
    ensures EventStatus(c, Clean, cur, lines) == Clean
      <==> (forall i :: 0 <= i < |lines| ==> !Read(c, lines[i]).Bad?) && Increasing(cur, Values(c, lines))
    decreases lines
  {
    if lines != [] {
      var rest := lines[1..];
      assert forall i :: 0 < i < |lines| ==> lines[i] == rest[i - 1];
      match Read(c, lines[0])
      case Blank =>
        NoIncidentMeansWellNumbered(c, cur, rest);
        assert Values(c, lines) == Values(c, rest);
      case Bad(_) =>
        SpoiledStays(c, Quarantined, cur, rest);
      case Good(e) =>
        if e.sequence <= cur {
          SpoiledStays(c, Recovered, Repaired(cur, e.sequence), rest);
          assert Values(c, lines)[0] == e;
        } else {
          NoIncidentMeansWellNumbered(c, e.sequence, rest);
          IncreasingCons(cur, e, Values(c, rest));
        }
    }
  }

  lemma IncreasingCons(cur: int, e: Event, es: seq<Event>)
    ensures Increasing(cur, [e] + es) <==> cur < e.sequence && Increasing(e.sequence, es)
  {
    var all := [e] + es;
    assert all[0] == e && all[1..] == es;
    if Increasing(cur, all) {
      forall i, j | 0 <= i < j < |es| ensures es[i].sequence < es[j].sequence {
        assert all[i + 1] == es[i] && all[j + 1] == es[j];
      }
    }
  }

  lemma {:induction false} SpoiledStays(c: Codec<Event>, status: Corruption, cur: int, lines: seq<string>)
    requires status != Clean
    ensures EventStatus(c, status, cur, lines) != Clean
    decreases lines
  {
    if lines != [] {
      match Read(c, lines[0])
      case Blank => SpoiledStays(c, status, cur, lines[1..]);
      case Bad(_) => SpoiledStays(c, Quarantined, cur, lines[1..]);
      case Good(e) =>
        SpoiledStays(c, if e.sequence <= cur then Recovered else status, Repaired(cur, e.sequence), lines[1..]);
    }
  }

  // ---- The scan as a fold over the lines ----

  datatype ScanState = ScanState(
    records: seq<Record>, events: seq<Event>, number: int, quarantined: seq<QuarantineEntry>, corruption: Corruption)

  function ScanRecords(c: Codec<Record>, lines: seq<string>): ScanState {
    if lines == [] then ScanState([], [], 0, [], Clean)
    else
      var last := |lines| - 1;
      var s := ScanRecords(c, lines[..last]);
      match Read(c, lines[last])
      case Blank => s
      case Good(r) => s.(records := Upsert(s.records, r))
      case Bad(raw) =>
        s.(quarantined := s.quarantined + [QuarantineEntry(RecordsFile, last + 1, raw)], corruption := Quarantined)
  }

  function ScanEventLine(s: ScanState, r: Reading<Event>, lineNo: nat): ScanState {
    match r
    case Blank => s
    case Good(e) =>
      var n := Repaired(s.number, e.sequence);
      s.(events := s.events + [e.(sequence := n)], number := n,
         corruption := if e.sequence <= s.number then Recovered else s.corruption)
    case Bad(raw) =>
      s.(quarantined := s.quarantined + [QuarantineEntry(EventsFile, lineNo, raw)], corruption := Quarantined)
  }

  function ScanEvents(c: Codec<Event>, quarantined: seq<QuarantineEntry>, corruption: Corruption, lines: seq<string>): ScanState
    decreases lines
  {
    if lines == [] then ScanState([], [], 0, quarantined, corruption)
    else
      var last := |lines| - 1;
      ScanEventLine(ScanEvents(c, quarantined, corruption, lines[..last]), Read(c, lines[last]), last + 1)
  }

  lemma ValuesSnoc<T>(c: Codec<T>, front: seq<string>, line: string)
    ensures Values(c, front + [line]) == Values(c, front) + ValueOf(Read(c, line))
  {
    ValuesConcat(c, front, [line]);
    ValuesOfOne(c, line);
  }

  lemma QuarantineSnoc<T>(c: Codec<T>, file: LogFile, front: seq<string>, line: string)
    ensures Quarantine(c, file, 0, front + [line]) == Quarantine(c, file, 0, front)
      + (if Read(c, line).Bad? then [QuarantineEntry(file, |front| + 1, Strip(line))] else [])
  {
    QuarantineConcat(c, file, 0, front, [line]);
    assert [line][1..] == [];
  }

  lemma RecordStatusSnoc(c: Codec<Record>, front: seq<string>, line: string)
    ensures RecordStatus(c, Clean, front + [line])
         == if Read(c, line).Bad? then Quarantined else RecordStatus(c, Clean, front)
  {
    RecordStatusConcat(c, Clean, front, [line]);
    assert [line][1..] == [];
  }

  lemma EventStatusSnoc(c: Codec<Event>, status: Corruption, front: seq<string>, line: string)
    ensures EventStatus(c, status, 0, front + [line]) ==
      match Read(c, line)
      case Blank => EventStatus(c, status, 0, front)
      case Bad(_) => Quarantined
      case Good(e) => if e.sequence <= ScanNumber(c, 0, front) then Recovered else EventStatus(c, status, 0, front)
  {
    EventStatusConcat(c, status, 0, front, [line]);
    assert [line][1..] == [];
  }

  lemma RenumberSnoc(es: seq<Event>, e: Event)
    ensures var n := Repaired(LastSequence(0, Renumber(0, es)), e.sequence);
      Renumber(0, es + [e]) == Renumber(0, es) + [e.(sequence := n)]
  {
    RenumberConcat(0, es, [e]);
    assert [e][1..] == [];
  }

  lemma {:induction false} ScanRecordsIs(c: Codec<Record>, lines: seq<string>)
    ensures ScanRecords(c, lines) == ScanState(
      UpsertAll([], Values(c, lines)), [], 0, Quarantine(c, RecordsFile, 0, lines), RecordStatus(c, Clean, lines))
  {
    if lines != [] {
      var front, line := lines[..|lines| - 1], lines[|lines| - 1];
      assert lines == front + [line];
      ScanRecordsIs(c, front);
      ValuesSnoc(c, front, line);
      QuarantineSnoc(c, RecordsFile, front, line);
      RecordStatusSnoc(c, front, line);
      match Read(c, line)
      case Good(r) => UpsertAllSnoc([], Values(c, front), r);
      case _ => assert Values(c, front) + [] == Values(c, front);
    }
  }

  function EventScan(c: Codec<Event>, quarantined: seq<QuarantineEntry>, corruption: Corruption, lines: seq<string>): ScanState {
    var events := Renumber(0, Values(c, lines));
    ScanState([], events, LastSequence(0, events), quarantined + Quarantine(c, EventsFile, 0, lines), EventStatus(c, corruption, 0, lines))
  }

  /** The events and the number after one more line. */
  lemma EventsSnoc(c: Codec<Event>, front: seq<string>, line: string)
    ensures var before, after := Renumber(0, Values(c, front)), Renumber(0, Values(c, front + [line]));
      var (r, number) := (Read(c, line), LastSequence(0, before));
      after == if r.Good? then before + [r.value.(sequence := Repaired(number, r.value.sequence))] else before
  {
    ValuesSnoc(c, front, line);
    match Read(c, line)
    case Good(e) => RenumberSnoc(Values(c, front), e);
    case _ => assert Values(c, front) + [] == Values(c, front);
  }

  /** The quarantine list after one more line. */
  lemma QuarantinedSnoc(c: Codec<Event>, quarantined: seq<QuarantineEntry>, front: seq<string>, line: string)
    ensures var before, after := quarantined + Quarantine(c, EventsFile, 0, front), quarantined + Quarantine(c, EventsFile, 0, front + [line]);
      after == if Read(c, line).Bad? then before + [QuarantineEntry(EventsFile, |front| + 1, Strip(line))] else before
  {
    QuarantineSnoc(c, EventsFile, front, line);
    var qs := Quarantine(c, EventsFile, 0, front);
    match Read(c, line)
    case Bad(raw) => Assoc(quarantined, qs, [QuarantineEntry(EventsFile, |front| + 1, raw)]);
    case _ => assert qs + [] == qs;
  }

  lemma EventScanSnoc(c: Codec<Event>, quarantined: seq<QuarantineEntry>, corruption: Corruption, front: seq<string>, line: string)
    ensures EventScan(c, quarantined, corruption, front + [line])
         == ScanEventLine(EventScan(c, quarantined, corruption, front), Read(c, line), |front| + 1)
  {
    EventsSnoc(c, front, line);
    QuarantinedSnoc(c, quarantined, front, line);
    EventStatusSnoc(c, corruption, front, line);
  }

  lemma {:induction false} ScanEventsIs(c: Codec<Event>, quarantined: seq<QuarantineEntry>, corruption: Corruption, lines: seq<string>)
    ensures ScanEvents(c, quarantined, corruption, lines) == EventScan(c, quarantined, corruption, lines)
    decreases lines
  {
    if lines == [] {
      assert quarantined + [] == quarantined;
    } else {
      var front, line := lines[..|lines| - 1], lines[|lines| - 1];
      assert lines == front + [line];
      ScanEventsIs(c, quarantined, corruption, front);
      EventScanSnoc(c, quarantined, corruption, front, line);
    }
  }
}
