/**
 Runs of appends, saves and reloads in which any append and any save may be torn by a
 crash: how many events and how many saves can be missing in the end.
 */
module CrashRuns {
  import opened Models
  import opened LineFiles
  import opened Codecs
  import opened Replay
  import opened Stores
  import opened TornWrites

  // ---- What survives of what was begun ----

  ghost predicate Subsequence<T(!new)>(a: seq<T>, b: seq<T>)
    decreases b
  {
    a == [] ||
    (b != [] &&
     (Subsequence(a, b[..|b| - 1]) || (a[|a| - 1] == b[|b| - 1] && Subsequence(a[..|a| - 1], b[..|b| - 1]))))
  }

  lemma SubsequenceSkip<T(!new)>(a: seq<T>, b: seq<T>, x: T)
    requires Subsequence(a, b)
    ensures Subsequence(a, b + [x])
  {
    assert (b + [x])[..|b + [x]| - 1] == b;
  }

  lemma SubsequenceTake<T(!new)>(a: seq<T>, b: seq<T>, x: T)
    requires Subsequence(a, b)
    ensures Subsequence(a + [x], b + [x])
  {
    assert (b + [x])[..|b + [x]| - 1] == b;
    assert (a + [x])[..|a + [x]| - 1] == a;
  }

  lemma {:induction false} SubsequenceInit<T(!new)>(a: seq<T>, b: seq<T>)
    requires a != [] && Subsequence(a, b)
    ensures Subsequence(a[..|a| - 1], b)
    decreases b
  {
    var b' := b[..|b| - 1];
    assert b' + [b[|b| - 1]] == b;
    if Subsequence(a, b') {
      SubsequenceInit(a, b');
    }
    SubsequenceSkip(a[..|a| - 1], b', b[|b| - 1]);
  }

  /**
   The account of a file: `kept` are the ended lines added to it, `tail` what its
   unterminated tail decodes to, `begun` all that was ever written to it, whole or torn.
   */
  ghost predicate Budget<T(!new)>(kept: seq<T>, tail: seq<T>, clear: bool, begun: seq<T>, crashes: nat) {
    && |tail| <= 1
    && Subsequence(kept + tail, begun)
    && |begun| + (if clear then 0 else 1) <= |kept| + 2 * crashes
  }

  /** Losing the tail keeps what was kept. */
  lemma KeptAlone<T(!new)>(kept: seq<T>, tail: seq<T>, begun: seq<T>)
    requires |tail| <= 1 && Subsequence(kept + tail, begun)
    ensures Subsequence(kept, begun)
  {
    if tail == [] {
      assert kept + tail == kept;
    } else {
      SubsequenceInit(kept + tail, begun);
      assert (kept + tail)[..|kept + tail| - 1] == kept;
    }
  }

  /** An ended line on a clear file is kept; on any other it is lost, and the tail with it. */
  lemma BudgetEnded<T(!new)>(kept: seq<T>, tail: seq<T>, clear: bool, begun: seq<T>, crashes: nat, n: T)
    requires Budget(kept, tail, clear, begun, crashes)
    ensures Budget(if clear then kept + [n] else kept, [], true, begun + [n], crashes)
  {
    KeptAlone(kept, tail, begun);
    var kept' := if clear then kept + [n] else kept;
    assert kept' + [] == kept';
    if clear {
      SubsequenceTake(kept, begun, n);
    } else {
      SubsequenceSkip(kept, begun, n);
    }
  }

  /** A torn line leaves a tail that is at most the torn value. */
  lemma BudgetTorn<T(!new)>(kept: seq<T>, tail: seq<T>, clear: bool, begun: seq<T>, crashes: nat, n: T, tail': seq<T>)
    requires Budget(kept, tail, clear, begun, crashes)
    requires tail' == [] || tail' == [n]
    ensures Budget(kept, tail', false, begun + [n], crashes + 1)
  {
    KeptAlone(kept, tail, begun);
    if tail' == [] {
      assert kept + tail' == kept;
      SubsequenceSkip(kept, begun, n);
    } else {
      SubsequenceTake(kept, begun, n);
    }
  }

  lemma BudgetUntouched<T(!new)>(kept: seq<T>, tail: seq<T>, clear: bool, begun: seq<T>, crashes: nat, n: T)
    requires Budget(kept, tail, clear, begun, crashes)
    ensures Budget(kept, tail, clear, begun + [n], crashes + 1)
  {
    SubsequenceSkip(kept + tail, begun, n);
  }

  /** The account of a file that began with `values`. */
  ghost predicate FileKept<T(!new)>(c: Codec<T>, values: seq<T>, text: string, begun: seq<T>, crashes: nat, kept: seq<T>) {
    var v := ViewOf(c, text);
    v.ended == values + kept && Budget(kept, v.tail, v.clear, begun, crashes)
  }

  lemma WriteKept<T(!new)>(c: Codec<T>, values: seq<T>, text: string, begun: seq<T>, crashes: nat, kept: seq<T>, x: T)
    returns (kept': seq<T>)
    requires Lawful(c) && FileKept(c, values, text, begun, crashes, kept)
    ensures kept' == if Clear(text) then kept + [x] else kept
    ensures FileKept(c, values, text + Line(c, x), begun + [x], crashes, kept')
  {
    var v := ViewOf(c, text);
    ViewAfterAppend(c, text, x);
    BudgetEnded(kept, v.tail, v.clear, begun, crashes, x);
    Assoc(values, kept, [x]);
    kept' := if v.clear then kept + [x] else kept;
  }

  lemma MoreCrashes<T(!new)>(c: Codec<T>, values: seq<T>, text: string, begun: seq<T>, crashes: nat, kept: seq<T>)
    requires FileKept(c, values, text, begun, crashes, kept)
    ensures FileKept(c, values, text, begun, crashes + 1, kept)
  {
  }

  /** What was there may have been written in full, in part, or not at all. */
  lemma TornKept<T(!new)>(c: Codec<T>, values: seq<T>, text: string, begun: seq<T>, crashes: nat, kept: seq<T>, x: T, k: nat)
    returns (kept': seq<T>)
    requires Lawful(c) && FileKept(c, values, text, begun, crashes, kept) && k <= |Line(c, x)|
    ensures kept' == if k == |Line(c, x)| && Clear(text) then kept + [x] else kept
    ensures FileKept(c, values, text + Line(c, x)[..k], begun + [x], crashes + 1, kept')
  {
    var v, text' := ViewOf(c, text), text + Line(c, x)[..k];
    kept' := kept;
    if k == |Line(c, x)| {
      assert Line(c, x)[..k] == Line(c, x);
      kept' := WriteKept(c, values, text, begun, crashes, kept, x);
      MoreCrashes(c, values, text + Line(c, x), begun + [x], crashes, kept');
    } else if k == 0 {
      assert text + Line(c, x)[..0] == text;
      BudgetUntouched(kept, v.tail, v.clear, begun, crashes, x);
    } else {
      ViewAfterTorn(c, text, x, k);
      BudgetTorn(kept, v.tail, v.clear, begun, crashes, x, ViewOf(c, text').tail);
    }
  }

  // ---- Runs ----

  /** A crash falls inside the append of `e` or the save of `r`, after `k` characters; the log is then reloaded. */
  datatype Act = Write(e: Event) | TornWrite(e: Event, k: nat) | SaveIt(r: Record) | TornSave(r: Record, k: nat) | LoadAgain

  /**
   A run: the store, every event whose append was begun as it was numbered, the number of
   torn appends, every record whose save was begun, and the number of torn saves.
   */
  datatype Trace = Trace(store: Store, begun: seq<Event>, tornWrites: nat, saves: seq<Record>, tornSaves: nat)

  /** What `k` characters of the save of `r` leave on disk. */
  function TornSaveDisk(cs: LogCodecs, s: Store, r: Record, k: nat): Disk
    requires k <= |Line(cs.record, r)|
  {
    s.disk.(recordText := s.disk.recordText + Line(cs.record, r)[..k])
  }

  predicate Possible(cs: LogCodecs, t: Trace, act: Act) {
    match act
    case TornWrite(e, k) => Cut(cs, t.store, e, k)
    case TornSave(r, k) => k <= |Line(cs.record, r)|
    case _ => true
  }

  function Step(cs: LogCodecs, t: Trace, act: Act): Trace
    requires Possible(cs, t, act)
  {
    match act
    case Write(e) => t.(store := AppendEvent(cs, t.store, e), begun := t.begun + [Numbered(t.store, e)])
    case TornWrite(e, k) =>
      t.(store := Load(cs, TornDisk(cs, t.store, e, k)), begun := t.begun + [Numbered(t.store, e)], tornWrites := t.tornWrites + 1)
    case SaveIt(r) => t.(store := SaveRecord(cs, t.store, r), saves := t.saves + [r])
    case TornSave(r, k) =>
      t.(store := Load(cs, TornSaveDisk(cs, t.store, r, k)), saves := t.saves + [r], tornSaves := t.tornSaves + 1)
    case LoadAgain => t.(store := Load(cs, t.store.disk))
  }

  /** `acts` can happen one after the other and lead from `t` to `u`. */
  ghost predicate Leads(cs: LogCodecs, t: Trace, acts: seq<Act>, u: Trace)
    decreases acts
  {
    if acts == [] then t == u
    else Possible(cs, t, acts[0]) && Leads(cs, Step(cs, t, acts[0]), acts[1..], u)
  }

  // ---- The numbers of the events ----

  lemma IncreasingSnoc(base: int, es: seq<Event>, e: Event)
    requires Increasing(base, es) && LastSequence(base, es) < e.sequence
    ensures Increasing(base, es + [e])
  {
    if es != [] {
      assert forall i :: 0 <= i < |es| ==> es[i].sequence <= es[|es| - 1].sequence;
    } else {
      assert base < e.sequence;
    }
  }

  lemma IncreasingInit(base: int, es: seq<Event>, e: Event)
    requires Increasing(base, es + [e])
    ensures Increasing(base, es) && LastSequence(base, es) < e.sequence
  {
    var all := es + [e];
    assert all[|es|] == e;
    assert forall i :: 0 <= i < |es| ==> es[i] == all[i];
  }

  /** The events kept so far are numbered upwards from `base`, and the engine's number is at or past them all. */
  ghost predicate NumberedUp(base: int, kept: seq<Event>, tail: seq<Event>, number: int) {
    Increasing(base, kept + tail) && LastSequence(base, kept + tail) <= number
  }

  lemma NumberedAlone(base: int, kept: seq<Event>, tail: seq<Event>, number: int)
    requires |tail| <= 1 && NumberedUp(base, kept, tail, number)
    ensures Increasing(base, kept) && LastSequence(base, kept) <= number
  {
    if tail == [] {
      assert kept + tail == kept;
    } else {
      assert kept + tail == kept + [tail[0]];
      IncreasingInit(base, kept, tail[0]);
    }
  }

  lemma NumberedNext(base: int, kept: seq<Event>, tail: seq<Event>, number: int, n: Event)
    requires |tail| <= 1 && NumberedUp(base, kept, tail, number) && n.sequence == number + 1
    ensures NumberedUp(base, kept + [n], [], number + 1) && NumberedUp(base, kept, [n], number + 1) && NumberedUp(base, kept, [], number)
  {
    NumberedAlone(base, kept, tail, number);
    IncreasingSnoc(base, kept, n);
    assert kept + [n] + [] == kept + [n] && kept + [] == kept;
  }

  function LoadedNumber(c: Codec<Event>, text: string): int {
    LastSequence(0, Renumber(0, TextValues(c, text)))
  }

  function Base(values: seq<Event>): int {
    LastSequence(0, Renumber(0, values))
  }

  /** A reload sets the number to that of the file's last event. */
  lemma ReloadAccount(c: Codec<Event>, values: seq<Event>, text: string, kept: seq<Event>)
    requires ViewOf(c, text).ended == values + kept
    requires Increasing(Base(values), kept + ViewOf(c, text).tail)
    ensures Renumber(0, TextValues(c, text)) == Renumber(0, values) + (kept + ViewOf(c, text).tail)
    ensures LoadedNumber(c, text) == LastSequence(Base(values), kept + ViewOf(c, text).tail)
  {
    var tail := ViewOf(c, text).tail;
    ValuesOfView(c, text);
    Assoc(values, kept, tail);
    assert TextValues(c, text) == values + (kept + tail);
    ReplayWith(values, kept + tail);
    LastAfter(values, kept + tail);
  }

  lemma LastAfter(values: seq<Event>, es: seq<Event>)
    ensures LastSequence(0, Renumber(0, values) + es) == LastSequence(Base(values), es)
  {
  }

  ghost predicate EventsKept(c: Codec<Event>, values: seq<Event>, text: string, number: int, begun: seq<Event>, crashes: nat, kept: seq<Event>) {
    FileKept(c, values, text, begun, crashes, kept) && NumberedUp(Base(values), kept, ViewOf(c, text).tail, number)
  }

  /** A reload sets the number to that of the file's last event, and costs nothing. */
  lemma ReloadKept(c: Codec<Event>, values: seq<Event>, text: string, number: int, begun: seq<Event>, crashes: nat, kept: seq<Event>)
    requires EventsKept(c, values, text, number, begun, crashes, kept)
    ensures EventsKept(c, values, text, LoadedNumber(c, text), begun, crashes, kept)
  {
    ReloadAccount(c, values, text, kept);
  }

  lemma EventWritten(c: Codec<Event>, values: seq<Event>, text: string, number: int, begun: seq<Event>, crashes: nat, kept: seq<Event>, n: Event)
    returns (kept': seq<Event>)
    requires Lawful(c) && EventsKept(c, values, text, number, begun, crashes, kept) && n.sequence == number + 1
    ensures EventsKept(c, values, text + Line(c, n), number + 1, begun + [n], crashes, kept')
  {
    var v := ViewOf(c, text);
    NumberedNext(Base(values), kept, v.tail, number, n);
    ViewAfterAppend(c, text, n);
    kept' := WriteKept(c, values, text, begun, crashes, kept, n);
  }

  lemma EventTorn(c: Codec<Event>, values: seq<Event>, text: string, number: int, begun: seq<Event>, crashes: nat, kept: seq<Event>, n: Event, k: nat)
    returns (kept': seq<Event>)
    requires Lawful(c) && EventsKept(c, values, text, number, begun, crashes, kept) && n.sequence == number + 1
    requires k <= |Line(c, n)|
    ensures var text' := text + Line(c, n)[..k];
      EventsKept(c, values, text', LoadedNumber(c, text'), begun + [n], crashes + 1, kept')
  {
    var v, text' := ViewOf(c, text), text + Line(c, n)[..k];
    NumberedNext(Base(values), kept, v.tail, number, n);
    kept' := TornKept(c, values, text, begun, crashes, kept, n, k);
    TornTail(c, text, n, k);
    ReloadKept(c, values, text', number + 1, begun + [n], crashes + 1, kept');
  }

  /** What the tail decodes to after a torn write. */
  lemma TornTail(c: Codec<Event>, text: string, n: Event, k: nat)
    requires Lawful(c) && k <= |Line(c, n)|
    ensures var tail := ViewOf(c, text + Line(c, n)[..k]).tail;
      if k == |Line(c, n)| then tail == [] else if k == 0 then tail == ViewOf(c, text).tail else tail == [] || tail == [n]
  {
    if k == |Line(c, n)| {
      assert Line(c, n)[..k] == Line(c, n);
      ViewAfterAppend(c, text, n);
    } else if k == 0 {
      assert text + Line(c, n)[..0] == text;
    } else {
      ViewAfterTorn(c, text, n, k);
    }
  }

  // ---- The two files of a run ----

  ghost predicate TraceKept(cs: LogCodecs, values: seq<Event>, records: seq<Record>, t: Trace, kept: seq<Event>, saved: seq<Record>) {
    && EventsKept(cs.event, values, t.store.disk.eventText, t.store.memory.sequence, t.begun, t.tornWrites, kept)
    && FileKept(cs.record, records, t.store.disk.recordText, t.saves, t.tornSaves, saved)
  }

  lemma LoadNumber(cs: LogCodecs, d: Disk)
    ensures Load(cs, d).memory.sequence == LoadedNumber(cs.event, d.eventText)
    ensures Load(cs, d).memory.events == Renumber(0, TextValues(cs.event, d.eventText))
    ensures Load(cs, d).disk.eventText == d.eventText
  {
  }

  lemma StepKept(cs: LogCodecs, values: seq<Event>, records: seq<Record>, t: Trace, kept: seq<Event>, saved: seq<Record>, act: Act)
    returns (kept': seq<Event>, saved': seq<Record>)
    requires LawfulCodecs(cs) && TraceKept(cs, values, records, t, kept, saved) && Possible(cs, t, act)
    ensures TraceKept(cs, values, records, Step(cs, t, act), kept', saved')
  {
    kept', saved' := kept, saved;
    var text, number, recordText := t.store.disk.eventText, t.store.memory.sequence, t.store.disk.recordText;
    match act
    case Write(e) =>
      kept' := EventWritten(cs.event, values, text, number, t.begun, t.tornWrites, kept, Numbered(t.store, e));
    case TornWrite(e, k) =>
      kept' := EventTorn(cs.event, values, text, number, t.begun, t.tornWrites, kept, Numbered(t.store, e), k);
      LoadNumber(cs, TornDisk(cs, t.store, e, k));
    case SaveIt(r) =>
      saved' := WriteKept(cs.record, records, recordText, t.saves, t.tornSaves, saved, r);
    case TornSave(r, k) =>
      saved' := TornKept(cs.record, records, recordText, t.saves, t.tornSaves, saved, r, k);
      ReloadKept(cs.event, values, text, number, t.begun, t.tornWrites, kept);
      LoadNumber(cs, TornSaveDisk(cs, t.store, r, k));
    case LoadAgain =>
      ReloadKept(cs.event, values, text, number, t.begun, t.tornWrites, kept);
      LoadNumber(cs, t.store.disk);
  }

  lemma {:induction false} RunKept(cs: LogCodecs, values: seq<Event>, records: seq<Record>, t: Trace, kept: seq<Event>, saved: seq<Record>, acts: seq<Act>, u: Trace)
    returns (kept': seq<Event>, saved': seq<Record>)
    requires LawfulCodecs(cs) && TraceKept(cs, values, records, t, kept, saved) && Leads(cs, t, acts, u)
    ensures TraceKept(cs, values, records, u, kept', saved')
    decreases acts
  {
    if acts == [] {
      kept', saved' := kept, saved;
    } else {
      kept', saved' := StepKept(cs, values, records, t, kept, saved, acts[0]);
      kept', saved' := RunKept(cs, values, records, Step(cs, t, acts[0]), kept', saved', acts[1..], u);
    }
  }

  lemma StartKept<T(!new)>(c: Codec<T>, text: string)
    requires Clear(text)
    ensures FileKept(c, TextValues(c, text), text, [], 0, []) && ViewOf(c, text).tail == []
  {
    ValuesOfView(c, text);
    assert TextValues(c, text) + [] == TextValues(c, text);
    assert Subsequence<T>([] + [], []);
  }

  lemma {:induction false} UpsertAllConcat(base: seq<Record>, a: seq<Record>, b: seq<Record>)
    ensures UpsertAll(base, a + b) == UpsertAll(UpsertAll(base, a), b)
    decreases a
  {
    if a == [] {
      assert a + b == b;
    } else {
      assert (a + b)[1..] == a[1..] + b;
      UpsertAllConcat(Upsert(base, a[0]), a[1..], b);
    }
  }

  /** What a load finds in the two files. */
  lemma FoundEvents(cs: LogCodecs, values: seq<Event>, u: Trace, kept: seq<Event>, events: seq<Event>)
    requires EventsKept(cs.event, values, u.store.disk.eventText, u.store.memory.sequence, u.begun, u.tornWrites, kept)
    requires events == Renumber(0, values)
    ensures Load(cs, u.store.disk).memory.events == events + (kept + ViewOf(cs.event, u.store.disk.eventText).tail)
  {
    ReloadAccount(cs.event, values, u.store.disk.eventText, kept);
    LoadNumber(cs, u.store.disk);
  }

  lemma FoundRecords(cs: LogCodecs, records: seq<Record>, u: Trace, saved: seq<Record>)
    requires FileKept(cs.record, records, u.store.disk.recordText, u.saves, u.tornSaves, saved)
    ensures Load(cs, u.store.disk).memory.records ==
      UpsertAll(UpsertAll([], records), saved + ViewOf(cs.record, u.store.disk.recordText).tail)
  {
    var tail := ViewOf(cs.record, u.store.disk.recordText).tail;
    ValuesOfView(cs.record, u.store.disk.recordText);
    Assoc(records, saved, tail);
    UpsertAllConcat([], records, saved + tail);
  }

  /**
   Any run of appends, saves and reloads, with crashes inside any of the appends and saves,
   from a sound log. After a last reload the events are the ones the log began with,
   followed by some of those begun in the run, in order, with the numbers they were given,
   strictly increasing; with `m` torn appends at most `2 * m` of those begun are missing.
   And the dictionary is the one the log began with, updated by some of the saves begun in
   the run, in order; with `m` torn saves at most `2 * m` of those begun are missing.
   */
  lemma CrashBudget(cs: LogCodecs, s: Store, acts: seq<Act>, u: Trace) returns (survivors: seq<Event>, saved: seq<Record>)
    requires LawfulCodecs(cs) && Sound(cs, s)
    requires Leads(cs, Trace(s, [], 0, [], 0), acts, u)
    ensures Load(cs, u.store.disk).memory.events == s.memory.events + survivors
    ensures Subsequence(survivors, u.begun)
    ensures |u.begun| <= |survivors| + 2 * u.tornWrites
    ensures Increasing(s.memory.sequence, survivors)
    ensures Load(cs, u.store.disk).memory.records == UpsertAll(s.memory.records, saved)
    ensures Subsequence(saved, u.saves)
    ensures |u.saves| <= |saved| + 2 * u.tornSaves
  {
    var values, records := TextValues(cs.event, s.disk.eventText), TextValues(cs.record, s.disk.recordText);
    var t := Trace(s, [], 0, [], 0);
    StartTrace(cs, s);
    var kept, kept' := RunKept(cs, values, records, t, [], [], acts, u);
    survivors := kept + ViewOf(cs.event, u.store.disk.eventText).tail;
    saved := kept' + ViewOf(cs.record, u.store.disk.recordText).tail;
    FoundEvents(cs, values, u, kept, s.memory.events);
    FoundRecords(cs, records, u, kept');
  }

  lemma StartTrace(cs: LogCodecs, s: Store)
    requires Sound(cs, s)
    ensures var values, records := TextValues(cs.event, s.disk.eventText), TextValues(cs.record, s.disk.recordText);
      && TraceKept(cs, values, records, Trace(s, [], 0, [], 0), [], [])
      && s.memory.events == Renumber(0, values) && s.memory.records == UpsertAll([], records)
      && s.memory.sequence == Base(values)
  {
    StartKept(cs.event, s.disk.eventText);
    StartKept(cs.record, s.disk.recordText);
    assert [] + ViewOf(cs.event, s.disk.eventText).tail == [];
    SoundValues(cs, s);
  }
}
