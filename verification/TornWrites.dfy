/**
 Crashes in the middle of an append. The file keeps the first characters of the line;
 after a reload the next append is glued to them.
 */
module TornWrites {
  import opened Models
  import opened LineFiles
  import opened Codecs
  import opened Replay
  import opened Stores

  // ---- What an append, whole or torn, does to a file ----

  /** The values of a file's ended lines, the value of its unterminated tail if that decodes, and whether the tail holds nothing. */
  datatype View<T> = View(ended: seq<T>, tail: seq<T>, clear: bool)

  ghost function ViewOf<T>(c: Codec<T>, text: string): View<T> {
    View(TextValues(c, Body(text)), ValueOf(Read(c, Tail(text))), Clear(text))
  }

  lemma ValuesOfView<T>(c: Codec<T>, text: string)
    ensures TextValues(c, text) == ViewOf(c, text).ended + ViewOf(c, text).tail
    ensures Clear(text) ==> ViewOf(c, text).tail == [] && ViewOf(c, text).ended == TextValues(c, text)
  {
    ValuesOfTail(c, text);
    if Clear(text) {
      BlankTail(c, text);
    }
  }

  function Line<T>(c: Codec<T>, x: T): string {
    c.encode(x) + "\n"
  }

  lemma ViewAfterAppend<T(!new)>(c: Codec<T>, text: string, x: T)
    requires Lawful(c)
    ensures var v := ViewOf(c, text);
      ViewOf(c, text + Line(c, x)) == View(if v.clear then v.ended + [x] else v.ended, [], true)
  {
    ValuesAfterAppend(c, text, x);
    ValuesOfView(c, text);
    WholeIsClear(text + Line(c, x));
    ValuesOfView(c, text + Line(c, x));
  }

  lemma WholeLineTail<T(!new)>(c: Codec<T>, text: string, x: T)
    requires Lawful(c) && Clear(text)
    ensures ViewOf(c, text + c.encode(x)) == View(ViewOf(c, text).ended, [x], false)
  {
    var line := c.encode(x);
    assert line[..|line|] == line;
    TailAfterTorn(c, text, x, |line|);
    ReadAfter(c, Tail(text), x);
  }

  /** The first `k` characters of a line, `k` at least one and its '\n' not among them. */
  lemma ViewAfterTorn<T(!new)>(c: Codec<T>, text: string, x: T, k: nat)
    requires Lawful(c) && 1 <= k <= |c.encode(x)|
    ensures var v := ViewOf(c, text);
      ViewOf(c, text + Line(c, x)[..k]) == View(v.ended, if v.clear && k == |c.encode(x)| then [x] else [], false)
  {
    var line := c.encode(x);
    assert Line(c, x)[..k] == line[..k];
    if Clear(text) && k == |line| {
      assert line[..k] == line;
      WholeLineTail(c, text, x);
    } else {
      TailAfterTorn(c, text, x, k);
      ReadTorn(c, Tail(text), x, k);
    }
  }

  // ---- A crash in the middle of an append ----

  predicate Cut(cs: LogCodecs, s: Store, e: Event, k: nat) {
    k <= |Line(cs.event, Numbered(s, e))|
  }

  /** What `k` characters of the append of `e` leave on disk. */
  function TornDisk(cs: LogCodecs, s: Store, e: Event, k: nat): Disk
    requires Cut(cs, s, e, k)
  {
    s.disk.(eventText := s.disk.eventText + Line(cs.event, Numbered(s, e))[..k])
  }

  /** The append reached the file in full, '\n' included. */
  predicate Complete(cs: LogCodecs, s: Store, e: Event, k: nat) {
    k == |Line(cs.event, Numbered(s, e))|
  }

  /** Only the '\n' is missing. */
  predicate OnlyEndMissing(cs: LogCodecs, s: Store, e: Event, k: nat) {
    k + 1 == |Line(cs.event, Numbered(s, e))|
  }

  lemma CompleteTear(cs: LogCodecs, s: Store, e: Event, k: nat)
    requires Complete(cs, s, e, k)
    ensures TornDisk(cs, s, e, k) == AppendEvent(cs, s, e).disk
  {
    var line := Line(cs.event, Numbered(s, e));
    assert line[..k] == line;
  }

  lemma EmptyTear(cs: LogCodecs, s: Store, e: Event)
    ensures TornDisk(cs, s, e, 0) == s.disk
  {
    assert s.disk.eventText + Line(cs.event, Numbered(s, e))[..0] == s.disk.eventText;
  }

  // ---- A run of appends ----

  function NumberFrom(n: int, es: seq<Event>): (ns: seq<Event>)
    ensures |ns| == |es|
    decreases es
  {
    if es == [] then [] else [es[0].(sequence := n + 1)] + NumberFrom(n + 1, es[1..])
  }

  lemma {:induction false} NumberFromIncreasing(n: int, es: seq<Event>, floor: int)
    requires floor <= n
    ensures Increasing(floor, NumberFrom(n, es))
    decreases es
  {
    if es != [] {
      NumberFromIncreasing(n + 1, es[1..], n + 1);
      IncreasingCons(floor, es[0].(sequence := n + 1), NumberFrom(n + 1, es[1..]));
    }
  }

  function AppendAll(cs: LogCodecs, s: Store, es: seq<Event>): Store
    decreases es
  {
    if es == [] then s else AppendAll(cs, AppendEvent(cs, s, es[0]), es[1..])
  }

  lemma {:induction false} AppendAllMemory(cs: LogCodecs, s: Store, es: seq<Event>)
    ensures AppendAll(cs, s, es).memory.events == s.memory.events + NumberFrom(s.memory.sequence, es)
    decreases es
  {
    if es == [] {
      assert s.memory.events + [] == s.memory.events;
    } else {
      var first, s' := Numbered(s, es[0]), AppendEvent(cs, s, es[0]);
      AppendAllMemory(cs, s', es[1..]);
      var rest := NumberFrom(s'.memory.sequence, es[1..]);
      assert s.memory.events + ([first] + rest) == (s.memory.events + [first]) + rest;
    }
  }

  function AppendLines<T>(c: Codec<T>, text: string, xs: seq<T>): string
    decreases xs
  {
    if xs == [] then text else AppendLines(c, text + Line(c, xs[0]), xs[1..])
  }

  lemma {:induction false} AppendAllText(cs: LogCodecs, s: Store, es: seq<Event>)
    ensures AppendAll(cs, s, es).disk.eventText == AppendLines(cs.event, s.disk.eventText, NumberFrom(s.memory.sequence, es))
    decreases es
  {
    if es != [] {
      AppendAllText(cs, AppendEvent(cs, s, es[0]), es[1..]);
    }
  }

  lemma AddFirst<T>(before: seq<T>, xs: seq<T>)
    requires xs != []
    ensures before + [xs[0]] + xs[1..] == before + xs
  {
  }

  lemma {:induction false} AppendLinesClear<T(!new)>(c: Codec<T>, text: string, xs: seq<T>)
    requires Lawful(c) && Clear(text)
    ensures TextValues(c, AppendLines(c, text, xs)) == TextValues(c, text) + xs
    decreases xs
  {
    if xs == [] {
      assert TextValues(c, text) + [] == TextValues(c, text);
    } else {
      var text' := text + Line(c, xs[0]);
      AppendedValues(c, text, xs[0], text');
      AppendLinesClear(c, text', xs[1..]);
      AddFirst(TextValues(c, text), xs);
    }
  }

  lemma AppendedValues<T(!new)>(c: Codec<T>, text: string, x: T, text': string)
    requires Lawful(c) && text' == text + Line(c, x)
    ensures TextValues(c, text') == ViewOf(c, text).ended + (if Clear(text) then [x] else [])
    ensures Clear(text) ==> TextValues(c, text') == TextValues(c, text) + [x]
    ensures Clear(text')
  {
    ViewAfterAppend(c, text, x);
    ValuesOfView(c, text);
    ValuesOfView(c, text');
  }

  lemma AppendAllClear(cs: LogCodecs, s: Store, es: seq<Event>)
    requires LawfulCodecs(cs) && Clear(s.disk.eventText)
    ensures TextValues(cs.event, AppendAll(cs, s, es).disk.eventText)
         == TextValues(cs.event, s.disk.eventText) + NumberFrom(s.memory.sequence, es)
  {
    AppendAllText(cs, s, es);
    AppendLinesClear(cs.event, s.disk.eventText, NumberFrom(s.memory.sequence, es));
  }

  /** After unterminated text the first append of a run is lost. */
  lemma AppendAllGlued(cs: LogCodecs, s: Store, es: seq<Event>)
    requires LawfulCodecs(cs) && !Clear(s.disk.eventText) && es != []
    ensures TextValues(cs.event, AppendAll(cs, s, es).disk.eventText)
         == ViewOf(cs.event, s.disk.eventText).ended + NumberFrom(s.memory.sequence, es)[1..]
  {
    var given := NumberFrom(s.memory.sequence, es);
    var text' := s.disk.eventText + Line(cs.event, given[0]);
    AppendAllText(cs, s, es);
    AppendedValues(cs.event, s.disk.eventText, given[0], text');
    AppendLinesClear(cs.event, text', given[1..]);
  }

  /** Numbers above the current one need no repair. */
  lemma ReplayWith(values: seq<Event>, extra: seq<Event>)
    requires Increasing(LastSequence(0, Renumber(0, values)), extra)
    ensures Renumber(0, values + extra) == Renumber(0, values) + extra
  {
    RenumberConcat(0, values, extra);
    RenumberIdentity(LastSequence(0, Renumber(0, values)), extra);
  }

  /** What a load computes from a file that holds the old values and well-numbered new ones. */
  lemma ReloadWith(cs: LogCodecs, values: seq<Event>, d: Disk, extra: seq<Event>)
    requires TextValues(cs.event, d.eventText) == values + extra
    requires Increasing(LastSequence(0, Renumber(0, values)), extra)
    ensures Load(cs, d).memory.events == Renumber(0, values) + extra
    ensures Load(cs, d).memory.sequence == LastSequence(LastSequence(0, Renumber(0, values)), extra)
  {
    ReplayWith(values, extra);
  }

  // ---- One crash ----

  lemma IncreasingRest(cur: int, floor: int, es: seq<Event>)
    requires es != [] && floor <= cur && Increasing(cur, es)
    ensures Increasing(floor, es[1..])
  {
  }

  lemma SoundValues(cs: LogCodecs, s: Store)
    requires InStep(cs, s)
    ensures s.memory.events == Renumber(0, TextValues(cs.event, s.disk.eventText))
    ensures s.memory.sequence == LastSequence(0, s.memory.events)
  {
  }

  /** The file a torn append leaves. */
  lemma TornView(cs: LogCodecs, s: Store, e: Event, k: nat)
    requires LawfulCodecs(cs)
    requires Cut(cs, s, e, k) && k != 0 && !Complete(cs, s, e, k)
    ensures var v := ViewOf(cs.event, s.disk.eventText);
      ViewOf(cs.event, TornDisk(cs, s, e, k).eventText) ==
      View(v.ended, if v.clear && OnlyEndMissing(cs, s, e, k) then [Numbered(s, e)] else [], false)
  {
    ViewAfterTorn(cs.event, s.disk.eventText, Numbered(s, e), k);
  }

  /** What a reload finds in the file a torn append leaves. */
  lemma TornReload(cs: LogCodecs, values: seq<Event>, d: Disk, n: Event, extra: seq<Event>)
    requires ViewOf(cs.event, d.eventText).ended == values && ViewOf(cs.event, d.eventText).tail == extra
    requires n.sequence == LastSequence(0, Renumber(0, values)) + 1
    requires extra == [] || extra == [n]
    ensures Load(cs, d).memory.events == Renumber(0, values) + extra
    ensures Load(cs, d).memory.sequence == n.sequence - 1 + |extra|
  {
    ValuesOfView(cs.event, d.eventText);
    if extra == [] {
      ReloadWith(cs, values, d, []);
    } else {
      LastOfOne(n.sequence - 1, n);
      ReloadWith(cs, values, d, [n]);
    }
  }

  lemma LastOfOne(cur: int, n: Event)
    requires n.sequence == cur + 1
    ensures Increasing(cur, [n]) && LastSequence(cur, [n]) == n.sequence
  {
  }

  /**
   A crash in the middle of an append costs at most that event and the next one appended.
   From a sound log: append `e`, crash with some but not all of its line written, reload,
   append `es`, reload. Right after the crash the events are the old ones, and `e` in the
   one case where only its '\n' is missing. After the appends they are the old ones and
   `es` without its first event, with the numbers given when they were appended.
   */
  lemma TornAppendCost(cs: LogCodecs, s: Store, e: Event, k: nat, es: seq<Event>)
    requires LawfulCodecs(cs) && Sound(cs, s)
    requires Cut(cs, s, e, k) && k != 0 && !Complete(cs, s, e, k)
    ensures var s1 := Load(cs, TornDisk(cs, s, e, k));
      var given := NumberFrom(s1.memory.sequence, es);
      && s1.memory.events == s.memory.events + (if OnlyEndMissing(cs, s, e, k) then [Numbered(s, e)] else [])
      && AppendAll(cs, s1, es).memory.events == s1.memory.events + given
      && (es != [] ==> Load(cs, AppendAll(cs, s1, es).disk).memory.events == s.memory.events + given[1..])
  {
    var d, n := TornDisk(cs, s, e, k), Numbered(s, e);
    var s1 := Load(cs, d);
    TornView(cs, s, e, k);
    ValuesOfView(cs.event, s.disk.eventText);
    SoundValues(cs, s);
    TornReload(cs, TextValues(cs.event, s.disk.eventText), d, n, if OnlyEndMissing(cs, s, e, k) then [n] else []);
    var given := NumberFrom(s1.memory.sequence, es);
    AppendAllMemory(cs, s1, es);
    if es != [] {
      AppendAllGlued(cs, s1, es);
      NumberFromIncreasing(s1.memory.sequence, es, s1.memory.sequence);
      IncreasingRest(s1.memory.sequence, s.memory.sequence, given);
      ReloadWith(cs, TextValues(cs.event, s.disk.eventText), AppendAll(cs, s1, es).disk, given[1..]);
    }
  }

  lemma ReloadThenAppend(cs: LogCodecs, s: Store, d: Disk, es: seq<Event>)
    requires LawfulCodecs(cs) && Sound(cs, s) && d == s.disk
    ensures var s1 := Load(cs, d);
      && s1.memory.events == s.memory.events
      && Load(cs, AppendAll(cs, s1, es).disk).memory.events == s1.memory.events + NumberFrom(s1.memory.sequence, es)
  {
    ReloadIsIdentity(cs, s);
    LoadIsSound(cs, s.disk);
    AppendedThenLoaded(cs, Load(cs, s.disk), es);
  }

  lemma EmptyCrash(cs: LogCodecs, s: Store, e: Event, es: seq<Event>)
    requires LawfulCodecs(cs) && Sound(cs, s)
    ensures var s1 := Load(cs, TornDisk(cs, s, e, 0));
      && s1.memory.events == s.memory.events
      && Load(cs, AppendAll(cs, s1, es).disk).memory.events == s1.memory.events + NumberFrom(s1.memory.sequence, es)
  {
    EmptyTear(cs, s, e);
    ReloadThenAppend(cs, s, TornDisk(cs, s, e, 0), es);
  }

  lemma CompleteCrash(cs: LogCodecs, s: Store, e: Event, k: nat, es: seq<Event>)
    requires LawfulCodecs(cs) && Sound(cs, s) && Complete(cs, s, e, k)
    ensures var s1 := Load(cs, TornDisk(cs, s, e, k));
      && s1.memory.events == s.memory.events + [Numbered(s, e)]
      && Load(cs, AppendAll(cs, s1, es).disk).memory.events == s1.memory.events + NumberFrom(s1.memory.sequence, es)
  {
    CompleteTear(cs, s, e, k);
    AppendKeepsSound(cs, s, e);
    ReloadThenAppend(cs, AppendEvent(cs, s, e), TornDisk(cs, s, e, k), es);
  }

  /** A crash before the first character or after the last one costs nothing more than the event that was not written. */
  lemma CleanCrashCost(cs: LogCodecs, s: Store, e: Event, k: nat, es: seq<Event>)
    requires LawfulCodecs(cs) && Sound(cs, s)
    requires k == 0 || Complete(cs, s, e, k)
    ensures var s1 := Load(cs, TornDisk(cs, s, e, k));
      && s1.memory.events == (if k == 0 then s.memory.events else s.memory.events + [Numbered(s, e)])
      && Load(cs, AppendAll(cs, s1, es).disk).memory.events == s1.memory.events + NumberFrom(s1.memory.sequence, es)
  {
    if k == 0 {
      EmptyCrash(cs, s, e, es);
    } else {
      CompleteCrash(cs, s, e, k, es);
    }
  }

  lemma AppendedThenLoaded(cs: LogCodecs, s: Store, es: seq<Event>)
    requires LawfulCodecs(cs) && Sound(cs, s)
    ensures Load(cs, AppendAll(cs, s, es).disk).memory.events == s.memory.events + NumberFrom(s.memory.sequence, es)
  {
    AppendAllClear(cs, s, es);
    NumberFromIncreasing(s.memory.sequence, es, s.memory.sequence);
    SoundValues(cs, s);
    ReloadWith(cs, TextValues(cs.event, s.disk.eventText), AppendAll(cs, s, es).disk, NumberFrom(s.memory.sequence, es));
  }
}
