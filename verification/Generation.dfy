/**
 The generation counter: one file shared by all processes, incremented under an exclusive
 file lock, and a copy in each process that stale work is fenced against. The new number is
 only buffered while the lock is held; it reaches the file when the file is closed, after
 the lock has been freed.
 */
module Generations {

  /** A counter file holds a number in a text of some size; what is left of two texts written over each other does not parse. */
  datatype FileContent = Missing | Empty | Garbage(size: nat) | Counter(n: int, size: nat)

  /** What a reader makes of the file. */
  function Stored(content: FileContent): int {
    if content.Counter? then content.n else 0
  }

  function SizeOf(content: FileContent): nat {
    match content
    case Missing => 0
    case Empty => 0
    case Garbage(size) => size
    case Counter(_, size) => size
  }

  /** A text written at the start of the file; what a longer text leaves behind it spoils both. */
  function Overwritten(content: FileContent, n: int, size: nat): FileContent {
    if size >= SizeOf(content) then Counter(n, size) else Garbage(SizeOf(content))
  }

  class CounterFile {
    var content: FileContent

    constructor ()
      ensures content == Missing
    {
      content := Missing;
    }
  }

  class RuntimeGeneration {
    const file: CounterFile
    var current: int

    constructor (file: CounterFile)
      ensures this.file == file && current == Stored(file.content)
    {
      this.file := file;
      this.current := Stored(file.content);
    }

    /** An increment that nothing interleaves; `size` is the length of the text it writes. */
    method Increment(size: nat) returns (generation: int)
      modifies this, file
      ensures file.content == Counter(Stored(old(file.content)) + 1, size)
      ensures generation == current == Stored(old(file.content)) + 1
    {
      if file.content.Missing? {
        file.content := Empty;
      }
      var stored := match file.content case Counter(n, _) => n case _ => 0;
      current := stored + 1;
      file.content := Empty;
      file.content := Overwritten(file.content, current, size);
      generation := current;
    }

    predicate Validate(generation: int)
      reads this
    {
      generation == current
    }

    /** Fails exactly when the generation is not the current one. */
    method Fence(generation: int) returns (stale: bool)
      ensures stale <==> generation != current
    {
      stale := !Validate(generation);
    }
  }

  // ---- Any number of processes ----

  /** Whose number a reader finds: the one the file began with, none, or that of the `k`-th call to free the lock. */
  datatype Origin = FromInitial | FromNothing | FromCall(k: nat)

  /** What the holder of the lock has done. */
  datatype Stage = Locked | HasRead(next: int, origin: Origin) | Truncated(next: int, origin: Origin)

  datatype Lock = Free | Held(process: nat, stage: Stage)

  /** A number handed out, and whose number its process had read. */
  datatype Given = Given(process: nat, value: int, origin: Origin)

  /** A number that its process has not yet written: that of the `k`-th call. */
  datatype Buffered = Buffered(value: int, k: nat)

  /** `source` keeps whose number the file holds, `given` the numbers handed out in lock order. */
  datatype World = World(
    content: FileContent, source: Origin, lock: Lock, buffered: map<nat, Buffered>, given: seq<Given>)

  /** The steps of an increment, and the death of a process, which frees its lock and loses what it has buffered. */
  datatype Move =
    | Acquire(process: nat)
    | Read
    | Truncate
    | Release
    | Flush(process: nat, size: nat)
    | Die(process: nat)

  predicate Holds(w: World, p: nat) {
    w.lock.Held? && w.lock.process == p
  }

  function Step(w: World, move: Move): World {
    match move
    case Acquire(p) => if w.lock.Free? && p !in w.buffered then w.(lock := Held(p, Locked)) else w
    case Read =>
      if w.lock.Held? && w.lock.stage.Locked?
      then w.(lock := w.lock.(stage := HasRead(Stored(w.content) + 1, w.source))) else w
    case Truncate =>
      if w.lock.Held? && w.lock.stage.HasRead?
      then w.(content := Empty, source := FromNothing, lock := w.lock.(stage := Truncated(w.lock.stage.next, w.lock.stage.origin))) else w
    case Release => if Releases(w, move) then StepRelease(w) else w
    case Flush(p, size) => if p in w.buffered then StepFlush(w, p, size) else w
    case Die(p) => w.(lock := if Holds(w, p) then Free else w.lock, buffered := w.buffered - {p})
  }

  /** The holder of the lock frees it, and so has its number; the write is still to come. */
  predicate Releases(w: World, move: Move) {
    move.Release? && w.lock.Held? && w.lock.stage.Truncated?
  }

  function StepRelease(w: World): World
    requires Releases(w, Release)
  {
    var (p, next) := (w.lock.process, w.lock.stage.next);
    w.(lock := Free, given := w.given + [Given(p, next, w.lock.stage.origin)], buffered := w.buffered[p := Buffered(next, |w.given|)])
  }

  /** Closing the file writes the number, whoever holds the lock by then. */
  function StepFlush(w: World, p: nat, size: nat): World
    requires p in w.buffered
  {
    var b := w.buffered[p];
    w.(content := Overwritten(w.content, b.value, size),
       source := if size >= SizeOf(w.content) then FromCall(b.k) else FromNothing,
       buffered := w.buffered - {p})
  }

  function RunMoves(w: World, moves: seq<Move>): World
    decreases moves
  {
    if moves == [] then w else Step(RunMoves(w, moves[..|moves| - 1]), moves[|moves| - 1])
  }

  function Initial(content: FileContent): World {
    World(content, FromInitial, Free, map[], [])
  }

  // ---- Where every number comes from ----

  /** The number a reader finds, given whose it is. */
  function NumberOf(content: FileContent, given: seq<Given>, origin: Origin): int {
    match origin
    case FromInitial => Stored(content)
    case FromNothing => 0
    case FromCall(k) => if k < |given| then given[k].value else 0
  }

  predicate Before(origin: Origin, n: nat) {
    origin.FromCall? ==> origin.k < n
  }

  /** Each number handed out is one more than the number its process had read, which an earlier call wrote, if any. */
  ghost predicate GivenOk(content: FileContent, given: seq<Given>) {
    forall i: nat :: i < |given| ==>
      Before(given[i].origin, i) && given[i].value == NumberOf(content, given, given[i].origin) + 1
  }

  predicate StageOk(content: FileContent, w: World) {
    match w.lock
    case Held(_, HasRead(next, origin)) => Before(origin, |w.given|) && next == NumberOf(content, w.given, origin) + 1
    case Held(_, Truncated(next, origin)) => Before(origin, |w.given|) && next == NumberOf(content, w.given, origin) + 1
    case _ => true
  }

  ghost predicate Sourced(content: FileContent, w: World) {
    && GivenOk(content, w.given)
    && StageOk(content, w)
    && Before(w.source, |w.given|) && Stored(w.content) == NumberOf(content, w.given, w.source)
    && (forall p :: p in w.buffered ==> w.buffered[p].k < |w.given| && w.buffered[p].value == w.given[w.buffered[p].k].value)
  }

  lemma NumberStays(content: FileContent, given: seq<Given>, g: Given, origin: Origin)
    requires Before(origin, |given|)
    ensures NumberOf(content, given + [g], origin) == NumberOf(content, given, origin)
  {
  }

  lemma SourcedRelease(content: FileContent, w: World)
    requires Sourced(content, w) && Releases(w, Release)
    ensures Sourced(content, StepRelease(w))
  {
    var u := StepRelease(w);
    var g := u.given[|w.given|];
    forall i: nat | i < |u.given|
      ensures Before(u.given[i].origin, i) && u.given[i].value == NumberOf(content, u.given, u.given[i].origin) + 1
    {
      NumberStays(content, w.given, g, u.given[i].origin);
    }
    NumberStays(content, w.given, g, w.source);
  }

  lemma SourcedStep(content: FileContent, w: World, move: Move)
    requires Sourced(content, w)
    ensures Sourced(content, Step(w, move))
  {
    if Releases(w, move) {
      SourcedRelease(content, w);
    }
  }

  lemma {:induction false} RunIsSourced(content: FileContent, moves: seq<Move>)
    ensures Sourced(content, RunMoves(Initial(content), moves))
    decreases moves
  {
    if moves != [] {
      RunIsSourced(content, moves[..|moves| - 1]);
      SourcedStep(content, RunMoves(Initial(content), moves[..|moves| - 1]), moves[|moves| - 1]);
    }
  }

  /** How many calls have read one another's number, up to call `i`. */
  function Depth(given: seq<Given>, i: nat): nat
    requires i < |given|
    decreases i
  {
    var origin := given[i].origin;
    if origin.FromCall? && origin.k < i then Depth(given, origin.k) + 1 else 1
  }

  /** What the first of these calls had read: the initial number, or nothing. */
  function Base(content: FileContent, given: seq<Given>, i: nat): int
    requires i < |given|
    decreases i
  {
    var origin := given[i].origin;
    if origin.FromCall? && origin.k < i then Base(content, given, origin.k)
    else if origin.FromInitial? then Stored(content) else 0
  }

  lemma {:induction false} ChainValue(content: FileContent, given: seq<Given>, i: nat)
    requires GivenOk(content, given) && i < |given|
    ensures given[i].value == Base(content, given, i) + Depth(given, i)
    decreases i
  {
    var origin := given[i].origin;
    if origin.FromCall? {
      ChainValue(content, given, origin.k);
    }
  }

  /**
   In every run of any number of processes, with deaths anywhere and files closed whenever:
   the number a call is handed is the length of the chain of calls that read one another's
   number, on top of what the first of them read. Two calls are handed the same number
   exactly when these add up to the same.
   */
  lemma ReusedExactly(content: FileContent, moves: seq<Move>, i: nat, j: nat)
    requires i < j < |RunMoves(Initial(content), moves).given|
    ensures var given := RunMoves(Initial(content), moves).given;
      && given[i].value == Base(content, given, i) + Depth(given, i)
      && given[j].value == Base(content, given, j) + Depth(given, j)
      && (given[i].value == given[j].value <==>
            Base(content, given, i) + Depth(given, i) == Base(content, given, j) + Depth(given, j))
  {
    RunIsSourced(content, moves);
    ChainValue(content, RunMoves(Initial(content), moves).given, i);
    ChainValue(content, RunMoves(Initial(content), moves).given, j);
  }

  // ---- Exactly when the numbers increase in lock order ----

  /** Numbers increase from `floor`. */
  ghost predicate Ordered(floor: int, given: seq<Given>) {
    && (forall i :: 0 <= i < |given| ==> floor < given[i].value)
    && (forall i, j :: 0 <= i < j < |given| ==> given[i].value < given[j].value)
  }

  /** The call read the number of the call before it, and the first one the initial number. */
  predicate ReadsLast(content: FileContent, origin: Origin, n: nat) {
    if n == 0 then origin.FromInitial? || (origin.FromNothing? && Stored(content) == 0)
    else origin == FromCall(n - 1)
  }

  ghost predicate Consecutive(content: FileContent, given: seq<Given>) {
    forall i: nat :: i < |given| ==> ReadsLast(content, given[i].origin, i)
  }

  /** One more number keeps the order exactly if its call read the last one. */
  lemma OrderedNext(content: FileContent, given: seq<Given>, g: Given)
    requires Stored(content) >= 0 && GivenOk(content, given) && Ordered(Stored(content), given)
    requires Before(g.origin, |given|) && g.value == NumberOf(content, given, g.origin) + 1
    ensures Ordered(Stored(content), given + [g]) <==> ReadsLast(content, g.origin, |given|)
  {
    OrderedSnoc(Stored(content), given, g);
    if given != [] {
      NumberLast(content, given, g.origin);
    }
  }

  lemma OrderedSnoc(floor: int, given: seq<Given>, g: Given)
    requires Ordered(floor, given)
    ensures Ordered(floor, given + [g]) <==> g.value > if given == [] then floor else given[|given| - 1].value
  {
    var all, n := given + [g], |given|;
    assert all[n] == g;
    assert forall i :: 0 <= i < n ==> all[i] == given[i];
  }

  /** Only the last call's number is as large as the last one handed out. */
  lemma NumberLast(content: FileContent, given: seq<Given>, origin: Origin)
    requires given != [] && Stored(content) >= 0 && Ordered(Stored(content), given) && Before(origin, |given|)
    ensures var (number, last) := (NumberOf(content, given, origin), given[|given| - 1].value);
      number <= last && (number == last <==> origin == FromCall(|given| - 1))
  {
    var n := |given| - 1;
    assert given[n].value > Stored(content);
    if origin.FromCall? && origin.k < n {
      assert given[origin.k].value < given[n].value;
    }
  }

  /**
   A step breaks the order exactly when it frees the lock for a call that had not read the
   last number handed out, however that came about: the write still buffered, lost in a
   death, spoiled or written over, or the file truncated by a call that died.
   */
  lemma OrderedStep(content: FileContent, w: World, move: Move)
    requires Stored(content) >= 0 && Sourced(content, w) && Ordered(Stored(content), w.given)
    ensures Ordered(Stored(content), Step(w, move).given) <==>
      (Releases(w, move) ==> ReadsLast(content, w.lock.stage.origin, |w.given|))
  {
    if Releases(w, move) {
      OrderedNext(content, w.given, Given(w.lock.process, w.lock.stage.next, w.lock.stage.origin));
    }
  }

  lemma {:induction false} OrderedConsecutive(content: FileContent, given: seq<Given>)
    requires Stored(content) >= 0 && GivenOk(content, given)
    ensures Ordered(Stored(content), given) <==> Consecutive(content, given)
    decreases given
  {
    if given != [] {
      var front, g := given[..|given| - 1], given[|given| - 1];
      assert given == front + [g];
      GivenPrefix(content, front, g);
      OrderedConsecutive(content, front);
      OrderedPrefix(Stored(content), front, g);
      ConsecutivePrefix(content, front, g);
      if Ordered(Stored(content), front) {
        OrderedNext(content, front, g);
      }
    }
  }

  lemma GivenPrefix(content: FileContent, front: seq<Given>, g: Given)
    requires GivenOk(content, front + [g])
    ensures GivenOk(content, front)
    ensures Before(g.origin, |front|) && g.value == NumberOf(content, front, g.origin) + 1
  {
    var all := front + [g];
    assert all[|front|] == g;
    NumberStays(content, front, g, g.origin);
    forall i: nat | i < |front|
      ensures Before(front[i].origin, i) && front[i].value == NumberOf(content, front, front[i].origin) + 1
    {
      assert all[i] == front[i];
      NumberStays(content, front, g, front[i].origin);
    }
  }

  lemma OrderedPrefix(floor: int, front: seq<Given>, g: Given)
    ensures Ordered(floor, front + [g]) ==> Ordered(floor, front)
  {
    assert forall i :: 0 <= i < |front| ==> (front + [g])[i] == front[i];
  }

  lemma ConsecutivePrefix(content: FileContent, front: seq<Given>, g: Given)
    ensures Consecutive(content, front + [g]) <==> Consecutive(content, front) && ReadsLast(content, g.origin, |front|)
  {
    var all := front + [g];
    assert all[|front|] == g;
    assert forall i :: 0 <= i < |front| ==> all[i] == front[i];
  }

  /**
   In every run from a number that is not negative, the numbers handed out strictly increase
   in lock order, above the initial one, if and only if every call had read the number of
   the call before it, and the first call the initial number.
   */
  lemma IncreasingExactly(content: FileContent, moves: seq<Move>)
    requires Stored(content) >= 0
    ensures var given := RunMoves(Initial(content), moves).given;
      Ordered(Stored(content), given) <==> Consecutive(content, given)
  {
    RunIsSourced(content, moves);
    OrderedConsecutive(content, RunMoves(Initial(content), moves).given);
  }

  // ---- A discipline that keeps the order ----

  /** A number that is handed out, or about to be, is lost from the file: its process dies after truncating and before writing. */
  predicate Loses(w: World, move: Move) {
    move.Die? && (move.process in w.buffered || (Holds(w, move.process) && w.lock.stage.Truncated?))
  }

  /** A process reads the file while another one's number is still to be written. */
  predicate ReadsEarly(w: World, move: Move) {
    move.Read? && w.lock.Held? && w.lock.stage.Locked? && w.buffered != map[]
  }

  ghost predicate Careful(w: World, moves: seq<Move>)
    decreases moves
  {
    moves == [] ||
    (var (front, move) := (moves[..|moves| - 1], moves[|moves| - 1]);
     Careful(w, front) && !Loses(RunMoves(w, front), move) && !ReadsEarly(RunMoves(w, front), move))
  }

  predicate LastWritten(content: FileContent, w: World) {
    ReadsLast(content, w.source, |w.given|)
  }

  /** The last number is in the file, or buffered over an empty file, or about to be handed out. */
  ghost predicate CarefulOk(content: FileContent, w: World) {
    && Consecutive(content, w.given)
    && match w.lock
       case Held(_, Truncated(_, origin)) =>
         w.buffered == map[] && w.content == Empty && ReadsLast(content, origin, |w.given|)
       case Held(_, HasRead(_, origin)) =>
         w.buffered == map[] && LastWritten(content, w) && ReadsLast(content, origin, |w.given|)
       case _ => if w.buffered == map[] then LastWritten(content, w) else OnlyLastBuffered(w)
  }

  ghost predicate OnlyLastBuffered(w: World) {
    && w.content == Empty && w.given != [] && w.source == FromNothing
    && exists p :: p in w.buffered && w.buffered == map[p := Buffered(w.given[|w.given| - 1].value, |w.given| - 1)]
  }

  lemma CarefulRelease(content: FileContent, w: World)
    requires CarefulOk(content, w) && Releases(w, Release) && w.source == FromNothing
    ensures CarefulOk(content, StepRelease(w))
  {
    var u, p := StepRelease(w), w.lock.process;
    ConsecutivePrefix(content, w.given, u.given[|w.given|]);
    assert p in u.buffered && u.buffered == map[p := Buffered(u.given[|u.given| - 1].value, |u.given| - 1)];
  }

  lemma CarefulFlush(content: FileContent, w: World, p: nat, size: nat)
    requires CarefulOk(content, w) && p in w.buffered
    ensures CarefulOk(content, StepFlush(w, p, size))
  {
    var q :| q in w.buffered && w.buffered == map[q := Buffered(w.given[|w.given| - 1].value, |w.given| - 1)];
    assert p == q;
    assert StepFlush(w, p, size).buffered == map[];
  }

  /** While the file is truncated it holds nobody's number. */
  predicate EmptyHasNoSource(w: World) {
    w.lock.Held? && w.lock.stage.Truncated? && w.buffered == map[] ==> w.source == FromNothing
  }

  /** Taking the lock, reading and truncating. */
  lemma CarefulHold(content: FileContent, w: World, move: Move)
    requires CarefulOk(content, w) && EmptyHasNoSource(w) && !ReadsEarly(w, move)
    requires move.Acquire? || move.Read? || move.Truncate?
    ensures CarefulOk(content, Step(w, move)) && EmptyHasNoSource(Step(w, move))
  {
    assert Step(w, move).given == w.given && Step(w, move).buffered == w.buffered;
  }

  lemma CarefulDeath(content: FileContent, w: World, p: nat)
    requires CarefulOk(content, w) && EmptyHasNoSource(w) && !Loses(w, Die(p))
    ensures CarefulOk(content, Step(w, Die(p))) && EmptyHasNoSource(Step(w, Die(p)))
  {
    assert w.buffered - {p} == w.buffered;
  }

  lemma CarefulStep(content: FileContent, w: World, move: Move)
    requires CarefulOk(content, w) && EmptyHasNoSource(w)
    requires !Loses(w, move) && !ReadsEarly(w, move)
    ensures CarefulOk(content, Step(w, move)) && EmptyHasNoSource(Step(w, move))
  {
    match move
    case Release => if Releases(w, move) { CarefulRelease(content, w); }
    case Flush(p, size) => if p in w.buffered { CarefulFlush(content, w, p, size); }
    case Die(p) => CarefulDeath(content, w, p);
    case _ => CarefulHold(content, w, move);
  }

  lemma {:induction false} RunIsCareful(content: FileContent, moves: seq<Move>)
    requires Careful(Initial(content), moves)
    ensures CarefulOk(content, RunMoves(Initial(content), moves)) && EmptyHasNoSource(RunMoves(Initial(content), moves))
    decreases moves
  {
    if moves != [] {
      RunIsCareful(content, moves[..|moves| - 1]);
      CarefulStep(content, RunMoves(Initial(content), moves[..|moves| - 1]), moves[|moves| - 1]);
    }
  }

  /**
   Any interleaving in which no process reads while another one's number is still to be
   written, and none dies between truncating the file and writing it: the numbers handed
   out strictly increase in lock order, above what the file began with.
   */
  lemma GenerationsIncrease(content: FileContent, moves: seq<Move>)
    requires Stored(content) >= 0 && Careful(Initial(content), moves)
    ensures Ordered(Stored(content), RunMoves(Initial(content), moves).given)
  {
    RunIsCareful(content, moves);
    IncreasingExactly(content, moves);
  }

  /** So no number is handed out twice, and at most one call was handed what the file now holds. */
  lemma GenerationsUnique(content: FileContent, moves: seq<Move>)
    requires Stored(content) >= 0 && Careful(Initial(content), moves)
    ensures var w := RunMoves(Initial(content), moves);
      && (forall i, j :: 0 <= i < |w.given| && 0 <= j < |w.given| && w.given[i].value == w.given[j].value ==> i == j)
      && (forall i, j :: 0 <= i < |w.given| && 0 <= j < |w.given| ==>
           (w.given[i].value == Stored(w.content) && w.given[j].value == Stored(w.content) ==> i == j))
  {
    GenerationsIncrease(content, moves);
  }

  /** An increment up to the point where the lock is freed. */
  function UpToRelease(p: nat): seq<Move> {
    [Acquire(p), Read, Truncate, Release]
  }

  lemma RunOne(w: World, a: Move)
    ensures RunMoves(w, [a]) == Step(w, a)
  {
    assert [a][..0] == [];
  }

  lemma RunTwo(w: World, a: Move, b: Move)
    ensures RunMoves(w, [a, b]) == Step(Step(w, a), b)
  {
    RunOne(w, a);
    assert [a, b][..1] == [a];
  }

  lemma RunThree(w: World, a: Move, b: Move, c: Move)
    ensures RunMoves(w, [a, b, c]) == Step(Step(Step(w, a), b), c)
  {
    RunTwo(w, a, b);
    assert [a, b, c][..2] == [a, b];
  }

  lemma RunFour(w: World, a: Move, b: Move, c: Move, d: Move)
    ensures RunMoves(w, [a, b, c, d]) == Step(Step(Step(Step(w, a), b), c), d)
  {
    RunThree(w, a, b, c);
    assert [a, b, c, d][..3] == [a, b, c];
  }

  /** What an increment by a process of its own hands out, and leaves behind when the lock is freed. */
  lemma Incremented(w: World, p: nat)
    requires w.lock.Free? && p !in w.buffered
    ensures RunMoves(w, UpToRelease(p)) == World(
      Empty, FromNothing, Free, w.buffered[p := Buffered(Stored(w.content) + 1, |w.given|)],
      w.given + [Given(p, Stored(w.content) + 1, w.source)])
  {
    RunFour(w, Acquire(p), Read, Truncate, Release);
    var n := Stored(w.content) + 1;
    ReadAlone(w, p);
    ReleaseAlone(w.(lock := Held(p, HasRead(n, w.source))), p, n, w.source);
  }

  lemma ReadAlone(w: World, p: nat)
    requires w.lock.Free? && p !in w.buffered
    ensures Step(Step(w, Acquire(p)), Read) == w.(lock := Held(p, HasRead(Stored(w.content) + 1, w.source)))
  {
  }

  lemma ReleaseAlone(w: World, p: nat, n: int, origin: Origin)
    requires w.lock == Held(p, HasRead(n, origin))
    ensures Step(Step(w, Truncate), Release) == World(
      Empty, FromNothing, Free, w.buffered[p := Buffered(n, |w.given|)], w.given + [Given(p, n, origin)])
  {
  }

  lemma {:induction false} RunConcat(w: World, a: seq<Move>, b: seq<Move>)
    ensures RunMoves(w, a + b) == RunMoves(RunMoves(w, a), b)
    decreases b
  {
    if b == [] {
      assert a + b == a;
    } else {
      assert (a + b)[..|a + b| - 1] == a + b[..|b| - 1];
      RunConcat(w, a, b[..|b| - 1]);
    }
  }

  /**
   The first half of the discipline is needed: after any disciplined run, when the lock is
   free, one more increment by a fresh process keeps the order if and only if no number is
   still to be written.
   */
  lemma EarlyReadBreaks(content: FileContent, moves: seq<Move>, p: nat)
    requires Stored(content) >= 0 && Careful(Initial(content), moves)
    requires RunMoves(Initial(content), moves).lock.Free? && p !in RunMoves(Initial(content), moves).buffered
    ensures Ordered(Stored(content), RunMoves(Initial(content), moves + UpToRelease(p)).given) <==>
      RunMoves(Initial(content), moves).buffered == map[]
  {
    var w := RunMoves(Initial(content), moves);
    GenerationsIncrease(content, moves);
    RunIsCareful(content, moves);
    RunIsSourced(content, moves);
    NextExactly(content, w, p);
    RunConcat(Initial(content), moves, UpToRelease(p));
  }

  /** From any state in which the order holds and the lock is free: the next increment keeps it if and only if the last number is in the file. */
  lemma NextExactly(content: FileContent, w: World, p: nat)
    requires Stored(content) >= 0 && Sourced(content, w) && Ordered(Stored(content), w.given)
    requires w.lock.Free? && p !in w.buffered
    ensures Ordered(Stored(content), RunMoves(w, UpToRelease(p)).given) <==> LastWritten(content, w)
  {
    Incremented(w, p);
    OrderedNext(content, w.given, Given(p, Stored(w.content) + 1, w.source));
  }

  /** So is the second half: when the process that was handed the last number dies before writing it, the next increment breaks the order. */
  lemma LosingDeathBreaks(content: FileContent, moves: seq<Move>, q: nat, p: nat)
    requires Stored(content) >= 0 && Careful(Initial(content), moves)
    requires RunMoves(Initial(content), moves).lock.Free? && q in RunMoves(Initial(content), moves).buffered
    ensures !Ordered(Stored(content), RunMoves(Initial(content), (moves + [Die(q)]) + UpToRelease(p)).given)
  {
    var w := RunMoves(Initial(content), moves);
    GenerationsIncrease(content, moves);
    RunIsCareful(content, moves);
    RunIsSourced(content, moves);
    RunConcat(Initial(content), moves, [Die(q)]);
    RunOne(w, Die(q));
    RunConcat(Initial(content), moves + [Die(q)], UpToRelease(p));
    LosingBreaks(content, w, q, p);
  }

  lemma LosingBreaks(content: FileContent, w: World, q: nat, p: nat)
    requires Stored(content) >= 0 && Sourced(content, w) && Ordered(Stored(content), w.given)
    requires w.lock.Free? && q in w.buffered && OnlyLastBuffered(w)
    ensures !Ordered(Stored(content), RunMoves(Step(w, Die(q)), UpToRelease(p)).given)
  {
    SourcedStep(content, w, Die(q));
    LoneDies(w, q);
    NextExactly(content, Step(w, Die(q)), p);
  }

  lemma LoneDies(w: World, q: nat)
    requires w.lock.Free? && q in w.buffered && OnlyLastBuffered(w)
    ensures Step(w, Die(q)) == World(Empty, FromNothing, Free, map[], w.given) && w.given != []
  {
    var lone :| lone in w.buffered && w.buffered == map[lone := Buffered(w.given[|w.given| - 1].value, |w.given| - 1)];
    assert q == lone;
    assert w.buffered - {q} == map[];
  }

  // ---- The order does break ----

  /** One increment without interruption. */
  function Whole(p: nat, size: nat): seq<Move> {
    UpToRelease(p) + [Flush(p, size)]
  }

  lemma WholeIncrement(w: World, p: nat, size: nat)
    requires w.lock.Free? && p !in w.buffered
    ensures RunMoves(w, Whole(p, size)) == World(
      Counter(Stored(w.content) + 1, size), FromCall(|w.given|), Free, w.buffered,
      w.given + [Given(p, Stored(w.content) + 1, w.source)])
  {
    var u := RunMoves(w, UpToRelease(p));
    Incremented(w, p);
    RunConcat(w, UpToRelease(p), [Flush(p, size)]);
    RunOne(u, Flush(p, size));
    assert u.buffered - {p} == w.buffered;
  }

  function Wholes(p: nat, size: nat, n: nat): seq<Move> {
    if n == 0 then [] else Wholes(p, size, n - 1) + Whole(p, size)
  }

  predicate AtRest(w: World) {
    w.lock.Free? && w.buffered == map[]
  }

  /** Increments by one process add up. */
  lemma {:induction false} WholeIncrements(w: World, p: nat, size: nat, n: nat)
    requires AtRest(w)
    ensures var u := RunMoves(w, Wholes(p, size, n));
      && AtRest(u) && Stored(u.content) == Stored(w.content) + n
      && w.given <= u.given && |u.given| == |w.given| + n
      && (n > 0 ==> u.given[|u.given| - 1].value == Stored(w.content) + n)
  {
    if n > 0 {
      WholeIncrements(w, p, size, n - 1);
      RunConcat(w, Wholes(p, size, n - 1), Whole(p, size));
      WholeIncrement(RunMoves(w, Wholes(p, size, n - 1)), p, size);
    }
  }

  /** Two increments, of which the second reads before the first has written. */
  function Overlapping(a: nat, b: nat): seq<Move> {
    (UpToRelease(0) + UpToRelease(1)) + [Flush(0, a), Flush(1, b)]
  }

  lemma OverlappingReleases(content: FileContent)
    ensures RunMoves(Initial(content), UpToRelease(0) + UpToRelease(1)) == World(
      Empty, FromNothing, Free, map[0 := Buffered(Stored(content) + 1, 0), 1 := Buffered(1, 1)],
      [Given(0, Stored(content) + 1, FromInitial), Given(1, 1, FromNothing)])
  {
    Incremented(Initial(content), 0);
    RunConcat(Initial(content), UpToRelease(0), UpToRelease(1));
    Incremented(RunMoves(Initial(content), UpToRelease(0)), 1);
  }

  lemma OverlappingWrites(content: FileContent, a: nat, b: nat)
    ensures var u := RunMoves(Initial(content), Overlapping(a, b));
      && AtRest(u) && Stored(u.content) == (if b >= a then 1 else 0)
      && u.given == [Given(0, Stored(content) + 1, FromInitial), Given(1, 1, FromNothing)]
  {
    var w := RunMoves(Initial(content), UpToRelease(0) + UpToRelease(1));
    OverlappingReleases(content);
    RunConcat(Initial(content), UpToRelease(0) + UpToRelease(1), [Flush(0, a), Flush(1, b)]);
    RunTwo(w, Flush(0, a), Flush(1, b));
    assert Step(w, Flush(0, a)).buffered == map[1 := Buffered(1, 1)];
    assert Step(Step(w, Flush(0, a)), Flush(1, b)).buffered == map[];
  }

  /**
   No death is needed. The file holds `n`; one process is handed `n + 1` and frees the lock,
   the next one reads the file before that is written and is handed 1, and both then write.
   If the second text is not shorter than the first the file is left at 1, and else it does
   not parse; after `n` or `n + 1` more increments `n + 1` is handed out again.
   */
  lemma UnwrittenIsHandedOutAgain(content: FileContent, a: nat, b: nat, p: nat, size: nat)
    requires Stored(content) >= 0
    ensures var n := Stored(content);
      var u := RunMoves(Initial(content), Overlapping(a, b) + Wholes(p, size, if b >= a then n else n + 1));
      && |u.given| >= 2 && u.given[0].value == n + 1 && u.given[1].value == 1
      && u.given[|u.given| - 1].value == n + 1 && (n > 0 ==> |u.given| > 2)
  {
    var w, more := RunMoves(Initial(content), Overlapping(a, b)), if b >= a then Stored(content) else Stored(content) + 1;
    OverlappingWrites(content, a, b);
    RunConcat(Initial(content), Overlapping(a, b), Wholes(p, size, more));
    WholeIncrements(w, p, size, more);
    FirstTwoStay(w.given, RunMoves(w, Wholes(p, size, more)).given);
  }

  lemma FirstTwoStay(a: seq<Given>, b: seq<Given>)
    requires |a| == 2 && a <= b
    ensures |b| >= 2 && b[0] == a[0] && b[1] == a[1]
  {
  }

  /** An increment that dies between truncating the file and writing it. */
  function Death(q: nat): seq<Move> {
    [Acquire(q), Read, Truncate, Die(q)]
  }

  lemma TornIncrement(w: World, q: nat)
    requires AtRest(w)
    ensures RunMoves(w, Death(q)) == World(Empty, FromNothing, Free, map[], w.given)
  {
    RunFour(w, Acquire(q), Read, Truncate, Die(q));
    assert w.buffered - {q} == map[];
  }

  /**
   Nor is an overlap: from a file that holds `n`, one process is handed `n + 1`, the next
   one dies between truncating the file and writing it, and the `n + 1`-th increment after
   that is handed `n + 1` again.
   */
  lemma DeathInWindowReuses(content: FileContent, p: nat, q: nat, size: nat)
    requires Stored(content) >= 0
    ensures var n := Stored(content);
      var u := RunMoves(Initial(content), (Whole(p, size) + Death(q)) + Wholes(q, size, n + 1));
      |u.given| == n + 2 && u.given[0].value == n + 1 && u.given[n + 1].value == n + 1
  {
    var n, torn := Stored(content), RunMoves(Initial(content), Whole(p, size) + Death(q));
    OneThenDeath(content, p, q, size);
    RunConcat(Initial(content), Whole(p, size) + Death(q), Wholes(q, size, n + 1));
    WholeIncrements(torn, q, size, n + 1);
    FirstStays(torn.given, RunMoves(torn, Wholes(q, size, n + 1)).given);
  }

  lemma OneThenDeath(content: FileContent, p: nat, q: nat, size: nat)
    ensures RunMoves(Initial(content), Whole(p, size) + Death(q)) ==
      World(Empty, FromNothing, Free, map[], [Given(p, Stored(content) + 1, FromInitial)])
  {
    var w := RunMoves(Initial(content), Whole(p, size));
    WholeIncrement(Initial(content), p, size);
    assert w.given == [Given(p, Stored(content) + 1, FromInitial)];
    RunConcat(Initial(content), Whole(p, size), Death(q));
    TornIncrement(w, q);
  }

  lemma FirstStays(a: seq<Given>, b: seq<Given>)
    requires a != [] && a <= b
    ensures b[0] == a[0]
  {
  }
}
