/**
 Conservation without any discipline: finalizes of one step may interleave freely, and then
 only the order is lost. As multisets, a record's lists are still the initial ones and those
 of every saved finalize, its events' lists the initial ones and those of every logged one,
 and the difference is what is between save and event or was stopped there.
 */
module UnorderedConservation {
  import opened Models
  import opened LineFiles
  import opened Replay
  import opened Stores
  import opened Mutation
  import opened Reconciliation
  import opened MutationProtocol
  import opened Conservation
  import opened InterleavedConservation

  datatype Bags = Bags(files: multiset<string>, evidence: multiset<string>)

  const NO_BAGS := Bags(multiset{}, multiset{})

  function Plus(a: Bags, b: Bags): Bags {
    Bags(a.files + b.files, a.evidence + b.evidence)
  }

  function Bag(l: Lists): Bags {
    Bags(multiset(l.files), multiset(l.evidence))
  }

  /** What a finalize brings. */
  function Brought(f: Finalize): Bags {
    Bag(Lists(f.filesChanged, f.evidenceRefs))
  }

  /** What a call that is between save and event of the step has saved and not logged. */
  function OpenBag(c: Call, missionId: string, stepId: string): Bags {
    if Between(c) && OfCallStep(c, missionId, stepId) then Brought(c.f) else NO_BAGS
  }

  function OpenBags(calls: seq<Call>, missionId: string, stepId: string): Bags {
    if calls == [] then NO_BAGS
    else Plus(OpenBags(calls[..|calls| - 1], missionId, stepId), OpenBag(calls[|calls| - 1], missionId, stepId))
  }

  /** What has been saved, logged, and stopped between the two, by the step's finalizes. */
  datatype Totals = Totals(saved: Bags, logged: Bags, stopped: Bags)

  function TotalsAfter(w: World, move: Move, missionId: string, stepId: string, t: Totals): Totals {
    if !Enabled(w, move) then t
    else match move
      case Close(i, f) =>
        if OfCallStep(w.calls[i], missionId, stepId) then t.(saved := Plus(t.saved, Brought(f))) else t
      case LogFinalized(i) => t.(logged := Plus(t.logged, OpenBag(w.calls[i], missionId, stepId)))
      case Restart => t.(stopped := Plus(t.stopped, OpenBags(w.calls, missionId, stepId)))
      case _ => t
  }

  function RunTotals(m: Memory, moves: seq<Move>, missionId: string, stepId: string): Totals
    decreases moves
  {
    if moves == [] then Totals(NO_BAGS, NO_BAGS, NO_BAGS)
    else
      var front := moves[..|moves| - 1];
      TotalsAfter(RunMoves(World(m, [], []), front), moves[|moves| - 1], missionId, stepId, RunTotals(m, front, missionId, stepId))
  }

  // ---- Sums over calls ----

  lemma OpenSnoc(calls: seq<Call>, c: Call, missionId: string, stepId: string)
    ensures OpenBags(calls + [c], missionId, stepId) == Plus(OpenBags(calls, missionId, stepId), OpenBag(c, missionId, stepId))
  {
    assert (calls + [c])[..|calls + [c]| - 1] == calls;
  }

  lemma PlusSwap(a: Bags, b: Bags, c: Bags)
    ensures Plus(Plus(a, b), c) == Plus(Plus(a, c), b)
  {
  }

  /** One call put in the place of another. */
  lemma {:induction false} OpenUpdate(calls: seq<Call>, i: nat, c: Call, missionId: string, stepId: string)
    requires i < |calls|
    ensures Plus(OpenBags(calls[i := c], missionId, stepId), OpenBag(calls[i], missionId, stepId))
         == Plus(OpenBags(calls, missionId, stepId), OpenBag(c, missionId, stepId))
    decreases calls
  {
    var front, last := calls[..|calls| - 1], calls[|calls| - 1];
    assert calls == front + [last];
    OpenSnoc(front, last, missionId, stepId);
    if i == |front| {
      assert calls[i := c] == front + [c];
      OpenSnoc(front, c, missionId, stepId);
      PlusSwap(OpenBags(front, missionId, stepId), OpenBag(c, missionId, stepId), OpenBag(last, missionId, stepId));
    } else {
      assert calls[i := c] == front[i := c] + [last];
      OpenSnoc(front[i := c], last, missionId, stepId);
      OpenUpdate(front, i, c, missionId, stepId);
      PlusBehind(OpenBags(front[i := c], missionId, stepId), OpenBag(calls[i], missionId, stepId),
        OpenBags(front, missionId, stepId), OpenBag(c, missionId, stepId), OpenBag(last, missionId, stepId));
    }
  }

  lemma PlusBehind(a: Bags, b: Bags, c: Bags, d: Bags, last: Bags)
    requires Plus(a, b) == Plus(c, d)
    ensures Plus(Plus(a, last), b) == Plus(Plus(c, last), d)
  {
    PlusSwap(a, last, b);
    PlusSwap(c, last, d);
  }

  lemma Cancel(a: Bags, b: Bags, c: Bags)
    requires Plus(a, c) == Plus(b, c)
    ensures a == b
  {
    assert a.files == a.files + c.files - c.files && b.files == b.files + c.files - c.files;
    assert a.evidence == a.evidence + c.evidence - c.evidence && b.evidence == b.evidence + c.evidence - c.evidence;
  }

  /** A call that has nothing open before and after changes no sum. */
  lemma OpenSame(calls: seq<Call>, i: nat, c: Call, missionId: string, stepId: string)
    requires i < |calls| && !Between(calls[i]) && !Between(c)
    ensures OpenBags(calls[i := c], missionId, stepId) == OpenBags(calls, missionId, stepId)
  {
    OpenUpdate(calls, i, c, missionId, stepId);
    Cancel(OpenBags(calls[i := c], missionId, stepId), OpenBags(calls, missionId, stepId), NO_BAGS);
  }

  // ---- What is saved is logged, stopped or open ----

  ghost predicate Settles(t: Totals, calls: seq<Call>, missionId: string, stepId: string) {
    t.saved == Plus(Plus(t.logged, t.stopped), OpenBags(calls, missionId, stepId))
  }

  lemma SettlesClose(t: Totals, w: World, i: nat, f: Finalize, missionId: string, stepId: string)
    requires Settles(t, w.calls, missionId, stepId) && Enabled(w, Close(i, f))
    ensures Settles(TotalsAfter(w, Close(i, f), missionId, stepId, t), StepClose(w, i, f).calls, missionId, stepId)
  {
    var c := StepClose(w, i, f).calls[i];
    assert StepClose(w, i, f).calls == w.calls[i := c];
    OpensBag(t, w.calls, i, c, missionId, stepId);
    PlusNothing(t.saved);
  }

  /** A call with nothing open is put in the place of which another one has something open. */
  lemma OpensBag(t: Totals, calls: seq<Call>, i: nat, c: Call, missionId: string, stepId: string)
    requires Settles(t, calls, missionId, stepId) && i < |calls| && !Between(calls[i])
    ensures Settles(t.(saved := Plus(t.saved, OpenBag(c, missionId, stepId))), calls[i := c], missionId, stepId)
  {
    OpenUpdate(calls, i, c, missionId, stepId);
    PlusNothing(OpenBags(calls[i := c], missionId, stepId));
    SettleMore(t, OpenBags(calls, missionId, stepId), OpenBag(c, missionId, stepId));
  }

  lemma PlusNothing(a: Bags)
    ensures Plus(a, NO_BAGS) == a
  {
  }

  lemma SettleMore(t: Totals, open: Bags, more: Bags)
    requires t.saved == Plus(Plus(t.logged, t.stopped), open)
    ensures Plus(t.saved, more) == Plus(Plus(t.logged, t.stopped), Plus(open, more))
  {
  }

  lemma SettlesLog(t: Totals, w: World, i: nat, missionId: string, stepId: string)
    requires Settles(t, w.calls, missionId, stepId) && Enabled(w, LogFinalized(i))
    ensures Settles(TotalsAfter(w, LogFinalized(i), missionId, stepId, t), StepFinalized(w, i).calls, missionId, stepId)
  {
    var c := StepFinalized(w, i).calls[i];
    assert StepFinalized(w, i).calls == w.calls[i := c];
    OpenUpdate(w.calls, i, c, missionId, stepId);
    PlusNothing(OpenBags(w.calls, missionId, stepId));
    MoveOver(t, OpenBags(w.calls, missionId, stepId), OpenBags(w.calls[i := c], missionId, stepId), OpenBag(w.calls[i], missionId, stepId));
  }

  lemma MoveOver(t: Totals, open: Bags, rest: Bags, part: Bags)
    requires t.saved == Plus(Plus(t.logged, t.stopped), open) && Plus(rest, part) == open
    ensures t.saved == Plus(Plus(Plus(t.logged, part), t.stopped), rest)
  {
  }

  lemma SettlesRestart(t: Totals, calls: seq<Call>, missionId: string, stepId: string)
    requires Settles(t, calls, missionId, stepId)
    ensures Settles(t.(stopped := Plus(t.stopped, OpenBags(calls, missionId, stepId))), [], missionId, stepId)
  {
  }

  lemma SettlesBegin(t: Totals, w: World, p: Prepare, missionId: string, stepId: string)
    requires Settles(t, w.calls, missionId, stepId) && Enabled(w, Begin(p))
    ensures Settles(t, StepBegin(w, p).calls, missionId, stepId)
  {
    SettlesSnoc(t, w.calls, StepBegin(w, p).calls[|w.calls|], missionId, stepId);
  }

  lemma SettlesTakeUp(t: Totals, w: World, k: nat, missionId: string, stepId: string)
    requires Settles(t, w.calls, missionId, stepId) && Enabled(w, TakeUp(k))
    ensures Settles(t, StepTakeUp(w, k).calls, missionId, stepId)
  {
    SettlesSnoc(t, w.calls, StepTakeUp(w, k).calls[|w.calls|], missionId, stepId);
  }

  lemma SettlesPrepared(t: Totals, w: World, i: nat, missionId: string, stepId: string)
    requires Settles(t, w.calls, missionId, stepId) && Enabled(w, LogPrepared(i))
    ensures Settles(t, StepPrepared(w, i).calls, missionId, stepId)
  {
    OpenSame(w.calls, i, StepPrepared(w, i).calls[i], missionId, stepId);
  }

  lemma SettlesMutated(t: Totals, w: World, i: nat, missionId: string, stepId: string)
    requires Settles(t, w.calls, missionId, stepId) && Enabled(w, LogMutated(i))
    ensures Settles(t, StepMutated(w, i).calls, missionId, stepId)
  {
    OpenSame(w.calls, i, StepMutated(w, i).calls[i], missionId, stepId);
  }

  lemma SettlesStep(t: Totals, w: World, move: Move, missionId: string, stepId: string)
    requires Settles(t, w.calls, missionId, stepId)
    ensures Settles(TotalsAfter(w, move, missionId, stepId, t), Step(w, move).calls, missionId, stepId)
  {
    if Enabled(w, move) {
      match move
      case Begin(p) => SettlesBegin(t, w, p, missionId, stepId);
      case TakeUp(k) => SettlesTakeUp(t, w, k, missionId, stepId);
      case LogPrepared(i) => SettlesPrepared(t, w, i, missionId, stepId);
      case LogMutated(i) => SettlesMutated(t, w, i, missionId, stepId);
      case Close(i, f) => SettlesClose(t, w, i, f, missionId, stepId);
      case LogFinalized(i) => SettlesLog(t, w, i, missionId, stepId);
      case Restart => SettlesRestart(t, w.calls, missionId, stepId);
      case Reconcile(_, _) =>
    }
  }

  lemma SettlesSnoc(t: Totals, calls: seq<Call>, c: Call, missionId: string, stepId: string)
    requires Settles(t, calls, missionId, stepId) && !Between(c)
    ensures Settles(t, calls + [c], missionId, stepId)
  {
    OpenSnoc(calls, c, missionId, stepId);
    PlusNothing(OpenBags(calls, missionId, stepId));
  }

  // ---- Records and events ----

  ghost predicate Balanced(was: Record, before: seq<Event>, r: Record, events: seq<Event>, t: Totals) {
    && r.continuityId == was.continuityId && r.missionId == was.missionId && r.stepId == was.stepId
    && Bag(RecordLists(r)) == Plus(Bag(RecordLists(was)), t.saved)
    && Bag(EventLists(events, was.missionId, was.stepId)) == Plus(Bag(EventLists(before, was.missionId, was.stepId)), t.logged)
  }

  ghost predicate AllBalanced(m: Memory, moves: seq<Move>, w: World) {
    && |w.memory.records| == |m.records|
    && forall j :: 0 <= j < |m.records| ==>
         Balanced(m.records[j], m.events, w.memory.records[j], w.memory.events,
           RunTotals(m, moves, m.records[j].missionId, m.records[j].stepId))
  }

  ghost predicate CallsPrepared(calls: seq<Call>) {
    forall i :: 0 <= i < |calls| ==> calls[i].prepared.eventType.MutationPrepared?
  }

  lemma TotalsSnoc(m: Memory, moves: seq<Move>, move: Move, missionId: string, stepId: string)
    ensures RunTotals(m, moves + [move], missionId, stepId)
         == TotalsAfter(RunMoves(World(m, [], []), moves), move, missionId, stepId, RunTotals(m, moves, missionId, stepId))
  {
    assert (moves + [move])[..|moves + [move]| - 1] == moves;
  }

  lemma BagAdd(a: Lists, b: Lists)
    ensures Bag(Add(a, b)) == Plus(Bag(a), Bag(b))
  {
  }

  lemma PlusAssoc(a: Bags, b: Bags, c: Bags)
    ensures Plus(Plus(a, b), c) == Plus(a, Plus(b, c))
  {
  }

  lemma BalancedClose(was: Record, before: seq<Event>, r: Record, events: seq<Event>, t: Totals, f: Finalize)
    requires Balanced(was, before, r, events, t)
    ensures Balanced(was, before, FinalizedRecord(r, f), events, t.(saved := Plus(t.saved, Brought(f))))
  {
    BagAdd(RecordLists(r), Lists(f.filesChanged, f.evidenceRefs));
    PlusAssoc(Bag(RecordLists(was)), t.saved, Brought(f));
  }

  lemma BalancedLog(was: Record, before: seq<Event>, r: Record, events: seq<Event>, t: Totals, e: Event, more: Bags)
    requires Balanced(was, before, r, events, t)
    requires more == if Finalizes(e, was.missionId, was.stepId) then Bag(Lists(e.filesChanged, e.evidenceRefs)) else NO_BAGS
    ensures Balanced(was, before, r, events + [e], t.(logged := Plus(t.logged, more)))
  {
    LogOne(events, e, was.missionId, was.stepId);
    PlusAssoc(Bag(EventLists(before, was.missionId, was.stepId)), t.logged, more);
  }

  lemma BalancedIdle(was: Record, before: seq<Event>, r: Record, events: seq<Event>, t: Totals, r': Record, extra: seq<Event>)
    requires Balanced(was, before, r, events, t)
    requires r'.continuityId == r.continuityId && r'.missionId == r.missionId && r'.stepId == r.stepId && RecordLists(r') == RecordLists(r)
    requires forall e :: e in extra ==> !e.eventType.MutationFinalized?
    ensures Balanced(was, before, r', events + extra, t)
  {
    LogIdle(events, extra, was.missionId, was.stepId);
  }

  lemma StaysDistinctBags(m: Memory, moves: seq<Move>, w: World)
    requires OneRecordPerStep(m.records) && AllBalanced(m, moves, w)
    ensures OneRecordPerStep(w.memory.records)
  {
    forall i, j | 0 <= i < j < |m.records|
      ensures w.memory.records[i].continuityId != w.memory.records[j].continuityId
      ensures !(w.memory.records[i].missionId == w.memory.records[j].missionId && w.memory.records[i].stepId == w.memory.records[j].stepId)
    {
      assert Balanced(m.records[i], m.events, w.memory.records[i], w.memory.events, RunTotals(m, moves, m.records[i].missionId, m.records[i].stepId));
      assert Balanced(m.records[j], m.events, w.memory.records[j], w.memory.events, RunTotals(m, moves, m.records[j].missionId, m.records[j].stepId));
    }
  }

  /** Saves and logs nothing of a finalize. */
  predicate Quiet(w: World, move: Move) {
    !Enabled(w, move) || !(move.Close? || move.LogFinalized?)
  }

  lemma QuietStep(m: Memory, moves: seq<Move>, move: Move, w: World, u: World, extra: seq<Event>)
    requires AllBalanced(m, moves, w) && w == RunMoves(World(m, [], []), moves) && Quiet(w, move)
    requires |u.memory.records| == |w.memory.records| && u.memory.events == w.memory.events + extra
    requires forall e :: e in extra ==> !e.eventType.MutationFinalized?
    requires forall j :: 0 <= j < |m.records| ==>
      var (r, r') := (w.memory.records[j], u.memory.records[j]);
      r'.continuityId == r.continuityId && r'.missionId == r.missionId && r'.stepId == r.stepId && RecordLists(r') == RecordLists(r)
    ensures AllBalanced(m, moves + [move], u)
  {
    forall j | 0 <= j < |m.records|
      ensures Balanced(m.records[j], m.events, u.memory.records[j], u.memory.events,
        RunTotals(m, moves + [move], m.records[j].missionId, m.records[j].stepId))
    {
      TotalsSnoc(m, moves, move, m.records[j].missionId, m.records[j].stepId);
      BalancedIdle(m.records[j], m.events, w.memory.records[j], w.memory.events,
        RunTotals(m, moves, m.records[j].missionId, m.records[j].stepId), u.memory.records[j], extra);
    }
  }

  /** A quiet move that leaves the records alone. */
  lemma QuietLog(m: Memory, moves: seq<Move>, move: Move, w: World, u: World, extra: seq<Event>)
    requires AllBalanced(m, moves, w) && w == RunMoves(World(m, [], []), moves) && Quiet(w, move)
    requires u.memory.records == w.memory.records && u.memory.events == w.memory.events + extra
    requires forall e :: e in extra ==> !e.eventType.MutationFinalized?
    ensures AllBalanced(m, moves + [move], u)
  {
    QuietStep(m, moves, move, w, u, extra);
  }

  /** A quiet move that leaves memory alone. */
  lemma QuietKeep(m: Memory, moves: seq<Move>, move: Move, w: World, u: World)
    requires AllBalanced(m, moves, w) && w == RunMoves(World(m, [], []), moves) && Quiet(w, move)
    requires u.memory == w.memory
    ensures AllBalanced(m, moves + [move], u)
  {
    assert u.memory.events == w.memory.events + [];
    QuietLog(m, moves, move, w, u, []);
  }

  lemma PreparedBalanced(m: Memory, moves: seq<Move>, w: World, i: nat)
    requires AllBalanced(m, moves, w) && CallsPrepared(w.calls) && w == RunMoves(World(m, [], []), moves)
    requires Enabled(w, LogPrepared(i))
    ensures AllBalanced(m, moves + [LogPrepared(i)], StepPrepared(w, i))
  {
    var extra := [NumberedEvent(w.memory, w.calls[i].prepared)];
    assert StepPrepared(w, i).memory.events == w.memory.events + extra;
    QuietLog(m, moves, LogPrepared(i), w, StepPrepared(w, i), extra);
  }

  lemma MutatedBalanced(m: Memory, moves: seq<Move>, w: World, i: nat)
    requires AllBalanced(m, moves, w) && w == RunMoves(World(m, [], []), moves)
    requires Enabled(w, LogMutated(i))
    ensures AllBalanced(m, moves + [LogMutated(i)], StepMutated(w, i))
  {
    var c := w.calls[i];
    var extra := [NumberedEvent(w.memory, MutatedEvent(c.record, c.prepared, c.f))];
    assert StepMutated(w, i).memory.events == w.memory.events + extra;
    QuietLog(m, moves, LogMutated(i), w, StepMutated(w, i), extra);
  }

  lemma ReconcileBalanced(m: Memory, moves: seq<Move>, w: World, env: Env, n: nat)
    requires OneRecordPerStep(m.records) && AllBalanced(m, moves, w) && w == RunMoves(World(m, [], []), moves)
    ensures AllBalanced(m, moves + [Reconcile(env, n)], WriteAll(w, PartialPass(w.memory, env, n)))
  {
    StaysDistinctBags(m, moves, w);
    var extra := ReconcileKeeps(w.memory, env, n);
    QuietStep(m, moves, Reconcile(env, n), w, WriteAll(w, PartialPass(w.memory, env, n)), extra);
  }

  lemma BeginBalanced(m: Memory, moves: seq<Move>, w: World, p: Prepare)
    requires OneRecordPerStep(m.records) && AllBalanced(m, moves, w) && w == RunMoves(World(m, [], []), moves)
    requires Enabled(w, Begin(p))
    ensures AllBalanced(m, moves + [Begin(p)], StepBegin(w, p))
  {
    StaysDistinctBags(m, moves, w);
    var i := StepRecordIndex(w.memory.records, p.missionId, p.stepId);
    var q := PreparedRecord(w.memory.records[i], p);
    UpsertAt(w.memory.records, i, q);
    QuietSave(m, moves, Begin(p), w, StepBegin(w, p), i, q);
  }

  /** A quiet move that saves one record without touching its lists. */
  lemma QuietSave(m: Memory, moves: seq<Move>, move: Move, w: World, u: World, i: nat, q: Record)
    requires AllBalanced(m, moves, w) && w == RunMoves(World(m, [], []), moves) && Quiet(w, move)
    requires i < |w.memory.records| && u.memory.records == w.memory.records[i := q] && u.memory.events == w.memory.events
    requires var r := w.memory.records[i];
      q.continuityId == r.continuityId && q.missionId == r.missionId && q.stepId == r.stepId && RecordLists(q) == RecordLists(r)
    ensures AllBalanced(m, moves + [move], u)
  {
    forall j | 0 <= j < |m.records|
      ensures Balanced(m.records[j], m.events, u.memory.records[j], u.memory.events,
        RunTotals(m, moves + [move], m.records[j].missionId, m.records[j].stepId))
    {
      TotalsSnoc(m, moves, move, m.records[j].missionId, m.records[j].stepId);
      assert Balanced(m.records[j], m.events, w.memory.records[j], w.memory.events,
        RunTotals(m, moves, m.records[j].missionId, m.records[j].stepId));
    }
  }

  lemma CloseBalanced(m: Memory, moves: seq<Move>, w: World, i: nat, f: Finalize)
    requires OneRecordPerStep(m.records) && AllBalanced(m, moves, w) && w == RunMoves(World(m, [], []), moves)
    requires Enabled(w, Close(i, f))
    ensures AllBalanced(m, moves + [Close(i, f)], StepClose(w, i, f))
  {
    StaysDistinctBags(m, moves, w);
    var e := w.calls[i].prepared;
    var at := StepRecordIndex(w.memory.records, e.missionId, e.stepId);
    UpsertAt(w.memory.records, at, FinalizedRecord(w.memory.records[at], f));
    CloseOne(m, moves, w, i, f, at);
  }

  lemma CloseOne(m: Memory, moves: seq<Move>, w: World, i: nat, f: Finalize, at: nat)
    requires AllBalanced(m, moves, w) && w == RunMoves(World(m, [], []), moves)
    requires Enabled(w, Close(i, f)) && at < |w.memory.records|
    requires forall j :: 0 <= j < |w.memory.records| ==>
      (OfCallStep(w.calls[i], w.memory.records[j].missionId, w.memory.records[j].stepId) <==> j == at)
    ensures forall j :: 0 <= j < |m.records| ==>
      Balanced(m.records[j], m.events, w.memory.records[at := FinalizedRecord(w.memory.records[at], f)][j], w.memory.events,
        RunTotals(m, moves + [Close(i, f)], m.records[j].missionId, m.records[j].stepId))
  {
    forall j | 0 <= j < |m.records|
      ensures Balanced(m.records[j], m.events, w.memory.records[at := FinalizedRecord(w.memory.records[at], f)][j], w.memory.events,
        RunTotals(m, moves + [Close(i, f)], m.records[j].missionId, m.records[j].stepId))
    {
      var was, t := m.records[j], RunTotals(m, moves, m.records[j].missionId, m.records[j].stepId);
      TotalsSnoc(m, moves, Close(i, f), was.missionId, was.stepId);
      assert Balanced(was, m.events, w.memory.records[j], w.memory.events, t);
      if j == at {
        BalancedClose(was, m.events, w.memory.records[j], w.memory.events, t, f);
      }
    }
  }

  lemma LogBalanced(m: Memory, moves: seq<Move>, w: World, i: nat)
    requires AllBalanced(m, moves, w) && CallsPrepared(w.calls) && w == RunMoves(World(m, [], []), moves)
    requires Enabled(w, LogFinalized(i))
    ensures AllBalanced(m, moves + [LogFinalized(i)], StepFinalized(w, i))
  {
    var c := w.calls[i];
    var e := NumberedEvent(w.memory, FinalizedEvent(c.record, c.prepared, c.f));
    forall j | 0 <= j < |m.records|
      ensures Balanced(m.records[j], m.events, w.memory.records[j], w.memory.events + [e],
        RunTotals(m, moves + [LogFinalized(i)], m.records[j].missionId, m.records[j].stepId))
    {
      var was := m.records[j];
      TotalsSnoc(m, moves, LogFinalized(i), was.missionId, was.stepId);
      BalancedLog(was, m.events, w.memory.records[j], w.memory.events, RunTotals(m, moves, was.missionId, was.stepId), e,
        OpenBag(c, was.missionId, was.stepId));
    }
  }

  lemma BalancedStep(m: Memory, moves: seq<Move>, move: Move, w: World)
    requires OneRecordPerStep(m.records) && w == RunMoves(World(m, [], []), moves)
    requires AllBalanced(m, moves, w) && CallsPrepared(w.calls)
    ensures AllBalanced(m, moves + [move], Step(w, move))
  {
    if !Enabled(w, move) {
      QuietKeep(m, moves, move, w, w);
    } else {
      match move
      case Begin(p) => BeginBalanced(m, moves, w, p);
      case LogPrepared(i) => PreparedBalanced(m, moves, w, i);
      case Close(i, f) => CloseBalanced(m, moves, w, i, f);
      case LogFinalized(i) => LogBalanced(m, moves, w, i);
      case LogMutated(i) => MutatedBalanced(m, moves, w, i);
      case TakeUp(k) => QuietKeep(m, moves, move, w, StepTakeUp(w, k));
      case Restart => QuietKeep(m, moves, move, w, w.(calls := []));
      case Reconcile(env, n) => ReconcileBalanced(m, moves, w, env, n);
    }
  }

  lemma PreparedStep(w: World, move: Move)
    requires CallsPrepared(w.calls)
    ensures CallsPrepared(Step(w, move).calls)
  {
  }

  lemma {:induction false} RunBalanced(m: Memory, moves: seq<Move>)
    requires OneRecordPerStep(m.records)
    ensures AllBalanced(m, moves, RunMoves(World(m, [], []), moves)) && CallsPrepared(RunMoves(World(m, [], []), moves).calls)
    decreases moves
  {
    if moves == [] {
      forall j | 0 <= j < |m.records| ensures Balanced(m.records[j], m.events, m.records[j], m.events, RunTotals(m, [], m.records[j].missionId, m.records[j].stepId)) {
        PlusNothing(Bag(RecordLists(m.records[j])));
        PlusNothing(Bag(EventLists(m.events, m.records[j].missionId, m.records[j].stepId)));
      }
    } else {
      var front, move := moves[..|moves| - 1], moves[|moves| - 1];
      assert moves == front + [move];
      RunBalanced(m, front);
      BalancedStep(m, front, move, RunMoves(World(m, [], []), front));
      PreparedStep(RunMoves(World(m, [], []), front), move);
    }
  }

  lemma {:induction false} RunSettles(m: Memory, moves: seq<Move>, missionId: string, stepId: string)
    ensures Settles(RunTotals(m, moves, missionId, stepId), RunMoves(World(m, [], []), moves).calls, missionId, stepId)
    decreases moves
  {
    if moves != [] {
      var front := moves[..|moves| - 1];
      RunSettles(m, front, missionId, stepId);
      SettlesStep(RunTotals(m, front, missionId, stepId), RunMoves(World(m, [], []), front), moves[|moves| - 1], missionId, stepId);
    }
  }

  /**
   With one record per mission and step, over any interleaving of the durable steps of any
   number of calls, of reconciliations that may be stopped anywhere, of crashes, restarts
   and PREPARED events taken up again: as multisets, a record's files and evidence are the
   initial ones and those of every saved finalize of its step, those of its step's FINALIZED
   events the initial ones and those of every logged one, and what was saved is what was
   logged, what was stopped between save and event, and what is between them now.
   */
  lemma BagsConserve(cs: LogCodecs, s: Store, moves: seq<Move>, j: nat)
    requires LawfulCodecs(cs) && Sound(cs, s)
    requires OneRecordPerStep(s.memory.records) && j < |s.memory.records|
    ensures var u := RunMoves(World(s.memory, [], []), moves);
      var (found, was) := (Load(cs, Run(cs, s, u.written).disk).memory, s.memory.records[j]);
      var t := RunTotals(s.memory, moves, was.missionId, was.stepId);
      && |found.records| == |s.memory.records|
      && Bag(RecordLists(found.records[j])) == Plus(Bag(RecordLists(was)), t.saved)
      && Bag(EventLists(found.events, was.missionId, was.stepId)) == Plus(Bag(EventLists(s.memory.events, was.missionId, was.stepId)), t.logged)
      && t.saved == Plus(Plus(t.logged, t.stopped), OpenBags(u.calls, was.missionId, was.stepId))
  {
    var u := RunMoves(World(s.memory, [], []), moves);
    var was := s.memory.records[j];
    WrittenIsMemory(s.memory, moves);
    CrashFindsMemory(cs, s, u.written);
    RunBalanced(s.memory, moves);
    RunSettles(s.memory, moves, was.missionId, was.stepId);
    assert Balanced(was, s.memory.events, u.memory.records[j], u.memory.events, RunTotals(s.memory, moves, was.missionId, was.stepId));
  }
}
