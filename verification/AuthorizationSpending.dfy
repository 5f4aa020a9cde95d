/**
 How often an authorization is armed and how often a request passes on it, in every run of
 any number of clients and of any number of handlers of paused requests.
 */
module AuthorizationSpending {
  import opened Models
  import opened SubmissionAuth

  // ---- What every move of every run keeps ----

  predicate Known(w: World, a: Auth) {
    a.id in w.issuedEver && w.issuedEver[a.id] == a
  }

  /** The client holds an authorization it has consumed and not armed. */
  predicate Holds(client: Client) {
    client.Consumed? || client.Ready?
  }

  ghost predicate IssuedOk(w: World) {
    && w.spent <= w.issuedEver.Keys
    && forall id :: id in w.shared.issued ==> w.shared.issued[id].id == id && Known(w, w.shared.issued[id]) && id !in w.spent
  }

  ghost predicate ClientsOk(w: World) {
    && (forall c :: c in w.clients && !w.clients[c].Issuing? ==> Known(w, w.clients[c].auth))
    && (forall c :: c in w.clients && Holds(w.clients[c]) ==>
          w.clients[c].auth.id in w.spent && forall a :: a in w.armed ==> a.id != w.clients[c].auth.id)
    && (forall c, d :: c in w.clients && d in w.clients && c != d && Holds(w.clients[c]) && Holds(w.clients[d]) ==>
          w.clients[c].auth.id != w.clients[d].auth.id)
  }

  ghost predicate ArmedOk(w: World) {
    && (forall a :: a in w.armed ==> Known(w, a) && a.id in w.spent)
    && (forall i, j :: 0 <= i < j < |w.armed| ==> w.armed[i].id != w.armed[j].id)
  }

  predicate VerdictOk(w: World, v: Verdict) {
    match v
    case Continued(request) => Safe(request)
    case Passed(request, auth) => !Safe(request) && Matches(request, auth) && auth in w.armed
    case Denied(request) => !Safe(request)
  }

  /** How many requests have passed on the authorization. */
  function Passes(verdicts: seq<Verdict>, id: string): nat
    decreases verdicts
  {
    if verdicts == [] then 0
    else
      var last := verdicts[|verdicts| - 1];
      Passes(verdicts[..|verdicts| - 1], id) + (if last.Passed? && last.auth.id == id then 1 else 0)
  }

  ghost predicate PendingOk(w: World) {
    && (w.shared.pending.Some? ==> w.shared.pending.value in w.armed && Passes(w.verdicts, w.shared.pending.value.id) == 0)
    && (forall l :: l in w.readings ==>
          !Safe(w.readings[l].request) && (w.readings[l].seen.Some? ==> w.readings[l].seen.value in w.armed))
  }

  ghost predicate VerdictsOk(w: World) {
    forall v :: v in w.verdicts ==> VerdictOk(w, v)
  }

  ghost predicate Invariant(w: World) {
    IssuedOk(w) && ClientsOk(w) && ArmedOk(w) && PendingOk(w) && VerdictsOk(w)
  }

  lemma PassesSnoc(verdicts: seq<Verdict>, v: Verdict, id: string)
    ensures Passes(verdicts + [v], id) == Passes(verdicts, id) + (if v.Passed? && v.auth.id == id then 1 else 0)
  {
    assert (verdicts + [v])[..|verdicts + [v]| - 1] == verdicts;
  }

  lemma {:induction false} PassesAmong(verdicts: seq<Verdict>, id: string)
    ensures Passes(verdicts, id) > 0 ==> exists v :: v in verdicts && v.Passed? && v.auth.id == id
    decreases verdicts
  {
    if verdicts != [] {
      var last := verdicts[|verdicts| - 1];
      PassesAmong(verdicts[..|verdicts| - 1], id);
      if last.Passed? && last.auth.id == id {
        assert last in verdicts;
      } else if v :| v in verdicts[..|verdicts| - 1] && v.Passed? && v.auth.id == id {
        assert v in verdicts;
      }
    }
  }

  lemma KeepsPutAuth(w: World, c: nat, authId: string, verb: string, url: string, frame: string, expiresAt: int)
    requires Invariant(w) && Enabled(w, PutAuth(c, authId, verb, url, frame, expiresAt))
    ensures Invariant(StepPutAuth(w, c, authId, verb, url, frame, expiresAt))
  {
    var u := StepPutAuth(w, c, authId, verb, url, frame, expiresAt);
    forall a: Auth | Known(w, a) ensures Known(u, a) {}
    VerdictsStay(w, u);
  }

  lemma VerdictsStay(w: World, u: World)
    requires VerdictsOk(w) && u.verdicts == w.verdicts && forall a :: a in w.armed ==> a in u.armed
    ensures VerdictsOk(u)
  {
    forall v | v in u.verdicts ensures VerdictOk(u, v) { assert VerdictOk(w, v); }
  }

  lemma KeepsConsume(w: World, c: nat)
    requires Invariant(w) && Enabled(w, Consume(c))
    ensures Invariant(StepConsume(w, c))
  {
    var u := StepConsume(w, c);
    forall a: Auth | Known(w, a) ensures Known(u, a) {}
    if w.clients[c].auth.id in w.shared.issued {
      forall a | a in w.armed ensures a.id != w.clients[c].auth.id {}
    }
    VerdictsStay(w, u);
  }

  lemma KeepsArm(w: World, c: nat)
    requires Invariant(w) && Enabled(w, Arm(c))
    ensures Invariant(StepArm(w, c))
  {
    var u, auth := StepArm(w, c), w.clients[c].auth;
    PassesAmong(w.verdicts, auth.id);
    forall v | v in w.verdicts && v.Passed? ensures v.auth.id != auth.id {
      assert VerdictOk(w, v);
    }
    forall a | a in u.armed ensures a in w.armed || a == auth {}
    VerdictsStay(w, u);
  }

  lemma VerdictAdded(w: World, u: World, v: Verdict)
    requires VerdictsOk(w) && u.verdicts == w.verdicts + [v] && u.armed == w.armed && VerdictOk(w, v)
    ensures VerdictsOk(u)
  {
    forall x | x in u.verdicts ensures VerdictOk(u, x) {
      if x in w.verdicts { assert VerdictOk(w, x); }
    }
  }

  lemma KeepsRead(w: World, l: nat, request: Request)
    requires Invariant(w)
    ensures Invariant(StepRead(w, l, request))
  {
    var u := StepRead(w, l, request);
    if Safe(request) {
      VerdictAdded(w, u, Continued(request));
      if w.shared.pending.Some? {
        PassesSnoc(w.verdicts, Continued(request), w.shared.pending.value.id);
      }
    } else {
      VerdictsStay(w, u);
    }
  }

  lemma KeepsDecide(w: World, l: nat)
    requires Invariant(w) && Enabled(w, Decide(l))
    ensures Invariant(StepDecide(w, l))
  {
    var u, verdict := StepDecide(w, l), Judged(w.readings[l]);
    VerdictAdded(w, u, verdict);
    if u.shared.pending.Some? {
      PassesSnoc(w.verdicts, verdict, u.shared.pending.value.id);
    }
  }

  /** What sessions and failing scripts do to the shared state. */
  lemma KeepsShared(w: World, s: Shared)
    requires Invariant(w)
    requires s.issued == w.shared.issued || s.issued == map[]
    requires s.pending == w.shared.pending || s.pending == None
    ensures Invariant(w.(shared := s))
  {
    var u := w.(shared := s);
    assert IssuedOk(u) && ClientsOk(u) && ArmedOk(u);
    VerdictsStay(w, u);
  }

  lemma KeepsLeave(w: World, c: nat)
    requires Invariant(w)
    ensures Invariant(w.(clients := w.clients - {c}))
  {
    var u := w.(clients := w.clients - {c});
    assert IssuedOk(u) && ArmedOk(u) && ClientsOk(u);
    VerdictsStay(w, u);
  }

  /** A client comes to hold only what it held. */
  lemma KeepsClient(w: World, c: nat, client: Client)
    requires Invariant(w)
    requires !client.Issuing? ==> Known(w, client.auth)
    requires Holds(client) ==> c in w.clients && Holds(w.clients[c]) && w.clients[c].auth == client.auth
    ensures Invariant(w.(clients := w.clients[c := client]))
  {
    var u := w.(clients := w.clients[c := client]);
    assert IssuedOk(u) && ArmedOk(u) && ClientsOk(u);
    VerdictsStay(w, u);
  }

  lemma KeepsElse(w: World, move: Move)
    requires Invariant(w) && Enabled(w, move)
    requires !move.PutAuth? && !move.Consume? && !move.Arm? && !move.Read? && !move.Decide?
    ensures Invariant(Step(w, move))
  {
    match move
    case CheckIssue(c, target, session) => KeepsClient(w, c, Issuing(target, session));
    case Lookup(c, target, authId, now) => KeepsClient(w, c, Looked(LookUp(w.shared, target, authId, now).auth));
    case CheckTarget(c) => KeepsClient(w, c, Ready(w.clients[c].auth));
    case Leave(c) => KeepsLeave(w, c);
    case ScriptFailed(c) =>
      KeepsShared(w, w.shared.(pending := None));
      KeepsLeave(w.(shared := w.shared.(pending := None)), c);
    case _ => KeepsShared(w, Step(w, move).shared);
  }

  lemma KeepsStep(w: World, move: Move)
    requires Invariant(w)
    ensures Invariant(Step(w, move))
  {
    if Enabled(w, move) {
      match move
      case PutAuth(c, authId, verb, url, frame, expiresAt) => KeepsPutAuth(w, c, authId, verb, url, frame, expiresAt);
      case Consume(c) => KeepsConsume(w, c);
      case Arm(c) => KeepsArm(w, c);
      case Read(l, request) => KeepsRead(w, l, request);
      case Decide(l) => KeepsDecide(w, l);
      case _ => KeepsElse(w, move);
    }
  }

  lemma {:induction false} RunKeeps(w: World, moves: seq<Move>)
    requires Invariant(w)
    ensures Invariant(RunMoves(w, moves))
    decreases moves
  {
    if moves != [] {
      RunKeeps(w, moves[..|moves| - 1]);
      KeepsStep(RunMoves(w, moves[..|moves| - 1]), moves[|moves| - 1]);
    }
  }

  // ---- Exactly when two requests pass on one authorization ----

  /** The handler will let the request pass. */
  predicate Passing(r: Reading) {
    r.seen.Some? && Matches(r.request, r.seen.value)
  }

  /** Two undecided readings saw the same authorization, and both match it. */
  predicate Pair(w: World, l: nat, k: nat) {
    && l != k && l in w.readings && k in w.readings
    && Passing(w.readings[l]) && Passing(w.readings[k]) && w.readings[l].seen == w.readings[k].seen
  }

  /** Handler `l` decides at move `from` or later. */
  ghost predicate Decides(moves: seq<Move>, from: nat, l: nat) {
    exists j :: from <= j < |moves| && moves[j] == Decide(l)
  }

  /** After `i` moves there is such a pair, and both are decided later. */
  ghost predicate PairDecided(w: World, moves: seq<Move>, i: nat, l: nat, k: nat) {
    i <= |moves| && Pair(RunMoves(w, moves[..i]), l, k) && Decides(moves, i, l) && Decides(moves, i, k)
  }

  ghost predicate SomePairDecided(w: World, moves: seq<Move>) {
    exists i: nat, l: nat, k: nat :: PairDecided(w, moves, i, l, k)
  }

  ghost predicate SpentTwice(w: World) {
    exists id :: Passes(w.verdicts, id) >= 2
  }

  // A pair whose readings are decided spends twice.

  lemma {:induction false} PassesGrow(w: World, moves: seq<Move>, id: string)
    ensures Passes(RunMoves(w, moves).verdicts, id) >= Passes(w.verdicts, id)
    decreases moves
  {
    if moves != [] {
      PassesGrow(w, moves[..|moves| - 1], id);
      StepPasses(RunMoves(w, moves[..|moves| - 1]), moves[|moves| - 1], id);
    }
  }

  /** Only the decision on a passing reading counts as a pass. */
  lemma StepPasses(w: World, move: Move, id: string)
    ensures Passes(Step(w, move).verdicts, id) == Passes(w.verdicts, id) +
      (if move.Decide? && move.l in w.readings && Passing(w.readings[move.l]) && w.readings[move.l].seen.value.id == id then 1 else 0)
  {
    var u := Step(w, move);
    if u.verdicts != w.verdicts {
      PassesSnoc(w.verdicts, u.verdicts[|w.verdicts|], id);
    }
  }

  lemma ReadingStays(w: World, move: Move, l: nat)
    requires l in w.readings && move != Decide(l)
    ensures l in Step(w, move).readings && Step(w, move).readings[l] == w.readings[l]
  {
  }

  lemma {:induction false} OneDecided(w: World, moves: seq<Move>, l: nat)
    requires l in w.readings && Passing(w.readings[l]) && Decides(moves, 0, l)
    ensures var id := w.readings[l].seen.value.id;
      Passes(RunMoves(w, moves).verdicts, id) >= Passes(w.verdicts, id) + 1
    decreases moves
  {
    var id, u := w.readings[l].seen.value.id, Step(w, moves[0]);
    RunFirst(w, moves);
    StepPasses(w, moves[0], id);
    if moves[0] == Decide(l) {
      PassesGrow(u, moves[1..], id);
    } else {
      ReadingStays(w, moves[0], l);
      DecidesRest(moves, l);
      OneDecided(u, moves[1..], l);
    }
  }

  lemma DecidesRest(moves: seq<Move>, l: nat)
    requires Decides(moves, 0, l) && moves[0] != Decide(l)
    ensures Decides(moves[1..], 0, l)
  {
    var j :| 0 <= j < |moves| && moves[j] == Decide(l);
    assert moves[1..][j - 1] == Decide(l);
  }

  lemma {:induction false} TwoDecided(w: World, moves: seq<Move>, l: nat, k: nat)
    requires Pair(w, l, k) && Decides(moves, 0, l) && Decides(moves, 0, k)
    ensures var id := w.readings[l].seen.value.id;
      Passes(RunMoves(w, moves).verdicts, id) >= Passes(w.verdicts, id) + 2
    decreases moves
  {
    var id, u := w.readings[l].seen.value.id, Step(w, moves[0]);
    RunFirst(w, moves);
    StepPasses(w, moves[0], id);
    if moves[0] == Decide(l) {
      ReadingStays(w, moves[0], k);
      DecidesRest(moves, k);
      OneDecided(u, moves[1..], k);
    } else if moves[0] == Decide(k) {
      ReadingStays(w, moves[0], l);
      DecidesRest(moves, l);
      OneDecided(u, moves[1..], l);
    } else {
      ReadingStays(w, moves[0], l);
      ReadingStays(w, moves[0], k);
      DecidesRest(moves, l);
      DecidesRest(moves, k);
      TwoDecided(u, moves[1..], l, k);
    }
  }

  lemma PairSpendsTwice(w: World, moves: seq<Move>, i: nat, l: nat, k: nat)
    requires PairDecided(w, moves, i, l, k)
    ensures SpentTwice(RunMoves(w, moves))
  {
    var u := RunMoves(w, moves[..i]);
    assert moves == moves[..i] + moves[i..];
    RunConcat(w, moves[..i], moves[i..]);
    DecidesFrom(moves, i, l);
    DecidesFrom(moves, i, k);
    TwoDecided(u, moves[i..], l, k);
  }

  lemma DecidesFrom(moves: seq<Move>, i: nat, l: nat)
    requires i <= |moves| && Decides(moves, i, l)
    ensures Decides(moves[i..], 0, l)
  {
    var j :| i <= j < |moves| && moves[j] == Decide(l);
    assert moves[i..][j - i] == Decide(l);
  }

  // Whatever was spent twice was spent by such a pair.

  /** A reading is undecided that saw the authorization before another one passed on it. */
  ghost predicate HalfDecided(w: World, moves: seq<Move>, i: nat, l: nat, k: nat) {
    i <= |moves| && Pair(RunMoves(w, moves[..i]), l, k) && Decides(moves, i, l)
  }

  ghost predicate SomeHalfDecided(w: World, moves: seq<Move>, k: nat) {
    exists i: nat, l: nat :: HalfDecided(w, moves, i, l, k)
  }

  ghost predicate Explained(w: World, moves: seq<Move>) {
    var u := RunMoves(w, moves);
    && (forall id :: Passes(u.verdicts, id) >= 2 ==> SomePairDecided(w, moves))
    && (forall k: nat :: k in u.readings && Passing(u.readings[k]) && Passes(u.verdicts, u.readings[k].seen.value.id) >= 1 ==>
          SomeHalfDecided(w, moves, k))
  }

  lemma DecidesMore(moves: seq<Move>, move: Move, i: nat, l: nat)
    ensures Decides(moves, i, l) ==> Decides(moves + [move], i, l)
    ensures move == Decide(l) && i <= |moves| ==> Decides(moves + [move], i, l)
  {
    if Decides(moves, i, l) {
      var j :| i <= j < |moves| && moves[j] == Decide(l);
      assert (moves + [move])[j] == Decide(l);
    }
    assert (moves + [move])[|moves|] == move;
  }

  lemma PairDecidedMore(w: World, moves: seq<Move>, move: Move)
    requires SomePairDecided(w, moves)
    ensures SomePairDecided(w, moves + [move])
  {
    var i: nat, l: nat, k: nat :| PairDecided(w, moves, i, l, k);
    assert (moves + [move])[..i] == moves[..i];
    DecidesMore(moves, move, i, l);
    DecidesMore(moves, move, i, k);
    assert PairDecided(w, moves + [move], i, l, k);
  }

  lemma HalfDecidedMore(w: World, moves: seq<Move>, move: Move, k: nat)
    requires SomeHalfDecided(w, moves, k)
    ensures SomeHalfDecided(w, moves + [move], k)
    ensures move == Decide(k) ==> SomePairDecided(w, moves + [move])
  {
    var i: nat, l: nat :| HalfDecided(w, moves, i, l, k);
    assert (moves + [move])[..i] == moves[..i];
    DecidesMore(moves, move, i, l);
    DecidesMore(moves, move, i, k);
    assert HalfDecided(w, moves + [move], i, l, k);
    if move == Decide(k) {
      assert PairDecided(w, moves + [move], i, l, k);
    }
  }

  /** A second pass is the decision on a reading that saw the authorization before the first. */
  lemma ExplainedPass(w: World, moves: seq<Move>, move: Move, id: string)
    requires Explained(w, moves)
    requires Passes(Step(RunMoves(w, moves), move).verdicts, id) >= 2
    ensures SomePairDecided(w, moves + [move])
  {
    var u := RunMoves(w, moves);
    StepPasses(u, move, id);
    if Passes(u.verdicts, id) >= 2 {
      PairDecidedMore(w, moves, move);
    } else {
      HalfDecidedMore(w, moves, move, move.l);
    }
  }

  /** A reading that is left undecided when the first request passes on what it saw. */
  lemma ExplainedReading(w: World, moves: seq<Move>, move: Move, k: nat)
    requires Explained(w, moves) && Invariant(RunMoves(w, moves))
    requires var v := Step(RunMoves(w, moves), move);
      k in v.readings && Passing(v.readings[k]) && Passes(v.verdicts, v.readings[k].seen.value.id) >= 1
    ensures SomeHalfDecided(w, moves + [move], k)
  {
    var u := RunMoves(w, moves);
    var v := Step(u, move);
    StepPasses(u, move, v.readings[k].seen.value.id);
    OldReading(u, move, k);
    if Passes(u.verdicts, u.readings[k].seen.value.id) >= 1 {
      HalfDecidedMore(w, moves, move, k);
    } else {
      FirstPass(w, moves, move, k);
    }
  }

  /** What a reading saw on which a request has passed is what it saw before this move. */
  lemma OldReading(u: World, move: Move, k: nat)
    requires PendingOk(u) && k in Step(u, move).readings && Step(u, move).readings[k].seen.Some?
    requires Passes(Step(u, move).verdicts, Step(u, move).readings[k].seen.value.id) >= 1
    ensures k in u.readings && u.readings[k] == Step(u, move).readings[k]
  {
  }

  lemma FirstPass(w: World, moves: seq<Move>, move: Move, k: nat)
    requires Invariant(RunMoves(w, moves)) && move.Decide? && move.l != k
    requires var u := RunMoves(w, moves);
      && k in u.readings && Passing(u.readings[k])
      && move.l in u.readings && Passing(u.readings[move.l])
      && u.readings[move.l].seen.value.id == u.readings[k].seen.value.id
    ensures SomeHalfDecided(w, moves + [move], k)
  {
    var u := RunMoves(w, moves);
    assert Known(u, u.readings[move.l].seen.value) && Known(u, u.readings[k].seen.value);
    assert (moves + [move])[..|moves|] == moves;
    DecidesMore(moves, move, |moves|, move.l);
    assert HalfDecided(w, moves + [move], |moves|, move.l, k);
  }

  lemma {:induction false} AllExplained(w: World, moves: seq<Move>)
    requires Invariant(w) && w.verdicts == [] && w.readings == map[]
    ensures Explained(w, moves)
    decreases moves
  {
    if moves != [] {
      var front, move := moves[..|moves| - 1], moves[|moves| - 1];
      assert moves == front + [move];
      AllExplained(w, front);
      RunKeeps(w, front);
      var v := RunMoves(w, moves);
      forall id | Passes(v.verdicts, id) >= 2 ensures SomePairDecided(w, moves) {
        ExplainedPass(w, front, move, id);
      }
      forall k: nat | k in v.readings && Passing(v.readings[k]) && Passes(v.verdicts, v.readings[k].seen.value.id) >= 1
        ensures SomeHalfDecided(w, moves, k)
      {
        ExplainedReading(w, front, move, k);
      }
    }
  }

  // ---- The results ----

  /**
   In every run of any number of clients and handlers, with sessions that come and go: an
   authorization is armed at most once, and only as it was issued; a request that is not a
   safe read passes only on an armed authorization of its verb, URL up to the fragment, and
   frame.
   */
  lemma ArmedAtMostOnce(session: Option<string>, targets: map<string, Option<string>>, moves: seq<Move>)
    ensures var w := RunMoves(Initial(session, targets), moves);
      && (forall i, j :: 0 <= i < j < |w.armed| ==> w.armed[i].id != w.armed[j].id)
      && (forall a :: a in w.armed ==> a.id in w.issuedEver && w.issuedEver[a.id] == a)
      && (forall v :: v in w.verdicts ==> match v
            case Continued(request) => Safe(request)
            case Passed(request, auth) => Matches(request, auth) && auth in w.armed
            case Denied(request) => !Safe(request))
  {
    RunKeeps(Initial(session, targets), moves);
    var w := RunMoves(Initial(session, targets), moves);
    forall v | v in w.verdicts
      ensures match v
        case Continued(request) => Safe(request)
        case Passed(request, auth) => Matches(request, auth) && auth in w.armed
        case Denied(request) => !Safe(request)
    {
      assert VerdictOk(w, v);
    }
  }

  /**
   In every such run two requests pass on one authorization if and only if at some point two
   undecided readings had seen the same authorization, both matching it, and both were
   decided later in the run.
   */
  lemma SpentTwiceExactly(session: Option<string>, targets: map<string, Option<string>>, moves: seq<Move>)
    ensures SpentTwice(RunMoves(Initial(session, targets), moves)) <==>
      SomePairDecided(Initial(session, targets), moves)
  {
    var w := Initial(session, targets);
    AllExplained(w, moves);
    if i: nat, l: nat, k: nat :| PairDecided(w, moves, i, l, k) {
      PairSpendsTwice(w, moves, i, l, k);
    }
  }

  /** So from any state with such a pair the two decisions spend it twice. */
  lemma PairCanSpendTwice(w: World, l: nat, k: nat)
    requires Pair(w, l, k)
    ensures Passes(RunMoves(w, [Decide(l), Decide(k)]).verdicts, w.readings[l].seen.value.id)
         >= Passes(w.verdicts, w.readings[l].seen.value.id) + 2
  {
    var moves := [Decide(l), Decide(k)];
    assert moves[0] == Decide(l) && moves[1] == Decide(k);
    TwoDecided(w, moves, l, k);
  }

  /** No handler looks at a request while another has one undecided. */
  ghost predicate OneAtATime(w: World, moves: seq<Move>)
    decreases moves
  {
    moves == [] ||
    (var front, move := moves[..|moves| - 1], moves[|moves| - 1];
     OneAtATime(w, front) && (move.Read? ==> RunMoves(w, front).readings == map[]))
  }

  lemma {:induction false} NoPair(w: World, moves: seq<Move>, i: nat)
    requires OneAtATime(w, moves) && w.readings == map[] && i <= |moves|
    ensures forall l, k :: l in RunMoves(w, moves[..i]).readings && k in RunMoves(w, moves[..i]).readings ==> l == k
    decreases |moves|
  {
    if moves != [] {
      var front := moves[..|moves| - 1];
      if i < |moves| {
        NoPair(w, front, i);
        assert moves[..i] == front[..i];
      } else {
        NoPair(w, front, |front|);
        assert front[..|front|] == front && moves[..i] == moves;
      }
    }
  }

  lemma {:induction false} PassesByIndex(verdicts: seq<Verdict>, i: nat, j: nat)
    requires i < j < |verdicts| && verdicts[i].Passed? && verdicts[j].Passed? && verdicts[i].auth.id == verdicts[j].auth.id
    ensures Passes(verdicts, verdicts[i].auth.id) >= 2
    decreases verdicts
  {
    var front := verdicts[..|verdicts| - 1];
    if j < |front| {
      PassesByIndex(front, i, j);
    } else {
      PassesOnce(front, i);
    }
  }

  lemma {:induction false} PassesOnce(verdicts: seq<Verdict>, i: nat)
    requires i < |verdicts| && verdicts[i].Passed?
    ensures Passes(verdicts, verdicts[i].auth.id) >= 1
    decreases verdicts
  {
    if i < |verdicts| - 1 {
      PassesOnce(verdicts[..|verdicts| - 1], i);
    }
  }

  /** When requests are handled one at a time, no two pass on the same authorization. */
  lemma SpentAtMostOnce(session: Option<string>, targets: map<string, Option<string>>, moves: seq<Move>)
    requires OneAtATime(Initial(session, targets), moves)
    ensures var w := RunMoves(Initial(session, targets), moves);
      && !SpentTwice(w)
      && (forall i, j :: 0 <= i < j < |w.verdicts| && w.verdicts[i].Passed? && w.verdicts[j].Passed? ==>
            w.verdicts[i].auth.id != w.verdicts[j].auth.id)
  {
    var w, u := Initial(session, targets), RunMoves(Initial(session, targets), moves);
    forall i: nat, l: nat, k: nat ensures !PairDecided(w, moves, i, l, k) {
      if i <= |moves| {
        NoPair(w, moves, i);
      }
    }
    SpentTwiceExactly(session, targets, moves);
    forall i, j | 0 <= i < j < |u.verdicts| && u.verdicts[i].Passed? && u.verdicts[j].Passed?
      ensures u.verdicts[i].auth.id != u.verdicts[j].auth.id
    {
      if u.verdicts[i].auth.id == u.verdicts[j].auth.id {
        PassesByIndex(u.verdicts, i, j);
      }
    }
  }

  /**
   It does happen: from a fresh broker, an authorization is issued, consumed and armed, two
   handlers look before either decides, and two requests pass on it.
   */
  lemma TwoHandlersSpendTwice(auth: Auth, now: int, first: Request, second: Request)
    requires now <= auth.expiresAt
    requires !Safe(first) && !Safe(second) && Matches(first, auth) && Matches(second, auth)
    ensures RunMoves(AtSession(auth), ToReady(auth, now) + [Arm(0), Read(0, first), Read(1, second), Decide(0), Decide(1)]).verdicts
         == [Passed(first, auth), Passed(second, auth)]
  {
    var w, tail := WhenReady(auth), [Arm(0), Read(0, first), Read(1, second), Decide(0), Decide(1)];
    IsReady(auth, now);
    RunConcat(AtSession(auth), ToReady(auth, now), tail);
    RunFive(w, Arm(0), Read(0, first), Read(1, second), Decide(0), Decide(1));
    BothRead(StepArm(w, 0), auth, first, second);
    BothDecide(StepArm(w, 0), auth, first, second);
  }

  lemma BothRead(w: World, auth: Auth, first: Request, second: Request)
    requires w.shared.pending == Some(auth) && w.readings == map[] && !Safe(first) && !Safe(second)
    ensures Step(Step(w, Read(0, first)), Read(1, second))
         == w.(readings := map[0 := Reading(first, Some(auth)), 1 := Reading(second, Some(auth))])
  {
  }

  lemma BothDecide(w: World, auth: Auth, first: Request, second: Request)
    requires w.verdicts == [] && Matches(first, auth) && Matches(second, auth)
    ensures var both := w.(readings := map[0 := Reading(first, Some(auth)), 1 := Reading(second, Some(auth))]);
      Step(Step(both, Decide(0)), Decide(1)).verdicts == [Passed(first, auth), Passed(second, auth)]
  {
  }
}
