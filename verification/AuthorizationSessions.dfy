/**
 In which browser session an authorization is armed, in every run in which clients, handlers
 and sessions interleave and session ids are fresh.
 */
module AuthorizationSessions {
  import opened Models
  import opened SubmissionAuth

  /** No session id is used twice. */
  ghost predicate FreshSessions(session: Option<string>, moves: seq<Move>) {
    forall k :: 0 <= k < |moves| && moves[k].SetSession? && moves[k].next.Some? ==>
      moves[k].next != session && forall i :: 0 <= i < k ==> moves[i] != moves[k]
  }

  /** The move at which the client last passed the checks of a submission. */
  function LastLookup(w: World, moves: seq<Move>, c: nat): Option<nat>
    decreases moves
  {
    if moves == [] then None
    else
      var (front, move) := (moves[..|moves| - 1], moves[|moves| - 1]);
      if move.Lookup? && move.c == c && Enabled(RunMoves(w, front), move) then Some(|front|) else LastLookup(w, front, c)
  }

  ghost predicate NoSessionSince(moves: seq<Move>, i: nat) {
    forall k :: i < k < |moves| ==> !moves[k].SetSession?
  }

  // ---- Invariant ----

  ghost predicate Used(session: Option<string>, moves: seq<Move>, s: string) {
    Some(s) == session || SetSession(Some(s)) in moves
  }

  /** Move `i` was the lookup that granted the authorization. */
  ghost predicate GrantedAt(w: World, moves: seq<Move>, i: nat, c: nat, auth: Auth) {
    && i < |moves| && moves[i].Lookup? && moves[i].c == c
    && LookUp(RunMoves(w, moves[..i]).shared, moves[i].target, moves[i].authId, moves[i].now) == Granted(auth)
  }

  /** The client's authorization is of the present session exactly if none has begun or ended since its lookup. */
  ghost predicate ClientOk(w: World, moves: seq<Move>, c: nat, auth: Auth) {
    var i := LastLookup(w, moves, c);
    && i.Some? && GrantedAt(w, moves, i.value, c, auth)
    && Used(w.shared.session, moves, auth.session)
    && (RunMoves(w, moves).shared.session == Some(auth.session) <==> NoSessionSince(moves, i.value))
  }

  ghost predicate SessionsUsed(w: World, moves: seq<Move>) {
    var u := RunMoves(w, moves);
    && (u.shared.session.Some? ==> Used(w.shared.session, moves, u.shared.session.value))
    && (forall id :: id in u.shared.issued ==> Used(w.shared.session, moves, u.shared.issued[id].session))
    && (forall c :: c in u.clients && u.clients[c].Issuing? ==> Used(w.shared.session, moves, u.clients[c].session))
  }

  ghost predicate ClientsOk(w: World, moves: seq<Move>) {
    var u := RunMoves(w, moves);
    forall c :: c in u.clients && !u.clients[c].Issuing? ==> ClientOk(w, moves, c, u.clients[c].auth)
  }

  lemma UsedMore(session: Option<string>, moves: seq<Move>, move: Move, s: string)
    requires Used(session, moves, s) || move == SetSession(Some(s))
    ensures Used(session, moves + [move], s)
  {
  }

  lemma RunMore(w: World, moves: seq<Move>, move: Move)
    ensures RunMoves(w, moves + [move]) == Step(RunMoves(w, moves), move)
  {
    assert (moves + [move])[..|moves + [move]| - 1] == moves;
  }

  lemma LookupMore(w: World, moves: seq<Move>, move: Move, c: nat)
    ensures LastLookup(w, moves + [move], c) ==
      if move.Lookup? && move.c == c && Enabled(RunMoves(w, moves), move) then Some(|moves|) else LastLookup(w, moves, c)
  {
    assert (moves + [move])[..|moves + [move]| - 1] == moves;
  }

  /** Where an issued authorization's session comes from. */
  lemma IssuedFrom(u: World, move: Move, id: string)
    requires id in Step(u, move).shared.issued
    ensures var auth := Step(u, move).shared.issued[id];
      || (id in u.shared.issued && u.shared.issued[id] == auth)
      || (move.PutAuth? && move.c in u.clients && u.clients[move.c].Issuing? && u.clients[move.c].session == auth.session)
  {
  }

  lemma IssuingFrom(u: World, move: Move, c: nat)
    requires c in Step(u, move).clients && Step(u, move).clients[c].Issuing?
    ensures var client := Step(u, move).clients[c];
      (c in u.clients && u.clients[c] == client) || u.shared.session == Some(client.session)
  {
  }

  lemma SessionsUsedStep(w: World, moves: seq<Move>, move: Move)
    requires SessionsUsed(w, moves)
    ensures SessionsUsed(w, moves + [move])
  {
    RunMore(w, moves, move);
    var u, v := RunMoves(w, moves), RunMoves(w, moves + [move]);
    if v.shared.session.Some? {
      UsedMore(w.shared.session, moves, move, v.shared.session.value);
    }
    forall id | id in v.shared.issued ensures Used(w.shared.session, moves + [move], v.shared.issued[id].session) {
      IssuedFrom(u, move, id);
      UsedMore(w.shared.session, moves, move, v.shared.issued[id].session);
    }
    forall c | c in v.clients && v.clients[c].Issuing? ensures Used(w.shared.session, moves + [move], v.clients[c].session) {
      IssuingFrom(u, move, c);
      UsedMore(w.shared.session, moves, move, v.clients[c].session);
    }
  }

  /** A lookup that has just been granted. */
  lemma ClientLooks(w: World, moves: seq<Move>, move: Move)
    requires SessionsUsed(w, moves) && move.Lookup? && Enabled(RunMoves(w, moves), move)
    ensures ClientOk(w, moves + [move], move.c, LookUp(RunMoves(w, moves).shared, move.target, move.authId, move.now).auth)
  {
    RunMore(w, moves, move);
    LookupMore(w, moves, move, move.c);
    assert (moves + [move])[..|moves|] == moves;
    var auth := LookUp(RunMoves(w, moves).shared, move.target, move.authId, move.now).auth;
    UsedMore(w.shared.session, moves, move, auth.session);
  }

  /** Any other move, for a client that keeps its authorization. */
  lemma ClientStays(w: World, moves: seq<Move>, move: Move, c: nat, auth: Auth)
    requires ClientOk(w, moves, c, auth) && FreshSessions(w.shared.session, moves + [move])
    requires !(move.Lookup? && move.c == c && Enabled(RunMoves(w, moves), move))
    ensures ClientOk(w, moves + [move], c, auth)
  {
    RunMore(w, moves, move);
    LookupMore(w, moves, move, c);
    UsedMore(w.shared.session, moves, move, auth.session);
    var i := LastLookup(w, moves, c).value;
    assert (moves + [move])[..i] == moves[..i];
    SessionMoves(w, moves, move, i, auth.session);
  }

  lemma SessionMoves(w: World, moves: seq<Move>, move: Move, i: nat, s: string)
    requires i < |moves| && Used(w.shared.session, moves, s) && FreshSessions(w.shared.session, moves + [move])
    requires RunMoves(w, moves).shared.session == Some(s) <==> NoSessionSince(moves, i)
    ensures RunMoves(w, moves + [move]).shared.session == Some(s) <==> NoSessionSince(moves + [move], i)
  {
    RunMore(w, moves, move);
    NoSessionMore(moves, move, i);
    if move.SetSession? {
      FreshAgain(w.shared.session, moves, move, s);
    }
  }

  lemma NoSessionMore(moves: seq<Move>, move: Move, i: nat)
    requires i < |moves|
    ensures NoSessionSince(moves + [move], i) <==> NoSessionSince(moves, i) && !move.SetSession?
  {
    var all := moves + [move];
    assert all[|moves|] == move;
    assert forall k :: 0 <= k < |moves| ==> all[k] == moves[k];
  }

  /** A session that begins is none of those before. */
  lemma FreshAgain(session: Option<string>, moves: seq<Move>, move: Move, s: string)
    requires Used(session, moves, s) && FreshSessions(session, moves + [move]) && move.SetSession?
    ensures move.next != Some(s)
  {
    var all := moves + [move];
    assert all[|moves|] == move;
    if SetSession(Some(s)) in moves {
      var k :| 0 <= k < |moves| && moves[k] == SetSession(Some(s));
      assert all[k] == SetSession(Some(s));
    }
  }

  lemma ClientsStep(w: World, moves: seq<Move>, move: Move)
    requires SessionsUsed(w, moves) && ClientsOk(w, moves) && FreshSessions(w.shared.session, moves + [move])
    ensures ClientsOk(w, moves + [move])
  {
    RunMore(w, moves, move);
    var u, v := RunMoves(w, moves), RunMoves(w, moves + [move]);
    forall c | c in v.clients && !v.clients[c].Issuing? ensures ClientOk(w, moves + [move], c, v.clients[c].auth) {
      if move.Lookup? && move.c == c && Enabled(u, move) {
        ClientLooks(w, moves, move);
      } else {
        ClientStays(w, moves, move, c, v.clients[c].auth);
      }
    }
  }

  lemma {:induction false} RunKeeps(session: Option<string>, targets: map<string, Option<string>>, moves: seq<Move>)
    requires FreshSessions(session, moves)
    ensures SessionsUsed(Initial(session, targets), moves) && ClientsOk(Initial(session, targets), moves)
    decreases moves
  {
    if moves != [] {
      var front, move := moves[..|moves| - 1], moves[|moves| - 1];
      assert moves == front + [move];
      RunKeeps(session, targets, front);
      SessionsUsedStep(Initial(session, targets), front, move);
      ClientsStep(Initial(session, targets), front, move);
    }
  }

  // ---- The results ----

  /**
   In every run in which clients, handlers and sessions interleave and session ids are
   fresh: whenever a client arms, it arms what its last lookup granted, for the target it
   asked for and before it expired; and the session at that moment is the authorization's
   own if and only if no session has begun or ended between that lookup and the arming.
   */
  lemma ArmedInOwnSessionExactly(session: Option<string>, targets: map<string, Option<string>>, moves: seq<Move>, j: nat, c: nat)
    returns (i: nat)
    requires FreshSessions(session, moves)
    requires j < |moves| && moves[j] == Arm(c) && Enabled(RunMoves(Initial(session, targets), moves[..j]), moves[j])
    ensures var w := RunMoves(Initial(session, targets), moves[..j]);
      var (auth, u) := (w.clients[c].auth, RunMoves(Initial(session, targets), moves[..j + 1]));
      && i < j && LastLookup(Initial(session, targets), moves[..j], c) == Some(i)
      && GrantedAt(Initial(session, targets), moves, i, c, auth)
      && auth.target == moves[i].target && moves[i].now <= auth.expiresAt
      && u.armed == w.armed + [auth] && u.armedIn == w.armedIn + [w.shared.session]
      && (w.shared.session == Some(auth.session) <==> forall k :: i < k < j ==> !moves[k].SetSession?)
  {
    var w0, before := Initial(session, targets), moves[..j];
    var w := RunMoves(w0, before);
    FreshPrefix(session, moves, j);
    i := ClientAt(session, targets, before, w, c);
    GrantedBefore(w0, moves, j, i, c, w.clients[c].auth);
    ArmedNext(w0, moves, j, w, c);
    SamePrefix(moves, j, i);
  }

  /** The lookup of a client that holds an authorization. */
  lemma ClientAt(session: Option<string>, targets: map<string, Option<string>>, before: seq<Move>, w: World, c: nat) returns (i: nat)
    requires FreshSessions(session, before) && w == RunMoves(Initial(session, targets), before)
    requires c in w.clients && !w.clients[c].Issuing?
    ensures LastLookup(Initial(session, targets), before, c) == Some(i)
    ensures GrantedAt(Initial(session, targets), before, i, c, w.clients[c].auth)
    ensures w.shared.session == Some(w.clients[c].auth.session) <==> NoSessionSince(before, i)
  {
    RunKeeps(session, targets, before);
    assert ClientOk(Initial(session, targets), before, c, w.clients[c].auth);
    i := LastLookup(Initial(session, targets), before, c).value;
  }

  lemma ArmedNext(w0: World, moves: seq<Move>, j: nat, w: World, c: nat)
    requires j < |moves| && w == RunMoves(w0, moves[..j]) && moves[j] == Arm(c) && Enabled(w, Arm(c))
    ensures var u := RunMoves(w0, moves[..j + 1]);
      u.armed == w.armed + [w.clients[c].auth] && u.armedIn == w.armedIn + [w.shared.session]
  {
    assert moves[..j + 1] == moves[..j] + [moves[j]];
    RunMore(w0, moves[..j], moves[j]);
    ArmsThis(w, c);
  }

  lemma FreshPrefix(session: Option<string>, moves: seq<Move>, j: nat)
    requires j <= |moves| && FreshSessions(session, moves)
    ensures FreshSessions(session, moves[..j])
  {
    assert forall k :: 0 <= k < j ==> moves[..j][k] == moves[k];
  }

  lemma GrantedBefore(w: World, moves: seq<Move>, j: nat, i: nat, c: nat, auth: Auth)
    requires j <= |moves| && GrantedAt(w, moves[..j], i, c, auth)
    ensures i < j && GrantedAt(w, moves, i, c, auth)
    ensures auth.target == moves[i].target && moves[i].now <= auth.expiresAt
  {
    assert moves[..j][..i] == moves[..i];
  }

  lemma ArmsThis(w: World, c: nat)
    requires Enabled(w, Arm(c))
    ensures Step(w, Arm(c)).armed == w.armed + [w.clients[c].auth]
    ensures Step(w, Arm(c)).armedIn == w.armedIn + [w.shared.session]
  {
  }

  lemma SamePrefix(moves: seq<Move>, j: nat, i: nat)
    requires j <= |moves|
    ensures NoSessionSince(moves[..j], i) <==> forall k :: i < k < j ==> !moves[k].SetSession?
  {
    assert forall k :: 0 <= k < j ==> moves[..j][k] == moves[k];
  }

  /**
   It does happen: from a fresh broker, a client is about to arm when the browser is started
   anew and everything issued, found and pending is cleared; it arms all the same, and a
   request passes in the new session on an authorization of the old one.
   */
  lemma ArmsAcrossSessions(auth: Auth, now: int, next: string, request: Request)
    requires now <= auth.expiresAt && next != auth.session && !Safe(request) && Matches(request, auth)
    ensures var u := RunMoves(AtSession(auth), ToReady(auth, now)
        + [SetSession(Some(next)), ClearTargets, ClearPending, ClearIssued, Arm(0)] + [Read(0, request), Decide(0)]);
      u.shared.session == Some(next) && u.armedIn == [Some(next)] && u.verdicts == [Passed(request, auth)]
  {
    var restart := [SetSession(Some(next)), ClearTargets, ClearPending, ClearIssued, Arm(0)];
    IsReady(auth, now);
    RunConcat(AtSession(auth), ToReady(auth, now), restart);
    RunConcat(AtSession(auth), ToReady(auth, now) + restart, [Read(0, request), Decide(0)]);
    RunFive(WhenReady(auth), SetSession(Some(next)), ClearTargets, ClearPending, ClearIssued, Arm(0));
    var armed := ArmedAfterRestart(auth, next);
    RunTwo(armed, Read(0, request), Decide(0));
    PassesWhenArmed(armed, auth, request);
  }

  lemma PassesWhenArmed(w: World, auth: Auth, request: Request)
    requires w.shared.pending == Some(auth) && w.readings == map[] && !Safe(request) && Matches(request, auth)
    ensures var u := Step(Step(w, Read(0, request)), Decide(0));
      u.shared.session == w.shared.session && u.armedIn == w.armedIn && u.verdicts == w.verdicts + [Passed(request, auth)]
  {
  }

  lemma ArmedAfterRestart(auth: Auth, next: string) returns (u: World)
    ensures u == Step(Step(Step(Step(Step(WhenReady(auth), SetSession(Some(next))), ClearTargets), ClearPending), ClearIssued), Arm(0))
    ensures u.shared == Shared(Some(next), map[], map[], Some(auth)) && u.readings == map[] && u.verdicts == [] && u.armedIn == [Some(next)]
  {
    var w := WhenReady(auth).(shared := Shared(Some(next), map[], map[], None));
    assert Step(Step(Step(Step(WhenReady(auth), SetSession(Some(next))), ClearTargets), ClearPending), ClearIssued) == w;
    u := Step(w, Arm(0));
  }
}
