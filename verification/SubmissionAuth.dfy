/**
 Single-use submission authorizations in the browser broker: issued to a client, looked
 up, consumed and armed by a submission, and spent by the handler of paused requests,
 all from threads that interleave between any two of these steps.
 */
module SubmissionAuth {
  import opened Models

  datatype Auth = Auth(
    id: string, session: string, target: string,
    expectedVerb: string, expectedUrl: string, expectedFrame: string,
    expiresAt: int)

  /** A paused request; the verb, its method, is in upper case. */
  datatype Request = Request(id: string, verb: string, url: string, frame: string)

  /** What all threads share; a target is kept with the session it was found in. */
  datatype Shared = Shared(
    session: Option<string>, targets: map<string, Option<string>>, issued: map<string, Auth>, pending: Option<Auth>)

  datatype Refusal = TargetStale | SessionMismatch | InvalidAuthorization | TargetMismatch | Expired

  datatype Checked = Granted(auth: Auth) | Refused(why: Refusal)

  /** The part of a URL before its first `#`. */
  function NoFragment(url: string): (r: string)
    ensures r <= url && '#' !in r
    ensures |r| < |url| ==> url[|r|] == '#'
  {
    if url == "" || url[0] == '#' then "" else [url[0]] + NoFragment(url[1..])
  }

  predicate Safe(request: Request) {
    request.verb == "GET" || request.verb == "HEAD" || request.verb == "OPTIONS"
  }

  predicate Matches(request: Request, auth: Auth) {
    && auth.expectedVerb == request.verb
    && NoFragment(request.url) == NoFragment(auth.expectedUrl)
    && auth.expectedFrame == request.frame
  }

  predicate TargetLive(s: Shared, target: string) {
    target in s.targets && s.targets[target] == s.session
  }

  function IssueRefusal(s: Shared, target: string, session: string): Option<Refusal> {
    if !TargetLive(s, target) then Some(TargetStale)
    else if s.session != Some(session) then Some(SessionMismatch)
    else None
  }

  function LookUp(s: Shared, target: string, authId: string, now: int): Checked {
    if authId !in s.issued then Refused(InvalidAuthorization)
    else
      var auth := s.issued[authId];
      if Some(auth.session) != s.session then Refused(SessionMismatch)
      else if auth.target != target then Refused(TargetMismatch)
      else if now > auth.expiresAt then Refused(Expired)
      else Granted(auth)
  }

  // ---- The steps of all threads ----

  /** How far a thread of the broker has come with the call it serves. */
  datatype Client =
    | Issuing(target: string, session: string)
    | Looked(auth: Auth)
    | Consumed(auth: Auth)
    | Ready(auth: Auth)
    | Submitting(auth: Auth)

  /** A paused request that needs an authorization, and what was pending when the handler looked. */
  datatype Reading = Reading(request: Request, seen: Option<Auth>)

  datatype Verdict = Continued(request: Request) | Passed(request: Request, auth: Auth) | Denied(request: Request)

  /**
   `issuedEver`, `spent` and `armed` keep what was ever issued, consumed and armed, and
   `armedIn` the session that was present at each arming.
   */
  datatype World = World(
    shared: Shared, clients: map<nat, Client>, readings: map<nat, Reading>,
    issuedEver: map<string, Auth>, spent: set<string>,
    armed: seq<Auth>, armedIn: seq<Option<string>>, verdicts: seq<Verdict>)

  datatype Move =
    | CheckIssue(c: nat, target: string, session: string)
    | PutAuth(c: nat, authId: string, verb: string, url: string, frame: string, expiresAt: int)
    | Lookup(c: nat, target: string, authId: string, now: int)
    | Consume(c: nat)
    | CheckTarget(c: nat)
    | Arm(c: nat)
    | ScriptFailed(c: nat)
    | Leave(c: nat)
    | Read(l: nat, request: Request)
    | Decide(l: nat)
    | SetSession(next: Option<string>)
    | PutTarget(target: string)
    | ClearTargets
    | ClearPending
    | ClearIssued

  predicate Enabled(w: World, move: Move) {
    match move
    case CheckIssue(c, target, session) => c !in w.clients && IssueRefusal(w.shared, target, session).None?
    case PutAuth(c, authId, _, _, _, _) => c in w.clients && w.clients[c].Issuing? && authId !in w.issuedEver
    case Lookup(c, target, authId, now) => c !in w.clients && LookUp(w.shared, target, authId, now).Granted?
    case Consume(c) => c in w.clients && w.clients[c].Looked?
    case CheckTarget(c) => c in w.clients && w.clients[c].Consumed? && TargetLive(w.shared, w.clients[c].auth.target)
    case Arm(c) => c in w.clients && w.clients[c].Ready?
    case ScriptFailed(c) => c in w.clients && w.clients[c].Submitting?
    case Read(l, _) => l !in w.readings
    case Decide(l) => l in w.readings
    case _ => true
  }

  /** The handler's verdict on a request that is not safe. */
  function Judged(reading: Reading): Verdict {
    if reading.seen.Some? && Matches(reading.request, reading.seen.value)
    then Passed(reading.request, reading.seen.value) else Denied(reading.request)
  }

  function StepPutAuth(w: World, c: nat, authId: string, verb: string, url: string, frame: string, expiresAt: int): World
    requires c in w.clients && w.clients[c].Issuing?
  {
    var auth := Auth(authId, w.clients[c].session, w.clients[c].target, verb, url, frame, expiresAt);
    w.(shared := w.shared.(issued := w.shared.issued[authId := auth]),
       issuedEver := w.issuedEver[authId := auth], clients := w.clients - {c})
  }

  /** Deleting an id that is gone fails the call. */
  function StepConsume(w: World, c: nat): World
    requires c in w.clients && w.clients[c].Looked?
  {
    var auth := w.clients[c].auth;
    if auth.id in w.shared.issued then
      w.(shared := w.shared.(issued := w.shared.issued - {auth.id}),
         spent := w.spent + {auth.id}, clients := w.clients[c := Consumed(auth)])
    else w.(clients := w.clients - {c})
  }

  function StepArm(w: World, c: nat): World
    requires c in w.clients && w.clients[c].Ready?
  {
    var auth := w.clients[c].auth;
    w.(shared := w.shared.(pending := Some(auth)), armed := w.armed + [auth], armedIn := w.armedIn + [w.shared.session],
       clients := w.clients[c := Submitting(auth)])
  }

  function StepRead(w: World, l: nat, request: Request): World {
    if Safe(request) then w.(verdicts := w.verdicts + [Continued(request)])
    else w.(readings := w.readings[l := Reading(request, w.shared.pending)])
  }

  function StepDecide(w: World, l: nat): World
    requires l in w.readings
  {
    var verdict := Judged(w.readings[l]);
    w.(shared := if verdict.Passed? then w.shared.(pending := None) else w.shared,
       readings := w.readings - {l}, verdicts := w.verdicts + [verdict])
  }

  /** A move that is not enabled does nothing: the call is refused. */
  function Step(w: World, move: Move): World {
    if !Enabled(w, move) then w
    else match move
      case CheckIssue(c, target, session) => w.(clients := w.clients[c := Issuing(target, session)])
      case PutAuth(c, authId, verb, url, frame, expiresAt) => StepPutAuth(w, c, authId, verb, url, frame, expiresAt)
      case Lookup(c, target, authId, now) => w.(clients := w.clients[c := Looked(LookUp(w.shared, target, authId, now).auth)])
      case Consume(c) => StepConsume(w, c)
      case CheckTarget(c) => w.(clients := w.clients[c := Ready(w.clients[c].auth)])
      case Arm(c) => StepArm(w, c)
      case ScriptFailed(c) => w.(shared := w.shared.(pending := None), clients := w.clients - {c})
      case Leave(c) => w.(clients := w.clients - {c})
      case Read(l, request) => StepRead(w, l, request)
      case Decide(l) => StepDecide(w, l)
      case SetSession(next) => w.(shared := w.shared.(session := next))
      case PutTarget(target) => w.(shared := w.shared.(targets := w.shared.targets[target := w.shared.session]))
      case ClearTargets => w.(shared := w.shared.(targets := map[]))
      case ClearPending => w.(shared := w.shared.(pending := None))
      case ClearIssued => w.(shared := w.shared.(issued := map[]))
  }

  function RunMoves(w: World, moves: seq<Move>): World
    decreases moves
  {
    if moves == [] then w else Step(RunMoves(w, moves[..|moves| - 1]), moves[|moves| - 1])
  }

  function Initial(session: Option<string>, targets: map<string, Option<string>>): World {
    World(Shared(session, targets, map[], None), map[], map[], map[], {}, [], [], [])
  }

  lemma RunSnoc(w: World, moves: seq<Move>, move: Move)
    ensures RunMoves(w, moves + [move]) == Step(RunMoves(w, moves), move)
  {
    assert (moves + [move])[..|moves + [move]| - 1] == moves;
  }

  lemma RunTwo(w: World, a: Move, b: Move)
    ensures RunMoves(w, [a, b]) == Step(Step(w, a), b)
  {
    RunSnoc(w, [], a);
    RunSnoc(w, [a], b);
    assert [] + [a] == [a] && [a] + [b] == [a, b];
  }

  lemma RunFour(w: World, a: Move, b: Move, c: Move, d: Move)
    ensures RunMoves(w, [a, b, c, d]) == Step(Step(Step(Step(w, a), b), c), d)
  {
    RunTwo(w, a, b);
    RunSnoc(w, [a, b], c);
    RunSnoc(w, [a, b, c], d);
    assert [a, b] + [c] == [a, b, c] && [a, b, c] + [d] == [a, b, c, d];
  }

  lemma RunFive(w: World, a: Move, b: Move, c: Move, d: Move, e: Move)
    ensures RunMoves(w, [a, b, c, d, e]) == Step(Step(Step(Step(Step(w, a), b), c), d), e)
  {
    RunFour(w, a, b, c, d);
    RunSnoc(w, [a, b, c, d], e);
    assert [a, b, c, d] + [e] == [a, b, c, d, e];
  }

  lemma {:induction false} RunConcat(w: World, a: seq<Move>, b: seq<Move>)
    ensures RunMoves(w, a + b) == RunMoves(RunMoves(w, a), b)
    decreases b
  {
    if b == [] {
      assert a + b == a;
    } else {
      assert (a + b)[..|a + b| - 1] == a + b[..|b| - 1];
      RunConcat(w, a, b[..|b| - 1]);
    }
  }

  lemma RunFirst(w: World, moves: seq<Move>)
    requires moves != []
    ensures RunMoves(w, moves) == RunMoves(Step(w, moves[0]), moves[1..])
  {
    assert moves == [moves[0]] + moves[1..];
    RunConcat(w, [moves[0]], moves[1..]);
    assert [moves[0]][..0] == [];
  }

  // ---- A run up to an authorization that is ready to be armed ----

  /** An authorization is issued to a client, and looked up, consumed and found to have a live target by it. */
  function ToReady(auth: Auth, now: int): seq<Move> {
    [CheckIssue(0, auth.target, auth.session),
     PutAuth(0, auth.id, auth.expectedVerb, auth.expectedUrl, auth.expectedFrame, auth.expiresAt),
     Lookup(0, auth.target, auth.id, now), Consume(0), CheckTarget(0)]
  }

  function AtSession(auth: Auth): World {
    Initial(Some(auth.session), map[auth.target := Some(auth.session)])
  }

  function WhenReady(auth: Auth): World {
    AtSession(auth).(clients := map[0 := Ready(auth)], issuedEver := map[auth.id := auth], spent := {auth.id})
  }

  lemma Issued(auth: Auth)
    ensures var w := AtSession(auth);
      Step(Step(w, CheckIssue(0, auth.target, auth.session)),
           PutAuth(0, auth.id, auth.expectedVerb, auth.expectedUrl, auth.expectedFrame, auth.expiresAt))
      == w.(shared := w.shared.(issued := map[auth.id := auth]), issuedEver := map[auth.id := auth])
  {
  }

  lemma IsReady(auth: Auth, now: int)
    requires now <= auth.expiresAt
    ensures RunMoves(AtSession(auth), ToReady(auth, now)) == WhenReady(auth)
  {
    var w := AtSession(auth);
    Issued(auth);
    RunFive(w, CheckIssue(0, auth.target, auth.session),
      PutAuth(0, auth.id, auth.expectedVerb, auth.expectedUrl, auth.expectedFrame, auth.expiresAt),
      Lookup(0, auth.target, auth.id, now), Consume(0), CheckTarget(0));
    var issued := w.(shared := w.shared.(issued := map[auth.id := auth]), issuedEver := map[auth.id := auth]);
    assert Step(issued, Lookup(0, auth.target, auth.id, now)) == issued.(clients := map[0 := Looked(auth)]);
    assert Step(issued.(clients := map[0 := Looked(auth)]), Consume(0))
        == WhenReady(auth).(clients := map[0 := Consumed(auth)]);
  }


  // ---- The broker's methods, when nothing interleaves ----

  datatype Page = PageFails | Form(verb: string, url: string, frame: string)

  /** How the page script that submits the form ends; a raised error, such as a timeout, leaves the submission pending. */
  datatype Script = Ran | ReportsError | Raises

  datatype Submission = NotRunning | MissingAuthorization | NotGranted(why: Refusal) | Stale | ScriptError | ScriptRaised | Sent

  function Issue(s: Shared, target: string, session: string, page: Page, authId: string, expiresAt: int): Shared {
    if IssueRefusal(s, target, session).Some? || page.PageFails? then s
    else s.(issued := s.issued[authId := Auth(authId, session, target, page.verb, page.url, page.frame, expiresAt)])
  }

  function Submitted(s: Shared, target: string, authId: string, now: int, resolved: bool, script: Script): Shared {
    match LookUp(s, target, authId, now)
    case Refused(_) => s
    case Granted(auth) =>
      var consumed := s.(issued := s.issued - {auth.id});
      if !TargetLive(s, target) || !resolved then consumed
      else consumed.(pending := if script.ReportsError? then None else Some(auth))
  }

  class BrowserBroker {
    var sessionId: Option<string>
    var targets: map<string, Option<string>>
    var issuedAuthorizations: map<string, Auth>
    var pendingSubmission: Option<Auth>

    ghost function View(): Shared
      reads this
    {
      Shared(sessionId, targets, issuedAuthorizations, pendingSubmission)
    }

    constructor ()
      ensures View() == Shared(None, map[], map[], None)
    {
      sessionId, targets, issuedAuthorizations, pendingSubmission := None, map[], map[], None;
    }

    method StartBrowser(session: string)
      modifies this
      ensures View() == Shared(Some(session), map[], map[], None)
    {
      sessionId := Some(session);
      targets := map[];
      pendingSubmission := None;
      issuedAuthorizations := map[];
    }

    method StopBrowser()
      modifies this
      ensures View() == Shared(None, map[], map[], None)
    {
      sessionId := None;
      targets := map[];
      pendingSubmission := None;
      issuedAuthorizations := map[];
    }

    method IssueAuth(running: bool, target: string, session: string, page: Page, authId: string, expiresAt: int)
      returns (issued: bool)
      modifies this`issuedAuthorizations
      ensures View() == if running then Issue(old(View()), target, session, page, authId, expiresAt) else old(View())
      ensures issued <==> running && IssueRefusal(old(View()), target, session).None? && page.Form?
    {
      if !running || target !in targets || targets[target] != sessionId {
        return false;
      }
      if sessionId != Some(session) {
        return false;
      }
      match page {
        case PageFails => issued := false;
        case Form(verb, url, frame) =>
          issuedAuthorizations := issuedAuthorizations[authId := Auth(authId, session, target, verb, url, frame, expiresAt)];
          issued := true;
      }
    }

    method Submit(running: bool, target: string, authId: Option<string>, now: int, resolved: bool, script: Script)
      returns (result: Submission)
      modifies this`issuedAuthorizations, this`pendingSubmission
      ensures !running ==> result == NotRunning && View() == old(View())
      ensures running && !Truthy(authId) ==> result == MissingAuthorization && View() == old(View())
      ensures running && Truthy(authId) ==>
        View() == Submitted(old(View()), target, authId.value, now, resolved, script)
      ensures running && Truthy(authId) ==> match LookUp(old(View()), target, authId.value, now)
        case Refused(why) => result == NotGranted(why)
        case Granted(_) =>
          && (result.Stale? <==> !TargetLive(old(View()), target) || !resolved)
          && (!result.Stale? ==> result == match script case Ran => Sent case ReportsError => ScriptError case Raises => ScriptRaised)
    {
      if !running {
        return NotRunning;
      }
      if !Truthy(authId) {
        return MissingAuthorization;
      }
      var id := authId.value;
      if id !in issuedAuthorizations {
        return NotGranted(InvalidAuthorization);
      }
      var auth := issuedAuthorizations[id];
      if Some(auth.session) != sessionId {
        return NotGranted(SessionMismatch);
      }
      if auth.target != target {
        return NotGranted(TargetMismatch);
      }
      if now > auth.expiresAt {
        return NotGranted(Expired);
      }
      issuedAuthorizations := issuedAuthorizations - {auth.id};
      if target !in targets || targets[target] != sessionId || !resolved {
        return Stale;
      }
      pendingSubmission := Some(auth);
      match script {
        case Ran => result := Sent;
        case ReportsError =>
          pendingSubmission := None;
          result := ScriptError;
        case Raises => result := ScriptRaised;
      }
    }

    /** Safe reads always continue; any other request continues only on the pending authorization, which it spends. */
    method HandleRequestPaused(request: Request) returns (verdict: Verdict)
      modifies this`pendingSubmission
      ensures verdict == if Safe(request) then Continued(request) else Judged(Reading(request, old(pendingSubmission)))
      ensures pendingSubmission == if verdict.Passed? then None else old(pendingSubmission)
    {
      if Safe(request) {
        return Continued(request);
      }
      var pending := pendingSubmission;
      if pending.Some? && pending.value.expectedVerb == request.verb {
        var requestUrl, expectedUrl := NoFragment(request.url), NoFragment(pending.value.expectedUrl);
        if requestUrl == expectedUrl && pending.value.expectedFrame == request.frame {
          pendingSubmission := None;
          return Passed(request, pending.value);
        }
      }
      verdict := Denied(request);
    }
  }

  /** Submitted alone, a submission's steps do what the method does. */
  lemma SubmitIsMoves(w: World, c: nat, target: string, authId: string, now: int, resolved: bool, script: Script)
    requires c !in w.clients
    requires authId in w.shared.issued ==> w.shared.issued[authId].id == authId
    ensures var moves := if resolved
        then [Lookup(c, target, authId, now), Consume(c), CheckTarget(c), Arm(c), if script.ReportsError? then ScriptFailed(c) else Leave(c)]
        else [Lookup(c, target, authId, now), Consume(c)];
      RunMoves(w, moves).shared == Submitted(w.shared, target, authId, now, resolved, script)
  {
    var last := if script.ReportsError? then ScriptFailed(c) else Leave(c);
    if resolved {
      RunFive(w, Lookup(c, target, authId, now), Consume(c), CheckTarget(c), Arm(c), last);
    } else {
      RunTwo(w, Lookup(c, target, authId, now), Consume(c));
    }
    SubmitHead(w, c, target, authId, now);
    var u := Step(Step(w, Lookup(c, target, authId, now)), Consume(c));
    if LookUp(w.shared, target, authId, now).Granted? {
      SubmitTail(u, c, w.shared.issued[authId], last);
    } else {
      RefusedStays(u, c, last);
    }
  }

  /** The first steps of a submission: a refused one changes nothing, a granted one takes its authorization. */
  lemma SubmitHead(w: World, c: nat, target: string, authId: string, now: int)
    requires c !in w.clients
    requires authId in w.shared.issued ==> w.shared.issued[authId].id == authId
    ensures var u := Step(Step(w, Lookup(c, target, authId, now)), Consume(c));
      if LookUp(w.shared, target, authId, now).Granted? then
        && authId in w.shared.issued && c in u.clients && u.clients[c] == Consumed(w.shared.issued[authId])
        && u.shared == w.shared.(issued := w.shared.issued - {authId})
      else c !in u.clients && u.shared == w.shared
  {
  }

  lemma RefusedStays(u: World, c: nat, last: Move)
    requires c !in u.clients && (last == ScriptFailed(c) || last == Leave(c))
    ensures Step(Step(Step(u, CheckTarget(c)), Arm(c)), last) == u
  {
  }

  /** The last steps of a submission that holds its authorization. */
  lemma SubmitTail(u: World, c: nat, auth: Auth, last: Move)
    requires c in u.clients && u.clients[c] == Consumed(auth)
    requires last == ScriptFailed(c) || last == Leave(c)
    ensures Step(Step(Step(u, CheckTarget(c)), Arm(c)), last).shared ==
      if !TargetLive(u.shared, auth.target) then u.shared
      else u.shared.(pending := if last.ScriptFailed? then None else Some(auth))
  {
  }

  /** A request handled alone is read and decided in one go. */
  lemma HandleIsMoves(w: World, l: nat, request: Request)
    requires l !in w.readings
    ensures var u := RunMoves(w, [Read(l, request), Decide(l)]);
      var verdict := if Safe(request) then Continued(request) else Judged(Reading(request, w.shared.pending));
      && u.verdicts == w.verdicts + [verdict]
      && u.shared == (if verdict.Passed? then w.shared.(pending := None) else w.shared)
  {
    RunTwo(w, Read(l, request), Decide(l));
  }
}
