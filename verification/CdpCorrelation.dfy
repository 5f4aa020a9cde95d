/**
 Requests and responses on the browser's debugging connection: sender threads take ids
 from one counter, listener threads file responses by id, and each sender waits for its
 own, for a while. Matching is by id alone; that it finds the right request is proved.
 */
module CdpCorrelation {
  import opened Models

  /** `answers` is the position of the send that the browser answers; no thread looks at it. */
  datatype Response = Response(id: int, answers: nat, body: string)

  /** What all threads share; the counter and the responses outlive a connection. */
  datatype Channel = Channel(connected: bool, messageId: int, responses: map<int, Response>)

  // ---- The channel as an object ----

  /** What a listener receives; an event has a method and no id, and a broken message ends the loop. */
  datatype Message = Event(name: string) | Reply(response: Response) | Neither | Broken

  /** The responses a listener leaves behind. */
  function Filed(responses: map<int, Response>, messages: seq<Message>): map<int, Response>
    decreases messages
  {
    if messages == [] || messages[0].Broken? then responses
    else if messages[0].Reply? then Filed(responses[messages[0].response.id := messages[0].response], messages[1..])
    else Filed(responses, messages[1..])
  }

  /** A request takes the next id; if its send fails the connection is closed. */
  function Requested(ch: Channel, delivered: bool): Channel {
    Channel(ch.connected && delivered, ch.messageId + 1, ch.responses)
  }

  function SentAsync(ch: Channel): Channel {
    if ch.connected then ch.(messageId := ch.messageId + 1) else ch
  }

  datatype Polled = Answered(response: Response) | Closed | NotYet

  class CdpChannel {
    var connected: bool
    var messageId: int
    var responses: map<int, Response>

    ghost function View(): Channel
      reads this
    {
      Channel(connected, messageId, responses)
    }

    constructor ()
      ensures View() == Channel(false, 0, map[])
    {
      connected, messageId, responses := false, 0, map[];
    }

    /** Takes the next id; a send that fails closes the connection and gives no id to wait for. */
    method SendRequest(delivered: bool) returns (id: Option<int>)
      modifies this
      ensures View() == Requested(old(View()), delivered)
      ensures id == if delivered then Some(messageId) else None
    {
      messageId := messageId + 1;
      if !delivered {
        connected := false;
        return None;
      }
      id := Some(messageId);
    }

    /** Does nothing without a connection; otherwise takes an id that nobody waits for, whether or not the send succeeds. */
    method SendAsync()
      modifies this`messageId
      ensures View() == SentAsync(old(View()))
    {
      if !connected {
        return;
      }
      messageId := messageId + 1;
    }

    method Listen(messages: seq<Message>)
      modifies this`responses
      ensures responses == Filed(old(responses), messages)
    {
      var i := 0;
      while i < |messages| && !messages[i].Broken?
        invariant 0 <= i <= |messages|
        invariant Filed(old(responses), messages) == Filed(responses, messages[i..])
      {
        if messages[i].Reply? {
          responses := responses[messages[i].response.id := messages[i].response];
        }
        i := i + 1;
      }
    }

    /** One round of waiting: a response that is there is taken, even from a closed connection. */
    method Poll(id: int) returns (polled: Polled)
      modifies this`responses
      ensures id in old(responses) ==> polled == Answered(old(responses)[id]) && responses == old(responses) - {id}
      ensures id !in old(responses) ==> polled == (if connected then NotYet else Closed) && responses == old(responses)
    {
      if id !in responses {
        return if connected then NotYet else Closed;
      }
      polled := Answered(responses[id]);
      responses := responses - {id};
    }
  }

  // ---- The steps of all threads ----

  /** A send that reached the browser; nobody waits for an asynchronous one. */
  datatype Send = Send(id: int, asynchronous: bool)

  /** A thread that waits for the answer to send number `own` under its id. */
  datatype Caller = Waiting(id: int, own: nat)

  datatype Return = Return(own: nat, response: Response)

  /** `gaveUp` are the ids whose callers timed out or found the connection closed. */
  datatype World = World(
    channel: Channel, allotted: seq<int>, sends: seq<Send>,
    inFlight: set<Response>, callers: map<nat, Caller>, returned: seq<Return>, gaveUp: set<int>)

  datatype Move =
    | Connect
    | Disconnect
    | Request(c: nat, delivered: bool)
    | RequestAsync(delivered: bool)
    | Answer(k: nat, body: string)
    | File(response: Response)
    | Lose(response: Response)
    | Take(c: nat)
    | GiveUp(c: nat)

  predicate Enabled(w: World, move: Move) {
    match move
    case Request(c, _) => c !in w.callers
    case RequestAsync(_) => w.channel.connected
    case Answer(k, _) => k < |w.sends|
    case File(response) => response in w.inFlight
    case Take(c) => c in w.callers && w.callers[c].id in w.channel.responses
    case GiveUp(c) => c in w.callers && w.callers[c].id !in w.channel.responses
    case _ => true
  }

  function Allot(w: World): World {
    w.(channel := w.channel.(messageId := w.channel.messageId + 1), allotted := w.allotted + [w.channel.messageId + 1])
  }

  function StepRequest(w: World, c: nat, delivered: bool): World {
    var u := Allot(w);
    if delivered then
      u.(sends := w.sends + [Send(u.channel.messageId, false)],
         callers := w.callers[c := Waiting(u.channel.messageId, |w.sends|)])
    else u.(channel := u.channel.(connected := false))
  }

  function StepAsync(w: World, delivered: bool): World {
    var u := Allot(w);
    if delivered then u.(sends := w.sends + [Send(u.channel.messageId, true)]) else u
  }

  function StepTake(w: World, c: nat): World
    requires Enabled(w, Take(c))
  {
    var id := w.callers[c].id;
    w.(channel := w.channel.(responses := w.channel.responses - {id}),
       callers := w.callers - {c},
       returned := w.returned + [Return(w.callers[c].own, w.channel.responses[id])])
  }

  /** A move that is not enabled does nothing. The browser may answer a send late, often or never. */
  function Step(w: World, move: Move): World {
    if !Enabled(w, move) then w
    else match move
      case Connect => w.(channel := w.channel.(connected := true))
      case Disconnect => w.(channel := w.channel.(connected := false))
      case Request(c, delivered) => StepRequest(w, c, delivered)
      case RequestAsync(delivered) => StepAsync(w, delivered)
      case Answer(k, body) => w.(inFlight := w.inFlight + {Response(w.sends[k].id, k, body)})
      case File(response) =>
        w.(inFlight := w.inFlight - {response},
           channel := w.channel.(responses := w.channel.responses[response.id := response]))
      case Lose(response) => w.(inFlight := w.inFlight - {response})
      case Take(c) => StepTake(w, c)
      case GiveUp(c) => w.(callers := w.callers - {c}, gaveUp := w.gaveUp + {w.callers[c].id})
  }

  function RunMoves(w: World, moves: seq<Move>): World
    decreases moves
  {
    if moves == [] then w else Step(RunMoves(w, moves[..|moves| - 1]), moves[|moves| - 1])
  }

  function Initial(): World {
    World(Channel(false, 0, map[]), [], [], {}, map[], [], {})
  }

  // ---- Invariant ----

  ghost predicate IdsOk(w: World) {
    && (forall i :: 0 <= i < |w.allotted| ==> w.allotted[i] <= w.channel.messageId)
    && (forall i, j :: 0 <= i < j < |w.allotted| ==> w.allotted[i] < w.allotted[j])
    && (forall i :: 0 <= i < |w.sends| ==> w.sends[i].id <= w.channel.messageId)
    && (forall i, j :: 0 <= i < j < |w.sends| ==> w.sends[i].id < w.sends[j].id)
  }

  /** The response has the id of the send it answers. */
  predicate Genuine(w: World, r: Response) {
    r.answers < |w.sends| && w.sends[r.answers].id == r.id
  }

  ghost predicate ResponsesOk(w: World) {
    && (forall r :: r in w.inFlight ==> Genuine(w, r))
    && (forall id :: id in w.channel.responses ==> Genuine(w, w.channel.responses[id]) && w.channel.responses[id].id == id)
  }

  predicate CallerOk(w: World, caller: Caller) {
    caller.own < |w.sends| && w.sends[caller.own] == Send(caller.id, false)
  }

  ghost predicate CallersOk(w: World) {
    && (forall c :: c in w.callers ==>
          CallerOk(w, w.callers[c]) && w.callers[c].id !in w.gaveUp
          && forall r :: r in w.returned ==> r.own != w.callers[c].own)
    && (forall c, d :: c in w.callers && d in w.callers && c != d ==> w.callers[c].own != w.callers[d].own)
  }

  predicate ReturnOk(w: World, r: Return) {
    && r.own == r.response.answers && r.own < |w.sends|
    && !w.sends[r.own].asynchronous && w.sends[r.own].id == r.response.id
    && r.response.id !in w.gaveUp
  }

  ghost predicate ReturnsOk(w: World) {
    && (forall r :: r in w.returned ==> ReturnOk(w, r))
    && (forall i, j :: 0 <= i < j < |w.returned| ==> w.returned[i].own != w.returned[j].own)
    && (forall id :: id in w.gaveUp ==> id <= w.channel.messageId)
  }

  ghost predicate Invariant(w: World) {
    IdsOk(w) && ResponsesOk(w) && CallersOk(w) && ReturnsOk(w)
  }

  lemma KeepsRequest(w: World, c: nat, delivered: bool)
    requires Invariant(w)
    ensures Invariant(StepRequest(w, c, delivered))
  {
    var u := StepRequest(w, c, delivered);
    assert IdsOk(u) && ResponsesOk(u);
    forall r | r in w.returned ensures ReturnOk(u, r) && r.own < |w.sends| { assert ReturnOk(w, r); }
    forall d | d in w.callers ensures CallerOk(u, w.callers[d]) { assert CallerOk(w, w.callers[d]); }
  }

  lemma KeepsAsync(w: World, delivered: bool)
    requires Invariant(w)
    ensures Invariant(StepAsync(w, delivered))
  {
    var u := StepAsync(w, delivered);
    assert IdsOk(u) && ResponsesOk(u);
    forall r | r in w.returned ensures ReturnOk(u, r) { assert ReturnOk(w, r); }
    forall d | d in w.callers ensures CallerOk(u, w.callers[d]) { assert CallerOk(w, w.callers[d]); }
  }

  /** Matching by id finds the answer to the caller's own send. */
  lemma OwnAnswer(w: World, caller: Caller, r: Response)
    requires IdsOk(w) && CallerOk(w, caller) && Genuine(w, r) && r.id == caller.id
    ensures r.answers == caller.own
  {
  }

  lemma KeepsTake(w: World, c: nat)
    requires Invariant(w) && Enabled(w, Take(c))
    ensures Invariant(StepTake(w, c))
  {
    var u, caller := StepTake(w, c), w.callers[c];
    OwnAnswer(w, caller, w.channel.responses[caller.id]);
    forall r | r in u.returned ensures ReturnOk(u, r) {
      if r in w.returned { assert ReturnOk(w, r); }
    }
    forall d | d in u.callers ensures CallerOk(u, u.callers[d]) { assert CallerOk(w, w.callers[d]); }
  }

  lemma KeepsGiveUp(w: World, c: nat)
    requires Invariant(w) && Enabled(w, GiveUp(c))
    ensures Invariant(Step(w, GiveUp(c)))
  {
    var u, caller := Step(w, GiveUp(c)), w.callers[c];
    assert CallerOk(w, caller);
    forall r | r in w.returned ensures ReturnOk(u, r) { assert ReturnOk(w, r); }
    forall d | d in u.callers ensures CallerOk(u, u.callers[d]) && u.callers[d].id !in u.gaveUp {
      assert CallerOk(w, w.callers[d]);
    }
  }

  lemma KeepsElse(w: World, move: Move)
    requires Invariant(w) && !move.Request? && !move.RequestAsync? && !move.Take? && !move.GiveUp?
    ensures Invariant(Step(w, move))
  {
    var u := Step(w, move);
    assert IdsOk(u) && ResponsesOk(u);
    forall r | r in w.returned ensures ReturnOk(u, r) { assert ReturnOk(w, r); }
    forall d | d in u.callers ensures CallerOk(u, u.callers[d]) { assert CallerOk(w, w.callers[d]); }
  }

  lemma {:induction false} RunKeeps(moves: seq<Move>)
    ensures Invariant(RunMoves(Initial(), moves))
    decreases moves
  {
    if moves != [] {
      var w, move := RunMoves(Initial(), moves[..|moves| - 1]), moves[|moves| - 1];
      RunKeeps(moves[..|moves| - 1]);
      match move
      case Request(c, delivered) => KeepsRequest(w, c, delivered);
      case RequestAsync(delivered) => KeepsAsync(w, delivered);
      case Take(c) => if Enabled(w, move) { KeepsTake(w, c); }
      case GiveUp(c) => if Enabled(w, move) { KeepsGiveUp(w, c); }
      case _ => KeepsElse(w, move);
    }
  }

  /**
   Under any interleaving of senders, listeners, timeouts and reconnections: no id is
   allotted twice; what a caller gets back answers its own send; no send's answer is
   returned twice; and neither an answer to an asynchronous send nor one to a caller that
   gave up is returned to anybody.
   */
  lemma AnswersReachTheirCallers(moves: seq<Move>)
    ensures var w := RunMoves(Initial(), moves);
      && (forall i, j :: 0 <= i < j < |w.allotted| ==> w.allotted[i] < w.allotted[j])
      && (forall r :: r in w.returned ==>
            && r.response.answers == r.own < |w.sends|
            && !w.sends[r.own].asynchronous
            && r.response.id == w.sends[r.own].id && r.response.id !in w.gaveUp)
      && (forall i, j :: 0 <= i < j < |w.returned| ==>
            w.returned[i].own != w.returned[j].own && w.returned[i].response != w.returned[j].response)
  {
    RunKeeps(moves);
    var w := RunMoves(Initial(), moves);
    forall r | r in w.returned ensures ReturnOk(w, r) {}
  }

  // ---- The methods are moves ----

  /** A request's sender waits under the id that the method gives it, for the send it has made. */
  lemma RequestIsMove(w: World, c: nat, delivered: bool)
    requires c !in w.callers
    ensures var u := Step(w, Request(c, delivered));
      && u.channel == Requested(w.channel, delivered)
      && (delivered ==> u.callers == w.callers[c := Waiting(u.channel.messageId, |w.sends|)])
      && (!delivered ==> u.callers == w.callers && u.sends == w.sends)
  {
  }

  lemma AsyncIsMove(w: World, delivered: bool)
    ensures Step(w, RequestAsync(delivered)).channel == SentAsync(w.channel)
    ensures Step(w, RequestAsync(delivered)).callers == w.callers
  {
  }

  /** A round of waiting either takes the response that is there and returns it, or, when the caller gives up, leaves the channel alone. */
  lemma PollIsMove(w: World, c: nat)
    requires c in w.callers
    ensures var id := w.callers[c].id;
      if id in w.channel.responses then
        && Step(w, Take(c)).channel == w.channel.(responses := w.channel.responses - {id})
        && Step(w, Take(c)).returned == w.returned + [Return(w.callers[c].own, w.channel.responses[id])]
      else
        Step(w, GiveUp(c)).channel == w.channel && Step(w, GiveUp(c)).returned == w.returned
  {
  }

  /** The replies a listener files before the first broken message. */
  function Replies(messages: seq<Message>): seq<Response>
    decreases messages
  {
    if messages == [] || messages[0].Broken? then []
    else (if messages[0].Reply? then [messages[0].response] else []) + Replies(messages[1..])
  }

  function Filings(responses: seq<Response>): seq<Move> {
    seq(|responses|, i requires 0 <= i < |responses| => File(responses[i]))
  }

  ghost predicate AllInFlight(w: World, responses: seq<Response>) {
    && (forall r :: r in responses ==> r in w.inFlight)
    && (forall i, j :: 0 <= i < j < |responses| ==> responses[i] != responses[j])
  }

  lemma {:induction false} RunConcat(w: World, a: seq<Move>, b: seq<Move>)
    ensures RunMoves(w, a + b) == RunMoves(RunMoves(w, a), b)
    decreases b
  {
    if b == [] {
      assert a + b == a;
    } else {
      assert (a + b)[..|a + b| - 1] == a + b[..|b| - 1];
      RunConcat(w, a, b[..|b| - 1]);
    }
  }

  lemma FileFirst(w: World, responses: seq<Response>)
    requires responses != []
    ensures RunMoves(w, Filings(responses)) == RunMoves(Step(w, File(responses[0])), Filings(responses[1..]))
  {
    assert Filings(responses) == [File(responses[0])] + Filings(responses[1..]);
    RunConcat(w, [File(responses[0])], Filings(responses[1..]));
    assert [File(responses[0])][..0] == [];
  }

  lemma ListenFirst(w: World, r: Response, rest: seq<Response>)
    requires AllInFlight(w, [r] + rest)
    ensures AllInFlight(Step(w, File(r)), rest)
    ensures Step(w, File(r)).channel == w.channel.(responses := w.channel.responses[r.id := r])
    ensures RunMoves(w, Filings([r] + rest)) == RunMoves(Step(w, File(r)), Filings(rest))
  {
    RestInFlight(w, r, rest);
    assert ([r] + rest)[0] == r && ([r] + rest)[1..] == rest;
    FileFirst(w, [r] + rest);
  }

  lemma RestInFlight(w: World, r: Response, rest: seq<Response>)
    requires AllInFlight(w, [r] + rest)
    ensures r in w.inFlight && AllInFlight(w.(inFlight := w.inFlight - {r}), rest)
  {
    var all := [r] + rest;
    assert all[0] == r;
    forall i | 0 <= i < |rest| ensures rest[i] in w.inFlight && rest[i] != r {
      assert all[i + 1] == rest[i];
    }
    forall i, j | 0 <= i < j < |rest| ensures rest[i] != rest[j] {
      assert all[i + 1] == rest[i] && all[j + 1] == rest[j];
    }
  }

  /** What a listener receives from the browser it files as the moves do, one by one. */
  lemma {:induction false} ListenIsMoves(w: World, messages: seq<Message>)
    requires AllInFlight(w, Replies(messages))
    ensures RunMoves(w, Filings(Replies(messages))).channel
         == w.channel.(responses := Filed(w.channel.responses, messages))
    decreases messages
  {
    if messages == [] || messages[0].Broken? {
      assert Filings(Replies(messages)) == [];
    } else if messages[0].Reply? {
      var r := messages[0].response;
      ListenFirst(w, r, Replies(messages[1..]));
      ListenIsMoves(Step(w, File(r)), messages[1..]);
    } else {
      assert [] + Replies(messages[1..]) == Replies(messages[1..]);
      ListenIsMoves(w, messages[1..]);
    }
  }
}
