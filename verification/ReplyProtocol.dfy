/** Reply requests as interleaved handlers (hook_server.py). Each handler of /bridge/case_reply is a thread whose
    database transactions and Slack calls are single steps; between two of them any other handler, cancel, kill,
    timeout or crash may run. A run is any sequence of actions; an action that is not enabled changes nothing. */
module ReplyProtocol {
  import opened Wrappers
  import opened SessionStatus
  import opened ReplyLedger
  import opened WhiteSpace
  import MessageSplit
  import SlackCalls

  type HandlerId = nat

  datatype Body = Body(request: RequestId, payload: Payload)

  /** Where a handler stands; the names say what it has done, or what it does next. */
  datatype Phase =
    | Arrived
    | Resolving
    | Checking(session: SessionRow, key: Key)
    | Reloading(session: SessionRow, key: Key, attempt: TurnRow)
    | Discarding(attempt: TurnRow)
    | Failing(error: string)
    | Claimable
    | TurnHeld
    | Sending(part: nat, tries: nat, acks: seq<string>)
    | SentOk(replyTs: string)
    | SentUnknown(error: string, replyTs: string)
    | SentNothing(error: string)
    | Settled
    | NoteRecorded
    | Finished

  datatype Handler = Handler(body: Body, phase: Phase)

  /** One chat.postMessage call, as Slack saw it. */
  datatype Call = Call(request: RequestId, turn: TurnId, final: bool, part: nat, text: string,
                       response: SlackCalls.Response)

  datatype State = State(now: nat, replies: Replies, turns: Turns, sessions: Sessions,
                         handlers: map<HandlerId, Handler>, log: seq<Call>, openedTurns: set<TurnId>)

  /** What the environment decides in one handler step. */
  datatype Choice =
    | Proceed
    | Found(key: Option<Key>)
    | Slot(granted: bool)
    | Answer(response: SlackCalls.Response)
    | Write(primary: bool, fallback: bool)
    | DiscardEnds(error: string)

  datatype Action =
    | Tick(elapsed: nat)
    | Arrive(handler: HandlerId, body: Body)
    | Step(handler: HandlerId, choice: Choice)
    | Crash(handler: HandlerId)
    | OpenTurn(turn: TurnId, sessionKey: Key)
    | FinishTurn(turn: TurnId, reason: string)
    | CloseTurns(sessionKey: Key, reason: string)
    | DeleteTurn(turn: TurnId)
    | PutSession(key: Key, row: SessionRow)
    | DropSession(key: Key)

  function PartsOf(payload: Payload): (parts: seq<string>)
    ensures |parts| >= 1
  {
    MessageSplit.Parts(payload.text, MessageSplit.SLACK_POST_MAX_LEN)
  }

  predicate Substantive(payload: Payload) {
    payload.completion != Continue
  }

  function CompletionAction(completion: Completion): (action: string)
  {
    if completion == Failed then "error" else "close"
  }

  /** The request passes the checks that answer 400. */
  predicate WellFormed(body: Body) {
    && body.request != "" && body.payload.turnId != "" && body.payload.caseId != ""
    && !IsBlank(body.payload.text)
    && body.payload.sessionId != "" && body.payload.paneId != "" && body.payload.windowName != ""
  }

  /** _resolve_session: by worker session id, else by case id; any matching row may be the newest. */
  predicate IsResolution(sessions: Sessions, payload: Payload, found: Option<Key>) {
    var byWorker := set key | key in sessions && sessions[key].workerSessionId == payload.sessionId;
    var byCase := set key | key in sessions && sessions[key].caseId == payload.caseId;
    match found
    case Some(key) => if byWorker != {} then key in byWorker else key in byCase
    case None => byWorker == {} && byCase == {}
  }

  function CallbackIdentityError(session: SessionRow, payload: Payload): (error: Option<string>) {
    if session.workerSessionId != "" && session.workerSessionId != payload.sessionId then Some("stale_session")
    else if session.paneId != payload.paneId then Some("stale_pane")
    else if session.windowName != payload.windowName then Some("stale_window")
    else None
  }

  function OwnershipError(session: SessionRow, key: Key, turn: TurnId, attempt: TurnRow): (error: Option<string>) {
    if attempt.sessionKey != key then Some("stale_turn")
    else if attempt.completionAction == Some("cancelled") then None
    else if attempt.completedAt.Some? then Some("stale_turn")
    else if !Postable(session.status) then Some("stale_turn")
    else if session.activeTurn != Some(turn) then Some("stale_turn")
    else None
  }

  function LastAck(acks: seq<string>): (ts: Option<string>)
    ensures ts.None? <==> forall k :: 0 <= k < |acks| ==> acks[k] == ""
  {
    if acks == [] then None
    else if acks[|acks| - 1] != "" then Some(acks[|acks| - 1])
    else LastAck(acks[..|acks| - 1])
  }

  /** The phase after a failed post: unknown delivery is recorded as such, a clean refusal is not. */
  function AfterFailure(failure: SlackCalls.CallFailure, acks: seq<string>): (phase: Phase) {
    match LastAck(acks)
    case Some(ts) => SentUnknown(failure.error, ts)
    case None =>
      if failure.classification.DeliveryUnknown? then SentUnknown(failure.error, "")
      else SentNothing(failure.error)
  }

  function AfterAnswer(payload: Payload, part: nat, attempt: nat, acks: seq<string>, response: SlackCalls.Response)
    : (phase: Phase)
  {
    match SlackCalls.OnResponse(response, attempt, SlackCalls.Attempts(SlackCalls.SLACK_API_MAX_RETRIES))
    case Retry => Sending(part, attempt + 1, acks)
    case Raise(failure) => AfterFailure(failure, acks)
    case Return(ts) =>
      if part + 1 < |PartsOf(payload)| then Sending(part + 1, 1, acks + [ts]) else SentOk(ts)
  }

  /** The tables, the phase and the Slack calls one handler step leaves behind. */
  datatype Effect = Effect(replies: Replies, turns: Turns, phase: Phase, calls: seq<Call>)

  function HandlerStep(s: State, body: Body, phase: Phase, choice: Choice): (e: Effect) {
    var Body(request, payload) := body;
    var turn := payload.turnId;
    var stay := Effect(s.replies, s.turns, phase, []);
    match phase
    case Arrived =>
      if !WellFormed(body) then stay.(phase := Finished)
      else
        var (replies, claim) := ClaimReply(s.replies, request, payload.caseId, payload, s.now);
        Effect(replies, s.turns, if claim.claimed then Resolving else Finished, [])
    case Resolving =>
      if !choice.Found? || !IsResolution(s.sessions, payload, choice.key) then stay
      else if choice.key.None? then stay.(phase := Failing("case_not_found"))
      else
        var session := s.sessions[choice.key.value];
        var error := CallbackIdentityError(session, payload);
        if error.Some? then stay.(phase := Failing(error.value))
        else if session.status in {Error, Killed} then stay.(phase := Failing("session_terminal"))
        else stay.(phase := Checking(session, choice.key.value))
    case Checking(session, key) =>
      if turn !in s.turns then stay.(phase := Failing("stale_turn"))
      else
        var attempt := s.turns[turn];
        var error := OwnershipError(session, key, turn, attempt);
        if error.Some? then stay.(phase := Failing(error.value))
        else if attempt.completionAction == Some("cancelled") then stay.(phase := Discarding(attempt))
        else stay.(phase := Reloading(session, key, attempt))
    case Discarding(attempt) =>
      if attempt.discardNotifiedAt.Some? then stay.(phase := Failing("discarded_cancelled"))
      else if choice.DiscardEnds? then stay.(phase := Failing(choice.error))
      else stay
    case Reloading(earlier, key, attempt) =>
      var session := if key in s.sessions then s.sessions[key] else earlier;
      var identity := CallbackIdentityError(session, payload);
      var ownership := OwnershipError(session, key, turn, attempt);
      if identity.Some? then stay.(phase := Failing(identity.value))
      else if ownership.Some? then stay.(phase := Failing(ownership.value))
      else stay.(phase := Claimable)
    case Failing(error) =>
      Effect(MarkReplyFailed(s.replies, request, error, s.now), s.turns, Finished, [])
    case Claimable =>
      var (turns, claimed) := ClaimTurnReply(s.turns, s.sessions, turn, request, s.now);
      Effect(s.replies, turns, if claimed then TurnHeld else Failing("stale_turn"), [])
    case TurnHeld =>
      if Substantive(payload) then stay.(phase := Sending(0, 1, []))
      else if choice.Slot? then stay.(phase := if choice.granted then Sending(0, 1, []) else SentOk(""))
      else stay
    case Sending(part, attempt, acks) =>
      if !choice.Answer? || part >= |PartsOf(payload)| then stay
      else
        var call := Call(request, turn, Substantive(payload), part, PartsOf(payload)[part], choice.response);
        Effect(s.replies, s.turns, AfterAnswer(payload, part, attempt, acks, choice.response), [call])
    case SentNothing(error) =>
      Effect(s.replies, ReleaseTurnReplyClaim(s.turns, turn, request), Failing(error), [])
    case SentOk(replyTs) =>
      if !choice.Write? then stay
      else
        var replies :=
          if choice.primary then MarkReplyPosted(s.replies, request, replyTs, s.now)
          else if choice.fallback then MarkReplyPostedUnknown(s.replies, request, replyTs, "state_unknown", s.now)
          else s.replies;
        Effect(replies, s.turns, Settled, [])
    case SentUnknown(error, replyTs) =>
      if !choice.Write? then stay
      else
        var replies :=
          if choice.primary then MarkReplyPostedUnknown(s.replies, request, replyTs, error, s.now) else s.replies;
        Effect(replies, s.turns, Settled, [])
    case Settled =>
      if !Substantive(payload) then
        Effect(s.replies, MarkTurnAttemptCompleted(s.turns, turn, Set(None), Keep, 1, Keep), NoteRecorded, [])
      else
        Effect(s.replies,
               MarkTurnAttemptCompleted(s.turns, turn, Set(Some(s.now)),
                                        Set(Some(CompletionAction(payload.completion))), 1, Keep),
               Finished, [])
    case NoteRecorded =>
      Effect(s.replies, ReleaseTurnReplyClaim(s.turns, turn, request), Finished, [])
    case Finished => stay
  }

  const INIT: State := State(0, map[], map[], map[], map[], [], {})

  function Next(s: State, a: Action): (t: State) {
    match a
    case Tick(elapsed) => s.(now := s.now + elapsed)
    case Arrive(h, body) =>
      if h in s.handlers then s else s.(handlers := s.handlers[h := Handler(body, Arrived)])
    case Step(h, choice) =>
      if h !in s.handlers then s
      else
        var Handler(body, phase) := s.handlers[h];
        var e := HandlerStep(s, body, phase, choice);
        s.(replies := e.replies, turns := e.turns, log := s.log + e.calls,
           handlers := s.handlers[h := Handler(body, e.phase)])
    case Crash(h) =>
      if h !in s.handlers then s
      else s.(handlers := s.handlers[h := s.handlers[h].(phase := Finished)])
    case OpenTurn(turn, key) =>
      if turn in s.openedTurns then s
      else s.(turns := OpenTurnAttempt(s.turns, turn, key), openedTurns := s.openedTurns + {turn})
    case FinishTurn(turn, reason) =>
      s.(turns := MarkTurnAttemptCompleted(s.turns, turn, Set(Some(s.now)), Set(Some(reason)), 0, Keep))
    case CloseTurns(key, reason) =>
      s.(turns := CloseOpenTurnAttempts(s.turns, key, reason, s.now))
    case DeleteTurn(turn) => s.(turns := s.turns - {turn})
    case PutSession(key, row) => s.(sessions := s.sessions[key := row])
    case DropSession(key) => s.(sessions := s.sessions - {key})
  }

  /** The state a run reaches. */
  function Exec(run: seq<Action>): (s: State) {
    if run == [] then INIT else Next(Exec(run[..|run| - 1]), run[|run| - 1])
  }

  lemma ExecSnoc(run: seq<Action>, a: Action)
    ensures Exec(run + [a]) == Next(Exec(run), a)
  {
    assert (run + [a])[..|run|] == run;
  }

  /** The calls for one request whose message may be in the thread, in the order they were made. */
  function Delivered(log: seq<Call>, request: RequestId): (calls: seq<Call>) {
    if log == [] then []
    else
      var last := log[|log| - 1];
      var rest := Delivered(log[..|log| - 1], request);
      if last.request == request && SlackCalls.MaybeDelivered(last.response) then rest + [last] else rest
  }

  /** The handler owns the reply row: it has claimed it and not yet recorded how it ended. */
  predicate Holds(phase: Phase) {
    !phase.Arrived? && !phase.Settled? && !phase.NoteRecorded? && !phase.Finished?
  }

  /** A handler that holds the turn for a final reply, up to the write that completes the turn. */
  predicate Engaged(handler: Handler) {
    && Substantive(handler.body.payload)
    && var p := handler.phase;
       p.TurnHeld? || p.Sending? || p.SentOk? || p.SentUnknown? || p.SentNothing? || p.Settled?
  }

  /** A call of a final reply that may be in the thread. */
  predicate FinalCall(call: Call) {
    call.final && SlackCalls.MaybeDelivered(call.response)
  }

  /** The handler's claim takes over a row whose lease has run out. */
  predicate TakesRow(s: State, h: HandlerId) {
    && h in s.handlers && s.handlers[h].phase.Arrived? && WellFormed(s.handlers[h].body)
    && var Body(request, payload) := s.handlers[h].body;
       TakesOverReply(s.replies, request, payload.caseId, payload, s.now)
  }

  predicate NoOtherHolder(s: State, h: HandlerId, request: RequestId) {
    forall g :: g in s.handlers && g != h && Holds(s.handlers[g].phase) ==> s.handlers[g].body.request != request
  }

  /** No message of the request can be in the thread, and nobody else is working on it. */
  predicate RowIdle(s: State, h: HandlerId, request: RequestId) {
    Delivered(s.log, request) == [] && NoOtherHolder(s, h, request)
  }

  /** The handler's claim takes a live turn from another request whose claim has run out. */
  predicate TakesTurn(s: State, h: HandlerId) {
    && h in s.handlers && s.handlers[h].phase.Claimable?
    && TakesOverTurn(s.turns, s.sessions, s.handlers[h].body.payload.turnId, s.handlers[h].body.request, s.now)
  }

  /** No other final reply is being posted, or may have been posted, for the turn. */
  predicate TurnIdle(s: State, h: HandlerId, turn: TurnId) {
    && (forall g :: g in s.handlers && g != h && Engaged(s.handlers[g]) ==> s.handlers[g].body.payload.turnId != turn)
    && (forall k :: 0 <= k < |s.log| && FinalCall(s.log[k]) ==> s.log[k].turn != turn)
  }

  /** Leases are only used to recover: whoever takes a row or a turn over finds it idle. */
  predicate RecoversOnly(s: State, a: Action) {
    a.Step? ==>
      && (TakesRow(s, a.handler) ==> RowIdle(s, a.handler, s.handlers[a.handler].body.request))
      && (TakesTurn(s, a.handler) ==> TurnIdle(s, a.handler, s.handlers[a.handler].body.payload.turnId))
  }

  /** Slack gives every message it accepts a timestamp. */
  predicate SlackStamps(a: Action) {
    a.Step? && a.choice.Answer? && a.choice.response.Posted? ==> a.choice.response.ts != ""
  }

  /** Every take-over in the run finds its row or turn idle, and every accepted message has a timestamp. */
  predicate Orderly(run: seq<Action>) {
    forall k :: 0 <= k < |run| ==> RecoversOnly(Exec(run[..k]), run[k]) && SlackStamps(run[k])
  }

  /** No handler outlives its leases: while it owns a row or a live turn, its claim has not run out. */
  predicate InTime(s: State) {
    && (forall h :: h in s.handlers && Holds(s.handlers[h].phase) && s.handlers[h].body.request in s.replies ==>
          !LeaseExpired(s.replies[s.handlers[h].body.request].updatedAt, s.now))
    && (forall h :: h in s.handlers && Engaged(s.handlers[h]) && s.handlers[h].body.payload.turnId in s.turns
                    && s.turns[s.handlers[h].body.payload.turnId].claim.Some? ==>
          !LeaseExpired(s.turns[s.handlers[h].body.payload.turnId].claim.value.claimedAt, s.now))
  }

  /** No delivery goes unrecorded: what was sent for a row in progress, or for a live turn, has a handler that
      will still record it. A crash or two lost writes after the call break this. */
  predicate Accounted(s: State) {
    && (forall r :: r in s.replies && s.replies[r].status == Received && Delivered(s.log, r) != [] ==>
          exists h :: h in s.handlers && Holds(s.handlers[h].phase) && s.handlers[h].body.request == r)
    && (forall k :: 0 <= k < |s.log| && FinalCall(s.log[k]) && TurnIsLive(s.turns, s.sessions, s.log[k].turn) ==>
          exists h :: h in s.handlers && Engaged(s.handlers[h]) && s.handlers[h].body.payload.turnId == s.log[k].turn)
  }

  /** Handlers that stay within their leases and record what they send make a run orderly, whatever rows and
      claims dead handlers leave behind. */
  lemma InTimeMeansOrderly(run: seq<Action>)
    requires forall k :: 0 <= k < |run| ==>
               InTime(Exec(run[..k])) && Accounted(Exec(run[..k])) && SlackStamps(run[k])
    ensures Orderly(run)
  {
    forall k | 0 <= k < |run| ensures RecoversOnly(Exec(run[..k]), run[k]) {
      assert InTime(Exec(run[..k])) && Accounted(Exec(run[..k]));
      InTimeMeansRecoversOnly(Exec(run[..k]), run[k]);
    }
  }

  lemma InTimeMeansRecoversOnly(s: State, a: Action)
    requires InTime(s) && Accounted(s)
    ensures RecoversOnly(s, a)
  {
    if a.Step? && TakesTurn(s, a.handler) {
      var turn := s.handlers[a.handler].body.payload.turnId;
      forall k | 0 <= k < |s.log| && FinalCall(s.log[k]) ensures s.log[k].turn != turn {
        assert TurnIsLive(s.turns, s.sessions, turn);
      }
    }
  }

  lemma OrderlyPrefix(run: seq<Action>)
    requires Orderly(run) && run != []
    ensures var before := run[..|run| - 1];
            Orderly(before) && RecoversOnly(Exec(before), run[|run| - 1]) && SlackStamps(run[|run| - 1])
  {
    var before := run[..|run| - 1];
    forall k | 0 <= k < |before| ensures RecoversOnly(Exec(before[..k]), before[k]) && SlackStamps(before[k]) {
      assert before[..k] == run[..k] && before[k] == run[k];
    }
  }
}
