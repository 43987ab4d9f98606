/** The reply ledger and the per-turn reply claim (bridge_state.py). Every write transaction is one function on the
    tables; the class applies them in place. Times are microseconds on one clock that the caller passes in. */
module ReplyLedger {
  import opened Wrappers
  import opened SessionStatus

  type RequestId = string
  type TurnId = string
  type Key = string

  /** Default lease of a reply request and of a turn claim: 30 seconds. */
  const REPLY_CLAIM_TIMEOUT: nat := 30_000_000

  const TERMINAL_REPLY_ERRORS: set<string> := {
    "case_not_found", "discarded_cancelled", "invalid_case_reply_payload", "missing_session",
    "session_terminal", "stale_pane", "stale_session", "stale_turn", "stale_window"
  }

  datatype Completion = Done | Wait | Continue | Close | Failed

  datatype Payload = Payload(caseId: string, turnId: TurnId, text: string, completion: Completion,
                             sessionId: string, windowName: string, paneId: string)

  datatype ReplyStatus = Received | Posted | PostedUnknown | ReplyFailed

  datatype ReplyRow = ReplyRow(caseId: string, payload: Payload, status: ReplyStatus, replyTs: string,
                               lastError: Option<string>, updatedAt: nat)

  /** The reply that may currently be posted for a turn, and since when. */
  datatype TurnClaim = TurnClaim(request: RequestId, claimedAt: nat)

  datatype TurnRow = TurnRow(sessionKey: Key, completedAt: Option<nat>, completionAction: Option<string>,
                             replyAccepted: nat, discardNotifiedAt: Option<nat>, claim: Option<TurnClaim>)

  datatype SessionRow = SessionRow(caseId: string, workerSessionId: string, status: Status,
                                   activeTurn: Option<TurnId>, windowName: string, paneId: string)

  type Replies = map<RequestId, ReplyRow>
  type Turns = map<TurnId, TurnRow>
  type Sessions = map<Key, SessionRow>

  datatype ClaimResult = ClaimResult(claimed: bool, status: ReplyStatus, conflict: bool)

  /** A column update: leave the column alone, or set it. */
  datatype Update<+T> = Keep | Set(value: T)

  function Apply<T>(column: T, update: Update<T>): (r: T) {
    if update.Set? then update.value else column
  }

  predicate FailureIsRetryable(lastError: Option<string>) {
    lastError.None? || lastError.value == "" || lastError.value !in TERMINAL_REPLY_ERRORS
  }

  predicate LeaseExpired(since: nat, now: nat) {
    now - since >= REPLY_CLAIM_TIMEOUT
  }

  predicate Conflicts(row: ReplyRow, caseId: string, payload: Payload) {
    row.payload != payload || row.caseId != caseId
  }

  function ClaimReply(replies: Replies, request: RequestId, caseId: string, payload: Payload, now: nat)
    : (r: (Replies, ClaimResult))
  {
    if request !in replies then
      (replies[request := ReplyRow(caseId, payload, Received, "", None, now)], ClaimResult(true, Received, false))
    else
      var row := replies[request];
      var conflict := Conflicts(row, caseId, payload);
      if !conflict && row.status == ReplyFailed && FailureIsRetryable(row.lastError) then
        (replies[request := row.(status := Received, updatedAt := now, lastError := None)],
         ClaimResult(true, Received, false))
      else if !conflict && row.status == Received && LeaseExpired(row.updatedAt, now) then
        (replies[request := row.(updatedAt := now, lastError := None)], ClaimResult(true, Received, false))
      else
        (replies, ClaimResult(false, row.status, conflict))
  }

  /** The row is still marked as in progress, its lease has run out, and the claim is for the same reply. */
  predicate TakesOverReply(replies: Replies, request: RequestId, caseId: string, payload: Payload, now: nat) {
    && request in replies
    && replies[request].status == Received
    && LeaseExpired(replies[request].updatedAt, now)
    && !Conflicts(replies[request], caseId, payload)
  }

  function MarkReplyPosted(replies: Replies, request: RequestId, replyTs: string, now: nat): (r: Replies) {
    if request !in replies then replies
    else replies[request := replies[request].(status := Posted, replyTs := replyTs, lastError := None,
                                              updatedAt := now)]
  }

  function MarkReplyPostedUnknown(replies: Replies, request: RequestId, replyTs: string, error: string, now: nat)
    : (r: Replies)
  {
    if request !in replies then replies
    else replies[request := replies[request].(status := PostedUnknown, replyTs := replyTs,
                                              lastError := Some(error), updatedAt := now)]
  }

  /** A posted reply stays posted; every other status, posted_unknown included, becomes failed. */
  function MarkReplyFailed(replies: Replies, request: RequestId, error: string, now: nat): (r: Replies) {
    if request !in replies then replies
    else
      var row := replies[request];
      replies[request := row.(status := if row.status == Posted then Posted else ReplyFailed,
                              lastError := Some(error), updatedAt := now)]
  }

  /** The turn is open and its session is still working on it. */
  predicate TurnIsLive(turns: Turns, sessions: Sessions, turn: TurnId) {
    && turn in turns
    && turns[turn].sessionKey in sessions
    && Postable(sessions[turns[turn].sessionKey].status)
    && sessions[turns[turn].sessionKey].activeTurn == Some(turn)
    && turns[turn].completedAt.None?
    && turns[turn].completionAction.None?
  }

  predicate TurnClaimFree(row: TurnRow, request: RequestId, now: nat) {
    || row.claim.None?
    || row.claim.value.request == request
    || LeaseExpired(row.claim.value.claimedAt, now)
  }

  function ClaimTurnReply(turns: Turns, sessions: Sessions, turn: TurnId, request: RequestId, now: nat)
    : (r: (Turns, bool))
  {
    if TurnIsLive(turns, sessions, turn) && TurnClaimFree(turns[turn], request, now) then
      (turns[turn := turns[turn].(claim := Some(TurnClaim(request, now)))], true)
    else
      (turns, false)
  }

  /** The turn is live, and would be taken from another request whose claim was never released. */
  predicate TakesOverTurn(turns: Turns, sessions: Sessions, turn: TurnId, request: RequestId, now: nat) {
    && TurnIsLive(turns, sessions, turn)
    && turns[turn].claim.Some?
    && turns[turn].claim.value.request != request
    && LeaseExpired(turns[turn].claim.value.claimedAt, now)
  }

  function ReleaseTurnReplyClaim(turns: Turns, turn: TurnId, request: RequestId): (r: Turns) {
    if turn in turns && turns[turn].claim.Some? && turns[turn].claim.value.request == request
       && turns[turn].completedAt.None?
    then turns[turn := turns[turn].(claim := None)]
    else turns
  }

  function OpenTurnAttempt(turns: Turns, turn: TurnId, sessionKey: Key): (r: Turns) {
    if turn in turns then turns
    else turns[turn := TurnRow(sessionKey, None, None, 0, None, None)]
  }

  function MarkTurnAttemptCompleted(turns: Turns, turn: TurnId, completedAt: Update<Option<nat>>,
                                    action: Update<Option<string>>, accepted: nat,
                                    discardNotifiedAt: Update<Option<nat>>)
    : (r: Turns)
  {
    if turn !in turns then turns
    else
      var row := turns[turn];
      turns[turn := row.(
                    replyAccepted := row.replyAccepted + accepted,
                    completedAt := Apply(row.completedAt, completedAt),
                    completionAction := Apply(row.completionAction, action),
                    discardNotifiedAt := Apply(row.discardNotifiedAt, discardNotifiedAt),
                    claim := if completedAt.Set? && completedAt.value.Some? then None else row.claim)]
  }

  function CloseOpenTurnAttempts(turns: Turns, sessionKey: Key, action: string, now: nat): (r: Turns)
    ensures r.Keys == turns.Keys
  {
    map turn | turn in turns ::
      if turns[turn].sessionKey == sessionKey && turns[turn].completedAt.None?
      then turns[turn].(completionAction := Some(action), completedAt := Some(now))
      else turns[turn]
  }

  /** A finished turn: it carries a completion action, which no write ever clears. */
  predicate TurnFinished(turns: Turns, turn: TurnId) {
    turn in turns && turns[turn].completionAction.Some?
  }

  // ---------------------------------------------------------------- what the marks mean for later claims

  /** The marks and claims of one request leave the rows of all others alone, and never change a payload. */
  predicate OnlyRow(before: Replies, after: Replies, request: RequestId) {
    && after.Keys == before.Keys
    && (forall r :: r in before && r != request ==> after[r] == before[r])
    && (request in before ==>
          after[request].payload == before[request].payload && after[request].caseId == before[request].caseId)
  }

  /** No claim of the request is granted, whoever asks and whenever. */
  ghost predicate ClosedForGood(replies: Replies, request: RequestId)
    requires request in replies
  {
    forall caseId, payload, now ::
      ClaimReply(replies, request, caseId, payload, now) ==
        (replies, ClaimResult(false, replies[request].status, Conflicts(replies[request], caseId, payload)))
  }

  /** A request whose reply was posted, or may have been, is closed: no claim is ever granted again. */
  lemma PostedIsClosed(replies: Replies, request: RequestId)
    requires request in replies && replies[request].status in {Posted, PostedUnknown}
    ensures ClosedForGood(replies, request)
  {
  }

  /** After a failure mark a retry of the same reply is granted if and only if the row was not posted and the error
      is one that may be retried: a reply whose delivery was unknown is opened again too. */
  lemma FailureReopensIff(replies: Replies, request: RequestId, error: string, now: nat, later: nat)
    requires request in replies
    ensures var after := MarkReplyFailed(replies, request, error, now);
            var row := after[request];
            ClaimReply(after, request, row.caseId, row.payload, later).1.claimed <==>
              replies[request].status != Posted && FailureIsRetryable(Some(error))
  {
  }

  /** After a release every other request can claim the turn at once, if and only if the turn is live and the claim
      was the releasing request's, or had run out, or there was none. */
  lemma ReleaseFreesIff(turns: Turns, sessions: Sessions, turn: TurnId, request: RequestId, other: RequestId, now: nat)
    requires turn in turns && other != request
    ensures ClaimTurnReply(ReleaseTurnReplyClaim(turns, turn, request), sessions, turn, other, now).1 <==>
              TurnIsLive(turns, sessions, turn)
              && (TurnClaimFree(turns[turn], other, now) || turns[turn].claim.value.request == request)
  {
  }

  /** A reply whose claim was granted is granted again, for the same reply and as long as its row is in progress,
      exactly from thirty seconds on; another reply under its request id never is. */
  lemma GrantHoldsThirtySeconds(replies: Replies, request: RequestId, caseId: string, payload: Payload, now: nat,
                                later: nat, other: Payload)
    requires ClaimReply(replies, request, caseId, payload, now).1.claimed && later >= now
    ensures var after := ClaimReply(replies, request, caseId, payload, now).0;
            && (ClaimReply(after, request, caseId, payload, later).1.claimed <==> later - now >= 30_000_000)
            && (other != payload ==>
                  ClaimReply(after, request, caseId, other, later)
                  == (after, ClaimResult(false, Received, true)))
  {
  }

  /** While a claim on a live turn stands, the request that has it is granted it again at any time, and every other one
      exactly from thirty seconds on. */
  lemma TurnGrantHoldsThirtySeconds(turns: Turns, sessions: Sessions, turn: TurnId, request: RequestId, now: nat,
                                    later: nat, other: RequestId)
    requires ClaimTurnReply(turns, sessions, turn, request, now).1 && later >= now
    ensures var after := ClaimTurnReply(turns, sessions, turn, request, now).0;
            ClaimTurnReply(after, sessions, turn, other, later).1 <==> other == request || later - now >= 30_000_000
  {
  }

  /** Opening a turn again changes nothing; a new one is free for every request as soon as its session works on it. */
  lemma OpenedTurnIsFree(turns: Turns, sessions: Sessions, turn: TurnId, key: Key, request: RequestId, now: nat)
    ensures turn in turns ==> OpenTurnAttempt(turns, turn, key) == turns
    ensures turn !in turns ==>
              (ClaimTurnReply(OpenTurnAttempt(turns, turn, key), sessions, turn, request, now).1 <==>
                 key in sessions && sessions[key].status in {Busy, Waiting} && sessions[key].activeTurn == Some(turn))
  {
  }

  /** The closing sweep of one session leaves the turns of every other as they were, and with them every claim that
      can be had on them; in its own session it leaves no turn open, and changes no turn that had ended. */
  lemma SweepClosesOwnTurns(turns: Turns, sessions: Sessions, sessionKey: Key, action: string, now: nat, turn: TurnId,
                            request: RequestId, later: nat)
    requires turn in turns
    ensures var after := CloseOpenTurnAttempts(turns, sessionKey, action, now);
            && turn in after
            && (turns[turn].sessionKey != sessionKey ==>
                  && after[turn] == turns[turn]
                  && ClaimTurnReply(after, sessions, turn, request, later).1
                     == ClaimTurnReply(turns, sessions, turn, request, later).1)
            && (turns[turn].sessionKey == sessionKey ==>
                  && after[turn].completedAt == Some(if turns[turn].completedAt.Some? then turns[turn].completedAt.value
                                                     else now)
                  && (turns[turn].completedAt.Some? ==> after[turn] == turns[turn])
                  && (turns[turn].completedAt.None? ==> after[turn].completionAction == Some(action))
                  && after[turn].sessionKey == sessionKey && after[turn].replyAccepted == turns[turn].replyAccepted
                  && after[turn].claim == turns[turn].claim
                  && !ClaimTurnReply(after, sessions, turn, request, later).1)
  {
  }

  /** The reply and turn tables, updated in place. */
  class BridgeState {
    var replies: Replies
    var turns: Turns
    var sessions: Sessions

    constructor ()
      ensures replies == map[] && turns == map[] && sessions == map[]
    {
      replies, turns, sessions := map[], map[], map[];
    }

    /** claim_reply: insert the row, revive a retryable failure, or take over an expired lease. */
    method ClaimReplyRow(request: RequestId, caseId: string, payload: Payload, now: nat) returns (result: ClaimResult)
      modifies this`replies
      ensures (replies, result) == ClaimReply(old(replies), request, caseId, payload, now)
      ensures result.claimed ==> request in replies && replies[request].status == Received
                                 && replies[request].payload == payload && replies[request].updatedAt == now
      ensures !result.claimed ==> replies == old(replies)
    {
      if request !in replies {
        replies := replies[request := ReplyRow(caseId, payload, Received, "", None, now)];
        return ClaimResult(true, Received, false);
      }
      var row := replies[request];
      var conflict := row.payload != payload || row.caseId != caseId;
      if !conflict && row.status == ReplyFailed && FailureIsRetryable(row.lastError) {
        replies := replies[request := row.(status := Received, updatedAt := now, lastError := None)];
        return ClaimResult(true, Received, false);
      }
      if !conflict && row.status == Received {
        if now - row.updatedAt >= REPLY_CLAIM_TIMEOUT {
          replies := replies[request := row.(updatedAt := now, lastError := None)];
          return ClaimResult(true, Received, false);
        }
      }
      return ClaimResult(false, row.status, conflict);
    }

    method MarkPosted(request: RequestId, replyTs: string, now: nat)
      modifies this`replies
      ensures replies == MarkReplyPosted(old(replies), request, replyTs, now)
      ensures OnlyRow(old(replies), replies, request)
      ensures request in replies ==> replies[request].status == Posted && ClosedForGood(replies, request)
    {
      if request in replies {
        replies := replies[request := replies[request].(status := Posted, replyTs := replyTs,
                                                        lastError := None, updatedAt := now)];
        PostedIsClosed(replies, request);
      }
    }

    method MarkPostedUnknown(request: RequestId, replyTs: string, error: string, now: nat)
      modifies this`replies
      ensures replies == MarkReplyPostedUnknown(old(replies), request, replyTs, error, now)
      ensures OnlyRow(old(replies), replies, request)
      ensures request in replies ==> replies[request].status == PostedUnknown && ClosedForGood(replies, request)
    {
      if request in replies {
        replies := replies[request := replies[request].(status := PostedUnknown, replyTs := replyTs,
                                                        lastError := Some(error), updatedAt := now)];
        PostedIsClosed(replies, request);
      }
    }

    method MarkFailed(request: RequestId, error: string, now: nat)
      modifies this`replies
      ensures replies == MarkReplyFailed(old(replies), request, error, now)
      ensures OnlyRow(old(replies), replies, request)
      ensures request in replies && old(replies)[request].status == Posted ==> ClosedForGood(replies, request)
      ensures request in replies ==>
                forall later :: ClaimReply(replies, request, replies[request].caseId, replies[request].payload,
                                           later).1.claimed
                  <==> old(replies)[request].status != Posted && FailureIsRetryable(Some(error))
    {
      if request in replies {
        var row := replies[request];
        if row.status != Posted {
          row := row.(status := ReplyFailed);
        }
        replies := replies[request := row.(lastError := Some(error), updatedAt := now)];
        if row.status == Posted {
          PostedIsClosed(replies, request);
        }
      }
    }

    /** claim_turn_reply: the checks in the order of the code, then the guarded update. */
    method ClaimTurn(turn: TurnId, request: RequestId, now: nat) returns (claimed: bool)
      modifies this`turns
      ensures (turns, claimed) == ClaimTurnReply(old(turns), sessions, turn, request, now)
      ensures claimed ==> turn in turns && turns[turn].claim == Some(TurnClaim(request, now))
      ensures TurnFinished(old(turns), turn) ==> !claimed
    {
      if turn !in turns || turns[turn].sessionKey !in sessions {
        return false;
      }
      var row := turns[turn];
      var session := sessions[row.sessionKey];
      if !Postable(session.status) {
        return false;
      }
      if session.activeTurn != Some(turn) {
        return false;
      }
      if row.completedAt.Some? || row.completionAction.Some? {
        return false;
      }
      var recoverable := row.claim.None? || row.claim.value.request == request
                         || now - row.claim.value.claimedAt >= REPLY_CLAIM_TIMEOUT;
      if !recoverable {
        return false;
      }
      turns := turns[turn := row.(claim := Some(TurnClaim(request, now)))];
      return true;
    }

    method ReleaseTurn(turn: TurnId, request: RequestId)
      modifies this`turns
      ensures turns == ReleaseTurnReplyClaim(old(turns), turn, request)
      ensures forall t :: t in old(turns) && t != turn ==> t in turns && turns[t] == old(turns)[t]
      ensures turn in turns && TurnIsLive(turns, sessions, turn) ==>
                forall other, now :: other != request ==>
                  (ClaimTurnReply(turns, sessions, turn, other, now).1 <==>
                     TurnClaimFree(old(turns)[turn], other, now) || old(turns)[turn].claim.value.request == request)
    {
      if turn in turns {
        var row := turns[turn];
        if row.claim.Some? && row.claim.value.request == request && row.completedAt.None? {
          turns := turns[turn := row.(claim := None)];
        }
      }
    }

    method OpenTurn(turn: TurnId, sessionKey: Key)
      modifies this`turns
      ensures turns == OpenTurnAttempt(old(turns), turn, sessionKey)
    {
      if turn !in turns {
        turns := turns[turn := TurnRow(sessionKey, None, None, 0, None, None)];
      }
    }

    /** mark_turn_attempt_completed: count the reply first, then write the named columns. */
    method MarkCompleted(turn: TurnId, completedAt: Update<Option<nat>>, action: Update<Option<string>>,
                         accepted: nat, discardNotifiedAt: Update<Option<nat>>)
      modifies this`turns
      ensures turns == MarkTurnAttemptCompleted(old(turns), turn, completedAt, action, accepted, discardNotifiedAt)
    {
      if turn !in turns {
        return;
      }
      var row := turns[turn];
      if accepted != 0 {
        row := row.(replyAccepted := row.replyAccepted + accepted);
      }
      if completedAt.Set? {
        row := row.(completedAt := completedAt.value);
        if completedAt.value.Some? {
          row := row.(claim := None);
        }
      }
      if action.Set? {
        row := row.(completionAction := action.value);
      }
      if discardNotifiedAt.Set? {
        row := row.(discardNotifiedAt := discardNotifiedAt.value);
      }
      turns := turns[turn := row];
    }

    method CloseOpenTurns(sessionKey: Key, action: string, now: nat)
      modifies this`turns
      ensures turns == CloseOpenTurnAttempts(old(turns), sessionKey, action, now)
    {
      var pending := turns.Keys;
      var result := turns;
      ghost var was := turns;
      while pending != {}
        invariant pending <= was.Keys && result.Keys == was.Keys
        invariant forall turn :: turn in pending ==> result[turn] == was[turn]
        invariant forall turn :: turn in was.Keys - pending ==>
          result[turn] == CloseOpenTurnAttempts(was, sessionKey, action, now)[turn]
        decreases pending
      {
        var turn :| turn in pending;
        var row := result[turn];
        if row.sessionKey == sessionKey && row.completedAt.None? {
          result := result[turn := row.(completionAction := Some(action), completedAt := Some(now))];
        }
        pending := pending - {turn};
      }
      turns := result;
    }
  }
}
