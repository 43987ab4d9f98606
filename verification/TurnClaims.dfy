/** One final reply per turn, and finished turns that stay finished. */
module TurnClaims {
  import opened Wrappers
  import opened ReplyLedger
  import opened ReplyProtocol
  import ReplyDelivery

  /** No other request can claim the turn: it is gone, finished, or claimed for this request. */
  predicate Guarded(s: State, turn: TurnId, request: RequestId) {
    && turn in s.openedTurns
    && (turn in s.turns && s.turns[turn].completionAction.None? ==>
          s.turns[turn].claim.Some? && s.turns[turn].claim.value.request == request)
  }

  ghost predicate TurnsOpened(s: State) {
    s.turns.Keys <= s.openedTurns
  }

  /** Past its first step a handler carries the payload of its reply row. */
  predicate HandlerKnown(s: State, handler: Handler) {
    && (!handler.phase.Arrived? && !handler.phase.Finished? ==>
          && handler.body.request in s.replies
          && s.replies[handler.body.request].payload == handler.body.payload)
    && (handler.phase.Settled? && Substantive(handler.body.payload) ==>
          Delivered(s.log, handler.body.request) != [])
  }

  ghost predicate HandlersKnown(s: State) {
    forall h :: h in s.handlers ==> HandlerKnown(s, s.handlers[h])
  }

  ghost predicate TurnsGuarded(s: State) {
    && (forall h :: h in s.handlers && Engaged(s.handlers[h]) ==>
          Guarded(s, s.handlers[h].body.payload.turnId, s.handlers[h].body.request))
    && (forall k :: 0 <= k < |s.log| && FinalCall(s.log[k]) ==> Guarded(s, s.log[k].turn, s.log[k].request))
  }

  /** Handlers engaged in one turn carry one request. */
  ghost predicate OneEngaged(s: State) {
    forall g, h :: g in s.handlers && h in s.handlers && Engaged(s.handlers[g]) && Engaged(s.handlers[h])
                   && s.handlers[g].body.payload.turnId == s.handlers[h].body.payload.turnId ==>
      s.handlers[g].body.request == s.handlers[h].body.request
  }

  /** What was sent for a turn is the request of the handlers engaged in it. */
  ghost predicate EngagedSent(s: State) {
    forall h, k :: h in s.handlers && Engaged(s.handlers[h]) && 0 <= k < |s.log| && FinalCall(s.log[k])
                   && s.handlers[h].body.payload.turnId == s.log[k].turn ==>
      s.handlers[h].body.request == s.log[k].request
  }

  /** What was sent for one turn is one request. */
  ghost predicate OneSent(s: State) {
    forall j, k :: 0 <= j < |s.log| && 0 <= k < |s.log| && FinalCall(s.log[j]) && FinalCall(s.log[k])
                   && s.log[j].turn == s.log[k].turn ==>
      s.log[j].request == s.log[k].request
  }

  /** All that is engaged in a turn, or was sent for it, is one request. */
  ghost predicate OneFinalRequest(s: State) {
    OneEngaged(s) && EngagedSent(s) && OneSent(s)
  }

  ghost predicate Inv(s: State) {
    TurnsOpened(s) && HandlersKnown(s) && TurnsGuarded(s) && OneFinalRequest(s)
  }

  // ---------------------------------------------------------------- finished turns

  /** The turn was opened once and is now closed for good. */
  predicate Over(s: State, turn: TurnId) {
    turn in s.openedTurns && (turn in s.turns ==> s.turns[turn].completionAction.Some?)
  }

  lemma NextKeepsOver(s: State, a: Action, turn: TurnId)
    requires Over(s, turn)
    ensures Over(Next(s, a), turn)
  {
  }

  lemma {:induction false} OverForGood(before: seq<Action>, after: seq<Action>, turn: TurnId)
    requires Over(Exec(before), turn)
    ensures Over(Exec(before + after), turn)
  {
    if after == [] {
      assert before + after == before;
    } else {
      var shorter, last := after[..|after| - 1], after[|after| - 1];
      OverForGood(before, shorter, turn);
      assert before + after == before + shorter + [last];
      ExecSnoc(before + shorter, last);
      NextKeepsOver(Exec(before + shorter), last, turn);
    }
  }

  /** Once a turn is over, no claim on it succeeds in any continuation of the run: not after a late
      note has cleared its completion time, not with an expired claim, not in a revived session. */
  lemma FinishedTurnRefusesClaims(before: seq<Action>, after: seq<Action>, turn: TurnId, request: RequestId,
                                  sessions: Sessions, now: nat)
    requires Over(Exec(before), turn)
    ensures ClaimTurnReply(Exec(before + after).turns, sessions, turn, request, now)
            == (Exec(before + after).turns, false)
  {
    OverForGood(before, after, turn);
  }

  /** What finishes a turn: a reason recorded by a reaction, cancel, kill, timeout or send failure, the
      closing sweep over a session's open turns, a final reply being recorded, or its row's deletion. */
  predicate Finishes(s: State, a: Action, turn: TurnId) {
    || (a.FinishTurn? && a.turn == turn)
    || (a.DeleteTurn? && a.turn == turn)
    || (a.CloseTurns? && turn in s.turns && s.turns[turn].sessionKey == a.sessionKey
        && s.turns[turn].completedAt.None?)
    || (a.Step? && a.handler in s.handlers && s.handlers[a.handler].phase.Settled?
        && s.handlers[a.handler].body.payload.turnId == turn && Substantive(s.handlers[a.handler].body.payload))
  }

  lemma FinishingMakesOver(s: State, a: Action, turn: TurnId)
    requires turn in s.openedTurns && Finishes(s, a, turn)
    ensures Over(Next(s, a), turn)
  {
  }

  /** Whatever finishes a turn, no claim on it succeeds afterwards. */
  lemma FinishingRefusesClaims(before: seq<Action>, a: Action, after: seq<Action>, turn: TurnId, request: RequestId,
                               sessions: Sessions, now: nat)
    requires turn in Exec(before).openedTurns && Finishes(Exec(before), a, turn)
    ensures ClaimTurnReply(Exec(before + [a] + after).turns, sessions, turn, request, now)
            == (Exec(before + [a] + after).turns, false)
  {
    FinishingMakesOver(Exec(before), a, turn);
    ExecSnoc(before, a);
    FinishedTurnRefusesClaims(before + [a], after, turn, request, sessions, now);
  }

  // ---------------------------------------------------------------- one final reply

  lemma InitInv()
    ensures Inv(INIT)
  {
  }

  /** A write that only adds reasons, drops rows, or opens a fresh turn. */
  lemma EnvironmentKeepsGuards(s: State, a: Action, turn: TurnId, request: RequestId)
    requires TurnsOpened(s) && Guarded(s, turn, request) && !(a.Step? && a.handler in s.handlers)
    ensures Guarded(Next(s, a), turn, request)
  {
  }

  /** Handlers only appear, as yet unengaged, or end, and nothing is posted or recorded. */
  ghost predicate Quiet(s: State, t: State) {
    && t.log == s.log && t.replies == s.replies
    && forall h :: h in t.handlers ==>
         t.handlers[h].phase.Arrived? || t.handlers[h].phase.Finished? ||
         (h in s.handlers && s.handlers[h] == t.handlers[h])
  }

  lemma QuietKeepsHandlersKnown(s: State, t: State)
    requires HandlersKnown(s) && Quiet(s, t)
    ensures HandlersKnown(t)
  {
    forall h | h in t.handlers ensures HandlerKnown(t, t.handlers[h]) {
      assert h in s.handlers ==> HandlerKnown(s, s.handlers[h]);
    }
  }

  lemma QuietKeepsTurnsGuarded(s: State, t: State)
    requires TurnsGuarded(s) && Quiet(s, t)
    requires forall turn, request :: Guarded(s, turn, request) ==> Guarded(t, turn, request)
    ensures TurnsGuarded(t)
  {
    forall h | h in t.handlers && Engaged(t.handlers[h])
      ensures Guarded(t, t.handlers[h].body.payload.turnId, t.handlers[h].body.request)
    {
      assert h in s.handlers && s.handlers[h] == t.handlers[h];
      assert Guarded(s, t.handlers[h].body.payload.turnId, t.handlers[h].body.request);
    }
    forall k | 0 <= k < |t.log| && FinalCall(t.log[k]) ensures Guarded(t, t.log[k].turn, t.log[k].request) {
      assert Guarded(s, t.log[k].turn, t.log[k].request);
    }
  }

  lemma QuietKeepsOneFinalRequest(s: State, t: State)
    requires OneFinalRequest(s) && Quiet(s, t)
    ensures OneFinalRequest(t)
  {
    assert forall h :: h in t.handlers && Engaged(t.handlers[h]) ==> h in s.handlers && s.handlers[h] == t.handlers[h];
  }

  lemma EnvironmentIsQuiet(s: State, a: Action)
    requires NotesAreNotes(s) && !(a.Step? && a.handler in s.handlers)
    ensures Quiet(s, Next(s, a)) && NotesAreNotes(Next(s, a))
  {
  }

  lemma EnvironmentKeepsInv(s: State, a: Action)
    requires Inv(s) && NotesAreNotes(s) && !(a.Step? && a.handler in s.handlers)
    ensures Inv(Next(s, a)) && NotesAreNotes(Next(s, a))
  {
    var t := Next(s, a);
    forall turn, request | Guarded(s, turn, request) ensures Guarded(t, turn, request) {
      EnvironmentKeepsGuards(s, a, turn, request);
    }
    StepKeepsTurnsOpened(s, a);
    EnvironmentIsQuiet(s, a);
    QuietKeepsHandlersKnown(s, t);
    QuietKeepsTurnsGuarded(s, t);
    QuietKeepsOneFinalRequest(s, t);
  }

  /** No other request can claim the turn, as far as the turn table says. */
  predicate Held(turns: Turns, turn: TurnId, request: RequestId) {
    turn in turns && turns[turn].completionAction.None? ==>
      turns[turn].claim.Some? && turns[turn].claim.value.request == request
  }

  /** Only these phases write to the turn table. */
  predicate WritesTurns(phase: Phase) {
    phase.Claimable? || phase.Settled? || Releasing(phase)
  }

  lemma {:induction false} OtherPhasesKeepTurns(s: State, body: Body, phase: Phase, choice: Choice)
    requires !WritesTurns(phase)
    ensures HandlerStep(s, body, phase, choice).turns == s.turns
  {
    match phase
    case Resolving =>
    case Checking(_, _) =>
    case Reloading(_, _, _) =>
    case Discarding(_) =>
    case Sending(_, _, _) =>
    case SentOk(_) =>
    case SentUnknown(_, _) =>
    case _ =>
  }

  lemma ClaimKeepsHeld(s: State, body: Body, choice: Choice, turn: TurnId, request: RequestId)
    requires Held(s.turns, turn, request)
    requires TakesOverTurn(s.turns, s.sessions, body.payload.turnId, body.request, s.now) ==>
             body.payload.turnId != turn
    ensures Held(HandlerStep(s, body, Claimable, choice).turns, turn, request)
  {
  }

  lemma CompletionKeepsHeld(s: State, body: Body, choice: Choice, turn: TurnId, request: RequestId)
    requires Held(s.turns, turn, request)
    ensures Held(HandlerStep(s, body, Settled, choice).turns, turn, request)
  {
  }

  lemma ReleaseKeepsHeld(s: State, body: Body, phase: Phase, choice: Choice, turn: TurnId, request: RequestId)
    requires Held(s.turns, turn, request) && Releasing(phase)
    requires body.request != request || body.payload.turnId != turn
    ensures Held(HandlerStep(s, body, phase, choice).turns, turn, request)
  {
  }

  /** The effect of a handler step on the turn table, seen from requests that guard a turn. */
  lemma StepKeepsGuards(s: State, t: State, h: HandlerId, choice: Choice, turn: TurnId, request: RequestId)
    requires h in s.handlers && t == Next(s, Step(h, choice)) && Guarded(s, turn, request)
    requires TakesTurn(s, h) ==> s.handlers[h].body.payload.turnId != turn
    requires Releasing(s.handlers[h].phase) ==>
               s.handlers[h].body.request != request || s.handlers[h].body.payload.turnId != turn
    ensures Guarded(t, turn, request)
  {
    var Handler(body, phase) := s.handlers[h];
    assert Held(s.turns, turn, request);
    assert Held(HandlerStep(s, body, phase, choice).turns, turn, request) by {
      if phase.Claimable? {
        ClaimKeepsHeld(s, body, choice, turn, request);
      } else if phase.Settled? {
        CompletionKeepsHeld(s, body, choice, turn, request);
      } else if Releasing(phase) {
        ReleaseKeepsHeld(s, body, phase, choice, turn, request);
      } else {
        OtherPhasesKeepTurns(s, body, phase, choice);
      }
    }
  }

  /** The handler has not claimed its turn yet, or never will. */
  predicate Unclaimed(phase: Phase) {
    || phase.Arrived? || phase.Resolving? || phase.Checking? || phase.Discarding? || phase.Reloading?
    || phase.Failing? || phase.Claimable? || phase.NoteRecorded? || phase.Finished?
  }

  lemma {:induction false} LookupStaysUnclaimed(s: State, body: Body, phase: Phase, choice: Choice)
    requires phase.Arrived? || phase.Resolving?
    ensures Unclaimed(HandlerStep(s, body, phase, choice).phase)
  {
  }

  lemma {:induction false} CheckingStaysUnclaimed(s: State, body: Body, phase: Phase, choice: Choice)
    requires phase.Checking? || phase.Discarding?
    ensures Unclaimed(HandlerStep(s, body, phase, choice).phase)
  {
  }

  lemma {:induction false} LateStaysUnclaimed(s: State, body: Body, phase: Phase, choice: Choice)
    requires phase.Reloading? || phase.Failing? || phase.NoteRecorded? || phase.Finished?
    ensures Unclaimed(HandlerStep(s, body, phase, choice).phase)
  {
  }

  /** A handler becomes engaged only by claiming its turn. */
  lemma EngagesByClaiming(s: State, h: HandlerId, choice: Choice)
    requires h in s.handlers && !Engaged(s.handlers[h])
    requires Engaged(Handler(s.handlers[h].body, HandlerStep(s, s.handlers[h].body, s.handlers[h].phase, choice).phase))
    ensures s.handlers[h].phase.Claimable?
  {
    var Handler(body, phase) := s.handlers[h];
    if phase.Arrived? || phase.Resolving? {
      LookupStaysUnclaimed(s, body, phase, choice);
    } else if phase.Checking? || phase.Discarding? {
      CheckingStaysUnclaimed(s, body, phase, choice);
    } else if !phase.Claimable? {
      LateStaysUnclaimed(s, body, phase, choice);
    }
  }

  /** The turn that a handler claims is live, and then claimed for its request. */
  lemma ClaimTakesTurn(s: State, h: HandlerId, choice: Choice)
    requires h in s.handlers && s.handlers[h].phase.Claimable?
    requires HandlerStep(s, s.handlers[h].body, Claimable, choice).phase.TurnHeld?
    ensures var turn, t := s.handlers[h].body.payload.turnId, Next(s, Step(h, choice));
            && TurnIsLive(s.turns, s.sessions, turn)
            && TurnClaimFree(s.turns[turn], s.handlers[h].body.request, s.now)
            && t.turns == s.turns[turn := s.turns[turn].(claim := Some(TurnClaim(s.handlers[h].body.request, s.now)))]
            && t.openedTurns == s.openedTurns
  {
  }

  /** A handler that becomes engaged guards its turn, and nothing of another request is engaged in the turn or
      was sent for it. */
  lemma ClaimFindsTurnFree(s: State, h: HandlerId, choice: Choice)
    requires h in s.handlers && TurnsOpened(s) && TurnsGuarded(s)
    requires TakesTurn(s, h) ==> TurnIdle(s, h, s.handlers[h].body.payload.turnId)
    requires !Engaged(s.handlers[h])
    requires Engaged(Handler(s.handlers[h].body, HandlerStep(s, s.handlers[h].body, s.handlers[h].phase, choice).phase))
    ensures Guarded(Next(s, Step(h, choice)), s.handlers[h].body.payload.turnId, s.handlers[h].body.request)
    ensures OnlyRequest(s, h)
  {
    EngagesByClaiming(s, h, choice);
    ClaimTakesTurn(s, h, choice);
    var turn, request := s.handlers[h].body.payload.turnId, s.handlers[h].body.request;
    forall g | g in s.handlers && Engaged(s.handlers[g]) && s.handlers[g].body.payload.turnId == turn
      ensures s.handlers[g].body.request == request
    {
      assert Guarded(s, turn, s.handlers[g].body.request);
    }
    forall k | 0 <= k < |s.log| && FinalCall(s.log[k]) && s.log[k].turn == turn ensures s.log[k].request == request {
      assert Guarded(s, turn, s.log[k].request);
    }
  }

  /** All that is engaged in the handler's turn, or was sent for it, is the handler's request. */
  predicate OnlyRequest(s: State, h: HandlerId)
    requires h in s.handlers
  {
    var body := s.handlers[h].body;
    && (forall g :: g in s.handlers && Engaged(s.handlers[g])
                    && s.handlers[g].body.payload.turnId == body.payload.turnId ==>
          s.handlers[g].body.request == body.request)
    && (forall k :: 0 <= k < |s.log| && FinalCall(s.log[k]) && s.log[k].turn == body.payload.turnId ==>
          s.log[k].request == body.request)
  }

  /** Releasing a claim never concerns a request that is engaged or was sent: the releasing handler is
      a note, or one whose reply was refused outright. */
  lemma ReleaseIsForeignToEngaged(s: State, h: HandlerId, g: HandlerId)
    requires ReplyDelivery.Inv(s) && HandlersKnown(s)
    requires h in s.handlers && g in s.handlers && Engaged(s.handlers[g]) && g != h
    requires s.handlers[h].phase.SentNothing? || s.handlers[h].phase.NoteRecorded?
    requires s.handlers[h].phase.NoteRecorded? ==> !Substantive(s.handlers[h].body.payload)
    ensures s.handlers[h].body.request != s.handlers[g].body.request
  {
    assert HandlerKnown(s, s.handlers[h]) && HandlerKnown(s, s.handlers[g]);
  }

  lemma ReleaseIsForeignToSent(s: State, h: HandlerId, k: nat)
    requires ReplyDelivery.Inv(s) && HandlersKnown(s)
    requires h in s.handlers && k < |s.log| && FinalCall(s.log[k])
    requires s.handlers[h].phase.SentNothing? || s.handlers[h].phase.NoteRecorded?
    requires s.handlers[h].phase.NoteRecorded? ==> !Substantive(s.handlers[h].body.payload)
    ensures s.handlers[h].body.request != s.log[k].request
  {
    var request := s.log[k].request;
    assert HandlerKnown(s, s.handlers[h]);
    assert ReplyDelivery.RowFits(s.replies, request, Delivered(s.log, request));
    ReplyDelivery.DeliveredPosition(s.log, request, k);
  }

  ghost predicate NotesAreNotes(s: State) {
    forall h :: h in s.handlers && s.handlers[h].phase.NoteRecorded? ==> !Substantive(s.handlers[h].body.payload)
  }

  predicate Releasing(phase: Phase) {
    phase.SentNothing? || phase.NoteRecorded?
  }

  /** One handler moved on, and made at most one call. */
  predicate Moved(s: State, t: State, h: HandlerId, moved: Phase, calls: seq<Call>) {
    && h in s.handlers
    && t.handlers == s.handlers[h := Handler(s.handlers[h].body, moved)]
    && t.log == s.log + calls
    && |calls| <= 1
    && (calls != [] ==>
          && s.handlers[h].phase.Sending?
          && calls[0].request == s.handlers[h].body.request
          && calls[0].turn == s.handlers[h].body.payload.turnId
          && calls[0].final == Substantive(s.handlers[h].body.payload))
  }

  lemma StepMoves(s: State, a: Action) returns (moved: Phase, calls: seq<Call>)
    requires a.Step? && a.handler in s.handlers
    ensures moved == HandlerStep(s, s.handlers[a.handler].body, s.handlers[a.handler].phase, a.choice).phase
    ensures Moved(s, Next(s, a), a.handler, moved, calls)
  {
    var e := HandlerStep(s, s.handlers[a.handler].body, s.handlers[a.handler].phase, a.choice);
    moved, calls := e.phase, e.calls;
    OneCall(s, s.handlers[a.handler].body, s.handlers[a.handler].phase, a.choice);
  }

  /** Only a post makes a call, for the handler's own request and turn. */
  lemma {:induction false} OneCall(s: State, body: Body, phase: Phase, choice: Choice)
    ensures var calls := HandlerStep(s, body, phase, choice).calls;
            && |calls| <= 1
            && (calls != [] ==>
                  && phase.Sending? && calls[0].request == body.request && calls[0].turn == body.payload.turnId
                  && calls[0].final == Substantive(body.payload))
  {
    match phase
    case Resolving =>
    case Checking(_, _) =>
    case Reloading(_, _, _) =>
    case Sending(_, _, _) =>
    case _ =>
  }

  lemma StepKeepsNotes(s: State, a: Action)
    requires a.Step? && a.handler in s.handlers && NotesAreNotes(s)
    ensures NotesAreNotes(Next(s, a))
  {
    var Handler(body, phase) := s.handlers[a.handler];
    if phase.Arrived? || phase.Resolving? {
      LookupStaysUnrecorded(s, body, phase, a.choice);
    } else if phase.Checking? || phase.Reloading? || phase.Discarding? {
      CheckingStaysUnrecorded(s, body, phase, a.choice);
    } else if HandlerStep(s, body, phase, a.choice).phase.NoteRecorded? {
      NotesFollowNotes(s, body, phase, a.choice);
    }
  }

  lemma {:induction false} LookupStaysUnrecorded(s: State, body: Body, phase: Phase, choice: Choice)
    requires phase.Arrived? || phase.Resolving?
    ensures !HandlerStep(s, body, phase, choice).phase.NoteRecorded?
  {
  }

  lemma {:induction false} CheckingStaysUnrecorded(s: State, body: Body, phase: Phase, choice: Choice)
    requires phase.Checking? || phase.Reloading? || phase.Discarding?
    ensures !HandlerStep(s, body, phase, choice).phase.NoteRecorded?
  {
  }

  lemma {:induction false} NotesFollowNotes(s: State, body: Body, phase: Phase, choice: Choice)
    requires !phase.Arrived? && !phase.Resolving? && !phase.Checking? && !phase.Reloading? && !phase.Discarding?
    requires HandlerStep(s, body, phase, choice).phase.NoteRecorded?
    ensures phase.NoteRecorded? || !Substantive(body.payload)
  {
  }

  lemma MoveKeepsTurnsGuarded(s: State, t: State, h: HandlerId, moved: Phase, calls: seq<Call>)
    requires TurnsGuarded(s) && Moved(s, t, h, moved, calls)
    requires forall turn, request :: Guarded(s, turn, request)
                                     && !(Releasing(s.handlers[h].phase) && request == s.handlers[h].body.request)
                                     && !(TakesTurn(s, h) && turn == s.handlers[h].body.payload.turnId) ==>
               Guarded(t, turn, request)
    requires TakesTurn(s, h) ==> TurnIdle(s, h, s.handlers[h].body.payload.turnId)
    requires Engaged(t.handlers[h]) && !Engaged(s.handlers[h]) ==>
               Guarded(t, s.handlers[h].body.payload.turnId, s.handlers[h].body.request)
    requires Engaged(t.handlers[h]) ==> !Releasing(s.handlers[h].phase)
    requires Releasing(s.handlers[h].phase) ==>
               && (forall g :: g in s.handlers && g != h && Engaged(s.handlers[g]) ==>
                     s.handlers[g].body.request != s.handlers[h].body.request)
               && (forall k :: 0 <= k < |s.log| && FinalCall(s.log[k]) ==>
                     s.log[k].request != s.handlers[h].body.request)
    ensures TurnsGuarded(t)
  {
    forall g | g in t.handlers && Engaged(t.handlers[g])
      ensures Guarded(t, t.handlers[g].body.payload.turnId, t.handlers[g].body.request)
    {
      if Engaged(s.handlers[g]) {
        assert Guarded(s, s.handlers[g].body.payload.turnId, s.handlers[g].body.request);
      }
    }
    forall k | 0 <= k < |t.log| && FinalCall(t.log[k]) ensures Guarded(t, t.log[k].turn, t.log[k].request) {
      if k == |s.log| {
        assert Engaged(s.handlers[h]);
      }
      assert Guarded(s, t.log[k].turn, t.log[k].request);
    }
  }

  ghost predicate OthersStayGuarded(s: State, t: State, h: HandlerId)
    requires h in s.handlers
  {
    forall turn, request :: Guarded(s, turn, request)
                            && !(Releasing(s.handlers[h].phase) && request == s.handlers[h].body.request)
                            && !(TakesTurn(s, h) && turn == s.handlers[h].body.payload.turnId) ==>
      Guarded(t, turn, request)
  }

  /** Nothing of the handler's request is engaged in another handler, or was sent as a final reply. */
  ghost predicate Foreign(s: State, h: HandlerId)
    requires h in s.handlers
  {
    && (forall g :: g in s.handlers && g != h && Engaged(s.handlers[g]) ==>
          s.handlers[g].body.request != s.handlers[h].body.request)
    && (forall k :: 0 <= k < |s.log| && FinalCall(s.log[k]) ==> s.log[k].request != s.handlers[h].body.request)
  }

  lemma StepKeepsOthersGuarded(s: State, h: HandlerId, choice: Choice)
    requires h in s.handlers
    ensures OthersStayGuarded(s, Next(s, Step(h, choice)), h)
  {
    var t := Next(s, Step(h, choice));
    forall turn, request | Guarded(s, turn, request)
                           && !(Releasing(s.handlers[h].phase) && request == s.handlers[h].body.request)
                           && !(TakesTurn(s, h) && turn == s.handlers[h].body.payload.turnId)
      ensures Guarded(t, turn, request)
    {
      StepKeepsGuards(s, t, h, choice, turn, request);
    }
  }

  lemma ReleasingIsForeign(s: State, h: HandlerId)
    requires h in s.handlers && Releasing(s.handlers[h].phase)
    requires HandlersKnown(s) && ReplyDelivery.Inv(s) && NotesAreNotes(s)
    ensures Foreign(s, h)
  {
    forall g | g in s.handlers && g != h && Engaged(s.handlers[g])
      ensures s.handlers[g].body.request != s.handlers[h].body.request
    {
      ReleaseIsForeignToEngaged(s, h, g);
    }
    forall k | 0 <= k < |s.log| && FinalCall(s.log[k])
      ensures s.log[k].request != s.handlers[h].body.request
    {
      ReleaseIsForeignToSent(s, h, k);
    }
  }

  lemma {:induction false} ReleasingEnds(s: State, body: Body, phase: Phase, choice: Choice)
    requires Releasing(phase)
    ensures !Engaged(Handler(body, HandlerStep(s, body, phase, choice).phase))
  {
  }

  lemma StepKeepsTurnsGuarded(s: State, t: State, h: HandlerId, choice: Choice, moved: Phase, calls: seq<Call>)
    requires h in s.handlers && t == Next(s, Step(h, choice)) && RecoversOnly(s, Step(h, choice))
    requires Inv(s) && ReplyDelivery.Inv(s) && NotesAreNotes(s)
    requires Moved(s, t, h, moved, calls)
    requires moved == HandlerStep(s, s.handlers[h].body, s.handlers[h].phase, choice).phase
    ensures TurnsGuarded(t)
  {
    StepKeepsOthersGuarded(s, h, choice);
    if Releasing(s.handlers[h].phase) {
      ReleasingIsForeign(s, h);
      ReleasingEnds(s, s.handlers[h].body, s.handlers[h].phase, choice);
    } else if Engaged(t.handlers[h]) && !Engaged(s.handlers[h]) {
      ClaimFindsTurnFree(s, h, choice);
    }
    MoveKeepsTurnsGuarded(s, t, h, moved, calls);
  }

  lemma MoveKeepsOneEngaged(s: State, t: State, h: HandlerId, moved: Phase, calls: seq<Call>)
    requires OneEngaged(s) && Moved(s, t, h, moved, calls)
    requires Engaged(t.handlers[h]) && !Engaged(s.handlers[h]) ==> OnlyRequest(s, h)
    ensures OneEngaged(t)
  {
    forall g, k | g in t.handlers && k in t.handlers && Engaged(t.handlers[g]) && Engaged(t.handlers[k])
                  && t.handlers[g].body.payload.turnId == t.handlers[k].body.payload.turnId
      ensures t.handlers[g].body.request == t.handlers[k].body.request
    {
      assert g != h ==> t.handlers[g] == s.handlers[g];
      assert k != h ==> t.handlers[k] == s.handlers[k];
    }
  }

  lemma MoveKeepsEngagedSent(s: State, t: State, h: HandlerId, moved: Phase, calls: seq<Call>)
    requires OneEngaged(s) && EngagedSent(s) && Moved(s, t, h, moved, calls)
    requires Engaged(t.handlers[h]) && !Engaged(s.handlers[h]) ==> OnlyRequest(s, h)
    ensures EngagedSent(t)
  {
    forall g, k | g in t.handlers && Engaged(t.handlers[g]) && 0 <= k < |t.log| && FinalCall(t.log[k])
                  && t.handlers[g].body.payload.turnId == t.log[k].turn
      ensures t.handlers[g].body.request == t.log[k].request
    {
      assert g != h ==> t.handlers[g] == s.handlers[g];
      if k < |s.log| {
        assert t.log[k] == s.log[k];
      } else {
        assert t.log[k] == calls[0] && Engaged(s.handlers[h]);
      }
    }
  }

  lemma MoveKeepsOneSent(s: State, t: State, h: HandlerId, moved: Phase, calls: seq<Call>)
    requires EngagedSent(s) && OneSent(s) && Moved(s, t, h, moved, calls)
    ensures OneSent(t)
  {
    forall j, k | 0 <= j < |t.log| && 0 <= k < |t.log| && FinalCall(t.log[j]) && FinalCall(t.log[k])
                  && t.log[j].turn == t.log[k].turn
      ensures t.log[j].request == t.log[k].request
    {
      assert j == |s.log| || k == |s.log| ==> FinalCall(calls[0]) ==> Engaged(s.handlers[h]);
    }
  }

  lemma MoveKeepsHandlersKnown(s: State, t: State, h: HandlerId, moved: Phase, calls: seq<Call>)
    requires HandlersKnown(s) && Moved(s, t, h, moved, calls) && HandlerKnown(t, t.handlers[h])
    requires forall r :: r in s.replies ==> r in t.replies && t.replies[r].payload == s.replies[r].payload
    ensures HandlersKnown(t)
  {
    forall g | g in t.handlers ensures HandlerKnown(t, t.handlers[g]) {
      if g != h {
        assert HandlerKnown(s, s.handlers[g]);
        ReplyDelivery.DeliveredAfter(s.log, calls, s.handlers[g].body.request);
      }
    }
  }

  /** A handler learns its row's payload when it claims the row, and delivers before it settles. */
  lemma StepKeepsHandlerKnown(s: State, a: Action)
    requires a.Step? && a.handler in s.handlers
    requires Holds(s.handlers[a.handler].phase) ==>
               ReplyDelivery.OwnerFits(s.replies, s.handlers[a.handler].body, s.handlers[a.handler].phase,
                                       Delivered(s.log, s.handlers[a.handler].body.request))
    requires HandlerKnown(s, s.handlers[a.handler])
    ensures HandlerKnown(Next(s, a), Next(s, a).handlers[a.handler])
  {
    var Handler(body, phase) := s.handlers[a.handler];
    StepKeepsPayload(s, body, phase, a.choice);
    if HandlerStep(s, body, phase, a.choice).phase.Settled? && Substantive(body.payload) {
      SettledWasDelivered(s, body, phase, a.choice);
    }
  }

  lemma StepKeepsPayload(s: State, body: Body, phase: Phase, choice: Choice)
    requires !phase.Arrived? && !phase.Finished? ==>
               body.request in s.replies && s.replies[body.request].payload == body.payload
    ensures var e := HandlerStep(s, body, phase, choice);
            !e.phase.Arrived? && !e.phase.Finished? ==>
              body.request in e.replies && e.replies[body.request].payload == body.payload
  {
  }

  lemma SettledWasDelivered(s: State, body: Body, phase: Phase, choice: Choice)
    requires HandlerStep(s, body, phase, choice).phase.Settled? && Substantive(body.payload)
    requires Holds(phase) ==>
               ReplyDelivery.OwnerFits(s.replies, body, phase, Delivered(s.log, body.request))
    requires phase.Settled? ==> Delivered(s.log, body.request) != []
    ensures var e := HandlerStep(s, body, phase, choice);
            Delivered(s.log + e.calls, body.request) != []
  {
    var e := HandlerStep(s, body, phase, choice);
    if !phase.Settled? {
      assert phase.SentOk? || phase.SentUnknown?;
    }
    assert e.calls == [] || phase.Settled?;
    assert s.log + [] == s.log;
  }

  lemma StepKeepsPayloads(s: State, a: Action, request: RequestId)
    requires a.Step? && a.handler in s.handlers && request in s.replies
    ensures request in Next(s, a).replies && Next(s, a).replies[request].payload == s.replies[request].payload
  {
    var Handler(body, phase) := s.handlers[a.handler];
    if request != body.request {
      ReplyDelivery.StepKeepsOtherRows(s, body, phase, a.choice, request);
    }
  }

  lemma StepKeepsHandlersKnown(s: State, t: State, a: Action, moved: Phase, calls: seq<Call>)
    requires a.Step? && a.handler in s.handlers && t == Next(s, a) && Moved(s, t, a.handler, moved, calls)
    requires HandlersKnown(s) && ReplyDelivery.OwnersFit(s)
    ensures HandlersKnown(t)
  {
    assert HandlerKnown(s, s.handlers[a.handler]);
    StepKeepsHandlerKnown(s, a);
    forall r | r in s.replies ensures r in t.replies && t.replies[r].payload == s.replies[r].payload {
      StepKeepsPayloads(s, a, r);
    }
    MoveKeepsHandlersKnown(s, t, a.handler, moved, calls);
  }

  lemma HandlerStepKeepsInv(s: State, a: Action)
    requires a.Step? && a.handler in s.handlers && RecoversOnly(s, a)
    requires Inv(s) && ReplyDelivery.Inv(s) && NotesAreNotes(s)
    ensures Inv(Next(s, a)) && NotesAreNotes(Next(s, a))
  {
    var h, t := a.handler, Next(s, a);
    var moved, calls := StepMoves(s, a);
    StepKeepsTurnsGuarded(s, t, h, a.choice, moved, calls);
    if Engaged(t.handlers[h]) && !Engaged(s.handlers[h]) {
      ClaimFindsTurnFree(s, h, a.choice);
    }
    MoveKeepsOneEngaged(s, t, h, moved, calls);
    MoveKeepsEngagedSent(s, t, h, moved, calls);
    MoveKeepsOneSent(s, t, h, moved, calls);
    StepKeepsHandlersKnown(s, t, a, moved, calls);
    StepKeepsTurnsOpened(s, a);
    StepKeepsNotes(s, a);
  }

  /** A claim that takes a turn over keeps one final reply per turn secured if and only if it finds the turn idle. */
  lemma TakingATurnIff(s: State, h: HandlerId, choice: Choice)
    requires Inv(s) && ReplyDelivery.Inv(s) && NotesAreNotes(s) && TakesTurn(s, h)
    ensures Inv(Next(s, Step(h, choice))) <==> TurnIdle(s, h, s.handlers[h].body.payload.turnId)
  {
    if TurnIdle(s, h, s.handlers[h].body.payload.turnId) {
      HandlerStepKeepsInv(s, Step(h, choice));
    } else {
      BusyTurnLosesGuard(s, h, choice);
    }
  }

  /** A request that was engaged in the turn, or sent for it, no longer guards it. */
  lemma BusyTurnLosesGuard(s: State, h: HandlerId, choice: Choice)
    requires TurnsGuarded(s) && TakesTurn(s, h) && !TurnIdle(s, h, s.handlers[h].body.payload.turnId)
    ensures !TurnsGuarded(Next(s, Step(h, choice)))
  {
    var turn, t := s.handlers[h].body.payload.turnId, Next(s, Step(h, choice));
    TakenTurn(s, h, choice);
    if g :| g in s.handlers && g != h && Engaged(s.handlers[g]) && s.handlers[g].body.payload.turnId == turn {
      assert Guarded(s, turn, s.handlers[g].body.request) && t.handlers[g] == s.handlers[g];
      assert !Guarded(t, turn, t.handlers[g].body.request);
    } else {
      var k :| 0 <= k < |s.log| && FinalCall(s.log[k]) && s.log[k].turn == turn;
      assert Guarded(s, turn, s.log[k].request) && t.log[k] == s.log[k];
      assert !Guarded(t, turn, t.log[k].request);
    }
  }

  lemma TakenTurn(s: State, h: HandlerId, choice: Choice)
    requires TakesTurn(s, h)
    ensures var turn, t := s.handlers[h].body.payload.turnId, Next(s, Step(h, choice));
            && t.log == s.log && t.openedTurns == s.openedTurns
            && t.turns == s.turns[turn := s.turns[turn].(claim := Some(TurnClaim(s.handlers[h].body.request, s.now)))]
            && forall g :: g in s.handlers && g != h ==> g in t.handlers && t.handlers[g] == s.handlers[g]
  {
    assert s.log + [] == s.log;
  }

  lemma StepKeepsTurnsOpened(s: State, a: Action)
    requires TurnsOpened(s)
    ensures TurnsOpened(Next(s, a))
  {
  }

  lemma {:induction false} RunKeepsInv(run: seq<Action>)
    requires Orderly(run)
    ensures Inv(Exec(run)) && NotesAreNotes(Exec(run))
  {
    if run == [] {
      InitInv();
    } else {
      var before, a := run[..|run| - 1], run[|run| - 1];
      OrderlyPrefix(run);
      RunKeepsInv(before);
      ReplyDelivery.RunKeepsInv(before);
      if a.Step? && a.handler in Exec(before).handlers {
        HandlerStepKeepsInv(Exec(before), a);
      } else {
        EnvironmentKeepsInv(Exec(before), a);
      }
    }
  }

  /** At most one final reply reaches the thread for a turn: whatever requests compete for it, and
      whatever cancels, kills, timeouts, reactions and crashes interleave, two calls of final replies
      on one turn that may have been delivered belong to the same request and to different parts. */
  lemma OneFinalReplyPerTurn(run: seq<Action>, j: nat, k: nat)
    requires Orderly(run)
    requires j < k < |Exec(run).log|
    requires FinalCall(Exec(run).log[j]) && FinalCall(Exec(run).log[k])
    requires Exec(run).log[j].turn == Exec(run).log[k].turn
    ensures Exec(run).log[j].request == Exec(run).log[k].request
    ensures Exec(run).log[j].part < Exec(run).log[k].part
  {
    RunKeepsInv(run);
    ReplyDelivery.EachPartAtMostOnce(run, j, k);
  }
}
