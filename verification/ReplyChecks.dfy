/** Which replies the checks of a handler let through, and what becomes of the others. */
module ReplyChecks {
  import opened Wrappers
  import opened SessionStatus
  import opened WhiteSpace
  import opened ReplyLedger
  import opened ReplyProtocol

  // ---------------------------------------------------------------- what passes

  /** A request with an empty field or a blank text leaves no trace; any other that is new gets a row. */
  lemma NewRequestGetsRowIff(s: State, body: Body, choice: Choice)
    requires body.request !in s.replies
    ensures var e, p := HandlerStep(s, body, Arrived, choice), body.payload;
            var complete :=
              && body.request != "" && p.turnId != "" && p.caseId != "" && p.sessionId != "" && p.paneId != ""
              && p.windowName != "" && exists i :: 0 <= i < |p.text| && !IsSpace(p.text[i]);
            if complete then e.phase == Resolving && e.replies.Keys == s.replies.Keys + {body.request}
            else e == Effect(s.replies, s.turns, Finished, [])
  {
    BlankIff(body.payload.text);
  }

  lemma BlankIff(text: string)
    ensures IsBlank(text) <==> forall i :: 0 <= i < |text| ==> IsSpace(text[i])
  {
    if forall i :: 0 <= i < |text| ==> IsSpace(text[i]) {
      forall c | c in text ensures IsSpace(c) {
        var i :| 0 <= i < |text| && text[i] == c;
      }
    }
  }

  /** The session that a reply is looked up to: one with its worker's id, or if there is none, one of its case. */
  predicate IsMeant(s: State, payload: Payload, key: Key)
    requires key in s.sessions
  {
    || s.sessions[key].workerSessionId == payload.sessionId
    || (s.sessions[key].caseId == payload.caseId
        && forall k :: k in s.sessions ==> s.sessions[k].workerSessionId != payload.sessionId)
  }

  /** A reply passes the lookup exactly when it comes from the pane and window of a session that is meant, has not
      ended, and knows no other worker. */
  lemma LookupPassesIff(s: State, body: Body, key: Key)
    requires key in s.sessions
    ensures var e, session, p := HandlerStep(s, body, Resolving, Found(Some(key))), s.sessions[key], body.payload;
            (e.phase == Checking(session, key) <==>
               && IsMeant(s, p, key)
               && session.workerSessionId in {"", p.sessionId} && session.paneId == p.paneId
               && session.windowName == p.windowName && session.status !in {Error, Killed})
            && (IsMeant(s, p, key) && e.phase != Checking(session, key) ==>
                  e.phase.Failing? && e.phase.error ==
                    if session.workerSessionId !in {"", p.sessionId} then "stale_session"
                    else if session.paneId != p.paneId then "stale_pane"
                    else if session.windowName != p.windowName then "stale_window"
                    else "session_terminal")
  {
    MeantIff(s, body.payload, key);
  }

  lemma MeantIff(s: State, payload: Payload, key: Key)
    requires key in s.sessions
    ensures IsMeant(s, payload, key) <==> IsResolution(s.sessions, payload, Some(key))
  {
    var byWorker := set k | k in s.sessions && s.sessions[k].workerSessionId == payload.sessionId;
    assert byWorker == {} <==> forall k :: k in s.sessions ==> k !in byWorker;
  }

  /** Without any session of the worker or the case, and only then, the reply fails for that. */
  lemma NobodyIsMeantIff(s: State, body: Body)
    ensures HandlerStep(s, body, Resolving, Found(None)).phase == Failing("case_not_found") <==>
              forall k :: k in s.sessions ==>
                s.sessions[k].workerSessionId != body.payload.sessionId && s.sessions[k].caseId != body.payload.caseId
  {
    var p := body.payload;
    var byWorker := set k | k in s.sessions && s.sessions[k].workerSessionId == p.sessionId;
    var byCase := set k | k in s.sessions && s.sessions[k].caseId == p.caseId;
    assert byWorker == {} <==> forall k :: k in s.sessions ==> k !in byWorker;
    assert byCase == {} <==> forall k :: k in s.sessions ==> k !in byCase;
  }

  /** A reply passes the check of its turn exactly when the turn is the session's open one; for a cancelled turn of the
      session it is to be discarded; for any other it is stale. */
  lemma TurnPassesIff(s: State, body: Body, session: SessionRow, key: Key, choice: Choice)
    ensures var next, turn := HandlerStep(s, body, Checking(session, key), choice).phase, body.payload.turnId;
            var own := turn in s.turns && s.turns[turn].sessionKey == key;
            var cancelled := own && s.turns[turn].completionAction == Some("cancelled");
            && (next.Discarding? <==> cancelled)
            && (next.Reloading? <==>
                  own && !cancelled && s.turns[turn].completedAt.None? && session.status in {Busy, Waiting}
                  && session.activeTurn == Some(turn))
            && (!next.Discarding? && !next.Reloading? ==> next == Failing("stale_turn"))
            && (next.Discarding? || next.Reloading? ==> next.attempt == s.turns[turn])
  {
  }

  // ---------------------------------------------------------------- a reply that is refused

  /** The checks of a handler, from the session it looks up to the turn it claims. */
  predicate Checks(phase: Phase) {
    phase.Resolving? || phase.Checking? || phase.Reloading? || phase.Claimable?
  }

  lemma {:induction false} LookupRefusal(s: State, body: Body, choice: Choice)
    ensures var next := HandlerStep(s, body, Resolving, choice).phase;
            next.Failing? ==> next.error in TERMINAL_REPLY_ERRORS
  {
  }

  lemma {:induction false} CheckRefusal(s: State, body: Body, phase: Phase, choice: Choice)
    requires phase.Checking? || phase.Reloading? || phase.Claimable?
    ensures var next := HandlerStep(s, body, phase, choice).phase;
            next.Failing? ==> next.error in TERMINAL_REPLY_ERRORS
  {
  }

  lemma TerminalErrorCloses(replies: Replies, request: RequestId, error: string, now: nat)
    requires request in replies && error in TERMINAL_REPLY_ERRORS
    ensures var after := MarkReplyFailed(replies, request, error, now);
            && after[request].lastError == Some(error)
            && (replies[request].status == Received ==> after[request].status == ReplyFailed)
            && (replies[request].status in {Received, ReplyFailed, Posted} ==> ClosedForGood(after, request))
  {
  }

  /** A handler that fails one of its checks ends its reply for good: once it has recorded that, no retry under the
      request id is granted, by anyone and at any time. */
  lemma RefusedReplyIsClosed(run: seq<Action>, h: HandlerId, choice: Choice, choice2: Choice)
    requires h in Exec(run).handlers && Checks(Exec(run).handlers[h].phase)
    requires var Handler(body, phase) := Exec(run).handlers[h];
             && HandlerStep(Exec(run), body, phase, choice).phase.Failing?
             && body.request in Exec(run).replies && Exec(run).replies[body.request].status == Received
    ensures var t, request := Exec(run + [Step(h, choice)] + [Step(h, choice2)]), Exec(run).handlers[h].body.request;
            && request in t.replies && t.replies[request].status == ReplyFailed && ClosedForGood(t.replies, request)
            && h in t.handlers && t.handlers[h].phase.Finished? && t.log == Exec(run).log
  {
    var s := Exec(run);
    var Handler(body, phase) := s.handlers[h];
    ExecSnoc(run, Step(h, choice));
    ExecSnoc(run + [Step(h, choice)], Step(h, choice2));
    if phase.Resolving? {
      LookupRefusal(s, body, choice);
    } else {
      CheckRefusal(s, body, phase, choice);
    }
    CheckLeavesTables(s, body, phase, choice);
    TerminalErrorCloses(s.replies, body.request, HandlerStep(s, body, phase, choice).phase.error, s.now);
    assert s.log + [] == s.log;
  }

  lemma {:induction false} CheckLeavesTables(s: State, body: Body, phase: Phase, choice: Choice)
    requires Checks(phase)
    ensures HandlerStep(s, body, phase, choice).replies == s.replies && HandlerStep(s, body, phase, choice).calls == []
  {
    match phase
    case Resolving =>
    case Checking(_, _) =>
    case Reloading(_, _, _) =>
    case _ =>
  }

  /** A reply to a cancelled turn whose discard was announced before ends without a call, and for good. */
  lemma CancelledReplyIsDiscarded(run: seq<Action>, h: HandlerId, c1: Choice, c2: Choice, c3: Choice)
    requires h in Exec(run).handlers && Exec(run).handlers[h].phase.Checking?
    requires var s := Exec(run);
             var Handler(body, phase) := s.handlers[h];
             && body.request in s.replies && s.replies[body.request].status == Received
             && body.payload.turnId in s.turns
             && s.turns[body.payload.turnId].sessionKey == phase.key
             && s.turns[body.payload.turnId].completionAction == Some("cancelled")
             && s.turns[body.payload.turnId].discardNotifiedAt.Some?
    ensures var t, request := Exec(run + [Step(h, c1)] + [Step(h, c2)] + [Step(h, c3)]),
            Exec(run).handlers[h].body.request;
            && request in t.replies && t.replies[request].status == ReplyFailed
            && t.replies[request].lastError == Some("discarded_cancelled") && ClosedForGood(t.replies, request)
            && t.log == Exec(run).log && h in t.handlers && t.handlers[h].phase.Finished?
  {
    var s := Exec(run);
    var Handler(body, phase) := s.handlers[h];
    var run1, run2 := run + [Step(h, c1)], run + [Step(h, c1)] + [Step(h, c2)];
    var attempt := s.turns[body.payload.turnId];
    ExecSnoc(run, Step(h, c1));
    TurnPassesIff(s, body, phase.session, phase.key, c1);
    CheckLeavesTables(s, body, phase, c1);
    var s1 := Exec(run1);
    assert s.log + [] == s.log;
    assert s1.handlers[h] == Handler(body, Discarding(attempt)) && s1.replies == s.replies && s1.log == s.log;
    NotifiedDiscardEnds(run1, s1, h, body, attempt, c2, c3);
  }

  lemma NotifiedDiscardEnds(run: seq<Action>, s: State, h: HandlerId, body: Body, attempt: TurnRow, c2: Choice,
                            c3: Choice)
    requires Exec(run) == s && h in s.handlers && s.handlers[h] == Handler(body, Discarding(attempt))
    requires attempt.discardNotifiedAt.Some? && body.request in s.replies && s.replies[body.request].status == Received
    ensures var t, request := Exec(run + [Step(h, c2)] + [Step(h, c3)]), body.request;
            && request in t.replies && t.replies[request].status == ReplyFailed
            && t.replies[request].lastError == Some("discarded_cancelled") && ClosedForGood(t.replies, request)
            && t.log == s.log && h in t.handlers && t.handlers[h].phase.Finished?
  {
    ExecSnoc(run, Step(h, c2));
    ExecSnoc(run + [Step(h, c2)], Step(h, c3));
    assert s.log + [] == s.log;
    TerminalErrorCloses(s.replies, body.request, "discarded_cancelled", s.now);
  }

  // ---------------------------------------------------------------- errors in rows

  /** A row in progress carries no error; one that failed, or whose delivery is unknown, carries one. */
  predicate ErrorFits(row: ReplyRow) {
    && (row.status == Received ==> row.lastError.None?)
    && (row.status in {ReplyFailed, PostedUnknown} ==> row.lastError.Some?)
  }

  ghost predicate ErrorsFit(replies: Replies) {
    forall r :: r in replies ==> ErrorFits(replies[r])
  }

  lemma {:induction false} StepKeepsErrors(s: State, body: Body, phase: Phase, choice: Choice)
    requires ErrorsFit(s.replies)
    ensures ErrorsFit(HandlerStep(s, body, phase, choice).replies)
  {
    if phase.Resolving? || phase.Checking? || phase.Reloading? || phase.Claimable? {
      CheckLeavesTables(s, body, phase, choice);
    }
  }

  /** In every run, what the error column says fits the status. */
  lemma {:induction false} EveryErrorFits(run: seq<Action>)
    ensures ErrorsFit(Exec(run).replies)
  {
    if run != [] {
      var before, a := run[..|run| - 1], run[|run| - 1];
      EveryErrorFits(before);
      if a.Step? && a.handler in Exec(before).handlers {
        var Handler(body, phase) := Exec(before).handlers[a.handler];
        StepKeepsErrors(Exec(before), body, phase, a.choice);
      }
    }
  }
}
