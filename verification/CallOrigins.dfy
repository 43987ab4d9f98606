/** What stands behind each Slack call of a reply: the checks its handler passed, and for a note the slot it was
    given. */
module CallOrigins {
  import opened Wrappers
  import opened SessionStatus
  import opened ReplyLedger
  import opened ReplyProtocol
  import ReplyDelivery
  import TurnClaims
  import SlackCalls

  // ---------------------------------------------------------------- what happened in a run

  /** The state in which action i of the run was taken. */
  function At(run: seq<Action>, i: nat): (s: State)
    requires i <= |run|
  {
    Exec(run[..i])
  }

  predicate Stands(s: State, h: HandlerId, body: Body, phase: Phase) {
    h in s.handlers && s.handlers[h] == Handler(body, phase)
  }

  /** The handler was given its slot before so many calls were made. */
  ghost predicate SlotGiven(run: seq<Action>, h: HandlerId, body: Body, calls: nat) {
    exists i :: 0 <= i < |run| && run[i] == Step(h, Slot(true)) && Stands(At(run, i), h, body, TurnHeld)
                && |At(run, i).log| <= calls
  }

  /** The session that a handler loads again before it claims the turn. */
  function Loaded(s: State, phase: Phase): (session: SessionRow)
    requires phase.Reloading?
  {
    if phase.key in s.sessions then s.sessions[phase.key] else phase.session
  }

  /** The reply comes from the session's worker, pane and window, and the session is working on its turn, which was
      opened for it and has not ended. */
  predicate Entitled(body: Body, phase: Phase, session: SessionRow)
    requires phase.Reloading?
  {
    var payload := body.payload;
    && session.workerSessionId in {"", payload.sessionId}
    && session.paneId == payload.paneId && session.windowName == payload.windowName
    && session.activeTurn == Some(payload.turnId) && session.status in {Busy, Waiting}
    && phase.attempt.sessionKey == phase.key && phase.attempt.completedAt.None?
    && phase.attempt.completionAction != Some("cancelled")
  }

  /** The handler was found entitled before so many calls were made. */
  ghost predicate Checked(run: seq<Action>, h: HandlerId, body: Body, calls: nat) {
    exists i, phase: Phase ::
      0 <= i < |run| && run[i].Step? && run[i].handler == h && phase.Reloading?
      && Stands(At(run, i), h, body, phase) && Entitled(body, phase, Loaded(At(run, i), phase))
      && |At(run, i).log| <= calls
  }

  predicate CallFits(call: Call, body: Body) {
    && call.request == body.request && call.turn == body.payload.turnId && call.final == Substantive(body.payload)
    && call.part < |PartsOf(body.payload)| && call.text == PartsOf(body.payload)[call.part]
  }

  // ---------------------------------------------------------------- what a handler has behind it

  /** What the phase of a handler says about its past. */
  ghost predicate Origin(run: seq<Action>, h: HandlerId, handler: Handler, calls: nat) {
    var Handler(body, phase) := handler;
    && (phase.Reloading? ==> phase.attempt.completionAction != Some("cancelled"))
    && (phase.Claimable? || phase.TurnHeld? || phase.Sending? ==> Checked(run, h, body, calls))
    && (phase.Sending? && !Substantive(body.payload) ==> SlotGiven(run, h, body, calls))
  }

  /** A call has a handler behind it that passed what it had to pass. */
  ghost predicate Backed(run: seq<Action>, k: nat, call: Call) {
    exists h, body :: CallFits(call, body) && Checked(run, h, body, k)
                      && (!Substantive(body.payload) ==> SlotGiven(run, h, body, k))
  }

  ghost predicate HandlersBacked(run: seq<Action>) {
    forall h :: h in Exec(run).handlers ==> Origin(run, h, Exec(run).handlers[h], |Exec(run).log|)
  }

  ghost predicate LogBacked(run: seq<Action>, log: seq<Call>) {
    forall k :: 0 <= k < |log| ==> Backed(run, k, log[k])
  }

  ghost predicate CallsBacked(run: seq<Action>) {
    LogBacked(run, Exec(run).log)
  }

  lemma LaterStillGiven(run: seq<Action>, a: Action, h: HandlerId, body: Body, calls: nat, more: nat)
    requires SlotGiven(run, h, body, calls) && calls <= more
    ensures SlotGiven(run + [a], h, body, more)
  {
    var i :| 0 <= i < |run| && run[i] == Step(h, Slot(true)) && Stands(At(run, i), h, body, TurnHeld)
             && |At(run, i).log| <= calls;
    assert (run + [a])[..i] == run[..i] && (run + [a])[i] == run[i];
    assert At(run + [a], i) == At(run, i);
  }

  lemma LaterStillChecked(run: seq<Action>, a: Action, h: HandlerId, body: Body, calls: nat, more: nat)
    requires Checked(run, h, body, calls) && calls <= more
    ensures Checked(run + [a], h, body, more)
  {
    var i, phase: Phase :|
      0 <= i < |run| && run[i].Step? && run[i].handler == h && phase.Reloading?
      && Stands(At(run, i), h, body, phase) && Entitled(body, phase, Loaded(At(run, i), phase))
      && |At(run, i).log| <= calls;
    assert (run + [a])[..i] == run[..i] && (run + [a])[i] == run[i];
    assert At(run + [a], i) == At(run, i);
  }

  lemma LaterStillBacked(run: seq<Action>, a: Action, k: nat, call: Call)
    requires Backed(run, k, call)
    ensures Backed(run + [a], k, call)
  {
    var h, body :| CallFits(call, body) && Checked(run, h, body, k)
                   && (!Substantive(body.payload) ==> SlotGiven(run, h, body, k));
    LaterStillChecked(run, a, h, body, k, k);
    if !Substantive(body.payload) {
      LaterStillGiven(run, a, h, body, k, k);
    }
  }

  lemma LaterOrigin(run: seq<Action>, a: Action, h: HandlerId, handler: Handler, calls: nat, more: nat)
    requires Origin(run, h, handler, calls) && calls <= more
    ensures Origin(run + [a], h, handler, more)
  {
    var Handler(body, phase) := handler;
    if phase.Claimable? || phase.TurnHeld? || phase.Sending? {
      LaterStillChecked(run, a, h, body, calls, more);
    }
    if phase.Sending? && !Substantive(body.payload) {
      LaterStillGiven(run, a, h, body, calls, more);
    }
  }

  // ---------------------------------------------------------------- one step

  /** The check that a step in Reloading makes. */
  lemma {:induction false} ReloadChecks(s: State, body: Body, phase: Phase, choice: Choice)
    requires phase.Reloading? && phase.attempt.completionAction != Some("cancelled")
    ensures var e := HandlerStep(s, body, phase, choice);
            && e.calls == []
            && (if Entitled(body, phase, Loaded(s, phase)) then e.phase == Claimable else e.phase.Failing?)
  {
  }

  lemma {:induction false} CheckLeadsOn(s: State, body: Body, phase: Phase, choice: Choice)
    requires phase.Arrived? || phase.Resolving? || phase.Checking? || phase.Discarding?
    ensures var e := HandlerStep(s, body, phase, choice);
            && e.calls == [] && !e.phase.Claimable? && !e.phase.TurnHeld? && !e.phase.Sending?
            && (e.phase.Reloading? ==> e.phase.attempt.completionAction != Some("cancelled"))
  {
  }

  lemma {:induction false} HoldLeadsOn(s: State, body: Body, phase: Phase, choice: Choice)
    requires phase.Claimable? || phase.TurnHeld?
    ensures var e := HandlerStep(s, body, phase, choice);
            && e.calls == [] && !e.phase.Reloading? && !e.phase.Claimable?
            && (e.phase.Sending? ==> phase.TurnHeld? && (Substantive(body.payload) || choice == Slot(true)))
  {
  }

  lemma {:induction false} SendingLeadsOn(s: State, body: Body, phase: Phase, choice: Choice)
    requires phase.Sending?
    ensures var e := HandlerStep(s, body, phase, choice);
            && |e.calls| <= 1 && (e.calls != [] ==> CallFits(e.calls[0], body))
            && !e.phase.Reloading? && !e.phase.Claimable? && !e.phase.TurnHeld?
  {
  }

  lemma {:induction false} EndLeadsOn(s: State, body: Body, phase: Phase, choice: Choice)
    requires phase.Failing? || phase.SentOk? || phase.SentUnknown? || phase.SentNothing? || phase.Settled?
             || phase.NoteRecorded? || phase.Finished?
    ensures var e := HandlerStep(s, body, phase, choice);
            && e.calls == []
            && !e.phase.Reloading? && !e.phase.Claimable? && !e.phase.TurnHeld? && !e.phase.Sending?
  {
  }

  /** After its step the handler has behind it what its new phase says. */
  lemma StepOrigin(run: seq<Action>, h: HandlerId, choice: Choice)
    requires h in Exec(run).handlers && Origin(run, h, Exec(run).handlers[h], |Exec(run).log|)
    ensures var s := Exec(run);
            var Handler(body, phase) := s.handlers[h];
            Origin(run + [Step(h, choice)], h, Handler(body, HandlerStep(s, body, phase, choice).phase), |s.log|)
  {
    var s, longer := Exec(run), run + [Step(h, choice)];
    var Handler(body, phase) := s.handlers[h];
    LaterOrigin(run, Step(h, choice), h, Handler(body, phase), |s.log|, |s.log|);
    assert longer[..|run|] == run && longer[|run|] == Step(h, choice);
    assert At(longer, |run|) == s && Stands(s, h, body, phase);
    if phase.Arrived? || phase.Resolving? || phase.Checking? || phase.Discarding? {
      CheckLeadsOn(s, body, phase, choice);
    } else if phase.Reloading? {
      ReloadChecks(s, body, phase, choice);
    } else if phase.Claimable? || phase.TurnHeld? {
      HoldLeadsOn(s, body, phase, choice);
    } else if phase.Sending? {
      SendingLeadsOn(s, body, phase, choice);
    } else {
      EndLeadsOn(s, body, phase, choice);
    }
  }

  /** A step makes at most one call, and only a posting handler makes it. */
  lemma {:induction false} OnlyPostsCall(s: State, body: Body, phase: Phase, choice: Choice)
    ensures var calls := HandlerStep(s, body, phase, choice).calls;
            |calls| <= 1 && (calls != [] ==> phase.Sending? && CallFits(calls[0], body))
  {
    TurnClaims.OneCall(s, body, phase, choice);
    if phase.Sending? {
      SendingLeadsOn(s, body, phase, choice);
    }
  }

  lemma StepKeepsHandlersBacked(run: seq<Action>, h: HandlerId, choice: Choice)
    requires HandlersBacked(run) && h in Exec(run).handlers
    ensures HandlersBacked(run + [Step(h, choice)])
  {
    var a := Step(h, choice);
    var s, t, longer := Exec(run), Next(Exec(run), a), run + [a];
    ExecSnoc(run, a);
    var Handler(body, phase) := s.handlers[h];
    StepOrigin(run, h, choice);
    OneMoreOrigin(longer, h, Handler(body, HandlerStep(s, body, phase, choice).phase), |s.log|, |t.log|);
    forall g | g in t.handlers ensures Origin(longer, g, t.handlers[g], |t.log|) {
      if g != h {
        LaterOrigin(run, a, g, s.handlers[g], |s.log|, |t.log|);
      }
    }
  }

  lemma StepKeepsCallsBacked(run: seq<Action>, h: HandlerId, choice: Choice)
    requires HandlersBacked(run) && CallsBacked(run) && h in Exec(run).handlers
    ensures CallsBacked(run + [Step(h, choice)])
  {
    var s := Exec(run);
    var Handler(body, phase) := s.handlers[h];
    var a, calls := Step(h, choice), HandlerStep(s, body, phase, choice).calls;
    ExecSnoc(run, a);
    OnlyPostsCall(s, body, phase, choice);
    LogStaysBacked(run, a, s.log);
    if calls != [] {
      LastCallBacked(run, a, h, calls[0]);
    }
    OneMoreBacked(run + [a], s.log, calls);
  }

  lemma LogStaysBacked(run: seq<Action>, a: Action, log: seq<Call>)
    requires LogBacked(run, log)
    ensures LogBacked(run + [a], log)
  {
    forall k | 0 <= k < |log| ensures Backed(run + [a], k, log[k]) {
      LaterStillBacked(run, a, k, log[k]);
    }
  }

  lemma OneMoreBacked(run: seq<Action>, log: seq<Call>, calls: seq<Call>)
    requires LogBacked(run, log) && |calls| <= 1 && (calls != [] ==> Backed(run, |log|, calls[0]))
    ensures LogBacked(run, log + calls)
  {
  }

  lemma LastCallBacked(run: seq<Action>, a: Action, h: HandlerId, call: Call)
    requires HandlersBacked(run) && h in Exec(run).handlers && Exec(run).handlers[h].phase.Sending?
    requires CallFits(call, Exec(run).handlers[h].body)
    ensures Backed(run + [a], |Exec(run).log|, call)
  {
    var s := Exec(run);
    LaterOrigin(run, a, h, s.handlers[h], |s.log|, |s.log|);
    assert Checked(run + [a], h, s.handlers[h].body, |s.log|);
  }

  /** More calls may have been made since. */
  lemma OneMoreOrigin(run: seq<Action>, h: HandlerId, handler: Handler, calls: nat, more: nat)
    requires Origin(run, h, handler, calls) && calls <= more
    ensures Origin(run, h, handler, more)
  {
  }

  lemma EnvironmentKeepsBacked(run: seq<Action>, a: Action)
    requires HandlersBacked(run) && CallsBacked(run) && !(a.Step? && a.handler in Exec(run).handlers)
    ensures HandlersBacked(run + [a]) && CallsBacked(run + [a])
  {
    var s, t := Exec(run), Next(Exec(run), a);
    ExecSnoc(run, a);
    EnvironmentMoves(s, a);
    forall g | g in t.handlers ensures Origin(run + [a], g, t.handlers[g], |t.log|) {
      if g in s.handlers && t.handlers[g] == s.handlers[g] {
        LaterOrigin(run, a, g, s.handlers[g], |s.log|, |t.log|);
      }
    }
    LogStaysBacked(run, a, s.log);
  }

  /** Otherwise handlers only appear or end. */
  lemma EnvironmentMoves(s: State, a: Action)
    requires !(a.Step? && a.handler in s.handlers)
    ensures Next(s, a).log == s.log
    ensures forall g :: g in Next(s, a).handlers ==>
              || (g in s.handlers && Next(s, a).handlers[g] == s.handlers[g])
              || Next(s, a).handlers[g].phase.Arrived? || Next(s, a).handlers[g].phase.Finished?
  {
  }

  lemma {:induction false} RunBacks(run: seq<Action>)
    ensures HandlersBacked(run) && CallsBacked(run)
  {
    if run != [] {
      var before, a := run[..|run| - 1], run[|run| - 1];
      assert before + [a] == run;
      RunBacks(before);
      if a.Step? && a.handler in Exec(before).handlers {
        StepKeepsHandlersBacked(before, a.handler, a.choice);
        StepKeepsCallsBacked(before, a.handler, a.choice);
      } else {
        EnvironmentKeepsBacked(before, a);
      }
    }
  }

  /** In every run, behind every Slack call there is a handler with that reply which, before the call, found the reply
      to come from the worker, pane and window of the session that is working on its turn; and which, for a note, was
      given one of the slots of the day. */
  lemma EveryCallIsBacked(run: seq<Action>, k: nat) returns (h: HandlerId, body: Body)
    requires k < |Exec(run).log|
    ensures CallFits(Exec(run).log[k], body) && Checked(run, h, body, k)
    ensures !Exec(run).log[k].final ==> SlotGiven(run, h, body, k)
  {
    RunBacks(run);
    assert Backed(run, k, Exec(run).log[k]);
    h, body :| CallFits(Exec(run).log[k], body) && Checked(run, h, body, k)
               && (!Substantive(body.payload) ==> SlotGiven(run, h, body, k));
  }

  // ---------------------------------------------------------------- a note without a slot

  /** The handler of a note was refused its slot. */
  ghost predicate SlotRefused(run: seq<Action>, h: HandlerId, body: Body) {
    !Substantive(body.payload)
    && exists i :: 0 <= i < |run| && run[i] == Step(h, Slot(false)) && Stands(At(run, i), h, body, TurnHeld)
  }

  predicate NoCall(run: seq<Action>, i: nat)
    requires i < |run|
  {
    At(run, i + 1).log == At(run, i).log
  }

  /** No step of the handler has made a call. */
  ghost predicate Silent(run: seq<Action>, h: HandlerId) {
    forall i :: 0 <= i < |run| && run[i].Step? && run[i].handler == h ==> NoCall(run, i)
  }

  /** Where a handler stands before it posts. */
  predicate Early(phase: Phase) {
    || phase.Arrived? || phase.Resolving? || phase.Checking? || phase.Discarding? || phase.Reloading?
    || phase.Claimable? || phase.TurnHeld?
  }

  /** Where it stands after a refusal. */
  predicate HeldBack(phase: Phase) {
    phase == SentOk("") || phase.Settled? || phase.NoteRecorded? || phase.Finished?
  }

  lemma SilentSnoc(run: seq<Action>, a: Action, h: HandlerId)
    requires Silent(run, h) && (a.Step? && a.handler == h ==> Next(Exec(run), a).log == Exec(run).log)
    ensures Silent(run + [a], h)
  {
    var longer := run + [a];
    forall i | 0 <= i < |longer| && longer[i].Step? && longer[i].handler == h ensures NoCall(longer, i) {
      if i < |run| {
        assert longer[i] == run[i] && NoCall(run, i);
        NoCallPrefix(run, a, i);
      } else {
        AtEnd(run, a);
      }
    }
  }

  lemma NoCallPrefix(run: seq<Action>, a: Action, i: nat)
    requires i < |run| && NoCall(run, i)
    ensures NoCall(run + [a], i)
  {
    AtPrefix(run, a, i);
    AtPrefix(run, a, i + 1);
  }

  lemma AtPrefix(run: seq<Action>, a: Action, i: nat)
    requires i <= |run|
    ensures At(run + [a], i) == At(run, i)
  {
    assert (run + [a])[..i] == run[..i];
  }

  lemma AtEnd(run: seq<Action>, a: Action)
    ensures At(run + [a], |run|) == Exec(run) && At(run + [a], |run| + 1) == Next(Exec(run), a)
  {
    assert (run + [a])[..|run|] == run && (run + [a])[..|run| + 1] == run + [a];
    ExecSnoc(run, a);
  }

  lemma RefusedBefore(run: seq<Action>, a: Action, h: HandlerId, body: Body)
    requires SlotRefused(run + [a], h, body)
    ensures SlotRefused(run, h, body) || (a == Step(h, Slot(false)) && Stands(Exec(run), h, body, TurnHeld))
  {
    var longer := run + [a];
    var i :| 0 <= i < |longer| && longer[i] == Step(h, Slot(false)) && Stands(At(longer, i), h, body, TurnHeld);
    if i < |run| {
      assert longer[..i] == run[..i] && longer[i] == run[i];
      assert At(run, i) == At(longer, i);
    } else {
      assert longer[..i] == run;
    }
  }

  lemma RefusedLater(run: seq<Action>, a: Action, h: HandlerId, body: Body)
    requires SlotRefused(run, h, body)
    ensures SlotRefused(run + [a], h, body)
  {
    var i :| 0 <= i < |run| && run[i] == Step(h, Slot(false)) && Stands(At(run, i), h, body, TurnHeld);
    assert (run + [a])[..i] == run[..i] && (run + [a])[i] == run[i];
    assert At(run + [a], i) == At(run, i);
  }

  /** Nothing leads back to the phases before the post, and they make no calls. */
  lemma EarlyIsFirst(s: State, body: Body, phase: Phase, choice: Choice)
    ensures Early(HandlerStep(s, body, phase, choice).phase) ==> Early(phase)
    ensures Early(phase) ==> HandlerStep(s, body, phase, choice).calls == []
  {
    if Early(phase) {
      TurnClaims.OneCall(s, body, phase, choice);
    } else if phase.Sending? {
      SendingLeadsOn(s, body, phase, choice);
      PostsLeadOn(s, body, phase, choice);
    } else {
      EndLeadsOn(s, body, phase, choice);
      LateLeadsOn(s, body, phase, choice);
    }
  }

  lemma {:induction false} PostsLeadOn(s: State, body: Body, phase: Phase, choice: Choice)
    requires phase.Sending?
    ensures !Early(HandlerStep(s, body, phase, choice).phase)
  {
  }

  lemma {:induction false} LateLeadsOn(s: State, body: Body, phase: Phase, choice: Choice)
    requires !Early(phase) && !phase.Sending?
    ensures !Early(HandlerStep(s, body, phase, choice).phase)
  {
  }

  /** From a refusal on, the handler only records the end. */
  lemma {:induction false} HeldBackStays(s: State, body: Body, phase: Phase, choice: Choice)
    requires HeldBack(phase)
    ensures HeldBack(HandlerStep(s, body, phase, choice).phase) && HandlerStep(s, body, phase, choice).calls == []
    ensures HandlerStep(s, body, phase, choice).phase.SentOk? ==> phase.SentOk?
  {
  }

  lemma {:induction false} RefusalHoldsBack(s: State, body: Body)
    requires !Substantive(body.payload)
    ensures HandlerStep(s, body, TurnHeld, Slot(false)) == Effect(s.replies, s.turns, SentOk(""), [])
  {
  }

  /** The handler has made no call, and if it was refused it goes on to record the end. */
  ghost predicate QuietSoFar(run: seq<Action>, h: HandlerId) {
    && (h !in Exec(run).handlers || Early(Exec(run).handlers[h].phase) ==> Silent(run, h))
    && forall body :: SlotRefused(run, h, body) ==>
         Silent(run, h) && h in Exec(run).handlers && Exec(run).handlers[h].body == body
         && HeldBack(Exec(run).handlers[h].phase)
  }

  lemma OwnStepQuiet(run: seq<Action>, h: HandlerId, choice: Choice)
    requires QuietSoFar(run, h) && h in Exec(run).handlers
    ensures QuietSoFar(run + [Step(h, choice)], h)
  {
    var s, a := Exec(run), Step(h, choice);
    var Handler(body, phase) := s.handlers[h];
    ExecSnoc(run, a);
    EarlyIsFirst(s, body, phase, choice);
    assert s.log + [] == s.log;
    if Early(phase) {
      SilentSnoc(run, a, h);
    }
    forall b | SlotRefused(run + [a], h, b)
      ensures Silent(run + [a], h) && b == body && HeldBack(HandlerStep(s, body, phase, choice).phase)
    {
      RefusedBefore(run, a, h, b);
      if SlotRefused(run, h, b) {
        HeldBackStays(s, body, phase, choice);
        SilentSnoc(run, a, h);
      } else {
        RefusalHoldsBack(s, body);
      }
    }
  }

  lemma OtherStepQuiet(run: seq<Action>, a: Action, h: HandlerId)
    requires QuietSoFar(run, h) && !(a.Step? && a.handler == h && h in Exec(run).handlers)
    ensures QuietSoFar(run + [a], h)
  {
    var s, t := Exec(run), Next(Exec(run), a);
    ExecSnoc(run, a);
    OtherMoves(s, a, h);
    if Silent(run, h) {
      SilentSnoc(run, a, h);
    }
    forall b | SlotRefused(run + [a], h, b)
      ensures Silent(run + [a], h) && h in t.handlers && t.handlers[h].body == b && HeldBack(t.handlers[h].phase)
    {
      RefusedBefore(run, a, h, b);
    }
  }

  /** What others do to a handler: nothing, or it appears or ends. */
  lemma OtherMoves(s: State, a: Action, h: HandlerId)
    requires !(a.Step? && a.handler == h && h in s.handlers)
    ensures var t := Next(s, a);
            && (h in s.handlers ==> h in t.handlers && t.handlers[h].body == s.handlers[h].body
                                    && (t.handlers[h] == s.handlers[h] || t.handlers[h].phase.Finished?))
            && (h !in s.handlers && h in t.handlers ==> t.handlers[h].phase.Arrived?)
            && (a.Step? && a.handler == h ==> t == s)
  {
  }

  lemma {:induction false} RunIsQuiet(run: seq<Action>, h: HandlerId)
    ensures QuietSoFar(run, h)
  {
    if run != [] {
      var before, a := run[..|run| - 1], run[|run| - 1];
      assert before + [a] == run;
      RunIsQuiet(before, h);
      if a.Step? && a.handler == h && h in Exec(before).handlers {
        OwnStepQuiet(before, h, a.choice);
      } else {
        OtherStepQuiet(before, a, h);
      }
    }
  }

  /** A handler that was refused its slot makes no call, whatever happens before and after; and it ends by recording
      the note. */
  lemma RefusedNoteIsSilent(run: seq<Action>, h: HandlerId, body: Body)
    requires SlotRefused(run, h, body)
    ensures Silent(run, h) && h in Exec(run).handlers && HeldBack(Exec(run).handlers[h].phase)
  {
    RunIsQuiet(run, h);
  }

  // ---------------------------------------------------------------- what a recorded note shows

  /** The step of another handler concerns another reply, as long as this one owns its row. */
  lemma OthersCallElsewhere(s: State, a: Action, h: HandlerId)
    requires ReplyDelivery.OneOwner(s) && h in s.handlers && Holds(s.handlers[h].phase)
    requires !(a.Step? && a.handler == h)
    ensures Delivered(Next(s, a).log, s.handlers[h].body.request) == Delivered(s.log, s.handlers[h].body.request)
  {
    if a.Step? && a.handler in s.handlers {
      var g := a.handler;
      var Handler(body, phase) := s.handlers[g];
      OnlyPostsCall(s, body, phase, a.choice);
      ReplyDelivery.DeliveredAfter(s.log, HandlerStep(s, body, phase, a.choice).calls, s.handlers[h].body.request);
      assert phase.Sending? ==> body.request != s.handlers[h].body.request;
    }
  }

  /** What was delivered for a reply whose post has ended well: nothing if its slot was refused, all parts otherwise. */
  ghost predicate ShownIffGranted(run: seq<Action>, h: HandlerId) {
    var s := Exec(run);
    h in s.handlers && s.handlers[h].phase.SentOk? ==>
      var body := s.handlers[h].body;
      ShownAs(Delivered(s.log, body.request), body, s.handlers[h].phase.replyTs, SlotRefused(run, h, body))
  }

  /** Nothing, or all parts, the last with this timestamp. */
  predicate ShownAs(calls: seq<Call>, body: Body, replyTs: string, refused: bool) {
    && |calls| == (if refused then 0 else |PartsOf(body.payload)|)
    && (calls != [] ==> calls[|calls| - 1].response == SlackCalls.Posted(replyTs))
  }

  lemma SameRefusal(run: seq<Action>, a: Action, h: HandlerId, body: Body)
    requires a != Step(h, Slot(false)) || !Stands(Exec(run), h, body, TurnHeld)
    ensures SlotRefused(run + [a], h, body) <==> SlotRefused(run, h, body)
  {
    if SlotRefused(run, h, body) {
      RefusedLater(run, a, h, body);
    }
    if SlotRefused(run + [a], h, body) {
      RefusedBefore(run, a, h, body);
    }
  }

  lemma OthersKeepShown(run: seq<Action>, a: Action, h: HandlerId)
    requires ReplyDelivery.Inv(Exec(run)) && ShownIffGranted(run, h) && !(a.Step? && a.handler == h)
    ensures ShownIffGranted(run + [a], h)
  {
    var s := Exec(run);
    ExecSnoc(run, a);
    OtherMoves(s, a, h);
    if h in s.handlers && s.handlers[h].phase.SentOk? {
      OthersCallElsewhere(s, a, h);
      SameRefusal(run, a, h, s.handlers[h].body);
    }
  }

  /** The ways into SentOk: the last part was accepted, or the slot was refused. */
  lemma {:induction false} IntoSentOk(s: State, body: Body, phase: Phase, choice: Choice)
    requires HandlerStep(s, body, phase, choice).phase.SentOk?
    ensures || (phase.SentOk? && HandlerStep(s, body, phase, choice).calls == [])
            || (phase.TurnHeld? && !Substantive(body.payload) && choice == Slot(false))
            || (phase.Sending? && choice.Answer? && choice.response.Posted?)
  {
    if Early(phase) && !phase.TurnHeld? {
      EarlyDoesNotEnd(s, body, phase, choice);
    }
  }

  lemma {:induction false} EarlyDoesNotEnd(s: State, body: Body, phase: Phase, choice: Choice)
    requires Early(phase) && !phase.TurnHeld?
    ensures !HandlerStep(s, body, phase, choice).phase.SentOk?
  {
    match phase
    case Resolving =>
    case Checking(_, _) =>
    case Reloading(_, _, _) =>
    case _ =>
  }

  lemma OwnStepShown(run: seq<Action>, h: HandlerId, choice: Choice)
    requires ReplyDelivery.Inv(Exec(run)) && ShownIffGranted(run, h) && h in Exec(run).handlers
    requires QuietSoFar(run, h) && SlackStamps(Step(h, choice))
    ensures ShownIffGranted(run + [Step(h, choice)], h)
  {
    var s, a := Exec(run), Step(h, choice);
    var Handler(body, phase) := s.handlers[h];
    var e := HandlerStep(s, body, phase, choice);
    ExecSnoc(run, a);
    if e.phase.SentOk? {
      IntoSentOk(s, body, phase, choice);
      OnlyPostsCall(s, body, phase, choice);
      ReplyDelivery.DeliveredAfter(s.log, e.calls, body.request);
      assert ReplyDelivery.OwnerFits(s.replies, body, phase, Delivered(s.log, body.request));
      if phase.TurnHeld? {
        RefusedNow(run, h, body);
        RefusalHoldsBack(s, body);
      } else {
        SameRefusal(run, a, h, body);
        EndShown(s, body, phase, choice, Delivered(s.log, body.request), SlotRefused(run, h, body));
      }
    }
  }

  /** A handler that stays at the end, or comes there with its last part. */
  lemma EndShown(s: State, body: Body, phase: Phase, choice: Choice, calls: seq<Call>, refused: bool)
    requires phase.SentOk? || (phase.Sending? && choice.Answer? && choice.response.Posted? && choice.response.ts != "")
    requires HandlerStep(s, body, phase, choice).phase.SentOk?
    requires phase.SentOk? ==> ShownAs(calls, body, phase.replyTs, refused)
    requires phase.Sending? ==> !refused && ReplyDelivery.PhaseFits(phase, body.payload, calls)
    ensures var e := HandlerStep(s, body, phase, choice);
            ShownAs(calls + ReplyDelivery.Maybe(e.calls), body, e.phase.replyTs, refused)
  {
    if phase.Sending? {
      LastPartSent(s, body, phase, choice, calls);
    } else {
      assert calls + [] == calls;
    }
  }

  lemma RefusedNow(run: seq<Action>, h: HandlerId, body: Body)
    requires Stands(Exec(run), h, body, TurnHeld) && !Substantive(body.payload)
    ensures SlotRefused(run + [Step(h, Slot(false))], h, body)
  {
    AtEnd(run, Step(h, Slot(false)));
    assert (run + [Step(h, Slot(false))])[|run|] == Step(h, Slot(false));
  }

  /** When the last part is accepted, all have been. */
  lemma LastPartSent(s: State, body: Body, phase: Phase, choice: Choice, calls: seq<Call>)
    requires phase.Sending? && choice.Answer? && choice.response.Posted? && choice.response.ts != ""
    requires ReplyDelivery.PhaseFits(phase, body.payload, calls)
    requires HandlerStep(s, body, phase, choice).phase.SentOk?
    ensures var e := HandlerStep(s, body, phase, choice);
            var more := calls + ReplyDelivery.Maybe(e.calls);
            |more| == |PartsOf(body.payload)| && more[|more| - 1].response == SlackCalls.Posted(e.phase.replyTs)
  {
  }

  lemma {:induction false} RunShows(run: seq<Action>, h: HandlerId)
    requires Orderly(run)
    ensures ShownIffGranted(run, h)
  {
    if run != [] {
      var before, a := run[..|run| - 1], run[|run| - 1];
      assert before + [a] == run;
      OrderlyPrefix(run);
      RunShows(before, h);
      ReplyDelivery.RunKeepsInv(before);
      if a.Step? && a.handler == h && h in Exec(before).handlers {
        RunIsQuiet(before, h);
        OwnStepShown(before, h, a.choice);
      } else if a.Step? && a.handler == h {
        ExecSnoc(before, a);
      } else {
        OthersKeepShown(before, a, h);
      }
    }
  }

  /** In every orderly run, when a handler comes to record that its post ended well, the thread shows the whole reply,
      or nothing of a note whose slot was refused. If the write succeeds, the row is posted with the timestamp of the
      last part; if only the second attempt does, it is posted_unknown with that timestamp; if both fail, it stays. */
  lemma RecordedReplyShown(run: seq<Action>, h: HandlerId, primary: bool, fallback: bool) returns (t: State)
    requires Orderly(run) && h in Exec(run).handlers && Exec(run).handlers[h].phase.SentOk?
    ensures t == Next(Exec(run), Step(h, Write(primary, fallback))) && t.log == Exec(run).log
    ensures var Handler(body, phase) := Exec(run).handlers[h];
            && ShownAs(Delivered(t.log, body.request), body, phase.replyTs, SlotRefused(run, h, body))
            && body.request in Exec(run).replies && body.request in t.replies
            && var row := t.replies[body.request];
               if primary then row.status == Posted && row.replyTs == phase.replyTs && row.lastError == None
               else if fallback then row.status == PostedUnknown && row.replyTs == phase.replyTs
               else row == Exec(run).replies[body.request]
  {
    RunShows(run, h);
    ReplyDelivery.RunKeepsInv(run);
    PostedRowFits(Exec(run), h);
    WriteMarks(Exec(run), h, primary, fallback);
    t := Next(Exec(run), Step(h, Write(primary, fallback)));
  }

  lemma PostedRowFits(s: State, h: HandlerId)
    requires ReplyDelivery.OwnersFit(s) && h in s.handlers && s.handlers[h].phase.SentOk?
    ensures s.handlers[h].body.request in s.replies
  {
    var Handler(body, phase) := s.handlers[h];
    assert ReplyDelivery.OwnerFits(s.replies, body, phase, Delivered(s.log, body.request));
  }

  lemma WriteMarks(s: State, h: HandlerId, primary: bool, fallback: bool)
    requires h in s.handlers && s.handlers[h].phase.SentOk? && s.handlers[h].body.request in s.replies
    ensures var t := Next(s, Step(h, Write(primary, fallback)));
            var Handler(body, phase) := s.handlers[h];
            && t.log == s.log && body.request in t.replies
            && var row := t.replies[body.request];
               if primary then row.status == Posted && row.replyTs == phase.replyTs && row.lastError == None
               else if fallback then row.status == PostedUnknown && row.replyTs == phase.replyTs
               else row == s.replies[body.request]
  {
    assert s.log + [] == s.log;
  }
}
