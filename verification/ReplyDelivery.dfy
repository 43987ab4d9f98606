/** At-most-once delivery of one reply request, over every interleaving. */
module ReplyDelivery {
  import opened ReplyLedger
  import opened ReplyProtocol
  import MessageSplit
  import SlackCalls

  /** The delivered calls are the first parts of the reply, each once and in order. */
  predicate InOrder(calls: seq<Call>, payload: Payload) {
    && |calls| <= |PartsOf(payload)|
    && forall j :: 0 <= j < |calls| ==>
         && calls[j].part == j
         && calls[j].text == PartsOf(payload)[j]
         && calls[j].turn == payload.turnId
         && calls[j].final == Substantive(payload)
  }

  /** Everything was sent, or the reply is a note that the daily limit suppressed. */
  predicate Complete(calls: seq<Call>, payload: Payload) {
    |calls| == |PartsOf(payload)| || (!Substantive(payload) && calls == [])
  }

  /** What a reply row says about the calls made for it. */
  predicate RowFits(replies: Replies, request: RequestId, calls: seq<Call>) {
    if request !in replies then calls == []
    else
      var row := replies[request];
      && row.caseId == row.payload.caseId
      && InOrder(calls, row.payload)
      && (row.status == ReplyFailed ==> calls == [])
      && (row.status == Posted ==> Complete(calls, row.payload))
  }

  /** What the phase of the owning handler says about them. */
  predicate PhaseFits(phase: Phase, payload: Payload, calls: seq<Call>) {
    match phase
    case Sending(part, tries, acks) =>
      && part == |acks| == |calls| < |PartsOf(payload)|
      && forall k :: 0 <= k < |acks| ==> acks[k] != ""
    case SentOk(_) => Complete(calls, payload)
    case SentUnknown(_, _) => calls != []
    case _ => calls == []
  }

  predicate OwnerFits(replies: Replies, body: Body, phase: Phase, calls: seq<Call>) {
    && body.request in replies
    && replies[body.request].status == Received
    && replies[body.request].payload == body.payload
    && PhaseFits(phase, body.payload, calls)
  }

  ghost predicate RowsFit(s: State) {
    forall request :: RowFits(s.replies, request, Delivered(s.log, request))
  }

  ghost predicate OwnersFit(s: State) {
    forall h :: h in s.handlers && Holds(s.handlers[h].phase) ==>
      OwnerFits(s.replies, s.handlers[h].body, s.handlers[h].phase, Delivered(s.log, s.handlers[h].body.request))
  }

  ghost predicate OneOwner(s: State) {
    forall g, h :: g in s.handlers && h in s.handlers && g != h
                   && Holds(s.handlers[g].phase) && Holds(s.handlers[h].phase) ==>
      s.handlers[g].body.request != s.handlers[h].body.request
  }

  ghost predicate Inv(s: State) {
    RowsFit(s) && OwnersFit(s) && OneOwner(s)
  }

  function Maybe(calls: seq<Call>): (r: seq<Call>) {
    if calls != [] && SlackCalls.MaybeDelivered(calls[0].response) then [calls[0]] else []
  }

  /** One more call, or none, at the end of the log. */
  lemma DeliveredAfter(log: seq<Call>, calls: seq<Call>, request: RequestId)
    requires |calls| <= 1
    ensures Delivered(log + calls, request) ==
            Delivered(log, request) + if calls != [] && calls[0].request == request then Maybe(calls) else []
  {
    if calls == [] {
      assert log + calls == log;
    } else {
      assert (log + calls)[..|log|] == log;
    }
  }

  lemma SendingStep(s: State, body: Body, phase: Phase, choice: Choice, calls: seq<Call>)
    requires phase.Sending? && choice.Answer?
    requires RowFits(s.replies, body.request, calls)
    requires OwnerFits(s.replies, body, phase, calls)
    requires choice.response.Posted? ==> choice.response.ts != ""
    ensures var e := HandlerStep(s, body, phase, choice);
            && |e.calls| == 1 && e.calls[0].request == body.request
            && RowFits(e.replies, body.request, calls + Maybe(e.calls))
            && Holds(e.phase) && OwnerFits(e.replies, body, e.phase, calls + Maybe(e.calls))
  {
    var response := choice.response;
    var e := HandlerStep(s, body, phase, choice);
    SlackCalls.RetryOnlyUndelivered(response, phase.tries, SlackCalls.Attempts(SlackCalls.SLACK_API_MAX_RETRIES));
    if phase.acks != [] {
      assert phase.acks[0] != "";
    }
    assert e.calls[0].part == |calls| && e.calls[0].text == PartsOf(body.payload)[|calls|];
  }

  /** The claim of an arriving handler takes its row over. */
  predicate TakesOver(s: State, body: Body) {
    WellFormed(body) && TakesOverReply(s.replies, body.request, body.payload.caseId, body.payload, s.now)
  }

  lemma {:induction false} ArrivalKeepsRow(s: State, body: Body, choice: Choice, calls: seq<Call>)
    requires RowFits(s.replies, body.request, calls)
    requires TakesOver(s, body) ==> calls == []
    ensures var e := HandlerStep(s, body, Arrived, choice);
            && e.calls == []
            && RowFits(e.replies, body.request, calls)
            && (if Holds(e.phase) then
                  && OwnerFits(e.replies, body, e.phase, calls)
                  && (body.request !in s.replies || s.replies[body.request].status == ReplyFailed || TakesOver(s, body))
                else e.replies == s.replies)
  {
  }

  /** Looking the session up and checking it. */
  lemma {:induction false} LookupKeepsRow(s: State, body: Body, phase: Phase, choice: Choice)
    requires phase.Resolving? || phase.Checking?
    ensures var e := HandlerStep(s, body, phase, choice);
            && e.calls == [] && e.replies == s.replies
            && (e.phase.Resolving? || e.phase.Checking? || e.phase.Discarding? || e.phase.Reloading?
                || e.phase.Failing?)
  {
  }

  /** From the last check to the start of the post. */
  lemma {:induction false} ClaimKeepsRow(s: State, body: Body, phase: Phase, choice: Choice, calls: seq<Call>)
    requires phase.Discarding? || phase.Reloading? || phase.Claimable? || phase.TurnHeld?
    requires OwnerFits(s.replies, body, phase, calls)
    ensures var e := HandlerStep(s, body, phase, choice);
            e.calls == [] && e.replies == s.replies && Holds(e.phase) && OwnerFits(e.replies, body, e.phase, calls)
  {
  }

  /** Recording how it ended. */
  lemma {:induction false} RecordKeepsRow(s: State, body: Body, phase: Phase, choice: Choice, calls: seq<Call>)
    requires phase.Failing? || phase.SentNothing? || phase.SentOk? || phase.SentUnknown?
    requires RowFits(s.replies, body.request, calls) && OwnerFits(s.replies, body, phase, calls)
    ensures var e := HandlerStep(s, body, phase, choice);
            && e.calls == []
            && RowFits(e.replies, body.request, calls)
            && (Holds(e.phase) ==> OwnerFits(e.replies, body, e.phase, calls))
  {
  }

  lemma {:induction false} EndedKeepsRow(s: State, body: Body, phase: Phase, choice: Choice)
    requires phase.Settled? || phase.NoteRecorded? || phase.Finished?
    ensures var e := HandlerStep(s, body, phase, choice);
            !Holds(e.phase) && e.replies == s.replies && e.calls == []
  {
  }

  /** One handler step, seen from its own request. */
  lemma StepKeepsOwnRow(s: State, body: Body, phase: Phase, choice: Choice, calls: seq<Call>)
    requires RowFits(s.replies, body.request, calls)
    requires Holds(phase) ==> OwnerFits(s.replies, body, phase, calls)
    requires phase.Arrived? && TakesOver(s, body) ==> calls == []
    requires choice.Answer? && choice.response.Posted? ==> choice.response.ts != ""
    ensures StepFits(s, body, phase, calls, HandlerStep(s, body, phase, choice))
  {
    var e := HandlerStep(s, body, phase, choice);
    assert calls + [] == calls;
    if phase.Arrived? {
      ArrivalKeepsRow(s, body, choice, calls);
    } else if phase.Resolving? || phase.Checking? {
      LookupKeepsRow(s, body, phase, choice);
    } else if phase.Sending? {
      if choice.Answer? {
        SendingStep(s, body, phase, choice, calls);
      } else {
        WaitingStays(s, body, phase, choice);
      }
    } else if phase.Failing? || phase.SentNothing? || phase.SentOk? || phase.SentUnknown? {
      RecordKeepsRow(s, body, phase, choice, calls);
    } else if Holds(phase) {
      ClaimKeepsRow(s, body, phase, choice, calls);
    } else {
      EndedKeepsRow(s, body, phase, choice);
    }
  }

  lemma {:induction false} WaitingStays(s: State, body: Body, phase: Phase, choice: Choice)
    requires phase.Sending? && !choice.Answer?
    ensures HandlerStep(s, body, phase, choice) == Effect(s.replies, s.turns, phase, [])
  {
  }

  /** The effect of a step fits the row it concerns, and takes ownership only of a row that was free. */
  predicate StepFits(s: State, body: Body, phase: Phase, calls: seq<Call>, e: Effect) {
    && |e.calls| <= 1
    && (e.calls != [] ==> e.calls[0].request == body.request)
    && RowFits(e.replies, body.request, calls + Maybe(e.calls))
    && (Holds(e.phase) ==> OwnerFits(e.replies, body, e.phase, calls + Maybe(e.calls)))
    && (!Holds(phase) && Holds(e.phase) ==>
          || body.request !in s.replies || s.replies[body.request].status == ReplyFailed
          || (phase.Arrived? && TakesOver(s, body)))
    && (!Holds(phase) && !Holds(e.phase) ==> e.replies == s.replies && e.calls == [])
  }

  /** One handler step, seen from every other request. */
  lemma StepKeepsOtherRows(s: State, body: Body, phase: Phase, choice: Choice, request: RequestId)
    requires request != body.request
    ensures var e := HandlerStep(s, body, phase, choice);
            && (request in e.replies <==> request in s.replies)
            && (request in s.replies ==> e.replies[request] == s.replies[request])
            && (e.calls != [] ==> e.calls[0].request == body.request)
  {
  }

  /** The row and the delivered calls of a request the step does not concern. */
  predicate SameFor(s: State, t: State, request: RequestId) {
    && Delivered(t.log, request) == Delivered(s.log, request)
    && (request in t.replies <==> request in s.replies)
    && (request in s.replies ==> t.replies[request] == s.replies[request])
  }

  lemma SameFits(s: State, t: State, body: Body, phase: Phase)
    requires SameFor(s, t, body.request)
    ensures RowFits(s.replies, body.request, Delivered(s.log, body.request)) ==>
              RowFits(t.replies, body.request, Delivered(t.log, body.request))
    ensures OwnerFits(s.replies, body, phase, Delivered(s.log, body.request)) ==>
              OwnerFits(t.replies, body, phase, Delivered(t.log, body.request))
  {
  }

  /** Another owner of a row is not concerned: its request is a different one. */
  lemma OtherOwnerFits(s: State, t: State, h: HandlerId, g: HandlerId, moved: Phase)
    requires OwnersFit(s) && OneOwner(s) && h in s.handlers && g in s.handlers && g != h
    requires Holds(s.handlers[g].phase)
    requires forall r :: r != s.handlers[h].body.request ==> SameFor(s, t, r)
    requires || Holds(s.handlers[h].phase)
             || (!Holds(moved) && SameFor(s, t, s.handlers[h].body.request))
             || NoOtherHolder(s, h, s.handlers[h].body.request)
    ensures OwnerFits(t.replies, s.handlers[g].body, s.handlers[g].phase, Delivered(t.log, s.handlers[g].body.request))
    ensures Holds(moved) ==> s.handlers[g].body.request != s.handlers[h].body.request
  {
    var body, phase := s.handlers[g].body, s.handlers[g].phase;
    assert OwnerFits(s.replies, body, phase, Delivered(s.log, body.request));
    assert SameFor(s, t, body.request);
    SameFits(s, t, body, phase);
  }

  /** A step that concerns one request and moves one handler keeps the invariant if it fits that
      request and takes ownership only of a row nobody owns. */
  lemma LocalStepKeepsInv(s: State, t: State, h: HandlerId, moved: Phase)
    requires Inv(s) && h in s.handlers
    requires t.handlers == s.handlers[h := Handler(s.handlers[h].body, moved)]
    requires forall r :: r != s.handlers[h].body.request ==> SameFor(s, t, r)
    requires RowFits(t.replies, s.handlers[h].body.request, Delivered(t.log, s.handlers[h].body.request))
    requires Holds(moved) ==>
               OwnerFits(t.replies, s.handlers[h].body, moved, Delivered(t.log, s.handlers[h].body.request))
    requires || Holds(s.handlers[h].phase)
             || (!Holds(moved) && SameFor(s, t, s.handlers[h].body.request))
             || NoOtherHolder(s, h, s.handlers[h].body.request)
    ensures Inv(t)
  {
    var body := s.handlers[h].body;
    assert RowsFit(t) by {
      forall request ensures RowFits(t.replies, request, Delivered(t.log, request)) {
        assert RowFits(s.replies, request, Delivered(s.log, request));
        if request != body.request {
          SameFits(s, t, Body(request, body.payload), Finished);
        }
      }
    }
    forall g | g in t.handlers && g != h && Holds(t.handlers[g].phase)
      ensures OwnerFits(t.replies, t.handlers[g].body, t.handlers[g].phase,
                        Delivered(t.log, t.handlers[g].body.request))
      ensures Holds(moved) ==> t.handlers[g].body.request != body.request
    {
      OtherOwnerFits(s, t, h, g, moved);
    }
  }

  /** A row that is missing or failed has no handler working on it. */
  lemma FreeRowHasNoHolder(s: State, h: HandlerId)
    requires OwnersFit(s) && h in s.handlers
    requires s.handlers[h].body.request in s.replies ==> s.replies[s.handlers[h].body.request].status == ReplyFailed
    ensures NoOtherHolder(s, h, s.handlers[h].body.request)
  {
  }

  lemma HandlerStepKeepsInv(s: State, a: Action)
    requires a.Step? && a.handler in s.handlers && Inv(s) && SlackStamps(a)
    requires TakesRow(s, a.handler) ==> RowIdle(s, a.handler, s.handlers[a.handler].body.request)
    ensures Inv(Next(s, a))
  {
    var h := a.handler;
    var Handler(body, phase) := s.handlers[h];
    var e := HandlerStep(s, body, phase, a.choice);
    var t := Next(s, a);
    assert RowFits(s.replies, body.request, Delivered(s.log, body.request));
    StepKeepsOwnRow(s, body, phase, a.choice, Delivered(s.log, body.request));
    if !Holds(phase) && Holds(e.phase) && !TakesRow(s, h) {
      FreeRowHasNoHolder(s, h);
    }
    forall r | r != body.request ensures SameFor(s, t, r) {
      StepKeepsOtherRows(s, body, phase, a.choice, r);
      DeliveredAfter(s.log, e.calls, r);
    }
    DeliveredAfter(s.log, e.calls, body.request);
    LocalStepKeepsInv(s, t, h, e.phase);
  }

  lemma NextKeepsInv(s: State, a: Action)
    requires Inv(s) && SlackStamps(a)
    requires a.Step? && TakesRow(s, a.handler) ==> RowIdle(s, a.handler, s.handlers[a.handler].body.request)
    ensures Inv(Next(s, a))
  {
    if a.Step? && a.handler in s.handlers {
      HandlerStepKeepsInv(s, a);
    } else {
      EnvironmentKeepsRows(s, a);
      UntouchedRowsKeepInv(s, Next(s, a));
    }
  }

  /** Everything but a handler's own step leaves rows and log alone, and gives no handler a row. */
  lemma EnvironmentKeepsRows(s: State, a: Action)
    requires !(a.Step? && a.handler in s.handlers)
    ensures var t := Next(s, a);
            && t.log == s.log && t.replies == s.replies
            && forall h :: h in t.handlers && Holds(t.handlers[h].phase) ==>
                 h in s.handlers && s.handlers[h] == t.handlers[h]
  {
  }

  lemma UntouchedRowsKeepInv(s: State, t: State)
    requires Inv(s) && t.log == s.log && t.replies == s.replies
    requires forall h :: h in t.handlers && Holds(t.handlers[h].phase) ==>
               h in s.handlers && s.handlers[h] == t.handlers[h]
    ensures Inv(t)
  {
    assert forall request :: RowFits(s.replies, request, Delivered(s.log, request)) ==>
        RowFits(t.replies, request, Delivered(t.log, request));
  }

  /** A stamped step keeps the invariant if and only if a handler that takes an expired row over finds it
      idle: nothing delivered for it, and nobody else at work on it. */
  lemma NextKeepsInvIff(s: State, a: Action)
    requires Inv(s) && SlackStamps(a)
    ensures Inv(Next(s, a)) <==>
              (a.Step? && TakesRow(s, a.handler) ==> RowIdle(s, a.handler, s.handlers[a.handler].body.request))
  {
    if !(a.Step? && TakesRow(s, a.handler)) || RowIdle(s, a.handler, s.handlers[a.handler].body.request) {
      NextKeepsInv(s, a);
    } else {
      TakingABusyRow(s, a.handler, a.choice);
    }
  }

  lemma TakingABusyRow(s: State, h: HandlerId, choice: Choice)
    requires Inv(s) && TakesRow(s, h) && !RowIdle(s, h, s.handlers[h].body.request)
    ensures !Inv(Next(s, Step(h, choice)))
  {
    var body, t := s.handlers[h].body, Next(s, Step(h, choice));
    assert t.handlers[h] == Handler(body, Resolving) && Holds(t.handlers[h].phase);
    assert t.log == s.log by {
      assert s.log + [] == s.log;
    }
    if Delivered(s.log, body.request) != [] {
      assert !OwnerFits(t.replies, body, Resolving, Delivered(t.log, body.request));
    } else {
      var g :| g in s.handlers && g != h && Holds(s.handlers[g].phase) && s.handlers[g].body.request == body.request;
      assert t.handlers[g] == s.handlers[g];
    }
  }

  lemma {:induction false} RunKeepsInv(run: seq<Action>)
    requires Orderly(run)
    ensures Inv(Exec(run))
  {
    if run != [] {
      OrderlyPrefix(run);
      RunKeepsInv(run[..|run| - 1]);
      NextKeepsInv(Exec(run[..|run| - 1]), run[|run| - 1]);
    }
  }

  lemma {:induction false} DeliveredSplit(log: seq<Call>, request: RequestId, k: nat)
    requires k <= |log|
    ensures Delivered(log[..k], request) <= Delivered(log, request)
  {
    if k < |log| {
      DeliveredSplit(log[..|log| - 1], request, k);
      assert log[..|log| - 1][..k] == log[..k];
    } else {
      assert log[..k] == log;
    }
  }

  /** A delivered call sits in the delivered sequence right after the earlier ones. */
  lemma DeliveredPosition(log: seq<Call>, request: RequestId, k: nat)
    requires k < |log| && log[k].request == request && SlackCalls.MaybeDelivered(log[k].response)
    ensures var p := |Delivered(log[..k], request)|;
            p < |Delivered(log, request)| && Delivered(log, request)[p] == log[k]
  {
    assert log[..k + 1][..k] == log[..k];
    DeliveredSplit(log, request, k + 1);
  }

  /** In an orderly run every part of a reply gets at most one Slack call that may have been delivered, whatever
      attempts, crashes, lost writes, recoveries, cancels and other replies run in between. */
  lemma EachPartAtMostOnce(run: seq<Action>, j: nat, k: nat)
    requires Orderly(run)
    requires j < k < |Exec(run).log|
    requires SlackCalls.MaybeDelivered(Exec(run).log[j].response)
    requires SlackCalls.MaybeDelivered(Exec(run).log[k].response)
    requires Exec(run).log[j].request == Exec(run).log[k].request
    ensures Exec(run).log[j].part < Exec(run).log[k].part
  {
    var s := Exec(run);
    var request := s.log[j].request;
    RunKeepsInv(run);
    assert RowFits(s.replies, request, Delivered(s.log, request));
    DeliveredPosition(s.log, request, j);
    DeliveredPosition(s.log, request, k);
    assert s.log[..k][..j] == s.log[..j] && s.log[..k][j] == s.log[j];
    DeliveredPosition(s.log[..k], request, j);
  }

  function Texts(calls: seq<Call>): (texts: seq<string>) {
    seq(|calls|, i requires 0 <= i < |calls| => calls[i].text)
  }

  /** What the thread may show of a reply is a prefix of its text: no part is repeated, skipped or
      taken from another text. A row marked posted vouches for the whole text, unless the reply was a
      note that the daily limit held back; a row marked failed vouches that nothing was delivered. */
  lemma ThreadShowsPrefix(run: seq<Action>, request: RequestId)
    requires Orderly(run)
    ensures request !in Exec(run).replies ==> Delivered(Exec(run).log, request) == []
    ensures request in Exec(run).replies ==>
              var row := Exec(run).replies[request];
              var shown := MessageSplit.Concat(Texts(Delivered(Exec(run).log, request)));
              && shown <= row.payload.text
              && (row.status == ReplyFailed ==> shown == "")
              && (row.status == Posted ==> shown == row.payload.text || (!Substantive(row.payload) && shown == ""))
  {
    var s := Exec(run);
    RunKeepsInv(run);
    var calls := Delivered(s.log, request);
    assert RowFits(s.replies, request, calls);
    if request in s.replies {
      var payload := s.replies[request].payload;
      var parts := PartsOf(payload);
      assert Texts(calls) == parts[..|calls|];
      MessageSplit.PartPrefixIsTextPrefix(payload.text, MessageSplit.SLACK_POST_MAX_LEN, |calls|);
      MessageSplit.PartsConcatenateToText(payload.text, MessageSplit.SLACK_POST_MAX_LEN);
      assert parts[..|parts|] == parts;
    }
  }
}
