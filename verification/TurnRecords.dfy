/** What a turn's row says of the replies to it, and how often a handler calls Slack, over every run. */
module TurnRecords {
  import opened Wrappers
  import opened SessionStatus
  import opened ReplyLedger
  import opened ReplyProtocol
  import TurnClaims
  import CallOrigins

  // ---------------------------------------------------------------- replies to a turn

  /** The action records that a reply to the turn was posted. */
  predicate RecordsReply(s: State, a: Action, turn: TurnId) {
    && a.Step? && a.handler in s.handlers && s.handlers[a.handler].phase.Settled?
    && s.handlers[a.handler].body.payload.turnId == turn && turn in s.turns
  }

  /** What the action records as the turn's end: the reason of a reaction, cancel, kill or timeout, the reason of a
      sweep over its session if it was open, or how its final reply ended it. */
  function RecordedEnd(s: State, a: Action, turn: TurnId): (end: Option<string>) {
    match a
    case FinishTurn(t, reason) => if t == turn then Some(reason) else None
    case CloseTurns(key, reason) =>
      if turn in s.turns && s.turns[turn].sessionKey == key && s.turns[turn].completedAt.None?
      then Some(reason) else None
    case Step(h, _) =>
      if RecordsReply(s, a, turn) then
        match s.handlers[h].body.payload.completion
        case Continue => None
        case Failed => Some("error")
        case _ => Some("close")
      else None
    case _ => None
  }

  /** What the action makes of the claim on the turn: a handler that finds the turn live and free takes it, a note or a
      reply that was not sent gives its own claim back unless the turn has ended, and an end drops it. */
  datatype ClaimWrite = Untouched | Replaced(claim: Option<TurnClaim>)

  function RecordedClaim(s: State, a: Action, turn: TurnId): (write: ClaimWrite) {
    if turn !in s.turns then Untouched
    else
      match a
      case FinishTurn(t, _) => if t == turn then Replaced(None) else Untouched
      case Step(h, _) =>
        if h !in s.handlers || s.handlers[h].body.payload.turnId != turn then Untouched
        else
          var Handler(body, phase) := s.handlers[h];
          var row := s.turns[turn];
          if phase.Claimable? then
            if row.sessionKey in s.sessions && s.sessions[row.sessionKey].status in {Busy, Waiting}
               && s.sessions[row.sessionKey].activeTurn == Some(turn) && row.completedAt.None?
               && row.completionAction.None?
               && (row.claim.None? || row.claim.value.request == body.request
                   || s.now - row.claim.value.claimedAt >= 30_000_000)
            then Replaced(Some(TurnClaim(body.request, s.now))) else Untouched
          else if phase.Settled? && body.payload.completion != Continue then Replaced(None)
          else if (phase.SentNothing? || phase.NoteRecorded?) && row.completedAt.None?
                  && row.claim.Some? && row.claim.value.request == body.request
          then Replaced(None)
          else Untouched
      case _ => Untouched
  }

  /** The claim that was written last. */
  function LastClaim(run: seq<Action>, turn: TurnId): (claim: Option<TurnClaim>) {
    if run == [] then None
    else
      var before, a := run[..|run| - 1], run[|run| - 1];
      match RecordedClaim(Exec(before), a, turn)
      case Untouched => LastClaim(before, turn)
      case Replaced(claim) => claim
  }

  function RepliesTo(run: seq<Action>, turn: TurnId): (n: nat) {
    if run == [] then 0
    else
      var before, a := run[..|run| - 1], run[|run| - 1];
      RepliesTo(before, turn) + if RecordsReply(Exec(before), a, turn) then 1 else 0
  }

  /** The end that was recorded last. */
  function LastEnd(run: seq<Action>, turn: TurnId): (end: Option<string>) {
    if run == [] then None
    else
      var before, a := run[..|run| - 1], run[|run| - 1];
      var end := RecordedEnd(Exec(before), a, turn);
      if end.Some? && turn in Exec(before).turns then end else LastEnd(before, turn)
  }

  /** The time that was recorded last; a note that is posted late takes it back. */
  function LastTime(run: seq<Action>, turn: TurnId): (time: Option<nat>) {
    if run == [] then None
    else
      var before, a := run[..|run| - 1], run[|run| - 1];
      var s := Exec(before);
      if turn !in s.turns then LastTime(before, turn)
      else if RecordedEnd(s, a, turn).Some? then Some(s.now)
      else if RecordsReply(s, a, turn) then None
      else LastTime(before, turn)
  }

  datatype TurnView = TurnView(replies: nat, end: Option<string>, time: Option<nat>, claim: Option<TurnClaim>)

  /** Replies so far, the end and its time, and the claim, as one row shows them; a turn without a row has none. */
  function Shown(turns: Turns, turn: TurnId): (r: TurnView) {
    if turn !in turns then TurnView(0, None, None, None)
    else
      var row := turns[turn];
      TurnView(row.replyAccepted, row.completionAction, row.completedAt, row.claim)
  }

  /** What one action adds to them. */
  predicate Recorded(s: State, a: Action, turn: TurnId, after: Turns) {
    var was := Shown(s.turns, turn);
    var recorded := RecordedEnd(s, a, turn);
    turn in after ==>
      Shown(after, turn) ==
        TurnView(was.replies + (if RecordsReply(s, a, turn) then 1 else 0),
                 if recorded.Some? && turn in s.turns then recorded else was.end,
                 if recorded.Some? && turn in s.turns then Some(s.now)
                 else if RecordsReply(s, a, turn) then None else was.time,
                 match RecordedClaim(s, a, turn)
                 case Untouched => was.claim
                 case Replaced(claim) => claim)
  }

  lemma ClaimRecords(s: State, h: HandlerId, choice: Choice, turn: TurnId)
    requires h in s.handlers && s.handlers[h].phase.Claimable?
    ensures Recorded(s, Step(h, choice), turn, HandlerStep(s, s.handlers[h].body, Claimable, choice).turns)
    ensures HandlerStep(s, s.handlers[h].body, Claimable, choice).turns.Keys == s.turns.Keys
  {
  }

  lemma ReleaseRecords(s: State, h: HandlerId, choice: Choice, turn: TurnId)
    requires h in s.handlers && TurnClaims.Releasing(s.handlers[h].phase)
    ensures var after := HandlerStep(s, s.handlers[h].body, s.handlers[h].phase, choice).turns;
            Recorded(s, Step(h, choice), turn, after) && after.Keys == s.turns.Keys
  {
  }

  lemma CompletionRecords(s: State, h: HandlerId, choice: Choice, turn: TurnId)
    requires h in s.handlers && s.handlers[h].phase.Settled?
    ensures var after := HandlerStep(s, s.handlers[h].body, Settled, choice).turns;
            Recorded(s, Step(h, choice), turn, after) && after.Keys == s.turns.Keys
  {
  }

  lemma StepRecords(s: State, h: HandlerId, choice: Choice, turn: TurnId)
    requires h in s.handlers
    ensures Recorded(s, Step(h, choice), turn, Next(s, Step(h, choice)).turns)
    ensures turn in Next(s, Step(h, choice)).turns ==> turn in s.turns
  {
    var Handler(body, phase) := s.handlers[h];
    if phase.Claimable? {
      ClaimRecords(s, h, choice, turn);
    } else if TurnClaims.Releasing(phase) {
      ReleaseRecords(s, h, choice, turn);
    } else if phase.Settled? {
      CompletionRecords(s, h, choice, turn);
    } else {
      TurnClaims.OtherPhasesKeepTurns(s, body, phase, choice);
    }
  }

  /** A turn gets a row only once. */
  lemma EnvironmentRecords(s: State, a: Action, turn: TurnId)
    requires TurnClaims.TurnsOpened(s) && !(a.Step? && a.handler in s.handlers)
    ensures Recorded(s, a, turn, Next(s, a).turns)
    ensures turn in Next(s, a).turns && turn !in s.turns ==> turn !in s.openedTurns
  {
  }

  lemma OpenedStays(s: State, a: Action, turn: TurnId)
    requires turn !in Next(s, a).openedTurns
    ensures turn !in s.openedTurns
  {
  }

  /** The row of a turn counts the replies that were recorded for it, and shows the end, the time and the claim that
      were recorded last. */
  lemma {:induction false} TurnShowsItsReplies(run: seq<Action>, turn: TurnId)
    ensures TurnClaims.TurnsOpened(Exec(run))
    ensures turn in Exec(run).turns || turn !in Exec(run).openedTurns ==>
              Shown(Exec(run).turns, turn) == TurnView(RepliesTo(run, turn), LastEnd(run, turn), LastTime(run, turn),
                                                       LastClaim(run, turn))
  {
    if run != [] {
      var before, a := run[..|run| - 1], run[|run| - 1];
      TurnShowsItsReplies(before, turn);
      var s := Exec(before);
      TurnClaims.StepKeepsTurnsOpened(s, a);
      if turn !in Next(s, a).openedTurns {
        OpenedStays(s, a, turn);
      }
      if a.Step? && a.handler in s.handlers {
        StepRecords(s, a.handler, a.choice, turn);
      } else {
        EnvironmentRecords(s, a, turn);
      }
    }
  }

  // ---------------------------------------------------------------- how often a handler calls

  /** The step takes Slack's answer to one call for this part. */
  predicate CallsFor(s: State, a: Action, h: HandlerId, part: nat) {
    && a.Step? && a.handler == h && a.choice.Answer? && h in s.handlers
    && s.handlers[h].phase.Sending? && s.handlers[h].phase.part == part < |PartsOf(s.handlers[h].body.payload)|
  }

  function CallCount(run: seq<Action>, h: HandlerId, part: nat): (n: nat) {
    if run == [] then 0
    else
      var before, a := run[..|run| - 1], run[|run| - 1];
      CallCount(before, h, part) + if CallsFor(Exec(before), a, h, part) then 1 else 0
  }

  /** How many calls for a part the handler can have made by now. */
  predicate CountFits(s: State, h: HandlerId, part: nat, count: nat) {
    if h !in s.handlers || CallOrigins.Early(s.handlers[h].phase) then count == 0
    else if s.handlers[h].phase.Sending? then
      var Sending(now, tries, _) := s.handlers[h].phase;
      && 1 <= tries <= 3
      && (part == now ==> count == tries - 1) && (part > now ==> count == 0) && count <= 3
    else count <= 3
  }

  lemma {:induction false} PostingStep(s: State, body: Body, phase: Phase, choice: Choice)
    requires phase.Sending? && choice.Answer? && 1 <= phase.tries <= 3
    ensures var next := HandlerStep(s, body, phase, choice).phase;
            || !(next.Sending? || CallOrigins.Early(next))
            || (next.Sending? && next.part == phase.part && next.tries == phase.tries + 1 <= 3)
            || (next.Sending? && next.part == phase.part + 1 && next.tries == 1)
            || (next == phase && phase.part >= |PartsOf(body.payload)|)
  {
  }

  lemma {:induction false} OtherStep(s: State, body: Body, phase: Phase, choice: Choice)
    requires !(phase.Sending? && choice.Answer?)
    ensures var next := HandlerStep(s, body, phase, choice).phase;
            && (next.Sending? ==> next == phase || (phase.TurnHeld? && next == Sending(0, 1, [])))
            && (CallOrigins.Early(next) ==> CallOrigins.Early(phase))
  {
    CallOrigins.EarlyIsFirst(s, body, phase, choice);
    if CallOrigins.Early(phase) && !phase.TurnHeld? {
      EarlyDoesNotPost(s, body, phase, choice);
    }
  }

  lemma {:induction false} EarlyDoesNotPost(s: State, body: Body, phase: Phase, choice: Choice)
    requires CallOrigins.Early(phase) && !phase.TurnHeld?
    ensures !HandlerStep(s, body, phase, choice).phase.Sending?
  {
    match phase
    case Resolving =>
    case Checking(_, _) =>
    case Reloading(_, _, _) =>
    case _ =>
  }

  lemma OwnStepCounts(s: State, a: Action, h: HandlerId, part: nat, count: nat)
    requires CountFits(s, h, part, count) && a.Step? && a.handler == h && h in s.handlers
    ensures CountFits(Next(s, a), h, part, count + if CallsFor(s, a, h, part) then 1 else 0)
  {
    var Handler(body, phase) := s.handlers[h];
    if phase.Sending? && a.choice.Answer? {
      PostingStep(s, body, phase, a.choice);
    } else {
      OtherStep(s, body, phase, a.choice);
    }
  }

  lemma OtherActionCounts(s: State, a: Action, h: HandlerId, part: nat, count: nat)
    requires CountFits(s, h, part, count) && !(a.Step? && a.handler == h && h in s.handlers)
    ensures CountFits(Next(s, a), h, part, count) && !CallsFor(s, a, h, part)
  {
    CallOrigins.OtherMoves(s, a, h);
  }

  /** Whatever Slack answers, a handler makes at most three calls for one part. */
  lemma {:induction false} AtMostThreeCalls(run: seq<Action>, h: HandlerId, part: nat)
    ensures CallCount(run, h, part) <= 3
    ensures CountFits(Exec(run), h, part, CallCount(run, h, part))
  {
    if run != [] {
      var before, a := run[..|run| - 1], run[|run| - 1];
      AtMostThreeCalls(before, h, part);
      if a.Step? && a.handler == h && h in Exec(before).handlers {
        OwnStepCounts(Exec(before), a, h, part, CallCount(before, h, part));
      } else {
        OtherActionCounts(Exec(before), a, h, part, CallCount(before, h, part));
      }
    }
  }
}
