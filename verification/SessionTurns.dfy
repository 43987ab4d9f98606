/** Which turn a session carries, read off the events that it went through. */
module SessionTurns {
  import opened Wrappers
  import opened SessionStatus
  import opened SessionHandlers

  // ---------------------------------------------------------------- events that start a turn

  /** What a turn is started with, and the queue row that it is started for. */
  datatype TurnStart = TurnStart(info: TurnInfo, queueId: Option<nat>)

  function DrainedStart(drain: Drain): (start: Option<TurnStart>) {
    match drain
    case Claimed(queueId, info, true) => Some(TurnStart(info, Some(queueId)))
    case _ => None
  }

  /** The turn that an event starts, if the session can take it: for a queue row when the message was drained, was the
      first one, or waited for a restart; for none when it was sent directly, answers a prompt, or recovers. */
  function StartOf(e: Event): (start: Option<TurnStart>) {
    match e
    case RouteMessage(info, true) => Some(TurnStart(info, None))
    case UserReply(info, true) => Some(TurnStart(info, None))
    case TurnComplete(_, false, _, drain) => DrainedStart(drain)
    case DrainQueue(drain) => DrainedStart(drain)
    case Start(_, _, Launched, info, queueId) => Some(TurnStart(info, queueId))
    case Recover(_, _, Launched, info) => Some(TurnStart(info, None))
    case RestartQueued(_, _, Launched, info, queueId) => Some(TurnStart(info, queueId))
    case _ => None
  }

  /** A completion that ends the session's turn: it names that turn, and the row of a busy session was consumed. */
  predicate Completes(s: Session, turnId: string, consumed: bool) {
    && s.turnId == Some(turnId)
    && (s.status == Waiting || (s.status == Busy && (s.turnQueueId.None? || consumed)))
  }

  /** The session can take a turn from this event. */
  predicate CanTake(s: Session, e: Event) {
    match e
    case RouteMessage(_, _) => s.status in {Ready, Idle}
    case UserReply(_, _) => s.status == Waiting && s.paneId.Some? && s.windowName != ""
    case TurnComplete(turnId, _, consumed, _) => Completes(s, turnId, consumed)
    case DrainQueue(_) => s.status == Idle
    case Start(_, _, _, _, _) => s.status == Creating
    case Recover(_, _, _, _) => s.status in {Suspended, Killed}
    case RestartQueued(_, _, _, _, _) => s.status == Suspended
    case _ => false
  }

  /** The event starts a turn in this session. */
  predicate Starts(s: Session, e: Event) {
    StartOf(e).Some? && CanTake(s, e)
  }

  predicate SameTurn(s: Session, t: Session) {
    && t.turnId == s.turnId && t.turnEventId == s.turnEventId && t.turnQueueId == s.turnQueueId
    && t.turnOwner == s.turnOwner && t.turnStartedAt == s.turnStartedAt && t.userId == s.userId
  }

  // ---------------------------------------------------------------- one event

  lemma StartingMakesBusy(s: Session, e: Event)
    requires Starts(s, e)
    ensures BusyWith(Handle(s, e), StartOf(e).value.info, StartOf(e).value.queueId)
  {
  }

  /** At work on a turn, or waiting for input within it. */
  predicate InTurn(s: Session) {
    s.status == Busy || (s.status == Waiting && s.turnId.Some?)
  }

  lemma OthersKeepTurn(s: Session, e: Event)
    requires !Starts(s, e) && InTurn(Handle(s, e))
    ensures InTurn(s) && SameTurn(s, Handle(s, e))
  {
  }

  // ---------------------------------------------------------------- every run

  /** Action k of the run starts a turn in the session. */
  predicate StartsAt(run: seq<Action>, k: nat, key: Key)
    requires k < |run|
  {
    run[k].Run? && run[k].key == key && key in Exec(run[..k]) && Starts(Exec(run[..k])[key], run[k].event)
  }

  /** In every run of handlers, a session at work or waiting within a turn carries, field by field, the turn of the last
      event that started one. */
  lemma {:induction false} CarriesLastStart(run: seq<Action>, key: Key) returns (k: nat)
    requires key in Exec(run) && InTurn(Exec(run)[key])
    ensures k < |run| && StartsAt(run, k, key) && forall j :: k < j < |run| ==> !StartsAt(run, j, key)
    ensures var start := StartOf(run[k].event).value; CarriesTurn(Exec(run)[key], start.info, start.queueId)
  {
    var last := |run| - 1;
    var before, a := run[..last], run[last];
    if StartsAt(run, last, key) {
      k := last;
      StartingMakesBusy(Exec(before)[key], a.event);
    } else {
      InTurnBefore(Exec(before), a, key);
      k := CarriesLastStart(before, key);
      forall j | 0 <= j < last ensures StartsAt(before, j, key) == StartsAt(run, j, key) {
        StartsAtPrefix(run, last, j, key);
      }
    }
  }

  lemma StartsAtPrefix(run: seq<Action>, n: nat, j: nat, key: Key)
    requires j < n <= |run|
    ensures StartsAt(run[..n], j, key) == StartsAt(run, j, key)
  {
    assert run[..n][..j] == run[..j];
  }

  lemma InTurnBefore(sessions: map<Key, Session>, a: Action, key: Key)
    requires key in Next(sessions, a) && InTurn(Next(sessions, a)[key])
    requires a.Run? && a.key == key && key in sessions ==> !Starts(sessions[key], a.event)
    ensures key in sessions && InTurn(sessions[key]) && SameTurn(sessions[key], Next(sessions, a)[key])
  {
    if a.Run? && a.key == key && key in sessions {
      OthersKeepTurn(sessions[key], a.event);
    }
  }

  /** A completion leaves a busy session that names a queue row as it is, unless it names the session's turn and the row
      was consumed; then the session waits for input, or comes to rest or to the next item, and drops the turn. */
  lemma CompletionNeedsRow(run: seq<Action>, key: Key, turnId: string, waits: bool, consumed: bool, drain: Drain)
    requires key in Exec(run) && Exec(run)[key].status == Busy && Exec(run)[key].turnQueueId.Some?
    ensures var s := Exec(run)[key];
            var after := Exec(run + [Run(key, TurnComplete(turnId, waits, consumed, drain))]);
            && key in after
            && if s.turnId != Some(turnId) || !consumed then after[key] == s
               else if waits then after[key].status == Waiting && TurnClear(after[key])
               else if drain.Claimed? && drain.sent then BusyWith(after[key], drain.info, Some(drain.queueId))
               else after[key].status == Idle && TurnClear(after[key])
  {
    var a := Run(key, TurnComplete(turnId, waits, consumed, drain));
    var longer := run + [a];
    assert longer[..|run|] == run && longer[|run|] == a && |longer| == |run| + 1;
    assert Exec(longer) == Next(Exec(run), a);
    CompletionMoves(Exec(run)[key], turnId, waits, consumed, drain);
  }

  lemma CompletionMoves(s: Session, turnId: string, waits: bool, consumed: bool, drain: Drain)
    requires s.status == Busy && s.turnQueueId.Some?
    ensures var t := Handle(s, TurnComplete(turnId, waits, consumed, drain));
            if s.turnId != Some(turnId) || !consumed then t == s
            else if waits then t.status == Waiting && TurnClear(t)
            else if drain.Claimed? && drain.sent then BusyWith(t, drain.info, Some(drain.queueId))
            else t.status == Idle && TurnClear(t)
  {
  }

  // ---------------------------------------------------------------- waits

  /** The wait that an event stores. */
  function WaitOf(s: Session, e: Event): (wait: Option<InputWait>) {
    match e
    case WaitDetected(wait, true) => if s.status == Busy then Some(wait) else None
    case TurnComplete(turnId, true, consumed, _) =>
      if s.status == Busy && Completes(s, turnId, consumed) then Some("free_input") else None
    case _ => None
  }

  lemma WaitStored(s: Session, e: Event)
    requires SessionOk(s) && Handle(s, e).status == Waiting
    ensures if WaitOf(s, e).Some? then Handle(s, e).inputWait == WaitOf(s, e)
            else s.status == Waiting && Handle(s, e).inputWait == s.inputWait
  {
  }

  predicate WaitsAt(run: seq<Action>, k: nat, key: Key)
    requires k < |run|
  {
    run[k].Run? && run[k].key == key && key in Exec(run[..k]) && WaitOf(Exec(run[..k])[key], run[k].event).Some?
  }

  /** In every run, a waiting session has stored the wait of the last event that made it wait, answers that could not be
      sent notwithstanding. */
  lemma {:induction false} WaitingHasItsWait(run: seq<Action>, key: Key) returns (k: nat)
    requires key in Exec(run) && Exec(run)[key].status == Waiting
    ensures k < |run| && WaitsAt(run, k, key) && forall j :: k < j < |run| ==> !WaitsAt(run, j, key)
    ensures Exec(run)[key].inputWait == WaitOf(Exec(run[..k])[key], run[k].event)
  {
    var last := |run| - 1;
    var before, a := run[..last], run[last];
    if WaitsAt(run, last, key) {
      k := last;
      EverySessionOk(before, key);
      WaitStored(Exec(before)[key], a.event);
    } else {
      WaitingBefore(before, a, key);
      k := WaitingHasItsWait(before, key);
      forall j | 0 <= j < last ensures WaitsAt(before, j, key) == WaitsAt(run, j, key) {
        WaitsAtPrefix(run, last, j, key);
      }
      assert before[..k] == run[..k];
    }
  }

  lemma WaitsAtPrefix(run: seq<Action>, n: nat, j: nat, key: Key)
    requires j < n <= |run|
    ensures WaitsAt(run[..n], j, key) == WaitsAt(run, j, key)
  {
    assert run[..n][..j] == run[..j];
  }

  lemma WaitingBefore(before: seq<Action>, a: Action, key: Key)
    requires key in Next(Exec(before), a) && Next(Exec(before), a)[key].status == Waiting
    requires a.Run? && a.key == key && key in Exec(before) ==> WaitOf(Exec(before)[key], a.event).None?
    ensures key in Exec(before) && Exec(before)[key].status == Waiting
    ensures Exec(before)[key].inputWait == Next(Exec(before), a)[key].inputWait
  {
    if a.Run? && a.key == key && key in Exec(before) {
      EverySessionOk(before, key);
      WaitStored(Exec(before)[key], a.event);
    }
  }

  // ---------------------------------------------------------------- panes

  function LaunchPlaces(launch: Launch, pane: string, window: string): (place: Option<(string, string)>) {
    if launch.AllocationDeferred? then None else Some((pane, window))
  }

  /** The pane and window that an event gives the session. */
  function PlaceOf(s: Session, e: Event): (place: Option<(string, string)>) {
    if !CanTake(s, e) then None
    else
      match e
      case Start(pane, window, launch, _, _) => LaunchPlaces(launch, pane, window)
      case Recover(pane, window, launch, _) => LaunchPlaces(launch, pane, window)
      case RestartQueued(pane, window, launch, _, _) => LaunchPlaces(launch, pane, window)
      case _ => None
  }

  predicate PlacesAt(run: seq<Action>, k: nat, key: Key)
    requires k < |run|
  {
    run[k].Run? && run[k].key == key && key in Exec(run[..k]) && PlaceOf(Exec(run[..k])[key], run[k].event).Some?
  }

  lemma PlaceGiven(s: Session, e: Event)
    requires Handle(s, e).paneId.Some?
    ensures var t, place := Handle(s, e), PlaceOf(s, e);
            if place.Some? then t.paneId == Some(place.value.0) && t.windowName == place.value.1
            else t.paneId == s.paneId && t.windowName == s.windowName
  {
  }

  /** In every run, a session that has a pane has it, and its window, from its last launch. */
  lemma {:induction false} PaneIsOfLastLaunch(run: seq<Action>, key: Key) returns (k: nat)
    requires key in Exec(run) && Exec(run)[key].paneId.Some?
    ensures k < |run| && PlacesAt(run, k, key) && forall j :: k < j < |run| ==> !PlacesAt(run, j, key)
    ensures var place := PlaceOf(Exec(run[..k])[key], run[k].event).value;
            Exec(run)[key].paneId == Some(place.0) && Exec(run)[key].windowName == place.1
  {
    var last := |run| - 1;
    var before, a := run[..last], run[last];
    if PlacesAt(run, last, key) {
      k := last;
      PlaceGiven(Exec(before)[key], a.event);
    } else {
      PlacedBefore(Exec(before), a, key);
      k := PaneIsOfLastLaunch(before, key);
      forall j | 0 <= j < last ensures PlacesAt(before, j, key) == PlacesAt(run, j, key) {
        PlacesAtPrefix(run, last, j, key);
      }
      assert before[..k] == run[..k];
    }
  }

  lemma PlacesAtPrefix(run: seq<Action>, n: nat, j: nat, key: Key)
    requires j < n <= |run|
    ensures PlacesAt(run[..n], j, key) == PlacesAt(run, j, key)
  {
    assert run[..n][..j] == run[..j];
  }

  lemma PlacedBefore(sessions: map<Key, Session>, a: Action, key: Key)
    requires key in Next(sessions, a) && Next(sessions, a)[key].paneId.Some?
    requires a.Run? && a.key == key && key in sessions ==> PlaceOf(sessions[key], a.event).None?
    ensures key in sessions && sessions[key].paneId == Next(sessions, a)[key].paneId
    ensures sessions[key].windowName == Next(sessions, a)[key].windowName
  {
    if a.Run? && a.key == key && key in sessions {
      PlaceGiven(sessions[key], a.event);
    }
  }

  // ---------------------------------------------------------------- which event leads where

  /** Where an event finds a session that it moves, apart from what it needs of the pane, the turn and the row. */
  function Sources(e: Event): (from: set<Status>) {
    match e
    case RouteMessage(_, _) => {Ready, Idle}
    case UserReply(_, sent) => if sent then {Waiting} else {}
    case WaitDetected(_, notified) => if notified then {Busy} else {}
    case TurnComplete(_, waits, _, _) => if waits then {Busy} else {Busy, Waiting}
    case DrainQueue(drain) => if drain.Claimed? && drain.sent then {Idle} else {}
    case Cancel => {Busy, Waiting}
    case Kill(_) => {Creating, Starting, Ready, Busy, Idle, Waiting, Suspended}
    case ReapIdle(_) => {Idle}
    case Suspend => {Ready, Idle, Waiting, Busy}
    case TerminateForRestart => {Creating, Starting, Ready, Busy, Idle, Waiting}
    case PaneMissing => {Creating, Starting, Ready, Busy, Idle, Waiting}
    case BusyTimeout => {Busy}
    case WaitTimeout => {Waiting}
    case StartupCleanup => {Starting, Ready, Busy, Idle, Waiting}
    case Start(_, _, _, _, _) => {Creating}
    case Recover(_, _, _, _) => {Suspended, Killed}
    case RestartQueued(_, _, _, _, _) => {Suspended}
    case ChannelChanged => {Creating, Starting, Ready, Busy, Idle, Waiting, Suspended}
    case ReviveReadyTimeout => {Error}
  }

  /** What it also needs. */
  predicate Enabled(s: Session, e: Event) {
    match e
    case UserReply(_, _) => s.paneId.Some? && s.windowName != ""
    case TurnComplete(turnId, _, consumed, _) => Completes(s, turnId, consumed)
    case Kill(paneKilled) => s.paneId.None? || paneKilled
    case ReapIdle(paneKilled) => s.paneId.None? || paneKilled
    case PaneMissing => s.paneId.Some?
    case _ => true
  }

  function LaunchOutcome(launch: Launch): (status: Status) {
    match launch
    case Launched => Busy
    case AllocationDeferred => Suspended
    case ReadyTimeout(_) => Suspended
    case _ => Error
  }

  /** Where the event leads. */
  function Outcome(e: Event): (to: Status) {
    match e
    case RouteMessage(_, sent) => if sent then Busy else Idle
    case UserReply(_, _) => Busy
    case WaitDetected(_, _) => Waiting
    case TurnComplete(_, waits, _, drain) =>
      if waits then Waiting else if drain.Claimed? && drain.sent then Busy else Idle
    case DrainQueue(_) => Busy
    case Cancel => Idle
    case Kill(_) => Killed
    case ReapIdle(_) => Killed
    case Start(_, _, launch, _, _) => LaunchOutcome(launch)
    case Recover(_, _, launch, _) => LaunchOutcome(launch)
    case RestartQueued(_, _, launch, _, _) => LaunchOutcome(launch)
    case ChannelChanged => Error
    case _ => Suspended
  }

  /** Each event moves exactly the sessions it is meant for, each to one status. */
  lemma EventMovesIff(s: Session, e: Event)
    ensures Handle(s, e).status == if s.status in Sources(e) && Enabled(s, e) then Outcome(e) else s.status
  {
  }

  /** Action k of the run gives the session this status. */
  predicate GivesStatus(run: seq<Action>, k: nat, key: Key, status: Status)
    requires k < |run|
  {
    match run[k]
    case Create(c, _, _) => c == key && key !in Exec(run[..k]) && status == Creating
    case Run(c, e) =>
      && c == key && key in Exec(run[..k])
      && Exec(run[..k])[key].status in Sources(e) && Enabled(Exec(run[..k])[key], e)
      && status == Outcome(e)
    case Delete(_) => false
  }

  /** In every run, the status of a session is the one that the last event meant for it gave. */
  lemma {:induction false} StatusHasItsEvent(run: seq<Action>, key: Key) returns (k: nat)
    requires key in Exec(run)
    ensures k < |run| && GivesStatus(run, k, key, Exec(run)[key].status)
    ensures forall j, status :: k < j < |run| ==> !GivesStatus(run, j, key, status)
  {
    var last := |run| - 1;
    var before, a := run[..last], run[last];
    if GivesStatus(run, last, key, Exec(run)[key].status) {
      k := last;
    } else {
      assert before + [a] == run;
      StatusBefore(before, a, key);
      k := StatusHasItsEvent(before, key);
      GivesPrefix(run, last, k, key, Exec(run)[key].status);
      forall j, status | k < j < |run| ensures !GivesStatus(run, j, key, status) {
        if j < last {
          GivesPrefix(run, last, j, key, status);
        }
      }
    }
  }

  lemma GivesPrefix(run: seq<Action>, n: nat, j: nat, key: Key, status: Status)
    requires j < n <= |run|
    ensures GivesStatus(run[..n], j, key, status) == GivesStatus(run, j, key, status)
  {
    assert run[..n][..j] == run[..j];
  }

  lemma StatusBefore(before: seq<Action>, a: Action, key: Key)
    requires key in Next(Exec(before), a)
    requires !GivesStatus(before + [a], |before|, key, Next(Exec(before), a)[key].status)
    ensures key in Exec(before) && Exec(before)[key].status == Next(Exec(before), a)[key].status
    ensures forall status :: !GivesStatus(before + [a], |before|, key, status)
  {
    assert (before + [a])[..|before|] == before && (before + [a])[|before|] == a;
    if a.Run? && a.key == key && key in Exec(before) {
      EventMovesIff(Exec(before)[key], a.event);
    }
  }

  // ---------------------------------------------------------------- what each event writes

  /** The event moves the session to another status, or to the same one again. */
  predicate Moves(s: Session, e: Event) {
    s.status in Sources(e) && Enabled(s, e)
  }

  /** An answer that could not be sent: the wait stays, the turn is dropped. */
  predicate FailedReply(s: Session, e: Event) {
    e.UserReply? && !e.sent && CanTake(s, e)
  }

  /** A pane is given up when the worker was killed, or never got one. */
  predicate GivesUpPane(s: Session, e: Event) {
    match e
    case Kill(_) => Moves(s, e)
    case ReapIdle(_) => Moves(s, e)
    case ReviveReadyTimeout => Moves(s, e)
    case Start(_, _, launch, _, _) => Moves(s, e) && LosesPane(launch)
    case Recover(_, _, launch, _) => Moves(s, e) && LosesPane(launch)
    case RestartQueued(_, _, launch, _, _) => Moves(s, e) && LosesPane(launch)
    case _ => false
  }

  predicate LosesPane(launch: Launch) {
    match launch
    case Launched => false
    case AllocationDeferred => true
    case ReadyTimeout(paneKilled) => paneKilled
    case LaunchFailed(paneKilled) => paneKilled
    case DispatchFailed(paneKilled) => paneKilled
  }

  /** The turn: an event that starts one writes it; an event that moves the session drops it, except that detecting a
      wait and a change of the channel keep it; all others leave it. */
  lemma TurnWritten(s: Session, e: Event)
    requires SessionOk(s)
    ensures var t := Handle(s, e);
            if Starts(s, e) then CarriesTurn(t, StartOf(e).value.info, StartOf(e).value.queueId)
            else if DropsTurn(s, e) then TurnClear(t)
            else SameTurn(s, t)
  {
    if Starts(s, e) {
      StartingMakesBusy(s, e);
    } else if DropsTurn(s, e) {
      TurnDropped(s, e);
    } else {
      TurnStays(s, e);
    }
  }

  predicate DropsTurn(s: Session, e: Event) {
    (Moves(s, e) && !e.WaitDetected? && !e.ChannelChanged?) || FailedReply(s, e)
  }

  lemma TurnDropped(s: Session, e: Event)
    requires SessionOk(s) && !Starts(s, e) && DropsTurn(s, e)
    ensures TurnClear(Handle(s, e))
  {
  }

  lemma TurnStays(s: Session, e: Event)
    requires SessionOk(s) && !Starts(s, e) && !DropsTurn(s, e)
    ensures SameTurn(s, Handle(s, e))
  {
  }

  /** The wait: an event that moves the session drops it unless it is what the session waits for now, or a kill, the end
      of an idle session or a change of the channel, which keep it. */
  lemma WaitWritten(s: Session, e: Event)
    requires SessionOk(s)
    ensures Handle(s, e).inputWait ==
              if WaitOf(s, e).Some? then WaitOf(s, e)
              else if Moves(s, e) && !e.Kill? && !e.ReapIdle? && !e.ChannelChanged? then None
              else s.inputWait
  {
  }

  /** The pane and the window: a launch writes both, unless no pane was free; the pane is given up with the worker. */
  lemma PlaceWritten(s: Session, e: Event)
    ensures var t, place := Handle(s, e), PlaceOf(s, e);
            && t.paneId == (if GivesUpPane(s, e) then None
                            else if place.Some? then Some(place.value.0) else s.paneId)
            && t.windowName == (if place.Some? then place.value.1 else s.windowName)
            && t.userId == s.userId
  {
    if !e.Start? && !e.Recover? && !e.RestartQueued? {
      OthersPlaceNothing(s, e);
    }
  }

  lemma OthersPlaceNothing(s: Session, e: Event)
    requires !e.Start? && !e.Recover? && !e.RestartQueued?
    ensures var t := Handle(s, e);
            && t.paneId == (if GivesUpPane(s, e) then None else s.paneId)
            && t.windowName == s.windowName && t.userId == s.userId && PlaceOf(s, e) == None
  {
  }

  /** A session comes to be once, with nothing but its user and window, and disappears only when it had ended. */
  lemma SessionsComeAndGo(run: seq<Action>, a: Action, key: Key)
    ensures var before, after := Exec(run), Next(Exec(run), a);
            && (key in before && key !in after ==> a == Delete(key) && before[key].status in {Error, Killed})
            && (key !in before && key in after ==>
                  && a.Create? && a.key == key
                  && after[key] == Session(Creating, None, None, None, None, None, None, None, a.window, a.userId))
            && (key in before && key in after && after[key] != before[key] ==> a.Run? && a.key == key)
  {
  }

  /** Which statuses lie on the way: every session that has not ended can be suspended, unless it is, can be killed, and
      can end in error; from ERROR there is no way, and from SUSPENDED and KILLED only a new launch. */
  lemma TableShape(from: Status)
    ensures Suspended in AllowedTransitions(from) <==> from in {Creating, Starting, Ready, Busy, Idle, Waiting}
    ensures Killed in AllowedTransitions(from) <==> from !in {Error, Killed}
    ensures Error in AllowedTransitions(from) <==> from !in {Error, Killed}
    ensures Starting in AllowedTransitions(from) <==> from in {Creating, Suspended, Killed}
    ensures Busy in AllowedTransitions(from) <==> from in {Starting, Ready, Idle, Waiting}
    ensures Idle in AllowedTransitions(from) <==> from in {Busy, Waiting}
    ensures Waiting in AllowedTransitions(from) <==> from == Busy
    ensures Ready in AllowedTransitions(from) <==> from == Starting
    ensures Creating !in AllowedTransitions(from)
  {
  }

  // ---------------------------------------------------------------- what the cleanup does

  /** When the cleanup removes, kills or suspends a session, and when it leaves it alone. */
  lemma CleanupIff(s: Session, clock: Clock, paneExists: bool)
    ensures var due := Due(s, clock, paneExists);
            var lost := s.status in {Creating, Starting, Ready, Busy, Idle, Waiting} && s.paneId.Some? && !paneExists;
            && (due == Remove <==> s.status in {Error, Killed} && clock.retired)
            && (due == Happens(PaneMissing) <==> lost)
            && (due == Happens(BusyTimeout) <==> !lost && s.status == Busy && clock.turnTooLong)
            && (due == Happens(WaitTimeout) <==> !lost && s.status == Waiting && clock.waitTooLong)
            && (due == Happens(Kill(true)) <==> !lost && s.status in {Idle, Ready} && clock.stale)
            && (due == Happens(Suspend) <==> !lost && s.status == Waiting && !clock.waitTooLong && clock.stale)
            && (due.Happens? ==> due.event in {PaneMissing, BusyTimeout, WaitTimeout, Kill(true), Suspend})
  {
  }
}
