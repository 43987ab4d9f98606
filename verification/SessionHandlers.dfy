/** The session record under every handler that writes it, one handler being one step
    (session.py, session_store.py, message_dispatch.py, interactive_handler.py,
    session_lifecycle.py, worker_process.py, slack_bridge.py). */
module SessionHandlers {
  import opened Wrappers
  import opened SessionStatus

  type Key = string

  /** A stored input wait; only its presence matters here. */
  type InputWait = string
  const EMPTY_WAIT: InputWait := "{}"
  const FREE_INPUT_WAIT: InputWait := "free_input"

  datatype Session = Session(
    status: Status,
    turnId: Option<string>,
    turnEventId: Option<string>,
    turnQueueId: Option<nat>,
    turnOwner: Option<string>,
    turnStartedAt: Option<nat>,
    inputWait: Option<InputWait>,
    paneId: Option<string>,
    windowName: string,
    userId: string)

  /** The values a new turn is started with. */
  datatype TurnInfo = TurnInfo(turnId: string, eventId: Option<string>, owner: Option<string>, startedAt: nat)

  function ActivateTurn(s: Session, info: TurnInfo, queueId: Option<nat>): (r: Session) {
    s.(turnId := Some(info.turnId), turnEventId := info.eventId, turnQueueId := queueId,
       turnOwner := Some(if info.owner.Some? && info.owner.value != "" then info.owner.value else s.userId),
       turnStartedAt := Some(info.startedAt))
  }

  /** The session carries this turn, for this queue row; it belongs to the sender of its message, or to the session's
      user when there is none. */
  predicate CarriesTurn(s: Session, info: TurnInfo, queueId: Option<nat>) {
    && s.turnId == Some(info.turnId) && s.turnEventId == info.eventId
    && s.turnStartedAt == Some(info.startedAt) && s.turnQueueId == queueId
    && s.turnOwner == Some(if info.owner.None? || info.owner.value == "" then s.userId else info.owner.value)
  }

  predicate BusyWith(s: Session, info: TurnInfo, queueId: Option<nat>) {
    s.status == Busy && CarriesTurn(s, info, queueId)
  }

  function ClearTurn(s: Session): (r: Session) {
    s.(turnId := None, turnEventId := None, turnQueueId := None, turnOwner := None, turnStartedAt := None)
  }

  predicate TurnClear(s: Session) {
    s.turnId.None? && s.turnEventId.None? && s.turnQueueId.None? && s.turnOwner.None? && s.turnStartedAt.None?
  }

  /** The updates of an input wait: four of the five turn fields from a snapshot, and the wait. */
  function WithTurnOf(s: Session, snapshot: Session, wait: Option<InputWait>): (r: Session) {
    s.(turnId := snapshot.turnId, turnEventId := snapshot.turnEventId, turnOwner := snapshot.turnOwner,
       turnStartedAt := snapshot.turnStartedAt, inputWait := wait)
  }

  /** What the other parts of the bridge rely on: a busy session names its turn, a session at rest
      names none, and an input wait is stored exactly while one is pending. */
  predicate SessionOk(s: Session) {
    && (s.status == Busy ==> s.turnId.Some?)
    && (s.status in {Creating, Starting, Ready, Idle, Suspended, Killed} ==> TurnClear(s))
    && (s.status !in {Killed, Error} ==> (s.inputWait.Some? <==> s.status == Waiting))
  }

  /** How the launch of a worker ends. */
  datatype Launch =
    | Launched
    | AllocationDeferred
    | ReadyTimeout(paneKilled: bool)
    | LaunchFailed(paneKilled: bool)
    | DispatchFailed(paneKilled: bool)

  /** The drain that follows a completed turn: what the queue claim returned, and whether tmux took it. */
  datatype Drain = NoItem | ClaimLost | Claimed(queueId: nat, info: TurnInfo, sent: bool)

  datatype Event =
    | RouteMessage(info: TurnInfo, sent: bool)
    | UserReply(info: TurnInfo, sent: bool)
    | WaitDetected(wait: InputWait, notified: bool)
    | TurnComplete(turnId: string, waits: bool, consumed: bool, drain: Drain)
    | DrainQueue(drain: Drain)
    | Cancel
    | Kill(paneKilled: bool)
    | ReapIdle(paneKilled: bool)
    | Suspend
    | TerminateForRestart
    | PaneMissing
    | BusyTimeout
    | WaitTimeout
    | StartupCleanup
    | Start(pane: string, window: string, launch: Launch, info: TurnInfo, queueId: Option<nat>)
    | Recover(pane: string, window: string, launch: Launch, info: TurnInfo)
    | RestartQueued(pane: string, window: string, launch: Launch, info: TurnInfo, queueId: Option<nat>)
    | ChannelChanged
    | ReviveReadyTimeout

  // ---------------------------------------------------------------- net effect of each handler

  function AfterDrain(s: Session, drain: Drain): (r: Session) {
    if drain.Claimed? && s.status == Idle then
      if drain.sent then ActivateTurn(s, drain.info, Some(drain.queueId)).(status := Busy) else ClearTurn(s)
    else s
  }

  function AsSuspended(s: Session): (r: Session) {
    ClearTurn(s).(status := Suspended, inputWait := None)
  }

  function AfterLaunch(s: Session, pane: string, window: string, launch: Launch, info: TurnInfo, queueId: Option<nat>)
    : (r: Session)
  {
    if launch.AllocationDeferred? then ClearTurn(s).(status := Suspended, paneId := None)
    else LaunchEnded(s.(paneId := Some(pane), windowName := window), launch, info, queueId)
  }

  /** The end of a launch that got a pane; a teardown clears the pane once tmux no longer has it. */
  function LaunchEnded(placed: Session, launch: Launch, info: TurnInfo, queueId: Option<nat>): (r: Session)
    requires !launch.AllocationDeferred?
  {
    match launch
    case Launched => ActivateTurn(placed, info, queueId).(status := Busy)
    case ReadyTimeout(killed) =>
      ClearTurn(placed).(status := Suspended, paneId := if killed then None else placed.paneId)
    case LaunchFailed(killed) =>
      ClearTurn(placed).(status := Error, paneId := if killed then None else placed.paneId)
    case DispatchFailed(killed) =>
      ClearTurn(placed).(status := Error, paneId := if killed then None else placed.paneId)
  }

  /** An answer starts a new turn; if it cannot be sent, the wait is stored again without the turn. */
  function AfterUserReply(s: Session, info: TurnInfo, sent: bool): (r: Session) {
    if s.status != Waiting || s.paneId.None? || s.windowName == "" then s
    else if sent then ActivateTurn(s, info, None).(status := Busy, inputWait := None)
    else ClearTurn(s).(inputWait := if s.inputWait.Some? then s.inputWait else Some(EMPTY_WAIT))
  }

  function Handle(s: Session, e: Event): (r: Session) {
    match e
    case RouteMessage(info, sent) =>
      if s.status !in {Ready, Idle} then s
      else if sent then ActivateTurn(s, info, None).(status := Busy) else ClearTurn(s).(status := Idle)
    case UserReply(info, sent) => AfterUserReply(s, info, sent)
    case WaitDetected(wait, notified) =>
      if s.status != Busy then s
      else if notified then s.(status := Waiting, inputWait := Some(wait)) else s.(inputWait := None)
    case TurnComplete(turnId, waits, consumed, drain) =>
      if s.turnId != Some(turnId) || s.status in {Error, Killed} then s
      else if s.status == Waiting then
        if waits then s else AfterDrain(ClearTurn(s).(status := Idle, inputWait := None), drain)
      else if s.status != Busy || (s.turnQueueId.Some? && !consumed) then s
      else if waits then ClearTurn(s).(status := Waiting, inputWait := Some(FREE_INPUT_WAIT))
      else AfterDrain(ClearTurn(s).(status := Idle, inputWait := None), drain)
    case DrainQueue(drain) => AfterDrain(s, drain)
    case Cancel =>
      if s.status in {Busy, Waiting} then ClearTurn(s).(status := Idle, inputWait := None) else s
    case Kill(paneKilled) =>
      if s.paneId.Some? && !paneKilled then s
      else if s.status in ACTIVE + {Suspended} then ClearTurn(s).(status := Killed, paneId := None) else s
    case ReapIdle(paneKilled) =>
      if s.status != Idle || (s.paneId.Some? && !paneKilled) then s
      else ClearTurn(s).(status := Killed, paneId := None)
    case Suspend => if s.status in {Ready, Idle, Waiting, Busy} then AsSuspended(s) else s
    case TerminateForRestart => if s.status in ACTIVE then AsSuspended(s) else s
    case PaneMissing => if s.status in ACTIVE && s.paneId.Some? then AsSuspended(s) else s
    case BusyTimeout => if s.status == Busy then AsSuspended(s) else s
    case WaitTimeout => if s.status == Waiting then AsSuspended(s) else s
    case StartupCleanup =>
      if s.status in {Starting, Ready, Busy, Idle, Waiting, Suspended} then AsSuspended(s) else s
    case Start(pane, window, launch, info, queueId) =>
      if s.status == Creating then AfterLaunch(s.(status := Starting), pane, window, launch, info, queueId) else s
    case Recover(pane, window, launch, info) =>
      if s.status in {Suspended, Killed}
      then AfterLaunch(ClearTurn(s).(status := Starting, inputWait := None, paneId := None), pane, window, launch,
                       info, None)
      else s
    case RestartQueued(pane, window, launch, info, queueId) =>
      if s.status == Suspended
      then AfterLaunch(ClearTurn(s).(status := Starting, inputWait := None, paneId := None), pane, window, launch,
                       info, queueId)
      else s
    case ChannelChanged => if s.status in {Error, Killed} then s else s.(status := Error)
    case ReviveReadyTimeout =>
      if s.status == Error then ClearTurn(s).(status := Suspended, paneId := None, inputWait := None) else s
  }

  function NewSession(userId: string, window: string): (s: Session) {
    Session(Creating, None, None, None, None, None, None, None, window, userId)
  }

  /** How long ago the session was active, against the limits of the cleanup loop. */
  datatype Clock = Clock(turnTooLong: bool, waitTooLong: bool, stale: bool, retired: bool)

  datatype Cleanup = Nothing | Remove | Happens(event: Event)

  /** What the cleanup loop does with a session; whether a kill succeeds depends on the pane. */
  function Due(s: Session, clock: Clock, paneExists: bool): (due: Cleanup) {
    if s.status in ACTIVE && s.paneId.Some? && !paneExists then Happens(PaneMissing)
    else if s.status == Busy && clock.turnTooLong then Happens(BusyTimeout)
    else if s.status == Waiting && clock.waitTooLong then Happens(WaitTimeout)
    else if s.status in {Idle, Ready} && clock.stale then Happens(Kill(true))
    else if s.status == Waiting && clock.stale then Happens(Suspend)
    else if s.status in {Error, Killed} && clock.retired then Remove
    else Nothing
  }

  function CleanupEvent(due: Cleanup, paneKilled: bool): (e: Event)
    requires due.Happens?
  {
    if due.event.Kill? then Kill(paneKilled) else due.event
  }

  // ---------------------------------------------------------------- every run of handlers

  datatype Action =
    | Create(key: Key, userId: string, window: string)
    | Run(key: Key, event: Event)
    | Delete(key: Key)

  function Next(sessions: map<Key, Session>, a: Action): (r: map<Key, Session>) {
    match a
    case Create(key, userId, window) =>
      if key in sessions then sessions else sessions[key := NewSession(userId, window)]
    case Run(key, e) => if key in sessions then sessions[key := Handle(sessions[key], e)] else sessions
    case Delete(key) =>
      if key in sessions && sessions[key].status in {Error, Killed} then sessions - {key} else sessions
  }

  function Exec(run: seq<Action>): (r: map<Key, Session>) {
    if run == [] then map[] else Next(Exec(run[..|run| - 1]), run[|run| - 1])
  }

  lemma LaunchKeepsOk(s: Session, pane: string, window: string, launch: Launch, info: TurnInfo, queueId: Option<nat>)
    requires s.status == Starting && SessionOk(s)
    ensures SessionOk(AfterLaunch(s, pane, window, launch, info, queueId))
  {
  }

  lemma DrainKeepsOk(s: Session, drain: Drain)
    requires SessionOk(s)
    ensures SessionOk(AfterDrain(s, drain))
  {
  }

  lemma HandleKeepsOk(s: Session, e: Event)
    requires SessionOk(s)
    ensures SessionOk(Handle(s, e))
  {
    var restarted := ClearTurn(s).(status := Starting, inputWait := None, paneId := None);
    match e
    case Start(pane, window, launch, info, queueId) =>
      if s.status == Creating {
        LaunchKeepsOk(s.(status := Starting), pane, window, launch, info, queueId);
      }
    case Recover(pane, window, launch, info) => LaunchKeepsOk(restarted, pane, window, launch, info, None);
    case RestartQueued(pane, window, launch, info, queueId) =>
      LaunchKeepsOk(restarted, pane, window, launch, info, queueId);
    case TurnComplete(_, _, _, drain) => DrainKeepsOk(ClearTurn(s).(status := Idle, inputWait := None), drain);
    case DrainQueue(drain) => DrainKeepsOk(s, drain);
    case _ =>
  }

  /** Whatever handlers run in whatever order: every session is consistent, and each handler moves it
      along the status table or through one of the direct writes (revival, channel change, launch). */
  lemma {:induction false} EverySessionOk(run: seq<Action>, key: Key)
    requires key in Exec(run)
    ensures SessionOk(Exec(run)[key])
  {
    if run != [] {
      var before, a := Exec(run[..|run| - 1]), run[|run| - 1];
      if key in before {
        EverySessionOk(run[..|run| - 1], key);
        if a.Run? && a.key == key {
          HandleKeepsOk(before[key], a.event);
        }
      }
    }
  }

  /** One move of the transition table, or two. */
  predicate FollowsTable(from: Status, to: Status) {
    || to in AllowedTransitions(from)
    || exists mid :: mid in AllowedTransitions(from) && to in AllowedTransitions(mid)
  }

  /** The net effect of every handler on the status is a walk of at most two moves in the transition
      table, except where it overwrites the status: a revived launch leaves ERROR, which the table
      declares final. */
  lemma HandlersFollowTable(s: Session, e: Event)
    requires SessionOk(s)
    ensures e.ReviveReadyTimeout? || Handle(s, e).status == s.status || FollowsTable(s.status, Handle(s, e).status)
    ensures s.status == Error && !e.ReviveReadyTimeout? ==> Handle(s, e) == s
    ensures s.status == Error && e.ReviveReadyTimeout? ==> !FollowsTable(s.status, Handle(s, e).status)
  {
    var to := Handle(s, e).status;
    var mid := if s.status == Ready then Busy else Starting;
    if s.status != to && to !in AllowedTransitions(s.status) && s.status != Error {
      assert mid in AllowedTransitions(s.status) && to in AllowedTransitions(mid);
    }
  }

  /** _prepare_window writes STARTING without looking at the turn. A launch that begins late, when the
      session has moved on, keeps the session consistent exactly when it carries no turn and no wait. */
  function PrepareWindow(s: Session): (r: Session) {
    if s.status in {Killed, Error} then s else s.(status := Starting)
  }

  lemma LateLaunchOkIff(s: Session)
    requires SessionOk(s)
    ensures if s.status in {Killed, Error} then PrepareWindow(s) == s else PrepareWindow(s).status == Starting
    ensures SessionOk(PrepareWindow(s)) <==> s.status in {Killed, Error} || (s.status != Waiting && TurnClear(s))
    ensures s.status == Busy ==> !SessionOk(PrepareWindow(s))
  {
  }

  // ---------------------------------------------------------------- the handlers, step by step

  /** The sessions table and the handlers that write it through compare-and-set transitions. */
  class SessionTable {
    var sessions: map<Key, Session>

    constructor ()
      ensures sessions == map[]
    {
      sessions := map[];
    }

    /** SessionStore.transition: one transaction that checks the status, the table, and writes. */
    method Transition(key: Key, expected: set<Status>, target: Status, updates: Session -> Session)
      returns (updated: Option<Session>)
      modifies this
      ensures var was := old(sessions);
              if key in was && was[key].status in expected && target in AllowedTransitions(was[key].status)
              then updated == Some(updates(was[key].(status := target))) && sessions == was[key := updated.value]
              else updated == None && sessions == was
    {
      if key !in sessions {
        return None;
      }
      var session := sessions[key];
      if session.status !in expected {
        return None;
      }
      if target !in AllowedTransitions(session.status) {
        return None;
      }
      session := session.(status := target);
      session := updates(session);
      sessions := sessions[key := session];
      return Some(session);
    }

    /** SessionLifecycle.transition: a move the table forbids ends the session in ERROR. */
    method LifecycleTransition(key: Key, expected: set<Status>, target: Status, updates: Session -> Session)
      returns (updated: Option<Session>)
      modifies this
      ensures var was := old(sessions);
              if key in was && was[key].status in expected then
                && updated.Some? && sessions == was[key := updated.value]
                && updated.value == (if target in AllowedTransitions(was[key].status)
                                     then updates(was[key].(status := target))
                                     else ClearTurn(was[key]).(status := Error, inputWait := None))
              else updated == None && sessions == was
    {
      if key !in sessions || sessions[key].status !in expected {
        return None;
      }
      var current := sessions[key];
      if target !in AllowedTransitions(current.status) {
        current := ClearTurn(current).(status := Error, inputWait := None);
        sessions := sessions[key := current];
        return Some(current);
      }
      updated := Transition(key, {current.status}, target, updates);
    }

    /** MessageDispatch._route_active with its rollback. */
    method RouteActive(key: Key, info: TurnInfo, sent: bool)
      requires key in sessions
      modifies this
      ensures sessions == old(sessions)[key := Handle(old(sessions)[key], RouteMessage(info, sent))]
      ensures old(sessions)[key].status in {Ready, Idle} && sent ==> BusyWith(sessions[key], info, None)
    {
      var busy := Transition(key, {Ready, Idle}, Busy, s => ActivateTurn(s, info, None));
      if busy.Some? && !sent {
        var idle := Transition(key, {Busy}, Idle, ClearTurn);
      }
    }

    /** MessageDispatch._drain_queue; losing the BUSY transition gives the claimed item back. */
    method DrainOne(key: Key, drain: Drain)
      requires key in sessions
      modifies this
      ensures sessions == old(sessions)[key := Handle(old(sessions)[key], DrainQueue(drain))]
      ensures old(sessions)[key].status == Idle && drain.Claimed? && drain.sent ==>
                BusyWith(sessions[key], drain.info, Some(drain.queueId))
    {
      if !drain.Claimed? {
        return;
      }
      var busy := Transition(key, {Idle}, Busy, s => ActivateTurn(s, drain.info, Some(drain.queueId)));
      if busy.Some? && !drain.sent {
        var idle := Transition(key, {Busy}, Idle, ClearTurn);
      }
    }

    /** The first half of InteractiveHandler.handle_user_reply: a pane to send to, and the transition. */
    method BeginUserReply(key: Key, info: TurnInfo) returns (accepted: bool)
      requires key in sessions
      modifies this
      ensures sessions == old(sessions)[key := AfterUserReply(old(sessions)[key], info, true)]
      ensures var s := old(sessions)[key]; accepted <==> s.status == Waiting && s.paneId.Some? && s.windowName != ""
    {
      var session := sessions[key];
      if session.paneId.None? || session.windowName == "" {
        return false;
      }
      accepted := AnswerWait(key, info);
    }

    /** The transition of an answered wait. */
    method AnswerWait(key: Key, info: TurnInfo) returns (accepted: bool)
      requires key in sessions
      modifies this
      ensures var s := old(sessions)[key];
              && accepted == (s.status == Waiting)
              && sessions == if !accepted then old(sessions)
                             else old(sessions)[key := ActivateTurn(s, info, None).(status := Busy, inputWait := None)]
    {
      var updated := Transition(key, {Waiting}, Busy, s => ActivateTurn(s, info, None).(inputWait := None));
      return updated.Some?;
    }

    /** handle_user_reply: forward the answer, and roll back to waiting if tmux refuses it. */
    method HandleUserReply(key: Key, info: TurnInfo, sent: bool) returns (ok: bool)
      requires key in sessions
      modifies this
      ensures sessions == old(sessions)[key := AfterUserReply(old(sessions)[key], info, sent)]
      ensures ok ==> BusyWith(sessions[key], info, None)
    {
      var stored := sessions[key].inputWait;
      var wait := if stored.Some? then stored.value else EMPTY_WAIT;
      var accepted := BeginUserReply(key, info);
      if accepted && !sent {
        BackToWaiting(key, wait);
      }
      return accepted && sent;
    }

    /** The answer could not be sent: the turn is dropped and the wait is stored again. */
    method BackToWaiting(key: Key, wait: InputWait)
      requires key in sessions && sessions[key].status == Busy
      modifies this
      ensures var was := old(sessions)[key];
              sessions == old(sessions)[key := ClearTurn(was).(status := Waiting, inputWait := Some(wait))]
    {
      var back := Transition(key, {Busy}, Waiting, s => ClearTurn(s).(inputWait := Some(wait)));
    }

    /** InteractiveHandler.on_input_wait_detected: the turn stays, and comes back if Slack refuses. */
    method OnInputWaitDetected(key: Key, wait: InputWait, notified: bool)
      requires key in sessions
      modifies this
      ensures sessions == old(sessions)[key := Handle(old(sessions)[key], WaitDetected(wait, notified))]
    {
      var session := sessions[key];
      var waiting := Transition(key, {Busy}, Waiting, s => WithTurnOf(s, session, Some(wait)));
      if waiting.Some? && !notified {
        var busy := Transition(key, {Waiting}, Busy, s => WithTurnOf(s, session, None));
      }
    }

    /** handle_turn_complete and MessageDispatch.complete_turn, with the drain that follows. */
    method CompleteTurn(key: Key, turnId: string, waits: bool, consumed: bool, drain: Drain)
      requires key in sessions
      modifies this
      ensures sessions == old(sessions)[key := Handle(old(sessions)[key], TurnComplete(turnId, waits, consumed, drain))]
    {
      var current := sessions[key];
      if current.status in {Error, Killed} || current.turnId != Some(turnId) {
        return;
      }
      if waits {
        if current.status == Waiting {
          return;
        }
        if current.turnQueueId.Some? && !consumed {
          return;
        }
        var waiting := Transition(key, {Busy}, Waiting, s => ClearTurn(s).(inputWait := Some(FREE_INPUT_WAIT)));
        return;
      }
      if current.status == Waiting {
        EndTurn(key, Waiting, drain);
        return;
      }
      if current.turnQueueId.Some? && !consumed {
        return;
      }
      EndTurn(key, Busy, drain);
    }

    /** The end of a completion: the session comes to rest, then the next item is drained. */
    method EndTurn(key: Key, from: Status, drain: Drain)
      requires key in sessions && from in {Busy, Waiting}
      modifies this
      ensures var was := old(sessions)[key];
              sessions == old(sessions)[key :=
                if was.status != from then was
                else AfterDrain(ClearTurn(was).(status := Idle, inputWait := None), drain)]
    {
      var idle := Transition(key, {from}, Idle, s => ClearTurn(s).(inputWait := None));
      if idle.Some? {
        DrainOne(key, drain);
      }
    }

    method CancelSession(key: Key) returns (updated: Option<Session>)
      requires key in sessions
      modifies this
      ensures sessions == old(sessions)[key := Handle(old(sessions)[key], Cancel)]
      ensures updated.Some? <==> old(sessions)[key].status in {Busy, Waiting}
    {
      if sessions[key].status !in {Busy, Waiting} {
        return None;
      }
      updated := LifecycleTransition(key, {Busy, Waiting}, Idle, s => ClearTurn(s).(inputWait := None));
    }

    method KillSession(key: Key, paneKilled: bool) returns (updated: Option<Session>)
      requires key in sessions
      modifies this
      ensures sessions == old(sessions)[key := Handle(old(sessions)[key], Kill(paneKilled))]
    {
      if sessions[key].paneId.Some? && !paneKilled {
        return None;
      }
      updated := LifecycleTransition(key, ACTIVE + {Suspended}, Killed, s => ClearTurn(s).(paneId := None));
    }

    method SuspendSession(key: Key) returns (updated: Option<Session>)
      requires key in sessions
      modifies this
      ensures sessions == old(sessions)[key := Handle(old(sessions)[key], Suspend)]
    {
      updated := LifecycleTransition(key, {Ready, Idle, Waiting, Busy}, Suspended,
                                     s => ClearTurn(s).(inputWait := None));
    }

    /** terminate_for_restart: also tells the caller which queue row to make retryable. */
    method TerminateSession(key: Key) returns (queueId: Option<nat>)
      requires key in sessions
      modifies this
      ensures sessions == old(sessions)[key := Handle(old(sessions)[key], TerminateForRestart)]
      ensures queueId == if old(sessions)[key].status in ACTIVE then old(sessions)[key].turnQueueId else None
    {
      queueId := sessions[key].turnQueueId;
      var updated := LifecycleTransition(key, ACTIVE, Suspended, s => ClearTurn(s).(inputWait := None));
      if updated.None? {
        queueId := None;
      }
    }

    /** cleanup_stale for one session: the first of its checks that applies. A busy or waiting timeout reports the queue
        row that must fail. */
    method CleanupStale(key: Key, clock: Clock, paneExists: bool, paneKilled: bool) returns (failed: Option<nat>)
      requires key in sessions
      modifies this
      ensures var was, due := old(sessions)[key], Due(old(sessions)[key], clock, paneExists);
              && sessions == (match due
                              case Nothing => old(sessions)
                              case Remove => old(sessions) - {key}
                              case Happens(_) => old(sessions)[key := Handle(was, CleanupEvent(due, paneKilled))])
              && failed == if due.Happens? && due.event in {BusyTimeout, WaitTimeout} then was.turnQueueId else None
    {
      var session := sessions[key];
      failed := None;
      if session.status in ACTIVE && session.paneId.Some? && !paneExists {
        SuspendFrom(key, session.status);
        return;
      }
      if session.status == Busy && clock.turnTooLong {
        SuspendFrom(key, Busy);
        return session.turnQueueId;
      }
      if session.status == Waiting && clock.waitTooLong {
        SuspendFrom(key, Waiting);
        return session.turnQueueId;
      }
      if session.status in {Idle, Ready} && clock.stale {
        var killed := KillSession(key, paneKilled);
        return;
      }
      if session.status == Waiting && clock.stale {
        var suspended := SuspendSession(key);
      }
      if session.status in {Error, Killed} && clock.retired {
        sessions := sessions - {key};
      }
    }

    method SuspendFrom(key: Key, status: Status)
      requires key in sessions && sessions[key].status == status && status in ACTIVE
      modifies this
      ensures sessions == old(sessions)[key := AsSuspended(old(sessions)[key])]
    {
      var updated := LifecycleTransition(key, {status}, Suspended, s => ClearTurn(s).(inputWait := None));
    }

    /** WorkerProcess._launch from a session in STARTING. */
    method LaunchWorker(key: Key, pane: string, window: string, launch: Launch, info: TurnInfo, queueId: Option<nat>)
      requires key in sessions && sessions[key].status == Starting
      modifies this
      ensures sessions == old(sessions)[key := AfterLaunch(old(sessions)[key], pane, window, launch, info, queueId)]
    {
      sessions := sessions[key := PrepareWindow(sessions[key])];
      if launch.AllocationDeferred? {
        sessions := sessions[key := ClearTurn(sessions[key]).(status := Suspended, paneId := None)];
        return;
      }
      sessions := sessions[key := sessions[key].(paneId := Some(pane), windowName := window)];
      EndLaunch(key, launch, info, queueId);
    }

    /** The rest of the launch, once the pane is stored: readiness, then the first message. */
    method EndLaunch(key: Key, launch: Launch, info: TurnInfo, queueId: Option<nat>)
      requires key in sessions && sessions[key].status == Starting && !launch.AllocationDeferred?
      modifies this
      ensures sessions == old(sessions)[key := LaunchEnded(old(sessions)[key], launch, info, queueId)]
    {
      if launch.ReadyTimeout? || launch.LaunchFailed? {
        FailSession(key, launch.paneKilled, if launch.ReadyTimeout? then Suspended else Error);
        return;
      }
      DispatchFirst(key, info, queueId);
      if launch.DispatchFailed? {
        FailSession(key, launch.paneKilled, Error);
      }
    }

    /** WorkerProcess._dispatch_message: the session becomes busy with the first message. */
    method DispatchFirst(key: Key, info: TurnInfo, queueId: Option<nat>)
      requires key in sessions && sessions[key].status == Starting
      modifies this
      ensures sessions == old(sessions)[key := ActivateTurn(old(sessions)[key].(status := Busy), info, queueId)]
      ensures BusyWith(sessions[key], info, queueId)
    {
      var busy := Transition(key, {Starting}, Busy, s => ActivateTurn(s, info, queueId));
    }

    /** WorkerProcess._fail_session: a killed session is left alone, the stored wait is not touched. */
    method FailSession(key: Key, paneKilled: bool, status: Status)
      requires key in sessions
      modifies this
      ensures var was := old(sessions)[key];
              sessions == if was.status == Killed then old(sessions)
                          else old(sessions)[key := ClearTurn(was).(status := status,
                                                                    paneId := if paneKilled then None else was.paneId)]
    {
      var current := sessions[key];
      if current.status == Killed {
        return;
      }
      sessions := sessions[key := ClearTurn(current).(status := status,
                                                      paneId := if paneKilled then None else current.paneId)];
    }

    /** make_recover_session_handler: bring a suspended or killed session back with a fresh worker. */
    method RecoverSession(key: Key, hasCapacity: bool, pane: string, window: string, launch: Launch, info: TurnInfo)
      requires key in sessions
      modifies this
      ensures sessions == if !hasCapacity then old(sessions)
                          else old(sessions)[key := Handle(old(sessions)[key], Recover(pane, window, launch, info))]
    {
      if hasCapacity {
        var begun := BeginRecovery(key);
        if begun {
          LaunchWorker(key, pane, window, launch, info, None);
        }
      }
    }

    /** The transition in front of the fresh launch. */
    method BeginRecovery(key: Key) returns (begun: bool)
      requires key in sessions
      modifies this
      ensures var was := old(sessions)[key];
              && begun == (was.status in {Suspended, Killed})
              && sessions == if !begun then old(sessions)
                             else old(sessions)[key := ClearTurn(was).(status := Starting, paneId := None,
                                                                       inputWait := None)]
    {
      var updated := LifecycleTransition(key, {Suspended, Killed}, Starting,
                                         s => ClearTurn(s).(paneId := None, inputWait := None));
      return updated.Some?;
    }

    /** WorkerProcess.start for a newly created session. */
    method StartSession(key: Key, pane: string, window: string, launch: Launch, info: TurnInfo, queueId: Option<nat>)
      requires key in sessions
      modifies this
      ensures sessions == old(sessions)[key := Handle(old(sessions)[key], Start(pane, window, launch, info, queueId))]
    {
      var claimed := Transition(key, {Creating}, Starting, s => s);
      if claimed.Some? {
        LaunchWorker(key, pane, window, launch, info, queueId);
      }
    }
  }
}
