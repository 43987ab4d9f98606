/** The pass over the durable queue after a restart (slack_bridge.py, worker_process.py). */
module StartupDrain {
  import opened Wrappers
  import opened SessionStatus
  import EventQueue

  type Conversation = EventQueue.Conversation

  /** What failure_reason says of a suspension. */
  datatype Cause = AtStartup | AtShutdown | OtherCause

  datatype Session = Session(status: Status, cause: Cause)

  /** How a launch ends: the first message is sent, the launch fails (before the worker was ready, or for good), or
      no pane was free and the item goes back to the queue. */
  datatype LaunchEnd = Sent | Failed(timedOut: bool) | PutOff

  datatype Phase = NotBegun | Launching | Over(end: Option<LaunchEnd>)

  /** A worker thread: the row claimed for it, the session status it was started with, and how far it is. */
  datatype Start = Start(conversation: Conversation, row: nat, requested: Status, phase: Phase)

  datatype Stats = Stats(reset: nat, processed: nat, failed: nat, deferred: nat)

  datatype Pass = Pass(tables: EventQueue.Tables, sessions: map<Conversation, Session>, starts: seq<Start>,
                       stats: Stats)

  /** One transaction of the thread that was given this row. */
  datatype WorkerStep = Enter(row: nat) | Dispatch(row: nat) | Finish(row: nat, end: LaunchEnd)

  /** What happens before and during one visit: steps of worker threads, and whether tmux takes the message. */
  datatype Choice = Choice(workers: seq<WorkerStep>, sent: bool)

  predicate StartedIn(starts: seq<Start>, c: Conversation) {
    exists k :: 0 <= k < |starts| && starts[k].conversation == c
  }

  // ---------------------------------------------------------------- worker threads

  function FindStart(starts: seq<Start>, row: nat): (n: Option<nat>)
    ensures n.Some? ==> n.value < |starts| && starts[n.value].row == row
  {
    if starts == [] then None
    else if starts[|starts| - 1].row == row then Some(|starts| - 1)
    else FindStart(starts[..|starts| - 1], row)
  }

  /** WorkerProcess.start: the thread goes on if it moves the session from CREATING, or finds it as it
      was when the restart path claimed it; otherwise it is over. */
  function EnterStep(p: Pass, n: nat): (r: Pass)
    requires n < |p.starts|
  {
    var start := p.starts[n];
    var c := start.conversation;
    if start.phase != NotBegun then p
    else if c in p.sessions && p.sessions[c].status == Creating then
      p.(sessions := p.sessions[c := p.sessions[c].(status := Starting)],
         starts := p.starts[n := start.(phase := Launching)])
    else if c in p.sessions && p.sessions[c].status == Starting && start.requested == Starting then
      p.(starts := p.starts[n := start.(phase := Launching)])
    else p.(starts := p.starts[n := start.(phase := Over(None))])
  }

  /** _dispatch_message: the session becomes busy before the message is typed. */
  function DispatchStep(p: Pass, n: nat): (r: Pass)
    requires n < |p.starts|
  {
    var c := p.starts[n].conversation;
    if p.starts[n].phase == Launching && c in p.sessions && p.sessions[c].status == Starting
    then p.(sessions := p.sessions[c := p.sessions[c].(status := Busy)]) else p
  }

  /** The end of WorkerProcess._launch; a killed session is left alone. */
  function FinishStep(p: Pass, n: nat, end: LaunchEnd): (r: Pass)
    requires n < |p.starts|
  {
    var start := p.starts[n];
    var c := start.conversation;
    if start.phase != Launching || c !in p.sessions || p.sessions[c].status == Killed then p
    else
      var q := p.(starts := p.starts[n := start.(phase := Over(Some(end)))]);
      match end
      case Sent => q
      case Failed(timedOut) =>
        q.(sessions := p.sessions[c := Session(if timedOut then Suspended else Error, OtherCause)],
           tables := EventQueue.FailRow(p.tables, start.row).0)
      case PutOff =>
        q.(sessions := p.sessions[c := Session(Suspended, OtherCause)],
           tables := EventQueue.MarkRetryable(p.tables, start.row).0)
  }

  function StepWorker(p: Pass, step: WorkerStep): (r: Pass) {
    match FindStart(p.starts, step.row)
    case None => p
    case Some(n) =>
      match step
      case Enter(_) => EnterStep(p, n)
      case Dispatch(_) => DispatchStep(p, n)
      case Finish(_, end) => FinishStep(p, n, end)
  }

  function StepWorkers(p: Pass, steps: seq<WorkerStep>): (r: Pass) {
    if steps == [] then p else StepWorker(StepWorkers(p, steps[..|steps| - 1]), steps[|steps| - 1])
  }

  /** The session cannot take the item any more. */
  predicate Doomed(sessions: map<Conversation, Session>, c: Conversation) {
    c in sessions ==>
      sessions[c].status in {Error, Killed}
      || (sessions[c].status == Suspended && sessions[c].cause == OtherCause)
  }

  // ---------------------------------------------------------------- the pass

  function FailVisited(p: Pass, i: nat): (r: Pass)
    ensures |r.tables.rows| == |p.tables.rows|
  {
    var (tables, changed) := EventQueue.FailRow(p.tables, i);
    p.(tables := tables, stats := if changed then p.stats.(failed := p.stats.failed + 1) else p.stats)
  }

  function Defer(p: Pass): (r: Pass) {
    p.(stats := p.stats.(deferred := p.stats.deferred + 1))
  }

  /** Claim the head of the session's queue for a worker thread. */
  function StartHead(p: Pass, i: nat, c: Conversation, session: Session): (r: Pass)
    requires c in p.sessions
    ensures |r.tables.rows| == |p.tables.rows|
  {
    match EventQueue.FirstVisible(p.tables.rows, c)
    case None => FailVisited(p, i)
    case Some(head) =>
      var (tables, claimed) := EventQueue.ClaimHead(p.tables, c, p.tables.rows[head].payload, 0);
      Pass(tables, p.sessions[c := session], p.starts + [Start(c, head, session.status, NotBegun)],
           p.stats.(processed := p.stats.processed + 1))
  }

  /** _drain_queue on an idle session; a ready one refuses the transition. */
  function DrainHead(p: Pass, i: nat, c: Conversation, sent: bool): (r: Pass)
    requires c in p.sessions
    ensures |r.tables.rows| == |p.tables.rows|
  {
    match EventQueue.FirstVisible(p.tables.rows, c)
    case None => FailVisited(p, i)
    case Some(head) =>
      var claimed := EventQueue.ClaimHead(p.tables, c, p.tables.rows[head].payload, 0).0;
      var kept := sent && p.sessions[c].status == Idle;
      p.(tables := if kept then claimed else EventQueue.MarkRetryable(claimed, head).0,
         sessions := if kept then p.sessions[c := p.sessions[c].(status := Busy)] else p.sessions,
         stats := p.stats.(processed := p.stats.processed + 1))
  }

  datatype Verdict = Fails | Defers | Starts(session: Session) | Drains

  /** What the pass does about an item, by its session. */
  function VerdictOn(sessions: map<Conversation, Session>, c: Conversation): (v: Verdict) {
    if c !in sessions then Fails
    else
      var session := sessions[c];
      if session.status == Suspended && session.cause == AtStartup then Defers
      else if session.status == Creating then Starts(session)
      else if session.status == Suspended && session.cause == AtShutdown then Starts(Session(Starting, OtherCause))
      else if session.status in {Error, Killed, Suspended} then Fails
      else if session.status in {Ready, Idle} then Drains
      else Defers
  }

  function Act(p: Pass, i: nat, sent: bool): (r: Pass)
    requires i < |p.tables.rows|
    ensures |r.tables.rows| == |p.tables.rows|
  {
    var c := p.tables.rows[i].conversation;
    match VerdictOn(p.sessions, c)
    case Fails => FailVisited(p, i)
    case Defers => Defer(p)
    case Starts(session) => StartHead(p, i, c, session)
    case Drains => DrainHead(p, i, c, sent)
  }

  function Visit(p: Pass, i: nat, choice: Choice): (r: Pass)
    requires i < |p.tables.rows|
    ensures |r.tables.rows| == |p.tables.rows|
  {
    WorkersKeepLength(p, choice.workers);
    Act(StepWorkers(p, choice.workers), i, choice.sent)
  }

  lemma {:induction false} WorkersKeepLength(p: Pass, steps: seq<WorkerStep>)
    ensures |StepWorkers(p, steps).tables.rows| == |p.tables.rows|
  {
    if steps != [] {
      WorkersKeepLength(p, steps[..|steps| - 1]);
    }
  }

  /** The first visible rows, oldest first. */
  function ListVisible(rows: seq<EventQueue.Row>, limit: nat): (ids: seq<nat>)
    ensures |ids| <= limit
    ensures forall k :: 0 <= k < |ids| ==> ids[k] < |rows| && EventQueue.Visible(rows[ids[k]].status)
    ensures forall j, k :: 0 <= j < k < |ids| ==> ids[j] < ids[k]
    ensures forall i :: 0 <= i < |rows| && EventQueue.Visible(rows[i].status) && i !in ids ==> |ids| == limit
  {
    if rows == [] then []
    else
      var before := ListVisible(rows[..|rows| - 1], limit);
      if EventQueue.Visible(rows[|rows| - 1].status) && |before| < limit then before + [|rows| - 1] else before
  }

  function VisitAll(p: Pass, ids: seq<nat>, choices: seq<Choice>): (r: Pass)
    requires |ids| <= |choices| && forall k :: 0 <= k < |ids| ==> ids[k] < |p.tables.rows|
    ensures |r.tables.rows| == |p.tables.rows|
  {
    if ids == [] then p
    else Visit(VisitAll(p, ids[..|ids| - 1], choices), ids[|ids| - 1], choices[|ids| - 1])
  }

  /** The reclaim that the pass begins with. */
  function Begin(tables: EventQueue.Tables, sessions: map<Conversation, Session>): (p: Pass)
    ensures |p.tables.rows| == |tables.rows|
  {
    Pass(EventQueue.ResetDispatching(tables), sessions, [], Stats(EventQueue.CountDispatching(tables.rows), 0, 0, 0))
  }

  /** drain_durable_event_queue: reclaim, list, and visit. */
  function Drain(tables: EventQueue.Tables, sessions: map<Conversation, Session>, limit: nat,
                 choices: seq<Choice>)
    : (r: Pass)
    requires |choices| >= limit
    ensures |r.tables.rows| == |tables.rows|
  {
    var p := Begin(tables, sessions);
    VisitAll(p, ListVisible(p.tables.rows, limit), choices)
  }

  // ---------------------------------------------------------------- which rows fail

  /** The launch that the row was claimed for has failed. */
  predicate LaunchFailedFor(starts: seq<Start>, row: nat) {
    exists n :: 0 <= n < |starts| && starts[n].row == row && LaunchFailed(starts[n].phase)
  }

  predicate LaunchFailed(phase: Phase) {
    phase.Over? && phase.end.Some? && phase.end.value.Failed?
  }

  /** The rows whose session was doomed when the pass came to them. */
  function DoomedVisits(p: Pass, ids: seq<nat>, choices: seq<Choice>): (rows: set<nat>)
    requires |ids| <= |choices| && forall k :: 0 <= k < |ids| ==> ids[k] < |p.tables.rows|
  {
    if ids == [] then {}
    else
      var last := |ids| - 1;
      var met := StepWorkers(VisitAll(p, ids[..last], choices), choices[last].workers);
      DoomedVisits(p, ids[..last], choices)
      + if Doomed(met.sessions, p.tables.rows[ids[last]].conversation) then {ids[last]} else {}
  }

  /** What becomes of a row: settled rows stay, the others end failed or stay unsettled. */
  predicate Settles(row: EventQueue.Row, later: EventQueue.Row, failing: bool) {
    && later.conversation == row.conversation
    && (EventQueue.Settled(row.status) ==> later.status == row.status)
    && (EventQueue.Unsettled(row.status) ==>
          if failing then later.status == EventQueue.Failed else EventQueue.Unsettled(later.status))
  }

  ghost predicate RowsSettle(p: Pass, q: Pass, failed: set<nat>) {
    |q.tables.rows| == |p.tables.rows|
    && forall j :: 0 <= j < |p.tables.rows| ==>
         Settles(p.tables.rows[j], q.tables.rows[j], j in failed || LaunchFailedFor(q.starts, j))
  }

  /** Nothing from this row on was touched, by the pass or by a worker. */
  ghost predicate Untouched(p: Pass, q: Pass, bound: nat) {
    && |q.tables.rows| == |p.tables.rows|
    && (forall j :: bound <= j < |p.tables.rows| ==> q.tables.rows[j] == p.tables.rows[j])
    && (forall n :: 0 <= n < |q.starts| ==> q.starts[n].row < bound)
  }

  // ---------------------------------------------------------------- worker steps

  /** One thread moves on; unless it was over already. */
  lemma PhaseMoves(starts: seq<Start>, n: nat, phase: Phase, row: nat)
    requires n < |starts| && !LaunchFailed(starts[n].phase)
    ensures LaunchFailedFor(starts[n := starts[n].(phase := phase)], row) <==>
              LaunchFailedFor(starts, row) || (row == starts[n].row && LaunchFailed(phase))
  {
    var moved := starts[n := starts[n].(phase := phase)];
    if LaunchFailedFor(starts, row) {
      var m :| 0 <= m < |starts| && starts[m].row == row && LaunchFailed(starts[m].phase);
      assert moved[m] == starts[m];
    }
    if row == starts[n].row && LaunchFailed(phase) {
      assert moved[n].row == row && LaunchFailed(moved[n].phase);
    }
  }

  /** A worker step does to the rows what it says of its own: it fails its row, gives it back, or neither. */
  lemma WorkerStepSettles(p: Pass, q: Pass, failed: set<nat>, step: WorkerStep)
    requires RowsSettle(p, q, failed)
    ensures RowsSettle(p, StepWorker(q, step), failed)
  {
    var r := StepWorker(q, step);
    if r != q && FindStart(q.starts, step.row).Some? {
      var n := FindStart(q.starts, step.row).value;
      var start := q.starts[n];
      forall j | 0 <= j < |p.tables.rows|
        ensures Settles(p.tables.rows[j], r.tables.rows[j], j in failed || LaunchFailedFor(r.starts, j))
      {
        assert Settles(p.tables.rows[j], q.tables.rows[j], j in failed || LaunchFailedFor(q.starts, j));
        if r.starts != q.starts {
          PhaseMoves(q.starts, n, r.starts[n].phase, j);
        }
      }
    }
  }

  lemma WorkerStepTouches(p: Pass, q: Pass, bound: nat, step: WorkerStep)
    requires Untouched(p, q, bound)
    ensures Untouched(p, StepWorker(q, step), bound) && StepWorker(q, step).stats == q.stats
  {
  }

  lemma {:induction false} WorkersSettle(p: Pass, q: Pass, failed: set<nat>, bound: nat, steps: seq<WorkerStep>)
    requires RowsSettle(p, q, failed) && Untouched(p, q, bound)
    ensures RowsSettle(p, StepWorkers(q, steps), failed) && Untouched(p, StepWorkers(q, steps), bound)
    ensures StepWorkers(q, steps).stats == q.stats
  {
    if steps != [] {
      WorkersSettle(p, q, failed, bound, steps[..|steps| - 1]);
      var before := StepWorkers(q, steps[..|steps| - 1]);
      WorkerStepSettles(p, before, failed, steps[|steps| - 1]);
      WorkerStepTouches(p, before, bound, steps[|steps| - 1]);
    }
  }

  // ---------------------------------------------------------------- one visit

  /** Only rows up to this one change; settled rows and conversations stay. */
  predicate OnlyUpTo(rows: seq<EventQueue.Row>, later: seq<EventQueue.Row>, i: nat) {
    && |later| == |rows|
    && (forall j :: i < j < |rows| ==> later[j] == rows[j])
    && (forall j :: 0 <= j < |rows| ==> later[j].conversation == rows[j].conversation)
    && (forall j :: 0 <= j < |rows| && EventQueue.Settled(rows[j].status) ==> later[j].status == rows[j].status)
  }

  predicate AllUnsettledStay(rows: seq<EventQueue.Row>, later: seq<EventQueue.Row>) {
    |later| == |rows|
    && forall j :: 0 <= j < |rows| && EventQueue.Unsettled(rows[j].status) ==> EventQueue.Unsettled(later[j].status)
  }

  function Counted(stats: Stats): (n: nat) {
    stats.processed + stats.failed + stats.deferred
  }

  lemma HeadIsEarlier(rows: seq<EventQueue.Row>, i: nat)
    requires i < |rows| && EventQueue.Visible(rows[i].status)
    ensures EventQueue.FirstVisible(rows, rows[i].conversation).Some?
    ensures EventQueue.FirstVisible(rows, rows[i].conversation).value <= i
  {
  }

  lemma StartVisit(p: Pass, i: nat, c: Conversation, session: Session)
    requires i < |p.tables.rows| && EventQueue.Visible(p.tables.rows[i].status) && c == p.tables.rows[i].conversation
    requires c in p.sessions
    ensures var r := StartHead(p, i, c, session);
            && OnlyUpTo(p.tables.rows, r.tables.rows, i) && AllUnsettledStay(p.tables.rows, r.tables.rows)
            && r.stats == p.stats.(processed := p.stats.processed + 1)
            && r.sessions == p.sessions[c := session]
            && exists row: nat :: row <= i && r.starts == p.starts + [Start(c, row, session.status, NotBegun)]
  {
    HeadIsEarlier(p.tables.rows, i);
    var row := EventQueue.FirstVisible(p.tables.rows, c).value;
    assert StartHead(p, i, c, session).starts == p.starts + [Start(c, row, session.status, NotBegun)];
  }

  lemma DrainVisit(p: Pass, i: nat, c: Conversation, sent: bool)
    requires i < |p.tables.rows| && EventQueue.Visible(p.tables.rows[i].status) && c == p.tables.rows[i].conversation
    requires c in p.sessions
    ensures var r := DrainHead(p, i, c, sent);
            && OnlyUpTo(p.tables.rows, r.tables.rows, i) && AllUnsettledStay(p.tables.rows, r.tables.rows)
            && r.stats == p.stats.(processed := p.stats.processed + 1) && r.starts == p.starts
            && (r.sessions == p.sessions || r.sessions == p.sessions[c := p.sessions[c].(status := Busy)])
  {
    HeadIsEarlier(p.tables.rows, i);
  }

  lemma FailVisit(p: Pass, i: nat)
    requires i < |p.tables.rows| && EventQueue.Visible(p.tables.rows[i].status)
    ensures var r := FailVisited(p, i);
            && OnlyUpTo(p.tables.rows, r.tables.rows, i) && r.tables.rows[i].status == EventQueue.Failed
            && (forall j :: 0 <= j < |p.tables.rows| && j != i ==> r.tables.rows[j] == p.tables.rows[j])
            && r.stats == p.stats.(failed := p.stats.failed + 1) && r.sessions == p.sessions && r.starts == p.starts
  {
  }

  /** What one visit does to the visited row and to all others. */
  predicate Visited(p: Pass, r: Pass, i: nat)
    requires i < |p.tables.rows|
  {
    && OnlyUpTo(p.tables.rows, r.tables.rows, i)
    && Counted(r.stats) == Counted(p.stats) + 1 && r.stats.reset == p.stats.reset
    && if Doomed(p.sessions, p.tables.rows[i].conversation)
       then r.tables.rows[i].status == EventQueue.Failed
            && forall j :: 0 <= j < |p.tables.rows| && j != i ==> r.tables.rows[j] == p.tables.rows[j]
       else AllUnsettledStay(p.tables.rows, r.tables.rows)
  }

  lemma ActVisits(p: Pass, i: nat, sent: bool)
    requires i < |p.tables.rows| && EventQueue.Visible(p.tables.rows[i].status)
    ensures Visited(p, Act(p, i, sent), i)
    ensures var r := Act(p, i, sent);
            r.starts == p.starts
            || exists row: nat, requested ::
                 row <= i && r.starts == p.starts + [Start(p.tables.rows[i].conversation, row, requested, NotBegun)]
  {
    var c := p.tables.rows[i].conversation;
    assert Doomed(p.sessions, c) <==> VerdictOn(p.sessions, c).Fails?;
    match VerdictOn(p.sessions, c)
    case Fails => FailVisit(p, i);
    case Defers =>
    case Starts(session) => StartVisit(p, i, c, session);
    case Drains => DrainVisit(p, i, c, sent);
  }

  /** A new thread changes nothing about failed launches. */
  lemma NewThread(starts: seq<Start>, start: Start, row: nat)
    requires start.phase == NotBegun
    ensures LaunchFailedFor(starts + [start], row) <==> LaunchFailedFor(starts, row)
  {
    var more := starts + [start];
    if LaunchFailedFor(starts, row) {
      var m :| 0 <= m < |starts| && starts[m].row == row && LaunchFailed(starts[m].phase);
      assert more[m] == starts[m];
    }
  }

  lemma ActSettles(p: Pass, q: Pass, failed: set<nat>, i: nat, sent: bool)
    requires RowsSettle(p, q, failed) && Untouched(p, q, i) && i < |p.tables.rows|
    requires EventQueue.Visible(p.tables.rows[i].status)
    ensures var r := Act(q, i, sent);
            && RowsSettle(p, r, failed + if Doomed(q.sessions, p.tables.rows[i].conversation) then {i} else {})
            && Untouched(p, r, i + 1)
            && Counted(r.stats) == Counted(q.stats) + 1 && r.stats.reset == q.stats.reset
  {
    var r := Act(q, i, sent);
    ActVisits(q, i, sent);
    forall j | 0 <= j < |p.tables.rows| ensures LaunchFailedFor(r.starts, j) <==> LaunchFailedFor(q.starts, j) {
      if r.starts != q.starts {
        NewThread(q.starts, r.starts[|q.starts|], j);
      }
    }
    var more := failed + if Doomed(q.sessions, p.tables.rows[i].conversation) then {i} else {};
    forall j | 0 <= j < |p.tables.rows|
      ensures Settles(p.tables.rows[j], r.tables.rows[j], j in more || LaunchFailedFor(r.starts, j))
    {
      assert Settles(p.tables.rows[j], q.tables.rows[j], j in failed || LaunchFailedFor(q.starts, j));
    }
  }

  // ---------------------------------------------------------------- the whole pass

  predicate Listed(rows: seq<EventQueue.Row>, ids: seq<nat>) {
    && (forall k :: 0 <= k < |ids| ==> ids[k] < |rows| && EventQueue.Visible(rows[ids[k]].status))
    && (forall j, k :: 0 <= j < k < |ids| ==> ids[j] < ids[k])
  }

  function Bound(ids: seq<nat>): (bound: nat) {
    if ids == [] then 0 else ids[|ids| - 1] + 1
  }

  lemma {:induction false} PassSettles(p: Pass, ids: seq<nat>, choices: seq<Choice>)
    requires Listed(p.tables.rows, ids) && |ids| <= |choices| && p.starts == []
    requires forall j :: 0 <= j < |p.tables.rows| ==>
               EventQueue.Settled(p.tables.rows[j].status) || EventQueue.Unsettled(p.tables.rows[j].status)
    ensures var r := VisitAll(p, ids, choices);
            && RowsSettle(p, r, DoomedVisits(p, ids, choices)) && Untouched(p, r, Bound(ids))
            && Counted(r.stats) == Counted(p.stats) + |ids| && r.stats.reset == p.stats.reset
  {
    if ids != [] {
      var before, i, choice := ids[..|ids| - 1], ids[|ids| - 1], choices[|ids| - 1];
      PassSettles(p, before, choices);
      var q := VisitAll(p, before, choices);
      var failed := DoomedVisits(p, before, choices);
      WorkersSettle(p, q, failed, Bound(before), choice.workers);
      assert Bound(before) <= i;
      ActSettles(p, StepWorkers(q, choice.workers), failed, i, choice.sent);
    }
  }

  lemma ReclaimSettlesNothing(tables: EventQueue.Tables, sessions: map<Conversation, Session>, j: nat)
    requires j < |tables.rows|
    ensures Settles(tables.rows[j], Begin(tables, sessions).tables.rows[j], false)
  {
  }

  lemma SettlesAfter(row: EventQueue.Row, mid: EventQueue.Row, later: EventQueue.Row, failing: bool)
    requires Settles(row, mid, false) && Settles(mid, later, failing)
    ensures Settles(row, later, failing)
  {
  }

  predicate QueueRows(rows: seq<EventQueue.Row>) {
    forall j :: 0 <= j < |rows| ==> EventQueue.Settled(rows[j].status) || EventQueue.Unsettled(rows[j].status)
  }

  /** The pass and its workers fail exactly the rows whose session was gone, ended, or suspended for another reason
      than a restart when the pass came to them, and the rows whose own launch failed. They settle no other row. */
  lemma DrainFailsExactly(tables: EventQueue.Tables, sessions: map<Conversation, Session>, limit: nat,
                          choices: seq<Choice>, j: nat)
    requires |choices| >= limit && j < |tables.rows| && QueueRows(tables.rows)
    ensures var p, r := Begin(tables, sessions), Drain(tables, sessions, limit, choices);
            Settles(tables.rows[j], r.tables.rows[j],
                    j in DoomedVisits(p, ListVisible(p.tables.rows, limit), choices) || LaunchFailedFor(r.starts, j))
  {
    var p := Begin(tables, sessions);
    var listed := ListVisible(p.tables.rows, limit);
    PassSettles(p, listed, choices);
    ReclaimSettlesNothing(tables, sessions, j);
    var r := VisitAll(p, listed, choices);
    SettlesAfter(tables.rows[j], p.tables.rows[j], r.tables.rows[j],
                 j in DoomedVisits(p, listed, choices) || LaunchFailedFor(r.starts, j));
  }

  /** The returned figures count each listed row once, and say whether anything was reclaimed. */
  lemma StatsCountEveryRow(tables: EventQueue.Tables, sessions: map<Conversation, Session>, limit: nat,
                           choices: seq<Choice>)
    requires |choices| >= limit && QueueRows(tables.rows)
    ensures var stats := Drain(tables, sessions, limit, choices).stats;
            && Counted(stats) == |ListVisible(Begin(tables, sessions).tables.rows, limit)|
            && (stats.reset == 0 <==> NoneDispatching(tables.rows))
  {
    var p := Begin(tables, sessions);
    PassSettles(p, ListVisible(p.tables.rows, limit), choices);
    CountIsZero(tables.rows);
  }

  predicate NoneDispatching(rows: seq<EventQueue.Row>) {
    forall row :: row in rows ==> row.status != EventQueue.Dispatching
  }

  lemma {:induction false} CountIsZero(rows: seq<EventQueue.Row>)
    ensures EventQueue.CountDispatching(rows) == 0 <==> NoneDispatching(rows)
  {
    if rows != [] {
      CountIsZero(rows[..|rows| - 1]);
      assert rows == rows[..|rows| - 1] + [rows[|rows| - 1]];
    }
  }

  // ---------------------------------------------------------------- when no launch fails

  /** Every launch that ends in these steps has sent its message. */
  predicate AllSent(steps: seq<WorkerStep>) {
    forall m :: 0 <= m < |steps| && steps[m].Finish? ==> steps[m].end.Sent?
  }

  /** Nothing has changed about which items can be taken, and no launch has failed. */
  ghost predicate Calm(p: Pass, q: Pass) {
    (forall c :: Doomed(q.sessions, c) <==> Doomed(p.sessions, c))
    && forall n :: 0 <= n < |q.starts| ==> !LaunchFailed(q.starts[n].phase)
  }

  lemma {:induction false} WorkersStayCalm(p: Pass, q: Pass, steps: seq<WorkerStep>)
    requires Calm(p, q) && AllSent(steps)
    ensures Calm(p, StepWorkers(q, steps))
  {
    if steps != [] {
      WorkersStayCalm(p, q, steps[..|steps| - 1]);
      WorkerStaysCalm(p, StepWorkers(q, steps[..|steps| - 1]), steps[|steps| - 1]);
    }
  }

  lemma WorkerStaysCalm(p: Pass, q: Pass, step: WorkerStep)
    requires Calm(p, q) && (step.Finish? ==> step.end.Sent?)
    ensures Calm(p, StepWorker(q, step))
  {
  }

  lemma ActStaysCalm(p: Pass, q: Pass, i: nat, sent: bool)
    requires Calm(p, q) && i < |q.tables.rows|
    ensures Calm(p, Act(q, i, sent))
  {
  }

  lemma {:induction false} PassStaysCalm(p: Pass, ids: seq<nat>, choices: seq<Choice>)
    requires |ids| <= |choices| && (forall k :: 0 <= k < |ids| ==> ids[k] < |p.tables.rows|) && p.starts == []
    requires forall k :: 0 <= k < |ids| ==> AllSent(choices[k].workers)
    ensures Calm(p, VisitAll(p, ids, choices))
  {
    if ids != [] {
      var before, choice := ids[..|ids| - 1], choices[|ids| - 1];
      PassStaysCalm(p, before, choices);
      var q := VisitAll(p, before, choices);
      WorkersStayCalm(p, q, choice.workers);
      WorkersKeepLength(q, choice.workers);
      ActStaysCalm(p, StepWorkers(q, choice.workers), ids[|ids| - 1], choice.sent);
    }
  }

  lemma {:induction false} CalmVisits(p: Pass, ids: seq<nat>, choices: seq<Choice>, i: nat)
    requires |ids| <= |choices| && (forall k :: 0 <= k < |ids| ==> ids[k] < |p.tables.rows|) && p.starts == []
    requires forall k :: 0 <= k < |ids| ==> AllSent(choices[k].workers)
    ensures i in DoomedVisits(p, ids, choices) <==> i in ids && Doomed(p.sessions, p.tables.rows[i].conversation)
  {
    if ids != [] {
      var before, last := ids[..|ids| - 1], |ids| - 1;
      CalmVisits(p, before, choices, i);
      PassStaysCalm(p, before, choices);
      WorkersStayCalm(p, VisitAll(p, before, choices), choices[last].workers);
      assert i in ids <==> i in before || i == ids[last];
    }
  }

  lemma NoLaunchFailed(p: Pass, q: Pass, row: nat)
    requires Calm(p, q)
    ensures !LaunchFailedFor(q.starts, row)
  {
  }

  /** If no launch fails or is put off during the pass, it fails exactly the listed rows whose session was gone,
      ended, or suspended for another reason than a restart at the start, and settles no other row. */
  lemma DrainFailsExactlyDoomed(tables: EventQueue.Tables, sessions: map<Conversation, Session>, limit: nat,
                                choices: seq<Choice>, j: nat)
    requires |choices| >= limit && j < |tables.rows| && QueueRows(tables.rows)
    requires forall k :: 0 <= k < |choices| ==> AllSent(choices[k].workers)
    ensures var listed := ListVisible(Begin(tables, sessions).tables.rows, limit);
            Settles(tables.rows[j], Drain(tables, sessions, limit, choices).tables.rows[j],
                    j in listed && Doomed(sessions, tables.rows[j].conversation))
  {
    var p := Begin(tables, sessions);
    var listed := ListVisible(p.tables.rows, limit);
    DrainFailsExactly(tables, sessions, limit, choices, j);
    PassStaysCalm(p, listed, choices);
    CalmVisits(p, listed, choices, j);
    NoLaunchFailed(p, VisitAll(p, listed, choices), j);
    ReclaimSettlesNothing(tables, sessions, j);
    assert p.tables.rows[j].conversation == tables.rows[j].conversation;
  }

  // ---------------------------------------------------------------- the loop

  /** The bridge's state as the pass sees it. */
  class Runtime {
    var tables: EventQueue.Tables
    var sessions: map<Conversation, Session>
    var starts: seq<Start>

    constructor (tables: EventQueue.Tables, sessions: map<Conversation, Session>)
      ensures this.tables == tables && this.sessions == sessions && starts == []
    {
      this.tables, this.sessions, starts := tables, sessions, [];
    }

    ghost function Now(stats: Stats): (p: Pass)
      reads this
    {
      Pass(tables, sessions, starts, stats)
    }

    method DrainDurableEventQueue(limit: nat, choices: seq<Choice>) returns (stats: Stats)
      requires |choices| >= limit && starts == []
      modifies this
      ensures Now(stats) == Drain(old(tables), old(sessions), limit, choices)
    {
      stats := Stats(EventQueue.CountDispatching(tables.rows), 0, 0, 0);
      tables := EventQueue.ResetDispatching(tables);
      var listed := ListVisible(tables.rows, limit);
      stats := VisitRows(listed, choices, stats);
    }

    method VisitRows(listed: seq<nat>, choices: seq<Choice>, stats0: Stats) returns (stats: Stats)
      requires |listed| <= |choices| && forall j :: 0 <= j < |listed| ==> listed[j] < |tables.rows|
      modifies this
      ensures Now(stats) == VisitAll(old(Now(stats0)), listed, choices)
    {
      stats := stats0;
      for k := 0 to |listed|
        invariant |tables.rows| == |old(tables.rows)|
        invariant Now(stats) == VisitAll(old(Now(stats0)), listed[..k], choices)
      {
        assert listed[..k + 1][..k] == listed[..k];
        stats := VisitRow(listed[k], choices[k], stats);
      }
      assert listed[..|listed|] == listed;
    }

    /** One pass of the loop. */
    method VisitRow(i: nat, choice: Choice, stats0: Stats) returns (stats: Stats)
      requires i < |tables.rows|
      modifies this
      ensures Now(stats) == Visit(old(Now(stats0)), i, choice)
    {
      stats := RunWorkers(choice.workers, stats0);
      var c := tables.rows[i].conversation;
      if c !in sessions {
        stats := FailRow(i, stats);
        return;
      }
      var session := sessions[c];
      if session.status == Suspended && session.cause == AtStartup {
        stats := stats.(deferred := stats.deferred + 1);
        return;
      }
      if session.status == Creating {
        stats := StartOne(i, c, session, stats);
        return;
      }
      if session.status == Suspended && session.cause == AtShutdown {
        stats := StartOne(i, c, Session(Starting, OtherCause), stats);
        return;
      }
      if session.status in {Error, Killed, Suspended} {
        stats := FailRow(i, stats);
        return;
      }
      if session.status in {Ready, Idle} {
        stats := DrainOne(i, c, choice.sent, stats);
        return;
      }
      stats := stats.(deferred := stats.deferred + 1);
    }

    /** The worker threads run between two rows. */
    method RunWorkers(steps: seq<WorkerStep>, stats0: Stats) returns (stats: Stats)
      modifies this
      ensures Now(stats) == StepWorkers(old(Now(stats0)), steps) && |tables.rows| == |old(tables.rows)|
    {
      var p := StepWorkers(Pass(tables, sessions, starts, stats0), steps);
      WorkersKeepLength(Pass(tables, sessions, starts, stats0), steps);
      tables, sessions, starts, stats := p.tables, p.sessions, p.starts, p.stats;
    }

    /** Claim the head of the queue and hand it to a worker thread. */
    method StartOne(i: nat, c: Conversation, updated: Session, stats0: Stats) returns (stats: Stats)
      requires i < |tables.rows| && c in sessions
      modifies this
      ensures Now(stats) == StartHead(old(Now(stats0)), i, c, updated)
    {
      var head := EventQueue.FirstVisible(tables.rows, c);
      if head.None? {
        stats := FailRow(i, stats0);
        return;
      }
      tables := EventQueue.ClaimHead(tables, c, tables.rows[head.value].payload, 0).0;
      sessions := sessions[c := updated];
      starts := starts + [Start(c, head.value, updated.status, NotBegun)];
      stats := stats0.(processed := stats0.processed + 1);
    }

    /** Claim the head of the queue and send it, or give it back. */
    method DrainOne(i: nat, c: Conversation, sent: bool, stats0: Stats) returns (stats: Stats)
      requires i < |tables.rows| && c in sessions
      modifies this
      ensures Now(stats) == DrainHead(old(Now(stats0)), i, c, sent)
    {
      var head := EventQueue.FirstVisible(tables.rows, c);
      if head.None? {
        stats := FailRow(i, stats0);
        return;
      }
      tables := EventQueue.ClaimHead(tables, c, tables.rows[head.value].payload, 0).0;
      if sessions[c].status == Idle && sent {
        sessions := sessions[c := sessions[c].(status := Busy)];
      } else {
        tables := EventQueue.MarkRetryable(tables, head.value).0;
      }
      stats := stats0.(processed := stats0.processed + 1);
    }

    method FailRow(i: nat, stats0: Stats) returns (stats: Stats)
      modifies this`tables
      ensures Now(stats) == FailVisited(old(Now(stats0)), i)
    {
      var failed := EventQueue.FailRow(tables, i);
      tables := failed.0;
      stats := if failed.1 then stats0.(failed := stats0.failed + 1) else stats0;
    }
  }
}
