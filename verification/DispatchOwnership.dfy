/** Who is responsible for a row in dispatch, with drain, completion, timeout and restart interleaved
    transaction by transaction (message_dispatch.py, session_lifecycle.py, slack_bridge.py). */
module DispatchOwnership {
  import opened Wrappers
  import opened SessionStatus
  import EventQueue

  type Conversation = EventQueue.Conversation
  type ThreadId = nat
  type Turn = nat

  datatype Session = Session(status: Status, turn: Option<Turn>, queueId: Option<nat>)

  /** A handler between two of its transactions. */
  datatype Thread =
    | Draining(c: Conversation, row: nat)                        // claimed the row, session not yet BUSY
    | Sending(c: Conversation, row: nat, turn: Turn)             // session BUSY, tmux send in progress
    | GivingBack(row: nat)                                       // about to make the row retryable
    | Completing(c: Conversation, turn: Turn, queueId: Option<nat>)   // read the BUSY session
    | Finishing(c: Conversation, turn: Turn)                     // row consumed, session not yet IDLE
    | TimingOut(c: Conversation, turn: Turn, queueId: Option<nat>)    // read the BUSY session
    | FailingRow(row: nat)                                       // session suspended, row not yet failed
    | Restarting(c: Conversation, turn: Turn, queueId: Option<nat>)   // read the BUSY session

  datatype State = State(tables: EventQueue.Tables, sessions: map<Conversation, Session>,
                         threads: map<ThreadId, Thread>, nextTurn: Turn, settled: seq<nat>)

  datatype Action =
    | NewSession(c: Conversation)
    | AppendFresh(payload: EventQueue.Payload, c: Conversation)
    | DirectTurn(c: Conversation)
    | StartDrain(t: ThreadId, c: Conversation, expected: EventQueue.Payload, leaseEnd: nat)
    | LoadForCompletion(t: ThreadId, c: Conversation)
    | LoadForTimeout(t: ThreadId, c: Conversation)
    | LoadForRestart(t: ThreadId, c: Conversation)
    | Step(t: ThreadId, sent: bool)
    | CrashAndStartup

  const AT_REST: Session := Session(Idle, None, None)
  const STOPPED: Session := Session(Suspended, None, None)

  function StatusOf(t: EventQueue.Tables, i: nat): (status: EventQueue.Status)
    requires i < |t.rows|
  {
    t.rows[i].status
  }

  /** The row went from unsettled to done or failed between two tables. */
  function NewlySettled(before: EventQueue.Tables, after: EventQueue.Tables, i: nat): (r: seq<nat>) {
    if i < |before.rows| && i < |after.rows| && EventQueue.Unsettled(StatusOf(before, i))
       && EventQueue.Settled(StatusOf(after, i)) then [i] else []
  }

  function WithTables(s: State, tables: EventQueue.Tables, row: nat): (r: State) {
    s.(tables := tables, settled := s.settled + NewlySettled(s.tables, tables, row))
  }

  function BusyOn(s: State, c: Conversation): (busy: bool) {
    c in s.sessions && s.sessions[c].status == Busy
  }

  function End(s: State, t: ThreadId): (r: State) {
    s.(threads := s.threads - {t})
  }

  function ThreadStep(s: State, t: ThreadId, sent: bool): (r: State)
    requires t in s.threads
  {
    match s.threads[t]
    case Draining(c, row) =>
      if c in s.sessions && s.sessions[c].status == Idle then
        s.(sessions := s.sessions[c := Session(Busy, Some(s.nextTurn), Some(row))],
           threads := s.threads[t := Sending(c, row, s.nextTurn)], nextTurn := s.nextTurn + 1)
      else s.(threads := s.threads[t := GivingBack(row)])
    case Sending(c, row, turn) =>
      if sent then End(s, t)
      else
        s.(sessions := if BusyOn(s, c) then s.sessions[c := AT_REST] else s.sessions,
           threads := s.threads[t := GivingBack(row)])
    case GivingBack(row) => End(WithTables(s, EventQueue.MarkRetryable(s.tables, row).0, row), t)
    case Completing(c, turn, queueId) =>
      if queueId.None? then s.(threads := s.threads[t := Finishing(c, turn)])
      else
        var (tables, ok) := EventQueue.ConsumeRow(s.tables, queueId.value);
        var next := WithTables(s, tables, queueId.value);
        if ok then next.(threads := s.threads[t := Finishing(c, turn)]) else End(next, t)
    case Finishing(c, turn) =>
      End(s.(sessions := if BusyOn(s, c) then s.sessions[c := AT_REST] else s.sessions), t)
    case TimingOut(c, turn, queueId) =>
      if !BusyOn(s, c) then End(s, t)
      else
        var next := s.(sessions := s.sessions[c := STOPPED]);
        if queueId.Some? then next.(threads := s.threads[t := FailingRow(queueId.value)]) else End(next, t)
    case FailingRow(row) => End(WithTables(s, EventQueue.FailRow(s.tables, row).0, row), t)
    case Restarting(c, turn, queueId) =>
      if c !in s.sessions || s.sessions[c].status !in ACTIVE then End(s, t)
      else
        var next := s.(sessions := s.sessions[c := STOPPED]);
        if queueId.Some? then next.(threads := s.threads[t := GivingBack(queueId.value)]) else End(next, t)
  }

  function Next(s: State, a: Action): (r: State) {
    match a
    case NewSession(c) => if c in s.sessions then s else s.(sessions := s.sessions[c := AT_REST])
    case AppendFresh(payload, c) =>
      if payload.eventId.Some? && EventQueue.FindEvent(s.tables.rows, payload.eventId.value).Some? then s
      else s.(tables := EventQueue.Append(s.tables, payload, c))
    case DirectTurn(c) =>
      if c in s.sessions && s.sessions[c].status in {Idle, Suspended} then
        s.(sessions := s.sessions[c := Session(Busy, Some(s.nextTurn), None)], nextTurn := s.nextTurn + 1)
      else s
    case StartDrain(t, c, expected, leaseEnd) =>
      if t in s.threads || c !in s.sessions then s
      else
        var (tables, claimed) := EventQueue.ClaimHead(s.tables, c, expected, leaseEnd);
        if claimed.None? then s
        else s.(tables := tables, threads := s.threads[t := Draining(c, claimed.value)])
    case LoadForCompletion(t, c) =>
      if t in s.threads || !BusyOn(s, c) || s.sessions[c].turn.None? then s
      else s.(threads := s.threads[t := Completing(c, s.sessions[c].turn.value, s.sessions[c].queueId)])
    case LoadForTimeout(t, c) =>
      if t in s.threads || !BusyOn(s, c) || s.sessions[c].turn.None? then s
      else s.(threads := s.threads[t := TimingOut(c, s.sessions[c].turn.value, s.sessions[c].queueId)])
    case LoadForRestart(t, c) =>
      if t in s.threads || !BusyOn(s, c) || s.sessions[c].turn.None? then s
      else s.(threads := s.threads[t := Restarting(c, s.sessions[c].turn.value, s.sessions[c].queueId)])
    case Step(t, sent) => if t in s.threads then ThreadStep(s, t, sent) else s
    case CrashAndStartup =>
      s.(tables := EventQueue.ResetDispatching(s.tables), threads := map[],
         sessions := map c | c in s.sessions :: STOPPED)
  }

  const INIT: State := State(EventQueue.Tables([], map[]), map[], map[], 0, [])

  function Exec(run: seq<Action>): (s: State) {
    if run == [] then INIT else Next(Exec(run[..|run| - 1]), run[|run| - 1])
  }

  // ---------------------------------------------------------------- owners

  datatype Owner = BySession(c: Conversation) | ByThread(t: ThreadId)

  predicate ThreadHolds(thread: Thread, row: nat) {
    match thread
    case Draining(_, r) => r == row
    case GivingBack(r) => r == row
    case FailingRow(r) => r == row
    case _ => false
  }

  predicate Owns(s: State, owner: Owner, row: nat) {
    match owner
    case BySession(c) => BusyOn(s, c) && s.sessions[c].queueId == Some(row)
    case ByThread(t) => t in s.threads && ThreadHolds(s.threads[t], row)
  }

  predicate InDispatch(s: State, row: nat) {
    row < |s.tables.rows| && s.tables.rows[row].status == EventQueue.Dispatching
  }

  /** Every row in dispatch has exactly one owner. */
  ghost predicate OneOwner(s: State) {
    && (forall row: nat :: InDispatch(s, row) ==> exists owner :: Owns(s, owner, row))
    && (forall row: nat, a, b :: InDispatch(s, row) && Owns(s, a, row) && Owns(s, b, row) ==> a == b)
  }

  /** An owned row is never offered to another claim. */
  ghost predicate OwnedRowsHidden(s: State) {
    forall owner, row: nat :: Owns(s, owner, row) ==>
      row < |s.tables.rows| && !EventQueue.Visible(s.tables.rows[row].status)
  }

  /** What a thread read about a session is still true of it while its turn is the same. */
  predicate Remembers(s: State, thread: Thread) {
    match thread
    case Sending(c, row, turn) =>
      turn < s.nextTurn && row < |s.tables.rows|
      && (c in s.sessions && s.sessions[c].turn == Some(turn) ==> s.sessions[c].queueId == Some(row))
    case Completing(c, turn, queueId) =>
      turn < s.nextTurn && (queueId.Some? ==> queueId.value < |s.tables.rows|)
      && (c in s.sessions && s.sessions[c].turn == Some(turn) ==> s.sessions[c].queueId == queueId)
    case TimingOut(c, turn, queueId) =>
      turn < s.nextTurn && (queueId.Some? ==> queueId.value < |s.tables.rows|)
      && (c in s.sessions && s.sessions[c].turn == Some(turn) ==> s.sessions[c].queueId == queueId)
    case Restarting(c, turn, queueId) =>
      turn < s.nextTurn && (queueId.Some? ==> queueId.value < |s.tables.rows|)
      && (c in s.sessions && s.sessions[c].turn == Some(turn) ==> s.sessions[c].queueId == queueId)
    case Finishing(c, turn) =>
      turn < s.nextTurn
      && (c in s.sessions && s.sessions[c].turn == Some(turn) && s.sessions[c].queueId.Some? ==>
            !InDispatch(s, s.sessions[c].queueId.value))
    case _ => true
  }

  ghost predicate Wellformed(s: State) {
    && (forall c :: c in s.sessions ==>
          && (s.sessions[c].turn.Some? ==> s.sessions[c].turn.value < s.nextTurn)
          && (s.sessions[c].status == Busy <==> s.sessions[c].turn.Some?)
          && (s.sessions[c].turn.None? ==> s.sessions[c].queueId.None?))
    && (forall t :: t in s.threads ==> Remembers(s, s.threads[t]))
    && (forall i :: 0 <= i < |s.tables.rows| ==>
          EventQueue.Unsettled(s.tables.rows[i].status) || EventQueue.Settled(s.tables.rows[i].status))
  }

  ghost predicate Inv(s: State) {
    OneOwner(s) && OwnedRowsHidden(s) && Wellformed(s)
  }

  /** The row the session stops naming when this thread writes it. */
  function LetGo(s: State, thread: Thread, sent: bool): (row: Option<nat>) {
    match thread
    case Sending(c, _, _) => if !sent && BusyOn(s, c) then s.sessions[c].queueId else None
    case Finishing(c, _) => if BusyOn(s, c) then s.sessions[c].queueId else None
    case TimingOut(c, _, _) => if BusyOn(s, c) then s.sessions[c].queueId else None
    case Restarting(c, _, _) => if BusyOn(s, c) then s.sessions[c].queueId else None
    case _ => None
  }

  /** The row this thread is about to give back or fail because of that write. */
  function TakenUp(s: State, thread: Thread, sent: bool): (row: Option<nat>) {
    match thread
    case Sending(_, row, _) => if sent then None else Some(row)
    case TimingOut(c, _, queueId) => if BusyOn(s, c) then queueId else None
    case Restarting(c, _, queueId) =>
      if c in s.sessions && s.sessions[c].status in ACTIVE then queueId else None
    case _ => None
  }

  /** What the handler would have to check before it writes the session: that the session still names the row the
      handler acts on; or else that the handler's own row is settled and the session names no row in dispatch. */
  predicate Safe(s: State, a: Action) {
    a.Step? && a.t in s.threads ==>
      var named, mine := LetGo(s, s.threads[a.t], a.sent), TakenUp(s, s.threads[a.t], a.sent);
      || named == mine
      || ((mine.Some? ==> RowSettled(s, mine.value)) && (named.Some? ==> !InDispatch(s, named.value)))
  }

  predicate RowSettled(s: State, row: nat) {
    row < |s.tables.rows| && EventQueue.Settled(s.tables.rows[row].status)
  }

  predicate HasTurn(s: State, c: Conversation, turn: Turn) {
    BusyOn(s, c) && s.sessions[c].turn == Some(turn)
  }

  // ---------------------------------------------------------------- what every step keeps ownership

  predicate RowHidden(s: State, row: nat) {
    row < |s.tables.rows| && !EventQueue.Visible(s.tables.rows[row].status)
  }

  /** Only one row changes hands or status; it ends with exactly one owner, or out of dispatch. */
  lemma OneRowMoves(s: State, t: State, r: nat, only: Owner)
    requires OneOwner(s) && OwnedRowsHidden(s)
    requires forall owner, row: nat :: row != r ==> (Owns(t, owner, row) <==> Owns(s, owner, row))
    requires forall row: nat :: row != r && InDispatch(t, row) ==> InDispatch(s, row)
    requires forall row: nat :: row != r && RowHidden(s, row) ==> RowHidden(t, row)
    requires (forall owner :: Owns(t, owner, r) ==> RowHidden(t, r))
    requires InDispatch(t, r) ==> Owns(t, only, r) && forall owner :: Owns(t, owner, r) ==> owner == only
    ensures OneOwner(t) && OwnedRowsHidden(t)
  {
    forall row: nat | InDispatch(t, row) ensures exists owner :: Owns(t, owner, row) {
      if row != r {
        var owner :| Owns(s, owner, row);
        assert Owns(t, owner, row);
      }
    }
    forall owner, row: nat | Owns(t, owner, row) ensures RowHidden(t, row) {
      if row != r {
        assert Owns(s, owner, row) && RowHidden(s, row);
      }
    }
  }

  /** Nothing changes hands. */
  lemma NothingMoves(s: State, t: State)
    requires OneOwner(s) && OwnedRowsHidden(s)
    requires forall owner, row: nat :: Owns(t, owner, row) <==> Owns(s, owner, row)
    requires forall row: nat :: InDispatch(t, row) ==> InDispatch(s, row)
    requires forall row: nat :: RowHidden(s, row) ==> RowHidden(t, row)
    ensures OneOwner(t) && OwnedRowsHidden(t)
  {
    forall row: nat | InDispatch(t, row) ensures exists owner :: Owns(t, owner, row) {
      var owner :| Owns(s, owner, row);
      assert Owns(t, owner, row);
    }
    forall owner, row: nat | Owns(t, owner, row) ensures RowHidden(t, row) {
      assert Owns(s, owner, row) && RowHidden(s, row);
    }
  }

  lemma NewSessionKeepsInv(s: State, c: Conversation)
    requires Inv(s)
    ensures Inv(Next(s, NewSession(c)))
  {
    NothingMoves(s, Next(s, NewSession(c)));
  }

  lemma DirectTurnKeepsInv(s: State, c: Conversation)
    requires Inv(s)
    ensures Inv(Next(s, DirectTurn(c)))
  {
    NothingMoves(s, Next(s, DirectTurn(c)));
  }

  lemma AppendFreshKeepsInv(s: State, payload: EventQueue.Payload, c: Conversation)
    requires Inv(s)
    ensures Inv(Next(s, AppendFresh(payload, c)))
  {
    var t := Next(s, AppendFresh(payload, c));
    if t != s {
      NothingMoves(s, t);
      forall u | u in t.threads ensures Remembers(t, t.threads[u]) {
        assert Remembers(s, s.threads[u]);
      }
    }
  }

  /** The handler is still reading, and holds no row. */
  predicate Reading(thread: Thread) {
    thread.Completing? || thread.TimingOut? || thread.Restarting?
  }

  /** A handler that has read a session holds nothing yet. */
  lemma ReaderKeepsInv(s: State, u: ThreadId, thread: Thread)
    requires Inv(s) && u !in s.threads && Reading(thread) && Remembers(s, thread)
    ensures Inv(s.(threads := s.threads[u := thread]))
  {
    var t := s.(threads := s.threads[u := thread]);
    NothingMoves(s, t);
    forall v | v in t.threads ensures Remembers(t, t.threads[v]) {
      assert v != u ==> Remembers(s, s.threads[v]);
    }
  }

  /** A busy session names an existing row, if it names one. */
  lemma BusyNamesRow(s: State, c: Conversation)
    requires Inv(s) && BusyOn(s, c)
    ensures s.sessions[c].turn.Some? && s.sessions[c].turn.value < s.nextTurn
    ensures s.sessions[c].queueId.Some? ==> s.sessions[c].queueId.value < |s.tables.rows|
  {
    assert s.sessions[c].queueId.Some? ==> Owns(s, BySession(c), s.sessions[c].queueId.value);
  }

  lemma LoadForCompletionKeepsInv(s: State, u: ThreadId, c: Conversation)
    requires Inv(s)
    ensures Inv(Next(s, LoadForCompletion(u, c)))
  {
    if u !in s.threads && BusyOn(s, c) {
      BusyNamesRow(s, c);
      ReaderKeepsInv(s, u, Completing(c, s.sessions[c].turn.value, s.sessions[c].queueId));
    }
  }

  lemma LoadForTimeoutKeepsInv(s: State, u: ThreadId, c: Conversation)
    requires Inv(s)
    ensures Inv(Next(s, LoadForTimeout(u, c)))
  {
    if u !in s.threads && BusyOn(s, c) {
      BusyNamesRow(s, c);
      ReaderKeepsInv(s, u, TimingOut(c, s.sessions[c].turn.value, s.sessions[c].queueId));
    }
  }

  lemma LoadForRestartKeepsInv(s: State, u: ThreadId, c: Conversation)
    requires Inv(s)
    ensures Inv(Next(s, LoadForRestart(u, c)))
  {
    if u !in s.threads && BusyOn(s, c) {
      BusyNamesRow(s, c);
      ReaderKeepsInv(s, u, Restarting(c, s.sessions[c].turn.value, s.sessions[c].queueId));
    }
  }

  /** A claim takes a visible row, so no session that is about to finish names it. */
  lemma ClaimKeepsMemory(s: State, t: State, thread: Thread, r: nat)
    requires OwnedRowsHidden(s) && Wellformed(s) && Remembers(s, thread)
    requires t.sessions == s.sessions && t.nextTurn == s.nextTurn && |t.tables.rows| == |s.tables.rows|
    requires r < |s.tables.rows| && EventQueue.Visible(s.tables.rows[r].status)
    requires forall row: nat :: row != r && InDispatch(t, row) ==> InDispatch(s, row)
    ensures Remembers(t, thread)
  {
    if thread.Finishing? && thread.c in s.sessions && s.sessions[thread.c].turn == Some(thread.turn)
       && s.sessions[thread.c].queueId.Some? {
      assert Owns(s, BySession(thread.c), s.sessions[thread.c].queueId.value);
    }
  }

  lemma StartDrainKeepsInv(s: State, a: Action)
    requires Inv(s) && a.StartDrain?
    ensures Inv(Next(s, a))
  {
    var t := Next(s, a);
    if t != s {
      var r := t.threads[a.t].row;
      assert EventQueue.Visible(s.tables.rows[r].status);
      assert forall owner :: !Owns(s, owner, r);
      assert Owns(t, ByThread(a.t), r);
      forall owner | Owns(t, owner, r) ensures owner == ByThread(a.t) {
        assert owner != ByThread(a.t) ==> Owns(s, owner, r);
      }
      OneRowMoves(s, t, r, ByThread(a.t));
      forall u | u in t.threads ensures Remembers(t, t.threads[u]) {
        if u != a.t {
          ClaimKeepsMemory(s, t, s.threads[u], r);
        }
      }
    }
  }

  lemma CrashKeepsInv(s: State)
    requires Inv(s)
    ensures Inv(Next(s, CrashAndStartup))
  {
    var t := Next(s, CrashAndStartup);
    assert forall owner, row: nat :: !Owns(t, owner, row);
  }

  lemma DrainingKeepsInv(s: State, t: ThreadId, sent: bool)
    requires Inv(s) && t in s.threads && s.threads[t].Draining?
    ensures Inv(ThreadStep(s, t, sent))
  {
    var r, c, next := s.threads[t].row, s.threads[t].c, ThreadStep(s, t, sent);
    assert Owns(s, ByThread(t), r);
    var only := if next.threads[t].Sending? then BySession(c) else ByThread(t);
    assert Owns(next, only, r);
    forall owner | InDispatch(next, r) && Owns(next, owner, r) ensures owner == only {
      assert owner != only ==> Owns(s, owner, r);
    }
    OneRowMoves(s, next, r, only);
  }

  lemma GivingBackKeepsInv(s: State, t: ThreadId, sent: bool)
    requires Inv(s) && t in s.threads && (s.threads[t].GivingBack? || s.threads[t].FailingRow?)
    ensures Inv(ThreadStep(s, t, sent))
  {
    var r, next := s.threads[t].row, ThreadStep(s, t, sent);
    assert Owns(s, ByThread(t), r);
    assert forall owner :: Owns(next, owner, r) ==> Owns(s, owner, r) && owner != ByThread(t);
    OneRowMoves(s, next, r, ByThread(t));
    forall u | u in next.threads ensures Remembers(next, next.threads[u]) {
      assert Remembers(s, s.threads[u]);
    }
  }

  lemma CompletingKeepsInv(s: State, t: ThreadId, sent: bool)
    requires Inv(s) && t in s.threads && s.threads[t].Completing?
    ensures Inv(ThreadStep(s, t, sent))
  {
    var next := ThreadStep(s, t, sent);
    assert Remembers(s, s.threads[t]);
    assert forall owner, row: nat :: Owns(next, owner, row) <==> Owns(s, owner, row);
    NothingMoves(s, next);
    CompletingKeepsMemory(s, t, sent);
  }

  /** Consuming a row takes no row into dispatch. */
  lemma ConsumingKeepsMemory(s: State, next: State, thread: Thread)
    requires Remembers(s, thread) && next.sessions == s.sessions && next.nextTurn == s.nextTurn
    requires |next.tables.rows| == |s.tables.rows|
    requires forall row: nat :: InDispatch(next, row) ==> InDispatch(s, row)
    ensures Remembers(next, thread)
  {
  }

  lemma CompletingKeepsMemory(s: State, t: ThreadId, sent: bool)
    requires Wellformed(s) && t in s.threads && s.threads[t].Completing?
    ensures Wellformed(ThreadStep(s, t, sent))
  {
    var next := ThreadStep(s, t, sent);
    assert Remembers(s, s.threads[t]);
    forall u | u in next.threads ensures Remembers(next, next.threads[u]) {
      if u != t {
        ConsumingKeepsMemory(s, next, s.threads[u]);
      }
    }
  }

  /** One session comes to rest and drops its turn; at most the acting thread changes. */
  lemma ClearingKeepsMemory(s: State, next: State, t: ThreadId, c: Conversation)
    requires Wellformed(s) && next.tables == s.tables && next.nextTurn == s.nextTurn
    requires next.sessions == s.sessions || next.sessions == s.sessions[c := AT_REST]
             || next.sessions == s.sessions[c := STOPPED]
    requires forall u :: u in next.threads ==>
               (u in s.threads && next.threads[u] == s.threads[u])
               || next.threads[u].FailingRow? || next.threads[u].GivingBack?
    ensures Wellformed(next)
  {
    forall u | u in next.threads ensures Remembers(next, next.threads[u]) {
      if u in s.threads {
        assert Remembers(s, s.threads[u]);
      }
    }
  }

  /** Each row that changes hands is either the same one, or not in dispatch; and the new holder's is hidden. */
  predicate Handover(s: State, released: Option<nat>, taken: Option<nat>) {
    && (released.Some? && InDispatch(s, released.value) ==> taken == released)
    && (taken.Some? && InDispatch(s, taken.value) ==> released == taken)
    && (taken.Some? ==> RowHidden(s, taken.value))
  }

  /** In the handler's terms. */
  lemma HandoverIsSafe(s: State, t: ThreadId, sent: bool)
    requires Inv(s) && t in s.threads
    ensures Handover(s, LetGo(s, s.threads[t], sent), TakenUp(s, s.threads[t], sent)) <==> Safe(s, Step(t, sent))
  {
    var named, mine := LetGo(s, s.threads[t], sent), TakenUp(s, s.threads[t], sent);
    if named.Some? {
      assert Owns(s, BySession(s.threads[t].c), named.value);
    }
  }

  /** A thread that holds nothing makes one session drop a row and takes up a row itself. */
  lemma HandOverIff(s: State, next: State, t: ThreadId, c: Conversation, released: Option<nat>, taken: Option<nat>)
    requires OneOwner(s) && OwnedRowsHidden(s) && next.tables == s.tables
    requires released.Some? ==> Owns(s, BySession(c), released.value)
    requires forall row: nat :: !Owns(s, ByThread(t), row)
    requires forall owner, row: nat :: Owns(next, owner, row) <==>
               if owner == ByThread(t) then taken == Some(row)
               else Owns(s, owner, row) && !(owner == BySession(c) && released == Some(row))
    ensures OneOwner(next) && OwnedRowsHidden(next) <==> Handover(s, released, taken)
    ensures OneOwner(next) && !Handover(s, released, taken) ==> taken.Some? && !RowHidden(s, taken.value)
  {
    assert taken.Some? ==> Owns(next, ByThread(t), taken.value);
    if released.Some? && InDispatch(s, released.value) && taken != released {
      assert forall owner :: !Owns(next, owner, released.value);
      assert InDispatch(next, released.value);
    } else if taken.Some? && InDispatch(s, taken.value) && released != taken {
      var owner :| Owns(s, owner, taken.value);
      assert Owns(next, owner, taken.value) && InDispatch(next, taken.value);
    } else if taken.None? || RowHidden(s, taken.value) {
      HandOverKeepsOwners(s, next, t, c, released, taken);
    }
  }

  lemma HandOverKeepsOwners(s: State, next: State, t: ThreadId, c: Conversation, released: Option<nat>,
                            taken: Option<nat>)
    requires OneOwner(s) && OwnedRowsHidden(s) && next.tables == s.tables
    requires forall owner, row: nat :: Owns(next, owner, row) <==>
               if owner == ByThread(t) then taken == Some(row)
               else Owns(s, owner, row) && !(owner == BySession(c) && released == Some(row))
    requires forall row: nat :: !Owns(s, ByThread(t), row)
    requires released.Some? ==> Owns(s, BySession(c), released.value)
    requires released.Some? && InDispatch(s, released.value) ==> taken == released
    requires taken.Some? ==> RowHidden(s, taken.value) && (InDispatch(s, taken.value) ==> released == taken)
    ensures OneOwner(next) && OwnedRowsHidden(next)
  {
    forall row: nat | InDispatch(next, row) ensures exists owner :: Owns(next, owner, row) {
      if taken == Some(row) {
        assert Owns(next, ByThread(t), row);
      } else {
        assert InDispatch(s, row);
        var owner :| Owns(s, owner, row);
        assert Owns(next, owner, row);
      }
    }
    forall row: nat, a, b | InDispatch(next, row) && Owns(next, a, row) && Owns(next, b, row) ensures a == b {
      assert InDispatch(s, row);
    }
    forall owner, row: nat | Owns(next, owner, row) ensures RowHidden(next, row) {
      assert owner != ByThread(t) ==> Owns(s, owner, row) && RowHidden(s, row);
    }
  }

  predicate WritesSession(thread: Thread) {
    thread.Sending? || thread.Finishing? || thread.TimingOut? || thread.Restarting?
  }

  /** Who owns what after such a write. */
  lemma SessionWriteMoves(s: State, t: ThreadId, sent: bool)
    requires t in s.threads && WritesSession(s.threads[t])
    ensures var next := ThreadStep(s, t, sent);
            var c, released, taken := s.threads[t].c, LetGo(s, s.threads[t], sent), TakenUp(s, s.threads[t], sent);
            && (released.Some? ==> Owns(s, BySession(c), released.value))
            && (forall row: nat :: !Owns(s, ByThread(t), row))
            && (forall owner, row: nat :: Owns(next, owner, row) <==>
                  if owner == ByThread(t) then taken == Some(row)
                  else Owns(s, owner, row) && !(owner == BySession(c) && released == Some(row)))
  {
  }

  lemma SessionWriteIff(s: State, t: ThreadId, sent: bool)
    requires Inv(s) && t in s.threads
    requires WritesSession(s.threads[t])
    ensures Inv(ThreadStep(s, t, sent)) <==> Safe(s, Step(t, sent))
  {
    var c, next := s.threads[t].c, ThreadStep(s, t, sent);
    SessionWriteMoves(s, t, sent);
    HandOverIff(s, next, t, c, LetGo(s, s.threads[t], sent), TakenUp(s, s.threads[t], sent));
    HandoverIsSafe(s, t, sent);
    ClearingKeepsMemory(s, next, t, c);
  }

  /** A step from a state with one owner per row keeps one owner per row if and only if it is safe. */
  lemma StepKeepsInvIff(s: State, a: Action)
    requires Inv(s)
    ensures Inv(Next(s, a)) <==> Safe(s, a)
  {
    if a.Step? && a.t in s.threads {
      match s.threads[a.t]
      case Draining(_, _) => DrainingKeepsInv(s, a.t, a.sent);
      case GivingBack(_) => GivingBackKeepsInv(s, a.t, a.sent);
      case FailingRow(_) => GivingBackKeepsInv(s, a.t, a.sent);
      case Completing(_, _, _) => CompletingKeepsInv(s, a.t, a.sent);
      case _ => SessionWriteIff(s, a.t, a.sent);
    } else {
      match a
      case StartDrain(_, _, _, _) => StartDrainKeepsInv(s, a);
      case CrashAndStartup => CrashKeepsInv(s);
      case Step(_, _) =>
      case LoadForCompletion(u, c) => LoadForCompletionKeepsInv(s, u, c);
      case LoadForTimeout(u, c) => LoadForTimeoutKeepsInv(s, u, c);
      case LoadForRestart(u, c) => LoadForRestartKeepsInv(s, u, c);
      case NewSession(c) => NewSessionKeepsInv(s, c);
      case DirectTurn(c) => DirectTurnKeepsInv(s, c);
      case AppendFresh(payload, c) => AppendFreshKeepsInv(s, payload, c);
    }
  }

  // ---------------------------------------------------------------- exactly when rows keep one owner

  function ExecFrom(s: State, more: seq<Action>): (r: State)
    decreases |more|
  {
    if more == [] then s else ExecFrom(Next(s, more[0]), more[1..])
  }

  /** Further claims: handlers that start to drain a queue, and sessions that come to be. */
  predicate OnlyClaims(more: seq<Action>) {
    forall k :: 0 <= k < |more| ==> more[k].StartDrain? || more[k].NewSession?
  }

  /** Each row in dispatch has one owner, now and whatever is claimed next. */
  ghost predicate OneOwnerStays(s: State) {
    forall more :: OnlyClaims(more) ==> OneOwner(ExecFrom(s, more))
  }

  lemma {:induction false} ClaimsKeepInv(s: State, more: seq<Action>)
    requires Inv(s) && OnlyClaims(more)
    ensures Inv(ExecFrom(s, more))
    decreases |more|
  {
    if more != [] {
      StepKeepsInvIff(s, more[0]);
      ClaimsKeepInv(Next(s, more[0]), more[1..]);
    }
  }

  lemma {:induction false} FreeThread(threads: map<ThreadId, Thread>) returns (u: ThreadId)
    ensures forall t :: t in threads ==> t < u
    decreases |threads|
  {
    if threads == map[] {
      u := 0;
    } else {
      var t :| t in threads;
      var smaller := threads - {t};
      assert |smaller.Keys| < |threads.Keys| by {
        assert smaller.Keys == threads.Keys - {t};
      }
      var v := FreeThread(smaller);
      u := if v > t then v else t + 1;
      assert forall x :: x in threads ==> x == t || x in smaller;
    }
  }

  /** A handler holds a row that still waits in the queue: some claims later the row has two owners. */
  lemma {:induction false} WaitingRowIsClaimed(s: State, t: ThreadId, r: nat) returns (more: seq<Action>)
    requires t in s.threads && ThreadHolds(s.threads[t], r)
    requires r < |s.tables.rows| && EventQueue.Visible(s.tables.rows[r].status)
    requires s.tables.rows[r].conversation in s.sessions
    ensures OnlyClaims(more) && !OneOwner(ExecFrom(s, more))
    decreases r - FrontOf(s, r)
  {
    var c, head := s.tables.rows[r].conversation, FrontOf(s, r);
    var u := FreeThread(s.threads);
    var claim := StartDrain(u, c, s.tables.rows[head].payload, 0);
    var next := Next(s, claim);
    ClaimFront(s, r, u);
    if head == r {
      more := [claim];
      assert ExecFrom(next, []) == next && ExecFrom(s, more) == ExecFrom(next, more[1..]);
      assert Owns(next, ByThread(t), r) && Owns(next, ByThread(u), r) && InDispatch(next, r);
    } else {
      var rest := WaitingRowIsClaimed(next, t, r);
      more := [claim] + rest;
      assert more[1..] == rest;
    }
  }

  /** The front of the queue that the row waits in. */
  function FrontOf(s: State, r: nat): (head: nat)
    requires r < |s.tables.rows| && EventQueue.Visible(s.tables.rows[r].status)
    ensures head <= r && EventQueue.FirstVisible(s.tables.rows, s.tables.rows[r].conversation) == Some(head)
  {
    EventQueue.FirstVisible(s.tables.rows, s.tables.rows[r].conversation).value
  }

  lemma ClaimFront(s: State, r: nat, u: ThreadId)
    requires r < |s.tables.rows| && EventQueue.Visible(s.tables.rows[r].status) && u !in s.threads
    requires s.tables.rows[r].conversation in s.sessions
    ensures var c, head := s.tables.rows[r].conversation, FrontOf(s, r);
            var next := Next(s, StartDrain(u, c, s.tables.rows[head].payload, 0));
            && next.sessions == s.sessions && next.threads == s.threads[u := Draining(c, head)]
            && |next.tables.rows| == |s.tables.rows| && next.tables.rows[head].status == EventQueue.Dispatching
            && (head != r ==> next.tables.rows[r] == s.tables.rows[r] && FrontOf(next, r) > head)
  {
  }

  /** A step from a state in order is safe if and only if each row in dispatch still has one owner after it, now and
      whatever is claimed next. */
  lemma SafeIffOneOwnerStays(s: State, a: Action)
    requires Inv(s)
    ensures Safe(s, a) <==> OneOwnerStays(Next(s, a))
  {
    StepKeepsInvIff(s, a);
    if Safe(s, a) {
      forall more | OnlyClaims(more) ensures OneOwner(ExecFrom(Next(s, a), more)) {
        ClaimsKeepInv(Next(s, a), more);
      }
    } else {
      var more := UnsafeStepBreaks(s, a);
    }
  }

  lemma UnsafeStepBreaks(s: State, a: Action) returns (more: seq<Action>)
    requires Inv(s) && !Safe(s, a)
    ensures OnlyClaims(more) && !OneOwner(ExecFrom(Next(s, a), more))
  {
    var next := Next(s, a);
    if !OneOwner(next) {
      more := [];
    } else {
      var r := UnsafeTakesWaiting(s, a.t, a.sent);
      var c := next.tables.rows[r].conversation;
      var rest := WaitingRowIsClaimed(Next(next, NewSession(c)), a.t, r);
      more := [NewSession(c)] + rest;
      assert more[1..] == rest;
    }
  }

  /** An unsafe write that leaves every row in dispatch with one owner takes up a row that waits in the queue. */
  lemma UnsafeTakesWaiting(s: State, t: ThreadId, sent: bool) returns (r: nat)
    requires Inv(s) && t in s.threads && !Safe(s, Step(t, sent)) && OneOwner(ThreadStep(s, t, sent))
    ensures var next := ThreadStep(s, t, sent);
            t in next.threads && ThreadHolds(next.threads[t], r)
            && r < |next.tables.rows| && EventQueue.Visible(next.tables.rows[r].status)
  {
    var thread, next := s.threads[t], ThreadStep(s, t, sent);
    HandoverIsSafe(s, t, sent);
    SessionWriteMoves(s, t, sent);
    HandOverIff(s, next, t, thread.c, LetGo(s, thread, sent), TakenUp(s, thread, sent));
    assert Remembers(s, thread);
    r := TakenUp(s, thread, sent).value;
  }

  /** In every state that the run goes through, each row in dispatch has one owner whatever is claimed next. */
  ghost predicate OwnedThroughout(run: seq<Action>) {
    OneOwnerStays(Exec(run)) && (run != [] ==> OwnedThroughout(run[..|run| - 1]))
  }

  ghost predicate SafeThroughout(run: seq<Action>) {
    run != [] ==> SafeThroughout(run[..|run| - 1]) && Safe(Exec(run[..|run| - 1]), run[|run| - 1])
  }

  lemma {:induction false} SafeRunKeepsInv(run: seq<Action>)
    requires SafeThroughout(run)
    ensures Inv(Exec(run))
  {
    if run == [] {
      assert Inv(INIT);
    } else {
      SafeRunKeepsInv(run[..|run| - 1]);
      StepKeepsInvIff(Exec(run[..|run| - 1]), run[|run| - 1]);
    }
  }

  /** In runs of drains, completions, busy timeouts, restarts, crashes and startup reclaims with fresh events, each
      row in dispatch is always named by exactly one busy session, or held by exactly one handler on its way,
      whatever is claimed next, if and only if every session write of the run is safe. */
  lemma {:induction false} EveryDispatchHasOneOwnerIff(run: seq<Action>)
    ensures OwnedThroughout(run) <==> SafeThroughout(run)
  {
    if run == [] {
      assert Inv(INIT);
      forall more | OnlyClaims(more) ensures OneOwner(ExecFrom(INIT, more)) {
        ClaimsKeepInv(INIT, more);
      }
    } else {
      var before := run[..|run| - 1];
      EveryDispatchHasOneOwnerIff(before);
      if SafeThroughout(before) {
        SafeRunKeepsInv(before);
        SafeIffOneOwnerStays(Exec(before), run[|run| - 1]);
      }
    }
  }

  /** A write by the handler of the session's own turn is safe. */
  lemma OwnTurnIsSafe(s: State, t: ThreadId, sent: bool)
    requires Inv(s) && t in s.threads
    requires WritesSession(s.threads[t])
    requires HasTurn(s, s.threads[t].c, s.threads[t].turn)
    ensures Safe(s, Step(t, sent))
  {
    assert Remembers(s, s.threads[t]);
    var q := s.sessions[s.threads[t].c].queueId;
    assert q.Some? ==> Owns(s, BySession(s.threads[t].c), q.value);
  }

  // ---------------------------------------------------------------- settled once

  /** The log of settlements lists each done or failed row, once. */
  ghost predicate SettledLog(s: State) {
    && (forall i: nat :: i in s.settled <==> i < |s.tables.rows| && EventQueue.Settled(StatusOf(s.tables, i)))
    && (forall j, k :: 0 <= j < k < |s.settled| ==> s.settled[j] != s.settled[k])
    && (forall i: nat :: i < |s.tables.rows| ==>
          EventQueue.Unsettled(StatusOf(s.tables, i)) || EventQueue.Settled(StatusOf(s.tables, i)))
  }

  /** A table change that leaves done and failed rows as they are, and settles at most row r. */
  lemma LoggedChange(s: State, tables: EventQueue.Tables, r: nat)
    requires SettledLog(s)
    requires |tables.rows| == |s.tables.rows|
    requires forall i: nat :: i < |tables.rows| && i != r ==> StatusOf(tables, i) == StatusOf(s.tables, i)
    requires r < |tables.rows| && EventQueue.Settled(StatusOf(s.tables, r)) ==>
               StatusOf(tables, r) == StatusOf(s.tables, r)
    requires r < |tables.rows| ==> EventQueue.Unsettled(StatusOf(tables, r)) || EventQueue.Settled(StatusOf(tables, r))
    ensures SettledLog(WithTables(s, tables, r))
  {
  }

  /** A claim or a startup reclaim settles nothing and revives nothing. */
  lemma LogUntouched(s: State, next: State)
    requires SettledLog(s) && next.settled == s.settled
    requires |s.tables.rows| <= |next.tables.rows|
    requires forall i: nat :: i < |s.tables.rows| ==>
               StatusOf(next.tables, i) == StatusOf(s.tables, i)
               || (EventQueue.Unsettled(StatusOf(s.tables, i)) && EventQueue.Unsettled(StatusOf(next.tables, i)))
    requires forall i: nat :: |s.tables.rows| <= i < |next.tables.rows| ==>
               EventQueue.Unsettled(StatusOf(next.tables, i))
    ensures SettledLog(next)
  {
  }

  /** Handlers that write the session, or give a row up without writing it, leave the tables alone. */
  lemma SessionStepsKeepTables(s: State, t: ThreadId, sent: bool)
    requires t in s.threads && !s.threads[t].GivingBack? && !s.threads[t].FailingRow? && !s.threads[t].Completing?
    ensures ThreadStep(s, t, sent).tables == s.tables && ThreadStep(s, t, sent).settled == s.settled
  {
  }

  lemma CompletingKeepsLog(s: State, t: ThreadId, sent: bool)
    requires SettledLog(s) && t in s.threads && s.threads[t].Completing?
    ensures SettledLog(ThreadStep(s, t, sent))
  {
    var queueId := s.threads[t].queueId;
    if queueId.Some? {
      LoggedChange(s, EventQueue.ConsumeRow(s.tables, queueId.value).0, queueId.value);
    }
  }

  lemma ThreadKeepsLog(s: State, t: ThreadId, sent: bool)
    requires SettledLog(s) && t in s.threads
    ensures SettledLog(ThreadStep(s, t, sent))
  {
    match s.threads[t]
    case GivingBack(row) => LoggedChange(s, EventQueue.MarkRetryable(s.tables, row).0, row);
    case FailingRow(row) => LoggedChange(s, EventQueue.FailRow(s.tables, row).0, row);
    case Completing(_, _, _) => CompletingKeepsLog(s, t, sent);
    case _ => SessionStepsKeepTables(s, t, sent);
  }

  lemma StepKeepsLog(s: State, a: Action)
    requires SettledLog(s)
    ensures SettledLog(Next(s, a))
  {
    if a.Step? {
      if a.t in s.threads {
        ThreadKeepsLog(s, a.t, a.sent);
      }
    } else {
      LogUntouched(s, Next(s, a));
    }
  }

  /** However the handlers interleave, every row is settled at most once, and is then done or failed for
      good. */
  lemma {:induction false} EveryRowSettledOnce(run: seq<Action>)
    ensures SettledLog(Exec(run))
  {
    if run != [] {
      EveryRowSettledOnce(run[..|run| - 1]);
      StepKeepsLog(Exec(run[..|run| - 1]), run[|run| - 1]);
    }
  }

  // ---------------------------------------------------------------- the unsafe write

  const FIRST := EventQueue.Payload(None, "first")
  const SECOND := EventQueue.Payload(None, "second")

  function TwoRows(first: EventQueue.Row, second: EventQueue.Row): (t: EventQueue.Tables) {
    EventQueue.Tables([first, second], map[])
  }

  function OneSession(c: Conversation, session: Session, rows: EventQueue.Tables, threads: map<ThreadId, Thread>,
                      turns: nat, settled: seq<nat>): (s: State) {
    State(rows, map[c := session], threads, turns, settled)
  }

  lemma OneMore(run: seq<Action>, a: Action, t: State) returns (longer: seq<Action>)
    requires t == Next(Exec(run), a)
    ensures longer == run + [a] && Exec(longer) == t
  {
    longer := run + [a];
    assert longer[..|run|] == run;
  }

  function FreshRow(c: Conversation, payload: EventQueue.Payload): (row: EventQueue.Row) {
    EventQueue.Row(c, payload, EventQueue.Queued, None, 0)
  }

  function ClaimedRow(c: Conversation, payload: EventQueue.Payload): (row: EventQueue.Row) {
    EventQueue.Row(c, payload, EventQueue.Dispatching, Some(EventQueue.Iso(100)), 1)
  }

  function DoneRow(c: Conversation, payload: EventQueue.Payload): (row: EventQueue.Row) {
    EventQueue.Row(c, payload, EventQueue.Done, None, 1)
  }

  /** Two items are queued for an idle session. */
  lemma QueueTwo(c: Conversation) returns (run: seq<Action>)
    ensures Exec(run) == OneSession(c, AT_REST, TwoRows(FreshRow(c, FIRST), FreshRow(c, SECOND)), map[], 0, [])
  {
    run := OneMore([], NewSession(c), OneSession(c, AT_REST, EventQueue.Tables([], map[]), map[], 0, []));
    run := OneMore(run, AppendFresh(FIRST, c),
                   OneSession(c, AT_REST, EventQueue.Tables([FreshRow(c, FIRST)], map[]), map[], 0, []));
    run := OneMore(run, AppendFresh(SECOND, c),
                   OneSession(c, AT_REST, TwoRows(FreshRow(c, FIRST), FreshRow(c, SECOND)), map[], 0, []));
  }

  lemma FirstIsClaimed(c: Conversation)
    ensures EventQueue.ClaimHead(TwoRows(FreshRow(c, FIRST), FreshRow(c, SECOND)), c, FIRST, 100)
            == (TwoRows(ClaimedRow(c, FIRST), FreshRow(c, SECOND)), Some(0))
  {
    var rows := TwoRows(FreshRow(c, FIRST), FreshRow(c, SECOND)).rows;
    assert rows[0] == FreshRow(c, FIRST);
    assert EventQueue.FirstVisible(rows, c) == Some(0);
    assert rows[0 := ClaimedRow(c, FIRST)] == [ClaimedRow(c, FIRST), FreshRow(c, SECOND)];
  }

  lemma SecondIsClaimed(c: Conversation)
    ensures EventQueue.ClaimHead(TwoRows(DoneRow(c, FIRST), FreshRow(c, SECOND)), c, SECOND, 100)
            == (TwoRows(DoneRow(c, FIRST), ClaimedRow(c, SECOND)), Some(1))
  {
    var rows := TwoRows(DoneRow(c, FIRST), FreshRow(c, SECOND)).rows;
    assert rows[0] == DoneRow(c, FIRST) && rows[1] == FreshRow(c, SECOND);
    assert EventQueue.FirstVisible(rows, c) == Some(1);
    assert rows[1 := ClaimedRow(c, SECOND)] == [DoneRow(c, FIRST), ClaimedRow(c, SECOND)];
  }

  /** Handler 1 starts to send the first item. */
  lemma SendFirst(c: Conversation) returns (run: seq<Action>)
    ensures Exec(run) == OneSession(c, Session(Busy, Some(0), Some(0)),
                                    TwoRows(ClaimedRow(c, FIRST), FreshRow(c, SECOND)),
                                    map[1 := Sending(c, 0, 0)], 1, [])
  {
    var claimed := TwoRows(ClaimedRow(c, FIRST), FreshRow(c, SECOND));
    run := QueueTwo(c);
    FirstIsClaimed(c);
    run := OneMore(run, StartDrain(1, c, FIRST, 100), OneSession(c, AT_REST, claimed, map[1 := Draining(c, 0)], 0, []));
    run := OneMore(run, Step(1, true),
                   OneSession(c, Session(Busy, Some(0), Some(0)), claimed, map[1 := Sending(c, 0, 0)], 1, []));
  }

  /** The worker completes the first item while handler 1 is still sending it. */
  lemma CompleteFirst(c: Conversation) returns (run: seq<Action>)
    ensures Exec(run) == OneSession(c, AT_REST, TwoRows(DoneRow(c, FIRST), FreshRow(c, SECOND)),
                                    map[1 := Sending(c, 0, 0)], 1, [0])
  {
    var claimed := TwoRows(ClaimedRow(c, FIRST), FreshRow(c, SECOND));
    var done := TwoRows(DoneRow(c, FIRST), FreshRow(c, SECOND));
    var busy := Session(Busy, Some(0), Some(0));
    run := SendFirst(c);
    run := OneMore(run, LoadForCompletion(2, c),
                   OneSession(c, busy, claimed, map[1 := Sending(c, 0, 0), 2 := Completing(c, 0, Some(0))], 1, []));
    run := OneMore(run, Step(2, true),
                   OneSession(c, busy, done, map[1 := Sending(c, 0, 0), 2 := Finishing(c, 0)], 1, [0]));
    run := Finishes(c, run);
  }

  lemma Finishes(c: Conversation, run: seq<Action>) returns (longer: seq<Action>)
    requires Exec(run) == OneSession(c, Session(Busy, Some(0), Some(0)),
                                     TwoRows(DoneRow(c, FIRST), FreshRow(c, SECOND)),
                                     map[1 := Sending(c, 0, 0), 2 := Finishing(c, 0)], 1, [0])
    ensures Exec(longer) == OneSession(c, AT_REST, TwoRows(DoneRow(c, FIRST), FreshRow(c, SECOND)),
                                       map[1 := Sending(c, 0, 0)], 1, [0])
  {
    var done := TwoRows(DoneRow(c, FIRST), FreshRow(c, SECOND));
    longer := OneMore(run, Step(2, true), OneSession(c, AT_REST, done, map[1 := Sending(c, 0, 0)], 1, [0]));
  }

  /** Handler 3 claims the second item, while handler 1 is still at work. */
  lemma ClaimSecond(c: Conversation) returns (run: seq<Action>)
    ensures Exec(run) == OneSession(c, AT_REST, TwoRows(DoneRow(c, FIRST), ClaimedRow(c, SECOND)),
                                    map[1 := Sending(c, 0, 0), 3 := Draining(c, 1)], 1, [0])
  {
    run := CompleteFirst(c);
    SecondIsClaimed(c);
    run := OneMore(run, StartDrain(3, c, SECOND, 100),
                   OneSession(c, AT_REST, TwoRows(DoneRow(c, FIRST), ClaimedRow(c, SECOND)),
                              map[1 := Sending(c, 0, 0), 3 := Draining(c, 1)], 1, [0]));
  }

  /** Handler 3 sends it. */
  lemma SendSecond(c: Conversation) returns (run: seq<Action>)
    ensures Exec(run) == OneSession(c, Session(Busy, Some(1), Some(1)),
                                    TwoRows(DoneRow(c, FIRST), ClaimedRow(c, SECOND)),
                                    map[1 := Sending(c, 0, 0)], 2, [0])
  {
    var both := TwoRows(DoneRow(c, FIRST), ClaimedRow(c, SECOND));
    var busy := Session(Busy, Some(1), Some(1));
    run := ClaimSecond(c);
    run := OneMore(run, Step(3, true),
                   OneSession(c, busy, both, map[1 := Sending(c, 0, 0), 3 := Sending(c, 1, 1)], 2, [0]));
    run := OneMore(run, Step(3, true), OneSession(c, busy, both, map[1 := Sending(c, 0, 0)], 2, [0]));
  }

  /** The write of a sender whose turn is over takes the session away from the next turn: here the
      second item stays in dispatch, delivered to the worker, with nobody to complete or return it before the next
      startup. */
  lemma LateFailureOrphansRow(c: Conversation) returns (run: seq<Action>)
    ensures InDispatch(Exec(run), 1) && forall owner :: !Owns(Exec(run), owner, 1)
    ensures Exec(run).sessions == map[c := AT_REST] && Exec(run).threads == map[]
  {
    var both := TwoRows(DoneRow(c, FIRST), ClaimedRow(c, SECOND));
    run := SendSecond(c);
    run := OneMore(run, Step(1, false), OneSession(c, AT_REST, both, map[1 := GivingBack(0)], 2, [0]));
    run := OneMore(run, Step(1, true), OneSession(c, AT_REST, both, map[], 2, [0]));
  }
}
