/** What every run of queue transactions keeps: settled rows, no lost item, an agreeing ledger. */
module QueueRuns {
  import opened Wrappers
  import opened EventQueue
  import opened QueueFifo

  /** One committed transaction. A crash is a run that ends anywhere. */
  datatype Op =
    | AppendOp(payload: Payload, conversation: Conversation)
    | InitialOp(payload: Payload, conversation: Conversation, leaseEnd: nat, sessionExists: bool)
    | ClaimOp(conversation: Conversation, expected: Payload, leaseEnd: nat)
    | ConsumeHeadOp(conversation: Conversation, item: Option<Payload>)
    | ConsumeRowOp(id: nat)
    | RetryOp(id: nat)
    | FailOp(id: nat)
    | FailSessionOp(conversation: Conversation)
    | ExpireOp(cutoff: nat)
    | ReclaimOp
    | ClaimEventOp(event: EventId)

  function Next(t: Tables, op: Op): (r: Tables) {
    match op
    case AppendOp(payload, c) => Append(t, payload, c)
    case InitialOp(payload, c, leaseEnd, sessionExists) => AppendClaimed(t, payload, c, leaseEnd, sessionExists).0
    case ClaimOp(c, expected, leaseEnd) => ClaimHead(t, c, expected, leaseEnd).0
    case ConsumeHeadOp(c, item) => ConsumeHead(t, c, item).0
    case ConsumeRowOp(id) => ConsumeRow(t, id).0
    case RetryOp(id) => MarkRetryable(t, id).0
    case FailOp(id) => FailRow(t, id).0
    case FailSessionOp(c) => FailSession(t, c)
    case ExpireOp(cutoff) => ResetExpired(t, cutoff)
    case ReclaimOp => ResetDispatching(t)
    case ClaimEventOp(event) => ClaimEvent(t, event).0
  }

  function Exec(t: Tables, run: seq<Op>): (r: Tables) {
    if run == [] then t else Next(Exec(t, run[..|run| - 1]), run[|run| - 1])
  }

  lemma {:induction false} ExecAppend(t: Tables, run: seq<Op>, more: seq<Op>)
    ensures Exec(t, run + more) == Exec(Exec(t, run), more)
  {
    if more == [] {
      assert run + more == run;
    } else {
      var shorter := more[..|more| - 1];
      ExecAppend(t, run, shorter);
      AllButLast(run, more);
    }
  }

  lemma AllButLast(run: seq<Op>, more: seq<Op>)
    requires more != []
    ensures (run + more)[..|run + more| - 1] == run + more[..|more| - 1]
  {
  }

  // ---------------------------------------------------------------- rows are permanent

  /** What a row may become: it keeps its event, and a settled status is final. */
  predicate Evolves(row: Row, later: Row) {
    && later.payload.eventId == row.payload.eventId
    && (Settled(row.status) ==> later.status == row.status)
    && (Unsettled(row.status) ==> Unsettled(later.status) || Settled(later.status))
  }

  predicate RowsEvolve(rows: seq<Row>, later: seq<Row>) {
    |rows| <= |later| && forall i :: 0 <= i < |rows| ==> Evolves(rows[i], later[i])
  }

  lemma ClaimsEvolve(t: Tables, op: Op)
    requires op.AppendOp? || op.InitialOp? || op.ClaimOp?
    ensures RowsEvolve(t.rows, Next(t, op).rows)
  {
  }

  lemma BulkEvolves(t: Tables, op: Op)
    requires op.FailSessionOp? || op.ExpireOp? || op.ReclaimOp?
    ensures RowsEvolve(t.rows, Next(t, op).rows)
  {
  }

  lemma NextEvolves(t: Tables, op: Op)
    ensures RowsEvolve(t.rows, Next(t, op).rows)
  {
    if op.AppendOp? || op.InitialOp? || op.ClaimOp? {
      ClaimsEvolve(t, op);
    } else if op.FailSessionOp? || op.ExpireOp? || op.ReclaimOp? {
      BulkEvolves(t, op);
    }
  }

  /** Whatever transactions follow: no row disappears or changes its event, and a done or failed row
      keeps exactly that status. */
  lemma {:induction false} RowsArePermanent(t: Tables, run: seq<Op>)
    ensures RowsEvolve(t.rows, Exec(t, run).rows)
  {
    if run != [] {
      var before := Exec(t, run[..|run| - 1]);
      RowsArePermanent(t, run[..|run| - 1]);
      NextEvolves(before, run[|run| - 1]);
      var after := Exec(t, run);
      forall i | 0 <= i < |t.rows| ensures Evolves(t.rows[i], after.rows[i]) {
        assert Evolves(t.rows[i], before.rows[i]) && Evolves(before.rows[i], after.rows[i]);
      }
    }
  }

  /** An appended event is in the queue for good, whatever came before and comes after. */
  lemma AppendedEventStays(t: Tables, before: seq<Op>, payload: Payload, c: Conversation, after: seq<Op>)
    requires payload.eventId.Some?
    ensures FindEvent(Exec(t, before + [AppendOp(payload, c)] + after).rows, payload.eventId.value).Some?
  {
    var s := Exec(t, before);
    ExecAppend(t, before, [AppendOp(payload, c)]);
    ExecAppend(t, before + [AppendOp(payload, c)], after);
    assert [AppendOp(payload, c)][..0] == [];
    var appended := Append(s, payload, c);
    assert Exec(t, before + [AppendOp(payload, c)]) == appended;
    RowsArePermanent(appended, after);
    var found := FindEvent(s.rows, payload.eventId.value);
    var i := if found.Some? then found.value else |s.rows|;
    assert appended.rows[i].payload.eventId == payload.eventId;
    assert Evolves(appended.rows[i], Exec(appended, after).rows[i]);
  }

  /** A crash after any transaction, then the startup reclaim: every row that was not done or failed is
      visible again, behind exactly the unsettled rows that were appended before it, and no done or
      failed row is visible, now or after any further run. */
  lemma CrashLosesNothing(t: Tables, run: seq<Op>, more: seq<Op>, i: nat)
    requires i < |Exec(t, run).rows|
    ensures var row := Exec(t, run).rows[i];
            var rank := |Backlog(Exec(t, run).rows[..i], row.conversation)|;
            var queue := VisibleQueue(Exec(t, run + [ReclaimOp]).rows, row.conversation);
            Unsettled(row.status) ==> rank < |queue| && queue[rank] == row.payload
    ensures var row := Exec(t, run).rows[i];
            Settled(row.status) ==>
              i < |Exec(t, run + [ReclaimOp] + more).rows|
              && Exec(t, run + [ReclaimOp] + more).rows[i].status == row.status
  {
    ReclaimAfter(t, run);
    if Unsettled(Exec(t, run).rows[i].status) {
      RankAfterReclaim(Exec(t, run), i);
    } else if Settled(Exec(t, run).rows[i].status) {
      SettledStays(t, run, [ReclaimOp] + more, i);
      Regroup(run, [ReclaimOp], more);
    }
  }

  lemma Regroup(a: seq<Op>, b: seq<Op>, c: seq<Op>)
    ensures a + b + c == a + (b + c)
  {
  }

  lemma SettledStays(t: Tables, run: seq<Op>, more: seq<Op>, i: nat)
    requires i < |Exec(t, run).rows| && Settled(Exec(t, run).rows[i].status)
    ensures i < |Exec(t, run + more).rows| && Exec(t, run + more).rows[i].status == Exec(t, run).rows[i].status
  {
    ExecAppend(t, run, more);
    RowsArePermanent(Exec(t, run), more);
    assert Evolves(Exec(t, run).rows[i], Exec(Exec(t, run), more).rows[i]);
  }

  lemma ReclaimAfter(t: Tables, run: seq<Op>)
    ensures Exec(t, run + [ReclaimOp]) == ResetDispatching(Exec(t, run))
  {
    ExecAppend(t, run, [ReclaimOp]);
    assert [ReclaimOp][..0] == [];
  }

  /** After the reclaim an unsettled row is visible behind the unsettled rows of its conversation before it. */
  lemma RankAfterReclaim(s: Tables, i: nat)
    requires i < |s.rows| && Unsettled(s.rows[i].status)
    ensures var row := s.rows[i];
            var rank, queue := |Backlog(s.rows[..i], row.conversation)|,
                               VisibleQueue(ResetDispatching(s).rows, row.conversation);
            rank < |queue| && queue[rank] == row.payload
  {
    ReclaimShowsWholeBacklog(s, s.rows[i].conversation);
    CellSplit(s.rows, i, s.rows[i].conversation);
  }

  // ---------------------------------------------------------------- the ledger

  predicate QueueStatus(status: Status) {
    Unsettled(status) || Settled(status)
  }

  predicate EventsUnique(rows: seq<Row>) {
    forall i, j :: 0 <= i < j < |rows| && rows[i].payload.eventId.Some? ==>
      rows[i].payload.eventId != rows[j].payload.eventId
  }

  /** The row's event is absent from the ledger, settled there, or carries the status of the row. */
  predicate LedgerAgrees(ledger: Ledger, row: Row) {
    row.payload.eventId.Some? && row.payload.eventId.value in ledger
    && !Settled(ledger[row.payload.eventId.value]) ==>
      ledger[row.payload.eventId.value] == row.status
  }

  predicate Consistent(t: Tables) {
    && (forall i :: 0 <= i < |t.rows| ==> QueueStatus(t.rows[i].status))
    && EventsUnique(t.rows)
    && (forall i :: 0 <= i < |t.rows| ==> LedgerAgrees(t.ledger, t.rows[i]))
  }

  /** An event reaches the ledger before the queue. */
  predicate LedgerFirst(t: Tables, op: Op) {
    op.ClaimEventOp? && op.event !in t.ledger ==> FindEvent(t.rows, op.event).None?
  }

  /** One row and its event's ledger entry change together. */
  lemma PointKeepsConsistent(t: Tables, r: Tables, i: nat)
    requires Consistent(t) && i < |t.rows|
    requires |r.rows| == |t.rows| && r.rows == t.rows[i := r.rows[i]]
    requires QueueStatus(r.rows[i].status) && r.rows[i].payload.eventId == t.rows[i].payload.eventId
    requires r.ledger.Keys == t.ledger.Keys && LedgerAgrees(r.ledger, r.rows[i])
    requires forall e :: e in t.ledger && Some(e) != t.rows[i].payload.eventId ==> r.ledger[e] == t.ledger[e]
    ensures Consistent(r)
  {
    forall j | 0 <= j < |r.rows| && j != i ensures LedgerAgrees(r.ledger, r.rows[j]) {
      assert LedgerAgrees(t.ledger, t.rows[j]);
      if r.rows[j].payload.eventId.Some? {
        assert r.rows[j].payload.eventId != t.rows[i].payload.eventId;
      }
    }
  }

  lemma NewRowKeepsConsistent(t: Tables, row: Row)
    requires Consistent(t) && QueueStatus(row.status)
    requires row.payload.eventId.Some? ==> FindEvent(t.rows, row.payload.eventId.value).None?
    ensures Consistent(Tables(t.rows + [row], LedgerFollows(t.ledger, row.payload.eventId, row.status)))
  {
    var ledger := LedgerFollows(t.ledger, row.payload.eventId, row.status);
    forall j | 0 <= j < |t.rows| ensures LedgerAgrees(ledger, t.rows[j]) {
      assert LedgerAgrees(t.ledger, t.rows[j]);
    }
  }

  lemma BulkKeepsConsistent(t: Tables, r: Tables, selection: Selection, status: Status)
    requires Consistent(t) && QueueStatus(status)
    requires r.rows == Bulk(t.rows, selection, status) && r.ledger.Keys == t.ledger.Keys
    requires forall e :: e in t.ledger ==>
               r.ledger[e] == t.ledger[e] ||
               (e in EventsOf(t.rows, selection) && (r.ledger[e] == status || Settled(r.ledger[e])))
    requires forall e :: e in t.ledger && e in EventsOf(t.rows, selection) && !Settled(t.ledger[e]) ==>
               r.ledger[e] == status
    ensures Consistent(r)
  {
    forall j | 0 <= j < |r.rows| ensures LedgerAgrees(r.ledger, r.rows[j]) {
      assert LedgerAgrees(t.ledger, t.rows[j]);
      if t.rows[j].payload.eventId.Some? {
        EventIsHitIff(t.rows, selection, j);
      }
    }
  }

  /** With unique events, an event is one of the selected rows' exactly when its own row is selected. */
  lemma EventIsHitIff(rows: seq<Row>, selection: Selection, j: nat)
    requires EventsUnique(rows) && j < |rows| && rows[j].payload.eventId.Some?
    ensures rows[j].payload.eventId.value in EventsOf(rows, selection) <==> Hit(selection, rows[j])
  {
    forall k | 0 <= k < |rows| && k != j ensures rows[k].payload.eventId != rows[j].payload.eventId {
      if k < j {
        assert rows[k].payload.eventId.Some? ==> rows[k].payload.eventId != rows[j].payload.eventId;
      }
    }
  }

  lemma FailKeepsConsistent(t: Tables, i: nat)
    requires Consistent(t) && i < |t.rows|
    ensures Consistent(FailRow(t, i).0)
  {
    assert LedgerAgrees(t.ledger, t.rows[i]);
    PointKeepsConsistent(t, FailRow(t, i).0, i);
  }

  lemma AppendKeepsConsistent(t: Tables, payload: Payload, c: Conversation)
    requires Consistent(t)
    ensures Consistent(Append(t, payload, c))
  {
    var found := if payload.eventId.Some? then FindEvent(t.rows, payload.eventId.value) else None;
    if found.None? {
      NewRowKeepsConsistent(t, Row(c, payload, Queued, None, 0));
    } else {
      assert LedgerAgrees(t.ledger, t.rows[found.value]);
      PointKeepsConsistent(t, Append(t, payload, c), found.value);
    }
  }

  lemma ConsumeHeadKeepsConsistent(t: Tables, c: Conversation, item: Option<Payload>)
    requires Consistent(t)
    ensures Consistent(ConsumeHead(t, c, item).0)
  {
    var inFlight := if item.Some? then FirstDispatching(t.rows, c, item.value) else None;
    if ConsumeHead(t, c, item).1 {
      PointKeepsConsistent(t, ConsumeHead(t, c, item).0,
                           if inFlight.Some? then inFlight.value else FirstVisible(t.rows, c).value);
    }
  }

  lemma ClaimKeepsConsistent(t: Tables, c: Conversation, expected: Payload, leaseEnd: nat)
    requires Consistent(t)
    ensures Consistent(ClaimHead(t, c, expected, leaseEnd).0)
  {
    var claimed := ClaimHead(t, c, expected, leaseEnd).1;
    if claimed.Some? {
      PointKeepsConsistent(t, ClaimHead(t, c, expected, leaseEnd).0, claimed.value);
    }
  }

  lemma NextKeepsConsistent(t: Tables, op: Op)
    requires Consistent(t) && LedgerFirst(t, op)
    ensures Consistent(Next(t, op))
  {
    var r := Next(t, op);
    match op
    case AppendOp(payload, c) => AppendKeepsConsistent(t, payload, c);
    case InitialOp(payload, c, leaseEnd, sessionExists) =>
      if AppendClaimed(t, payload, c, leaseEnd, sessionExists).1.Some? {
        NewRowKeepsConsistent(t, Row(c, payload, Dispatching, Some(Sqlite(leaseEnd)), 1));
      }
    case ClaimOp(c, expected, leaseEnd) => ClaimKeepsConsistent(t, c, expected, leaseEnd);
    case ConsumeHeadOp(c, item) => ConsumeHeadKeepsConsistent(t, c, item);
    case ConsumeRowOp(id) =>
      if id < |t.rows| && t.rows[id].status == Dispatching {
        PointKeepsConsistent(t, r, id);
      }
    case RetryOp(id) =>
      if MarkRetryable(t, id).1 {
        PointKeepsConsistent(t, r, id);
      }
    case FailOp(id) =>
      if id < |t.rows| {
        FailKeepsConsistent(t, id);
      }
    case FailSessionOp(c) => BulkKeepsConsistent(t, r, UnsettledOf(c), Failed);
    case ExpireOp(cutoff) => BulkKeepsConsistent(t, r, LeaseEndedBy(cutoff), Retryable);
    case ReclaimOp => BulkKeepsConsistent(t, r, InDispatch, Retryable);
    case ClaimEventOp(event) =>
      forall j | 0 <= j < |r.rows| ensures LedgerAgrees(r.ledger, r.rows[j]) {
        assert LedgerAgrees(t.ledger, t.rows[j]);
      }
  }

  /** The run never records an event in the ledger after it was queued. */
  predicate LedgerFirstRun(t: Tables, run: seq<Op>) {
    forall k :: 0 <= k < |run| ==> LedgerFirst(Exec(t, run[..k]), run[k])
  }

  /** Driven by the queue transactions from an empty queue, with any ledger: a ledger row that is not
      done or failed always carries the status of its queue row. */
  lemma {:induction false} LedgerMatchesQueue(ledger: Ledger, run: seq<Op>)
    requires LedgerFirstRun(Tables([], ledger), run)
    ensures Consistent(Exec(Tables([], ledger), run))
  {
    var t := Tables([], ledger);
    if run != [] {
      LedgerFirstPrefix(t, run);
      LedgerMatchesQueue(ledger, run[..|run| - 1]);
      NextKeepsConsistent(Exec(t, run[..|run| - 1]), run[|run| - 1]);
    }
  }

  lemma LedgerFirstPrefix(t: Tables, run: seq<Op>)
    requires LedgerFirstRun(t, run) && run != []
    ensures LedgerFirstRun(t, run[..|run| - 1]) && LedgerFirst(Exec(t, run[..|run| - 1]), run[|run| - 1])
  {
    var before := run[..|run| - 1];
    forall k | 0 <= k < |before| ensures LedgerFirst(Exec(t, before[..k]), before[k]) {
      assert before[..k] == run[..k] && before[k] == run[k];
    }
  }

  /** Recording an event after it was queued breaks the agreement, and nothing else does: the ledger
      row starts as received while the queue row is in some queue status. */
  lemma ClaimEventAgreesIff(t: Tables, event: EventId)
    requires Consistent(t)
    ensures Consistent(ClaimEvent(t, event).0) <==> LedgerFirst(t, ClaimEventOp(event))
  {
    if LedgerFirst(t, ClaimEventOp(event)) {
      NextKeepsConsistent(t, ClaimEventOp(event));
    } else {
      var i := FindEvent(t.rows, event).value;
      assert !LedgerAgrees(ClaimEvent(t, event).0.ledger, ClaimEvent(t, event).0.rows[i]);
    }
  }

  lemma NextKeepsLedgerSettled(t: Tables, op: Op, event: EventId)
    requires event in t.ledger && Settled(t.ledger[event])
    ensures event in Next(t, op).ledger
    ensures t.ledger[event] == Done ==> Next(t, op).ledger[event] == Done
    ensures t.ledger[event] == Failed ==> Next(t, op).ledger[event] == Failed
  {
  }

  /** Done and failed are final in the ledger under every queue transaction. */
  lemma {:induction false} LedgerSettledForever(t: Tables, run: seq<Op>, event: EventId)
    requires event in t.ledger && Settled(t.ledger[event])
    ensures event in Exec(t, run).ledger && Exec(t, run).ledger[event] == t.ledger[event]
  {
    if run != [] {
      LedgerSettledForever(t, run[..|run| - 1], event);
      NextKeepsLedgerSettled(Exec(t, run[..|run| - 1]), run[|run| - 1], event);
    }
  }

  // ---------------------------------------------------------------- attempts

  /** The row that an operation takes into dispatch. */
  function TakenBy(t: Tables, op: Op): (id: Option<nat>) {
    match op
    case ClaimOp(c, expected, leaseEnd) => ClaimHead(t, c, expected, leaseEnd).1
    case InitialOp(payload, c, leaseEnd, sessionExists) => AppendClaimed(t, payload, c, leaseEnd, sessionExists).1
    case _ => None
  }

  /** How often the run has taken the row into dispatch. */
  function Takings(t: Tables, run: seq<Op>, i: nat): (n: nat) {
    if run == [] then 0
    else
      var before := run[..|run| - 1];
      Takings(t, before, i) + if TakenBy(Exec(t, before), run[|run| - 1]) == Some(i) then 1 else 0
  }

  lemma OneMoreTaking(t: Tables, op: Op, i: nat)
    ensures |t.rows| <= |Next(t, op).rows|
    ensures TakenBy(t, op) == Some(i) ==> i < |Next(t, op).rows|
    ensures i < |Next(t, op).rows| ==>
              Next(t, op).rows[i].retryCount ==
              (if i < |t.rows| then t.rows[i].retryCount else 0) + if TakenBy(t, op) == Some(i) then 1 else 0
  {
  }

  /** The attempt count of a row says how often it was taken into dispatch, as a first item or by a claim. */
  lemma {:induction false} AttemptsAreTakings(ledger: Ledger, run: seq<Op>, i: nat)
    ensures var t := Tables([], ledger);
            Takings(t, run, i) == if i < |Exec(t, run).rows| then Exec(t, run).rows[i].retryCount else 0
  {
    if run != [] {
      AttemptsAreTakings(ledger, run[..|run| - 1], i);
      OneMoreTaking(Exec(Tables([], ledger), run[..|run| - 1]), run[|run| - 1], i);
    }
  }

  /** A row has a lease exactly while it is in dispatch. */
  ghost predicate LeasesFit(rows: seq<Row>) {
    forall i :: 0 <= i < |rows| ==> (rows[i].lease.Some? <==> rows[i].status == Dispatching)
  }

  lemma NextKeepsLeases(t: Tables, op: Op)
    requires LeasesFit(t.rows)
    ensures LeasesFit(Next(t, op).rows)
  {
  }

  lemma {:induction false} EveryLeaseFits(ledger: Ledger, run: seq<Op>)
    ensures LeasesFit(Exec(Tables([], ledger), run).rows)
  {
    if run != [] {
      EveryLeaseFits(ledger, run[..|run| - 1]);
      NextKeepsLeases(Exec(Tables([], ledger), run[..|run| - 1]), run[|run| - 1]);
    }
  }
}
