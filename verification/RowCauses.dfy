/** Which handler completes, fails or gives back a row, with all handlers interleaved transaction by transaction. */
module RowCauses {
  import opened Wrappers
  import opened SessionStatus
  import EventQueue
  import QueueFifo
  import opened DispatchOwnership

  // ---------------------------------------------------------------- the life of a handler

  /** The handler begins with this action. */
  predicate Begins(a: Action, t: ThreadId) {
    (a.StartDrain? || a.LoadForCompletion? || a.LoadForTimeout? || a.LoadForRestart?) && a.t == t
  }

  /** The row it acts on: the one it claims, or the one named by the session it reads. */
  function RowOf(a: Action, s: State): (row: Option<nat>) {
    match a
    case StartDrain(_, c, expected, leaseEnd) => EventQueue.ClaimHead(s.tables, c, expected, leaseEnd).1
    case LoadForCompletion(_, c) => if c in s.sessions then s.sessions[c].queueId else None
    case LoadForTimeout(_, c) => if c in s.sessions then s.sessions[c].queueId else None
    case LoadForRestart(_, c) => if c in s.sessions then s.sessions[c].queueId else None
    case _ => None
  }

  /** The handler began with action i of the run and is still at work. */
  ghost predicate Lives(run: seq<Action>, t: ThreadId, i: nat) {
    && i < |run| && Begins(run[i], t) && !AtWork(run, t, i)
    && forall j :: i < j <= |run| ==> AtWork(run, t, j)
  }

  /** The handler is at work after so many actions. */
  predicate AtWork(run: seq<Action>, t: ThreadId, j: nat)
    requires j <= |run|
  {
    t in Exec(run[..j]).threads
  }

  predicate DoneRow(s: State, row: Option<nat>) {
    row.Some? ==> row.value < |s.tables.rows| && StatusOf(s.tables, row.value) == EventQueue.Done
  }

  /** Where a handler can be that began in this way, for this row. */
  predicate InLife(a: Action, s: State, thread: Thread, row: Option<nat>) {
    match a
    case StartDrain(_, c, _, _) =>
      row.Some? && (thread == Draining(c, row.value)
                    || (thread.Sending? && thread.c == c && thread.row == row.value)
                    || thread == GivingBack(row.value))
    case LoadForCompletion(_, c) =>
      || (thread.Completing? && thread.c == c && thread.queueId == row)
      || (thread.Finishing? && thread.c == c && DoneRow(s, row))
    case LoadForTimeout(_, c) =>
      || (thread.TimingOut? && thread.c == c && thread.queueId == row)
      || (row.Some? && thread == FailingRow(row.value))
    case LoadForRestart(_, c) =>
      || (thread.Restarting? && thread.c == c && thread.queueId == row)
      || (row.Some? && thread == GivingBack(row.value))
    case _ => false
  }

  ghost predicate Traced(run: seq<Action>, t: ThreadId, i: nat) {
    && Lives(run, t, i) && t in Exec(run).threads
    && InLife(run[i], Exec(run), Exec(run).threads[t], RowOf(run[i], Exec(run[..i])))
  }

  ghost predicate AllTraced(run: seq<Action>) {
    forall t :: t in Exec(run).threads ==> exists i :: Traced(run, t, i)
  }

  // ---------------------------------------------------------------- one step

  predicate RowsStay(s: State, t: State) {
    && |s.tables.rows| <= |t.tables.rows|
    && forall j :: 0 <= j < |s.tables.rows| && EventQueue.Settled(StatusOf(s.tables, j)) ==>
         StatusOf(t.tables, j) == StatusOf(s.tables, j)
  }

  /** Settled rows stay as they are. */
  lemma NextKeepsSettled(s: State, a: Action)
    ensures RowsStay(s, Next(s, a))
  {
    if a.Step? && a.t in s.threads {
      StepKeepsSettled(s, a.t, a.sent);
    }
  }

  lemma StepKeepsSettled(s: State, t: ThreadId, sent: bool)
    requires t in s.threads
    ensures RowsStay(s, ThreadStep(s, t, sent))
  {
  }

  /** A handler's own step leads on in its life, or ends it. */
  lemma OwnStepLeadsOn(s: State, t: ThreadId, sent: bool, a: Action, row: Option<nat>)
    requires t in s.threads && InLife(a, s, s.threads[t], row)
    ensures var next := ThreadStep(s, t, sent); t in next.threads ==> InLife(a, next, next.threads[t], row)
  {
  }

  lemma OtherStepsLeave(s: State, a: Action, t: ThreadId)
    requires t in s.threads && t in Next(s, a).threads && !(a.Step? && a.t == t)
    ensures Next(s, a).threads[t] == s.threads[t]
  {
  }

  /** A new handler begins with its action. */
  lemma NewHandler(s: State, a: Action, t: ThreadId)
    requires t !in s.threads && t in Next(s, a).threads
    ensures Begins(a, t) && InLife(a, Next(s, a), Next(s, a).threads[t], RowOf(a, s))
  {
  }

  lemma LaterInLife(a: Action, s: State, t: State, thread: Thread, row: Option<nat>)
    requires InLife(a, s, thread, row) && RowsStay(s, t)
    ensures InLife(a, t, thread, row)
  {
  }

  lemma RunSnoc(run: seq<Action>, a: Action)
    ensures Exec(run + [a]) == Next(Exec(run), a)
    ensures forall j :: 0 <= j <= |run| ==> (run + [a])[..j] == run[..j]
    ensures (run + [a])[..|run| + 1] == run + [a]
  {
    Prefixes(run, a);
    var longer := run + [a];
    assert longer[..|longer| - 1] == run && longer[|longer| - 1] == a;
  }

  lemma Prefixes(run: seq<Action>, a: Action)
    ensures forall j :: 0 <= j <= |run| ==> (run + [a])[..j] == run[..j]
    ensures (run + [a])[..|run| + 1] == run + [a]
  {
  }

  lemma AtWorkPrefix(run: seq<Action>, a: Action, t: ThreadId, j: nat)
    requires j <= |run|
    ensures AtWork(run + [a], t, j) == AtWork(run, t, j)
  {
    assert (run + [a])[..j] == run[..j];
  }

  lemma AtWorkEnd(run: seq<Action>, a: Action, t: ThreadId)
    ensures AtWork(run, t, |run|) <==> t in Exec(run).threads
    ensures AtWork(run + [a], t, |run| + 1) <==> t in Next(Exec(run), a).threads
  {
    RunSnoc(run, a);
    assert run[..|run|] == run;
  }

  lemma LivesOn(run: seq<Action>, a: Action, t: ThreadId, i: nat)
    requires Lives(run, t, i) && AtWork(run + [a], t, |run| + 1)
    ensures Lives(run + [a], t, i)
  {
    assert (run + [a])[i] == run[i];
    AtWorkPrefix(run, a, t, i);
    forall j | i < j <= |run + [a]| ensures AtWork(run + [a], t, j) {
      if j <= |run| {
        AtWorkPrefix(run, a, t, j);
      }
    }
  }

  lemma TracedOn(run: seq<Action>, a: Action, t: ThreadId, i: nat)
    requires Traced(run, t, i) && t in Next(Exec(run), a).threads
    ensures Traced(run + [a], t, i)
  {
    var s, row := Exec(run), RowOf(run[i], Exec(run[..i]));
    AtWorkEnd(run, a, t);
    LivesOn(run, a, t, i);
    RunSnoc(run, a);
    assert (run + [a])[i] == run[i] && (run + [a])[..i] == run[..i];
    if a.Step? && a.t == t {
      OwnStepLeadsOn(s, t, a.sent, run[i], row);
    } else {
      OtherStepsLeave(s, a, t);
      NextKeepsSettled(s, a);
      LaterInLife(run[i], s, Next(s, a), s.threads[t], row);
    }
  }

  lemma NewLives(run: seq<Action>, a: Action, t: ThreadId)
    requires !AtWork(run, t, |run|) && AtWork(run + [a], t, |run| + 1) && Begins(a, t)
    ensures Lives(run + [a], t, |run|)
  {
    assert (run + [a])[|run|] == a;
    AtWorkPrefix(run, a, t, |run|);
  }

  lemma NewIsTraced(run: seq<Action>, a: Action, t: ThreadId)
    requires t !in Exec(run).threads && t in Next(Exec(run), a).threads
    ensures Traced(run + [a], t, |run|)
  {
    NewHandler(Exec(run), a, t);
    AtWorkEnd(run, a, t);
    NewLives(run, a, t);
    RunSnoc(run, a);
  }

  /** Every handler at work has begun for a row in one of four ways, and is where that leads. */
  lemma {:induction false} EveryHandlerIsTraced(run: seq<Action>)
    ensures AllTraced(run)
  {
    if run != [] {
      var before, a := run[..|run| - 1], run[|run| - 1];
      assert before + [a] == run;
      EveryHandlerIsTraced(before);
      RunSnoc(before, a);
      forall t | t in Exec(run).threads ensures exists i :: Traced(run, t, i) {
        if t in Exec(before).threads {
          var i :| Traced(before, t, i);
          TracedOn(before, a, t, i);
        } else {
          NewIsTraced(before, a, t);
        }
      }
    }
  }

  // ---------------------------------------------------------------- who settles a row

  /** Only a handler's step settles a row. */
  lemma OnlyStepsSettle(s: State, a: Action, r: nat)
    requires r < |s.tables.rows| && EventQueue.Unsettled(StatusOf(s.tables, r)) && !(a.Step? && a.t in s.threads)
    ensures r < |Next(s, a).tables.rows| && EventQueue.Unsettled(StatusOf(Next(s, a).tables, r))
  {
  }

  /** A completion consumes the row it read, a timeout fails the one it read, and no other step settles a row. */
  lemma OnlyTwoSettle(s: State, t: ThreadId, sent: bool, r: nat)
    requires t in s.threads && r < |s.tables.rows| && EventQueue.Unsettled(StatusOf(s.tables, r))
    ensures var thread, next := s.threads[t], ThreadStep(s, t, sent);
            && |next.tables.rows| == |s.tables.rows|
            && var status := StatusOf(next.tables, r);
               || EventQueue.Unsettled(status)
               || (thread.Completing? && thread.queueId == Some(r) && status == EventQueue.Done)
               || (thread == FailingRow(r) && status == EventQueue.Failed)
  {
  }

  /** The handler read the row named by a busy session, as a completion or as a timeout does, and is still at work. */
  ghost predicate ReadFor(run: seq<Action>, t: ThreadId, i: nat, r: nat) {
    && Lives(run, t, i)
    && var s := Exec(run[..i]);
       run[i].c in s.sessions && s.sessions[run[i].c].status == Busy && s.sessions[run[i].c].queueId == Some(r)
  }

  lemma ReadsBusy(run: seq<Action>, t: ThreadId, i: nat)
    requires Lives(run, t, i) && (run[i].LoadForCompletion? || run[i].LoadForTimeout? || run[i].LoadForRestart?)
    ensures BusyOn(Exec(run[..i]), run[i].c)
  {
    assert run[..i + 1] == run[..i] + [run[i]];
    RunSnoc(run[..i], run[i]);
    assert AtWork(run, t, i + 1);
  }

  /** A handler about to settle a row has read it. */
  lemma SettlerRead(run: seq<Action>, t: ThreadId, r: nat) returns (i: nat)
    requires t in Exec(run).threads
    requires var thread := Exec(run).threads[t];
             (thread.Completing? && thread.queueId == Some(r)) || thread == FailingRow(r)
    ensures ReadFor(run, t, i, r)
    ensures if Exec(run).threads[t].Completing? then run[i].LoadForCompletion? else run[i].LoadForTimeout?
  {
    EveryHandlerIsTraced(run);
    i :| Traced(run, t, i);
    ReadsBusy(run, t, i);
  }

  lemma NewRowsUnsettled(s: State, a: Action, r: nat)
    requires |s.tables.rows| <= r < |Next(s, a).tables.rows|
    ensures EventQueue.Unsettled(StatusOf(Next(s, a).tables, r))
  {
    if a.Step? && a.t in s.threads {
      StepAddsNoRow(s, a.t, a.sent);
    }
  }

  lemma StepAddsNoRow(s: State, t: ThreadId, sent: bool)
    requires t in s.threads
    ensures |ThreadStep(s, t, sent).tables.rows| == |s.tables.rows|
  {
  }

  /** In every run, whatever handlers interleave: a row that ends as failed was failed by a handler that had read it in
      its session for a timeout, and one that ends as done was consumed by a handler that had read it for a
      completion. */
  lemma {:induction false} SettledByItsReader(run: seq<Action>, r: nat) returns (m: nat, i: nat)
    requires r < |Exec(run).tables.rows| && EventQueue.Settled(StatusOf(Exec(run).tables, r))
    ensures m < |run| && run[m].Step? && ReadFor(run[..m], run[m].t, i, r)
    ensures r < |Exec(run[..m]).tables.rows| && EventQueue.Unsettled(StatusOf(Exec(run[..m]).tables, r))
    ensures if StatusOf(Exec(run).tables, r) == EventQueue.Failed then run[i].LoadForTimeout?
            else run[i].LoadForCompletion?
  {
    var before, a := run[..|run| - 1], run[|run| - 1];
    assert before + [a] == run;
    RunSnoc(before, a);
    EveryRowSettledOnce(before);
    if r < |Exec(before).tables.rows| && EventQueue.Settled(StatusOf(Exec(before).tables, r)) {
      NextKeepsSettled(Exec(before), a);
      m, i := SettledByItsReader(before, r);
      assert before[..m] == run[..m];
    } else {
      if |Exec(before).tables.rows| <= r {
        NewRowsUnsettled(Exec(before), a, r);
      }
      m := |run| - 1;
      if !(a.Step? && a.t in Exec(before).threads) {
        OnlyStepsSettle(Exec(before), a, r);
      }
      OnlyTwoSettle(Exec(before), a.t, a.sent, r);
      i := SettlerRead(before, a.t, r);
    }
  }

  // ---------------------------------------------------------------- how a handler leaves its row

  /** The row waits again where it was, unless it is settled; nothing else changes. */
  ghost predicate Returned(s: State, t: State, r: nat) {
    && r < |s.tables.rows| == |t.tables.rows| && t.sessions == s.sessions
    && (if EventQueue.Unsettled(StatusOf(s.tables, r)) then EventQueue.Visible(StatusOf(t.tables, r))
        else t.tables.rows == s.tables.rows)
    && forall c ::
         QueueFifo.Backlog(t.tables.rows, c) ==
           if EventQueue.Unsettled(StatusOf(s.tables, r)) && s.tables.rows[r].conversation == c
           then QueueFifo.Mark(QueueFifo.Backlog(s.tables.rows, c), r, s.tables.rows[r].payload, false)
           else QueueFifo.Backlog(s.tables.rows, c)
  }

  lemma GivingBackReturns(s: State, t: ThreadId, sent: bool)
    requires t in s.threads && s.threads[t].GivingBack? && s.threads[t].row < |s.tables.rows|
    ensures Returned(s, ThreadStep(s, t, sent), s.threads[t].row)
  {
    var r := s.threads[t].row;
    forall c {
      QueueFifo.RetryReinsertsInPlace(s.tables, r, c);
    }
  }

  /** Every row that a session or a handler names exists. */
  predicate ThreadInRange(s: State, thread: Thread) {
    match thread
    case Draining(_, row) => row < |s.tables.rows|
    case Sending(_, row, _) => row < |s.tables.rows|
    case GivingBack(row) => row < |s.tables.rows|
    case FailingRow(row) => row < |s.tables.rows|
    case Completing(_, _, queueId) => queueId.Some? ==> queueId.value < |s.tables.rows|
    case TimingOut(_, _, queueId) => queueId.Some? ==> queueId.value < |s.tables.rows|
    case Restarting(_, _, queueId) => queueId.Some? ==> queueId.value < |s.tables.rows|
    case Finishing(_, _) => true
  }

  ghost predicate InRange(s: State) {
    && (forall c :: c in s.sessions && s.sessions[c].queueId.Some? ==> s.sessions[c].queueId.value < |s.tables.rows|)
    && (forall t :: t in s.threads ==> ThreadInRange(s, s.threads[t]))
  }

  lemma StepKeepsInRange(s: State, t: ThreadId, sent: bool)
    requires InRange(s) && t in s.threads
    ensures InRange(ThreadStep(s, t, sent))
  {
    assert ThreadInRange(s, s.threads[t]);
    StepAddsNoRow(s, t, sent);
  }

  lemma NextKeepsInRange(s: State, a: Action)
    requires InRange(s)
    ensures InRange(Next(s, a))
  {
    if a.Step? && a.t in s.threads {
      StepKeepsInRange(s, a.t, a.sent);
    } else {
      NextKeepsSettled(s, a);
    }
  }

  lemma {:induction false} RunInRange(run: seq<Action>)
    ensures InRange(Exec(run))
  {
    if run != [] {
      RunInRange(run[..|run| - 1]);
      NextKeepsInRange(Exec(run[..|run| - 1]), run[|run| - 1]);
    }
  }

  lemma LivesOnce(run: seq<Action>, t: ThreadId, i: nat, j: nat)
    requires Lives(run, t, i) && Lives(run, t, j)
    ensures i == j
  {
  }

  /** The handler's next step is its last. */
  predicate Ends(s: State, t: ThreadId, sent: bool) {
    t in s.threads && t !in Next(s, Step(t, sent)).threads
  }

  lemma LivingIsTraced(run: seq<Action>, t: ThreadId, i: nat)
    requires Lives(run, t, i)
    ensures Traced(run, t, i) && InRange(Exec(run))
  {
    EveryHandlerIsTraced(run);
    assert AtWork(run, t, |run|) && run[..|run|] == run;
    var j :| Traced(run, t, j);
    LivesOnce(run, t, i, j);
    RunInRange(run);
  }

  /** Nothing but the handler itself is gone. */
  predicate OnlyEnds(s: State, n: State, t: ThreadId) {
    n == s.(threads := s.threads - {t})
  }

  /** A drain that ends has had its message sent, or its row waits again where it was: the send had failed, or the
      session had moved on before. */
  lemma DrainLeavesRow(run: seq<Action>, t: ThreadId, i: nat, sent: bool)
    requires Lives(run, t, i) && run[i].StartDrain? && Ends(Exec(run), t, sent)
    ensures var s, n, row := Exec(run), Next(Exec(run), Step(t, sent)), RowOf(run[i], Exec(run[..i]));
            && row.Some?
            && ((s.threads[t].Sending? && s.threads[t].row == row.value && sent && OnlyEnds(s, n, t))
                || Returned(s, n, row.value))
  {
    LivingIsTraced(run, t, i);
    var s := Exec(run);
    assert ThreadInRange(s, s.threads[t]);
    if s.threads[t].GivingBack? {
      GivingBackReturns(s, t, sent);
    } else {
      SendEnds(s, t, sent);
    }
  }

  lemma SendEnds(s: State, t: ThreadId, sent: bool)
    requires Ends(s, t, sent) && (s.threads[t].Draining? || s.threads[t].Sending?)
    ensures s.threads[t].Sending? && sent && OnlyEnds(s, Next(s, Step(t, sent)), t)
  {
  }

  /** When the send of a drain has failed, the row waits again where it was once the handler has ended. */
  lemma FailedSendReturnsRow(run: seq<Action>, t: ThreadId, i: nat, k: nat, sent: bool)
    requires Lives(run, t, i) && i < k < |run| && run[k] == Step(t, false)
    requires t in Exec(run[..k]).threads && Exec(run[..k]).threads[t].Sending? && Ends(Exec(run), t, sent)
    ensures Returned(Exec(run), Next(Exec(run), Step(t, sent)), Exec(run[..k]).threads[t].row)
  {
    AfterFailedSend(run, t, i, k);
    RunInRange(run);
    var s := Exec(run);
    assert ThreadInRange(s, s.threads[t]);
    GivingBackReturns(s, t, sent);
  }

  lemma {:induction false} AfterFailedSend(run: seq<Action>, t: ThreadId, i: nat, k: nat)
    requires Lives(run, t, i) && i < k < |run| && run[k] == Step(t, false)
    requires t in Exec(run[..k]).threads && Exec(run[..k]).threads[t].Sending?
    ensures t in Exec(run).threads && Exec(run).threads[t] == GivingBack(Exec(run[..k]).threads[t].row)
  {
    var last := |run| - 1;
    assert AtWork(run, t, |run|) && run[..|run|] == run;
    assert run[..last] + [run[last]] == run;
    RunSnoc(run[..last], run[last]);
    if k < last {
      LivesEarlier(run, t, i);
      assert run[..last][..k] == run[..k];
      AfterFailedSend(run[..last], t, i, k);
      if run[last].Step? && run[last].t == t {
        GivingBackEnds(Exec(run[..last]), t, run[last].sent);
      } else {
        OtherStepsLeave(Exec(run[..last]), run[last], t);
      }
    }
  }

  lemma GivingBackEnds(s: State, t: ThreadId, sent: bool)
    requires t in s.threads && s.threads[t].GivingBack?
    ensures Ends(s, t, sent)
  {
  }

  lemma LivesEarlier(run: seq<Action>, t: ThreadId, i: nat)
    requires Lives(run, t, i) && i < |run| - 1
    ensures Lives(run[..|run| - 1], t, i)
  {
    var before := run[..|run| - 1];
    assert before + [run[|run| - 1]] == run;
    AtWorkPrefix(before, run[|run| - 1], t, i);
    forall j | i < j <= |before| ensures AtWork(before, t, j) {
      AtWorkPrefix(before, run[|run| - 1], t, j);
    }
  }

  /** A restart that ends has found its session at rest and changed nothing, or the row that it read waits again where
      it was. */
  lemma RestartReturnsRow(run: seq<Action>, t: ThreadId, i: nat, r: nat, sent: bool)
    requires ReadFor(run, t, i, r) && run[i].LoadForRestart? && Ends(Exec(run), t, sent)
    ensures var s, n, c := Exec(run), Next(Exec(run), Step(t, sent)), run[i].c;
            Returned(s, n, r)
            || (OnlyEnds(s, n, t) && s.threads[t].Restarting?
                && (c in s.sessions ==> s.sessions[c].status !in ACTIVE))
  {
    LivingIsTraced(run, t, i);
    var s := Exec(run);
    assert ThreadInRange(s, s.threads[t]);
    if s.threads[t].GivingBack? {
      GivingBackReturns(s, t, sent);
    }
  }

  /** A timeout that ends has found its session no longer busy and changed nothing, or the row that it read is settled:
      failed, if nobody had settled it before. */
  lemma TimeoutFailsRow(run: seq<Action>, t: ThreadId, i: nat, r: nat, sent: bool)
    requires ReadFor(run, t, i, r) && run[i].LoadForTimeout? && Ends(Exec(run), t, sent)
    ensures var s, n, c := Exec(run), Next(Exec(run), Step(t, sent)), run[i].c;
            || (OnlyEnds(s, n, t) && s.threads[t].TimingOut? && (c in s.sessions ==> s.sessions[c].status != Busy))
            || (r < |s.tables.rows| == |n.tables.rows| && n.sessions == s.sessions
                && StatusOf(n.tables, r)
                   == if EventQueue.Unsettled(StatusOf(s.tables, r)) then EventQueue.Failed else StatusOf(s.tables, r))
  {
    LivingIsTraced(run, t, i);
    assert ThreadInRange(Exec(run), Exec(run).threads[t]);
  }

  /** A completion that ends has found its row neither in dispatch nor done and changed nothing, or its row is done. */
  lemma CompletionConsumesRow(run: seq<Action>, t: ThreadId, i: nat, r: nat, sent: bool)
    requires ReadFor(run, t, i, r) && run[i].LoadForCompletion? && Ends(Exec(run), t, sent)
    ensures var s, n := Exec(run), Next(Exec(run), Step(t, sent));
            && r < |s.tables.rows| && n.tables == s.tables
            && (if s.threads[t].Finishing? then StatusOf(s.tables, r) == EventQueue.Done
                else OnlyEnds(s, n, t) && StatusOf(s.tables, r) !in {EventQueue.Dispatching, EventQueue.Done})
  {
    LivingIsTraced(run, t, i);
    assert ThreadInRange(Exec(run), Exec(run).threads[t]);
    CompletionStep(Exec(run), t, r, sent);
  }

  lemma CompletionStep(s: State, t: ThreadId, r: nat, sent: bool)
    requires t in s.threads && Ends(s, t, sent) && r < |s.tables.rows|
    requires s.threads[t].Finishing? || (s.threads[t].Completing? && s.threads[t].queueId == Some(r))
    ensures var n := ThreadStep(s, t, sent);
            && n.tables == s.tables
            && (s.threads[t].Completing? ==>
                  OnlyEnds(s, n, t) && StatusOf(s.tables, r) !in {EventQueue.Dispatching, EventQueue.Done})
  {
    assert s.settled + [] == s.settled;
  }

  /** The handler that began with action i read a busy session that names no row. */
  ghost predicate ReadNoRow(run: seq<Action>, t: ThreadId, i: nat) {
    Lives(run, t, i) && RowOf(run[i], Exec(run[..i])) == None
  }

  /** A completion, timeout or restart of a turn without a row leaves no busy session behind, and the rows alone. */
  lemma TurnWithoutRowEnds(run: seq<Action>, t: ThreadId, i: nat, sent: bool)
    requires ReadNoRow(run, t, i) && Ends(Exec(run), t, sent)
    requires run[i].LoadForCompletion? || run[i].LoadForTimeout? || run[i].LoadForRestart?
    ensures var n, c := Next(Exec(run), Step(t, sent)), run[i].c;
            n.tables == Exec(run).tables && (c in n.sessions ==> n.sessions[c].status != Busy)
  {
    LivingIsTraced(run, t, i);
  }

  // ---------------------------------------------------------------- who writes a session

  /** What an action makes of the session of a conversation. */
  function SessionWritten(s: State, a: Action, c: Conversation): (written: Option<Session>) {
    match a
    case NewSession(x) => if x == c && c !in s.sessions then Some(Session(Idle, None, None)) else None
    case DirectTurn(x) =>
      if x == c && c in s.sessions && s.sessions[c].status in {Idle, Suspended}
      then Some(Session(Busy, Some(s.nextTurn), None)) else None
    case CrashAndStartup => if c in s.sessions then Some(Session(Suspended, None, None)) else None
    case Step(t, sent) =>
      if t !in s.threads || c !in s.sessions then None
      else
        var thread, status := s.threads[t], s.sessions[c].status;
        if thread.Draining? && thread.c == c && status == Idle
        then Some(Session(Busy, Some(s.nextTurn), Some(thread.row)))
        else if ((thread.Sending? && thread.c == c && !sent) || (thread.Finishing? && thread.c == c)) && status == Busy
        then Some(Session(Idle, None, None))
        else if (thread.TimingOut? && thread.c == c && status == Busy)
                || (thread.Restarting? && thread.c == c && status in {Starting, Ready, Busy, Idle, Waiting, Creating})
        then Some(Session(Suspended, None, None))
        else None
    case _ => None
  }

  /** A session is taken by a drain that finds it idle, with the row it claimed, or directly; it comes to rest after a
      completion or a failed send, whoever's turn it is on; a timeout, a restart or a new start of the bridge stops it;
      and nothing else changes it. A turn is never numbered twice. */
  lemma SessionWrites(s: State, a: Action, c: Conversation)
    ensures var t, written := Next(s, a), SessionWritten(s, a, c);
            && (written.Some? ==> c in t.sessions && t.sessions[c] == written.value)
            && (written.None? ==> (c in t.sessions <==> c in s.sessions)
                                  && (c in s.sessions ==> t.sessions[c] == s.sessions[c]))
            && t.nextTurn >= s.nextTurn
            && (written.Some? && written.value.turn.Some? ==> t.nextTurn > written.value.turn.value)
  {
  }
}
