/** How many worker threads the pass after a restart starts, and what a failed one does to the rest. */
module StartupWorkers {
  import opened Wrappers
  import opened SessionStatus
  import EventQueue
  import opened StartupDrain

  // ---------------------------------------------------------------- the question and its answer

  /** No conversation has two worker threads. */
  predicate OneStartEach(starts: seq<Start>) {
    forall a, b :: 0 <= a < b < |starts| ==> starts[a].conversation != starts[b].conversation
  }

  predicate OneStartFor(starts: seq<Start>, c: Conversation) {
    forall a, b :: 0 <= a < b < |starts| ==> !(starts[a].conversation == c && starts[b].conversation == c)
  }

  /** The place in the list of the conversation's first row. */
  function FirstOf(rows: seq<EventQueue.Row>, ids: seq<nat>, c: Conversation): (a: Option<nat>)
    requires forall k :: 0 <= k < |ids| ==> ids[k] < |rows|
    ensures a.Some? ==> a.value < |ids| && rows[ids[a.value]].conversation == c
    ensures forall k :: 0 <= k < (if a.Some? then a.value else |ids|) ==> rows[ids[k]].conversation != c
  {
    if ids == [] then None
    else
      var last := |ids| - 1;
      var before := FirstOf(rows, ids[..last], c);
      if before.Some? then before else if rows[ids[last]].conversation == c then Some(last) else None
  }

  /** The thread of this row runs its first transaction in one of these gaps between visits. */
  predicate Enters(choices: seq<Choice>, row: nat, lo: nat, hi: nat) {
    exists k :: lo <= k < hi && k < |choices| && Enter(row) in choices[k].workers
  }

  /** A conversation whose session is CREATING: before each later row is visited, the thread of the first has run. */
  predicate InTimeFor(p: Pass, ids: seq<nat>, choices: seq<Choice>, c: Conversation)
    requires forall k :: 0 <= k < |ids| ==> ids[k] < |p.tables.rows|
  {
    var first := FirstOf(p.tables.rows, ids, c);
    c in p.sessions && p.sessions[c].status == Creating && first.Some? ==>
      forall b :: first.value < b < |ids| && p.tables.rows[ids[b]].conversation == c ==>
        Enters(choices, ids[first.value], first.value + 1, b + 1)
  }

  // ---------------------------------------------------------------- what is known of one conversation

  /** The threads' rows belong to their conversations. */
  ghost predicate RowsBelong(q: Pass) {
    forall n :: 0 <= n < |q.starts| ==>
      q.starts[n].row < |q.tables.rows| && q.tables.rows[q.starts[n].row].conversation == q.starts[n].conversation
  }

  predicate Startable(q: Pass, c: Conversation) {
    VerdictOn(q.sessions, c).Starts?
  }

  /** No thread was started for the new conversation. */
  ghost predicate Fresh(q: Pass, c: Conversation) {
    c in q.sessions && q.sessions[c].status == Creating && !StartedIn(q.starts, c)
  }

  /** Its one thread is n, which was given this row and has run or not. */
  ghost predicate Single(q: Pass, c: Conversation, n: nat, row: nat, ran: bool) {
    && n < |q.starts| && q.starts[n].conversation == c && q.starts[n].row == row
    && (forall m :: 0 <= m < |q.starts| && m != n ==> q.starts[m].conversation != c && q.starts[m].row != row)
    && c in q.sessions
    && if ran then !Startable(q, c) && q.sessions[c].status != Creating && q.starts[n].phase != NotBegun
       else q.sessions[c].status == Creating && q.starts[n].phase == NotBegun
  }

  /** It has two threads. */
  ghost predicate Doubled(q: Pass, c: Conversation) {
    !OneStartFor(q.starts, c)
  }

  /** An older conversation: it gets a thread when it was suspended by the shutdown, and is not startable then. */
  ghost predicate Settled(q: Pass, c: Conversation) {
    && (c in q.sessions ==> q.sessions[c].status != Creating)
    && OneStartFor(q.starts, c)
    && (StartedIn(q.starts, c) ==> c in q.sessions && !Startable(q, c))
  }

  lemma {:induction false} FindStartIs(starts: seq<Start>, n: nat, row: nat)
    requires n < |starts| && starts[n].row == row && forall m :: 0 <= m < |starts| && m != n ==> starts[m].row != row
    ensures FindStart(starts, row) == Some(n)
  {
    if n < |starts| - 1 {
      FindStartIs(starts[..|starts| - 1], n, row);
    }
  }

  // ---------------------------------------------------------------- worker steps

  lemma WorkerKeepsRows(q: Pass, step: WorkerStep)
    requires RowsBelong(q)
    ensures RowsBelong(StepWorker(q, step))
  {
  }

  lemma WorkerKeepsFresh(q: Pass, c: Conversation, step: WorkerStep)
    requires Fresh(q, c)
    ensures Fresh(StepWorker(q, step), c)
  {
    var r := StepWorker(q, step);
    assert |r.starts| == |q.starts|;
    assert forall n :: 0 <= n < |q.starts| ==> r.starts[n].conversation == q.starts[n].conversation;
  }

  lemma WorkerKeepsThreads(q: Pass, step: WorkerStep, c: Conversation)
    ensures var r := StepWorker(q, step);
            && |r.starts| == |q.starts|
            && (forall n :: 0 <= n < |q.starts| ==> r.starts[n].conversation == q.starts[n].conversation)
            && (StartedIn(r.starts, c) <==> StartedIn(q.starts, c))
  {
    var r := StepWorker(q, step);
    assert |r.starts| == |q.starts|;
    assert forall n :: 0 <= n < |q.starts| ==> r.starts[n].conversation == q.starts[n].conversation;
    if StartedIn(r.starts, c) {
      var k :| 0 <= k < |r.starts| && r.starts[k].conversation == c;
      assert q.starts[k].conversation == c;
    }
    if StartedIn(q.starts, c) {
      var k :| 0 <= k < |q.starts| && q.starts[k].conversation == c;
      assert r.starts[k].conversation == c;
    }
  }

  /** No worker step makes a session startable. */
  lemma WorkerKeepsUnstartable(q: Pass, step: WorkerStep, c: Conversation)
    requires c in q.sessions && q.sessions[c].status != Creating && !Startable(q, c)
    ensures var r := StepWorker(q, step);
            c in r.sessions && r.sessions[c].status != Creating && !Startable(r, c)
  {
  }

  lemma WorkerLeavesOthers(q: Pass, step: WorkerStep, c: Conversation)
    requires !StartedIn(q.starts, c)
    ensures var r := StepWorker(q, step);
            (c in r.sessions <==> c in q.sessions) && (c in q.sessions ==> r.sessions[c] == q.sessions[c])
  {
    var n := FindStart(q.starts, step.row);
    assert n.Some? ==> q.starts[n.value].conversation != c;
  }

  lemma WorkerKeepsSettled(q: Pass, c: Conversation, step: WorkerStep)
    requires Settled(q, c)
    ensures Settled(StepWorker(q, step), c)
  {
    WorkerKeepsThreads(q, step, c);
    if StartedIn(q.starts, c) {
      WorkerKeepsUnstartable(q, step, c);
    } else {
      WorkerLeavesOthers(q, step, c);
    }
  }

  lemma WorkerKeepsDoubled(q: Pass, c: Conversation, step: WorkerStep)
    requires Doubled(q, c)
    ensures Doubled(StepWorker(q, step), c)
  {
    var a, b :| 0 <= a < b < |q.starts| && q.starts[a].conversation == c && q.starts[b].conversation == c;
    var r := StepWorker(q, step);
    assert r.starts[a].conversation == c && r.starts[b].conversation == c;
  }

  lemma WorkerMovesSingle(q: Pass, c: Conversation, n: nat, row: nat, ran: bool, step: WorkerStep)
    requires Single(q, c, n, row, ran)
    ensures Single(StepWorker(q, step), c, n, row, ran || step == Enter(row))
  {
    FindStartIs(q.starts, n, row);
  }

  /** All that is known, in one of four forms. */
  datatype View = New | One(n: nat, row: nat, ran: bool) | Two | Old

  ghost predicate Seen(q: Pass, c: Conversation, view: View) {
    match view
    case New => Fresh(q, c)
    case One(n, row, ran) => Single(q, c, n, row, ran)
    case Two => Doubled(q, c)
    case Old => Settled(q, c)
  }

  function AfterWorkers(view: View, steps: seq<WorkerStep>): (r: View) {
    match view
    case One(n, row, ran) => One(n, row, ran || Enter(row) in steps)
    case _ => view
  }

  lemma {:induction false} WorkersSeen(q: Pass, c: Conversation, view: View, steps: seq<WorkerStep>)
    requires Seen(q, c, view) && RowsBelong(q)
    ensures Seen(StepWorkers(q, steps), c, AfterWorkers(view, steps)) && RowsBelong(StepWorkers(q, steps))
  {
    if steps != [] {
      var before, step := steps[..|steps| - 1], steps[|steps| - 1];
      WorkersSeen(q, c, view, before);
      var mid := StepWorkers(q, before);
      WorkerKeepsRows(mid, step);
      assert steps == before + [step];
      match AfterWorkers(view, before)
      case New => WorkerKeepsFresh(mid, c, step);
      case One(n, row, ran) => WorkerMovesSingle(mid, c, n, row, ran, step);
      case Two => WorkerKeepsDoubled(mid, c, step);
      case Old => WorkerKeepsSettled(mid, c, step);
    }
  }

  // ---------------------------------------------------------------- visits

  /** The head that a visit claims belongs to the visited row's conversation. */
  lemma ActStarts(q: Pass, i: nat, sent: bool)
    requires i < |q.tables.rows| && EventQueue.Visible(q.tables.rows[i].status) && RowsBelong(q)
    ensures var r, c := Act(q, i, sent), q.tables.rows[i].conversation;
            && RowsBelong(r)
            && (forall x :: x != c ==> (x in r.sessions <==> x in q.sessions)
                                       && (x in q.sessions ==> r.sessions[x] == q.sessions[x]))
            && (!Startable(q, c) ==> r.starts == q.starts)
            && (Startable(q, c) ==>
                  && EventQueue.FirstVisible(q.tables.rows, c).Some?
                  && r.sessions == q.sessions[c := VerdictOn(q.sessions, c).session]
                  && r.starts == q.starts + [Start(c, EventQueue.FirstVisible(q.tables.rows, c).value,
                                                   VerdictOn(q.sessions, c).session.status, NotBegun)])
  {
    HeadIsEarlier(q.tables.rows, i);
  }

  lemma SnocStarted(starts: seq<Start>, start: Start, c: Conversation)
    ensures StartedIn(starts + [start], c) <==> StartedIn(starts, c) || start.conversation == c
    ensures OneStartFor(starts + [start], c) <==>
              OneStartFor(starts, c) && !(start.conversation == c && StartedIn(starts, c))
  {
    var more := starts + [start];
    assert forall k :: 0 <= k < |starts| ==> more[k] == starts[k];
    assert more[|starts|] == start;
    if StartedIn(starts, c) {
      var k :| 0 <= k < |starts| && starts[k].conversation == c;
      assert more[k].conversation == c;
    }
    if !OneStartFor(starts, c) {
      var a, b :| 0 <= a < b < |starts| && starts[a].conversation == c && starts[b].conversation == c;
      assert more[a].conversation == c && more[b].conversation == c;
    }
  }

  /** A visit to another conversation. */
  lemma ActElsewhere(q: Pass, c: Conversation, view: View, i: nat, sent: bool)
    requires i < |q.tables.rows| && EventQueue.Visible(q.tables.rows[i].status) && RowsBelong(q) && Seen(q, c, view)
    requires q.tables.rows[i].conversation != c
    requires view.One? ==> view.row < |q.tables.rows| && q.tables.rows[view.row].conversation == c
    ensures Seen(Act(q, i, sent), c, view) && RowsBelong(Act(q, i, sent))
  {
    ActStarts(q, i, sent);
    var r := Act(q, i, sent);
    if r.starts != q.starts {
      SnocStarted(q.starts, r.starts[|q.starts|], c);
    }
    StartElsewhere(q, r, c, view);
  }

  /** A thread for another conversation, or none, and this session as it was. */
  lemma StartElsewhere(q: Pass, r: Pass, c: Conversation, view: View)
    requires Seen(q, c, view) && q.starts <= r.starts
    requires (c in r.sessions <==> c in q.sessions) && (c in q.sessions ==> r.sessions[c] == q.sessions[c])
    requires forall n :: |q.starts| <= n < |r.starts| ==>
               r.starts[n].conversation != c && (view.One? ==> r.starts[n].row != view.row)
    requires StartedIn(r.starts, c) <==> StartedIn(q.starts, c)
    requires OneStartFor(r.starts, c) <==> OneStartFor(q.starts, c)
    ensures Seen(r, c, view)
  {
  }

  /** A visit to the conversation itself, when it cannot be started. */
  lemma ActHereQuietly(q: Pass, c: Conversation, view: View, i: nat, sent: bool)
    requires i < |q.tables.rows| && EventQueue.Visible(q.tables.rows[i].status) && RowsBelong(q) && Seen(q, c, view)
    requires q.tables.rows[i].conversation == c && !Startable(q, c)
    ensures Seen(Act(q, i, sent), c, view) && RowsBelong(Act(q, i, sent))
  {
    ActStarts(q, i, sent);
    var r := Act(q, i, sent);
    assert c in r.sessions <==> c in q.sessions;
    assert c in q.sessions ==> r.sessions[c] == q.sessions[c] || r.sessions[c].status == Busy;
  }

  /** A visit that starts a worker. */
  lemma ActHereStarts(q: Pass, c: Conversation, view: View, i: nat, sent: bool) returns (after: View)
    requires i < |q.tables.rows| && EventQueue.Visible(q.tables.rows[i].status) && RowsBelong(q) && Seen(q, c, view)
    requires q.tables.rows[i].conversation == c && Startable(q, c)
    requires EventQueue.FirstVisible(q.tables.rows, c) == Some(i) || !view.New?
    ensures Seen(Act(q, i, sent), c, after) && RowsBelong(Act(q, i, sent))
    ensures after == match view
                     case New => One(|q.starts|, i, false)
                     case One(_, _, _) => Two
                     case _ => view
    ensures view.One? ==> !view.ran
  {
    ActStarts(q, i, sent);
    var r := Act(q, i, sent);
    SnocStarted(q.starts, r.starts[|q.starts|], c);
    after := match view case New => One(|q.starts|, i, false) case One(_, _, _) => Two case _ => view;
    if view.One? {
      assert StartedIn(q.starts, c);
    }
  }

  // ---------------------------------------------------------------- the pass

  /** No visited row of the conversation is visible any more. */
  predicate VisitedHidden(q: Pass, ids: seq<nat>, c: Conversation) {
    forall k :: 0 <= k < |ids| && ids[k] < |q.tables.rows| && q.tables.rows[ids[k]].conversation == c ==>
      !EventQueue.Visible(q.tables.rows[ids[k]].status)
  }

  /** Earlier rows of the conversation were settled before the pass and still are, or were visited. */
  lemma NothingEarlier(p: Pass, q: Pass, failed: set<nat>, ids: seq<nat>, i: nat, j: nat)
    requires Listed(p.tables.rows, ids + [i]) && AllBefore(p.tables.rows, ids + [i]) && (ids + [i])[|ids|] == i
    requires RowsSettle(p, q, failed) && j < i && Reclaimed(p.tables.rows)
    requires VisitedHidden(q, ids, p.tables.rows[i].conversation)
    ensures q.tables.rows[j].conversation == p.tables.rows[i].conversation ==>
            !EventQueue.Visible(q.tables.rows[j].status)
  {
    assert Settles(p.tables.rows[j], q.tables.rows[j], j in failed || LaunchFailedFor(q.starts, j));
    if j in ids {
      var k :| 0 <= k < |ids| && ids[k] == j;
      assert ids[k] < |q.tables.rows|;
    } else {
      assert j !in ids + [i];
    }
  }

  /** A row is the head of its conversation's queue if those visited before it are not visible. */
  lemma NextIsHead(p: Pass, q: Pass, failed: set<nat>, ids: seq<nat>, i: nat)
    requires Listed(p.tables.rows, ids + [i]) && AllBefore(p.tables.rows, ids + [i]) && (ids + [i])[|ids|] == i
    requires RowsSettle(p, q, failed) && Untouched(p, q, i) && Reclaimed(p.tables.rows)
    requires VisitedHidden(q, ids, p.tables.rows[i].conversation)
    ensures EventQueue.FirstVisible(q.tables.rows, p.tables.rows[i].conversation) == Some(i)
  {
    HeadIsEarlier(q.tables.rows, i);
    forall j: nat | j < i
      ensures q.tables.rows[j].conversation == p.tables.rows[i].conversation ==>
              !EventQueue.Visible(q.tables.rows[j].status)
    {
      NothingEarlier(p, q, failed, ids, i, j);
    }
  }

  /** No row is in dispatch any more. */
  predicate Reclaimed(rows: seq<EventQueue.Row>) {
    forall j :: 0 <= j < |rows| ==> EventQueue.Settled(rows[j].status) || EventQueue.Visible(rows[j].status)
  }

  /** Every visible row up to the last listed one is listed. */
  predicate AllBefore(rows: seq<EventQueue.Row>, ids: seq<nat>) {
    forall j :: 0 <= j < |rows| && EventQueue.Visible(rows[j].status) && j < Bound(ids) ==> j in ids
  }

  lemma FirstOfSnoc(rows: seq<EventQueue.Row>, ids: seq<nat>, i: nat, c: Conversation)
    requires (forall k :: 0 <= k < |ids| ==> ids[k] < |rows|) && i < |rows|
    requires forall k :: 0 <= k < |ids + [i]| ==> (ids + [i])[k] < |rows|
    ensures FirstOf(rows, ids + [i], c) ==
            if FirstOf(rows, ids, c).Some? then FirstOf(rows, ids, c)
            else if rows[i].conversation == c then Some(|ids|) else None
  {
    assert (ids + [i])[..|ids|] == ids;
  }

  lemma EntersSnoc(choices: seq<Choice>, row: nat, lo: nat, hi: nat)
    requires lo <= hi < |choices|
    ensures Enters(choices, row, lo, hi + 1) <==> Enters(choices, row, lo, hi) || Enter(row) in choices[hi].workers
  {
  }

  /** What the list and the choices say of a conversation when so many rows were visited. */
  predicate Expected(p: Pass, ids: seq<nat>, choices: seq<Choice>, c: Conversation, view: View)
    requires forall k :: 0 <= k < |ids| ==> ids[k] < |p.tables.rows|
  {
    var first := FirstOf(p.tables.rows, ids, c);
    if !(c in p.sessions && p.sessions[c].status == Creating) then view == Old
    else if first.None? then view == New
    else if InTimeFor(p, ids, choices, c) then
      view.One? && view.row == ids[first.value]
      && (view.ran <==> Enters(choices, view.row, first.value + 1, |ids|))
    else view == Two
  }

  lemma InTimeSnoc(p: Pass, ids: seq<nat>, i: nat, choices: seq<Choice>, c: Conversation)
    requires forall k :: 0 <= k < |ids + [i]| ==> (ids + [i])[k] < |p.tables.rows|
    requires forall k :: 0 <= k < |ids| ==> ids[k] < |p.tables.rows|
    requires c in p.sessions && p.sessions[c].status == Creating && FirstOf(p.tables.rows, ids, c).Some?
    requires i < |p.tables.rows|
    ensures var a := FirstOf(p.tables.rows, ids, c).value;
            InTimeFor(p, ids + [i], choices, c) <==>
              InTimeFor(p, ids, choices, c)
              && (p.tables.rows[i].conversation == c ==> Enters(choices, ids[a], a + 1, |ids| + 1))
  {
    FirstOfSnoc(p.tables.rows, ids, i, c);
    var a, all := FirstOf(p.tables.rows, ids, c).value, ids + [i];
    assert all[a] == ids[a] && all[|ids|] == i;
    assert forall b :: 0 <= b < |ids| ==> all[b] == ids[b];
    if InTimeFor(p, all, choices, c) {
      forall b | a < b < |ids| && p.tables.rows[ids[b]].conversation == c
        ensures Enters(choices, ids[a], a + 1, b + 1)
      {
        assert p.tables.rows[all[b]].conversation == c;
      }
      assert p.tables.rows[i].conversation == c ==> p.tables.rows[all[|ids|]].conversation == c;
    }
  }

  /** One visit, after the workers' steps before it, takes what is expected to what is expected. */
  lemma VisitSeen(p: Pass, q: Pass, ids: seq<nat>, i: nat, choices: seq<Choice>, c: Conversation, view: View)
    returns (after: View)
    requires |ids| < |choices| && i < |p.tables.rows| && |q.tables.rows| == |p.tables.rows|
    requires (forall k :: 0 <= k < |ids| ==> ids[k] < |p.tables.rows|)
             && forall k :: 0 <= k < |ids + [i]| ==> (ids + [i])[k] < |p.tables.rows|
    requires EventQueue.Visible(q.tables.rows[i].status) && RowsBelong(q)
    requires forall j :: 0 <= j < |p.tables.rows| ==> q.tables.rows[j].conversation == p.tables.rows[j].conversation
    requires Expected(p, ids, choices, c, view)
    requires Seen(q, c, AfterWorkers(view, choices[|ids|].workers))
    requires FirstOf(p.tables.rows, ids, p.tables.rows[i].conversation).None? ==>
               EventQueue.FirstVisible(q.tables.rows, p.tables.rows[i].conversation) == Some(i)
    ensures Expected(p, ids + [i], choices, c, after)
    ensures Seen(Act(q, i, choices[|ids|].sent), c, after) && RowsBelong(Act(q, i, choices[|ids|].sent))
  {
    var choice := choices[|ids|];
    var mid := AfterWorkers(view, choice.workers);
    if p.tables.rows[i].conversation != c {
      ExpectedElsewhere(p, ids, i, choices, c, view);
      if mid.One? {
        assert p.tables.rows[mid.row].conversation == c;
      }
      ActElsewhere(q, c, mid, i, choice.sent);
      after := mid;
    } else if Startable(q, c) {
      after := ActHereStarts(q, c, mid, i, choice.sent);
      ExpectedStart(p, ids, i, choices, c, view, after);
    } else {
      ActHereQuietly(q, c, mid, i, choice.sent);
      after := mid;
      ExpectedQuiet(p, ids, i, choices, c, view);
    }
  }

  lemma ExpectedElsewhere(p: Pass, ids: seq<nat>, i: nat, choices: seq<Choice>, c: Conversation, view: View)
    requires |ids| < |choices| && i < |p.tables.rows|
    requires (forall k :: 0 <= k < |ids| ==> ids[k] < |p.tables.rows|)
             && forall k :: 0 <= k < |ids + [i]| ==> (ids + [i])[k] < |p.tables.rows|
    requires Expected(p, ids, choices, c, view) && p.tables.rows[i].conversation != c
    ensures Expected(p, ids + [i], choices, c, AfterWorkers(view, choices[|ids|].workers))
  {
    ExpectedSnoc(p, ids, i, choices, c);
  }

  lemma ExpectedStart(p: Pass, ids: seq<nat>, i: nat, choices: seq<Choice>, c: Conversation, view: View, after: View)
    requires |ids| < |choices| && i < |p.tables.rows|
    requires (forall k :: 0 <= k < |ids| ==> ids[k] < |p.tables.rows|)
             && forall k :: 0 <= k < |ids + [i]| ==> (ids + [i])[k] < |p.tables.rows|
    requires Expected(p, ids, choices, c, view) && p.tables.rows[i].conversation == c
    requires match AfterWorkers(view, choices[|ids|].workers)
             case New => after.One? && after.row == i && !after.ran
             case One(_, _, ran) => !ran && after == Two
             case _ => after == view
    ensures Expected(p, ids + [i], choices, c, after)
  {
    ExpectedSnoc(p, ids, i, choices, c);
    assert (ids + [i])[|ids|] == i;
  }

  lemma ExpectedQuiet(p: Pass, ids: seq<nat>, i: nat, choices: seq<Choice>, c: Conversation, view: View)
    requires |ids| < |choices| && i < |p.tables.rows|
    requires (forall k :: 0 <= k < |ids| ==> ids[k] < |p.tables.rows|)
             && forall k :: 0 <= k < |ids + [i]| ==> (ids + [i])[k] < |p.tables.rows|
    requires Expected(p, ids, choices, c, view) && p.tables.rows[i].conversation == c
    requires match AfterWorkers(view, choices[|ids|].workers)
             case New => false
             case One(_, _, ran) => ran
             case _ => true
    ensures Expected(p, ids + [i], choices, c, AfterWorkers(view, choices[|ids|].workers))
  {
    ExpectedSnoc(p, ids, i, choices, c);
  }

  lemma ExpectedSnoc(p: Pass, ids: seq<nat>, i: nat, choices: seq<Choice>, c: Conversation)
    requires |ids| < |choices| && i < |p.tables.rows|
    requires (forall k :: 0 <= k < |ids| ==> ids[k] < |p.tables.rows|)
             && forall k :: 0 <= k < |ids + [i]| ==> (ids + [i])[k] < |p.tables.rows|
    ensures FirstOf(p.tables.rows, ids + [i], c) ==
            if FirstOf(p.tables.rows, ids, c).Some? then FirstOf(p.tables.rows, ids, c)
            else if p.tables.rows[i].conversation == c then Some(|ids|) else None
    ensures c in p.sessions && p.sessions[c].status == Creating && FirstOf(p.tables.rows, ids, c).Some? ==>
              StaysInTime(p, ids, i, choices, c) && EntersLater(p, ids, choices, c)
  {
    FirstOfSnoc(p.tables.rows, ids, i, c);
    if c in p.sessions && p.sessions[c].status == Creating && FirstOf(p.tables.rows, ids, c).Some? {
      var a := FirstOf(p.tables.rows, ids, c).value;
      InTimeSnoc(p, ids, i, choices, c);
      EntersSnoc(choices, ids[a], a + 1, |ids|);
    }
  }

  /** The thread of the first row runs by the next visit, if it has run or runs just before it. */
  predicate EntersLater(p: Pass, ids: seq<nat>, choices: seq<Choice>, c: Conversation)
    requires |ids| < |choices| && forall k :: 0 <= k < |ids| ==> ids[k] < |p.tables.rows|
    requires FirstOf(p.tables.rows, ids, c).Some?
  {
    var a := FirstOf(p.tables.rows, ids, c).value;
    Enters(choices, ids[a], a + 1, |ids| + 1) <==>
      Enters(choices, ids[a], a + 1, |ids|) || Enter(ids[a]) in choices[|ids|].workers
  }

  /** A new conversation with a listed row is in time one row later. */
  predicate StaysInTime(p: Pass, ids: seq<nat>, i: nat, choices: seq<Choice>, c: Conversation)
    requires |ids| < |choices| && i < |p.tables.rows|
    requires (forall k :: 0 <= k < |ids| ==> ids[k] < |p.tables.rows|)
             && forall k :: 0 <= k < |ids + [i]| ==> (ids + [i])[k] < |p.tables.rows|
    requires FirstOf(p.tables.rows, ids, c).Some?
  {
    var a := FirstOf(p.tables.rows, ids, c).value;
    && (ids + [i])[a] == ids[a]
    && (InTimeFor(p, ids + [i], choices, c) <==>
          InTimeFor(p, ids, choices, c)
          && (p.tables.rows[i].conversation == c ==> Enters(choices, ids[a], a + 1, |ids| + 1)))
  }

  lemma {:induction false} PassSeen(p: Pass, ids: seq<nat>, choices: seq<Choice>, c: Conversation) returns (view: View)
    requires Listed(p.tables.rows, ids) && AllBefore(p.tables.rows, ids) && |ids| <= |choices|
    requires p.starts == [] && Reclaimed(p.tables.rows)
    ensures Expected(p, ids, choices, c, view)
    ensures Seen(VisitAll(p, ids, choices), c, view) && RowsBelong(VisitAll(p, ids, choices))
  {
    if ids == [] {
      view := if c in p.sessions && p.sessions[c].status == Creating then New else Old;
    } else {
      var before, i := ids[..|ids| - 1], ids[|ids| - 1];
      assert before + [i] == ids;
      BeforeIsAll(p.tables.rows, before, i);
      view := PassSeen(p, before, choices, c);
      view := NextSeen(p, before, i, choices, c, view);
    }
  }

  lemma NextSeen(p: Pass, before: seq<nat>, i: nat, choices: seq<Choice>, c: Conversation, view: View)
    returns (after: View)
    requires Listed(p.tables.rows, before) && Listed(p.tables.rows, before + [i])
             && AllBefore(p.tables.rows, before + [i])
    requires |before| < |choices| && Bound(before) <= i && (before + [i])[|before|] == i && i < |p.tables.rows|
    requires p.starts == [] && Reclaimed(p.tables.rows)
    requires Expected(p, before, choices, c, view)
    requires Seen(VisitAll(p, before, choices), c, view) && RowsBelong(VisitAll(p, before, choices))
    ensures Expected(p, before + [i], choices, c, after)
    ensures var r := VisitAll(p, before + [i], choices); Seen(r, c, after) && RowsBelong(r)
  {
    var steps := choices[|before|].workers;
    WorkersSeen(VisitAll(p, before, choices), c, view, steps);
    BeforeVisit(p, before, i, choices);
    after := VisitSeen(p, StepWorkers(VisitAll(p, before, choices), steps), before, i, choices, c, view);
    VisitSnoc(p, before, i, choices);
  }

  lemma VisitSnoc(p: Pass, before: seq<nat>, i: nat, choices: seq<Choice>)
    requires |before| < |choices| && i < |p.tables.rows|
    requires (forall k :: 0 <= k < |before| ==> before[k] < |p.tables.rows|)
             && forall k :: 0 <= k < |before + [i]| ==> (before + [i])[k] < |p.tables.rows|
    ensures VisitAll(p, before + [i], choices) == Visit(VisitAll(p, before, choices), i, choices[|before|])
  {
    assert (before + [i])[..|before|] == before;
  }

  /** What the pass finds when it comes to the next row. */
  lemma BeforeVisit(p: Pass, before: seq<nat>, i: nat, choices: seq<Choice>)
    requires Listed(p.tables.rows, before) && Listed(p.tables.rows, before + [i])
             && AllBefore(p.tables.rows, before + [i])
    requires |before| < |choices| && Bound(before) <= i && (before + [i])[|before|] == i
    requires p.starts == [] && Reclaimed(p.tables.rows)
    ensures var mid := StepWorkers(VisitAll(p, before, choices), choices[|before|].workers);
            var c := p.tables.rows[i].conversation;
            && |mid.tables.rows| == |p.tables.rows| && EventQueue.Visible(mid.tables.rows[i].status)
            && (forall j :: 0 <= j < |p.tables.rows| ==>
                  mid.tables.rows[j].conversation == p.tables.rows[j].conversation)
            && (VisitedHidden(mid, before, c) ==> EventQueue.FirstVisible(mid.tables.rows, c) == Some(i))
  {
    PassSettles(p, before, choices);
    var q, failed := VisitAll(p, before, choices), DoomedVisits(p, before, choices);
    WorkersSettle(p, q, failed, Bound(before), choices[|before|].workers);
    var mid := StepWorkers(q, choices[|before|].workers);
    forall j | 0 <= j < |p.tables.rows| ensures mid.tables.rows[j].conversation == p.tables.rows[j].conversation {
      assert Settles(p.tables.rows[j], mid.tables.rows[j], j in failed || LaunchFailedFor(mid.starts, j));
    }
    if VisitedHidden(mid, before, p.tables.rows[i].conversation) {
      NextIsHead(p, mid, failed, before, i);
    }
  }

  lemma BeforeIsAll(rows: seq<EventQueue.Row>, before: seq<nat>, i: nat)
    requires Listed(rows, before + [i]) && AllBefore(rows, before + [i])
    ensures Listed(rows, before) && AllBefore(rows, before) && Bound(before) <= i && (before + [i])[|before|] == i
  {
    var all := before + [i];
    assert forall k :: 0 <= k < |before| ==> all[k] == before[k];
    assert all[|before|] == i;
    if before != [] {
      assert all[|before| - 1] < all[|before|];
    }
    forall j | 0 <= j < |rows| && EventQueue.Visible(rows[j].status) && j < Bound(before) ensures j in before {
      assert j in all;
    }
  }

  lemma {:induction false} ListIsAll(rows: seq<EventQueue.Row>, limit: nat)
    ensures Listed(rows, ListVisible(rows, limit)) && AllBefore(rows, ListVisible(rows, limit))
  {
    if rows != [] {
      ListIsAll(rows[..|rows| - 1], limit);
    }
  }

  /** A conversation gets at most one worker in the pass if and only if, in case its session was CREATING, the
      thread of its first listed item has run before the pass comes to each later one. */
  lemma OneWorkerIff(tables: EventQueue.Tables, sessions: map<Conversation, Session>, limit: nat, choices: seq<Choice>,
                     c: Conversation)
    requires |choices| >= limit && QueueRows(tables.rows)
    ensures var p := Begin(tables, sessions);
            OneStartFor(Drain(tables, sessions, limit, choices).starts, c)
            <==> InTimeFor(p, ListVisible(p.tables.rows, limit), choices, c)
  {
    var p := Begin(tables, sessions);
    var ids := ListVisible(p.tables.rows, limit);
    ListIsAll(p.tables.rows, limit);
    assert Reclaimed(p.tables.rows);
    var view := PassSeen(p, ids, choices, c);
    ViewSaysOne(p, VisitAll(p, ids, choices), ids, choices, c, view);
  }

  lemma ViewSaysOne(p: Pass, r: Pass, ids: seq<nat>, choices: seq<Choice>, c: Conversation, view: View)
    requires forall k :: 0 <= k < |ids| ==> ids[k] < |p.tables.rows|
    requires Expected(p, ids, choices, c, view) && Seen(r, c, view)
    ensures OneStartFor(r.starts, c) <==> InTimeFor(p, ids, choices, c)
  {
    if view.New? {
      assert forall k :: 0 <= k < |r.starts| ==> r.starts[k].conversation != c;
    }
  }

  ghost predicate AllInTime(p: Pass, ids: seq<nat>, choices: seq<Choice>)
    requires forall k :: 0 <= k < |ids| ==> ids[k] < |p.tables.rows|
  {
    forall c :: InTimeFor(p, ids, choices, c)
  }

  lemma StartsApart(starts: seq<Start>)
    ensures OneStartEach(starts) <==> forall c :: OneStartFor(starts, c)
  {
    if !OneStartEach(starts) {
      var a, b :| 0 <= a < b < |starts| && starts[a].conversation == starts[b].conversation;
      assert !OneStartFor(starts, starts[a].conversation);
    }
  }

  /** The pass starts at most one worker for each conversation if and only if, for every new conversation, the thread
      of its first listed item has run before the pass comes to each later one. */
  lemma OneWorkerEachIff(tables: EventQueue.Tables, sessions: map<Conversation, Session>, limit: nat,
                         choices: seq<Choice>)
    requires |choices| >= limit && QueueRows(tables.rows)
    ensures var p := Begin(tables, sessions);
            OneStartEach(Drain(tables, sessions, limit, choices).starts)
            <==> AllInTime(p, ListVisible(p.tables.rows, limit), choices)
  {
    var starts := Drain(tables, sessions, limit, choices).starts;
    var p := Begin(tables, sessions);
    var ids := ListVisible(p.tables.rows, limit);
    StartsApart(starts);
    forall c ensures OneStartFor(starts, c) <==> InTimeFor(p, ids, choices, c) {
      OneWorkerIff(tables, sessions, limit, choices, c);
    }
  }

  // ---------------------------------------------------------------- two items of a new conversation

  function QueuedRow(c: Conversation, payload: EventQueue.Payload): (row: EventQueue.Row) {
    EventQueue.Row(c, payload, EventQueue.Queued, None, 0)
  }

  function ClaimedRow(c: Conversation, payload: EventQueue.Payload): (row: EventQueue.Row) {
    EventQueue.Row(c, payload, EventQueue.Dispatching, Some(EventQueue.Iso(0)), 1)
  }

  function FailedRow(row: EventQueue.Row): (failed: EventQueue.Row) {
    row.(status := EventQueue.Failed, lease := None)
  }

  function Waiting(c: Conversation, row: nat): (start: Start) {
    Start(c, row, Creating, NotBegun)
  }

  function TwoRows(first: EventQueue.Row, second: EventQueue.Row): (t: EventQueue.Tables) {
    EventQueue.Tables([first, second], map[])
  }

  /** A new session, and nothing else. */
  function NewSession(c: Conversation): (sessions: map<Conversation, Session>) {
    map[c := Session(Creating, OtherCause)]
  }

  const NOTHING_MOVES := Choice([], true)

  /** The first of two items is given to a worker. */
  lemma ActFirst(c: Conversation, first: EventQueue.Payload, second: EventQueue.Row)
    ensures Act(Pass(TwoRows(QueuedRow(c, first), second), NewSession(c), [], Stats(0, 0, 0, 0)), 0, true) ==
            Pass(TwoRows(ClaimedRow(c, first), second), NewSession(c), [Waiting(c, 0)], Stats(0, 1, 0, 0))
  {
    var rows := [QueuedRow(c, first), second];
    assert EventQueue.FirstVisible(rows[..1], c) == Some(0);
    assert rows[0 := ClaimedRow(c, first)] == [ClaimedRow(c, first), second];
    assert [] + [Waiting(c, 0)] == [Waiting(c, 0)];
  }

  /** So is the second, as long as the first worker has not moved the session. */
  lemma ActSecond(c: Conversation, first: EventQueue.Payload, second: EventQueue.Payload)
    ensures Act(Pass(TwoRows(ClaimedRow(c, first), QueuedRow(c, second)), NewSession(c), [Waiting(c, 0)],
                     Stats(0, 1, 0, 0)), 1, true) ==
            Pass(TwoRows(ClaimedRow(c, first), ClaimedRow(c, second)), NewSession(c),
                 [Waiting(c, 0), Waiting(c, 1)], Stats(0, 2, 0, 0))
  {
    var rows := [ClaimedRow(c, first), QueuedRow(c, second)];
    assert EventQueue.FirstVisible(rows[..1], c) == None;
    assert EventQueue.FirstVisible(rows, c) == Some(1);
    assert rows[1 := ClaimedRow(c, second)] == [ClaimedRow(c, first), ClaimedRow(c, second)];
  }

  lemma BeginWithTwo(first: EventQueue.Row, second: EventQueue.Row, sessions: map<Conversation, Session>)
    requires first.status == second.status == EventQueue.Queued
    ensures Begin(TwoRows(first, second), sessions) == Pass(TwoRows(first, second), sessions, [], Stats(0, 0, 0, 0))
  {
    var rows := [first, second];
    assert EventQueue.Bulk(rows, EventQueue.InDispatch, EventQueue.Retryable) == rows;
    CountIsZero(rows);
  }

  lemma TwoListed(rows: seq<EventQueue.Row>)
    requires |rows| == 2 && EventQueue.Visible(rows[0].status) && EventQueue.Visible(rows[1].status)
    ensures ListVisible(rows, 2) == [0, 1]
  {
    assert rows[..1][..0] == [];
    assert ListVisible(rows[..1], 2) == [0];
  }

  lemma VisitTwo(p: Pass, choices: seq<Choice>)
    requires |p.tables.rows| == 2 && |choices| == 2
    ensures VisitAll(p, [0, 1], choices) == Visit(Visit(p, 0, choices[0]), 1, choices[1])
  {
    assert [0, 1][..1] == [0] && [0][..0] == [];
    assert VisitAll(p, [0], choices) == Visit(VisitAll(p, [], choices), 0, choices[0]);
  }

  lemma TwoSteps(p: Pass, a: WorkerStep, b: WorkerStep)
    ensures StepWorkers(p, [a, b]) == StepWorker(StepWorker(p, a), b)
  {
    assert [a, b][..1] == [a] && [a][..0] == [];
    assert StepWorkers(p, [a]) == StepWorker(StepWorkers(p, []), a);
  }

  lemma DrainTwo(c: Conversation, first: EventQueue.Payload, second: EventQueue.Payload, choice: Choice)
    ensures var tables := TwoRows(QueuedRow(c, first), QueuedRow(c, second));
            Drain(tables, NewSession(c), 2, [NOTHING_MOVES, choice]) ==
            Visit(Pass(TwoRows(ClaimedRow(c, first), QueuedRow(c, second)), NewSession(c), [Waiting(c, 0)],
                       Stats(0, 1, 0, 0)), 1, choice)
  {
    var row1, row2 := QueuedRow(c, first), QueuedRow(c, second);
    BeginWithTwo(row1, row2, NewSession(c));
    TwoListed([row1, row2]);
    ActFirst(c, first, row2);
    VisitTwo(Begin(TwoRows(row1, row2), NewSession(c)), [NOTHING_MOVES, choice]);
  }

  /** Of two threads that were started for one new session, the second to run is over at once. */
  lemma SecondWorkerRefuses(p: Pass, m: nat, n: nat)
    requires m < |p.starts| && n < |p.starts| && m != n && p.starts[m].conversation == p.starts[n].conversation
    requires p.starts[n].requested == Creating && p.starts[n].phase == NotBegun
    requires p.starts[m].phase == NotBegun && EnterStep(p, m).starts[m].phase == Launching
    ensures EnterStep(EnterStep(p, m), n).starts[n].phase == Over(None)
  {
  }

  /** A slow worker: both rows go into dispatch, and the thread that was given the second one is over at once and
      leaves it there. */
  lemma SlowWorkerLosesItem(c: Conversation, first: EventQueue.Payload, second: EventQueue.Payload)
    ensures var tables := TwoRows(QueuedRow(c, first), QueuedRow(c, second));
            var r := Drain(tables, NewSession(c), 2, [NOTHING_MOVES, NOTHING_MOVES]);
            var t := StepWorkers(r, [Enter(0), Enter(1)]);
            && t.tables.rows == [ClaimedRow(c, first), ClaimedRow(c, second)]
            && t.starts == [Waiting(c, 0).(phase := Launching), Waiting(c, 1).(phase := Over(None))]
            && t.sessions == map[c := Session(Starting, OtherCause)]
  {
    DrainTwo(c, first, second, NOTHING_MOVES);
    ActSecond(c, first, second);
    BothEnter(c, TwoRows(ClaimedRow(c, first), ClaimedRow(c, second)), Stats(0, 2, 0, 0));
  }

  lemma BothEnter(c: Conversation, tables: EventQueue.Tables, stats: Stats)
    ensures StepWorkers(Pass(tables, NewSession(c), [Waiting(c, 0), Waiting(c, 1)], stats), [Enter(0), Enter(1)]) ==
            Pass(tables, map[c := Session(Starting, OtherCause)],
                 [Waiting(c, 0).(phase := Launching), Waiting(c, 1).(phase := Over(None))], stats)
  {
    var r := Pass(tables, NewSession(c), [Waiting(c, 0), Waiting(c, 1)], stats);
    TwoSteps(r, Enter(0), Enter(1));
    FindStartIs(r.starts, 0, 0);
    var r1 := StepWorker(r, Enter(0));
    FindStartIs(r1.starts, 1, 1);
    SecondWorkerRefuses(r, 0, 1);
  }

  /** A failing worker: the session was new, but when the pass comes to the second item the launch for the first has
      failed, and the second item fails with it. */
  lemma FailedLaunchFailsRest(c: Conversation, first: EventQueue.Payload, second: EventQueue.Payload, timedOut: bool)
    ensures var tables := TwoRows(QueuedRow(c, first), QueuedRow(c, second));
            var r := Drain(tables, NewSession(c), 2, [NOTHING_MOVES, Failing(timedOut)]);
            && !Doomed(NewSession(c), c)
            && r.tables == TwoRows(FailedRow(ClaimedRow(c, first)), FailedRow(QueuedRow(c, second)))
            && r.stats == Stats(0, 1, 1, 0)
  {
    DrainTwo(c, first, second, Failing(timedOut));
    FailingVisit(c, first, second, timedOut);
  }

  function Failing(timedOut: bool): (choice: Choice) {
    Choice([Enter(0), Finish(0, Failed(timedOut))], true)
  }

  lemma FailingVisit(c: Conversation, first: EventQueue.Payload, second: EventQueue.Payload, timedOut: bool)
    ensures Visit(Pass(TwoRows(ClaimedRow(c, first), QueuedRow(c, second)), NewSession(c), [Waiting(c, 0)],
                       Stats(0, 1, 0, 0)), 1, Failing(timedOut)) ==
            Pass(TwoRows(FailedRow(ClaimedRow(c, first)), FailedRow(QueuedRow(c, second))), EndedSession(c, timedOut),
                 [Waiting(c, 0).(phase := Over(Some(Failed(timedOut))))], Stats(0, 1, 1, 0))
  {
    var p := Pass(TwoRows(ClaimedRow(c, first), QueuedRow(c, second)), NewSession(c), [Waiting(c, 0)],
                  Stats(0, 1, 0, 0));
    FirstFails(c, first, QueuedRow(c, second), timedOut);
    FailsNext(c, FailedRow(ClaimedRow(c, first)), second, timedOut);
    VisitIsAct(p, 1, Failing(timedOut));
  }

  lemma VisitIsAct(p: Pass, i: nat, choice: Choice)
    requires i < |p.tables.rows|
    ensures |StepWorkers(p, choice.workers).tables.rows| == |p.tables.rows|
    ensures Visit(p, i, choice) == Act(StepWorkers(p, choice.workers), i, choice.sent)
  {
    WorkersKeepLength(p, choice.workers);
  }

  function EndedSession(c: Conversation, timedOut: bool): (sessions: map<Conversation, Session>) {
    map[c := Session(if timedOut then Suspended else Error, OtherCause)]
  }

  lemma FirstFails(c: Conversation, first: EventQueue.Payload, second: EventQueue.Row, timedOut: bool)
    ensures StepWorkers(Pass(TwoRows(ClaimedRow(c, first), second), NewSession(c), [Waiting(c, 0)], Stats(0, 1, 0, 0)),
                        [Enter(0), Finish(0, Failed(timedOut))]) ==
            Pass(TwoRows(FailedRow(ClaimedRow(c, first)), second), EndedSession(c, timedOut),
                 [Waiting(c, 0).(phase := Over(Some(Failed(timedOut))))], Stats(0, 1, 0, 0))
  {
    var p := Pass(TwoRows(ClaimedRow(c, first), second), NewSession(c), [Waiting(c, 0)], Stats(0, 1, 0, 0));
    TwoSteps(p, Enter(0), Finish(0, Failed(timedOut)));
    FindStartIs(p.starts, 0, 0);
    var p1 := StepWorker(p, Enter(0));
    assert p1.starts == [Waiting(c, 0).(phase := Launching)];
    FindStartIs(p1.starts, 0, 0);
    assert p.tables.rows[0 := FailedRow(ClaimedRow(c, first))] == [FailedRow(ClaimedRow(c, first)), second];
  }

  lemma FailsNext(c: Conversation, first: EventQueue.Row, second: EventQueue.Payload, timedOut: bool)
    ensures var p := Pass(TwoRows(first, QueuedRow(c, second)), EndedSession(c, timedOut),
                          [Waiting(c, 0).(phase := Over(Some(Failed(timedOut))))], Stats(0, 1, 0, 0));
            Act(p, 1, true) == p.(tables := TwoRows(first, FailedRow(QueuedRow(c, second))), stats := Stats(0, 1, 1, 0))
  {
    var rows := [first, QueuedRow(c, second)];
    assert rows[1 := FailedRow(QueuedRow(c, second))] == [first, FailedRow(QueuedRow(c, second))];
  }
}
