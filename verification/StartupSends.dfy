/** What the pass after a restart does for conversations that need no worker, and what its figures say. */
module StartupSends {
  import opened Wrappers
  import opened SessionStatus
  import EventQueue
  import opened StartupDrain
  import opened StartupWorkers
  import opened StartupOutcomes

  // ---------------------------------------------------------------- conversations at rest

  /** At one of these visits of the conversation tmux takes the message. */
  predicate SentTo(rows: seq<EventQueue.Row>, ids: seq<nat>, choices: seq<Choice>, c: Conversation)
    requires |ids| <= |choices| && forall k :: 0 <= k < |ids| ==> ids[k] < |rows|
  {
    exists k :: 0 <= k < |ids| && rows[ids[k]].conversation == c && choices[k].sent
  }

  /** The rows of the conversation wait where they waited, apart from this one, which is in dispatch. */
  ghost predicate RowsWait(rows: seq<EventQueue.Row>, later: seq<EventQueue.Row>, c: Conversation, taken: Option<nat>) {
    && |later| == |rows|
    && forall j :: 0 <= j < |rows| ==>
         && later[j].conversation == rows[j].conversation
         && (rows[j].conversation == c ==>
               if taken == Some(j) then later[j].status == EventQueue.Dispatching
               else EventQueue.Visible(later[j].status) == EventQueue.Visible(rows[j].status))
  }

  /** The conversation has no worker, and its session is at rest as it was, or busy with its oldest item. */
  ghost predicate Rests(p: Pass, q: Pass, c: Conversation, busy: bool) {
    && c in p.sessions && c in q.sessions && p.sessions[c].status in {Idle, Ready}
    && (forall n :: 0 <= n < |q.starts| ==> q.starts[n].conversation != c)
    && q.sessions[c].status == (if busy then Busy else p.sessions[c].status)
    && RowsWait(p.tables.rows, q.tables.rows, c,
                if busy then EventQueue.FirstVisible(p.tables.rows, c) else None)
  }

  lemma SameRests(p: Pass, q: Pass, r: Pass, c: Conversation, busy: bool)
    requires Rests(p, q, c, busy) && SameHere(q, r, c) && Belongs(q, r)
    ensures Rests(p, r, c, busy)
  {
    forall n | 0 <= n < |r.starts| ensures r.starts[n].conversation != c {
      assert n < |q.starts| ==> r.starts[n].conversation == q.starts[n].conversation;
    }
  }

  predicate Belongs(q: Pass, r: Pass) {
    |r.tables.rows| == |q.tables.rows|
    && forall j :: 0 <= j < |q.tables.rows| ==> r.tables.rows[j].conversation == q.tables.rows[j].conversation
  }

  lemma StepBelongs(q: Pass, step: WorkerStep)
    ensures Belongs(q, StepWorker(q, step))
  {
  }

  lemma {:induction false} WorkersRest(p: Pass, q: Pass, c: Conversation, busy: bool, steps: seq<WorkerStep>)
    requires Rests(p, q, c, busy) && RowsBelong(q)
    ensures Rests(p, StepWorkers(q, steps), c, busy) && RowsBelong(StepWorkers(q, steps))
  {
    if steps != [] {
      var fewer, step := steps[..|steps| - 1], steps[|steps| - 1];
      WorkersRest(p, q, c, busy, fewer);
      var mid := StepWorkers(q, fewer);
      WorkerKeepsRows(mid, step);
      StepBelongs(mid, step);
      if FindStart(mid.starts, step.row).Some? {
        ForeignStep(mid, c, step);
        SameRests(p, mid, StepWorker(mid, step), c, busy);
      }
    }
  }

  lemma ActBelongs(q: Pass, i: nat, sent: bool)
    requires i < |q.tables.rows|
    ensures Belongs(q, Act(q, i, sent))
  {
  }

  /** The oldest waiting row is the same as long as all wait. */
  lemma SameHead(rows: seq<EventQueue.Row>, later: seq<EventQueue.Row>, c: Conversation)
    requires RowsWait(rows, later, c, None)
    ensures EventQueue.FirstVisible(later, c) == EventQueue.FirstVisible(rows, c)
  {
    var a, b := EventQueue.FirstVisible(rows, c), EventQueue.FirstVisible(later, c);
    if a.Some? {
      assert EventQueue.Visible(later[a.value].status);
    }
    if b.Some? {
      assert EventQueue.Visible(rows[b.value].status);
    }
  }

  lemma ActAtRest(p: Pass, q: Pass, c: Conversation, i: nat, sent: bool)
    requires Rests(p, q, c, false) && i < |q.tables.rows| && q.tables.rows[i].conversation == c
    requires EventQueue.Visible(q.tables.rows[i].status)
    ensures Rests(p, Act(q, i, sent), c, sent && p.sessions[c].status == Idle)
  {
    SameHead(p.tables.rows, q.tables.rows, c);
    HeadIsEarlier(q.tables.rows, i);
  }

  lemma ActBusy(p: Pass, q: Pass, c: Conversation, i: nat, sent: bool)
    requires Rests(p, q, c, true) && i < |q.tables.rows| && q.tables.rows[i].conversation == c
    ensures Rests(p, Act(q, i, sent), c, true)
  {
  }

  lemma VisitRests(p: Pass, q: Pass, c: Conversation, busy: bool, i: nat, sent: bool)
    requires Rests(p, q, c, busy) && i < |q.tables.rows| && EventQueue.Visible(q.tables.rows[i].status)
    ensures Rests(p, Act(q, i, sent), c,
                  busy || (q.tables.rows[i].conversation == c && sent && p.sessions[c].status == Idle))
  {
    if q.tables.rows[i].conversation != c {
      VisitElsewhere(q, c, i, sent);
      ActBelongs(q, i, sent);
      SameRests(p, q, Act(q, i, sent), c, busy);
    } else if busy {
      ActBusy(p, q, c, i, sent);
    } else {
      ActAtRest(p, q, c, i, sent);
    }
  }

  lemma SentSnoc(rows: seq<EventQueue.Row>, before: seq<nat>, i: nat, choices: seq<Choice>, c: Conversation)
    requires |before| < |choices| && (forall k :: 0 <= k < |before| ==> before[k] < |rows|) && i < |rows|
    requires forall k :: 0 <= k < |before + [i]| ==> (before + [i])[k] < |rows|
    ensures SentTo(rows, before + [i], choices, c) <==>
              SentTo(rows, before, choices, c) || (rows[i].conversation == c && choices[|before|].sent)
  {
    var all := before + [i];
    assert all[|before|] == i && forall k :: 0 <= k < |before| ==> all[k] == before[k];
    if SentTo(rows, before, choices, c) {
      var k :| 0 <= k < |before| && rows[before[k]].conversation == c && choices[k].sent;
      assert rows[all[k]].conversation == c;
    }
    if rows[i].conversation == c && choices[|before|].sent {
      assert rows[all[|before|]].conversation == c;
    }
  }

  lemma {:induction false} PassRests(p: Pass, ids: seq<nat>, choices: seq<Choice>, c: Conversation)
    requires Listed(p.tables.rows, ids) && AllBefore(p.tables.rows, ids) && |ids| <= |choices|
    requires p.starts == [] && Reclaimed(p.tables.rows)
    requires c in p.sessions && p.sessions[c].status in {Idle, Ready}
    ensures Rests(p, VisitAll(p, ids, choices), c,
                  p.sessions[c].status == Idle && SentTo(p.tables.rows, ids, choices, c))
    ensures RowsBelong(VisitAll(p, ids, choices))
  {
    if ids != [] {
      var before, i := ids[..|ids| - 1], ids[|ids| - 1];
      assert before + [i] == ids;
      BeforeIsAll(p.tables.rows, before, i);
      PassRests(p, before, choices, c);
      var busy := p.sessions[c].status == Idle && SentTo(p.tables.rows, before, choices, c);
      WorkersRest(p, VisitAll(p, before, choices), c, busy, choices[|before|].workers);
      BeforeVisit(p, before, i, choices);
      var mid := StepWorkers(VisitAll(p, before, choices), choices[|before|].workers);
      VisitRests(p, mid, c, busy, i, choices[|before|].sent);
      ActStarts(mid, i, choices[|before|].sent);
      SentSnoc(p.tables.rows, before, i, choices, c);
      VisitSnoc(p, before, i, choices);
    }
  }

  /** A conversation at rest gets no worker from the pass. If its session is idle and tmux takes a message at one of
      its visits, that message is its oldest one, whichever row is visited: that row is in dispatch then and the
      session busy. Otherwise, and always when the session is only ready, the session stays and every unsettled row
      waits. */
  lemma RestingSendsOldest(tables: EventQueue.Tables, sessions: map<Conversation, Session>, limit: nat,
                           choices: seq<Choice>, c: Conversation)
    requires |choices| >= limit && QueueRows(tables.rows)
    requires c in sessions && sessions[c].status in {Idle, Ready}
    ensures var p := Begin(tables, sessions);
            Rests(p, Drain(tables, sessions, limit, choices), c,
                  sessions[c].status == Idle
                  && SentTo(p.tables.rows, ListVisible(p.tables.rows, limit), choices, c))
  {
    var p := Begin(tables, sessions);
    ListIsAll(p.tables.rows, limit);
    assert Reclaimed(p.tables.rows);
    PassRests(p, ListVisible(p.tables.rows, limit), choices, c);
  }

  // ---------------------------------------------------------------- the figures

  /** The session is left to what it is doing: suspended at the start of the bridge, or at work. */
  predicate LeftAlone(sessions: map<Conversation, Session>, c: Conversation) {
    c in sessions
    && (sessions[c].status in {Starting, Busy, Waiting}
        || (sessions[c].status == Suspended && sessions[c].cause == AtStartup))
  }

  /** How many of the visits found their session doomed, and how many left alone. */
  function Tally(p: Pass, ids: seq<nat>, choices: seq<Choice>): (r: (nat, nat))
    requires |ids| <= |choices| && forall k :: 0 <= k < |ids| ==> ids[k] < |p.tables.rows|
  {
    if ids == [] then (0, 0)
    else
      var last := |ids| - 1;
      var met := StepWorkers(VisitAll(p, ids[..last], choices), choices[last].workers).sessions;
      OneMoreVisit(Tally(p, ids[..last], choices), met, p.tables.rows[ids[last]].conversation)
  }

  lemma ActFigures(q: Pass, i: nat, sent: bool)
    requires i < |q.tables.rows| && EventQueue.Visible(q.tables.rows[i].status)
    ensures var r, c := Act(q, i, sent).stats, q.tables.rows[i].conversation;
            r == if Doomed(q.sessions, c) then q.stats.(failed := q.stats.failed + 1)
                 else if LeftAlone(q.sessions, c) then q.stats.(deferred := q.stats.deferred + 1)
                 else q.stats.(processed := q.stats.processed + 1)
  {
    HeadIsEarlier(q.tables.rows, i);
    FailVisit(q, i);
  }

  /** The figures grew by so many visits in all, of which so many failed and so many were deferred. */
  predicate FiguresFit(start: Stats, now: Stats, visits: nat, tally: (nat, nat)) {
    && tally.0 + tally.1 <= visits
    && now == Stats(start.reset, start.processed + visits - tally.0 - tally.1, start.failed + tally.0,
                    start.deferred + tally.1)
  }

  lemma TallySnoc(p: Pass, before: seq<nat>, i: nat, choices: seq<Choice>)
    requires |before| < |choices| && i < |p.tables.rows|
    requires (forall k :: 0 <= k < |before| ==> before[k] < |p.tables.rows|)
             && forall k :: 0 <= k < |before + [i]| ==> (before + [i])[k] < |p.tables.rows|
    ensures var met := StepWorkers(VisitAll(p, before, choices), choices[|before|].workers).sessions;
            Tally(p, before + [i], choices) ==
              OneMoreVisit(Tally(p, before, choices), met, p.tables.rows[i].conversation)
  {
    assert (before + [i])[..|before|] == before;
  }

  lemma WorkersKeepStats(p: Pass, before: seq<nat>, choices: seq<Choice>)
    requires Listed(p.tables.rows, before) && |before| < |choices| && p.starts == [] && Reclaimed(p.tables.rows)
    ensures var q := VisitAll(p, before, choices); StepWorkers(q, choices[|before|].workers).stats == q.stats
  {
    PassSettles(p, before, choices);
    WorkersSettle(p, VisitAll(p, before, choices), DoomedVisits(p, before, choices), Bound(before),
                  choices[|before|].workers);
  }

  function OneMoreVisit(tally: (nat, nat), sessions: map<Conversation, Session>, c: Conversation): (r: (nat, nat)) {
    (tally.0 + (if Doomed(sessions, c) then 1 else 0), tally.1 + if LeftAlone(sessions, c) then 1 else 0)
  }

  lemma NextFigures(start: Stats, mid: Pass, i: nat, sent: bool, visits: nat, tally: (nat, nat))
    requires FiguresFit(start, mid.stats, visits, tally)
    requires i < |mid.tables.rows| && EventQueue.Visible(mid.tables.rows[i].status)
    ensures FiguresFit(start, Act(mid, i, sent).stats, visits + 1,
                       OneMoreVisit(tally, mid.sessions, mid.tables.rows[i].conversation))
  {
    ActFigures(mid, i, sent);
  }

  lemma {:induction false} PassFigures(p: Pass, ids: seq<nat>, choices: seq<Choice>)
    requires Listed(p.tables.rows, ids) && AllBefore(p.tables.rows, ids) && |ids| <= |choices|
    requires p.starts == [] && Reclaimed(p.tables.rows)
    ensures FiguresFit(p.stats, VisitAll(p, ids, choices).stats, |ids|, Tally(p, ids, choices))
  {
    if ids != [] {
      var before, i := ids[..|ids| - 1], ids[|ids| - 1];
      assert before + [i] == ids;
      BeforeIsAll(p.tables.rows, before, i);
      PassFigures(p, before, choices);
      WorkersKeepStats(p, before, choices);
      BeforeVisit(p, before, i, choices);
      var mid := StepWorkers(VisitAll(p, before, choices), choices[|before|].workers);
      NextFigures(p.stats, mid, i, choices[|before|].sent, |before|, Tally(p, before, choices));
      VisitSnoc(p, before, i, choices);
      TallySnoc(p, before, i, choices);
    }
  }

  /** Each figure counts what it is named after: the rows reclaimed; the visits that found a session gone, ended or
      suspended for another reason; those that left a session to what it was doing; and all others. */
  lemma FiguresAreExact(tables: EventQueue.Tables, sessions: map<Conversation, Session>, limit: nat,
                        choices: seq<Choice>)
    requires |choices| >= limit && QueueRows(tables.rows)
    ensures var p := Begin(tables, sessions);
            var ids := ListVisible(p.tables.rows, limit);
            FiguresFit(Stats(EventQueue.CountDispatching(tables.rows), 0, 0, 0),
                       Drain(tables, sessions, limit, choices).stats, |ids|, Tally(p, ids, choices))
  {
    var p := Begin(tables, sessions);
    ListIsAll(p.tables.rows, limit);
    assert Reclaimed(p.tables.rows);
    PassFigures(p, ListVisible(p.tables.rows, limit), choices);
  }
}
