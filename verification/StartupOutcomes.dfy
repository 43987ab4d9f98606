/** Which rows the pass after a restart fails, read off the listed rows, the sessions at the start and the scripted
    steps of the worker threads. */
module StartupOutcomes {
  import opened Wrappers
  import opened SessionStatus
  import EventQueue
  import opened StartupDrain
  import opened StartupWorkers

  // ---------------------------------------------------------------- the script of one conversation

  /** What the pass can do for a conversation, by its session at the start. */
  datatype Kind = Unstarted | Resumed | Unstartable(doomed: bool)

  function KindOf(sessions: map<Conversation, Session>, c: Conversation): (kind: Kind) {
    if c in sessions && sessions[c].status == Creating then Unstarted
    else if c in sessions && sessions[c].status == Suspended && sessions[c].cause == AtShutdown then Resumed
    else Unstartable(Doomed(sessions, c))
  }

  /** The rows among those visited whose thread may be the one that launches the worker: any of a new conversation,
      the first of one that the restart suspended. */
  function Contenders(rows: seq<EventQueue.Row>, ids: seq<nat>, c: Conversation, kind: Kind): (open: set<nat>)
    requires forall k :: 0 <= k < |ids| ==> ids[k] < |rows|
  {
    if ids == [] then {}
    else
      var i := ids[|ids| - 1];
      var before := Contenders(rows, ids[..|ids| - 1], c, kind);
      if rows[i].conversation == c && (kind.Unstarted? || (kind.Resumed? && before == {})) then before + {i} else before
  }

  /** How far the one launch of a conversation is, the row it was started for, and whether the message was dispatched.
      */
  datatype Course =
    | NotEntered
    | Entered(row: nat, dispatched: bool)
    | Ended(row: nat, dispatched: bool, end: LaunchEnd)

  /** The first thread to enter launches the worker; its first scripted end is the end of the launch. */
  function StepCourse(open: set<nat>, course: Course, step: WorkerStep): (r: Course) {
    match step
    case Enter(row) => if course.NotEntered? && row in open then Course.Entered(row, false) else course
    case Dispatch(row) => if course.Entered? && course.row == row then Course.Entered(row, true) else course
    case Finish(row, end) =>
      if course.Entered? && course.row == row then Ended(row, course.dispatched, end) else course
  }

  function StepsCourse(open: set<nat>, course: Course, steps: seq<WorkerStep>): (r: Course) {
    if steps == [] then course
    else StepCourse(open, StepsCourse(open, course, steps[..|steps| - 1]), steps[|steps| - 1])
  }

  /** The course of the launch when the last of these rows is visited. */
  function CourseAt(rows: seq<EventQueue.Row>, ids: seq<nat>, choices: seq<Choice>, c: Conversation, kind: Kind)
    : (course: Course)
    requires |ids| <= |choices| && forall k :: 0 <= k < |ids| ==> ids[k] < |rows|
  {
    if ids == [] then NotEntered
    else
      var before := ids[..|ids| - 1];
      StepsCourse(Contenders(rows, before, c, kind), CourseAt(rows, before, choices, c, kind),
                  choices[|ids| - 1].workers)
  }

  /** The conversation cannot take an item: it could not from the start, or its launch has failed or was put off. */
  predicate Refuses(kind: Kind, course: Course) {
    (kind.Unstartable? && kind.doomed) || (course.Ended? && !course.end.Sent?)
  }

  /** The row is visited at a place of the list where its conversation refuses. */
  predicate RefusedAt(rows: seq<EventQueue.Row>, ids: seq<nat>, choices: seq<Choice>, c: Conversation, kind: Kind,
                      j: nat)
    requires |ids| <= |choices| && forall k :: 0 <= k < |ids| ==> ids[k] < |rows|
  {
    exists k :: 0 <= k < |ids| && ids[k] == j && Refuses(kind, CourseAt(rows, ids[..k + 1], choices, c, kind))
  }

  /** The row is visited when its conversation cannot take it, or its own launch fails. */
  predicate FailsByScript(rows: seq<EventQueue.Row>, sessions: map<Conversation, Session>, ids: seq<nat>,
                          choices: seq<Choice>, j: nat)
    requires |ids| <= |choices| && (forall k :: 0 <= k < |ids| ==> ids[k] < |rows|) && j < |rows|
  {
    var c := rows[j].conversation;
    var kind := KindOf(sessions, c);
    RefusedAt(rows, ids, choices, c, kind, j) || LaunchLost(CourseAt(rows, ids, choices, c, kind), j)
  }

  predicate LaunchLost(course: Course, j: nat) {
    course.Ended? && course.row == j && course.end.Failed?
  }

  // ---------------------------------------------------------------- the pass keeps to the script

  /** The threads of the conversation: one for a row, each for a contender, started with the status of the kind. */
  ghost predicate ThreadsFit(starts: seq<Start>, open: set<nat>, c: Conversation, kind: Kind) {
    && (forall n :: 0 <= n < |starts| && starts[n].conversation == c ==>
          starts[n].row in open && starts[n].requested == if kind.Unstarted? then Creating else Starting)
    && (forall m, n :: 0 <= m < n < |starts| && starts[m].conversation == c == starts[n].conversation ==>
          starts[m].row != starts[n].row)
  }

  predicate PhaseFits(course: Course, start: Start) {
    match course
    case NotEntered => start.phase == NotBegun
    case Entered(x, _) =>
      if start.row == x then start.phase == Launching else start.phase in {NotBegun, Over(None)}
    case Ended(x, _, end) =>
      if start.row == x then start.phase == Over(Some(end)) else start.phase in {NotBegun, Over(None)}
  }

  ghost predicate PhasesFit(starts: seq<Start>, c: Conversation, course: Course) {
    forall n :: 0 <= n < |starts| && starts[n].conversation == c ==> PhaseFits(course, starts[n])
  }

  predicate HasThread(starts: seq<Start>, c: Conversation, row: nat) {
    exists n :: 0 <= n < |starts| && starts[n].conversation == c && starts[n].row == row
  }

  /** The launching thread exists; before, every contender has its thread. */
  ghost predicate LauncherFits(starts: seq<Start>, open: set<nat>, c: Conversation, course: Course) {
    if course.NotEntered? then forall row :: row in open ==> HasThread(starts, c, row)
    else course.row in open && HasThread(starts, c, course.row)
  }

  predicate SessionFits(sessions: map<Conversation, Session>, open: set<nat>, c: Conversation, kind: Kind,
                        course: Course)
  {
    match course
    case NotEntered =>
      (match kind
       case Unstarted => c in sessions && sessions[c].status == Creating
       case Resumed =>
         c in sessions && (if open == {} then sessions[c].status == Suspended && sessions[c].cause == AtShutdown
                           else sessions[c].status == Starting)
       case Unstartable(doomed) => !VerdictOn(sessions, c).Starts? && (Doomed(sessions, c) <==> doomed))
    case Entered(_, dispatched) => c in sessions && sessions[c].status == if dispatched then Busy else Starting
    case Ended(_, dispatched, end) =>
      c in sessions
      && match end
         case Sent => sessions[c].status == if dispatched then Busy else Starting
         case Failed(timedOut) => sessions[c] == Session(if timedOut then Suspended else Error, OtherCause)
         case PutOff => sessions[c] == Session(Suspended, OtherCause)
  }

  /** The rows that may still be launched are in dispatch; all contenders are rows of the conversation. */
  ghost predicate ContendersFit(rows: seq<EventQueue.Row>, open: set<nat>, c: Conversation, kind: Kind, course: Course)
  {
    && (forall row :: row in open ==> row < |rows| && rows[row].conversation == c)
    && (course.NotEntered? ==> forall row :: row in open ==> rows[row].status == EventQueue.Dispatching)
    && (kind.Unstartable? ==> open == {})
    && (kind.Resumed? ==> forall a, b :: a in open && b in open ==> a == b)
  }

  ghost predicate Tracks(q: Pass, open: set<nat>, c: Conversation, kind: Kind, course: Course) {
    && ContendersFit(q.tables.rows, open, c, kind, course)
    && ThreadsFit(q.starts, open, c, kind)
    && PhasesFit(q.starts, c, course)
    && LauncherFits(q.starts, open, c, course)
    && SessionFits(q.sessions, open, c, kind, course)
  }

  // ---------------------------------------------------------------- steps of worker threads

  lemma {:induction false} ThreadIsFound(starts: seq<Start>, row: nat, m: nat)
    requires m < |starts| && starts[m].row == row
    ensures FindStart(starts, row).Some?
  {
    if m < |starts| - 1 && starts[|starts| - 1].row != row {
      ThreadIsFound(starts[..|starts| - 1], row, m);
    }
  }

  /** A row without a thread is no contender that could still enter, nor the one that launches. */
  lemma NoThreadNoStep(q: Pass, open: set<nat>, c: Conversation, kind: Kind, course: Course, step: WorkerStep)
    requires Tracks(q, open, c, kind, course) && FindStart(q.starts, step.row).None?
    ensures StepCourse(open, course, step) == course
  {
    if step.row in open && HasThread(q.starts, c, step.row) {
      var m :| 0 <= m < |q.starts| && q.starts[m].conversation == c && q.starts[m].row == step.row;
      ThreadIsFound(q.starts, step.row, m);
    }
  }

  /** The threads, the session and the rows of the conversation are the same. */
  predicate SameHere(q: Pass, r: Pass, c: Conversation) {
    && |r.starts| >= |q.starts| && |r.tables.rows| == |q.tables.rows|
    && (forall n :: 0 <= n < |q.starts| ==>
          r.starts[n].conversation == q.starts[n].conversation
          && (q.starts[n].conversation == c ==> r.starts[n] == q.starts[n]))
    && (forall n :: |q.starts| <= n < |r.starts| ==> r.starts[n].conversation != c)
    && (forall j :: 0 <= j < |q.tables.rows| && q.tables.rows[j].conversation == c ==>
          r.tables.rows[j] == q.tables.rows[j])
    && (c in r.sessions <==> c in q.sessions) && (c in q.sessions ==> r.sessions[c] == q.sessions[c])
  }

  lemma SameThreads(q: Pass, r: Pass, c: Conversation, row: nat)
    requires SameHere(q, r, c) && HasThread(q.starts, c, row)
    ensures HasThread(r.starts, c, row)
  {
    var n :| 0 <= n < |q.starts| && q.starts[n].conversation == c && q.starts[n].row == row;
    assert r.starts[n] == q.starts[n];
  }

  lemma SameTracks(q: Pass, r: Pass, open: set<nat>, c: Conversation, kind: Kind, course: Course)
    requires Tracks(q, open, c, kind, course) && SameHere(q, r, c)
    ensures Tracks(r, open, c, kind, course)
  {
    forall row | row in open && HasThread(q.starts, c, row) ensures HasThread(r.starts, c, row) {
      SameThreads(q, r, c, row);
    }
  }

  /** A step of another conversation's thread. */
  lemma ForeignStep(q: Pass, c: Conversation, step: WorkerStep)
    requires RowsBelong(q) && FindStart(q.starts, step.row).Some?
    requires q.starts[FindStart(q.starts, step.row).value].conversation != c
    ensures SameHere(q, StepWorker(q, step), c)
  {
  }

  /** One thread of the conversation has moved on, and nothing else but its session and its row has changed. */
  predicate OneMoves(q: Pass, r: Pass, n: nat, phase: Phase, c: Conversation) {
    && n < |q.starts| && q.starts[n].conversation == c
    && r.starts == q.starts[n := q.starts[n].(phase := phase)]
    && |r.tables.rows| == |q.tables.rows|
    && forall j :: 0 <= j < |q.tables.rows| ==> r.tables.rows[j].conversation == q.tables.rows[j].conversation
  }

  lemma MovedHasThread(q: Pass, r: Pass, n: nat, phase: Phase, c: Conversation, row: nat)
    requires OneMoves(q, r, n, phase, c) && HasThread(q.starts, c, row)
    ensures HasThread(r.starts, c, row)
  {
    var m :| 0 <= m < |q.starts| && q.starts[m].conversation == c && q.starts[m].row == row;
    assert r.starts[m].conversation == c && r.starts[m].row == row;
  }

  lemma MovedTracks(q: Pass, r: Pass, n: nat, phase: Phase, open: set<nat>, c: Conversation, kind: Kind,
                    course: Course, after: Course)
    requires Tracks(q, open, c, kind, course) && OneMoves(q, r, n, phase, c)
    requires !after.NotEntered? && after.row in open && HasThread(q.starts, c, after.row)
    requires forall m :: 0 <= m < |r.starts| && r.starts[m].conversation == c ==> PhaseFits(after, r.starts[m])
    requires SessionFits(r.sessions, open, c, kind, after)
    ensures Tracks(r, open, c, kind, after)
  {
    MovedHasThread(q, r, n, phase, c, after.row);
  }

  lemma EnterTracks(q: Pass, open: set<nat>, c: Conversation, kind: Kind, course: Course, n: nat)
    requires Tracks(q, open, c, kind, course) && n < |q.starts| && q.starts[n].conversation == c
    ensures Tracks(EnterStep(q, n), open, c, kind, StepCourse(open, course, Enter(q.starts[n].row)))
  {
    var r, row := EnterStep(q, n), q.starts[n].row;
    assert PhaseFits(course, q.starts[n]) && HasThread(q.starts, c, row);
    if course.NotEntered? {
      MovedTracks(q, r, n, Launching, open, c, kind, course, Course.Entered(row, false));
    } else if q.starts[n].phase == NotBegun {
      assert row != course.row && kind.Unstarted?;
      MovedTracks(q, r, n, Over(None), open, c, kind, course, course);
    }
  }

  lemma DispatchTracks(q: Pass, open: set<nat>, c: Conversation, kind: Kind, course: Course, n: nat)
    requires Tracks(q, open, c, kind, course) && n < |q.starts| && q.starts[n].conversation == c
    ensures Tracks(DispatchStep(q, n), open, c, kind, StepCourse(open, course, Dispatch(q.starts[n].row)))
  {
    assert PhaseFits(course, q.starts[n]) && q.starts[n].row in open;
  }

  lemma FinishTracks(q: Pass, open: set<nat>, c: Conversation, kind: Kind, course: Course, n: nat, end: LaunchEnd)
    requires Tracks(q, open, c, kind, course) && n < |q.starts| && q.starts[n].conversation == c
    ensures Tracks(FinishStep(q, n, end), open, c, kind, StepCourse(open, course, Finish(q.starts[n].row, end)))
  {
    var r, row := FinishStep(q, n, end), q.starts[n].row;
    assert PhaseFits(course, q.starts[n]);
    if course.Entered? && course.row == row {
      MovedTracks(q, r, n, Over(Some(end)), open, c, kind, course, Ended(row, course.dispatched, end));
    }
  }

  lemma WorkerTracks(q: Pass, open: set<nat>, c: Conversation, kind: Kind, course: Course, step: WorkerStep)
    requires Tracks(q, open, c, kind, course) && RowsBelong(q)
    ensures Tracks(StepWorker(q, step), open, c, kind, StepCourse(open, course, step))
  {
    var found := FindStart(q.starts, step.row);
    if found.None? {
      NoThreadNoStep(q, open, c, kind, course, step);
    } else if q.starts[found.value].conversation != c {
      assert step.row !in open;
      ForeignStep(q, c, step);
      SameTracks(q, StepWorker(q, step), open, c, kind, course);
    } else {
      match step
      case Enter(_) => EnterTracks(q, open, c, kind, course, found.value);
      case Dispatch(_) => DispatchTracks(q, open, c, kind, course, found.value);
      case Finish(_, end) => FinishTracks(q, open, c, kind, course, found.value, end);
    }
  }

  lemma {:induction false} WorkersTrack(q: Pass, open: set<nat>, c: Conversation, kind: Kind, course: Course,
                                        steps: seq<WorkerStep>)
    requires Tracks(q, open, c, kind, course) && RowsBelong(q)
    ensures Tracks(StepWorkers(q, steps), open, c, kind, StepsCourse(open, course, steps))
    ensures RowsBelong(StepWorkers(q, steps))
  {
    if steps != [] {
      var fewer := steps[..|steps| - 1];
      WorkersTrack(q, open, c, kind, course, fewer);
      WorkerTracks(StepWorkers(q, fewer), open, c, kind, StepsCourse(open, course, fewer), steps[|steps| - 1]);
      WorkerKeepsRows(StepWorkers(q, fewer), steps[|steps| - 1]);
    }
  }

  // ---------------------------------------------------------------- one visit

  /** A visit to another conversation. */
  lemma VisitElsewhere(q: Pass, c: Conversation, i: nat, sent: bool)
    requires i < |q.tables.rows| && EventQueue.Visible(q.tables.rows[i].status) && q.tables.rows[i].conversation != c
    ensures SameHere(q, Act(q, i, sent), c)
  {
    HeadIsEarlier(q.tables.rows, i);
  }

  lemma MoreThreads(starts: seq<Start>, start: Start, c: Conversation, row: nat)
    requires HasThread(starts, c, row) || (start.conversation == c && start.row == row)
    ensures HasThread(starts + [start], c, row)
  {
    var more := starts + [start];
    if HasThread(starts, c, row) {
      var n :| 0 <= n < |starts| && starts[n].conversation == c && starts[n].row == row;
      assert more[n] == starts[n];
    } else {
      assert more[|starts|] == start;
    }
  }

  predicate CanStart(open: set<nat>, kind: Kind) {
    kind.Unstarted? || (kind.Resumed? && open == {})
  }

  function Extended(open: set<nat>, kind: Kind, i: nat): (r: set<nat>) {
    if CanStart(open, kind) then open + {i} else open
  }

  /** A visit that gives the row a thread. */
  lemma StartTracks(q: Pass, open: set<nat>, c: Conversation, kind: Kind, i: nat, sent: bool)
    requires Tracks(q, open, c, kind, NotEntered) && CanStart(open, kind) && i !in open
    requires i < |q.tables.rows| && q.tables.rows[i].conversation == c
    requires EventQueue.FirstVisible(q.tables.rows, c) == Some(i)
    ensures Tracks(Act(q, i, sent), open + {i}, c, kind, NotEntered)
  {
    var r := Act(q, i, sent);
    var start := Start(c, i, if kind.Unstarted? then Creating else Starting, NotBegun);
    assert r.starts == q.starts + [start];
    StartFits(q.starts, start, open, c, kind);
    assert r.tables.rows[i].status == EventQueue.Dispatching;
    assert forall j :: 0 <= j < |q.tables.rows| && j != i ==> r.tables.rows[j] == q.tables.rows[j];
  }

  lemma StartFits(starts: seq<Start>, start: Start, open: set<nat>, c: Conversation, kind: Kind)
    requires ThreadsFit(starts, open, c, kind) && PhasesFit(starts, c, NotEntered)
    requires LauncherFits(starts, open, c, NotEntered)
    requires start.conversation == c && start.row !in open && start.phase == NotBegun
    requires start.requested == if kind.Unstarted? then Creating else Starting
    ensures var more := starts + [start];
            && ThreadsFit(more, open + {start.row}, c, kind) && PhasesFit(more, c, NotEntered)
            && LauncherFits(more, open + {start.row}, c, NotEntered)
  {
    forall row | row in open + {start.row} ensures HasThread(starts + [start], c, row) {
      MoreThreads(starts, start, c, row);
    }
  }

  /** A visit to a conversation that nothing can be started for. */
  lemma UnstartableTracks(q: Pass, open: set<nat>, c: Conversation, kind: Kind, i: nat, sent: bool)
    requires Tracks(q, open, c, kind, NotEntered) && !CanStart(open, kind)
    requires i < |q.tables.rows| && EventQueue.Visible(q.tables.rows[i].status) && q.tables.rows[i].conversation == c
    ensures Tracks(Act(q, i, sent), open, c, kind, NotEntered)
  {
    HeadIsEarlier(q.tables.rows, i);
    var r := Act(q, i, sent);
    assert r.starts == q.starts;
    if kind.Resumed? {
      assert r.tables == q.tables && r.sessions == q.sessions;
    }
  }

  /** Once a thread has entered, a visit starts nothing. */
  lemma LateVisitTracks(q: Pass, open: set<nat>, c: Conversation, kind: Kind, course: Course, i: nat, sent: bool)
    requires Tracks(q, open, c, kind, course) && !course.NotEntered?
    requires i < |q.tables.rows| && EventQueue.Visible(q.tables.rows[i].status) && q.tables.rows[i].conversation == c
    ensures Tracks(Act(q, i, sent), Extended(open, kind, i), c, kind, course)
  {
    var r := Act(q, i, sent);
    assert r.starts == q.starts && r.sessions == q.sessions;
    assert forall j :: 0 <= j < |q.tables.rows| ==> r.tables.rows[j].conversation == q.tables.rows[j].conversation;
  }

  lemma VisitTracks(q: Pass, open: set<nat>, c: Conversation, kind: Kind, course: Course, i: nat, sent: bool)
    requires Tracks(q, open, c, kind, course) && i !in open
    requires i < |q.tables.rows| && EventQueue.Visible(q.tables.rows[i].status)
    requires course.NotEntered? && q.tables.rows[i].conversation == c && CanStart(open, kind) ==>
               EventQueue.FirstVisible(q.tables.rows, c) == Some(i)
    ensures Tracks(Act(q, i, sent), if q.tables.rows[i].conversation == c then Extended(open, kind, i) else open, c,
                   kind, course)
  {
    if q.tables.rows[i].conversation != c {
      VisitElsewhere(q, c, i, sent);
      SameTracks(q, Act(q, i, sent), open, c, kind, course);
    } else if !course.NotEntered? {
      LateVisitTracks(q, open, c, kind, course, i, sent);
    } else if CanStart(open, kind) {
      StartTracks(q, open, c, kind, i, sent);
    } else {
      UnstartableTracks(q, open, c, kind, i, sent);
    }
  }

  // ---------------------------------------------------------------- the pass

  lemma {:induction false} ContendersAre(rows: seq<EventQueue.Row>, ids: seq<nat>, c: Conversation, kind: Kind)
    requires forall k :: 0 <= k < |ids| ==> ids[k] < |rows|
    ensures forall row :: row in Contenders(rows, ids, c, kind) ==> row in ids && rows[row].conversation == c
    ensures CanStart(Contenders(rows, ids, c, kind), kind) ==>
              forall k :: 0 <= k < |ids| && rows[ids[k]].conversation == c ==> ids[k] in Contenders(rows, ids, c, kind)
  {
    if ids != [] {
      ContendersAre(rows, ids[..|ids| - 1], c, kind);
    }
  }

  lemma ContendersSnoc(rows: seq<EventQueue.Row>, ids: seq<nat>, i: nat, c: Conversation, kind: Kind)
    requires (forall k :: 0 <= k < |ids| ==> ids[k] < |rows|) && i < |rows|
    requires forall k :: 0 <= k < |ids + [i]| ==> (ids + [i])[k] < |rows|
    ensures Contenders(rows, ids + [i], c, kind) ==
              var open := Contenders(rows, ids, c, kind);
              if rows[i].conversation == c then Extended(open, kind, i) else open
  {
    assert (ids + [i])[..|ids|] == ids;
  }

  lemma CourseSnoc(rows: seq<EventQueue.Row>, ids: seq<nat>, i: nat, choices: seq<Choice>, c: Conversation, kind: Kind)
    requires |ids| < |choices| && (forall k :: 0 <= k < |ids| ==> ids[k] < |rows|)
    requires forall k :: 0 <= k < |ids + [i]| ==> (ids + [i])[k] < |rows|
    ensures CourseAt(rows, ids + [i], choices, c, kind) ==
              StepsCourse(Contenders(rows, ids, c, kind), CourseAt(rows, ids, choices, c, kind), choices[|ids|].workers)
  {
    assert (ids + [i])[..|ids|] == ids;
  }

  /** The visited rows of a conversation that can still be started are in dispatch. */
  lemma ContendersHidden(p: Pass, mid: Pass, ids: seq<nat>, c: Conversation, kind: Kind)
    requires forall k :: 0 <= k < |ids| ==> ids[k] < |p.tables.rows|
    requires |mid.tables.rows| == |p.tables.rows|
    requires forall j :: 0 <= j < |p.tables.rows| ==> mid.tables.rows[j].conversation == p.tables.rows[j].conversation
    requires Tracks(mid, Contenders(p.tables.rows, ids, c, kind), c, kind, NotEntered)
    requires CanStart(Contenders(p.tables.rows, ids, c, kind), kind)
    ensures VisitedHidden(mid, ids, c)
  {
    ContendersAre(p.tables.rows, ids, c, kind);
  }

  /** When the pass comes to the next row, and after its visit. */
  lemma NextTracks(p: Pass, before: seq<nat>, i: nat, choices: seq<Choice>, c: Conversation, kind: Kind)
    requires Listed(p.tables.rows, before) && Listed(p.tables.rows, before + [i])
             && AllBefore(p.tables.rows, before + [i])
    requires |before| < |choices| && Bound(before) <= i && (before + [i])[|before|] == i && i < |p.tables.rows|
    requires p.starts == [] && Reclaimed(p.tables.rows)
    requires RowsBelong(VisitAll(p, before, choices))
    requires Tracks(VisitAll(p, before, choices), Contenders(p.tables.rows, before, c, kind), c, kind,
                    CourseAt(p.tables.rows, before, choices, c, kind))
    ensures var course := CourseAt(p.tables.rows, before + [i], choices, c, kind);
            var mid := StepWorkers(VisitAll(p, before, choices), choices[|before|].workers);
            var r := VisitAll(p, before + [i], choices);
            && Tracks(mid, Contenders(p.tables.rows, before, c, kind), c, kind, course)
            && Tracks(r, Contenders(p.tables.rows, before + [i], c, kind), c, kind, course) && RowsBelong(r)
  {
    var q, steps := VisitAll(p, before, choices), choices[|before|].workers;
    var open := Contenders(p.tables.rows, before, c, kind);
    var mid := StepWorkers(q, steps);
    CourseSnoc(p.tables.rows, before, i, choices, c, kind);
    var course := CourseAt(p.tables.rows, before + [i], choices, c, kind);
    WorkersTrack(q, open, c, kind, CourseAt(p.tables.rows, before, choices, c, kind), steps);
    BeforeVisit(p, before, i, choices);
    if course.NotEntered? && CanStart(open, kind) {
      ContendersHidden(p, mid, before, c, kind);
    }
    ContendersAre(p.tables.rows, before, c, kind);
    NotYetListed(p.tables.rows, before, i);
    VisitTracks(mid, open, c, kind, course, i, choices[|before|].sent);
    ActStarts(mid, i, choices[|before|].sent);
    ContendersSnoc(p.tables.rows, before, i, c, kind);
    VisitSnoc(p, before, i, choices);
  }

  lemma NotYetListed(rows: seq<EventQueue.Row>, before: seq<nat>, i: nat)
    requires Listed(rows, before) && Bound(before) <= i
    ensures i !in before
  {
  }

  lemma {:induction false} PassTracks(p: Pass, ids: seq<nat>, choices: seq<Choice>, c: Conversation)
    requires Listed(p.tables.rows, ids) && AllBefore(p.tables.rows, ids) && |ids| <= |choices|
    requires p.starts == [] && Reclaimed(p.tables.rows)
    ensures var kind := KindOf(p.sessions, c);
            Tracks(VisitAll(p, ids, choices), Contenders(p.tables.rows, ids, c, kind), c, kind,
                   CourseAt(p.tables.rows, ids, choices, c, kind))
    ensures RowsBelong(VisitAll(p, ids, choices))
  {
    if ids != [] {
      var before, i := ids[..|ids| - 1], ids[|ids| - 1];
      assert before + [i] == ids;
      BeforeIsAll(p.tables.rows, before, i);
      PassTracks(p, before, choices, c);
      NextTracks(p, before, i, choices, c, KindOf(p.sessions, c));
    }
  }

  // ---------------------------------------------------------------- which rows fail

  lemma DoomedIffRefuses(q: Pass, open: set<nat>, c: Conversation, kind: Kind, course: Course)
    requires Tracks(q, open, c, kind, course)
    ensures Doomed(q.sessions, c) <==> Refuses(kind, course)
  {
  }

  lemma RefusedStays(rows: seq<EventQueue.Row>, before: seq<nat>, i: nat, choices: seq<Choice>, c: Conversation,
                     kind: Kind, j: nat)
    requires |before| < |choices| && (forall k :: 0 <= k < |before| ==> before[k] < |rows|)
    requires forall k :: 0 <= k < |before + [i]| ==> (before + [i])[k] < |rows|
    requires RefusedAt(rows, before, choices, c, kind, j)
    ensures RefusedAt(rows, before + [i], choices, c, kind, j)
  {
    var k :| 0 <= k < |before| && before[k] == j && Refuses(kind, CourseAt(rows, before[..k + 1], choices, c, kind));
    FrontOfSnoc(before, i, k);
    assert (before + [i])[k] == j;
  }

  lemma RefusedSplits(rows: seq<EventQueue.Row>, before: seq<nat>, i: nat, choices: seq<Choice>, c: Conversation,
                      kind: Kind, j: nat)
    requires |before| < |choices| && (forall k :: 0 <= k < |before| ==> before[k] < |rows|)
    requires forall k :: 0 <= k < |before + [i]| ==> (before + [i])[k] < |rows|
    requires RefusedAt(rows, before + [i], choices, c, kind, j)
    ensures RefusedAt(rows, before, choices, c, kind, j)
            || (i == j && Refuses(kind, CourseAt(rows, before + [i], choices, c, kind)))
  {
    var all := before + [i];
    var k :| 0 <= k < |all| && all[k] == j && Refuses(kind, CourseAt(rows, all[..k + 1], choices, c, kind));
    if k < |before| {
      FrontOfSnoc(before, i, k);
    } else {
      assert all[..k + 1] == all;
    }
  }

  lemma RefusedSnoc(rows: seq<EventQueue.Row>, before: seq<nat>, i: nat, choices: seq<Choice>, c: Conversation,
                    kind: Kind, j: nat)
    requires |before| < |choices| && (forall k :: 0 <= k < |before| ==> before[k] < |rows|)
    requires forall k :: 0 <= k < |before + [i]| ==> (before + [i])[k] < |rows|
    ensures RefusedAt(rows, before + [i], choices, c, kind, j) <==>
              || RefusedAt(rows, before, choices, c, kind, j)
              || (i == j && Refuses(kind, CourseAt(rows, before + [i], choices, c, kind)))
  {
    var all := before + [i];
    if RefusedAt(rows, before, choices, c, kind, j) {
      RefusedStays(rows, before, i, choices, c, kind, j);
    } else if RefusedAt(rows, all, choices, c, kind, j) {
      RefusedSplits(rows, before, i, choices, c, kind, j);
    } else {
      assert all[..|before| + 1] == all && all[|before|] == i;
    }
  }

  lemma FrontOfSnoc(before: seq<nat>, i: nat, k: nat)
    requires k < |before|
    ensures (before + [i])[k] == before[k] && (before + [i])[..k + 1] == before[..k + 1]
  {
  }

  lemma {:induction false} DoomedVisitIff(p: Pass, ids: seq<nat>, choices: seq<Choice>, j: nat)
    requires Listed(p.tables.rows, ids) && AllBefore(p.tables.rows, ids) && |ids| <= |choices|
    requires p.starts == [] && Reclaimed(p.tables.rows) && j < |p.tables.rows|
    ensures var c := p.tables.rows[j].conversation;
            j in DoomedVisits(p, ids, choices) <==>
              RefusedAt(p.tables.rows, ids, choices, c, KindOf(p.sessions, c), j)
  {
    if ids != [] {
      var before, i, c := ids[..|ids| - 1], ids[|ids| - 1], p.tables.rows[j].conversation;
      assert before + [i] == ids;
      BeforeIsAll(p.tables.rows, before, i);
      DoomedVisitIff(p, before, choices, j);
      DoomedSnoc(p, before, i, choices);
      RefusedSnoc(p.tables.rows, before, i, choices, c, KindOf(p.sessions, c), j);
      MetDoomedIff(p, before, i, choices, c);
    }
  }

  lemma DoomedSnoc(p: Pass, before: seq<nat>, i: nat, choices: seq<Choice>)
    requires |before| < |choices| && i < |p.tables.rows|
    requires (forall k :: 0 <= k < |before| ==> before[k] < |p.tables.rows|)
             && forall k :: 0 <= k < |before + [i]| ==> (before + [i])[k] < |p.tables.rows|
    ensures var met := StepWorkers(VisitAll(p, before, choices), choices[|before|].workers);
            DoomedVisits(p, before + [i], choices) == DoomedVisits(p, before, choices)
              + if Doomed(met.sessions, p.tables.rows[i].conversation) then {i} else {}
  {
    assert (before + [i])[..|before|] == before;
  }

  /** The session that the next visit meets. */
  lemma MetDoomedIff(p: Pass, before: seq<nat>, i: nat, choices: seq<Choice>, c: Conversation)
    requires Listed(p.tables.rows, before) && AllBefore(p.tables.rows, before)
    requires Listed(p.tables.rows, before + [i]) && AllBefore(p.tables.rows, before + [i])
    requires |before| < |choices| && Bound(before) <= i && (before + [i])[|before|] == i && i < |p.tables.rows|
    requires p.starts == [] && Reclaimed(p.tables.rows)
    ensures var kind := KindOf(p.sessions, c);
            Doomed(StepWorkers(VisitAll(p, before, choices), choices[|before|].workers).sessions, c) <==>
              Refuses(kind, CourseAt(p.tables.rows, before + [i], choices, c, kind))
  {
    var kind := KindOf(p.sessions, c);
    PassTracks(p, before, choices, c);
    NextTracks(p, before, i, choices, c, kind);
    DoomedIffRefuses(StepWorkers(VisitAll(p, before, choices), choices[|before|].workers),
                     Contenders(p.tables.rows, before, c, kind), c, kind,
                     CourseAt(p.tables.rows, before + [i], choices, c, kind));
  }

  lemma LaunchFailedIff(r: Pass, open: set<nat>, c: Conversation, kind: Kind, course: Course, j: nat)
    requires Tracks(r, open, c, kind, course) && RowsBelong(r)
    requires j < |r.tables.rows| && r.tables.rows[j].conversation == c
    ensures LaunchFailedFor(r.starts, j) <==> LaunchLost(course, j)
  {
    if LaunchFailedFor(r.starts, j) {
      var n :| 0 <= n < |r.starts| && r.starts[n].row == j && LaunchFailed(r.starts[n].phase);
      assert r.starts[n].conversation == c && PhaseFits(course, r.starts[n]);
    }
    if LaunchLost(course, j) {
      var n :| 0 <= n < |r.starts| && r.starts[n].conversation == c && r.starts[n].row == j;
      assert PhaseFits(course, r.starts[n]);
    }
  }

  /** The session of a conversation that got a worker ends as the script of the one launch says: as it was until a
      thread enters, then STARTING, BUSY once the message is dispatched, and ended or suspended if the launch failed
      or was put off. */
  lemma SessionByScript(tables: EventQueue.Tables, sessions: map<Conversation, Session>, limit: nat,
                        choices: seq<Choice>, c: Conversation)
    requires |choices| >= limit && QueueRows(tables.rows)
    ensures var rows, kind := Begin(tables, sessions).tables.rows, KindOf(sessions, c);
            var ids := ListVisible(rows, limit);
            SessionFits(Drain(tables, sessions, limit, choices).sessions, Contenders(rows, ids, c, kind), c, kind,
                        CourseAt(rows, ids, choices, c, kind))
  {
    var p := Begin(tables, sessions);
    ListIsAll(p.tables.rows, limit);
    assert Reclaimed(p.tables.rows);
    PassTracks(p, ListVisible(p.tables.rows, limit), choices, c);
  }

  /** The pass and its workers fail exactly the rows that the script says: the listed rows of conversations whose
      session was gone, ended, or suspended for another reason than a restart; those visited after the one launch of
      their conversation has failed or was put off; and the row whose own launch failed. Every other row stays settled
      as it was, or unsettled. */
  lemma DrainFailsByScript(tables: EventQueue.Tables, sessions: map<Conversation, Session>, limit: nat,
                           choices: seq<Choice>, j: nat)
    requires |choices| >= limit && j < |tables.rows| && QueueRows(tables.rows)
    ensures var rows := Begin(tables, sessions).tables.rows;
            Settles(tables.rows[j], Drain(tables, sessions, limit, choices).tables.rows[j],
                    FailsByScript(rows, sessions, ListVisible(rows, limit), choices, j))
  {
    var p := Begin(tables, sessions);
    var ids, c := ListVisible(p.tables.rows, limit), p.tables.rows[j].conversation;
    var kind := KindOf(sessions, c);
    ListIsAll(p.tables.rows, limit);
    assert Reclaimed(p.tables.rows);
    DrainFailsExactly(tables, sessions, limit, choices, j);
    DoomedVisitIff(p, ids, choices, j);
    PassTracks(p, ids, choices, c);
    LaunchFailedIff(VisitAll(p, ids, choices), Contenders(p.tables.rows, ids, c, kind), c, kind,
                    CourseAt(p.tables.rows, ids, choices, c, kind), j);
  }
}
