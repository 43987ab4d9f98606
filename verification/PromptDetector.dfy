/** When a waiting prompt is reported to Slack (input_detector.py). */
module PromptDetector {
  import opened Wrappers

  type Key = string

  /** The fields of a session that the detector reads; marker is its turn, or what stands for one. */
  datatype Session = Session(key: Key, marker: string, pane: Option<string>)

  /** One capture of a pane after normalisation, and which of the patterns match it. */
  datatype Screen = Screen(text: string, permission: bool, plan: bool, ask: bool, prompt: bool, inGrace: bool,
                           menuOptions: seq<string>, planOptions: seq<string>)

  datatype WaitType = ToolPermission | PlanApproval | AskUserQuestion | FreeInput

  datatype Report = Report(waitType: WaitType, options: seq<string>)

  /** Equality of the hashed texts. */
  datatype Fingerprint = Fingerprint(marker: string, pane: string, report: Report, tail: string)

  datatype Memory = Memory(stableCounts: map<Key, nat>, lastCaptures: map<Key, string>, turnMarkers: map<Key, string>,
                           lastErrors: map<Key, string>, notified: map<Key, set<Fingerprint>>)

  const STABLE_COUNT: nat := 10
  const TAIL: nat := 2000

  function Tail(text: string): (tail: string) {
    if |text| <= TAIL then text else text[|text| - TAIL..]
  }

  function FingerprintOf(session: Session, report: Report, text: string): (f: Fingerprint) {
    Fingerprint(session.marker, if session.pane.Some? then session.pane.value else "", report, Tail(text))
  }

  predicate Covers(threadTs: string, key: Key) {
    key == threadTs || (|key| >= |threadTs| + 1 && key[|key| - |threadTs| - 1..] == ":" + threadTs)
  }

  // ---------------------------------------------------------------- one poll

  function Without<T>(m: map<Key, T>, threadTs: string): (r: map<Key, T>) {
    map k | k in m && !Covers(threadTs, k) :: m[k]
  }

  function Clear(m: Memory, threadTs: string): (r: Memory) {
    Memory(Without(m.stableCounts, threadTs), Without(m.lastCaptures, threadTs), Without(m.turnMarkers, threadTs),
           Without(m.lastErrors, threadTs), Without(m.notified, threadTs))
  }

  function ResetTurn(m: Memory, session: Session): (r: Memory) {
    var key := session.key;
    if key in m.turnMarkers && m.turnMarkers[key] == session.marker then m
    else
      m.(stableCounts := m.stableCounts - {key}, lastCaptures := m.lastCaptures - {key},
         turnMarkers := if session.marker != "" then m.turnMarkers[key := session.marker] else m.turnMarkers - {key})
  }

  function Dedupe(m: Memory, session: Session, report: Report, text: string): (r: (Memory, Option<Report>)) {
    var f := FingerprintOf(session, report, text);
    var known := if session.key in m.notified then m.notified[session.key] else {};
    (m.(notified := m.notified[session.key := known + {f}]), if f in known then None else Some(report))
  }

  /** The stable count after one more matching capture. */
  function NextCount(m: Memory, session: Session, text: string): (count: nat) {
    var key := session.key;
    if text == (if key in m.lastCaptures then m.lastCaptures[key] else "")
    then (if key in m.stableCounts then m.stableCounts[key] else 0) + 1 else 1
  }

  function Poll(m0: Memory, session: Session, screen: Screen): (r: (Memory, Option<Report>)) {
    var m := ResetTurn(m0, session);
    var key := session.key;
    if screen.permission then Dedupe(m, session, Report(ToolPermission, screen.menuOptions), screen.text)
    else if screen.plan then Dedupe(m, session, Report(PlanApproval, screen.planOptions), screen.text)
    else if screen.ask then Dedupe(m, session, Report(AskUserQuestion, screen.menuOptions), screen.text)
    else if !screen.prompt || screen.inGrace then
      (m.(stableCounts := m.stableCounts - {key}, lastCaptures := m.lastCaptures[key := screen.text]), None)
    else
      var count := NextCount(m, session, screen.text);
      var counted := m.(stableCounts := m.stableCounts[key := count],
                        lastCaptures := m.lastCaptures[key := screen.text]);
      if count < STABLE_COUNT then (counted, None)
      else Dedupe(counted, session, Report(FreeInput, []), screen.text)
  }

  // ---------------------------------------------------------------- the detector

  class InputDetector {
    var stableCounts: map<Key, nat>
    var lastCaptures: map<Key, string>
    var turnMarkers: map<Key, string>
    var lastErrors: map<Key, string>
    var notifiedPrompts: map<Key, set<Fingerprint>>

    ghost function Remembered(): (m: Memory)
      reads this
    {
      Memory(stableCounts, lastCaptures, turnMarkers, lastErrors, notifiedPrompts)
    }

    constructor ()
      ensures Remembered() == Memory(map[], map[], map[], map[], map[])
    {
      stableCounts, lastCaptures, turnMarkers, lastErrors, notifiedPrompts := map[], map[], map[], map[], map[];
    }

    method ClearSession(threadTs: string)
      modifies this
      ensures Remembered() == Clear(old(Remembered()), threadTs)
    {
      var keys := MatchingKeys(threadTs);
      ghost var all, done := keys, {};
      ghost var was := Remembered();
      assert Remembered() == Popped(was, done);
      ClearIsPopped(was, all, threadTs);
      while keys != {}
        invariant keys !! done && keys + done == all
        invariant Remembered() == Popped(was, done)
        decreases keys
      {
        var key :| key in keys;
        PopMore(was, done, key);
        Pop(key);
        keys, done := keys - {key}, done + {key};
      }
    }

    /** The keys to drop. */
    method MatchingKeys(threadTs: string) returns (keys: set<Key>)
      ensures AreMatching(Remembered(), keys, threadTs)
    {
      keys := set k | k in stableCounts.Keys + lastCaptures.Keys + turnMarkers.Keys + lastErrors.Keys
                            + notifiedPrompts.Keys
                      && Covers(threadTs, k) :: k;
      keys := keys + {threadTs};
    }

    /** One pass of the loop over the keys. */
    method Pop(key: Key)
      modifies this
      ensures Remembered() == Popped(old(Remembered()), {key})
    {
      stableCounts := stableCounts - {key};
      lastCaptures := lastCaptures - {key};
      turnMarkers := turnMarkers - {key};
      lastErrors := lastErrors - {key};
      notifiedPrompts := notifiedPrompts - {key};
    }

    method ResetTurnStateIfNeeded(session: Session)
      modifies this
      ensures Remembered() == ResetTurn(old(Remembered()), session)
    {
      var key := session.key;
      var previous := if key in turnMarkers then Some(turnMarkers[key]) else None;
      if previous == Some(session.marker) {
        return;
      }
      stableCounts := stableCounts - {key};
      lastCaptures := lastCaptures - {key};
      if session.marker != "" {
        turnMarkers := turnMarkers[key := session.marker];
      } else {
        turnMarkers := turnMarkers - {key};
      }
    }

    method DedupeResult(session: Session, report: Report, text: string) returns (r: Option<Report>)
      modifies this
      ensures (Remembered(), r) == Dedupe(old(Remembered()), session, report, text)
    {
      var fingerprint := FingerprintOf(session, report, text);
      if session.key !in notifiedPrompts {
        notifiedPrompts := notifiedPrompts[session.key := {}];
      }
      var notified := notifiedPrompts[session.key];
      if fingerprint in notified {
        assert notified + {fingerprint} == notified;
        assert notifiedPrompts[session.key := notified] == notifiedPrompts;
        return None;
      }
      notifiedPrompts := notifiedPrompts[session.key := notified + {fingerprint}];
      assert notifiedPrompts == old(notifiedPrompts)[session.key := notified + {fingerprint}];
      return Some(report);
    }

    method MatchPatterns(session: Session, screen: Screen) returns (r: Option<Report>)
      modifies this
      ensures (Remembered(), r) == Poll(old(Remembered()), session, screen)
    {
      ResetTurnStateIfNeeded(session);
      var key := session.key;
      var hadStablePending := false;
      if screen.permission {
        r := DedupeResult(session, Report(ToolPermission, screen.menuOptions), screen.text);
        return;
      }
      if screen.plan {
        r := DedupeResult(session, Report(PlanApproval, screen.planOptions), screen.text);
        return;
      }
      if screen.ask {
        r := DedupeResult(session, Report(AskUserQuestion, screen.menuOptions), screen.text);
        return;
      }
      if screen.prompt && !screen.inGrace {
        var counts := if key in stableCounts then stableCounts[key] else 0;
        var last := if key in lastCaptures then lastCaptures[key] else "";
        if screen.text == last {
          stableCounts := stableCounts[key := counts + 1];
        } else {
          stableCounts := stableCounts[key := 1];
        }
        lastCaptures := lastCaptures[key := screen.text];
        if stableCounts[key] >= STABLE_COUNT {
          r := DedupeResult(session, Report(FreeInput, []), screen.text);
          return;
        }
        hadStablePending := true;
      }
      if !hadStablePending {
        stableCounts := stableCounts - {key};
      }
      assert hadStablePending ==> lastCaptures[key := screen.text] == lastCaptures;
      lastCaptures := lastCaptures[key := screen.text];
      return None;
    }
  }

  /** What is left when all that is remembered under these keys is dropped. */
  function Popped(m: Memory, keys: set<Key>): (r: Memory) {
    Memory(m.stableCounts - keys, m.lastCaptures - keys, m.turnMarkers - keys, m.lastErrors - keys, m.notified - keys)
  }

  function KeysOf(m: Memory): (keys: set<Key>) {
    m.stableCounts.Keys + m.lastCaptures.Keys + m.turnMarkers.Keys + m.lastErrors.Keys + m.notified.Keys
  }

  /** All keys of the thread that something is remembered under, and only keys of the thread. */
  ghost predicate AreMatching(m: Memory, keys: set<Key>, threadTs: string) {
    && (forall k :: k in keys ==> Covers(threadTs, k))
    && (forall k :: k in KeysOf(m) && Covers(threadTs, k) ==> k in keys)
  }

  lemma PopOne<T>(m: map<Key, T>, done: set<Key>, key: Key)
    ensures m - done - {key} == m - (done + {key})
  {
  }

  lemma PopMore(m: Memory, done: set<Key>, key: Key)
    ensures Popped(Popped(m, done), {key}) == Popped(m, done + {key})
  {
    PopOne(m.stableCounts, done, key);
    PopOne(m.lastCaptures, done, key);
    PopOne(m.turnMarkers, done, key);
    PopOne(m.lastErrors, done, key);
    PopOne(m.notified, done, key);
  }

  lemma Emptied<T>(m: map<Key, T>, keys: set<Key>, threadTs: string)
    requires forall k :: k in keys ==> Covers(threadTs, k)
    requires forall k :: k in m && Covers(threadTs, k) ==> k in keys
    ensures m - keys == Without(m, threadTs)
  {
  }

  lemma ClearIsPopped(m: Memory, keys: set<Key>, threadTs: string)
    requires AreMatching(m, keys, threadTs)
    ensures Popped(m, keys) == Clear(m, threadTs)
  {
    Emptied(m.stableCounts, keys, threadTs);
    Emptied(m.lastCaptures, keys, threadTs);
    Emptied(m.turnMarkers, keys, threadTs);
    Emptied(m.lastErrors, keys, threadTs);
    Emptied(m.notified, keys, threadTs);
  }

  // ---------------------------------------------------------------- runs

  datatype Op = Polled(session: Session, screen: Screen) | Cleared(threadTs: string)

  function Next(m: Memory, op: Op): (r: Memory) {
    match op
    case Polled(session, screen) => Poll(m, session, screen).0
    case Cleared(threadTs) => Clear(m, threadTs)
  }

  function Exec(run: seq<Op>): (m: Memory) {
    if run == [] then Memory(map[], map[], map[], map[], map[]) else Next(Exec(run[..|run| - 1]), run[|run| - 1])
  }

  /** A menu that is reported at once. */
  predicate Dialog(screen: Screen) {
    screen.permission || screen.plan || screen.ask
  }

  /** A capture that counts towards the report of a free-input prompt. */
  predicate Counts(screen: Screen) {
    !Dialog(screen) && screen.prompt && !screen.inGrace
  }

  /** How often the key's last polls, not counting dialogs, saw this capture of a prompt in this turn,
      since the key was last cleared. */
  function Streak(run: seq<Op>, key: Key, marker: string, text: string): (n: nat) {
    if run == [] then 0
    else
      var before := run[..|run| - 1];
      match run[|run| - 1]
      case Cleared(threadTs) => if Covers(threadTs, key) then 0 else Streak(before, key, marker, text)
      case Polled(session, screen) =>
        if session.key != key then Streak(before, key, marker, text)
        else if session.marker != marker then 0
        else if Dialog(screen) then Streak(before, key, marker, text)
        else if Counts(screen) && screen.text == text then Streak(before, key, marker, text) + 1
        else 0
  }

  /** What the history of a key makes of a capture: a menu at once, a prompt from the tenth time on. */
  function Candidate(run: seq<Op>, session: Session, screen: Screen): (r: Option<Report>) {
    if screen.permission then Some(Report(ToolPermission, screen.menuOptions))
    else if screen.plan then Some(Report(PlanApproval, screen.planOptions))
    else if screen.ask then Some(Report(AskUserQuestion, screen.menuOptions))
    else if Counts(screen) && Streak(run, session.key, session.marker, screen.text) + 1 >= 10
    then Some(Report(FreeInput, []))
    else None
  }

  /** The fingerprint that a poll after this run would report. */
  function Reports(run: seq<Op>, op: Op): (f: Option<Fingerprint>) {
    match op
    case Cleared(_) => None
    case Polled(session, screen) =>
      match Poll(Exec(run), session, screen).1
      case None => None
      case Some(report) => Some(FingerprintOf(session, report, screen.text))
  }

  /** The fingerprints reported for a key since it was last cleared. */
  function ReportedSinceClear(run: seq<Op>, key: Key): (fs: set<Fingerprint>) {
    if run == [] then {}
    else
      var before, op := run[..|run| - 1], run[|run| - 1];
      var earlier := ReportedSinceClear(before, key);
      if op.Cleared? then (if Covers(op.threadTs, key) then {} else earlier)
      else if op.session.key == key && Reports(before, op).Some? then earlier + {Reports(before, op).value}
      else earlier
  }

  // ---------------------------------------------------------------- what the detector remembers

  function Notified(m: Memory, key: Key): (fs: set<Fingerprint>) {
    if key in m.notified then m.notified[key] else {}
  }

  /** The stable count, when it was counted for this turn and this capture. */
  function CountFor(m: Memory, key: Key, marker: string, text: string): (n: nat) {
    if key in m.turnMarkers && m.turnMarkers[key] == marker && key in m.lastCaptures && m.lastCaptures[key] == text
       && key in m.stableCounts
    then m.stableCounts[key] else 0
  }

  /** A count is only kept with the capture it was counted for. */
  predicate CountsHaveCaptures(m: Memory) {
    m.stableCounts.Keys <= m.lastCaptures.Keys
  }

  predicate SameAt<T(==)>(m: map<Key, T>, r: map<Key, T>, key: Key) {
    (key in r <==> key in m) && (key in m ==> r[key] == m[key])
  }

  /** The same is remembered for this key. */
  predicate SameFor(m: Memory, r: Memory, key: Key) {
    && SameAt(m.stableCounts, r.stableCounts, key) && SameAt(m.lastCaptures, r.lastCaptures, key)
    && SameAt(m.turnMarkers, r.turnMarkers, key) && SameAt(m.notified, r.notified, key)
  }

  lemma ResetIsLocal(m: Memory, session: Session, key: Key)
    requires key != session.key
    ensures SameFor(m, ResetTurn(m, session), key)
  {
  }

  lemma DedupeIsLocal(m: Memory, session: Session, report: Report, text: string, key: Key)
    requires key != session.key
    ensures SameFor(m, Dedupe(m, session, report, text).0, key)
  {
  }

  /** A poll that reports nothing, or finds a prompt, seen from another key. */
  lemma CountIsLocal(m: Memory, session: Session, count: nat, text: string, key: Key)
    requires key != session.key
    ensures SameFor(m, m.(stableCounts := m.stableCounts[session.key := count],
                          lastCaptures := m.lastCaptures[session.key := text]), key)
    ensures SameFor(m, m.(stableCounts := m.stableCounts - {session.key},
                          lastCaptures := m.lastCaptures[session.key := text]), key)
  {
  }

  /** A poll changes only what is remembered for its own key. */
  lemma PollIsLocal(m0: Memory, session: Session, screen: Screen, key: Key)
    requires key != session.key
    ensures SameFor(m0, Poll(m0, session, screen).0, key)
  {
    var m, text := ResetTurn(m0, session), screen.text;
    ResetIsLocal(m0, session, key);
    DedupeIsLocal(m, session, Report(ToolPermission, screen.menuOptions), text, key);
    DedupeIsLocal(m, session, Report(PlanApproval, screen.planOptions), text, key);
    DedupeIsLocal(m, session, Report(AskUserQuestion, screen.menuOptions), text, key);
    if Counts(screen) {
      var count := NextCount(m, session, text);
      var counted := m.(stableCounts := m.stableCounts[session.key := count],
                        lastCaptures := m.lastCaptures[session.key := text]);
      CountIsLocal(m, session, count, text, key);
      DedupeIsLocal(counted, session, Report(FreeInput, []), text, key);
    } else {
      CountIsLocal(m, session, 0, text, key);
    }
  }

  lemma OtherKeysStay(m: Memory, session: Session, screen: Screen, key: Key, marker: string, text: string)
    requires key != session.key
    ensures var r := Poll(m, session, screen).0;
            CountFor(r, key, marker, text) == CountFor(m, key, marker, text) && Notified(r, key) == Notified(m, key)
  {
    PollIsLocal(m, session, screen, key);
  }

  lemma PollCounts(m: Memory, session: Session, screen: Screen, marker: string, text: string)
    requires session.marker != "" && CountsHaveCaptures(m)
    ensures var r := Poll(m, session, screen).0;
            CountFor(r, session.key, marker, text) ==
              if session.marker != marker then 0
              else if Dialog(screen) then CountFor(m, session.key, marker, text)
              else if Counts(screen) && screen.text == text then CountFor(m, session.key, marker, text) + 1
              else 0
  {
  }

  lemma PollKeepsCaptures(m: Memory, session: Session, screen: Screen)
    requires CountsHaveCaptures(m)
    ensures CountsHaveCaptures(Poll(m, session, screen).0)
  {
  }

  /** A session always has a marker: its turn id, the start of its turn, or "_no_turn_". */
  ghost predicate Marked(run: seq<Op>) {
    forall k :: 0 <= k < |run| && run[k].Polled? ==> run[k].session.marker != ""
  }

  lemma {:induction false} CapturesAreKept(run: seq<Op>)
    ensures CountsHaveCaptures(Exec(run))
  {
    if run != [] {
      CapturesAreKept(run[..|run| - 1]);
      if run[|run| - 1].Polled? {
        PollKeepsCaptures(Exec(run[..|run| - 1]), run[|run| - 1].session, run[|run| - 1].screen);
      }
    }
  }

  /** The stable count is the length of the streak. */
  lemma {:induction false} CountIsStreak(run: seq<Op>, key: Key, marker: string, text: string)
    requires Marked(run)
    ensures CountFor(Exec(run), key, marker, text) == Streak(run, key, marker, text)
  {
    if run != [] {
      var before, op := run[..|run| - 1], run[|run| - 1];
      CountIsStreak(before, key, marker, text);
      CapturesAreKept(before);
      if op.Polled? {
        if op.session.key == key {
          PollCounts(Exec(before), op.session, op.screen, marker, text);
        } else {
          OtherKeysStay(Exec(before), op.session, op.screen, key, marker, text);
        }
      }
    }
  }

  /** A poll reports the candidate of its history, unless its fingerprint is known. */
  lemma PollReports(run: seq<Op>, session: Session, screen: Screen)
    requires Marked(run) && session.marker != ""
    ensures var c := Candidate(run, session, screen);
            Poll(Exec(run), session, screen).1 ==
              if c.Some? && FingerprintOf(session, c.value, screen.text) !in Notified(Exec(run), session.key)
              then c else None
    ensures var r := Reports(run, Polled(session, screen));
            Notified(Poll(Exec(run), session, screen).0, session.key)
            == Notified(Exec(run), session.key) + if r.Some? then {r.value} else {}
  {
    CountIsStreak(run, session.key, session.marker, screen.text);
    CapturesAreKept(run);
    if Counts(screen) {
      CountAfterReset(Exec(run), session, screen.text);
    }
  }

  lemma CountAfterReset(m: Memory, session: Session, text: string)
    requires CountsHaveCaptures(m) && session.marker != ""
    ensures NextCount(ResetTurn(m, session), session, text) == CountFor(m, session.key, session.marker, text) + 1
  {
  }

  lemma {:induction false} NotifiedIsReported(run: seq<Op>, key: Key)
    requires Marked(run)
    ensures Notified(Exec(run), key) == ReportedSinceClear(run, key)
  {
    if run != [] {
      var before, op := run[..|run| - 1], run[|run| - 1];
      NotifiedIsReported(before, key);
      if op.Polled? {
        if op.session.key == key {
          PollReports(before, op.session, op.screen);
        } else {
          OtherKeysStay(Exec(before), op.session, op.screen, key, "", "");
        }
      }
    }
  }

  // ---------------------------------------------------------------- keys and markers

  /** A key is the thread's when it is its timestamp, or ends with a colon and its timestamp. */
  lemma CoversIff(threadTs: string, key: Key)
    ensures Covers(threadTs, key) <==> key == threadTs || exists front: string :: key == front + (":" + threadTs)
  {
    if |key| >= |threadTs| + 1 {
      var n := |key| - |threadTs| - 1;
      assert key == key[..n] + key[n..];
      forall front: string | key == front + (":" + threadTs) ensures key[n..] == ":" + threadTs {
        assert |front| == n;
      }
    }
  }

  /** An empty marker is never remembered. */
  lemma {:induction false} MarkersAreNotEmpty(run: seq<Op>)
    ensures forall key :: key in Exec(run).turnMarkers ==> Exec(run).turnMarkers[key] != ""
  {
    if run != [] {
      MarkersAreNotEmpty(run[..|run| - 1]);
    }
  }

  /** Polls of a session without any marker count nothing: its prompts are never reported. */
  lemma UnmarkedPromptIsNotReported(run: seq<Op>, session: Session, screen: Screen)
    requires session.marker == "" && !Dialog(screen)
    ensures Poll(Exec(run), session, screen).1 == None
  {
    MarkersAreNotEmpty(run);
    var m := ResetTurn(Exec(run), session);
    assert session.key !in m.stableCounts && session.key !in m.lastCaptures;
    assert NextCount(m, session, screen.text) == 1;
  }

  // ---------------------------------------------------------------- what is reported

  /** A fingerprint is reported exactly when it is the candidate's, and was not reported for this key
      since the key was last cleared. */
  lemma ReportedIff(run: seq<Op>, session: Session, screen: Screen, f: Fingerprint)
    requires Marked(run) && session.marker != ""
    ensures Reports(run, Polled(session, screen)) == Some(f) <==>
            && Candidate(run, session, screen).Some?
            && f == FingerprintOf(session, Candidate(run, session, screen).value, screen.text)
            && f !in ReportedSinceClear(run, session.key)
  {
    PollReports(run, session, screen);
    NotifiedIsReported(run, session.key);
  }

  /** Between two reports of one fingerprint for one key, the key is cleared. */
  lemma ReportedAtMostOnce(run: seq<Op>, i: nat, j: nat)
    requires Marked(run) && i < j < |run| && run[i].Polled? && run[j].Polled?
    requires run[i].session.key == run[j].session.key
    requires Reports(run[..i], run[i]).Some? && Reports(run[..i], run[i]) == Reports(run[..j], run[j])
    ensures exists k :: i < k < j && run[k].Cleared? && Covers(run[k].threadTs, run[i].session.key)
  {
    var key, more := run[i].session.key, run[i + 1..j];
    if forall k :: i < k < j && run[k].Cleared? ==> !Covers(run[k].threadTs, key) {
      SplitAround(run, i, j);
      NotReportedAgain(run[..i], run[i], more, run[j], key);
    }
  }

  lemma SplitAround(run: seq<Op>, i: nat, j: nat)
    requires i < j <= |run|
    ensures run[..i] + [run[i]] + run[i + 1..j] == run[..j]
  {
  }

  lemma NotReportedAgain(before: seq<Op>, first: Op, more: seq<Op>, second: Op, key: Key)
    requires Marked(before + [first] + more) && first.Polled? && second.Polled? && second.session.marker != ""
    requires first.session.key == key == second.session.key && Reports(before, first).Some?
    requires forall k :: 0 <= k < |more| && more[k].Cleared? ==> !Covers(more[k].threadTs, key)
    ensures Reports(before + [first] + more, second) != Reports(before, first)
  {
    var f := Reports(before, first).value;
    ReportIsKnown(before, first, key);
    StaysKnown(before + [first], more, key, f);
    ReportedIff(before + [first] + more, second.session, second.screen, f);
  }

  lemma ReportIsKnown(before: seq<Op>, op: Op, key: Key)
    requires op.Polled? && op.session.key == key && Reports(before, op).Some?
    ensures Reports(before, op).value in ReportedSinceClear(before + [op], key)
  {
    assert (before + [op])[..|before|] == before;
  }

  lemma KnownStaysKnown(before: seq<Op>, op: Op, key: Key)
    requires op.Cleared? ==> !Covers(op.threadTs, key)
    ensures ReportedSinceClear(before, key) <= ReportedSinceClear(before + [op], key)
  {
    assert (before + [op])[..|before|] == before;
  }

  lemma {:induction false} StaysKnown(before: seq<Op>, more: seq<Op>, key: Key, f: Fingerprint)
    requires f in ReportedSinceClear(before, key)
    requires forall k :: 0 <= k < |more| && more[k].Cleared? ==> !Covers(more[k].threadTs, key)
    ensures f in ReportedSinceClear(before + more, key)
    decreases |more|
  {
    if more == [] {
      assert before + more == before;
    } else {
      var fewer, last := more[..|more| - 1], more[|more| - 1];
      StaysKnown(before, fewer, key, f);
      KnownStaysKnown(before + fewer, last, key);
      assert before + fewer + [last] == before + more;
    }
  }

  /** Two polls have one fingerprint exactly when they saw the same turn and pane, report the same, and their captures
      end in the same two thousand characters, or are the same when shorter. */
  lemma SameFingerprintIff(session: Session, report: Report, text: string, other: Session, second: Report,
                           text2: string)
    ensures FingerprintOf(session, report, text) == FingerprintOf(other, second, text2) <==>
            && session.marker == other.marker && report == second
            && (session.pane == other.pane || {session.pane, other.pane} == {None, Some("")})
            && SameEnd(text, text2, if |text| < 2000 then |text| else 2000)
  {
    if SameEnd(text, text2, if |text| < 2000 then |text| else 2000) {
      assert |Tail(text)| == |Tail(text2)|;
    }
  }

  /** Both texts end in the same so many characters; a shorter text has no others. */
  predicate SameEnd(text: string, text2: string, n: nat) {
    n <= |text| && n <= |text2| && text[|text| - n..] == text2[|text2| - n..] && (n < 2000 ==> |text| == |text2| == n)
  }

  /** The fingerprints reported for a key carry the turns that its polls saw. */
  lemma {:induction false} OtherTurnsUnreported(run: seq<Op>, key: Key, marker: string)
    requires forall k :: 0 <= k < |run| && run[k].Polled? && run[k].session.key == key ==>
               run[k].session.marker != marker
    ensures forall f :: f in ReportedSinceClear(run, key) ==> f.marker != marker
  {
    if run != [] {
      OtherTurnsUnreported(run[..|run| - 1], key, marker);
    }
  }

  /** In a turn that was not polled before, whatever the history makes a candidate is reported: the same dialog again.
      */
  lemma NewTurnReportsAgain(run: seq<Op>, session: Session, screen: Screen)
    requires Marked(run) && session.marker != ""
    requires forall k :: 0 <= k < |run| && run[k].Polled? && run[k].session.key == session.key ==>
               run[k].session.marker != session.marker
    requires Candidate(run, session, screen).Some?
    ensures Poll(Exec(run), session, screen).1 == Candidate(run, session, screen)
  {
    PollReports(run, session, screen);
    NotifiedIsReported(run, session.key);
    OtherTurnsUnreported(run, session.key, session.marker);
  }

  /** A poll of this key, in this turn, that saw this capture of a prompt. */
  predicate Saw(op: Op, key: Key, marker: string, text: string) {
    op.Polled? && op.session.key == key && op.session.marker == marker && Counts(op.screen) && op.screen.text == text
  }

  /** The places of the polls that a streak consists of, in order: nothing between them clears the key, polls it in
      another turn or with another capture. */
  lemma {:induction false} StreakPolls(run: seq<Op>, key: Key, marker: string, text: string) returns (at: seq<nat>)
    ensures |at| == Streak(run, key, marker, text)
    ensures forall a :: 0 <= a < |at| ==> at[a] < |run| && Saw(run[at[a]], key, marker, text)
    ensures forall a, b :: 0 <= a < b < |at| ==> at[a] < at[b]
    ensures forall k :: at != [] && at[0] <= k < |run| ==>
              if run[k].Cleared? then !Covers(run[k].threadTs, key)
              else run[k].session.key == key ==>
                     run[k].session.marker == marker && (Dialog(run[k].screen) || Saw(run[k], key, marker, text))
  {
    if run == [] {
      at := [];
    } else {
      var last := |run| - 1;
      var before, op := run[..last], run[last];
      var earlier := StreakPolls(before, key, marker, text);
      if Streak(run, key, marker, text) == 0 {
        at := [];
      } else if Saw(op, key, marker, text) {
        at := earlier + [last];
      } else {
        at := earlier;
      }
    }
  }

  /** A free-input wait is reported only when that poll and nine before it, since the last clear and all
      in one turn, saw the same capture of a prompt, and every other poll between them saw a dialog. */
  lemma FreeInputWasStable(run: seq<Op>, session: Session, screen: Screen) returns (at: seq<nat>)
    requires Marked(run) && session.marker != ""
    requires Poll(Exec(run), session, screen).1 == Some(Report(FreeInput, []))
    ensures |at| >= 9
    ensures forall a :: 0 <= a < |at| ==> at[a] < |run| && Saw(run[at[a]], session.key, session.marker, screen.text)
    ensures forall a, b :: 0 <= a < b < |at| ==> at[a] < at[b]
    ensures forall k :: at[0] <= k < |run| ==>
              if run[k].Cleared? then !Covers(run[k].threadTs, session.key)
              else run[k].session.key == session.key ==>
                     run[k].session.marker == session.marker
                     && (Dialog(run[k].screen) || Saw(run[k], session.key, session.marker, screen.text))
  {
    PollReports(run, session, screen);
    at := StreakPolls(run, session.key, session.marker, screen.text);
  }
}
