/** Where at-most-once delivery ends: a retry that takes over a row for which something was sent, a request that takes
    over a turn, and a part that was accepted without a timestamp. */
module DeliveryHazards {
  import opened Wrappers
  import opened SessionStatus
  import opened ReplyLedger
  import opened ReplyProtocol
  import ReplyDelivery
  import TurnClaims
  import SlackCalls

  // ---------------------------------------------------------------- a handler that is not refused

  /** The turn of the reply is live in the session it names, and free for the request. */
  predicate Ready(turns: Turns, sessions: Sessions, now: nat, body: Body, key: Key) {
    var Body(request, payload) := body;
    && WellFormed(body)
    && TurnIsLive(turns, sessions, payload.turnId)
    && turns[payload.turnId].sessionKey == key
    && TurnClaimFree(turns[payload.turnId], request, now)
    && CallbackIdentityError(sessions[key], payload).None?
    && IsResolution(sessions, payload, Some(key))
  }

  function Granted(turns: Turns, now: nat, body: Body): (r: Turns)
    requires body.payload.turnId in turns
  {
    var turn := body.payload.turnId;
    turns[turn := turns[turn].(claim := Some(TurnClaim(body.request, now)))]
  }

  function Claimed(s: State, body: Body): (r: (Replies, ClaimResult)) {
    ClaimReply(s.replies, body.request, body.payload.caseId, body.payload, s.now)
  }

  lemma ArriveStep(s: State, body: Body)
    requires WellFormed(body) && Claimed(s, body).1.claimed
    ensures HandlerStep(s, body, Arrived, Proceed) == Effect(Claimed(s, body).0, s.turns, Resolving, [])
  {
  }

  lemma ResolveStep(s: State, body: Body, key: Key)
    requires Ready(s.turns, s.sessions, s.now, body, key)
    ensures HandlerStep(s, body, Resolving, Found(Some(key))) ==
            Effect(s.replies, s.turns, Checking(s.sessions[key], key), [])
  {
  }

  lemma CheckStep(s: State, body: Body, key: Key)
    requires Ready(s.turns, s.sessions, s.now, body, key)
    ensures HandlerStep(s, body, Checking(s.sessions[key], key), Proceed) ==
            Effect(s.replies, s.turns, Reloading(s.sessions[key], key, s.turns[body.payload.turnId]), [])
  {
  }

  lemma ReloadStep(s: State, body: Body, key: Key)
    requires Ready(s.turns, s.sessions, s.now, body, key)
    ensures HandlerStep(s, body, Reloading(s.sessions[key], key, s.turns[body.payload.turnId]), Proceed) ==
            Effect(s.replies, s.turns, Claimable, [])
  {
  }

  lemma HoldStep(s: State, body: Body, key: Key)
    requires Ready(s.turns, s.sessions, s.now, body, key)
    ensures HandlerStep(s, body, Claimable, Proceed) ==
            Effect(s.replies, Granted(s.turns, s.now, body), TurnHeld, [])
  {
  }

  /** The state after handler h has taken a step with effect e. */
  function After(s: State, h: HandlerId, body: Body, e: Effect): (t: State) {
    s.(replies := e.replies, turns := e.turns, log := s.log + e.calls,
       handlers := s.handlers[h := Handler(body, e.phase)])
  }

  lemma OneMore(before: seq<Action>, s: State, h: HandlerId, body: Body, phase: Phase, choice: Choice, e: Effect)
    returns (t: State)
    requires Exec(before) == s && h in s.handlers && s.handlers[h] == Handler(body, phase)
    requires e == HandlerStep(s, body, phase, choice)
    ensures t == Exec(before + [Step(h, choice)]) == After(s, h, body, e)
  {
    ExecSnoc(before, Step(h, choice));
    t := After(s, h, body, e);
  }

  lemma Regroup(a: seq<Action>, b: seq<Action>, c: seq<Action>)
    ensures a + (b + c) == a + b + c
  {
  }

  lemma RegroupFour(a: seq<Action>, b: seq<Action>, c: seq<Action>, d: seq<Action>, e: seq<Action>)
    ensures a + (b + c + d + e) == a + b + c + d + e
  {
    assert b + c + d + e == b + (c + d + e);
  }

  lemma LogSnoc(log: seq<Call>, calls: seq<Call>, last: Call)
    ensures log + calls + [last] == log + (calls + [last])
  {
  }

  lemma Restore(m: map<HandlerId, Handler>, h: HandlerId)
    requires h in m
    ensures m[h := m[h]] == m
  {
  }

  lemma Overwrite(m: map<HandlerId, Handler>, h: HandlerId, x: Handler, y: Handler)
    ensures m[h := x][h := y] == m[h := y]
  {
  }

  function WalkIn(h: HandlerId, body: Body, key: Key): (run: seq<Action>) {
    [Arrive(h, body)] + [Step(h, Proceed)] + [Step(h, Found(Some(key)))]
  }

  function WalkOn(h: HandlerId): (run: seq<Action>) {
    [Step(h, Proceed)] + [Step(h, Proceed)] + [Step(h, Proceed)] + [Step(h, Slot(true))]
  }

  /** The steps from arrival to the first Slack call. */
  function Walk(h: HandlerId, body: Body, key: Key): (run: seq<Action>) {
    WalkIn(h, body, key) + WalkOn(h)
  }

  /** Arrival, the reply claim and the session lookup. */
  lemma WalkInReaches(before: seq<Action>, s: State, h: HandlerId, body: Body, key: Key) returns (t: State)
    requires Exec(before) == s && h !in s.handlers && Ready(s.turns, s.sessions, s.now, body, key)
    requires Claimed(s, body).1.claimed
    ensures t == Exec(before + WalkIn(h, body, key))
    ensures t == s.(replies := Claimed(s, body).0,
                    handlers := s.handlers[h := Handler(body, Checking(s.sessions[key], key))])
  {
    var run1 := before + [Arrive(h, body)];
    ExecSnoc(before, Arrive(h, body));
    var s1 := s.(handlers := s.handlers[h := Handler(body, Arrived)]);
    ArriveStep(s1, body);
    var s2 := OneMore(run1, s1, h, body, Arrived, Proceed, Effect(Claimed(s, body).0, s.turns, Resolving, []));
    ResolveStep(s2, body, key);
    t := OneMore(run1 + [Step(h, Proceed)], s2, h, body, Resolving, Found(Some(key)),
                 Effect(s2.replies, s.turns, Checking(s.sessions[key], key), []));
    assert before + WalkIn(h, body, key) == run1 + [Step(h, Proceed)] + [Step(h, Found(Some(key)))];
    assert t.handlers == s.handlers[h := Handler(body, Checking(s.sessions[key], key))];
  }

  /** Validation, the turn claim and the start of the post. */
  lemma WalkOnReaches(before: seq<Action>, s: State, h: HandlerId, body: Body, key: Key) returns (t: State)
    requires Exec(before) == s && Ready(s.turns, s.sessions, s.now, body, key)
    requires h in s.handlers && s.handlers[h] == Handler(body, Checking(s.sessions[key], key))
    ensures t == Exec(before + WalkOn(h))
    ensures t == s.(turns := Granted(s.turns, s.now, body),
                    handlers := s.handlers[h := Handler(body, Sending(0, 1, []))])
  {
    var p := Step(h, Proceed);
    var reloading := Reloading(s.sessions[key], key, s.turns[body.payload.turnId]);
    var turns := Granted(s.turns, s.now, body);
    CheckStep(s, body, key);
    var s1 := OneMore(before, s, h, body, Checking(s.sessions[key], key), Proceed,
                      Effect(s.replies, s.turns, reloading, []));
    ReloadStep(s1, body, key);
    var s2 := OneMore(before + [p], s1, h, body, reloading, Proceed, Effect(s.replies, s.turns, Claimable, []));
    HoldStep(s2, body, key);
    var s3 := OneMore(before + [p] + [p], s2, h, body, Claimable, Proceed, Effect(s.replies, turns, TurnHeld, []));
    t := OneMore(before + [p] + [p] + [p], s3, h, body, TurnHeld, Slot(true),
                 Effect(s.replies, turns, Sending(0, 1, []), []));
    assert before + WalkOn(h) == before + [p] + [p] + [p] + [Step(h, Slot(true))];
    assert t.handlers == s.handlers[h := Handler(body, Sending(0, 1, []))];
  }

  /** A handler whose reply row and turn are free reaches its first Slack call. */
  lemma WalkReaches(before: seq<Action>, s: State, h: HandlerId, body: Body, key: Key) returns (t: State)
    requires Exec(before) == s && h !in s.handlers && Ready(s.turns, s.sessions, s.now, body, key)
    requires Claimed(s, body).1.claimed
    ensures t == Exec(before + Walk(h, body, key))
    ensures t == s.(replies := Claimed(s, body).0, turns := Granted(s.turns, s.now, body),
                    handlers := s.handlers[h := Handler(body, Sending(0, 1, []))])
  {
    var middle := WalkInReaches(before, s, h, body, key);
    t := WalkOnReaches(before + WalkIn(h, body, key), middle, h, body, key);
    Regroup(before, WalkIn(h, body, key), WalkOn(h));
    assert t.handlers == s.handlers[h := Handler(body, Sending(0, 1, []))];
  }

  // ---------------------------------------------------------------- a reply that can be posted

  function SessionFor(body: Body): (row: SessionRow) {
    var p := body.payload;
    SessionRow(p.caseId, p.sessionId, Busy, Some(p.turnId), p.windowName, p.paneId)
  }

  const KEY: Key := "thread"

  function Setup(body: Body): (run: seq<Action>) {
    [PutSession(KEY, SessionFor(body))] + [OpenTurn(body.payload.turnId, KEY)]
  }

  function Opened(body: Body): (s: State) {
    INIT.(sessions := map[KEY := SessionFor(body)], openedTurns := {body.payload.turnId},
          turns := map[body.payload.turnId := TurnRow(KEY, None, None, 0, None, None)])
  }

  lemma SetupReaches(body: Body)
    ensures Exec(Setup(body)) == Opened(body)
  {
    var run1 := [] + [PutSession(KEY, SessionFor(body))];
    ExecSnoc([], PutSession(KEY, SessionFor(body)));
    ExecSnoc(run1, OpenTurn(body.payload.turnId, KEY));
    assert run1 + [OpenTurn(body.payload.turnId, KEY)] == Setup(body);
    assert {} + {body.payload.turnId} == {body.payload.turnId};
  }

  lemma OpenedIsReady(body: Body, now: nat)
    requires WellFormed(body)
    ensures Ready(Opened(body).turns, Opened(body).sessions, now, body, KEY)
  {
    var sessions := Opened(body).sessions;
    var byWorker := set key | key in sessions && sessions[key].workerSessionId == body.payload.sessionId;
    assert KEY in byWorker;
  }

  // ---------------------------------------------------------------- posting parts

  function PartCall(body: Body, part: nat, response: SlackCalls.Response): (call: Call)
    requires part < |PartsOf(body.payload)|
  {
    Call(body.request, body.payload.turnId, Substantive(body.payload), part, PartsOf(body.payload)[part], response)
  }

  /** The calls for the first parts, accepted with these timestamps. */
  function AcceptedCalls(body: Body, stamps: seq<string>): (calls: seq<Call>)
    requires |stamps| <= |PartsOf(body.payload)|
    ensures |calls| == |stamps|
  {
    if stamps == [] then []
    else
      var last := |stamps| - 1;
      AcceptedCalls(body, stamps[..last]) + [PartCall(body, last, SlackCalls.Posted(stamps[last]))]
  }

  function Accepts(h: HandlerId, stamps: seq<string>): (run: seq<Action>) {
    if stamps == [] then []
    else Accepts(h, stamps[..|stamps| - 1]) + [Step(h, Answer(SlackCalls.Posted(stamps[|stamps| - 1])))]
  }

  /** Slack accepts the first parts but not yet the last. */
  lemma {:induction false} AcceptParts(before: seq<Action>, s: State, h: HandlerId, body: Body, stamps: seq<string>)
    returns (t: State)
    requires Exec(before) == s && h in s.handlers && s.handlers[h] == Handler(body, Sending(0, 1, []))
    requires |stamps| < |PartsOf(body.payload)|
    ensures t == Exec(before + Accepts(h, stamps))
    ensures t == s.(log := t.log, handlers := t.handlers) && t.log == s.log + AcceptedCalls(body, stamps)
    ensures t.handlers == s.handlers[h := Handler(body, Sending(|stamps|, 1, stamps))]
    decreases |stamps|
  {
    if stamps == [] {
      assert before + [] == before && s.log + [] == s.log;
      Restore(s.handlers, h);
      t := s;
    } else {
      var s1 := AcceptParts(before, s, h, body, stamps[..|stamps| - 1]);
      t := AcceptNext(before, s, s1, h, body, stamps);
    }
  }

  lemma AcceptNext(before: seq<Action>, s: State, s1: State, h: HandlerId, body: Body, stamps: seq<string>)
    returns (t: State)
    requires 0 < |stamps| < |PartsOf(body.payload)|
    requires var fewer := stamps[..|stamps| - 1];
             && s1 == Exec(before + Accepts(h, fewer)) == s.(log := s1.log, handlers := s1.handlers)
             && s1.log == s.log + AcceptedCalls(body, fewer)
             && s1.handlers == s.handlers[h := Handler(body, Sending(|fewer|, 1, fewer))]
    ensures t == Exec(before + Accepts(h, stamps))
    ensures t == s.(log := t.log, handlers := t.handlers) && t.log == s.log + AcceptedCalls(body, stamps)
    ensures t.handlers == s.handlers[h := Handler(body, Sending(|stamps|, 1, stamps))]
  {
    var last := |stamps| - 1;
    var fewer := stamps[..last];
    assert fewer + [stamps[last]] == stamps;
    t := AcceptOne(before + Accepts(h, fewer), s1, h, body, fewer, stamps[last]);
    Regroup(before, Accepts(h, fewer), [Step(h, Answer(SlackCalls.Posted(stamps[last])))]);
    LogSnoc(s.log, AcceptedCalls(body, fewer), PartCall(body, last, SlackCalls.Posted(stamps[last])));
    Overwrite(s.handlers, h, Handler(body, Sending(last, 1, fewer)), Handler(body, Sending(|stamps|, 1, stamps)));
  }

  lemma AcceptOne(before: seq<Action>, s: State, h: HandlerId, body: Body, acks: seq<string>, ts: string)
    returns (t: State)
    requires Exec(before) == s && h in s.handlers && s.handlers[h] == Handler(body, Sending(|acks|, 1, acks))
    requires |acks| + 1 < |PartsOf(body.payload)|
    ensures t == Exec(before + [Step(h, Answer(SlackCalls.Posted(ts)))])
    ensures t == s.(log := s.log + [PartCall(body, |acks|, SlackCalls.Posted(ts))],
                    handlers := s.handlers[h := Handler(body, Sending(|acks| + 1, 1, acks + [ts]))])
  {
    var response := SlackCalls.Posted(ts);
    t := OneMore(before, s, h, body, Sending(|acks|, 1, acks), Answer(response),
                 Effect(s.replies, s.turns, Sending(|acks| + 1, 1, acks + [ts]), [PartCall(body, |acks|, response)]));
  }

  lemma {:induction false} AcceptedAreDelivered(log: seq<Call>, body: Body, stamps: seq<string>)
    requires |stamps| <= |PartsOf(body.payload)|
    ensures Delivered(log + AcceptedCalls(body, stamps), body.request)
            == Delivered(log, body.request) + AcceptedCalls(body, stamps)
  {
    if stamps == [] {
      assert log + [] == log;
    } else {
      var last := |stamps| - 1;
      var fewer, call := AcceptedCalls(body, stamps[..last]), PartCall(body, last, SlackCalls.Posted(stamps[last]));
      AcceptedAreDelivered(log, body, stamps[..last]);
      DeliveredCall(log + fewer, call);
      LogSnoc(log, fewer, call);
      LogSnoc(Delivered(log, body.request), fewer, call);
    }
  }

  lemma DeliveredCall(log: seq<Call>, call: Call)
    requires SlackCalls.MaybeDelivered(call.response)
    ensures Delivered(log + [call], call.request) == Delivered(log, call.request) + [call]
  {
    assert (log + [call])[..|log|] == log;
  }

  // ---------------------------------------------------------------- a retry posts again

  /** The log has a call for this part of the request that may have been delivered. */
  predicate Sent(log: seq<Call>, request: RequestId, part: nat) {
    exists j :: 0 <= j < |log| && log[j].request == request && log[j].part == part
                && SlackCalls.MaybeDelivered(log[j].response)
  }

  lemma {:induction false} DeliveredIsSent(log: seq<Call>, request: RequestId)
    requires Delivered(log, request) != []
    ensures Sent(log, request, Delivered(log, request)[0].part)
  {
    var before, last := log[..|log| - 1], log[|log| - 1];
    if Delivered(before, request) != [] {
      DeliveredIsSent(before, request);
      var j :| 0 <= j < |before| && before[j].request == request
               && before[j].part == Delivered(before, request)[0].part
               && SlackCalls.MaybeDelivered(before[j].response);
      assert log[j] == before[j];
    }
  }

  /** In a run that was in order so far, the first part of a reply was sent exactly when anything was. */
  lemma FirstPartSentIff(s: State, request: RequestId)
    requires ReplyDelivery.Inv(s)
    ensures Sent(s.log, request, 0) <==> Delivered(s.log, request) != []
  {
    assert ReplyDelivery.RowFits(s.replies, request, Delivered(s.log, request));
    if Delivered(s.log, request) != [] {
      DeliveredIsSent(s.log, request);
    } else if Sent(s.log, request, 0) {
      var j :| 0 <= j < |s.log| && s.log[j].request == request && s.log[j].part == 0
               && SlackCalls.MaybeDelivered(s.log[j].response);
      ReplyDelivery.DeliveredPosition(s.log, request, j);
    }
  }

  /** A retry whose row and turn are free goes on to post the first part. */
  function Retry(h: HandlerId, body: Body, key: Key, ts: string): (run: seq<Action>) {
    Walk(h, body, key) + [Step(h, Answer(SlackCalls.Posted(ts)))]
  }

  lemma RetryPosts(before: seq<Action>, s: State, h: HandlerId, body: Body, key: Key, ts: string)
    requires Exec(before) == s && h !in s.handlers && Ready(s.turns, s.sessions, s.now, body, key)
    requires Claimed(s, body).1.claimed
    ensures Exec(before + Retry(h, body, key, ts)).log == s.log + [PartCall(body, 0, SlackCalls.Posted(ts))]
    ensures Exec(before + Retry(h, body, key, ts)).now == s.now
  {
    var s1 := WalkReaches(before, s, h, body, key);
    var response := SlackCalls.Posted(ts);
    var e := HandlerStep(s1, body, Sending(0, 1, []), Answer(response));
    assert e.calls == [PartCall(body, 0, response)];
    var s2 := OneMore(before + Walk(h, body, key), s1, h, body, Sending(0, 1, []), Answer(response), e);
    Regroup(before, Walk(h, body, key), [Step(h, Answer(response))]);
  }

  /** A retry that takes over an expired row of a live turn can post its first part; in a run that was in order
      until then that repeats a part if and only if something was delivered for the row. */
  lemma TakeoverRepeatsIffDelivered(before: seq<Action>, s: State, h: HandlerId, body: Body, key: Key, ts: string)
    requires Exec(before) == s && ReplyDelivery.Inv(s)
    requires h !in s.handlers && Ready(s.turns, s.sessions, s.now, body, key)
    requires TakesOverReply(s.replies, body.request, body.payload.caseId, body.payload, s.now)
    ensures var log := Exec(before + Retry(h, body, key, ts)).log;
            && log == s.log + [PartCall(body, 0, SlackCalls.Posted(ts))]
            && (Sent(log[..|log| - 1], body.request, log[|log| - 1].part) <==> Delivered(s.log, body.request) != [])
  {
    RetryPosts(before, s, h, body, key, ts);
    FirstPartSentIff(s, body.request);
    var log := Exec(before + Retry(h, body, key, ts)).log;
    assert log[..|log| - 1] == s.log;
  }

  /** The same part of one request was posted twice, and each call may have been delivered. */
  predicate PostedTwice(log: seq<Call>, request: RequestId) {
    |log| > 0 && log[|log| - 1].request == request && SlackCalls.MaybeDelivered(log[|log| - 1].response)
    && Sent(log[..|log| - 1], request, log[|log| - 1].part)
  }

  // ---------------------------------------------------------------- three ways to be taken over

  /** The handler stalls after Slack took its first part. */
  function Stall(body: Body): (run: seq<Action>) {
    Setup(body) + Walk(0, body, KEY) + [Step(0, Answer(SlackCalls.Posted("1")))] + [Tick(REPLY_CLAIM_TIMEOUT)]
  }

  lemma FirstPartPosted(body: Body) returns (run: seq<Action>, s: State)
    requires WellFormed(body)
    ensures run == Setup(body) + Walk(0, body, KEY) + [Step(0, Answer(SlackCalls.Posted("1")))]
    ensures s == Exec(run)
    ensures s.log == [PartCall(body, 0, SlackCalls.Posted("1"))] && s.handlers.Keys == {0} && s.now == 0
    ensures s.handlers[0] == Handler(body, AfterFirst(body, "1")) && Holds(s.handlers[0].phase)
    ensures s.replies == map[body.request := ReplyRow(body.payload.caseId, body.payload, Received, "", None, 0)]
    ensures s.sessions == Opened(body).sessions && s.turns == Granted(Opened(body).turns, 0, body)
  {
    var s1 := FirstWalk(body);
    var answer := Answer(SlackCalls.Posted("1"));
    FirstPost(s1, body, "1");
    s := OneMore(Setup(body) + Walk(0, body, KEY), s1, 0, body, Sending(0, 1, []), answer,
                 Effect(s1.replies, s1.turns, AfterFirst(body, "1"), [PartCall(body, 0, SlackCalls.Posted("1"))]));
    run := Setup(body) + Walk(0, body, KEY) + [Step(0, answer)];
    assert [] + [PartCall(body, 0, SlackCalls.Posted("1"))] == [PartCall(body, 0, SlackCalls.Posted("1"))];
  }

  /** The phase after the first part was accepted. */
  function AfterFirst(body: Body, ts: string): (phase: Phase) {
    if |PartsOf(body.payload)| == 1 then SentOk(ts) else Sending(1, 1, [ts])
  }

  lemma FirstPost(s: State, body: Body, ts: string)
    ensures HandlerStep(s, body, Sending(0, 1, []), Answer(SlackCalls.Posted(ts))) ==
            Effect(s.replies, s.turns, AfterFirst(body, ts), [PartCall(body, 0, SlackCalls.Posted(ts))])
  {
    assert [] + [ts] == [ts];
  }

  lemma GrantedStaysReady(body: Body, now: nat)
    requires WellFormed(body)
    ensures Ready(Granted(Opened(body).turns, 0, body), Opened(body).sessions, now, body, KEY)
  {
    OpenedIsReady(body, now);
  }

  /** A handler stalls for thirty seconds after Slack took its first part; the retry takes the row over, and Slack
      gets the part a second time. */
  lemma ExpiredLeaseReposts(body: Body)
    requires WellFormed(body)
    ensures PostedTwice(Exec(Stall(body) + Retry(1, body, KEY, "2")).log, body.request)
    ensures 0 in Exec(Stall(body)).handlers && Holds(Exec(Stall(body)).handlers[0].phase)
  {
    var run, s := FirstPartPosted(body);
    ExecSnoc(run, Tick(REPLY_CLAIM_TIMEOUT));
    var t := s.(now := s.now + REPLY_CLAIM_TIMEOUT);
    GrantedStaysReady(body, t.now);
    RetryPosts(Stall(body), t, 1, body, KEY, "2");
    LastIsRepeated(body, t.log, "2");
  }

  lemma LastIsRepeated(body: Body, log: seq<Call>, ts: string)
    requires |log| > 0 && log[0].request == body.request && log[0].part == 0 && log[0].response.Posted?
    ensures PostedTwice(log + [PartCall(body, 0, SlackCalls.Posted(ts))], body.request)
  {
    var more := log + [PartCall(body, 0, SlackCalls.Posted(ts))];
    assert more[..|more| - 1] == log;
    assert log[0].request == body.request;
  }

  /** The handler dies after Slack took its first part: its post_to_slack call may still raise then. */
  function CrashAfterPost(body: Body): (run: seq<Action>) {
    Setup(body) + Walk(0, body, KEY) + [Step(0, Answer(SlackCalls.Posted("1")))] + [Crash(0)]
    + [Tick(REPLY_CLAIM_TIMEOUT)]
  }

  /** No handler is at work when the retry takes the row over, yet it posts the part again. */
  lemma CrashedHandlerReposts(body: Body)
    requires WellFormed(body)
    ensures PostedTwice(Exec(CrashAfterPost(body) + Retry(1, body, KEY, "2")).log, body.request)
    ensures forall h :: h in Exec(CrashAfterPost(body)).handlers ==>
              !Holds(Exec(CrashAfterPost(body)).handlers[h].phase)
  {
    var run, s := FirstPartPosted(body);
    var t := DiesAndWaits(run, s, 0);
    GrantedStaysReady(body, t.now);
    RetryPosts(CrashAfterPost(body), t, 1, body, KEY, "2");
    LastIsRepeated(body, t.log, "2");
  }

  /** A note of one part is posted at once, and both writes that should record it are lost. */
  function LostWrites(body: Body): (run: seq<Action>) {
    Setup(body) + Walk(0, body, KEY) + [Step(0, Answer(SlackCalls.Posted("1")))]
    + [Step(0, Write(false, false))] + [Step(0, Proceed)] + [Step(0, Proceed)]
  }

  lemma NoteLeavesNoRecord(body: Body) returns (s: State)
    requires WellFormed(body) && body.payload.completion == Continue && |PartsOf(body.payload)| == 1
    ensures s == Exec(LostWrites(body)) && s.now == 0
    ensures s.handlers == map[0 := Handler(body, Finished)]
    ensures s.log == [PartCall(body, 0, SlackCalls.Posted("1"))]
    ensures s.replies == map[body.request := ReplyRow(body.payload.caseId, body.payload, Received, "", None, 0)]
    ensures s.sessions == Opened(body).sessions
    ensures s.turns == map[body.payload.turnId := TurnRow(KEY, None, None, 1, None, None)]
  {
    var s0 := NotePosted(body);
    var run := Setup(body) + Walk(0, body, KEY) + [Step(0, Answer(SlackCalls.Posted("1")))];
    s := NoteEnds(run, s0, 0, body);
    NoteTurns(body);
    assert s.handlers == map[0 := Handler(body, Finished)];
  }

  function AfterNote(turns: Turns, body: Body): (r: Turns) {
    var counted := MarkTurnAttemptCompleted(turns, body.payload.turnId, Set(None), Keep, 1, Keep);
    ReleaseTurnReplyClaim(counted, body.payload.turnId, body.request)
  }

  lemma NoteTurns(body: Body)
    ensures AfterNote(Granted(Opened(body).turns, 0, body), body)
            == map[body.payload.turnId := TurnRow(KEY, None, None, 1, None, None)]
  {
  }

  /** A posted note whose writes are lost ends without a trace in its reply row. */
  lemma NoteEnds(before: seq<Action>, s: State, h: HandlerId, body: Body) returns (t: State)
    requires Exec(before) == s && h in s.handlers && s.handlers[h] == Handler(body, SentOk("1"))
    requires body.payload.completion == Continue
    ensures t == Exec(before + [Step(h, Write(false, false))] + [Step(h, Proceed)] + [Step(h, Proceed)])
    ensures t.replies == s.replies && t.sessions == s.sessions && t.now == s.now && t.log == s.log
    ensures t.turns == AfterNote(s.turns, body) && t.handlers == s.handlers[h := Handler(body, Finished)]
  {
    var s1 := OneMore(before, s, h, body, SentOk("1"), Write(false, false), Effect(s.replies, s.turns, Settled, []));
    assert s.log + [] == s.log;
    t := NoteCompletes(before + [Step(h, Write(false, false))], s1, h, body);
    Overwrite(s.handlers, h, Handler(body, Settled), Handler(body, Finished));
  }

  /** A note counts on its turn and gives the claim back. */
  lemma NoteCompletes(before: seq<Action>, s: State, h: HandlerId, body: Body) returns (t: State)
    requires Exec(before) == s && h in s.handlers && s.handlers[h] == Handler(body, Settled)
    requires body.payload.completion == Continue
    ensures t == Exec(before + [Step(h, Proceed)] + [Step(h, Proceed)])
    ensures t.replies == s.replies && t.sessions == s.sessions && t.now == s.now && t.log == s.log
    ensures t.turns == AfterNote(s.turns, body) && t.handlers == s.handlers[h := Handler(body, Finished)]
  {
    var counted := MarkTurnAttemptCompleted(s.turns, body.payload.turnId, Set(None), Keep, 1, Keep);
    var s1 := OneMore(before, s, h, body, Settled, Proceed, Effect(s.replies, counted, NoteRecorded, []));
    assert s.log + [] == s.log;
    t := OneMore(before + [Step(h, Proceed)], s1, h, body, NoteRecorded, Proceed,
                 Effect(s.replies, AfterNote(s.turns, body), Finished, []));
    Overwrite(s.handlers, h, Handler(body, NoteRecorded), Handler(body, Finished));
  }

  lemma NotePosted(body: Body) returns (s: State)
    requires WellFormed(body) && |PartsOf(body.payload)| == 1
    ensures s == Exec(Setup(body) + Walk(0, body, KEY) + [Step(0, Answer(SlackCalls.Posted("1")))])
    ensures s.handlers == map[0 := Handler(body, SentOk("1"))]
    ensures s.log == [PartCall(body, 0, SlackCalls.Posted("1"))] && s.now == 0
    ensures s.replies == map[body.request := ReplyRow(body.payload.caseId, body.payload, Received, "", None, 0)]
    ensures s.sessions == Opened(body).sessions && s.turns == Granted(Opened(body).turns, 0, body)
  {
    var run;
    run, s := FirstPartPosted(body);
    assert s.handlers == map[0 := Handler(body, SentOk("1"))];
  }

  /** No handler crashes or stalls: thirty seconds after the note was posted its retry is granted row and turn
      again, and posts it a second time. */
  lemma LostWritesRepost(body: Body)
    requires WellFormed(body) && body.payload.completion == Continue && |PartsOf(body.payload)| == 1
    ensures PostedTwice(Exec(LostWrites(body) + [Tick(REPLY_CLAIM_TIMEOUT)] + Retry(1, body, KEY, "2")).log,
                        body.request)
    ensures Exec(LostWrites(body)).now == 0 && Exec(LostWrites(body)).handlers == map[0 := Handler(body, Finished)]
  {
    var s := NoteLeavesNoRecord(body);
    ExecSnoc(LostWrites(body), Tick(REPLY_CLAIM_TIMEOUT));
    var t := s.(now := s.now + REPLY_CLAIM_TIMEOUT);
    OpenedIsReady(body, t.now);
    RetryPosts(LostWrites(body) + [Tick(REPLY_CLAIM_TIMEOUT)], t, 1, body, KEY, "2");
    LastIsRepeated(body, t.log, "2");
  }

  // ---------------------------------------------------------------- a turn that is taken

  predicate FinalSent(log: seq<Call>, turn: TurnId) {
    exists k :: 0 <= k < |log| && FinalCall(log[k]) && log[k].turn == turn
  }

  /** Two requests have sent a final reply for the turn, and both may have been delivered. */
  predicate RepliedTwice(log: seq<Call>, turn: TurnId) {
    exists j, k :: 0 <= j < k < |log| && FinalCall(log[j]) && FinalCall(log[k])
                   && log[j].turn == turn == log[k].turn && log[j].request != log[k].request
  }

  /** A request whose claim takes a live turn from another one can post its final reply; in a run that was in order
      until then that is the turn's second reply if and only if one may have been delivered for the turn before. */
  lemma TakenTurnRepliedTwiceIff(before: seq<Action>, s: State, h: HandlerId, body: Body, key: Key, ts: string)
    requires Exec(before) == s && TurnClaims.Inv(s)
    requires h !in s.handlers && Ready(s.turns, s.sessions, s.now, body, key) && Claimed(s, body).1.claimed
    requires TakesOverTurn(s.turns, s.sessions, body.payload.turnId, body.request, s.now) && Substantive(body.payload)
    ensures var log, turn := Exec(before + Retry(h, body, key, ts)).log, body.payload.turnId;
            && log == s.log + [PartCall(body, 0, SlackCalls.Posted(ts))]
            && !RepliedTwice(s.log, turn)
            && (RepliedTwice(log, turn) <==> FinalSent(s.log, turn))
  {
    RetryPosts(before, s, h, body, key, ts);
    var turn, call := body.payload.turnId, PartCall(body, 0, SlackCalls.Posted(ts));
    forall k | 0 <= k < |s.log| && FinalCall(s.log[k]) && s.log[k].turn == turn
      ensures s.log[k].request == s.turns[turn].claim.value.request
    {
      assert TurnClaims.Guarded(s, turn, s.log[k].request);
    }
    SecondReply(s.log, call);
  }

  lemma SecondReply(log: seq<Call>, last: Call)
    requires FinalCall(last)
    requires forall k :: 0 <= k < |log| && FinalCall(log[k]) && log[k].turn == last.turn ==>
               log[k].request != last.request
    ensures RepliedTwice(log + [last], last.turn) <==> FinalSent(log, last.turn)
  {
    var more := log + [last];
    if FinalSent(log, last.turn) {
      var k :| 0 <= k < |log| && FinalCall(log[k]) && log[k].turn == last.turn;
      assert more[k] == log[k] && more[|log|] == last;
    }
    if RepliedTwice(more, last.turn) {
      var j, k :| 0 <= j < k < |more| && FinalCall(more[j]) && FinalCall(more[k])
                  && more[j].turn == last.turn == more[k].turn && more[j].request != more[k].request;
      assert more[j] == log[j];
    }
  }

  /** Two final replies of one worker for one turn. */
  predicate Rivals(first: Body, second: Body) {
    && WellFormed(first) && WellFormed(second) && first.request != second.request
    && Substantive(first.payload) && Substantive(second.payload)
    && first.payload.turnId == second.payload.turnId && first.payload.sessionId == second.payload.sessionId
    && first.payload.windowName == second.payload.windowName && first.payload.paneId == second.payload.paneId
  }

  lemma RivalIsReady(first: Body, second: Body, now: nat)
    requires Rivals(first, second) && now >= REPLY_CLAIM_TIMEOUT
    ensures Ready(Granted(Opened(first).turns, 0, first), Opened(first).sessions, now, second, KEY)
  {
    var sessions := Opened(first).sessions;
    var byWorker := set key | key in sessions && sessions[key].workerSessionId == second.payload.sessionId;
    assert KEY in byWorker;
  }

  /** A reply of one part is posted and its row marked posted; then the handler dies, before it completes the turn, and
      the turn claim runs out. */
  function DiesBeforeCompletion(body: Body): (run: seq<Action>) {
    Setup(body) + Walk(0, body, KEY) + [Step(0, Answer(SlackCalls.Posted("1")))] + [Step(0, Write(true, true))]
    + [Crash(0)] + [Tick(REPLY_CLAIM_TIMEOUT)]
  }

  lemma PostedThenDead(body: Body) returns (t: State)
    requires WellFormed(body) && |PartsOf(body.payload)| == 1
    ensures t == Exec(DiesBeforeCompletion(body)) && t.now == REPLY_CLAIM_TIMEOUT && t.handlers.Keys == {0}
    ensures t.handlers[0].phase == Finished
    ensures t.log == [PartCall(body, 0, SlackCalls.Posted("1"))]
    ensures t.replies == map[body.request := ReplyRow(body.payload.caseId, body.payload, Posted, "1", None, 0)]
    ensures t.sessions == Opened(body).sessions && t.turns == Granted(Opened(body).turns, 0, body)
  {
    var s := NotePosted(body);
    var run := Setup(body) + Walk(0, body, KEY) + [Step(0, Answer(SlackCalls.Posted("1")))];
    var s1 := MarksPosted(run, s, 0, body, "1");
    assert s1.replies == map[body.request := ReplyRow(body.payload.caseId, body.payload, Posted, "1", None, 0)];
    t := DiesAndWaits(run + [Step(0, Write(true, true))], s1, 0);
  }

  lemma MarksPosted(before: seq<Action>, s: State, h: HandlerId, body: Body, ts: string) returns (t: State)
    requires Exec(before) == s && h in s.handlers && s.handlers[h] == Handler(body, SentOk(ts))
    ensures t == Exec(before + [Step(h, Write(true, true))])
    ensures t == s.(replies := MarkReplyPosted(s.replies, body.request, ts, s.now),
                    handlers := s.handlers[h := Handler(body, Settled)])
  {
    var written := MarkReplyPosted(s.replies, body.request, ts, s.now);
    t := OneMore(before, s, h, body, SentOk(ts), Write(true, true), Effect(written, s.turns, Settled, []));
    assert s.log + [] == s.log;
  }

  /** The handler dies, and what it has claimed runs out. */
  lemma DiesAndWaits(before: seq<Action>, s: State, h: HandlerId) returns (t: State)
    requires Exec(before) == s && h in s.handlers
    ensures t == Exec(before + [Crash(h)] + [Tick(REPLY_CLAIM_TIMEOUT)])
    ensures t == s.(now := s.now + REPLY_CLAIM_TIMEOUT,
                    handlers := s.handlers[h := s.handlers[h].(phase := Finished)])
  {
    ExecSnoc(before, Crash(h));
    ExecSnoc(before + [Crash(h)], Tick(REPLY_CLAIM_TIMEOUT));
    t := Exec(before + [Crash(h)] + [Tick(REPLY_CLAIM_TIMEOUT)]);
  }

  /** The first reply is in the thread and its row says so, yet another request of the same worker is granted the turn
      and posts a second final reply. */
  lemma DeadHandlerLosesTurn(first: Body, second: Body)
    requires Rivals(first, second) && |PartsOf(first.payload)| == 1
    ensures RepliedTwice(Exec(DiesBeforeCompletion(first) + Retry(1, second, KEY, "2")).log, first.payload.turnId)
    ensures var t := Exec(DiesBeforeCompletion(first));
            && first.request in t.replies && t.replies[first.request].status == Posted
            && forall h :: h in t.handlers ==> t.handlers[h].phase.Finished?
  {
    var t := PostedThenDead(first);
    RivalIsReady(first, second, t.now);
    RetryPosts(DiesBeforeCompletion(first), t, 1, second, KEY, "2");
    var log := t.log + [PartCall(second, 0, SlackCalls.Posted("2"))];
    assert log[0] == PartCall(first, 0, SlackCalls.Posted("1"));
    assert log[1] == PartCall(second, 0, SlackCalls.Posted("2"));
  }

  // ---------------------------------------------------------------- parts without timestamps

  const REFUSED: SlackCalls.Response := SlackCalls.ApiError(Some(400), "refused")

  /** Slack accepts the first parts with these timestamps and refuses the next; the handler records the end. */
  function PartlySent(h: HandlerId, stamps: seq<string>): (run: seq<Action>) {
    Accepts(h, stamps) + [Step(h, Answer(REFUSED))] + [Step(h, Write(true, true))] + [Step(h, Proceed)]
  }

  /** The last timestamp that is not empty. */
  predicate IsLastStamp(stamps: seq<string>, ts: string) {
    ts != "" && exists k :: 0 <= k < |stamps| && stamps[k] == ts && forall j :: k < j < |stamps| ==> stamps[j] == ""
  }

  lemma {:induction false} LastAckIs(stamps: seq<string>)
    ensures LastAck(stamps).Some? ==> IsLastStamp(stamps, LastAck(stamps).value)
  {
    if stamps != [] {
      var last, before := stamps[|stamps| - 1], stamps[..|stamps| - 1];
      assert before + [last] == stamps;
      if last == "" {
        LastAckIs(before);
        if LastAck(before).Some? {
          EmptyStampBehind(before, LastAck(before).value);
        }
      } else {
        assert stamps[|stamps| - 1] == LastAck(stamps).value;
      }
    }
  }

  lemma EmptyStampBehind(stamps: seq<string>, ts: string)
    requires IsLastStamp(stamps, ts)
    ensures IsLastStamp(stamps + [""], ts)
  {
    var k :| 0 <= k < |stamps| && stamps[k] == ts && forall j :: k < j < |stamps| ==> stamps[j] == "";
    assert (stamps + [""])[k] == ts;
  }

  predicate Unstamped(stamps: seq<string>) {
    forall k :: 0 <= k < |stamps| ==> stamps[k] == ""
  }

  /** A reply that stops half-way is recorded as not sent exactly when none of its accepted parts has a timestamp:
      otherwise its row is posted_unknown. In both cases all accepted parts may be in the thread. */
  lemma ForgottenIffUnstamped(before: seq<Action>, s: State, h: HandlerId, body: Body, stamps: seq<string>)
    requires Exec(before) == s && h in s.handlers && s.handlers[h] == Handler(body, Sending(0, 1, []))
    requires body.request in s.replies && s.replies[body.request].status == Received
    requires |stamps| < |PartsOf(body.payload)|
    ensures var t := Exec(before + PartlySent(h, stamps));
            && Delivered(t.log, body.request) == Delivered(s.log, body.request) + AcceptedCalls(body, stamps)
            && body.request in t.replies
            && t.replies[body.request].status == (if Unstamped(stamps) then ReplyFailed else PostedUnknown)
            && (!Unstamped(stamps) ==> IsLastStamp(stamps, t.replies[body.request].replyTs))
            && t.now == s.now
            && (Unstamped(stamps) ==>
                  && t.replies == MarkReplyFailed(s.replies, body.request, "refused", s.now)
                  && t.turns == ReleaseTurnReplyClaim(s.turns, body.payload.turnId, body.request)
                  && t.sessions == s.sessions && t.handlers == s.handlers[h := Handler(body, Finished)]
                  && t.log == s.log + AcceptedCalls(body, stamps) + [PartCall(body, |stamps|, REFUSED)])
  {
    var s2 := PartlyRefused(before, s, h, body, stamps);
    var run2 := before + Accepts(h, stamps) + [Step(h, Answer(REFUSED))];
    var t := RecordEnd(run2, s2, h, body, s2.handlers[h].phase);
    RegroupFour(before, Accepts(h, stamps), [Step(h, Answer(REFUSED))], [Step(h, Write(true, true))],
                [Step(h, Proceed)]);
    Overwrite(s.handlers, h, s2.handlers[h], Handler(body, Finished));
  }

  lemma PartlyRefused(before: seq<Action>, s: State, h: HandlerId, body: Body, stamps: seq<string>) returns (t: State)
    requires Exec(before) == s && h in s.handlers && s.handlers[h] == Handler(body, Sending(0, 1, []))
    requires |stamps| < |PartsOf(body.payload)|
    ensures t == Exec(before + Accepts(h, stamps) + [Step(h, Answer(REFUSED))])
    ensures t.log == s.log + AcceptedCalls(body, stamps) + [PartCall(body, |stamps|, REFUSED)]
    ensures Delivered(t.log, body.request) == Delivered(s.log, body.request) + AcceptedCalls(body, stamps)
    ensures t == s.(log := t.log, handlers := t.handlers)
    ensures h in t.handlers && t.handlers == s.handlers[h := t.handlers[h]] && t.handlers[h].body == body
    ensures var phase := t.handlers[h].phase;
            (phase.SentNothing? && phase.error == "refused" && Unstamped(stamps))
            || (phase.SentUnknown? && !Unstamped(stamps) && IsLastStamp(stamps, phase.replyTs))
  {
    LastAckIs(stamps);
    var s1 := AcceptParts(before, s, h, body, stamps);
    t := RefusePart(before + Accepts(h, stamps), s1, h, body, stamps);
    AcceptedAreDelivered(s.log, body, stamps);
    ReplyDelivery.DeliveredAfter(s1.log, [PartCall(body, |stamps|, REFUSED)], body.request);
    Overwrite(s.handlers, h, s1.handlers[h], t.handlers[h]);
  }

  /** The phase after Slack refused the part that follows these. */
  function AfterRefusal(stamps: seq<string>): (phase: Phase) {
    var ack := LastAck(stamps);
    if ack.None? then SentNothing("refused") else SentUnknown("refused", ack.value)
  }

  lemma RefusePart(before: seq<Action>, s: State, h: HandlerId, body: Body, stamps: seq<string>) returns (t: State)
    requires Exec(before) == s && h in s.handlers && |stamps| < |PartsOf(body.payload)|
    requires s.handlers[h] == Handler(body, Sending(|stamps|, 1, stamps))
    ensures t == Exec(before + [Step(h, Answer(REFUSED))])
    ensures t == s.(log := s.log + [PartCall(body, |stamps|, REFUSED)],
                    handlers := s.handlers[h := Handler(body, AfterRefusal(stamps))])
  {
    t := OneMore(before, s, h, body, Sending(|stamps|, 1, stamps), Answer(REFUSED),
                 Effect(s.replies, s.turns, AfterRefusal(stamps), [PartCall(body, |stamps|, REFUSED)]));
  }

  lemma RecordEnd(before: seq<Action>, s: State, h: HandlerId, body: Body, phase: Phase) returns (t: State)
    requires Exec(before) == s && h in s.handlers && s.handlers[h] == Handler(body, phase)
    requires phase.SentNothing? || phase.SentUnknown?
    requires body.request in s.replies && s.replies[body.request].status == Received
    ensures t == Exec(before + [Step(h, Write(true, true))] + [Step(h, Proceed)])
    ensures t.log == s.log && t.now == s.now && body.request in t.replies
    ensures t.replies[body.request].status == if phase.SentNothing? then ReplyFailed else PostedUnknown
    ensures phase.SentUnknown? ==> t.replies[body.request].replyTs == phase.replyTs
    ensures phase.SentNothing? ==>
              && t.replies == MarkReplyFailed(s.replies, body.request, phase.error, s.now)
              && t.turns == ReleaseTurnReplyClaim(s.turns, body.payload.turnId, body.request)
              && t.sessions == s.sessions && t.handlers == s.handlers[h := Handler(body, Finished)]
  {
    var write := Step(h, Write(true, true));
    var e1 := HandlerStep(s, body, phase, Write(true, true));
    var s1 := OneMore(before, s, h, body, phase, Write(true, true), e1);
    var e2 := HandlerStep(s1, body, e1.phase, Proceed);
    t := OneMore(before + [write], s1, h, body, e1.phase, Proceed, e2);
    assert t.log == s.log;
    if phase.SentNothing? {
      assert t.handlers == s.handlers[h := Handler(body, Finished)];
    }
  }

  /** The first attempt of a reply, cut short without a timestamp. */
  function Unrecorded(body: Body, accepted: nat): (run: seq<Action>) {
    Setup(body) + Walk(0, body, KEY) + PartlySent(0, seq(accepted, _ => ""))
  }

  lemma FirstAttemptUnrecorded(body: Body, accepted: nat) returns (t: State)
    requires WellFormed(body) && 0 < accepted < |PartsOf(body.payload)|
    ensures t == Exec(Unrecorded(body, accepted)) && t.now == 0 && t.handlers.Keys == {0}
    ensures t.sessions == Opened(body).sessions
    ensures t.turns == ReleaseTurnReplyClaim(Granted(Opened(body).turns, 0, body), body.payload.turnId, body.request)
    ensures body.request in t.replies && t.replies[body.request]
            == ReplyRow(body.payload.caseId, body.payload, ReplyFailed, "", Some("refused"), 0)
    ensures |t.log| > 0 && t.log[0] == PartCall(body, 0, SlackCalls.Posted(""))
  {
    var stamps := seq(accepted, _ => "");
    var s := FirstWalk(body);
    ForgottenIffUnstamped(Setup(body) + Walk(0, body, KEY), s, 0, body, stamps);
    t := Exec(Unrecorded(body, accepted));
    FirstAcceptedCall(body, stamps);
    Front(AcceptedCalls(body, stamps), PartCall(body, accepted, REFUSED));
  }

  lemma Front(calls: seq<Call>, last: Call)
    requires calls != []
    ensures ([] + calls + [last])[0] == calls[0]
  {
  }

  /** The first handler for a reply reaches its first Slack call. */
  lemma FirstWalk(body: Body) returns (s: State)
    requires WellFormed(body)
    ensures s == Exec(Setup(body) + Walk(0, body, KEY)) && s.now == 0 && s.log == []
    ensures s.handlers == map[0 := Handler(body, Sending(0, 1, []))]
    ensures s.replies == map[body.request := ReplyRow(body.payload.caseId, body.payload, Received, "", None, 0)]
    ensures s.sessions == Opened(body).sessions && s.turns == Granted(Opened(body).turns, 0, body)
  {
    SetupReaches(body);
    OpenedIsReady(body, 0);
    s := WalkReaches(Setup(body), Opened(body), 0, body, KEY);
  }

  /** No time passes, no handler dies and no write is lost, yet the first part is posted twice: some parts of a
      longer reply are accepted without a timestamp, the next is refused, and the failed request is retried. */
  lemma UnstampedPartReposts(body: Body, accepted: nat)
    requires WellFormed(body) && 0 < accepted < |PartsOf(body.payload)|
    ensures var t := Exec(Unrecorded(body, accepted) + Retry(1, body, KEY, "1"));
            PostedTwice(t.log, body.request) && t.now == 0
  {
    var t := FirstAttemptUnrecorded(body, accepted);
    OpenedIsReady(body, 0);
    assert t.turns == Opened(body).turns;
    assert FailureIsRetryable(Some("refused"));
    RetryPosts(Unrecorded(body, accepted), t, 1, body, KEY, "1");
    LastIsRepeated(body, t.log, "1");
  }

  lemma {:induction false} FirstAcceptedCall(body: Body, stamps: seq<string>)
    requires 0 < |stamps| <= |PartsOf(body.payload)|
    ensures AcceptedCalls(body, stamps)[0] == PartCall(body, 0, SlackCalls.Posted(stamps[0]))
  {
    if |stamps| > 1 {
      FirstAcceptedCall(body, stamps[..|stamps| - 1]);
    }
  }
}
