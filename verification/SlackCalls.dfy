/** The three nested retry loops: one Slack call, the parts of one message, and the shell client. */
module SlackCalls {
  import opened Wrappers

  const SLACK_API_MAX_RETRIES: int := 3

  /** What one chat.postMessage attempt came back with. */
  datatype Response =
    | Posted(ts: string)
    | ApiError(status: Option<int>, error: string)
    | TransportError(error: string)

  datatype Classification = DeliveryUnknown | RetryExhausted | Permanent

  datatype CallFailure = CallFailure(error: string, status: Option<int>, classification: Classification, attempts: nat)

  /** What the retry loop does with one response. */
  datatype Verdict = Return(ts: string) | Raise(failure: CallFailure) | Retry

  predicate IsServerError(status: Option<int>) {
    status.Some? && status.value >= 500
  }

  predicate IsRateLimited(response: Response) {
    response.ApiError? && response.status == Some(429)
  }

  /** Slack may have accepted the message: success, a 5xx answer, or no answer at all. */
  predicate MaybeDelivered(response: Response) {
    response.Posted? || response.TransportError? || IsServerError(response.status)
  }

  function Attempts(maxRetries: int): (n: nat)
    ensures n >= 1
  {
    if maxRetries > 1 then maxRetries else 1
  }

  /** One turn of the loop in _call_slack_api_with_retries for a posted message. */
  function OnResponse(response: Response, attempt: nat, attempts: nat): (v: Verdict) {
    match response
    case Posted(ts) => Return(ts)
    case TransportError(error) => Raise(CallFailure(error, None, DeliveryUnknown, attempt))
    case ApiError(status, error) =>
      var deliveryUnknown := IsServerError(status);
      var retryable := !deliveryUnknown && status == Some(429);
      var exhausted := attempt >= attempts || !retryable;
      var classification :=
        if deliveryUnknown then DeliveryUnknown
        else if status == Some(429) then RetryExhausted else Permanent;
      if exhausted then Raise(CallFailure(error, status, classification, attempt)) else Retry
  }

  /** A call is repeated only after an answer that certainly was not delivered, and a failure is
      classified as unknown exactly when the message may be in the thread. */
  lemma RetryOnlyUndelivered(response: Response, attempt: nat, attempts: nat)
    ensures OnResponse(response, attempt, attempts).Retry? <==> IsRateLimited(response) && attempt < attempts
    ensures var v := OnResponse(response, attempt, attempts);
            v.Raise? ==> (v.failure.classification.DeliveryUnknown? <==> MaybeDelivered(response))
  {
    if response.ApiError? && response.status.Some? {
      assert IsRateLimited(response) <==> response.status.value == 429;
    }
  }

  datatype CallResult = Accepted(ts: string) | Failed(failure: CallFailure)

  /** _call_slack_api_with_retries: answers[k] is what attempt k + 1 comes back with. However the
      loop ends, at most its last attempt can have been delivered. */
  method CallWithRetries(answers: seq<Response>, maxRetries: int) returns (result: CallResult, used: nat)
    requires |answers| >= Attempts(maxRetries)
    ensures 1 <= used <= Attempts(maxRetries)
    ensures forall k :: 0 <= k < used - 1 ==> IsRateLimited(answers[k]) && !MaybeDelivered(answers[k])
    ensures result.Accepted? <==> answers[used - 1].Posted?
    ensures result.Accepted? ==> result.ts == answers[used - 1].ts
    ensures result.Failed? ==>
              (result.failure.classification.DeliveryUnknown? <==> MaybeDelivered(answers[used - 1]))
    ensures result.Failed? && IsRateLimited(answers[used - 1]) ==>
              used == Attempts(maxRetries) && result.failure.classification.RetryExhausted?
    ensures result.Failed? ==> result.failure.attempts == used
    ensures result.Failed? ==>
              match answers[used - 1]
              case ApiError(status, error) =>
                && result.failure.error == error && result.failure.status == status
                && (result.failure.classification.RetryExhausted? <==> status == Some(429))
                && (result.failure.classification.DeliveryUnknown? <==> status.Some? && status.value >= 500)
              case TransportError(error) => result.failure.error == error && result.failure.status == None
              case Posted(_) => false
  {
    var attempts := Attempts(maxRetries);
    var attempt := 1;
    while true
      invariant 1 <= attempt <= attempts
      invariant forall k :: 0 <= k < attempt - 1 ==> IsRateLimited(answers[k]) && !MaybeDelivered(answers[k])
      decreases attempts - attempt
    {
      var answer := answers[attempt - 1];
      RetryOnlyUndelivered(answer, attempt, attempts);
      match OnResponse(answer, attempt, attempts) {
        case Return(ts) => return Accepted(ts), attempt;
        case Raise(failure) => return Failed(failure), attempt;
        case Retry => attempt := attempt + 1;
      }
    }
  }

  /** What post_to_slack reports to the hook handler. */
  datatype PostResult =
    | PostOk(ts: seq<string>)
    | PostFailed(failure: CallFailure, posted: seq<string>)

  /** The part loop of make_post_to_slack: stop at the first part that fails. answers[i] holds what
      the attempts on part i come back with; used[i] is how many of them were made. */
  method PostParts(parts: seq<string>, answers: seq<seq<Response>>, maxRetries: int)
    returns (result: PostResult, used: seq<nat>)
    requires |answers| == |parts|
    requires forall i :: 0 <= i < |answers| ==> |answers[i]| >= Attempts(maxRetries)
    ensures |used| <= |parts|
    ensures forall i :: 0 <= i < |used| ==> 1 <= used[i] <= Attempts(maxRetries)
    ensures forall i, k :: 0 <= i < |used| && 0 <= k < used[i] - 1 ==> !MaybeDelivered(answers[i][k])
    ensures forall i :: 0 <= i < |used| - 1 ==> answers[i][used[i] - 1].Posted?
    ensures result.PostOk? ==> |used| == |parts| == |result.ts|
    ensures result.PostOk? ==> forall i :: 0 <= i < |parts| ==> answers[i][used[i] - 1] == Posted(result.ts[i])
    ensures result.PostFailed? ==> |used| == |result.posted| + 1
    ensures result.PostFailed? ==>
              forall i :: 0 <= i < |result.posted| ==> answers[i][used[i] - 1] == Posted(result.posted[i])
    ensures result.PostFailed? ==>
              (result.failure.classification.DeliveryUnknown? <==>
                 MaybeDelivered(answers[|used| - 1][used[|used| - 1] - 1]))
  {
    var posted := [];
    used := [];
    var i := 0;
    while i < |parts|
      invariant 0 <= i <= |parts| && |used| == |posted| == i
      invariant forall j :: 0 <= j < i ==> 1 <= used[j] <= Attempts(maxRetries)
      invariant forall j :: 0 <= j < i ==> answers[j][used[j] - 1] == Posted(posted[j])
      invariant forall j, k :: 0 <= j < i && 0 <= k < used[j] - 1 ==> !MaybeDelivered(answers[j][k])
    {
      var outcome, n := CallWithRetries(answers[i], maxRetries);
      used := used + [n];
      match outcome {
        case Failed(failure) =>
          return PostFailed(failure, posted), used;
        case Accepted(ts) =>
          posted := posted + [ts];
      }
      i := i + 1;
    }
    return PostOk(posted), used;
  }

  /** What one curl run of the client came back with. */
  datatype HttpOutcome = CurlFailed | Http(code: nat)

  predicate ClientRetries(outcome: HttpOutcome) {
    outcome.CurlFailed? || outcome.code == 429 || outcome.code >= 500
  }

  predicate ClientSucceeds(outcome: HttpOutcome) {
    outcome.Http? && 200 <= outcome.code < 300
  }

  /** The bounded loop of case_reply.sh: outcomes[k] is what attempt k + 1 came back with. */
  method RunClient(outcomes: seq<HttpOutcome>, maxAttempts: nat) returns (exitCode: nat, attemptsMade: nat)
    requires |outcomes| >= maxAttempts
    ensures attemptsMade <= maxAttempts && (maxAttempts > 0 ==> attemptsMade > 0)
    ensures exitCode == 0 <==> attemptsMade > 0 && ClientSucceeds(outcomes[attemptsMade - 1])
    ensures forall k :: 0 <= k < attemptsMade - 1 ==>
              outcomes[k].CurlFailed? || outcomes[k].code == 429 || outcomes[k].code >= 500
    ensures exitCode != 0 && attemptsMade < maxAttempts ==>
              var last := outcomes[attemptsMade - 1];
              last.Http? && last.code != 429 && last.code < 500 && !(200 <= last.code < 300)
    ensures exitCode in {0, 1}
  {
    attemptsMade := 0;
    var i := 1;
    while i <= maxAttempts
      invariant 1 <= i <= maxAttempts + 1
      invariant attemptsMade == i - 1
      invariant forall k :: 0 <= k < attemptsMade ==> ClientRetries(outcomes[k])
    {
      attemptsMade := i;
      var outcome := outcomes[i - 1];
      if ClientSucceeds(outcome) {
        return 0, attemptsMade;
      }
      if !(ClientRetries(outcome) && i < maxAttempts) {
        break;
      }
      i := i + 1;
    }
    exitCode := 1;
  }

  /** The text the client hashes into its request id. */
  function RequestSeed(caseId: string, turnId: string, action: string, text: string): (seed: string) {
    caseId + ":" + turnId + ":" + action + ":" + text
  }

  /** A string up to its first colon splits any text that starts with it in only one way. */
  lemma {:induction false} ColonSplitUnique(a: string, rest: string, b: string, other: string)
    requires ':' !in a && ':' !in b
    requires a + ":" + rest == b + ":" + other
    ensures a == b && rest == other
  {
    var whole := a + ":" + rest;
    assert whole == b + ":" + other;
    assert forall k :: 0 <= k < |a| ==> whole[k] == a[k];
    assert forall k :: 0 <= k < |b| ==> whole[k] == b[k];
    assert whole[|a|] == ':' && whole[|b|] == ':';
    assert a == whole[..|a|] && b == whole[..|b|];
    assert rest == whole[|a| + 1..] && other == whole[|b| + 1..];
  }

  /** Case ids, turn ids and actions contain no colon, so the client derives the same request id
      only for the same case, turn, action and text, whatever the text contains. */
  lemma RequestSeedInjective(case1: string, turn1: string, action1: string, text1: string,
                             case2: string, turn2: string, action2: string, text2: string)
    requires ':' !in case1 && ':' !in turn1 && ':' !in action1
    requires ':' !in case2 && ':' !in turn2 && ':' !in action2
    requires RequestSeed(case1, turn1, action1, text1) == RequestSeed(case2, turn2, action2, text2)
    ensures case1 == case2 && turn1 == turn2 && action1 == action2 && text1 == text2
  {
    var rest1, rest2 := turn1 + ":" + (action1 + ":" + text1), turn2 + ":" + (action2 + ":" + text2);
    assert RequestSeed(case1, turn1, action1, text1) == case1 + ":" + rest1;
    assert RequestSeed(case2, turn2, action2, text2) == case2 + ":" + rest2;
    ColonSplitUnique(case1, rest1, case2, rest2);
    ColonSplitUnique(turn1, action1 + ":" + text1, turn2, action2 + ":" + text2);
    ColonSplitUnique(action1, text1, action2, text2);
  }
}
