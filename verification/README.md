# Slack Bridge: a verified model

Slack Bridge connects Slack threads to AI workers that run in tmux panes. It keeps its state in a SQLite
file and is driven by many threads at once: Slack events, worker callbacks over HTTP, a prompt detector, a
cleanup loop and restarts. This project models the parts of it that have to stay right under interleaving,
retries and crashes, and proves what they guarantee. Where the code does less than its comments suggest, the
exact condition is proved, with a concrete run that shows the failure.

## What is modelled

**Reply delivery.** A worker posts a reply through a shell client with a bounded retry loop, an HTTP handler
with its own ledger row and turn claim, and a Slack call with its own retries. `SlackCalls` has the three loops.
`ReplyLedger` has the tables, each write transaction being one atomic function, and a class that performs it
in place. `ReplyProtocol` makes every transaction and every Slack call of a handler (hook_server.py:436-753) one step;
between two steps any other handler, cancel, kill, timeout, reaction, crash, session change or clock tick may run. A run
is any sequence of actions. `ReplyDelivery` proves at-most-once delivery of every part over all runs, `TurnClaims` that
a turn gets one final reply and that a finished turn stays finished, `DeliveryHazards` where this ends. `CallOrigins`
proves what stands behind every Slack call and what a recorded reply shows, `ReplyChecks` which replies are let through
and what becomes of the others, `TurnRecords` what a turn's row says of its replies.
Leases may be used to recover: the hypothesis `Orderly` only says that whoever takes over an expired row, or a live
turn from another request, finds it idle (for a row: nothing was delivered for it and no other handler is at work on
it; for a turn: no other final reply is being posted or may have been), and that Slack stamps the messages it
accepts. `ReplyDelivery.NextKeepsInvIff` and `TurnClaims.TakingATurnIff` show that, step by step, idleness is exactly
what a take-over needs. It holds, for instance, when handlers stay within their thirty seconds and record what they
send (`InTimeMeansOrderly`); it fails when a handler dies, or both its ledger writes are lost, after a delivery.
`MessageSplit` is the splitter whose parts are delivered.

**Queue and ledger.** `EventQueue` has the queue and ledger tables and the class `EventStore` that updates them.
`QueueFifo` proves that they refine one FIFO sequence per conversation, operation by operation, from the fresh item
that goes to the back (`AppendPushesBack`) to the entry that is dropped, `QueueRuns` what every run of transactions
keeps, `QueueReplace` what replacing the visible queue shows. `StartupDrain` has the pass over the queue after a
restart, interleaved with the worker threads it starts up to the end of their launches; `StartupWorkers` proves
exactly when it starts one worker for each conversation, `StartupOutcomes` exactly which rows fail and how sessions
end, read off the sessions at the start and the workers' steps, `StartupSends` what it does for conversations at rest
and that its figures are exact.

**Sessions.** `SessionStatus` is the transition table. `SessionHandlers` gives the net effect of every handler on the
session record, proves the session invariant over all runs of handlers, and has the class `SessionTable`, whose
methods take the handlers' compare-and-set steps one by one and are proved to have that net effect. `SessionTurns`
proves, over all runs, from which event each column of the record has what it says. `DispatchOwnership` interleaves
drain, send, completion, timeout, restart and crash transaction by transaction and proves exactly when every row in
dispatch keeps one owner, whatever is claimed next; `RowCauses` proves which handler completes, fails or gives back
each row.

**Pane grid.** `PaneGrid` has the grid shape and the fit test, `PaneTiling` the layout string, `PaneCover` the
proof that its panes tile the window, `PaneReader` a reader of tmux's notation that gets these panes back from the
string, `LayoutChecksum` the checksum in front of it.

**Fixed-copy file.** `CopyScalars` has the scanners, `CopyParser` the recursive parser with its loops, `CopyGrammar`
an independent grammar and the proof that the parser accepts exactly it, `CopyDocuments` and `CopyRoundTrip` the round
trip, `CopyComments` the proof that comments change nothing. The parser is given the reader of scalars as a parameter;
`ScalarsOf` supplies the file's own, which in turn is given Python's reading of a quoted literal.

**Prompt detector.** `PromptDetector` has the detector's four dictionaries and proves exactly when a poll reports.

## What the proofs found

- A retry that takes over an expired row of a live turn repeats a part if and only if something was delivered for the
  row (`DeliveryHazards.TakeoverRepeatsIffDelivered`). For every reply this happens when its handler stalls for the
  lease after a part was sent (`ExpiredLeaseReposts`) and when it dies there (`CrashedHandlerReposts`), which an
  exception in the bookkeeping after the post is enough for (slack_api.py:380-401). For every note of one part it
  happens when both ledger writes are lost, with no crash and no stall (`LostWritesRepost`).
- A request that takes a live turn from another one makes a second final reply in the thread if and only if one was sent
  for the turn before (`DeliveryHazards.TakenTurnRepliedTwiceIff`). It happens for every two final replies, the first of
  one part, when its handler dies between marking the row posted and completing the turn (`DeadHandlerLosesTurn`): the
  posted row does not protect the turn.
- A reply that is refused half-way is recorded as failed exactly when none of its accepted parts came with a timestamp
  (`ForgottenIffUnstamped`); a retry then posts the first part again at once (`UnstampedPartReposts`).
- A failure mark opens a reply whose delivery was unknown to a retry again; only a posted row is protected
  (`ReplyLedger.FailureReopensIff`).
- The failure path of a drain moves the session from BUSY to IDLE without looking at the turn. If the turn was
  completed and the next item sent meanwhile, that next row stays in dispatch with no owner until the next start
  (`DispatchOwnership.LateFailureOrphansRow`). The check that would exclude this, `Safe`, is whether the session still
  names the row the handler acts on, or the handler's row is settled and the session names no row in dispatch.
- After a restart, two queued items of a session that is still CREATING are both put into dispatch when the first
  worker thread is slow; the second thread is over at once and leaves its row there
  (`StartupWorkers.SlowWorkerLosesItem`, `OneWorkerEachIff`).
- When the launch for the first item fails during that pass, the session's other queued items are failed with it,
  although the session was new (`StartupWorkers.FailedLaunchFailsRest`); so are they when the launch is only put off
  (`StartupOutcomes.DrainFailsByScript`).
- Recording an event in the ledger leaves ledger and queue in agreement if and only if it happens before the event is
  queued, or the ledger has the event already (`QueueRuns.ClaimEventAgreesIff`).
- Replacing a queue marks dropped rows done and leaves their ledger rows open (`QueueReplace.DroppedRowAgreesIff`).
- The initial lease is written in SQLite's format and compared as text with ISO timestamps, so the expiry sweep
  takes it for ended from the first moment unless it runs past midnight (`EventQueue.InitialLeaseEndsSameDay`). The
  sweep has no caller in the repository.
- A launch that prepares its window after the session has moved on leaves a BUSY session in STARTING with a turn
  (`SessionHandlers.LateLaunchOkIff`). The transition table declares ERROR final; the revival of a session that timed
  out before it was ready overwrites it (`HandlersFollowTable`).
- In the fixed-copy file a list item cannot hold a block: the trailing white space is stripped before the test for
  `"- "`, so the parser's branch for an empty item is never taken (`CopyGrammar.ItemHasText`).
- The recomputed row count of a layout never differs from the grid's (`PaneGrid.RowsAreNeeded`).
- A visit of the pass after a restart that finds an idle session sends the oldest item of the conversation, not the one
  it visits (`StartupSends.RestingSendsOldest`).
- A dialog between two polls does not interrupt the stability count of a free-input prompt; the ten polls need not be
  consecutive (`PromptDetector.FreeInputWasStable`).

## Model

| member | source | states |
|---|---|---|
| `MessageSplit.SplitSlackPostText` | slack_api.py:189-206 | The loop ends for every text and limit, fails exactly for a limit that is not positive, loses and repeats nothing, and over-long parts end in a newline |
| `MessageSplit.PartsConcatenateToText` | slack_api.py:189-206 | The parts of any text join back to the text |
| `MessageSplit.PartsAreWellCut` | slack_api.py:194-205 | When a text is split, no part is empty and each is at most one newline over the limit |
| `MessageSplit.CutsPreferNewlines` | slack_api.py:196-202 | A cut that is not after a newline only happens when no usable newline was in reach |
| `MessageSplit.PartsIff` | slack_api.py:189-206 | The parts are the one division of the text in which each but the last ends behind the last newline within reach, or at the limit if there is none |
| `MessageSplit.SlackPartsAreShort` | slack_api.py:189-206 | Up to 3900 characters are posted in one message; no message has more, but for a newline |
| `SlackCalls.CallWithRetries` | slack_api.py:101-181 | Only the last attempt of the loop may have been delivered, and the result says so |
| `SlackCalls.PostParts` | slack_api.py:352-375 | Parts go out in order up to the first failure; the timestamps reported are those of the accepted parts |
| `SlackCalls.RunClient` | case_reply.sh:352-402 | The client exits with success exactly when its last attempt succeeded, and repeats only retryable answers |
| `SlackCalls.RequestSeedInjective` | case_reply.sh:208-223 | If case, turn and action hold no colon, the seed of the request id determines all four of case, turn, action and text |
| `ReplyLedger.BridgeState.ClaimReplyRow` | bridge_state.py:531-627 | The claim in place equals the specification: insert, revive a retryable failure, take over an expired lease, else refuse and change nothing |
| `ReplyLedger.BridgeState.ClaimTurn` | bridge_state.py:637-721 | The turn claim in place equals its specification and never succeeds on a turn with a completion action |
| `ReplyLedger.BridgeState.ReleaseTurn` | bridge_state.py:723-740 | Other turns stay; after it another request can claim a live turn exactly when the claim was the releasing request's, or had run out, or there was none |
| `ReplyLedger.BridgeState.MarkCompleted` | bridge_state.py:799-834 | The columns named are written, the reply counted, and the claim dropped with a completion time |
| `ReplyLedger.BridgeState.CloseOpenTurns` | bridge_state.py:860-880 | Every open turn of the session, and no other, is closed with the reason |
| `ReplyLedger.BridgeState.MarkPosted` | bridge_state.py:1598-1625 | Other rows and the payload stay, and no claim of the request is ever granted again, by anyone at any clock |
| `ReplyLedger.BridgeState.MarkPostedUnknown` | bridge_state.py:1627-1655 | Other rows and the payload stay, and no claim is granted again as long as the status stays |
| `ReplyLedger.BridgeState.MarkFailed` | bridge_state.py:1657-1673 | Other rows and the payload stay; a posted row stays closed, and a retry of the same reply is granted at any clock exactly when the row was not posted and the error may be retried |
| `ReplyLedger.FailureReopensIff` | bridge_state.py:571-593 | After a failure mark a retry is granted if and only if the row was not posted and the error is retryable, an unknown delivery included |
| `ReplyLedger.ReleaseFreesIff` | bridge_state.py:723-740 | When a release lets another request claim the turn |
| `ReplyLedger.GrantHoldsThirtySeconds` | bridge_state.py:595-620 | A granted reply claim is granted again for the same reply exactly from thirty seconds on, and never for another reply |
| `ReplyLedger.TurnGrantHoldsThirtySeconds` | bridge_state.py:668-712 | A granted turn claim keeps every other request off for exactly thirty seconds |
| `ReplyLedger.OpenedTurnIsFree` | bridge_state.py:742-797 | Opening a turn again changes nothing; a new one can be claimed by any request exactly while its session works on it |
| `ReplyLedger.SweepClosesOwnTurns` | bridge_state.py:860-880 | The sweep leaves the turns of other sessions, and every claim on them, as they were; in its own session it leaves none open and changes none that had ended |
| `ReplyDelivery.NextKeepsInvIff` | bridge_state.py:595-620 | A step keeps the delivery invariant if and only if a handler that takes an expired row over finds nothing delivered for it and nobody else at work on it |
| `ReplyDelivery.RunKeepsInv` | hook_server.py:470-656 | Over every orderly run, take-overs of idle rows included, each reply row has at most one working handler, and the delivered parts are the ones its row and handler account for |
| `ReplyDelivery.EachPartAtMostOnce` | hook_server.py:470-656 | In every orderly run, whatever crashes, lost writes, recoveries and other handlers it has, two Slack calls of one request that may have been delivered are for different parts, in order |
| `ReplyDelivery.ThreadShowsPrefix` | hook_server.py:586-656 | What the thread may show of a reply is a prefix of its text; failed means nothing was delivered, posted means all of it, except for a note held back by the daily limit |
| `CallOrigins.EveryCallIsBacked` | hook_server.py:490-585 | In every run, behind each Slack call is a handler with that reply that found it, before the call, to come from the worker, pane and window of the session working on its open turn, and that was given one of the slots of the day if the reply is a note |
| `CallOrigins.RefusedNoteIsSilent` | slack_api.py:341-351 | In every run, a handler that was refused its slot makes no call, before or after, and goes on to record the end |
| `CallOrigins.RecordedReplyShown` | hook_server.py:586-656 | In every orderly run, when a handler records that its post ended well, the thread shows the whole reply, or nothing exactly if its slot was refused; the row is posted with the last timestamp, posted_unknown if only the second write succeeds, or unchanged |
| `ReplyChecks.NewRequestGetsRowIff` | hook_server.py:436-480 | A new request gets a row exactly when no field is empty and the text is not blank; otherwise it leaves no trace |
| `ReplyChecks.LookupPassesIff` | hook_server.py:144-203 | The lookup is passed exactly from the worker, pane and window of a session that has not ended, found by worker id or else by case; each refusal has its own error |
| `ReplyChecks.NobodyIsMeantIff` | hook_server.py:144-150 | A reply fails for want of a session exactly when none has its worker id and none its case |
| `ReplyChecks.TurnPassesIff` | hook_server.py:204-236 | A turn is accepted exactly when it is the session's open one, discarded exactly when it is its own and cancelled, and stale otherwise |
| `ReplyChecks.RefusedReplyIsClosed` | hook_server.py:490-530 | A reply that fails a check makes no call, and no retry of it is ever granted |
| `ReplyChecks.CancelledReplyIsDiscarded` | hook_server.py:520-530 | A reply to a cancelled turn whose discard was announced makes no call, and no retry of it is ever granted |
| `ReplyChecks.EveryErrorFits` | bridge_state.py:531-627 | In every run a row in progress carries no error, and one that failed or is of unknown delivery carries one |
| `TurnRecords.TurnShowsItsReplies` | bridge_state.py:799-834 | In every run the row of a turn counts the replies recorded for it and shows the end, time and claim that were recorded last |
| `TurnRecords.AtMostThreeCalls` | slack_api.py:101-181 | In every run, whatever Slack answers, a handler makes at most three calls for one part |
| `TurnClaims.OneFinalReplyPerTurn` | hook_server.py:576-709 | In every orderly run two final calls on one turn that may have been delivered belong to one request and to different parts |
| `TurnClaims.TakingATurnIff` | bridge_state.py:668-712 | A claim that takes a live turn from another request keeps this if and only if no other final reply is engaged in the turn or was sent for it |
| `TurnClaims.OverForGood` | bridge_state.py:799-834 | A turn that is over stays over in every continuation, a late note included |
| `TurnClaims.FinishedTurnRefusesClaims` | bridge_state.py:668-712 | No later claim on a finished turn succeeds, for any request, clock and session state |
| `TurnClaims.FinishingRefusesClaims` | bridge_state.py:799-880 | After a reaction, cancel, kill, timeout, send failure, closing sweep, deletion or recorded final reply has finished a turn, no claim on it succeeds in any continuation |
| `DeliveryHazards.TakeoverRepeatsIffDelivered` | bridge_state.py:595-620 | In a run that was in order until then, the first post of a retry that takes over an expired row of a live turn repeats a part if and only if something was delivered for the row |
| `DeliveryHazards.TakenTurnRepliedTwiceIff` | bridge_state.py:668-712 | In a run that was in order until then, the first post of a request whose claim takes a live turn from another one makes two final replies of different requests that may have been delivered if and only if one was sent for the turn before |
| `DeliveryHazards.DeadHandlerLosesTurn` | hook_server.py:586-709 | For every two final replies of one worker for one turn, the first of one part: the run in which its handler posts it, marks its row posted and dies before the turn is completed; when the claim has run out the second is granted the turn and posted |
| `DeliveryHazards.ForgottenIffUnstamped` | hook_server.py:586-656 | For any accepted parts and timestamps: after the next part is refused all of them may be in the thread, and the row is failed exactly when none has a timestamp, posted_unknown with the last of them otherwise |
| `DeliveryHazards.ExpiredLeaseReposts` | bridge_state.py:595-620 | For every reply, the run of a handler that stalls for its lease, in which the first part may be delivered twice |
| `DeliveryHazards.CrashedHandlerReposts` | slack_api.py:380-401 | For every reply, the run of a handler that dies after its first part was sent: nobody is at work at the take-over, and the part may be delivered twice |
| `DeliveryHazards.LostWritesRepost` | hook_server.py:612-652 | For every note of one part, the run in which both ledger writes are lost and the note may be delivered twice |
| `DeliveryHazards.UnstampedPartReposts` | slack_api.py:352-375 | For every reply and every number of accepted parts short of all, a run without any passing of time in which the first part may be delivered twice |
| `EventQueue.EventStore.AppendEvent` | bridge_state.py:952-1046 | Appending in place equals its specification: insert, or rewrite the row of a repeated event without reviving a settled one |
| `EventQueue.EventStore.AppendInitial` | session_store.py:149-206 | The first row of a conversation is inserted in dispatch; nothing is written when the session exists or the event is a repeated one |
| `EventQueue.EventStore.ClaimQueueHead` | bridge_state.py:1211-1269 | Only the first visible row is claimed, if it carries the expected item, and the ledger follows |
| `EventQueue.EventStore.ConsumeQueueHead` | bridge_state.py:1271-1342 | The dispatched row of the item is consumed, or the visible head |
| `EventQueue.EventStore.ConsumeQueueRow` | bridge_state.py:1344-1381 | A dispatched row becomes done, a done row counts as consumed, others refuse |
| `EventQueue.EventStore.MarkRowRetryable` | bridge_state.py:1383-1417 | An unsettled row becomes retryable, a settled one stays |
| `EventQueue.EventStore.FailQueueRow` | bridge_state.py:1419-1453 | An unsettled row fails; the ledger is written unless it is done |
| `EventQueue.EventStore.ResetDispatchingRows` | bridge_state.py:1538-1575 | Every dispatched row becomes retryable, its ledger row follows, and the number of rows is returned |
| `EventQueue.EventStore.ReplaceQueue` | bridge_state.py:1062-1209 | The two loops put the items in and mark the rest of the visible rows done |
| `QueueFifo.VisibleIsWaiting` | bridge_state.py:1048-1060 | The visible queue is the waiting part of the abstract sequence |
| `QueueFifo.InitialGoesInFlight` | session_store.py:149-206 | The first item of a conversation goes to the back of its backlog in flight, and every visible queue stays; nothing is written exactly when the session exists or the event is known |
| `QueueFifo.InitialLedger` | session_store.py:182-206 | It takes its open ledger record into dispatch and touches no other |
| `QueueFifo.RepeatedAppendStaysInPlace` | bridge_state.py:984-1008 | A repeated event keeps its place |
| `QueueFifo.RepeatedAppendRevivesNothing` | bridge_state.py:984-1008 | A repeated event that was settled changes no queue |
| `QueueFifo.RepeatedAppendMovesByAge` | bridge_state.py:984-1008 | A repeated event sent to another conversation stands there between the older and the younger items |
| `QueueFifo.ClaimTakesFront` | bridge_state.py:1211-1269 | A claim succeeds exactly when the expected item is at the front and takes only that |
| `QueueFifo.RetryReinsertsInPlace` | bridge_state.py:1383-1417 | An item given back is visible again where it was |
| `QueueFifo.ConsumeDropsDispatched` | bridge_state.py:1344-1381 | Completion removes the entry and nothing else, once |
| `QueueFifo.FailDrops` | bridge_state.py:1419-1453 | Failing removes the entry and nothing else |
| `QueueFifo.ConsumeHeadDrops` | bridge_state.py:1271-1342 | Consuming by item removes the entry of the first dispatched row with the item, or the front of the queue if it is the item, or changes nothing |
| `QueueFifo.FailSessionEmpties` | bridge_state.py:1455-1495 | Failing a session empties its queue and leaves all others |
| `QueueFifo.ExpirySweepKeepsOrder` | bridge_state.py:1497-1536 | The expiry sweep keeps all items in order |
| `QueueFifo.SweepReleasesIff` | bridge_state.py:1497-1536 | The sweep releases exactly the rows in dispatch whose lease has ended or is missing, and changes no other |
| `QueueFifo.ClaimHoldsUntilLeaseEnds` | bridge_state.py:1211-1269 | A claimed item stays hidden from every sweep before its lease has ended, and no longer |
| `QueueFifo.InitialHoldsUntilThatDay` | session_store.py:149-206 | The first item is released by the first sweep on the day its lease ends |
| `QueueFifo.ReclaimShowsWholeBacklog` | bridge_state.py:1538-1575 | After the startup reclaim the visible queue is the whole backlog |
| `QueueRuns.RowsArePermanent` | bridge_state.py:1211-1575 | In every run no row disappears or changes its event, and done and failed are final |
| `QueueRuns.AppendedEventStays` | bridge_state.py:952-1046 | An appended event is in the table after any continuation |
| `QueueRuns.CrashLosesNothing` | message_dispatch.py:247-310 | After a crash between any two transactions and the reclaim, each row that was not settled is visible behind exactly the unsettled rows before it; settled rows are not, now or later |
| `QueueRuns.LedgerMatchesQueue` | bridge_state.py:1010-1025 | In every run of queue transactions an open ledger row carries the status of its queue row |
| `QueueRuns.LedgerSettledForever` | bridge_state.py:1330-1575 | Done and failed ledger rows never change |
| `QueueRuns.AttemptsAreTakings` | bridge_state.py:1211-1269 | In every run the attempt count of a row is the number of times it was taken into dispatch |
| `QueueRuns.EveryLeaseFits` | bridge_state.py:1211-1575 | In every run a row has a lease exactly while it is in dispatch |
| `QueueReplace.ReplaceShowsItems` | bridge_state.py:1062-1209 | For items with distinct events the visible queue is, as a multiset, the given items whose event was not settled |
| `QueueReplace.FreshItemsInOrder` | bridge_state.py:1062-1209 | Items whose events are new are shown in the order given, and nothing else is |
| `QueueReplace.ReplaceSettlesTheRest` | bridge_state.py:1187-1209 | Every other visible row of the conversation is done, and rows that carry none of the items elsewhere stay |
| `QueueReplace.DroppedRowAgreesIff` | bridge_state.py:1197-1209 | A dropped row still agrees with the ledger exactly when the ledger has no open record of its event |
| `StartupDrain.Runtime.DrainDurableEventQueue` | slack_bridge.py:1192-1312 | The loop over the listed rows, with its branches and figures, computes the specified pass |
| `StartupDrain.DrainFailsExactly` | slack_bridge.py:1206-1304 | Interleaved with its workers up to the end of their launches, the pass fails exactly the rows whose session was gone, ended or suspended for another reason when it came to them, and those whose own launch failed; no other row is settled |
| `StartupOutcomes.DrainFailsByScript` | slack_bridge.py:1206-1304 | In terms of the listed rows, the sessions at the start and the scripted worker steps alone: a row fails exactly when it is listed and its conversation could take nothing from the start, or is visited after the one launch of its conversation failed or was put off, or its own launch fails |
| `StartupOutcomes.SessionByScript` | worker_process.py:87-238 | The session of a conversation with a worker ends as the script of its one launch says |
| `StartupSends.RestingSendsOldest` | message_dispatch.py:259-310 | A conversation at rest gets no worker; if a visit of an idle one is sent, its oldest item is in dispatch and the session busy, else all items wait and the session stays |
| `StartupSends.FiguresAreExact` | slack_bridge.py:1192-1312 | Each figure counts what it is named after: rows reclaimed, visits that met a doomed session, visits that left one alone, and all others |
| `StartupDrain.DrainFailsExactlyDoomed` | slack_bridge.py:1211-1304 | If no launch fails or is put off during the pass, these are the listed rows whose session was so at the start |
| `StartupDrain.StatsCountEveryRow` | slack_bridge.py:1200-1312 | Processed, failed and deferred add up to the listed rows |
| `StartupWorkers.OneWorkerEachIff` | slack_bridge.py:1220-1243 | Each conversation gets at most one worker if and only if, for every new session, the thread of its first listed item runs before the pass comes to each later one |
| `StartupWorkers.SlowWorkerLosesItem` | worker_process.py:87-124 | For any two items of a new session, the pass in which both go into dispatch and the second thread is over at once |
| `StartupWorkers.FailedLaunchFailsRest` | worker_process.py:663-714 | For any two items of a new session, the pass in which the launch for the first fails and the second item is failed with it |
| `SessionHandlers.EverySessionOk` | session.py:83-109 | In every run of handlers a busy session has a turn, a session at rest has none of the five turn fields, and outside KILLED and ERROR a wait is stored exactly when WAITING |
| `SessionHandlers.HandlersFollowTable` | session.py:31-41 | Every handler moves the status along the table, and only the revival leaves ERROR |
| `SessionTurns.CarriesLastStart` | session.py:83-109 | In every run a session at work, or waiting within its turn, carries field by field the turn, event, start, owner and queue row of the last event that started one |
| `SessionTurns.CompletionNeedsRow` | message_dispatch.py:176-245 | A completion moves a busy session that names a row exactly if it names its turn and the row was consumed |
| `SessionTurns.WaitingHasItsWait` | interactive_handler.py:30-195 | In every run a waiting session has stored the wait of the last event that made it wait |
| `SessionTurns.PaneIsOfLastLaunch` | worker_process.py:135-238 | In every run a session has its pane and window from its last launch |
| `SessionTurns.EventMovesIff` | session.py:31-41 | Each event moves exactly the sessions it is meant for, each to one status |
| `SessionTurns.StatusHasItsEvent` | session.py:31-41 | In every run the status of a session is the one that the last event meant for it gave |
| `SessionTurns.TableShape` | session.py:31-41 | The transition table, status by status: who can be suspended, killed, failed, launched, and so on |
| `SessionTurns.TurnWritten` | session.py:83-109 | Which events write the five turn fields, which drop them, and which leave them |
| `SessionTurns.WaitWritten` | interactive_handler.py:30-195 | Which events write the stored wait, which drop it, and which leave it |
| `SessionTurns.PlaceWritten` | worker_process.py:135-238 | Which events write pane and window, and which give the pane up |
| `SessionTurns.SessionsComeAndGo` | session_store.py:149-206 | A session comes to be once, with nothing but its user and window, disappears only when it had ended, and is changed only by its own events |
| `SessionTurns.CleanupIff` | session_lifecycle.py:463-627 | When the cleanup removes, kills or suspends a session, and for which of its reasons |
| `SessionHandlers.SessionTable.Transition` | session_store.py:256-284 | Compare-and-set: the status is checked, the table is checked, the updates are written, or nothing is |
| `SessionHandlers.SessionTable.LifecycleTransition` | session_lifecycle.py:263-306 | As the store's transition, but a move the table forbids ends in ERROR with the turn cleared |
| `SessionHandlers.SessionTable.RouteActive` | message_dispatch.py:145-162 | The steps of a direct message have the specified net effect |
| `SessionHandlers.SessionTable.DrainOne` | message_dispatch.py:259-310 | The steps of a drain have the specified net effect |
| `SessionHandlers.SessionTable.CompleteTurn` | message_dispatch.py:176-245 | The branches of a completion, with the drain after it, have the specified net effect |
| `SessionHandlers.SessionTable.HandleUserReply` | interactive_handler.py:75-195 | An answer starts a turn, or is rolled back to the stored wait |
| `SessionHandlers.SessionTable.OnInputWaitDetected` | interactive_handler.py:30-73 | A detected wait is stored, or rolled back when it cannot be announced |
| `SessionHandlers.SessionTable.CancelSession` | session_lifecycle.py:366-407 | A cancel frees a busy or waiting session |
| `SessionHandlers.SessionTable.KillSession` | session_lifecycle.py:409-430 | A kill ends the session unless its pane survives |
| `SessionHandlers.SessionTable.SuspendSession` | session_lifecycle.py:346-364 | A suspension clears turn and wait |
| `SessionHandlers.SessionTable.TerminateSession` | session_lifecycle.py:432-461 | A graceful stop suspends an active session and names the row to give back |
| `SessionHandlers.SessionTable.CleanupStale` | session_lifecycle.py:463-627 | The first check of the cleanup loop that applies: missing pane, busy timeout, wait timeout, finished, suspended, retired; a timeout names the row to fail |
| `SessionHandlers.SessionTable.StartSession` | worker_process.py:87-123 | A new session is claimed and launched; a session in any other status is left alone |
| `SessionHandlers.SessionTable.LaunchWorker` | worker_process.py:135-238 | The ends of a launch: dispatched, deferred, timed out, failed |
| `SessionHandlers.SessionTable.DispatchFirst` | worker_process.py:442-492 | The session goes from STARTING to BUSY with the turn of its first message |
| `SessionHandlers.SessionTable.FailSession` | worker_process.py:663-714 | A failed launch clears the turn and keeps the pane only if it survived |
| `SessionHandlers.SessionTable.RecoverSession` | slack_bridge.py:1339-1390 | With free capacity, recovery starts a suspended or killed session afresh |
| `DispatchOwnership.EveryDispatchHasOneOwnerIff` | message_dispatch.py:224-310 | In every run of drains, completions, busy timeouts, restarts and crashes, each row in dispatch has exactly one owner at every point, and keeps it whatever is claimed next, if and only if every session write is safe |
| `DispatchOwnership.SafeIffOneOwnerStays` | message_dispatch.py:281-305 | A step is safe, the session still naming the handler's row or both rows being out of dispatch, if and only if afterwards each row in dispatch has one owner under every further sequence of claims |
| `DispatchOwnership.OwnTurnIsSafe` | session_lifecycle.py:432-541 | A write by the handler of the session's current turn is always safe |
| `DispatchOwnership.EveryRowSettledOnce` | bridge_state.py:1344-1453 | However the handlers interleave, each row is settled at most once, and is done or failed exactly when it was |
| `RowCauses.SettledByItsReader` | session_lifecycle.py:517-541 | In every run a row that ends as failed was failed by a handler that had read it in its busy session for a timeout, and one that ends as done was consumed by one that had read it for a completion |
| `RowCauses.DrainLeavesRow` | message_dispatch.py:259-310 | A drain that ends has had its message sent, or its row waits again at its rank |
| `RowCauses.FailedSendReturnsRow` | message_dispatch.py:290-307 | When a send has failed and its handler has ended, the row waits again at its rank, unless it is settled |
| `RowCauses.RestartReturnsRow` | session_lifecycle.py:432-461 | A restart that ends has found its session at rest, or the row it read waits again at its rank, unless it is settled |
| `RowCauses.TimeoutFailsRow` | session_lifecycle.py:508-541 | A timeout that ends has found its session no longer busy, or the row it read is failed, unless it was settled before |
| `RowCauses.CompletionConsumesRow` | message_dispatch.py:224-245 | A completion that ends has found its row neither in dispatch nor done, or the row is done |
| `RowCauses.TurnWithoutRowEnds` | session_lifecycle.py:432-541 | A completion, timeout or restart of a direct turn that ends leaves the session not busy, and the rows alone |
| `RowCauses.SessionWrites` | message_dispatch.py:259-310 | Which step makes a session busy, with which row, which brings it to rest or stops it, and that no other changes it |
| `DispatchOwnership.LateFailureOrphansRow` | message_dispatch.py:290-305 | The run in which a late send failure leaves the next row in dispatch without an owner |
| `PaneGrid.LayoutGrid` | tmux_gateway.py:372-387 | The growing loop ends with the unique near-square shape that covers the panes and did not before its last step |
| `PaneGrid.GridGrows` | tmux_gateway.py:372-387 | The shape is unique, and neither dimension shrinks as panes are added |
| `PaneGrid.PartsAreFair` | tmux_gateway.py:397-401 | The parts of an extent differ by at most one cell, the larger ones first |
| `PaneGrid.CanFitIff` | tmux_gateway.py:445-457 | The fit test in terms of the window: so many minimal cells and borders fit |
| `PaneGrid.CanFitFewer` | tmux_gateway.py:445-457 | A window that fits some panes fits fewer, and so does a larger one of its orientation |
| `PaneGrid.PoolWindowsFit` | config.py:222-232 | Every window of at least 488x92 fits 1 to 12 panes |
| `PaneGrid.PoolWindowCapacity` | config.py:231-232 | A window of just that size fits exactly up to 16 |
| `PaneTiling.GridLayout` | tmux_gateway.py:412-443 | The nested loops produce the text of the specified layout behind its checksum, and nothing for one pane or an empty window |
| `PaneTiling.SentLayoutIsGuarded` | tmux_gateway.py:443 | The string sent passes the checksum test, and no longer does with any one character of its body changed |
| `PaneReader.LayoutIsRead` | tmux_gateway.py:412-443 | A reader of the notation, written without the writer, reads every layout back from its text |
| `PaneReader.SentLayoutIsRead` | tmux_gateway.py:412-443 | From the string that is sent a receiver reads exactly the panes of the layout, in divided cells of several parts that fill the window and one another, side by side in braces and one below the other in brackets |
| `PaneCover.LeavesAreNumbered` | tmux_gateway.py:421-432 | There is one leaf for each pane, numbered from 0 in the order of the text |
| `PaneCover.LeavesStayInside` | tmux_gateway.py:421-438 | Every leaf lies inside the window and is not empty, if no cell is empty |
| `PaneCover.PanesTileTheWindow` | tmux_gateway.py:397-443 | Each cell of the window lies in exactly one leaf, or is a border and lies in none |
| `PaneCover.LayoutAddsUp` | tmux_gateway.py:397-443 | Widths and borders add up to the window's width in each row, heights and borders to its height |
| `PaneCover.NoEmptyCellIff` | tmux_gateway.py:397-401 | No leaf is empty exactly when the window is at least twice the grid less one |
| `PaneCover.CanFitIffPanesLargeEnough` | tmux_gateway.py:445-457 | The fit test passes exactly when every leaf of the layout then sent has the minimum size, the short last row included |
| `LayoutChecksum.LayoutChecksum` | tmux_gateway.py:403-410 | The loop computes the checksum defined on the whole string, within 16 bits |
| `LayoutChecksum.RotationOfBits` | tmux_gateway.py:407 | A step moves every bit one place down, and the lowest to the top |
| `LayoutChecksum.ChecksumOfMore` | tmux_gateway.py:403-410 | The checksum of no text is 0, and one more character is added to the rotated sixteen bits |
| `LayoutChecksum.OneCharacterIsNoticed` | tmux_gateway.py:403-410 | Two strings that differ in one character have one checksum exactly when the characters agree modulo 65536 |
| `CopyScalars.StripComment` | slack_copy/renderer.py:199-217 | The loop with its quote flags cuts at the first unquoted comment sign |
| `CopyScalars.SplitKeyValue` | slack_copy/renderer.py:219-240 | The loop splits at the first unquoted colon, or reports the error |
| `CopyRoundTrip.KeyFailsIff` | slack_copy/renderer.py:220-240 | When a line has no key, and when it is no entry at all |
| `CopyRoundTrip.SingleQuotesEnd` | slack_copy/renderer.py:199-217 | Single quotes end at the next one, whatever stands before it |
| `CopyRoundTrip.ScalarFailsIff` | slack_copy/renderer.py:252-274 | The two reasons for which a scalar is refused |
| `CopyParser.ReadLines` | slack_copy/renderer.py:112-122 | The lines with content are collected with indentation and number; the first tab is an error |
| `CopyParser.ParseMapping` | slack_copy/renderer.py:145-169 | The loop computes the specified entries, errors included, and ends because the index grows |
| `CopyParser.ParseList` | slack_copy/renderer.py:171-197 | The loop computes the specified items |
| `CopyParser.ParseBlock` | slack_copy/renderer.py:135-143 | The block parser that the two loops recurse through |
| `CopyParser.Parse` | slack_copy/renderer.py:124-133 | The whole parser on a list of lines |
| `CopyGrammar.ParsedIffDerived` | slack_copy/renderer.py:124-197 | The parser accepts exactly the files that are one valid tree of mappings and lists from the first line to the last, and returns the tree's meaning |
| `CopyGrammar.ItemHasText` | slack_copy/renderer.py:181-188 | After stripping, a list item always has text, so an item never opens a block |
| `CopyRoundTrip.RoundTrip` | slack_copy/renderer.py:111-197 | Any document of nested mappings and lists, written at any indentation with any deeper step per block, its strings quoted or plain, is parsed back to its value |
| `CopyRoundTrip.ScalarRead` | slack_copy/renderer.py:252-274 | Every written scalar is read back: null, booleans, integers, quoted strings, strings that need no quotes, the empty list and mapping |
| `CopyRoundTrip.WordRead` | slack_copy/renderer.py:261-266 | null, true and false are read in any mixture of small and capital letters |
| `CopyComments.CommentsAreIgnored` | slack_copy/renderer.py:111-133 | Comments behind any lines change nothing: the same lines are read, and the same document or error |
| `CopyRoundTrip.FileIsPrintable` | slack_copy/renderer.py:114 | No line of a written file is one that Python would split further |
| `CopyRoundTrip.DoubleQuotedReads` | slack_copy/renderer.py:269-273 | What is assumed of literal reading can be met |
| `PromptDetector.InputDetector.ClearSession` | input_detector.py:166-185 | The loop drops all that is remembered for the thread, under both forms of its key |
| `PromptDetector.InputDetector.MatchPatterns` | input_detector.py:214-318 | One poll in place: turn reset, dialogs at once, stability count, fingerprint |
| `PromptDetector.InputDetector.DedupeResult` | input_detector.py:344-361 | A fingerprint is reported the first time and remembered |
| `PromptDetector.CountIsStreak` | input_detector.py:279-290 | The stored count is the length of the streak of equal captures in the history |
| `PromptDetector.ReportedIff` | input_detector.py:214-318 | A fingerprint is reported exactly when the history makes it a candidate and it was not reported for this key since the last clear |
| `PromptDetector.ReportedAtMostOnce` | input_detector.py:344-361 | Between two reports of one fingerprint the key is cleared |
| `PromptDetector.SameFingerprintIff` | input_detector.py:363-374 | Two polls have one fingerprint exactly for the same turn, pane, report and last two thousand characters |
| `PromptDetector.NewTurnReportsAgain` | input_detector.py:344-374 | In a turn that was not polled before, every candidate is reported: the same dialog again |
| `PromptDetector.UnmarkedPromptIsNotReported` | input_detector.py:214-220 | Prompts of a session without a marker are never counted |
| `PromptDetector.CoversIff` | input_detector.py:166-180 | A key is the thread's when it is its timestamp, or ends with a colon and its timestamp |
| `PromptDetector.FreeInputWasStable` | input_detector.py:279-298 | A free-input wait is reported only after nine earlier polls of the turn saw the same capture since the last clear, with nothing but dialogs between |

## Left out

- SQL text, JSON and hash encodings: tables are maps or sequences, payload and fingerprint hashes are equality.
- Slack, HTTP, tmux, subprocesses and files: their outcomes are arbitrary choices of the environment.
- `update_event`, pruning, the bootstrap, acknowledgement and extension ledgers: not among the transactions of the runs. An `update_event` may overwrite any ledger status (bridge_state.py:405-429).
- Discard notices for cancelled turns (hook_server.py:287-340): such a handler ends with an arbitrary error; the notice's own post is not among the logged calls.
- The daily notification counter: whether a note gets a slot is a choice of the environment.
- `update_fields` and `save`, which load and write in separate transactions: `SessionHandlers` takes each handler as one step.
- Ownership of a row through cancel, kill, suspension, missing panes and input waits: the code drops the queue id there without settling the row.
- StartupDrain.Runtime.DrainDurableEventQueue: models the pass beside the worker threads it starts, up to the end of their launches; other handlers do not run beside it, so the claim of a head just read, and the transition after it, are never lost.
- SessionHandlers.SessionTable.StartSession: does not model the start that finds its session in STARTING because the restart pass claimed it; that is the `Enter` step of `StartupDrain`.
- SessionHandlers.SessionTable.LaunchWorker: does not model the loop's one restart after a worker update, which ends like a first launch.
- SessionHandlers.SessionTable.FailSession: does not model the queue, ledger and turn writes of the same method; `StartupDrain` has the queue write.
- Turn attempts in the session handlers, readiness polling and the wording of prompts.
- The choice of the pane to split, its scores and the reading of sizes from tmux (tmux_gateway.py:300-370).
- The regular expressions of the prompt detector and the normalisation of captures: a screen carries which patterns match and the normalised text.
- Python's line splitting and literal reading: the parser model takes the file as its lines, and the reader of quoted literals as a parameter. Digits and lower case are ASCII.
- Template rendering and placeholders of the fixed-copy file.
- Authentication tokens, file containment, setup, health report and launch scripts.
- EventQueue.EventStore.ReplaceQueue: models its read and its write transaction as one step, as the code's own reader does not check again.
- SessionHandlers.SessionTable.CancelSession: does not model the manual fallback of a failed transition, which cannot be reached when the handler is one step.
- SessionHandlers.HandlersFollowTable: states the net move of a whole handler, which may be two moves of the table; the single moves are those of `Transition` and `LifecycleTransition`.
