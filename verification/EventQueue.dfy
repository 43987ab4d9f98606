/** The durable event queue and its ledger (bridge_state.py, session_store.py). Rows are never deleted and ids only
    grow, so the table is a sequence: row i has queue_id i + 1, and ordering by queue_id is the order of the sequence.
    Times are microseconds. */
module EventQueue {
  import opened Wrappers

  type EventId = e: string | e != "" witness "e"
  type Conversation = string

  /** One status column serves the ledger; queue rows use the last five. */
  datatype Status = Received | ContextReady | Queued | Retryable | Dispatching | Done | Failed

  /** A queued item: an envelope with its event id, or a bare message without one. */
  datatype Payload = Payload(eventId: Option<EventId>, body: string)

  /** A lease end is ISO text, except that the initial lease is written by SQLite's datetime(). */
  datatype Lease = Iso(at: nat) | Sqlite(at: nat)

  datatype Row = Row(conversation: Conversation, payload: Payload, status: Status, lease: Option<Lease>,
                     retryCount: nat)

  type Ledger = map<EventId, Status>

  datatype Tables = Tables(rows: seq<Row>, ledger: Ledger)

  const DAY: nat := 86_400_000_000

  predicate Visible(status: Status) {
    status == Queued || status == Retryable
  }

  predicate Unsettled(status: Status) {
    Visible(status) || status == Dispatching
  }

  predicate Settled(status: Status) {
    status == Done || status == Failed
  }

  /** Lease ends are compared as text: a SQLite timestamp has a space where ISO text has a 'T', so on
      one date it sorts before every ISO cutoff. */
  predicate LeaseEnded(lease: Option<Lease>, cutoff: nat) {
    match lease
    case None => true
    case Some(Iso(at)) => at <= cutoff
    case Some(Sqlite(at)) => at / DAY <= cutoff / DAY
  }

  /** The row that carries an event id. */
  function FindEvent(rows: seq<Row>, event: EventId): (r: Option<nat>)
    ensures r.Some? ==> r.value < |rows| && rows[r.value].payload.eventId == Some(event)
    ensures r.None? ==> forall i :: 0 <= i < |rows| ==> rows[i].payload.eventId != Some(event)
  {
    if rows == [] then None
    else if rows[|rows| - 1].payload.eventId == Some(event) then Some(|rows| - 1)
    else FindEvent(rows[..|rows| - 1], event)
  }

  /** The first visible row of a conversation. */
  function FirstVisible(rows: seq<Row>, conversation: Conversation): (r: Option<nat>)
    ensures r.Some? ==> r.value < |rows| && rows[r.value].conversation == conversation
                        && Visible(rows[r.value].status)
    ensures forall i :: 0 <= i < (if r.Some? then r.value else |rows|) ==>
              !(rows[i].conversation == conversation && Visible(rows[i].status))
  {
    if rows == [] then None
    else
      var before := FirstVisible(rows[..|rows| - 1], conversation);
      var last := rows[|rows| - 1];
      if before.Some? then before
      else if last.conversation == conversation && Visible(last.status) then Some(|rows| - 1)
      else None
  }

  /** The first row of a conversation in dispatch whose payload is the given one. */
  function FirstDispatching(rows: seq<Row>, conversation: Conversation, payload: Payload): (r: Option<nat>)
    ensures r.Some? ==> r.value < |rows| && rows[r.value].conversation == conversation
                        && rows[r.value].status == Dispatching && rows[r.value].payload == payload
  {
    if rows == [] then None
    else
      var before := FirstDispatching(rows[..|rows| - 1], conversation, payload);
      var last := rows[|rows| - 1];
      if before.Some? then before
      else if last.conversation == conversation && last.status == Dispatching && last.payload == payload
      then Some(|rows| - 1)
      else None
  }

  /** A ledger row follows its queue row unless it is done or failed. */
  function LedgerFollows(ledger: Ledger, event: Option<EventId>, status: Status): (r: Ledger) {
    if event.Some? && event.value in ledger && !Settled(ledger[event.value])
    then ledger[event.value := status] else ledger
  }

  /** Failing writes over everything but done. */
  function LedgerFails(ledger: Ledger, event: Option<EventId>): (r: Ledger) {
    if event.Some? && event.value in ledger && ledger[event.value] != Done
    then ledger[event.value := Failed] else ledger
  }

  /** append_event_queue: insert, or rewrite the row of a repeated event without reviving a settled one. */
  function Append(t: Tables, payload: Payload, conversation: Conversation): (r: Tables) {
    var found := if payload.eventId.Some? then FindEvent(t.rows, payload.eventId.value) else None;
    var rows := match found
      case None => t.rows + [Row(conversation, payload, Queued, None, 0)]
      case Some(i) =>
        var row := t.rows[i].(conversation := conversation, payload := payload);
        t.rows[i := if Settled(row.status) then row else row.(status := Queued, lease := None)];
    Tables(rows, LedgerFollows(t.ledger, payload.eventId, Queued))
  }

  /** create_initial_queue_if_absent: with the new session row goes a first row already in dispatch. Nothing is written
      when the session exists, and a repeated event id violates the unique column and rolls the transaction back. */
  function AppendClaimed(t: Tables, payload: Payload, conversation: Conversation, leaseEnd: nat, sessionExists: bool)
    : (r: (Tables, Option<nat>))
  {
    if sessionExists then (t, None)
    else if payload.eventId.Some? && FindEvent(t.rows, payload.eventId.value).Some? then (t, None)
    else
      (Tables(t.rows + [Row(conversation, payload, Dispatching, Some(Sqlite(leaseEnd)), 1)],
              LedgerFollows(t.ledger, payload.eventId, Dispatching)),
       Some(|t.rows|))
  }

  function ClaimHead(t: Tables, conversation: Conversation, expected: Payload, leaseEnd: nat)
    : (r: (Tables, Option<nat>))
  {
    match FirstVisible(t.rows, conversation)
    case None => (t, None)
    case Some(i) =>
      var row := t.rows[i];
      if row.payload != expected then (t, None)
      else
        (Tables(t.rows[i := row.(status := Dispatching, lease := Some(Iso(leaseEnd)),
                                 retryCount := row.retryCount + 1)],
                LedgerFollows(t.ledger, row.payload.eventId, Dispatching)),
         Some(i))
  }

  /** A row becomes done, and its ledger row with it. */
  function Consumed(t: Tables, i: nat): (r: Tables)
    requires i < |t.rows|
  {
    Tables(t.rows[i := t.rows[i].(status := Done, lease := None)],
           LedgerFollows(t.ledger, t.rows[i].payload.eventId, Done))
  }

  function ConsumeHead(t: Tables, conversation: Conversation, expected: Option<Payload>): (r: (Tables, bool)) {
    var inFlight := if expected.Some? then FirstDispatching(t.rows, conversation, expected.value) else None;
    if inFlight.Some? then (Consumed(t, inFlight.value), true)
    else
      match FirstVisible(t.rows, conversation)
      case None => (t, false)
      case Some(i) =>
        if expected.Some? && t.rows[i].payload != expected.value then (t, false) else (Consumed(t, i), true)
  }

  function ConsumeRow(t: Tables, i: nat): (r: (Tables, bool)) {
    if i >= |t.rows| then (t, false)
    else if t.rows[i].status == Done then (t, true)
    else if t.rows[i].status != Dispatching then (t, false)
    else (Consumed(t, i), true)
  }

  function MarkRetryable(t: Tables, i: nat): (r: (Tables, bool)) {
    if i >= |t.rows| || !Unsettled(t.rows[i].status) then (t, false)
    else
      (Tables(t.rows[i := t.rows[i].(status := Retryable, lease := None)],
              LedgerFollows(t.ledger, t.rows[i].payload.eventId, Retryable)),
       true)
  }

  /** fail_event_queue_row: the ledger is written even when the queue row was settled already. */
  function FailRow(t: Tables, i: nat): (r: (Tables, bool)) {
    if i >= |t.rows| then (t, false)
    else
      var row := t.rows[i];
      (Tables(if Unsettled(row.status) then t.rows[i := row.(status := Failed, lease := None)] else t.rows,
              LedgerFails(t.ledger, row.payload.eventId)),
       Unsettled(row.status))
  }

  /** The WHERE clauses of the statements that update many rows. */
  datatype Selection = InDispatch | LeaseEndedBy(cutoff: nat) | UnsettledOf(conversation: Conversation)

  predicate Hit(selection: Selection, row: Row) {
    match selection
    case InDispatch => row.status == Dispatching
    case LeaseEndedBy(cutoff) => row.status == Dispatching && LeaseEnded(row.lease, cutoff)
    case UnsettledOf(conversation) => row.conversation == conversation && Unsettled(row.status)
  }

  /** One statement over all selected rows. */
  function Bulk(rows: seq<Row>, selection: Selection, status: Status): (r: seq<Row>)
    ensures |r| == |rows|
    ensures forall i :: 0 <= i < |rows| ==>
              r[i] == if Hit(selection, rows[i]) then rows[i].(status := status, lease := None) else rows[i]
  {
    if rows == [] then []
    else
      var last := rows[|rows| - 1];
      Bulk(rows[..|rows| - 1], selection, status)
          + [if Hit(selection, last) then last.(status := status, lease := None) else last]
  }

  function EventsOf(rows: seq<Row>, selection: Selection): (events: set<EventId>) {
    set i | 0 <= i < |rows| && Hit(selection, rows[i]) && rows[i].payload.eventId.Some? :: rows[i].payload.eventId.value
  }

  function FailSession(t: Tables, conversation: Conversation): (r: Tables) {
    var events := EventsOf(t.rows, UnsettledOf(conversation));
    Tables(Bulk(t.rows, UnsettledOf(conversation), Failed),
           map e | e in t.ledger :: if e in events && t.ledger[e] != Done then Failed else t.ledger[e])
  }

  function ResetRows(t: Tables, selection: Selection): (r: Tables) {
    var events := EventsOf(t.rows, selection);
    Tables(Bulk(t.rows, selection, Retryable),
           map e | e in t.ledger :: if e in events && !Settled(t.ledger[e]) then Retryable else t.ledger[e])
  }

  /** The number of rows in dispatch. */
  function CountDispatching(rows: seq<Row>): (n: nat) {
    if rows == [] then 0
    else CountDispatching(rows[..|rows| - 1]) + if rows[|rows| - 1].status == Dispatching then 1 else 0
  }

  lemma CountSnoc(rows: seq<Row>, i: nat)
    requires i < |rows|
    ensures CountDispatching(rows[..i + 1])
            == CountDispatching(rows[..i]) + if rows[i].status == Dispatching then 1 else 0
  {
    assert rows[..i + 1][..i] == rows[..i];
  }

  function ResetExpired(t: Tables, cutoff: nat): (r: Tables) {
    ResetRows(t, LeaseEndedBy(cutoff))
  }

  function ResetDispatching(t: Tables): (r: Tables) {
    ResetRows(t, InDispatch)
  }

  function ClaimEvent(t: Tables, event: EventId): (r: (Tables, bool)) {
    if event in t.ledger then (t, false) else (t.(ledger := t.ledger[event := Received]), true)
  }

  /** What list_visible_event_queue returns. */
  function VisibleQueue(rows: seq<Row>, c: Conversation): (items: seq<Payload>) {
    if rows == [] then []
    else
      var last := rows[|rows| - 1];
      VisibleQueue(rows[..|rows| - 1], c) +
      if last.conversation == c && Visible(last.status) then [last.payload] else []
  }

  /** The row an item ends up in: the one that carries its event already, or a new one. */
  function PlaceOf(rows: seq<Row>, item: Payload): (id: nat) {
    var found := if item.eventId.Some? then FindEvent(rows, item.eventId.value) else None;
    if found.Some? then found.value else |rows|
  }

  /** The loop of replace_event_queue: put the items in one by one and remember their rows. */
  function PutAll(t: Tables, items: seq<Payload>, c: Conversation): (r: (Tables, set<nat>)) {
    if items == [] then (t, {})
    else
      var (before, kept) := PutAll(t, items[..|items| - 1], c);
      var item := items[|items| - 1];
      (Append(before, item, c), kept + {PlaceOf(before.rows, item)})
  }

  /** The last statement of replace_event_queue: visible rows that were not put in are done. */
  function Sweep(rows: seq<Row>, kept: set<nat>, c: Conversation): (r: seq<Row>)
    ensures |r| == |rows|
    ensures forall i :: 0 <= i < |rows| ==>
              r[i] == if rows[i].conversation == c && Visible(rows[i].status) && i !in kept
                      then rows[i].(status := Done) else rows[i]
  {
    seq(|rows|, i requires 0 <= i < |rows| =>
      if rows[i].conversation == c && Visible(rows[i].status) && i !in kept then rows[i].(status := Done) else rows[i])
  }

  function Replace(t: Tables, items: seq<Payload>, c: Conversation): (r: Tables) {
    if VisibleQueue(t.rows, c) == items then t
    else
      var (put, kept) := PutAll(t, items, c);
      put.(rows := Sweep(put.rows, kept, c))
  }

  /** The initial lease of a launch, as the expiry sweep sees it: ended from the first moment, unless
      it runs past midnight. */
  lemma InitialLeaseEndsSameDay(now: nat, seconds: nat)
    ensures LeaseEnded(Some(Sqlite(now + seconds * 1_000_000)), now)
            <==> (now + seconds * 1_000_000) / DAY == now / DAY
  {
    assert (now + seconds * 1_000_000) / DAY >= now / DAY;
  }

  /** The queue and ledger tables, updated in place. */
  class EventStore {
    var rows: seq<Row>
    var ledger: Ledger

    constructor ()
      ensures rows == [] && ledger == map[]
    {
      rows, ledger := [], map[];
    }

    function Snapshot(): (t: Tables)
      reads this
    {
      Tables(rows, ledger)
    }

    method FollowLedger(event: Option<EventId>, status: Status)
      modifies this`ledger
      ensures ledger == LedgerFollows(old(ledger), event, status)
    {
      if event.Some? && event.value in ledger && !Settled(ledger[event.value]) {
        ledger := ledger[event.value := status];
      }
    }

    method AppendEvent(payload: Payload, conversation: Conversation)
      modifies this
      ensures Snapshot() == Append(old(Snapshot()), payload, conversation)
    {
      var found := None;
      if payload.eventId.Some? {
        found := FindEvent(rows, payload.eventId.value);
      }
      if found.None? {
        rows := rows + [Row(conversation, payload, Queued, None, 0)];
      } else {
        var row := rows[found.value].(conversation := conversation, payload := payload);
        if !Settled(row.status) {
          row := row.(status := Queued, lease := None);
        }
        rows := rows[found.value := row];
      }
      FollowLedger(payload.eventId, Queued);
    }

    method AppendInitial(payload: Payload, conversation: Conversation, leaseEnd: nat, sessionExists: bool)
      returns (id: Option<nat>)
      modifies this
      ensures (Snapshot(), id) == AppendClaimed(old(Snapshot()), payload, conversation, leaseEnd, sessionExists)
    {
      if sessionExists {
        return None;
      }
      if payload.eventId.Some? && FindEvent(rows, payload.eventId.value).Some? {
        return None;
      }
      id := Some(|rows|);
      rows := rows + [Row(conversation, payload, Dispatching, Some(Sqlite(leaseEnd)), 1)];
      FollowLedger(payload.eventId, Dispatching);
    }

    method ClaimQueueHead(conversation: Conversation, expected: Payload, leaseEnd: nat) returns (id: Option<nat>)
      modifies this
      ensures (Snapshot(), id) == ClaimHead(old(Snapshot()), conversation, expected, leaseEnd)
    {
      id := FirstVisible(rows, conversation);
      if id.None? || rows[id.value].payload != expected {
        return None;
      }
      var row := rows[id.value];
      rows := rows[id.value := row.(status := Dispatching, lease := Some(Iso(leaseEnd)),
                                    retryCount := row.retryCount + 1)];
      FollowLedger(row.payload.eventId, Dispatching);
    }

    method ConsumeQueueRow(i: nat) returns (ok: bool)
      modifies this
      ensures (Snapshot(), ok) == ConsumeRow(old(Snapshot()), i)
    {
      if i >= |rows| {
        return false;
      }
      var row := rows[i];
      if row.status == Done {
        return true;
      }
      if row.status != Dispatching {
        return false;
      }
      rows := rows[i := row.(status := Done, lease := None)];
      FollowLedger(row.payload.eventId, Done);
      return true;
    }

    method ConsumeQueueHead(conversation: Conversation, expected: Option<Payload>) returns (ok: bool)
      modifies this
      ensures (Snapshot(), ok) == ConsumeHead(old(Snapshot()), conversation, expected)
    {
      var found := None;
      if expected.Some? {
        found := FirstDispatching(rows, conversation, expected.value);
      }
      if found.None? {
        found := FirstVisible(rows, conversation);
        if found.None? || (expected.Some? && rows[found.value].payload != expected.value) {
          return false;
        }
      }
      var row := rows[found.value];
      rows := rows[found.value := row.(status := Done, lease := None)];
      FollowLedger(row.payload.eventId, Done);
      return true;
    }

    method MarkRowRetryable(i: nat) returns (changed: bool)
      modifies this
      ensures (Snapshot(), changed) == MarkRetryable(old(Snapshot()), i)
    {
      if i >= |rows| {
        return false;
      }
      var row := rows[i];
      changed := Unsettled(row.status);
      if changed {
        rows := rows[i := row.(status := Retryable, lease := None)];
        FollowLedger(row.payload.eventId, Retryable);
      }
    }

    method FailQueueRow(i: nat) returns (changed: bool)
      modifies this
      ensures (Snapshot(), changed) == FailRow(old(Snapshot()), i)
    {
      if i >= |rows| {
        return false;
      }
      var row := rows[i];
      changed := Unsettled(row.status);
      if changed {
        rows := rows[i := row.(status := Failed, lease := None)];
      }
      var event := row.payload.eventId;
      if event.Some? && event.value in ledger && ledger[event.value] != Done {
        ledger := ledger[event.value := Failed];
      }
    }

    method ResetDispatchingRows() returns (count: nat)
      modifies this
      ensures Snapshot() == ResetDispatching(old(Snapshot()))
      ensures count == CountDispatching(old(rows))
    {
      var events := EventsOf(rows, InDispatch);
      count := ResetRowsInPlace();
      ledger := map e | e in ledger :: if e in events && !Settled(ledger[e]) then Retryable else ledger[e];
    }

    /** Its UPDATE statement, with the number of rows it changed. */
    method ResetRowsInPlace() returns (count: nat)
      modifies this`rows
      ensures rows == Bulk(old(rows), InDispatch, Retryable) && count == CountDispatching(old(rows))
    {
      ghost var was, target := rows, Bulk(rows, InDispatch, Retryable);
      count := 0;
      var i := 0;
      while i < |rows|
        invariant 0 <= i <= |rows| == |was| == |target|
        invariant forall j :: i <= j < |rows| ==> rows[j] == was[j]
        invariant forall j :: 0 <= j < i ==> rows[j] == target[j]
        invariant count == CountDispatching(was[..i])
      {
        CountSnoc(was, i);
        if rows[i].status == Dispatching {
          rows := rows[i := rows[i].(status := Retryable, lease := None)];
          count := count + 1;
        }
        i := i + 1;
      }
      assert rows == target && was[..i] == was;
    }

    method ReplaceQueue(items: seq<Payload>, conversation: Conversation)
      modifies this
      ensures Snapshot() == Replace(old(Snapshot()), items, conversation)
    {
      if VisibleQueue(rows, conversation) == items {
        return;
      }
      var retained := PutItems(items, conversation);
      SweepRows(retained, conversation);
    }

    /** The first part of replace_event_queue. */
    method PutItems(items: seq<Payload>, conversation: Conversation) returns (retained: set<nat>)
      modifies this
      ensures (Snapshot(), retained) == PutAll(old(Snapshot()), items, conversation)
    {
      ghost var was := Snapshot();
      retained := {};
      var n := 0;
      while n < |items|
        invariant 0 <= n <= |items|
        invariant (Snapshot(), retained) == PutAll(was, items[..n], conversation)
      {
        assert items[..n + 1][..n] == items[..n];
        retained := retained + {PlaceOf(rows, items[n])};
        AppendEvent(items[n], conversation);
        n := n + 1;
      }
      assert items[..n] == items;
    }

    /** Its last statement. */
    method SweepRows(retained: set<nat>, conversation: Conversation)
      modifies this`rows
      ensures rows == Sweep(old(rows), retained, conversation)
    {
      ghost var put := rows;
      var i := 0;
      while i < |rows|
        invariant 0 <= i <= |rows| == |put|
        invariant forall j :: i <= j < |rows| ==> rows[j] == put[j]
        invariant forall j :: 0 <= j < i ==> rows[j] == Sweep(put, retained, conversation)[j]
      {
        if rows[i].conversation == conversation && Visible(rows[i].status) && i !in retained {
          rows := rows[i := rows[i].(status := Done)];
        }
        i := i + 1;
      }
      assert rows == Sweep(put, retained, conversation);
    }
  }
}
