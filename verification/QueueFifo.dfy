/** The durable queue refines a FIFO sequence per conversation, across crashes. */
module QueueFifo {
  import opened Wrappers
  import opened EventQueue

  /** An unsettled item in first-append order; it is hidden from the queue while it is dispatched. */
  datatype Entry = Entry(id: nat, payload: Payload, inFlight: bool)

  function Cell(row: Row, id: nat, c: Conversation): (cell: seq<Entry>) {
    if row.conversation == c && Unsettled(row.status)
    then [Entry(id, row.payload, row.status == Dispatching)] else []
  }

  /** The abstract queue of a conversation. */
  function Backlog(rows: seq<Row>, c: Conversation): (b: seq<Entry>) {
    if rows == [] then []
    else Backlog(rows[..|rows| - 1], c) + Cell(rows[|rows| - 1], |rows| - 1, c)
  }

  function BacklogFrom(rows: seq<Row>, start: nat, c: Conversation): (b: seq<Entry>)
    requires start <= |rows|
    decreases |rows| - start
  {
    if start == |rows| then [] else Cell(rows[start], start, c) + BacklogFrom(rows, start + 1, c)
  }

  /** The items of the abstract queue that wait, in order. */
  function Waiting(b: seq<Entry>): (items: seq<Payload>) {
    if b == [] then []
    else Waiting(b[..|b| - 1]) + if b[|b| - 1].inFlight then [] else [b[|b| - 1].payload]
  }

  function Payloads(b: seq<Entry>): (items: seq<Payload>)
    ensures |items| == |b|
  {
    seq(|b|, i requires 0 <= i < |b| => b[i].payload)
  }

  // ---------------------------------------------------------------- the abstract operations

  function Push(b: seq<Entry>, id: nat, payload: Payload): (r: seq<Entry>) {
    b + [Entry(id, payload, false)]
  }

  /** The item changes in place: taken into dispatch, given back, or given a new payload. */
  function Mark(b: seq<Entry>, id: nat, payload: Payload, inFlight: bool): (r: seq<Entry>)
    ensures |r| == |b|
  {
    seq(|b|, i requires 0 <= i < |b| => if b[i].id == id then Entry(id, payload, inFlight) else b[i])
  }

  /** The item leaves the queue; the others keep their order. */
  function Drop(b: seq<Entry>, id: nat): (r: seq<Entry>) {
    if b == [] then []
    else Drop(b[..|b| - 1], id) + if b[|b| - 1].id == id then [] else [b[|b| - 1]]
  }

  // ---------------------------------------------------------------- sequence lemmas

  lemma {:induction false} WaitingAppend(left: seq<Entry>, right: seq<Entry>)
    ensures Waiting(left + right) == Waiting(left) + Waiting(right)
  {
    if right == [] {
      assert left + right == left;
    } else {
      WaitingAppend(left, right[..|right| - 1]);
      assert (left + right)[..|left + right| - 1] == left + right[..|right| - 1];
    }
  }

  lemma {:induction false} DropAppend(left: seq<Entry>, right: seq<Entry>, id: nat)
    ensures Drop(left + right, id) == Drop(left, id) + Drop(right, id)
  {
    if right == [] {
      assert left + right == left;
    } else {
      DropAppend(left, right[..|right| - 1], id);
      assert (left + right)[..|left + right| - 1] == left + right[..|right| - 1];
    }
  }

  lemma {:induction false} DropAbsent(b: seq<Entry>, id: nat)
    requires forall k :: 0 <= k < |b| ==> b[k].id != id
    ensures Drop(b, id) == b
  {
    if b != [] {
      DropAbsent(b[..|b| - 1], id);
    }
  }

  lemma {:induction false} BacklogIds(rows: seq<Row>, c: Conversation)
    ensures forall k :: 0 <= k < |Backlog(rows, c)| ==> Backlog(rows, c)[k].id < |rows|
  {
    if rows != [] {
      BacklogIds(rows[..|rows| - 1], c);
    }
  }

  lemma {:induction false} BacklogFromIds(rows: seq<Row>, start: nat, c: Conversation)
    requires start <= |rows|
    ensures forall k :: 0 <= k < |BacklogFrom(rows, start, c)| ==> BacklogFrom(rows, start, c)[k].id >= start
    decreases |rows| - start
  {
    if start < |rows| {
      BacklogFromIds(rows, start + 1, c);
    }
  }

  lemma BacklogSnoc(rows: seq<Row>, row: Row, c: Conversation)
    ensures Backlog(rows + [row], c) == Backlog(rows, c) + Cell(row, |rows|, c)
  {
    assert (rows + [row])[..|rows|] == rows;
  }

  lemma PrefixSnoc(rows: seq<Row>, i: nat)
    requires i < |rows|
    ensures rows[..i + 1] == rows[..i] + [rows[i]]
  {
  }

  lemma Regroup(left: seq<Entry>, cell: seq<Entry>, right: seq<Entry>)
    ensures left + cell + right == left + (cell + right)
  {
  }

  lemma {:induction false} BacklogSplit(rows: seq<Row>, i: nat, c: Conversation)
    requires i <= |rows|
    ensures Backlog(rows, c) == Backlog(rows[..i], c) + BacklogFrom(rows, i, c)
    decreases |rows| - i
  {
    if i == |rows| {
      assert rows[..i] == rows;
    } else {
      var left, cell, right := Backlog(rows[..i], c), Cell(rows[i], i, c), BacklogFrom(rows, i + 1, c);
      BacklogSplit(rows, i + 1, c);
      BacklogSnoc(rows[..i], rows[i], c);
      PrefixSnoc(rows, i);
      Regroup(left, cell, right);
    }
  }

  lemma {:induction false} BacklogFromFrame(rows: seq<Row>, other: seq<Row>, start: nat, c: Conversation)
    requires |rows| == |other| && start <= |rows| && rows[start..] == other[start..]
    ensures BacklogFrom(rows, start, c) == BacklogFrom(other, start, c)
    decreases |rows| - start
  {
    if start < |rows| {
      assert rows[start] == rows[start..][0] && other[start] == other[start..][0];
      assert rows[start + 1..] == rows[start..][1..] && other[start + 1..] == other[start..][1..];
      BacklogFromFrame(rows, other, start + 1, c);
    }
  }

  lemma CellSplit(rows: seq<Row>, i: nat, c: Conversation)
    requires i < |rows|
    ensures Backlog(rows, c) == Backlog(rows[..i], c) + Cell(rows[i], i, c) + BacklogFrom(rows, i + 1, c)
  {
    var left, cell, right := Backlog(rows[..i], c), Cell(rows[i], i, c), BacklogFrom(rows, i + 1, c);
    BacklogSplit(rows, i, c);
    assert left + (cell + right) == left + cell + right;
  }

  /** Updating one row changes one cell of the abstract queue, between the earlier and the later ones. */
  lemma UpdateOneCell(rows: seq<Row>, i: nat, row: Row, c: Conversation) returns (left: seq<Entry>, right: seq<Entry>)
    requires i < |rows|
    ensures Backlog(rows, c) == left + Cell(rows[i], i, c) + right
    ensures Backlog(rows[i := row], c) == left + Cell(row, i, c) + right
    ensures forall k :: 0 <= k < |left| ==> left[k].id < i
    ensures forall k :: 0 <= k < |right| ==> right[k].id > i
  {
    var updated := rows[i := row];
    left, right := Backlog(rows[..i], c), BacklogFrom(rows, i + 1, c);
    CellSplit(rows, i, c);
    assert Backlog(updated, c) == left + Cell(row, i, c) + right by {
      CellSplit(updated, i, c);
      assert updated[..i] == rows[..i];
      assert updated[i + 1..] == rows[i + 1..];
      BacklogFromFrame(rows, updated, i + 1, c);
    }
    BacklogIds(rows[..i], c);
    BacklogFromIds(rows, i + 1, c);
  }

  /** The row stays unsettled: its entry is rewritten where it stands. */
  lemma UpdateIsMark(rows: seq<Row>, i: nat, row: Row, c: Conversation)
    requires i < |rows| && rows[i].conversation == row.conversation
    requires Unsettled(rows[i].status) && Unsettled(row.status)
    ensures Backlog(rows[i := row], c) ==
            if row.conversation == c then Mark(Backlog(rows, c), i, row.payload, row.status == Dispatching)
            else Backlog(rows, c)
  {
    var left, right := UpdateOneCell(rows, i, row, c);
  }

  lemma DropCell(left: seq<Entry>, cell: seq<Entry>, right: seq<Entry>, id: nat)
    requires |cell| <= 1 && (cell != [] ==> cell[0].id == id)
    requires forall k :: 0 <= k < |left| ==> left[k].id < id
    requires forall k :: 0 <= k < |right| ==> right[k].id > id
    ensures Drop(left + cell + right, id) == left + right
  {
    DropAppend(left + cell, right, id);
    DropAppend(left, cell, id);
    DropAbsent(left, id);
    DropAbsent(right, id);
    DropOne(cell, id);
    assert left + [] == left;
  }

  lemma DropOne(cell: seq<Entry>, id: nat)
    requires |cell| <= 1 && (cell != [] ==> cell[0].id == id)
    ensures Drop(cell, id) == []
  {
    if cell != [] {
      assert cell[..0] == [];
    }
  }

  /** The row is settled: its entry leaves, or there was none. */
  lemma UpdateIsDrop(rows: seq<Row>, i: nat, row: Row, c: Conversation)
    requires i < |rows| && Settled(row.status)
    ensures Backlog(rows[i := row], c) == Drop(Backlog(rows, c), i)
    ensures Settled(rows[i].status) ==> Backlog(rows[i := row], c) == Backlog(rows, c)
  {
    var left, right := UpdateOneCell(rows, i, row, c);
    SettledCell(row, i, c);
    DropCell(left, Cell(rows[i], i, c), right, i);
    assert left + [] + right == left + right;
    if Settled(rows[i].status) {
      SettledCell(rows[i], i, c);
    }
  }

  lemma SettledCell(row: Row, id: nat, c: Conversation)
    requires Settled(row.status)
    ensures Cell(row, id, c) == []
  {
  }

  lemma WaitingCell(row: Row, id: nat, c: Conversation)
    ensures Waiting(Cell(row, id, c)) == if row.conversation == c && Visible(row.status) then [row.payload] else []
  {
    var cell := Cell(row, id, c);
    if cell != [] {
      assert cell[..0] == [];
    }
  }

  lemma {:induction false} VisibleIsWaiting(rows: seq<Row>, c: Conversation)
    ensures VisibleQueue(rows, c) == Waiting(Backlog(rows, c))
  {
    if rows != [] {
      var before, last := rows[..|rows| - 1], rows[|rows| - 1];
      VisibleIsWaiting(before, c);
      WaitingCell(last, |before|, c);
      WaitingAppend(Backlog(before, c), Cell(last, |before|, c));
      assert Backlog(rows, c) == Backlog(before, c) + Cell(last, |before|, c);
    }
  }

  // ---------------------------------------------------------------- one operation at a time

  /** A new event, or an item without one, goes to the back of its conversation. */
  lemma AppendPushesBack(t: Tables, payload: Payload, conversation: Conversation, c: Conversation)
    requires payload.eventId.None? || FindEvent(t.rows, payload.eventId.value).None?
    ensures var rows := Append(t, payload, conversation).rows;
            && Backlog(rows, c) ==
               (if c == conversation then Push(Backlog(t.rows, c), |t.rows|, payload) else Backlog(t.rows, c))
            && VisibleQueue(rows, c) == VisibleQueue(t.rows, c) + (if c == conversation then [payload] else [])
  {
    var rows := Append(t, payload, conversation).rows;
    assert rows[..|t.rows|] == t.rows;
  }

  /** The event is in the queue already. */
  predicate Known(t: Tables, payload: Payload) {
    exists i :: 0 <= i < |t.rows| && payload.eventId.Some? && t.rows[i].payload.eventId == payload.eventId
  }

  /** The first item of a conversation goes to the back of its backlog while it is being launched: no claim can get it
      before it is given back. Nothing is written when the session exists or the event is in the queue already. */
  lemma InitialGoesInFlight(t: Tables, payload: Payload, conversation: Conversation, leaseEnd: nat, sessionExists: bool,
                            c: Conversation)
    ensures var (after, id) := AppendClaimed(t, payload, conversation, leaseEnd, sessionExists);
            && (id.None? <==> sessionExists || Known(t, payload))
            && (id.None? ==> after == t)
            && (id.Some? ==>
                  && id.value == |t.rows|
                  && Backlog(after.rows, c) ==
                     Backlog(t.rows, c) + (if c == conversation then [Entry(|t.rows|, payload, true)] else [])
                  && VisibleQueue(after.rows, c) == VisibleQueue(t.rows, c))
  {
    var (after, id) := AppendClaimed(t, payload, conversation, leaseEnd, sessionExists);
    if id.Some? {
      assert after.rows[..|t.rows|] == t.rows;
    }
  }

  /** It takes its ledger record, unless that is settled, into dispatch with it, and touches no other. */
  lemma InitialLedger(t: Tables, payload: Payload, conversation: Conversation, leaseEnd: nat, sessionExists: bool,
                      event: EventId)
    requires event in t.ledger
    ensures var (after, id) := AppendClaimed(t, payload, conversation, leaseEnd, sessionExists);
            && after.ledger.Keys == t.ledger.Keys
            && after.ledger[event] ==
               if id.Some? && payload.eventId == Some(event) && !Settled(t.ledger[event])
               then Dispatching else t.ledger[event]
  {
  }

  /** A repeated event does not move: its entry is rewritten where it stands and is visible again. */
  lemma RepeatedAppendStaysInPlace(t: Tables, payload: Payload, conversation: Conversation, c: Conversation, i: nat)
    requires payload.eventId.Some? && FindEvent(t.rows, payload.eventId.value) == Some(i)
    requires Unsettled(t.rows[i].status) && t.rows[i].conversation == conversation
    ensures Backlog(Append(t, payload, conversation).rows, c) ==
            if c == conversation then Mark(Backlog(t.rows, c), i, payload, false) else Backlog(t.rows, c)
  {
    UpdateIsMark(t.rows, i, Append(t, payload, conversation).rows[i], c);
  }

  /** A repeated event that was settled stays settled and invisible. */
  lemma RepeatedAppendRevivesNothing(t: Tables, payload: Payload, conversation: Conversation, c: Conversation, i: nat)
    requires payload.eventId.Some? && FindEvent(t.rows, payload.eventId.value) == Some(i)
    requires Settled(t.rows[i].status)
    ensures var after := Append(t, payload, conversation);
            && Backlog(after.rows, c) == Backlog(t.rows, c)
            && after.rows[i].status == t.rows[i].status
  {
    UpdateIsDrop(t.rows, i, Append(t, payload, conversation).rows[i], c);
  }

  /** A repeated event in another conversation takes the rank of its age there. */
  lemma RepeatedAppendMovesByAge(t: Tables, payload: Payload, conversation: Conversation, i: nat)
    returns (left: seq<Entry>, right: seq<Entry>)
    requires payload.eventId.Some? && FindEvent(t.rows, payload.eventId.value) == Some(i)
    requires Unsettled(t.rows[i].status) && t.rows[i].conversation != conversation
    ensures Backlog(t.rows, conversation) == left + right
    ensures Backlog(Append(t, payload, conversation).rows, conversation) == left + [Entry(i, payload, false)] + right
    ensures forall k :: 0 <= k < |left| ==> left[k].id < i
    ensures forall k :: 0 <= k < |right| ==> right[k].id > i
  {
    left, right := UpdateOneCell(t.rows, i, Append(t, payload, conversation).rows[i], conversation);
    assert left + [] + right == left + right;
  }

  /** The first waiting entry of a backlog and what is left when it is taken. */
  lemma TakingFront(left: seq<Entry>, id: nat, payload: Payload, right: seq<Entry>)
    requires Waiting(left) == []
    ensures var before := left + [Entry(id, payload, false)] + right;
            var after := left + [Entry(id, payload, true)] + right;
            Waiting(before) == [payload] + Waiting(after)
  {
    var waiting, taken := [Entry(id, payload, false)], [Entry(id, payload, true)];
    assert waiting[..0] == [] && taken[..0] == [];
    WaitingAppend(left + waiting, right);
    WaitingAppend(left, waiting);
    WaitingAppend(left + taken, right);
    WaitingAppend(left, taken);
  }

  lemma {:induction false} NothingVisibleBefore(rows: seq<Row>, c: Conversation)
    requires forall k :: 0 <= k < |rows| ==> !(rows[k].conversation == c && Visible(rows[k].status))
    ensures Waiting(Backlog(rows, c)) == []
  {
    VisibleIsWaiting(rows, c);
    if rows != [] {
      NothingVisibleBefore(rows[..|rows| - 1], c);
      VisibleIsWaiting(rows[..|rows| - 1], c);
    }
  }

  /** The front of the queue is the first visible row; taking it leaves the rest. */
  lemma FrontIsFirstVisible(rows: seq<Row>, c: Conversation, i: nat, row: Row)
    requires FirstVisible(rows, c) == Some(i)
    requires row.conversation == c && row.status == Dispatching && row.payload == rows[i].payload
    ensures VisibleQueue(rows, c) == [row.payload] + VisibleQueue(rows[i := row], c)
  {
    var left, right := UpdateOneCell(rows, i, row, c);
    assert left == Backlog(rows[..i], c) by {
      LeftIsEarlier(rows, i, c, left, right);
    }
    assert Waiting(left) == [] by {
      NothingVisibleBefore(rows[..i], c);
    }
    TakingFront(left, i, row.payload, right);
    VisibleIsWaiting(rows, c);
    VisibleIsWaiting(rows[i := row], c);
  }

  /** A claim succeeds exactly when the expected item is at the front, and takes only that. */
  lemma ClaimTakesFront(t: Tables, c: Conversation, expected: Payload, leaseEnd: nat)
    ensures var (after, id) := ClaimHead(t, c, expected, leaseEnd);
            var queue := VisibleQueue(t.rows, c);
            && (id.Some? <==> queue != [] && queue[0] == expected)
            && (id.None? ==> after == t)
            && (id.Some? ==>
                  && VisibleQueue(after.rows, c) == queue[1..]
                  && Backlog(after.rows, c) == Mark(Backlog(t.rows, c), id.value, expected, true))
  {
    var found := FirstVisible(t.rows, c);
    if found.None? {
      NothingVisibleBefore(t.rows, c);
      VisibleIsWaiting(t.rows, c);
    } else {
      var i := found.value;
      var row := t.rows[i].(status := Dispatching, lease := Some(Iso(leaseEnd)),
                            retryCount := t.rows[i].retryCount + 1);
      FrontIsFirstVisible(t.rows, c, i, row);
      UpdateIsMark(t.rows, i, row, c);
      ClaimedRows(t, c, expected, leaseEnd, i);
    }
  }

  lemma ClaimedRows(t: Tables, c: Conversation, expected: Payload, leaseEnd: nat, i: nat)
    requires FirstVisible(t.rows, c) == Some(i)
    ensures ClaimHead(t, c, expected, leaseEnd).1 == if t.rows[i].payload == expected then Some(i) else None
    ensures t.rows[i].payload == expected ==>
              ClaimHead(t, c, expected, leaseEnd).0.rows
              == t.rows[i := t.rows[i].(status := Dispatching, lease := Some(Iso(leaseEnd)),
                                        retryCount := t.rows[i].retryCount + 1)]
    ensures t.rows[i].payload != expected ==> ClaimHead(t, c, expected, leaseEnd).0 == t
  {
  }

  /** The split of a backlog at an id is unique. */
  lemma LeftIsEarlier(rows: seq<Row>, i: nat, c: Conversation, left: seq<Entry>, right: seq<Entry>)
    requires i < |rows| && Cell(rows[i], i, c) != []
    requires Backlog(rows, c) == left + Cell(rows[i], i, c) + right
    requires forall k :: 0 <= k < |left| ==> left[k].id < i
    ensures left == Backlog(rows[..i], c)
  {
    BacklogSplit(rows, i, c);
    BacklogIds(rows[..i], c);
    var early, cell := Backlog(rows[..i], c), Cell(rows[i], i, c);
    var whole := Backlog(rows, c);
    assert whole[|left|].id == i && whole[|early|].id == i;
    assert |left| == |early|;
    assert left == whole[..|left|] && early == whole[..|early|];
  }

  /** Giving an item back puts it where it was, visible again. */
  lemma RetryReinsertsInPlace(t: Tables, i: nat, c: Conversation)
    requires i < |t.rows|
    ensures var (after, changed) := MarkRetryable(t, i);
            && (changed <==> Unsettled(t.rows[i].status))
            && Backlog(after.rows, c) ==
               if changed && t.rows[i].conversation == c
               then Mark(Backlog(t.rows, c), i, t.rows[i].payload, false) else Backlog(t.rows, c)
  {
    if Unsettled(t.rows[i].status) {
      UpdateIsMark(t.rows, i, t.rows[i].(status := Retryable, lease := None), c);
    }
  }

  /** Completing a dispatched row removes its entry; completing it again changes nothing. */
  lemma ConsumeDropsDispatched(t: Tables, i: nat, c: Conversation)
    requires i < |t.rows|
    ensures var (after, ok) := ConsumeRow(t, i);
            && (ok <==> t.rows[i].status == Dispatching || t.rows[i].status == Done)
            && Backlog(after.rows, c) == (if ok then Drop(Backlog(t.rows, c), i) else Backlog(t.rows, c))
            && ConsumeRow(after, i).1 == ok
            && (ok ==> ConsumeRow(after, i).0 == after)
  {
    if t.rows[i].status == Dispatching || t.rows[i].status == Done {
      UpdateIsDrop(t.rows, i, t.rows[i].(status := Done, lease := None), c);
    }
  }

  lemma FailDrops(t: Tables, i: nat, c: Conversation)
    requires i < |t.rows| && (Unsettled(t.rows[i].status) || Settled(t.rows[i].status))
    ensures Backlog(FailRow(t, i).0.rows, c) == Drop(Backlog(t.rows, c), i)
    ensures FailRow(t, i).1 <==> Unsettled(t.rows[i].status)
  {
    var row := if Settled(t.rows[i].status) then t.rows[i] else t.rows[i].(status := Failed, lease := None);
    assert FailRow(t, i).0.rows == t.rows[i := row];
    UpdateIsDrop(t.rows, i, row, c);
  }

  /** Consuming by item removes one entry: that of the first dispatched row with the item, or else the front of the
      visible queue, which must be the item when one is given. Without such a row nothing changes. */
  lemma ConsumeHeadDrops(t: Tables, conversation: Conversation, expected: Option<Payload>)
    ensures var (after, ok) := ConsumeHead(t, conversation, expected);
            var inFlight := if expected.Some? then FirstDispatching(t.rows, conversation, expected.value) else None;
            var front := FirstVisible(t.rows, conversation);
            var i := if inFlight.Some? then inFlight else front;
            && (ok <==> inFlight.Some?
                        || (front.Some? && (expected.Some? ==> t.rows[front.value].payload == expected.value)))
            && (!ok ==> after == t)
            && (ok ==> forall c :: Backlog(after.rows, c) == Drop(Backlog(t.rows, c), i.value))
  {
    var inFlight := if expected.Some? then FirstDispatching(t.rows, conversation, expected.value) else None;
    var i := if inFlight.Some? then inFlight else FirstVisible(t.rows, conversation);
    if ConsumeHead(t, conversation, expected).1 {
      forall c ensures Backlog(Consumed(t, i.value).rows, c) == Drop(Backlog(t.rows, c), i.value) {
        UpdateIsDrop(t.rows, i.value, t.rows[i.value].(status := Done, lease := None), c);
      }
    }
  }

  function FailedCell(row: Row, conversation: Conversation): (r: Row) {
    if Hit(UnsettledOf(conversation), row) then row.(status := Failed, lease := None) else row
  }

  lemma FailingCell(row: Row, conversation: Conversation, id: nat, c: Conversation)
    ensures Cell(FailedCell(row, conversation), id, c) == if c == conversation then [] else Cell(row, id, c)
  {
  }

  lemma FailingSnoc(rows: seq<Row>, conversation: Conversation)
    requires rows != []
    ensures Bulk(rows, UnsettledOf(conversation), Failed) ==
            Bulk(rows[..|rows| - 1], UnsettledOf(conversation), Failed) + [FailedCell(rows[|rows| - 1], conversation)]
  {
  }

  /** Failing a session empties its queue and leaves the queues of all others. */
  lemma FailSessionEmpties(t: Tables, conversation: Conversation, c: Conversation)
    ensures Backlog(FailSession(t, conversation).rows, c) == if c == conversation then [] else Backlog(t.rows, c)
  {
    BulkFailEmpties(t.rows, conversation, c);
  }

  lemma {:induction false} BulkFailEmpties(rows: seq<Row>, conversation: Conversation, c: Conversation)
    ensures Backlog(Bulk(rows, UnsettledOf(conversation), Failed), c) ==
            if c == conversation then [] else Backlog(rows, c)
  {
    if rows != [] {
      var before, last := rows[..|rows| - 1], rows[|rows| - 1];
      BulkFailEmpties(before, conversation, c);
      FailingSnoc(rows, conversation);
      FailingCell(last, conversation, |before|, c);
      BacklogSnoc(Bulk(before, UnsettledOf(conversation), Failed), FailedCell(last, conversation), c);
    }
  }

  lemma PayloadsAppend(left: seq<Entry>, right: seq<Entry>)
    ensures Payloads(left + right) == Payloads(left) + Payloads(right)
  {
  }

  lemma WaitingSnoc(b: seq<Entry>, cell: seq<Entry>)
    requires |cell| <= 1 && (cell != [] ==> !cell[0].inFlight)
    ensures Waiting(b + cell) == Waiting(b) + Payloads(cell)
  {
    WaitingAppend(b, cell);
    if cell != [] {
      assert cell[..0] == [];
    }
  }

  function Reset(row: Row, selection: Selection): (r: Row) {
    if Hit(selection, row) then row.(status := Retryable, lease := None) else row
  }

  lemma BulkSnoc(rows: seq<Row>, selection: Selection)
    requires rows != []
    ensures Bulk(rows, selection, Retryable) ==
            Bulk(rows[..|rows| - 1], selection, Retryable) + [Reset(rows[|rows| - 1], selection)]
  {
  }

  lemma ResetKeepsCell(row: Row, selection: Selection, id: nat, c: Conversation)
    requires !selection.UnsettledOf?
    ensures Payloads(Cell(Reset(row, selection), id, c)) == Payloads(Cell(row, id, c))
    ensures selection.InDispatch? ==>
              forall k :: 0 <= k < |Cell(Reset(row, selection), id, c)| ==>
                  !Cell(Reset(row, selection), id, c)[k].inFlight
  {
  }

  /** Resetting rows keeps every entry where it is. */
  lemma {:induction false} ResetKeepsBacklog(rows: seq<Row>, selection: Selection, c: Conversation)
    requires !selection.UnsettledOf?
    ensures Payloads(Backlog(Bulk(rows, selection, Retryable), c)) == Payloads(Backlog(rows, c))
  {
    if rows != [] {
      var before, last, id := rows[..|rows| - 1], rows[|rows| - 1], |rows| - 1;
      var early, reset := Bulk(before, selection, Retryable), Reset(last, selection);
      ResetKeepsBacklog(before, selection, c);
      BulkSnoc(rows, selection);
      BacklogSnoc(early, reset, c);
      PayloadsAppend(Backlog(early, c), Cell(reset, id, c));
      PayloadsAppend(Backlog(before, c), Cell(last, id, c));
      ResetKeepsCell(last, selection, id, c);
    }
  }

  lemma {:induction false} ReclaimedBacklogWaits(rows: seq<Row>, c: Conversation)
    ensures Waiting(Backlog(Bulk(rows, InDispatch, Retryable), c)) == Payloads(Backlog(rows, c))
  {
    if rows != [] {
      var before, last, id := rows[..|rows| - 1], rows[|rows| - 1], |rows| - 1;
      var early, reset := Bulk(before, InDispatch, Retryable), Reset(last, InDispatch);
      ReclaimedBacklogWaits(before, c);
      BulkSnoc(rows, InDispatch);
      BacklogSnoc(early, reset, c);
      ResetKeepsCell(last, InDispatch, id, c);
      WaitingSnoc(Backlog(early, c), Cell(reset, id, c));
      PayloadsAppend(Backlog(before, c), Cell(last, id, c));
    }
  }

  /** A claimed item stays hidden from every sweep before its lease has ended, and no longer. */
  lemma ClaimHoldsUntilLeaseEnds(t: Tables, c: Conversation, expected: Payload, leaseEnd: nat, cutoff: nat)
    requires ClaimHead(t, c, expected, leaseEnd).1.Some?
    ensures var (after, id) := ClaimHead(t, c, expected, leaseEnd);
            var swept := ResetExpired(after, cutoff).rows[id.value];
            swept == if cutoff < leaseEnd then after.rows[id.value]
                     else after.rows[id.value].(status := Retryable, lease := None)
  {
  }

  /** A first item is released by the first sweep on the day its lease ends or later: its lease end is not ISO text. */
  lemma InitialHoldsUntilThatDay(t: Tables, payload: Payload, c: Conversation, leaseEnd: nat, sessionExists: bool,
                                 cutoff: nat)
    requires AppendClaimed(t, payload, c, leaseEnd, sessionExists).1.Some?
    ensures var (after, id) := AppendClaimed(t, payload, c, leaseEnd, sessionExists);
            var swept := ResetExpired(after, cutoff).rows[id.value];
            Visible(swept.status) <==> leaseEnd / 86_400_000_000 <= cutoff / 86_400_000_000
  {
  }

  /** A sweep releases a row in dispatch when its lease has ended or it has none, and changes no other row. */
  lemma SweepReleasesIff(t: Tables, cutoff: nat, i: nat)
    requires i < |t.rows|
    ensures var row, swept := t.rows[i], ResetExpired(t, cutoff).rows[i];
            && (swept != row ==> row.status == Dispatching && swept == row.(status := Retryable, lease := None))
            && (Visible(swept.status) && !Visible(row.status) <==>
                  row.status == Dispatching
                  && match row.lease
                     case None => true
                     case Some(Iso(at)) => at <= cutoff
                     case Some(Sqlite(at)) => at / 86_400_000_000 <= cutoff / 86_400_000_000)
  {
  }

  /** A lease expiry sweep loses nothing and moves nothing. */
  lemma ExpirySweepKeepsOrder(t: Tables, cutoff: nat, c: Conversation)
    ensures Payloads(Backlog(ResetExpired(t, cutoff).rows, c)) == Payloads(Backlog(t.rows, c))
  {
    ResetKeepsBacklog(t.rows, LeaseEndedBy(cutoff), c);
  }

  /** The startup reclaim makes every unsettled item visible, in first-append order. */
  lemma ReclaimShowsWholeBacklog(t: Tables, c: Conversation)
    ensures VisibleQueue(ResetDispatching(t).rows, c) == Payloads(Backlog(t.rows, c))
  {
    ReclaimedBacklogWaits(t.rows, c);
    VisibleIsWaiting(ResetDispatching(t).rows, c);
  }
}
