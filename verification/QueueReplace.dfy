/** Replacing the visible queue of a conversation by a given list of items. */
module QueueReplace {
  import opened Wrappers
  import opened EventQueue
  import QueueRuns

  /** Event ids are unique and every row has a queue status: all that the table itself enforces. */
  predicate QueueTable(rows: seq<Row>) {
    QueueRuns.EventsUnique(rows) && forall i :: 0 <= i < |rows| ==> QueueRuns.QueueStatus(rows[i].status)
  }

  /** Items with an event carry different events. */
  predicate DistinctEvents(items: seq<Payload>) {
    forall i, j :: 0 <= i < j < |items| && items[i].eventId.Some? ==> items[i].eventId != items[j].eventId
  }

  /** The item's event was already done or failed. */
  predicate AlreadySettled(rows: seq<Row>, item: Payload) {
    item.eventId.Some? && FindEvent(rows, item.eventId.value).Some?
    && Settled(rows[FindEvent(rows, item.eventId.value).value].status)
  }

  /** The items that a replacement brings into the queue. */
  function Live(rows: seq<Row>, items: seq<Payload>): (r: seq<Payload>) {
    if items == [] then []
    else
      var last := items[|items| - 1];
      Live(rows, items[..|items| - 1]) + if AlreadySettled(rows, last) then [] else [last]
  }

  /** The visible items of a conversation among the given rows. */
  function KeptQueue(rows: seq<Row>, kept: set<nat>, c: Conversation): (items: seq<Payload>) {
    if rows == [] then []
    else KeptQueue(rows[..|rows| - 1], kept, c) + KeptCell(rows[|rows| - 1], |rows| - 1, kept, c)
  }

  function KeptCell(row: Row, id: nat, kept: set<nat>, c: Conversation): (items: seq<Payload>) {
    if row.conversation == c && Visible(row.status) && id in kept then [row.payload] else []
  }

  lemma SweepSnoc(rows: seq<Row>, kept: set<nat>, c: Conversation)
    requires rows != []
    ensures Sweep(rows, kept, c)[..|rows| - 1] == Sweep(rows[..|rows| - 1], kept, c)
  {
  }

  lemma VisibleSnoc(rows: seq<Row>, c: Conversation)
    requires rows != []
    ensures VisibleQueue(rows, c) == VisibleQueue(rows[..|rows| - 1], c) + ShownCell(rows[|rows| - 1], c)
  {
  }

  function ShownCell(row: Row, c: Conversation): (items: seq<Payload>) {
    if row.conversation == c && Visible(row.status) then [row.payload] else []
  }

  lemma {:induction false} SweepLeavesKept(rows: seq<Row>, kept: set<nat>, c: Conversation)
    ensures VisibleQueue(Sweep(rows, kept, c), c) == KeptQueue(rows, kept, c)
  {
    if rows != [] {
      var last := |rows| - 1;
      SweepLeavesKept(rows[..last], kept, c);
      SweepSnoc(rows, kept, c);
      VisibleSnoc(Sweep(rows, kept, c), c);
      assert ShownCell(Sweep(rows, kept, c)[last], c) == KeptCell(rows[last], last, kept, c);
    }
  }

  lemma {:induction false} KeptQueueIgnores(rows: seq<Row>, kept: set<nat>, id: nat, c: Conversation)
    requires id >= |rows|
    ensures KeptQueue(rows, kept + {id}, c) == KeptQueue(rows, kept, c)
  {
    if rows != [] {
      KeptQueueIgnores(rows[..|rows| - 1], kept, id, c);
    }
  }

  lemma KeptQueueSnoc(rows: seq<Row>, row: Row, kept: set<nat>, c: Conversation)
    ensures KeptQueue(rows + [row], kept, c) == KeptQueue(rows, kept, c) + KeptCell(row, |rows|, kept, c)
  {
    assert (rows + [row])[..|rows|] == rows;
  }

  lemma KeptCellIgnores(row: Row, id: nat, kept: set<nat>, other: nat, c: Conversation)
    requires id != other
    ensures KeptCell(row, id, kept + {other}, c) == KeptCell(row, id, kept, c)
  {
  }

  lemma AddBehind(more: seq<Payload>, less: seq<Payload>, added: seq<Payload>, behind: seq<Payload>)
    requires multiset(more) == multiset(less) + multiset(added)
    ensures multiset(more + behind) == multiset(less + behind) + multiset(added)
  {
  }

  lemma KeptQueueUpdateLast(before: seq<Row>, last: Row, row: Row, kept: set<nat>, c: Conversation)
    requires |before| !in kept
    ensures KeptQueue(before + [row], kept + {|before|}, c) ==
            KeptQueue(before, kept, c) + KeptCell(row, |before|, kept + {|before|}, c)
    ensures KeptQueue(before + [last], kept, c) == KeptQueue(before, kept, c)
  {
    KeptQueueIgnores(before, kept, |before|, c);
    KeptQueueSnoc(before, row, kept + {|before|}, c);
    KeptQueueSnoc(before, last, kept, c);
  }

  lemma UpdateInFront(rows: seq<Row>, i: nat, row: Row)
    requires i < |rows| - 1
    ensures rows[i := row] == rows[..|rows| - 1][i := row] + [rows[|rows| - 1]]
  {
  }

  /** Rewriting a row that was not kept, and keeping it, adds its cell. */
  lemma {:induction false} KeptQueueUpdate(rows: seq<Row>, i: nat, row: Row, kept: set<nat>, c: Conversation)
    requires i < |rows| && i !in kept
    ensures multiset(KeptQueue(rows[i := row], kept + {i}, c)) ==
            multiset(KeptQueue(rows, kept, c)) + multiset(KeptCell(row, i, kept + {i}, c))
    decreases |rows|
  {
    var before, last := rows[..|rows| - 1], rows[|rows| - 1];
    assert rows == before + [last];
    if i == |before| {
      KeptQueueUpdateLast(before, last, row, kept, c);
      assert rows[i := row] == before + [row];
    } else {
      KeptQueueUpdate(before, i, row, kept, c);
      KeptQueueSnoc(before, last, kept, c);
      KeptQueueSnoc(before[i := row], last, kept + {i}, c);
      KeptCellIgnores(last, |before|, kept, i, c);
      UpdateInFront(rows, i, row);
      AddBehind(KeptQueue(before[i := row], kept + {i}, c), KeptQueue(before, kept, c),
                KeptCell(row, i, kept + {i}, c), KeptCell(last, |before|, kept, c));
    }
  }

  /** What holds after the first items were put in. */
  predicate PutFits(t: Tables, items: seq<Payload>, put: Tables, kept: set<nat>) {
    && |t.rows| <= |put.rows|
    && (forall i :: i in kept ==> i < |put.rows|)
    && (forall i :: 0 <= i < |t.rows| && i !in kept ==> put.rows[i] == t.rows[i])
    && (forall i :: |t.rows| <= i < |put.rows| ==> i in kept)
    && (forall i :: i in kept ==> IsItem(items, put.rows[i].payload))
    && (forall i :: i in kept && i < |t.rows| ==> put.rows[i].payload.eventId.Some?
                                                  && put.rows[i].payload.eventId == t.rows[i].payload.eventId)
    && QueueRuns.EventsUnique(put.rows)
    && (forall i :: 0 <= i < |put.rows| ==> QueueRuns.QueueStatus(put.rows[i].status))
  }

  predicate ShowsLive(t: Tables, items: seq<Payload>, c: Conversation, put: Tables, kept: set<nat>) {
    multiset(KeptQueue(put.rows, kept, c)) == multiset(Live(t.rows, items))
  }

  lemma FindEventIs(rows: seq<Row>, i: nat, event: EventId)
    requires QueueRuns.EventsUnique(rows) && i < |rows| && rows[i].payload.eventId == Some(event)
    ensures FindEvent(rows, event) == Some(i)
  {
    var found := FindEvent(rows, event).value;
    assert rows[found].payload.eventId == rows[i].payload.eventId;
  }

  /** An item whose event is in the queue already: its row is one of the original rows, untouched. */
  lemma PlaceOfKnown(t: Tables, items: seq<Payload>, item: Payload, put: Tables, kept: set<nat>)
    requires PutFits(t, items, put, kept) && QueueRuns.EventsUnique(t.rows)
    requires item.eventId.Some? && forall k :: 0 <= k < |items| ==> items[k].eventId != item.eventId
    ensures var found := FindEvent(put.rows, item.eventId.value);
            && found == FindEvent(t.rows, item.eventId.value)
            && (found.Some? ==> found.value !in kept && put.rows[found.value] == t.rows[found.value])
  {
    var event := item.eventId.value;
    var found, was := FindEvent(put.rows, event), FindEvent(t.rows, event);
    if found.Some? {
      FindEventIs(t.rows, found.value, event);
    }
  }

  /** The item of one of the given ones. */
  predicate IsItem(items: seq<Payload>, payload: Payload) {
    exists k :: 0 <= k < |items| && items[k] == payload
  }

  lemma ItemsGrow(items: seq<Payload>, item: Payload, payload: Payload)
    ensures IsItem(items + [item], item)
    ensures IsItem(items, payload) ==> IsItem(items + [item], payload)
  {
    assert (items + [item])[|items|] == item;
    if IsItem(items, payload) {
      var k :| 0 <= k < |items| && items[k] == payload;
      assert (items + [item])[k] == payload;
    }
  }

  lemma PutNewFits(t: Tables, items: seq<Payload>, item: Payload, put: Tables, kept: set<nat>, next: Tables, row: Row)
    requires PutFits(t, items, put, kept) && next.rows == put.rows + [row]
    requires row.payload == item && row.status == Queued
    requires item.eventId.Some? ==> forall i :: 0 <= i < |put.rows| ==> put.rows[i].payload.eventId != item.eventId
    ensures PutFits(t, items + [item], next, kept + {|put.rows|})
  {
    forall i | i in kept + {|put.rows|} ensures IsItem(items + [item], next.rows[i].payload) {
      ItemsGrow(items, item, next.rows[i].payload);
    }
  }

  lemma PutKnownFits(t: Tables, items: seq<Payload>, item: Payload, put: Tables, kept: set<nat>, next: Tables,
                     row: Row, i: nat)
    requires PutFits(t, items, put, kept) && i < |put.rows| && next.rows == put.rows[i := row]
    requires row.payload == item && QueueRuns.QueueStatus(row.status)
    requires item.eventId.Some? && put.rows[i].payload.eventId == item.eventId && i !in kept
    ensures PutFits(t, items + [item], next, kept + {i})
  {
    forall j | j in kept + {i} ensures IsItem(items + [item], next.rows[j].payload) {
      ItemsGrow(items, item, next.rows[j].payload);
    }
  }

  lemma PutNextFits(t: Tables, items: seq<Payload>, item: Payload, c: Conversation, put: Tables, kept: set<nat>)
    requires PutFits(t, items, put, kept) && QueueRuns.EventsUnique(t.rows)
    requires item.eventId.Some? ==> forall k :: 0 <= k < |items| ==> items[k].eventId != item.eventId
    ensures PutFits(t, items + [item], Append(put, item, c), kept + {PlaceOf(put.rows, item)})
  {
    var next, place := Append(put, item, c), PlaceOf(put.rows, item);
    if place < |put.rows| {
      PlaceOfKnown(t, items, item, put, kept);
      AppendKnown(put, item, c, place);
      PutKnownFits(t, items, item, put, kept, next, KnownRow(put.rows[place], item, c), place);
    } else {
      PutNewFits(t, items, item, put, kept, next, Row(c, item, Queued, None, 0));
    }
  }

  lemma LiveSnoc(rows: seq<Row>, items: seq<Payload>, item: Payload)
    ensures Live(rows, items + [item]) == Live(rows, items) + if AlreadySettled(rows, item) then [] else [item]
  {
    assert (items + [item])[..|items|] == items;
  }

  lemma PutNewShows(t: Tables, items: seq<Payload>, item: Payload, c: Conversation, put: Tables, kept: set<nat>)
    requires ShowsLive(t, items, c, put, kept) && PlaceOf(put.rows, item) == |put.rows|
    requires !AlreadySettled(t.rows, item)
    ensures ShowsLive(t, items + [item], c, Append(put, item, c), kept + {|put.rows|})
  {
    LiveSnoc(t.rows, items, item);
    KeptQueueIgnores(put.rows, kept, |put.rows|, c);
    KeptQueueSnoc(put.rows, Row(c, item, Queued, None, 0), kept + {|put.rows|}, c);
  }

  lemma PutKnownShows(t: Tables, items: seq<Payload>, item: Payload, c: Conversation, put: Tables, kept: set<nat>,
                      i: nat)
    requires ShowsLive(t, items, c, put, kept) && i < |put.rows| && i !in kept
    requires item.eventId.Some? && FindEvent(put.rows, item.eventId.value) == Some(i)
    requires QueueRuns.QueueStatus(put.rows[i].status)
    requires AlreadySettled(t.rows, item) <==> Settled(put.rows[i].status)
    ensures ShowsLive(t, items + [item], c, Append(put, item, c), kept + {i})
  {
    LiveSnoc(t.rows, items, item);
    var row := KnownRow(put.rows[i], item, c);
    AppendKnown(put, item, c, i);
    KeptQueueUpdate(put.rows, i, row, kept, c);
    KnownCell(put.rows[i], item, i, kept + {i}, c);
  }

  lemma KnownCell(was: Row, item: Payload, i: nat, kept: set<nat>, c: Conversation)
    requires i in kept && QueueRuns.QueueStatus(was.status)
    ensures KeptCell(KnownRow(was, item, c), i, kept, c) == if Settled(was.status) then [] else [item]
  {
  }

  /** The row of a repeated event after its item was put in. */
  function KnownRow(was: Row, item: Payload, c: Conversation): (row: Row) {
    if Settled(was.status) then was.(conversation := c, payload := item)
    else was.(conversation := c, payload := item, status := Queued, lease := None)
  }

  lemma AppendKnown(put: Tables, item: Payload, c: Conversation, i: nat)
    requires item.eventId.Some? && FindEvent(put.rows, item.eventId.value) == Some(i)
    ensures Append(put, item, c).rows == put.rows[i := KnownRow(put.rows[i], item, c)]
  {
  }

  lemma PutNextShows(t: Tables, items: seq<Payload>, item: Payload, c: Conversation, put: Tables, kept: set<nat>)
    requires PutFits(t, items, put, kept) && QueueRuns.EventsUnique(t.rows) && ShowsLive(t, items, c, put, kept)
    requires item.eventId.Some? ==> forall k :: 0 <= k < |items| ==> items[k].eventId != item.eventId
    ensures ShowsLive(t, items + [item], c, Append(put, item, c), kept + {PlaceOf(put.rows, item)})
  {
    var place := PlaceOf(put.rows, item);
    if item.eventId.Some? {
      PlaceOfKnown(t, items, item, put, kept);
    }
    if place == |put.rows| {
      PutNewShows(t, items, item, c, put, kept);
    } else {
      assert QueueRuns.QueueStatus(put.rows[place].status);
      PutKnownShows(t, items, item, c, put, kept, place);
    }
  }

  lemma {:induction false} PutAllFits(t: Tables, items: seq<Payload>, c: Conversation)
    requires QueueTable(t.rows) && DistinctEvents(items)
    ensures PutFits(t, items, PutAll(t, items, c).0, PutAll(t, items, c).1)
    ensures ShowsLive(t, items, c, PutAll(t, items, c).0, PutAll(t, items, c).1)
  {
    if items == [] {
      NothingKept(t.rows, c);
    } else {
      var before, last := items[..|items| - 1], items[|items| - 1];
      EarlierAreDistinct(items);
      PutAllFits(t, before, c);
      PutNextFits(t, before, last, c, PutAll(t, before, c).0, PutAll(t, before, c).1);
      PutNextShows(t, before, last, c, PutAll(t, before, c).0, PutAll(t, before, c).1);
    }
  }

  lemma EarlierAreDistinct(items: seq<Payload>)
    requires DistinctEvents(items) && items != []
    ensures DistinctEvents(items[..|items| - 1]) && items[..|items| - 1] + [items[|items| - 1]] == items
  {
  }

  lemma {:induction false} NothingKept(rows: seq<Row>, c: Conversation)
    ensures KeptQueue(rows, {}, c) == []
  {
    if rows != [] {
      NothingKept(rows[..|rows| - 1], c);
    }
  }

  predicate ShownIn(rows: seq<Row>, item: Payload) {
    exists i :: 0 <= i < |rows| && Visible(rows[i].status) && rows[i].payload == item
  }

  lemma ShownIsNotSettled(rows: seq<Row>, item: Payload)
    requires QueueRuns.EventsUnique(rows) && ShownIn(rows, item)
    ensures !AlreadySettled(rows, item)
  {
    var i :| 0 <= i < |rows| && Visible(rows[i].status) && rows[i].payload == item;
    if item.eventId.Some? {
      FindEventIs(rows, i, item.eventId.value);
    }
  }

  /** Items that are visible already: none of their events is settled. */
  lemma {:induction false} VisibleItemsAreLive(rows: seq<Row>, items: seq<Payload>)
    requires QueueRuns.EventsUnique(rows)
    requires forall k :: 0 <= k < |items| ==> ShownIn(rows, items[k])
    ensures Live(rows, items) == items
  {
    if items != [] {
      var before, last := items[..|items| - 1], items[|items| - 1];
      VisibleItemsAreLive(rows, before);
      ShownIsNotSettled(rows, last);
      LiveSnoc(rows, before, last);
      assert before + [last] == items;
    }
  }

  lemma {:induction false} VisibleComeFromRows(rows: seq<Row>, c: Conversation, k: nat)
    requires k < |VisibleQueue(rows, c)|
    ensures ShownIn(rows, VisibleQueue(rows, c)[k])
  {
    var before := rows[..|rows| - 1];
    if k < |VisibleQueue(before, c)| {
      VisibleComeFromRows(before, c, k);
      var i :| 0 <= i < |before| && Visible(before[i].status) && before[i].payload == VisibleQueue(before, c)[k];
      assert rows[i] == before[i];
    } else {
      assert Visible(rows[|rows| - 1].status);
    }
  }

  /** For items with distinct events the replaced queue shows, as a multiset, exactly the given items
      whose event was not done or failed before. */
  lemma ReplaceShowsItems(t: Tables, items: seq<Payload>, c: Conversation)
    requires QueueTable(t.rows) && DistinctEvents(items)
    ensures multiset(VisibleQueue(Replace(t, items, c).rows, c)) == multiset(Live(t.rows, items))
  {
    if VisibleQueue(t.rows, c) == items {
      forall k | 0 <= k < |items| ensures ShownIn(t.rows, items[k]) {
        VisibleComeFromRows(t.rows, c, k);
      }
      VisibleItemsAreLive(t.rows, items);
    } else {
      var (put, kept) := PutAll(t, items, c);
      PutAllFits(t, items, c);
      SweepLeavesKept(put.rows, kept, c);
    }
  }

  /** Every other row of the conversation that was visible is done afterwards, and rows of other
      conversations that carry none of the items stay as they are. */
  lemma ReplaceSettlesTheRest(t: Tables, items: seq<Payload>, c: Conversation, i: nat)
    requires QueueTable(t.rows) && DistinctEvents(items) && VisibleQueue(t.rows, c) != items
    requires i < |t.rows| && forall k :: 0 <= k < |items| ==>
               t.rows[i].payload.eventId.None? || items[k].eventId != t.rows[i].payload.eventId
    ensures i < |Replace(t, items, c).rows|
    ensures t.rows[i].conversation == c && Visible(t.rows[i].status) ==> Replace(t, items, c).rows[i].status == Done
    ensures t.rows[i].conversation != c || !Visible(t.rows[i].status) ==> Replace(t, items, c).rows[i] == t.rows[i]
  {
    var (put, kept) := PutAll(t, items, c);
    PutAllFits(t, items, c);
    assert i !in kept;
  }

  lemma {:induction false} PutAllLedger(t: Tables, items: seq<Payload>, c: Conversation, event: EventId)
    requires forall k :: 0 <= k < |items| ==> items[k].eventId != Some(event)
    ensures event in PutAll(t, items, c).0.ledger <==> event in t.ledger
    ensures event in t.ledger ==> PutAll(t, items, c).0.ledger[event] == t.ledger[event]
  {
    if items != [] {
      PutAllLedger(t, items[..|items| - 1], c, event);
    }
  }

  /** The sweep does not write the ledger: a dropped row still agrees with its ledger row exactly when
      the ledger has no open record of the event. */
  lemma DroppedRowAgreesIff(t: Tables, items: seq<Payload>, c: Conversation, i: nat)
    requires QueueRuns.Consistent(t) && DistinctEvents(items) && VisibleQueue(t.rows, c) != items
    requires i < |t.rows| && t.rows[i].conversation == c && Visible(t.rows[i].status)
    requires t.rows[i].payload.eventId.Some?
    requires forall k :: 0 <= k < |items| ==> items[k].eventId != t.rows[i].payload.eventId
    ensures i < |Replace(t, items, c).rows|
    ensures QueueRuns.LedgerAgrees(Replace(t, items, c).ledger, Replace(t, items, c).rows[i]) <==>
              var event := t.rows[i].payload.eventId.value;
              event !in t.ledger || Settled(t.ledger[event])
  {
    ReplaceSettlesTheRest(t, items, c, i);
    PutAllLedger(t, items, c, t.rows[i].payload.eventId.value);
    var (put, kept) := PutAll(t, items, c);
    PutAllFits(t, items, c);
    assert Replace(t, items, c).rows[i].payload == put.rows[i].payload;
    assert QueueRuns.LedgerAgrees(t.ledger, t.rows[i]);
  }

  // ---------------------------------------------------------------- fresh items

  /** The item's event is not in the queue yet, or it has none. */
  predicate Fresh(rows: seq<Row>, item: Payload) {
    item.eventId.Some? ==> forall i :: 0 <= i < |rows| ==> rows[i].payload.eventId != item.eventId
  }

  function NewRows(items: seq<Payload>, c: Conversation): (rows: seq<Row>)
    ensures |rows| == |items| && forall k :: 0 <= k < |items| ==> rows[k] == Row(c, items[k], Queued, None, 0)
  {
    seq(|items|, k requires 0 <= k < |items| => Row(c, items[k], Queued, None, 0))
  }

  lemma NewRowsSnoc(items: seq<Payload>, item: Payload, c: Conversation)
    ensures NewRows(items + [item], c) == NewRows(items, c) + [Row(c, item, Queued, None, 0)]
  {
  }

  /** The item's event is neither in the table nor among the items put in before. */
  lemma StillFresh(rows: seq<Row>, items: seq<Payload>, item: Payload, c: Conversation)
    requires Fresh(rows, item) && DistinctEvents(items + [item])
    ensures item.eventId.Some? ==> FindEvent(rows + NewRows(items, c), item.eventId.value).None?
  {
    var all := items + [item];
    forall k | 0 <= k < |items| && item.eventId.Some? ensures items[k].eventId != item.eventId {
      assert all[k] == items[k] && all[|items|] == item;
    }
  }

  lemma AppendFreshItem(t: Tables, item: Payload, c: Conversation)
    requires item.eventId.Some? ==> FindEvent(t.rows, item.eventId.value).None?
    ensures Append(t, item, c).rows == t.rows + [Row(c, item, Queued, None, 0)] && PlaceOf(t.rows, item) == |t.rows|
  {
  }

  lemma PutOneFresh(t: Tables, put: Tables, kept: set<nat>, items: seq<Payload>, item: Payload, c: Conversation)
    requires Fresh(t.rows, item) && DistinctEvents(items + [item])
    requires put.rows == t.rows + NewRows(items, c) && KeptQueue(put.rows, kept, c) == items
    ensures var next := Append(put, item, c);
            && next.rows == t.rows + NewRows(items + [item], c)
            && KeptQueue(next.rows, kept + {PlaceOf(put.rows, item)}, c) == items + [item]
  {
    StillFresh(t.rows, items, item, c);
    AppendFreshItem(put, item, c);
    NewRowsSnoc(items, item, c);
    KeptQueueIgnores(put.rows, kept, |put.rows|, c);
    KeptQueueSnoc(put.rows, Row(c, item, Queued, None, 0), kept + {|put.rows|}, c);
    assert t.rows + NewRows(items, c) + [Row(c, item, Queued, None, 0)]
        == t.rows + (NewRows(items, c) + [Row(c, item, Queued, None, 0)]);
  }

  lemma {:induction false} PutAllFresh(t: Tables, items: seq<Payload>, c: Conversation)
    requires DistinctEvents(items) && forall k :: 0 <= k < |items| ==> Fresh(t.rows, items[k])
    ensures var (put, kept) := PutAll(t, items, c);
            put.rows == t.rows + NewRows(items, c) && KeptQueue(put.rows, kept, c) == items
  {
    if items == [] {
      NothingKept(t.rows, c);
    } else {
      var before, last := items[..|items| - 1], items[|items| - 1];
      EarlierAreDistinct(items);
      PutAllFresh(t, before, c);
      PutOneFresh(t, PutAll(t, before, c).0, PutAll(t, before, c).1, before, last, c);
    }
  }

  /** Items whose events are new are shown in the order given, and nothing else is. */
  lemma FreshItemsInOrder(t: Tables, items: seq<Payload>, c: Conversation)
    requires DistinctEvents(items) && forall k :: 0 <= k < |items| ==> Fresh(t.rows, items[k])
    ensures VisibleQueue(Replace(t, items, c).rows, c) == items
  {
    if VisibleQueue(t.rows, c) != items {
      PutAllFresh(t, items, c);
      var (put, kept) := PutAll(t, items, c);
      SweepLeavesKept(put.rows, kept, c);
    }
  }
}
