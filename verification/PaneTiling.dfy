/** The layout string that arranges the panes of a window in a grid (tmux_gateway.py). */
module PaneTiling {
  import opened Wrappers
  import opened PaneGrid
  import opened Numerals
  import LayoutChecksum

  /** A leaf of the layout: width, height, offsets from the window's corner, number. */
  datatype Pane = Pane(w: int, h: int, x: int, y: int, id: nat)

  datatype RowCell = One(pane: Pane) | Columns(w: int, h: int, y: int, panes: seq<Pane>)

  datatype Layout = OneRow(row: RowCell) | Stack(w: int, h: int, rows: seq<RowCell>)

  // ---------------------------------------------------------------- text

  function Join(texts: seq<string>): (text: string) {
    if texts == [] then ""
    else if |texts| == 1 then texts[0]
    else texts[0] + "," + Join(texts[1..])
  }

  function PaneText(p: Pane): (text: string) {
    Decimal(p.w) + "x" + Decimal(p.h) + "," + Decimal(p.x) + "," + Decimal(p.y) + "," + Decimal(p.id)
  }

  function PaneTexts(panes: seq<Pane>): (texts: seq<string>)
    ensures |texts| == |panes|
    ensures forall k :: 0 <= k < |panes| ==> texts[k] == PaneText(panes[k])
  {
    seq(|panes|, k requires 0 <= k < |panes| => PaneText(panes[k]))
  }

  function RowText(row: RowCell): (text: string) {
    match row
    case One(pane) => PaneText(pane)
    case Columns(w, h, y, panes) =>
      Decimal(w) + "x" + Decimal(h) + ",0," + Decimal(y) + "{" + Join(PaneTexts(panes)) + "}"
  }

  function RowTexts(rows: seq<RowCell>): (texts: seq<string>)
    ensures |texts| == |rows|
    ensures forall k :: 0 <= k < |rows| ==> texts[k] == RowText(rows[k])
  {
    seq(|rows|, k requires 0 <= k < |rows| => RowText(rows[k]))
  }

  function LayoutText(layout: Layout): (text: string) {
    match layout
    case OneRow(row) => RowText(row)
    case Stack(w, h, rows) => Decimal(w) + "x" + Decimal(h) + ",0,0" + "[" + Join(RowTexts(rows)) + "]"
  }

  // ---------------------------------------------------------------- where each pane goes

  /** The size of the parts and borders before this part. */
  function Offset(total: int, count: nat, index: nat): (offset: int)
    requires count > 0
  {
    var usable := total - (count - 1);
    var rest := usable % count;
    index * (usable / count + 1) + if index < rest then index else rest
  }

  function RowLength(panes: nat, columns: nat, i: nat): (length: nat)
    requires i * columns < panes
  {
    if (i + 1) * columns <= panes then columns else panes - i * columns
  }

  /** A position of a grid that holds so many panes, filled row by row. */
  predicate InGrid(panes: nat, g: Grid, i: nat) {
    0 < g.columns <= panes && i < g.rows && g.columns * (g.rows - 1) < panes <= g.columns * g.rows
  }

  lemma RowStarts(panes: nat, g: Grid, i: nat)
    requires InGrid(panes, g, i)
    ensures i * g.columns < panes && RowLength(panes, g.columns, i) > 0
    ensures i < g.rows - 1 ==> RowLength(panes, g.columns, i) == g.columns
  {
    assert i * g.columns <= (g.rows - 1) * g.columns;
    if i < g.rows - 1 {
      assert (i + 1) * g.columns <= (g.rows - 1) * g.columns;
    }
  }

  function LengthOf(panes: nat, g: Grid, i: nat): (length: nat)
    requires InGrid(panes, g, i)
    ensures 0 < length <= g.columns
  {
    RowStarts(panes, g, i);
    RowLength(panes, g.columns, i)
  }

  /** The number of the first pane of a row. */
  function FirstOf(panes: nat, g: Grid, i: nat): (id: nat) {
    if i < g.rows then i * g.columns else panes
  }

  /** The panes of a row of this height at this offset, numbered from the first. */
  function PanesOfRow(width: int, length: nat, h: int, y: int, first: nat): (row: seq<Pane>)
    ensures |row| == length
    ensures forall j :: 0 <= j < length ==>
              row[j] == Pane(Extent(width, length, j), h, Offset(width, length, j), y, first + j)
  {
    seq(length, j requires 0 <= j < length => Pane(Extent(width, length, j), h, Offset(width, length, j), y, first + j))
  }

  function RowAt(width: int, length: nat, h: int, y: int, first: nat): (row: RowCell)
    requires length > 0
  {
    var panes := PanesOfRow(width, length, h, y, first);
    if length == 1 then One(panes[0]) else Columns(width, h, y, panes)
  }

  function RowOf(panes: nat, width: int, height: int, g: Grid, i: nat): (row: RowCell)
    requires InGrid(panes, g, i)
  {
    RowAt(width, LengthOf(panes, g, i), Extent(height, g.rows, i), Offset(height, g.rows, i), FirstOf(panes, g, i))
  }

  function RowsOf(panes: nat, width: int, height: int, g: Grid): (rows: seq<RowCell>)
    requires InGrid(panes, g, 0)
    ensures |rows| == g.rows
    ensures forall i :: 0 <= i < g.rows ==> rows[i] == RowOf(panes, width, height, g, i)
  {
    seq(g.rows, i requires 0 <= i < g.rows => RowOf(panes, width, height, g, i))
  }

  /** The shape of a window's grid. */
  function Shape(panes: nat, width: int, height: int): (g: Grid)
    requires panes >= 2
    ensures InGrid(panes, g, 0)
  {
    RowsAreNeeded(panes, width >= height);
    GridFor(panes, width >= height)
  }

  function LayoutOf(panes: nat, width: int, height: int): (layout: Layout)
    requires panes >= 2
  {
    var g := Shape(panes, width, height);
    var rows := RowsOf(panes, width, height, g);
    if |rows| == 1 then OneRow(rows[0]) else Stack(width, height, rows)
  }

  // ---------------------------------------------------------------- building the string

  lemma OffsetStep(total: int, count: nat, index: nat)
    requires index < count
    ensures Offset(total, count, 0) == 0
    ensures Offset(total, count, index + 1) == Offset(total, count, index) + Extent(total, count, index) + 1
  {
    var step := (total - (count - 1)) / count + 1;
    assert (index + 1) * step == index * step + step;
  }

  lemma OffsetEnd(total: int, count: nat)
    requires count > 0
    ensures Offset(total, count, count) == total + 1
  {
    var usable := total - (count - 1);
    assert usable == count * (usable / count) + usable % count;
    assert count * (usable / count + 1) == count * (usable / count) + count;
  }

  /** The counts that the rows are filled with are those of the grid. */
  lemma RowCounts(panes: nat, g: Grid, counts: seq<nat>)
    requires InGrid(panes, g, 0)
    requires |counts| == panes / g.columns + if panes % g.columns != 0 then 1 else 0
    requires forall i :: 0 <= i < panes / g.columns ==> counts[i] == g.columns
    requires panes % g.columns != 0 ==> counts[panes / g.columns] == panes % g.columns
    ensures |counts| == g.rows
    ensures forall i :: 0 <= i < g.rows ==> counts[i] == LengthOf(panes, g, i)
  {
    RowCountsOf(panes, g, panes / g.columns, panes % g.columns, counts);
  }

  lemma RowCountsOf(panes: nat, g: Grid, q: nat, m: nat, counts: seq<nat>)
    requires InGrid(panes, g, 0) && panes == g.columns * q + m && m < g.columns
    requires |counts| == q + if m != 0 then 1 else 0
    requires forall i :: 0 <= i < q ==> counts[i] == g.columns
    requires m != 0 ==> counts[q] == m
    ensures |counts| == g.rows
    ensures forall i :: 0 <= i < g.rows ==> counts[i] == LengthOf(panes, g, i)
  {
    var c := g.columns;
    CeilUnique(c, q, m, g.rows);
    forall i | 0 <= i < g.rows ensures counts[i] == LengthOf(panes, g, i) {
      RowStarts(panes, g, i);
      if i == g.rows - 1 {
        LastRowLength(c, q, m, panes);
      }
    }
  }

  /** The last row is full, or holds the panes that remain. */
  lemma LastRowLength(c: nat, q: nat, m: nat, panes: nat)
    requires 0 <= m < c && panes == c * q + m
    ensures m == 0 && q > 0 ==> (q - 1) * c < panes && RowLength(panes, c, q - 1) == c
    ensures m > 0 ==> q * c < panes && RowLength(panes, c, q) == m
  {
    assert (q + 1) * c == c * q + c && (q - 1) * c == c * q - c;
  }

  lemma CeilUnique(c: nat, q: nat, m: nat, rows: nat)
    requires m < c && rows >= 1 && c * (rows - 1) < c * q + m <= c * rows
    ensures rows == q + if m != 0 then 1 else 0
  {
    var d := rows - q;
    assert c * rows == c * q + c * d && c * (rows - 1) == c * rows - c;
    ProductSign(c, d);
  }

  lemma ProductSign(c: nat, d: int)
    ensures (d <= 0 ==> c * d <= 0) && (d >= 2 ==> c * d >= c + c)
  {
  }

  lemma NextFirst(panes: nat, g: Grid, i: nat)
    requires InGrid(panes, g, i)
    ensures FirstOf(panes, g, 0) == 0 && FirstOf(panes, g, i) == i * g.columns
    ensures FirstOf(panes, g, i) + LengthOf(panes, g, i) == FirstOf(panes, g, i + 1)
  {
    RowStarts(panes, g, i);
    assert (i + 1) * g.columns == i * g.columns + g.columns;
  }

  /** The number of panes in each row. */
  method CountRows(panes: nat, columns: nat, ghost g: Grid) returns (rowCounts: seq<nat>)
    requires InGrid(panes, g, 0) && columns == g.columns
    ensures |rowCounts| == g.rows
    ensures forall i :: 0 <= i < g.rows ==> rowCounts[i] == LengthOf(panes, g, i)
  {
    rowCounts := seq(panes / columns, _ => columns);
    if panes % columns != 0 {
      rowCounts := rowCounts + [panes % columns];
    }
    RowCounts(panes, g, rowCounts);
  }

  lemma RowTextOf(width: int, length: nat, h: int, y: int, first: nat, leaves: seq<string>)
    requires length > 0 && leaves == PaneTexts(PanesOfRow(width, length, h, y, first))
    ensures RowText(RowAt(width, length, h, y, first)) ==
              if length == 1 then leaves[0]
              else Decimal(width) + "x" + Decimal(h) + ",0," + Decimal(y) + "{" + Join(leaves) + "}"
  {
  }

  lemma OneMoreText(texts: seq<string>, j: nat)
    requires j < |texts|
    ensures texts[..j] + [texts[j]] == texts[..j + 1]
  {
  }

  /** The text of a row. */
  method LayoutRow(width: int, rowCount: nat, rowHeight: int, yOffset: int, firstId: nat)
    returns (text: string, paneId: nat)
    requires rowCount > 0
    ensures text == RowText(RowAt(width, rowCount, rowHeight, yOffset, firstId)) && paneId == firstId + rowCount
  {
    var leaves;
    leaves, paneId := LayoutLeaves(width, rowCount, rowHeight, yOffset, firstId);
    RowTextOf(width, rowCount, rowHeight, yOffset, firstId, leaves);
    if rowCount == 1 {
      text := leaves[0];
    } else {
      text := Decimal(width) + "x" + Decimal(rowHeight) + ",0," + Decimal(yOffset) + "{" + Join(leaves) + "}";
    }
  }

  /** The texts of the leaves of a row, from the left. */
  method LayoutLeaves(width: int, rowCount: nat, rowHeight: int, yOffset: int, firstId: nat)
    returns (leaves: seq<string>, paneId: nat)
    requires rowCount > 0
    ensures leaves == PaneTexts(PanesOfRow(width, rowCount, rowHeight, yOffset, firstId))
    ensures paneId == firstId + rowCount
  {
    var columnWidths := SplitLayoutExtent(width, rowCount);
    ghost var texts := PaneTexts(PanesOfRow(width, rowCount, rowHeight, yOffset, firstId));
    var xOffset := 0;
    leaves, paneId := [], firstId;
    OffsetStep(width, rowCount, 0);
    for j := 0 to rowCount
      invariant paneId == firstId + j && xOffset == Offset(width, rowCount, j)
      invariant leaves == texts[..j]
    {
      var leaf := PaneText(Pane(columnWidths[j], rowHeight, xOffset, yOffset, paneId));
      OneMoreText(texts, j);
      leaves := leaves + [leaf];
      paneId := paneId + 1;
      OffsetStep(width, rowCount, j);
      xOffset := xOffset + columnWidths[j] + 1;
    }
  }

  /** The texts of the rows, from the top; firsts and tops are the running sums. */
  method LayoutRows(width: int, rowCounts: seq<nat>, rowHeights: seq<int>, ghost firsts: seq<nat>, ghost tops: seq<int>)
    returns (rowCells: seq<string>)
    requires |rowCounts| == |rowHeights| && |firsts| == |tops| == |rowCounts| + 1 && firsts[0] == 0 && tops[0] == 0
    requires forall i :: 0 <= i < |rowCounts| ==>
               && rowCounts[i] > 0 && firsts[i + 1] == firsts[i] + rowCounts[i]
               && tops[i + 1] == tops[i] + rowHeights[i] + 1
    ensures |rowCells| == |rowCounts|
    ensures forall i :: 0 <= i < |rowCounts| ==>
              rowCells[i] == RowText(RowAt(width, rowCounts[i], rowHeights[i], tops[i], firsts[i]))
  {
    var paneId: nat, yOffset := 0, 0;
    rowCells := [];
    for i := 0 to |rowCounts|
      invariant paneId == firsts[i] && yOffset == tops[i] && |rowCells| == i
      invariant forall k :: 0 <= k < i ==>
                  rowCells[k] == RowText(RowAt(width, rowCounts[k], rowHeights[k], tops[k], firsts[k]))
    {
      var rowText;
      rowText, paneId := LayoutRow(width, rowCounts[i], rowHeights[i], yOffset, paneId);
      rowCells := rowCells + [rowText];
      yOffset := yOffset + rowHeights[i] + 1;
    }
  }

  function Firsts(panes: nat, g: Grid): (ids: seq<nat>)
    ensures |ids| == g.rows + 1 && forall i :: 0 <= i <= g.rows ==> ids[i] == FirstOf(panes, g, i)
  {
    seq(g.rows + 1, i requires 0 <= i <= g.rows => FirstOf(panes, g, i))
  }

  function Tops(height: int, rows: nat): (tops: seq<int>)
    requires rows > 0
    ensures |tops| == rows + 1 && forall i :: 0 <= i <= rows ==> tops[i] == Offset(height, rows, i)
  {
    seq(rows + 1, i requires 0 <= i <= rows => Offset(height, rows, i))
  }

  lemma RunningSums(panes: nat, height: int, g: Grid)
    requires InGrid(panes, g, 0)
    ensures var (ids, tops) := (Firsts(panes, g), Tops(height, g.rows));
            && ids[0] == 0 && tops[0] == 0
            && forall i :: 0 <= i < g.rows ==>
                 ids[i + 1] == ids[i] + LengthOf(panes, g, i) && tops[i + 1] == tops[i] + Extent(height, g.rows, i) + 1
  {
    NextFirst(panes, g, 0);
    OffsetStep(height, g.rows, 0);
    forall i | 0 <= i < g.rows
      ensures FirstOf(panes, g, i + 1) == FirstOf(panes, g, i) + LengthOf(panes, g, i)
      ensures Offset(height, g.rows, i + 1) == Offset(height, g.rows, i) + Extent(height, g.rows, i) + 1
    {
      NextFirst(panes, g, i);
      OffsetStep(height, g.rows, i);
    }
  }

  method GridLayout(pane_count: int, width: int, height: int) returns (layout: Option<string>)
    ensures layout == if pane_count <= 1 || width <= 0 || height <= 0 then None
                      else Some(LayoutChecksum.Sealed(LayoutText(LayoutOf(pane_count, width, height))))
  {
    if pane_count <= 1 || width <= 0 || height <= 0 {
      return None;
    }
    ghost var g := Shape(pane_count, width, height);
    RunningSums(pane_count, height, g);
    var columns, rows := LayoutGrid(pane_count, width, height);
    var rowCounts := CountRows(pane_count, columns, g);
    rows := |rowCounts|;
    var rowHeights := SplitLayoutExtent(height, rows);
    var rowCells := LayoutRows(width, rowCounts, rowHeights, Firsts(pane_count, g), Tops(height, rows));
    assert rowCells == RowTexts(RowsOf(pane_count, width, height, g));
    var body := if |rowCells| == 1 then rowCells[0]
                else Decimal(width) + "x" + Decimal(height) + ",0,0" + "[" + Join(rowCells) + "]";
    var checksum := LayoutChecksum.LayoutChecksum(body);
    return Some(LayoutChecksum.FourHexDigits(checksum) + "," + body);
  }

  // ---------------------------------------------------------------- the sealed string

  predicate Ascii(text: string) {
    forall k :: 0 <= k < |text| ==> text[k] < 128 as char
  }

  lemma DecimalIsAscii(n: int)
    ensures Ascii(Decimal(n))
    decreases if n < 0 then 1 - n else n
  {
  }

  lemma PaneIsAscii(p: Pane)
    ensures Ascii(PaneText(p))
  {
    DecimalIsAscii(p.w);
    DecimalIsAscii(p.h);
    DecimalIsAscii(p.x);
    DecimalIsAscii(p.y);
    DecimalIsAscii(p.id);
  }

  lemma JoinIsAscii(texts: seq<string>)
    requires forall k :: 0 <= k < |texts| ==> Ascii(texts[k])
    ensures Ascii(Join(texts))
  {
  }

  lemma RowIsAscii(row: RowCell)
    ensures Ascii(RowText(row))
  {
    match row
    case One(pane) => PaneIsAscii(pane);
    case Columns(w, h, y, panes) =>
      DecimalIsAscii(w);
      DecimalIsAscii(h);
      DecimalIsAscii(y);
      forall k | 0 <= k < |panes| ensures Ascii(PaneTexts(panes)[k]) {
        PaneIsAscii(panes[k]);
      }
      JoinIsAscii(PaneTexts(panes));
  }

  lemma LayoutIsAscii(layout: Layout)
    ensures Ascii(LayoutText(layout))
  {
    match layout
    case OneRow(row) => RowIsAscii(row);
    case Stack(w, h, rows) =>
      DecimalIsAscii(w);
      DecimalIsAscii(h);
      forall k | 0 <= k < |rows| ensures Ascii(RowTexts(rows)[k]) {
        RowIsAscii(rows[k]);
      }
      JoinIsAscii(RowTexts(rows));
      var front := Decimal(w) + "x" + Decimal(h) + ",0,0" + "[";
      assert Ascii(front);
      assert Ascii(front + Join(RowTexts(rows)));
  }

  /** The string that is sent passes the receiver's check; with one character of its body replaced by
      another one below U+10000, it never does. */
  lemma SentLayoutIsGuarded(panes: nat, width: int, height: int, k: nat, d: char)
    requires panes >= 2 && k < |LayoutText(LayoutOf(panes, width, height))|
    ensures var body := LayoutText(LayoutOf(panes, width, height));
            var sent := LayoutChecksum.Sealed(body);
            LayoutChecksum.Accepted(sent)
            && (d < 0x1_0000 as char && d != body[k] ==> !LayoutChecksum.Accepted(sent[5 + k := d]))
  {
    LayoutIsAscii(LayoutOf(panes, width, height));
    AsciiIsGuarded(LayoutText(LayoutOf(panes, width, height)), k, d);
  }

  lemma AsciiIsGuarded(body: string, k: nat, d: char)
    requires Ascii(body) && k < |body|
    ensures var sent := LayoutChecksum.Sealed(body);
            LayoutChecksum.Accepted(sent)
            && (d < 0x1_0000 as char && d != body[k] ==> !LayoutChecksum.Accepted(sent[5 + k := d]))
  {
    LayoutChecksum.SealedIsAccepted(body);
    if d < 0x1_0000 as char && d != body[k] {
      var head, c, tail := body[..k], body[k], body[k + 1..];
      assert head + [c] + tail == body;
      assert c < 128 as char;
      ChangeIsRefused(LayoutChecksum.Sealed(body)[5 + k := d], head, c, d, tail);
    }
  }

  lemma ChangeIsRefused(changed: string, head: string, c: char, d: char, tail: string)
    requires c < 128 as char && d < 0x1_0000 as char && d != c
    requires changed == LayoutChecksum.Sealed(head + [c] + tail)[5 + |head| := d]
    ensures !LayoutChecksum.Accepted(changed)
  {
    var sealed := LayoutChecksum.Sealed(head + [c] + tail);
    OneChanged(sealed, head, c, d, tail);
    LayoutChecksum.ChangedLayoutAcceptedIff(head, c, d, tail);
  }

  lemma OneChanged(sent: string, head: string, c: char, d: char, tail: string)
    requires |sent| >= 5 && sent[5..] == head + [c] + tail
    ensures sent[5 + |head| := d] == sent[..5] + head + [d] + tail
  {
    assert sent == sent[..5] + head + [c] + tail;
  }
}
