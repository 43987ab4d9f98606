/** What a receiver reads from a layout string: the cells of tmux's own notation. */
module PaneReader {
  import opened Wrappers
  import opened Numerals
  import opened PaneGrid
  import opened PaneTiling
  import PaneCover
  import LayoutChecksum

  /** A cell is a numbered pane, or is divided into cells side by side or one below the other. */
  datatype Cell =
    | Leaf(w: int, h: int, x: int, y: int, id: nat)
    | Beside(w: int, h: int, x: int, y: int, cells: seq<Cell>)
    | Stacked(w: int, h: int, x: int, y: int, cells: seq<Cell>)

  datatype Box = Box(w: int, h: int, x: int, y: int)

  // ---------------------------------------------------------------- the reader

  predicate NumberChar(c: char) {
    Digit(c) || c == '-'
  }

  function NumberSpan(text: string): (span: nat)
    ensures span <= |text|
  {
    if text != "" && NumberChar(text[0]) then 1 + NumberSpan(text[1..]) else 0
  }

  /** The number at the front, and what follows it. */
  function ReadNumber(text: string): (r: Option<(int, string)>)
    ensures r.Some? ==> |r.value.1| < |text|
  {
    var span := NumberSpan(text);
    if IsInteger(text[..span]) then Some((IntegerValue(text[..span]), text[span..])) else None
  }

  /** The number at the front, which must be followed by this character. */
  function ReadUpTo(text: string, stop: char): (r: Option<(int, string)>)
    ensures r.Some? ==> |r.value.1| < |text|
  {
    match ReadNumber(text)
    case Some((n, rest)) => if rest != "" && rest[0] == stop then Some((n, rest[1..])) else None
    case None => None
  }

  /** Size and corner: WxH,X,Y. */
  function ReadBox(text: string): (r: Option<(Box, string)>)
    ensures r.Some? ==> |r.value.1| < |text|
  {
    var w := ReadUpTo(text, 'x');
    if w.None? then None
    else
      var h := ReadUpTo(w.value.1, ',');
      if h.None? then None
      else
        var x := ReadUpTo(h.value.1, ',');
        if x.None? then None
        else
          var y := ReadNumber(x.value.1);
          if y.None? then None else Some((Box(w.value.0, h.value.0, x.value.0, y.value.0), y.value.1))
  }

  function ReadCell(text: string): (r: Option<(Cell, string)>)
    ensures r.Some? ==> |r.value.1| < |text|
    decreases |text|, 0
  {
    match ReadBox(text)
    case Some((box, behind)) => ReadBehind(box, behind)
    case None => None
  }

  /** A pane ends with its number; braces enclose cells side by side, brackets cells one below the other. */
  function ReadBehind(box: Box, behind: string): (r: Option<(Cell, string)>)
    ensures r.Some? ==> |r.value.1| < |behind|
    decreases |behind|, 0
  {
    var Box(w, h, x, y) := box;
    if behind == "" then None
    else if behind[0] == ',' then
      match ReadNumber(behind[1..])
      case Some((id, rest)) => if id >= 0 then Some((Leaf(w, h, x, y, id), rest)) else None
      case None => None
    else if behind[0] == '{' then
      match ReadCells(behind[1..], '}')
      case Some((cells, rest)) => Some((Beside(w, h, x, y, cells), rest))
      case None => None
    else if behind[0] == '[' then
      match ReadCells(behind[1..], ']')
      case Some((cells, rest)) => Some((Stacked(w, h, x, y, cells), rest))
      case None => None
    else None
  }

  /** Cells up to the closing character, with commas between them. */
  function ReadCells(text: string, close: char): (r: Option<(seq<Cell>, string)>)
    ensures r.Some? ==> |r.value.1| < |text|
    decreases |text|, 1
  {
    match ReadCell(text)
    case Some((cell, behind)) => ReadOthers(cell, behind, close)
    case None => None
  }

  function ReadOthers(cell: Cell, behind: string, close: char): (r: Option<(seq<Cell>, string)>)
    ensures r.Some? ==> |r.value.1| < |behind|
    decreases |behind|, 0
  {
    if behind == "" then None
    else if behind[0] == close then Some(([cell], behind[1..]))
    else if behind[0] == ',' then
      match ReadCells(behind[1..], close)
      case Some((more, rest)) => Some(([cell] + more, rest))
      case None => None
    else None
  }

  function Read(text: string): (r: Option<Cell>) {
    match ReadCell(text)
    case Some((cell, rest)) => if rest == "" then Some(cell) else None
    case None => None
  }

  /** A string is taken only if its checksum is right. */
  function ReadSent(sent: string): (r: Option<Cell>) {
    if LayoutChecksum.Accepted(sent) then Read(sent[5..]) else None
  }

  // ---------------------------------------------------------------- numbers and boxes

  predicate NoNumber(rest: string) {
    rest == "" || !NumberChar(rest[0])
  }

  lemma {:induction false} SpanIs(front: string, rest: string)
    requires (forall i :: 0 <= i < |front| ==> NumberChar(front[i])) && NoNumber(rest)
    ensures NumberSpan(front + rest) == |front|
  {
    if front == "" {
      assert front + rest == rest;
    } else {
      assert (front + rest)[1..] == front[1..] + rest;
      SpanIs(front[1..], rest);
    }
  }

  lemma NumberRead(n: int, rest: string)
    requires NoNumber(rest)
    ensures ReadNumber(Decimal(n) + rest) == Some((n, rest))
  {
    DecimalRead(n);
    SpanIs(Decimal(n), rest);
    var text, span := Decimal(n) + rest, |Decimal(n)|;
    assert text[..span] == Decimal(n) && text[span..] == rest;
  }

  lemma UpToRead(n: int, stop: char, rest: string)
    requires !NumberChar(stop)
    ensures ReadUpTo(Decimal(n) + ([stop] + rest), stop) == Some((n, rest))
  {
    NumberRead(n, [stop] + rest);
    assert ([stop] + rest)[1..] == rest;
  }

  function BoxText(b: Box): (text: string) {
    Decimal(b.w) + ("x" + (Decimal(b.h) + ("," + (Decimal(b.x) + ("," + Decimal(b.y))))))
  }

  lemma BoxRead(b: Box, rest: string)
    requires NoNumber(rest)
    ensures ReadBox(BoxText(b) + rest) == Some((b, rest))
  {
    var y := Decimal(b.y) + rest;
    var x := Decimal(b.x) + ("," + y);
    var h := Decimal(b.h) + ("," + x);
    FiveParts(Decimal(b.w), Decimal(b.h), Decimal(b.x), Decimal(b.y), rest);
    UpToRead(b.w, 'x', h);
    UpToRead(b.h, ',', x);
    UpToRead(b.x, ',', y);
    NumberRead(b.y, rest);
  }

  lemma FiveParts(w: string, h: string, x: string, y: string, rest: string)
    ensures w + ("x" + (h + ("," + (x + ("," + y))))) + rest == w + ("x" + (h + ("," + (x + ("," + (y + rest))))))
  {
  }

  // ---------------------------------------------------------------- cells

  /** Whatever follows it, unless that would continue its last number, the text is read as the cell. */
  ghost predicate Reads(text: string, cell: Cell) {
    forall rest :: NoNumber(rest) ==> ReadCell(text + rest) == Some((cell, rest))
  }

  function LeafOf(p: Pane): (cell: Cell) {
    Leaf(p.w, p.h, p.x, p.y, p.id)
  }

  lemma PaneReads(p: Pane)
    ensures Reads(PaneText(p), LeafOf(p))
  {
    var box := Box(p.w, p.h, p.x, p.y);
    forall rest | NoNumber(rest) ensures ReadCell(PaneText(p) + rest) == Some((LeafOf(p), rest)) {
      var tail := "," + (Decimal(p.id) + rest);
      PaneTextIs(p, rest);
      BoxRead(box, tail);
      assert tail[1..] == Decimal(p.id) + rest;
      NumberRead(p.id, rest);
    }
  }

  lemma PaneTextIs(p: Pane, rest: string)
    ensures PaneText(p) + rest == BoxText(Box(p.w, p.h, p.x, p.y)) + ("," + (Decimal(p.id) + rest))
  {
    SixParts(Decimal(p.w), Decimal(p.h), Decimal(p.x), Decimal(p.y), Decimal(p.id), rest);
  }

  lemma SixParts(w: string, h: string, x: string, y: string, id: string, rest: string)
    ensures w + "x" + h + "," + x + "," + y + "," + id + rest
            == w + ("x" + (h + ("," + (x + ("," + y))))) + ("," + (id + rest))
  {
  }

  lemma LastRead(cell: Cell, behind: string, close: char)
    requires behind != "" && behind[0] == close
    ensures ReadOthers(cell, behind, close) == Some(([cell], behind[1..]))
  {
  }

  lemma MoreRead(cell: Cell, behind: string, more: seq<Cell>, close: char, rest: string)
    requires behind != "" && behind[0] == ',' != close && ReadCells(behind[1..], close) == Some((more, rest))
    ensures ReadOthers(cell, behind, close) == Some(([cell] + more, rest))
  {
  }

  lemma LastCellRead(text: string, cell: Cell, close: char, rest: string)
    requires Reads(text, cell) && !NumberChar(close)
    ensures ReadCells(text + ([close] + rest), close) == Some(([cell], rest))
  {
    var behind := [close] + rest;
    assert NoNumber(behind) && behind[1..] == rest;
    assert ReadCell(text + behind) == Some((cell, behind));
    LastRead(cell, behind, close);
  }

  lemma NextCellRead(text: string, cell: Cell, others: string, more: seq<Cell>, close: char, rest: string)
    requires Reads(text, cell) && close != ',' && ReadCells(others, close) == Some((more, rest))
    ensures ReadCells(text + ("," + others), close) == Some(([cell] + more, rest))
  {
    var behind := "," + others;
    assert NoNumber(behind) && behind[1..] == others;
    assert ReadCell(text + behind) == Some((cell, behind));
    MoreRead(cell, behind, more, close, rest);
  }

  /** Cells with commas between them are read up to the closing character. */
  lemma {:induction false} CellsRead(texts: seq<string>, cells: seq<Cell>, close: char, rest: string)
    requires 0 < |texts| == |cells| && close != ',' && !NumberChar(close)
    requires forall k :: 0 <= k < |texts| ==> Reads(texts[k], cells[k])
    ensures ReadCells(Join(texts) + ([close] + rest), close) == Some((cells, rest))
    decreases |texts|
  {
    if |texts| == 1 {
      LastCellRead(texts[0], cells[0], close, rest);
      assert cells == [cells[0]];
    } else {
      var others := Join(texts[1..]) + ([close] + rest);
      CellsRead(texts[1..], cells[1..], close, rest);
      NextCellRead(texts[0], cells[0], others, cells[1..], close, rest);
      JoinedFront(texts, [close] + rest);
      assert [cells[0]] + cells[1..] == cells;
    }
  }

  lemma JoinedFront(texts: seq<string>, end: string)
    requires |texts| > 1
    ensures Join(texts) + end == texts[0] + ("," + (Join(texts[1..]) + end))
  {
    ThreeParts(texts[0], Join(texts[1..]), end);
  }

  lemma ThreeParts(a: string, b: string, c: string)
    ensures a + "," + b + c == a + ("," + (b + c))
  {
  }

  /** Cells in braces behind their box. */
  lemma BesideReads(box: Box, texts: seq<string>, cells: seq<Cell>, rest: string)
    requires 0 < |texts| == |cells| && forall k :: 0 <= k < |texts| ==> Reads(texts[k], cells[k])
    ensures ReadCell(BoxText(box) + ("{" + (Join(texts) + ("}" + rest))))
            == Some((Beside(box.w, box.h, box.x, box.y, cells), rest))
  {
    CellsRead(texts, cells, '}', rest);
    BesideRead(box, Join(texts) + ("}" + rest), cells, rest);
  }

  lemma BesideRead(box: Box, inner: string, cells: seq<Cell>, rest: string)
    requires ReadCells(inner, '}') == Some((cells, rest))
    ensures ReadCell(BoxText(box) + ("{" + inner)) == Some((Beside(box.w, box.h, box.x, box.y, cells), rest))
  {
    BoxRead(box, "{" + inner);
    BracesRead(box, "{" + inner, cells, rest);
  }

  lemma BracesRead(box: Box, behind: string, cells: seq<Cell>, rest: string)
    requires behind != "" && behind[0] == '{' && ReadCells(behind[1..], '}') == Some((cells, rest))
    ensures ReadBehind(box, behind) == Some((Beside(box.w, box.h, box.x, box.y, cells), rest))
  {
  }

  lemma BracketsRead(box: Box, behind: string, cells: seq<Cell>, rest: string)
    requires behind != "" && behind[0] == '[' && ReadCells(behind[1..], ']') == Some((cells, rest))
    ensures ReadBehind(box, behind) == Some((Stacked(box.w, box.h, box.x, box.y, cells), rest))
  {
  }

  /** Cells in brackets behind their box. */
  lemma StackedReads(box: Box, texts: seq<string>, cells: seq<Cell>, rest: string)
    requires 0 < |texts| == |cells| && forall k :: 0 <= k < |texts| ==> Reads(texts[k], cells[k])
    ensures ReadCell(BoxText(box) + ("[" + (Join(texts) + ("]" + rest))))
            == Some((Stacked(box.w, box.h, box.x, box.y, cells), rest))
  {
    CellsRead(texts, cells, ']', rest);
    StackedRead(box, Join(texts) + ("]" + rest), cells, rest);
  }

  lemma StackedRead(box: Box, inner: string, cells: seq<Cell>, rest: string)
    requires ReadCells(inner, ']') == Some((cells, rest))
    ensures ReadCell(BoxText(box) + ("[" + inner)) == Some((Stacked(box.w, box.h, box.x, box.y, cells), rest))
  {
    BoxRead(box, "[" + inner);
    BracketsRead(box, "[" + inner, cells, rest);
  }

  // ---------------------------------------------------------------- rows and layouts

  function LeavesOf(panes: seq<Pane>): (cells: seq<Cell>)
    ensures |cells| == |panes| && forall k :: 0 <= k < |panes| ==> cells[k] == LeafOf(panes[k])
  {
    seq(|panes|, k requires 0 <= k < |panes| => LeafOf(panes[k]))
  }

  function RowTree(row: RowCell): (cell: Cell) {
    match row
    case One(pane) => LeafOf(pane)
    case Columns(w, h, y, panes) => Beside(w, h, 0, y, LeavesOf(panes))
  }

  function RowTrees(rows: seq<RowCell>): (cells: seq<Cell>)
    ensures |cells| == |rows| && forall k :: 0 <= k < |rows| ==> cells[k] == RowTree(rows[k])
  {
    seq(|rows|, k requires 0 <= k < |rows| => RowTree(rows[k]))
  }

  function Tree(layout: Layout): (cell: Cell) {
    match layout
    case OneRow(row) => RowTree(row)
    case Stack(w, h, rows) => Stacked(w, h, 0, 0, RowTrees(rows))
  }

  lemma RowReads(row: RowCell)
    requires row.Columns? ==> row.panes != []
    ensures Reads(RowText(row), RowTree(row))
  {
    match row
    case One(pane) => PaneReads(pane);
    case Columns(w, h, y, panes) =>
      forall k | 0 <= k < |panes| ensures Reads(PaneTexts(panes)[k], LeavesOf(panes)[k]) {
        PaneReads(panes[k]);
      }
      forall rest | NoNumber(rest) ensures ReadCell(RowText(row) + rest) == Some((RowTree(row), rest)) {
        BesideReads(Box(w, h, 0, y), PaneTexts(panes), LeavesOf(panes), rest);
        RowTextIs(w, h, y, panes, rest);
      }
  }

  lemma RowTextIs(w: int, h: int, y: int, panes: seq<Pane>, rest: string)
    ensures RowText(Columns(w, h, y, panes)) + rest
            == BoxText(Box(w, h, 0, y)) + ("{" + (Join(PaneTexts(panes)) + ("}" + rest)))
  {
    assert Decimal(0) == "0";
    NestParts(Decimal(w), Decimal(h), "0", Decimal(y), "{", Join(PaneTexts(panes)), "}", rest);
    Middle(Decimal(w) + "x" + Decimal(h));
  }

  lemma Middle(a: string)
    ensures a + ",0," == a + "," + "0" + ","
  {
  }

  lemma NestParts(w: string, h: string, x: string, y: string, open: string, inner: string, close: string, rest: string)
    ensures w + "x" + h + "," + x + "," + y + open + inner + close + rest
            == w + ("x" + (h + ("," + (x + ("," + y))))) + (open + (inner + (close + rest)))
  {
  }

  predicate NotEmpty(layout: Layout) {
    match layout
    case OneRow(row) => row.Columns? ==> row.panes != []
    case Stack(_, _, rows) => rows != [] && forall row <- rows :: row.Columns? ==> row.panes != []
  }

  /** Every layout is read back from its text, cell by cell. */
  lemma LayoutIsRead(layout: Layout)
    requires NotEmpty(layout)
    ensures Read(LayoutText(layout)) == Some(Tree(layout))
  {
    match layout
    case OneRow(row) =>
      RowReads(row);
      assert RowText(row) + "" == RowText(row);
      assert NoNumber("");
    case Stack(w, h, rows) =>
      forall k | 0 <= k < |rows| ensures Reads(RowTexts(rows)[k], RowTrees(rows)[k]) {
        RowReads(rows[k]);
      }
      StackedReads(Box(w, h, 0, 0), RowTexts(rows), RowTrees(rows), "");
      StackTextIs(w, h, rows);
  }

  lemma StackTextIs(w: int, h: int, rows: seq<RowCell>)
    ensures LayoutText(Stack(w, h, rows)) == BoxText(Box(w, h, 0, 0)) + ("[" + (Join(RowTexts(rows)) + ("]" + "")))
  {
    assert Decimal(0) == "0";
    NestParts(Decimal(w), Decimal(h), "0", "0", "[", Join(RowTexts(rows)), "]", "");
    Corner(Decimal(w) + "x" + Decimal(h));
  }

  lemma Corner(a: string)
    ensures a + ",0,0" == a + "," + "0" + "," + "0"
  {
  }

  // ---------------------------------------------------------------- the string that is sent

  /** The numbered panes of a cell, in the order of the text. */
  function PanesIn(cell: Cell): (panes: seq<Pane>) {
    if cell.Leaf? then [Pane(cell.w, cell.h, cell.x, cell.y, cell.id)] else PanesInAll(cell.cells)
  }

  function PanesInAll(cells: seq<Cell>): (panes: seq<Pane>) {
    if cells == [] then [] else PanesInAll(cells[..|cells| - 1]) + PanesIn(cells[|cells| - 1])
  }

  /** Cells side by side have the height of the whole; they start at its corner and end at its right edge, with one
      border cell between neighbours. */
  predicate SideBySide(box: Box, cells: seq<Cell>) {
    && |cells| >= 2 && cells[0].x == box.x
    && (forall cell <- cells :: cell.h == box.h && cell.y == box.y)
    && (forall k :: 0 < k < |cells| ==> cells[k].x == cells[k - 1].x + cells[k - 1].w + 1)
    && cells[|cells| - 1].x + cells[|cells| - 1].w == box.x + box.w
  }

  predicate OneBelowTheOther(box: Box, cells: seq<Cell>) {
    && |cells| >= 2 && cells[0].y == box.y
    && (forall cell <- cells :: cell.w == box.w && cell.x == box.x)
    && (forall k :: 0 < k < |cells| ==> cells[k].y == cells[k - 1].y + cells[k - 1].h + 1)
    && cells[|cells| - 1].y + cells[|cells| - 1].h == box.y + box.h
  }

  /** Every divided cell has several parts, and is filled by them. */
  predicate Fits(cell: Cell) {
    match cell
    case Leaf(_, _, _, _, _) => true
    case Beside(w, h, x, y, cells) => SideBySide(Box(w, h, x, y), cells) && forall c <- cells :: Fits(c)
    case Stacked(w, h, x, y, cells) => OneBelowTheOther(Box(w, h, x, y), cells) && forall c <- cells :: Fits(c)
  }

  lemma {:induction false} LeavesInAll(panes: seq<Pane>)
    ensures PanesInAll(LeavesOf(panes)) == panes
  {
    if panes != [] {
      var before := panes[..|panes| - 1];
      LeavesInAll(before);
      assert LeavesOf(panes)[..|panes| - 1] == LeavesOf(before);
    }
  }

  lemma PanesInRow(row: RowCell)
    ensures PanesIn(RowTree(row)) == PaneCover.PanesOf(row)
  {
    if row.Columns? {
      LeavesInAll(row.panes);
    }
  }

  lemma {:induction false} PanesInRows(rows: seq<RowCell>)
    ensures PanesInAll(RowTrees(rows)) == PaneCover.Flatten(rows)
  {
    if rows != [] {
      var before := rows[..|rows| - 1];
      PanesInRows(before);
      assert RowTrees(rows)[..|rows| - 1] == RowTrees(before);
      PanesInRow(rows[|rows| - 1]);
    }
  }

  lemma PanesInTree(layout: Layout)
    ensures PanesIn(Tree(layout)) == PaneCover.Panes(layout)
  {
    match layout
    case OneRow(row) => PanesInRow(row);
    case Stack(_, _, rows) => PanesInRows(rows);
  }

  lemma RowFits(width: int, length: nat, h: int, y: int, first: nat)
    requires length > 0
    ensures var cell := RowTree(RowAt(width, length, h, y, first));
            Fits(cell) && cell.w == width && cell.h == h && cell.x == 0 && cell.y == y
  {
    var panes := PanesOfRow(width, length, h, y, first);
    OffsetStep(width, length, 0);
    OffsetStep(width, length, length - 1);
    OffsetEnd(width, length);
    forall k | 0 < k < length ensures panes[k].x == panes[k - 1].x + panes[k - 1].w + 1 {
      OffsetStep(width, length, k - 1);
    }
    if length > 1 {
      assert SideBySide(Box(width, h, 0, y), LeavesOf(panes));
    }
  }

  /** The cell of row i has the window's width and stands where the row does. */
  lemma RowCellFits(panes: nat, width: int, height: int, g: Grid, i: nat)
    requires InGrid(panes, g, i)
    ensures var cell := RowTree(RowOf(panes, width, height, g, i));
            && Fits(cell) && cell.w == width && cell.h == Extent(height, g.rows, i)
            && cell.x == 0 && cell.y == Offset(height, g.rows, i)
  {
    RowFits(width, LengthOf(panes, g, i), Extent(height, g.rows, i), Offset(height, g.rows, i), FirstOf(panes, g, i));
  }

  lemma RowsFit(panes: nat, width: int, height: int, g: Grid)
    requires InGrid(panes, g, 0)
    ensures var cells := RowTrees(RowsOf(panes, width, height, g));
            && |cells| == g.rows
            && (g.rows >= 2 ==> OneBelowTheOther(Box(width, height, 0, 0), cells))
            && (g.rows == 1 ==> cells[0].h == height && cells[0].y == 0)
            && forall i :: 0 <= i < g.rows ==> Fits(cells[i]) && cells[i].w == width && cells[i].x == 0
  {
    var cells := RowTrees(RowsOf(panes, width, height, g));
    forall i | 0 <= i < g.rows
      ensures Fits(cells[i]) && cells[i].w == width && cells[i].h == Extent(height, g.rows, i)
      ensures cells[i].x == 0 && cells[i].y == Offset(height, g.rows, i)
    {
      RowCellFits(panes, width, height, g, i);
    }
    CellsFollow(width, height, cells);
  }

  /** Cells with the extents and offsets of one direction fill it. */
  lemma CellsFollow(width: int, height: int, cells: seq<Cell>)
    requires cells != [] && forall i :: 0 <= i < |cells| ==>
               cells[i].w == width && cells[i].x == 0
               && cells[i].h == Extent(height, |cells|, i) && cells[i].y == Offset(height, |cells|, i)
    ensures |cells| >= 2 ==> OneBelowTheOther(Box(width, height, 0, 0), cells)
    ensures |cells| == 1 ==> cells[0].h == height && cells[0].y == 0
  {
    OffsetStep(height, |cells|, 0);
    OffsetStep(height, |cells|, |cells| - 1);
    OffsetEnd(height, |cells|);
    forall k | 0 < k < |cells| ensures cells[k].y == cells[k - 1].y + cells[k - 1].h + 1 {
      OffsetStep(height, |cells|, k - 1);
    }
  }

  lemma LayoutFits(panes: nat, width: int, height: int)
    requires panes >= 2
    ensures var cell := Tree(LayoutOf(panes, width, height));
            Fits(cell) && cell.w == width && cell.h == height && cell.x == 0 && cell.y == 0
  {
    RowsFit(panes, width, height, Shape(panes, width, height));
  }

  lemma LayoutNotEmpty(panes: nat, width: int, height: int)
    requires panes >= 2
    ensures NotEmpty(LayoutOf(panes, width, height))
  {
    var g := Shape(panes, width, height);
    var rows := RowsOf(panes, width, height, g);
    forall i | 0 <= i < g.rows ensures rows[i].Columns? ==> rows[i].panes != [] {
      assert rows[i] == RowOf(panes, width, height, g, i);
    }
  }

  /** The receiver takes the string that is sent for a window, and reads from it exactly the panes of the layout, in
      cells that fill the window and one another. */
  lemma SentLayoutIsRead(panes: nat, width: int, height: int)
    requires panes >= 2
    ensures var layout := LayoutOf(panes, width, height);
            var cell := ReadSent(LayoutChecksum.Sealed(LayoutText(layout)));
            && cell.Some? && Fits(cell.value) && PanesIn(cell.value) == PaneCover.Panes(layout)
            && cell.value.w == width && cell.value.h == height && cell.value.x == 0 && cell.value.y == 0
  {
    var layout := LayoutOf(panes, width, height);
    LayoutNotEmpty(panes, width, height);
    LayoutIsRead(layout);
    PanesInTree(layout);
    LayoutFits(panes, width, height);
    SealedIsRead(LayoutText(layout));
  }

  lemma SealedIsRead(body: string)
    ensures ReadSent(LayoutChecksum.Sealed(body)) == Read(body)
  {
    LayoutChecksum.SealedIsAccepted(body);
    assert LayoutChecksum.Sealed(body)[5..] == body;
  }
}
