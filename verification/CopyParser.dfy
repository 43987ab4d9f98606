/** The indentation parser of the fixed-copy file (slack_copy/renderer.py). */
module CopyParser {
  import opened Wrappers
  import opened WhiteSpace
  import opened CopyScalars

  /** The reader of scalars that the parser is given: _parse_scalar is one. */
  type Scalars = (string, nat) -> Result<Value, Error>

  function ScalarsOf(eval: Eval): (scalars: Scalars) {
    (raw: string, line: nat) => ParseScalar(eval, raw, line)
  }

  datatype Line = Line(indent: nat, content: string, number: nat)

  // ---------------------------------------------------------------- reading lines

  function LeadingSpaces(s: string): (n: nat)
    ensures n <= |s| && (n < |s| ==> s[n] != ' ') && forall i :: 0 <= i < n ==> s[i] == ' '
  {
    if s == "" || s[0] != ' ' then 0 else 1 + LeadingSpaces(s[1..])
  }

  function ReadLine(raw: string, number: nat): (r: Result<Option<Line>, Error>) {
    if '\t' in raw then Err(Tabs(number))
    else if Trim(raw) == "" || TrimStart(raw)[..1] == "#" then Ok(None)
    else
      var indent := LeadingSpaces(raw);
      var content := TrimEnd(WithoutComment(raw[indent..]));
      if content == "" then Ok(None) else Ok(Some(Line(indent, content, number)))
  }

  /** The lines that carry content, up to the first line with a tab. */
  function LinesOf(raws: seq<string>): (r: Result<seq<Line>, Error>) {
    if raws == [] then Ok([])
    else
      match LinesOf(raws[..|raws| - 1])
      case Err(e) => Err(e)
      case Ok(lines) =>
        match ReadLine(raws[|raws| - 1], |raws|)
        case Err(e) => Err(e)
        case Ok(None) => Ok(lines)
        case Ok(Some(line)) => Ok(lines + [line])
  }

  lemma {:induction false} TabsStopReading(raws: seq<string>, k: nat)
    requires k <= |raws| && LinesOf(raws[..k]).Err?
    ensures LinesOf(raws) == LinesOf(raws[..k])
    decreases |raws| - k
  {
    if k == |raws| {
      assert raws[..k] == raws;
    } else {
      assert raws[..k + 1][..k] == raws[..k];
      TabsStopReading(raws, k + 1);
    }
  }

  method ReadLines(raws: seq<string>) returns (r: Result<seq<Line>, Error>)
    ensures r == LinesOf(raws)
  {
    var lines: seq<Line> := [];
    for i := 0 to |raws|
      invariant LinesOf(raws[..i]) == Ok(lines)
    {
      var raw, number := raws[i], i + 1;
      assert raws[..i + 1][..i] == raws[..i];
      if '\t' in raw {
        TabsStopReading(raws, i + 1);
        return Err(Tabs(number));
      }
      if Trim(raw) == "" || TrimStart(raw)[..1] == "#" {
        continue;
      }
      var indent := LeadingSpaces(raw);
      var content := StripComment(raw[indent..]);
      content := TrimEnd(content);
      if content != "" {
        lines := lines + [Line(indent, content, number)];
      }
    }
    assert raws[..|raws|] == raws;
    return Ok(lines);
  }

  /** What reading ensures of each line: it has content, and no white space after it. */
  predicate Read(lines: seq<Line>) {
    forall i :: 0 <= i < |lines| ==> Trimmed(lines[i].content)
  }

  predicate Trimmed(content: string) {
    content != "" && !IsSpace(content[|content| - 1])
  }

  lemma LineIsRead(raw: string, number: nat)
    ensures var r := ReadLine(raw, number); r.Ok? && r.value.Some? ==> Trimmed(r.value.value.content)
  {
    TrimEndIs(WithoutComment(raw[LeadingSpaces(raw)..]));
  }

  lemma {:induction false} LinesAreRead(raws: seq<string>)
    ensures LinesOf(raws).Ok? ==> Read(LinesOf(raws).value)
  {
    if raws != [] {
      LinesAreRead(raws[..|raws| - 1]);
      LineIsRead(raws[|raws| - 1], |raws|);
    }
  }

  // ---------------------------------------------------------------- what the parser computes

  predicate StartsItem(content: string) {
    |content| >= 2 && content[..2] == "- "
  }

  predicate HasKey(entries: seq<Pair>, key: string) {
    exists i :: 0 <= i < |entries| && entries[i].key == key
  }

  /** Deeper lines follow this one. */
  predicate Opens(lines: seq<Line>, index: nat, indent: nat) {
    index + 1 < |lines| && lines[index + 1].indent > indent
  }

  /** A value, and the index of the first line after it. */
  datatype Parsed<T> = Parsed(value: T, next: nat) | Failed(error: Error)

  function BlockFrom(scalars: Scalars, lines: seq<Line>, index: nat, indent: nat): (r: Parsed<Value>)
    requires index <= |lines|
    ensures r.Parsed? ==> index <= r.next <= |lines|
    decreases |lines| - index, 3
  {
    if index >= |lines| then Parsed(Dict([]), index)
    else
      var line := lines[index];
      if line.indent != indent then Failed(UnexpectedIndentation(line.number))
      else if StartsItem(line.content) then
        match ItemsFrom(scalars, lines, index, indent, [])
        case Failed(e) => Failed(e)
        case Parsed(items, next) => Parsed(List(items), next)
      else
        match EntriesFrom(scalars, lines, index, indent, [])
        case Failed(e) => Failed(e)
        case Parsed(entries, next) => Parsed(Dict(entries), next)
  }

  /** The value of a key: on the same line, in the deeper lines that follow, or empty. */
  function ValueFrom(scalars: Scalars, lines: seq<Line>, index: nat, indent: nat, raw: string): (r: Parsed<Value>)
    requires index < |lines|
    ensures r.Parsed? ==> index < r.next <= |lines|
    decreases |lines| - index, 0
  {
    if raw != "" then OnOneLine(scalars(raw, lines[index].number), index)
    else if Opens(lines, index, indent) then BlockFrom(scalars, lines, index + 1, lines[index + 1].indent)
    else Parsed(Dict([]), index + 1)
  }

  function OnOneLine(value: Result<Value, Error>, index: nat): (r: Parsed<Value>)
    ensures r.Parsed? <==> value.Ok?
    ensures r.Parsed? ==> r.next == index + 1
  {
    match value
    case Err(e) => Failed(e)
    case Ok(v) => Parsed(v, index + 1)
  }

  /** The key of a line, and what follows it. */
  function KeyFrom(line: Line, indent: nat, result: seq<Pair>): (r: Result<(string, string), Error>) {
    if line.indent > indent then Err(UnexpectedIndentation(line.number))
    else if StartsItem(line.content) then Err(UnexpectedItem(line.number))
    else
      var split := KeyValue(line.content, line.number);
      if split.Ok? && HasKey(result, split.value.0) then Err(DuplicateKey(split.value.0, line.number)) else split
  }

  /** One key and its value. */
  function EntryFrom(scalars: Scalars, lines: seq<Line>, index: nat, indent: nat, result: seq<Pair>): (r: Parsed<Pair>)
    requires index < |lines|
    ensures r.Parsed? ==> index < r.next <= |lines|
    decreases |lines| - index, 1
  {
    match KeyFrom(lines[index], indent, result)
    case Err(e) => Failed(e)
    case Ok((key, raw)) =>
      match ValueFrom(scalars, lines, index, indent, raw)
      case Failed(e) => Failed(e)
      case Parsed(value, next) => Parsed(Pair(key, value), next)
  }

  function EntriesFrom(scalars: Scalars, lines: seq<Line>, index: nat, indent: nat, result: seq<Pair>)
    : (r: Parsed<seq<Pair>>)
    requires index <= |lines|
    ensures r.Parsed? ==> index <= r.next <= |lines|
    decreases |lines| - index, 2
  {
    if index >= |lines| || lines[index].indent < indent then Parsed(result, index)
    else
      match EntryFrom(scalars, lines, index, indent, result)
      case Failed(e) => Failed(e)
      case Parsed(entry, next) => EntriesFrom(scalars, lines, next, indent, result + [entry])
  }

  /** The value of a list item written on one line. */
  function ItemValue(scalars: Scalars, raw: string, line: nat): (r: Result<Value, Error>) {
    if LooksLikeInlineMapping(raw) then
      var (key, text) := KeyValue(raw, line).value;
      if text == "" then Ok(Dict([Pair(key, Dict([]))]))
      else
        match scalars(text, line)
        case Err(e) => Err(e)
        case Ok(value) => Ok(Dict([Pair(key, value)]))
    else scalars(raw, line)
  }

  /** One list item. */
  function ItemFrom(scalars: Scalars, lines: seq<Line>, index: nat, indent: nat): (r: Parsed<Value>)
    requires index < |lines| && StartsItem(lines[index].content)
    ensures r.Parsed? ==> index < r.next <= |lines|
    decreases |lines| - index, 0
  {
    var line := lines[index];
    var raw := Trim(line.content[2..]);
    if raw == "" && Opens(lines, index, indent) then BlockFrom(scalars, lines, index + 1, lines[index + 1].indent)
    else if raw == "" then Parsed(Text(""), index + 1)
    else OnOneLine(ItemValue(scalars, raw, line.number), index)
  }

  function ItemsFrom(scalars: Scalars, lines: seq<Line>, index: nat, indent: nat, result: seq<Value>)
    : (r: Parsed<seq<Value>>)
    requires index <= |lines|
    ensures r.Parsed? ==> index <= r.next <= |lines|
    decreases |lines| - index, 2
  {
    if index >= |lines| || lines[index].indent < indent then Parsed(result, index)
    else if lines[index].indent > indent then Failed(UnexpectedIndentation(lines[index].number))
    else if !StartsItem(lines[index].content) then Parsed(result, index)
    else
      match ItemFrom(scalars, lines, index, indent)
      case Failed(e) => Failed(e)
      case Parsed(value, next) => ItemsFrom(scalars, lines, next, indent, result + [value])
  }

  function ParseLines(scalars: Scalars, lines: seq<Line>): (r: Result<seq<Pair>, Error>) {
    if lines == [] then Ok([])
    else
      match BlockFrom(scalars, lines, 0, lines[0].indent)
      case Failed(e) => Err(e)
      case Parsed(data, index) =>
        if index != |lines| then Err(UnexpectedContent(lines[index].number))
        else if !data.Dict? then Err(NotAMapping)
        else Ok(data.entries)
  }

  // ---------------------------------------------------------------- the parser

  method ParseBlock(scalars: Scalars, lines: seq<Line>, index: nat, indent: nat) returns (r: Parsed<Value>)
    requires index <= |lines|
    ensures r == BlockFrom(scalars, lines, index, indent)
    decreases |lines| - index, 3
  {
    if index >= |lines| {
      return Parsed(Dict([]), index);
    }
    var line := lines[index];
    if line.indent != indent {
      return Failed(UnexpectedIndentation(line.number));
    }
    if StartsItem(line.content) {
      var items := ParseList(scalars, lines, index, indent);
      match items
      case Failed(e) => return Failed(e);
      case Parsed(values, next) => return Parsed(List(values), next);
    }
    var entries := ParseMapping(scalars, lines, index, indent);
    match entries
    case Failed(e) => return Failed(e);
    case Parsed(pairs, next) => return Parsed(Dict(pairs), next);
  }

  method ParseMapping(scalars: Scalars, lines: seq<Line>, start: nat, indent: nat) returns (r: Parsed<seq<Pair>>)
    requires start <= |lines|
    ensures r == EntriesFrom(scalars, lines, start, indent, [])
    decreases |lines| - start, 2
  {
    var index, result: seq<Pair> := start, [];
    while index < |lines|
      invariant start <= index <= |lines|
      invariant EntriesFrom(scalars, lines, index, indent, result) == EntriesFrom(scalars, lines, start, indent, [])
      decreases |lines| - index
    {
      var line := lines[index];
      if line.indent < indent {
        break;
      }
      ghost var entry := EntryFrom(scalars, lines, index, indent, result);
      if line.indent > indent {
        return Failed(UnexpectedIndentation(line.number));
      }
      if StartsItem(line.content) {
        return Failed(UnexpectedItem(line.number));
      }
      var split := SplitKeyValue(line.content, line.number);
      if split.Err? {
        return Failed(split.error);
      }
      var (key, raw) := split.value;
      if HasKey(result, key) {
        return Failed(DuplicateKey(key, line.number));
      }
      var value := ParseValue(scalars, lines, index, indent, raw);
      if value.Failed? {
        return Failed(value.error);
      }
      index := value.next;
      result := result + [Pair(key, value.value)];
      assert entry == Parsed(Pair(key, value.value), index);
    }
    return Parsed(result, index);
  }

  /** The part of a pass that finds the value. */
  method ParseValue(scalars: Scalars, lines: seq<Line>, index: nat, indent: nat, raw: string)
    returns (r: Parsed<Value>)
    requires index < |lines|
    ensures r == ValueFrom(scalars, lines, index, indent, raw)
    decreases |lines| - index, 0
  {
    if raw == "" {
      var nextIndex := index + 1;
      if nextIndex < |lines| && lines[nextIndex].indent > indent {
        r := ParseBlock(scalars, lines, nextIndex, lines[nextIndex].indent);
      } else {
        r := Parsed(Dict([]), nextIndex);
      }
    } else {
      var scalar := scalars(raw, lines[index].number);
      if scalar.Err? {
        return Failed(scalar.error);
      }
      r := Parsed(scalar.value, index + 1);
    }
  }

  method ParseList(scalars: Scalars, lines: seq<Line>, start: nat, indent: nat) returns (r: Parsed<seq<Value>>)
    requires start <= |lines|
    ensures r == ItemsFrom(scalars, lines, start, indent, [])
    decreases |lines| - start, 2
  {
    var index, result: seq<Value> := start, [];
    while index < |lines|
      invariant start <= index <= |lines|
      invariant ItemsFrom(scalars, lines, index, indent, result) == ItemsFrom(scalars, lines, start, indent, [])
      decreases |lines| - index
    {
      var line := lines[index];
      if line.indent < indent {
        break;
      }
      if line.indent > indent {
        return Failed(UnexpectedIndentation(line.number));
      }
      if !StartsItem(line.content) {
        break;
      }
      var item := ParseItem(scalars, lines, index, indent);
      if item.Failed? {
        return Failed(item.error);
      }
      index := item.next;
      result := result + [item.value];
    }
    return Parsed(result, index);
  }

  /** One pass of the loop over list items. */
  method ParseItem(scalars: Scalars, lines: seq<Line>, index: nat, indent: nat) returns (r: Parsed<Value>)
    requires index < |lines| && StartsItem(lines[index].content)
    ensures r == ItemFrom(scalars, lines, index, indent)
    decreases |lines| - index, 0
  {
    var line := lines[index];
    var raw := Trim(line.content[2..]);
    if raw == "" {
      var nextIndex := index + 1;
      if nextIndex < |lines| && lines[nextIndex].indent > indent {
        r := ParseBlock(scalars, lines, nextIndex, lines[nextIndex].indent);
        return;
      }
      return Parsed(Text(""), nextIndex);
    }
    var value := ParseItemValue(scalars, raw, line.number);
    if value.Err? {
      return Failed(value.error);
    }
    return Parsed(value.value, index + 1);
  }

  method ParseItemValue(scalars: Scalars, raw: string, line: nat) returns (r: Result<Value, Error>)
    ensures r == ItemValue(scalars, raw, line)
  {
    if LooksLikeInlineMapping(raw) {
      var split := SplitKeyValue(raw, line);
      var (key, text) := split.value;
      if text == "" {
        return Ok(Dict([Pair(key, Dict([]))]));
      }
      var scalar := scalars(text, line);
      if scalar.Err? {
        return Err(scalar.error);
      }
      return Ok(Dict([Pair(key, scalar.value)]));
    }
    return scalars(raw, line);
  }

  method Parse(scalars: Scalars, raws: seq<string>) returns (r: Result<seq<Pair>, Error>)
    ensures r == match LinesOf(raws) case Err(e) => Err(e) case Ok(lines) => ParseLines(scalars, lines)
  {
    var read := ReadLines(raws);
    if read.Err? {
      return Err(read.error);
    }
    var lines := read.value;
    if lines == [] {
      return Ok([]);
    }
    var block := ParseBlock(scalars, lines, 0, lines[0].indent);
    if block.Failed? {
      return Err(block.error);
    }
    if block.next != |lines| {
      return Err(UnexpectedContent(lines[block.next].number));
    }
    if !block.value.Dict? {
      return Err(NotAMapping);
    }
    return Ok(block.value.entries);
  }
}
