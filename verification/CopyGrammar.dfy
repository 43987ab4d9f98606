/** The language that the indentation parser accepts, as trees of lines, and what they mean. */
module CopyGrammar {
  import opened Wrappers
  import opened CopyScalars
  import opened CopyParser

  datatype Block =
    | Mapping(indent: nat, entries: Entries)
    | Listing(indent: nat, items: Items)

  datatype Entries =
    | NoEntry
    | Plain(line: Line, rest: Entries)                  // a scalar on the line, or nothing
    | Nesting(line: Line, block: Block, rest: Entries)  // a key alone, and a deeper block

  datatype Items = NoItem | Item(line: Line, others: Items)

  // ---------------------------------------------------------------- text and meaning

  function Lines(b: Block): (lines: seq<Line>) {
    match b
    case Mapping(_, entries) => EntryLines(entries)
    case Listing(_, items) => ItemLines(items)
  }

  function EntryLines(es: Entries): (lines: seq<Line>) {
    match es
    case NoEntry => []
    case Plain(line, rest) => [line] + EntryLines(rest)
    case Nesting(line, block, rest) => [line] + Lines(block) + EntryLines(rest)
  }

  function ItemLines(items: Items): (lines: seq<Line>) {
    match items
    case NoItem => []
    case Item(line, others) => [line] + ItemLines(others)
  }

  function KeyOf(line: Line): (r: Result<(string, string), Error>) {
    KeyValue(line.content, line.number)
  }

  /** A line of a mapping: a key that no earlier line of the block has. */
  predicate KeyLine(line: Line, indent: nat, before: seq<Pair>) {
    line.indent == indent && !StartsItem(line.content) && KeyOf(line).Ok? && !HasKey(before, KeyOf(line).value.0)
  }

  /** The value on a line after its key. */
  function PlainValue(scalars: Scalars, line: Line): (r: Result<Value, Error>)
    requires KeyOf(line).Ok?
  {
    if KeyOf(line).value.1 == "" then Ok(Dict([])) else scalars(KeyOf(line).value.1, line.number)
  }

  function ValueOfItem(scalars: Scalars, line: Line): (r: Result<Value, Error>)
    requires StartsItem(line.content)
  {
    ItemValue(scalars, Trim(line.content[2..]), line.number)
  }

  predicate ItemLine(scalars: Scalars, line: Line, indent: nat) {
    line.indent == indent && StartsItem(line.content) && ValueOfItem(scalars, line).Ok?
  }

  predicate Valid(scalars: Scalars, b: Block)
    decreases b, 0
  {
    match b
    case Mapping(indent, entries) => entries != NoEntry && ValidEntries(scalars, entries, indent, [])
    case Listing(indent, items) => items != NoItem && ValidItems(scalars, items, indent)
  }

  predicate ValidEntries(scalars: Scalars, es: Entries, indent: nat, before: seq<Pair>)
    decreases es, 0
  {
    match es
    case NoEntry => true
    case Plain(line, rest) =>
      KeyLine(line, indent, before) && PlainValue(scalars, line).Ok?
      && ValidEntries(scalars, rest, indent, before + [Pair(KeyOf(line).value.0, PlainValue(scalars, line).value)])
    case Nesting(line, block, rest) =>
      KeyLine(line, indent, before) && KeyOf(line).value.1 == "" && block.indent > indent && Valid(scalars, block)
      && ValidEntries(scalars, rest, indent, before + [Pair(KeyOf(line).value.0, Meaning(scalars, block))])
  }

  predicate ValidItems(scalars: Scalars, items: Items, indent: nat) {
    match items
    case NoItem => true
    case Item(line, others) => ItemLine(scalars, line, indent) && ValidItems(scalars, others, indent)
  }

  function Meaning(scalars: Scalars, b: Block): (v: Value)
    requires Valid(scalars, b)
    decreases b, 1
  {
    match b
    case Mapping(indent, entries) => Dict(EntriesMeaning(scalars, entries, indent, []))
    case Listing(indent, items) => List(ItemsMeaning(scalars, items, indent))
  }

  /** The pairs before these entries, and those of the entries. */
  function EntriesMeaning(scalars: Scalars, es: Entries, indent: nat, before: seq<Pair>): (pairs: seq<Pair>)
    requires ValidEntries(scalars, es, indent, before)
    decreases es, 1
  {
    match es
    case NoEntry => before
    case Plain(line, rest) =>
      EntriesMeaning(scalars, rest, indent, before + [Pair(KeyOf(line).value.0, PlainValue(scalars, line).value)])
    case Nesting(line, block, rest) =>
      EntriesMeaning(scalars, rest, indent, before + [Pair(KeyOf(line).value.0, Meaning(scalars, block))])
  }

  function ItemsMeaning(scalars: Scalars, items: Items, indent: nat): (values: seq<Value>)
    requires ValidItems(scalars, items, indent)
  {
    match items
    case NoItem => []
    case Item(line, others) =>
      [ValueOfItem(scalars, line).value] + ItemsMeaning(scalars, others, indent)
  }

  /** These entries are valid after those pairs, and mean this. */
  ghost predicate Means(scalars: Scalars, es: Entries, indent: nat, before: seq<Pair>, pairs: seq<Pair>) {
    ValidEntries(scalars, es, indent, before) && EntriesMeaning(scalars, es, indent, before) == pairs
  }

  lemma {:induction false} PlainMeans(scalars: Scalars, line: Line, rest: Entries, indent: nat, before: seq<Pair>,
                                      entry: Pair, pairs: seq<Pair>)
    requires KeyLine(line, indent, before) && KeyOf(line).value.0 == entry.key
    requires PlainValue(scalars, line) == Ok(entry.value) && Means(scalars, rest, indent, before + [entry], pairs)
    ensures Means(scalars, Plain(line, rest), indent, before, pairs)
  {
    assert Pair(KeyOf(line).value.0, PlainValue(scalars, line).value) == entry;
  }

  lemma {:induction false} NestingMeans(scalars: Scalars, line: Line, block: Block, rest: Entries, indent: nat,
                                        before: seq<Pair>, entry: Pair, pairs: seq<Pair>)
    requires KeyLine(line, indent, before) && KeyOf(line).value == (entry.key, "")
    requires block.indent > indent && Valid(scalars, block) && Meaning(scalars, block) == entry.value
    requires Means(scalars, rest, indent, before + [entry], pairs)
    ensures Means(scalars, Nesting(line, block, rest), indent, before, pairs)
  {
    assert Pair(KeyOf(line).value.0, Meaning(scalars, block)) == entry;
  }

  lemma {:induction false} MappingMeans(scalars: Scalars, es: Entries, indent: nat, pairs: seq<Pair>)
    requires es != NoEntry && Means(scalars, es, indent, [], pairs)
    ensures Valid(scalars, Mapping(indent, es)) && Meaning(scalars, Mapping(indent, es)) == Dict(pairs)
  {
  }

  // ---------------------------------------------------------------- where a tree stands

  /** The index after the lines of a tree that stand in the file from this index on. */
  function BlockEnd(lines: seq<Line>, index: nat, b: Block): (end: Option<nat>)
    decreases b
  {
    match b
    case Mapping(_, entries) => EntriesEnd(lines, index, entries)
    case Listing(_, items) => ItemsEnd(lines, index, items)
  }

  function EntriesEnd(lines: seq<Line>, index: nat, es: Entries): (end: Option<nat>)
    decreases es
  {
    match es
    case NoEntry => Some(index)
    case Plain(line, rest) =>
      if index < |lines| && lines[index] == line then EntriesEnd(lines, index + 1, rest) else None
    case Nesting(line, block, rest) =>
      if index < |lines| && lines[index] == line then
        match BlockEnd(lines, index + 1, block)
        case None => None
        case Some(next) => EntriesEnd(lines, next, rest)
      else None
  }

  function ItemsEnd(lines: seq<Line>, index: nat, items: Items): (end: Option<nat>)
    decreases items
  {
    match items
    case NoItem => Some(index)
    case Item(line, others) =>
      if index < |lines| && lines[index] == line then ItemsEnd(lines, index + 1, others) else None
  }

  /** A line left of the block follows, or none. */
  predicate Closed(lines: seq<Line>, index: nat, indent: nat) {
    index < |lines| ==> lines[index].indent < indent
  }

  lemma {:induction false} NextLine(scalars: Scalars, lines: seq<Line>, index: nat, indent: nat, es: Entries,
                                    before: seq<Pair>)
    requires ValidEntries(scalars, es, indent, before)
    requires EntriesEnd(lines, index, es).Some? && Closed(lines, EntriesEnd(lines, index, es).value, indent)
    ensures Closed(lines, index, indent + 1)
  {
  }

  lemma {:induction false} FirstLine(scalars: Scalars, lines: seq<Line>, index: nat, b: Block)
    requires Valid(scalars, b) && BlockEnd(lines, index, b).Some?
    ensures index < |lines| && lines[index].indent == b.indent && (StartsItem(lines[index].content) <==> b.Listing?)
  {
  }

  // ---------------------------------------------------------------- whatever is derived is parsed

  /** White space in front of a trimmed text leaves something. */
  lemma ItemHasText(content: string)
    requires Trimmed(content) && StartsItem(content)
    ensures Trim(content[2..]) != ""
  {
    var tail := content[2..];
    assert content[..2][1] == ' ';
    assert tail != "" && tail[|tail| - 1] == content[|content| - 1];
    TrimStartIs(tail);
    TrimEndIs(TrimStart(tail));
  }

  lemma {:induction false} BlockParses(scalars: Scalars, lines: seq<Line>, index: nat, b: Block)
    requires Read(lines) && Valid(scalars, b)
    requires BlockEnd(lines, index, b).Some? && Closed(lines, BlockEnd(lines, index, b).value, b.indent)
    requires index <= |lines|
    ensures BlockFrom(scalars, lines, index, b.indent) == Parsed(Meaning(scalars, b), BlockEnd(lines, index, b).value)
    decreases b, 0
  {
    FirstLine(scalars, lines, index, b);
    match b
    case Mapping(indent, entries) => EntriesParse(scalars, lines, index, indent, entries, []);
    case Listing(indent, items) =>
      ItemsParse(scalars, lines, index, indent, items, []);
      assert [] + ItemsMeaning(scalars, items, indent) == ItemsMeaning(scalars, items, indent);
  }

  /** What is to be shown of a list of entries. */
  ghost predicate EntriesParsed(scalars: Scalars, lines: seq<Line>, index: nat, indent: nat, es: Entries,
                                before: seq<Pair>)
    requires index <= |lines| && ValidEntries(scalars, es, indent, before) && EntriesEnd(lines, index, es).Some?
  {
    EntriesFrom(scalars, lines, index, indent, before)
    == Parsed(EntriesMeaning(scalars, es, indent, before), EntriesEnd(lines, index, es).value)
  }

  lemma {:induction false} EntriesParse(scalars: Scalars, lines: seq<Line>, index: nat, indent: nat, es: Entries,
                                        before: seq<Pair>)
    requires Read(lines) && ValidEntries(scalars, es, indent, before) && index <= |lines|
    requires EntriesEnd(lines, index, es).Some? && Closed(lines, EntriesEnd(lines, index, es).value, indent)
    ensures EntriesParsed(scalars, lines, index, indent, es, before)
    decreases es, 1
  {
    match es
    case NoEntry =>
    case Plain(line, rest) =>
      var entry := Pair(KeyOf(line).value.0, PlainValue(scalars, line).value);
      NextLine(scalars, lines, index + 1, indent, rest, before + [entry]);
      EntriesParse(scalars, lines, index + 1, indent, rest, before + [entry]);
      PlainParses(scalars, lines, index, indent, line, rest, before, entry);
    case Nesting(line, block, rest) =>
      var entry := Pair(KeyOf(line).value.0, Meaning(scalars, block));
      FirstLine(scalars, lines, index + 1, block);
      var next := BlockEnd(lines, index + 1, block).value;
      NextLine(scalars, lines, next, indent, rest, before + [entry]);
      BlockParses(scalars, lines, index + 1, block);
      EntriesParse(scalars, lines, next, indent, rest, before + [entry]);
      NestingParses(scalars, lines, index, indent, line, block, rest, before, entry, next);
  }

  lemma {:induction false} PlainParses(scalars: Scalars, lines: seq<Line>, index: nat, indent: nat, line: Line,
                                       rest: Entries, before: seq<Pair>, entry: Pair)
    requires index < |lines| && lines[index] == line && !Opens(lines, index, indent)
    requires ValidEntries(scalars, Plain(line, rest), indent, before)
    requires entry == Pair(KeyOf(line).value.0, PlainValue(scalars, line).value)
    requires EntriesEnd(lines, index + 1, rest).Some?
    requires EntriesParsed(scalars, lines, index + 1, indent, rest, before + [entry])
    ensures EntriesParsed(scalars, lines, index, indent, Plain(line, rest), before)
  {
    PlainEntry(scalars, lines, index, indent, line, before);
  }

  lemma {:induction false} NestingParses(scalars: Scalars, lines: seq<Line>, index: nat, indent: nat, line: Line,
                                         block: Block, rest: Entries, before: seq<Pair>, entry: Pair, next: nat)
    requires index < |lines| && lines[index] == line && Opens(lines, index, indent)
    requires ValidEntries(scalars, Nesting(line, block, rest), indent, before)
    requires entry == Pair(KeyOf(line).value.0, Meaning(scalars, block))
    requires BlockEnd(lines, index + 1, block) == Some(next) && next <= |lines|
    requires BlockFrom(scalars, lines, index + 1, lines[index + 1].indent) == Parsed(Meaning(scalars, block), next)
    requires EntriesEnd(lines, next, rest).Some?
    requires EntriesParsed(scalars, lines, next, indent, rest, before + [entry])
    ensures EntriesParsed(scalars, lines, index, indent, Nesting(line, block, rest), before)
  {
    NestedEntry(scalars, lines, index, indent, line, block, before, next);
  }

  lemma {:induction false} PlainEntry(scalars: Scalars, lines: seq<Line>, index: nat, indent: nat, line: Line,
                                      before: seq<Pair>)
    requires index < |lines| && lines[index] == line && !Opens(lines, index, indent)
    requires KeyLine(line, indent, before) && PlainValue(scalars, line).Ok?
    ensures EntryFrom(scalars, lines, index, indent, before)
            == Parsed(Pair(KeyOf(line).value.0, PlainValue(scalars, line).value), index + 1)
  {
    var (key, raw) := KeyOf(line).value;
    assert ValueFrom(scalars, lines, index, indent, raw) == Parsed(PlainValue(scalars, line).value, index + 1);
  }

  lemma {:induction false} NestedEntry(scalars: Scalars, lines: seq<Line>, index: nat, indent: nat, line: Line,
                                       block: Block,
                                       before: seq<Pair>, next: nat)
    requires index < |lines| && lines[index] == line && Opens(lines, index, indent)
    requires KeyLine(line, indent, before) && KeyOf(line).value.1 == "" && Valid(scalars, block)
    requires BlockFrom(scalars, lines, index + 1, lines[index + 1].indent) == Parsed(Meaning(scalars, block), next)
    ensures EntryFrom(scalars, lines, index, indent, before)
            == Parsed(Pair(KeyOf(line).value.0, Meaning(scalars, block)), next)
  {
    assert ValueFrom(scalars, lines, index, indent, "") == Parsed(Meaning(scalars, block), next);
  }

  /** What is to be shown of a list of items. */
  ghost predicate ItemsParsed(scalars: Scalars, lines: seq<Line>, index: nat, indent: nat, items: Items,
                              before: seq<Value>)
    requires index <= |lines| && ValidItems(scalars, items, indent) && ItemsEnd(lines, index, items).Some?
  {
    ItemsFrom(scalars, lines, index, indent, before)
    == Parsed(before + ItemsMeaning(scalars, items, indent), ItemsEnd(lines, index, items).value)
  }

  lemma {:induction false} ItemsParse(scalars: Scalars, lines: seq<Line>, index: nat, indent: nat, items: Items,
                                      before: seq<Value>)
    requires Read(lines) && ValidItems(scalars, items, indent) && index <= |lines|
    requires ItemsEnd(lines, index, items).Some? && Closed(lines, ItemsEnd(lines, index, items).value, indent)
    ensures ItemsParsed(scalars, lines, index, indent, items, before)
    decreases items
  {
    match items
    case NoItem =>
      assert before + [] == before;
    case Item(line, others) =>
      ItemsParse(scalars, lines, index + 1, indent, others, before + [ValueOfItem(scalars, line).value]);
      FirstItemParses(scalars, lines, index, indent, line, others, before);
  }

  lemma {:induction false} FirstItemParses(scalars: Scalars, lines: seq<Line>, index: nat, indent: nat, line: Line,
                                           others: Items, before: seq<Value>)
    requires Read(lines) && index < |lines| && lines[index] == line && ValidItems(scalars, Item(line, others), indent)
    requires ItemsEnd(lines, index + 1, others).Some?
    requires ItemsParsed(scalars, lines, index + 1, indent, others, before + [ValueOfItem(scalars, line).value])
    ensures ItemsParsed(scalars, lines, index, indent, Item(line, others), before)
  {
    OneItem(scalars, lines, index, indent, before);
    assert before + [ValueOfItem(scalars, line).value] + ItemsMeaning(scalars, others, indent)
           == before + ItemsMeaning(scalars, Item(line, others), indent);
  }

  lemma {:induction false} OneItem(scalars: Scalars, lines: seq<Line>, index: nat, indent: nat, before: seq<Value>)
    requires Read(lines) && index < |lines| && ItemLine(scalars, lines[index], indent)
    ensures var value := ValueOfItem(scalars, lines[index]).value;
            ItemFrom(scalars, lines, index, indent) == Parsed(value, index + 1)
            && ItemsFrom(scalars, lines, index, indent, before)
               == ItemsFrom(scalars, lines, index + 1, indent, before + [value])
  {
    ItemHasText(lines[index].content);
  }

  // ---------------------------------------------------------------- whatever is parsed is derived

  lemma {:induction false} BlockDerives(scalars: Scalars, lines: seq<Line>, index: nat, indent: nat) returns (b: Block)
    requires Read(lines) && index < |lines| && BlockFrom(scalars, lines, index, indent).Parsed?
    ensures Valid(scalars, b) && b.indent == indent
    ensures BlockFrom(scalars, lines, index, indent).value == Meaning(scalars, b)
    ensures BlockEnd(lines, index, b) == Some(BlockFrom(scalars, lines, index, indent).next)
    decreases |lines| - index, 1
  {
    if StartsItem(lines[index].content) {
      var items := ItemsDerive(scalars, lines, index, indent, []);
      b := Listing(indent, items);
      assert [] + ItemsMeaning(scalars, items, indent) == ItemsMeaning(scalars, items, indent);
    } else {
      var es := EntriesDerive(scalars, lines, index, indent, []);
      b := Mapping(indent, es);
    }
  }

  lemma {:induction false} EntriesDerive(scalars: Scalars, lines: seq<Line>, index: nat, indent: nat, before: seq<Pair>)
    returns (es: Entries)
    requires Read(lines) && index <= |lines| && EntriesFrom(scalars, lines, index, indent, before).Parsed?
    ensures ValidEntries(scalars, es, indent, before) && (es == NoEntry <==> Closed(lines, index, indent))
    ensures EntriesEnd(lines, index, es).Some? && EntriesParsed(scalars, lines, index, indent, es, before)
    decreases |lines| - index, 0
  {
    if Closed(lines, index, indent) {
      return NoEntry;
    }
    var line := lines[index];
    var parsed := EntryFrom(scalars, lines, index, indent, before);
    var entry, next := parsed.value, parsed.next;
    var rest := EntriesDerive(scalars, lines, next, indent, before + [entry]);
    var (key, raw) := KeyOf(line).value;
    if raw == "" && Opens(lines, index, indent) {
      NestedDerived(scalars, lines, index, indent, before, entry, next);
      var block := BlockDerives(scalars, lines, index + 1, lines[index + 1].indent);
      es := Nesting(line, block, rest);
      NestingParses(scalars, lines, index, indent, line, block, rest, before, entry, next);
    } else {
      es := Plain(line, rest);
      PlainDerived(scalars, lines, index, indent, rest, before, entry, next);
    }
  }

  lemma {:induction false} NestedDerived(scalars: Scalars, lines: seq<Line>, index: nat, indent: nat,
                                         before: seq<Pair>, entry: Pair, next: nat)
    requires index < |lines| && EntryFrom(scalars, lines, index, indent, before) == Parsed(entry, next)
    requires KeyOf(lines[index]).Ok? && KeyOf(lines[index]).value.1 == "" && Opens(lines, index, indent)
    ensures entry.key == KeyOf(lines[index]).value.0 && lines[index].indent <= indent
    ensures !StartsItem(lines[index].content) && !HasKey(before, entry.key)
    ensures BlockFrom(scalars, lines, index + 1, lines[index + 1].indent) == Parsed(entry.value, next)
  {
    assert ValueFrom(scalars, lines, index, indent, "")
           == BlockFrom(scalars, lines, index + 1, lines[index + 1].indent);
  }

  lemma {:induction false} PlainDerived(scalars: Scalars, lines: seq<Line>, index: nat, indent: nat, rest: Entries,
                                        before: seq<Pair>, entry: Pair, next: nat)
    requires index < |lines| && lines[index].indent >= indent && next <= |lines|
    requires EntryFrom(scalars, lines, index, indent, before) == Parsed(entry, next)
    requires !(KeyOf(lines[index]).Ok? && KeyOf(lines[index]).value.1 == "" && Opens(lines, index, indent))
    requires ValidEntries(scalars, rest, indent, before + [entry]) && EntriesEnd(lines, next, rest).Some?
    requires EntriesParsed(scalars, lines, next, indent, rest, before + [entry])
    ensures ValidEntries(scalars, Plain(lines[index], rest), indent, before)
    ensures EntriesEnd(lines, index, Plain(lines[index], rest)).Some?
    ensures EntriesParsed(scalars, lines, index, indent, Plain(lines[index], rest), before)
  {
    var raw := KeyOf(lines[index]).value.1;
    assert ValueFrom(scalars, lines, index, indent, raw) == Parsed(entry.value, next);
    assert next == index + 1;
    assert PlainValue(scalars, lines[index]) == Ok(entry.value);
  }

  lemma {:induction false} ItemAccepted(scalars: Scalars, lines: seq<Line>, index: nat, indent: nat, before: seq<Value>)
    requires Read(lines) && index < |lines| && ItemsFrom(scalars, lines, index, indent, before).Parsed?
    requires !Closed(lines, index, indent) && StartsItem(lines[index].content)
    ensures ItemLine(scalars, lines[index], indent)
  {
    ItemHasText(lines[index].content);
  }

  lemma {:induction false} ItemsDerive(scalars: Scalars, lines: seq<Line>, index: nat, indent: nat, before: seq<Value>)
    returns (items: Items)
    requires Read(lines) && index <= |lines| && ItemsFrom(scalars, lines, index, indent, before).Parsed?
    ensures ValidItems(scalars, items, indent) && ItemsEnd(lines, index, items).Some?
    ensures items == NoItem <==> Closed(lines, index, indent) || !StartsItem(lines[index].content)
    ensures ItemsParsed(scalars, lines, index, indent, items, before)
    decreases |lines| - index, 0
  {
    if Closed(lines, index, indent) || !StartsItem(lines[index].content) {
      items := NoItem;
      assert before + [] == before;
    } else {
      var line := lines[index];
      ItemAccepted(scalars, lines, index, indent, before);
      OneItem(scalars, lines, index, indent, before);
      var others := ItemsDerive(scalars, lines, index + 1, indent, before + [ValueOfItem(scalars, line).value]);
      items := Item(line, others);
      FirstItemParses(scalars, lines, index, indent, line, others, before);
    }
  }

  // ---------------------------------------------------------------- the whole file

  lemma {:induction false} BlockEndIff(lines: seq<Line>, index: nat, b: Block, end: nat)
    requires index <= |lines|
    ensures BlockEnd(lines, index, b) == Some(end) <==>
            end <= |lines| && end == index + |Lines(b)| && lines[index..end] == Lines(b)
    decreases b, 1
  {
    match b
    case Mapping(_, entries) => EntriesEndIff(lines, index, entries, end);
    case Listing(_, items) => ItemsEndIff(lines, index, items, end);
  }

  /** A prefix of a stretch of lines, and what follows it. */
  lemma Stretch(lines: seq<Line>, index: nat, first: seq<Line>, rest: seq<Line>, end: nat)
    requires index <= |lines|
    ensures var middle := index + |first|;
            end <= |lines| && end == middle + |rest| && lines[index..end] == first + rest <==>
            end <= |lines| && end == middle + |rest| && lines[index..middle] == first && lines[middle..end] == rest
  {
    var middle := index + |first|;
    if end <= |lines| && end == middle + |rest| {
      assert lines[index..end] == lines[index..middle] + lines[middle..end];
      if lines[index..end] == first + rest {
        assert lines[index..middle] == lines[index..end][..|first|] == first;
        assert lines[middle..end] == lines[index..end][|first|..] == rest;
      }
    }
  }

  lemma {:induction false} EntriesEndIff(lines: seq<Line>, index: nat, es: Entries, end: nat)
    requires index <= |lines|
    ensures EntriesEnd(lines, index, es) == Some(end) <==>
            end <= |lines| && end == index + |EntryLines(es)| && lines[index..end] == EntryLines(es)
    decreases es, 0
  {
    match es
    case NoEntry =>
    case Plain(line, rest) =>
      Stretch(lines, index, [line], EntryLines(rest), end);
      if index < |lines| {
        assert lines[index..index + 1] == [lines[index]];
        EntriesEndIff(lines, index + 1, rest, end);
      }
    case Nesting(line, block, rest) =>
      var inner, middle := [line] + Lines(block), index + 1 + |Lines(block)|;
      Stretch(lines, index, inner, EntryLines(rest), end);
      Stretch(lines, index, [line], Lines(block), middle);
      if index < |lines| {
        assert lines[index..index + 1] == [lines[index]];
        BlockEndIff(lines, index + 1, block, middle);
        if BlockEnd(lines, index + 1, block).Some? {
          BlockEndIff(lines, index + 1, block, BlockEnd(lines, index + 1, block).value);
        }
        if middle <= |lines| {
          EntriesEndIff(lines, middle, rest, end);
        }
      }
  }

  lemma {:induction false} ItemsEndIff(lines: seq<Line>, index: nat, items: Items, end: nat)
    requires index <= |lines|
    ensures ItemsEnd(lines, index, items) == Some(end) <==>
            end <= |lines| && end == index + |ItemLines(items)| && lines[index..end] == ItemLines(items)
    decreases items
  {
    match items
    case NoItem =>
    case Item(line, others) =>
      Stretch(lines, index, [line], ItemLines(others), end);
      if index < |lines| {
        assert lines[index..index + 1] == [lines[index]];
        ItemsEndIff(lines, index + 1, others, end);
      }
  }

  /** The parser accepts exactly the files that are one valid mapping from the first line to the last, or
      have no line with content, and returns what the mapping means. */
  lemma ParsedIffDerived(scalars: Scalars, lines: seq<Line>, pairs: seq<Pair>)
    requires Read(lines)
    ensures ParseLines(scalars, lines) == Ok(pairs) <==>
            if lines == [] then pairs == []
            else exists b: Block ::
              b.Mapping? && Lines(b) == lines && Valid(scalars, b) && Meaning(scalars, b) == Dict(pairs)
  {
    if lines != [] {
      if ParseLines(scalars, lines) == Ok(pairs) {
        var b := BlockDerives(scalars, lines, 0, lines[0].indent);
        BlockEndIff(lines, 0, b, |lines|);
        assert lines[0..|lines|] == lines;
        assert Lines(b) == lines;
      }
      forall b: Block | b.Mapping? && Lines(b) == lines && Valid(scalars, b) && Meaning(scalars, b) == Dict(pairs)
        ensures ParseLines(scalars, lines) == Ok(pairs)
      {
        BlockEndIff(lines, 0, b, |lines|);
        assert lines[0..|lines|] == lines;
        FirstLine(scalars, lines, 0, b);
        BlockParses(scalars, lines, 0, b);
      }
    }
  }
}
