/** What the fixed-copy parser makes of a document that was written out for it. */
module CopyRoundTrip {
  import opened Wrappers
  import opened WhiteSpace
  import opened Numerals
  import opened CopyScalars
  import opened CopyParser
  import opened CopyGrammar
  import opened CopyDocuments

  // ---------------------------------------------------------------- scalars

  lemma {:induction false} LowerAt(s: string, i: nat)
    requires i < |s|
    ensures Lower(s)[i] == if 'A' <= s[i] <= 'Z' then s[i] - 'A' + 'a' else s[i]
  {
    if i < |s| - 1 {
      LowerAt(s[..|s| - 1], i);
    }
  }

  /** A text that starts with a digit, a minus sign or a quote is none of the words. */
  lemma NoWord(text: string)
    requires text != "" && (Digit(text[0]) || text[0] == '-' || text[0] == '"')
    ensures Lower(text) != "null" && Lower(text) != "~" && Lower(text) != "true" && Lower(text) != "false"
    ensures text != "|" && text != ">" && text != "[]" && text != "{}"
  {
    LowerAt(text, 0);
  }

  /** Small and capital letters make no difference, and nothing else does. */
  lemma LowerIsIff(s: string, word: string)
    requires word in {"null", "true", "false", "~"}
    ensures Lower(s) == word <==> SpelledAs(s, word)
  {
    forall i | 0 <= i < |s| && |s| == |word|
      ensures Lower(s)[i] == word[i] <==>
              s[i] == word[i] || ('a' <= word[i] <= 'z' && s[i] == word[i] - 'a' + 'A')
    {
      LowerAt(s, i);
    }
  }

  /** The words for null, true and false, in any mixture of small and capital letters, and "~" for null. */
  lemma WordRead(eval: Eval, s: string, word: string, line: nat)
    requires SpelledAs(s, word) && word in {"null", "true", "false", "~"}
    ensures ParseScalar(eval, s, line) ==
              Ok(if word == "true" then Bool(true) else if word == "false" then Bool(false) else Null)
  {
    LowerIsIff(s, word);
    assert s[0] == word[0] || s[0] == word[0] - 'a' + 'A';
  }

  /** A string that needs no quotes is read as itself. */
  lemma UnquotedRead(eval: Eval, text: string, line: nat)
    requires PlainText(text)
    ensures ParseScalar(eval, text, line) == Ok(Text(text))
  {
    LowerIsIff(text, "null");
    LowerIsIff(text, "true");
    LowerIsIff(text, "false");
    LowerIsIff(text, "~");
    assert text[0] != '"' && text[0] != '\'';
  }

  lemma IntRead(eval: Eval, n: int, line: nat)
    ensures ParseScalar(eval, Decimal(n), line) == Ok(Int(n))
  {
    DecimalRead(n);
    NoWord(Decimal(n));
  }

  lemma TextRead(eval: Eval, text: string, line: nat)
    requires ReadsQuotes(eval) && WritableText(text)
    ensures ParseScalar(eval, Quote(text), line) == Ok(Text(text))
  {
    NoWord(Quote(text));
    assert Quote(text)[0] == '"';
    assert eval(Quote(text)) == Some(Text(text));
    assert !IsInteger(Quote(text));
  }

  /** Every scalar is read back from its text. */
  lemma ScalarRead(eval: Eval, v: Scalar, line: nat)
    requires ReadsQuotes(eval) && WritableScalar(v)
    ensures ParseScalar(eval, ScalarText(v), line) == Ok(ScalarValue(v))
  {
    match v
    case Unquoted(text) => UnquotedRead(eval, text, line);
    case Canonical(Int(n)) => IntRead(eval, n, line);
    case Canonical(Text(text)) => TextRead(eval, text, line);
    case Canonical(Null) => WordRead(eval, "null", "null", line);
    case Canonical(Bool(truth)) => WordRead(eval, ScalarText(v), ScalarText(v), line);
    case _ =>
  }

  /** A scalar is refused exactly when it would open a block, or is a quoted literal that cannot be read. */
  lemma ScalarFailsIff(eval: Eval, s: string, line: nat)
    ensures ParseScalar(eval, s, line) == Err(BlockScalar(line)) <==> s in {"|", ">"}
    ensures ParseScalar(eval, s, line) == Err(InvalidQuoted(line)) <==>
              s != "" && s[0] in {'"', '\''} && eval(s) == None
    ensures ParseScalar(eval, s, line).Err? ==>
              ParseScalar(eval, s, line).error in {BlockScalar(line), InvalidQuoted(line)}
  {
    if s != "" && s[0] in {'"', '\''} {
      LowerAt(s, 0);
    }
  }

  /** A line has no key when nothing but white space stands before its first colon outside quotes, and is no entry at
      all when it has no such colon. */
  lemma KeyFailsIff(content: string, line: nat)
    ensures KeyValue(content, line) == Err(ExpectedKeyValue(line)) <==>
              forall i :: 0 <= i < |content| ==> !ColonAt(content, i)
    ensures KeyValue(content, line) == Err(MissingKey(line)) <==>
              exists i :: 0 <= i < |content| && ColonAt(content, i) && Trim(content[..i]) == ""
                          && forall j :: 0 <= j < i ==> !ColonAt(content, j)
  {
    FirstColonIsFirst(content, 0);
  }

  lemma {:induction false} FirstColonIsFirst(text: string, from: nat)
    requires from <= |text|
    ensures forall i :: from <= i < FirstColon(text, from) ==> !ColonAt(text, i)
    decreases |text| - from
  {
    if from < |text| && !ColonAt(text, from) {
      FirstColonIsFirst(text, from + 1);
    }
  }

  /** Single quotes end at the next single quote, whatever stands before it: a backslash escapes only in double ones. */
  lemma {:induction false} SingleQuotesEnd(head: string, s: string)
    requires ScanOf(head) == Outside && '\'' !in s
    ensures ScanOf(head + "'" + s) == Quoted('\'', false) && ScanOf(head + "'" + s + "'") == Outside
  {
    if s == "" {
      ScanSnoc(head, '\'');
      assert head + "'" + s == head + "'";
    } else {
      var before, c := s[..|s| - 1], s[|s| - 1];
      SingleQuotesEnd(head, before);
      assert c in s;
      ScanSnoc(head + "'" + before, c);
      assert head + "'" + s == head + "'" + before + [c];
    }
    ScanSnoc(head + "'" + s, '\'');
  }

  // ---------------------------------------------------------------- texts

  lemma {:induction false} EscapeIsPrintable(s: string)
    requires WritableText(s)
    ensures AllPrintable(Escape(s))
  {
    if s != "" {
      EscapeIsPrintable(s[..|s| - 1]);
      assert AllPrintable(EscapeChar(s[|s| - 1]));
    }
  }

  lemma QuoteShape(text: string)
    requires WritableText(text)
    ensures TrimmedBoth(Quote(text)) && AllPrintable(Quote(text)) && Quote(text)[0] != '#'
  {
    EscapeIsPrintable(text);
    var q := Quote(text);
    assert q[0] == '"' && q[|q| - 1] == '"';
  }

  lemma DecimalShape(n: int)
    ensures TrimmedBoth(Decimal(n)) && AllPrintable(Decimal(n)) && NoQuote(Decimal(n))
    ensures '#' !in Decimal(n) && ':' !in Decimal(n)
  {
    DecimalRead(n);
  }

  /** A written scalar is printable, has no space at its ends, and starts unlike a comment. */
  lemma ScalarShape(v: Scalar)
    requires WritableScalar(v)
    ensures TrimmedBoth(ScalarText(v)) && AllPrintable(ScalarText(v)) && ScalarText(v)[0] != '#'
    ensures v.Canonical? && !v.value.Text? ==> NoQuote(ScalarText(v)) && '#' !in ScalarText(v) && ':' !in ScalarText(v)
  {
    match v
    case Canonical(Int(n)) => DecimalShape(n);
    case Canonical(Text(text)) => QuoteShape(text);
    case _ =>
  }

  /** After a head without quotes and comments, a written scalar has no comment either. */
  lemma NoCommentIn(head: string, v: Scalar)
    requires NoQuote(head) && '#' !in head && WritableScalar(v)
    ensures WithoutComment(head + ScalarText(v)) == head + ScalarText(v)
  {
    if v.Unquoted? {
      UnquotedTextStays(head, v.text);
    } else if v.value.Text? {
      QuotedTextStays(head, v.value.text);
    } else {
      ScalarShape(v);
      PlainTextStays(head + ScalarText(v));
    }
  }

  /** A content that survives being read: its line gives back its indentation and itself. */
  predicate Clean(content: string) {
    TrimmedBoth(content) && AllPrintable(content) && content[0] != '#' && WithoutComment(content) == content
  }

  lemma KeyHead(key: string)
    requires WritableKey(key)
    ensures NoQuote(key) && '#' !in key && AllPrintable(key) && TrimmedBoth(key)
  {
  }

  /** A head and a scalar that are clean together. */
  lemma CleanTogether(head: string, v: Scalar)
    requires WritableScalar(v) && NoQuote(head) && '#' !in head && AllPrintable(head) && head != "" && !IsSpace(head[0])
    ensures Clean(head + ScalarText(v))
  {
    ScalarShape(v);
    NoCommentIn(head, v);
    var text := head + ScalarText(v);
    assert text[0] == head[0] && text[|text| - 1] == ScalarText(v)[|ScalarText(v)| - 1];
  }

  lemma KeyColon(front: string, key: string)
    requires WritableKey(key) && NoQuote(front) && '#' !in front && AllPrintable(front)
    ensures var head := front + key + ": "; NoQuote(head) && '#' !in head && AllPrintable(head)
  {
    KeyHead(key);
  }

  lemma FieldIsClean(key: string, v: Scalar)
    requires WritableKey(key) && WritableScalar(v)
    ensures Clean(key + ": " + ScalarText(v))
  {
    KeyHead(key);
    KeyColon("", key);
    assert "" + key + ": " == key + ": ";
    CleanTogether(key + ": ", v);
  }

  lemma FieldIsNoItem(key: string, text: string)
    requires WritableKey(key)
    ensures !StartsItem(key + ": " + text)
  {
    NotAnItem(key, ": " + text);
    assert key + ": " + text == key + (": " + text);
  }

  /** A key followed by a colon starts no list item. */
  lemma NotAnItem(key: string, rest: string)
    requires WritableKey(key) && rest != "" && rest[0] == ':'
    ensures !StartsItem(key + rest)
  {
    if |key| >= 2 {
      assert (key + rest)[..2] == key[..2];
    } else {
      assert (key + rest)[..2][1] == ':';
    }
  }

  lemma HeaderIsClean(key: string)
    requires WritableKey(key)
    ensures Clean(key + ":") && !StartsItem(key + ":")
  {
    KeyHead(key);
    PlainTextStays(key + ":");
    NotAnItem(key, ":");
  }

  lemma BareIsClean(v: Scalar)
    requires WritableScalar(v)
    ensures Clean("- " + ScalarText(v)) && StartsItem("- " + ScalarText(v))
  {
    CleanTogether("- ", v);
  }

  lemma SingleIsClean(key: string, v: Scalar)
    requires WritableKey(key) && WritableScalar(v)
    ensures Clean("- " + key + ": " + ScalarText(v)) && StartsItem("- " + key + ": " + ScalarText(v))
  {
    KeyColon("- ", key);
    CleanTogether("- " + key + ": ", v);
  }

  // ---------------------------------------------------------------- reading the lines back

  lemma {:induction false} LeadingSpacesIs(n: nat, content: string)
    requires content != "" && content[0] != ' '
    ensures LeadingSpaces(Spaces(n) + content) == n && TrimStart(Spaces(n) + content) == TrimStart(content)
    decreases n
  {
    if n == 0 {
      assert Spaces(0) + content == content;
    } else {
      assert (Spaces(n) + content)[1..] == Spaces(n - 1) + content;
      LeadingSpacesIs(n - 1, content);
    }
  }

  lemma LineRead(n: nat, content: string, number: nat)
    requires Clean(content)
    ensures ReadLine(Spaces(n) + content, number) == Ok(Some(Line(n, content, number)))
  {
    var raw := Spaces(n) + content;
    LeadingSpacesIs(n, content);
    assert raw[n..] == content;
    assert '\t' !in raw;
  }

  /** Lines that are clean and numbered from here on. */
  predicate Numbered(lines: seq<Line>, first: nat) {
    forall i :: 0 <= i < |lines| ==> Clean(lines[i].content) && lines[i].number == first + i
  }

  lemma RawSnoc(lines: seq<Line>, line: Line)
    ensures RawLines(lines + [line]) == RawLines(lines) + [Spaces(line.indent) + line.content]
  {
    assert (lines + [line])[..|lines|] == lines;
  }

  lemma ReadSnoc(raws: seq<string>, raw: string, lines: seq<Line>, line: Line)
    requires LinesOf(raws) == Ok(lines) && ReadLine(raw, |raws| + 1) == Ok(Some(line))
    ensures LinesOf(raws + [raw]) == Ok(lines + [line])
  {
    var all := raws + [raw];
    assert all[..|raws|] == raws && all[|raws|] == raw && |all| == |raws| + 1;
    assert LinesOf(all[..|all| - 1]) == Ok(lines);
  }

  predicate ReadsBack(line: Line, number: nat) {
    ReadLine(Spaces(line.indent) + line.content, number) == Ok(Some(line))
  }

  lemma {:induction false} AllReadBack(lines: seq<Line>)
    requires forall i :: 0 <= i < |lines| ==> ReadsBack(lines[i], i + 1)
    ensures LinesOf(RawLines(lines)) == Ok(lines)
  {
    if lines != [] {
      var before, last := lines[..|lines| - 1], lines[|lines| - 1];
      AllReadBack(before);
      RawSnoc(before, last);
      assert ReadsBack(last, |lines|);
      ReadSnoc(RawLines(before), Spaces(last.indent) + last.content, before, last);
      assert before + [last] == lines;
    }
  }

  lemma LineReadsBack(line: Line, number: nat)
    requires Clean(line.content) && line.number == number
    ensures ReadsBack(line, number)
  {
    LineRead(line.indent, line.content, number);
  }

  lemma LinesRead(lines: seq<Line>)
    requires Numbered(lines, 1)
    ensures LinesOf(RawLines(lines)) == Ok(lines)
  {
    forall i | 0 <= i < |lines| ensures ReadsBack(lines[i], i + 1) {
      LineReadsBack(lines[i], i + 1);
    }
    AllReadBack(lines);
  }

  // ---------------------------------------------------------------- the tree that was written

  lemma NumberedAppend(lines: seq<Line>, more: seq<Line>, first: nat)
    requires Numbered(lines, first) && Numbered(more, first + |lines|)
    ensures Numbered(lines + more, first)
  {
  }

  lemma {:induction false} BlockNumbered(section: Section, outer: nat, first: nat)
    requires Writable(section)
    ensures Numbered(Lines(WriteBlock(section, outer, first)), first)
    decreases section, 1
  {
    match section
    case Tree(deeper, fields) =>
      FieldsNumbered(fields, [], outer + 1 + deeper, first);
      TreeLines(deeper, fields, outer, first);
    case Array(deeper, elements) =>
      ElementsNumbered(elements, outer + 1 + deeper, first);
      ArrayLines(deeper, elements, outer, first);
  }

  lemma {:induction false} TreeLines(deeper: nat, fields: Fields, outer: nat, first: nat)
    ensures Lines(WriteBlock(Tree(deeper, fields), outer, first))
            == EntryLines(WriteFields(fields, outer + 1 + deeper, first))
  {
  }

  lemma {:induction false} ArrayLines(deeper: nat, elements: Elements, outer: nat, first: nat)
    ensures Lines(WriteBlock(Array(deeper, elements), outer, first))
            == ItemLines(WriteElements(elements, outer + 1 + deeper, first))
  {
  }

  lemma {:induction false} FieldsNumbered(fields: Fields, before: seq<Pair>, indent: nat, first: nat)
    requires WritableFields(fields, before)
    ensures Numbered(EntryLines(WriteFields(fields, indent, first)), first)
    decreases fields, 1
  {
    match fields
    case NoField =>
    case Flat(key, scalar, others) =>
      FieldsNumbered(others, before + [Pair(key, ScalarValue(scalar))], indent, first + 1);
      FlatNumbered(key, scalar, others, indent, first);
    case Nested(key, section, others) =>
      BlockNumbered(section, indent, first + 1);
      var next := first + 1 + |Lines(WriteBlock(section, indent, first + 1))|;
      FieldsNumbered(others, before + [Pair(key, ValueOf(section))], indent, next);
      HeaderIsClean(key);
      NestedNumbered(HeaderLine(key, indent, first), Lines(WriteBlock(section, indent, first + 1)),
                     EntryLines(WriteFields(others, indent, next)), first);
      NestedLines(key, section, others, indent, first, next);
  }

  lemma {:induction false} FlatNumbered(key: string, v: Scalar, others: Fields, indent: nat, first: nat)
    requires WritableKey(key) && WritableScalar(v)
    requires Numbered(EntryLines(WriteFields(others, indent, first + 1)), first + 1)
    ensures Numbered(EntryLines(WriteFields(Flat(key, v, others), indent, first)), first)
  {
    FieldIsClean(key, v);
    NumberedAppend([FieldLine(key, v, indent, first)], EntryLines(WriteFields(others, indent, first + 1)), first);
  }

  lemma {:induction false} NestedLines(key: string, section: Section, others: Fields, indent: nat, first: nat,
                                       next: nat)
    requires next == first + 1 + |Lines(WriteBlock(section, indent, first + 1))|
    ensures EntryLines(WriteFields(Nested(key, section, others), indent, first))
            == [HeaderLine(key, indent, first)] + Lines(WriteBlock(section, indent, first + 1))
               + EntryLines(WriteFields(others, indent, next))
  {
  }

  lemma NestedNumbered(line: Line, inner: seq<Line>, rest: seq<Line>, first: nat)
    requires Numbered([line], first) && Numbered(inner, first + 1) && Numbered(rest, first + 1 + |inner|)
    ensures Numbered([line] + inner + rest, first)
  {
    NumberedAppend([line], inner, first);
    NumberedAppend([line] + inner, rest, first);
  }

  lemma {:induction false} ElementsNumbered(elements: Elements, indent: nat, first: nat)
    requires WritableElements(elements)
    ensures Numbered(ItemLines(WriteElements(elements, indent, first)), first)
    decreases elements
  {
    match elements
    case NoElement =>
    case Bare(scalar, others) =>
      BareIsClean(scalar);
      ElementsNumbered(others, indent, first + 1);
      NumberedAppend([Line(indent, "- " + ScalarText(scalar), first)],
                     ItemLines(WriteElements(others, indent, first + 1)), first);
    case Single(key, scalar, others) =>
      SingleIsClean(key, scalar);
      ElementsNumbered(others, indent, first + 1);
      NumberedAppend([Line(indent, "- " + key + ": " + ScalarText(scalar), first)],
                     ItemLines(WriteElements(others, indent, first + 1)), first);
  }

  // ---------------------------------------------------------------- its meaning

  /** Written scalars are read back. */
  ghost predicate ReadsScalars(scalars: Scalars) {
    forall v, line: nat :: WritableScalar(v) ==> scalars(ScalarText(v), line) == Ok(ScalarValue(v))
  }

  lemma FieldLineIs(scalars: Scalars, key: string, v: Scalar, indent: nat, number: nat)
    requires ReadsScalars(scalars) && WritableKey(key) && WritableScalar(v)
    ensures var line := FieldLine(key, v, indent, number);
            !StartsItem(line.content) && KeyOf(line) == Ok((key, ScalarText(v))) && PlainValue(scalars, line)
                == Ok(ScalarValue(v))
  {
    var text := ScalarText(v);
    assert key + ": " + text == key + ":" + (" " + text);
    KeyIsFound(key, " " + text, number);
    FieldIsNoItem(key, text);
    ScalarShape(v);
    TrimSpaceBefore(text);
    assert scalars(text, number) == Ok(ScalarValue(v));
  }

  lemma HeaderLineIs(key: string, indent: nat, number: nat)
    requires WritableKey(key)
    ensures !StartsItem(HeaderLine(key, indent, number).content) && KeyOf(HeaderLine(key, indent, number))
            == Ok((key, ""))
  {
    KeyIsFound(key, "", number);
    HeaderIsClean(key);
    assert key + ":" + "" == key + ":";
  }

  lemma BareItem(scalars: Scalars, v: Scalar, indent: nat, number: nat)
    requires ReadsScalars(scalars) && WritableScalar(v) && (v.Unquoted? ==> ':' !in v.text)
    ensures StartsItem("- " + ScalarText(v))
    ensures ValueOfItem(scalars, Line(indent, "- " + ScalarText(v), number)) == Ok(ScalarValue(v))
  {
    var text := ScalarText(v);
    assert ("- " + text)[2..] == text;
    ScalarShape(v);
    TrimSpaceBefore(text);
    assert scalars(ScalarText(v), number) == Ok(ScalarValue(v));
    if v.Canonical? && v.value.Text? {
      assert text[0] == '"';
    } else {
      NoColon(text, 0);
    }
  }

  /** A key, a colon, a space and a scalar, as a list item holds them. */
  lemma PairText(key: string, v: Scalar, line: nat)
    requires WritableKey(key) && WritableScalar(v)
    ensures var raw := key + ": " + ScalarText(v);
            KeyValue(raw, line) == Ok((key, ScalarText(v))) && TrimmedBoth(raw) && LooksLikeInlineMapping(raw)
  {
    var text := ScalarText(v);
    var raw := key + ": " + text;
    assert raw == key + ":" + (" " + text);
    ScalarShape(v);
    TrimSpaceBefore(text);
    assert raw[0] == key[0] && raw[|raw| - 1] == text[|text| - 1];
    KeyIsFound(key, " " + text, 0);
    KeyIsFound(key, " " + text, line);
  }

  lemma SingleItem(scalars: Scalars, key: string, v: Scalar, indent: nat, number: nat)
    requires ReadsScalars(scalars) && WritableKey(key) && WritableScalar(v)
    ensures StartsItem("- " + key + ": " + ScalarText(v))
    ensures ValueOfItem(scalars, Line(indent, "- " + key + ": " + ScalarText(v), number))
            == Ok(Dict([Pair(key, ScalarValue(v))]))
  {
    var raw := key + ": " + ScalarText(v);
    assert "- " + key + ": " + ScalarText(v) == "- " + raw;
    assert ("- " + raw)[2..] == raw;
    PairText(key, v, number);
    TrimSpaceBefore(raw);
    ScalarShape(v);
    assert scalars(ScalarText(v), number) == Ok(ScalarValue(v));
  }

  /** These entries write the fields, whatever the numbers of their lines. */
  predicate Written(fields: Fields, es: Entries, indent: nat) {
    match fields
    case NoField => es == NoEntry
    case Flat(key, scalar, others) =>
      es.Plain? && es.line == FieldLine(key, scalar, indent, es.line.number) && Written(others, es.rest, indent)
    case Nested(key, section, others) =>
      es.Nesting? && es.line == HeaderLine(key, indent, es.line.number)
      && BlockWritten(section, es.block, indent) && Written(others, es.rest, indent)
  }

  predicate BlockWritten(section: Section, b: Block, outer: nat) {
    match section
    case Tree(deeper, fields) => b.Mapping? && b.indent == outer + 1 + deeper && Written(fields, b.entries, b.indent)
    case Array(deeper, elements) =>
      b.Listing? && b.indent == outer + 1 + deeper && ItemsWritten(elements, b.items, b.indent)
  }

  predicate ItemsWritten(elements: Elements, items: Items, indent: nat) {
    match elements
    case NoElement => items == NoItem
    case Bare(scalar, others) =>
      items.Item? && items.line == Line(indent, "- " + ScalarText(scalar), items.line.number)
      && ItemsWritten(others, items.others, indent)
    case Single(key, scalar, others) =>
      items.Item? && items.line == Line(indent, "- " + key + ": " + ScalarText(scalar), items.line.number)
      && ItemsWritten(others, items.others, indent)
  }

  lemma {:induction false} FieldsWritten(fields: Fields, indent: nat, number: nat)
    ensures Written(fields, WriteFields(fields, indent, number), indent)
    decreases fields, 0
  {
    match fields
    case NoField =>
    case Flat(_, _, others) => FieldsWritten(others, indent, number + 1);
    case Nested(_, section, others) =>
      SectionWritten(section, indent, number + 1);
      FieldsWritten(others, indent, number + 1 + |Lines(WriteBlock(section, indent, number + 1))|);
  }

  lemma {:induction false} SectionWritten(section: Section, outer: nat, number: nat)
    ensures BlockWritten(section, WriteBlock(section, outer, number), outer)
    decreases section, 1
  {
    match section
    case Tree(deeper, fields) => FieldsWritten(fields, outer + 1 + deeper, number);
    case Array(deeper, elements) => ElementsWritten(elements, outer + 1 + deeper, number);
  }

  lemma {:induction false} ElementsWritten(elements: Elements, indent: nat, number: nat)
    ensures ItemsWritten(elements, WriteElements(elements, indent, number), indent)
    decreases elements
  {
    match elements
    case NoElement =>
    case Bare(_, others) => ElementsWritten(others, indent, number + 1);
    case Single(_, _, others) => ElementsWritten(others, indent, number + 1);
  }

  lemma {:induction false} BlockMeans(scalars: Scalars, section: Section, b: Block, outer: nat)
    requires ReadsScalars(scalars) && Writable(section) && BlockWritten(section, b, outer)
    ensures b.indent > outer && Valid(scalars, b) && Meaning(scalars, b) == ValueOf(section)
    decreases section, 1
  {
    match section
    case Tree(_, fields) =>
      assert [] + PairsOf(fields) == PairsOf(fields);
      FieldsMean(scalars, fields, b.entries, b.indent, [], PairsOf(fields));
      MappingMeans(scalars, b.entries, b.indent, PairsOf(fields));
    case Array(_, elements) => ElementsMean(scalars, elements, b.items, b.indent);
  }

  lemma {:induction false} FieldsMean(scalars: Scalars, fields: Fields, es: Entries, indent: nat, before: seq<Pair>,
                                      pairs: seq<Pair>)
    requires ReadsScalars(scalars) && WritableFields(fields, before) && pairs == before + PairsOf(fields)
    requires Written(fields, es, indent)
    ensures Means(scalars, es, indent, before, pairs)
    decreases fields, 1
  {
    match fields
    case NoField =>
      assert before + [] == before;
    case Flat(key, scalar, others) =>
      var entry := Pair(key, ScalarValue(scalar));
      assert before + PairsOf(fields) == before + [entry] + PairsOf(others);
      FieldsMean(scalars, others, es.rest, indent, before + [entry], pairs);
      FieldLineIs(scalars, key, scalar, indent, es.line.number);
      PlainMeans(scalars, es.line, es.rest, indent, before, entry, pairs);
    case Nested(key, section, others) =>
      var entry := Pair(key, ValueOf(section));
      assert before + PairsOf(fields) == before + [entry] + PairsOf(others);
      BlockMeans(scalars, section, es.block, indent);
      FieldsMean(scalars, others, es.rest, indent, before + [entry], pairs);
      HeaderLineIs(key, indent, es.line.number);
      NestingMeans(scalars, es.line, es.block, es.rest, indent, before, entry, pairs);
  }

  lemma {:induction false} ElementsMean(scalars: Scalars, elements: Elements, items: Items, indent: nat)
    requires ReadsScalars(scalars) && WritableElements(elements) && ItemsWritten(elements, items, indent)
    ensures ValidItems(scalars, items, indent) && ItemsMeaning(scalars, items, indent) == ElementValues(elements)
    decreases elements
  {
    match elements
    case NoElement =>
    case Bare(scalar, others) =>
      ElementsMean(scalars, others, items.others, indent);
      BareItem(scalars, scalar, indent, items.line.number);
    case Single(key, scalar, others) =>
      ElementsMean(scalars, others, items.others, indent);
      SingleItem(scalars, key, scalar, indent, items.line.number);
  }

  // ---------------------------------------------------------------- round trip

  function ParseFile(eval: Eval, raws: seq<string>): (r: Result<seq<Pair>, Error>) {
    match LinesOf(raws)
    case Err(e) => Err(e)
    case Ok(lines) => ParseLines(ScalarsOf(eval), lines)
  }

  /** A document of nested mappings and lists comes back whole, at whatever indentation it starts and
      however much deeper each block stands. */
  lemma RoundTrip(eval: Eval, fields: Fields, indent: nat)
    requires ReadsQuotes(eval) && WritableFields(fields, [])
    ensures ParseFile(eval, WriteFile(fields, indent)) == Ok(PairsOf(fields))
  {
    var es := WriteFields(fields, indent, 1);
    var lines := EntryLines(es);
    FieldsNumbered(fields, [], indent, 1);
    LinesRead(lines);
    LinesAreRead(RawLines(lines));
    if fields != NoField {
      DocumentMeans(eval, fields, indent);
      assert Lines(Mapping(indent, es)) == lines && lines != [];
      ParsedIffDerived(ScalarsOf(eval), lines, PairsOf(fields));
    }
  }

  lemma DocumentMeans(eval: Eval, fields: Fields, indent: nat)
    requires ReadsQuotes(eval) && WritableFields(fields, []) && fields != NoField
    ensures var b := Mapping(indent, WriteFields(fields, indent, 1));
            Valid(ScalarsOf(eval), b) && Meaning(ScalarsOf(eval), b) == Dict(PairsOf(fields))
  {
    forall v, line: nat | WritableScalar(v) ensures ScalarsOf(eval)(ScalarText(v), line) == Ok(ScalarValue(v)) {
      ScalarRead(eval, v, line);
    }
    var es := WriteFields(fields, indent, 1);
    assert [] + PairsOf(fields) == PairsOf(fields);
    FieldsWritten(fields, indent, 1);
    FieldsMean(ScalarsOf(eval), fields, es, indent, [], PairsOf(fields));
    MappingMeans(ScalarsOf(eval), es, indent, PairsOf(fields));
  }

  /** Each line of a written file is one that Python's line splitting leaves whole. */
  lemma FileIsPrintable(fields: Fields, indent: nat)
    requires WritableFields(fields, [])
    ensures forall raw <- WriteFile(fields, indent) :: AllPrintable(raw)
  {
    FieldsNumbered(fields, [], indent, 1);
    RawsArePrintable(EntryLines(WriteFields(fields, indent, 1)));
  }

  lemma {:induction false} RawsArePrintable(lines: seq<Line>)
    requires forall i :: 0 <= i < |lines| ==> AllPrintable(lines[i].content)
    ensures forall raw <- RawLines(lines) :: AllPrintable(raw)
  {
    if lines != [] {
      RawsArePrintable(lines[..|lines| - 1]);
    }
  }

  // ---------------------------------------------------------------- a reader of literals

  /** The character that an escape sequence stands for. */
  function Escaped(c: char): (r: char) {
    if c == 'n' then '\n' else if c == 'r' then '\r' else if c == 't' then '\t' else c
  }

  function Unescape(text: string): (r: Option<string>) {
    if text == "" then Some("")
    else if text[0] == '\\' then
      if |text| == 1 then None else Prepend(Escaped(text[1]), Unescape(text[2..]))
    else if text[0] == '"' then None
    else Prepend(text[0], Unescape(text[1..]))
  }

  function Prepend(c: char, rest: Option<string>): (r: Option<string>) {
    match rest
    case None => None
    case Some(s) => Some([c] + s)
  }

  /** The part of Python's literals that written scalars use. */
  function DoubleQuoted(text: string): (r: Option<Value>) {
    if |text| < 2 || text[0] != '"' || text[|text| - 1] != '"' then None
    else
      match Unescape(text[1..|text| - 1])
      case None => None
      case Some(s) => Some(Text(s))
  }

  lemma {:induction false} EscapeHead(s: string)
    requires s != ""
    ensures Escape(s) == EscapeChar(s[0]) + Escape(s[1..])
  {
    var n := |s| - 1;
    if n == 0 {
      assert s[..0] == "" && s[1..] == "" && Escape(s[..0]) == "";
    } else {
      EscapeHead(s[..n]);
      assert s[1..][..n - 1] == s[..n][1..];
      Assoc(EscapeChar(s[0]), Escape(s[..n][1..]), EscapeChar(s[n]));
    }
  }

  lemma Assoc(a: string, b: string, c: string)
    ensures a + b + c == a + (b + c)
  {
  }

  lemma UnescapeChar(c: char, t: string)
    requires Unescape(t).Some?
    ensures Unescape(EscapeChar(c) + t) == Some([c] + Unescape(t).value)
  {
    var e := EscapeChar(c);
    var text := e + t;
    if |e| == 2 {
      assert text[0] == '\\' && text[1] == e[1] && text[2..] == t && Escaped(e[1]) == c;
    } else {
      assert text[0] == c && text[1..] == t;
    }
  }

  lemma {:induction false} UnescapeEscape(s: string)
    ensures Unescape(Escape(s)) == Some(s)
  {
    if s != "" {
      EscapeHead(s);
      UnescapeEscape(s[1..]);
      UnescapeChar(s[0], Escape(s[1..]));
      assert s == [s[0]] + s[1..];
    }
  }

  /** There is such a reader: what is assumed of Python's is not contradictory. */
  lemma DoubleQuotedReads()
    ensures ReadsQuotes(DoubleQuoted)
  {
    forall s: string ensures DoubleQuoted(Quote(s)) == Some(Text(s)) {
      UnescapeEscape(s);
      assert Quote(s)[1..|Quote(s)| - 1] == Escape(s);
    }
  }
}
