/** Documents written out for the fixed-copy parser, and how its scanners read them. */
module CopyDocuments {
  import opened Wrappers
  import opened WhiteSpace
  import opened Numerals
  import opened CopyScalars
  import opened CopyParser
  import opened CopyGrammar

  // ---------------------------------------------------------------- documents

  /** A scalar as it is written: in the one form that each value has, strings in double quotes; or a string as it is. */
  datatype Scalar = Canonical(value: Value) | Unquoted(text: string)

  /** A nested mapping or list with the layout it is written in: each stands as much deeper as it likes. */
  datatype Section =
    | Tree(deeper: nat, fields: Fields)
    | Array(deeper: nat, elements: Elements)

  datatype Fields =
    | NoField
    | Flat(key: string, scalar: Scalar, others: Fields)
    | Nested(key: string, section: Section, others: Fields)

  datatype Elements =
    | NoElement
    | Bare(scalar: Scalar, others: Elements)
    | Single(key: string, scalar: Scalar, others: Elements)   // a mapping with one scalar

  /** A character that Python neither splits lines at nor refuses in a literal. */
  predicate Printable(c: char) {
    c >= ' ' && c != '\U{85}' && c != '\U{2028}' && c != '\U{2029}'
  }

  predicate AllPrintable(s: string) {
    forall i :: 0 <= i < |s| ==> Printable(s[i])
  }

  /** A character that an unquoted key may have. */
  predicate KeyChar(c: char) {
    Printable(c) && c != ':' && c != '#' && c != '"' && c != '\''
  }

  predicate WritableKey(key: string) {
    && key != "" && !IsSpace(key[0]) && !IsSpace(key[|key| - 1]) && !StartsItem(key)
    && forall i :: 0 <= i < |key| ==> KeyChar(key[i])
  }

  predicate WritableText(s: string) {
    forall i :: 0 <= i < |s| ==> Printable(s[i]) || s[i] == '\n' || s[i] == '\r' || s[i] == '\t'
  }

  /** A number sign never stands at the front or behind white space, where a comment would start. */
  predicate NoSharp(s: string) {
    forall i :: 0 <= i < |s| && s[i] == '#' ==> i > 0 && !IsSpace(s[i - 1])
  }

  /** A string that needs no quotes: nothing else is written like it. */
  predicate PlainText(s: string) {
    && TrimmedBoth(s) && AllPrintable(s) && NoQuote(s) && NoSharp(s)
    && s != "|" && s != ">" && s != "[]" && s != "{}" && !IsInteger(s)
    && !SpelledAs(s, "null") && s != "~" && !SpelledAs(s, "true") && !SpelledAs(s, "false")
  }

  /** The word in small or capital letters. */
  predicate SpelledAs(s: string, word: string) {
    |s| == |word| && forall i :: 0 <= i < |s| ==>
      s[i] == word[i] || ('a' <= word[i] <= 'z' && s[i] == word[i] - 'a' + 'A')
  }

  predicate WritableScalar(scalar: Scalar) {
    match scalar
    case Unquoted(text) => PlainText(text)
    case Canonical(Text(text)) => WritableText(text)
    case Canonical(List(items)) => items == []
    case Canonical(Dict(entries)) => entries == []
    case _ => true
  }

  function ScalarValue(scalar: Scalar): (v: Value) {
    match scalar
    case Unquoted(text) => Text(text)
    case Canonical(value) => value
  }

  predicate Writable(section: Section) {
    match section
    case Tree(_, fields) => fields != NoField && WritableFields(fields, [])
    case Array(_, elements) => elements != NoElement && WritableElements(elements)
  }

  /** The keys are writable and differ from each other and from those before. */
  predicate WritableFields(fields: Fields, before: seq<Pair>) {
    match fields
    case NoField => true
    case Flat(key, scalar, others) =>
      WritableKey(key) && !HasKey(before, key) && WritableScalar(scalar)
      && WritableFields(others, before + [Pair(key, ScalarValue(scalar))])
    case Nested(key, section, others) =>
      WritableKey(key) && !HasKey(before, key) && Writable(section)
      && WritableFields(others, before + [Pair(key, ValueOf(section))])
  }

  predicate WritableElements(elements: Elements) {
    match elements
    case NoElement => true
    case Bare(scalar, others) =>
      WritableScalar(scalar) && (scalar.Unquoted? ==> ':' !in scalar.text) && WritableElements(others)
    case Single(key, scalar, others) => WritableKey(key) && WritableScalar(scalar) && WritableElements(others)
  }

  function ValueOf(section: Section): (v: Value) {
    match section
    case Tree(_, fields) => Dict(PairsOf(fields))
    case Array(_, elements) => List(ElementValues(elements))
  }

  function PairsOf(fields: Fields): (pairs: seq<Pair>) {
    match fields
    case NoField => []
    case Flat(key, scalar, others) => [Pair(key, ScalarValue(scalar))] + PairsOf(others)
    case Nested(key, section, others) => [Pair(key, ValueOf(section))] + PairsOf(others)
  }

  function ElementValues(elements: Elements): (values: seq<Value>) {
    match elements
    case NoElement => []
    case Bare(scalar, others) => [ScalarValue(scalar)] + ElementValues(others)
    case Single(key, scalar, others) => [Dict([Pair(key, ScalarValue(scalar))])] + ElementValues(others)
  }

  // ---------------------------------------------------------------- writing

  function EscapeChar(c: char): (r: string) {
    if c == '\\' then "\\\\"
    else if c == '"' then "\\\""
    else if c == '\n' then "\\n"
    else if c == '\r' then "\\r"
    else if c == '\t' then "\\t"
    else [c]
  }

  function Escape(s: string): (r: string) {
    if s == "" then "" else Escape(s[..|s| - 1]) + EscapeChar(s[|s| - 1])
  }

  function Quote(s: string): (r: string) {
    "\"" + Escape(s) + "\""
  }

  function ScalarText(scalar: Scalar): (text: string) {
    if scalar.Unquoted? then scalar.text else ValueText(scalar.value)
  }

  function ValueText(v: Value): (text: string) {
    match v
    case Null => "null"
    case Bool(truth) => if truth then "true" else "false"
    case Int(number) => Decimal(number)
    case Text(text) => Quote(text)
    case List(_) => "[]"
    case Dict(_) => "{}"
  }

  function WriteBlock(section: Section, outer: nat, number: nat): (b: Block) {
    match section
    case Tree(deeper, fields) => Mapping(outer + 1 + deeper, WriteFields(fields, outer + 1 + deeper, number))
    case Array(deeper, elements) => Listing(outer + 1 + deeper, WriteElements(elements, outer + 1 + deeper, number))
  }

  function FieldLine(key: string, scalar: Scalar, indent: nat, number: nat): (line: Line) {
    Line(indent, key + ": " + ScalarText(scalar), number)
  }

  function HeaderLine(key: string, indent: nat, number: nat): (line: Line) {
    Line(indent, key + ":", number)
  }

  function WriteFields(fields: Fields, indent: nat, number: nat): (es: Entries) {
    match fields
    case NoField => NoEntry
    case Flat(key, scalar, others) =>
      Plain(FieldLine(key, scalar, indent, number), WriteFields(others, indent, number + 1))
    case Nested(key, section, others) =>
      var block := WriteBlock(section, indent, number + 1);
      Nesting(HeaderLine(key, indent, number), block, WriteFields(others, indent, number + 1 + |Lines(block)|))
  }

  function WriteElements(elements: Elements, indent: nat, number: nat): (items: Items) {
    match elements
    case NoElement => NoItem
    case Bare(scalar, others) =>
      Item(Line(indent, "- " + ScalarText(scalar), number), WriteElements(others, indent, number + 1))
    case Single(key, scalar, others) =>
      Item(Line(indent, "- " + key + ": " + ScalarText(scalar), number), WriteElements(others, indent, number + 1))
  }

  function Spaces(n: nat): (s: string)
    ensures |s| == n && forall i :: 0 <= i < n ==> s[i] == ' '
  {
    seq(n, _ => ' ')
  }

  function RawLines(lines: seq<Line>): (raws: seq<string>)
    ensures |raws| == |lines|
  {
    if lines == [] then []
    else RawLines(lines[..|lines| - 1]) + [Spaces(lines[|lines| - 1].indent) + lines[|lines| - 1].content]
  }

  /** The file for a mapping at this indentation. */
  function WriteFile(fields: Fields, indent: nat): (raws: seq<string>) {
    RawLines(EntryLines(WriteFields(fields, indent, 1)))
  }

  /** Python reads back a double-quoted literal with these escapes. */
  ghost predicate ReadsQuotes(eval: Eval) {
    forall s: string :: WritableText(s) ==> eval(Quote(s)) == Some(Text(s))
  }

  // ---------------------------------------------------------------- scanning what was written

  lemma ScanSnoc(text: string, c: char)
    ensures ScanOf(text + [c]) == After(ScanOf(text), c)
  {
    assert (text + [c])[..|text|] == text;
  }

  predicate NoQuote(text: string) {
    forall i :: 0 <= i < |text| ==> text[i] != '"' && text[i] != '\''
  }

  lemma {:induction false} PlainScan(text: string)
    requires NoQuote(text)
    ensures ScanOf(text) == Outside
  {
    if text != "" {
      PlainScan(text[..|text| - 1]);
    }
  }

  lemma {:induction false} FirstColonIs(text: string, from: nat, k: nat)
    requires from <= k < |text| && ColonAt(text, k) && forall i :: from <= i < k ==> text[i] != ':'
    ensures FirstColon(text, from) == k
    decreases k - from
  {
    if from < k {
      FirstColonIs(text, from + 1, k);
    }
  }

  lemma {:induction false} NoColon(text: string, from: nat)
    requires from <= |text| && forall i :: from <= i < |text| ==> text[i] != ':'
    ensures FirstColon(text, from) == |text|
    decreases |text| - from
  {
    if from < |text| {
      NoColon(text, from + 1);
    }
  }

  lemma {:induction false} NoComment(text: string, from: nat)
    requires from <= |text| && forall i :: 0 <= i < |text| ==> !CommentAt(text, i)
    ensures FirstComment(text, from) == |text|
    decreases |text| - from
  {
    if from < |text| {
      NoComment(text, from + 1);
    }
  }

  predicate TrimmedBoth(s: string) {
    s != "" && !IsSpace(s[0]) && !IsSpace(s[|s| - 1])
  }

  lemma TrimSpaceBefore(s: string)
    requires TrimmedBoth(s)
    ensures Trim(s) == s && Trim(" " + s) == s
  {
    assert (" " + s)[1..] == s;
  }

  /** The scanner finds the key that was written. */
  lemma KeyIsFound(key: string, rest: string, line: nat)
    requires WritableKey(key)
    ensures KeyValue(key + ":" + rest, line) == Ok((key, Trim(rest)))
  {
    var text := key + ":" + rest;
    assert text[..|key|] == key && text[|key| + 1..] == rest;
    assert forall i :: 0 <= i < |key| ==> text[i] == key[i];
    PlainScan(key);
    FirstColonIs(text, 0, |key|);
    TrimSpaceBefore(key);
  }

  lemma EscapeSnoc(s: string)
    requires s != ""
    ensures Escape(s) == Escape(s[..|s| - 1]) + EscapeChar(s[|s| - 1])
  {
  }

  predicate InQuotes(text: string) {
    ScanOf(text).Quoted? && ScanOf(text).quote == '"'
  }

  /** An escape sequence leaves the scanner inside the quotes. */
  lemma EscapeScan(text: string, c: char)
    requires ScanOf(text) == Quoted('"', false)
    ensures ScanOf(text + EscapeChar(c)) == Quoted('"', false)
    ensures |EscapeChar(c)| == 2 ==> InQuotes(text + EscapeChar(c)[..1])
    ensures 1 <= |EscapeChar(c)| <= 2
  {
    var e := EscapeChar(c);
    if |e| == 2 {
      assert e[..1] == [e[0]] && text + e == (text + [e[0]]) + [e[1]];
      ScanSnoc(text, e[0]);
      ScanSnoc(text + [e[0]], e[1]);
    } else {
      ScanSnoc(text, e[0]);
      assert text + e == text + [e[0]];
    }
  }

  /** To the end of the escaped text the scanner is inside the quotes. */
  lemma {:induction false} EscapedEnd(start: string, s: string)
    requires ScanOf(start) == Quoted('"', false)
    ensures ScanOf(start + Escape(s)) == Quoted('"', false)
  {
    if s == "" {
      assert start + Escape(s) == start;
    } else {
      EscapeSnoc(s);
      EscapedEnd(start, s[..|s| - 1]);
      EscapeScan(start + Escape(s[..|s| - 1]), s[|s| - 1]);
      assert start + Escape(s) == start + Escape(s[..|s| - 1]) + EscapeChar(s[|s| - 1]);
    }
  }

  lemma {:induction false} EscapedScan(start: string, s: string, k: nat)
    requires ScanOf(start) == Quoted('"', false) && k <= |Escape(s)|
    ensures InQuotes(start + Escape(s)[..k])
    decreases |s|
  {
    if k == |Escape(s)| {
      EscapedEnd(start, s);
      assert Escape(s)[..k] == Escape(s);
    } else {
      var before, e := Escape(s[..|s| - 1]), EscapeChar(s[|s| - 1]);
      EscapeSnoc(s);
      if k <= |before| {
        assert Escape(s)[..k] == before[..k];
        EscapedScan(start, s[..|s| - 1], k);
      } else {
        EscapedEnd(start, s[..|s| - 1]);
        EscapeScan(start + before, s[|s| - 1]);
        assert Escape(s)[..k] == before + e[..1];
        assert start + Escape(s)[..k] == start + before + e[..1];
      }
    }
  }

  /** No comment starts before, in or at the end of a quoted string. */
  lemma NoCommentAt(head: string, s: string, i: nat)
    requires NoQuote(head) && '#' !in head && i < |head + Quote(s)|
    ensures !CommentAt(head + Quote(s), i)
  {
    var text := head + Quote(s);
    if i < |head| {
      assert text[i] == head[i];
    } else if i == |head| || i == |text| - 1 {
      assert text[i] == '"';
    } else {
      InsideIsQuoted(head, s, i);
    }
  }

  lemma InsideIsQuoted(head: string, s: string, i: nat)
    requires NoQuote(head) && |head| < i < |head + Quote(s)| - 1
    ensures InQuotes((head + Quote(s))[..i])
  {
    var k := i - |head| - 1;
    PlainScan(head);
    ScanSnoc(head, '"');
    EscapedScan(head + "\"", s, k);
    PrefixIn(head, "\"", Escape(s), "\"", k);
  }

  lemma PrefixIn(a: string, b: string, c: string, d: string, k: nat)
    requires k <= |c|
    ensures (a + (b + c + d))[..|a| + |b| + k] == a + b + c[..k]
  {
    assert a + (b + c + d) == a + b + c[..k] + (c[k..] + d);
  }

  /** A text without number signs has no comment, and neither has one followed by a quoted string. */
  lemma QuotedTextStays(head: string, s: string)
    requires NoQuote(head) && '#' !in head
    ensures WithoutComment(head + Quote(s)) == head + Quote(s)
  {
    forall i | 0 <= i < |head + Quote(s)| ensures !CommentAt(head + Quote(s), i) {
      NoCommentAt(head, s, i);
    }
    NoComment(head + Quote(s), 0);
  }

  /** Neither has one followed by a string that needs no quotes. */
  lemma UnquotedTextStays(head: string, text: string)
    requires NoQuote(head) && '#' !in head && PlainText(text)
    ensures WithoutComment(head + text) == head + text
  {
    var all := head + text;
    forall i | 0 <= i < |all| && all[i] == '#' ensures !CommentAt(all, i) {
      assert text[i - |head|] == '#' && all[i - 1] == text[i - |head| - 1];
    }
    NoComment(all, 0);
  }

  lemma PlainTextStays(text: string)
    requires '#' !in text
    ensures WithoutComment(text) == text
  {
    NoComment(text, 0);
  }
}
