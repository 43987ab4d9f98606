/** Lines, keys and scalars of the fixed-copy file (slack_copy/renderer.py). */
module CopyScalars {
  import opened Wrappers
  import opened WhiteSpace
  import opened Numerals

  /** A parsed value. A dictionary keeps its keys in the order of insertion. */
  datatype Value =
    | Null
    | Bool(truth: bool)
    | Int(number: int)
    | Text(text: string)
    | List(items: seq<Value>)
    | Dict(entries: seq<Pair>)

  datatype Pair = Pair(key: string, value: Value)

  datatype Error =
    | Tabs(line: nat)
    | UnexpectedContent(line: nat)
    | NotAMapping
    | UnexpectedIndentation(line: nat)
    | UnexpectedItem(line: nat)
    | DuplicateKey(key: string, line: nat)
    | MissingKey(line: nat)
    | ExpectedKeyValue(line: nat)
    | BlockScalar(line: nat)
    | InvalidQuoted(line: nat)

  /** Python's literal_eval on text that starts with a quote; None is a syntax or value error. */
  type Eval = string -> Option<Value>

  // ---------------------------------------------------------------- white space

  function TrimEnd(s: string): (r: string)
    ensures |r| <= |s|
  {
    if s == "" || !IsSpace(s[|s| - 1]) then s else TrimEnd(s[..|s| - 1])
  }

  function TrimStart(s: string): (r: string)
    ensures |r| <= |s|
  {
    if s == "" || !IsSpace(s[0]) then s else TrimStart(s[1..])
  }

  function Trim(s: string): (r: string)
    ensures |r| <= |s|
  {
    TrimEnd(TrimStart(s))
  }

  /** Trimming takes white space off the end, and all of it. */
  lemma {:induction false} TrimEndIs(s: string)
    ensures var r := TrimEnd(s);
            r == s[..|r|] && (r != "" ==> !IsSpace(r[|r| - 1])) && forall i :: |r| <= i < |s| ==> IsSpace(s[i])
  {
    if s != "" && IsSpace(s[|s| - 1]) {
      TrimEndIs(s[..|s| - 1]);
    }
  }

  lemma {:induction false} TrimStartIs(s: string)
    ensures var r := TrimStart(s);
            r == s[|s| - |r|..] && (r != "" ==> !IsSpace(r[0])) && forall i :: 0 <= i < |s| - |r| ==> IsSpace(s[i])
  {
    if s != "" && IsSpace(s[0]) {
      TrimStartIs(s[1..]);
    }
  }

  // ---------------------------------------------------------------- quotes

  /** What the scanners know after some characters. */
  datatype Scan = Outside | Quoted(quote: char, escaped: bool)

  function After(scan: Scan, c: char): (next: Scan) {
    match scan
    case Outside => if c == '\'' || c == '"' then Quoted(c, false) else Outside
    case Quoted(quote, escaped) =>
      if quote == '"' && c == '\\' && !escaped then Quoted(quote, true)
      else if c == quote && !escaped then Outside
      else Quoted(quote, false)
  }

  function ScanOf(text: string): (scan: Scan) {
    if text == "" then Outside else After(ScanOf(text[..|text| - 1]), text[|text| - 1])
  }

  /** A comment starts here. */
  predicate CommentAt(text: string, i: nat)
    requires i < |text|
  {
    text[i] == '#' && ScanOf(text[..i]).Outside? && (i == 0 || IsSpace(text[i - 1]))
  }

  /** The key ends here. */
  predicate ColonAt(text: string, i: nat)
    requires i < |text|
  {
    text[i] == ':' && ScanOf(text[..i]).Outside?
  }

  function FirstComment(text: string, from: nat): (i: nat)
    requires from <= |text|
    ensures from <= i <= |text| && (i < |text| ==> CommentAt(text, i))
    decreases |text| - from
  {
    if from == |text| || CommentAt(text, from) then from else FirstComment(text, from + 1)
  }

  function FirstColon(text: string, from: nat): (i: nat)
    requires from <= |text|
    ensures from <= i <= |text| && (i < |text| ==> ColonAt(text, i))
    decreases |text| - from
  {
    if from == |text| || ColonAt(text, from) then from else FirstColon(text, from + 1)
  }

  function WithoutComment(text: string): (r: string) {
    var i := FirstComment(text, 0);
    if i < |text| then TrimEnd(text[..i]) else text
  }

  function KeyValue(content: string, line: nat): (r: Result<(string, string), Error>) {
    var i := FirstColon(content, 0);
    if i == |content| then Err(ExpectedKeyValue(line))
    else
      var key := Trim(content[..i]);
      if key == "" then Err(MissingKey(line)) else Ok((key, Trim(content[i + 1..])))
  }

  method StripComment(text: string) returns (r: string)
    ensures r == WithoutComment(text)
  {
    var quote: Option<char>, escaped := None, false;
    for index := 0 to |text|
      invariant ScanOf(text[..index]) == if quote.Some? then Quoted(quote.value, escaped) else Outside
      invariant quote.None? ==> !escaped
      invariant FirstComment(text, index) == FirstComment(text, 0)
    {
      var c := text[index];
      assert text[..index + 1][..index] == text[..index];
      if quote.Some? {
        if quote == Some('"') && c == '\\' && !escaped {
          escaped := true;
          continue;
        }
        if Some(c) == quote && !escaped {
          quote := None;
        }
        escaped := false;
        continue;
      }
      if c == '\'' || c == '"' {
        quote := Some(c);
        continue;
      }
      if c == '#' && (index == 0 || IsSpace(text[index - 1])) {
        return TrimEnd(text[..index]);
      }
    }
    return text;
  }

  method SplitKeyValue(content: string, line: nat) returns (r: Result<(string, string), Error>)
    ensures r == KeyValue(content, line)
  {
    var quote: Option<char>, escaped := None, false;
    for index := 0 to |content|
      invariant ScanOf(content[..index]) == if quote.Some? then Quoted(quote.value, escaped) else Outside
      invariant quote.None? ==> !escaped
      invariant FirstColon(content, index) == FirstColon(content, 0)
    {
      var c := content[index];
      assert content[..index + 1][..index] == content[..index];
      if quote.Some? {
        if quote == Some('"') && c == '\\' && !escaped {
          escaped := true;
          continue;
        }
        if Some(c) == quote && !escaped {
          quote := None;
        }
        escaped := false;
        continue;
      }
      if c == '\'' || c == '"' {
        quote := Some(c);
        continue;
      }
      if c == ':' {
        var key := Trim(content[..index]);
        if key == "" {
          return Err(MissingKey(line));
        }
        return Ok((key, Trim(content[index + 1..])));
      }
    }
    return Err(ExpectedKeyValue(line));
  }

  // ---------------------------------------------------------------- scalars

  /** Lower case of ASCII letters; no other letter becomes one of "null", "true" or "false". */
  function Lower(s: string): (r: string)
    ensures |r| == |s|
  {
    if s == "" then ""
    else Lower(s[..|s| - 1]) + [if 'A' <= s[|s| - 1] <= 'Z' then s[|s| - 1] - 'A' + 'a' else s[|s| - 1]]
  }

  function ParseScalar(eval: Eval, value: string, line: nat): (r: Result<Value, Error>) {
    if value == "|" || value == ">" then Err(BlockScalar(line))
    else if value == "[]" then Ok(List([]))
    else if value == "{}" then Ok(Dict([]))
    else if Lower(value) == "null" || Lower(value) == "~" then Ok(Null)
    else if Lower(value) == "true" then Ok(Bool(true))
    else if Lower(value) == "false" then Ok(Bool(false))
    else if IsInteger(value) then Ok(Int(IntegerValue(value)))
    else if value != "" && (value[0] == '"' || value[0] == '\'') then
      match eval(value)
      case Some(v) => Ok(v)
      case None => Err(InvalidQuoted(line))
    else Ok(Text(value))
  }

  predicate LooksLikeInlineMapping(value: string) {
    !(value != "" && (value[0] == '"' || value[0] == '\'')) && KeyValue(value, 0).Ok?
  }
}
