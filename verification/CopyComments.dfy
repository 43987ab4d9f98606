/** Comments make no difference to what the fixed-copy parser reads. */
module CopyComments {
  import opened WhiteSpace
  import opened CopyScalars
  import opened CopyParser
  import opened CopyDocuments
  import opened CopyRoundTrip

  /** The line with white space and a comment behind it; no quoted string is open there. */
  predicate Commented(raw: string, longer: string, gap: string, comment: string) {
    && longer == raw + (gap + ("#" + comment))
    && gap != "" && IsBlank(gap) && '\t' !in gap && '\t' !in comment
    && (ScanOf(raw[LeadingSpaces(raw)..]) == Outside || HasComment(raw[LeadingSpaces(raw)..]))
  }

  predicate HasComment(text: string) {
    FirstComment(text, 0) < |text|
  }

  // ---------------------------------------------------------------- trimming

  lemma {:induction false} TrimBlankEnd(s: string, gap: string)
    requires IsBlank(gap)
    ensures TrimEnd(s + gap) == TrimEnd(s)
  {
    if gap == "" {
      assert s + gap == s;
    } else {
      var shorter := gap[..|gap| - 1];
      assert (s + gap)[..|s + gap| - 1] == s + shorter;
      TrimBlankEnd(s, shorter);
    }
  }

  lemma {:induction false} TrimTwice(s: string)
    ensures TrimEnd(TrimEnd(s)) == TrimEnd(s)
  {
    TrimEndIs(s);
  }

  lemma {:induction false} TrimStartMore(s: string, more: string)
    ensures TrimStart(s + more) == if IsBlank(s) then TrimStart(more) else TrimStart(s) + more
  {
    if s == "" {
      assert s + more == more;
    } else {
      assert (s + more)[1..] == s[1..] + more;
      if IsSpace(s[0]) {
        TrimStartMore(s[1..], more);
        assert IsBlank(s) <==> IsBlank(s[1..]) by {
          assert s == [s[0]] + s[1..];
        }
      }
    }
  }

  lemma BlankIff(s: string)
    ensures Trim(s) == "" <==> IsBlank(s)
  {
    TrimStartIs(s);
    TrimEndIs(TrimStart(s));
    if !IsBlank(s) {
      var c :| c in s && !IsSpace(c);
      var i :| 0 <= i < |s| && s[i] == c;
    } else {
      forall k | 0 <= k < |s| ensures IsSpace(s[k]) {
        assert s[k] in s;
      }
    }
  }

  lemma {:induction false} LeadingSpacesStay(s: string, more: string)
    requires LeadingSpaces(s) < |s|
    ensures LeadingSpaces(s + more) == LeadingSpaces(s)
  {
    if s[0] == ' ' {
      assert (s + more)[1..] == s[1..] + more;
      LeadingSpacesStay(s[1..], more);
    }
  }

  // ---------------------------------------------------------------- finding the comment

  lemma CommentStays(text: string, more: string, i: nat)
    requires i < |text|
    ensures CommentAt(text + more, i) <==> CommentAt(text, i)
  {
    assert (text + more)[..i] == text[..i];
  }

  /** The first comment of a text is the first one however the text goes on. */
  lemma {:induction false} FirstCommentStays(text: string, more: string, from: nat)
    requires from <= |text| && FirstComment(text, from) < |text|
    ensures FirstComment(text + more, from) == FirstComment(text, from)
    decreases |text| - from
  {
    CommentStays(text, more, from);
    if !CommentAt(text, from) {
      FirstCommentStays(text, more, from + 1);
    }
  }

  /** A text without comments, followed by one. */
  lemma {:induction false} FirstCommentBehind(text: string, more: string, from: nat)
    requires from <= |text| && FirstComment(text, from) == |text| && more != "" && CommentAt(text + more, |text|)
    ensures FirstComment(text + more, from) == |text|
    decreases |text| - from
  {
    if from < |text| {
      CommentStays(text, more, from);
      FirstCommentBehind(text, more, from + 1);
    }
  }

  lemma {:induction false} GapHasNoComment(text: string, gap: string, from: nat)
    requires from <= |text| && FirstComment(text, from) == |text| && IsBlank(gap)
    ensures FirstComment(text + gap, from) == |text + gap|
    decreases |text + gap| - from
  {
    if from < |text| {
      CommentStays(text, gap, from);
      GapHasNoComment(text, gap, from + 1);
    } else {
      BlankHasNoComment(text, gap, from);
    }
  }

  lemma {:induction false} BlankHasNoComment(text: string, gap: string, from: nat)
    requires |text| <= from <= |text + gap| && IsBlank(gap)
    ensures FirstComment(text + gap, from) == |text + gap|
    decreases |text + gap| - from
  {
    if from < |text + gap| {
      assert (text + gap)[from] in gap;
      BlankHasNoComment(text, gap, from + 1);
    }
  }

  lemma {:induction false} BlankScan(text: string, gap: string)
    requires ScanOf(text) == Outside && IsBlank(gap)
    ensures ScanOf(text + gap) == Outside
  {
    if gap == "" {
      assert text + gap == text;
    } else {
      var shorter := gap[..|gap| - 1];
      BlankScan(text, shorter);
      assert text + gap == text + shorter + [gap[|gap| - 1]];
      ScanSnoc(text + shorter, gap[|gap| - 1]);
      assert gap[|gap| - 1] in gap;
    }
  }

  lemma EarlyCommentIsCut(text: string, more: string)
    requires HasComment(text)
    ensures WithoutComment(text + more) == WithoutComment(text)
  {
    FirstCommentStays(text, more, 0);
    assert (text + more)[..FirstComment(text, 0)] == text[..FirstComment(text, 0)];
  }

  lemma LateCommentIsCut(text: string, gap: string, comment: string)
    requires gap != "" && IsBlank(gap) && ScanOf(text) == Outside && !HasComment(text)
    ensures WithoutComment(text + gap + ("#" + comment)) == TrimEnd(text)
  {
    GapHasNoComment(text, gap, 0);
    BlankScan(text, gap);
    SharpBehind(text, gap, comment);
    CutAt(text + gap, "#" + comment);
    TrimBlankEnd(text, gap);
  }

  lemma CutAt(front: string, more: string)
    requires more != "" && FirstComment(front + more, 0) == |front|
    ensures WithoutComment(front + more) == TrimEnd(front)
  {
    assert (front + more)[..|front|] == front;
  }

  /** What is left of the line is the same. */
  lemma CommentIsCut(text: string, gap: string, comment: string)
    requires gap != "" && IsBlank(gap) && (ScanOf(text) == Outside || HasComment(text))
    ensures TrimEnd(WithoutComment(text + (gap + ("#" + comment)))) == TrimEnd(WithoutComment(text))
  {
    if HasComment(text) {
      EarlyCommentIsCut(text, gap + ("#" + comment));
    } else {
      LateCommentIsCut(text, gap, comment);
      Regroup(text, gap, "#" + comment);
      TrimTwice(text);
    }
  }

  lemma Regroup(a: string, b: string, c: string)
    ensures a + (b + c) == a + b + c
  {
  }

  lemma SharpBehind(text: string, gap: string, comment: string)
    requires gap != "" && IsBlank(gap) && ScanOf(text + gap) == Outside && FirstComment(text + gap, 0) == |text + gap|
    ensures FirstComment(text + gap + ("#" + comment), 0) == |text + gap|
  {
    var front, more := text + gap, "#" + comment;
    assert (front + more)[..|front|] == front && (front + more)[|front| - 1] == gap[|gap| - 1];
    assert gap[|gap| - 1] in gap;
    FirstCommentBehind(front, more, 0);
  }

  // ---------------------------------------------------------------- lines and files

  lemma CommentedLine(raw: string, longer: string, gap: string, comment: string, number: nat)
    requires Commented(raw, longer, gap, comment)
    ensures ReadLine(longer, number) == ReadLine(raw, number)
  {
    var more := gap + ("#" + comment);
    TabsStay(raw, gap, comment);
    BlankIff(raw);
    BlankIff(longer);
    SharpIsVisible(raw, gap, comment);
    TrimStartMore(raw, more);
    if IsBlank(raw) {
      TrimStartMore(gap, "#" + comment);
      assert ("#" + comment)[..1] == "#" && TrimStart("#" + comment) == "#" + comment;
    } else {
      NotOnlySpaces(raw);
      FirstStays(TrimStart(raw), more);
      LeadingSpacesStay(raw, more);
      var n := LeadingSpaces(raw);
      Suffix(raw, more, n);
      CommentIsCut(raw[n..], gap, comment);
    }
  }

  lemma TabsStay(raw: string, gap: string, comment: string)
    requires '\t' !in gap && '\t' !in comment
    ensures '\t' in raw + (gap + ("#" + comment)) <==> '\t' in raw
  {
  }

  lemma SharpIsVisible(raw: string, gap: string, comment: string)
    ensures !IsBlank(raw + (gap + ("#" + comment)))
  {
    assert '#' in raw + (gap + ("#" + comment)) && !IsSpace('#');
  }

  lemma FirstStays(text: string, more: string)
    requires text != ""
    ensures (text + more)[..1] == text[..1]
  {
  }

  lemma Suffix(raw: string, more: string, n: nat)
    requires n <= |raw|
    ensures (raw + more)[n..] == raw[n..] + more
  {
  }

  lemma NotOnlySpaces(raw: string)
    requires !IsBlank(raw)
    ensures LeadingSpaces(raw) < |raw| && TrimStart(raw) != ""
  {
    var c :| c in raw && !IsSpace(c);
    var i :| 0 <= i < |raw| && raw[i] == c;
    TrimStartIs(raw);
  }

  /** Each line is the same, or has a comment behind it. */
  ghost predicate OnlyComments(raws: seq<string>, longer: seq<string>) {
    |raws| == |longer|
    && forall i :: 0 <= i < |raws| ==>
         longer[i] == raws[i] || exists gap, comment :: Commented(raws[i], longer[i], gap, comment)
  }

  /** Comments behind lines change nothing: the same lines are read, and the same document or the same error. */
  lemma {:induction false} CommentsAreIgnored(eval: Eval, raws: seq<string>, longer: seq<string>)
    requires OnlyComments(raws, longer)
    ensures LinesOf(longer) == LinesOf(raws)
    ensures ParseFile(eval, longer) == ParseFile(eval, raws)
  {
    if raws != [] {
      var last := |raws| - 1;
      CommentsAreIgnored(eval, raws[..last], longer[..last]);
      if longer[last] != raws[last] {
        var gap, comment :| Commented(raws[last], longer[last], gap, comment);
        CommentedLine(raws[last], longer[last], gap, comment, |raws|);
      }
    }
  }
}
