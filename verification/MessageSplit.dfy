/** Splitting a long reply into the parts that are posted one by one (slack_api.py). */
module MessageSplit {
  import opened Wrappers

  const SLACK_POST_MAX_LEN: nat := 3900

  datatype SplitError = NonPositiveLimit

  /** The parts, joined in order. */
  function Concat(parts: seq<string>): (text: string) {
    if parts == [] then "" else parts[0] + Concat(parts[1..])
  }

  /** Index of the last newline in text[..limit + 1], or -1: Python's rfind("\n", 0, limit + 1). */
  function LastNewline(text: string, limit: nat): (r: int)
    requires limit < |text|
    ensures -1 <= r <= limit
    ensures r >= 0 ==> text[r] == '\n'
    ensures forall k :: r < k <= limit ==> text[k] != '\n'
  {
    if text[limit] == '\n' then limit
    else if limit == 0 then -1
    else LastNewline(text, limit - 1)
  }

  /** Length of the next part: just past the last newline within reach, or the limit. */
  function SplitAt(text: string, limit: nat): (at: nat)
    requires 0 < limit < |text|
    ensures 0 < at <= |text| && at <= limit + 1
    ensures at == limit + 1 ==> text[limit] == '\n'
  {
    var newline := LastNewline(text, limit);
    if newline <= 0 then limit else newline + 1
  }

  /** The parts of a text for a positive limit. */
  function Parts(text: string, limit: nat): (parts: seq<string>)
    requires limit > 0
    ensures |parts| >= 1
    decreases |text|
  {
    if |text| <= limit then [text]
    else
      var at := SplitAt(text, limit);
      if at == |text| then [text] else [text[..at]] + Parts(text[at..], limit)
  }

  /** A part that splitting may emit: not empty, and over the limit by at most a final newline. */
  predicate WellCut(part: string, limit: nat) {
    0 < |part| <= limit + 1 && (|part| == limit + 1 ==> part[limit] == '\n')
  }

  lemma {:induction false} ConcatSnoc(parts: seq<string>, part: string)
    ensures Concat(parts + [part]) == Concat(parts) + part
  {
    if parts == [] {
      assert Concat([part]) == part + Concat([]);
    } else {
      ConcatSnoc(parts[1..], part);
      assert (parts + [part])[1..] == parts[1..] + [part];
    }
  }

  lemma {:induction false} ConcatAppend(left: seq<string>, right: seq<string>)
    ensures Concat(left + right) == Concat(left) + Concat(right)
  {
    if left == [] {
      assert left + right == right;
    } else {
      ConcatAppend(left[1..], right);
      TailOfSum(left, right);
      Associates(left[0], Concat(left[1..]), Concat(right));
    }
  }

  lemma TailOfSum(left: seq<string>, right: seq<string>)
    requires left != []
    ensures (left + right)[0] == left[0] && (left + right)[1..] == left[1..] + right
  {
  }

  lemma Associates(a: string, b: string, c: string)
    ensures a + (b + c) == a + b + c
  {
  }

  /** Nothing is lost, repeated or reordered by splitting. */
  lemma {:induction false} PartsConcatenateToText(text: string, limit: nat)
    requires limit > 0
    ensures Concat(Parts(text, limit)) == text
    decreases |text|
  {
    if |text| <= limit {
      assert Concat([text]) == text + Concat([]);
    } else {
      var at := SplitAt(text, limit);
      if at == |text| {
        assert Concat([text]) == text + Concat([]);
      } else {
        var head, rest := text[..at], text[at..];
        PartsConcatenateToText(rest, limit);
        ConcatAppend([head], Parts(rest, limit));
        assert Concat([head]) == head + Concat([]);
        assert text == head + rest;
      }
    }
  }

  /** When a text is split, every part is non-empty and within a newline of the limit. */
  lemma {:induction false} PartsAreWellCut(text: string, limit: nat)
    requires 0 < limit < |text|
    ensures forall part :: part in Parts(text, limit) ==> WellCut(part, limit)
    decreases |text|
  {
    var at := SplitAt(text, limit);
    if at < |text| {
      var rest := text[at..];
      if |rest| > limit {
        PartsAreWellCut(rest, limit);
      }
    }
  }

  /** Every cut falls after a newline, unless no usable newline was within reach; then the part is
      exactly as long as the limit. */
  lemma {:induction false} CutsPreferNewlines(text: string, limit: nat, k: nat)
    requires limit > 0 && k + 1 < |Parts(text, limit)|
    ensures var part := Parts(text, limit)[k];
            && |part| > 0
            && (part[|part| - 1] != '\n' ==>
                  |part| == limit && forall j :: 0 < j < limit ==> part[j] != '\n')
    decreases |text|
  {
    var at := SplitAt(text, limit);
    if k > 0 {
      CutsPreferNewlines(text[at..], limit, k - 1);
    }
  }

  /** A newline behind the first character and within reach of a cut. */
  predicate Usable(text: string, limit: nat, j: nat) {
    0 < j <= limit && j < |text| && text[j] == '\n'
  }

  /** The text is too long and is cut after its last usable newline, or at the limit if it has none. */
  predicate RightCut(part: string, text: string, limit: nat) {
    && |text| > limit && part <= text && 0 < |part|
    && (forall j :: |part| <= j <= limit ==> !Usable(text, limit, j))
    && (Usable(text, limit, |part| - 1) || (|part| == limit && forall j :: 0 < j < |part| ==> !Usable(text, limit, j)))
  }

  /** Each part but the last is a right cut of what remains; the last is short enough, or ends with the newline that
      it would be cut after. */
  predicate RightParts(parts: seq<string>, limit: nat) {
    && parts != []
    && (if |parts| == 1 then |parts[0]| <= limit || RightCut(parts[0], parts[0], limit)
        else parts[1..] != [""] && RightCut(parts[0], Concat(parts), limit) && RightParts(parts[1..], limit))
  }

  lemma OnePart(part: string)
    ensures Concat([part]) == part
  {
    assert Concat([part]) == part + Concat([]);
  }

  lemma CutIsRight(text: string, limit: nat)
    requires 0 < limit < |text|
    ensures RightCut(text[..SplitAt(text, limit)], text, limit)
  {
    var at := SplitAt(text, limit);
    var newline := LastNewline(text, limit);
    if newline <= 0 {
      assert at == limit;
    } else {
      assert Usable(text, limit, newline) && at == newline + 1;
    }
  }

  lemma RightCutIsUnique(part: string, other: string, text: string, limit: nat)
    requires RightCut(part, text, limit) && RightCut(other, text, limit)
    ensures part == other
  {
    assert Usable(text, limit, |other| - 1) ==> |other| <= |part|;
    assert Usable(text, limit, |part| - 1) ==> |part| <= |other|;
    assert part == text[..|part|] && other == text[..|other|];
  }

  lemma {:induction false} PartsAreRight(text: string, limit: nat)
    requires limit > 0
    ensures RightParts(Parts(text, limit), limit)
    decreases |text|
  {
    PartsConcatenateToText(text, limit);
    if |text| > limit {
      var at := SplitAt(text, limit);
      CutIsRight(text, limit);
      if at < |text| {
        var rest := Parts(text[at..], limit);
        PartsAreRight(text[at..], limit);
        PartsConcatenateToText(text[at..], limit);
        assert Parts(text, limit)[1..] == rest;
        OnePart("");
      } else {
        assert text[..at] == text;
      }
    }
  }

  lemma {:induction false} RightPartsAreParts(parts: seq<string>, limit: nat)
    requires limit > 0 && RightParts(parts, limit)
    ensures parts == Parts(Concat(parts), limit)
    decreases |parts|
  {
    var text := Concat(parts);
    if |parts| == 1 {
      assert text == parts[0] + Concat(parts[1..]);
      assert text == parts[0];
      if |text| > limit {
        CutIsRight(text, limit);
        RightCutIsUnique(parts[0], text[..SplitAt(text, limit)], text, limit);
      }
    } else {
      RightPartsAreParts(parts[1..], limit);
      NotAllEmpty(parts[1..], limit);
      CutComesFirst(text, parts[0], Concat(parts[1..]), limit);
      assert parts == [parts[0]] + parts[1..];
    }
  }

  /** A right cut of a text that goes on is its first part. */
  lemma CutComesFirst(text: string, part: string, rest: string, limit: nat)
    requires limit > 0 && text == part + rest && rest != "" && RightCut(part, text, limit)
    ensures Parts(text, limit) == [part] + Parts(rest, limit)
  {
    CutIsRight(text, limit);
    RightCutIsUnique(part, text[..SplitAt(text, limit)], text, limit);
    assert text[|part|..] == rest;
  }

  lemma NotAllEmpty(parts: seq<string>, limit: nat)
    requires RightParts(parts, limit) && parts != [""]
    ensures Concat(parts) != ""
  {
    if |parts| == 1 {
      assert parts == [parts[0]];
    }
  }

  /** The parts of a text are the one division of it by right cuts. */
  lemma PartsIff(text: string, limit: nat, parts: seq<string>)
    requires limit > 0
    ensures parts == Parts(text, limit) <==> Concat(parts) == text && RightParts(parts, limit)
  {
    PartsConcatenateToText(text, limit);
    PartsAreRight(text, limit);
    if Concat(parts) == text && RightParts(parts, limit) {
      RightPartsAreParts(parts, limit);
    }
  }

  /** A reply of up to 3900 characters is posted in one message; of a longer one each message has at most 3900, or one
      more if that is a newline. */
  lemma SlackPartsAreShort(text: string)
    ensures |text| <= 3900 ==> Parts(text, SLACK_POST_MAX_LEN) == [text]
    ensures forall part <- Parts(text, SLACK_POST_MAX_LEN) ::
              |part| <= 3900 || (|part| == 3901 && part[3900] == '\n')
  {
    if |text| > SLACK_POST_MAX_LEN {
      PartsAreWellCut(text, SLACK_POST_MAX_LEN);
    }
  }

  /** The prefix of the parts is a prefix of the text. */
  lemma PartPrefixIsTextPrefix(text: string, limit: nat, k: nat)
    requires limit > 0 && k <= |Parts(text, limit)|
    ensures Concat(Parts(text, limit)[..k]) <= text
  {
    var parts := Parts(text, limit);
    PartsConcatenateToText(text, limit);
    ConcatAppend(parts[..k], parts[k..]);
    assert parts == parts[..k] + parts[k..];
  }

  /** The loop of split_slack_post_text: cut while the rest is too long. */
  method SplitSlackPostText(text: string, maxLen: int) returns (r: Result<seq<string>, SplitError>)
    ensures r.Err? <==> maxLen <= 0
    ensures r.Ok? ==> r.value == Parts(text, maxLen)
    ensures r.Ok? ==> Concat(r.value) == text
    ensures r.Ok? && |text| > maxLen ==> forall part :: part in r.value ==> WellCut(part, maxLen)
  {
    if maxLen <= 0 {
      return Err(NonPositiveLimit);
    }
    PartsConcatenateToText(text, maxLen);
    if |text| <= maxLen {
      return Ok([text]);
    }
    PartsAreWellCut(text, maxLen);
    var parts := [];
    var remaining := text;
    while |remaining| > maxLen
      invariant remaining == "" ==> |parts| > 0 && Parts(text, maxLen) == parts
      invariant remaining != "" ==> Parts(text, maxLen) == parts + Parts(remaining, maxLen)
    {
      var newline := LastNewline(remaining, maxLen);
      var splitAt: nat;
      if newline <= 0 {
        splitAt := maxLen;
      } else {
        splitAt := newline + 1;
      }
      assert splitAt == SplitAt(remaining, maxLen);
      ghost var before := parts;
      parts := parts + [remaining[..splitAt]];
      if splitAt == |remaining| {
        assert remaining[..splitAt] == remaining;
      } else {
        assert before + ([remaining[..splitAt]] + Parts(remaining[splitAt..], maxLen))
            == parts + Parts(remaining[splitAt..], maxLen);
      }
      remaining := remaining[splitAt..];
    }
    if remaining != "" {
      parts := parts + [remaining];
    }
    return Ok(parts);
  }
}
