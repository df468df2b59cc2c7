/** The word count the free-text questions show and gate on: the number of pieces
    of `answer.trim().split(/\s+/)`, or 0 for an answer that is blank after trimming. */
module WordCounting {
  import opened Text

  /** `s.split(/\s+/)`: the pieces between maximal runs of white space. A leading
      run gives an empty first piece and a trailing run an empty last piece. */
  function SplitOnSpaceRuns(s: string): (r: seq<string>)
    ensures |r| >= 1
    decreases |s|
  {
    if s == [] then [""]
    else if IsJsSpace(s[0]) then [""] + SplitOnSpaceRuns(TrimStart(s, IsJsSpace))
    else
      var rest := SplitOnSpaceRuns(s[1..]);
      [[s[0]] + rest[0]] + rest[1..]
  }

  /** The count computed from an answer. */
  function WordCount(answer: string): nat {
    var trimmed := Strip(answer, IsJsSpace);
    if trimmed == "" then 0 else |SplitOnSpaceRuns(trimmed)|
  }

  /** Reference definition: the number of words of `s`, counted as the positions
      where a non-space character follows white space or the start. `afterSpace`
      says whether the position before `s` counts as white space. */
  function WordStarts(s: string, afterSpace: bool): nat
    decreases |s|
  {
    if s == [] then 0
    else (if afterSpace && !IsJsSpace(s[0]) then 1 else 0) + WordStarts(s[1..], IsJsSpace(s[0]))
  }

  function Words(s: string): nat {
    WordStarts(s, true)
  }

  /** The range the questions accept: 10 to 200 words inclusive. */
  predicate IsValidWordCount(count: nat) {
    10 <= count <= 200
  }

  // Lemmas

  /** A run of white space leaves the count of what follows as after white space. */
  lemma {:induction false} WordStartsSkipsSpace(s: string, afterSpace: bool, n: nat)
    requires 1 <= n <= |s| && AllSpace(s[..n], IsJsSpace)
    ensures WordStarts(s, afterSpace) == WordStarts(s[n..], true)
    decreases n
  {
    assert IsJsSpace(s[0]);
    if n > 1 {
      assert s[1..][..n - 1] == s[1..n];
      WordStartsSkipsSpace(s[1..], true, n - 1);
      assert s[1..][n - 1..] == s[n..];
    }
  }

  /** Trailing white space adds no word. */
  lemma {:induction false} WordStartsTrailingSpace(s: string, tail: string, afterSpace: bool)
    requires AllSpace(tail, IsJsSpace)
    ensures WordStarts(s + tail, afterSpace) == WordStarts(s, afterSpace)
    decreases |s| + |tail|
  {
    if s == [] {
      if tail != [] {
        WordStartsTrailingSpace([], tail[1..], true);
        assert ([] + tail)[1..] == [] + tail[1..];
      }
    } else {
      assert (s + tail)[1..] == s[1..] + tail;
      WordStartsTrailingSpace(s[1..], tail, IsJsSpace(s[0]));
    }
  }

  /** Trimming the answer does not change its number of words. */
  lemma WordsOfStrip(s: string)
    ensures Words(Strip(s, IsJsSpace)) == Words(s)
  {
    var t := TrimStart(s, IsJsSpace);
    var r := TrimEnd(t, IsJsSpace);
    TrimStartIsSuffix(s, IsJsSpace);
    var lead := |s| - |t|;
    if lead > 0 {
      WordStartsSkipsSpace(s, true, lead);
    }
    assert t == r + t[|r|..];
    WordStartsTrailingSpace(r, t[|r|..], true);
  }

  /** The split of a string that is empty or ends in a non-space has one piece per
      word, plus one more when the string starts with white space (or is empty). */
  lemma {:induction false} SplitCountsWords(t: string)
    requires t == [] || !IsJsSpace(t[|t| - 1])
    ensures |SplitOnSpaceRuns(t)| == WordStarts(t, false) + 1
    decreases |t|
  {
    if t != [] {
      if IsJsSpace(t[0]) {
        var u := TrimStart(t, IsJsSpace);
        TrimStartIsSuffix(t, IsJsSpace);
        assert u != [] && u[|u| - 1] == t[|t| - 1];
        SplitCountsWords(u);
        WordStartsSkipsSpace(t, false, |t| - |u|);
      } else {
        SplitCountsWords(t[1..]);
      }
    }
  }

  /** The count the questions show is the number of words of the answer. */
  lemma WordCountIsWords(answer: string)
    ensures WordCount(answer) == Words(answer)
  {
    var trimmed := Strip(answer, IsJsSpace);
    WordsOfStrip(answer);
    if trimmed != "" {
      SplitCountsWords(trimmed);
    } else {
      assert Words(trimmed) == 0;
    }
  }

  /** The count is 0 exactly for a blank or white-space-only answer. */
  lemma WordCountZeroIffBlank(answer: string)
    ensures WordCount(answer) == 0 <==> AllSpace(answer, IsJsSpace)
  {
    var trimmed := Strip(answer, IsJsSpace);
    if trimmed != "" {
      SplitCountsWords(trimmed);
      assert WordStarts(trimmed, true) >= 1;
      WordCountIsWords(answer);
      WordsOfStrip(answer);
    }
  }
}
