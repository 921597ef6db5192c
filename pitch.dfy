/**
 * The statistics line of the pitch editor: characters, words, characters
 * left and the two limit flags.
 */
module PitchEditor {
  import opened Wrappers
  import opened JsText

  /**
   * `s.split(/\s+/)`: the pieces between maximal runs of whitespace, with an
   * empty first or last piece when s starts or ends with whitespace.
   */
  function SplitWs(s: string): (r: seq<string>)
    ensures |r| >= 1
    decreases |s|
  {
    match FirstWs(s, 0)
    case None => [s]
    case Some(i) =>
      var j := RunEnd(s, i);
      [s[..i]] + SplitWs(s[j..])
  }

  /** The first whitespace index at or after i. */
  function FirstWs(s: string, i: nat): (r: Option<nat>)
    requires i <= |s|
    ensures r.Some? ==> i <= r.value < |s| && IsWs(s[r.value])
                        && forall k :: i <= k < r.value ==> !IsWs(s[k])
    ensures r.None? ==> forall k :: i <= k < |s| ==> !IsWs(s[k])
    decreases |s| - i
  {
    if i == |s| then None else if IsWs(s[i]) then Some(i) else FirstWs(s, i + 1)
  }

  /** The end of the whitespace run starting at i. */
  function RunEnd(s: string, i: nat): (j: nat)
    requires i < |s| && IsWs(s[i])
    ensures i < j <= |s| && (j < |s| ==> !IsWs(s[j]))
    ensures forall k :: i <= k < j ==> IsWs(s[k])
    decreases |s| - i
  {
    if i + 1 < |s| && IsWs(s[i + 1]) then RunEnd(s, i + 1) else i + 1
  }

  /**
   * The number of words, counted independently of the split: the places where a
   * non-whitespace character follows whitespace or the start (`afterWs`
   * says whether the text so far ended in whitespace or was empty).
   */
  function WordStarts(s: string, afterWs: bool): nat {
    if s == [] then 0
    else (if afterWs && !IsWs(s[0]) then 1 else 0) + WordStarts(s[1..], IsWs(s[0]))
  }

  /** `value.trim() ? value.trim().split(/\s+/).length : 0`. */
  function WordCount(value: string): (r: nat)
    ensures r == 0 <==> Trim(value) == ""
  {
    var t := Trim(value);
    if t != "" then |SplitWs(t)| else 0
  }

  datatype Stats = Stats(charCount: nat, wordCount: nat, remainingChars: int, isNearLimit: bool, isOverLimit: bool)

  /** The `stats` memo of the editor; maxLength defaults to 150. */
  function GetStats(value: string, maxLength: int := 150): (st: Stats)
    ensures st.charCount == JsLength(value)
    ensures st.remainingChars == maxLength - JsLength(value)
    ensures st.isOverLimit <==> JsLength(value) > maxLength
    ensures st.isNearLimit <==> JsLength(value) >= maxLength - 30
    ensures st.isOverLimit ==> st.isNearLimit
    ensures st.wordCount == WordCount(value)
  {
    var charCount := JsLength(value);
    var remainingChars := maxLength - charCount;
    Stats(charCount, WordCount(value), remainingChars, remainingChars <= 30, remainingChars < 0)
  }

  lemma {:induction false} WordStartsAppend(a: string, b: string, afterWs: bool)
    ensures WordStarts(a + b, afterWs) == WordStarts(a, afterWs) + WordStarts(b, if a == [] then afterWs else IsWs(a[|a| - 1]))
    decreases |a|
  {
    if a != [] {
      assert (a + b)[1..] == a[1..] + b;
      WordStartsAppend(a[1..], b, IsWs(a[0]));
    } else {
      assert a + b == b;
    }
  }

  lemma {:induction false} WordStartsOfWs(w: string, afterWs: bool)
    requires AllWs(w)
    ensures WordStarts(w, afterWs) == 0
    decreases |w|
  {
    if w != [] {
      WordStartsOfWs(w[1..], IsWs(w[0]));
    }
  }

  lemma {:induction false} WordStartsOfWord(u: string, afterWs: bool)
    requires u != [] && forall k :: 0 <= k < |u| ==> !IsWs(u[k])
    ensures WordStarts(u, afterWs) == if afterWs then 1 else 0
    decreases |u|
  {
    if |u| > 1 {
      WordStartsOfWord(u[1..], false);
    }
  }

  /** A word, a run of whitespace, then the rest: one word more than the rest. */
  lemma WordThenGap(u: string, w: string, rest: string)
    requires u != [] && forall k :: 0 <= k < |u| ==> !IsWs(u[k])
    requires w != [] && AllWs(w)
    ensures WordStarts(u + (w + rest), true) == 1 + WordStarts(rest, true)
  {
    WordStartsAppend(u, w + rest, true);
    WordStartsOfWord(u, true);
    WordStartsAppend(w, rest, false);
    WordStartsOfWs(w, false);
  }

  /** For trimmed non-blank text the pieces of the split are its words. */
  lemma {:induction false} SplitCountsWords(t: string)
    requires t != [] && Trimmed(t)
    ensures |SplitWs(t)| == WordStarts(t, true)
    decreases |t|
  {
    match FirstWs(t, 0)
    case None =>
      WordStartsOfWord(t, true);
    case Some(i) =>
      var j := RunEnd(t, i);
      assert IsWs(t[j - 1]);
      var u, w, rest := t[..i], t[i..j], t[j..];
      assert |SplitWs(t)| == 1 + |SplitWs(rest)|;
      assert t == u + (w + rest);
      assert forall k :: 0 <= k < |u| ==> !IsWs(u[k]) by {
        forall k | 0 <= k < |u| ensures !IsWs(u[k]) { assert u[k] == t[k]; }
      }
      assert AllWs(w) by {
        forall k | 0 <= k < |w| ensures IsWs(w[k]) { assert w[k] == t[i + k]; }
      }
      WordThenGap(u, w, rest);
      assert rest != [] && rest[0] == t[j] && rest[|rest| - 1] == t[|t| - 1];
      SplitCountsWords(rest);
  }

  /** Whitespace around a word-bounded text adds no word. */
  lemma PaddedWordStarts(pre: string, t: string, post: string)
    requires AllWs(pre) && AllWs(post) && Trimmed(t)
    ensures WordStarts(pre + (t + post), true) == WordStarts(t, true)
  {
    WordStartsAppend(pre, t + post, true);
    WordStartsOfWs(pre, true);
    WordStartsAppend(t, post, true);
    WordStartsOfWs(post, if t == [] then true else IsWs(t[|t| - 1]));
  }

  /** The value is its trimmed text with whitespace on either side. */
  lemma PaddingOf(value: string) returns (pre: string, post: string)
    ensures value == pre + (Trim(value) + post) && AllWs(pre) && AllWs(post)
  {
    var i := TrimIsSlice(value);
    var j := i + |Trim(value)|;
    pre, post := value[..i], value[j..];
    ThreeParts(value, i, j);
  }

  lemma ThreeParts(s: string, i: nat, j: nat)
    requires i <= j <= |s|
    ensures s == s[..i] + (s[i..j] + s[j..])
  {
    assert s[i..] == s[i..j] + s[j..];
    assert s == s[..i] + s[i..];
  }

  /** The word count is the number of maximal non-whitespace runs of the value. */
  lemma WordCountIsWordStarts(value: string)
    ensures WordCount(value) == WordStarts(value, true)
  {
    var t := Trim(value);
    var pre, post := PaddingOf(value);
    TrimIdempotent(value);
    TrimOfTrimmed(t);
    PaddedWordStarts(pre, t, post);
    if t != [] {
      SplitCountsWords(t);
    }
  }
}
