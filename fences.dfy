/**
 * The markdown code-fence clean-up both adapters apply to model output before
 * JSON.parse: trim, and for text that starts with a fence, the two regular
 * expression replacements /^```(?:json)?\s*\n?/ and /\n?```\s*$/, then trim
 * again.
 */
module Fences {
  import opened Wrappers
  import opened JsText

  const Fence: string := "```"

  /**
   * `s.replace(/^```(?:json)?\s*\n?/, '')` on a string that starts with a fence:
   * the fence, then "json" when it follows, then every whitespace character
   * (\s* is greedy and already takes the newline \n? could match).
   */
  function RemoveOpeningFence(s: string): (r: string)
    ensures StartsWith(s, Fence) ==> r == [] || !IsWs(r[0])
  {
    if StartsWith(s, Fence) then
      var rest := s[3..];
      if StartsWith(rest, "json") then TrimStart(rest[4..]) else TrimStart(rest)
    else s
  }

  /** t is "```" followed by nothing but whitespace (what ```\s*$ matches). */
  predicate IsFenceTail(t: string) {
    |t| >= 3 && t[..3] == Fence && AllWs(t[3..])
  }

  /** The pattern \n?```\s*$ matches at index i of s. */
  predicate ClosingAt(s: string, i: int) {
    0 <= i <= |s|
    && ((i < |s| && s[i] == '\n' && IsFenceTail(s[i + 1..])) || IsFenceTail(s[i..]))
  }

  /** The leftmost index at or after i where the closing pattern matches. */
  function FindClosingFrom(s: string, i: nat): (r: Option<nat>)
    requires i <= |s|
    ensures r.Some? ==> i <= r.value <= |s| && ClosingAt(s, r.value)
                        && forall j :: i <= j < r.value ==> !ClosingAt(s, j)
    ensures r.None? ==> forall j :: i <= j <= |s| ==> !ClosingAt(s, j)
    decreases |s| - i
  {
    if ClosingAt(s, i) then Some(i)
    else if i == |s| then None
    else FindClosingFrom(s, i + 1)
  }

  /** `s.replace(/\n?```\s*$/, '')`: the first match runs to the end, so it is cut off. */
  function RemoveClosingFence(s: string): (r: string)
    ensures StartsWith(s, r)
  {
    match FindClosingFrom(s, 0)
    case None => s
    case Some(k) => s[..k]
  }

  /** The text both adapters hand to JSON.parse for raw model output. */
  function Cleaned(raw: string): (r: string)
    ensures Trim(r) == r
    ensures !StartsWith(Trim(raw), Fence) ==> r == Trim(raw)
  {
    var t := Trim(raw);
    if StartsWith(t, Fence) then
      TrimIdempotent(RemoveClosingFence(RemoveOpeningFence(t)));
      Trim(RemoveClosingFence(RemoveOpeningFence(t)))
    else
      TrimIdempotent(raw);
      t
  }

  /** The clean-up as both adapters write it, reassigning the text step by step. */
  method CleanFeedbackText(raw: string) returns (feedbackText: string)
    ensures feedbackText == Cleaned(raw)
    ensures !StartsWith(Trim(raw), Fence) ==> feedbackText == Trim(raw)
  {
    feedbackText := Trim(raw);
    if StartsWith(feedbackText, Fence) {
      feedbackText := RemoveOpeningFence(feedbackText);
      feedbackText := RemoveClosingFence(feedbackText);
      feedbackText := Trim(feedbackText);
    }
  }

  /** Whitespace in front of a string whose first character is not whitespace is what TrimStart drops. */
  lemma {:induction false} TrimStartOfPadded(w: string, b: string)
    requires AllWs(w)
    requires b == [] || !IsWs(b[0])
    ensures TrimStart(w + b) == b
    decreases |w|
  {
    if w != [] {
      assert (w + b)[1..] == w[1..] + b;
      TrimStartOfPadded(w[1..], b);
    } else {
      assert w + b == b;
    }
  }

  /** In p + "```" + t with t blank, the only place a fence tail starts is |p|. */
  lemma FenceTailUnique(p: string, t: string, j: int)
    requires AllWs(t)
    requires 0 <= j <= |p + Fence + t|
    ensures IsFenceTail((p + Fence + t)[j..]) <==> j == |p|
  {
    var s := p + Fence + t;
    assert s[|p|..] == Fence + t;
    assert (Fence + t)[..3] == Fence && (Fence + t)[3..] == t;
    if j < |p| {
      // the last backquote of the fence lies in what would have to be blank
      if j + 3 <= |s| {
        assert s[j..][3..][|p| + 2 - (j + 3)] == '`';
      }
    } else if |p| < j <= |p| + 2 {
      if j + 3 <= |s| {
        assert s[j..][..3][2] == t[j - |p| - 1];
      }
    } else if j > |p| + 2 {
      if j + 3 <= |s| {
        assert s[j..][..3][0] == t[j - |p| - 3];
      }
    }
  }

  /**
   * A closing fence followed only by whitespace is removed together with one
   * newline right before it, and nothing else is touched.
   */
  lemma ClosingFenceRemoved(p: string, t: string)
    requires AllWs(t)
    ensures RemoveClosingFence(p + Fence + t)
            == if p != [] && p[|p| - 1] == '\n' then p[..|p| - 1] else p
  {
    var s := p + Fence + t;
    var k := if p != [] && p[|p| - 1] == '\n' then |p| - 1 else |p|;
    forall j | 0 <= j <= |s| ensures ClosingAt(s, j) <==> (j == |p| || (j == |p| - 1 && s[j] == '\n')) {
      FenceTailUnique(p, t, j);
      if j < |s| { FenceTailUnique(p, t, j + 1); assert s[j + 1..] == s[j..][1..]; }
    }
    assert k < |p| ==> s[k] == p[k];
    assert ClosingAt(s, k);
    assert s[..k] == p[..k];
    match FindClosingFrom(s, 0)
    case None =>
    case Some(i) =>
      assert i == k;
  }

  /** What the opening replacement leaves of "```" + tag + c, for the tag "json" or none. */
  lemma OpeningFenceRemoved(tag: string, c: string)
    requires tag == "json" || (tag == "" && !StartsWith(c, "json"))
    ensures RemoveOpeningFence(Fence + tag + c) == TrimStart(c)
  {
    var s := Fence + tag + c;
    assert s[..3] == Fence;
    assert s[3..] == tag + c;
    if tag == "json" {
      assert (tag + c)[..4] == "json";
      assert (tag + c)[4..] == c;
    }
  }

  /** A newline after the opening fence rules out the "json" tag reading. */
  lemma OpeningBeforeNewline(tag: string, c: string)
    requires tag == "json" || tag == ""
    requires c != [] && c[0] == '\n'
    ensures RemoveOpeningFence(Fence + tag + c) == TrimStart(c)
  {
    assert !StartsWith(c, "json") by { assert c[0] == '\n'; }
    OpeningFenceRemoved(tag, c);
  }

  /** The newline in front of the body is whitespace, the body's first character is not. */
  lemma BodyStart(b: string)
    requires Trimmed(b)
    ensures TrimStart("\n" + b + "\n" + Fence) == if b == [] then Fence else b + "\n" + Fence
  {
    var c := "\n" + b + "\n" + Fence;
    if b == [] {
      assert c == "\n\n" + Fence;
      TrimStartOfPadded("\n\n", Fence);
    } else {
      assert c == "\n" + (b + "\n" + Fence);
      TrimStartOfPadded("\n", b + "\n" + Fence);
    }
  }

  /** After the opening fence of a fenced body b, what is left is b and the closing fence. */
  lemma AfterOpening(tag: string, b: string)
    requires tag == "json" || tag == ""
    requires Trimmed(b)
    ensures RemoveOpeningFence(Fence + tag + ("\n" + b + "\n" + Fence))
            == if b == [] then Fence else b + "\n" + Fence
  {
    OpeningBeforeNewline(tag, "\n" + b + "\n" + Fence);
    BodyStart(b);
  }

  /** The closing replacement then leaves exactly b. */
  lemma BodyLeft(b: string)
    requires Trimmed(b)
    ensures RemoveClosingFence(if b == [] then Fence else b + "\n" + Fence) == b
  {
    if b == [] {
      ClosingFenceRemoved("", "");
      assert "" + Fence + "" == Fence;
    } else {
      ClosingFenceRemoved(b + "\n", "");
      assert b + "\n" + Fence + "" == b + "\n" + Fence;
      assert (b + "\n")[..|b|] == b;
    }
  }

  /** A fenced body, with the tag "json" or none, is cleaned down to the body. */
  lemma FencedCleaned(tag: string, b: string)
    requires tag == "json" || tag == ""
    requires Trimmed(b)
    ensures Cleaned(Fence + tag + ("\n" + b + "\n" + Fence)) == b
  {
    var raw := Fence + tag + ("\n" + b + "\n" + Fence);
    assert raw[0] == '`' && raw[|raw| - 1] == '`';
    TrimOfTrimmed(raw);
    assert StartsWith(raw, Fence) by { assert raw[..3] == Fence; }
    AfterOpening(tag, b);
    BodyLeft(b);
    TrimOfTrimmed(b);
  }

  /** The text of a body fenced with ```json. */
  lemma JsonFenced(b: string)
    requires Trimmed(b)
    ensures Cleaned("```json\n" + b + "\n```") == b
  {
    var raw := "```json\n" + b + "\n```";
    assert raw == Fence + "json" + ("\n" + b + "\n" + Fence);
    FencedCleaned("json", b);
  }

  /** The text of a body fenced with a bare ```. */
  lemma BareFenced(b: string)
    requires Trimmed(b)
    ensures Cleaned("```\n" + b + "\n```") == b
  {
    var raw := "```\n" + b + "\n```";
    assert raw == Fence + "" + ("\n" + b + "\n" + Fence);
    FencedCleaned("", b);
  }

  /**
   * The three layouts the clean-up is written for give the same text: a body
   * fenced with ```json, fenced with a bare ```, or not fenced at all.
   */
  lemma FenceFormsAgree(b: string)
    requires Trimmed(b) && !StartsWith(b, Fence)
    ensures Cleaned("```json\n" + b + "\n```") == b
    ensures Cleaned("```\n" + b + "\n```") == b
    ensures Cleaned(b) == b
  {
    JsonFenced(b);
    BareFenced(b);
    TrimOfTrimmed(b);
  }

  /** Text that does not start with a fence is only trimmed. */
  lemma UnfencedOnlyTrimmed(raw: string)
    requires !StartsWith(Trim(raw), Fence)
    ensures Cleaned(raw) == Trim(raw)
  {
  }

  /** The opening replacement leaves any other tag in place. */
  lemma OtherTagOpening(tag: string, c: string)
    requires tag != [] && !IsWs(tag[0]) && !StartsWith(tag, "json")
    requires c != [] && c[0] == '\n'
    ensures RemoveOpeningFence(Fence + tag + c) == tag + c
  {
    var raw := Fence + tag + c;
    assert raw[..3] == Fence;
    assert raw[3..] == tag + c;
    assert !StartsWith(tag + c, "json") by {
      if |tag| >= 4 { assert (tag + c)[..4] == tag[..4]; }
      else { assert (tag + c)[|tag|] == c[0]; }
    }
    TrimStartOfPadded("", tag + c);
    assert "" + (tag + c) == tag + c;
  }

  /** The closing replacement then takes the newline and the fence off the end. */
  lemma OtherTagClosing(tag: string, b: string)
    ensures RemoveClosingFence(tag + ("\n" + b + "\n" + Fence)) == tag + "\n" + b
  {
    var p := tag + "\n" + b + "\n";
    assert tag + ("\n" + b + "\n" + Fence) == p + Fence + "";
    ClosingFenceRemoved(p, "");
    assert p[..|p| - 1] == tag + "\n" + b;
  }

  /** A fenced text starts and ends with a backquote, so trimming leaves it alone. */
  lemma FencedTrimmed(tag: string, b: string)
    ensures Trim(Fence + tag + ("\n" + b + "\n" + Fence)) == Fence + tag + ("\n" + b + "\n" + Fence)
    ensures StartsWith(Fence + tag + ("\n" + b + "\n" + Fence), Fence)
  {
    var raw := Fence + tag + ("\n" + b + "\n" + Fence);
    assert raw[0] == '`' && raw[|raw| - 1] == '`';
    TrimOfTrimmed(raw);
    assert raw[..3] == Fence;
  }

  /** A tag and a body joined by a newline are trimmed when both ends are. */
  lemma TagLineTrimmed(tag: string, b: string)
    requires tag != [] && !IsWs(tag[0])
    requires b != [] && Trimmed(b)
    ensures Trim(tag + "\n" + b) == tag + "\n" + b
  {
    var q := tag + "\n" + b;
    assert q[0] == tag[0] && q[|q| - 1] == b[|b| - 1];
    TrimOfTrimmed(q);
  }

  /** Both replacements and the final trim on a text fenced with another tag. */
  lemma OtherTagSteps(tag: string, b: string)
    requires tag != [] && !IsWs(tag[0]) && !StartsWith(tag, "json")
    requires b != [] && Trimmed(b)
    ensures Trim(RemoveClosingFence(RemoveOpeningFence(Fence + tag + ("\n" + b + "\n" + Fence)))) == tag + "\n" + b
  {
    var c := "\n" + b + "\n" + Fence;
    assert c[0] == '\n';
    OtherTagOpening(tag, c);
    OtherTagClosing(tag, b);
    TagLineTrimmed(tag, b);
  }

  /**
   * Any other language tag survives the clean-up, so the text handed to
   * JSON.parse still starts with it: "```ts\n{}\n```" leaves "ts\n{}".
   */
  lemma OtherTagKept(tag: string, b: string)
    requires tag != [] && !IsWs(tag[0]) && !StartsWith(tag, "json")
    requires b != [] && Trimmed(b)
    ensures Cleaned(Fence + tag + ("\n" + b + "\n" + Fence)) == tag + "\n" + b
  {
    FencedTrimmed(tag, b);
    OtherTagSteps(tag, b);
  }
}
