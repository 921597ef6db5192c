/**
 * The practice submission route: the request schema, the call into the AI
 * router, the score clamp and rounding, the stored session and the progress
 * update (streak, session count and running average) that follows it.
 * Days are whole numbers (the local calendar day of a timestamp).
 */
module PracticeSubmit {
  import opened Wrappers
  import opened JsText
  import opened Json
  import opened AITypes

  // ---------------------------------------------------------------------
  // The request schema: z.object of four fields with length bounds
  // ---------------------------------------------------------------------

  /** `z.string()` on a field: its text when it is a string, None otherwise or when missing. */
  function AsString(v: Option<Json>): (r: Option<string>)
    ensures r.Some? <==> v.Some? && v.value.JString?
    ensures r.Some? ==> v.value == JString(r.value)
  {
    if v.Some? && v.value.JString? then Some(v.value.s) else None
  }

  /** `z.array(z.string())` on the items of an array: all of them strings, or None. */
  function AsStrings(items: seq<Json>): (r: Option<seq<string>>)
    ensures r.Some? ==> |r.value| == |items| && forall i :: 0 <= i < |items| ==> items[i] == JString(r.value[i])
    ensures r.None? ==> exists i :: 0 <= i < |items| && !items[i].JString?
  {
    if items == [] then Some([])
    else if !items[0].JString? then None
    else match AsStrings(items[1..])
      case None => None
      case Some(rest) => Some([items[0].s] + rest)
  }

  /** The bounds of practiceSubmissionSchema, lengths in UTF-16 code units. */
  predicate WithinSchema(p: PracticeInput) {
    1 <= JsLength(p.topic) <= 500
    && 1 <= JsLength(p.goal) <= 500
    && 1 <= |p.mainPoints| <= 10
    && 10 <= JsLength(p.pitch) <= 5000
  }

  /** The array field's items, when the field is an array. */
  function ArrayField(body: Json, key: string): Option<seq<Json>> {
    var v := Get(body, key);
    if v.Some? && v.value.JArray? then Some(v.value.items) else None
  }

  /**
   * `practiceSubmissionSchema.parse(body)`: the validated input, or None where
   * zod throws. A body that is not an object has none of the four fields.
   * Keys other than the four are dropped.
   */
  function ParseSubmission(body: Json): (r: Option<PracticeInput>)
    ensures r.Some? ==> WithinSchema(r.value)
    ensures r.Some? ==> Get(body, "topic") == Some(JString(r.value.topic))
                        && Get(body, "goal") == Some(JString(r.value.goal))
                        && Get(body, "pitch") == Some(JString(r.value.pitch))
    ensures r.Some? ==> ArrayField(body, "mainPoints").Some?
                        && |ArrayField(body, "mainPoints").value| == |r.value.mainPoints|
                        && forall i :: 0 <= i < |r.value.mainPoints| ==>
                             ArrayField(body, "mainPoints").value[i] == JString(r.value.mainPoints[i])
  {
    var topic := AsString(Get(body, "topic"));
    var goal := AsString(Get(body, "goal"));
    var points := match ArrayField(body, "mainPoints") case None => None case Some(items) => AsStrings(items);
    var pitch := AsString(Get(body, "pitch"));
    if topic.Some? && goal.Some? && points.Some? && pitch.Some?
       && WithinSchema(PracticeInput(topic.value, goal.value, points.value, pitch.value))
    then Some(PracticeInput(topic.value, goal.value, points.value, pitch.value))
    else None
  }

  /** The strings as parsed values. */
  function JsonStrings(ss: seq<string>): (r: seq<Json>)
    ensures |r| == |ss|
  {
    if ss == [] then [] else [JString(ss[0])] + JsonStrings(ss[1..])
  }

  /** The request body a client sends for a practice input. */
  function Encode(p: PracticeInput): Json {
    JObject(map[
      "topic" := JString(p.topic),
      "goal" := JString(p.goal),
      "mainPoints" := JArray(JsonStrings(p.mainPoints)),
      "pitch" := JString(p.pitch)])
  }

  lemma {:induction false} AsStringsOfJsonStrings(ss: seq<string>)
    ensures AsStrings(JsonStrings(ss)) == Some(ss)
  {
    if ss != [] {
      var items := JsonStrings(ss);
      assert items == [JString(ss[0])] + JsonStrings(ss[1..]);
      assert items[0] == JString(ss[0]);
      assert items[1..] == JsonStrings(ss[1..]);
      AsStringsOfJsonStrings(ss[1..]);
      assert AsStrings(items) == Some([ss[0]] + ss[1..]);
      assert [ss[0]] + ss[1..] == ss;
    } else {
      assert JsonStrings(ss) == [];
    }
  }

  /**
   * The schema accepts exactly the inputs within its bounds, and gives back
   * the input the body was written from.
   */
  lemma ParseEncoded(p: PracticeInput)
    ensures ParseSubmission(Encode(p)) == if WithinSchema(p) then Some(p) else None
  {
    AsStringsOfJsonStrings(p.mainPoints);
    assert ArrayField(Encode(p), "mainPoints") == Some(JsonStrings(p.mainPoints));
  }

  /** Extra keys in the body change nothing. */
  lemma ExtraKeysIgnored(p: PracticeInput, key: string, v: Json)
    requires key !in {"topic", "goal", "mainPoints", "pitch"}
    ensures ParseSubmission(JObject(Encode(p).fields[key := v])) == ParseSubmission(Encode(p))
  {
    var b := JObject(Encode(p).fields[key := v]);
    assert Get(b, "topic") == Get(Encode(p), "topic");
    assert Get(b, "goal") == Get(Encode(p), "goal");
    assert Get(b, "pitch") == Get(Encode(p), "pitch");
    assert ArrayField(b, "mainPoints") == ArrayField(Encode(p), "mainPoints");
  }

  // ---------------------------------------------------------------------
  // Score clamp and rounding
  // ---------------------------------------------------------------------

  /**
   * `if (score < 1 || score > 10) score = Math.max(1, Math.min(10, score))`:
   * into [1, 10], and an in-range score is left as it is.
   */
  function ClampScore(x: real): (r: real)
    ensures 1.0 <= r <= 10.0
    ensures 1.0 <= x <= 10.0 ==> r == x
    ensures x < 1.0 ==> r == 1.0
    ensures x > 10.0 ==> r == 10.0
  {
    if x < 1.0 || x > 10.0 then
      var m := if 10.0 < x then 10.0 else x;
      if 1.0 < m then m else 1.0
    else x
  }

  /** Math.round: the nearest integer, halves rounded up. */
  function JsRound(x: real): (n: int)
    ensures n as real - 0.5 <= x < n as real + 0.5
  {
    (x + 0.5).Floor
  }

  /** The score stored with the session and fed to the progress update. */
  function StoredScore(score: real): (n: int)
    ensures 1 <= n <= 10
    ensures n == JsRound(ClampScore(score))
  {
    var c := ClampScore(score);
    assert 1.5 <= c + 0.5 <= 10.5;
    JsRound(c)
  }

  // ---------------------------------------------------------------------
  // The progress record and its update after a submission
  // ---------------------------------------------------------------------

  /** A UserProgress row: streak, session count, running average, and the day of the last practice. */
  datatype ProgressRecord = ProgressRecord(streak: int, totalSessions: nat, averageScore: real, lastPracticeDay: Option<int>)

  /**
   * The streak after practising on day `today`: started at 1 without a last
   * practice day, one more after exactly one day, back to 1 after a longer
   * gap, and unchanged on the same day (or a day before the recorded one).
   */
  function NextStreak(streak: int, lastDay: Option<int>, today: int): (s: int)
    ensures lastDay.None? ==> s == 1
    ensures lastDay.Some? && today - lastDay.value == 1 ==> s == streak + 1
    ensures lastDay.Some? && today - lastDay.value > 1 ==> s == 1
    ensures lastDay.Some? && today - lastDay.value <= 0 ==> s == streak
  {
    match lastDay
    case None => 1
    case Some(d) => if today - d == 1 then streak + 1 else if today - d > 1 then 1 else streak
  }

  /** The running average after one more score: (avg·n + s)/(n + 1). */
  function NextAverage(average: real, n: nat, score: int): (r: real)
    ensures r * (n + 1) as real == average * n as real + score as real
    ensures average <= score as real ==> average <= r <= score as real
    ensures score as real <= average ==> score as real <= r <= average
  {
    (average * n as real + score as real) / (n + 1) as real
  }

  /** The record written after a practice on day `today` with the (rounded) score. */
  function NextProgress(current: Option<ProgressRecord>, today: int, score: int): (r: ProgressRecord)
    ensures current.None? ==> r == ProgressRecord(1, 1, score as real, Some(today))
    ensures current.Some? ==> r.totalSessions == current.value.totalSessions + 1
    ensures current.Some? ==> r.streak == NextStreak(current.value.streak, current.value.lastPracticeDay, today)
    ensures current.Some? ==> r.averageScore == NextAverage(current.value.averageScore, current.value.totalSessions, score)
    ensures r.lastPracticeDay == Some(today)
  {
    match current
    case None => ProgressRecord(1, 1, score as real, Some(today))
    case Some(c) =>
      ProgressRecord(NextStreak(c.streak, c.lastPracticeDay, today), c.totalSessions + 1,
                     NextAverage(c.averageScore, c.totalSessions, score), Some(today))
  }

  /** updateUserProgress as written: the streak is worked out in a variable, then the row is written. */
  method UpdateUserProgress(current: Option<ProgressRecord>, today: int, newScore: int) returns (saved: ProgressRecord)
    ensures saved == NextProgress(current, today, newScore)
  {
    if current.Some? {
      var c := current.value;
      var newStreak := c.streak;
      if c.lastPracticeDay.Some? {
        var daysDiff := today - c.lastPracticeDay.value;
        if daysDiff == 1 {
          newStreak := newStreak + 1;
        } else if daysDiff > 1 {
          newStreak := 1;
        }
      } else {
        newStreak := 1;
      }
      var totalSessions := c.totalSessions + 1;
      var currentTotal := c.averageScore * c.totalSessions as real;
      var newAverageScore := (currentTotal + newScore as real) / totalSessions as real;
      saved := ProgressRecord(newStreak, totalSessions, newAverageScore, Some(today));
    } else {
      saved := ProgressRecord(1, 1, newScore as real, Some(today));
    }
  }

  /** The sum of some scores. */
  function Sum(s: seq<int>): int {
    if s == [] then 0 else Sum(s[..|s| - 1]) + s[|s| - 1]
  }

  /** The mean of some scores, 0 for none. */
  function Mean(s: seq<int>): real {
    if s == [] then 0.0 else Sum(s) as real / |s| as real
  }

  /** If the stored average is the mean of n scores, the update makes it the mean of those n and the new one. */
  lemma MeanUpdate(scores: seq<int>, average: real, score: int)
    requires scores == [] || average == Mean(scores)
    ensures NextAverage(average, |scores|, score) == Mean(scores + [score])
  {
    var t := scores + [score];
    assert t[..|t| - 1] == scores;
    assert Sum(t) == Sum(scores) + score;
    var n := |scores| as real;
    if scores != [] {
      assert average == Sum(scores) as real / n;
      assert average * n == Sum(scores) as real;
    } else {
      assert Sum(scores) == 0;
    }
    assert average * n + score as real == Sum(t) as real;
    assert |t| as real == n + 1.0;
  }

  /** The progress record after practising on the given days with the given scores, from no record. */
  function Replay(days: seq<int>, scores: seq<int>): Option<ProgressRecord>
    requires |days| == |scores|
  {
    if days == [] then None
    else
      var n := |days| - 1;
      Some(NextProgress(Replay(days[..n], scores[..n]), days[n], scores[n]))
  }

  /** After any practice history the record counts every session, holds their mean and the last day. */
  lemma {:induction false} ReplayTotals(days: seq<int>, scores: seq<int>)
    requires |days| == |scores| > 0
    ensures Replay(days, scores).Some?
    ensures Replay(days, scores).value.totalSessions == |days|
    ensures Replay(days, scores).value.averageScore == Mean(scores)
    ensures Replay(days, scores).value.lastPracticeDay == Some(days[|days| - 1])
  {
    var n := |days| - 1;
    if n == 0 {
      assert scores[..0] == [];
      assert Sum(scores) == scores[0];
    } else {
      ReplayTotals(days[..n], scores[..n]);
      MeanUpdate(scores[..n], Replay(days[..n], scores[..n]).value.averageScore, scores[n]);
      assert scores[..n] + [scores[n]] == scores;
    }
  }

  /** Practising on consecutive days makes the streak the number of days. */
  lemma {:induction false} ConsecutiveDaysStreak(days: seq<int>, scores: seq<int>)
    requires |days| == |scores| > 0
    requires forall i :: 0 < i < |days| ==> days[i] == days[i - 1] + 1
    ensures Replay(days, scores).Some?
    ensures Replay(days, scores).value.streak == |days|
  {
    var n := |days| - 1;
    if n > 0 {
      ConsecutiveDaysStreak(days[..n], scores[..n]);
      ReplayTotals(days[..n], scores[..n]);
      assert days[..n][n - 1] == days[n - 1];
    }
  }

  /** A gap of more than one day restarts the streak at 1, whatever came before. */
  lemma GapRestartsStreak(days: seq<int>, scores: seq<int>)
    requires |days| == |scores| > 1
    requires days[|days| - 1] - days[|days| - 2] > 1
    ensures Replay(days, scores).value.streak == 1
  {
    var n := |days| - 1;
    ReplayTotals(days[..n], scores[..n]);
    assert days[..n][n - 1] == days[n - 1];
  }

  /** A streak of at least 1 stays at least 1 after any practice. */
  lemma StreakStaysPositive(current: ProgressRecord, today: int, score: int)
    requires current.streak >= 1
    ensures NextProgress(Some(current), today, score).streak >= 1
  {
  }

  // ---------------------------------------------------------------------
  // The route
  // ---------------------------------------------------------------------

  /** `session?.user?.id` is truthy: present and not the empty string. */
  predicate SignedIn(userId: Option<string>) {
    userId.Some? && userId.value != ""
  }

  /** The `details` of the 503 answer: the thrown Error's message, or a fixed text for anything else. */
  function AIDetails(t: Thrown): (d: string)
    ensures t.NonError? ==> d == "Unknown AI error"
    ensures !t.NonError? ==> d == t.Message()
  {
    match t
    case AI(e) => e.message
    case PlainError(m) => m
    case NonError(_) => "Unknown AI error"
  }

  /** The validated fields the response echoes back. */
  datatype Original = Original(topic: string, mainPoints: seq<string>, pitch: string)

  /** The practiceSession row the route creates. */
  datatype StoredSession = StoredSession(
    userId: string, topic: string, goal: string, mainPoints: seq<string>, pitch: string,
    score: int, feedback: FeedbackResponse)

  datatype Response =
    | Unauthorized                  // 401, "Authentication required"
    | InvalidInput                  // 400, "Invalid input data"
    | InternalError                 // 500, "Internal server error"
    | Unavailable(details: string)  // 503, "Unable to generate feedback at this time. ..."
    | Saved(session: StoredSession, progress: ProgressRecord, feedback: FeedbackResponse, original: Original)
  {
    /** The HTTP status the route answers with. */
    function Status(): int {
      match this
      case Unauthorized => 401
      case InvalidInput => 400
      case InternalError => 500
      case Unavailable(_) => 503
      case Saved(_, _, _, _) => 200
    }
  }

  /**
   * POST /api/practice/submit. `body` is what request.json() gives (a
   * SyntaxError is not a ZodError, so it answers 500), `generate` stands for
   * aiRouter.generateFeedback, `current` for the user's progress row and
   * `today` for the current day.
   */
  method Submit(userId: Option<string>, body: ParseResult, generate: PracticeInput -> Outcome<FeedbackResponse>,
                current: Option<ProgressRecord>, today: int) returns (resp: Response)
    ensures resp == Unauthorized <==> !SignedIn(userId)
    ensures resp == InternalError <==> SignedIn(userId) && body.SyntaxError?
    ensures resp == InvalidInput <==> SignedIn(userId) && body.Parsed? && ParseSubmission(body.value).None?
    ensures resp.Unavailable? <==>
              SignedIn(userId) && body.Parsed? && ParseSubmission(body.value).Some?
              && generate(ParseSubmission(body.value).value).Threw?
    ensures resp.Unavailable? ==> resp.details == AIDetails(generate(ParseSubmission(body.value).value).thrown)
    ensures resp.Saved? ==>
              var p := ParseSubmission(body.value).value;
              var f := generate(p).value;
              && resp.session == StoredSession(userId.value, p.topic, p.goal, p.mainPoints, p.pitch,
                                               StoredScore(f.score), f.(score := ClampScore(f.score)))
              && resp.progress == NextProgress(current, today, StoredScore(f.score))
              && resp.feedback == f.(score := ClampScore(f.score))
              && resp.original == Original(p.topic, p.mainPoints, p.pitch)
  {
    if !SignedIn(userId) {
      return Unauthorized;
    }
    if body.SyntaxError? {
      return InternalError;
    }
    var validated := ParseSubmission(body.value);
    if validated.None? {
      return InvalidInput;
    }
    var practiceInput := validated.value;
    var generated := generate(practiceInput);
    if generated.Threw? {
      return Unavailable(AIDetails(generated.thrown));
    }
    var feedback := generated.value;
    if feedback.score < 1.0 || feedback.score > 10.0 {
      feedback := feedback.(score := ClampScore(feedback.score));
    }
    var rounded := JsRound(feedback.score);
    var stored := StoredSession(userId.value, practiceInput.topic, practiceInput.goal,
                                practiceInput.mainPoints, practiceInput.pitch, rounded, feedback);
    var progress := UpdateUserProgress(current, today, rounded);
    resp := Saved(stored, progress, feedback,
                  Original(practiceInput.topic, practiceInput.mainPoints, practiceInput.pitch));
  }
}
