/**
 * The response validator both adapters run on parsed model output
 * (`validateFeedbackResponse`): eight checks in a fixed order, stopping at
 * the first one that fails with a non-retryable VALIDATION_ERROR.
 */
module FeedbackValidation {
  import opened Wrappers
  import opened JsText
  import opened Json
  import opened AITypes

  datatype Check =
    | IsObject
    | ScoreInRange
    | StrengthsNonEmpty
    | ImprovementsNonEmpty
    | ImprovedVersionsObject
    | TopicNonBlank
    | MainPointsNonEmpty
    | PitchNonBlank

  /** The order in which the validator applies the checks. */
  const Checks: seq<Check> := [IsObject, ScoreInRange, StrengthsNonEmpty, ImprovementsNonEmpty,
                               ImprovedVersionsObject, TopicNonBlank, MainPointsNonEmpty, PitchNonBlank]

  /** The message the validator raises when the check fails. */
  function Message(c: Check): (m: string)
    ensures m != []
  {
    match c
    case IsObject => "Response is not an object"
    case ScoreInRange => "Score must be a number between 1-10"
    case StrengthsNonEmpty => "Strengths must be a non-empty array"
    case ImprovementsNonEmpty => "Improvements must be a non-empty array"
    case ImprovedVersionsObject => "ImprovedVersions must be an object"
    case TopicNonBlank => "ImprovedVersions.topic must be a non-empty string"
    case MainPointsNonEmpty => "ImprovedVersions.mainPoints must be a non-empty array"
    case PitchNonBlank => "ImprovedVersions.pitch must be a non-empty string"
  }

  predicate NonEmptyArray(v: Option<Json>) {
    v.Some? && v.value.JArray? && |v.value.items| > 0
  }

  predicate NonBlankString(v: Option<Json>) {
    v.Some? && v.value.JString? && !Blank(v.value.s)
  }

  /** `response.improvedVersions[key]`, undefined when improvedVersions is. */
  function Improved(v: Json, key: string): Option<Json> {
    match Get(v, "improvedVersions")
    case None => None
    case Some(iv) => Get(iv, key)
  }

  /** Whether the value passes one check (each is evaluated on its own). */
  predicate Holds(c: Check, v: Json): (b: bool)
    ensures b && c != IsObject ==> v.JObject?
    ensures b && (c == TopicNonBlank || c == MainPointsNonEmpty || c == PitchNonBlank) ==>
              Get(v, "improvedVersions").Some? && Get(v, "improvedVersions").value.JObject?
  {
    match c
    case IsObject => Truthy(v) && TypeofObject(v)
    case ScoreInRange =>
      var s := Get(v, "score");
      s.Some? && s.value.JNumber? && 1.0 <= s.value.n <= 10.0
    case StrengthsNonEmpty => NonEmptyArray(Get(v, "strengths"))
    case ImprovementsNonEmpty => NonEmptyArray(Get(v, "improvements"))
    case ImprovedVersionsObject =>
      var iv := Get(v, "improvedVersions");
      iv.Some? && Truthy(iv.value) && TypeofObject(iv.value)
    case TopicNonBlank => NonBlankString(Improved(v, "topic"))
    case MainPointsNonEmpty => NonEmptyArray(Improved(v, "mainPoints"))
    case PitchNonBlank => NonBlankString(Improved(v, "pitch"))
  }

  /** The index of the first check in cs the value fails, scanning in order. */
  function FirstFailingIndex(cs: seq<Check>, v: Json): (r: Option<nat>)
    ensures r.None? <==> forall i :: 0 <= i < |cs| ==> Holds(cs[i], v)
    ensures r.Some? ==> r.value < |cs| && !Holds(cs[r.value], v)
                        && forall i :: 0 <= i < r.value ==> Holds(cs[i], v)
  {
    if cs == [] then None
    else if !Holds(cs[0], v) then Some(0)
    else
      match FirstFailingIndex(cs[1..], v)
      case None => None
      case Some(k) => Some(k + 1)
  }

  /** A value every check accepts: what the adapters hand back. */
  predicate ValidFeedback(v: Json) {
    forall i :: 0 <= i < |Checks| ==> Holds(Checks[i], v)
  }

  /** The first check that fails, if any. */
  function FirstFailure(v: Json): (r: Option<Check>)
    ensures r.None? <==> ValidFeedback(v)
    ensures r.Some? ==> !Holds(r.value, v)
    ensures r.Some? ==> exists k :: 0 <= k < |Checks| && r.value == Checks[k]
                                    && forall i :: 0 <= i < k ==> Holds(Checks[i], v)
  {
    match FirstFailingIndex(Checks, v)
    case None => None
    case Some(k) => Some(Checks[k])
  }

  /** `validateFeedbackResponse` run by the adapter named `provider`. */
  function Validate(v: Json, provider: string): (r: Option<AIError>)
    ensures r.None? <==> ValidFeedback(v)
    ensures r.Some? ==> r.value.code == ValidationError && !r.value.retryable && r.value.provider == provider
    ensures r.Some? ==> r.value.message == Message(FirstFailure(v).value)
  {
    match FirstFailure(v)
    case None => None
    case Some(c) => Some(AIError(Message(c), provider, ValidationError))
  }

  /** ValidFeedback is the conjunction of the eight checks. */
  lemma AllChecks(v: Json)
    ensures ValidFeedback(v) <==>
      Holds(IsObject, v) && Holds(ScoreInRange, v) && Holds(StrengthsNonEmpty, v)
      && Holds(ImprovementsNonEmpty, v) && Holds(ImprovedVersionsObject, v)
      && Holds(TopicNonBlank, v) && Holds(MainPointsNonEmpty, v) && Holds(PitchNonBlank, v)
  {
    if Holds(IsObject, v) && Holds(ScoreInRange, v) && Holds(StrengthsNonEmpty, v)
      && Holds(ImprovementsNonEmpty, v) && Holds(ImprovedVersionsObject, v)
      && Holds(TopicNonBlank, v) && Holds(MainPointsNonEmpty, v) && Holds(PitchNonBlank, v)
    {
      forall i | 0 <= i < |Checks| ensures Holds(Checks[i], v) {
        if i == 0 {} else if i == 1 {} else if i == 2 {} else if i == 3 {}
        else if i == 4 {} else if i == 5 {} else if i == 6 {} else {}
      }
    }
    if ValidFeedback(v) {
      assert Holds(Checks[0], v) && Holds(Checks[1], v) && Holds(Checks[2], v) && Holds(Checks[3], v);
      assert Holds(Checks[4], v) && Holds(Checks[5], v) && Holds(Checks[6], v) && Holds(Checks[7], v);
    }
  }

  /** A check later in the order is only reported when every earlier one passes:
      a response that is not an object is always reported as not an object. */
  lemma FailsFast(v: Json, provider: string)
    requires !(v.JArray? || v.JObject?)
    ensures Validate(v, provider) == Some(AIError("Response is not an object", provider, ValidationError))
  {
    ObjectLike(v);
  }

  /** The typed view of a validated response. */
  function Shape(v: Json): (f: FeedbackResponse)
    requires ValidFeedback(v)
    ensures 1.0 <= f.score <= 10.0
    ensures |f.strengths| > 0 && |f.improvements| > 0 && |f.improvedVersions.mainPoints| > 0
    ensures !Blank(f.improvedVersions.topic) && !Blank(f.improvedVersions.pitch)
  {
    assert Holds(Checks[1], v) && Holds(Checks[2], v) && Holds(Checks[3], v);
    assert Holds(Checks[5], v) && Holds(Checks[6], v) && Holds(Checks[7], v);
    FeedbackResponse(
      Get(v, "score").value.n,
      Get(v, "strengths").value.items,
      Get(v, "improvements").value.items,
      ImprovedVersions(
        Improved(v, "topic").value.s,
        Improved(v, "mainPoints").value.items,
        Improved(v, "pitch").value.s))
  }

  /** A feedback object built from the given parts (extra keys are ignored by the validator). */
  function FeedbackObject(score: real, strengths: seq<Json>, improvements: seq<Json>,
                          topic: string, mainPoints: seq<Json>, pitch: string): Json
  {
    JObject(map[
      "score" := JNumber(score),
      "strengths" := JArray(strengths),
      "improvements" := JArray(improvements),
      "improvedVersions" := JObject(map[
        "topic" := JString(topic),
        "mainPoints" := JArray(mainPoints),
        "pitch" := JString(pitch)])])
  }

  /** The fields the validator reads from a built feedback object. */
  lemma FeedbackObjectFields(score: real, strengths: seq<Json>, improvements: seq<Json>,
                             topic: string, mainPoints: seq<Json>, pitch: string)
    ensures var v := FeedbackObject(score, strengths, improvements, topic, mainPoints, pitch);
      && Get(v, "score") == Some(JNumber(score))
      && Get(v, "strengths") == Some(JArray(strengths))
      && Get(v, "improvements") == Some(JArray(improvements))
      && Get(v, "improvedVersions").Some? && Get(v, "improvedVersions").value.JObject?
      && Improved(v, "topic") == Some(JString(topic))
      && Improved(v, "mainPoints") == Some(JArray(mainPoints))
      && Improved(v, "pitch") == Some(JString(pitch))
  {
    var iv := JObject(map["topic" := JString(topic), "mainPoints" := JArray(mainPoints), "pitch" := JString(pitch)]);
    assert "topic" != "pitch" by { assert "topic"[0] != "pitch"[0]; }
    assert Get(iv, "topic") == Some(JString(topic));
    assert Get(iv, "pitch") == Some(JString(pitch));
    assert Get(iv, "mainPoints") == Some(JArray(mainPoints));
  }

  /** A value whose fields hold the given parts passes when the parts are in range. */
  lemma ValidFromParts(v: Json, score: real, strengths: seq<Json>, improvements: seq<Json>,
                       topic: string, mainPoints: seq<Json>, pitch: string)
    requires v.JObject? && Get(v, "improvedVersions").Some? && Get(v, "improvedVersions").value.JObject?
    requires Get(v, "score") == Some(JNumber(score))
    requires Get(v, "strengths") == Some(JArray(strengths))
    requires Get(v, "improvements") == Some(JArray(improvements))
    requires Improved(v, "topic") == Some(JString(topic))
    requires Improved(v, "mainPoints") == Some(JArray(mainPoints))
    requires Improved(v, "pitch") == Some(JString(pitch))
    requires 1.0 <= score <= 10.0
    requires |strengths| > 0 && |improvements| > 0 && |mainPoints| > 0
    requires !Blank(topic) && !Blank(pitch)
    ensures ValidFeedback(v)
  {
    AllChecks(v);
  }

  /** Element types are never checked: whatever the arrays hold, an object with a
      score in [1,10], three non-empty arrays and two non-blank strings passes. */
  lemma ElementTypesUnchecked(score: real, strengths: seq<Json>, improvements: seq<Json>,
                              topic: string, mainPoints: seq<Json>, pitch: string)
    requires 1.0 <= score <= 10.0
    requires |strengths| > 0 && |improvements| > 0 && |mainPoints| > 0
    requires !Blank(topic) && !Blank(pitch)
    ensures ValidFeedback(FeedbackObject(score, strengths, improvements, topic, mainPoints, pitch))
  {
    var v := FeedbackObject(score, strengths, improvements, topic, mainPoints, pitch);
    FeedbackObjectFields(score, strengths, improvements, topic, mainPoints, pitch);
    ValidFromParts(v, score, strengths, improvements, topic, mainPoints, pitch);
  }
}
