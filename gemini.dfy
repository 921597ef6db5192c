/**
 * The Gemini adapter (GeminiProvider): one generateContent call per
 * operation, the same code-fence clean-up, JSON.parse and validator as the
 * Anthropic adapter, and catch blocks keyed on Gemini's error texts, all
 * creating AIErrors with provider "gemini".
 */
module GeminiProvider {
  import opened Wrappers
  import opened JsText
  import opened Json
  import opened AITypes
  import opened FeedbackValidation
  import opened Fences

  const Provider: string := "gemini"

  /** `createAIError`: an AIError of this adapter. */
  function Error(message: string, code: ErrorCode, retryable: bool := false): (e: AIError)
    ensures e.provider == Provider && e.message == message && e.code == code && e.retryable == retryable
  {
    AIError(message, Provider, code, retryable)
  }

  /** The `text` accessor of a response: absent, returning a string, or throwing. */
  datatype TextAccessor = NoTextMethod | Returns(s: string) | Throws(thrown: Thrown)

  /** How `model.generateContent` ends: the SDK throws, `result.response` is missing, or it is there. */
  datatype Reply = SdkFailed(thrown: Thrown) | Missing | Response(text: TextAccessor)

  /** The message mentions "quota" or "rate limit", case-sensitively. */
  predicate RateLimited(m: string): (b: bool)
    ensures b <==> (exists i :: OccursAt(m, "quota", i)) || (exists i :: OccursAt(m, "rate limit", i))
  {
    ContainsAt(m, "quota");
    ContainsAt(m, "rate limit");
    Contains(m, "quota") || Contains(m, "rate limit")
  }

  /** The message mentions "SAFETY" or "blocked", case-sensitively. */
  predicate SafetyBlocked(m: string): (b: bool)
    ensures b <==> (exists i :: OccursAt(m, "SAFETY", i)) || (exists i :: OccursAt(m, "blocked", i))
  {
    ContainsAt(m, "SAFETY");
    ContainsAt(m, "blocked");
    Contains(m, "SAFETY") || Contains(m, "blocked")
  }

  /** The catch block of `generateFeedback`. */
  function FeedbackErrorFor(t: Thrown): (e: AIError)
    ensures t.AI? ==> e == t.err
    ensures t.PlainError? && RateLimited(t.message) ==>
              e == Error("Gemini rate limit or quota exceeded", RateLimit, true)
    ensures t.PlainError? && !RateLimited(t.message) && SafetyBlocked(t.message) ==>
              e == Error("Content was blocked by Gemini safety filters", SafetyFilter)
    ensures t.PlainError? && !RateLimited(t.message) && !SafetyBlocked(t.message) && Contains(t.message, "API_KEY") ==>
              e == Error("Invalid Gemini API key", InvalidApiKey)
    ensures t.PlainError? && !RateLimited(t.message) && !SafetyBlocked(t.message) && !Contains(t.message, "API_KEY") ==>
              e == Error("Gemini API error: " + t.message, ApiError, true)
    ensures t.NonError? ==> e == Error("Unknown error occurred with Gemini provider", UnknownError, true)
  {
    match t
    case AI(err) => err
    case PlainError(m) =>
      if RateLimited(m) then Error("Gemini rate limit or quota exceeded", RateLimit, true)
      else if SafetyBlocked(m) then Error("Content was blocked by Gemini safety filters", SafetyFilter)
      else if Contains(m, "API_KEY") then Error("Invalid Gemini API key", InvalidApiKey)
      else Error("Gemini API error: " + m, ApiError, true)
    case NonError(_) => Error("Unknown error occurred with Gemini provider", UnknownError, true)
  }

  /** The catch block of `generateTopic`: the same, without the API_KEY case. */
  function TopicErrorFor(t: Thrown): (e: AIError)
    ensures t.AI? ==> e == t.err
    ensures t.PlainError? && RateLimited(t.message) ==>
              e == Error("Gemini rate limit or quota exceeded", RateLimit, true)
    ensures t.PlainError? && !RateLimited(t.message) && SafetyBlocked(t.message) ==>
              e == Error("Content was blocked by Gemini safety filters", SafetyFilter)
    ensures t.PlainError? && !RateLimited(t.message) && !SafetyBlocked(t.message) ==>
              e == Error("Gemini API error: " + t.message, ApiError, true)
    ensures t.NonError? ==> e == Error("Unknown error occurred with Gemini provider", UnknownError, true)
  {
    match t
    case AI(err) => err
    case PlainError(m) =>
      if RateLimited(m) then Error("Gemini rate limit or quota exceeded", RateLimit, true)
      else if SafetyBlocked(m) then Error("Content was blocked by Gemini safety filters", SafetyFilter)
      else Error("Gemini API error: " + m, ApiError, true)
    case NonError(_) => Error("Unknown error occurred with Gemini provider", UnknownError, true)
  }

  /** Running an error through the catch block again changes nothing. */
  lemma CatchIdempotent(t: Thrown)
    ensures FeedbackErrorFor(AI(FeedbackErrorFor(t))) == FeedbackErrorFor(t)
    ensures TopicErrorFor(AI(TopicErrorFor(t))) == TopicErrorFor(t)
  {
  }

  /**
   * Which SDK failures the router may retry elsewhere: rate limits, API errors
   * and thrown non-Errors; never a safety block or a bad key.
   */
  lemma FeedbackRetryable(t: Thrown)
    requires !t.AI?
    ensures FeedbackErrorFor(t).retryable
            <==> t.NonError? || RateLimited(t.message)
                 || (!SafetyBlocked(t.message) && !Contains(t.message, "API_KEY"))
  {
  }

  /** The two catch blocks differ exactly on a key error that is neither a rate limit nor a block. */
  lemma TopicAndFeedbackCatch(t: Thrown)
    ensures FeedbackErrorFor(t) != TopicErrorFor(t)
            <==> t.PlainError? && !RateLimited(t.message) && !SafetyBlocked(t.message)
                 && Contains(t.message, "API_KEY")
  {
    if t.PlainError? && !RateLimited(t.message) && !SafetyBlocked(t.message) && Contains(t.message, "API_KEY") {
      assert FeedbackErrorFor(t).code != TopicErrorFor(t).code;
    }
  }

  const NoResponseError: AIError := Error("No response received from Gemini", NoResponse)

  /** `!response || !response.text`. */
  predicate NoText(reply: Reply) {
    reply.Missing? || (reply.Response? && reply.text.NoTextMethod?)
  }

  /** `response.text()` returns a string. */
  predicate TextReply(reply: Reply) {
    reply.Response? && reply.text.Returns?
  }

  /**
   * `generateFeedback`: the reply of the generateContent call and the
   * behaviour of JSON.parse are given. The text is trimmed, cleaned of code
   * fences, parsed and validated; the result or the classified error is returned.
   */
  method GenerateFeedback(reply: Reply, parse: string -> ParseResult) returns (r: Outcome<Json>)
    ensures r.Ok? <==> TextReply(reply) && parse(Cleaned(reply.text.s)).Parsed?
                       && ValidFeedback(parse(Cleaned(reply.text.s)).value)
    ensures r.Ok? ==> r.value == parse(Cleaned(reply.text.s)).value
    ensures r.Threw? ==> r.thrown.AI?
    ensures reply.SdkFailed? ==> r == Threw(AI(FeedbackErrorFor(reply.thrown)))
    ensures NoText(reply) ==> r == Threw(AI(NoResponseError))
    ensures reply.Response? && reply.text.Throws? ==> r == Threw(AI(FeedbackErrorFor(reply.text.thrown)))
    ensures TextReply(reply) && parse(Cleaned(reply.text.s)).SyntaxError? ==>
              r == Threw(AI(Error("Failed to parse Gemini response as JSON: SyntaxError: "
                                  + parse(Cleaned(reply.text.s)).message, ParseError)))
    ensures TextReply(reply) && parse(Cleaned(reply.text.s)).Parsed?
            && !ValidFeedback(parse(Cleaned(reply.text.s)).value) ==>
              r == Threw(AI(Validate(parse(Cleaned(reply.text.s)).value, Provider).value))
  {
    // the body of the try block ends with a value or with something thrown
    var thrown: Option<Thrown> := None;
    var feedbackData: Json := JNull;
    if reply.SdkFailed? {
      thrown := Some(reply.thrown);
    } else if NoText(reply) {
      thrown := Some(AI(NoResponseError));
    } else if reply.text.Throws? {
      thrown := Some(reply.text.thrown);
    } else {
      var feedbackText := CleanFeedbackText(reply.text.s);
      var parsed := parse(feedbackText);
      if parsed.SyntaxError? {
        thrown := Some(AI(Error("Failed to parse Gemini response as JSON: SyntaxError: " + parsed.message, ParseError)));
      } else {
        var invalid := Validate(parsed.value, Provider);
        if invalid.Some? {
          thrown := Some(AI(invalid.value));
        } else {
          feedbackData := parsed.value;
        }
      }
    }
    // the catch block
    if thrown.Some? {
      r := Threw(AI(FeedbackErrorFor(thrown.value)));
    } else {
      r := Ok(feedbackData);
    }
  }

  /** A topic is accepted when its trimmed text has at least ten UTF-16 units. */
  predicate AcceptableTopic(topic: string) {
    JsLength(topic) >= 10
  }

  /** `generateTopic`: the trimmed response text, or the classified error. */
  method GenerateTopic(reply: Reply) returns (r: Outcome<string>)
    ensures r.Ok? <==> TextReply(reply) && AcceptableTopic(Trim(reply.text.s))
    ensures r.Ok? ==> r.value == Trim(reply.text.s) && r.value != [] && Trimmed(r.value)
    ensures r.Threw? ==> r.thrown.AI?
    ensures reply.SdkFailed? ==> r == Threw(AI(TopicErrorFor(reply.thrown)))
    ensures NoText(reply) ==> r == Threw(AI(NoResponseError))
    ensures reply.Response? && reply.text.Throws? ==> r == Threw(AI(TopicErrorFor(reply.text.thrown)))
    ensures TextReply(reply) && !AcceptableTopic(Trim(reply.text.s)) ==>
              r == Threw(AI(Error("Generated topic is too short or empty", InvalidResponse)))
  {
    if reply.SdkFailed? {
      return Threw(AI(TopicErrorFor(reply.thrown)));
    }
    if NoText(reply) {
      return Threw(AI(NoResponseError));
    }
    if reply.text.Throws? {
      return Threw(AI(TopicErrorFor(reply.text.thrown)));
    }
    var topic := Trim(reply.text.s);
    if topic == [] || JsLength(topic) < 10 {
      return Threw(AI(Error("Generated topic is too short or empty", InvalidResponse)));
    }
    TrimOfTrimmed(Trim(reply.text.s));
    TrimIdempotent(reply.text.s);
    return Ok(topic);
  }
}
