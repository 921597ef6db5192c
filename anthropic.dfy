/**
 * The Anthropic adapter (AnthropicProvider): one messages call per operation,
 * the code-fence clean-up and JSON.parse for feedback, the trimmed-length
 * check for topics, and the catch blocks that turn whatever was thrown into
 * an AIError with provider "anthropic".
 */
module AnthropicProvider {
  import opened Wrappers
  import opened JsText
  import opened Json
  import opened AITypes
  import opened FeedbackValidation
  import opened Fences

  const Provider: string := "anthropic"

  /** `createAIError`: an AIError of this adapter. */
  function Error(message: string, code: ErrorCode, retryable: bool := false): (e: AIError)
    ensures e.provider == Provider && e.message == message && e.code == code && e.retryable == retryable
  {
    AIError(message, Provider, code, retryable)
  }

  /** One entry of the reply's content list. */
  datatype ContentBlock = TextBlock(text: string) | OtherBlock(kind: string)

  /** How `client.messages.create` ends: the SDK throws, or a message arrives. */
  datatype Reply = SdkFailed(thrown: Thrown) | Message(content: seq<ContentBlock>)

  /** Reading `.type` of the missing first block of an empty content list throws this TypeError. */
  const MissingBlock: Thrown := PlainError("Cannot read properties of undefined (reading 'type')")

  /** The catch block of `generateFeedback`. */
  function FeedbackErrorFor(t: Thrown): (e: AIError)
    ensures t.AI? ==> e == t.err
    ensures t.PlainError? && Contains(t.message, "rate_limit") ==>
              e == Error("Anthropic rate limit exceeded", RateLimit, true)
    ensures t.PlainError? && !Contains(t.message, "rate_limit") && Contains(t.message, "invalid_request") ==>
              e == Error("Invalid request to Anthropic", InvalidRequest)
    ensures t.PlainError? && !Contains(t.message, "rate_limit") && !Contains(t.message, "invalid_request") ==>
              e == Error("Anthropic API error: " + t.message, ApiError, true)
    ensures t.NonError? ==> e == Error("Unknown error occurred with Anthropic provider", UnknownError, true)
  {
    match t
    case AI(err) => err
    case PlainError(m) =>
      if Contains(m, "rate_limit") then Error("Anthropic rate limit exceeded", RateLimit, true)
      else if Contains(m, "invalid_request") then Error("Invalid request to Anthropic", InvalidRequest)
      else Error("Anthropic API error: " + m, ApiError, true)
    case NonError(_) => Error("Unknown error occurred with Anthropic provider", UnknownError, true)
  }

  /** The catch block of `generateTopic`: the same, without the invalid_request case. */
  function TopicErrorFor(t: Thrown): (e: AIError)
    ensures t.AI? ==> e == t.err
    ensures t.PlainError? && Contains(t.message, "rate_limit") ==>
              e == Error("Anthropic rate limit exceeded", RateLimit, true)
    ensures t.PlainError? && !Contains(t.message, "rate_limit") ==>
              e == Error("Anthropic API error: " + t.message, ApiError, true)
    ensures t.NonError? ==> e == Error("Unknown error occurred with Anthropic provider", UnknownError, true)
  {
    match t
    case AI(err) => err
    case PlainError(m) =>
      if Contains(m, "rate_limit") then Error("Anthropic rate limit exceeded", RateLimit, true)
      else Error("Anthropic API error: " + m, ApiError, true)
    case NonError(_) => Error("Unknown error occurred with Anthropic provider", UnknownError, true)
  }

  /** Running an error through the catch block again changes nothing. */
  lemma CatchIdempotent(t: Thrown)
    ensures FeedbackErrorFor(AI(FeedbackErrorFor(t))) == FeedbackErrorFor(t)
    ensures TopicErrorFor(AI(TopicErrorFor(t))) == TopicErrorFor(t)
  {
  }

  /**
   * Which SDK failures the router may retry elsewhere: every Error except an
   * invalid request (rate limits and API errors are retryable), and every
   * thrown non-Error.
   */
  lemma FeedbackRetryable(t: Thrown)
    requires !t.AI?
    ensures FeedbackErrorFor(t).retryable
            <==> !(t.PlainError? && !Contains(t.message, "rate_limit") && Contains(t.message, "invalid_request"))
  {
  }

  /** The two catch blocks differ exactly on an invalid request that is not a rate limit. */
  lemma TopicAndFeedbackCatch(t: Thrown)
    ensures FeedbackErrorFor(t) != TopicErrorFor(t)
            <==> t.PlainError? && !Contains(t.message, "rate_limit") && Contains(t.message, "invalid_request")
  {
    if t.PlainError? && !Contains(t.message, "rate_limit") && Contains(t.message, "invalid_request") {
      assert FeedbackErrorFor(t).code != TopicErrorFor(t).code;
    }
  }

  /** The first block of a message when it is a text block, the text. */
  predicate TextReply(reply: Reply) {
    reply.Message? && |reply.content| > 0 && reply.content[0].TextBlock?
  }

  /**
   * `generateFeedback`: the reply of the messages call and the behaviour of
   * JSON.parse are given. The text is trimmed, cleaned of code fences, parsed
   * and validated; the result or the classified error is returned.
   */
  method GenerateFeedback(reply: Reply, parse: string -> ParseResult) returns (r: Outcome<Json>)
    ensures r.Ok? <==> TextReply(reply) && parse(Cleaned(reply.content[0].text)).Parsed?
                       && ValidFeedback(parse(Cleaned(reply.content[0].text)).value)
    ensures r.Ok? ==> r.value == parse(Cleaned(reply.content[0].text)).value
    ensures r.Threw? ==> r.thrown.AI?
    ensures reply.SdkFailed? ==> r == Threw(AI(FeedbackErrorFor(reply.thrown)))
    ensures reply.Message? && reply.content == [] ==> r == Threw(AI(FeedbackErrorFor(MissingBlock)))
    ensures reply.Message? && reply.content != [] && !reply.content[0].TextBlock? ==>
              r == Threw(AI(Error("Invalid response type from Anthropic", InvalidResponse)))
    ensures TextReply(reply) && parse(Cleaned(reply.content[0].text)).SyntaxError? ==>
              r == Threw(AI(Error("Failed to parse Anthropic response as JSON: SyntaxError: "
                                  + parse(Cleaned(reply.content[0].text)).message, ParseError)))
    ensures TextReply(reply) && parse(Cleaned(reply.content[0].text)).Parsed?
            && !ValidFeedback(parse(Cleaned(reply.content[0].text)).value) ==>
              r == Threw(AI(Validate(parse(Cleaned(reply.content[0].text)).value, Provider).value))
  {
    // the body of the try block ends with a value or with something thrown
    var thrown: Option<Thrown> := None;
    var feedbackData: Json := JNull;
    if reply.SdkFailed? {
      thrown := Some(reply.thrown);
    } else if reply.content == [] {
      thrown := Some(MissingBlock);
    } else if !reply.content[0].TextBlock? {
      thrown := Some(AI(Error("Invalid response type from Anthropic", InvalidResponse)));
    } else {
      var feedbackText := CleanFeedbackText(reply.content[0].text);
      var parsed := parse(feedbackText);
      if parsed.SyntaxError? {
        thrown := Some(AI(Error("Failed to parse Anthropic response as JSON: SyntaxError: " + parsed.message, ParseError)));
      } else {
        var invalid := Validate(parsed.value, Provider);
        if invalid.Some? {
          thrown := Some(AI(invalid.value));
        } else {
          feedbackData := parsed.value;
        }
      }
    }
    // the catch block
    if thrown.Some? {
      r := Threw(AI(FeedbackErrorFor(thrown.value)));
    } else {
      r := Ok(feedbackData);
    }
  }

  /** A topic is accepted when its trimmed text has at least ten UTF-16 units. */
  predicate AcceptableTopic(topic: string) {
    JsLength(topic) >= 10
  }

  /** `generateTopic`: the trimmed text of the first block, or the classified error. */
  method GenerateTopic(reply: Reply) returns (r: Outcome<string>)
    ensures r.Ok? <==> TextReply(reply) && AcceptableTopic(Trim(reply.content[0].text))
    ensures r.Ok? ==> r.value == Trim(reply.content[0].text) && r.value != [] && Trimmed(r.value)
    ensures r.Threw? ==> r.thrown.AI?
    ensures reply.SdkFailed? ==> r == Threw(AI(TopicErrorFor(reply.thrown)))
    ensures reply.Message? && reply.content == [] ==> r == Threw(AI(TopicErrorFor(MissingBlock)))
    ensures reply.Message? && reply.content != [] && !reply.content[0].TextBlock? ==>
              r == Threw(AI(Error("Invalid response type from Anthropic", InvalidResponse)))
    ensures TextReply(reply) && !AcceptableTopic(Trim(reply.content[0].text)) ==>
              r == Threw(AI(Error("Generated topic is too short or empty", InvalidResponse)))
  {
    if reply.SdkFailed? {
      return Threw(AI(TopicErrorFor(reply.thrown)));
    }
    if reply.content == [] {
      return Threw(AI(TopicErrorFor(MissingBlock)));
    }
    if !reply.content[0].TextBlock? {
      return Threw(AI(Error("Invalid response type from Anthropic", InvalidResponse)));
    }
    var topic := Trim(reply.content[0].text);
    if topic == [] || JsLength(topic) < 10 {
      return Threw(AI(Error("Generated topic is too short or empty", InvalidResponse)));
    }
    TrimOfTrimmed(Trim(reply.content[0].text));
    TrimIdempotent(reply.content[0].text);
    return Ok(topic);
  }
}
