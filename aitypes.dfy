/**
 * The shared vocabulary of the AI integration layer: provider identities,
 * the AIError class, the values a JavaScript `throw` can carry, the outcome
 * of calling a provider, the request and response records, and the router
 * configuration as callers write it.
 */
module AITypes {
  import opened Wrappers
  import opened Json

  /** The two backends; `Name` is the string the source uses for each. */
  datatype ProviderType = Anthropic | Gemini {
    function Name(): string {
      match this
      case Anthropic => "anthropic"
      case Gemini => "gemini"
    }

    /** The provider the router falls back to when none is configured. */
    function Other(): (o: ProviderType)
      ensures o != this
    {
      match this
      case Anthropic => Gemini
      case Gemini => Anthropic
    }
  }

  /** The error codes the router and the two adapters create. */
  datatype ErrorCode =
    | ProviderUnavailable
    | ProviderInitFailed
    | Timeout
    | MaxRetriesExceeded
    | InvalidResponse
    | NoResponse
    | ParseError
    | ValidationError
    | RateLimit
    | InvalidRequest
    | SafetyFilter
    | InvalidApiKey
    | ApiError
    | UnknownError
  {
    function Name(): string {
      match this
      case ProviderUnavailable => "PROVIDER_UNAVAILABLE"
      case ProviderInitFailed => "PROVIDER_INIT_FAILED"
      case Timeout => "TIMEOUT"
      case MaxRetriesExceeded => "MAX_RETRIES_EXCEEDED"
      case InvalidResponse => "INVALID_RESPONSE"
      case NoResponse => "NO_RESPONSE"
      case ParseError => "PARSE_ERROR"
      case ValidationError => "VALIDATION_ERROR"
      case RateLimit => "RATE_LIMIT"
      case InvalidRequest => "INVALID_REQUEST"
      case SafetyFilter => "SAFETY_FILTER"
      case InvalidApiKey => "INVALID_API_KEY"
      case ApiError => "API_ERROR"
      case UnknownError => "UNKNOWN_ERROR"
    }
  }

  /**
   * An AIError as its constructor builds it: message, provider and code are
   * stored as given, `retryable` is false unless passed, and the name is
   * always "AIError".
   */
  datatype AIError = AIError(message: string, provider: string, code: ErrorCode, retryable: bool := false)
  {
    const name: string := "AIError"
  }

  /** Omitting `retryable` yields a non-retryable error with the given fields. */
  lemma ConstructorDefaults(message: string, provider: string, code: ErrorCode)
    ensures AIError(message, provider, code).retryable == false
    ensures AIError(message, provider, code).message == message
    ensures AIError(message, provider, code).provider == provider
    ensures AIError(message, provider, code).code == code
    ensures AIError(message, provider, code).name == "AIError"
  {
  }

  /**
   * What a rejected promise or `throw` carries: an AIError, some other Error
   * (with its message), or a value that is not an Error at all (with the text
   * String(value) gives it).
   */
  datatype Thrown = AI(err: AIError) | PlainError(message: string) | NonError(text: string)
  {
    /** The message of `error instanceof Error ? error : new Error(String(error))`. */
    function Message(): string {
      match this
      case AI(e) => e.message
      case PlainError(m) => m
      case NonError(t) => t
    }
  }

  /** `error instanceof AIError && error.retryable`. */
  predicate IsRetryable(t: Thrown) {
    t.AI? && t.err.retryable
  }

  /** How one call of a provider operation ends: a value, or a thrown value. */
  datatype Outcome<+T> = Ok(value: T) | Threw(thrown: Thrown)

  datatype PracticeInput = PracticeInput(topic: string, goal: string, mainPoints: seq<string>, pitch: string)

  /**
   * The typed view of a feedback response. The element types of the three
   * arrays are declared `string[]` but never checked at run time, so they
   * stay parsed values here.
   */
  datatype ImprovedVersions = ImprovedVersions(topic: string, mainPoints: seq<Json>, pitch: string)
  datatype FeedbackResponse = FeedbackResponse(
    score: real,
    strengths: seq<Json>,
    improvements: seq<Json>,
    improvedVersions: ImprovedVersions)

  /** The router configuration a caller writes: only the primary is required. */
  datatype AIRouterConfig = AIRouterConfig(
    primaryProvider: ProviderType,
    fallbackProvider: Option<ProviderType> := None,
    maxRetries: Option<int> := None,
    timeoutMs: Option<int> := None)

  /** The configuration once the constructor has filled in every default. */
  datatype FullConfig = FullConfig(
    primaryProvider: ProviderType,
    fallbackProvider: ProviderType,
    maxRetries: int,
    timeoutMs: int)

  /** Only the primary provider is needed to write a configuration. */
  lemma OnlyPrimaryRequired(p: ProviderType)
    ensures AIRouterConfig(p).fallbackProvider.None?
    ensures AIRouterConfig(p).maxRetries.None? && AIRouterConfig(p).timeoutMs.None?
  {
  }
}
