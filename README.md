# Clarify Coach: the AI router, its two adapters and the practice routes

This project models the core of Clarify Coach, an application that coaches
short spoken pitches. A user submits a topic, a goal, some main points and
the pitch text. The server asks a language model for structured feedback and
stores the session with its score. It then updates the user's streak, session
count and running average.

The model covers the following parts:

- **The AI integration layer.**
  - `AnthropicProvider` and `GeminiProvider` make one backend call per
    operation. They strip markdown code fences from the reply, parse it and
    check it with an eight-step validator. Each adapter maps whatever was
    thrown into an `AIError` of its own.
  - `AIRouter` fills in configuration defaults and registers a provider for
    each API key that is set. It wraps every operation in a recovery
    protocol:
    1. one timed call of the primary provider;
    2. on a retryable `AIError`, one timed call of the fallback provider;
    3. then a retry loop on the primary with exponential backoff, ending in
       `MAX_RETRIES_EXCEEDED`.
  - The factory `createAIRouter` builds a router from the environment.
- **The three API routes.**
  - `POST /api/practice/submit` checks the schema, calls the router, clamps
    and rounds the score, stores the session and updates the progress row.
  - `GET /api/user/progress` reports the average, the streak, the
    improvement trend, the user level, the goal ratios and the achievement
    badges.
  - `GET /api/user/history` parses and clamps the query, builds the filter
    and returns a page of sessions with its pagination and summary.
- **Two components' logic.**
  - The streak card's level bands, messages and distance to the next
    milestone.
  - The pitch editor's character and word statistics.

The JavaScript semantics these parts rely on are written out in `JsText`:

- the whitespace set shared by `trim` and `\s`;
- `trim`, `startsWith` and `includes`;
- the UTF-16 `.length`;
- `parseInt` with radix 10;
- the decimal rendering of integers.

`Json` holds the values `JSON.parse` produces.

Foreign calls and I/O are not evaluated; the model takes their results as
parameters:

- **Backend SDK calls** become a `Reply` value for each adapter call.
- **Router calls.** The router is given three things: the outcome of the
  first call, the outcome of the fallback call, and a function from attempt
  number to outcome for the retry loop. A call that loses the race against
  its timer is `TimedOut`.
- **`JSON.parse`** is a function `string -> ParseResult`.
- **Other inputs:**
  - the environment is an `Env` record;
  - database rows are sequences and records;
  - dates are whole numbers: days for the streak, milliseconds for the
    history filter;
  - the two calendar operations of the history route are functions.

The router's sleeps are not performed: each run records the delays it would
have waited.

Each file is one module:

| file | module | models |
|---|---|---|
| `wrappers.dfy` | `Wrappers` | `Option` and `Result` |
| `jstext.dfy` | `JsText` | JavaScript string helpers |
| `json.dfy` | `Json` | parsed JSON values, property access, truthiness, `typeof` |
| `aitypes.dfy` | `AITypes` | `src/lib/ai/types.ts` |
| `validation.dfy` | `FeedbackValidation` | `validateFeedbackResponse` (the same in both adapters) |
| `fences.dfy` | `Fences` | the code-fence clean-up (the same in both adapters) |
| `anthropic.dfy` | `AnthropicProvider` | `src/lib/ai/providers/anthropic.ts` |
| `gemini.dfy` | `GeminiProvider` | `src/lib/ai/providers/gemini.ts` |
| `router.dfy` | `Router` | `src/lib/ai/router.ts`, with class `AIRouter` |
| `submit.dfy` | `PracticeSubmit` | `src/app/api/practice/submit/route.ts` |
| `progress.dfy` | `UserProgress` | `src/app/api/user/progress/route.ts` |
| `history.dfy` | `UserHistory` | `src/app/api/user/history/route.ts` |
| `streak.dfy` | `StreakCounter` | `src/components/dashboard/StreakCounter.tsx` |
| `pitch.dfy` | `PitchEditor` | `src/components/practice/PitchEditor.tsx` |

## Behaviour of the code worth knowing

The model follows the code where it departs from the router's documented
intent.

- **Which errors are retryable.**
  - The intent is to treat timeouts and malformed model output as transient.
  - In the code, `TIMEOUT` is a router error, which is never retryable.
  - The adapters create `PARSE_ERROR`, `VALIDATION_ERROR`,
    `INVALID_RESPONSE` and `NO_RESPONSE` without the retryable flag.
  - So none of these leads to the fallback or the retry loop. They are
    rethrown after the first call (`Router.TerminalError`,
    `Router.TimeoutIsTerminal`).
- **The retry loop retries everything.** It ignores `retryable` for the
  attempts it makes. Every failure, of any kind, is retried until
  `maxRetries` attempts have been made.
- **maxRetries has no lower bound.** The constructor only replaces `0` or a
  missing value with 3, so a negative `maxRetries` passes through. The loop
  then makes no attempt and throws `MAX_RETRIES_EXCEEDED` with
  "Unknown error" (`Router.NoAttemptBelowOne`).
- **The factory's fallback can equal the primary.** `createAIRouter`
  computes the default fallback from `AI_PROVIDER`, not from an overriding
  primary. In that case the router falls back to the very provider that just
  failed (`Router.FactoryFallbackMayEqualPrimary`, `Router.GeminiOverrideRouter`).

## Model

| member | source | states |
|---|---|---|
| JsText.Trim | src/lib/ai/providers/anthropic.ts:47 | `trim` gives a string no longer than its input whose first and last characters are not whitespace |
| JsText.TrimIsSlice | src/lib/ai/providers/anthropic.ts:47 | what `trim` leaves is a slice of the input with only whitespace before and after it |
| JsText.BlankIffTrimEmpty | src/lib/ai/providers/anthropic.ts:204 | `!s.trim()` holds exactly for strings made of whitespace only |
| JsText.TrimOfTrimmed | src/lib/ai/providers/anthropic.ts:62 | `trim` leaves a string unchanged exactly when neither end is whitespace |
| JsText.TrimIdempotent | src/lib/ai/providers/anthropic.ts:62 | trimming a trimmed string changes nothing |
| JsText.ContainsAt | src/lib/ai/providers/anthropic.ts:94 | `includes` holds exactly when the substring occurs at some index |
| JsText.Contains | src/lib/ai/providers/anthropic.ts:94 | `includes`: it holds only when the substring is no longer than the string, and always for the empty substring |
| JsText.StartsWith | src/lib/ai/providers/anthropic.ts:56 | `startsWith` holds exactly when the prefix occurs at index 0 |
| JsText.JsLength | src/components/practice/PitchEditor.tsx:19 | `.length` counts UTF-16 code units, at least one per character |
| JsText.JsLengthOfBmp | src/lib/ai/providers/anthropic.ts:148 | for text inside the Basic Multilingual Plane, `.length` is the number of characters |
| JsText.LeadingDigits | src/app/api/user/history/route.ts:8 | parseInt finds a number exactly when the text begins with a digit |
| JsText.ParseIntJs | src/app/api/user/history/route.ts:8-13 | after the leading whitespace, parseInt finds a number exactly when a digit follows, possibly after one sign; a "-" sign gives a number at most 0, and no sign a number at least 0 |
| JsText.ParseIntOfNatToString | src/app/api/user/history/route.ts:8 | `parseInt(String(n), 10)` is n for every natural number |
| JsText.ParseIntOfIntToString | src/app/api/user/history/route.ts:8-13 | parseInt reads back every integer written in decimal, negative ones included |
| Json.ObjectLike | src/lib/ai/providers/anthropic.ts:183-185 | `!response \|\| typeof response !== 'object'` rejects exactly the values that are neither arrays nor objects |
| AITypes.ProviderType.Other | src/lib/ai/router.ts:12 | the default fallback is always the provider other than the primary |
| AITypes.ConstructorDefaults | src/lib/ai/types.ts:44-50 | an AIError stores message, provider and code as given, is not retryable unless told so, and is named "AIError" |
| AITypes.OnlyPrimaryRequired | src/lib/ai/types.ts:53-58 | a configuration needs only the primary provider; the other three fields are optional |
| FeedbackValidation.FirstFailingIndex | src/lib/ai/providers/anthropic.ts:182-215 | the checks run in order; the first failing index has all earlier checks passing, and none is found exactly when all pass |
| FeedbackValidation.Holds | src/lib/ai/providers/anthropic.ts:183-214 | each of the eight checks on its own; every check but the first can pass only on an object, and the three checks inside improvedVersions only when improvedVersions is an object |
| FeedbackValidation.Message | src/lib/ai/providers/anthropic.ts:183-214 | the non-empty error text each check raises |
| FeedbackValidation.FirstFailure | src/lib/ai/providers/anthropic.ts:182-215 | there is no failing check exactly when the value passes all eight; otherwise the check reported is the first one in validator order that fails, every earlier check passing |
| FeedbackValidation.Validate | src/lib/ai/providers/anthropic.ts:182-215 | the validator throws nothing exactly for valid feedback, and otherwise throws a non-retryable VALIDATION_ERROR of the calling adapter whose message is the text of the first failing check |
| FeedbackValidation.AllChecks | src/lib/ai/providers/anthropic.ts:182-215 | valid feedback is exactly the conjunction of the eight checks: object, score in [1,10], two non-empty arrays, improvedVersions an object with non-blank topic, non-empty mainPoints and non-blank pitch |
| FeedbackValidation.FailsFast | src/lib/ai/providers/anthropic.ts:183-185 | for either adapter, a value that is not an object is reported as "Response is not an object", before any later check |
| FeedbackValidation.Shape | src/lib/ai/providers/anthropic.ts:84-86 | what passes validation has a score in [1,10], non-empty arrays and non-blank strings where the response type promises them |
| FeedbackValidation.ValidFromParts | src/lib/ai/providers/anthropic.ts:182-215 | any object whose fields satisfy the eight conditions passes, whatever else it holds |
| FeedbackValidation.ElementTypesUnchecked | src/lib/ai/providers/anthropic.ts:190-210 | the element types of the three arrays are never checked: arrays of anything pass |
| Fences.RemoveOpeningFence | src/lib/ai/providers/anthropic.ts:58 | after the opening replacement, the text does not start with whitespace |
| Fences.FindClosingFrom | src/lib/ai/providers/anthropic.ts:60 | finds the leftmost index where `\n?` followed by a fence and trailing whitespace matches, or shows that none exists |
| Fences.RemoveClosingFence | src/lib/ai/providers/anthropic.ts:60 | the closing replacement only cuts off an end of the text |
| Fences.CleanFeedbackText | src/lib/ai/providers/anthropic.ts:47-63 | the step-by-step clean-up gives the cleaned text, and text not starting with a fence is only trimmed |
| Fences.Cleaned | src/lib/ai/providers/anthropic.ts:47-63 | the text handed to JSON.parse has no whitespace at either end, and text that does not start with a fence after trimming is only trimmed |
| Fences.ClosingFenceRemoved | src/lib/ai/providers/anthropic.ts:60 | a closing fence followed by whitespace is removed with at most one newline before it, and nothing else changes |
| Fences.FencedCleaned | src/lib/ai/providers/anthropic.ts:54-63 | a trimmed body fenced with "json" or with no tag is cleaned down to the body |
| Fences.JsonFenced | src/lib/ai/providers/anthropic.ts:56-63 | "```json\n" + b + "\n```" cleans to b |
| Fences.BareFenced | src/lib/ai/providers/anthropic.ts:56-63 | "```\n" + b + "\n```" cleans to b |
| Fences.FenceFormsAgree | src/lib/ai/providers/anthropic.ts:55-63 | the json-fenced, bare-fenced and unfenced forms of a trimmed body all give the body |
| Fences.UnfencedOnlyTrimmed | src/lib/ai/providers/anthropic.ts:56 | text that does not start with a fence after trimming is only trimmed |
| Fences.OtherTagKept | src/lib/ai/providers/anthropic.ts:58-62 | any other language tag survives the clean-up, so the parsed text still starts with that tag |
| AnthropicProvider.Error | src/lib/ai/providers/anthropic.ts:217-219 | createAIError stores the message, code and retryable flag, with provider "anthropic" |
| AnthropicProvider.FeedbackErrorFor | src/lib/ai/providers/anthropic.ts:87-121 | feedback catch block: an AIError passes through; otherwise rate_limit gives RATE_LIMIT (retryable) first, then invalid_request gives INVALID_REQUEST, another Error gives API_ERROR (retryable), and a non-Error gives UNKNOWN_ERROR (retryable) |
| AnthropicProvider.TopicErrorFor | src/lib/ai/providers/anthropic.ts:153-179 | topic catch block: the same cases with no invalid_request case, so such errors become a retryable API_ERROR |
| AnthropicProvider.CatchIdempotent | src/lib/ai/providers/anthropic.ts:88-90 | feeding a classified error through either catch block again gives the same error |
| AnthropicProvider.FeedbackRetryable | src/lib/ai/providers/anthropic.ts:92-120 | an SDK failure becomes retryable exactly unless it is an invalid request that is not a rate limit |
| AnthropicProvider.TopicAndFeedbackCatch | src/lib/ai/providers/anthropic.ts:153-179 | the two catch blocks disagree exactly on an invalid_request message without rate_limit |
| AnthropicProvider.GenerateFeedback | src/lib/ai/providers/anthropic.ts:19-122 | the parsed value is returned exactly when the first block is text and its cleaned text parses to valid feedback. On each other path the method throws the matching error: the SDK error, the missing first block, INVALID_RESPONSE, PARSE_ERROR or the VALIDATION_ERROR |
| AnthropicProvider.GenerateTopic | src/lib/ai/providers/anthropic.ts:124-180 | the trimmed text is returned exactly when the first block is text with at least ten UTF-16 units after trimming; each failure path throws its own error |
| GeminiProvider.Error | src/lib/ai/providers/gemini.ts:229-231 | createAIError stores the message, code and retryable flag, with provider "gemini" |
| GeminiProvider.FeedbackErrorFor | src/lib/ai/providers/gemini.ts:88-129 | feedback catch block, in order: AIError passes through; quota or rate limit gives RATE_LIMIT (retryable); SAFETY or blocked gives SAFETY_FILTER; API_KEY gives INVALID_API_KEY; another Error gives API_ERROR (retryable); a non-Error gives UNKNOWN_ERROR (retryable) |
| GeminiProvider.RateLimited | src/lib/ai/providers/gemini.ts:95 | the rate-limit test holds exactly when "quota" or "rate limit" occurs in the message |
| GeminiProvider.SafetyBlocked | src/lib/ai/providers/gemini.ts:103 | the safety test holds exactly when "SAFETY" or "blocked" occurs in the message |
| GeminiProvider.TopicErrorFor | src/lib/ai/providers/gemini.ts:158-191 | topic catch block: the same without the API_KEY case |
| GeminiProvider.CatchIdempotent | src/lib/ai/providers/gemini.ts:89-91 | feeding a classified error through either catch block again gives the same error |
| GeminiProvider.FeedbackRetryable | src/lib/ai/providers/gemini.ts:92-128 | an SDK failure becomes retryable exactly for rate limits, non-Errors and errors that are neither a safety block nor a key error |
| GeminiProvider.TopicAndFeedbackCatch | src/lib/ai/providers/gemini.ts:158-191 | the two catch blocks disagree exactly on an API_KEY message that is neither a rate limit nor a block |
| GeminiProvider.GenerateFeedback | src/lib/ai/providers/gemini.ts:23-130 | the parsed value is returned exactly when `text()` returns a string whose cleaned form parses to valid feedback. Otherwise the method throws NO_RESPONSE without a text accessor, the classified error when the SDK or `text()` throws, PARSE_ERROR or the VALIDATION_ERROR |
| GeminiProvider.GenerateTopic | src/lib/ai/providers/gemini.ts:132-192 | the trimmed text is returned exactly when it has at least ten UTF-16 units; otherwise NO_RESPONSE, the classified error or INVALID_RESPONSE |
| Router.RouterError | src/lib/ai/router.ts:205-207 | router errors carry provider "router" and are never retryable |
| Router.ResolveConfig | src/lib/ai/router.ts:10-15 | the primary is kept. An omitted fallback is the other provider. An omitted or 0 maxRetries is 3, an omitted or 0 timeout is 30000, and any other value is kept |
| Router.ResolveIdempotent | src/lib/ai/router.ts:214-216 | a router built from another router's `getConfig()` has the same configuration |
| Router.AdapterFor | src/lib/ai/router.ts:133-140 | each name is registered with its own adapter |
| Router.TimeoutError | src/lib/ai/router.ts:165-170 | the timer rejects with a non-retryable router TIMEOUT |
| Router.WithTimeout | src/lib/ai/router.ts:158-173 | a call that settles first passes through unchanged, and a call the timer beats gives the TIMEOUT error |
| Router.UnavailableError | src/lib/ai/router.ts:23-27 | a missing primary gives a non-retryable router PROVIDER_UNAVAILABLE |
| Router.Protocol | src/lib/ai/router.ts:20-73 | the decision logic of one routed operation: no call is made exactly when the primary is not registered, and then the result is PROVIDER_UNAVAILABLE with no sleep; otherwise the primary is called first, and the fallback is called only when it is registered |
| Router.BackoffDoubles | src/lib/ai/router.ts:192 | the first sleep is 1000 ms and each later one doubles |
| Router.BackoffDelay | src/lib/ai/router.ts:192 | every sleep of the retry loop lasts at least one second |
| Router.LastErrorMessage | src/lib/ai/router.ts:185-200 | the exhaustion message ends in the last error's message when that is non-empty, and in "Unknown error" when there is no last error or its message is empty |
| Router.MaxRetriesError | src/lib/ai/router.ts:199-202 | exhaustion throws a non-retryable router MAX_RETRIES_EXCEEDED |
| Router.RetryFrom | src/lib/ai/router.ts:181-202 | the retry loop from a given attempt on; whenever it fails, it throws a non-retryable MAX_RETRIES_EXCEEDED AIError, whatever the attempts threw |
| Router.RetrySchedule | src/lib/ai/router.ts:181-197 | attempts are numbered consecutively, at most maxRetries of them, with a sleep of 1000·2^(k−1) after each failed attempt k except the last |
| Router.RetryOutcome | src/lib/ai/router.ts:179-202 | every attempt but the last failed. A success is the last attempt's result. Failure comes only after attempt maxRetries failed, and carries that attempt's error |
| Router.RetryReturnsFirstSuccess | src/lib/ai/router.ts:181-183 | when attempt k is the first success, it is returned after exactly k attempts and k−1 sleeps |
| Router.RetryExhausted | src/lib/ai/router.ts:181-202 | when every attempt fails, all maxRetries are made with maxRetries−1 sleeps, and the error names the last failure |
| Router.NoAttemptBelowOne | src/lib/ai/router.ts:179-202 | with maxRetries below 1 the loop makes no attempt and no sleep, and throws "All N retry attempts failed. Last error: Unknown error" |
| Router.DelaysIncrease | src/lib/ai/router.ts:192 | the sleeps strictly increase |
| Router.PrimarySuccess | src/lib/ai/router.ts:31-35 | a primary success is returned unchanged, after one call and no sleep |
| Router.TerminalError | src/lib/ai/router.ts:36-71 | a first error that is not a retryable AIError is rethrown unchanged after that single call |
| Router.TimeoutIsTerminal | src/lib/ai/router.ts:158-173 | a timed-out first call ends the operation with TIMEOUT: no fallback and no retry |
| Router.FallbackSuccess | src/lib/ai/router.ts:41-50 | after a retryable failure the registered fallback is called once, and its success is returned |
| Router.RetryAfterFallback | src/lib/ai/router.ts:51-69 | after a retryable failure, and a failed fallback when one is registered, the result is the primary retry loop's, retryable fallback error or not |
| Router.CallBounds | src/lib/ai/router.ts:20-73 | every run makes at most one fallback call and at most 1 + maxRetries primary calls, starts with the primary, and sleeps at most maxRetries−1 times |
| Router.EveryCallFails | src/lib/ai/router.ts:20-73 | when the first failure is retryable and every later call fails, the run makes exactly one fallback call if the fallback is registered (none otherwise), exactly 1 + maxRetries primary calls and maxRetries−1 sleeps, and throws MAX_RETRIES_EXCEEDED naming the last attempt's error |
| Router.ProtocolShape | src/lib/ai/router.ts:20-73 | the calls are none, the first alone, the first and the fallback, or one of those two followed by the whole retry loop |
| Router.ResultFromCalls | src/lib/ai/router.ts:20-73 | a returned value is what the first call, the fallback call or one of the retry attempts returned |
| Router.ErrorsEscaping | src/lib/ai/router.ts:20-73 | an operation throws only PROVIDER_UNAVAILABLE, the primary's own non-retryable error, or the router's MAX_RETRIES_EXCEEDED |
| Router.AIRouter.constructor | src/lib/ai/router.ts:9-15 | the stored configuration is the one with defaults filled in, and no provider is registered yet |
| Router.AIRouter.InitializeProviders | src/lib/ai/router.ts:130-156 | a provider is registered exactly when its key is set, under its own name. It fails with PROVIDER_INIT_FAILED and its message exactly when the primary is missing |
| Router.AIRouter.RetryWithBackoff | src/lib/ai/router.ts:175-203 | the loop makes exactly the attempts and sleeps `RetryFrom` describes and ends with its result |
| Router.AIRouter.Route | src/lib/ai/router.ts:20-73 | the recovery around one operation follows the protocol for the registered providers |
| Router.AIRouter.GenerateFeedback | src/lib/ai/router.ts:20-73 | feedback generation follows the recovery protocol |
| Router.AIRouter.GenerateTopic | src/lib/ai/router.ts:75-128 | topic generation follows the same protocol |
| Router.Construct | src/lib/ai/router.ts:9-18 | `new AIRouter` succeeds exactly when the primary's key is set, with a valid router whose configuration has the defaults filled in and which registers anthropic exactly when its key is set and gemini exactly when its key is set. Otherwise it throws a non-retryable PROVIDER_INIT_FAILED |
| Router.FactoryConfig | src/lib/ai/router.ts:227-233 | the factory's configuration keeps the chosen primary; without an override the fallback is the provider other than AI_PROVIDER's |
| Router.CreateAIRouter | src/lib/ai/router.ts:224-236 | the factory succeeds exactly when the chosen primary (the override, else the provider AI_PROVIDER names) has its key set. The router's configuration is `FactoryConfig` of that primary with defaults filled in, and its registered providers are exactly those whose keys are set. An AI_PROVIDER naming no provider fails initialisation with its name in the message; every other failure is a non-retryable PROVIDER_INIT_FAILED |
| Router.FactoryFallbackMayEqualPrimary | src/lib/ai/router.ts:225-233 | with AI_PROVIDER unset and the primary overridden to gemini, the fallback is gemini too |
| Router.GeminiOverrideRouter | src/lib/ai/router.ts:224-236 | with AI_PROVIDER unset and the primary overridden to gemini, `createAIRouter` gives a router exactly when the Google key is set, and that router has gemini as both primary and fallback, with gemini registered |
| Router.RouteOnConstructed | src/lib/ai/router.ts:21-28 | a constructed router never reports PROVIDER_UNAVAILABLE: its first call goes to the primary |
| PracticeSubmit.AsString | src/app/api/practice/submit/route.ts:11 | `z.string()` accepts exactly string values and gives their text |
| PracticeSubmit.AsStrings | src/app/api/practice/submit/route.ts:13 | `z.array(z.string())` accepts exactly arrays of strings, element for element |
| PracticeSubmit.ParseSubmission | src/app/api/practice/submit/route.ts:10-15 | an accepted body has topic and goal of 1–500 units, 1–10 string main points and a pitch of 10–5000 units, all taken from the body |
| PracticeSubmit.ParseEncoded | src/app/api/practice/submit/route.ts:10-15 | the schema accepts exactly the inputs within its bounds and gives back the input the body was written from |
| PracticeSubmit.ExtraKeysIgnored | src/app/api/practice/submit/route.ts:10-15 | extra keys in the body do not change the result |
| PracticeSubmit.ClampScore | src/app/api/practice/submit/route.ts:55-58 | a score outside [1,10] is clamped to the nearer end, and an in-range score is unchanged |
| PracticeSubmit.JsRound | src/app/api/practice/submit/route.ts:68 | Math.round gives the nearest integer, with halves rounded up |
| PracticeSubmit.StoredScore | src/app/api/practice/submit/route.ts:68-74 | the stored and progress score is the rounded clamped score, an integer in [1,10] |
| PracticeSubmit.NextStreak | src/app/api/practice/submit/route.ts:125-148 | with no last day the streak is 1; a one-day gap adds one; a longer gap resets it to 1; the same day keeps it |
| PracticeSubmit.NextProgress | src/app/api/practice/submit/route.ts:123-176 | a new row has streak 1, one session and the score as average. An existing row gets one more session, the next streak and `(avg·n + s)/(n + 1)`. The last day is today in both cases |
| PracticeSubmit.UpdateUserProgress | src/app/api/practice/submit/route.ts:113-181 | the step-by-step update writes exactly that row |
| PracticeSubmit.MeanUpdate | src/app/api/practice/submit/route.ts:151-153 | if the average was the mean of n scores, the update is the mean of those n and the new score |
| PracticeSubmit.NextAverage | src/app/api/practice/submit/route.ts:151-153 | the new average times the new count is the old total plus the new score, and it lies between the old average and the new score |
| PracticeSubmit.ReplayTotals | src/app/api/practice/submit/route.ts:113-176 | from no row, any history of practices gives a row counting every session, with their mean and the last day |
| PracticeSubmit.ConsecutiveDaysStreak | src/app/api/practice/submit/route.ts:137-139 | practising on consecutive days makes the streak the number of days |
| PracticeSubmit.GapRestartsStreak | src/app/api/practice/submit/route.ts:140-142 | a gap of more than one day restarts the streak at 1 |
| PracticeSubmit.StreakStaysPositive | src/app/api/practice/submit/route.ts:125-148 | a positive streak stays positive after any practice |
| PracticeSubmit.AIDetails | src/app/api/practice/submit/route.ts:48 | the 503 details are the thrown Error's message, or "Unknown AI error" for a non-Error |
| PracticeSubmit.Submit | src/app/api/practice/submit/route.ts:17-111 | status 401, 500, 400 and 503 each arise exactly under their condition. On success the stored session holds the validated fields and the rounded score, the progress row is the update for that score, and the response echoes the clamped feedback and the validated input |
| UserProgress.TrendMeaning | src/app/api/user/progress/route.ts:73-86 | the trend is improving or declining exactly when the mean of the newest three is more than half a point above or below that of the oldest three |
| UserProgress.TrendOf | src/app/api/user/progress/route.ts:67-86 | fewer than three sessions are stable, and a trend other than stable needs different sums in the two windows (its meaning is `UserProgress.TrendMeaning`) |
| UserProgress.ThreeSessionsStable | src/app/api/user/progress/route.ts:75-77 | with exactly three sessions both windows coincide, so the trend is stable |
| UserProgress.TrendOfReverse | src/app/api/user/progress/route.ts:73-86 | reading the sessions in the other order swaps improving and declining |
| UserProgress.UserLevel | src/app/api/user/progress/route.ts:88-94 | Advanced exactly with at least 10 sessions and average at least 7; otherwise Intermediate exactly with at least 5 and 5 |
| UserProgress.LevelMonotone | src/app/api/user/progress/route.ts:88-94 | more sessions and a higher average never lower the level |
| UserProgress.Goals | src/app/api/user/progress/route.ts:129-133 | each goal ratio is the value over its target (3, 7, 8.0) capped at 1, so never above 1 |
| UserProgress.Stamp | src/app/api/user/progress/route.ts:197-200 | each badge keeps its fields and gets the time stamp exactly when earned |
| UserProgress.CalculateAchievements | src/app/api/user/progress/route.ts:152-201 | six badges with the fixed ids, each earned exactly at its threshold (sessions 1/5/10, average 8, streak 7/30), stamped exactly when earned |
| UserProgress.Badges | src/app/api/user/progress/route.ts:158-195 | six badges with the fixed ids in order, each earned exactly at its threshold |
| UserProgress.Earns | src/app/api/user/progress/route.ts:163-193 | the thresholds form ladders: ten sessions imply five, five imply one, and a 30-day streak implies a 7-day one |
| UserProgress.AchievementsMonotone | src/app/api/user/progress/route.ts:158-195 | raising sessions, average or streak never takes a badge away |
| UserProgress.ReportedAverage | src/app/api/user/progress/route.ts:37-49 | the progress row's average, else the mean of the fetched sessions, else 0 |
| UserProgress.ReportedTotal | src/app/api/user/progress/route.ts:107 | the row's session count unless it is missing or 0, else the fetched count |
| UserProgress.ImprovementTrend | src/app/api/user/progress/route.ts:73-86 | the trend worked out with real averages is `TrendOf`, whose meaning `UserProgress.TrendMeaning` states |
| UserProgress.LevelOf | src/app/api/user/progress/route.ts:88-94 | the level assigned step by step is `UserLevel` |
| UserProgress.GetProgress | src/app/api/user/progress/route.ts:6-150 | 401 exactly when not signed in. Otherwise each reported field comes from the newest ten sessions and the progress row: total, average, streak, newest five scores, trend, level, goals and achievements |
| UserHistory.ParseNum | src/app/api/user/history/route.ts:8 | parseInt's result as a number: NaN exactly when no digits are found |
| UserHistory.MaxNum | src/app/api/user/history/route.ts:8 | Math.max with NaN is NaN; otherwise the larger of the two |
| UserHistory.MinNum | src/app/api/user/history/route.ts:9 | Math.min with NaN is NaN; otherwise the smaller of the two |
| UserHistory.Present | src/app/api/user/history/route.ts:32-35 | a missing or empty parameter is absent; any other value is kept |
| UserHistory.ScoreParam | src/app/api/user/history/route.ts:12-13 | an empty score parameter is no bound, and a present one is clamped into [1,10] |
| UserHistory.ParseQuery | src/app/api/user/history/route.ts:7-14 | page at least 1 (default 1), limit in [1,50] (default 10), score bounds in [1,10] when present, dates kept when present |
| UserHistory.DefaultsRead | src/app/api/user/history/route.ts:30-31 | the default strings are read as 1 and 10 |
| UserHistory.WrittenPageClamped | src/app/api/user/history/route.ts:8 | a page written in decimal is raised to 1 when below it and otherwise kept |
| UserHistory.WrittenLimitClamped | src/app/api/user/history/route.ts:9 | a limit written in decimal is clamped into [1,50] |
| UserHistory.WrittenScoreClamped | src/app/api/user/history/route.ts:12-13 | a score bound written in decimal is clamped into [1,10] |
| UserHistory.BuildWhere | src/app/api/user/history/route.ts:41-77 | the filter selects exactly the user's sessions within the parsed dates (end of day for dateTo) and the score bounds. Condition objects are created whenever a bound is given |
| UserHistory.CriteriaOf | src/app/api/user/history/route.ts:45-77 | the criteria the filter must meet: the user's id, a from time exactly when dateFrom is given and parses (its time), a to time exactly when dateTo is given and parses (moved to the end of its day), and a score bound exactly when that bound is a number |
| UserHistory.FindAll | src/app/api/user/history/route.ts:83-92 | the store returns exactly the matching rows |
| UserHistory.Select | src/app/api/user/history/route.ts:88-90 | the rows the criteria ask for, and no others |
| UserHistory.SameSelection | src/app/api/user/history/route.ts:41-92 | a filter that means the criteria selects the same rows in the same order |
| UserHistory.SelectKeepsOrder | src/app/api/user/history/route.ts:90 | filtering keeps the newest-first order |
| UserHistory.CrossedScoreBoundsSelectNothing | src/app/api/user/history/route.ts:66-77 | nothing forces minScore ≤ maxScore, and crossed bounds select no session |
| UserHistory.PageOf | src/app/api/user/history/route.ts:80-92 | a page has at most `limit` sessions, starting at (page−1)·limit, and is empty past the end |
| UserHistory.PageKeepsOrder | src/app/api/user/history/route.ts:88-92 | a page of a newest-first list is newest first |
| UserHistory.TotalPages | src/app/api/user/history/route.ts:119 | the smallest page count that covers every session |
| UserHistory.HasNextIffMoreLeft | src/app/api/user/history/route.ts:119-120 | hasNextPage holds exactly when sessions remain after this page |
| UserHistory.EverySessionOnItsPage | src/app/api/user/history/route.ts:80-92 | the session at position q·limit + r is the r-th of page q + 1, and that page exists |
| UserHistory.MaxOf | src/app/api/user/history/route.ts:145 | the maximum is in the list and bounds every element |
| UserHistory.MinOf | src/app/api/user/history/route.ts:146 | the minimum is in the list and bounds every element |
| UserHistory.SummaryOf | src/app/api/user/history/route.ts:140-147 | the total is the filtered count. Average, highest and lowest cover only the page and are 0 for an empty page. Otherwise lowest ≤ every score ≤ highest, and both are attained |
| UserHistory.GetHistory | src/app/api/user/history/route.ts:16-169 | 401 exactly when not signed in and 500 exactly for a NaN query value. Otherwise the response has the page of the selected sessions, the pagination (total pages, next and previous), the filters (null when absent) and the summary of the page |
| UserHistory.HasNaN | src/app/api/user/history/route.ts:8-13 | a query without NaN has a numeric page and limit and numeric score bounds where present |
| UserHistory.NaNExactlyWhenUnreadable | src/app/api/user/history/route.ts:8-13 | the parsed query holds a NaN exactly when the page, the limit or a score bound is given in the URL with text parseInt cannot read |
| StreakCounter.GetStreakLevel | src/components/dashboard/StreakCounter.tsx:21-27 | each band holds exactly its range: ≥30 legendary, 14–29 fire, 7–13 hot, 3–6 warm, else starting |
| StreakCounter.LevelsChangeAtMilestones | src/components/dashboard/StreakCounter.tsx:21-27 | the level goes up by one exactly at each milestone 3, 7, 14 and 30 |
| StreakCounter.LevelMonotone | src/components/dashboard/StreakCounter.tsx:21-27 | a longer streak never has a lower level |
| StreakCounter.GetStreakMessage | src/components/dashboard/StreakCounter.tsx:32-39 | 0 and 1 have their own messages; then 2–6 (and negatives), 7–13, 14–29 and 30 on each have one |
| StreakCounter.MessageFollowsLevel | src/components/dashboard/StreakCounter.tsx:21-39 | from 2 on, the message changes only where the level does, with starting and warm sharing one |
| StreakCounter.GetDaysUntilNextMilestone | src/components/dashboard/StreakCounter.tsx:41-47 | there is a distance exactly for streaks below 30 |
| StreakCounter.NextMilestoneFrom | src/components/dashboard/StreakCounter.tsx:41-47 | a search of the milestone list finds the smallest milestone above the streak, or shows that none exists |
| StreakCounter.DaysUntilIsSmallestMilestone | src/components/dashboard/StreakCounter.tsx:41-47 | the distance is m − streak for the smallest milestone m above the streak, and none exists from 30 on |
| StreakCounter.AtLeastOneDay | src/components/dashboard/StreakCounter.tsx:41-47 | below 30 the next milestone is always at least one day away |
| PitchEditor.SplitWs | src/components/practice/PitchEditor.tsx:20 | `split(/\s+/)` always gives at least one piece |
| PitchEditor.GetStats | src/components/practice/PitchEditor.tsx:17-30 | charCount is `.length` and remainingChars is maxLength − length (maxLength defaults to 150). isOverLimit holds exactly when length > maxLength and isNearLimit when remaining ≤ 30, so over means near |
| PitchEditor.WordCount | src/components/practice/PitchEditor.tsx:20 | the word count is 0 exactly when the trimmed value is empty |
| PitchEditor.SplitCountsWords | src/components/practice/PitchEditor.tsx:20 | for trimmed non-empty text, the split's pieces are its words |
| PitchEditor.WordCountIsWordStarts | src/components/practice/PitchEditor.tsx:20 | the word count is the number of maximal non-whitespace runs of the value |

## Left out

- **Timers and concurrency.**
  - The `Promise.race` timeout and the backoff sleeps are not modelled. A timed-out call is an input, and the sleeps are recorded as a list of delays.
  - The call abandoned by a timeout is not cancelled and is not modelled.
  - Concurrent operations on one router are not modelled.
- **Foreign calls, as described above.**
  - The Anthropic and Gemini SDK calls become a `Reply` value each.
  - `JSON.parse` becomes a parameter.
  - `process.env` becomes an `Env` record.
  - The prompt texts of src/lib/ai/prompts.ts and the SDK request options are not modelled.
- The adapter constructors and their missing-key errors are left out. The router constructs an adapter only when its key is set.
- `AIProvider` is not a Dafny trait. Each adapter module and the router define `GenerateFeedback` and `GenerateTopic` with their own parameters.
- `AIRouter.getAvailableProviders`, `getConfig` and `isProviderAvailable` are simple reads of the two fields. Only `getConfig` enters the model: as `Router.Written`, in `Router.ResolveIdempotent`.
- **The database and request plumbing.**
  - Prisma queries, next-auth sessions and `NextResponse` are not modelled.
  - A database failure that answers 500 is left out.
  - The failure of the progress update, which the submit route swallows, is left out.
  - `JSON.stringify` of the stored fields is left out.
- **Calendar arithmetic.**
  - Days are whole numbers in the streak update.
  - `new Date(...)`, `getTime` and `setHours` are parameters of the history route.
  - The thirty-days-ago count is a parameter of the progress route.
  - `daysSinceLastPractice`, `lastPracticeDate`, `updatedAt` and the ISO date strings are not modelled.
- **Floating point.** Scores and averages are exact reals. Not modelled:
  - binary floating point;
  - `Math.round(x*10)/10` for the reported averages;
  - `practiceFrequency`.
- `console` logging is not modelled.
- The fixed `goals` block of the progress response is not modelled.
- The date and topic echoed with each recent score are not modelled.
- The formatted fields of the history sessions are not modelled: the `JSON.parse` of mainPoints and feedback, and the date split.
- UI rendering, src/lib/env.ts, the client form schema, the example and index files are not part of this model.
- PracticeSubmit.ParseSubmission: the 400 answer's `details` list of zod messages is not modelled, only which bodies are refused.
- PracticeSubmit.Submit: the session id in the response is not modelled. Database failures are not modelled.
- Router.ResolveConfig: a field passed explicitly as `undefined` in the factory's spread is treated as omitted. Fractional maxRetries and timeouts are not modelled; integers are.
- Router.AIRouter.RetryWithBackoff: the sleeps between attempts are recorded, not awaited.
- UserProgress.GetProgress: the averageScore is reported before the rounding to one decimal. `lastPracticeDate`, `practiceFrequency`, `daysSinceLastPractice`, `goals` and `updatedAt` are not modelled.
- UserHistory.SummaryOf: the average is stated before the rounding to one decimal.
- UserHistory.GetHistory: a NaN page, limit or score bound is taken to make the store query throw, giving 500. Prisma refuses NaN for these arguments; that refusal is not in this repository. The zod 400 branch cannot arise from the string-only schema and is not modelled.
