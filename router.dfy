/**
 * The AI router (AIRouter): configuration defaults, provider registration
 * from the environment, and the recovery protocol every operation follows:
 * one timed call of the primary; on a retryable AIError one timed call of the
 * fallback; then a retry loop on the primary with exponential backoff that
 * ends in a MAX_RETRIES_EXCEEDED router error. Provider calls are oracles:
 * the outcome of the first call, of the fallback call and of each retry
 * attempt are given, and the run records which calls were made and how long
 * the loop would sleep between attempts.
 */
module Router {
  import opened Wrappers
  import opened JsText
  import opened AITypes

  const RouterProvider: string := "router"

  /** `createRouterError`: router errors are never retryable. */
  function RouterError(message: string, code: ErrorCode): (e: AIError)
    ensures e.provider == RouterProvider && e.message == message && e.code == code
    ensures !IsRetryable(AI(e))
  {
    AIError(message, RouterProvider, code, false)
  }

  // ----- configuration -----

  /** `value || fallback` for a number that may be omitted: 0 counts as omitted. */
  function OrDefault(o: Option<int>, d: int): int {
    if o.None? || o.value == 0 then d else o.value
  }

  /** The constructor's `Required<AIRouterConfig>`. */
  function ResolveConfig(c: AIRouterConfig): (r: FullConfig)
    ensures r.primaryProvider == c.primaryProvider
    ensures c.fallbackProvider.None? ==> r.fallbackProvider == c.primaryProvider.Other()
    ensures c.fallbackProvider.Some? ==> r.fallbackProvider == c.fallbackProvider.value
    ensures (c.maxRetries.None? || c.maxRetries == Some(0)) ==> r.maxRetries == 3
    ensures (c.timeoutMs.None? || c.timeoutMs == Some(0)) ==> r.timeoutMs == 30000
    ensures c.maxRetries.Some? && c.maxRetries.value != 0 ==> r.maxRetries == c.maxRetries.value
    ensures c.timeoutMs.Some? && c.timeoutMs.value != 0 ==> r.timeoutMs == c.timeoutMs.value
    ensures r.maxRetries != 0 && r.timeoutMs != 0
  {
    FullConfig(
      c.primaryProvider,
      if c.fallbackProvider.Some? then c.fallbackProvider.value else c.primaryProvider.Other(),
      OrDefault(c.maxRetries, 3),
      OrDefault(c.timeoutMs, 30000))
  }

  /** A resolved configuration written back as a router configuration (what `getConfig` hands out). */
  function Written(f: FullConfig): AIRouterConfig {
    AIRouterConfig(f.primaryProvider, Some(f.fallbackProvider), Some(f.maxRetries), Some(f.timeoutMs))
  }

  /** Building a router from another router's resolved configuration reproduces that configuration. */
  lemma ResolveIdempotent(c: AIRouterConfig)
    ensures ResolveConfig(Written(ResolveConfig(c))) == ResolveConfig(c)
  {
  }

  /** The environment variables the router and the factory read; None is unset. */
  datatype Env = Env(anthropicKey: Option<string>, googleKey: Option<string>, aiProvider: Option<string>)

  /** A variable is truthy when it is set to a non-empty string. */
  predicate IsSet(v: Option<string>) {
    v.Some? && v.value != ""
  }

  /** The adapter object registered under a provider name. */
  datatype Adapter = AnthropicAdapter | GeminiAdapter {
    function Kind(): ProviderType {
      match this
      case AnthropicAdapter => Anthropic
      case GeminiAdapter => Gemini
    }
  }

  function AdapterFor(p: ProviderType): (a: Adapter)
    ensures a.Kind() == p
  {
    match p
    case Anthropic => AnthropicAdapter
    case Gemini => GeminiAdapter
  }

  /** Every registered adapter is the one for its name. */
  predicate WellKeyed(m: map<ProviderType, Adapter>) {
    forall p :: p in m ==> m[p] == AdapterFor(p)
  }

  // ----- timeout and retry -----

  /** How a call raced against the timer ends: it settled first, or the timer fired. */
  datatype Timed<+T> = Finished(outcome: Outcome<T>) | TimedOut

  function TimeoutError(timeoutMs: int): (e: AIError)
    ensures e.code == Timeout && e.provider == RouterProvider && !e.retryable
  {
    RouterError("Operation timed out after " + IntToString(timeoutMs) + "ms", Timeout)
  }

  /** `executeWithTimeout`: a settled call is passed through, a fired timer rejects with TIMEOUT. */
  function WithTimeout<T>(call: Timed<T>, timeoutMs: int): (r: Outcome<T>)
    ensures call.Finished? ==> r == call.outcome
    ensures call.TimedOut? ==> r.Threw? && r.thrown == AI(TimeoutError(timeoutMs))
  {
    match call
    case Finished(o) => o
    case TimedOut => Threw(AI(TimeoutError(timeoutMs)))
  }

  function Pow2(k: nat): (p: nat)
    ensures p >= 1
  {
    if k == 0 then 1 else 2 * Pow2(k - 1)
  }

  /** `1000 * Math.pow(2, attempt - 1)`: the sleep after failed attempt `attempt`. */
  function BackoffDelay(attempt: nat): (d: int)
    requires attempt >= 1
    ensures d >= 1000
  {
    1000 * Pow2(attempt - 1)
  }

  /** Each sleep is twice the one before, starting at one second. */
  lemma BackoffDoubles(attempt: nat)
    requires attempt >= 1
    ensures BackoffDelay(1) == 1000
    ensures BackoffDelay(attempt + 1) == 2 * BackoffDelay(attempt)
  {
  }

  /** `lastError?.message || 'Unknown error'`, with a thrown non-Error wrapped as `new Error(String(error))`. */
  function LastErrorMessage(last: Option<Thrown>): (m: string)
    ensures m != []
    ensures last.Some? && last.value.Message() != [] ==> m == last.value.Message()
    ensures last.None? || last.value.Message() == [] ==> m == "Unknown error"
  {
    if last.Some? && last.value.Message() != "" then last.value.Message() else "Unknown error"
  }

  /** The error the retry loop throws once every attempt has failed. */
  function MaxRetriesError(maxRetries: int, last: Option<Thrown>): (e: AIError)
    ensures e.code == MaxRetriesExceeded && e.provider == RouterProvider && !e.retryable
  {
    RouterError("All " + IntToString(maxRetries) + " retry attempts failed. Last error: " + LastErrorMessage(last),
                MaxRetriesExceeded)
  }

  /** What the retry loop did: its outcome, the attempts it made, the sleeps between them. */
  datatype RetryRun<+T> = RetryRun(result: Outcome<T>, attempts: seq<nat>, delays: seq<int>)

  /**
   * The retry loop from attempt `attempt` on, `last` being the error of the
   * attempt before it. Every error is retried, whatever its retryable flag.
   */
  function RetryFrom<T>(op: nat -> Outcome<T>, maxRetries: int, attempt: nat, last: Option<Thrown>): (rr: RetryRun<T>)
    requires attempt >= 1
    ensures rr.result.Threw? ==> rr.result.thrown.AI? && rr.result.thrown.err.code == MaxRetriesExceeded
                                 && !rr.result.thrown.err.retryable
    decreases if attempt <= maxRetries then maxRetries - attempt + 1 else 0
  {
    if attempt > maxRetries then RetryRun(Threw(AI(MaxRetriesError(maxRetries, last))), [], [])
    else match op(attempt)
      case Ok(v) => RetryRun(Ok(v), [attempt], [])
      case Threw(t) =>
        if attempt == maxRetries then RetryRun(Threw(AI(MaxRetriesError(maxRetries, Some(t)))), [attempt], [])
        else
          var rest := RetryFrom(op, maxRetries, attempt + 1, Some(t));
          RetryRun(rest.result, [attempt] + rest.attempts, [BackoffDelay(attempt)] + rest.delays)
  }

  /**
   * With maxRetries below 1 the loop makes no attempt and throws at once,
   * with "Unknown error" as the last error's message.
   */
  lemma NoAttemptBelowOne<T>(op: nat -> Outcome<T>, maxRetries: int)
    requires maxRetries < 1
    ensures RetryFrom(op, maxRetries, 1, None)
            == RetryRun(Threw(AI(RouterError("All " + IntToString(maxRetries) + " retry attempts failed. Last error: Unknown error",
                                             MaxRetriesExceeded))), [], [])
  {
    var pre := "All " + IntToString(maxRetries);
    assert LastErrorMessage(None) == "Unknown error";
    assert " retry attempts failed. Last error: " + "Unknown error" == " retry attempts failed. Last error: Unknown error";
    assert pre + " retry attempts failed. Last error: " + "Unknown error"
           == pre + (" retry attempts failed. Last error: " + "Unknown error");
  }

  /** The attempts run consecutively, and one sleep follows each failed attempt but the last. */
  lemma {:induction false} RetrySchedule<T>(op: nat -> Outcome<T>, maxRetries: int, attempt: nat, last: Option<Thrown>)
    requires attempt >= 1
    ensures var rr := RetryFrom(op, maxRetries, attempt, last);
      && |rr.attempts| <= (if attempt <= maxRetries then maxRetries - attempt + 1 else 0)
      && (forall i :: 0 <= i < |rr.attempts| ==> rr.attempts[i] == attempt + i)
      && |rr.delays| == (if rr.attempts == [] then 0 else |rr.attempts| - 1)
      && (forall i :: 0 <= i < |rr.delays| ==> rr.delays[i] == BackoffDelay(attempt + i))
    decreases if attempt <= maxRetries then maxRetries - attempt + 1 else 0
  {
    if attempt <= maxRetries && op(attempt).Threw? && attempt != maxRetries {
      RetrySchedule(op, maxRetries, attempt + 1, Some(op(attempt).thrown));
    }
  }

  /**
   * The loop stops at the first success and returns it; it fails only once
   * every attempt up to maxRetries has failed, with the last error's message.
   */
  lemma {:induction false} RetryOutcome<T>(op: nat -> Outcome<T>, maxRetries: int, attempt: nat, last: Option<Thrown>)
    requires attempt >= 1
    ensures var rr := RetryFrom(op, maxRetries, attempt, last);
      && (forall i :: 0 <= i < |rr.attempts| - 1 ==> op(rr.attempts[i]).Threw?)
      && (rr.result.Ok? ==> rr.attempts != [] && rr.result == op(rr.attempts[|rr.attempts| - 1]))
      && (rr.result.Threw? && rr.attempts == [] ==>
            maxRetries < attempt && rr.result == Threw(AI(MaxRetriesError(maxRetries, last))))
      && (rr.result.Threw? && rr.attempts != [] ==>
            attempt + |rr.attempts| - 1 == maxRetries && op(maxRetries).Threw?
            && rr.result == Threw(AI(MaxRetriesError(maxRetries, Some(op(maxRetries).thrown)))))
  {
    RetryFailuresFirst(op, maxRetries, attempt, last);
    RetryFailureError(op, maxRetries, attempt, last);
  }

  /** Every attempt but the last failed, and a success is the last attempt's result. */
  lemma {:induction false} RetryFailuresFirst<T>(op: nat -> Outcome<T>, maxRetries: int, attempt: nat, last: Option<Thrown>)
    requires attempt >= 1
    ensures var rr := RetryFrom(op, maxRetries, attempt, last);
      && (forall i :: 0 <= i < |rr.attempts| - 1 ==> op(rr.attempts[i]).Threw?)
      && (rr.result.Ok? ==> rr.attempts != [] && rr.result == op(rr.attempts[|rr.attempts| - 1]))
    decreases if attempt <= maxRetries then maxRetries - attempt + 1 else 0
  {
    if attempt <= maxRetries && op(attempt).Threw? && attempt != maxRetries {
      RetryFailuresFirst(op, maxRetries, attempt + 1, Some(op(attempt).thrown));
      RetrySchedule(op, maxRetries, attempt + 1, Some(op(attempt).thrown));
    }
  }

  /** A failed loop throws MAX_RETRIES_EXCEEDED carrying the error of the last attempt made. */
  lemma {:induction false} RetryFailureError<T>(op: nat -> Outcome<T>, maxRetries: int, attempt: nat, last: Option<Thrown>)
    requires attempt >= 1
    ensures var rr := RetryFrom(op, maxRetries, attempt, last);
      && (rr.result.Threw? && rr.attempts == [] ==>
            maxRetries < attempt && rr.result == Threw(AI(MaxRetriesError(maxRetries, last))))
      && (rr.result.Threw? && rr.attempts != [] ==>
            attempt + |rr.attempts| - 1 == maxRetries && op(maxRetries).Threw?
            && rr.result == Threw(AI(MaxRetriesError(maxRetries, Some(op(maxRetries).thrown)))))
    decreases if attempt <= maxRetries then maxRetries - attempt + 1 else 0
  {
    if attempt <= maxRetries && op(attempt).Threw? && attempt != maxRetries {
      var rest := RetryFrom(op, maxRetries, attempt + 1, Some(op(attempt).thrown));
      RetryFailureError(op, maxRetries, attempt + 1, Some(op(attempt).thrown));
      assert RetryFrom(op, maxRetries, attempt, last)
             == RetryRun(rest.result, [attempt] + rest.attempts, [BackoffDelay(attempt)] + rest.delays);
    }
  }

  /** The attempts and sleeps made so far, followed by the rest of the loop from `attempt` on. */
  function Resumed<T>(op: nat -> Outcome<T>, maxRetries: int, attempt: nat, last: Option<Thrown>,
                      attempts: seq<nat>, delays: seq<int>): RetryRun<T>
    requires attempt >= 1
  {
    var rest := RetryFrom(op, maxRetries, attempt, last);
    RetryRun(rest.result, attempts + rest.attempts, delays + rest.delays)
  }

  lemma ResumedAtStart<T>(op: nat -> Outcome<T>, maxRetries: int)
    ensures Resumed(op, maxRetries, 1, None, [], []) == RetryFrom(op, maxRetries, 1, None)
  {
    var rest := RetryFrom(op, maxRetries, 1, None);
    assert [] + rest.attempts == rest.attempts && [] + rest.delays == rest.delays;
  }

  /** One attempt of the loop: success ends it, the last failure ends it, another failure sleeps and goes on. */
  lemma ResumedStep<T>(op: nat -> Outcome<T>, maxRetries: int, attempt: nat, last: Option<Thrown>,
                       attempts: seq<nat>, delays: seq<int>)
    requires 1 <= attempt <= maxRetries
    ensures op(attempt).Ok? ==>
              Resumed(op, maxRetries, attempt, last, attempts, delays) == RetryRun(op(attempt), attempts + [attempt], delays)
    ensures op(attempt).Threw? && attempt == maxRetries ==>
              Resumed(op, maxRetries, attempt, last, attempts, delays)
              == RetryRun(Threw(AI(MaxRetriesError(maxRetries, Some(op(attempt).thrown)))), attempts + [attempt], delays)
    ensures op(attempt).Threw? && attempt < maxRetries ==>
              Resumed(op, maxRetries, attempt, last, attempts, delays)
              == Resumed(op, maxRetries, attempt + 1, Some(op(attempt).thrown),
                         attempts + [attempt], delays + [BackoffDelay(attempt)])
  {
    if op(attempt).Threw? && attempt < maxRetries {
      var rest := RetryFrom(op, maxRetries, attempt + 1, Some(op(attempt).thrown));
      assert attempts + ([attempt] + rest.attempts) == attempts + [attempt] + rest.attempts;
      assert delays + ([BackoffDelay(attempt)] + rest.delays) == delays + [BackoffDelay(attempt)] + rest.delays;
    } else {
      assert attempts + [attempt] + [] == attempts + [attempt] && delays + [] == delays;
    }
  }

  /** Past the last attempt the loop adds only the exhaustion error. */
  lemma ResumedAtEnd<T>(op: nat -> Outcome<T>, maxRetries: int, attempt: nat, last: Option<Thrown>,
                        attempts: seq<nat>, delays: seq<int>)
    requires attempt >= 1 && attempt > maxRetries
    ensures Resumed(op, maxRetries, attempt, last, attempts, delays)
            == RetryRun(Threw(AI(MaxRetriesError(maxRetries, last))), attempts, delays)
  {
    assert attempts + [] == attempts && delays + [] == delays;
  }

  /** The first successful attempt k is returned after exactly k attempts and k-1 sleeps. */
  lemma RetryReturnsFirstSuccess<T>(op: nat -> Outcome<T>, maxRetries: int, k: nat)
    requires 1 <= k <= maxRetries && op(k).Ok?
    requires forall j :: 1 <= j < k ==> op(j).Threw?
    ensures RetryFrom(op, maxRetries, 1, None).result == op(k)
    ensures |RetryFrom(op, maxRetries, 1, None).attempts| == k
    ensures |RetryFrom(op, maxRetries, 1, None).delays| == k - 1
  {
    var rr := RetryFrom(op, maxRetries, 1, None);
    RetrySchedule(op, maxRetries, 1, None);
    RetryOutcome(op, maxRetries, 1, None);
    var n := |rr.attempts|;
    assert k <= n ==> rr.attempts[k - 1] == k;
    assert 0 < n ==> rr.attempts[n - 1] == n;
  }

  /** When all maxRetries attempts fail, the loop makes all of them, sleeps maxRetries-1 times and reports the last error. */
  lemma RetryExhausted<T>(op: nat -> Outcome<T>, maxRetries: nat)
    requires maxRetries >= 1
    requires forall j :: 1 <= j <= maxRetries ==> op(j).Threw?
    ensures RetryFrom(op, maxRetries, 1, None).result
            == Threw(AI(MaxRetriesError(maxRetries, Some(op(maxRetries).thrown))))
    ensures |RetryFrom(op, maxRetries, 1, None).attempts| == maxRetries
    ensures |RetryFrom(op, maxRetries, 1, None).delays| == maxRetries - 1
  {
    var rr := RetryFrom(op, maxRetries, 1, None);
    RetrySchedule(op, maxRetries, 1, None);
    RetryOutcome(op, maxRetries, 1, None);
    if rr.attempts != [] {
      assert rr.attempts[|rr.attempts| - 1] == |rr.attempts|;
    }
  }

  /** The sleeps strictly increase. */
  lemma {:induction false} DelaysIncrease<T>(op: nat -> Outcome<T>, maxRetries: int)
    ensures var d := RetryFrom(op, maxRetries, 1, None).delays;
      forall i, j :: 0 <= i < j < |d| ==> d[i] < d[j]
  {
    RetrySchedule(op, maxRetries, 1, None);
    var d := RetryFrom(op, maxRetries, 1, None).delays;
    forall i, j | 0 <= i < j < |d| ensures d[i] < d[j] {
      Pow2Increasing(i, j);
    }
  }

  lemma {:induction false} Pow2Increasing(i: nat, j: nat)
    requires i < j
    ensures Pow2(i) < Pow2(j)
    decreases j
  {
    if j > i + 1 {
      Pow2Increasing(i, j - 1);
    }
  }

  // ----- the recovery protocol -----

  /** One provider call the router makes. */
  datatype Call = Initial | Fallback | Retry(attempt: nat)

  /** What a routed operation did: its outcome, the calls it made in order, the sleeps. */
  datatype Run<+T> = Run(result: Outcome<T>, calls: seq<Call>, delays: seq<int>)

  function RetryCalls(attempts: seq<nat>): (cs: seq<Call>)
    ensures |cs| == |attempts|
    ensures forall i :: 0 <= i < |cs| ==> cs[i] == Retry(attempts[i])
  {
    if attempts == [] then [] else [Retry(attempts[0])] + RetryCalls(attempts[1..])
  }

  /** Calls made to the primary provider. */
  function PrimaryCalls(calls: seq<Call>): (n: nat)
    ensures n <= |calls|
  {
    if calls == [] then 0 else (if calls[0].Fallback? then 0 else 1) + PrimaryCalls(calls[1..])
  }

  /** Calls made to the fallback provider. */
  function FallbackCalls(calls: seq<Call>): (n: nat)
    ensures n + PrimaryCalls(calls) == |calls|
  {
    if calls == [] then 0 else (if calls[0].Fallback? then 1 else 0) + FallbackCalls(calls[1..])
  }

  lemma {:induction false} RetryCallsArePrimary(attempts: seq<nat>)
    ensures PrimaryCalls(RetryCalls(attempts)) == |attempts|
  {
    if attempts != [] {
      RetryCallsArePrimary(attempts[1..]);
      assert RetryCalls(attempts)[1..] == RetryCalls(attempts[1..]);
    }
  }

  lemma {:induction false} CountsOfAppend(a: seq<Call>, b: seq<Call>)
    ensures PrimaryCalls(a + b) == PrimaryCalls(a) + PrimaryCalls(b)
  {
    if a != [] {
      assert (a + b)[0] == a[0];
      assert (a + b)[1..] == a[1..] + b;
      CountsOfAppend(a[1..], b);
    } else {
      assert a + b == b;
    }
  }

  /** The retry loop run after the calls in `before`. */
  function ThenRetry<T>(before: seq<Call>, rr: RetryRun<T>): Run<T> {
    Run(rr.result, before + RetryCalls(rr.attempts), rr.delays)
  }

  /** The error for a primary provider that is not registered. */
  function UnavailableError(p: ProviderType): (e: AIError)
    ensures e.code == ProviderUnavailable && e.provider == RouterProvider && !e.retryable
  {
    RouterError("Primary provider " + p.Name() + " not available", ProviderUnavailable)
  }

  /**
   * `generateFeedback` and `generateTopic` of the router, for the registered
   * providers and the outcomes of the first call, the fallback call and each
   * retry attempt.
   */
  function Protocol<T>(cfg: FullConfig, registered: set<ProviderType>,
                       first: Timed<T>, fallback: Timed<T>, retry: nat -> Outcome<T>): (r: Run<T>)
    ensures r.calls == [] <==> cfg.primaryProvider !in registered
    ensures r.calls == [] ==> r.result == Threw(AI(UnavailableError(cfg.primaryProvider))) && r.delays == []
    ensures r.calls != [] ==> r.calls[0] == Initial
    ensures Fallback in r.calls ==> cfg.fallbackProvider in registered
  {
    if cfg.primaryProvider !in registered then Run(Threw(AI(UnavailableError(cfg.primaryProvider))), [], [])
    else match WithTimeout(first, cfg.timeoutMs)
      case Ok(v) => Run(Ok(v), [Initial], [])
      case Threw(e) =>
        if !IsRetryable(e) then Run(Threw(e), [Initial], [])
        else if cfg.fallbackProvider in registered then
          match WithTimeout(fallback, cfg.timeoutMs)
          case Ok(v) => Run(Ok(v), [Initial, Fallback], [])
          case Threw(_) => ThenRetry([Initial, Fallback], RetryFrom(retry, cfg.maxRetries, 1, None))
        else ThenRetry([Initial], RetryFrom(retry, cfg.maxRetries, 1, None))
  }

  /** A successful first call is returned unchanged, with no other call and no sleep. */
  lemma PrimarySuccess<T>(cfg: FullConfig, registered: set<ProviderType>, v: T,
                          fallback: Timed<T>, retry: nat -> Outcome<T>)
    requires cfg.primaryProvider in registered
    ensures Protocol(cfg, registered, Finished(Ok(v)), fallback, retry) == Run(Ok(v), [Initial], [])
  {
  }

  /**
   * A first error that is not a retryable AIError (a plain Error, a
   * non-retryable AIError, the router's own TIMEOUT) is rethrown unchanged
   * after that single call.
   */
  lemma TerminalError<T>(cfg: FullConfig, registered: set<ProviderType>, first: Timed<T>,
                         fallback: Timed<T>, retry: nat -> Outcome<T>)
    requires cfg.primaryProvider in registered
    requires WithTimeout(first, cfg.timeoutMs).Threw? && !IsRetryable(WithTimeout(first, cfg.timeoutMs).thrown)
    ensures Protocol(cfg, registered, first, fallback, retry) == Run(WithTimeout(first, cfg.timeoutMs), [Initial], [])
  {
  }

  /** A timed-out first call ends the operation with the TIMEOUT error: no fallback, no retry. */
  lemma TimeoutIsTerminal<T>(cfg: FullConfig, registered: set<ProviderType>,
                             fallback: Timed<T>, retry: nat -> Outcome<T>)
    requires cfg.primaryProvider in registered
    ensures Protocol(cfg, registered, TimedOut, fallback, retry)
            == Run(Threw(AI(TimeoutError(cfg.timeoutMs))), [Initial], [])
  {
  }

  /** After a retryable failure the registered fallback is called once, and its success is returned. */
  lemma FallbackSuccess<T>(cfg: FullConfig, registered: set<ProviderType>, first: Timed<T>,
                           v: T, retry: nat -> Outcome<T>)
    requires cfg.primaryProvider in registered && cfg.fallbackProvider in registered
    requires WithTimeout(first, cfg.timeoutMs).Threw? && IsRetryable(WithTimeout(first, cfg.timeoutMs).thrown)
    ensures Protocol(cfg, registered, first, Finished(Ok(v)), retry) == Run(Ok(v), [Initial, Fallback], [])
  {
  }

  /**
   * After a retryable failure, and a failed fallback when one is registered,
   * the outcome is the retry loop's on the primary (whether the fallback error
   * was retryable or not).
   */
  lemma RetryAfterFallback<T>(cfg: FullConfig, registered: set<ProviderType>, first: Timed<T>,
                              fallback: Timed<T>, retry: nat -> Outcome<T>)
    requires cfg.primaryProvider in registered
    requires WithTimeout(first, cfg.timeoutMs).Threw? && IsRetryable(WithTimeout(first, cfg.timeoutMs).thrown)
    requires cfg.fallbackProvider in registered ==> WithTimeout(fallback, cfg.timeoutMs).Threw?
    ensures var rr := RetryFrom(retry, cfg.maxRetries, 1, None);
      Protocol(cfg, registered, first, fallback, retry)
      == ThenRetry(if cfg.fallbackProvider in registered then [Initial, Fallback] else [Initial], rr)
  {
  }

  /**
   * Call bounds of every run: at most one fallback call, at most
   * 1 + maxRetries primary calls, and one sleep fewer than retry attempts.
   */
  lemma CallBounds<T>(cfg: FullConfig, registered: set<ProviderType>, first: Timed<T>,
                      fallback: Timed<T>, retry: nat -> Outcome<T>)
    ensures var run := Protocol(cfg, registered, first, fallback, retry);
      && FallbackCalls(run.calls) <= 1
      && PrimaryCalls(run.calls) <= 1 + (if cfg.maxRetries > 0 then cfg.maxRetries else 0)
      && (run.calls != [] ==> run.calls[0] == Initial)
      && |run.delays| <= (if cfg.maxRetries > 1 then cfg.maxRetries - 1 else 0)
  {
    var rr := RetryFrom(retry, cfg.maxRetries, 1, None);
    ProtocolShape(cfg, registered, first, fallback, retry);
    RetrySchedule(retry, cfg.maxRetries, 1, None);
    RetryCallsArePrimary(rr.attempts);
    assert PrimaryCalls([Initial]) == 1;
    assert PrimaryCalls([Initial, Fallback]) == 1 by { assert [Initial, Fallback][1..] == [Fallback]; }
    CountsOfAppend([Initial], RetryCalls(rr.attempts));
    CountsOfAppend([Initial, Fallback], RetryCalls(rr.attempts));
  }

  /**
   * When every call fails and the first failure is retryable, the run makes
   * exactly one fallback call if the fallback is registered (none otherwise),
   * exactly 1 + maxRetries primary calls and maxRetries − 1 sleeps, and throws
   * MAX_RETRIES_EXCEEDED naming the last attempt's error.
   */
  lemma EveryCallFails<T>(cfg: FullConfig, registered: set<ProviderType>, first: Timed<T>,
                          fallback: Timed<T>, retry: nat -> Outcome<T>)
    requires cfg.primaryProvider in registered && cfg.maxRetries >= 1
    requires WithTimeout(first, cfg.timeoutMs).Threw? && IsRetryable(WithTimeout(first, cfg.timeoutMs).thrown)
    requires WithTimeout(fallback, cfg.timeoutMs).Threw?
    requires forall j :: 1 <= j <= cfg.maxRetries ==> retry(j).Threw?
    ensures var run := Protocol(cfg, registered, first, fallback, retry);
      && FallbackCalls(run.calls) == (if cfg.fallbackProvider in registered then 1 else 0)
      && PrimaryCalls(run.calls) == 1 + cfg.maxRetries
      && |run.delays| == cfg.maxRetries - 1
      && run.result == Threw(AI(MaxRetriesError(cfg.maxRetries, Some(retry(cfg.maxRetries).thrown))))
  {
    var rr := RetryFrom(retry, cfg.maxRetries, 1, None);
    RetryAfterFallback(cfg, registered, first, fallback, retry);
    RetryExhausted(retry, cfg.maxRetries);
    RetryCallsArePrimary(rr.attempts);
    assert PrimaryCalls([Initial]) == 1;
    assert PrimaryCalls([Initial, Fallback]) == 1 by { assert [Initial, Fallback][1..] == [Fallback]; }
    CountsOfAppend([Initial], RetryCalls(rr.attempts));
    CountsOfAppend([Initial, Fallback], RetryCalls(rr.attempts));
  }

  /** The calls of a run: none, the first alone, the first and the fallback, or either followed by the retry loop. */
  lemma ProtocolShape<T>(cfg: FullConfig, registered: set<ProviderType>, first: Timed<T>,
                         fallback: Timed<T>, retry: nat -> Outcome<T>)
    ensures var run := Protocol(cfg, registered, first, fallback, retry);
            var rr := RetryFrom(retry, cfg.maxRetries, 1, None);
      || (run.delays == [] && (run.calls == [] || run.calls == [Initial] || run.calls == [Initial, Fallback]))
      || run == ThenRetry([Initial], rr)
      || run == ThenRetry([Initial, Fallback], rr)
  {
  }

  /** What an operation returns on success is what one of the calls returned. */
  lemma ResultFromCalls<T>(cfg: FullConfig, registered: set<ProviderType>, first: Timed<T>,
                           fallback: Timed<T>, retry: nat -> Outcome<T>)
    ensures var r := Protocol(cfg, registered, first, fallback, retry).result;
      r.Ok? ==> first == Finished(r) || fallback == Finished(r)
                || exists k :: 1 <= k <= cfg.maxRetries && retry(k) == r
  {
    var run := Protocol(cfg, registered, first, fallback, retry);
    var rr := RetryFrom(retry, cfg.maxRetries, 1, None);
    RetrySchedule(retry, cfg.maxRetries, 1, None);
    RetryOutcome(retry, cfg.maxRetries, 1, None);
    if run.result.Ok? && run.result == rr.result {
      var k := |rr.attempts|;
      assert rr.attempts[k - 1] == k;
      assert retry(k) == rr.result;
    }
  }

  /**
   * What an operation throws: the primary's own terminal error, the
   * exhaustion error of the retry loop, or (without a registered primary)
   * PROVIDER_UNAVAILABLE.
   */
  lemma ErrorsEscaping<T>(cfg: FullConfig, registered: set<ProviderType>, first: Timed<T>,
                          fallback: Timed<T>, retry: nat -> Outcome<T>)
    ensures var r := Protocol(cfg, registered, first, fallback, retry).result;
      r.Threw? ==>
        (cfg.primaryProvider !in registered && r.thrown == AI(UnavailableError(cfg.primaryProvider)))
        || (r == WithTimeout(first, cfg.timeoutMs) && !IsRetryable(r.thrown))
        || (r.thrown.AI? && r.thrown.err.code == MaxRetriesExceeded && r.thrown.err.provider == RouterProvider)
  {
    RetryOutcome(retry, cfg.maxRetries, 1, None);
  }

  // ----- the router object -----

  class AIRouter {
    var providers: map<ProviderType, Adapter>
    const config: FullConfig

    /** The constructor's first half: the configuration with its defaults, and no provider yet. */
    constructor (c: AIRouterConfig)
      ensures config == ResolveConfig(c)
      ensures providers == map[]
    {
      config := ResolveConfig(c);
      providers := map[];
    }

    /** A router that could be constructed: adapters under their own names, the primary among them. */
    predicate Valid()
      reads this
    {
      WellKeyed(providers) && config.primaryProvider in providers
    }

    /**
     * `initializeProviders`: an adapter for each provider whose key is set,
     * then PROVIDER_INIT_FAILED unless the primary is among them.
     */
    method InitializeProviders(env: Env) returns (err: Option<AIError>)
      requires providers == map[]
      modifies this
      ensures Anthropic in providers <==> IsSet(env.anthropicKey)
      ensures Gemini in providers <==> IsSet(env.googleKey)
      ensures WellKeyed(providers)
      ensures err.None? <==> Valid()
      ensures err.Some? ==> err.value == RouterError("Primary provider " + config.primaryProvider.Name()
                              + " could not be initialized. Check API key configuration.", ProviderInitFailed)
    {
      if IsSet(env.anthropicKey) {
        providers := providers[Anthropic := AnthropicAdapter];
      }
      if IsSet(env.googleKey) {
        providers := providers[Gemini := GeminiAdapter];
      }
      if config.primaryProvider !in providers {
        return Some(RouterError("Primary provider " + config.primaryProvider.Name()
                                + " could not be initialized. Check API key configuration.", ProviderInitFailed));
      }
      return None;
    }

    /**
     * `retryWithBackoff`: up to maxRetries attempts; after each failure but
     * the last the delay is recorded instead of slept.
     */
    method RetryWithBackoff<T>(op: nat -> Outcome<T>, maxRetries: int) returns (run: RetryRun<T>)
      ensures run == RetryFrom(op, maxRetries, 1, None)
    {
      var lastError: Option<Thrown> := None;
      var attempts: seq<nat> := [];
      var delays: seq<int> := [];
      var attempt: nat := 1;
      ResumedAtStart(op, maxRetries);
      while attempt <= maxRetries
        invariant attempt >= 1
        invariant Resumed(op, maxRetries, attempt, lastError, attempts, delays) == RetryFrom(op, maxRetries, 1, None)
        decreases maxRetries - attempt + 1
      {
        ResumedStep(op, maxRetries, attempt, lastError, attempts, delays);
        attempts := attempts + [attempt];
        var outcome := op(attempt);
        if outcome.Ok? {
          return RetryRun(outcome, attempts, delays);
        }
        lastError := Some(outcome.thrown);
        if attempt == maxRetries {
          break;
        }
        delays := delays + [BackoffDelay(attempt)];
        attempt := attempt + 1;
      }
      if attempt > maxRetries {
        ResumedAtEnd(op, maxRetries, attempt, lastError, attempts, delays);
      }
      return RetryRun(Threw(AI(MaxRetriesError(maxRetries, lastError))), attempts, delays);
    }

    /** The recovery protocol around one operation of the adapters. */
    method Route<T>(first: Timed<T>, fallback: Timed<T>, retry: nat -> Outcome<T>) returns (run: Run<T>)
      ensures run == Protocol(config, providers.Keys, first, fallback, retry)
    {
      if config.primaryProvider !in providers {
        return Run(Threw(AI(UnavailableError(config.primaryProvider))), [], []);
      }
      var outcome := WithTimeout(first, config.timeoutMs);
      if outcome.Ok? {
        return Run(outcome, [Initial], []);
      }
      var error := outcome.thrown;
      if IsRetryable(error) && config.fallbackProvider in providers {
        var fallbackOutcome := WithTimeout(fallback, config.timeoutMs);
        if fallbackOutcome.Ok? {
          return Run(fallbackOutcome, [Initial, Fallback], []);
        }
        var rr := RetryWithBackoff(retry, config.maxRetries);
        return ThenRetry([Initial, Fallback], rr);
      }
      if IsRetryable(error) {
        var rr := RetryWithBackoff(retry, config.maxRetries);
        return ThenRetry([Initial], rr);
      }
      return Run(Threw(error), [Initial], []);
    }

    /** `generateFeedback`: the protocol over the adapters' feedback calls for this input. */
    method GenerateFeedback(input: PracticeInput, first: Timed<Json.Json>, fallback: Timed<Json.Json>,
                            retry: nat -> Outcome<Json.Json>) returns (run: Run<Json.Json>)
      ensures run == Protocol(config, providers.Keys, first, fallback, retry)
    {
      run := Route(first, fallback, retry);
    }

    /** `generateTopic`: the protocol over the adapters' topic calls for this role. */
    method GenerateTopic(role: string, first: Timed<string>, fallback: Timed<string>,
                         retry: nat -> Outcome<string>) returns (run: Run<string>)
      ensures run == Protocol(config, providers.Keys, first, fallback, retry)
    {
      run := Route(first, fallback, retry);
    }
  }

  /** `new AIRouter(config)`: the router, or the error initialisation throws. */
  method Construct(c: AIRouterConfig, env: Env) returns (r: Result<AIRouter, AIError>)
    ensures r.Success? ==> fresh(r.value) && r.value.Valid() && r.value.config == ResolveConfig(c)
    ensures r.Success? ==> (Anthropic in r.value.providers <==> IsSet(env.anthropicKey))
                           && (Gemini in r.value.providers <==> IsSet(env.googleKey))
    ensures r.Success? <==> (c.primaryProvider == Anthropic && IsSet(env.anthropicKey))
                            || (c.primaryProvider == Gemini && IsSet(env.googleKey))
    ensures r.Failure? ==> r.error.code == ProviderInitFailed && !r.error.retryable
  {
    var router := new AIRouter(c);
    var err := router.InitializeProviders(env);
    if err.Some? {
      return Failure(err.value);
    }
    return Success(router);
  }

  /** `Partial<AIRouterConfig>` as the factory's caller writes it. */
  datatype Overrides = Overrides(
    primaryProvider: Option<ProviderType> := None,
    fallbackProvider: Option<ProviderType> := None,
    maxRetries: Option<int> := None,
    timeoutMs: Option<int> := None)

  /** `process.env.AI_PROVIDER || 'anthropic'`, taken as the provider name it spells. */
  function DefaultName(env: Env): string {
    if IsSet(env.aiProvider) then env.aiProvider.value else "anthropic"
  }

  function Named(name: string): Option<ProviderType> {
    if name == "anthropic" then Some(Anthropic) else if name == "gemini" then Some(Gemini) else None
  }

  /**
   * The configuration `createAIRouter` passes to the constructor when the
   * primary name is a provider: the spread lets each override replace the
   * factory's value; the default fallback is computed from the environment's
   * provider, not from an overriding primary.
   */
  function FactoryConfig(primary: ProviderType, defaultName: string, o: Overrides): (c: AIRouterConfig)
    ensures c.primaryProvider == primary
    ensures o.fallbackProvider.None? ==> c.fallbackProvider == Some(if defaultName == "anthropic" then Gemini else Anthropic)
  {
    AIRouterConfig(
      primary,
      if o.fallbackProvider.Some? then o.fallbackProvider else Some(if defaultName == "anthropic" then Gemini else Anthropic),
      if o.maxRetries.Some? then o.maxRetries else Some(3),
      if o.timeoutMs.Some? then o.timeoutMs else Some(30000))
  }

  /** Whether the environment carries the API key of the provider. */
  predicate HasKey(env: Env, p: ProviderType) {
    match p
    case Anthropic => IsSet(env.anthropicKey)
    case Gemini => IsSet(env.googleKey)
  }

  /** The primary `createAIRouter` asks for: the override, else the provider AI_PROVIDER names. */
  function FactoryPrimary(env: Env, o: Overrides): Option<ProviderType> {
    if o.primaryProvider.Some? then o.primaryProvider else Named(DefaultName(env))
  }

  /**
   * `createAIRouter(overrides)`. An AI_PROVIDER naming no provider is passed
   * on as the primary name when not overridden, and initialisation then
   * fails for it.
   */
  method CreateAIRouter(env: Env, o: Overrides) returns (r: Result<AIRouter, AIError>)
    ensures o.primaryProvider.None? && Named(DefaultName(env)).None? ==>
              r == Failure(RouterError("Primary provider " + DefaultName(env)
                                       + " could not be initialized. Check API key configuration.", ProviderInitFailed))
    ensures r.Success? <==> FactoryPrimary(env, o).Some? && HasKey(env, FactoryPrimary(env, o).value)
    ensures r.Failure? ==> r.error.code == ProviderInitFailed && !r.error.retryable
    ensures r.Success? ==> fresh(r.value) && r.value.Valid()
    ensures r.Success? ==> r.value.config == ResolveConfig(FactoryConfig(r.value.config.primaryProvider, DefaultName(env), o))
    ensures r.Success? ==> (Anthropic in r.value.providers <==> IsSet(env.anthropicKey))
                           && (Gemini in r.value.providers <==> IsSet(env.googleKey))
    ensures r.Success? ==> r.value.config.maxRetries == OrDefault(o.maxRetries, 3)
                           && r.value.config.timeoutMs == OrDefault(o.timeoutMs, 30000)
    ensures r.Success? && o.primaryProvider.Some? ==> r.value.config.primaryProvider == o.primaryProvider.value
    ensures r.Success? && o.primaryProvider.None? ==> Some(r.value.config.primaryProvider) == Named(DefaultName(env))
  {
    var name := DefaultName(env);
    var primary: ProviderType;
    if o.primaryProvider.Some? {
      primary := o.primaryProvider.value;
    } else if Named(name).Some? {
      primary := Named(name).value;
    } else {
      return Failure(RouterError("Primary provider " + name
                                 + " could not be initialized. Check API key configuration.", ProviderInitFailed));
    }
    r := Construct(FactoryConfig(primary, name, o), env);
  }

  /**
   * With AI_PROVIDER unset and only the primary overridden to gemini, the
   * factory's fallback is gemini as well: a retryable failure falls back to
   * the same provider.
   */
  lemma FactoryFallbackMayEqualPrimary(env: Env)
    requires !IsSet(env.aiProvider)
    ensures ResolveConfig(FactoryConfig(Gemini, DefaultName(env), Overrides(primaryProvider := Some(Gemini)))).fallbackProvider
            == Gemini
  {
  }

  /**
   * The same quirk on the router the factory returns: with AI_PROVIDER unset
   * and the primary overridden to gemini, the router exists exactly when the
   * Google key is set, and then names gemini as its own fallback.
   */
  method GeminiOverrideRouter(env: Env) returns (r: Result<AIRouter, AIError>)
    requires !IsSet(env.aiProvider)
    ensures r.Success? <==> IsSet(env.googleKey)
    ensures r.Success? ==> r.value.config.primaryProvider == Gemini && r.value.config.fallbackProvider == Gemini
                           && Gemini in r.value.providers
  {
    r := CreateAIRouter(env, Overrides(primaryProvider := Some(Gemini)));
    FactoryFallbackMayEqualPrimary(env);
  }

  /**
   * A constructed router never reports PROVIDER_UNAVAILABLE: its first call
   * always goes to the primary.
   */
  method RouteOnConstructed<T>(c: AIRouterConfig, env: Env, first: Timed<T>, fallback: Timed<T>,
                               retry: nat -> Outcome<T>) returns (run: Option<Run<T>>)
    ensures run.Some? <==> (c.primaryProvider == Anthropic && IsSet(env.anthropicKey))
                           || (c.primaryProvider == Gemini && IsSet(env.googleKey))
    ensures run.Some? ==> |run.value.calls| >= 1 && run.value.calls[0] == Initial
  {
    var r := Construct(c, env);
    if r.Failure? {
      return None;
    }
    var router := r.value;
    var routed := router.Route(first, fallback, retry);
    return Some(routed);
  }
}
