/**
 * `generateResponse`: one chat-completion call turned into a result record.
 * Everything inside its `try` is caught, but the client is built before the
 * `try`, so an error from the client's constructor rejects the returned
 * promise instead. The completion call itself is abstracted as its outcome;
 * the abort timer is reduced to its deadline: a call that takes at least the
 * timeout ends with the error the client raises on abort, which is a
 * parameter.
 */
module Ai {
  import opened Js

  /** The thrown error's `name`, `status` (absent on non-HTTP errors) and `message`. */
  datatype AiError = AiError(name: string, status: Option<int>, message: string)

  /**
   * What the completion call produced: the `message.content` of each returned
   * choice (None for a null content), the error it threw, or the message of
   * the error thrown while building the client (the OpenAI client refuses to
   * be built without an API key, the default configuration), before any
   * call is made.
   */
  datatype CallOutcome =
    | Answered(choices: seq<Option<string>>)
    | Threw(err: AiError)
    | ClientThrew(message: string)

  /**
   * The result record, `{success: true, text}` or `{success: false, error,
   * fallback}`, or a rejected promise carrying the error message.
   */
  datatype AiResult = Success(text: string) | Failure(error: string, fallback: string) | Rejected(message: string)

  const DefaultTimeoutMs: nat := 30000

  const GenericFallback: string := "Maaf, terjadi kesalahan. Silakan coba lagi."
  const TimeoutFallback: string := "Maaf, permintaan timeout. Server AI sedang sibuk."
  const RateLimitFallback: string := "Maaf, rate limit tercapai. Tunggu sebentar."
  const InvalidConfigFallback: string := "Konfigurasi AI tidak valid. Hubungi admin."

  const AbortErrorName: string := "AbortError"
  const TypeErrorName: string := "TypeError"

  /** V8's messages for reading a missing first choice, and for `substring` on a null content. */
  const NoChoiceMessage: string := "Cannot read properties of undefined (reading 'message')"
  const NullContentMessage: string := "Cannot read properties of null (reading 'substring')"

  /**
   * The outcome seen by `generateResponse` when the call takes `latencyMs`:
   * the abort controller fires first once the latency reaches the timeout,
   * and the call then throws `abortErr`, whatever error the client raises
   * for an aborted request. A client that cannot be built throws before the
   * timer is set.
   */
  function WithDeadline(outcome: CallOutcome, latencyMs: nat, abortErr: AiError, timeoutMs: nat := DefaultTimeoutMs): (r: CallOutcome)
    ensures latencyMs >= timeoutMs && !outcome.ClientThrew? ==> r == Threw(abortErr)
    ensures latencyMs < timeoutMs || outcome.ClientThrew? ==> r == outcome
  {
    if outcome.ClientThrew? then outcome
    else if latencyMs >= timeoutMs then Threw(abortErr)
    else outcome
  }

  /** The fallback text chosen in the `catch` block for an error. */
  function FallbackFor(err: AiError): (text: string)
    ensures err.name == AbortErrorName ==> text == TimeoutFallback
    ensures err.name != AbortErrorName && err.status == Some(429) ==> text == RateLimitFallback
    ensures err.name != AbortErrorName && err.status == Some(401) ==> text == InvalidConfigFallback
    ensures err.name != AbortErrorName && err.status != Some(429) && err.status != Some(401) ==> text == GenericFallback
  {
    if err.name == AbortErrorName then TimeoutFallback
    else if err.status == Some(429) then RateLimitFallback
    else if err.status == Some(401) then InvalidConfigFallback
    else GenericFallback
  }

  /** The four fallback texts are the only ones produced, and they are pairwise different. */
  lemma FallbacksAreDistinct(err: AiError)
    ensures FallbackFor(err) in {GenericFallback, TimeoutFallback, RateLimitFallback, InvalidConfigFallback}
    ensures |{GenericFallback, TimeoutFallback, RateLimitFallback, InvalidConfigFallback}| == 4
  {
    assert GenericFallback[0] != TimeoutFallback[6];
    assert GenericFallback[6] != TimeoutFallback[6];
    assert GenericFallback[6] != RateLimitFallback[6];
    assert TimeoutFallback[6] != RateLimitFallback[6];
    assert InvalidConfigFallback[0] != GenericFallback[0];
    assert InvalidConfigFallback[0] != TimeoutFallback[0];
    assert InvalidConfigFallback[0] != RateLimitFallback[0];
  }

  /**
   * `generateResponse`: the first choice's content on success; any error
   * thrown inside the `try` (including reading a missing choice or a null
   * content) becomes a failure carrying the error message and its fallback
   * text; an error from building the client is not caught and rejects.
   */
  function GenerateResponse(outcome: CallOutcome): (r: AiResult)
    ensures r.Success? <==> outcome.Answered? && |outcome.choices| > 0 && outcome.choices[0].Some?
    ensures r.Success? ==> r.text == outcome.choices[0].value
    ensures outcome.Threw? ==> r == Failure(outcome.err.message, FallbackFor(outcome.err))
    ensures r.Failure? && outcome.Answered? ==> r.fallback == GenericFallback
    ensures r.Rejected? <==> outcome.ClientThrew?
    ensures r.Rejected? ==> r.message == outcome.message
  {
    match outcome
    case ClientThrew(message) => Rejected(message)
    case Threw(err) => Failure(err.message, FallbackFor(err))
    case Answered(choices) =>
      // Reading a missing choice or calling `substring` on a null content
      // throws a TypeError, which carries no HTTP status.
      if |choices| == 0 then Failure(NoChoiceMessage, GenericFallback)
      else if choices[0].None? then Failure(NullContentMessage, GenericFallback)
      else Success(choices[0].value)
  }

  /** The TypeErrors of a malformed completion are classified like any error without a status. */
  lemma TypeErrorsGetGenericFallback(message: string)
    ensures FallbackFor(AiError(TypeErrorName, None, message)) == GenericFallback
  {
    assert TypeErrorName[0] != AbortErrorName[0];
  }

  /**
   * A call that outlasts the timeout fails with the abort error, whatever its
   * own outcome, and replies with the timeout fallback exactly when the client
   * names that error `AbortError`; a client that cannot be built still rejects.
   */
  lemma SlowCallFallsBackToTimeout(outcome: CallOutcome, latencyMs: nat, abortErr: AiError, timeoutMs: nat)
    requires latencyMs >= timeoutMs
    ensures !outcome.ClientThrew? ==>
              GenerateResponse(WithDeadline(outcome, latencyMs, abortErr, timeoutMs)) == Failure(abortErr.message, FallbackFor(abortErr))
    ensures !outcome.ClientThrew? ==>
              (GenerateResponse(WithDeadline(outcome, latencyMs, abortErr, timeoutMs)).fallback == TimeoutFallback
               <==> abortErr.name == AbortErrorName)
    ensures !outcome.ClientThrew? && abortErr.name == AbortErrorName ==>
              GenerateResponse(WithDeadline(outcome, latencyMs, abortErr, timeoutMs)) == Failure(abortErr.message, TimeoutFallback)
    ensures outcome.ClientThrew? ==> GenerateResponse(WithDeadline(outcome, latencyMs, abortErr, timeoutMs)) == Rejected(outcome.message)
  {
    FallbacksAreDistinct(abortErr);
  }

  /** The text a relay sends for a settled result record: the completion text or the fallback. */
  function ReplyText(r: AiResult): (text: string)
    requires !r.Rejected?
    ensures r.Success? ==> text == r.text
    ensures r.Failure? ==> text == r.fallback
  {
    match r
    case Success(t) => t
    case Failure(_, f) => f
  }

  /**
   * A failed call that returns its record still produces a non-empty reply:
   * every error caught inside the `try` is answered with a fallback text.
   */
  lemma FailureRepliesWithFallback(outcome: CallOutcome)
    requires GenerateResponse(outcome).Failure?
    ensures ReplyText(GenerateResponse(outcome)) != []
    ensures ReplyText(GenerateResponse(outcome)) in {GenericFallback, TimeoutFallback, RateLimitFallback, InvalidConfigFallback}
  {
    match outcome
    case Threw(err) => FallbacksAreDistinct(err);
    case Answered(_) =>
    case ClientThrew(_) =>
  }
}
