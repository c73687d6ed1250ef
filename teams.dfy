/** The delivery side of the notifier (src/teams.js): deciding whether a configured value is a
    KMS ciphertext, the once-resolved hook URL, classifying the webhook's HTTP status, the
    retry driver with exponential back-off, epoch conversion and the colour palette. */
module Teams {
  import opened Values
  import opened Strings

  // ---------------------------------------------------------------------------------------
  // Secret resolution
  // ---------------------------------------------------------------------------------------

  /** What the key-management service answers to one decrypt request. */
  datatype DecryptReply = DecryptFailed(reason: string) | Decrypted(plaintext: string)

  /** The value a configured blob resolves to, and whether the decrypt call was made. */
  datatype Resolution = Resolution(value: Option<string>, decryptAttempted: bool)

  /** The heuristic that a configured value is ciphertext: a string longer than 50 characters
      with no space in it, which the caller's optional predicate also accepts. */
  predicate LooksEncrypted(blob: Option<string>, isValid: Option<string -> bool>) {
    && blob.Some?
    && |blob.value| > 50
    && ' ' !in blob.value
    && (isValid.None? || isValid.value(blob.value))
  }

  /** Resolves a configured value: decrypt it when it looks like ciphertext, falling back to the
      raw value when the decrypt call fails, and use it as-is otherwise. */
  function ShouldDecryptBlob(blob: Option<string>, isValid: Option<string -> bool>,
                             kms: string -> DecryptReply): (r: Resolution)
    ensures r.decryptAttempted <==> LooksEncrypted(blob, isValid)
    ensures !r.decryptAttempted ==> r.value == blob
    ensures r.decryptAttempted && kms(blob.value).DecryptFailed? ==> r.value == blob
    ensures r.decryptAttempted && kms(blob.value).Decrypted? ==> r.value == Some(kms(blob.value).plaintext)
  {
    if LooksEncrypted(blob, isValid) then
      match kms(blob.value)
      case DecryptFailed(_) => Resolution(blob, true)
      case Decrypted(plaintext) => Resolution(Some(plaintext), true)
    else
      Resolution(blob, false)
  }

  /** The regular expression `https?:\/\/\w` matches `s` at index `i`. */
  predicate UrlAt(s: string, i: nat) {
    || (OccursAt(s, "http://", i) && i + 7 < |s| && IsWordChar(s[i + 7]))
    || (OccursAt(s, "https://", i) && i + 8 < |s| && IsWordChar(s[i + 8]))
  }

  /** `/https?:\/\/\w/.test(s)`: the expression is not anchored, so any position counts. */
  predicate MatchesHttpUrl(s: string) {
    exists i: nat :: i <= |s| && UrlAt(s, i)
  }

  /** The extra test for the hook URL: a decrypted URL is 78-80 characters, so ciphertext is
      longer than 100 characters and does not contain a literal http(s) URL. */
  predicate HookUrlIsValid(s: string): (valid: bool)
    ensures valid ==> |s| > 100
    ensures HasPrefix(s, "https://") && |s| > 8 && IsWordChar(s[8]) ==> !valid
    ensures HasPrefix(s, "http://") && |s| > 7 && IsWordChar(s[7]) ==> !valid
  {
    assert s[0..] == s;
    assert HasPrefix(s, "https://") && |s| > 8 && IsWordChar(s[8]) ==> UrlAt(s, 0);
    assert HasPrefix(s, "http://") && |s| > 7 && IsWordChar(s[7]) ==> UrlAt(s, 0);
    |s| > 100 && !MatchesHttpUrl(s)
  }

  /** The resolution the hook-URL promise is built from: the hook URL is decrypted exactly when
      it is a string of more than 100 characters, without a space, that contains no literal
      http(s) URL, and is used as configured otherwise or when decryption fails. */
  function ResolveHookUrl(env: Option<string>, kms: string -> DecryptReply): (r: Resolution)
    ensures r.decryptAttempted
        <==> env.Some? && |env.value| > 100 && ' ' !in env.value && !MatchesHttpUrl(env.value)
    ensures r.value == if r.decryptAttempted && kms(env.value).Decrypted? then Some(kms(env.value).plaintext) else env
  {
    ShouldDecryptBlob(env, Some(HookUrlIsValid), kms)
  }

  /** A configured value beginning with a literal `http://` or `https://` URL is used as-is,
      whatever the key-management service would answer. */
  lemma {:induction false} LiteralUrlUsedAsIs(url: string, kms: string -> DecryptReply)
    requires || (HasPrefix(url, "http://") && |url| > 7 && IsWordChar(url[7]))
             || (HasPrefix(url, "https://") && |url| > 8 && IsWordChar(url[8]))
    ensures ResolveHookUrl(Some(url), kms) == Resolution(Some(url), false)
  {
    assert url[0..] == url;
    assert UrlAt(url, 0);
  }

  /** A value of at most 50 characters, or one containing a space, is never sent to the
      decrypt call, whatever the caller's predicate says. */
  lemma PlainValueUsedAsIs(blob: string, isValid: Option<string -> bool>, kms: string -> DecryptReply)
    requires |blob| <= 50 || ' ' in blob
    ensures ShouldDecryptBlob(Some(blob), isValid, kms) == Resolution(Some(blob), false)
  {
  }

  /** A failed decrypt call resolves to exactly the configured value (fail-open). */
  lemma DecryptFailureFallsBack(blob: Option<string>, isValid: Option<string -> bool>,
                                kms: string -> DecryptReply)
    requires blob.Some? && kms(blob.value).DecryptFailed?
    ensures ShouldDecryptBlob(blob, isValid, kms).value == blob
  {
  }

  // ---------------------------------------------------------------------------------------
  // Status classification
  // ---------------------------------------------------------------------------------------

  /** The response description that postJson resolves with. */
  datatype Response = Response(body: string, statusCode: nat, statusMessage: string)

  /** The outcome of one postJson call: a response, or a rejection from the response stream. */
  datatype PostReply = Delivered(response: Response) | TransportFailed(reason: string)

  /** What an attempt throws: an Error object, whose `retryable` property may be unset, or a
      bare string, on which `retryable` reads as undefined. */
  datatype ErrorValue = ErrorObject(message: string, retryable: Option<bool>) | ThrownString(text: string)

  /** `e.retryable`, with `None` for undefined. */
  function RetryableFlag(e: ErrorValue): Option<bool> {
    match e
    case ErrorObject(_, flag) => flag
    case ThrownString(_) => None
  }

  /** `_.isUndefined(e.retryable) || e.retryable`. */
  predicate IsRetryable(e: ErrorValue): (retry: bool)
    ensures e.ThrownString? ==> retry
    ensures e.ErrorObject? ==> (retry <==> e.retryable != Some(false))
  {
    RetryableFlag(e).None? || RetryableFlag(e).value
  }

  /** One call of an asynchronous operation: it returned a value or threw. */
  datatype Attempt<T> = Returned(value: T) | Threw(error: ErrorValue)

  /** After this attempt the retry driver makes no further call. */
  predicate Stops<T>(a: Attempt<T>) {
    a.Returned? || !IsRetryable(a.error)
  }

  predicate IsSuccessStatus(code: nat) {
    200 <= code < 300
  }

  predicate IsClientErrorStatus(code: nat) {
    400 <= code < 500
  }

  /** Another attempt is worth making after this reply. */
  predicate IsTransient(reply: PostReply) {
    reply.TransportFailed? || !(IsSuccessStatus(reply.response.statusCode) || IsClientErrorStatus(reply.response.statusCode))
  }

  function BadRequestMessage(r: Response): string {
    "Teams API reports bad request [HTTP:" + NatToString(r.statusCode) + "] " + r.statusMessage + ": " + r.body
  }

  function ApiErrorText(r: Response): string {
    "Teams API error [HTTP:" + NatToString(r.statusCode) + "]: " + r.body
  }

  /** The body of one postMessage attempt after postJson: a 2xx response is returned, a 4xx
      throws an Error marked not retryable, anything else throws with `retryable` undefined. */
  function Classify(reply: PostReply): (a: Attempt<Response>)
    ensures reply.Delivered? && IsSuccessStatus(reply.response.statusCode) ==> a == Returned(reply.response)
    ensures reply.Delivered? && IsClientErrorStatus(reply.response.statusCode)
            ==> a == Threw(ErrorObject(BadRequestMessage(reply.response), Some(false)))
    ensures IsTransient(reply) ==> a.Threw? && RetryableFlag(a.error).None?
    ensures Stops(a) <==> !IsTransient(reply)
  {
    match reply
    case TransportFailed(reason) => Threw(ErrorObject(reason, None))
    case Delivered(response) =>
      if IsSuccessStatus(response.statusCode) then Returned(response)
      else if IsClientErrorStatus(response.statusCode) then
        Threw(ErrorObject(BadRequestMessage(response), Some(false)))
      else Threw(ThrownString(ApiErrorText(response)))
  }

  /** The status code can be read back from a bad-request error's message. */
  lemma {:induction false} BadRequestCarriesStatus(r: Response)
    requires IsClientErrorStatus(r.statusCode)
    ensures var e := Classify(Delivered(r)).error;
            var prefix := "Teams API reports bad request [HTTP:";
            && e.ErrorObject?
            && HasPrefix(e.message, prefix)
            && var code := e.message[|prefix|..|prefix| + 3];
               AllDigits(code) && DecimalValue(code) == r.statusCode
  {
    var prefix := "Teams API reports bad request [HTTP:";
    var digits := NatToString(r.statusCode);
    var msg := BadRequestMessage(r);
    assert |digits| == 3 by {
      assert digits == NatToString(r.statusCode / 10) + [DigitChar(r.statusCode % 10)];
      assert NatToString(r.statusCode / 10) == NatToString(r.statusCode / 100) + [DigitChar(r.statusCode / 10 % 10)];
    }
    assert msg == prefix + digits + ("] " + r.statusMessage + ": " + r.body);
    assert msg[..|prefix|] == prefix;
    assert msg[|prefix|..|prefix| + 3] == digits;
    DecimalRoundTrip(r.statusCode);
  }

  // ---------------------------------------------------------------------------------------
  // Retry driver
  // ---------------------------------------------------------------------------------------

  function Max(a: int, b: int): int {
    if a < b then b else a
  }

  function Pow2(k: nat): nat {
    if k == 0 then 1 else 2 * Pow2(k - 1)
  }

  lemma {:induction false} Pow2Add(a: nat, b: nat)
    ensures Pow2(a + b) == Pow2(a) * Pow2(b)
  {
    if a > 0 {
      Pow2Add(a - 1, b);
    }
  }

  /** `Math.pow(2, numTries) * 200`: the wait after the `numTries`-th retryable failure; it
      starts at 200 ms and doubles with each failure. */
  function Backoff(numTries: nat): (ms: nat)
    ensures numTries == 0 ==> ms == 200
    ensures numTries > 0 ==> ms == 2 * (Pow2(numTries - 1) * 200)
  {
    Pow2(numTries) * 200
  }

  lemma MulRotate(x: int, y: int, z: int)
    ensures (x * y) * z == y * (x * z)
  {
  }

  /** `b` more failures multiply the wait by 2^b. */
  lemma BackoffGrowth(a: nat, b: nat)
    ensures Backoff(a + b) == Pow2(b) * Backoff(a)
  {
    Pow2Add(a, b);
    var p, q := Pow2(a), Pow2(b);
    calc {
      Backoff(a + b);
      Pow2(a + b) * 200;
      (p * q) * 200;
      { MulRotate(p, q, 200); }
      q * (p * 200);
      Pow2(b) * Backoff(a);
    }
  }

  /** The waits requested after the first `n` retryable failures. */
  function BackoffSchedule(n: nat): (w: seq<nat>)
    ensures |w| == n
    ensures forall i :: 0 <= i < n ==> w[i] == Backoff(i + 1)
  {
    if n == 0 then [] else BackoffSchedule(n - 1) + [Backoff(n)]
  }

  /** Each wait is twice the one before. */
  lemma BackoffDoubles(n: nat, i: nat)
    requires i + 1 < n
    ensures BackoffSchedule(n)[i + 1] == 2 * BackoffSchedule(n)[i]
  {
  }

  /** How many calls `retry(retries, f)` makes when the calls before index `k` have all failed
      retryably: it stops at the first call that returns or throws a non-retryable error, and
      after `max(1, retries)` calls in any case. */
  function CallsMade<T>(retries: int, attempt: nat -> Attempt<T>, k: nat): (n: nat)
    requires k < Max(1, retries)
    ensures k < n <= Max(1, retries)
    ensures forall j :: k <= j < n - 1 ==> !Stops(attempt(j))
    ensures n < Max(1, retries) ==> Stops(attempt(n - 1))
    decreases Max(1, retries) - k
  {
    if Stops(attempt(k)) || k + 1 == Max(1, retries) then k + 1
    else CallsMade(retries, attempt, k + 1)
  }

  /** `retry(retries, func)`, where the k-th call of `func` (from 0) has outcome `attempt(k)`.
      Returns the last call's outcome (its value, or the error re-thrown), the number of calls
      and the waits requested between them. */
  method Retry<T>(retries: int, attempt: nat -> Attempt<T>)
    returns (r: Attempt<T>, calls: nat, waits: seq<nat>)
    ensures calls == CallsMade(retries, attempt, 0)
    ensures r == attempt(calls - 1)
    ensures waits == BackoffSchedule(calls - 1)
  {
    var numTries := 0;
    calls, waits := 0, [];
    while true
      invariant numTries < Max(1, retries)
      invariant calls == numTries
      invariant CallsMade(retries, attempt, 0) == CallsMade(retries, attempt, numTries)
      invariant waits == BackoffSchedule(numTries)
      decreases Max(1, retries) - numTries
    {
      r := attempt(calls);
      calls := calls + 1;
      if r.Returned? {
        return;
      }
      if IsRetryable(r.error) {
        numTries := numTries + 1;
        if numTries < retries {
          var waitFor := Pow2(numTries) * 200;
          waits := waits + [waitFor];
          continue;
        }
      }
      return;
    }
  }

  /** Exactly one call is made iff the first call stops the driver or the budget is at most 1. */
  lemma SingleCallIff<T>(retries: int, attempt: nat -> Attempt<T>)
    ensures CallsMade(retries, attempt, 0) == 1 <==> Stops(attempt(0)) || retries <= 1
  {
  }

  /** The driver stops at the first call that returns or throws a non-retryable error, so on
      success the value returned is that of the first successful call. */
  lemma CallsMadeAtFirstStop<T>(retries: int, attempt: nat -> Attempt<T>, k: nat)
    requires k < Max(1, retries)
    requires Stops(attempt(k))
    requires forall j :: 0 <= j < k ==> !Stops(attempt(j))
    ensures CallsMade(retries, attempt, 0) == k + 1
  {
  }

  /** When no call stops the driver, it makes `max(1, retries)` calls and re-throws the last
      error. */
  lemma CallsMadeWhenExhausted<T>(retries: int, attempt: nat -> Attempt<T>)
    requires forall j :: 0 <= j < Max(1, retries) - 1 ==> !Stops(attempt(j))
    ensures CallsMade(retries, attempt, 0) == Max(1, retries)
  {
  }

  // ---------------------------------------------------------------------------------------
  // postMessage
  // ---------------------------------------------------------------------------------------

  /** One POST of `payload` to `endpoint`. */
  datatype Request<M> = Request(endpoint: Option<string>, payload: M)

  /** The attempts postMessage makes when the k-th postJson call has outcome `replies(k)`. */
  function AttemptsOf(replies: nat -> PostReply): nat -> Attempt<Response> {
    (k: nat) => Classify(replies(k))
  }

  /** The number of POSTs postMessage makes: `retry(3, ...)`. */
  function PostCalls(replies: nat -> PostReply): (n: nat)
    ensures 1 <= n <= 3
  {
    CallsMade(3, AttemptsOf(replies), 0)
  }

  /** A 4xx reply to the first POST ends postMessage after that one POST with an error that is
      not retryable. */
  lemma BadRequestPostsOnce(replies: nat -> PostReply)
    requires replies(0).Delivered? && IsClientErrorStatus(replies(0).response.statusCode)
    ensures PostCalls(replies) == 1
    ensures Classify(replies(0)).Threw? && !IsRetryable(Classify(replies(0)).error)
  {
    SingleCallIff(3, AttemptsOf(replies));
  }

  /** A 2xx reply after transient failures, within the budget of three, ends postMessage with
      that response. */
  lemma SuccessAfterTransientFailures(replies: nat -> PostReply, k: nat)
    requires k < 3
    requires forall j :: 0 <= j < k ==> IsTransient(replies(j))
    requires replies(k).Delivered? && IsSuccessStatus(replies(k).response.statusCode)
    ensures PostCalls(replies) == k + 1
    ensures Classify(replies(k)) == Returned(replies(k).response)
  {
    var a := AttemptsOf(replies);
    forall j | 0 <= j < k ensures !Stops(a(j)) {
      assert IsTransient(replies(j));
    }
    CallsMadeAtFirstStop(3, a, k);
  }

  /** Three transient failures give three POSTs, waits of 400 ms and 800 ms, and the third
      failure as the final error. */
  lemma ThreeTransientFailures(replies: nat -> PostReply)
    requires forall j :: 0 <= j < 3 ==> IsTransient(replies(j))
    ensures PostCalls(replies) == 3
    ensures BackoffSchedule(PostCalls(replies) - 1) == [400, 800]
    ensures Classify(replies(2)).Threw? && IsRetryable(Classify(replies(2)).error)
  {
    var a := AttemptsOf(replies);
    forall j | 0 <= j < 2 ensures !Stops(a(j)) {
      assert IsTransient(replies(j));
    }
    CallsMadeWhenExhausted(3, a);
    assert IsTransient(replies(2));
  }

  // ---------------------------------------------------------------------------------------
  // The module's state and its static members
  // ---------------------------------------------------------------------------------------

  /** The module src/teams.js once loaded: the hook-URL promise is created at load time from
      the TEAMS_HOOK_URL setting and every attempt awaits that same value. */
  class Teams {
    const hookUrl: Option<string>

    /** Loading the module resolves the hook URL once. */
    constructor (env: Option<string>, kms: string -> DecryptReply)
      ensures hookUrl == ResolveHookUrl(env, kms).value
    {
      hookUrl := ResolveHookUrl(env, kms).value;
    }

    /** `Teams.postMessage(message)` where the k-th postJson call (from 0) has outcome
        `replies(k)`: every POST carries `message` to the same memoised hook URL, and the
        result is the outcome of the last attempt. */
    method PostMessage<M>(message: M, replies: nat -> PostReply)
      returns (r: Attempt<Response>, requests: seq<Request<M>>, waits: seq<nat>)
      ensures |requests| == PostCalls(replies)
      ensures forall i :: 0 <= i < |requests| ==> requests[i] == Request(hookUrl, message)
      ensures r == Classify(replies(|requests| - 1))
      ensures waits == BackoffSchedule(|requests| - 1)
    {
      var calls;
      r, calls, waits := Retry(3, AttemptsOf(replies));
      requests := seq(calls, _ => Request(hookUrl, message));
    }
  }

  // ---------------------------------------------------------------------------------------
  // Epoch time and colours
  // ---------------------------------------------------------------------------------------

  const TwoTo31: int := 0x8000_0000
  const TwoTo32: int := 0x1_0000_0000

  /** `x | 0` for an integral `x`: the 32-bit two's-complement wrap of ToInt32. */
  function ToInt32(x: int): (r: int)
    ensures -TwoTo31 <= r < TwoTo31
    ensures (x - r) % TwoTo32 == 0
    ensures -TwoTo31 <= x < TwoTo31 ==> r == x
  {
    var m := x % TwoTo32;
    if m >= TwoTo31 then m - TwoTo32 else m
  }

  /** Milliseconds divided by 1000 and truncated toward zero. */
  function TruncateToSeconds(ms: int): (s: int)
    ensures 0 <= ms ==> 0 <= s && s * 1000 <= ms < s * 1000 + 1000
    ensures ms < 0 ==> s <= 0 && s * 1000 - 1000 < ms <= s * 1000
  {
    if ms >= 0 then ms / 1000 else -((-ms) / 1000)
  }

  /** `Teams.toEpochTime(date)` for a date whose `getTime()` is `ms`: whole seconds, truncated
      toward zero, as a signed 32-bit integer. */
  function ToEpochTime(ms: int): (r: int)
    ensures -TwoTo31 <= r < TwoTo31
    ensures (TruncateToSeconds(ms) - r) % TwoTo32 == 0
    ensures -TwoTo31 <= TruncateToSeconds(ms) < TwoTo31 ==> r == TruncateToSeconds(ms)
  {
    ToInt32(TruncateToSeconds(ms))
  }

  /** Up to 19 January 2038 the epoch value is the exact number of whole seconds. */
  lemma EpochTimeOfModernDate(ms: int)
    requires 0 <= ms < TwoTo31 * 1000
    ensures 0 <= ToEpochTime(ms) && ToEpochTime(ms) * 1000 <= ms < ToEpochTime(ms) * 1000 + 1000
  {
  }

  /** From 19 January 2038 on, `| 0` wraps the seconds to a negative number. */
  lemma EpochTimeWrapsIn2038()
    ensures ToEpochTime(TwoTo31 * 1000) == -TwoTo31
  {
  }

  /** The colours a Teams text block accepts. */
  const TeamsColorNames: set<string> := {"default", "dark", "light", "accent", "good", "warning", "attention"}

  /** `Teams.COLORS`: one Teams colour for each alert level. */
  function Colors(): (c: map<string, string>)
    ensures c.Keys == {"critical", "warning", "ok"}
    ensures forall level :: level in c ==> c[level] in TeamsColorNames
    ensures c["critical"] == "attention" && c["warning"] == "warning" && c["ok"] == "good"
  {
    map["critical" := "attention", "warning" := "warning", "ok" := "good"]
  }
}
