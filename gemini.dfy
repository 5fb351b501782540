/** The retry wrapper around the generative-AI call (`callGeminiWithRetry`).
    The AI service is an oracle: `gemini(prompt, k)` is the outcome of attempt `k`
    for that prompt. The timed waits between attempts are recorded, not slept. */
module Gemini {
  import opened Wrappers

  /** A thrown error: its HTTP `status` and its `message`, either possibly absent. */
  datatype ApiError = ApiError(status: Option<int>, message: Option<string>)

  /** What one call of the model does: returns text or throws. */
  datatype Outcome = Generated(text: string) | Failed(error: ApiError)

  /** What `callGeminiWithRetry` resolves to, or the error it rejects with. */
  datatype Reply = Resolved(text: string) | Rejected(error: ApiError)

  /** The error thrown when the loop runs no attempt at all. */
  const MaxRetriesExceeded := ApiError(None, Some("Max retries exceeded"))

  const DefaultMaxRetries := 3
  const DefaultBaseDelay := 1000

  /** Service overloaded (503) or rate limited (429): the errors that are waited out. */
  predicate IsRetryable(e: ApiError) {
    e.status == Some(503) || e.status == Some(429)
  }

  function Pow2(n: nat): (r: nat)
    ensures r >= 1
  {
    if n == 0 then 1 else 2 * Pow2(n - 1)
  }

  /** The wait after a retryable failure of attempt `attempt`: exponential backoff. */
  function Delay(baseDelay: int, attempt: nat): int
    requires attempt >= 1
  {
    baseDelay * Pow2(attempt - 1)
  }

  /** The waits performed after attempts 1 .. n-1 have all failed, in order. */
  function Backoff(gemini: (string, nat) -> Outcome, prompt: string, baseDelay: int, n: nat): (r: seq<int>)
    // at most one wait per attempt before the last: none follows the final attempt
    ensures |r| <= if n == 0 then 0 else n - 1
  {
    if n <= 1 then []
    else
      var o := gemini(prompt, n - 1);
      Backoff(gemini, prompt, baseDelay, n - 1)
        + (if o.Failed? && IsRetryable(o.error) then [Delay(baseDelay, n - 1)] else [])
  }

  method CallGeminiWithRetry(gemini: (string, nat) -> Outcome, prompt: string, maxRetries: int, baseDelay: int)
    returns (reply: Reply, attempts: nat, waits: seq<int>)
    // at most maxRetries attempts, and none at all only when maxRetries < 1
    ensures maxRetries < 1 ==> attempts == 0
    ensures maxRetries >= 1 ==> 1 <= attempts <= maxRetries
    // every attempt before the last one made failed
    ensures forall k :: 1 <= k < attempts ==> gemini(prompt, k).Failed?
    // the text of the first successful attempt is returned
    ensures reply.Resolved? <==> attempts >= 1 && gemini(prompt, attempts).Generated?
    ensures reply.Resolved? ==> reply.text == gemini(prompt, attempts).text
    // a rejection is the error of attempt maxRetries, or "Max retries exceeded" when nothing ran
    ensures reply.Rejected? && maxRetries >= 1 ==>
              attempts == maxRetries && gemini(prompt, attempts) == Failed(reply.error)
    ensures maxRetries < 1 ==> reply == Rejected(MaxRetriesExceeded)
    // one wait after each retryable failure that is not the final attempt
    ensures waits == Backoff(gemini, prompt, baseDelay, attempts)
  {
    var attempt := 1;
    waits := [];
    while attempt <= maxRetries
      invariant 1 <= attempt
      invariant maxRetries >= 1 ==> attempt <= maxRetries
      invariant maxRetries < 1 ==> attempt == 1
      invariant forall k :: 1 <= k < attempt ==> gemini(prompt, k).Failed?
      invariant waits == Backoff(gemini, prompt, baseDelay, attempt)
      decreases maxRetries - attempt
    {
      match gemini(prompt, attempt)
      case Generated(text) =>
        return Resolved(text), attempt, waits;
      case Failed(error) =>
        if IsRetryable(error) {
          if attempt < maxRetries {
            waits := waits + [Delay(baseDelay, attempt)];
            attempt := attempt + 1;
            continue;
          }
        }
        if attempt == maxRetries {
          return Rejected(error), attempt, waits;
        }
        attempt := attempt + 1;
    }
    return Rejected(MaxRetriesExceeded), 0, waits;
  }

  /** Every wait performed before attempt n is shorter than the wait attempt n would earn. */
  lemma {:induction false} BackoffBelow(gemini: (string, nat) -> Outcome, prompt: string, baseDelay: int, n: nat)
    requires baseDelay > 0 && n >= 1
    ensures forall i :: 0 <= i < |Backoff(gemini, prompt, baseDelay, n)| ==>
              Backoff(gemini, prompt, baseDelay, n)[i] < Delay(baseDelay, n)
  {
    if n > 1 {
      BackoffBelow(gemini, prompt, baseDelay, n - 1);
      assert Delay(baseDelay, n) == 2 * Delay(baseDelay, n - 1);
    }
  }

  /** With a positive base delay the successive waits strictly increase. */
  lemma {:induction false} BackoffIncreasing(gemini: (string, nat) -> Outcome, prompt: string, baseDelay: int, n: nat)
    requires baseDelay > 0
    ensures forall i, j :: 0 <= i < j < |Backoff(gemini, prompt, baseDelay, n)| ==>
              Backoff(gemini, prompt, baseDelay, n)[i] < Backoff(gemini, prompt, baseDelay, n)[j]
  {
    if n > 1 {
      BackoffIncreasing(gemini, prompt, baseDelay, n - 1);
      BackoffBelow(gemini, prompt, baseDelay, n - 1);
      assert Delay(baseDelay, n - 1) > 0;
    }
  }

  /** When every attempt before n is overloaded or rate limited, the waits are
      baseDelay, 2·baseDelay, 4·baseDelay, ... one per attempt. */
  lemma {:induction false} BackoffAllRetryable(gemini: (string, nat) -> Outcome, prompt: string, baseDelay: int, n: nat)
    requires n >= 1
    requires forall k :: 1 <= k < n ==> gemini(prompt, k).Failed? && IsRetryable(gemini(prompt, k).error)
    ensures |Backoff(gemini, prompt, baseDelay, n)| == n - 1
    ensures forall i :: 0 <= i < n - 1 ==> Backoff(gemini, prompt, baseDelay, n)[i] == baseDelay * Pow2(i)
  {
    if n > 1 {
      BackoffAllRetryable(gemini, prompt, baseDelay, n - 1);
    }
  }

  /** A 503 or 429 failure of attempt k, before attempt n, is followed by the wait
      `baseDelay·2^(k-1)`, whatever the other attempts did. */
  lemma {:induction false} BackoffWaitFollows(gemini: (string, nat) -> Outcome, prompt: string, baseDelay: int,
                                              n: nat, k: nat)
    requires 1 <= k < n
    requires gemini(prompt, k).Failed? && IsRetryable(gemini(prompt, k).error)
    ensures Delay(baseDelay, k) in Backoff(gemini, prompt, baseDelay, n)
  {
    var before := Backoff(gemini, prompt, baseDelay, n - 1);
    var last := gemini(prompt, n - 1);
    var waited := last.Failed? && IsRetryable(last.error);
    assert Backoff(gemini, prompt, baseDelay, n) == before + (if waited then [Delay(baseDelay, n - 1)] else []);
    if k < n - 1 {
      BackoffWaitFollows(gemini, prompt, baseDelay, n - 1, k);
    }
  }

  /** `w` is the wait earned by a 503 or 429 failure of some attempt before n. */
  ghost predicate EarnedBefore(gemini: (string, nat) -> Outcome, prompt: string, baseDelay: int, n: nat, w: int) {
    exists k :: 1 <= k < n && gemini(prompt, k).Failed? && IsRetryable(gemini(prompt, k).error)
                && w == Delay(baseDelay, k)
  }

  /** Every wait before attempt n follows a 503 or 429 failure of an earlier attempt
      k and lasts `baseDelay·2^(k-1)`: other failures are never waited out. */
  lemma {:induction false} BackoffWaitsExplained(gemini: (string, nat) -> Outcome, prompt: string, baseDelay: int,
                                                 n: nat)
    ensures forall w :: w in Backoff(gemini, prompt, baseDelay, n) ==> EarnedBefore(gemini, prompt, baseDelay, n, w)
  {
    if n > 1 {
      BackoffWaitsExplained(gemini, prompt, baseDelay, n - 1);
      var before := Backoff(gemini, prompt, baseDelay, n - 1);
      var last := gemini(prompt, n - 1);
      var waited := last.Failed? && IsRetryable(last.error);
      assert Backoff(gemini, prompt, baseDelay, n) == before + (if waited then [Delay(baseDelay, n - 1)] else []);
      forall w | w in Backoff(gemini, prompt, baseDelay, n)
        ensures EarnedBefore(gemini, prompt, baseDelay, n, w)
      {
        if w in before {
          assert EarnedBefore(gemini, prompt, baseDelay, n - 1, w);
          var k :| 1 <= k < n - 1 && gemini(prompt, k).Failed? && IsRetryable(gemini(prompt, k).error)
                   && w == Delay(baseDelay, k);
        } else {
          assert waited && w == Delay(baseDelay, n - 1);
        }
      }
    }
  }

  /** When no attempt before n is overloaded or rate limited, there is no wait at all. */
  lemma {:induction false} BackoffNoneRetryable(gemini: (string, nat) -> Outcome, prompt: string, baseDelay: int, n: nat)
    requires forall k :: 1 <= k < n ==> !(gemini(prompt, k).Failed? && IsRetryable(gemini(prompt, k).error))
    ensures Backoff(gemini, prompt, baseDelay, n) == []
  {
    if n > 1 {
      BackoffNoneRetryable(gemini, prompt, baseDelay, n - 1);
    }
  }

  /** A failure that is neither 503 nor 429 does not end the loop: the next
      attempt follows at once, with no wait. */
  method ServerErrorThenAnswer(prompt: string, answer: string) returns (reply: Reply, attempts: nat, waits: seq<int>)
    ensures reply == Resolved(answer) && attempts == 2 && waits == []
  {
    var gemini := (p: string, k: nat) => if k == 1 then Failed(ApiError(Some(500), None)) else Generated(answer);
    reply, attempts, waits := CallGeminiWithRetry(gemini, prompt, DefaultMaxRetries, DefaultBaseDelay);
    BackoffNoneRetryable(gemini, prompt, DefaultBaseDelay, 2);
  }

  /** Only the retryable failure is waited out: a 500 on attempt 1, then a 503 on
      attempt 2, then an answer gives one wait of 2000 ms, the one attempt 2 earns. */
  method ServerErrorThenOverloaded(prompt: string, answer: string)
    returns (reply: Reply, attempts: nat, waits: seq<int>)
    ensures reply == Resolved(answer) && attempts == 3 && waits == [2000]
  {
    var gemini := (p: string, k: nat) =>
      if k == 1 then Failed(ApiError(Some(500), None))
      else if k == 2 then Failed(ApiError(Some(503), None))
      else Generated(answer);
    reply, attempts, waits := CallGeminiWithRetry(gemini, prompt, DefaultMaxRetries, DefaultBaseDelay);
    assert Backoff(gemini, prompt, DefaultBaseDelay, 2) == [];
    assert Backoff(gemini, prompt, DefaultBaseDelay, 3) == [Delay(DefaultBaseDelay, 2)];
  }
}
