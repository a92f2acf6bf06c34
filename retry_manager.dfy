/** `RetryManager` (backend/src/utils/retry-manager.ts): an attempt counter
    with a bounded number of retries, retries only for configured error kinds,
    and a capped exponential backoff. */
module Retry {
  import opened Strings

  datatype RetryConfig = RetryConfig(
    maxAttempts: int,
    baseDelay: int,
    maxDelay: int,
    retryableErrors: seq<string>)

  /** `Math.pow(2, n)` */
  function Pow2(n: nat): (r: nat)
    ensures r >= 1
  {
    if n == 0 then 1 else 2 * Pow2(n - 1)
  }

  /** Whether some configured entry, lower-cased, occurs in the lower-cased
      message (`retryableErrors.some(...)`). */
  function AnyRetryable(lowered: string, errors: seq<string>): (b: bool)
  {
    if errors == [] then false
    else Contains(lowered, ToLower(errors[0])) || AnyRetryable(lowered, errors[1..])
  }

  /** `some` finds an entry exactly when one exists. */
  lemma {:induction false} AnyRetryableIff(lowered: string, errors: seq<string>)
    ensures AnyRetryable(lowered, errors) <==>
      exists i :: 0 <= i < |errors| && Contains(lowered, ToLower(errors[i]))
  {
    if errors != [] {
      AnyRetryableIff(lowered, errors[1..]);
      if exists i :: 0 <= i < |errors| && Contains(lowered, ToLower(errors[i])) {
        var i :| 0 <= i < |errors| && Contains(lowered, ToLower(errors[i]));
        if i > 0 {
          assert errors[1..][i - 1] == errors[i];
        }
      }
      if AnyRetryable(lowered, errors[1..]) {
        var i :| 0 <= i < |errors[1..]| && Contains(lowered, ToLower(errors[1..][i]));
        assert errors[i + 1] == errors[1..][i];
      }
    }
  }

  /** What `shouldRetry` answers for an error message at a given attempt. */
  predicate RetryAllowed(config: RetryConfig, attempt: int, message: string) {
    attempt < config.maxAttempts && AnyRetryable(ToLower(message), config.retryableErrors)
  }

  /** `getDelay`: `min(baseDelay * 2^attempt, maxDelay)`. */
  function Delay(config: RetryConfig, attempt: nat): (d: int)
    ensures d <= config.maxDelay
    ensures d == config.maxDelay || d == config.baseDelay * Pow2(attempt)
  {
    Min(config.baseDelay * Pow2(attempt), config.maxDelay)
  }

  /** With a non-negative base the backoff never shrinks from one attempt to
      the next. */
  lemma DelayNeverDecreases(config: RetryConfig, attempt: nat)
    requires config.baseDelay >= 0
    ensures Delay(config, attempt) <= Delay(config, attempt + 1)
  {
    assert Pow2(attempt + 1) == 2 * Pow2(attempt);
  }

  /** With a base of two seconds and a cap of sixteen the delays are 2, 4, 8
      and 16 seconds, and stay at 16 afterwards. */
  lemma DocumentedDelays(attempt: nat)
    requires attempt >= 3
    ensures var c := RetryConfig(3, 2000, 16000, []);
      Delay(c, 0) == 2000 && Delay(c, 1) == 4000 && Delay(c, 2) == 8000 && Delay(c, attempt) == 16000
  {
    var c := RetryConfig(3, 2000, 16000, []);
    assert Pow2(3) == 8;
    PowMonotone(3, attempt);
  }

  lemma {:induction false} PowMonotone(m: nat, n: nat)
    requires m <= n
    ensures Pow2(m) <= Pow2(n)
    decreases n
  {
    if m < n {
      PowMonotone(m, n - 1);
    }
  }

  /** A message matches no matter how its letters are cased. */
  lemma RetryIgnoresCase(config: RetryConfig, attempt: int, message: string)
    ensures RetryAllowed(config, attempt, ToUpper(message)) == RetryAllowed(config, attempt, message)
  {
    LowerOfUpper(message);
  }

  class RetryManager {
    const config: RetryConfig
    var attempt: nat

    constructor(config: RetryConfig)
      ensures this.config == config && attempt == 0
    {
      this.config := config;
      attempt := 0;
    }

    /** `shouldRetry`: never once `attempt` reaches `maxAttempts`; below that,
        exactly for a retryable message. */
    method ShouldRetry(message: string) returns (r: bool)
      ensures attempt >= config.maxAttempts ==> !r
      ensures r <==>
        (attempt < config.maxAttempts
         && exists i :: 0 <= i < |config.retryableErrors| && Contains(ToLower(message), ToLower(config.retryableErrors[i])))
    {
      AnyRetryableIff(ToLower(message), config.retryableErrors);
      if attempt >= config.maxAttempts {
        return false;
      }
      r := AnyRetryable(ToLower(message), config.retryableErrors);
    }

    method GetDelay() returns (d: int)
      ensures d == Delay(config, attempt)
    {
      d := Min(config.baseDelay * Pow2(attempt), config.maxDelay);
    }

    method IncrementAttempt()
      modifies this
      ensures attempt == old(attempt) + 1
    {
      attempt := attempt + 1;
    }

    /** The attempt number is one ahead of the count of increments. */
    method GetAttemptNumber() returns (n: int)
      ensures n == attempt + 1 && n >= 1
    {
      n := attempt + 1;
    }

    method GetTotalAttempts() returns (n: int)
      ensures n == config.maxAttempts
    {
      n := config.maxAttempts;
    }

    method Reset()
      modifies this
      ensures attempt == 0
    {
      attempt := 0;
    }
  }
}
