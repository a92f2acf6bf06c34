/** `TimeoutManager` (backend/src/utils/timeout-manager.ts): the last moment data
    arrived, an inactivity check against it, and a per-retry timeout that
    grows to a maximum.  The clock is a parameter: every operation that reads
    `Date.now()` takes `now` in milliseconds. */
module Timeout {
  import opened Strings

  datatype TimeoutConfig = TimeoutConfig(initial: int, perRetry: int, maximum: int, activityWindow: int)

  /** `getTimeout`: `min(initial + retryAttempt * perRetry, maximum)`. */
  function TimeoutFor(config: TimeoutConfig, retryAttempt: int): (t: int)
    ensures t <= config.maximum
    ensures t == config.maximum || t == config.initial + retryAttempt * config.perRetry
  {
    Min(config.initial + retryAttempt * config.perRetry, config.maximum)
  }

  /** Later retries never get less time when each retry adds time. */
  lemma TimeoutGrows(config: TimeoutConfig, a: int, b: int)
    requires config.perRetry >= 0 && a <= b
    ensures TimeoutFor(config, a) <= TimeoutFor(config, b)
  {
    assert a * config.perRetry <= b * config.perRetry by {
      assert (b - a) * config.perRetry >= 0;
    }
  }

  /** Whether more than `activityWindow` has passed since `lastActivity`. */
  predicate Inactive(config: TimeoutConfig, lastActivity: int, now: int) {
    now - lastActivity > config.activityWindow
  }

  /** At the moment of activity the stream is never inactive, and it becomes
      inactive exactly once the window has passed. */
  lemma FreshActivityIsActive(config: TimeoutConfig, t: int, elapsed: nat)
    requires config.activityWindow >= 0
    ensures !Inactive(config, t, t)
    ensures Inactive(config, t, t + elapsed) <==> elapsed > config.activityWindow
  {
  }

  class TimeoutManager {
    const config: TimeoutConfig
    var lastActivity: int

    constructor(config: TimeoutConfig, now: int)
      ensures this.config == config && lastActivity == now
    {
      this.config := config;
      lastActivity := now;
    }

    method RecordActivity(now: int)
      modifies this
      ensures lastActivity == now
    {
      lastActivity := now;
    }

    /** Strictly more than the window without data. */
    method ShouldTimeout(now: int) returns (b: bool)
      ensures b <==> Inactive(config, lastActivity, now)
    {
      var inactiveTime := now - lastActivity;
      b := inactiveTime > config.activityWindow;
    }

    method GetTimeout(retryAttempt: int) returns (t: int)
      ensures t == TimeoutFor(config, retryAttempt)
    {
      var timeout := config.initial + retryAttempt * config.perRetry;
      t := Min(timeout, config.maximum);
    }

    /** Whole seconds since the last activity, rounded down (also for a
        clock that went backwards). */
    method GetTimeSinceLastActivity(now: int) returns (s: int)
      ensures s * 1000 <= now - lastActivity < (s + 1) * 1000
    {
      s := (now - lastActivity) / 1000;
    }

    method Reset(now: int)
      modifies this
      ensures lastActivity == now
    {
      lastActivity := now;
    }
  }
}
