/**
 Retry configuration: validation and normalization on the control plane, the delay it compiles to.
 Durations are whole nanoseconds; parsing a duration string is a parameter.
 */
module Backoff {
  import opened Collections
  import opened Strings

  const FIXED := "fixed"
  const EXPONENTIAL := "exponential"

  /** time.ParseDuration: None is its error. */
  type DurationParser = string -> Option<int>

  datatype BackoffConfig = BackoffConfig(strategy: string, baseDelay: string, maxDelay: string, multiplier: real)

  datatype RetryConfig = RetryConfig(maxAttempts: int, backoff: BackoffConfig)

  datatype RetryError = MaxAttemptsTooSmall | BadStrategy | BadBaseDelay | FixedTakesNoMaxDelay
                      | FixedTakesNoMultiplier | MultiplierBelowOne | BadMaxDelay | MaxDelayBelowBase

  /** base * m^n */
  function Scaled(base: real, m: real, n: nat): real {
    if n == 0 then base else m * Scaled(base, m, n - 1)
  }

  /** float-to-integer conversion drops the fraction. */
  function Truncate(x: real): int {
    if x >= 0.0 then x.Floor else -((-x).Floor)
  }

  function Multiplier(b: BackoffConfig): real {
    if b.multiplier == 0.0 then 2.0 else b.multiplier
  }

  function MaxDelay(b: BackoffConfig, parse: DurationParser): Option<int> {
    if b.maxDelay != "" then parse(b.maxDelay) else None
  }

  function Cap(d: int, max: Option<int>): int {
    if max.Some? && d > max.value then max.value else d
  }

  function ExponentialWait(base: int, m: real, max: Option<int>, n: nat): int {
    Cap(Truncate(Scaled(base as real, m, n)), max)
  }

  /** The wait before retry n, 0 being the first retry. */
  function Delay(c: Option<RetryConfig>, n: int, parse: DurationParser): int {
    if c.None? || n < 0 then 0
    else
      var b := c.value.backoff;
      var base := parse(b.baseDelay);
      if base.None? || base.value < 0 then 0
      else if b.strategy == FIXED then base.value
      else if b.strategy == EXPONENTIAL then
        ExponentialWait(base.value, Multiplier(b), MaxDelay(b, parse), n)
      else 0
  }

  function ValidateRetry(c: RetryConfig, parse: DurationParser): Option<RetryError> {
    var b := c.backoff;
    if c.maxAttempts < 1 then Some(MaxAttemptsTooSmall)
    else if b.strategy != FIXED && b.strategy != EXPONENTIAL then Some(BadStrategy)
    else if b.baseDelay == "" || parse(b.baseDelay).None? || parse(b.baseDelay).value < 0 then Some(BadBaseDelay)
    else if b.strategy == FIXED then
      if b.maxDelay != "" then Some(FixedTakesNoMaxDelay)
      else if b.multiplier != 0.0 then Some(FixedTakesNoMultiplier)
      else None
    else
      if b.multiplier != 0.0 && b.multiplier < 1.0 then Some(MultiplierBelowOne)
      else if b.maxDelay != "" && parse(b.maxDelay).None? then Some(BadMaxDelay)
      else if b.maxDelay != "" && parse(b.maxDelay).value < parse(b.baseDelay).value then Some(MaxDelayBelowBase)
      else None
  }

  function NormalizeRetry(c: Option<RetryConfig>, parse: DurationParser): Result<Option<RetryConfig>, RetryError> {
    if c.None? then Ok(None)
    else
      var b := c.value.backoff;
      var trimmed := BackoffConfig(TrimSpace(ToLower(b.strategy)), TrimSpace(b.baseDelay), TrimSpace(b.maxDelay),
                                   b.multiplier);
      var out := RetryConfig(c.value.maxAttempts, trimmed);
      match ValidateRetry(out, parse)
      case Some(e) => Err(e)
      case None =>
        if trimmed.strategy == EXPONENTIAL && trimmed.multiplier == 0.0
        then Ok(Some(RetryConfig(out.maxAttempts, trimmed.(multiplier := 2.0))))
        else Ok(Some(out))
  }

  lemma MulMonotone(a: real, x: real, y: real)
    requires a >= 0.0 && x <= y
    ensures a * x <= a * y
  {
  }

  lemma {:induction false} ScaledGrows(base: real, m: real, n: nat)
    requires base >= 0.0 && m >= 1.0
    ensures base <= Scaled(base, m, n) <= Scaled(base, m, n + 1)
  {
    if n > 0 {
      ScaledGrows(base, m, n - 1);
    }
    MulMonotone(Scaled(base, m, n), 1.0, m);
  }

  /** What validation leaves of a configuration: everything the delay computation relies on. */
  predicate Accepted(r: RetryConfig, parse: DurationParser) {
    var b := r.backoff;
    && r.maxAttempts >= 1
    && (b.strategy == FIXED || b.strategy == EXPONENTIAL)
    && parse(b.baseDelay).Some? && parse(b.baseDelay).value >= 0
    && (b.strategy == FIXED ==> b.maxDelay == "")
    && (b.strategy == EXPONENTIAL ==> b.multiplier >= 1.0)
    && (b.maxDelay != "" ==> parse(b.maxDelay).Some? && parse(b.maxDelay).value >= parse(b.baseDelay).value)
  }

  lemma NormalizedIsAccepted(c: Option<RetryConfig>, parse: DurationParser)
    requires NormalizeRetry(c, parse).Ok? && c.Some?
    ensures NormalizeRetry(c, parse).value.Some?
    ensures Accepted(NormalizeRetry(c, parse).value.value, parse)
  {
  }

  lemma CapMonotone(x: real, y: real, max: Option<int>)
    requires 0.0 <= x <= y
    ensures Cap(Truncate(x), max) <= Cap(Truncate(y), max)
    ensures Cap(Truncate(x), max) as real <= x
  {
  }

  lemma ExponentialWaitBounds(base: int, m: real, max: Option<int>, n: nat)
    requires base >= 0 && m >= 1.0 && (max.Some? ==> max.value >= base)
    ensures ExponentialWait(base, m, max, 0) == base
    ensures base <= ExponentialWait(base, m, max, n) <= ExponentialWait(base, m, max, n + 1)
    ensures ExponentialWait(base, m, max, n) as real <= Scaled(base as real, m, n)
    ensures max.Some? ==> ExponentialWait(base, m, max, n) <= max.value
  {
    var b := base as real;
    ScaledGrows(b, m, n);
    CapMonotone(b, Scaled(b, m, n), max);
    CapMonotone(Scaled(b, m, n), Scaled(b, m, n + 1), max);
  }

  /** t is x without its fraction. */
  predicate IsWholePart(t: int, x: real) {
    if x >= 0.0 then t as real <= x < t as real + 1.0 else t as real - 1.0 < x <= t as real
  }

  lemma TruncatesToWholePart(x: real)
    ensures IsWholePart(Truncate(x), x)
  {
  }

  /** d is x without its fraction, or the configured maximum when that parses and is less. */
  ghost predicate IsCapped(d: int, x: real, b: BackoffConfig, parse: DurationParser) {
    exists t :: IsWholePart(t, x) &&
      if b.maxDelay != "" && parse(b.maxDelay).Some? && t > parse(b.maxDelay).value
      then d == parse(b.maxDelay).value else d == t
  }

  lemma ExponentialWaitIs(base: int, m: real, n: nat, b: BackoffConfig, parse: DurationParser)
    ensures IsCapped(ExponentialWait(base, m, MaxDelay(b, parse), n), Scaled(base as real, m, n), b, parse)
  {
    TruncatesToWholePart(Scaled(base as real, m, n));
  }

  /**
   The wait before retry n: the base when fixed; when exponential the base times the multiplier, 2 by default, to the n,
   without its fraction, but no more than a maximum that parses; nothing without a base or with another strategy.
   */
  lemma DelayIs(r: RetryConfig, parse: DurationParser, n: nat)
    ensures var b, d, base := r.backoff, Delay(Some(r), n, parse), parse(r.backoff.baseDelay);
            if base.None? || base.value < 0 || (b.strategy != "fixed" && b.strategy != "exponential") then d == 0
            else if b.strategy == "fixed" then d == base.value
            else IsCapped(d, Scaled(base.value as real, if b.multiplier == 0.0 then 2.0 else b.multiplier, n), b, parse)
    ensures Delay(None, n, parse) == 0
  {
    var b, base := r.backoff, parse(r.backoff.baseDelay);
    if base.Some? && base.value >= 0 {
      ExponentialWaitIs(base.value, Multiplier(b), n, b, parse);
    }
  }

  /** A configuration is sound: at least one attempt, a base, and bounds that fit the strategy. */
  predicate IsSound(c: RetryConfig, parse: DurationParser) {
    var b := c.backoff;
    && c.maxAttempts >= 1 && b.baseDelay != "" && parse(b.baseDelay).Some? && parse(b.baseDelay).value >= 0
    && ((b.strategy == "fixed" && b.maxDelay == "" && b.multiplier == 0.0) ||
        (b.strategy == "exponential" && (b.multiplier == 0.0 || b.multiplier >= 1.0) &&
         (b.maxDelay == "" || (parse(b.maxDelay).Some? && parse(b.maxDelay).value >= parse(b.baseDelay).value))))
  }

  lemma ValidIffSound(c: RetryConfig, parse: DurationParser)
    ensures ValidateRetry(c, parse).None? <==> IsSound(c, parse)
  {
    assert FIXED[0] != EXPONENTIAL[0];
  }

  /** Normalization succeeds exactly on what is sound once trimmed, and fills in no more than the multiplier. */
  lemma NormalizesIff(r: RetryConfig, parse: DurationParser)
    ensures var b, out := r.backoff, NormalizeRetry(Some(r), parse);
            var trimmed := BackoffConfig(TrimSpace(ToLower(b.strategy)), TrimSpace(b.baseDelay), TrimSpace(b.maxDelay),
                                         b.multiplier);
            && (out.Ok? <==> IsSound(RetryConfig(r.maxAttempts, trimmed), parse))
            && (out.Ok? ==>
                  out.value == Some(RetryConfig(r.maxAttempts,
                    if trimmed.strategy == "exponential" && b.multiplier == 0.0 then trimmed.(multiplier := 2.0)
                    else trimmed)))
    ensures NormalizeRetry(None, parse) == Ok(None)
  {
    var b := r.backoff;
    var trimmed := BackoffConfig(TrimSpace(ToLower(b.strategy)), TrimSpace(b.baseDelay), TrimSpace(b.maxDelay),
                                 b.multiplier);
    ValidIffSound(RetryConfig(r.maxAttempts, trimmed), parse);
  }

  /** Every wait is bounded below by zero and the base, above by the maximum, and the waits grow. */
  lemma DelayBounds(r: RetryConfig, parse: DurationParser, n: nat)
    requires Accepted(r, parse)
    ensures 0 <= parse(r.backoff.baseDelay).value == Delay(Some(r), 0, parse) <= Delay(Some(r), n, parse)
    ensures Delay(Some(r), n, parse) <= Delay(Some(r), n + 1, parse)
    ensures r.backoff.maxDelay != "" ==> Delay(Some(r), n, parse) <= parse(r.backoff.maxDelay).value
  {
    var b := r.backoff;
    if b.strategy == EXPONENTIAL {
      ExponentialWaitBounds(parse(b.baseDelay).value, b.multiplier, MaxDelay(b, parse), n);
    }
  }

  /** Total wait of the first k retries of one target. */
  function WaitSum(c: Option<RetryConfig>, k: nat, parse: DurationParser): int {
    if k == 0 then 0 else WaitSum(c, k - 1, parse) + Delay(c, k - 1, parse)
  }

  /** Total of the first k exponential waits. */
  function ExponentialSum(base: int, m: real, max: Option<int>, k: nat): int {
    if k == 0 then 0 else ExponentialSum(base, m, max, k - 1) + ExponentialWait(base, m, max, k - 1)
  }

  /** base + base * m + ... + base * m^(k - 1) */
  function Series(base: real, m: real, k: nat): real {
    if k == 0 then 0.0 else Series(base, m, k - 1) + Scaled(base, m, k - 1)
  }

  lemma {:induction false} SeriesClosedForm(base: real, m: real, k: nat)
    ensures (m - 1.0) * Series(base, m, k) == Scaled(base, m, k) - base
  {
    if k > 0 {
      var s, x := Series(base, m, k - 1), Scaled(base, m, k - 1);
      SeriesClosedForm(base, m, k - 1);
      assert (m - 1.0) * (s + x) == (m - 1.0) * s + (m * x - x);
    }
  }

  /** Exponential waits add up to at most the geometric series. */
  lemma {:induction false} WaitsBelowSeries(base: int, m: real, max: Option<int>, k: nat)
    requires base >= 0 && m >= 1.0 && (max.Some? ==> max.value >= base)
    ensures ExponentialSum(base, m, max, k) as real <= Series(base as real, m, k)
  {
    if k > 0 {
      WaitsBelowSeries(base, m, max, k - 1);
      ExponentialWaitBounds(base, m, max, k - 1);
    }
  }

  lemma {:induction false} WaitSumIsExponential(r: RetryConfig, parse: DurationParser, k: nat)
    requires Accepted(r, parse) && r.backoff.strategy == EXPONENTIAL
    ensures WaitSum(Some(r), k, parse)
         == ExponentialSum(parse(r.backoff.baseDelay).value, r.backoff.multiplier, MaxDelay(r.backoff, parse), k)
  {
    if k > 0 {
      WaitSumIsExponential(r, parse, k - 1);
    }
  }

  /** However capped, exponential waits of one target stay below the series. */
  lemma WaitSumBelowSeries(r: RetryConfig, parse: DurationParser, k: nat)
    requires Accepted(r, parse) && r.backoff.strategy == EXPONENTIAL
    ensures WaitSum(Some(r), k, parse) as real
         <= Series(parse(r.backoff.baseDelay).value as real, r.backoff.multiplier, k)
  {
    WaitSumIsExponential(r, parse, k);
    WaitsBelowSeries(parse(r.backoff.baseDelay).value, r.backoff.multiplier, MaxDelay(r.backoff, parse), k);
  }

  lemma TimesStep(k: nat, s: int, d: int, e: int)
    requires k > 0 && s <= (k - 1) * d && d <= e
    ensures s + d <= k * e
  {
    assert (k - 1) * d + d == k * d;
    assert k * (e - d) >= 0;
  }

  /** No k waits exceed k times the next one. */
  lemma {:induction false} WaitSumBound(r: RetryConfig, parse: DurationParser, k: nat)
    requires Accepted(r, parse)
    ensures 0 <= WaitSum(Some(r), k, parse) <= k * Delay(Some(r), k, parse)
  {
    if k > 0 {
      WaitSumBound(r, parse, k - 1);
      DelayBounds(r, parse, k - 1);
      TimesStep(k, WaitSum(Some(r), k - 1, parse), Delay(Some(r), k - 1, parse), Delay(Some(r), k, parse));
    }
  }
}
