/** What to do about the provider error that ended a run, and how long to wait first. */
module RetryPolicy {
  import opened Protocol

  datatype RetryConfig = RetryConfig(
    maxRetries: nat, initialDelayMs: nat, maxDelayMs: nat, backoffMultiplier: real, jitter: bool)

  const MAX_RATE_LIMIT_RETRIES: nat := 1
  const MAX_MODEL_OUTPUT_MALFORMED_RETRIES: nat := 2
  const RATE_LIMIT_FALLBACK_DELAY_MS: nat := 15000
  const RATE_LIMIT_MIN_DELAY_MS: nat := 2000

  datatype GiveUpReason = Terminal | AlreadyCompacted | AttemptsExhausted | CompactionBudgetExhausted

  datatype RetryDecision = Retry(attempt: nat) | Compact | GiveUp(reason: GiveUpReason)

  function Min(a: nat, b: nat): nat {
    if a < b then a else b
  }

  function RetryBelow(attempt: nat, cap: nat): RetryDecision {
    if attempt >= cap then GiveUp(AttemptsExhausted) else Retry(attempt + 1)
  }

  predicate RetryableStatus(status: nat) {
    status == 429 || status == 500 || status == 502 || status == 503 || status == 529
  }

  function Decide(maxRetries: nat, error: ProviderError, attempt: nat, alreadyCompacted: bool, budget: nat)
    : RetryDecision
  {
    match error
    case ContextOverflow(_) =>
      if alreadyCompacted then GiveUp(AlreadyCompacted)
      else if budget == 0 then GiveUp(CompactionBudgetExhausted)
      else Compact
    case Auth(_) => GiveUp(Terminal)
    case RequestBuild(_) => GiveUp(Terminal)
    case ToolCallMalformed(_) => GiveUp(Terminal)
    case NativeReasoningUnsupported(_) => GiveUp(Terminal)
    case UnsupportedStreamFeature(_) => GiveUp(Terminal)
    case ReplayFidelity(_, _) => GiveUp(Terminal)
    case FeatureUnsupported(_) => GiveUp(Terminal)
    case EmptyAssistantResponse => GiveUp(Terminal)
    case ResponseTruncated => GiveUp(Terminal)
    case ModelLoadResources(_, _) => GiveUp(Terminal)
    case RateLimited(_) => RetryBelow(attempt, Min(MAX_RATE_LIMIT_RETRIES, maxRetries))
    case Transport(_) => RetryBelow(attempt, maxRetries)
    case InvalidStreamJson(_) => RetryBelow(attempt, maxRetries)
    case MalformedStreamEvent(_) => RetryBelow(attempt, maxRetries)
    case ModelOutputMalformed(_) => RetryBelow(attempt, Min(MAX_MODEL_OUTPUT_MALFORMED_RETRIES, maxRetries))
    case Http(status, _) =>
      if RetryableStatus(status) && attempt < maxRetries then Retry(attempt + 1)
      else GiveUp(if attempt >= maxRetries then AttemptsExhausted else Terminal)
  }

  /** How many retries an error may have in all. */
  function RetryCap(maxRetries: nat, error: ProviderError): nat {
    if error.RateLimited? then Min(1, maxRetries)
    else if error.ModelOutputMalformed? then Min(2, maxRetries)
    else if error.Transport? || error.InvalidStreamJson? || error.MalformedStreamEvent? then maxRetries
    else if error.Http? && error.status in {429, 500, 502, 503, 529} then maxRetries
    else 0
  }

  /** The policy retries exactly below the error's cap, and compacts exactly on a first
      overflow with budget left; so every retry and every compaction uses something up. */
  lemma DecideUsesUpAllowance(
    maxRetries: nat, error: ProviderError, attempt: nat, alreadyCompacted: bool, budget: nat)
    ensures var decision := Decide(maxRetries, error, attempt, alreadyCompacted, budget);
            && (decision.Retry? <==> attempt < RetryCap(maxRetries, error))
            && (decision.Retry? ==> decision.attempt == attempt + 1 <= maxRetries)
            && (decision.Compact? <==> error.ContextOverflow? && !alreadyCompacted && budget > 0)
            && (decision == GiveUp(AttemptsExhausted) ==>
                  attempt >= RetryCap(maxRetries, error) && !error.ContextOverflow?)
            && (decision == GiveUp(Terminal) ==> RetryCap(maxRetries, error) == 0 && !error.ContextOverflow?)
  {
  }

  /** Why the policy gives up: an overflow that compaction has not helped or cannot, retries that
      are used up, or an error not worth one. */
  lemma GivesUpBecause(maxRetries: nat, error: ProviderError, attempt: nat, alreadyCompacted: bool, budget: nat)
    ensures var decision := Decide(maxRetries, error, attempt, alreadyCompacted, budget);
            && (decision == GiveUp(AlreadyCompacted) <==> error.ContextOverflow? && alreadyCompacted)
            && (decision == GiveUp(CompactionBudgetExhausted) <==>
                  error.ContextOverflow? && !alreadyCompacted && budget == 0)
            && (decision == GiveUp(AttemptsExhausted) <==>
                  || (error.Http? && attempt >= maxRetries)
                  || ((error.RateLimited? || error.Transport? || error.InvalidStreamJson?
                       || error.MalformedStreamEvent? || error.ModelOutputMalformed?)
                      && attempt >= RetryCap(maxRetries, error)))
  {
  }

  // ----- Delays -----

  function Backoff(initial: real, multiplier: real, exponent: nat): real {
    if exponent == 0 then initial else Backoff(initial, multiplier, exponent - 1) * multiplier
  }

  function Truncate(value: real): nat {
    if value < 0.0 then 0 else value.Floor
  }

  /** The delay before jitter and clamping: what the provider asked for, or the backoff. */
  function BaseDelay(config: RetryConfig, error: ProviderError, attempt: nat): nat {
    if error.RateLimited? then
      var asked := if error.retryAfterMs.Some? then error.retryAfterMs.value else RATE_LIMIT_FALLBACK_DELAY_MS;
      if asked < RATE_LIMIT_MIN_DELAY_MS then RATE_LIMIT_MIN_DELAY_MS else asked
    else
      var exponent := if attempt == 0 then 0 else attempt - 1;
      Truncate(Backoff(config.initialDelayMs as real, config.backoffMultiplier, exponent))
  }

  /** `initial` multiplied `n` times. */
  function Scaled(initial: real, multiplier: real, n: nat): real {
    initial * Power(multiplier, n)
  }

  function Power(base: real, n: nat): real {
    if n == 0 then 1.0 else base * Power(base, n - 1)
  }

  lemma {:induction false} BackoffIsScaled(initial: real, multiplier: real, n: nat)
    ensures Backoff(initial, multiplier, n) == Scaled(initial, multiplier, n)
  {
    if n > 0 {
      BackoffIsScaled(initial, multiplier, n - 1);
      var power := Power(multiplier, n - 1);
      assert initial * (multiplier * power) == initial * power * multiplier;
    }
  }

  /** A rate limit waits as long as it was asked to, at least 2 s, and 15 s if it was not. */
  lemma RateLimitDelayIs(config: RetryConfig, error: ProviderError, attempt: nat)
    requires error.RateLimited?
    ensures BaseDelay(config, error, attempt) ==
              match error.retryAfterMs
              case None => 15000
              case Some(asked) => if asked < 2000 then 2000 else asked
  {
  }

  /** Other errors wait the initial delay for the first retry, multiplied once for each further
      one. */
  lemma BackoffDelayIs(config: RetryConfig, error: ProviderError, attempt: nat)
    requires !error.RateLimited?
    ensures var n := if attempt <= 1 then 0 else attempt - 1;
            var exact := Scaled(config.initialDelayMs as real, config.backoffMultiplier, n);
            BaseDelay(config, error, attempt) == if exact < 0.0 then 0 else exact.Floor
  {
    BackoffIsScaled(config.initialDelayMs as real, config.backoffMultiplier, if attempt <= 1 then 0 else attempt - 1);
  }

  lemma QuarterIsFloor(n: nat)
    ensures Truncate(n as real * 0.25) == n / 4
  {
    var q, r := n / 4, n % 4;
    assert n as real * 0.25 == q as real + r as real * 0.25;
  }

  /** The delay stays within a quarter of the clamped base, and is exactly the clamped base
      without jitter. `random` is the random number drawn. */
  method RetryDelayMs(config: RetryConfig, error: ProviderError, attempt: nat, random: nat) returns (delay: nat)
    ensures var clamped := Min(BaseDelay(config, error, attempt), config.maxDelayMs);
            && clamped - clamped / 4 <= delay <= clamped + clamped / 4
            && (!config.jitter ==> delay == clamped)
  {
    var base;
    if error.RateLimited? {
      base := if error.retryAfterMs.Some? then error.retryAfterMs.value else RATE_LIMIT_FALLBACK_DELAY_MS;
      if base < RATE_LIMIT_MIN_DELAY_MS {
        base := RATE_LIMIT_MIN_DELAY_MS;
      }
    } else {
      var exponent := if attempt == 0 then 0 else attempt - 1;
      var value := config.initialDelayMs as real;
      for i := 0 to exponent
        invariant value == Backoff(config.initialDelayMs as real, config.backoffMultiplier, i)
      {
        value := value * config.backoffMultiplier;
      }
      base := Truncate(value);
    }
    var clamped := Min(base, config.maxDelayMs);
    if !config.jitter {
      return clamped;
    }
    var jitter := Truncate(clamped as real * 0.25);
    QuarterIsFloor(clamped);
    if jitter == 0 {
      return clamped;
    }
    var offset := random % (jitter * 2 + 1);
    delay := clamped - jitter + offset;
  }
}
