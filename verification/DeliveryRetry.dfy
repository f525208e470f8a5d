/** Retry arithmetic of webhook deliveries (backend/src/webhooks/delivery-retry.util.ts). */
module DeliveryRetry {
  import opened Wrappers

  const INITIAL_RETRY_DELAY_MS := 60_000
  const MAX_RETRY_DELAY_MS := 30 * 60_000
  const MAX_DELIVERY_ATTEMPTS := 5

  datatype RetryError = AttemptCountNotPositive

  function Pow2(n: nat): (p: nat)
    ensures p >= 1
  {
    if n == 0 then 1 else 2 * Pow2(n - 1)
  }

  /** The delay once the argument check has passed. */
  function RetryDelay(attemptCount: nat): (delay: int)
    requires attemptCount >= 1
    ensures INITIAL_RETRY_DELAY_MS <= delay <= MAX_RETRY_DELAY_MS
  {
    var exponentialDelay := INITIAL_RETRY_DELAY_MS * Pow2(attemptCount - 1);
    if exponentialDelay < MAX_RETRY_DELAY_MS then exponentialDelay else MAX_RETRY_DELAY_MS
  }

  function CalculateNextWebhookRetryDelayMs(attemptCount: int): (r: Result<int, RetryError>)
    ensures r.Success? <==> attemptCount >= 1
    ensures r.Success? ==> INITIAL_RETRY_DELAY_MS <= r.value <= MAX_RETRY_DELAY_MS
  {
    if attemptCount < 1 then Failure(AttemptCountNotPositive) else Success(RetryDelay(attemptCount))
  }

  function CalculateNextWebhookAttemptAt(baseTime: int, attemptCount: int): (r: Result<int, RetryError>)
    ensures r.Success? ==> baseTime + INITIAL_RETRY_DELAY_MS <= r.value <= baseTime + MAX_RETRY_DELAY_MS
  {
    match CalculateNextWebhookRetryDelayMs(attemptCount)
    case Failure(error) => Failure(error)
    case Success(delay) => Success(baseTime + delay)
  }

  function ShouldAbandonWebhookDelivery(attemptCount: int): (r: Result<bool, RetryError>)
    ensures r.Success? <==> attemptCount >= 1
    ensures r.Success? ==> (r.value <==> attemptCount >= MAX_DELIVERY_ATTEMPTS)
  {
    if attemptCount < 1 then Failure(AttemptCountNotPositive)
    else Success(attemptCount >= MAX_DELIVERY_ATTEMPTS)
  }

  lemma {:induction false} Pow2Monotone(m: nat, n: nat)
    requires m <= n
    ensures Pow2(m) <= Pow2(n)
    decreases n
  {
    if m < n {
      Pow2Monotone(m, n - 1);
    }
  }

  /** The delay never shrinks from one attempt to a later one, doubles up to the fifth attempt and is
      capped from the sixth on. */
  lemma RetryDelayShape(m: nat, n: nat)
    requires 1 <= m <= n
    ensures RetryDelay(m) <= RetryDelay(n)
    ensures n <= 5 ==> RetryDelay(n) == INITIAL_RETRY_DELAY_MS * Pow2(n - 1)
    ensures n >= 6 <==> RetryDelay(n) == MAX_RETRY_DELAY_MS
  {
    Pow2Monotone(m - 1, n - 1);
    assert Pow2(4) == 16 && Pow2(5) == 32;
    if n <= 5 {
      Pow2Monotone(n - 1, 4);
    } else {
      Pow2Monotone(5, n - 1);
    }
  }
}
