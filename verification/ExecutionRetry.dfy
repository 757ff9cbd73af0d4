// Retry policy, backoff delays and the per-step attempt counters.
module ExecutionRetry {
  import opened Basics

  datatype Strategy = NoRetry | Fixed | ExponentialBackoff

  datatype RetryPolicy = RetryPolicy(
    strategy: Strategy,
    maxAttempts: int,
    baseDelayMs: real,
    maxDelayMs: real,
    multiplier: real,
    retryOn: seq<string>)

  predicate IsRetryable(errorCode: Option<string>, policy: RetryPolicy) {
    policy.strategy != NoRetry && errorCode.Some? && errorCode.value in policy.retryOn
  }

  function Pow(x: real, n: nat): real {
    if n == 0 then 1.0 else x * Pow(x, n - 1)
  }

  function RetryDelay(attempt: nat, policy: RetryPolicy): real
    requires attempt >= 1
  {
    match policy.strategy
    case NoRetry => 0.0
    case Fixed => policy.baseDelayMs
    case ExponentialBackoff =>
      var delay := policy.baseDelayMs * Pow(policy.multiplier, attempt - 1);
      if delay <= policy.maxDelayMs then delay else policy.maxDelayMs
  }

  function AttemptsOf(attempts: map<string, nat>, id: string): nat {
    if id in attempts then attempts[id] else 0
  }

  predicate ShouldRetry(attempts: map<string, nat>, policy: RetryPolicy, id: string, errorCode: Option<string>) {
    && policy.strategy != NoRetry
    && AttemptsOf(attempts, id) + 1 <= policy.maxAttempts
    && IsRetryable(errorCode, policy)
  }

  ghost function SumAttempts(attempts: map<string, nat>): nat {
    SumValues(attempts)
  }

  lemma {:induction false} SumAttemptsUpdate(attempts: map<string, nat>, id: string, n: nat)
    ensures SumAttempts(attempts[id := n]) == SumAttempts(attempts) - AttemptsOf(attempts, id) + n
  {
    SumValuesRemove(attempts[id := n], id);
    assert attempts[id := n] - {id} == attempts - {id};
    if id in attempts {
      SumValuesRemove(attempts, id);
    } else {
      assert attempts - {id} == attempts;
    }
  }

  // ---- Backoff -----------------------------------------------------------

  lemma {:induction false} PowGrows(x: real, n: nat)
    requires x >= 1.0
    ensures 1.0 <= Pow(x, n) <= Pow(x, n + 1)
  {
    if n > 0 {
      PowGrows(x, n - 1);
    }
  }

  lemma {:induction false} ScaleMonotone(x: real, p: real, q: real)
    requires x >= 0.0 && p <= q
    ensures x * p <= x * q
  {
    assert x * (q - p) >= 0.0;
  }

  lemma {:induction false} NextDelay(policy: RetryPolicy, a: nat)
    requires policy.multiplier >= 1.0 && policy.baseDelayMs >= 0.0 && a >= 1
    ensures RetryDelay(a, policy) <= RetryDelay(a + 1, policy)
  {
    PowGrows(policy.multiplier, a - 1);
    ScaleMonotone(policy.baseDelayMs, Pow(policy.multiplier, a - 1), Pow(policy.multiplier, a));
  }

  // The first wait is the base delay under the cap; each next one is the last one times the multiplier, until the
  // cap is reached.  Without backoff all waits are the same.
  lemma {:induction false} DelayGrowth(policy: RetryPolicy, a: nat)
    requires a >= 1
    ensures policy.strategy == NoRetry ==> RetryDelay(a, policy) == 0.0
    ensures policy.strategy == Fixed ==> RetryDelay(a, policy) == policy.baseDelayMs
    ensures policy.strategy == ExponentialBackoff ==>
      && RetryDelay(1, policy) == MinReal(policy.baseDelayMs, policy.maxDelayMs)
      && RetryDelay(a, policy) <= policy.maxDelayMs
      && (RetryDelay(a, policy) < policy.maxDelayMs ==>
            RetryDelay(a + 1, policy) == MinReal(RetryDelay(a, policy) * policy.multiplier, policy.maxDelayMs))
      && (RetryDelay(a, policy) == policy.maxDelayMs && policy.multiplier >= 1.0 && policy.baseDelayMs >= 0.0 ==>
            RetryDelay(a + 1, policy) == policy.maxDelayMs)
  {
    assert Pow(policy.multiplier, 0) == 1.0;
    assert Pow(policy.multiplier, a) == policy.multiplier * Pow(policy.multiplier, a - 1);
    if policy.multiplier >= 1.0 && policy.baseDelayMs >= 0.0 {
      NextDelay(policy, a);
    }
  }

  function MinReal(x: real, y: real): real {
    if x <= y then x else y
  }

  // With a multiplier of at least one the wait never gets shorter from one attempt to a later one.
  lemma {:induction false} DelaysNeverDecrease(policy: RetryPolicy, a: nat, b: nat)
    requires policy.multiplier >= 1.0 && policy.baseDelayMs >= 0.0
    requires 1 <= a <= b
    ensures RetryDelay(a, policy) <= RetryDelay(b, policy)
    decreases b - a
  {
    if a < b {
      NextDelay(policy, a);
      DelaysNeverDecrease(policy, a + 1, b);
    }
  }

  // maxDelayMs caps every delay exactly unless the fixed strategy, which never looks at it, waits longer.
  lemma {:induction false} DelayCap(policy: RetryPolicy)
    requires policy.maxDelayMs >= 0.0
    ensures (forall a: nat :: a >= 1 ==> RetryDelay(a, policy) <= policy.maxDelayMs)
         <==> !(policy.strategy == Fixed && policy.baseDelayMs > policy.maxDelayMs)
  {
    if policy.strategy == Fixed && policy.baseDelayMs > policy.maxDelayMs {
      assert RetryDelay(1, policy) > policy.maxDelayMs;
    } else {
      forall a: nat | a >= 1
        ensures RetryDelay(a, policy) <= policy.maxDelayMs
      {
      }
    }
  }

  // Total sleep after the first `n` recorded attempts.
  function DelaySum(policy: RetryPolicy, n: nat): real {
    if n == 0 then 0.0 else DelaySum(policy, n - 1) + RetryDelay(n, policy)
  }

  lemma {:induction false} DelaySumBound(policy: RetryPolicy, n: nat, cap: real)
    requires forall a: nat :: a >= 1 ==> RetryDelay(a, policy) <= cap
    ensures DelaySum(policy, n) <= n as real * cap
  {
    if n > 0 {
      DelaySumBound(policy, n - 1, cap);
      assert n as real * cap == (n - 1) as real * cap + cap;
    }
  }

  datatype RetryState = RetryState(stepId: string, attempt: nat, maxAttempts: int, exhausted: bool, nextDelayMs: real)

  class RetryManager {
    const policy: RetryPolicy
    var retryStates: map<string, RetryState>

    constructor (policy: RetryPolicy)
      ensures this.policy == policy && retryStates == map[] && Attempts() == map[]
    {
      this.policy := policy;
      retryStates := map[];
    }

    // How often each step has been retried.
    function Attempts(): map<string, nat>
      reads this
    {
      map id | id in retryStates :: retryStates[id].attempt
    }

    method RecordAttempt(id: string) returns (delayMs: real, attempt: nat, exhausted: bool)
      modifies this
      ensures attempt == AttemptsOf(old(Attempts()), id) + 1
      ensures delayMs == RetryDelay(attempt, policy)
      ensures exhausted <==> attempt >= policy.maxAttempts
      ensures retryStates == old(retryStates)[
        id := RetryState(id, attempt, policy.maxAttempts, exhausted, RetryDelay(attempt + 1, policy))]
      ensures Attempts() == old(Attempts())[id := attempt]
    {
      attempt := (if id in retryStates then retryStates[id].attempt else 0) + 1;
      exhausted := attempt >= policy.maxAttempts;
      delayMs := RetryDelay(attempt, policy);
      var state := RetryState(id, attempt, policy.maxAttempts, exhausted, RetryDelay(attempt + 1, policy));
      retryStates := retryStates[id := state];
    }

    method GetTotalAttempts() returns (total: nat)
      ensures total == SumAttempts(Attempts())
    {
      total := 0;
      var left := Attempts();
      while left != map[]
        invariant total + SumAttempts(left) == SumAttempts(Attempts())
        decreases left.Keys
      {
        var id :| id in left;
        SumValuesRemove(left, id);
        total := total + left[id];
        left := left - {id};
      }
    }
  }
}
