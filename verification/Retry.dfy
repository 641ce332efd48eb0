/** Classified Drive call failures and the retry loop around idempotent calls. A stateful call is
    given by its replies: `replies(k)` is what the k-th call answers. */
module Retrying {
  import opened Core

  datatype CallError = Transient(msg: string) | BadRequest(msg: string) | Permanent(error: Error) {
    function IntoError(): Error {
      match this
      case Transient(msg) => Unavailable(msg)
      case BadRequest(msg) => Storage(msg)
      case Permanent(error) => error
    }
  }

  datatype CallResult<+T> = Ok(value: T) | Err(error: CallError)

  const RATE_LIMIT_REASONS: set<string> := {"rateLimitExceeded", "userRateLimitExceeded"}

  function ClassifyStatus(status: nat, reason: Option<string>, msg: string): CallError {
    if status == 400 then BadRequest(msg)
    else if status == 404 then Permanent(NotFound(msg))
    else if status == 429 || 500 <= status <= 599 then Transient(msg)
    else if status == 403 && reason.Some? && reason.value in RATE_LIMIT_REASONS then Transient(msg)
    else Permanent(Storage(msg))
  }

  datatype RetryPolicy = RetryPolicy(attempts: nat, baseDelay: nat, maxDelay: nat)

  function Min(a: nat, b: nat): nat {
    if a <= b then a else b
  }

  function Pow2(n: nat): nat {
    if n == 0 then 1 else 2 * Pow2(n - 1)
  }

  /** How often a call is tried at most; a policy of zero attempts still calls once. */
  function MaxCalls(policy: RetryPolicy): nat {
    if policy.attempts == 0 then 1 else policy.attempts
  }

  predicate IsTransient<T>(reply: CallResult<T>) {
    reply.Err? && reply.error.Transient?
  }

  function FinalResult<T>(reply: CallResult<T>): Result<T> {
    match reply
    case Ok(value) => Success(value)
    case Err(error) => Failure(error.IntoError())
  }

  /** The index of the last call: the first one that is not answered transiently, or the last allowed. */
  function LastCall<T>(policy: RetryPolicy, replies: nat -> CallResult<T>, from: nat := 0): (k: nat)
    requires from < MaxCalls(policy)
    ensures from <= k < MaxCalls(policy)
    ensures forall j :: from <= j < k ==> IsTransient(replies(j))
    ensures IsTransient(replies(k)) ==> k == MaxCalls(policy) - 1
    decreases MaxCalls(policy) - from
  {
    if IsTransient(replies(from)) && from + 1 < MaxCalls(policy) then LastCall(policy, replies, from + 1) else from
  }

  function RetryResult<T>(policy: RetryPolicy, replies: nat -> CallResult<T>): Result<T> {
    FinalResult(replies(LastCall(policy, replies)))
  }

  /** The only index with the three properties of `LastCall`. */
  lemma LastCallUnique<T>(policy: RetryPolicy, replies: nat -> CallResult<T>, k: nat)
    requires k < MaxCalls(policy)
    requires forall j :: 0 <= j < k ==> IsTransient(replies(j))
    requires IsTransient(replies(k)) ==> k == MaxCalls(policy) - 1
    ensures LastCall(policy, replies) == k
  {
    var l := LastCall(policy, replies);
    assert k < l ==> IsTransient(replies(k));
  }

  /** Statuses worth another attempt: overload, server errors, and the two rate limits among the 403s. */
  predicate Retryable(status: nat, reason: Option<string>) {
    || status == 429 || 500 <= status <= 599
    || (status == 403 && reason in {Some("rateLimitExceeded"), Some("userRateLimitExceeded")})
  }

  /** A server that keeps answering with one status is asked as often as allowed and then reported as
      unavailable when the status is retryable; any other status ends the run after one call, a missing
      file as not found and the rest as a storage error. */
  lemma StatusDecidesRetry<T>(policy: RetryPolicy, replies: nat -> CallResult<T>, status: nat, reason: Option<string>,
                              msg: string)
    requires forall k :: replies(k) == Err(ClassifyStatus(status, reason, msg))
    ensures LastCall(policy, replies) + 1 == if Retryable(status, reason) then MaxCalls(policy) else 1
    ensures RetryResult(policy, replies)
         == Failure(if Retryable(status, reason) then Unavailable(msg)
                    else if status == 404 then NotFound(msg) else Storage(msg))
  {
    var last := if Retryable(status, reason) then MaxCalls(policy) - 1 else 0;
    assert replies(last) == Err(ClassifyStatus(status, reason, msg));
    LastCallUnique(policy, replies, last);
  }

  /** Length of the i-th pause, in closed form. */
  function Pause(policy: RetryPolicy, i: nat): nat {
    if i == 0 then policy.baseDelay else Min(policy.baseDelay * Pow2(i), policy.maxDelay)
  }

  /** Doubling the previous pause under the cap gives the next one. */
  lemma PauseDoubles(policy: RetryPolicy, i: nat)
    ensures Pause(policy, i + 1) == Min(Pause(policy, i) * 2, policy.maxDelay)
  {
    var p := policy.baseDelay * Pow2(i);
    assert policy.baseDelay * Pow2(i + 1) == p * 2;
    if i == 0 {
      assert Pow2(0) == 1;
    }
  }

  function Doubled(policy: RetryPolicy, delay: nat): nat {
    if delay * 2 <= policy.maxDelay then delay * 2 else policy.maxDelay
  }

  /** The loop: one call after another, sleeping between transient failures. */
  method Retry<T>(policy: RetryPolicy, replies: nat -> CallResult<T>)
    returns (result: Result<T>, calls: nat, sleeps: seq<nat>)
    ensures 1 <= calls && (calls <= policy.attempts || calls == 1) && |sleeps| == calls - 1
    ensures forall j :: 0 <= j < calls - 1 ==> IsTransient(replies(j))
    ensures IsTransient(replies(calls - 1)) ==> calls == if policy.attempts > 1 then policy.attempts else 1
    ensures result == RetryResult(policy, replies)
    ensures match replies(calls - 1)
            case Ok(value) => result == Success(value)
            case Err(Transient(msg)) => result == Failure(Unavailable(msg))
            case Err(BadRequest(msg)) => result == Failure(Storage(msg))
            case Err(Permanent(error)) => result == Failure(error)
    ensures forall i :: 0 <= i < |sleeps| ==> sleeps[i] == Pause(policy, i)
    ensures sleeps != [] ==> sleeps[0] == policy.baseDelay
    ensures forall i :: 0 < i < |sleeps| ==>
              sleeps[i] == if sleeps[i - 1] * 2 <= policy.maxDelay then sleeps[i - 1] * 2 else policy.maxDelay
  {
    var delay := policy.baseDelay;
    var attempt := 1;
    calls, sleeps := 0, [];
    while true
      invariant attempt == calls + 1 && calls < MaxCalls(policy)
      invariant |sleeps| == calls && delay == Pause(policy, calls)
      invariant forall j :: 0 <= j < calls ==> IsTransient(replies(j))
      invariant forall i :: 0 <= i < |sleeps| ==> sleeps[i] == Pause(policy, i)
      invariant sleeps == [] ==> delay == policy.baseDelay
      invariant sleeps != [] ==> sleeps[0] == policy.baseDelay && delay == Doubled(policy, sleeps[|sleeps| - 1])
      invariant forall i :: 0 < i < |sleeps| ==> sleeps[i] == Doubled(policy, sleeps[i - 1])
      decreases MaxCalls(policy) - calls
    {
      var reply := replies(calls);
      calls := calls + 1;
      if !IsTransient(reply) || attempt >= policy.attempts {
        LastCallUnique(policy, replies, calls - 1);
        return FinalResult(reply), calls, sleeps;
      }
      sleeps := sleeps + [delay];
      PauseDoubles(policy, calls - 1);
      delay := Min(delay * 2, policy.maxDelay);
      attempt := attempt + 1;
    }
  }

  function Sum(xs: seq<nat>): nat {
    if xs == [] then 0 else xs[0] + Sum(xs[1..])
  }

  lemma {:induction false} SumBound(xs: seq<nat>, bound: nat)
    requires forall i :: 0 <= i < |xs| ==> xs[i] <= bound
    ensures Sum(xs) <= |xs| * bound
  {
    if xs != [] {
      SumBound(xs[1..], bound);
      assert |xs| * bound == |xs[1..]| * bound + bound;
    }
  }

  lemma PauseCapped(policy: RetryPolicy, i: nat)
    requires i >= 1
    ensures Pause(policy, i) <= policy.maxDelay
  {
  }

  lemma Monotone(a: nat, b: nat, c: nat)
    requires a <= b
    ensures a * c <= b * c
  {
  }

  /** All pauses of a run with at least one pause last at most the base delay and one capped delay for
      each of the others: base + (attempts - 2) * max for two attempts or more. */
  lemma TotalPause(policy: RetryPolicy, sleeps: seq<nat>)
    requires 1 <= |sleeps| <= MaxCalls(policy) - 1
    requires forall i :: 0 <= i < |sleeps| ==> sleeps[i] == Pause(policy, i)
    ensures Sum(sleeps) <= policy.baseDelay + (policy.attempts - 2) * policy.maxDelay
  {
    var rest := sleeps[1..];
    forall i | 0 <= i < |rest| ensures rest[i] <= policy.maxDelay {
      PauseCapped(policy, i + 1);
      assert rest[i] == sleeps[i + 1];
    }
    SumBound(rest, policy.maxDelay);
    Monotone(|rest|, policy.attempts - 2, policy.maxDelay);
    assert sleeps[0] == Pause(policy, 0);
  }
}
