/** Control-plane error classes and the bounded retry helper. */
module Retry {

  datatype Failure =
    | ValidationError | ConflictError | DependencyError
    | AwsRetryable | KubernetesRetryable | PermanentProvisioning
    | OnboardError      // deliberately not a control-plane error
    | OtherException

  predicate IsControlPlaneError(f: Failure) { !f.OnboardError? && !f.OtherException? }

  predicate Retryable(f: Failure) { f.AwsRetryable? || f.KubernetesRetryable? }

  datatype Outcome<+T> = Returned(value: T) | Raised(error: Failure)

  /** The outcome makes `with_retry` call again, if calls are left. */
  predicate CallsAgain<T>(o: Outcome<T>): (again: bool)
    ensures again <==> o.Raised? && o.error in {AwsRetryable, KubernetesRetryable}
  {
    o.Raised? && Retryable(o.error)
  }

  function Pow2(k: nat): (p: nat)
    ensures p >= 1
  {
    if k == 0 then 1 else 2 * Pow2(k - 1)
  }

  /** What a bounded retry promises of the outcomes of its calls: it hands back the first one that is not a retryable
      error, or the last one allowed. */
  predicate Retried<T(==)>(outcomes: seq<Outcome<T>>, attempts: nat, calls: nat, result: Outcome<T>) {
    && 1 <= calls <= attempts && calls <= |outcomes| && result == outcomes[calls - 1]
    && (forall i | 0 <= i < calls - 1 :: CallsAgain(outcomes[i]))
    && (CallsAgain(result) ==> calls == attempts)
  }

  /** All pauses together, over `calls` calls. */
  function Slept(base: real, calls: nat): real
    requires calls >= 1
  {
    base * (Pow2(calls - 1) - 1) as real
  }

  lemma FirstPause(base: real)
    ensures Slept(base, 1) == 0.0
  {
  }

  lemma NextPause(base: real, calls: nat)
    requires calls >= 1
    ensures Slept(base, calls) + base * Pow2(calls - 1) as real == Slept(base, calls + 1)
  {
    assert Pow2(calls) == 2 * Pow2(calls - 1);
  }

  /** `outcomes[i]` is what the (i+1)-th call of the wrapped function does. */
  method WithRetry<T(==)>(outcomes: seq<Outcome<T>>, attempts: nat, base: real)
    returns (result: Outcome<T>, calls: nat, slept: real)
    requires 1 <= attempts <= |outcomes|
    ensures Retried(outcomes, attempts, calls, result)
    ensures slept == Slept(base, calls)
  {
    slept := 0.0;
    calls := 0;
    while true
      invariant calls < attempts
      invariant forall i | 0 <= i < calls :: CallsAgain(outcomes[i])
      invariant slept == base * (Pow2(calls) - 1) as real
      decreases attempts - calls
    {
      result := outcomes[calls];
      calls := calls + 1;
      if !CallsAgain(result) || calls >= attempts {
        return;
      }
      slept := slept + base * Pow2(calls - 1) as real;
    }
  }

  // ---- trying again after any failure ----

  /** What such a loop promises of the outcomes of its calls, for any number of attempts: it stops at the first success,
      and gives up only once every attempt has failed. */
  predicate Persisted(outcomes: seq<bool>, attempts: nat, tries: nat, ok: bool) {
    && tries <= attempts && tries <= |outcomes|
    && (if ok then tries >= 1 && outcomes[tries - 1] else tries == attempts)
    && (forall i | 0 <= i < tries && !(ok && i == tries - 1) :: !outcomes[i])
  }

  /** All pauses together: 5, 10, 15, ... seconds in between. */
  function Paused(tries: nat): nat { if tries <= 1 then 0 else Paused(tries - 1) + 5 * (tries - 1) }

  lemma {:induction false} PausedInAll(tries: nat)
    ensures 2 * Paused(tries) == 5 * tries * (tries - 1)
  {
    if tries > 1 {
      PausedInAll(tries - 1);
    }
  }

  /** Tries again after every failure, waiting five seconds longer each time. */
  method Persist(outcomes: seq<bool>, attempts: nat) returns (ok: bool, tries: nat, slept: int)
    requires attempts <= |outcomes|
    ensures Persisted(outcomes, attempts, tries, ok)
    ensures slept == Paused(tries)
  {
    slept := 0;
    tries := 0;
    while tries < attempts
      invariant 0 <= tries <= attempts
      invariant forall i | 0 <= i < tries :: !outcomes[i]
      invariant slept == if tries < attempts then Paused(tries + 1) else Paused(tries)
    {
      ok := outcomes[tries];
      tries := tries + 1;
      if ok {
        return;
      }
      if tries < attempts {
        slept := slept + 5 * tries;
      }
    }
    ok := false;
  }
}
