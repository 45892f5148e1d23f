/**
  Retries of an event: the loop that calls it again after a retryable exception, and the
  time it sleeps in between.
 */
module Retry {
  import opened Wrappers

  /** An exception class: its identity and its name. */
  datatype Class = Class(id: nat, name: string)
  /** An exception: the name of its own class, and every class it is an instance of. */
  datatype Fault = Fault(name: string, classes: set<nat>)
  datatype RetryPolicy = RetryPolicy(maxAttempts: int, backoffFactor: real, maxBackoff: real, retryOn: seq<Class>)

  /** How a call of the event ends. */
  datatype Call<V> = Returned(value: V) | Gave(fault: Fault) | GaveUp
  /**
    How the retries end. When the event itself reports its retries as used up, that is
    swallowed (`Nothing`), except without a policy, where everything passes through.
   */
  datatype Outcome<V> =
    | Value(value: V)
    | Propagated(fault: Fault)
    | PassedOn
    | Nothing
    | Exhausted(attempts: nat, cause: Option<Fault>)

  /**
    With no classes listed, every exception is retryable. A listed class covers its
    instances whose own class bears its name.
   */
  predicate IsRetryable(p: RetryPolicy, e: Fault) {
    p.retryOn == [] || exists c :: c in p.retryOn && c.id in e.classes && c.name == e.name
  }

  predicate Retryable<V>(p: RetryPolicy, c: Call<V>) { c.Gave? && IsRetryable(p, c.fault) }

  function Power(n: nat): nat { if n == 0 then 1 else 2 * Power(n - 1) }

  function Min(a: real, b: real): real { if b < a then b else a }

  /** The backoff before it is capped. */
  function Uncapped(p: RetryPolicy, count: nat): real
    requires count > 0
  {
    p.backoffFactor * Power(count - 1) as real
  }

  function GetBackoffTime(p: RetryPolicy, count: nat): real {
    if count <= 1 then 0.0 else Min(Uncapped(p, count), p.maxBackoff)
  }

  /** No sleep for a backoff that is not positive. */
  function SleepForBackoff(p: RetryPolicy, count: nat): real {
    var b := GetBackoffTime(p, count);
    if b <= 0.0 then 0.0 else b
  }

  /** The time slept after `n` failing calls, the first of which raised the count to `from + 1`. */
  function TotalSleep(p: RetryPolicy, from: nat, n: nat): real {
    if n == 0 then 0.0 else TotalSleep(p, from, n - 1) + SleepForBackoff(p, from + n)
  }

  class RetryMixin {
    const policy: Option<RetryPolicy>
    var retryCount: nat

    constructor (policy: Option<RetryPolicy>)
      ensures this.policy == policy && retryCount == 0
    {
      this.policy, retryCount := policy, 0;
    }

    predicate IsExhausted()
      reads this
    {
      policy.None? || retryCount >= policy.value.maxAttempts
    }

    /**
      `retry`: `calls` says how each successive call of the function ends. Only the last
      call made can be anything but a retryable failure.
     */
    method Retry<V>(calls: nat -> Call<V>) returns (r: Outcome<V>, made: nat, slept: real)
      modifies this
      ensures policy.None? ==> made == 1 && slept == 0.0 && retryCount == old(retryCount)
      ensures policy.Some? ==> retryCount == old(retryCount) + made
      ensures policy.Some? ==> made > 0 ==> retryCount <= policy.value.maxAttempts
      ensures forall i :: 0 <= i < made - 1 ==> policy.Some? && Retryable(policy.value, calls(i))
      ensures match r
        case Value(v) => made > 0 && calls(made - 1) == Returned(v)
        case Propagated(e) => made > 0 && calls(made - 1) == Gave(e) && (policy.None? || !IsRetryable(policy.value, e))
        case PassedOn => policy.None? && calls(made - 1) == GaveUp
        case Nothing => policy.Some? && made > 0 && calls(made - 1) == GaveUp
        case Exhausted(n, cause) =>
          && policy.Some? && n == retryCount >= policy.value.maxAttempts
          && (forall i :: 0 <= i < made ==> Retryable(policy.value, calls(i)))
          && cause == if made == 0 then None else Some(calls(0).fault)
      ensures policy.Some? ==>
        slept == TotalSleep(policy.value, old(retryCount), if r.Exhausted? then made else made - 1)
    {
      made, slept := 0, 0.0;
      if policy.None? {
        made := 1;
        r := match calls(0) { case Returned(v) => Value(v) case Gave(e) => Propagated(e) case GaveUp => PassedOn };
        return;
      }
      var p := policy.value;
      var cause := None;
      while true
        invariant retryCount == old(retryCount) + made && (made > 0 ==> retryCount <= p.maxAttempts)
        invariant forall i :: 0 <= i < made ==> Retryable(p, calls(i))
        invariant cause == if made == 0 then None else Some(calls(0).fault)
        invariant slept == TotalSleep(p, old(retryCount), made)
        decreases p.maxAttempts - retryCount
      {
        if IsExhausted() { return Exhausted(retryCount, cause), made, slept; }
        retryCount := retryCount + 1;
        var call := calls(made);
        made := made + 1;
        match call
        case Returned(v) => return Value(v), made, slept;
        case GaveUp => return Nothing, made, slept;
        case Gave(e) =>
          if !IsRetryable(p, e) { return Propagated(e), made, slept; }
          if cause.None? { cause := Some(e); }
          slept := slept + SleepForBackoff(p, retryCount);
      }
    }
  }

  // ------------------------------------------------------------ bounds on the sleep

  predicate Sane(p: RetryPolicy) { p.backoffFactor >= 0.0 && p.maxBackoff >= 0.0 }

  /** The sum of the uncapped backoffs over the counts 2 to n. */
  function UncappedSum(p: RetryPolicy, n: nat): real {
    if n <= 1 then 0.0 else UncappedSum(p, n - 1) + Uncapped(p, n)
  }

  lemma Distribute(f: real, a: real, b: real)
    ensures f * (a + b) == f * a + f * b
  {
  }

  lemma {:induction false} ClosedForm(p: RetryPolicy, n: nat)
    requires n > 0
    ensures UncappedSum(p, n) == p.backoffFactor * (Power(n) - 2) as real
  {
    if n > 1 {
      ClosedForm(p, n - 1);
      var a, b := (Power(n - 1) - 2) as real, Power(n - 1) as real;
      assert (Power(n) - 2) as real == a + b;
      Distribute(p.backoffFactor, a, b);
    }
  }

  lemma OneSleep(p: RetryPolicy, n: nat)
    requires Sane(p) && n > 1
    ensures SleepForBackoff(p, n) <= p.maxBackoff && SleepForBackoff(p, n) <= Uncapped(p, n)
    ensures Uncapped(p, n) <= p.maxBackoff ==> SleepForBackoff(p, n) == Uncapped(p, n)
  {
    assert p.backoffFactor * Power(n - 1) as real >= 0.0;
  }

  lemma {:induction false} CapBound(p: RetryPolicy, n: nat)
    requires Sane(p) && n > 0
    ensures TotalSleep(p, 0, n) <= p.maxBackoff * (n - 1) as real
  {
    if n == 1 {
      assert TotalSleep(p, 0, 0) == 0.0;
    } else {
      CapBound(p, n - 1);
      OneSleep(p, n);
      assert (n - 1) as real == (n - 2) as real + 1.0;
      Distribute(p.maxBackoff, (n - 2) as real, 1.0);
    }
  }

  lemma {:induction false} SumBound(p: RetryPolicy, n: nat)
    requires Sane(p)
    ensures TotalSleep(p, 0, n) <= UncappedSum(p, n)
    ensures n > 1 && Uncapped(p, n) <= p.maxBackoff ==> TotalSleep(p, 0, n) == UncappedSum(p, n)
  {
    if n > 0 {
      SumBound(p, n - 1);
      if n > 1 { OneSleep(p, n); }
      if n > 2 { Growing(p, n); } else { assert TotalSleep(p, 0, 1) == TotalSleep(p, 0, 0) == 0.0; }
    }
  }

  lemma Growing(p: RetryPolicy, n: nat)
    requires Sane(p) && n > 2
    ensures Uncapped(p, n - 1) <= Uncapped(p, n)
  {
    var b := Power(n - 2) as real;
    assert Power(n - 1) as real == b + b;
    Distribute(p.backoffFactor, b, b);
    assert p.backoffFactor * b >= 0.0;
  }

  /**
    Over n failing calls the sleep is at most (n - 1) caps, and at most the uncapped sum
    f (2^n - 2), which it equals while the cap is not exceeded.
   */
  lemma SleepBounds(p: RetryPolicy, n: nat)
    requires Sane(p) && n > 0
    ensures TotalSleep(p, 0, n) <= p.maxBackoff * (n - 1) as real
    ensures TotalSleep(p, 0, n) <= p.backoffFactor * (Power(n) - 2) as real
    ensures n > 1 && p.backoffFactor * Power(n - 1) as real <= p.maxBackoff ==>
      TotalSleep(p, 0, n) == p.backoffFactor * (Power(n) - 2) as real
  {
    CapBound(p, n);
    SumBound(p, n);
    ClosedForm(p, n);
  }
}
