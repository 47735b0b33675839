/** The shared retry helper: bounded attempts with exponential backoff. */
module Retry {

  /** What one call of the retried function does. */
  datatype Attempt<+T> = Raised | Returned(value: T)

  function Pow2(n: nat): nat {
    if n == 0 then 1 else 2 * Pow2(n - 1)
  }

  /** The helper's formula for a delay. */
  function Scaled(base: real, factor: nat): real {
    base * factor as real
  }

  lemma ScaledDoubles(base: real, factor: nat)
    ensures Scaled(base, 2 * factor) == 2.0 * Scaled(base, factor) && Scaled(base, 1) == base
  {
    calc {
      Scaled(base, 2 * factor);
      base * (2.0 * factor as real);
      2.0 * (base * factor as real);
    }
  }

  /** The n-th backoff by doubling. */
  function Backoff(base: real, n: nat): real {
    if n == 0 then base else 2.0 * Backoff(base, n - 1)
  }

  /** Doubling n times is multiplying by the n-th power of two. */
  lemma {:induction false} BackoffIsPower(base: real, n: nat)
    ensures Backoff(base, n) == Scaled(base, Pow2(n))
  {
    hide Scaled;
    if n == 0 {
      ScaledDoubles(base, 1);
    } else {
      BackoffIsPower(base, n - 1);
      ScaledDoubles(base, Pow2(n - 1));
    }
  }

  function TotalDelay(delays: seq<real>): real {
    if delays == [] then 0.0 else TotalDelay(delays[..|delays| - 1]) + delays[|delays| - 1]
  }

  lemma DelayDoubles(delays: seq<real>, base: real, n: nat)
    requires TotalDelay(delays) == Backoff(base, n) - base
    ensures TotalDelay(delays + [Backoff(base, n)]) == Backoff(base, n + 1) - base
  {
    var more := delays + [Backoff(base, n)];
    assert more[..|more| - 1] == delays;
  }

  /** How many calls are made: up to and including the first that returns, or all that are permitted. */
  function Calls<T>(attempts: seq<Attempt<T>>, permitted: nat): (n: nat)
    requires permitted <= |attempts|
    ensures n <= permitted
  {
    if permitted == 0 then 0 else if attempts[0].Returned? then 1 else 1 + Calls(attempts[1..], permitted - 1)
  }

  /** The count is the one position where the calls may stop. */
  lemma {:induction false} CallsIs<T>(attempts: seq<Attempt<T>>, permitted: nat, n: nat)
    requires 1 <= n <= permitted <= |attempts|
    requires forall i :: 0 <= i < n - 1 ==> attempts[i].Raised?
    requires attempts[n - 1].Returned? || n == permitted
    ensures Calls(attempts, permitted) == n
  {
    if n > 1 {
      CallsIs(attempts[1..], permitted - 1, n - 1);
    }
  }

  /** Attempt `i` of the function does `attempts[i]`; `delays` are the sleeps between attempts, in order. */
  method RunWithRetry<T>(attempts: seq<Attempt<T>>, maxRetries: nat, baseDelay: real)
    returns (result: Attempt<T>, calls: nat, delays: seq<real>)
    requires |attempts| > maxRetries
    // It stops at the first success, and re-raises only when every permitted attempt raised.
    ensures 1 <= calls == Calls(attempts, maxRetries + 1) && result == attempts[calls - 1]
    ensures forall i :: 0 <= i < calls - 1 ==> attempts[i].Raised?
    ensures result.Raised? ==> calls == maxRetries + 1
    // The delay doubles each time, so all the sleeps together are one short of the next one.
    ensures |delays| == calls - 1 && forall i :: 0 <= i < |delays| ==> delays[i] == Backoff(baseDelay, i)
    ensures TotalDelay(delays) == Backoff(baseDelay, calls - 1) - baseDelay
    ensures forall i :: 0 <= i < |delays| ==> delays[i] == if i == 0 then baseDelay else 2.0 * delays[i - 1]
  {
    hide Scaled;
    delays := [];
    for attempt := 0 to maxRetries + 1
      invariant |delays| == attempt <= maxRetries
      invariant forall i :: 0 <= i < attempt ==> attempts[i].Raised? && delays[i] == Backoff(baseDelay, i)
      invariant TotalDelay(delays) == Backoff(baseDelay, attempt) - baseDelay
    {
      calls, result := attempt + 1, attempts[attempt];
      if result.Returned? || attempt == maxRetries {
        CallsIs(attempts, maxRetries + 1, calls);
        return;
      }
      BackoffIsPower(baseDelay, attempt);
      DelayDoubles(delays, baseDelay, attempt);
      delays := delays + [Scaled(baseDelay, Pow2(attempt))];
    }
    assert false;
  }
}
