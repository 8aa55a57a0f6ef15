/** The `retry(attempts, delay)` decorator: call an operation until it does
    not raise the control-plane client's `ApiException`, at most `attempts`
    times, sleeping `delay` seconds between two calls.

    The wrapped operation is an oracle: `call(k)` is how its (k+1)-th call
    ends. Sleeping is counted, not performed; the time blocked is
    `sleeps * delay` seconds. */
module Retry {
  import opened Outcomes

  /** How the wrapper ends: with the first value the operation returned,
      with the exception that escaped, or, when `attempts < 1` and the loop
      never runs, by falling off the end and returning Python's `None`. */
  datatype Retried<+T> = Returned(value: T) | Raised(exc: Exc) | NoneReturned

  /** A run of the wrapper: its result, how many times it called the
      operation and how many times it slept. */
  datatype Run<+T> = Run(result: Retried<T>, calls: nat, sleeps: nat)

  /** The outcome that makes the wrapper try again. */
  predicate Transient<T>(o: Outcome<T>) {
    o.Raise? && o.exc.ApiError?
  }

  /** How the wrapper ends once call `k` (0-based) does not lead to a retry. */
  function Settle<T>(o: Outcome<T>): Retried<T> {
    match o
    case Ok(v) => Returned(v)
    case Raise(e) => Raised(e)
  }

  /** The run from call `k` on, calls 0 .. k-1 having raised `ApiException`. */
  function RetryFrom<T>(call: nat -> Outcome<T>, attempts: int, k: nat): Run<T>
    requires k < attempts
    decreases attempts - k
  {
    if Transient(call(k)) && k + 1 < attempts then RetryFrom(call, attempts, k + 1)
    else Run(Settle(call(k)), k + 1, k)
  }

  /** The run of the whole wrapper. */
  function Retry<T>(call: nat -> Outcome<T>, attempts: int): Run<T> {
    if attempts < 1 then Run(NoneReturned, 0, 0) else RetryFrom(call, attempts, 0)
  }

  /** `retry_loop`: the loop over `attempt_counter` as the decorator runs it. */
  method RetryLoop<T>(call: nat -> Outcome<T>, attempts: int)
    returns (result: Retried<T>, calls: nat, sleeps: nat)
    ensures Run(result, calls, sleeps) == Retry(call, attempts)
  {
    var counter := 1;
    calls, sleeps := 0, 0;
    while counter <= attempts
      invariant 1 <= counter
      invariant attempts >= 1 ==> counter <= attempts
      invariant attempts < 1 ==> counter == 1
      invariant calls == counter - 1 && sleeps == counter - 1
      invariant attempts >= 1 ==> Retry(call, attempts) == RetryFrom(call, attempts, counter - 1)
      decreases attempts - counter
    {
      var o := call(counter - 1);
      calls := calls + 1;
      match o
      case Ok(v) =>
        result := Returned(v);
        return;
      case Raise(e) =>
        if !e.ApiError? || counter == attempts {
          result := Raised(e);
          return;
        }
        sleeps := sleeps + 1;
        counter := counter + 1;
    }
    result := NoneReturned;
  }

  /** The wrapper calls the operation at most `attempts` times and sleeps
      exactly once between two consecutive calls, never after the last. */
  lemma RetryBounds<T>(call: nat -> Outcome<T>, attempts: int)
    ensures Retry(call, attempts).calls <= if attempts < 1 then 0 else attempts
    ensures Retry(call, attempts).calls == 0 <==> attempts < 1
    ensures Retry(call, attempts).result.NoneReturned? <==> attempts < 1
    ensures attempts >= 1 ==> Retry(call, attempts).sleeps == Retry(call, attempts).calls - 1
  {
    if attempts >= 1 {
      RetryFromBounds(call, attempts, 0);
    }
  }

  lemma {:induction false} RetryFromBounds<T>(call: nat -> Outcome<T>, attempts: int, k: nat)
    requires k < attempts
    ensures k < RetryFrom(call, attempts, k).calls <= attempts
    ensures RetryFrom(call, attempts, k).sleeps == RetryFrom(call, attempts, k).calls - 1
    ensures !RetryFrom(call, attempts, k).result.NoneReturned?
    decreases attempts - k
  {
    if Transient(call(k)) && k + 1 < attempts {
      RetryFromBounds(call, attempts, k + 1);
    }
  }

  /** When call `j` is the first that does not raise `ApiException` and the
      bound allows it, the wrapper ends with exactly that outcome, unchanged,
      after `j + 1` calls and `j` sleeps. With `j == 0` this says that an
      exception of another kind propagates after one call, without a retry. */
  lemma RetrySettles<T>(call: nat -> Outcome<T>, attempts: int, j: nat)
    requires j < attempts
    requires forall i :: 0 <= i < j ==> Transient(call(i))
    requires !Transient(call(j))
    ensures Retry(call, attempts) == Run(Settle(call(j)), j + 1, j)
  {
    var k := 0;
    while k < j
      invariant 0 <= k <= j
      invariant Retry(call, attempts) == RetryFrom(call, attempts, k)
    {
      k := k + 1;
    }
  }

  /** When every allowed call raises `ApiException`, the exception of the
      last call propagates, after `attempts` calls and `attempts - 1` sleeps:
      exhaustion is never turned into success. */
  lemma RetryExhausted<T>(call: nat -> Outcome<T>, attempts: int)
    requires attempts >= 1
    requires forall i :: 0 <= i < attempts ==> Transient(call(i))
    ensures Retry(call, attempts) == Run(Settle(call(attempts - 1)), attempts, attempts - 1)
    ensures Retry(call, attempts).result.Raised? && Retry(call, attempts).result.exc.ApiError?
  {
    var k := 0;
    while k < attempts - 1
      invariant 0 <= k <= attempts - 1
      invariant Retry(call, attempts) == RetryFrom(call, attempts, k)
    {
      k := k + 1;
    }
  }

  /** The wrapper returns a value only if some allowed call returned it and
      every earlier call raised `ApiException`: it never invents a result. */
  lemma {:induction false} RetryReturnedOnlyFromCall<T>(call: nat -> Outcome<T>, attempts: int, k: nat)
    requires k < attempts
    requires RetryFrom(call, attempts, k).result.Returned?
    ensures var r := RetryFrom(call, attempts, k);
      r.calls >= 1 && k <= r.calls - 1 &&
      call(r.calls - 1) == Ok(r.result.value) &&
      forall i :: k <= i < r.calls - 1 ==> Transient(call(i))
    decreases attempts - k
  {
    if Transient(call(k)) && k + 1 < attempts {
      RetryReturnedOnlyFromCall(call, attempts, k + 1);
    }
  }
}
