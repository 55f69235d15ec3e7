/**
 * `me.maydeng.llmkit.core.util.Retryer`.  The callable is a total function:
 * `call(k)` is what its k-th invocation (counting from 0) returns or throws.
 * `Thread.sleep` is a counted no-op, and `interrupts(k)` says whether an
 * interrupt arrives during the k-th sleep.
 */
module PipelineRetry {
  import opened Wrappers
  import opened PipelineFaults

  /** What one `retry` did: its outcome, how many calls and sleeps it made, and the thread's interrupt flag afterwards. */
  datatype RetryRun<T> = RetryRun(outcome: Outcome<T, Fault>, calls: nat, sleeps: nat, interrupted: bool)

  /** The number of calls allowed: the first one plus `max(retryCount, 0)` retries. */
  function Budget(retryCount: int): nat {
    if retryCount > 0 then retryCount + 1 else 1
  }

  /**
   * The loop from the k-th call on, with k failures behind it: the outcome
   * and the total number of calls.  It returns the first success; after
   * the failure that makes the failure count exceed `retryCount`, it throws
   * a `RuntimeException` wrapping that failure.
   */
  function RetryFrom<T>(call: nat -> Outcome<T, Fault>, retryCount: int, k: nat): (r: (Outcome<T, Fault>, nat))
    requires k < Budget(retryCount)
    ensures k < r.1 <= Budget(retryCount)
    ensures forall j :: k <= j < r.1 - 1 ==> call(j).Threw?
    ensures r.0.Returned? ==> call(r.1 - 1) == Returned(r.0.value)
    ensures r.0.Threw? ==> r.1 == Budget(retryCount) && call(r.1 - 1).Threw? && r.0.error == Wrapped(call(r.1 - 1).error)
    decreases Budget(retryCount) - k
  {
    match call(k)
    case Returned(v) => (Returned(v), k + 1)
    case Threw(e) =>
      if k + 1 > retryCount then (Threw(Wrapped(e)), k + 1)
      else RetryFrom(call, retryCount, k + 1)
  }

  /** The interrupt flag after `n` real sleeps, starting from `flag`. */
  function InterruptedAfter(flag: bool, interrupts: nat -> bool, n: nat): (r: bool)
    ensures r <==> flag || exists k :: 0 <= k < n && interrupts(k)
  {
    if n == 0 then flag else InterruptedAfter(flag, interrupts, n - 1) || interrupts(n - 1)
  }

  /** The whole `retry` call: a sleep after every failure but the last, none when the delay is not positive. */
  function RetrySpec<T>(call: nat -> Outcome<T, Fault>, retryCount: int, delayMs: int,
                        interrupted: bool, interrupts: nat -> bool): RetryRun<T>
  {
    var (outcome, calls) := RetryFrom(call, retryCount, 0);
    var sleeps := if delayMs > 0 then calls - 1 else 0;
    RetryRun(outcome, calls, sleeps, InterruptedAfter(interrupted, interrupts, sleeps))
  }

  /** The first success is returned at once: no call follows it. */
  lemma FirstSuccessReturned<T>(call: nat -> Outcome<T, Fault>, retryCount: int, n: nat)
    requires n < Budget(retryCount) && call(n).Returned?
    requires forall j :: 0 <= j < n ==> call(j).Threw?
    ensures RetryFrom(call, retryCount, 0) == (Returned(call(n).value), n + 1)
  {
  }

  /** When every call fails, exactly `max(retryCount, 0) + 1` calls are made and the last failure is wrapped. */
  lemma AllFailuresExhaustBudget<T>(call: nat -> Outcome<T, Fault>, retryCount: int)
    requires forall j :: 0 <= j < Budget(retryCount) ==> call(j).Threw?
    ensures var r := RetryFrom(call, retryCount, 0);
      r.1 == Budget(retryCount) && r.0 == Threw(Wrapped(call(Budget(retryCount) - 1).error))
  {
  }

  /** `sleepQuietly`: no sleep for a delay at most 0; an interrupt only sets the flag again. */
  method SleepQuietly(delayMs: int, flag: bool, interruptArrives: bool) returns (slept: bool, flagAfter: bool)
    ensures slept <==> delayMs > 0
    ensures flagAfter == (flag || (slept && interruptArrives))
  {
    if delayMs <= 0 {
      return false, flag;
    }
    slept := true;
    flagAfter := flag || interruptArrives;
  }

  /** `retry(callable, retryCount, retryDelayMs)`, the Java loop. */
  method Retry<T>(call: nat -> Outcome<T, Fault>, retryCount: int, delayMs: int,
                  interrupted: bool, interrupts: nat -> bool) returns (r: RetryRun<T>)
    ensures r == RetrySpec(call, retryCount, delayMs, interrupted, interrupts)
    ensures 1 <= r.calls <= Budget(retryCount)
    ensures r.sleeps == (if delayMs > 0 then r.calls - 1 else 0)
  {
    var attempts: nat := 0;
    var sleeps: nat := 0;
    var flag := interrupted;
    while true
      invariant attempts < Budget(retryCount)
      invariant forall j :: 0 <= j < attempts ==> call(j).Threw?
      invariant sleeps == (if delayMs > 0 then attempts else 0)
      invariant flag == InterruptedAfter(interrupted, interrupts, sleeps)
      decreases Budget(retryCount) - attempts
    {
      var o := call(attempts);
      if o.Returned? {
        FirstSuccessReturned(call, retryCount, attempts);
        return RetryRun(o, attempts + 1, sleeps, flag);
      }
      attempts := attempts + 1;
      if attempts > retryCount {
        AllFailuresExhaustBudget(call, retryCount);
        return RetryRun(Threw(Wrapped(o.error)), attempts, sleeps, flag);
      }
      var slept;
      slept, flag := SleepQuietly(delayMs, flag, interrupts(sleeps));
      if slept {
        sleeps := sleeps + 1;
      }
    }
  }

  /** `retry(runnable, retryCount, retryDelayMs)`: the same loop around a call that returns nothing. */
  method RetryRunnable(run: nat -> Outcome<(), Fault>, retryCount: int, delayMs: int,
                       interrupted: bool, interrupts: nat -> bool) returns (r: RetryRun<()>)
    ensures r == RetrySpec(run, retryCount, delayMs, interrupted, interrupts)
    ensures r.outcome.Threw? ==> r.calls == Budget(retryCount) && r.outcome.error == Wrapped(run(r.calls - 1).error)
  {
    r := Retry(run, retryCount, delayMs, interrupted, interrupts);
  }
}
