/**
 * `io.github.llmkit.util.Retryer`.  As in the other generation the
 * callable is a total function (`call(k)` is its k-th invocation), sleeps
 * are counted and `interrupts(k)` says whether the k-th sleep is
 * interrupted.  The counting and the final exception differ: this loop
 * runs while `attempts <= retryCount`, so a negative count makes no call
 * at all, and a framework exception from the last attempt is rethrown as
 * it is.
 */
module FlatRetry {
  import opened Wrappers
  import opened JavaText
  import opened FlatErrors
  import PipelineRetry

  datatype RetryRun<T> = RetryRun(outcome: Outcome<T, Failure>, calls: nat, sleeps: nat, interrupted: bool)

  /** What is thrown after the loop: the last exception when it is an `LLMKitException`, else a wrapper naming the count. */
  function FinalFailure(last: Option<Failure>, retryCount: int): (f: Failure)
    ensures last.Some? && IsKit(last.value) ==> f == last.value
    ensures !(last.Some? && IsKit(last.value)) ==>
      f == Kit(None, Some("Operation failed after " + IntToString(retryCount) + " retries"), last)
    ensures IsKit(f)
  {
    if last.Some? && IsKit(last.value) then last.value
    else Kit(None, Some("Operation failed after " + IntToString(retryCount) + " retries"), last)
  }

  /** The loop from call k on, with k failures behind it: the outcome and the number of calls made in all. */
  function RetryFrom<T>(call: nat -> Outcome<T, Failure>, retryCount: int, k: nat): (r: (Outcome<T, Failure>, nat))
    requires k <= retryCount
    ensures k < r.1 <= retryCount + 1
    ensures forall j :: k <= j < r.1 - 1 ==> call(j).Threw?
    ensures r.0.Returned? ==> call(r.1 - 1) == Returned(r.0.value)
    ensures r.0.Threw? ==> (r.1 == retryCount + 1 && call(r.1 - 1).Threw?
      && r.0.error == FinalFailure(Some(call(r.1 - 1).error), retryCount))
    decreases retryCount - k
  {
    match call(k)
    case Returned(v) => (Returned(v), k + 1)
    case Threw(e) =>
      if k + 1 > retryCount then (Threw(FinalFailure(Some(e), retryCount)), k + 1)
      else RetryFrom(call, retryCount, k + 1)
  }

  /** The whole `retry` call: no call when the count is negative, a sleep after every failure but the last. */
  function RetrySpec<T>(call: nat -> Outcome<T, Failure>, retryCount: int, delayMs: int,
                        interrupted: bool, interrupts: nat -> bool): RetryRun<T>
  {
    if retryCount < 0 then RetryRun(Threw(FinalFailure(None, retryCount)), 0, 0, interrupted)
    else
      var (outcome, calls) := RetryFrom(call, retryCount, 0);
      var sleeps := if delayMs > 0 then calls - 1 else 0;
      RetryRun(outcome, calls, sleeps, PipelineRetry.InterruptedAfter(interrupted, interrupts, sleeps))
  }

  /** With a count of at least 0, the first success is returned at once and nothing is called after it. */
  lemma FirstSuccessReturned<T>(call: nat -> Outcome<T, Failure>, retryCount: int, n: nat, delayMs: int,
                                interrupted: bool, interrupts: nat -> bool)
    requires n <= retryCount && call(n).Returned?
    requires forall j :: 0 <= j < n ==> call(j).Threw?
    ensures var r := RetrySpec(call, retryCount, delayMs, interrupted, interrupts);
      r.outcome == Returned(call(n).value) && r.calls == n + 1
  {
  }

  /**
   * With a count of at least 0 and every call failing, exactly
   * `retryCount + 1` calls are made; a framework exception from the last is
   * rethrown unchanged, any other is wrapped with the count in the message.
   */
  lemma AllFailuresMakeCountPlusOneCalls<T>(call: nat -> Outcome<T, Failure>, retryCount: int, delayMs: int,
                                           interrupted: bool, interrupts: nat -> bool)
    requires retryCount >= 0
    requires forall j :: 0 <= j <= retryCount ==> call(j).Threw?
    ensures var r := RetrySpec(call, retryCount, delayMs, interrupted, interrupts);
      && r.calls == retryCount + 1
      && (IsKit(call(retryCount).error) ==> r.outcome == Threw(call(retryCount).error))
      && (!IsKit(call(retryCount).error) ==> r.outcome == Threw(Kit(None,
            Some("Operation failed after " + IntToString(retryCount) + " retries"), Some(call(retryCount).error))))
  {
    var r := RetryFrom(call, retryCount, 0);
    assert r.0.Threw?;
  }

  /** A negative count never invokes the callable and throws a wrapper with a null cause. */
  lemma NegativeCountNeverCalls<T>(call: nat -> Outcome<T, Failure>, retryCount: int, delayMs: int,
                                   interrupted: bool, interrupts: nat -> bool)
    requires retryCount < 0
    ensures var r := RetrySpec(call, retryCount, delayMs, interrupted, interrupts);
      r.calls == 0 && r.sleeps == 0 && r.outcome.Threw? && r.outcome.error.Kit? && r.outcome.error.cause.None?
  {
  }

  /** `retry(callable, retryCount, retryDelayMs)`, the Java loop. */
  method Retry<T>(call: nat -> Outcome<T, Failure>, retryCount: int, delayMs: int,
                  interrupted: bool, interrupts: nat -> bool) returns (r: RetryRun<T>)
    ensures r == RetrySpec(call, retryCount, delayMs, interrupted, interrupts)
    ensures r.calls <= if retryCount < 0 then 0 else retryCount + 1
    ensures r.sleeps == if delayMs > 0 && r.calls > 0 then r.calls - 1 else 0
  {
    var attempts: nat := 0;
    var last: Option<Failure> := None;
    var sleeps: nat := 0;
    var flag := interrupted;
    while attempts <= retryCount
      invariant retryCount >= 0 ==> attempts <= retryCount
      invariant retryCount < 0 ==> attempts == 0 && last.None?
      invariant forall j :: 0 <= j < attempts ==> call(j).Threw?
      invariant sleeps == (if delayMs > 0 then attempts else 0)
      invariant flag == PipelineRetry.InterruptedAfter(interrupted, interrupts, sleeps)
      decreases retryCount - attempts
    {
      var o := call(attempts);
      if o.Returned? {
        FirstSuccessReturned(call, retryCount, attempts, delayMs, interrupted, interrupts);
        return RetryRun(o, attempts + 1, sleeps, flag);
      }
      last := Some(o.error);
      attempts := attempts + 1;
      if attempts > retryCount {
        AllFailuresMakeCountPlusOneCalls(call, retryCount, delayMs, interrupted, interrupts);
        return RetryRun(Threw(FinalFailure(last, retryCount)), attempts, sleeps, flag);
      }
      var slept;
      slept, flag := PipelineRetry.SleepQuietly(delayMs, flag, interrupts(sleeps));
      if slept {
        sleeps := sleeps + 1;
      }
    }
    return RetryRun(Threw(FinalFailure(last, retryCount)), 0, 0, flag);
  }

  /** `retry(runnable, retryCount, retryDelayMs)`: the same loop around a call that returns nothing. */
  method RetryRunnable(run: nat -> Outcome<(), Failure>, retryCount: int, delayMs: int,
                       interrupted: bool, interrupts: nat -> bool) returns (r: RetryRun<()>)
    ensures r == RetrySpec(run, retryCount, delayMs, interrupted, interrupts)
    ensures r.outcome.Threw? ==> IsKit(r.outcome.error)
  {
    r := Retry(run, retryCount, delayMs, interrupted, interrupts);
  }
}
