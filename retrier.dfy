/** The retry wrapper of retrier.go and the attempt behaviour of the
    go-resiliency retrier it delegates to.

    An operation that Go passes as a closure counting its own calls is given
    here as `op: nat -> Option<Error>`: `op(k)` is what the k-th call returns
    (`None` is a nil error). */
module Retrier {
  import opened Base

  /** The default number of retries after the first call. */
  const RetryTimes: nat := 5

  /** The default pause before each retry. */
  const RetryWait: Duration := 100 * Millisecond

  function Pow2(n: nat): (r: nat)
    ensures r >= 1
  {
    if n == 0 then 1 else 2 * Pow2(n - 1)
  }

  /** The attempt behaviour a `Run` call must have when its strategy allows
      `budget` retries: it made `calls` calls, every call before the last
      failed, it returns the error of the last call, and it stopped early only
      on a success. */
  predicate IsRunOf(budget: nat, op: nat -> Option<Error>, err: Option<Error>, calls: nat)
  {
    && 1 <= calls <= budget + 1
    && (forall k :: 1 <= k < calls ==> op(k).Some?)
    && err == op(calls)
    && (err.None? || calls == budget + 1)
  }

  /** A go-resiliency retrier with its default classifier (a nil error
      succeeds, any other error is retried); `waits[i]` is the pause before
      retry i + 1, so `|waits|` is the number of retries. */
  datatype Backoff = Backoff(waits: seq<Duration>) {

    /** Calls `op` until it succeeds or the retries are used up, pausing
        `waits[i]` before retry i + 1. */
    method Run(op: nat -> Option<Error>) returns (err: Option<Error>, calls: nat, slept: seq<Duration>)
      ensures IsRunOf(|waits|, op, err, calls)
      ensures slept == waits[..calls - 1]
    {
      var retries := 0;
      slept := [];
      calls := 1;
      err := op(calls);
      while err.Some? && retries < |waits|
        invariant 0 <= retries <= |waits| && calls == retries + 1
        invariant forall k :: 1 <= k < calls ==> op(k).Some?
        invariant err == op(calls)
        invariant slept == waits[..retries]
        decreases |waits| - retries
      {
        slept := slept + [waits[retries]];
        retries := retries + 1;
        calls := calls + 1;
        err := op(calls);
      }
    }
  }

  /** Retries with the same pause every time. */
  const ConstantBackoff: Backoff := Backoff(seq(RetryTimes, _ => RetryWait))

  /** Retries with a pause that doubles every time. */
  const ExponentialBackoff: Backoff := Backoff(seq(RetryTimes, i requires 0 <= i => RetryWait * Pow2(i)))

  /** The strategy used when none is configured. */
  const DefaultRetrier: Backoff := ConstantBackoff

  /** The wrapper that hands every call to the strategy it stores. */
  datatype Retry = Retry(retrier: Backoff) {

    method Run(op: nat -> Option<Error>) returns (err: Option<Error>, calls: nat)
      ensures IsRunOf(|retrier.waits|, op, err, calls)
    {
      var slept;
      err, calls, slept := retrier.Run(op);
    }
  }

  function NewRetrier(r: Backoff): (x: Retry)
    ensures x.retrier == r
  {
    Retry(r)
  }

  /** `IsRunOf` fixes the outcome: two runs of one operation under one budget
      make the same number of calls and return the same error. */
  lemma RunIsDetermined(budget: nat, op: nat -> Option<Error>, err1: Option<Error>, calls1: nat, err2: Option<Error>, calls2: nat)
    requires IsRunOf(budget, op, err1, calls1)
    requires IsRunOf(budget, op, err2, calls2)
    ensures calls1 == calls2 && err1 == err2
  {
  }

  const Oops: Error := Error("oops")

  /** The operation of the first retrier test: it fails on its first three calls. */
  function FailsThreeTimes(k: nat): Option<Error>
  {
    if k > 3 then None else Some(Oops)
  }

  /** The operation of the second retrier test: it always fails. */
  function AlwaysFails(k: nat): Option<Error>
  {
    Some(Oops)
  }

  /** With the constant backoff, an operation that first succeeds on its fourth
      call is called exactly four times and the run succeeds. */
  lemma ConstantBackoffStopsAtFirstSuccess(err: Option<Error>, calls: nat)
    requires IsRunOf(|ConstantBackoff.waits|, FailsThreeTimes, err, calls)
    ensures err.None? && calls == 4
  {
    assert |ConstantBackoff.waits| == RetryTimes;
    assert FailsThreeTimes(4).None?;
  }

  /** With the constant backoff, an operation that always fails is called
      RetryTimes + 1 times and its last error is returned. */
  lemma ConstantBackoffExhausted(err: Option<Error>, calls: nat)
    requires IsRunOf(|ConstantBackoff.waits|, AlwaysFails, err, calls)
    ensures err == Some(Oops) && calls == RetryTimes + 1
  {
  }
}
