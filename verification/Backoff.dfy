/** The retry decision: when a failed attempt is sent again, and not before what time.

    The source computes in 64-bit integers and guards every operation that could leave
    them.  The guards are proved exact, with one exception: for a positive scale the guarded
    computation schedules a retry if and only if the computation on unbounded integers would
    stay within 64 bits; for scale zero it also gives up after 63 attempts, because it guards
    the shift without looking at what is shifted. */
module Backoff {
  import opened Wrappers

  const INT64_MAX: int := 0x7fff_ffff_ffff_ffff

  /** `shouldRetry` is the verdict of checkShouldRetry, `retryAfter` the header in seconds,
      `runs` is run_count and `now` the wall clock in milliseconds. */
  datatype Failure = Failure(shouldRetry: bool, status: int, retryAfter: int, runs: int, now: int)

  function Pow2(k: nat): (p: nat)
    ensures p >= 1
  {
    if k == 0 then 1 else 2 * Pow2(k - 1)
  }

  predicate FitsInt64(x: int) { -INT64_MAX - 1 <= x <= INT64_MAX }

  /** Only throttling and unavailability honour the Retry-After header. */
  predicate HonoursRetryAfter(status: int) { status == 429 || status == 503 }

  /** The guarded computation: the earliest time to send again, if a retry is scheduled. */
  function Schedule(maxRetry: int, scale: int, f: Failure): Option<int> {
    var k := f.runs - 1;
    if !f.shouldRetry || k >= maxRetry then None
    else if scale < 0 || k < 0 || k >= 63 || scale > INT64_MAX / Pow2(k) then None
    else
      var wait := scale * Pow2(k);
      if HonoursRetryAfter(f.status) && f.retryAfter > 0 then
        if f.retryAfter > INT64_MAX / 1000 then None
        else SendAt(f.now, if wait > f.retryAfter * 1000 then wait else f.retryAfter * 1000)
      else SendAt(f.now, wait)
  }

  function SendAt(now: int, wait: int): Option<int> {
    if now < 0 || wait > INT64_MAX - now then None else Some(now + wait)
  }

  /** The part of the pipeline that the retry decorator reads and writes. */
  class RetryPolicy {
    const maxRetry: int
    const scale: int
    var runCount: nat
    var notSendUntil: int
    var retryScheduled: bool

    constructor (maxRetry: int, scale: int)
      ensures this.maxRetry == maxRetry && this.scale == scale
      ensures runCount == 0 && notSendUntil == 0 && !retryScheduled
    {
      this.maxRetry, this.scale := maxRetry, scale;
      runCount, notSendUntil, retryScheduled := 0, 0, false;
    }

    method BeginAttempt()
      modifies this
      ensures runCount == old(runCount) + 1 && notSendUntil == old(notSendUntil) && retryScheduled == old(retryScheduled)
    {
      runCount := runCount + 1;
    }

    /** Decides on a finished attempt; giving up leaves everything as it was. */
    method Decorate(success: bool, f: Failure)
      requires f.runs == runCount
      modifies this
      ensures runCount == old(runCount)
      ensures !success && Schedule(maxRetry, scale, f).Some? ==>
                retryScheduled && notSendUntil == Schedule(maxRetry, scale, f).value
      ensures success || Schedule(maxRetry, scale, f).None? ==>
                retryScheduled == old(retryScheduled) && notSendUntil == old(notSendUntil)
    {
      if success || !f.shouldRetry {
        return;
      }
      var retryCount := runCount - 1;
      if retryCount >= maxRetry {
        return;
      }
      if scale < 0 || retryCount < 0 || retryCount >= 63 || scale > INT64_MAX / Pow2(retryCount) {
        return;
      }
      var wait := scale * Pow2(retryCount);
      if f.status == 429 || f.status == 503 {
        if f.retryAfter > 0 {
          if f.retryAfter > INT64_MAX / 1000 {
            return;
          }
          var retryAfterMillis := f.retryAfter * 1000;
          wait := if wait > retryAfterMillis then wait else retryAfterMillis;
        }
      }
      if f.now < 0 || wait > INT64_MAX - f.now {
        return;
      }
      notSendUntil := f.now + wait;
      retryScheduled := true;
    }
  }

  // ----- the computation without bounds -----

  /** The time that backoff and header ask for, on unbounded integers. */
  function Ideal(scale: int, f: Failure): int
    requires f.runs >= 1
  {
    var wait := scale * Pow2(f.runs - 1);
    f.now + if HonoursRetryAfter(f.status) && f.retryAfter > 0 && f.retryAfter * 1000 > wait
            then f.retryAfter * 1000 else wait
  }

  lemma {:induction false} Pow2Grows(k: nat, m: nat)
    requires k <= m
    ensures 1 <= Pow2(k) <= Pow2(m)
  {
    if k < m {
      Pow2Grows(k, m - 1);
    } else if k > 0 {
      Pow2Grows(k - 1, m - 1);
    }
  }

  lemma Pow2Of62()
    ensures Pow2(62) == 0x4000_0000_0000_0000
  {
    assert Pow2(10) == 1024;
    assert Pow2(20) == 0x10_0000;
    assert Pow2(30) == 0x4000_0000;
    assert Pow2(40) == 0x100_0000_0000;
    assert Pow2(50) == 0x4_0000_0000_0000;
    assert Pow2(60) == 0x1000_0000_0000_0000;
  }

  lemma QuotientGuardsProduct(x: int, p: int, max: int)
    requires p >= 1
    ensures x > max / p <==> x * p > max
  {
    var q := max / p;
    assert q * p <= max < q * p + p;
    if x <= q {
      Times(x, q, p);
    } else {
      Times(q + 1, x, p);
    }
  }

  lemma Times(x: int, y: int, p: int)
    requires x <= y && p >= 0
    ensures x * p <= y * p
  {
  }

  /** The shifted limit is the exact guard of the product. */
  lemma ShiftGuardsProduct(scale: int, k: nat)
    requires scale >= 0 && k < 63
    ensures 1 <= Pow2(k) <= INT64_MAX
    ensures scale > INT64_MAX / Pow2(k) <==> scale * Pow2(k) > INT64_MAX
  {
    Pow2Grows(k, 62);
    Pow2Of62();
    QuotientGuardsProduct(scale, Pow2(k), INT64_MAX);
  }

  /** For a positive scale the guard of the shift follows from that of the product. */
  lemma LongShiftsOverflow(scale: int, k: nat)
    requires scale > 0 && k >= 63
    ensures scale * Pow2(k) > INT64_MAX
  {
    Pow2Of62();
    assert Pow2(63) == 2 * Pow2(62);
    Pow2Grows(63, k);
    Times(1, scale, Pow2(k));
  }

  /** A retry is scheduled exactly when the failure may be retried, the limit is not used up
      and the ideal send time fits in 64 bits, and then it is scheduled at the ideal time: no
      guard lets an overflow through, and none gives up too early, except that of the shift
      for scale zero. */
  lemma ScheduleIsExact(maxRetry: int, scale: int, f: Failure)
    requires f.runs >= 1
    ensures Schedule(maxRetry, scale, f) ==
            if f.shouldRetry && f.runs - 1 < maxRetry && scale >= 0 && f.now >= 0 && Ideal(scale, f) <= INT64_MAX
               && (scale > 0 || f.runs <= 63)
            then Some(Ideal(scale, f)) else None
  {
    if f.runs <= 63 && scale >= 0 {
      ShiftGuardsProduct(scale, f.runs - 1);
    } else if scale > 0 {
      LongShiftsOverflow(scale, f.runs - 1);
    }
  }

  /** The exception: without backoff, failures that could be retried are given up for good
      after 63 retries, whatever the limit. */
  lemma ShiftGuardIsTooEarly(maxRetry: int, f: Failure)
    requires f.runs == 64 && f.shouldRetry && maxRetry >= 64 && 0 <= f.now <= INT64_MAX && f.status == 500
    ensures Schedule(maxRetry, 0, f) == None && Ideal(0, f) == f.now
  {
    assert 0 * Pow2(63) == 0;
  }

  /** No value computed on the way leaves 64 bits: the shifted one, the product, the header
      in milliseconds, the free span above `now`, and the sum. */
  lemma NothingOverflows(maxRetry: int, scale: int, f: Failure)
    requires f.runs >= 1 && scale <= INT64_MAX && FitsInt64(f.now) && FitsInt64(f.retryAfter)
    requires f.shouldRetry && f.runs - 1 < maxRetry && scale >= 0 && f.runs <= 63
    ensures FitsInt64(Pow2(f.runs - 1))
    ensures scale <= INT64_MAX / Pow2(f.runs - 1) ==> FitsInt64(scale * Pow2(f.runs - 1))
    ensures 0 < f.retryAfter <= INT64_MAX / 1000 ==> FitsInt64(f.retryAfter * 1000)
    ensures f.now >= 0 ==> FitsInt64(INT64_MAX - f.now)
    ensures Schedule(maxRetry, scale, f).Some? ==> FitsInt64(Schedule(maxRetry, scale, f).value)
  {
    ShiftGuardsProduct(scale, f.runs - 1);
    ScheduleIsExact(maxRetry, scale, f);
  }

  /** Every scheduled retry waits at least the exponential backoff and, when the service is
      throttling (429) or unavailable (503), at least the Retry-After delay-seconds (section
      10.2.3 of RFC 9110); it waits no longer than one of the two asks for, and for any other
      status the header is ignored. */
  lemma WaitsLongEnough(maxRetry: int, scale: int, f: Failure)
    requires f.runs >= 1 && Schedule(maxRetry, scale, f).Some?
    ensures LateEnough(scale, f, f.runs - 1, Schedule(maxRetry, scale, f).value)
    ensures f.now >= 0 && scale >= 0 && f.runs - 1 < maxRetry && f.shouldRetry
  {
    ScheduleIsExact(maxRetry, scale, f);
  }

  /** A run of failed attempts, each one with the next run_count: how many are made. */
  function Attempts(maxRetry: int, scale: int, failures: seq<Failure>, runs: nat): nat
    decreases |failures|
  {
    if failures == [] then runs
    else if Schedule(maxRetry, scale, failures[0].(runs := runs)).None? then runs
    else Attempts(maxRetry, scale, failures[1..], runs + 1)
  }

  function Limit(maxRetry: int): nat {
    if maxRetry <= 0 then 1 else if maxRetry < 63 then maxRetry + 1 else 64
  }

  /** However long the failures go on, at most maxRetry + 1 attempts are made (one if the
      limit is not positive), and never more than 64: the shift guard is a limit too. */
  lemma {:induction false} AttemptsAreBounded(maxRetry: int, scale: int, failures: seq<Failure>, runs: nat)
    requires 1 <= runs <= Limit(maxRetry)
    ensures Attempts(maxRetry, scale, failures, runs) <= Limit(maxRetry)
    decreases |failures|
  {
    if failures != [] && Schedule(maxRetry, scale, failures[0].(runs := runs)).Some? {
      ScheduleIsExact(maxRetry, scale, failures[0].(runs := runs));
      AttemptsAreBounded(maxRetry, scale, failures[1..], runs + 1);
    }
  }

  /** However a failure is timed, its send time fits. */
  predicate AlwaysFits(maxRetry: int, scale: int, f: Failure) {
    f.shouldRetry && f.now >= 0 && forall r | 1 <= r < Limit(maxRetry) :: Ideal(scale, f.(runs := r)) <= INT64_MAX
  }

  /** The bound is reached: failures that may be retried, whatever their status and backoff,
      use up every attempt as long as their send times fit. */
  lemma {:induction false} BoundIsReached(maxRetry: int, scale: int, failures: seq<Failure>, runs: nat)
    requires scale >= 0 && 1 <= runs <= Limit(maxRetry) && |failures| >= Limit(maxRetry) - runs + 1
    requires forall i :: 0 <= i < |failures| ==> AlwaysFits(maxRetry, scale, failures[i])
    ensures Attempts(maxRetry, scale, failures, runs) == Limit(maxRetry)
    decreases |failures|
  {
    var f := failures[0].(runs := runs);
    ScheduleIsExact(maxRetry, scale, f);
    if runs < Limit(maxRetry) {
      assert AlwaysFits(maxRetry, scale, failures[0]);
      assert Ideal(scale, failures[0].(runs := runs)) <= INT64_MAX;
      BoundIsReached(maxRetry, scale, failures[1..], runs + 1);
    } else if runs == 64 && scale > 0 {
      LongShiftsOverflow(scale, 63);
    }
  }

  // ----- a whole run -----

  /** What a retry must wait for after failure number k, counted from zero: the backoff and, for
      the two statuses that mean it, the header; and no longer. */
  predicate LateEnough(scale: int, f: Failure, k: nat, time: int) {
    && time >= f.now + scale * Pow2(k)
    && ((f.status == 429 || f.status == 503) && f.retryAfter > 0 ==>
          time >= f.now + 1000 * f.retryAfter && (time == f.now + 1000 * f.retryAfter || time == f.now + scale * Pow2(k)))
    && ((f.status != 429 && f.status != 503) || f.retryAfter <= 0 ==> time == f.now + scale * Pow2(k))
  }

  lemma LatenessIgnoresRuns(scale: int, f: Failure, runs: int, k: nat, time: int)
    ensures LateEnough(scale, f.(runs := runs), k, time) == LateEnough(scale, f, k, time)
  {
  }

  /** A request whose attempts fail one after the other, until one is not retried; after the
      last failure the next attempt succeeds. */
  method SendUntilDone(maxRetry: int, scale: int, failures: seq<Failure>) returns (attempts: nat, times: seq<int>)
    ensures 1 <= attempts <= Limit(maxRetry) && attempts == Attempts(maxRetry, scale, failures, 1)
    ensures |times| == attempts - 1 <= |failures|
    ensures forall k :: 0 <= k < |times| ==> LateEnough(scale, failures[k], k, times[k])
  {
    var policy := new RetryPolicy(maxRetry, scale);
    policy.BeginAttempt();
    times := [];
    var done := false;
    while !done && |times| < |failures|
      invariant policy.maxRetry == maxRetry && policy.scale == scale
      invariant policy.runCount == |times| + 1 <= Limit(maxRetry) && |times| <= |failures|
      invariant forall k :: 0 <= k < |times| ==> LateEnough(scale, failures[k], k, times[k])
      invariant Attempts(maxRetry, scale, failures, 1) ==
                if done then policy.runCount else Attempts(maxRetry, scale, failures[|times|..], policy.runCount)
      decreases !done, |failures| - |times|
    {
      var f := failures[|times|].(runs := policy.runCount);
      ScheduleIsExact(maxRetry, scale, f);
      assert failures[|times|..][0] == failures[|times|] && failures[|times|..][1..] == failures[|times| + 1..];
      policy.retryScheduled := false;
      policy.Decorate(false, f);
      if policy.retryScheduled {
        WaitsLongEnough(maxRetry, scale, f);
        LatenessIgnoresRuns(scale, failures[|times|], policy.runCount, |times|, policy.notSendUntil);
        times := times + [policy.notSendUntil];
        policy.BeginAttempt();
      } else {
        done := true;
      }
    }
    attempts := policy.runCount;
  }
}
