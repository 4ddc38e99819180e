/** The token bucket: truncating integer arithmetic with a rate bound and a progress bound.

    Time is in nanoseconds, as the steady clock counts it; the bucket itself works in whole
    milliseconds.  The clock is a parameter of every call and never goes back. */
module TokenBucket {

  const NANOS_PER_MILLI: int := 1_000_000
  const MIN_CAPACITY: int := 80000
  const MIN_RATE: int := 1000
  const MIN_WAIT: int := 10

  /** `rate` is in tokens per second. */
  datatype Bucket = Bucket(capacity: int, rate: int, amount: int, last: int)

  datatype Reply = Reply(granted: bool, waitMillis: int)

  function Initial(capacity: int, rate: int, now: int): Bucket {
    Bucket(if capacity < MIN_CAPACITY then MIN_CAPACITY else capacity,
           if rate < MIN_RATE then MIN_RATE else rate,
           capacity, now)
  }

  function ElapsedMillis(earlier: int, now: int): int {
    (now - earlier) / NANOS_PER_MILLI
  }

  function Refill(b: Bucket, now: int): Bucket {
    var max := ElapsedMillis(b.last, now) * b.rate / 1000 + b.amount;
    b.(amount := if max > b.capacity then b.capacity else max, last := now)
  }

  function WaitFor(deficit: int, rate: int): int
    requires rate > 0
  {
    var wait := deficit * 1000 / rate;
    if wait == 0 then MIN_WAIT else wait
  }

  function AfterAcquire(b: Bucket, want: int, now: int): (Bucket, Reply)
    requires b.rate > 0
  {
    var r := Refill(b, now);
    if want > r.capacity then (r, Reply(true, 0))
    else if want > r.amount then (r, Reply(false, WaitFor(want - r.amount, r.rate)))
    else (r.(amount := r.amount - want), Reply(true, 0))
  }

  /** The truncated time in which the rate yields the missing tokens, or ten milliseconds if that
      is none. */
  predicate WaitFits(missing: int, rate: int, wait: int) {
    if missing * 1000 < rate then wait == 10 else wait * rate <= missing * 1000 < (wait + 1) * rate
  }

  lemma WaitForFits(missing: int, rate: int)
    requires rate > 0 && missing > 0
    ensures WaitFits(missing, rate, WaitFor(missing, rate))
  {
    var wait := missing * 1000 / rate;
    assert wait * rate <= missing * 1000 < wait * rate + rate;
    if missing * 1000 >= rate && wait <= 0 {
      MulMono(wait, 0, rate);
    }
    if missing * 1000 < rate && wait >= 1 {
      MulMono(1, wait, rate);
    }
  }

  class RateLimiter {
    var capacity: int
    var rate: int
    var lastTokenGiven: int
    var currentAmount: int

    function State(): Bucket
      reads this
    {
      Bucket(capacity, rate, currentAmount, lastTokenGiven)
    }

    /** Starts with as many tokens as asked for, under limits that have a minimum. */
    constructor (capacity: int, rate: int, now: int)
      ensures State() == Initial(capacity, rate, now)
      ensures currentAmount == capacity && lastTokenGiven == now
      ensures this.capacity >= 80000 && this.capacity >= capacity && (this.capacity == 80000 || this.capacity == capacity)
      ensures this.rate >= 1000 && this.rate >= rate && (this.rate == 1000 || this.rate == rate)
    {
      this.capacity, this.rate, this.currentAmount := capacity, rate, capacity;
      this.lastTokenGiven := now;
      if capacity < MIN_CAPACITY {
        this.capacity := MIN_CAPACITY;
      }
      if rate < MIN_RATE {
        this.rate := MIN_RATE;
      }
    }

    method Acquire(want: int, now: int) returns (reply: Reply)
      requires rate > 0 && lastTokenGiven <= now
      modifies this
      ensures (State(), reply) == AfterAcquire(old(State()), want, now)
      ensures capacity == old(capacity) && rate == old(rate) && lastTokenGiven == now
      ensures var earned := old(currentAmount) + (now - old(lastTokenGiven)) / 1_000_000 * rate / 1000;
              var amount := if earned > capacity then capacity else earned;
              && (reply.granted <==> want > capacity || want <= amount)
              && currentAmount == amount - if reply.granted && want <= capacity then want else 0
      ensures if reply.granted then reply.waitMillis == 0 else WaitFits(want - currentAmount, rate, reply.waitMillis)
    {
      var duration := (now - lastTokenGiven) / NANOS_PER_MILLI;
      var increase := duration * rate / 1000;
      var amountMax := increase + currentAmount;
      currentAmount := if amountMax > capacity then capacity else amountMax;
      lastTokenGiven := now;
      if want > capacity {
        return Reply(true, 0);
      }
      if want > currentAmount {
        var timeToWait := (want - currentAmount) * 1000 / rate;
        if timeToWait == 0 {
          timeToWait := MIN_WAIT;
        }
        WaitForFits(want - currentAmount, rate);
        return Reply(false, timeToWait);
      }
      currentAmount := currentAmount - want;
      return Reply(true, 0);
    }
  }

  // ----- runs -----

  datatype Call = Call(want: int, now: int)

  predicate Healthy(b: Bucket) {
    b.rate >= MIN_RATE && 0 <= b.amount <= b.capacity
  }

  /** Calls with non-negative wants at times that do not go back. */
  predicate Timely(last: int, calls: seq<Call>)
    decreases |calls|
  {
    calls == [] || (calls[0].want >= 0 && last <= calls[0].now && Timely(calls[0].now, calls[1..]))
  }

  function After(b: Bucket, calls: seq<Call>): (b': Bucket)
    requires b.rate > 0
    ensures b'.rate == b.rate && b'.capacity == b.capacity
    decreases |calls|
  {
    if calls == [] then b else After(AfterAcquire(b, calls[0].want, calls[0].now).0, calls[1..])
  }

  /** Tokens granted to wants that the bucket can hold; larger wants are waved through. */
  function Granted(b: Bucket, calls: seq<Call>): int
    requires b.rate > 0
    decreases |calls|
  {
    if calls == [] then 0 else
    var (b', reply) := AfterAcquire(b, calls[0].want, calls[0].now);
    (if reply.granted && calls[0].want <= b.capacity then calls[0].want else 0) + Granted(b', calls[1..])
  }

  lemma MulMono(x: int, y: int, k: int)
    requires x <= y && k >= 0
    ensures x * k <= y * k
  {
  }

  lemma MulNonNeg(x: int, y: int)
    requires x >= 0 && y >= 0
    ensures x * y >= 0
  {
  }

  lemma RefillIsHealthy(b: Bucket, now: int)
    requires Healthy(b) && b.last <= now
    ensures Healthy(Refill(b, now)) && Refill(b, now).amount >= b.amount
  {
    MulNonNeg(ElapsedMillis(b.last, now), b.rate);
  }

  lemma StepIsHealthy(b: Bucket, call: Call)
    requires Healthy(b) && b.last <= call.now && call.want >= 0
    ensures var b' := AfterAcquire(b, call.want, call.now).0; Healthy(b') && b'.last == call.now
  {
    RefillIsHealthy(b, call.now);
  }

  /** Over any run the amount stays between zero and the capacity. */
  lemma {:induction false} AmountStaysInRange(b: Bucket, calls: seq<Call>)
    requires Healthy(b) && Timely(b.last, calls)
    ensures 0 <= After(b, calls).amount <= After(b, calls).capacity
    decreases |calls|
  {
    if calls != [] {
      StepIsHealthy(b, calls[0]);
      AmountStaysInRange(AfterAcquire(b, calls[0].want, calls[0].now).0, calls[1..]);
    }
  }

  /** Elapsed times and refills, both truncated, add up to no more than their sum truncated. */
  lemma RefillsAddUp(t0: int, t1: int, t2: int, rate: int)
    requires t0 <= t1 <= t2 && rate >= 0
    ensures ElapsedMillis(t0, t1) * rate / 1000 + ElapsedMillis(t1, t2) * rate / 1000
            <= ElapsedMillis(t0, t2) * rate / 1000
  {
    var x, y, z := ElapsedMillis(t0, t1), ElapsedMillis(t1, t2), ElapsedMillis(t0, t2);
    assert x + y <= z;
    MulMono(x + y, z, rate);
    assert (x + y) * rate == x * rate + y * rate;
  }

  function LastTime(last: int, calls: seq<Call>): int {
    if calls == [] then last else calls[|calls| - 1].now
  }

  /** What is granted after time b.last is paid by the amount and by the refills since. */
  lemma {:induction false} GrantsArePaid(b: Bucket, calls: seq<Call>)
    requires Healthy(b) && Timely(b.last, calls)
    ensures b.last <= LastTime(b.last, calls)
    ensures Granted(b, calls) + After(b, calls).amount
            <= b.amount + ElapsedMillis(b.last, LastTime(b.last, calls)) * b.rate / 1000
    decreases |calls|
  {
    if calls != [] {
      var b' := AfterAcquire(b, calls[0].want, calls[0].now).0;
      StepIsHealthy(b, calls[0]);
      GrantsArePaid(b', calls[1..]);
      assert LastTime(b'.last, calls[1..]) == LastTime(b.last, calls);
      RefillsAddUp(b.last, b'.last, LastTime(b.last, calls), b.rate);
    }
  }

  lemma WindowIsBounded(b: Bucket, window: seq<Call>)
    requires Healthy(b) && window != [] && Timely(b.last, window)
    ensures Granted(b, window)
            <= b.capacity + ElapsedMillis(window[0].now, window[|window| - 1].now) * b.rate / 1000
  {
    var b' := AfterAcquire(b, window[0].want, window[0].now).0;
    StepIsHealthy(b, window[0]);
    RefillIsHealthy(b, window[0].now);
    GrantsArePaid(b', window[1..]);
    AmountStaysInRange(b', window[1..]);
    assert LastTime(b'.last, window[1..]) == window[|window| - 1].now;
  }

  lemma {:induction false} RunSplits(b: Bucket, before: seq<Call>, window: seq<Call>)
    requires Healthy(b) && Timely(b.last, before + window)
    ensures Healthy(After(b, before)) && Timely(After(b, before).last, window)
    decreases |before|
  {
    if before == [] {
      assert before + window == window;
    } else {
      assert (before + window)[1..] == before[1..] + window;
      StepIsHealthy(b, before[0]);
      RunSplits(AfterAcquire(b, before[0].want, before[0].now).0, before[1..], window);
    }
  }

  /** The rate bound.  In any run from a new limiter, over any contiguous window of calls,
      the tokens granted to wants within the capacity do not exceed the capacity plus what
      the rate yields in the time between the first and the last call of the window. */
  lemma RateBound(capacity: int, rate: int, start: int, before: seq<Call>, window: seq<Call>)
    requires capacity >= 0 && window != []
    requires Timely(start, before + window)
    ensures var b0 := Initial(capacity, rate, start);
            Granted(After(b0, before), window)
            <= b0.capacity + ElapsedMillis(window[0].now, window[|window| - 1].now) * b0.rate / 1000
  {
    var b0 := Initial(capacity, rate, start);
    RunSplits(b0, before, window);
    WindowIsBounded(After(b0, before), window);
  }

  const INT64_MAX: int := 0x7fff_ffff_ffff_ffff

  predicate FitsInt64(x: int) { -INT64_MAX - 1 <= x <= INT64_MAX }

  /** The source computes in 64-bit integers.  No intermediate value of a call leaves them
      while a thousand capacities fit and the refill earned since the last call fits on top
      of one capacity. */
  lemma ArithmeticFits(b: Bucket, want: int, now: int)
    requires Healthy(b) && b.last <= now && want >= 0
    requires b.capacity * 1000 <= INT64_MAX
    requires ElapsedMillis(b.last, now) * b.rate <= INT64_MAX - b.capacity
    ensures var increase := ElapsedMillis(b.last, now) * b.rate / 1000;
            && FitsInt64(ElapsedMillis(b.last, now) * b.rate)
            && FitsInt64(increase + b.amount)
            && (want <= b.capacity && want > Refill(b, now).amount ==> FitsInt64((want - Refill(b, now).amount) * 1000))
  {
    MulNonNeg(ElapsedMillis(b.last, now), b.rate);
    RefillIsHealthy(b, now);
  }

  // ----- progress -----

  /** What a wait of at least the advised time yields. */
  function Yield(deficit: int, rate: int): int
    requires rate > 0
  {
    WaitFor(deficit, rate) * rate / 1000
  }

  lemma FirstWait(d: int, rate: int)
    requires rate >= MIN_RATE && d > 0
    ensures var left := d - Yield(d, rate); left <= 0 || (left - 1) * 1000 < rate - 1
  {
    var q := d * 1000 / rate;
    assert q * rate <= d * 1000 < q * rate + rate;
    if q == 0 {
      SecondWaitOfTen(d, rate);
    }
  }

  /** When the advised time truncates to zero, the minimum of ten milliseconds is enough. */
  lemma SecondWaitOfTen(d: int, rate: int)
    requires rate >= MIN_RATE && d > 0 && d * 1000 < rate
    ensures Yield(d, rate) >= d
  {
    assert d * 1000 / rate == 0;
    assert 10 * rate / 1000 >= d;
  }

  lemma SecondWait(d: int, rate: int)
    requires rate >= MIN_RATE && d > 0 && (d - 1) * 1000 < rate - 1
    ensures d - Yield(d, rate) <= 1
    ensures rate == MIN_RATE ==> d - Yield(d, rate) <= 0
  {
    if d * 1000 < rate {
      SecondWaitOfTen(d, rate);
    } else {
      assert d * 1000 / rate == 1;
      assert WaitFor(d, rate) == 1;
    }
  }

  lemma ThirdWait(rate: int)
    requires rate > MIN_RATE
    ensures Yield(1, rate) >= 1
  {
    SecondWaitOfTen(1, rate);
  }

  lemma WaitIsPositive(d: int, rate: int)
    requires rate > 0 && d > 0
    ensures WaitFor(d, rate) > 0
  {
    assert d * 1000 / rate >= 0;
  }

  /** How far short of its want a caller is at time `now`. */
  function Deficit(b: Bucket, want: int, now: int): int {
    want - Refill(b, now).amount
  }

  /** A refused caller that waits as it is told has its deficit cut by the yield of the wait. */
  lemma YieldIsEarned(b: Bucket, want: int, now: int, later: int)
    requires Healthy(b) && 0 <= want <= b.capacity && b.last <= now && Deficit(b, want, now) > 0
    requires later >= now + WaitFor(Deficit(b, want, now), b.rate) * NANOS_PER_MILLI
    ensures var d := Deficit(b, want, now);
            var left := Deficit(Refill(b, now), want, later);
            Healthy(Refill(b, now)) && later >= now && (left <= 0 || left <= d - Yield(d, b.rate))
  {
    RefillIsHealthy(b, now);
    var wait := WaitFor(Deficit(b, want, now), b.rate);
    WaitIsPositive(Deficit(b, want, now), b.rate);
    assert ElapsedMillis(now, later) >= wait;
    MulMono(wait, ElapsedMillis(now, later), b.rate);
  }

  /** A caller that repeats one want and waits at least as long as it is told each time. */
  predicate Patient(b: Bucket, want: int, times: seq<int>)
    requires b.rate > 0
    decreases |times|
  {
    times != [] ==>
      var (b', reply) := AfterAcquire(b, want, times[0]);
      && b.last <= times[0]
      && (!reply.granted && |times| > 1 ==>
            times[1] >= times[0] + reply.waitMillis * NANOS_PER_MILLI && Patient(b', want, times[1..]))
  }

  predicate GrantedWithin(b: Bucket, want: int, times: seq<int>)
    requires b.rate > 0
    decreases |times|
  {
    times != [] &&
    var (b', reply) := AfterAcquire(b, want, times[0]);
    reply.granted || GrantedWithin(b', want, times[1..])
  }

  lemma ThirdRetryIsGranted(b: Bucket, want: int, times: seq<int>)
    requires Healthy(b) && 0 <= want <= b.capacity && |times| == 2 && Patient(b, want, times)
    requires Deficit(b, want, times[0]) <= (if b.rate == MIN_RATE then 0 else 1)
    ensures GrantedWithin(b, want, times)
  {
    if Deficit(b, want, times[0]) > 0 {
      YieldIsEarned(b, want, times[0], times[1]);
      ThirdWait(b.rate);
      assert GrantedWithin(Refill(b, times[0]), want, times[1..]);
    }
  }

  lemma SecondRetryIsGranted(b: Bucket, want: int, times: seq<int>)
    requires Healthy(b) && 0 <= want <= b.capacity && |times| == 3 && Patient(b, want, times)
    requires Deficit(b, want, times[0]) <= 0 || (Deficit(b, want, times[0]) - 1) * 1000 < b.rate - 1
    ensures GrantedWithin(b, want, times)
  {
    if Deficit(b, want, times[0]) > 0 {
      YieldIsEarned(b, want, times[0], times[1]);
      SecondWait(Deficit(b, want, times[0]), b.rate);
      ThirdRetryIsGranted(Refill(b, times[0]), want, times[1..]);
    }
  }

  /** The progress bound: a lone patient caller that wants no more than the capacity is
      granted within four calls, whatever the rate, although both the advised wait and the
      refill are truncated. */
  lemma GrantedWithinFour(b: Bucket, want: int, times: seq<int>)
    requires Healthy(b) && 0 <= want <= b.capacity
    requires |times| == 4 && Patient(b, want, times)
    ensures GrantedWithin(b, want, times)
  {
    if Deficit(b, want, times[0]) > 0 {
      YieldIsEarned(b, want, times[0], times[1]);
      FirstWait(Deficit(b, want, times[0]), b.rate);
      SecondRetryIsGranted(Refill(b, times[0]), want, times[1..]);
    }
  }

  /** How much a patient caller can still be short of after k refusals. */
  predicate Owes(b: Bucket, want: int, now: int, k: nat) {
    var d := Deficit(b, want, now);
    && (k == 1 ==> d <= 0 || (d - 1) * 1000 < b.rate - 1)
    && (k == 2 ==> d <= if b.rate == MIN_RATE then 0 else 1)
    && (k >= 3 ==> d <= 0)
  }

  lemma RefusalReducesDebt(b: Bucket, want: int, now: int, k: nat, later: int)
    requires Healthy(b) && 0 <= want <= b.capacity && b.last <= now && Owes(b, want, now, k) && Deficit(b, want, now) > 0
    requires later >= now + WaitFor(Deficit(b, want, now), b.rate) * NANOS_PER_MILLI
    ensures k < 3 && Healthy(Refill(b, now)) && later >= now && Owes(Refill(b, now), want, later, k + 1)
  {
    YieldIsEarned(b, want, now, later);
    var d := Deficit(b, want, now);
    if k == 0 {
      FirstWait(d, b.rate);
    } else if k == 1 {
      SecondWait(d, b.rate);
    } else {
      ThirdWait(b.rate);
    }
  }

  lemma {:induction false} AfterOneMore(b: Bucket, calls: seq<Call>, call: Call)
    requires b.rate > 0
    ensures After(b, calls + [call]) == AfterAcquire(After(b, calls), call.want, call.now).0
    decreases |calls|
  {
    if calls == [] {
      assert [call][1..] == [];
    } else {
      assert (calls + [call])[1..] == calls[1..] + [call];
      AfterOneMore(AfterAcquire(b, calls[0].want, calls[0].now).0, calls[1..], call);
    }
  }

  /** What the limiter replies to call number i of some calls. */
  function ReplyTo(b: Bucket, calls: seq<Call>, i: nat): Reply
    requires b.rate > 0 && i < |calls|
  {
    AfterAcquire(After(b, calls[..i]), calls[i].want, calls[i].now).1
  }

  lemma ReplyToEarlier(b: Bucket, calls: seq<Call>, call: Call, i: nat)
    requires b.rate > 0 && i < |calls|
    ensures ReplyTo(b, calls + [call], i) == ReplyTo(b, calls, i)
  {
    assert (calls + [call])[..i] == calls[..i];
  }

  lemma ReplyToLast(b: Bucket, calls: seq<Call>, call: Call)
    requires b.rate > 0
    ensures ReplyTo(b, calls + [call], |calls|) == AfterAcquire(After(b, calls), call.want, call.now).1
  {
    assert (calls + [call])[..|calls|] == calls;
  }

  predicate RefusedUntil(now: int, r: Reply, later: int) {
    !r.granted && later >= now + r.waitMillis * NANOS_PER_MILLI
  }

  /** A caller that makes these calls wants the same each time and, after each refusal, waits at
      least as long as it is told. */
  predicate Waits(b: Bucket, want: int, calls: seq<Call>)
    requires b.rate > 0
  {
    && (forall i :: 0 <= i < |calls| ==> calls[i].want == want)
    && (forall i :: 0 <= i < |calls| - 1 ==> RefusedUntil(calls[i].now, ReplyTo(b, calls, i), calls[i + 1].now))
  }

  /** One more call after a refused last one, late enough. */
  lemma WaitsOnceMore(b: Bucket, want: int, calls: seq<Call>, now: int)
    requires b.rate > 0 && Waits(b, want, calls)
    requires calls != [] ==> RefusedUntil(calls[|calls| - 1].now, ReplyTo(b, calls, |calls| - 1), now)
    ensures Waits(b, want, calls + [Call(want, now)])
  {
    var calls' := calls + [Call(want, now)];
    forall i | 0 <= i < |calls| ensures RefusedUntil(calls'[i].now, ReplyTo(b, calls', i), calls'[i + 1].now) {
      ReplyToEarlier(b, calls, Call(want, now), i);
      if i < |calls| - 1 {
        assert RefusedUntil(calls[i].now, ReplyTo(b, calls, i), calls[i + 1].now);
      }
    }
  }

  /** The caller's loop: it waits as it is told, or longer, until it is granted.  The calls it
      made are at most four, all but the last were refused, and the last was granted. */
  method AcquirePatiently(limiter: RateLimiter, want: int, now: int, delay: nat -> nat) returns (reply: Reply, calls: seq<Call>)
    requires Healthy(limiter.State()) && 0 <= want <= limiter.capacity && limiter.lastTokenGiven <= now
    modifies limiter
    ensures reply.granted && 1 <= |calls| <= 4
    ensures limiter.State() == After(old(limiter.State()), calls) && Healthy(limiter.State())
    ensures Waits(old(limiter.State()), want, calls) && calls[0].now == now
    ensures reply == ReplyTo(old(limiter.State()), calls, |calls| - 1)
  {
    ghost var b := limiter.State();
    calls := [];
    var at := now;
    while true
      invariant Healthy(limiter.State()) && want <= limiter.capacity && limiter.lastTokenGiven <= at
      invariant limiter.State() == After(b, calls) && |calls| <= 3 && Owes(limiter.State(), want, at, |calls|)
      invariant Waits(b, want, calls + [Call(want, at)]) && (calls + [Call(want, at)])[0].now == now
      decreases 4 - |calls|
    {
      ghost var before, made := limiter.State(), calls;
      RefillIsHealthy(before, at);
      reply := limiter.Acquire(want, at);
      calls := calls + [Call(want, at)];
      AfterOneMore(b, made, Call(want, at));
      ReplyToLast(b, made, Call(want, at));
      if reply.granted {
        return;
      }
      var later := at + reply.waitMillis * NANOS_PER_MILLI + delay(|calls|);
      RefusalReducesDebt(before, want, at, |made|, later);
      WaitsOnceMore(b, want, calls, later);
      at := later;
    }
  }

  /** A window of calls on one limiter: what is granted is what the calls are granted, and that
      stays within the rate. */
  method AcquireAll(limiter: RateLimiter, calls: seq<Call>) returns (granted: int)
    requires Healthy(limiter.State()) && Timely(limiter.lastTokenGiven, calls) && calls != []
    modifies limiter
    ensures granted == Granted(old(limiter.State()), calls)
    ensures granted <= limiter.capacity + ElapsedMillis(calls[0].now, calls[|calls| - 1].now) * limiter.rate / 1000
    ensures limiter.State() == After(old(limiter.State()), calls)
    ensures Healthy(limiter.State())
  {
    granted := 0;
    ghost var start := limiter.State();
    WindowIsBounded(start, calls);
    for i := 0 to |calls|
      invariant Healthy(limiter.State()) && Timely(limiter.lastTokenGiven, calls[i..])
      invariant limiter.capacity == start.capacity && limiter.rate == start.rate
      invariant granted + Granted(limiter.State(), calls[i..]) == Granted(start, calls)
      invariant After(limiter.State(), calls[i..]) == After(start, calls)
    {
      assert calls[i..][1..] == calls[i + 1..];
      StepIsHealthy(limiter.State(), calls[i]);
      var reply := limiter.Acquire(calls[i].want, calls[i].now);
      if reply.granted && calls[i].want <= limiter.capacity {
        granted := granted + calls[i].want;
      }
    }
  }

  /** At 1999 tokens per second, three tokens short, and with the times it is told to wait. */
  const TIGHT := Bucket(MIN_CAPACITY, 1999, 0, 0)
  const TIGHT_TIMES := [0, 1_000_000, 2_000_000]

  /** Four calls can be needed: this patient caller is refused three times. */
  lemma ThreeCallsAreNotEnough()
    ensures Healthy(TIGHT) && Patient(TIGHT, 3, TIGHT_TIMES) && !GrantedWithin(TIGHT, 3, TIGHT_TIMES)
  {
    var b1 := TIGHT.(amount := 1, last := 1_000_000);
    var b2 := TIGHT.(amount := 2, last := 2_000_000);
    assert AfterAcquire(TIGHT, 3, 0) == (TIGHT, Reply(false, 1));
    assert AfterAcquire(TIGHT, 3, 1_000_000) == (b1, Reply(false, 1));
    assert AfterAcquire(b1, 3, 2_000_000) == (b2, Reply(false, 10));
    assert TIGHT_TIMES[1..] == [1_000_000, 2_000_000] && TIGHT_TIMES[1..][1..] == [2_000_000];
    assert Patient(b1, 3, [2_000_000]) && !GrantedWithin(b1, 3, [2_000_000]);
    assert Patient(TIGHT, 3, TIGHT_TIMES[1..]) && !GrantedWithin(TIGHT, 3, TIGHT_TIMES[1..]);
  }
}
