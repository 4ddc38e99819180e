/** The receive side of one attempt: a buffer that is filled chunk by chunk under a limit,
    and the decision what the decoder gets to see. */
module ResponseSink {
  import opened Wrappers

  type Byte = bv8

  /** `Legacy` follows Content-Length; `HeaderOnly` expects an empty body on success;
      `Bounded` never stores more than its limit, whatever a header says. */
  datatype Mode = Legacy | HeaderOnly | Bounded

  type pos = n: int | n > 0 witness 1

  /** `size` is the default limit, and for bounded responses max_body_bytes; the builders
      refuse a size that is not positive. */
  datatype Policy = Policy(mode: Mode, size: pos)

  datatype Sink = Sink(buffer: seq<Byte>, limit: nat, truncated: bool, failed: bool, flow: nat)

  /** A chunk as the transport delivers it; `allocFails` says whether storing it throws. */
  datatype Chunk = Chunk(data: seq<Byte>, allocFails: bool)

  /** `threw`: storing a chunk without a guard has thrown out of the transport's callback. */
  datatype Received = Received(sink: Sink, consumed: nat, markFailed: bool, threw: bool)

  datatype Verdict = Thrown | NothingToParse | AllocationFailed | UnexpectedBody | TooLarge | Decode(bytes: seq<Byte>)

  function Configured(p: Policy): Sink {
    Sink([], p.size, false, false, 0)
  }

  /** executeAttempt clears what an earlier attempt left; the limit is not among it. */
  function NextAttempt(s: Sink): Sink {
    s.(buffer := [], truncated := false, failed := false, flow := 0)
  }

  function AfterContentLength(p: Policy, s: Sink, length: int): Sink {
    match p.mode
    case Bounded => if length > 0 && length > p.size then s.(truncated := true) else s
    case HeaderOnly => s.(limit := p.size)
    case Legacy => s.(limit := if length > 0 then length else p.size)
  }

  function EffectiveLimit(p: Policy, s: Sink): nat {
    if s.limit > 0 then s.limit else p.size
  }

  function AfterReceive(p: Policy, s: Sink, c: Chunk): Received {
    var n := |c.data|;
    if n == 0 then Received(s, 0, false, false)
    else if |s.buffer| + n > EffectiveLimit(p, s) || s.truncated || s.failed then
      if p.mode.Bounded? then Received(s.(truncated := true), 0, true, false)
      else Received(s.(truncated := true, flow := s.flow + n), n, false, false)
    else if c.allocFails then
      if p.mode.Bounded? then Received(s.(failed := true), 0, true, false) else Received(s, 0, false, true)
    else Received(s.(buffer := s.buffer + c.data, flow := s.flow + n), n, false, false)
  }

  /** The outcome decorator up to the call of the parser. */
  function Decide(p: Policy, s: Sink, success: bool): Verdict {
    if s.failed then AllocationFailed
    else if p.mode.HeaderOnly? && success && (s.buffer != [] || s.truncated) then UnexpectedBody
    else if s.buffer == [] && !s.truncated && (!p.mode.Bounded? || !success) then NothingToParse
    else if s.truncated then TooLarge
    else Decode(s.buffer)
  }

  // ----- what the transport is told of one chunk -----

  /** There is room for the chunk, and nothing was refused or lost before. */
  predicate HasRoom(p: Policy, s: Sink, c: Chunk) {
    !s.truncated && !s.failed && |s.buffer| + |c.data| <= if s.limit > 0 then s.limit else p.size
  }

  /** A chunk is consumed whole or not at all.  It is stored exactly if there is room for it and
      storing it does not fail; a legacy or header-only sink also consumes what it drops.  The
      event is marked failed exactly by a bounded sink that does not store the chunk. */
  predicate Answers(p: Policy, s: Sink, c: Chunk, s': Sink, consumed: nat, markFailed: bool, threw: bool) {
    var stored := HasRoom(p, s, c) && !c.allocFails;
    && s'.buffer == (if stored then s.buffer + c.data else s.buffer)
    && consumed == (if stored || (!p.mode.Bounded? && !HasRoom(p, s, c)) then |c.data| else 0)
    && s'.flow == s.flow + consumed && s'.limit == s.limit
    && (markFailed <==> p.mode.Bounded? && c.data != [] && !stored)
    && (threw <==> !p.mode.Bounded? && c.data != [] && HasRoom(p, s, c) && c.allocFails)
    && (s'.truncated <==> s.truncated || (c.data != [] && !HasRoom(p, s, c)))
    && (s'.failed <==> s.failed || (p.mode.Bounded? && c.data != [] && HasRoom(p, s, c) && c.allocFails))
  }

  class JsonSink {
    const policy: Policy
    var responseBuffer: seq<Byte>
    var bufferLimit: nat
    var truncated: bool
    var failed: bool
    var flowBytes: nat

    function State(): Sink
      reads this
    {
      Sink(responseBuffer, bufferLimit, truncated, failed, flowBytes)
    }

    constructor (policy: Policy)
      ensures this.policy == policy && State() == Configured(policy)
    {
      this.policy := policy;
      responseBuffer, bufferLimit, truncated, failed, flowBytes := [], policy.size, false, false, 0;
    }

    method BeginAttempt(runCount: nat)
      modifies this
      ensures State() == if runCount != 0 then NextAttempt(old(State())) else old(State())
    {
      if runCount != 0 {
        responseBuffer, truncated, failed, flowBytes := [], false, false, 0;
      }
    }

    method OnContentLength(length: int)
      modifies this
      ensures State() == AfterContentLength(policy, old(State()), length)
    {
      if policy.mode.Bounded? {
        if length > 0 && length > policy.size {
          truncated := true;
        }
        return;
      }
      if policy.mode.HeaderOnly? {
        bufferLimit := policy.size;
        return;
      }
      bufferLimit := if length > 0 then length else policy.size;
    }

    method OnDataReceive(c: Chunk) returns (consumed: nat, markFailed: bool, threw: bool)
      modifies this
      ensures Received(State(), consumed, markFailed, threw) == AfterReceive(policy, old(State()), c)
      ensures Answers(policy, old(State()), c, State(), consumed, markFailed, threw)
    {
      if |c.data| == 0 {
        return 0, false, false;
      }
      var oldSize := |responseBuffer|;
      var limit := if bufferLimit > 0 then bufferLimit else policy.size;
      if oldSize > limit || |c.data| > limit - oldSize || truncated || failed {
        truncated := true;
        if policy.mode.Bounded? {
          return 0, true, false;
        }
        flowBytes := flowBytes + |c.data|;
        return |c.data|, false, false;
      }
      if c.allocFails {
        if policy.mode.Bounded? {
          failed := true;
          return 0, true, false;
        }
        return 0, false, true;
      }
      responseBuffer := responseBuffer + c.data;
      flowBytes := flowBytes + |c.data|;
      return |c.data|, false, false;
    }
  }

  // ----- one attempt -----

  function AfterHeaders(p: Policy, s: Sink, headers: seq<int>): Sink
    decreases |headers|
  {
    if headers == [] then s else AfterHeaders(p, AfterContentLength(p, s, headers[0]), headers[1..])
  }

  /** None once an exception has left the transport's callback: then no decision follows. */
  function AfterChunks(p: Policy, s: Sink, chunks: seq<Chunk>): Option<Sink>
    decreases |chunks|
  {
    if chunks == [] then Some(s) else
    var r := AfterReceive(p, s, chunks[0]);
    if r.threw then None else AfterChunks(p, r.sink, chunks[1..])
  }

  /** An attempt that starts from whatever the earlier ones left behind. */
  function AfterAttempt(p: Policy, s: Sink, headers: seq<int>, chunks: seq<Chunk>): Option<Sink> {
    AfterChunks(p, AfterHeaders(p, NextAttempt(s), headers), chunks)
  }

  function Judge(p: Policy, s: Option<Sink>, success: bool): Verdict {
    if s.None? then Thrown else Decide(p, s.value, success)
  }

  function Body(chunks: seq<Chunk>): seq<Byte>
    decreases |chunks|
  {
    if chunks == [] then [] else chunks[0].data + Body(chunks[1..])
  }

  /** Whether a bounded response announced more than it may carry. */
  predicate Announced(p: Policy, headers: seq<int>) {
    p.mode.Bounded? && exists i :: 0 <= i < |headers| && headers[i] > p.size
  }

  /** The limit an attempt works under: what it found, unless a legacy response announced a
      length; then the last one announced, or the default if that one is not positive. */
  function LimitOf(p: Policy, found: nat, headers: seq<int>): nat {
    if !p.mode.Legacy? || headers == [] then found
    else if headers[|headers| - 1] > 0 then headers[|headers| - 1]
    else p.size
  }

  /** What the decoder must get to see of a whole attempt, without any chunk in sight. */
  function Expected(p: Policy, limit: nat, announced: bool, body: seq<Byte>, success: bool): Verdict {
    if p.mode.HeaderOnly? && success && body != [] then UnexpectedBody
    else if announced || |body| > limit then TooLarge
    else if body == [] && (!p.mode.Bounded? || !success) then NothingToParse
    else Decode(body)
  }

  /** Every sink that configuration, headers, chunks and attempts lead to. */
  predicate Configurable(p: Policy, s: Sink) {
    s.limit > 0 && (!p.mode.Legacy? ==> s.limit == p.size)
  }

  lemma {:induction false} HeadersSetLimit(p: Policy, s: Sink, headers: seq<int>)
    requires Configurable(p, s)
    ensures var s' := AfterHeaders(p, s, headers);
            && Configurable(p, s')
            && s' == s.(limit := LimitOf(p, s.limit, headers), truncated := s.truncated || Announced(p, headers))
    decreases |headers|
  {
    if headers != [] {
      HeadersSetLimit(p, AfterContentLength(p, s, headers[0]), headers[1..]);
      assert headers == [headers[0]] + headers[1..];
    }
  }

  lemma Joined(a: seq<Byte>, b: seq<Byte>, c: seq<Byte>)
    ensures (a + b) + c == a + (b + c)
  {
  }

  /** Chunk i cannot be stored although, with those before it, it is within what is left. */
  predicate StopsAt(room: int, chunks: seq<Chunk>, i: nat)
    requires i < |chunks|
  {
    chunks[i].allocFails && chunks[i].data != [] && |Body(chunks[..i + 1])| <= room
  }

  predicate Stops(room: int, chunks: seq<Chunk>) {
    exists i :: 0 <= i < |chunks| && StopsAt(room, chunks, i)
  }

  lemma BodyGoesOn(chunks: seq<Chunk>, i: nat)
    requires 0 < i <= |chunks|
    ensures Body(chunks[..i]) == chunks[0].data + Body(chunks[1..][..i - 1])
  {
    assert chunks[..i][1..] == chunks[1..][..i - 1];
  }

  lemma StopsNowOrLater(room: int, chunks: seq<Chunk>)
    requires chunks != []
    ensures Stops(room, chunks) <==> StopsAt(room, chunks, 0) || Stops(room - |chunks[0].data|, chunks[1..])
    ensures StopsAt(room, chunks, 0) <==> chunks[0].allocFails && chunks[0].data != [] && |chunks[0].data| <= room
  {
    BodyGoesOn(chunks, 1);
    forall i | 0 < i < |chunks| ensures StopsAt(room, chunks, i) <==> StopsAt(room - |chunks[0].data|, chunks[1..], i - 1) {
      BodyGoesOn(chunks, i + 1);
    }
    if Stops(room - |chunks[0].data|, chunks[1..]) {
      var i :| 0 <= i < |chunks| - 1 && StopsAt(room - |chunks[0].data|, chunks[1..], i);
      assert StopsAt(room, chunks, i + 1);
    }
    if Stops(room, chunks) && !StopsAt(room, chunks, 0) {
      var i :| 0 <= i < |chunks| && StopsAt(room, chunks, i);
      assert StopsAt(room - |chunks[0].data|, chunks[1..], i - 1);
    }
  }

  lemma {:induction false} NothingStops(room: int, chunks: seq<Chunk>)
    requires room < 0
    ensures !Stops(room, chunks)
  {
  }

  /** From a failed allocation on, a bounded response stays failed. */
  lemma {:induction false} FailureStays(p: Policy, s: Sink, chunks: seq<Chunk>)
    requires s.failed && p.mode.Bounded?
    ensures AfterChunks(p, s, chunks).Some? && AfterChunks(p, s, chunks).value.failed
    ensures AfterChunks(p, s, chunks).value.limit == s.limit
    decreases |chunks|
  {
    if chunks != [] {
      FailureStays(p, AfterReceive(p, s, chunks[0]).sink, chunks[1..]);
    }
  }

  /** Once truncated, nothing is stored any more. */
  lemma {:induction false} TruncationStays(p: Policy, s: Sink, chunks: seq<Chunk>)
    requires s.truncated && !s.failed
    ensures AfterChunks(p, s, chunks).Some?
    ensures var s' := AfterChunks(p, s, chunks).value;
            s'.truncated && !s'.failed && s'.buffer == s.buffer && s'.limit == s.limit
    decreases |chunks|
  {
    if chunks != [] {
      TruncationStays(p, AfterReceive(p, s, chunks[0]).sink, chunks[1..]);
    }
  }

  /** What the chunks leave behind: the limit decides on the total alone, unless a chunk within
      it cannot be stored. */
  ghost predicate Filled(p: Policy, s: Sink, chunks: seq<Chunk>, end: Option<Sink>) {
    if Stops(s.limit - |s.buffer|, chunks) then
      if p.mode.Bounded? then end.Some? && end.value.failed && end.value.limit == s.limit else end.None?
    else
      && end.Some? && !end.value.failed && end.value.limit == s.limit
      && (end.value.truncated <==> |s.buffer| + |Body(chunks)| > s.limit)
      && (!end.value.truncated ==> end.value.buffer == s.buffer + Body(chunks))
  }

  lemma {:induction false} ChunksFillBuffer(p: Policy, s: Sink, chunks: seq<Chunk>)
    requires Configurable(p, s) && !s.failed && !s.truncated && |s.buffer| <= s.limit
    ensures Filled(p, s, chunks, AfterChunks(p, s, chunks))
    decreases |chunks|
  {
    if chunks != [] {
      var c, rest, r := chunks[0], chunks[1..], AfterReceive(p, s, chunks[0]);
      StopsNowOrLater(s.limit - |s.buffer|, chunks);
      Joined(s.buffer, c.data, Body(rest));
      if |s.buffer| + |c.data| > s.limit {
        NothingStops(s.limit - |s.buffer| - |c.data|, rest);
        TruncationStays(p, r.sink, rest);
      } else if r.sink.failed {
        FailureStays(p, r.sink, rest);
      } else if !r.threw {
        ChunksFillBuffer(p, r.sink, rest);
      }
    }
  }

  /** What an attempt works under, and whether a chunk of it cannot be stored within that. */
  predicate AllocationStops(p: Policy, found: nat, headers: seq<int>, chunks: seq<Chunk>) {
    !Announced(p, headers) && Stops(LimitOf(p, found, headers), chunks)
  }

  /** Chunking independence.  After whatever earlier attempts, an attempt whose body arrives
      in any chunks is marked truncated exactly when a bounded response announced too much
      or the total exceeds the limit; otherwise the buffer is the exact body. */
  lemma AttemptIgnoresChunking(p: Policy, earlier: Sink, headers: seq<int>, chunks: seq<Chunk>)
    requires Configurable(p, earlier) && !AllocationStops(p, earlier.limit, headers, chunks)
    ensures AfterAttempt(p, earlier, headers, chunks).Some?
    ensures var s := AfterAttempt(p, earlier, headers, chunks).value;
            && (s.truncated <==> Announced(p, headers) || |Body(chunks)| > LimitOf(p, earlier.limit, headers))
            && (!s.truncated ==> s.buffer == Body(chunks))
            && (Announced(p, headers) ==> s.buffer == [])
            && !s.failed
  {
    HeadersSetLimit(p, NextAttempt(earlier), headers);
    var s := AfterHeaders(p, NextAttempt(earlier), headers);
    if Announced(p, headers) {
      TruncationStays(p, s, chunks);
    } else {
      ChunksFillBuffer(p, s, chunks);
      assert s.buffer + Body(chunks) == Body(chunks);
    }
  }

  /** The verdict that is due: by the bytes and the limit, unless a chunk cannot be stored. */
  function Due(p: Policy, found: nat, headers: seq<int>, chunks: seq<Chunk>, success: bool): Verdict {
    if AllocationStops(p, found, headers, chunks) then
      if p.mode.Bounded? then AllocationFailed else Thrown
    else Expected(p, LimitOf(p, found, headers), Announced(p, headers), Body(chunks), success)
  }

  /** The decoder sees the whole body of this attempt or none of it; which, and which error
      otherwise, depends on the bytes and the limit, and on whether storing them fails. */
  lemma VerdictIsExpected(p: Policy, earlier: Sink, headers: seq<int>, chunks: seq<Chunk>, success: bool)
    requires Configurable(p, earlier)
    ensures Judge(p, AfterAttempt(p, earlier, headers, chunks), success) == Due(p, earlier.limit, headers, chunks, success)
  {
    if AllocationStops(p, earlier.limit, headers, chunks) {
      HeadersSetLimit(p, NextAttempt(earlier), headers);
      ChunksFillBuffer(p, AfterHeaders(p, NextAttempt(earlier), headers), chunks);
    } else {
      AttemptIgnoresChunking(p, earlier, headers, chunks);
      if p.mode.HeaderOnly? && |Body(chunks)| > p.size {
        assert Body(chunks) != [];
      }
    }
  }

  /** The same holds of what is decoded when storing a chunk may fail at any point. */
  lemma {:induction false} DecodedIsWholeBody(p: Policy, s: Sink, chunks: seq<Chunk>, success: bool)
    requires Configurable(p, s) && |s.buffer| <= s.limit
    ensures var s' := AfterChunks(p, s, chunks);
            forall b :: Judge(p, s', success) == Decode(b) ==> b == s.buffer + Body(chunks) && |b| <= s.limit
    ensures var s' := AfterChunks(p, s, chunks);
            s'.Some? ==> (s.failed ==> s'.value.failed) && (s.truncated ==> s'.value.truncated)
    decreases |chunks|
  {
    if chunks != [] {
      DecodedIsWholeBody(p, AfterReceive(p, s, chunks[0]).sink, chunks[1..], success);
      Joined(s.buffer, chunks[0].data, Body(chunks[1..]));
    }
  }

  lemma NothingStaleIsDecoded(p: Policy, earlier: Sink, headers: seq<int>, chunks: seq<Chunk>, success: bool, b: seq<Byte>)
    requires Configurable(p, earlier)
    requires Judge(p, AfterAttempt(p, earlier, headers, chunks), success) == Decode(b)
    ensures b == Body(chunks) && |b| <= LimitOf(p, earlier.limit, headers)
  {
    HeadersSetLimit(p, NextAttempt(earlier), headers);
    DecodedIsWholeBody(p, AfterHeaders(p, NextAttempt(earlier), headers), chunks, success);
  }

  // ----- whole attempts, and whole requests -----

  datatype Response = Response(headers: seq<int>, chunks: seq<Chunk>, success: bool)

  /** What the transport has been told so far of an attempt with this body, of which `rest` is
      still to come. */
  ghost predicate Told(p: Policy, s: Sink, body: seq<Byte>, rest: seq<Byte>, consumed: nat, marked: bool) {
    && consumed == s.flow
    && (!p.mode.Bounded? ==> consumed + |rest| == |body| && !marked)
    && (p.mode.Bounded? ==>
          && consumed == |s.buffer|
          && (!marked ==> s.buffer + rest == body && (s.buffer != [] ==> !s.truncated && !s.failed))
          && (marked ==> body != [] && (s.truncated || s.failed)))
  }

  lemma ChunkIsTold(p: Policy, s: Sink, c: Chunk, body: seq<Byte>, rest: seq<Byte>, consumed: nat, marked: bool)
    requires Told(p, s, body, c.data + rest, consumed, marked) && !AfterReceive(p, s, c).threw
    ensures var r := AfterReceive(p, s, c); Told(p, r.sink, body, rest, consumed + r.consumed, marked || r.markFailed)
  {
    assert s.buffer + (c.data + rest) == (s.buffer + c.data) + rest;
    assert c.data == [] ==> c.data + rest == rest;
  }

  /** All is told: a bounded body is decoded exactly if nothing of it was refused. */
  lemma DecodedUnlessMarked(p: Policy, s: Sink, body: seq<Byte>, consumed: nat, marked: bool, success: bool)
    requires p.mode.Bounded? && Told(p, s, body, [], consumed, marked)
    ensures !marked <==> body == [] || Decide(p, s, success) == Decode(body)
  {
    assert s.buffer + [] == s.buffer;
  }

  method ReceiveHeaders(sink: JsonSink, headers: seq<int>)
    modifies sink
    ensures sink.State() == AfterHeaders(sink.policy, old(sink.State()), headers)
  {
    ghost var all := AfterHeaders(sink.policy, sink.State(), headers);
    for i := 0 to |headers|
      invariant AfterHeaders(sink.policy, sink.State(), headers[i..]) == all
    {
      assert headers[i..][1..] == headers[i + 1..];
      sink.OnContentLength(headers[i]);
    }
  }

  /** The transport delivers one response into the sink, and is told how much of it was
      consumed, and whether the event failed. */
  method Receive(sink: JsonSink, runCount: nat, r: Response) returns (v: Verdict, consumed: nat, marked: bool)
    requires Configurable(sink.policy, sink.State())
    requires runCount == 0 ==> sink.State() == NextAttempt(sink.State())
    modifies sink
    ensures v == Judge(sink.policy, AfterAttempt(sink.policy, old(sink.State()), r.headers, r.chunks), r.success)
    ensures v != Thrown ==> Some(sink.State()) == AfterAttempt(sink.policy, old(sink.State()), r.headers, r.chunks)
    ensures Configurable(sink.policy, sink.State())
    ensures sink.State().limit == LimitOf(sink.policy, old(sink.State()).limit, r.headers)
    ensures !sink.policy.mode.Bounded? && v != Thrown ==> consumed == |Body(r.chunks)| && !marked
    ensures sink.policy.mode.Bounded? ==> consumed == |sink.State().buffer|
    ensures sink.policy.mode.Bounded? ==> (!marked <==> Body(r.chunks) == [] || v == Decode(Body(r.chunks)))
  {
    sink.BeginAttempt(runCount);
    ghost var all := AfterAttempt(sink.policy, sink.State(), r.headers, r.chunks);
    ghost var body := Body(r.chunks);
    assert NextAttempt(sink.State()) == sink.State();
    HeadersSetLimit(sink.policy, sink.State(), r.headers);
    ghost var limit := LimitOf(sink.policy, sink.State().limit, r.headers);
    ReceiveHeaders(sink, r.headers);
    consumed, marked := 0, false;
    for i := 0 to |r.chunks|
      invariant AfterChunks(sink.policy, sink.State(), r.chunks[i..]) == all
      invariant Configurable(sink.policy, sink.State()) && sink.State().limit == limit
      invariant Told(sink.policy, sink.State(), body, Body(r.chunks[i..]), consumed, marked)
    {
      assert r.chunks[i..][1..] == r.chunks[i + 1..];
      ghost var before := sink.State();
      var n, failed, threw := sink.OnDataReceive(r.chunks[i]);
      if threw {
        return Thrown, consumed, marked;
      }
      ChunkIsTold(sink.policy, before, r.chunks[i], body, Body(r.chunks[i + 1..]), consumed, marked);
      consumed, marked := consumed + n, marked || failed;
    }
    v := Decide(sink.policy, sink.State(), r.success);
    if sink.policy.mode.Bounded? {
      DecodedUnlessMarked(sink.policy, sink.State(), body, consumed, marked, r.success);
    }
  }

  /** The limit that is in force before the response number n. */
  function LimitBefore(p: Policy, responses: seq<Response>, n: nat): pos
    requires n <= |responses|
  {
    if n == 0 then p.size else LimitOf(p, LimitBefore(p, responses, n - 1), responses[n - 1].headers)
  }

  /** The verdict on response number i: by its own bytes, under the limit in force. */
  predicate JudgedRightly(p: Policy, responses: seq<Response>, i: nat, v: Verdict)
    requires i < |responses|
  {
    var r := responses[i];
    v == Due(p, LimitBefore(p, responses, i), r.headers, r.chunks, r.success)
  }

  /** All attempts of a request: each response is judged by its own bytes, whatever its chunks
      and whatever came before it, but for the limit. */
  method ReceiveAll(p: Policy, responses: seq<Response>) returns (verdicts: seq<Verdict>)
    ensures |verdicts| == |responses|
    ensures forall i :: 0 <= i < |responses| ==> JudgedRightly(p, responses, i, verdicts[i])
  {
    var sink := new JsonSink(p);
    verdicts := [];
    for n := 0 to |responses|
      invariant |verdicts| == n && sink.policy == p && fresh(sink)
      invariant Configurable(p, sink.State()) && sink.State().limit == LimitBefore(p, responses, n)
      invariant n == 0 ==> sink.State() == NextAttempt(sink.State())
      invariant forall i :: 0 <= i < n ==> JudgedRightly(p, responses, i, verdicts[i])
    {
      VerdictIsExpected(p, sink.State(), responses[n].headers, responses[n].chunks, responses[n].success);
      var v, _, _ := Receive(sink, n, responses[n]);
      assert JudgedRightly(p, responses, n, v);
      verdicts := verdicts + [v];
    }
  }

  // ----- what one attempt inherits from another -----

  ghost predicate SameVerdictAfter(p: Policy, headers: seq<int>, s1: Sink, s2: Sink) {
    forall chunks, success ::
      Judge(p, AfterAttempt(p, s1, headers, chunks), success) == Judge(p, AfterAttempt(p, s2, headers, chunks), success)
  }

  /** The verdict on an attempt is independent of the attempts before it exactly when the
      limit cannot be inherited: the mode is not the legacy one, or this attempt's response
      announces a length.  A legacy response without one works under the length that an
      earlier attempt announced. */
  lemma IndependentOfEarlierAttempts(p: Policy, headers: seq<int>)
    ensures (forall s1, s2 :: Configurable(p, s1) && Configurable(p, s2) ==> SameVerdictAfter(p, headers, s1, s2))
            <==> (!p.mode.Legacy? || headers != [])
  {
    if !p.mode.Legacy? || headers != [] {
      forall s1, s2 | Configurable(p, s1) && Configurable(p, s2) ensures SameVerdictAfter(p, headers, s1, s2) {
        forall chunks, success
          ensures Judge(p, AfterAttempt(p, s1, headers, chunks), success)
                  == Judge(p, AfterAttempt(p, s2, headers, chunks), success)
        {
          VerdictIsExpected(p, s1, headers, chunks, success);
          VerdictIsExpected(p, s2, headers, chunks, success);
        }
      }
    } else {
      var s1, s2 := Sink([], 1, false, false, 0), Sink([], 2, false, false, 0);
      var chunks := [Chunk([0, 0], false)];
      assert Body(chunks) == [0, 0] + Body([]) == [0, 0];
      assert !Stops(1, chunks) && !Stops(2, chunks);
      VerdictIsExpected(p, s1, headers, chunks, true);
      VerdictIsExpected(p, s2, headers, chunks, true);
      assert !SameVerdictAfter(p, headers, s1, s2);
    }
  }

  // ----- storage -----

  datatype Event = NewAttempt | Header(length: int) | Data(chunk: Chunk)

  function AfterEvent(p: Policy, s: Sink, e: Event): Sink {
    match e
    case NewAttempt => NextAttempt(s)
    case Header(n) => AfterContentLength(p, s, n)
    case Data(c) => AfterReceive(p, s, c).sink
  }

  function AfterEvents(p: Policy, s: Sink, events: seq<Event>): Sink
    decreases |events|
  {
    if events == [] then s else AfterEvents(p, AfterEvent(p, s, events[0]), events[1..])
  }

  /** A bounded response never stores more than max_body_bytes, over any sequence of
      attempts, headers and chunks, and a header never changes its limit. */
  lemma {:induction false} StorageIsBounded(p: Policy, s: Sink, events: seq<Event>)
    requires p.mode.Bounded? && Configurable(p, s) && |s.buffer| <= p.size
    ensures |AfterEvents(p, s, events).buffer| <= p.size
    ensures AfterEvents(p, s, events).limit == p.size
    decreases |events|
  {
    if events != [] {
      StorageIsBounded(p, AfterEvent(p, s, events[0]), events[1..]);
    }
  }
}
