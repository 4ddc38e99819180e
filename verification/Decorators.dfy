/** Chains that grow: the outcome decorators, to which every send may add a CRC check, and
    the finalizers, which run in reverse. */
module Decorators {
  import opened Wrappers

  /** `rest` stands for everything in an outcome that the CRC check does not look at. */
  datatype Outcome<T> = Outcome(success: bool, clientError: bool, message: string, serverCrc: nat, computedCrc: nat, rest: T)

  const CRC_MESSAGE := "Check CRC failed: CRC checksum of client is mismatch with tos"

  function CheckCrc<T>(o: Outcome<T>): Outcome<T> {
    if o.serverCrc > 0 && o.computedCrc != o.serverCrc then
      o.(success := false, clientError := true, message := CRC_MESSAGE)
    else o
  }

  type Decorator<!T> = Outcome<T> -> Outcome<T>

  function Decorate<T>(d: Option<Decorator<T>>, o: Outcome<T>): Outcome<T> {
    if d.Some? then d.value(o) else o
  }

  /** The pipeline's decorator slot and its sender with CRC checking enabled. */
  class Pipeline<T(!new)> {
    var decorator: Option<Decorator<T>>

    constructor ()
      ensures decorator == None
    {
      decorator := None;
    }

    method DecorateOutcome(f: Decorator<T>)
      modifies this
      ensures forall o :: Decorate(decorator, o) == f(Decorate(old(decorator), o))
    {
      var oldDec := decorator;
      decorator := Some((o: Outcome<T>) => f(Decorate(oldDec, o)));
    }

    /** Every attempt without a Range header appends one more check before it is sent. */
    method SendWithCrc(hasRange: bool)
      modifies this
      ensures forall o :: Decorate(decorator, o) ==
                if hasRange then Decorate(old(decorator), o) else CheckCrc(Decorate(old(decorator), o))
    {
      if !hasRange {
        DecorateOutcome(o => CheckCrc(o));
      }
    }

    /** A run of attempts, told which of them carried a Range header. */
    method SendAll(ranges: seq<bool>)
      modifies this
      ensures forall o :: Decorate(decorator, o) == Repeat(Unchecked(ranges), Decorate(old(decorator), o))
      ensures forall o :: Decorate(decorator, o) ==
                if false in ranges then CheckCrc(Decorate(old(decorator), o)) else Decorate(old(decorator), o)
    {
      for i := 0 to |ranges|
        invariant forall o :: Decorate(decorator, o) == Repeat(Unchecked(ranges[..i]), Decorate(old(decorator), o))
      {
        SendWithCrc(ranges[i]);
        assert ranges[..i + 1][..i] == ranges[..i];
      }
      assert ranges[..|ranges|] == ranges;
      UncheckedMeansMember(ranges);
      forall o ensures Repeat(Unchecked(ranges), Decorate(old(decorator), o)) ==
                       if false in ranges then CheckCrc(Decorate(old(decorator), o)) else Decorate(old(decorator), o)
      {
        if false in ranges {
          RepeatedChecksAreOne(Unchecked(ranges), Decorate(old(decorator), o));
        }
      }
    }
  }

  /** How many attempts had no Range header. */
  function Unchecked(ranges: seq<bool>): nat {
    if ranges == [] then 0
    else Unchecked(ranges[..|ranges| - 1]) + if ranges[|ranges| - 1] then 0 else 1
  }

  function Repeat<T>(k: nat, o: Outcome<T>): Outcome<T> {
    if k == 0 then o else CheckCrc(Repeat(k - 1, o))
  }

  lemma {:induction false} UncheckedMeansMember(ranges: seq<bool>)
    ensures Unchecked(ranges) > 0 <==> false in ranges
  {
    if ranges != [] {
      var n := |ranges| - 1;
      UncheckedMeansMember(ranges[..n]);
      assert ranges == ranges[..n] + [ranges[n]];
    }
  }

  /** The growth of the chain is harmless: any positive number of checks is one check. */
  lemma {:induction false} RepeatedChecksAreOne<T>(k: nat, o: Outcome<T>)
    requires k > 0
    ensures Repeat(k, o) == CheckCrc(o)
  {
    if k > 1 {
      RepeatedChecksAreOne(k - 1, o);
    }
  }

  /** What a success means after any number of attempts of which one had no Range header:
      the server sent no CRC or the computed one equals it, and no check changed anything. */
  lemma SuccessMeansCrcHolds<T>(ranges: seq<bool>, o: Outcome<T>)
    requires false in ranges
    ensures var r := Repeat(Unchecked(ranges), o);
            r.success ==> (r.serverCrc == 0 || r.computedCrc == r.serverCrc) && r == o
    ensures var r := Repeat(Unchecked(ranges), o);
            !r.success ==> !o.success || (o.serverCrc > 0 && o.computedCrc != o.serverCrc)
    ensures var r := Repeat(Unchecked(ranges), o);
            if o.serverCrc > 0 && o.computedCrc != o.serverCrc then
              !r.success && r.clientError && r.message == "Check CRC failed: CRC checksum of client is mismatch with tos"
              && r.serverCrc == o.serverCrc && r.computedCrc == o.computedCrc && r.rest == o.rest
            else r == o
  {
    UncheckedMeansMember(ranges);
    RepeatedChecksAreOne(Unchecked(ranges), o);
  }

  // ----- finalizers -----

  /** A registered hook. */
  datatype Hook = Hook(id: nat)

  class Finalizers {
    var hooks: seq<Hook>
    /** The hooks that were called, in order. */
    var called: seq<Hook>

    constructor ()
      ensures hooks == [] && called == []
    {
      hooks, called := [], [];
    }

    method AfterPipelineFinish(h: Hook)
      modifies this
      ensures hooks == old(hooks) + [h] && called == old(called)
    {
      hooks := hooks + [h];
    }

    /** Calls one hook; an exception of it goes no further than this call. */
    method CallContained(h: Hook)
      modifies this`called
      ensures called == old(called) + [h]
    {
      called := called + [h];
    }

    /** The list is taken over first, so no hook runs twice, and a hook that throws does not
        keep the others from running: each is called once, the last one registered first,
        and the one registered first, which returns the object to its pool, last of all. */
    method RunFinish()
      modifies this
      ensures hooks == [] && |called| == |old(called)| + |old(hooks)| && old(called) <= called
      ensures LastFirst(called[|old(called)|..], old(hooks))
    {
      var taken := hooks;
      hooks := [];
      var i := |taken|;
      ghost var calls: seq<Hook> := [];
      while i > 0
        invariant 0 <= i <= |taken| && hooks == []
        invariant called == old(called) + calls && |calls| == |taken| - i && LastFirst(calls, taken)
      {
        i := i - 1;
        CallContained(taken[i]);
        calls := calls + [taken[i]];
      }
      assert called[|old(called)|..] == calls;
    }
  }

  /** The calls so far are those of the hooks from the last one down. */
  predicate LastFirst(calls: seq<Hook>, hooks: seq<Hook>) {
    |calls| <= |hooks| && forall k :: 0 <= k < |calls| ==> calls[k] == hooks[|hooks| - 1 - k]
  }
}
