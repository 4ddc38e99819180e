/** Runs that go wrong, in any generation of an object: they show that the conditions of the
    theorems cannot be dropped. */
module LifecycleRuns {
  import opened Wrappers
  import opened CompletionGate
  import opened Lifecycle

  lemma {:induction false} RunExtends(c: Settings, s: State, actions: seq<Action>, a: Action)
    requires Run(c, s, actions).Some?
    ensures Run(c, s, actions + [a]) == Next(c, Run(c, s, actions).value, a)
    decreases |actions|
  {
    if actions == [] {
      assert [a][1..] == [];
    } else {
      assert (actions + [a])[1..] == actions[1..] + [a];
      RunExtends(c, Next(c, s, actions[0]).value, actions[1..], a);
    }
  }

  lemma NextIsReachable(c: Settings, s: State, a: Action)
    requires Reachable(c, s) && Next(c, s, a).Some?
    ensures Reachable(c, Next(c, s, a).value)
  {
    var actions :| Run(c, INITIAL, actions) == Some(s);
    RunExtends(c, INITIAL, actions, a);
    assert Run(c, INITIAL, actions + [a]) == Next(c, s, a);
  }

  predicate SameState(s: State, s': State) {
    && s.gens == s'.gens && s.owner == s'.owner && s.started == s'.started && s.runs == s'.runs
    && s.outstanding == s'.outstanding && s.nextAttempt == s'.nextAttempt && s.stacks == s'.stacks
  }

  lemma Follow(c: Settings, s: State, a: Action, s': State)
    requires Reachable(c, s) && Next(c, s, a).Some? && SameState(Next(c, s, a).value, s')
    ensures Reachable(c, s')
  {
    NextIsReachable(c, s, a);
  }

  lemma Goes(c: Settings, s: State, t: nat, s': State)
    requires Reachable(c, s) && Next(c, s, Advance(t, Go)).Some?
    requires SameState(Next(c, s, Advance(t, Go)).value, s')
    ensures Reachable(c, s')
  {
    Follow(c, s, Advance(t, Go), s');
  }

  // ----- states of one generation -----

  const CLOSED := Generation(Gate(true, true, true, 0), 1, 1)

  /** The generations before number g, all over. */
  function Past(g: nat): (p: seq<Generation>)
    ensures |p| == g
  {
    seq(g, _ => CLOSED)
  }

  /** A gate with the given number of open scopes. */
  function Open(calls: nat): Generation { Generation(Gate(false, false, false, calls), 0, 0) }
  function Called(calls: nat): Generation { Generation(Gate(true, false, false, calls), 1, 0) }
  function Pending(calls: nat): Generation { Generation(Gate(true, false, true, calls), 1, 0) }
  const CLEANING := Generation(Gate(true, true, true, 0), 1, 0)

  /** In generation g, after `runs` attempts, of which the last one is outstanding. */
  function Snapshot(g: nat, runs: nat, now: Generation, stacks: seq<Stack>): State {
    State(Past(g) + [now], InUse, true, runs, if runs == 0 then {} else {Attempt(runs - 1, g)}, runs, stacks)
  }

  function Beginning(g: nat): State {
    State(Past(g) + [FRESH_GENERATION], InUse, false, 0, {}, 0, if g == 0 then [] else [Idle])
  }

  /** The client's call in generation g. */
  function Client(g: nat, pc: Pc): Stack { Running(Frame(Driver, g, pc), Idle) }
  /** The finish function of the first attempt, and the retry that it calls. */
  function Finisher(g: nat, pc: Pc): Stack { Running(Frame(Completion, g, pc), Idle) }
  function Retrying(g: nat, pc: Pc): Stack { Running(Frame(Driver, g, pc), Finisher(g, AwaitingRetry)) }
  function First(g: nat): Pc { Sending(Attempt(0, g)) }
  function Second(g: nat): Pc { Sending(Attempt(1, g)) }

  // ----- from one generation to the next -----

  /** The client's thread runs the finalizers, returns, and the pool has the object. */
  lemma {:induction false} CleaningEnds(c: Settings, s: State, g: nat, left: nat, s': State)
    requires Reachable(c, s) && left > 0 && s.gens == Past(g) + [CLEANING]
    requires s.stacks != [] && s.stacks[0] == Client(g, Cleaning(left))
    requires s' == s.(gens := Past(g + 1), owner := Cached, stacks := s.stacks[0 := Idle])
    ensures Reachable(c, s')
    decreases left
  {
    if left > 1 {
      var next := s.(stacks := s.stacks[0 := Client(g, Cleaning(left - 1))]);
      Goes(c, s, 0, next);
      CleaningEnds(c, next, g, left - 1, s');
    } else {
      var next := s.(gens := Past(g + 1), owner := Cached, stacks := s.stacks[0 := Client(g, Unwinding)]);
      assert Past(g + 1) == Past(g) + [CLOSED];
      Goes(c, s, 0, next);
      assert next.stacks[0 := Idle] == s'.stacks;
      Goes(c, next, 0, s');
    }
  }

  lemma FailsAtOnce(c: Settings, g: nat)
    requires Reachable(c, Beginning(g))
    ensures Reachable(c, Snapshot(g, 0, Open(1), [Client(g, Failing)]).(runs := 1))
  {
    Follow(c, Beginning(g), Start(0), Snapshot(g, 0, Open(0), [Client(g, Entering)]));
    Goes(c, Snapshot(g, 0, Open(0), [Client(g, Entering)]), 0, Snapshot(g, 0, Open(1), [Client(g, Checking)]));
    Goes(c, Snapshot(g, 0, Open(1), [Client(g, Checking)]), 0, Snapshot(g, 0, Open(1), [Client(g, Working)]));
    Follow(c, Snapshot(g, 0, Open(1), [Client(g, Working)]), Advance(0, Throw),
           Snapshot(g, 0, Open(1), [Client(g, Failing)]).(runs := 1));
  }

  lemma FailureIsDelivered(c: Settings, g: nat)
    requires Reachable(c, Beginning(g))
    ensures Reachable(c, Snapshot(g, 0, Called(1), [Client(g, Finishing)]).(runs := 1))
  {
    FailsAtOnce(c, g);
    var s := Snapshot(g, 0, Open(1), [Client(g, Failing)]).(runs := 1);
    Goes(c, s, 0, s.(stacks := [Client(g, Claiming)]));
    var s1 := Snapshot(g, 0, Called(1), [Client(g, InCallback)]).(runs := 1);
    Goes(c, s.(stacks := [Client(g, Claiming)]), 0, s1);
    Goes(c, s1, 0, s1.(stacks := [Client(g, Finishing)]));
  }

  lemma FailureIsCleaned(c: Settings, g: nat)
    requires Reachable(c, Beginning(g))
    ensures Reachable(c, Snapshot(g, 0, CLEANING, [Client(g, Cleaning(c(g).extraHooks + 1))]).(runs := 1))
  {
    FailureIsDelivered(c, g);
    var s1 := Snapshot(g, 0, Called(1), [Client(g, Finishing)]).(runs := 1);
    var s2 := Snapshot(g, 0, Pending(1), [Client(g, Leaving)]).(runs := 1);
    Goes(c, s1, 0, s2);
    Goes(c, s2, 0, Snapshot(g, 0, CLEANING, [Client(g, Cleaning(c(g).extraHooks + 1))]).(runs := 1));
  }

  /** Every generation can be reached with nothing left over. */
  lemma {:induction false} GenerationBegins(c: Settings, g: nat)
    ensures Reachable(c, Beginning(g))
  {
    if g == 0 {
      assert Run(c, INITIAL, []) == Some(INITIAL);
      assert Beginning(0) == INITIAL;
    } else {
      GenerationBegins(c, g - 1);
      FailureIsCleaned(c, g - 1);
      var s := Snapshot(g - 1, 0, CLEANING, [Client(g - 1, Cleaning(c(g - 1).extraHooks + 1))]).(runs := 1);
      var s' := s.(gens := Past(g), owner := Cached, stacks := s.stacks[0 := Idle]);
      CleaningEnds(c, s, g - 1, c(g - 1).extraHooks + 1, s');
      Follow(c, s', Reacquire, Beginning(g));
    }
  }

  // ----- a retry is outstanding -----

  /** The first attempt is sent and the client's call is still inside the sender. */
  lemma FirstAttemptIsSent(c: Settings, g: nat)
    ensures Reachable(c, Snapshot(g, 1, Open(1), [Client(g, First(g))]))
  {
    GenerationBegins(c, g);
    Follow(c, Beginning(g), Start(0), Snapshot(g, 0, Open(0), [Client(g, Entering)]));
    Goes(c, Snapshot(g, 0, Open(0), [Client(g, Entering)]), 0, Snapshot(g, 0, Open(1), [Client(g, Checking)]));
    Goes(c, Snapshot(g, 0, Open(1), [Client(g, Checking)]), 0, Snapshot(g, 0, Open(1), [Client(g, Working)]));
    Goes(c, Snapshot(g, 0, Open(1), [Client(g, Working)]), 0, Snapshot(g, 1, Open(1), [Client(g, First(g))]));
  }

  /** Another thread completes the first attempt and decides to retry. */
  lemma RetryIsCalled(c: Settings, g: nat)
    requires c(g).maxRetry > 0
    ensures Reachable(c, Snapshot(g, 1, Open(2), [Client(g, First(g)), Retrying(g, Entering)]).(outstanding := {}))
  {
    FirstAttemptIsSent(c, g);
    var t := Client(g, First(g));
    assert !InHook(t, Attempt(0, g));
    var done := Snapshot(g, 1, Open(1), [t, Finisher(g, Entering)]).(outstanding := {});
    Follow(c, Snapshot(g, 1, Open(1), [t]), Complete(1, Attempt(0, g)), done);
    var s1 := Snapshot(g, 1, Open(2), [t, Finisher(g, Checking)]).(outstanding := {});
    Goes(c, done, 1, s1);
    var s2 := s1.(stacks := [t, Finisher(g, Working)]);
    Goes(c, s1, 1, s2);
    Follow(c, s2, Advance(1, Retry), s1.(stacks := [t, Retrying(g, Entering)]));
  }

  lemma RetryIsSent(c: Settings, g: nat)
    requires c(g).maxRetry > 0
    ensures Reachable(c, Snapshot(g, 2, Open(3), [Client(g, First(g)), Retrying(g, Second(g))]))
  {
    RetryIsCalled(c, g);
    var t := Client(g, First(g));
    var s := Snapshot(g, 1, Open(2), [t, Retrying(g, Entering)]).(outstanding := {});
    var s1 := Snapshot(g, 1, Open(3), [t, Retrying(g, Checking)]).(outstanding := {});
    Goes(c, s, 1, s1);
    var s2 := s1.(stacks := [t, Retrying(g, Working)]);
    Goes(c, s1, 1, s2);
    Goes(c, s2, 1, Snapshot(g, 2, Open(3), [t, Retrying(g, Second(g))]));
  }

  // ----- a hook that reports an error -----

  function Hook(g: nat, gen: nat, pc: Pc): Stack { Running(Frame(HookError(Attempt(1, g)), gen, pc), Idle) }

  /** A hook of the retried attempt reports an error. */
  lemma HookEnters(c: Settings, g: nat)
    requires c(g).maxRetry > 0 && c(g).hooksMayFail
    ensures Reachable(c, Snapshot(g, 2, Open(4), [Client(g, First(g)), Retrying(g, Second(g)), Hook(g, g, Claiming)]))
  {
    RetryIsSent(c, g);
    var t, r := Client(g, First(g)), Retrying(g, Second(g));
    var s := Snapshot(g, 2, Open(3), [t, r]);
    Follow(c, s, HookFails(2, Attempt(1, g)), s.(stacks := [t, r, Hook(g, g, Entering)]));
    var s1 := Snapshot(g, 2, Open(4), [t, r, Hook(g, g, Checking)]);
    Goes(c, s.(stacks := [t, r, Hook(g, g, Entering)]), 2, s1);
    Goes(c, s1, 2, s1.(stacks := [t, r, Hook(g, g, Claiming)]));
  }

  lemma HookClaimsCallback(c: Settings, g: nat)
    requires c(g).maxRetry > 0 && c(g).hooksMayFail
    ensures Reachable(c, Snapshot(g, 2, Called(3), [Client(g, First(g)), Retrying(g, Second(g)), Idle]))
  {
    HookEnters(c, g);
    var t, r := Client(g, First(g)), Retrying(g, Second(g));
    var s := Snapshot(g, 2, Called(4), [t, r, Hook(g, g, InCallback)]);
    Goes(c, Snapshot(g, 2, Open(4), [t, r, Hook(g, g, Claiming)]), 2, s);
    Goes(c, s, 2, s.(stacks := [t, r, Hook(g, g, Leaving)]));
    Goes(c, s.(stacks := [t, r, Hook(g, g, Leaving)]), 2, Snapshot(g, 2, Called(3), [t, r, Idle]));
  }

  /** The finish function of the first attempt returns and finds the callback claimed. */
  lemma FinisherSeesCallback(c: Settings, g: nat)
    requires c(g).maxRetry > 0 && c(g).hooksMayFail
    ensures Reachable(c, Snapshot(g, 2, Called(2), [Client(g, First(g)), Finisher(g, Finishing), Idle]))
  {
    HookClaimsCallback(c, g);
    var t := Client(g, First(g));
    var s := Snapshot(g, 2, Called(3), [t, Retrying(g, Second(g)), Idle]);
    Goes(c, s, 1, s.(stacks := [t, Retrying(g, Leaving), Idle]));
    var s1 := Snapshot(g, 2, Called(2), [t, Finisher(g, Rechecking), Idle]);
    Goes(c, s.(stacks := [t, Retrying(g, Leaving), Idle]), 1, s1);
    Goes(c, s1, 1, s1.(stacks := [t, Finisher(g, Finishing), Idle]));
  }

  lemma FinisherRequestsFinish(c: Settings, g: nat)
    requires c(g).maxRetry > 0 && c(g).hooksMayFail
    ensures Reachable(c, Snapshot(g, 2, Pending(1), [Client(g, First(g)), Idle, Idle]))
  {
    FinisherSeesCallback(c, g);
    var t := Client(g, First(g));
    var s := Snapshot(g, 2, Pending(2), [t, Finisher(g, Leaving), Idle]);
    Goes(c, Snapshot(g, 2, Called(2), [t, Finisher(g, Finishing), Idle]), 1, s);
    Goes(c, s, 1, Snapshot(g, 2, Pending(1), [t, Idle, Idle]));
  }

  /** The finalizers start although the retry is outstanding. */
  function CleanedTooEarly(c: Settings, g: nat, others: seq<Stack>): State {
    Snapshot(g, 2, CLEANING, [Client(g, Cleaning(c(g).extraHooks + 1))] + others)
  }

  lemma HookLetsCleanupBegin(c: Settings, g: nat)
    requires c(g).maxRetry > 0 && c(g).hooksMayFail
    ensures Reachable(c, CleanedTooEarly(c, g, [Idle, Idle]))
  {
    FinisherRequestsFinish(c, g);
    var s := Snapshot(g, 2, Pending(1), [Client(g, First(g)), Idle, Idle]);
    var s1 := s.(stacks := [Client(g, Leaving), Idle, Idle]);
    Goes(c, s, 0, s1);
    Goes(c, s1, 0, CleanedTooEarly(c, g, [Idle, Idle]));
  }

  /** A hook of the retried attempt reports an error before the finish function of the
      first attempt returns: that function then requests the finish, and the finalizers
      start under the outstanding retry. */
  lemma FailingHookIsUnsafe(c: Settings, g: nat)
    requires c(g).maxRetry > 0 && c(g).hooksMayFail
    ensures exists s :: Reachable(c, s) && CleansUnderAttempt(s)
  {
    HookLetsCleanupBegin(c, g);
    CleansTooEarly(c, g, [Idle, Idle]);
  }

  /** A finalizer is about to run, an attempt of the same generation is outstanding. */
  predicate CleansUnderAttempt(s: State) {
    && s.gens != [] && s.gens[Current(s)].gate.finishCalled
    && (exists t | 0 <= t < |s.stacks| :: s.stacks[t].Running? && s.stacks[t].top.pc.Cleaning?)
    && exists a | a in s.outstanding :: a.gen == Current(s)
  }

  lemma CleansTooEarly(c: Settings, g: nat, others: seq<Stack>)
    ensures CleansUnderAttempt(CleanedTooEarly(c, g, others))
  {
    var s := CleanedTooEarly(c, g, others);
    assert Attempt(1, g) in s.outstanding && Attempt(1, g).gen == Current(s);
    assert s.stacks[0].top.pc.Cleaning?;
  }

  // ----- a sender that throws late -----

  /** The retry is outstanding and only the client's call is still inside the gate. */
  lemma OnlyClientIsLeft(c: Settings, g: nat)
    requires c(g).maxRetry > 0
    ensures Reachable(c, Snapshot(g, 2, Open(1), [Client(g, First(g)), Idle]))
  {
    RetryIsSent(c, g);
    var t := Client(g, First(g));
    var s := Snapshot(g, 2, Open(3), [t, Retrying(g, Second(g))]);
    Goes(c, s, 1, s.(stacks := [t, Retrying(g, Leaving)]));
    var s1 := Snapshot(g, 2, Open(2), [t, Finisher(g, Rechecking)]);
    Goes(c, s.(stacks := [t, Retrying(g, Leaving)]), 1, s1);
    Goes(c, s1, 1, s1.(stacks := [t, Finisher(g, Leaving)]));
    Goes(c, s1.(stacks := [t, Finisher(g, Leaving)]), 1, Snapshot(g, 2, Open(1), [t, Idle]));
  }

  /** The first sender throws after its attempt was completed and retried. */
  lemma LateThrowIsDelivered(c: Settings, g: nat)
    requires c(g).maxRetry > 0 && c(g).senderMayThrowLate
    ensures Reachable(c, Snapshot(g, 2, Called(1), [Client(g, InCallback), Idle]))
  {
    OnlyClientIsLeft(c, g);
    var s := Snapshot(g, 2, Open(1), [Client(g, First(g)), Idle]);
    Follow(c, s, Advance(0, Throw), s.(stacks := [Client(g, Failing), Idle]));
    Goes(c, s.(stacks := [Client(g, Failing), Idle]), 0, s.(stacks := [Client(g, Claiming), Idle]));
    Goes(c, s.(stacks := [Client(g, Claiming), Idle]), 0, Snapshot(g, 2, Called(1), [Client(g, InCallback), Idle]));
  }

  lemma LateThrowLetsCleanupBegin(c: Settings, g: nat)
    requires c(g).maxRetry > 0 && c(g).senderMayThrowLate
    ensures Reachable(c, CleanedTooEarly(c, g, [Idle]))
  {
    LateThrowIsDelivered(c, g);
    var s := Snapshot(g, 2, Called(1), [Client(g, InCallback), Idle]);
    Goes(c, s, 0, s.(stacks := [Client(g, Finishing), Idle]));
    var s1 := Snapshot(g, 2, Pending(1), [Client(g, Leaving), Idle]);
    Goes(c, s.(stacks := [Client(g, Finishing), Idle]), 0, s1);
    Goes(c, s1, 0, CleanedTooEarly(c, g, [Idle]));
  }

  /** The exception is delivered and the finish requested, and the finalizers start under the
      outstanding retry. */
  lemma LateThrowIsUnsafe(c: Settings, g: nat)
    requires c(g).maxRetry > 0 && c(g).senderMayThrowLate
    ensures exists s :: Reachable(c, s) && CleansUnderAttempt(s)
  {
    LateThrowLetsCleanupBegin(c, g);
    CleansTooEarly(c, g, [Idle]);
  }

  /** The pool then has the object back although an attempt is outstanding. */
  function GivenBackTooEarly(g: nat, others: seq<Stack>): State {
    State(Past(g + 1), Cached, true, 2, {Attempt(1, g)}, 2, [Idle] + others)
  }

  lemma EarlyCleanupEnds(c: Settings, g: nat, others: seq<Stack>)
    requires Reachable(c, CleanedTooEarly(c, g, others))
    ensures Reachable(c, GivenBackTooEarly(g, others))
  {
    var s := CleanedTooEarly(c, g, others);
    assert s.stacks[0 := Idle] == [Idle] + others;
    CleaningEnds(c, s, g, c(g).extraHooks + 1, GivenBackTooEarly(g, others));
  }

  // ----- a hook of the generation before -----

  /** The next generation, with the retry of the one before still outstanding. */
  function Inherited(g: nat, started: bool, runs: nat, now: Generation, st: Stack): State {
    State(Past(g + 1) + [now], InUse, started, runs, {Attempt(1, g)}, 2, [st, Idle, Idle])
  }

  lemma AttemptIsInherited(c: Settings, g: nat)
    requires c(g).maxRetry > 0 && c(g).hooksMayFail
    ensures Reachable(c, Inherited(g, false, 0, Open(0), Idle))
  {
    HookLetsCleanupBegin(c, g);
    EarlyCleanupEnds(c, g, [Idle, Idle]);
    Follow(c, GivenBackTooEarly(g, [Idle, Idle]), Reacquire, Inherited(g, false, 0, Open(0), Idle));
  }

  /** The hook of the old attempt claims the callback of the new generation. */
  lemma OldHookClaims(c: Settings, g: nat)
    requires c(g).maxRetry > 0 && c(g).hooksMayFail
    ensures Reachable(c, Inherited(g, false, 0, Called(0), Idle))
  {
    AttemptIsInherited(c, g);
    var s := Inherited(g, false, 0, Open(0), Idle);
    var s1 := Inherited(g, false, 0, Open(0), Hook(g, g + 1, Entering));
    Follow(c, s, HookFails(0, Attempt(1, g)), s1);
    var s2 := Inherited(g, false, 0, Open(1), Hook(g, g + 1, Checking));
    Goes(c, s1, 0, s2);
    var s3 := Inherited(g, false, 0, Open(1), Hook(g, g + 1, Claiming));
    Goes(c, s2, 0, s3);
    OldHookReturns(c, g, s3);
  }

  lemma OldHookReturns(c: Settings, g: nat, s: State)
    requires s == Inherited(g, false, 0, Open(1), Hook(g, g + 1, Claiming)) && Reachable(c, s)
    ensures Reachable(c, Inherited(g, false, 0, Called(0), Idle))
  {
    var s1 := Inherited(g, false, 0, Called(1), Hook(g, g + 1, InCallback));
    Goes(c, s, 0, s1);
    var s2 := Inherited(g, false, 0, Called(1), Hook(g, g + 1, Leaving));
    Goes(c, s1, 0, s2);
    Goes(c, s2, 0, Inherited(g, false, 0, Called(0), Idle));
  }

  /** The client's call finds the callback claimed and returns; nobody requests the finish. */
  lemma ClientIsTurnedAway(c: Settings, g: nat)
    requires c(g).maxRetry > 0 && c(g).hooksMayFail
    ensures Reachable(c, Inherited(g, true, 0, Called(0), Idle))
  {
    OldHookClaims(c, g);
    var s1 := Inherited(g, true, 0, Called(0), Client(g + 1, Entering));
    Follow(c, Inherited(g, false, 0, Called(0), Idle), Start(0), s1);
    var s2 := Inherited(g, true, 0, Called(1), Client(g + 1, Checking));
    Goes(c, s1, 0, s2);
    var s3 := Inherited(g, true, 0, Called(1), Client(g + 1, Leaving));
    Goes(c, s2, 0, s3);
    Goes(c, s3, 0, Inherited(g, true, 0, Called(0), Idle));
  }

  /** The run comes to rest with the finalizers of the new generation not called. */
  lemma OldHookLeavesUncleaned(c: Settings, g: nat)
    requires c(g).maxRetry > 0 && c(g).hooksMayFail
    ensures exists s :: Reachable(c, s) && s.started && Quiet(s) && s.owner.InUse?
                        && s.gens != [] && s.gens[Current(s)].callbacks == 1 && s.gens[Current(s)].cleanups == 0
  {
    ClientIsTurnedAway(c, g);
    var s := Inherited(g, true, 0, Called(0), Idle);
    var s1 := Inherited(g, true, 0, Called(0), Finisher(g, Entering)).(outstanding := {});
    Follow(c, s, Complete(0, Attempt(1, g)), s1);
    var s2 := s.(outstanding := {});
    assert s1.gens[g] == CLOSED;
    Goes(c, s1, 0, s2);
    assert Quiet(s2);
  }
}
