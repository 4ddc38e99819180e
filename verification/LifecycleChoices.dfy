/** What a run may do: how far retries go, and what is up to the transport, to user code and to
    the pool.  The theorems about all runs are about no fewer runs than these. */
module LifecycleChoices {
  import opened Wrappers
  import opened CompletionGate
  import opened Lifecycle
  import opened LifecycleRuns
  import LI = LifecycleInvariant
  import Theorems = LifecycleTheorems

  // ----- the retry limit is attained -----

  /** The client's thread if every attempt is completed inline and retried: k attempts, each sent
      from within the finish function of the one before. */
  function Tower(g: nat, k: nat): Stack
    requires k > 0
    decreases k, 2
  {
    if k == 1 then Client(g, First(g)) else Resent(g, k, Sending(Attempt(k - 1, g)))
  }

  /** The finish function of attempt k - 1, on top of the attempts before. */
  function Finished(g: nat, k: nat, pc: Pc): Stack
    requires k > 1
    decreases k, 0
  {
    Running(Frame(Completion, g, pc), Tower(g, k - 1))
  }

  function Resent(g: nat, k: nat, pc: Pc): Stack
    requires k > 1
    decreases k, 1
  {
    Running(Frame(Driver, g, pc), Finished(g, k, AwaitingRetry))
  }

  lemma {:induction false} TowerHasNoHook(g: nat, k: nat, a: Attempt)
    requires k > 0
    ensures !InHook(Tower(g, k), a)
  {
    if k > 1 {
      TowerHasNoHook(g, k - 1, a);
      assert !InHook(Finished(g, k, AwaitingRetry), a);
    }
  }

  /** The outstanding attempt is completed from inside its own send. */
  lemma InlineCompletion(c: Settings, g: nat, k: nat)
    requires k > 0 && Reachable(c, Snapshot(g, k, Open(2 * k - 1), [Tower(g, k)]))
    ensures Reachable(c, Snapshot(g, k, Open(2 * k), [Finished(g, k + 1, Working)]).(outstanding := {}))
  {
    TowerHasNoHook(g, k, Attempt(k - 1, g));
    var s := Snapshot(g, k, Open(2 * k - 1), [Tower(g, k)]);
    var s1 := s.(outstanding := {}, stacks := [Finished(g, k + 1, Entering)]);
    assert !HookRuns(s.stacks, Attempt(k - 1, g));
    Follow(c, s, Complete(0, Attempt(k - 1, g)), s1);
    var s2 := Snapshot(g, k, Open(2 * k), [Finished(g, k + 1, Checking)]).(outstanding := {});
    Goes(c, s1, 0, s2);
    Goes(c, s2, 0, s2.(stacks := [Finished(g, k + 1, Working)]));
  }

  lemma InlineRetryIsCalled(c: Settings, g: nat, k: nat)
    requires 0 < k <= c(g).maxRetry
    requires Reachable(c, Snapshot(g, k, Open(2 * k), [Finished(g, k + 1, Working)]).(outstanding := {}))
    ensures Reachable(c, Snapshot(g, k, Open(2 * k), [Resent(g, k + 1, Entering)]).(outstanding := {}))
  {
    var s := Snapshot(g, k, Open(2 * k), [Finished(g, k + 1, Working)]).(outstanding := {});
    var s1 := s.(stacks := [Resent(g, k + 1, Entering)]);
    assert Current(s) == g && Resent(g, k + 1, Entering).below == Finished(g, k + 1, AwaitingRetry);
    Follow(c, s, Advance(0, Retry), s1);
  }

  lemma InlineRetry(c: Settings, g: nat, k: nat)
    requires 0 < k <= c(g).maxRetry && Reachable(c, Snapshot(g, k, Open(2 * k - 1), [Tower(g, k)]))
    ensures Reachable(c, Snapshot(g, k + 1, Open(2 * k + 1), [Tower(g, k + 1)]))
  {
    InlineCompletion(c, g, k);
    InlineRetryIsCalled(c, g, k);
    var s1 := Snapshot(g, k, Open(2 * k), [Resent(g, k + 1, Entering)]).(outstanding := {});
    var s2 := Snapshot(g, k, Open(2 * k + 1), [Resent(g, k + 1, Checking)]).(outstanding := {});
    Goes(c, s1, 0, s2);
    Goes(c, s2, 0, s2.(stacks := [Resent(g, k + 1, Working)]));
    InlineRetryIsSent(c, g, k);
  }

  lemma InlineRetryIsSent(c: Settings, g: nat, k: nat)
    requires 0 < k
    requires Reachable(c, Snapshot(g, k, Open(2 * k + 1), [Resent(g, k + 1, Working)]).(outstanding := {}))
    ensures Reachable(c, Snapshot(g, k + 1, Open(2 * k + 1), [Tower(g, k + 1)]))
  {
    var s := Snapshot(g, k, Open(2 * k + 1), [Resent(g, k + 1, Working)]).(outstanding := {});
    var sent := Running(s.stacks[0].top.(pc := Sending(Attempt(k, g))), s.stacks[0].below);
    assert sent == Tower(g, k + 1);
    Goes(c, s, 0, Snapshot(g, k + 1, Open(2 * k + 1), [sent]));
  }

  lemma {:induction false} EveryAttemptIsMade(c: Settings, g: nat, k: nat)
    requires 1 <= k && (k == 1 || k <= c(g).maxRetry + 1)
    ensures Reachable(c, Snapshot(g, k, Open(2 * k - 1), [Tower(g, k)]))
  {
    if k == 1 {
      FirstAttemptIsSent(c, g);
    } else {
      EveryAttemptIsMade(c, g, k - 1);
      InlineRetry(c, g, k - 1);
    }
  }

  /** In every generation, whatever its settings and those of the others, exactly these numbers of
      attempts occur: none, the first, and one more for each retry that its limit allows. */
  lemma AttemptsAreExactlyBounded(c: Settings, g: nat, k: nat)
    ensures (exists s :: Reachable(c, s) && |s.gens| == g + 1 && s.runs == k)
            <==> k <= 1 || k <= c(g).maxRetry + 1
  {
    if k == 0 {
      GenerationBegins(c, g);
      assert |Beginning(g).gens| == g + 1 && Beginning(g).runs == 0;
    } else if k == 1 || k <= c(g).maxRetry + 1 {
      EveryAttemptIsMade(c, g, k);
      var s := Snapshot(g, k, Open(2 * k - 1), [Tower(g, k)]);
      assert |s.gens| == g + 1 && s.runs == k;
    }
    forall s | Reachable(c, s) && |s.gens| == g + 1 && s.runs == k ensures k <= 1 || k <= c(g).maxRetry + 1 {
      Theorems.AtMostOnceAndBounded(c, s);
    }
  }

  // ----- what is up to the others -----

  predicate At(s: State, t: nat, pc: Pc) {
    s.gens != [] && t < |s.stacks| && s.stacks[t].Running? && s.stacks[t].top.pc == pc && s.stacks[t].top.gen < |s.gens|
  }

  function After(c: Settings, s: State, t: nat, choice: Choice): Option<State> {
    Next(c, s, Advance(t, choice))
  }

  /** On top of thread t is now a new call, for the current generation. */
  predicate Calls(s: State, s': State, t: nat, role: Role) {
    && t < |s'.stacks| && s'.stacks[t].Running? && s.gens != []
    && s'.stacks[t].top == Frame(role, |s.gens| - 1, Entering)
    && s'.gens == s.gens && s'.outstanding == s.outstanding && s'.owner == s.owner
  }

  /** A response may be delivered, may make the decoder throw, and may be retried exactly while
      the limit of the current generation allows it. */
  lemma ResponseChoices(c: Settings, s: State, t: nat)
    requires At(s, t, Working) && (s.stacks[t].top.role == Completion || s.stacks[t].top.role == Late)
    ensures After(c, s, t, Go).Some? && After(c, s, t, Throw).Some?
    ensures var limit := c(|s.gens| - 1).maxRetry; After(c, s, t, Retry).Some? <==> 0 < limit && s.runs <= limit
    ensures After(c, s, t, Retry).Some? ==> Calls(s, After(c, s, t, Retry).value, t, Driver)
  {
  }

  /** An attempt may fail before it is sent, by an exception or by a local error, or be sent; it
      counts in any case, and is outstanding exactly if it was sent. */
  lemma AttemptChoices(c: Settings, s: State, t: nat)
    requires At(s, t, Working) && s.stacks[t].top.role != Completion && s.stacks[t].top.role != Late
    ensures After(c, s, t, Go).Some? && After(c, s, t, Throw).Some? && After(c, s, t, ReportLocally).Some?
    ensures forall choice :: choice in {Go, Throw, ReportLocally} ==> After(c, s, t, choice).value.runs == s.runs + 1
    ensures After(c, s, t, Go).value.outstanding == s.outstanding + {Attempt(s.nextAttempt, s.stacks[t].top.gen)}
    ensures After(c, s, t, Throw).value.outstanding == s.outstanding
    ensures var s' := After(c, s, t, ReportLocally).value; Calls(s, s', t, LocalError)
  {
  }

  /** A sender may return.  It may throw and thereby take its attempt back, unless a hook of the
      attempt is running; after the attempt was completed it may throw only if it is one of
      those that throw late. */
  lemma SenderChoices(c: Settings, s: State, t: nat, a: Attempt)
    requires At(s, t, Sending(a))
    ensures After(c, s, t, Go).Some?
    ensures After(c, s, t, Throw).Some? <==>
              if a in s.outstanding then !HookRuns(s.stacks, a) else c(s.stacks[t].top.gen).senderMayThrowLate
    ensures After(c, s, t, Throw).Some? ==> After(c, s, t, Throw).value.outstanding == s.outstanding - {a}
  {
  }

  /** The transport may complete an outstanding attempt on a new thread, on any idle one, or inline
      on any that is inside a send; a hook of it may report an error there, if it is of that kind;
      and the finish function of a closed generation may be called again. */
  lemma TransportChoices(c: Settings, s: State, t: nat, a: Attempt, g: nat)
    requires s.gens != [] && t <= |s.stacks|
    requires t < |s.stacks| ==> s.stacks[t].Idle? || s.stacks[t].top.pc.Sending?
    ensures Next(c, s, Complete(t, a)).Some? <==> a in s.outstanding && !HookRuns(s.stacks, a)
    ensures Next(c, s, Complete(t, a)).Some? ==>
              var s' := Next(c, s, Complete(t, a)).value;
              && s'.outstanding == s.outstanding - {a} && |s'.stacks| > t
              && s'.stacks[t].Running? && s'.stacks[t].top == Frame(Completion, a.gen, Entering)
    ensures Next(c, s, HookFails(t, a)).Some? <==> a in s.outstanding && c(a.gen).hooksMayFail
    ensures Next(c, s, HookFails(t, a)).Some? ==> Calls(s, Next(c, s, HookFails(t, a)).value, t, HookError(a))
    ensures Next(c, s, CompleteAgain(t, g)).Some? <==> g < |s.gens| && s.gens[g].gate.finishCalled
  {
  }

  /** User code, in the callback or in a finalizer other than the pool's, may call the pipeline
      again, both ways, any number of times. */
  lemma UserMayCallBack(c: Settings, s: State, t: nat, left: nat)
    requires At(s, t, InCallback) || (At(s, t, Cleaning(left)) && left > 1)
    ensures After(c, s, t, Reenter).Some? && Calls(s, After(c, s, t, Reenter).value, t, Reentrant)
    ensures After(c, s, t, ReenterError).Some? && Calls(s, After(c, s, t, ReenterError).value, t, ReentrantError)
    ensures After(c, s, t, Reenter).value.stacks[t].below == s.stacks[t]
    ensures After(c, s, t, ReenterError).value.stacks[t].below == s.stacks[t]
  {
  }

  /** The last scope to leave, after a finish was requested, has all finalizers of its generation
      to run, one after the other; the last of them gives the object away, cached or destroyed. */
  lemma FinalizersRunInTurn(c: Settings, s: State, t: nat, left: nat)
    ensures At(s, t, Leaving) && s.gens[s.stacks[t].top.gen].gate.activeCalls == 1
            && s.gens[s.stacks[t].top.gen].gate.finishPending && !s.gens[s.stacks[t].top.gen].gate.finishCalled ==>
              After(c, s, t, Go).Some?
              && At(After(c, s, t, Go).value, t, Cleaning(c(s.stacks[t].top.gen).extraHooks + 1))
    ensures At(s, t, Cleaning(left)) && left > 1 ==>
              After(c, s, t, Go).Some? && At(After(c, s, t, Go).value, t, Cleaning(left - 1))
              && After(c, s, t, Go).value.gens == s.gens && After(c, s, t, Go).value.owner == s.owner
    ensures At(s, t, Cleaning(1)) ==>
              var g := s.stacks[t].top.gen;
              && After(c, s, t, Go).Some? && After(c, s, t, Go).value.owner == Cached
              && After(c, s, t, Discard).Some? && After(c, s, t, Discard).value.owner == Destroyed
              && After(c, s, t, Go).value.gens[g].cleanups == s.gens[g].cleanups + 1
              && After(c, s, t, Discard).value.gens[g].cleanups == s.gens[g].cleanups + 1
  {
  }

  /** The client may execute an object that is in use and was not executed yet; the pool may hand
      out a cached one again, in a new generation, or lose it to an exception of the reset. */
  lemma OwnerChoices(c: Settings, s: State, t: nat)
    requires s.gens != [] && t <= |s.stacks| && (t < |s.stacks| ==> s.stacks[t].Idle?)
    ensures Next(c, s, Start(t)).Some? <==> s.owner.InUse? && !s.started
    ensures Next(c, s, Reacquire).Some? <==> s.owner.Cached?
    ensures Next(c, s, Reacquire).Some? ==>
              var s' := Next(c, s, Reacquire).value;
              && s'.gens == s.gens + [Generation(Gate(false, false, false, 0), 0, 0)] && s'.owner.InUse?
              && !s'.started && s'.runs == 0 && s'.stacks == s.stacks && s'.outstanding == s.outstanding
    ensures Next(c, s, ReacquireThrows).Some? <==> s.owner.Cached?
    ensures Next(c, s, ReacquireThrows).Some? ==> Next(c, s, ReacquireThrows).value == s.(owner := Destroyed)
  {
  }
}
