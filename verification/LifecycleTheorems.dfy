/** What every run of the lifecycle machine guarantees, and exactly when. */
module LifecycleTheorems {
  import opened Wrappers
  import opened CompletionGate
  import opened Lifecycle
  import opened LifecycleInvariant
  import opened LifecycleSteps
  import opened LifecycleRuns

  lemma ReachableInv(c: Settings, s: State)
    requires Reachable(c, s)
    ensures Inv(c, s)
  {
    var actions :| Run(c, INITIAL, actions) == Some(s);
    InitialInv(c);
    RunKeepsInv(c, INITIAL, actions);
  }

  lemma ReachableCounts(c: Settings, s: State)
    requires Reachable(c, s)
    ensures s.gens != [] && CountsOk(c, s, Total(s.stacks, Current(s)))
  {
    ReachableInv(c, s);
  }

  // ----- the theorems -----

  /** Every attempt belongs to the generation it is calm in, so to the current one. */
  lemma TameRunsAreSafe(c: Settings, s: State)
    requires Tame(c) && Reachable(c, s)
    ensures Safe(s)
  {
    ReachableInv(c, s);
    var cur := Current(s);
    forall a | a in s.outstanding ensures a.gen == cur {
      assert TameConfig(c(a.gen)) && Calm(c, a.gen);
    }
    assert TameConfig(c(cur)) && Calm(c, cur);
    assert s.outstanding == Live(s.outstanding, cur);
  }

  /** Cleaning up under an outstanding attempt is what is unsafe. */
  lemma EarlyCleanupIsUnsafe(s: State)
    requires CleansUnderAttempt(s)
    ensures !Safe(s)
  {
  }

  /** Every run, through any number of generations, is safe exactly when each generation has
      retries off, or no hook that reports an error and no sender that throws after its
      completion. */
  lemma SafetyExactlyWhenTame(c: Settings)
    ensures (forall s :: Reachable(c, s) ==> Safe(s)) <==>
            (forall g: nat :: c(g).maxRetry <= 0 || (!c(g).hooksMayFail && !c(g).senderMayThrowLate))
  {
    if Tame(c) {
      forall g: nat ensures c(g).maxRetry <= 0 || (!c(g).hooksMayFail && !c(g).senderMayThrowLate) {
        assert TameConfig(c(g));
      }
      forall s | Reachable(c, s) ensures Safe(s) { TameRunsAreSafe(c, s); }
    } else {
      var g: nat :| !TameConfig(c(g));
      var s := UnsafeRun(c, g);
      assert !Safe(s);
    }
  }

  lemma UnsafeRun(c: Settings, g: nat) returns (s: State)
    requires !TameConfig(c(g))
    ensures Reachable(c, s) && !Safe(s)
  {
    if c(g).hooksMayFail {
      FailingHookIsUnsafe(c, g);
    } else {
      LateThrowIsUnsafe(c, g);
    }
    s :| Reachable(c, s) && CleansUnderAttempt(s);
    EarlyCleanupIsUnsafe(s);
  }

  lemma {:induction false} NothingInQuietStacks(s: State, n: nat, w: Frame -> Tally)
    requires Quiet(s) && n <= |s.stacks|
    ensures Sum(w, s.stacks, n) == ZERO
  {
    if n > 0 {
      NothingInQuietStacks(s, n - 1, w);
    }
  }

  lemma QuietTotal(c: Settings, s: State) returns (n: Tally)
    requires Reachable(c, s) && Quiet(s)
    ensures s.gens != [] && n == ZERO && CountsOk(c, s, n)
  {
    ReachableCounts(c, s);
    NothingInQuietStacks(s, |s.stacks|, WeightIn(Current(s)));
    n := Total(s.stacks, Current(s));
  }

  predicate Done(s: State) {
    s.owner != InUse && forall i :: 0 <= i < |s.gens| ==> s.gens[i].callbacks == 1 && s.gens[i].cleanups == 1
  }

  lemma NothingLiveAtRest(s: State, gen: nat)
    requires s.outstanding == {}
    ensures Live(s.outstanding, gen) == {}
  {
  }

  /** Quiescence.  Once the client has called asyncExecute, every state without a running
      call and without an outstanding attempt has run the user callback exactly once in every
      generation of the object, whatever the settings.  It has also run the finalizers exactly
      once and given the object away, in the first generation always, and later if no earlier
      generation had both retries and hooks that report errors.  Throwing senders and
      parsers, early errors, null responses and failed retries are all among the runs. */
  lemma QuietMeansDone(c: Settings, s: State)
    requires Reachable(c, s) && s.started && Quiet(s)
    ensures forall i :: 0 <= i < |s.gens| ==> s.gens[i].callbacks == 1
    ensures Orderly(c) || |s.gens| == 1 ==> Done(s)
  {
    var n := QuietTotal(c, s);
    NothingLiveAtRest(s, Current(s));
    var g := s.gens[Current(s)].gate;
    assert g.callbackCalled;
    if Steady(c, s) {
      assert g.finishPending;
      assert g.finishCalled;
    }
  }

  /** The condition is exact: every run, whenever it rests, is done, if and only if no
      generation has both retries and hooks that report errors.  Senders that throw late do
      no harm here, although they make a run unsafe. */
  lemma QuiescenceExactlyWhenOrderly(c: Settings)
    ensures (forall s :: Reachable(c, s) && s.started && Quiet(s) ==> Done(s)) <==>
            (forall g: nat :: c(g).maxRetry <= 0 || !c(g).hooksMayFail)
  {
    if Orderly(c) {
      forall s | Reachable(c, s) && s.started && Quiet(s) ensures Done(s) { QuietMeansDone(c, s); }
    } else {
      var g: nat :| c(g).maxRetry > 0 && c(g).hooksMayFail;
      OldHookLeavesUncleaned(c, g);
    }
  }

  /** In no state, whatever the settings, has the callback or the cleanup of a generation run
      twice; at most one attempt of the current generation is outstanding; and a generation
      makes at most maxRetry + 1 attempts (one if the limit is not positive). */
  lemma AtMostOnceAndBounded(c: Settings, s: State)
    requires Reachable(c, s)
    ensures s.gens != []
    ensures forall i :: 0 <= i < |s.gens| ==> s.gens[i].callbacks <= 1 && s.gens[i].cleanups <= 1
    ensures |Live(s.outstanding, Current(s))| <= 1
    ensures var limit := c(Current(s)).maxRetry; s.runs <= (if limit > 0 then limit else 0) + 1
  {
    ReachableInv(c, s);
  }

  /** A frame that touches the object: inside the gate, or running its finalizers. */
  predicate Touches(f: Frame) { InScope(f) || f.pc.Cleaning? }

  /** Generation isolation: whoever is inside the gate, or runs finalizers, does so with the
      gate that the object holds now, and the object is neither cached nor destroyed. */
  lemma TouchesOnlyItsGeneration(c: Settings, s: State, t: nat, f: Frame)
    requires Reachable(c, s)
    requires t < |s.stacks| && In(f, s.stacks[t]) && Touches(f)
    ensures s.gens != [] && f.gen == Current(s) && s.owner == InUse
    ensures InScope(f) ==> !s.gens[f.gen].gate.finishCalled
  {
    ReachableInv(c, s);
    assert FrameOk(c, s, f);
    FrameIsInTotal(s.stacks, t, f, Current(s));
  }

  lemma CleaningMeansClosed(c: Settings, s: State, t: nat, f: Frame)
    requires Inv(c, s)
    requires t < |s.stacks| && In(f, s.stacks[t]) && f.pc.Cleaning?
    ensures var n := Total(s.stacks, Current(s));
            f.gen == Current(s) && n.scopes == 0 && n.cleaners == 1 && s.gens[Current(s)].gate.callbackCalled
  {
    assert FrameOk(c, s, f);
    FrameIsInTotal(s.stacks, t, f, Current(s));
  }

  /** The cleanup is exclusive: while a finalizer runs, no call of any thread is inside the
      gate, so the user callback has run and returned, and no other thread cleans up. */
  lemma FinalizersRunAlone(c: Settings, s: State, t: nat, f: Frame, u: nat, g: Frame)
    requires Reachable(c, s)
    requires t < |s.stacks| && In(f, s.stacks[t]) && f.pc.Cleaning?
    requires u < |s.stacks| && In(g, s.stacks[u])
    ensures !InScope(g) && (u != t ==> !g.pc.Cleaning?)
    ensures f.gen < |s.gens| && s.gens[f.gen].callbacks == 1 && s.gens[f.gen].cleanups == 0
  {
    ReachableInv(c, s);
    CleaningMeansClosed(c, s, t, f);
    if InScope(g) {
      assert FrameOk(c, s, g);
      FrameIsInTotal(s.stacks, u, g, Current(s));
    } else if u != t && g.pc.Cleaning? {
      CleaningMeansClosed(c, s, u, g);
      TwoCleanersAreCounted(s.stacks, t, f, u, g, Current(s));
    }
  }

  lemma TwoCleanersAreCounted(stacks: seq<Stack>, t: nat, f: Frame, u: nat, g: Frame, cur: nat)
    requires t < |stacks| && u < |stacks| && t != u && In(f, stacks[t]) && In(g, stacks[u])
    requires f.pc.Cleaning? && g.pc.Cleaning? && f.gen == g.gen == cur
    ensures Total(stacks, cur).cleaners >= 2
  {
    TwoStacksAreCounted(WeightIn(cur), stacks, t, u, |stacks|);
    FrameIsCounted(WeightIn(cur), f, stacks[t]);
    FrameIsCounted(WeightIn(cur), g, stacks[u]);
  }

  lemma {:induction false} TwoStacksAreCounted(w: Frame -> Tally, stacks: seq<Stack>, t: nat, u: nat, n: nat)
    requires t < n <= |stacks| && u < n && t != u
    ensures Leq(Plus(WeighStack(w, stacks[t]), WeighStack(w, stacks[u])), Sum(w, stacks, n))
  {
    if t < n - 1 && u < n - 1 {
      TwoStacksAreCounted(w, stacks, t, u, n - 1);
    } else {
      StackIsCounted(w, stacks, if t < n - 1 then t else u, n - 1);
    }
  }

  // ----- late calls, in every configuration -----

  lemma StepKeepsClosed(c: Settings, s: State, t: nat, f: Frame, below: Stack, choice: Choice, g: nat)
    requires t <= |s.stacks| && f.gen < |s.gens| && Step(c, s, t, f, below, choice).Some?
    requires g < |s.gens| && s.gens[g].gate.finishCalled
    ensures var s' := Step(c, s, t, f, below, choice).value; g < |s'.gens| && s'.gens[g].gate.finishCalled
  {
    match f.pc
    case Working =>
    case Cleaning(left) =>
    case Leaving =>
    case Claiming =>
    case _ =>
  }

  lemma ClosedStaysClosed(c: Settings, s: State, a: Action, g: nat)
    requires g < |s.gens| && s.gens[g].gate.finishCalled && Next(c, s, a).Some?
    ensures var s' := Next(c, s, a).value; g < |s'.gens| && s'.gens[g].gate.finishCalled
  {
    match a
    case Advance(t, choice) => StepKeepsClosed(c, s, t, s.stacks[t].top, s.stacks[t].below, choice, g);
    case _ =>
  }

  /** A generation that is closed stays closed, however the run goes on: no later call that
      captured its gate is ever admitted, even after the object was handed out again. */
  lemma {:induction false} ClosedForever(c: Settings, s: State, actions: seq<Action>, g: nat)
    requires g < |s.gens| && s.gens[g].gate.finishCalled && Run(c, s, actions).Some?
    ensures var s' := Run(c, s, actions).value;
            g < |s'.gens| && s'.gens[g].gate.finishCalled && !AfterEnter(s'.gens[g].gate).accepted
    decreases |actions|
  {
    if actions != [] {
      ClosedStaysClosed(c, s, actions[0], g);
      ClosedForever(c, Next(c, s, actions[0]).value, actions[1..], g);
    }
  }

  /** A finish function of a closed generation that is called once more changes nothing:
      after its two steps the state is what it was. */
  lemma LateCallDoesNothing(c: Settings, s: State, t: nat, g: nat, choice: Choice)
    requires Next(c, s, CompleteAgain(t, g)).Some? && t < |s.stacks|
    ensures var s' := Next(c, s, CompleteAgain(t, g)).value;
            Next(c, s', Advance(t, choice)) == Some(s)
  {
    var s' := Next(c, s, CompleteAgain(t, g)).value;
    var s'' := Next(c, s', Advance(t, choice)).value;
    assert Resume(s.stacks[t]) == s.stacks[t];
    assert s''.stacks == s.stacks;
  }
}
