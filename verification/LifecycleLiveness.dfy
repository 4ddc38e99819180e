/** Every run comes to rest.  A measure falls with every step that the threads of a pipeline
    and its transport take by themselves; only calls from outside (a client, user code that
    calls back in, a hook, the pool) raise it.  And as long as something is running or
    outstanding, such a step is possible. */
module LifecycleLiveness {
  import opened Wrappers
  import opened CompletionGate
  import opened Lifecycle
  import opened LifecycleInvariant
  import opened LifecycleSteps
  import opened LifecycleTheorems
  import Runs = LifecycleRuns

  /** Steps that nobody outside has to ask for: the transport completes an attempt, or a
      thread goes on without calling back in. */
  predicate Own(a: Action) {
    a.Complete? || (a.Advance? && a.choice != Reenter && a.choice != ReenterError)
  }

  // ----- the measure -----

  /** The largest number of finalizers of any generation so far. */
  function MostHooks(c: Settings, gens: nat): (m: nat)
    ensures forall g :: 0 <= g < gens ==> c(g).extraHooks <= m
  {
    if gens == 0 then 0 else
    var m := MostHooks(c, gens - 1);
    if c(gens - 1).extraHooks > m then c(gens - 1).extraHooks else m
  }

  /** What a frame still has to do itself; h bounds the finalizers. */
  function Rank(f: Frame, h: nat): nat {
    match f.pc
    case Unwinding => 1
    case Cleaning(left) => 1 + left
    case Leaving => h + 3
    case Finishing => h + 4
    case Rechecking => h + 5
    case InCallback => h + 6
    case AwaitingError => h + 6
    case AwaitingRetry => h + 6
    case Claiming => h + 7
    case Failing => h + 8
    case Sending(_) => h + 9
    case Working => if f.role.Completion? then 2 * h + 30 else h + 10
    case Checking => if f.role.Completion? then 2 * h + 31 else h + 11
    case Entering => if f.role.Completion? then 2 * h + 32 else h + 12
  }

  /** The rank as a weight, so that the sums over stacks serve here too. */
  function RankIn(h: nat): Frame -> Tally {
    f => Tally(Rank(f, h), 0, 0, 0, 0, 0, 0)
  }

  function Left(s: State, h: nat): nat {
    Sum(RankIn(h), s.stacks, |s.stacks|).scopes
  }

  function AttemptRank(h: nat): nat { 2 * h + 33 }

  function Measure(c: Settings, s: State): int
    requires s.gens != []
  {
    var h := MostHooks(c, |s.gens|);
    (MaxRuns(c(Current(s))) - s.runs) * (AttemptRank(h) + 1) + |s.outstanding| * AttemptRank(h) + Left(s, h)
  }

  lemma MeasureIsNatural(c: Settings, s: State)
    requires Reachable(c, s)
    ensures s.gens != [] && Measure(c, s) >= 0
  {
    AtMostOnceAndBounded(c, s);
    var h := MostHooks(c, |s.gens|);
    NonNegative(MaxRuns(c(Current(s))) - s.runs, AttemptRank(h) + 1);
    NonNegative(|s.outstanding|, AttemptRank(h));
  }

  lemma NonNegative(x: int, y: int)
    requires x >= 0 && y >= 0
    ensures x * y >= 0
  {
  }

  // ----- what a step does to the frames -----

  lemma TopFalls(s: State, t: nat, f: Frame, h: nat)
    requires t < |s.stacks| && s.stacks[t].Running?
    ensures var s' := Put(s, t, Running(f, s.stacks[t].below));
            Left(s', h) == Left(s, h) - Rank(s.stacks[t].top, h) + Rank(f, h)
  {
    TopChanges(RankIn(h), s.stacks, t, f);
  }

  lemma TopCallsFor(s: State, t: nat, f: Frame, callee: Frame, h: nat)
    requires t < |s.stacks| && s.stacks[t].Running?
    ensures var s' := Put(s, t, Running(callee, Running(f, s.stacks[t].below)));
            Left(s', h) == Left(s, h) - Rank(s.stacks[t].top, h) + Rank(f, h) + Rank(callee, h)
  {
    TopCalls(RankIn(h), s.stacks, t, f, callee);
  }

  /** A return takes the top frame's rank away, and a caller that wakes up has less to do. */
  lemma ReturnFalls(s: State, t: nat, h: nat)
    requires t < |s.stacks| && s.stacks[t].Running? && Rank(s.stacks[t].top, h) > 0
    ensures Left(Put(s, t, Resume(s.stacks[t].below)), h) < Left(s, h)
  {
    var w, b := RankIn(h), s.stacks[t].below;
    StackChanges(w, s.stacks, t, Resume(b));
    assert WeighStack(w, s.stacks[t]) == Plus(w(s.stacks[t].top), WeighStack(w, b));
    if b.Running? {
      assert WeighStack(w, b) == Plus(w(b.top), WeighStack(w, b.below));
      assert WeighStack(w, Resume(b)) == Plus(w(Resume(b).top), WeighStack(w, b.below));
    }
  }

  lemma TransportCalls(s: State, t: nat, callee: Frame, h: nat)
    requires t <= |s.stacks|
    ensures Left(Put(s, t, Running(callee, StackAt(s.stacks, t))), h) == Left(s, h) + Rank(callee, h)
  {
    TransportPushes(RankIn(h), s.stacks, t, callee);
  }

  // ----- every own step -----

  /** A step that may leave the gate, or end a call. */
  lemma LastStepFalls(c: Settings, s: State, t: nat, choice: Choice, s': State, h: nat)
    requires AtPc(c, s, t, choice, s') && c(s.stacks[t].top.gen).extraHooks <= h
    requires var pc := s.stacks[t].top.pc; pc.Entering? || pc.Leaving? || pc.Unwinding?
    ensures Left(s', h) < Left(s, h)
    ensures |s'.gens| == |s.gens| && s'.runs == s.runs && s'.outstanding == s.outstanding
  {
    var f, below := s.stacks[t].top, s.stacks[t].below;
    if f.pc.Entering? && AfterEnter(s.gens[f.gen].gate).accepted {
      TopFalls(s, t, f.(pc := Checking), h);
    } else if f.pc.Leaving? && AfterLeave(s.gens[f.gen].gate).accepted {
      TopFalls(s, t, f.(pc := Cleaning(c(f.gen).extraHooks + 1)), h);
    } else {
      ReturnFalls(s, t, h);
    }
  }

  /** A step that changes the gates and moves the top frame. */
  lemma MoveFalls(c: Settings, s: State, t: nat, choice: Choice, s': State, h: nat)
    requires AtPc(c, s, t, choice, s') && choice != Reenter && choice != ReenterError
    requires var pc := s.stacks[t].top.pc;
             pc.Checking? || pc.Failing? || pc.Claiming? || pc.InCallback? || pc.Rechecking? || pc.Finishing? || pc.Cleaning?
    requires PcFits(s.stacks[t].top)
    ensures Left(s', h) < Left(s, h)
    ensures |s'.gens| == |s.gens| && s'.runs == s.runs && s'.outstanding == s.outstanding
  {
    var f := s'.stacks[t].top;
    assert s'.stacks == Place(s.stacks, t, Running(f, s.stacks[t].below));
    assert Rank(f, h) < Rank(s.stacks[t].top, h);
    TopFalls(s, t, f, h);
  }

  lemma SendingFalls(c: Settings, s: State, t: nat, choice: Choice, s': State, h: nat)
    requires AtPc(c, s, t, choice, s') && s.stacks[t].top.pc.Sending?
    ensures Left(s', h) < Left(s, h)
    ensures |s'.gens| == |s.gens| && s'.runs == s.runs && |s'.outstanding| <= |s.outstanding|
  {
    TopFalls(s, t, s'.stacks[t].top, h);
  }

  /** A finish function spends its own rank, even if it retries. */
  lemma ReplyFalls(c: Settings, s: State, t: nat, choice: Choice, s': State, h: nat)
    requires AtPc(c, s, t, choice, s') && s.stacks[t].top.pc.Working? && s.stacks[t].top.role.Completion?
    ensures |s'.gens| == |s.gens| && s'.runs == s.runs && s'.outstanding == s.outstanding && Left(s', h) < Left(s, h)
  {
    var f := s.stacks[t].top;
    if choice == Retry {
      TopCallsFor(s, t, f.(pc := AwaitingRetry), Frame(Driver, Current(s), Entering), h);
    } else {
      TopFalls(s, t, f.(pc := if choice == Go then Claiming else Failing), h);
    }
  }

  /** A driver spends a run. */
  lemma DriverSpends(c: Settings, s: State, t: nat, choice: Choice, s': State, h: nat)
    requires AtPc(c, s, t, choice, s') && s.stacks[t].top.pc.Working? && s.stacks[t].top.role.Driver?
    ensures |s'.gens| == |s.gens| && s'.runs == s.runs + 1
    ensures |s'.outstanding| * AttemptRank(h) + Left(s', h) <= |s.outstanding| * AttemptRank(h) + Left(s, h) + AttemptRank(h)
  {
    var f := s.stacks[t].top;
    match choice
    case ReportLocally =>
      TopCallsFor(s, t, f.(pc := AwaitingError), Frame(LocalError, Current(s), Entering), h);
    case Throw =>
      TopFalls(s, t, f.(pc := Failing), h);
    case Go =>
      var a := Attempt(s.nextAttempt, f.gen);
      TopFalls(s, t, f.(pc := Sending(a)), h);
      OneMore(s.outstanding, a, h);
  }

  lemma OneMore(outstanding: set<Attempt>, a: Attempt, h: nat)
    ensures |outstanding + {a}| <= |outstanding| + 1
    ensures |outstanding + {a}| * AttemptRank(h) <= |outstanding| * AttemptRank(h) + AttemptRank(h)
  {
    if a in outstanding {
      assert outstanding + {a} == outstanding;
    }
  }

  lemma TopFits(c: Settings, s: State, t: nat)
    requires Reachable(c, s) && t < |s.stacks| && s.stacks[t].Running?
    ensures var f := s.stacks[t].top;
            PcFits(f) && s.gens != [] && f.gen < |s.gens| && (f.pc.Working? ==> !f.role.Late? && !IsReentrant(f))
  {
    ReachableInv(c, s);
    TopOk(c, s, t);
  }

  /** A thread that goes on spends rank, or a driver spends one of the runs. */
  predicate Spends(s: State, s': State, h: nat) {
    && |s'.gens| == |s.gens|
    && (|| (s'.runs == s.runs && |s'.outstanding| <= |s.outstanding| && Left(s', h) < Left(s, h))
        || (s'.runs == s.runs + 1 && |s'.outstanding| * AttemptRank(h) + Left(s', h)
                                     <= |s.outstanding| * AttemptRank(h) + Left(s, h) + AttemptRank(h)))
  }

  lemma StepSpends(c: Settings, s: State, t: nat, choice: Choice, s': State, h: nat)
    requires AtPc(c, s, t, choice, s') && Own(Advance(t, choice)) && PcFits(s.stacks[t].top)
    requires s.stacks[t].top.pc.Working? ==> !s.stacks[t].top.role.Late? && !IsReentrant(s.stacks[t].top)
    requires c(s.stacks[t].top.gen).extraHooks <= h
    ensures Spends(s, s', h)
  {
    var pc := s.stacks[t].top.pc;
    if pc.Working? {
      if s.stacks[t].top.role.Completion? {
        ReplyFalls(c, s, t, choice, s', h);
      } else {
        DriverSpends(c, s, t, choice, s', h);
      }
    } else if pc.Sending? {
      SendingFalls(c, s, t, choice, s', h);
    } else if pc.Entering? || pc.Leaving? || pc.Unwinding? {
      LastStepFalls(c, s, t, choice, s', h);
    } else {
      MoveFalls(c, s, t, choice, s', h);
    }
  }

  lemma SpendingFalls(c: Settings, s: State, s': State)
    requires s.gens != [] && Spends(s, s', MostHooks(c, |s.gens|))
    ensures s'.gens != [] && Measure(c, s') < Measure(c, s)
  {
    var h := MostHooks(c, |s.gens|);
    if s'.runs == s.runs {
      FewerCostLess(|s'.outstanding|, |s.outstanding|, AttemptRank(h));
    } else {
      SpentRun(MaxRuns(c(Current(s))) - s.runs, AttemptRank(h) + 1);
    }
  }

  lemma AdvanceFalls(c: Settings, s: State, t: nat, choice: Choice, s': State)
    requires Reachable(c, s) && Next(c, s, Advance(t, choice)) == Some(s') && Own(Advance(t, choice))
    ensures s.gens != [] && s'.gens != [] && Measure(c, s') < Measure(c, s)
  {
    TopFits(c, s, t);
    StepSpends(c, s, t, choice, s', MostHooks(c, |s.gens|));
    SpendingFalls(c, s, s');
  }

  lemma SpentRun(runs: int, price: int)
    ensures (runs - 1) * price == runs * price - price
  {
  }

  lemma FewerCostLess(a: nat, b: nat, price: nat)
    requires a <= b
    ensures a * price <= b * price
  {
  }

  lemma CompleteFalls(c: Settings, s: State, t: nat, a: Attempt, s': State)
    requires s.gens != [] && Next(c, s, Complete(t, a)) == Some(s')
    ensures |s'.gens| == |s.gens| && Measure(c, s') < Measure(c, s)
  {
    var h := MostHooks(c, |s.gens|);
    TransportCalls(s, t, Frame(Completion, a.gen, Entering), h);
    assert |s'.outstanding| == |s.outstanding| - 1;
    SpentRun(|s.outstanding|, AttemptRank(h));
  }

  lemma OwnStepFalls(c: Settings, s: State, a: Action, s': State)
    requires Reachable(c, s) && Own(a) && Next(c, s, a) == Some(s')
    ensures s.gens != [] && s'.gens != [] && Measure(c, s') < Measure(c, s)
  {
    ReachableInv(c, s);
    match a
    case Advance(t, choice) => AdvanceFalls(c, s, t, choice, s');
    case Complete(t, attempt) => CompleteFalls(c, s, t, attempt, s');
  }

  // ----- an own step is always possible -----

  /** A thread that runs can go on. */
  lemma ThreadGoesOn(c: Settings, s: State, t: nat)
    requires Reachable(c, s) && t < |s.stacks| && s.stacks[t].Running?
    ensures Next(c, s, Advance(t, Go)).Some?
  {
    ReachableInv(c, s);
    TopOk(c, s, t);
    assert In(s.stacks[t].top, s.stacks[t]);
    FrameIsInTotal(s.stacks, t, s.stacks[t].top, Current(s));
  }

  lemma RestlessGoesOn(c: Settings, s: State) returns (a: Action)
    requires Reachable(c, s) && !Quiet(s)
    ensures Own(a) && Next(c, s, a).Some?
  {
    ReachableInv(c, s);
    if t :| 0 <= t < |s.stacks| && s.stacks[t].Running? {
      ThreadGoesOn(c, s, t);
      a := Advance(t, Go);
    } else {
      var attempt :| attempt in s.outstanding;
      a := Complete(|s.stacks|, attempt);
    }
  }

  // ----- the theorem -----

  predicate AllOwn(actions: seq<Action>) {
    forall i :: 0 <= i < |actions| ==> Own(actions[i])
  }

  lemma {:induction false} OwnRunsAreShort(c: Settings, s: State, actions: seq<Action>)
    requires Reachable(c, s) && AllOwn(actions) && Run(c, s, actions).Some?
    ensures s.gens != [] && |actions| <= Measure(c, s)
    ensures Reachable(c, Run(c, s, actions).value)
    decreases |actions|
  {
    MeasureIsNatural(c, s);
    if actions != [] {
      var s' := Next(c, s, actions[0]).value;
      OwnStepFalls(c, s, actions[0], s');
      NextReaches(c, s, actions[0]);
      OwnRunsAreShort(c, s', actions[1..]);
    }
  }

  lemma NextReaches(c: Settings, s: State, a: Action)
    requires Reachable(c, s) && Next(c, s, a).Some?
    ensures Reachable(c, Next(c, s, a).value)
  {
    Runs.NextIsReachable(c, s, a);
  }

  /** Liveness, whatever the settings: left to itself, a run takes no more steps than its
      measure, whichever threads move and whatever they choose; and where it cannot go on it
      is at rest. */
  lemma EveryRunComesToRest(c: Settings, s: State, actions: seq<Action>)
    requires Reachable(c, s) && AllOwn(actions) && Run(c, s, actions).Some?
    ensures s.gens != [] && |actions| <= Measure(c, s)
    ensures var s' := Run(c, s, actions).value;
            (forall a :: Own(a) ==> Next(c, s', a).None?) <==> Quiet(s')
  {
    OwnRunsAreShort(c, s, actions);
    var s' := Run(c, s, actions).value;
    if Quiet(s') {
      forall a | Own(a) ensures Next(c, s', a).None? {
      }
    } else {
      var a := RestlessGoesOn(c, s');
    }
  }

  /** So a client that has called asyncExecute gets its one callback, and the finalizers run
      once, within that many steps of any schedule that goes on while it can. */
  lemma EveryCallIsAnswered(c: Settings, s: State, actions: seq<Action>)
    requires Reachable(c, s) && s.started && AllOwn(actions) && Run(c, s, actions).Some?
    requires forall a :: Own(a) ==> Next(c, Run(c, s, actions).value, a).None?
    ensures var s' := Run(c, s, actions).value;
            && (forall i :: 0 <= i < |s'.gens| ==> s'.gens[i].callbacks == 1)
            && (Orderly(c) || |s'.gens| == 1 ==> Done(s'))
  {
    EveryRunComesToRest(c, s, actions);
    OwnRunsAreShort(c, s, actions);
    StaysStarted(c, s, actions);
    QuietMeansDone(c, Run(c, s, actions).value);
  }

  lemma {:induction false} StaysStarted(c: Settings, s: State, actions: seq<Action>)
    requires s.started && AllOwn(actions) && Run(c, s, actions).Some?
    ensures Run(c, s, actions).value.started
    decreases |actions|
  {
    if actions != [] {
      StepStaysStarted(c, s, actions[0]);
      StaysStarted(c, Next(c, s, actions[0]).value, actions[1..]);
    }
  }

  lemma StepStaysStarted(c: Settings, s: State, a: Action)
    requires s.started && Own(a) && Next(c, s, a).Some?
    ensures Next(c, s, a).value.started
  {
    if a.Advance? {
      match s.stacks[a.thread].top.pc
      case Working =>
      case Cleaning(_) =>
      case _ =>
    }
  }
}
