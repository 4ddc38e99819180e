/** A mapReduce stage whose runners are pipelines: the fork and join of `ForkJoin`, each report
    made by the callback of a pipeline. */
module ParallelStage {
  import opened Wrappers
  import opened Reporting
  import L = Lifecycle
  import F = ForkJoin
  import Liveness = LifecycleLiveness

  /** What a runner comes to: it throws before its pipeline is executed, or executes a
      pipeline that will hand `outcome` to its callback. */
  datatype Runner<+O> = Runner(outcome: O, throws: bool)

  /** What is fixed: the runners, the error that the loop pushes for one that throws, and for each
      runner the object that its pipeline gets, with that object's settings. */
  datatype Plan<+O> = Plan(runners: seq<Runner<O>>, error: O, origins: nat -> L.State, settings: nat -> L.Settings)

  ghost predicate AllReady<O>(p: Plan<O>) {
    forall i :: 0 <= i < |p.runners| ==> Ready(p.settings(i), p.origins(i))
  }

  datatype Fork<+O> = Fork(join: F.State<O>, pipes: seq<Pipe>)

  datatype Action =
    | Call | Return | Throw          // the starting loop
    | Inside(i: nat, a: L.Action)    // the pipeline of runner i takes a step
    | Push(i: nat)                   // its callback pushes the outcome,
    | CountDown(i: nat)              // counts down,
    | Reduce(i: nat)                 // and reduces if it saw zero

  function Outcome<O>(p: Plan<O>, i: nat): O
    requires i < |p.runners|
  {
    if p.runners[i].throws then p.error else p.runners[i].outcome
  }

  function Outcomes<O>(p: Plan<O>): seq<O> {
    seq(|p.runners|, i requires 0 <= i < |p.runners| => Outcome(p, i))
  }

  function Init<O>(p: Plan<O>): Fork<O> {
    Fork(F.Init(|p.runners|), [])
  }

  function JoinAction<O>(p: Plan<O>, a: Action): F.Action<O>
    requires !a.Inside? && (a.Push? ==> a.i < |p.runners|)
  {
    match a
    case Call => F.Call
    case Return => F.Return
    case Throw => F.Throw(p.error)
    case Push(i) => F.Push(i, Outcome(p, i))
    case CountDown(i) => F.CountDown(i)
    case Reduce(i) => F.Reduce(i)
  }

  /** The runner that the loop is in. */
  predicate IsLast<O>(f: Fork<O>, i: nat) {
    f.join.starter.InCall? && i + 1 == f.join.launched == |f.pipes|
  }

  predicate Enabled<O>(p: Plan<O>, f: Fork<O>, a: Action) {
    match a
    case Inside(i, b) =>
      && i < |f.pipes| && i < |p.runners| && MayStep(p.settings(i), f.pipes[i], b)
      && (b.Start? ==> IsLast(f, i) && !p.runners[i].throws)
    case Call => F.Enabled(f.join, F.Call)
    case Return =>
      && F.Enabled<O>(f.join, F.Return) && 0 < f.join.launched <= |f.pipes| && f.join.launched <= |p.runners|
      && !p.runners[f.join.launched - 1].throws && f.pipes[f.join.launched - 1].life.started
    case Throw =>
      && F.Enabled(f.join, F.Throw(p.error)) && 0 < f.join.launched <= |p.runners|
      && p.runners[f.join.launched - 1].throws
    case Push(i) =>
      && i < |f.pipes| && i < |p.runners| && InCallback(f.pipes[i])
      && F.Enabled(f.join, F.Push(i, Outcome(p, i)))
    case CountDown(i) => i < |f.pipes| && F.Enabled(f.join, F.CountDown(i))
    case Reduce(i) => i < |f.pipes| && F.Enabled(f.join, F.Reduce(i))
  }

  /** A callback is over when it has counted down, unless it has to reduce first. */
  function Next<O>(p: Plan<O>, f: Fork<O>, a: Action): Fork<O>
    requires Enabled(p, f, a)
  {
    match a
    case Inside(i, b) => f.(pipes := f.pipes[i := StepInside(p.settings(i), f.pipes[i], b)])
    case Call => Fork(F.Next(f.join, F.Call), f.pipes + [NewPipe(p.origins(|f.pipes|))])
    case Push(i) => f.(join := F.Next(f.join, F.Push(i, Outcome(p, i))))
    case CountDown(i) =>
      var join := F.Next(f.join, F.CountDown(i));
      Fork(join, if join.phase[i].Counted? then Release(f.pipes, i) else f.pipes)
    case Reduce(i) => Fork(F.Next(f.join, F.Reduce(i)), Release(f.pipes, i))
    case _ => f.(join := F.Next(f.join, JoinAction(p, a)))
  }

  function Release(pipes: seq<Pipe>, i: nat): seq<Pipe>
    requires i < |pipes|
  {
    if InCallback(pipes[i]) then pipes[i := pipes[i].(called := true)] else pipes
  }

  // ----- the invariant -----

  /** How far runner i is, in the join and in its pipeline. */
  ghost predicate RunnerOk<O>(p: Plan<O>, i: nat, phase: F.Phase<O>, pipe: Pipe)
    requires i < |p.runners|
  {
    && PipeOk(p.settings(i), pipe)
    && (F.HasReported(phase) ==> phase.outcome == Outcome(p, i))
    && (p.runners[i].throws ==> !pipe.life.started)
    && (!p.runners[i].throws ==>
          && (phase.Counted? <==> pipe.called)
          && (phase.Pushed? || phase.SawZero? ==> InCallback(pipe)))
  }

  /** The loop has left a runner behind: it threw and was pushed, or its pipeline executes. */
  predicate LeftBehind<O>(p: Plan<O>, i: nat, phase: F.Phase<O>, pipe: Pipe)
    requires i < |p.runners|
  {
    if p.runners[i].throws then F.HasReported(phase) else pipe.life.started
  }

  /** What the loop knows of the runner it called last. */
  predicate LoopOk<O>(p: Plan<O>, f: Fork<O>)
    requires |f.pipes| == f.join.launched <= |p.runners| && |f.join.phase| == |p.runners|
  {
    f.pipes != [] ==>
      var i := |f.pipes| - 1;
      && (f.join.starter.Looping? ==> LeftBehind(p, i, f.join.phase[i], f.pipes[i]))
      && (f.join.starter.InCall? && p.runners[i].throws ==> f.join.phase[i].Active?)
      && (f.join.starter.Catching? ==> p.runners[i].throws && F.HasReported(f.join.phase[i]))
  }

  ghost predicate Inv<O(!new)>(p: Plan<O>, f: Fork<O>) {
    && F.Inv(f.join) && |f.join.phase| == |p.runners| && |f.pipes| == f.join.launched && LoopOk(p, f)
    && (forall i :: 0 <= i < |f.pipes| ==> RunnerOk(p, i, f.join.phase[i], f.pipes[i]))
    && (forall i :: 0 <= i < |f.pipes| - 1 ==> LeftBehind(p, i, f.join.phase[i], f.pipes[i]))
  }

  lemma InitInv<O(!new)>(p: Plan<O>)
    ensures Inv(p, Init(p))
  {
    F.AtFirst<O>(|p.runners|);
  }

  lemma InsideKeepsInv<O(!new)>(p: Plan<O>, f: Fork<O>, i: nat, b: L.Action)
    requires Inv(p, f) && Enabled(p, f, Inside(i, b))
    ensures Inv(p, Next(p, f, Inside(i, b)))
  {
    var c, pipe := p.settings(i), f.pipes[i];
    StepKeepsPipeOk(c, pipe, b);
    assert RunnerOk(p, i, f.join.phase[i], pipe);
    RunnerMovesInside(p, f, i, StepInside(c, pipe, b));
  }

  /** A step that changes one runner. */
  lemma OneRunnerChanges<O(!new)>(p: Plan<O>, f: Fork<O>, f': Fork<O>, i: nat)
    requires Inv(p, f) && F.Inv(f'.join) && i < |f.pipes| == |f'.pipes| && f'.join.launched == f.join.launched
    requires |f'.join.phase| == |f.join.phase| && LoopOk(p, f')
    requires f'.pipes == f.pipes[i := f'.pipes[i]] && f'.join.phase == f.join.phase[i := f'.join.phase[i]]
    requires RunnerOk(p, i, f'.join.phase[i], f'.pipes[i])
    requires i < |f.pipes| - 1 ==> LeftBehind(p, i, f'.join.phase[i], f'.pipes[i])
    ensures Inv(p, f')
  {
    forall k | 0 <= k < |f'.pipes| ensures RunnerOk(p, k, f'.join.phase[k], f'.pipes[k]) {
      assert k != i ==> RunnerOk(p, k, f.join.phase[k], f.pipes[k]);
    }
    forall k | 0 <= k < |f'.pipes| - 1 ensures LeftBehind(p, k, f'.join.phase[k], f'.pipes[k]) {
      assert k != i ==> LeftBehind(p, k, f.join.phase[k], f.pipes[k]);
    }
  }

  lemma RunnerStaysOk<O>(p: Plan<O>, i: nat, phase: F.Phase<O>, was: Pipe, pipe: Pipe)
    requires i < |p.runners| && RunnerOk(p, i, phase, was)
    requires PipeOk(p.settings(i), pipe) && (p.runners[i].throws ==> !pipe.life.started)
    requires pipe.called == was.called && (InCallback(was) ==> InCallback(pipe)) && (was.life.started ==> pipe.life.started)
    ensures RunnerOk(p, i, phase, pipe) && (LeftBehind(p, i, phase, was) ==> LeftBehind(p, i, phase, pipe))
  {
  }

  lemma LoopStaysOk<O>(p: Plan<O>, f: Fork<O>, i: nat, pipe: Pipe)
    requires |f.pipes| == f.join.launched <= |p.runners| && |f.join.phase| == |p.runners| && LoopOk(p, f)
    requires i < |f.pipes| && (LeftBehind(p, i, f.join.phase[i], f.pipes[i]) ==> LeftBehind(p, i, f.join.phase[i], pipe))
    ensures LoopOk(p, f.(pipes := f.pipes[i := pipe]))
  {
  }

  lemma RunnerMovesInside<O(!new)>(p: Plan<O>, f: Fork<O>, i: nat, pipe: Pipe)
    requires Inv(p, f) && i < |f.pipes| && PipeOk(p.settings(i), pipe) && (p.runners[i].throws ==> !pipe.life.started)
    requires var was := f.pipes[i];
             pipe.called == was.called && (InCallback(was) ==> InCallback(pipe)) && (was.life.started ==> pipe.life.started)
    ensures Inv(p, f.(pipes := f.pipes[i := pipe]))
  {
    var f' := f.(pipes := f.pipes[i := pipe]);
    assert RunnerOk(p, i, f.join.phase[i], f.pipes[i]);
    RunnerStaysOk(p, i, f.join.phase[i], f.pipes[i], pipe);
    LoopStaysOk(p, f, i, pipe);
    OneRunnerChanges(p, f, f', i);
  }

  predicate IsCallback(a: Action) { a.Push? || a.CountDown? || a.Reduce? }

  /** What the step of a callback, or of the loop for a runner that threw, makes of the runner. */
  lemma CallbackMoves<O(!new)>(p: Plan<O>, f: Fork<O>, a: Action)
    requires IsCallback(a) && Enabled(p, f, a) && a.i < |p.runners| && RunnerOk(p, a.i, f.join.phase[a.i], f.pipes[a.i])
    ensures var f', i := Next(p, f, a), a.i;
            && |f'.pipes| == |f.pipes| && |f'.join.phase| == |f.join.phase| && f'.join.launched == f.join.launched
            && f'.pipes == f.pipes[i := f'.pipes[i]] && f'.join.phase == f.join.phase[i := f'.join.phase[i]]
            && RunnerOk(p, i, f'.join.phase[i], f'.pipes[i])
            && F.HasReported(f'.join.phase[i]) && f'.pipes[i].life == f.pipes[i].life
            && (p.runners[i].throws ==> F.HasReported(f.join.phase[i]))
  {
    ReleaseKeepsPipeOk(p.settings(a.i), f.pipes, a.i);
  }

  lemma CallbackKeepsLoop<O(!new)>(p: Plan<O>, f: Fork<O>, a: Action)
    requires IsCallback(a) && Enabled(p, f, a) && a.i < |p.runners| && RunnerOk(p, a.i, f.join.phase[a.i], f.pipes[a.i])
    requires |f.pipes| == f.join.launched <= |p.runners| && |f.join.phase| == |p.runners| && LoopOk(p, f)
    ensures var f' := Next(p, f, a);
            |f'.pipes| == f'.join.launched <= |p.runners| && |f'.join.phase| == |p.runners| && LoopOk(p, f')
  {
    CallbackMoves(p, f, a);
  }

  lemma CallbackStepKeepsInv<O(!new)>(p: Plan<O>, f: Fork<O>, a: Action)
    requires Inv(p, f) && Enabled(p, f, a) && IsCallback(a)
    ensures Inv(p, Next(p, f, a))
  {
    F.StepKeepsInv(f.join, JoinAction(p, a));
    CallbackMoves(p, f, a);
    CallbackKeepsLoop(p, f, a);
    OneRunnerChanges(p, f, Next(p, f, a), a.i);
  }

  /** One more runner is called, the one before having been left behind. */
  lemma OneRunnerMore<O(!new)>(p: Plan<O>, f: Fork<O>, f': Fork<O>, pipe: Pipe)
    requires Inv(p, f) && F.Inv(f'.join) && |f.pipes| < |p.runners| && f'.join.launched == |f.pipes| + 1
    requires f'.pipes == f.pipes + [pipe] && f'.join.phase == f.join.phase[|f.pipes| := F.Active]
    requires f.join.starter.Looping? && f'.join.starter.InCall?
    requires RunnerOk(p, |f.pipes|, F.Active, pipe)
    ensures Inv(p, f')
  {
    forall i | 0 <= i < |f'.pipes| ensures RunnerOk(p, i, f'.join.phase[i], f'.pipes[i]) {
      assert i < |f.pipes| ==> RunnerOk(p, i, f.join.phase[i], f.pipes[i]);
    }
    forall i | 0 <= i < |f'.pipes| - 1 ensures LeftBehind(p, i, f'.join.phase[i], f'.pipes[i]) {
      assert LeftBehind(p, i, f.join.phase[i], f.pipes[i]);
    }
  }

  lemma CallKeepsInv<O(!new)>(p: Plan<O>, f: Fork<O>)
    requires AllReady(p) && Inv(p, f) && Enabled(p, f, Call)
    ensures Inv(p, Next(p, f, Call))
  {
    var n := |f.pipes|;
    F.StepKeepsInv(f.join, F.Call);
    NewPipeOk(p.settings(n), p.origins(n));
    OneRunnerMore(p, f, Next(p, f, Call), NewPipe(p.origins(n)));
  }

  lemma ThrowMoves<O(!new)>(p: Plan<O>, f: Fork<O>)
    requires |f.pipes| == f.join.launched <= |p.runners| && |f.join.phase| == |p.runners| && LoopOk(p, f)
    requires Enabled(p, f, Throw) && RunnerOk(p, |f.pipes| - 1, f.join.phase[|f.pipes| - 1], f.pipes[|f.pipes| - 1])
    ensures var n, f' := |f.pipes| - 1, Next(p, f, Throw);
            && f'.pipes == f.pipes && f'.join.phase == f.join.phase[n := F.Pushed(p.error)]
            && f'.join.launched == f.join.launched && LoopOk(p, f') && RunnerOk(p, n, F.Pushed(p.error), f.pipes[n])
  {
  }

  lemma ThrowKeepsInv<O(!new)>(p: Plan<O>, f: Fork<O>)
    requires Inv(p, f) && Enabled(p, f, Throw)
    ensures Inv(p, Next(p, f, Throw))
  {
    F.StepKeepsInv(f.join, F.Throw(p.error));
    ThrowMoves(p, f);
    OneRunnerChanges(p, f, Next(p, f, Throw), |f.pipes| - 1);
  }

  lemma ReturnKeepsInv<O(!new)>(p: Plan<O>, f: Fork<O>)
    requires Inv(p, f) && Enabled(p, f, Return)
    ensures Inv(p, Next(p, f, Return))
  {
    F.StepKeepsInv<O>(f.join, F.Return);
  }

  lemma ReleaseKeepsPipeOk(c: L.Settings, pipes: seq<Pipe>, i: nat)
    requires i < |pipes| && PipeOk(c, pipes[i])
    ensures |Release(pipes, i)| == |pipes| && PipeOk(c, Release(pipes, i)[i])
  {
  }

  lemma NextKeepsInv<O(!new)>(p: Plan<O>, f: Fork<O>, a: Action)
    requires AllReady(p) && Inv(p, f) && Enabled(p, f, a)
    ensures Inv(p, Next(p, f, a))
  {
    if a.Inside? {
      InsideKeepsInv(p, f, a.i, a.a);
    } else if a.Call? {
      CallKeepsInv(p, f);
    } else if a.Return? {
      ReturnKeepsInv(p, f);
    } else if a.Throw? {
      ThrowKeepsInv(p, f);
    } else {
      CallbackStepKeepsInv(p, f, a);
    }
  }

  // ----- whole runs -----

  function Run<O>(p: Plan<O>, f: Fork<O>, actions: seq<Action>): Option<Fork<O>>
    decreases |actions|
  {
    if actions == [] then Some(f)
    else if Enabled(p, f, actions[0]) then Run(p, Next(p, f, actions[0]), actions[1..])
    else None
  }

  ghost predicate Reachable<O>(p: Plan<O>, f: Fork<O>) {
    exists actions :: Run(p, Init(p), actions) == Some(f)
  }

  lemma {:induction false} RunExtends<O>(p: Plan<O>, f: Fork<O>, actions: seq<Action>, a: Action)
    requires Run(p, f, actions).Some? && Enabled(p, Run(p, f, actions).value, a)
    ensures Run(p, f, actions + [a]) == Some(Next(p, Run(p, f, actions).value, a))
    decreases |actions|
  {
    if actions == [] {
      assert [a][1..] == [];
    } else {
      assert (actions + [a])[1..] == actions[1..] + [a];
      RunExtends(p, Next(p, f, actions[0]), actions[1..], a);
    }
  }

  lemma InitIsReachable<O>(p: Plan<O>)
    ensures Reachable(p, Init(p))
  {
    assert Run(p, Init(p), []) == Some(Init(p));
  }

  lemma NextIsReachable<O>(p: Plan<O>, f: Fork<O>, a: Action)
    requires Reachable(p, f) && Enabled(p, f, a)
    ensures Reachable(p, Next(p, f, a))
  {
    var actions :| Run(p, Init(p), actions) == Some(f);
    RunExtends(p, Init(p), actions, a);
    assert Run(p, Init(p), actions + [a]) == Some(Next(p, f, a));
  }

  lemma {:induction false} RunKeepsInv<O(!new)>(p: Plan<O>, f: Fork<O>, actions: seq<Action>)
    requires AllReady(p) && Inv(p, f) && Run(p, f, actions).Some?
    ensures Inv(p, Run(p, f, actions).value)
    decreases |actions|
  {
    if actions != [] {
      NextKeepsInv(p, f, actions[0]);
      RunKeepsInv(p, Next(p, f, actions[0]), actions[1..]);
    }
  }

  lemma ReachableInv<O(!new)>(p: Plan<O>, f: Fork<O>)
    requires AllReady(p) && Reachable(p, f)
    ensures Inv(p, f)
  {
    var actions :| Run(p, Init(p), actions) == Some(f);
    InitInv(p);
    RunKeepsInv(p, Init(p), actions);
  }

  // ----- what it comes to -----

  /** Nothing moves any more: the loop is over, no pipeline has a running call or an
      outstanding attempt, and no error of a thrown runner waits to be reduced. */
  predicate AtRest<O>(p: Plan<O>, f: Fork<O>) {
    && f.join.starter.Looping? && f.join.launched == |p.runners|
    && (forall i :: 0 <= i < |f.pipes| ==> L.Quiet(f.pipes[i].life))
    && (forall i :: 0 <= i < |f.join.phase| && i < |p.runners| && p.runners[i].throws ==> f.join.phase[i].Counted?)
  }

  /** The reducer has been called with the outcomes of all runners. */
  ghost predicate Reduced<O>(p: Plan<O>, f: Fork<O>) {
    |f.join.reduced| == 1 && multiset(f.join.reduced[0]) == multiset(Outcomes(p))
  }

  lemma {:induction false} ReportsAreOutcomes<O(!new)>(p: Plan<O>, phase: seq<F.Phase<O>>, n: nat)
    requires n <= |phase| <= |p.runners|
    requires forall i :: 0 <= i < n ==> F.HasReported(phase[i]) && phase[i].outcome == Outcome(p, i)
    ensures F.Reports(phase[..n]) == Outcomes(p)[..n]
  {
    if n > 0 {
      ReportsAreOutcomes(p, phase, n - 1);
      assert phase[..n][..n - 1] == phase[..n - 1];
      assert Outcomes(p)[..n] == Outcomes(p)[..n - 1] + [Outcome(p, n - 1)];
    }
  }

  lemma AllReported<O(!new)>(p: Plan<O>, f: Fork<O>)
    requires Inv(p, f) && f.join.pending == 0
    ensures F.Reports(f.join.phase) == Outcomes(p)
  {
    F.NoneUncounted(f.join.phase);
    forall i | 0 <= i < |f.join.phase|
      ensures F.HasReported(f.join.phase[i]) && f.join.phase[i].outcome == Outcome(p, i)
    {
      assert F.IsCounted(f.join.phase[i]);
      assert RunnerOk(p, i, f.join.phase[i], f.pipes[i]);
    }
    ReportsAreOutcomes(p, f.join.phase, |p.runners|);
    assert f.join.phase[..|p.runners|] == f.join.phase && Outcomes(p)[..|p.runners|] == Outcomes(p);
  }

  /** When the last runner has counted down, the results are the outcomes of all runners. */
  lemma ResultsAreOutcomes<O(!new)>(p: Plan<O>, f: Fork<O>)
    requires Inv(p, f) && f.join.pending == 0
    ensures multiset(f.join.results) == multiset(Outcomes(p))
  {
    AllReported(p, f);
    F.ResultsAreReports(f.join);
  }

  lemma RestIsOver<O(!new)>(p: Plan<O>, f: Fork<O>, i: nat)
    requires Inv(p, f) && AtRest(p, f) && i < |f.pipes|
    ensures f.join.phase[i].Counted?
    ensures !p.runners[i].throws ==> f.pipes[i].called && Callbacks(f.pipes[i].life) == 1 && Cleanups(f.pipes[i].life) == 1
  {
    assert LeftBehind(p, i, f.join.phase[i], f.pipes[i]);
    if !p.runners[i].throws {
      QuietPipeHasReported(p.settings(i), f.pipes[i]);
    }
  }

  /** A stage of pipelines that has come to rest has reduced exactly once, with exactly the
      outcomes that its pipelines handed over and the errors of the runners that threw. */
  lemma RestMeansReduced<O(!new)>(p: Plan<O>, f: Fork<O>)
    requires AllReady(p) && Reachable(p, f) && AtRest(p, f)
    ensures Reduced(p, f) && |f.pipes| == |p.runners|
    ensures forall i :: 0 <= i < |f.pipes| && !p.runners[i].throws ==> f.pipes[i].called && Callbacks(f.pipes[i].life) == 1 && Cleanups(f.pipes[i].life) == 1
  {
    ReachableInv(p, f);
    forall i | 0 <= i < |f.pipes|
      ensures f.join.phase[i].Counted?
      ensures !p.runners[i].throws ==> f.pipes[i].called && Callbacks(f.pipes[i].life) == 1 && Cleanups(f.pipes[i].life) == 1
    {
      RestIsOver(p, f, i);
    }
    F.NoneUncounted(f.join.phase);
    ResultsAreOutcomes(p, f);
  }

  /** The reduction comes after the callback of every pipeline, and every runner was called. */
  lemma ReducedMeansReported<O(!new)>(p: Plan<O>, f: Fork<O>)
    requires AllReady(p) && Reachable(p, f) && p.runners != [] && f.join.reduced != []
    ensures |f.pipes| == |p.runners|
    ensures forall i :: 0 <= i < |f.pipes| && !p.runners[i].throws ==>
              f.pipes[i].life.started && Callbacks(f.pipes[i].life) == 1
  {
    ReachableInv(p, f);
    F.NoneUncounted(f.join.phase);
    forall i | 0 <= i < |f.pipes| && !p.runners[i].throws
      ensures f.pipes[i].life.started && Callbacks(f.pipes[i].life) == 1
    {
      assert RunnerOk(p, i, f.join.phase[i], f.pipes[i]);
      CalledMeansOnce(p.settings(i), f.pipes[i]);
    }
  }

  /** There is one outcome for each runner: the error for one that throws, else what its pipeline
      hands to its callback. */
  lemma OneOutcomeEach<O>(p: Plan<O>, i: nat)
    requires i < |p.runners|
    ensures |Outcomes(p)| == |p.runners|
    ensures p.runners[i].throws ==> Outcomes(p)[i] == p.error
    ensures !p.runners[i].throws ==> Outcomes(p)[i] == p.runners[i].outcome
  {
  }

  /** The step that reduces hands over the outcomes of all runners, and it comes once. */
  lemma ReduceHandsOverAll<O(!new)>(p: Plan<O>, f: Fork<O>, i: nat)
    requires AllReady(p) && Reachable(p, f) && Enabled(p, f, Reduce(i))
    ensures f.join.reduced == [] && multiset(f.join.results) == multiset(Outcomes(p))
    ensures Reduced(p, Next(p, f, Reduce(i)))
  {
    ReachableInv(p, f);
    F.NoneUncounted(f.join.phase);
    ResultsAreOutcomes(p, f);
  }

  /** Only that step reduces. */
  lemma OnlyReduceReduces<O(!new)>(p: Plan<O>, f: Fork<O>, a: Action)
    requires Enabled(p, f, a) && !a.Reduce?
    ensures Next(p, f, a).join.reduced == f.join.reduced
  {
  }

  // ----- until then it goes on -----

  /** The step that a callback takes next, or the loop for a runner that threw. */
  lemma CallbackGoesOn<O(!new)>(p: Plan<O>, f: Fork<O>, i: nat) returns (a: Action)
    requires Inv(p, f) && i < |f.pipes|
    requires InCallback(f.pipes[i]) || (p.runners[i].throws && F.HasReported(f.join.phase[i]) && !f.join.phase[i].Counted?)
    ensures Enabled(p, f, a) && !a.Inside?
  {
    assert RunnerOk(p, i, f.join.phase[i], f.pipes[i]);
    match f.join.phase[i]
    case Active => a := Push(i);
    case Pushed(_) => a := CountDown(i);
    case _ => a := Reduce(i);
  }

  /** The step that the loop takes next. */
  lemma LoopGoesOn<O(!new)>(p: Plan<O>, f: Fork<O>) returns (a: Action)
    requires Inv(p, f) && !(f.join.starter.Looping? && f.join.launched == |p.runners|)
    ensures Enabled(p, f, a) && (a.Inside? ==> a.a.Start?)
  {
    var last := |f.pipes| - 1;
    if f.join.starter.Looping? {
      a := Call;
    } else if f.join.starter.Catching? {
      a := CountDown(last);
    } else if p.runners[last].throws {
      a := Throw;
    } else if f.pipes[last].life.started {
      a := Return;
    } else {
      a := Inside(last, L.Start(|f.pipes[last].life.stacks|));
      StartIsPossible(p.settings(last), f.pipes[last]);
    }
  }

  lemma AllLeftBehind<O(!new)>(p: Plan<O>, f: Fork<O>, i: nat)
    requires Inv(p, f) && f.join.starter.Looping? && i < |f.pipes|
    ensures LeftBehind(p, i, f.join.phase[i], f.pipes[i])
  {
  }

  /** The stage cannot get stuck: until it is at rest the loop, a callback, or a pipeline or
      its transport by itself takes a step. */
  lemma RestlessGoesOn<O(!new)>(p: Plan<O>, f: Fork<O>) returns (a: Action)
    requires AllReady(p) && Reachable(p, f) && !AtRest(p, f)
    ensures Enabled(p, f, a) && (a.Inside? && !a.a.Start? ==> Liveness.Own(a.a))
  {
    ReachableInv(p, f);
    if !f.join.starter.Looping? || f.join.launched < |p.runners| {
      a := LoopGoesOn(p, f);
    } else if i :| 0 <= i < |f.pipes| && (InCallback(f.pipes[i]) || (p.runners[i].throws && !f.join.phase[i].Counted?)) {
      AllLeftBehind(p, f, i);
      a := CallbackGoesOn(p, f, i);
    } else {
      var i :| 0 <= i < |f.pipes| && !L.Quiet(f.pipes[i].life);
      a := PipeGoesOn(p, f, i);
    }
  }

  lemma PipeGoesOn<O(!new)>(p: Plan<O>, f: Fork<O>, i: nat) returns (a: Action)
    requires i < |f.pipes| && i < |p.runners| && PipeOk(p.settings(i), f.pipes[i])
    requires !InCallback(f.pipes[i]) && !L.Quiet(f.pipes[i].life)
    ensures Enabled(p, f, a) && a.Inside? && Liveness.Own(a.a)
  {
    var b := Liveness.RestlessGoesOn(p.settings(i), f.pipes[i].life);
    a := Inside(i, b);
  }

  lemma StartIsPossible(c: L.Settings, pipe: Pipe)
    requires PipeOk(c, pipe) && !pipe.life.started
    ensures MayStep(c, pipe, L.Start(|pipe.life.stacks|))
  {
  }
}
