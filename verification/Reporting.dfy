/** One pipeline as seen by whoever waits for its callback: it runs by itself as a lifecycle
    machine, and reports exactly once.  The object may be new, or come from the pool with calls
    and attempts of earlier generations still under way. */
module Reporting {
  import opened Wrappers
  import opened Generations
  import L = Lifecycle
  import LI = LifecycleInvariant
  import Theorems = LifecycleTheorems
  import Runs = LifecycleRuns

  /** `claimer` is the thread that claimed the callback; `called` says that the callback has
      done its work, so that the thread may go on. */
  datatype Pipe = Pipe(life: L.State, claimer: Option<nat>, called: bool)

  /** The pipeline of a step, when the step has got an object for it. */
  function NewPipe(origin: L.State): Pipe {
    Pipe(origin, None, false)
  }

  /** What a step may get: a generation that nobody has called yet, of any object whatever its
      past, as long as no hook of an earlier generation can be left over. */
  ghost predicate Ready(c: L.Settings, origin: L.State) {
    L.Reachable(c, origin) && Unstarted(origin) && LI.Steady(c, origin)
  }

  /** A new object is ready, under any settings. */
  lemma NewObjectIsReady(c: L.Settings)
    ensures Ready(c, L.INITIAL)
  {
    BirthIsReachable(c);
  }

  /** So is one that the pool hands out again, however many generations it has had and whatever
      is left of them, if none had both retries and hooks that report errors. */
  lemma ReusedObjectIsReady(c: L.Settings, l: L.State)
    requires LI.Orderly(c) && L.Reachable(c, l) && l.owner.Cached?
    ensures L.Next(c, l, L.Reacquire).Some? && Ready(c, L.Next(c, l, L.Reacquire).value)
  {
    Theorems.ReachableInv(c, l);
    ReacquiredIsUnstarted(c, l);
    Runs.NextIsReachable(c, l, L.Reacquire);
  }

  function Callbacks(l: L.State): nat {
    if l.gens == [] then 0 else l.gens[|l.gens| - 1].callbacks
  }

  function Cleanups(l: L.State): nat {
    if l.gens == [] then 0 else l.gens[|l.gens| - 1].cleanups
  }

  /** A pipeline is used for one generation, and the thread in the callback is busy with it. */
  predicate MayStep(c: L.Settings, p: Pipe, a: L.Action) {
    L.OneGeneration(a) && L.Next(c, p.life, a).Some? && !(a.Advance? && p.claimer == Some(a.thread) && !p.called)
  }

  function StepInside(c: L.Settings, p: Pipe, a: L.Action): Pipe
    requires L.Next(c, p.life, a).Some?
  {
    var life := L.Next(c, p.life, a).value;
    p.(life := life,
       claimer := if a.Advance? && Callbacks(life) > Callbacks(p.life) then Some(a.thread) else p.claimer)
  }

  /** The callback is running: it may report now. */
  predicate InCallback(p: Pipe) {
    p.claimer.Some? && !p.called
  }

  ghost predicate PipeOk(c: L.Settings, p: Pipe) {
    && L.Reachable(c, p.life) && p.life.gens != [] && LI.Steady(c, p.life)
    && (p.claimer.Some? <==> Callbacks(p.life) > 0)
    && (p.called ==> p.claimer.Some?)
    && (!p.life.started ==> Unstarted(p.life))
    && (InCallback(p) ==>
          && p.claimer.value < |p.life.stacks|
          && p.life.stacks[p.claimer.value].Running? && p.life.stacks[p.claimer.value].top.pc.InCallback?)
  }

  lemma NewPipeOk(c: L.Settings, origin: L.State)
    requires Ready(c, origin)
    ensures PipeOk(c, NewPipe(origin)) && !origin.started
  {
  }

  function ThreadOf(a: L.Action): nat
    requires L.OneGeneration(a)
  {
    a.thread
  }

  /** A step of the lifecycle machine touches only the stack of its own thread. */
  lemma OtherThreadsStay(c: L.Settings, s: L.State, a: L.Action, t: nat)
    requires L.OneGeneration(a) && L.Next(c, s, a).Some? && t < |s.stacks| && t != ThreadOf(a)
    ensures var s' := L.Next(c, s, a).value; t < |s'.stacks| && s'.stacks[t] == s.stacks[t]
  {
    if a.Advance? {
      match s.stacks[a.thread].top.pc
      case Working =>
      case Cleaning(_) =>
      case _ =>
    }
  }

  /** The only step that runs the callback of the current generation is the successful claim, and
      it leaves its thread in the callback. */
  lemma OnlyClaimsRunCallback(c: L.Settings, s: L.State, a: L.Action)
    requires L.OneGeneration(a) && L.Next(c, s, a).Some? && s.gens != []
    ensures var s' := L.Next(c, s, a).value;
            && |s'.gens| == |s.gens| && Callbacks(s') >= Callbacks(s)
            && (Callbacks(s') > Callbacks(s) ==>
                  a.Advance? && a.thread < |s'.stacks| && s'.stacks[a.thread].Running? && s'.stacks[a.thread].top.pc.InCallback?)
  {
    if a.Advance? {
      match s.stacks[a.thread].top.pc
      case Working =>
      case Cleaning(_) =>
      case _ =>
    }
  }

  lemma StaysStarted(c: L.Settings, s: L.State, a: L.Action)
    requires L.OneGeneration(a) && L.Next(c, s, a).Some? && (s.started || a.Start?)
    ensures L.Next(c, s, a).value.started
  {
    if a.Advance? {
      match s.stacks[a.thread].top.pc
      case Working =>
      case Cleaning(_) =>
      case _ =>
    }
  }

  /** Until it is executed, a pipeline stays as it is: what is left of earlier generations does
      not get into it. */
  lemma NewPipeWaits(c: L.Settings, p: Pipe, a: L.Action)
    requires PipeOk(c, p) && !p.life.started && MayStep(c, p, a) && !a.Start?
    ensures var life := L.Next(c, p.life, a).value; Unstarted(life) && Callbacks(life) == Callbacks(p.life) == 0
  {
    Theorems.ReachableInv(c, p.life);
    UnstartedStays(c, p.life, a);
  }

  lemma StepKeepsClaimer(c: L.Settings, p: Pipe, a: L.Action)
    requires PipeOk(c, p) && MayStep(c, p, a) && InCallback(p)
    ensures var life := L.Next(c, p.life, a).value;
            && p.claimer.value < |life.stacks| && life.stacks[p.claimer.value] == p.life.stacks[p.claimer.value]
  {
    assert ThreadOf(a) != p.claimer.value;
    OtherThreadsStay(c, p.life, a, p.claimer.value);
  }

  lemma StepKeepsPipeOk(c: L.Settings, p: Pipe, a: L.Action)
    requires PipeOk(c, p) && MayStep(c, p, a)
    ensures PipeOk(c, StepInside(c, p, a)) && StepInside(c, p, a).called == p.called
    ensures InCallback(p) ==> InCallback(StepInside(c, p, a))
    ensures StepInside(c, p, a).life.started <==> p.life.started || a.Start?
  {
    var life := L.Next(c, p.life, a).value;
    if p.life.started || a.Start? {
      StaysStarted(c, p.life, a);
    } else {
      NewPipeWaits(c, p, a);
    }
    Runs.NextIsReachable(c, p.life, a);
    Theorems.AtMostOnceAndBounded(c, life);
    OnlyClaimsRunCallback(c, p.life, a);
    if InCallback(p) {
      StepKeepsClaimer(c, p, a);
    }
  }

  lemma CallbackEnds(c: L.Settings, p: Pipe)
    requires PipeOk(c, p) && InCallback(p)
    ensures PipeOk(c, p.(called := true))
  {
  }

  /** A report comes from the callback, which has then run once, in an execution. */
  lemma CalledMeansOnce(c: L.Settings, p: Pipe)
    requires PipeOk(c, p) && p.called
    ensures p.life.started && Callbacks(p.life) == 1
  {
    Theorems.AtMostOnceAndBounded(c, p.life);
  }

  /** A pipeline that was executed and came to rest has reported, and cleaned up once. */
  lemma QuietPipeHasReported(c: L.Settings, p: Pipe)
    requires PipeOk(c, p) && p.life.started && L.Quiet(p.life)
    ensures p.called && Callbacks(p.life) == 1 && Cleanups(p.life) == 1
  {
    Theorems.QuietMeansDone(c, p.life);
  }
}
