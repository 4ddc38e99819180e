/** The pool and the pipelines in it: every object of the pool's machine lives the life of the
    lifecycle machine.  The two meet where an object is made, handed back by its last
    finalizer, reset for its next generation, or deleted. */
module Ownership {
  import opened Wrappers
  import P = PipelinePool
  import L = Lifecycle
  import LI = LifecycleInvariant
  import Theorems = LifecycleTheorems
  import Runs = LifecycleRuns
  import opened Generations

  /** Every request configures its own pipeline: settings for each generation of each object. */
  type AllSettings = P.Id -> L.Settings

  ghost predicate AllOrderly(c: AllSettings) {
    forall id: P.Id :: LI.Orderly(c(id))
  }

  datatype System = System(world: P.World, life: map<P.Id, L.State>)

  datatype Action =
    | Pool(a: P.Action)                                       // acquire, reset, store, delete, throw
    | Inside(id: P.Id, step: L.Action)                        // an object takes a step
    | HandBack(id: P.Id, thread: nat, t: nat, pooled: bool)   // its last finalizer calls the pool

  /** A thread of the object is about to run the finalizer that was registered first. */
  predicate AtLastHook(l: L.State, thread: nat) {
    thread < |l.stacks| && l.stacks[thread].Running? && l.stacks[thread].top.pc == L.Cleaning(1)
  }

  function HandingBack(thread: nat, pooled: bool): L.Action {
    L.Advance(thread, if pooled then L.Go else L.Discard)
  }

  /** What a step of the pool means for the object that it is about. */
  function LivesOn(c: AllSettings, w: P.World, a: P.Action, life: map<P.Id, L.State>): map<P.Id, L.State> {
    if a.Finish? || a.Acquire? || a.t >= |w.tasks| then life else
    match w.tasks[a.t]
    case Allocating => if a.Proceed? then life[w.next := L.INITIAL] else life
    case Taken(id) => Step(c, life, id, if a.Proceed? then L.Reacquire else L.ReacquireThrows)
    case Clearing(id) => if a.Proceed? then life else Step(c, life, id, L.ReacquireThrows)
    case Storing(id) =>
      if a.Proceed? && |w.cache| < P.MAX_POOLED then life else Step(c, life, id, L.ReacquireThrows)
    case _ => life
  }

  function Step(c: AllSettings, life: map<P.Id, L.State>, id: P.Id, a: L.Action): map<P.Id, L.State> {
    if id in life && L.Next(c(id), life[id], a).Some? then life[id := L.Next(c(id), life[id], a).value] else life
  }

  /** A client calls only what it was handed. */
  predicate Enabled(c: AllSettings, s: System, a: Action) {
    match a
    case Pool(b) => !b.Finish? && P.Next(s.world, b).Some?
    case Inside(id, b) =>
      && id in s.life && L.OneGeneration(b) && L.Next(c(id), s.life[id], b).Some?
      && (b.Start? ==> id in s.world.inUse)
      && !(b.Advance? && AtLastHook(s.life[id], b.thread))
    case HandBack(id, thread, t, pooled) =>
      && id in s.life && AtLastHook(s.life[id], thread) && L.Next(c(id), s.life[id], HandingBack(thread, pooled)).Some?
      && P.Next(s.world, P.Finish(t, id, pooled)).Some?
  }

  function Next(c: AllSettings, s: System, a: Action): System
    requires Enabled(c, s, a)
  {
    match a
    case Pool(b) => System(P.Next(s.world, b).value, LivesOn(c, s.world, b, s.life))
    case Inside(id, b) => s.(life := s.life[id := L.Next(c(id), s.life[id], b).value])
    case HandBack(id, thread, t, pooled) =>
      System(P.Next(s.world, P.Finish(t, id, pooled)).value,
             s.life[id := L.Next(c(id), s.life[id], HandingBack(thread, pooled)).value])
  }

  ghost predicate IsRun(c: AllSettings, threads: nat, run: seq<System>, actions: seq<Action>) {
    && |run| == |actions| + 1 && run[0] == System(P.Start(threads), map[])
    && forall k :: 0 <= k < |actions| ==> Enabled(c, run[k], actions[k]) && run[k + 1] == Next(c, run[k], actions[k])
  }

  // ----- one object -----

  lemma OwnerStays(c: L.Settings, l: L.State, a: L.Action)
    requires L.OneGeneration(a) && L.Next(c, l, a).Some? && !(a.Advance? && AtLastHook(l, a.thread))
    ensures L.Next(c, l, a).value.owner == l.owner
  {
    if a.Advance? {
      match l.stacks[a.thread].top.pc
      case Working =>
      case Cleaning(_) =>
      case _ =>
    }
  }

  lemma HandingBackGivesAway(c: L.Settings, l: L.State, thread: nat, pooled: bool)
    requires AtLastHook(l, thread) && L.Next(c, l, HandingBack(thread, pooled)).Some?
    ensures L.Next(c, l, HandingBack(thread, pooled)).value.owner == if pooled then L.Cached else L.Destroyed
  {
  }

  // ----- where an object is, and what that says about its life -----

  predicate GivenAway(task: P.Task) { task.Taken? || task.Clearing? || task.Storing? }

  ghost predicate LifeOk(c: L.Settings, w: P.World, id: P.Id, l: L.State) {
    && L.Reachable(c, l)
    && (id in w.inUse ==> l.owner.InUse?)
    && (id in w.cache ==> l.owner.Cached?)
    && (forall t :: 0 <= t < |w.tasks| && P.Holds(w.tasks[t], id) ==>
          if GivenAway(w.tasks[t]) then l.owner.Cached? else l.owner.InUse? && (LI.Orderly(c) ==> Unstarted(l)))
    && (id !in w.live ==> l.owner.Destroyed? || (l.owner.InUse? && (LI.Orderly(c) ==> Unstarted(l))))
  }

  ghost predicate Inv(c: AllSettings, s: System) {
    && P.Inv(s.world)
    && (forall id :: id in s.world.live ==> id in s.life)
    && (forall id :: id in s.life ==> id < s.world.next && LifeOk(c(id), s.world, id, s.life[id]))
  }

  /** A step of pool thread t that is about object x only. */
  ghost predicate AboutOnly(w: P.World, w': P.World, t: nat, x: P.Id) {
    && t < |w.tasks| == |w'.tasks| && w'.tasks == w.tasks[t := w'.tasks[t]]
    && (P.HasId(w.tasks[t]) ==> w.tasks[t].id == x) && (P.HasId(w'.tasks[t]) ==> w'.tasks[t].id == x)
    && w.next <= w'.next
    && forall id :: id != x ==>
         (id in w.cache <==> id in w'.cache) && (id in w.inUse <==> id in w'.inUse) && (id in w.live <==> id in w'.live)
  }

  lemma OthersLiveOn(c: L.Settings, w: P.World, w': P.World, t: nat, x: P.Id, id: P.Id, l: L.State)
    requires AboutOnly(w, w', t, x) && id != x && LifeOk(c, w, id, l)
    ensures LifeOk(c, w', id, l)
  {
    forall u | 0 <= u < |w'.tasks| && P.Holds(w'.tasks[u], id)
      ensures if GivenAway(w'.tasks[u]) then l.owner.Cached? else l.owner.InUse? && (LI.Orderly(c) ==> Unstarted(l))
    {
      assert u != t && P.Holds(w.tasks[u], id);
    }
  }

  lemma OneLifeChanges(c: AllSettings, s: System, s': System, t: nat, x: P.Id, l: L.State)
    requires Inv(c, s) && P.Inv(s'.world) && AboutOnly(s.world, s'.world, t, x)
    requires s'.life == s.life[x := l] && x < s'.world.next && LifeOk(c(x), s'.world, x, l)
    ensures Inv(c, s')
  {
    forall id | id in s'.life ensures id < s'.world.next && LifeOk(c(id), s'.world, id, s'.life[id]) {
      if id != x {
        OthersLiveOn(c(id), s.world, s'.world, t, x, id, s.life[id]);
      }
    }
  }

  // ----- every step -----

  /** The holder of an object is the only one, and the object is nowhere else. */
  lemma HolderIsAlone(w: P.World, t: nat, x: P.Id)
    requires P.Inv(w) && t < |w.tasks| && P.Holds(w.tasks[t], x)
    ensures x !in w.cache && x !in w.inUse && x in w.live
    ensures forall u :: 0 <= u < |w.tasks| && P.Holds(w.tasks[u], x) ==> u == t
  {
    assert P.TaskOk(w, w.tasks[t]);
    assert P.HasHolder(w.tasks, x);
  }

  /** The state after a pool step about x, given what x's new place asks of its life. */
  lemma PlacedLifeOk(c: L.Settings, w: P.World, t: nat, x: P.Id, l: L.State)
    requires P.Inv(w) && t < |w.tasks| && P.Holds(w.tasks[t], x) && L.Reachable(c, l)
    requires if GivenAway(w.tasks[t]) then l.owner.Cached? else l.owner.InUse? && (LI.Orderly(c) ==> Unstarted(l))
    ensures LifeOk(c, w, x, l)
  {
    HolderIsAlone(w, t, x);
  }

  lemma BirthKeepsInv(c: AllSettings, s: System, t: nat)
    requires Inv(c, s) && Enabled(c, s, Pool(P.Proceed(t))) && s.world.tasks[t].Allocating?
    ensures Inv(c, Next(c, s, Pool(P.Proceed(t))))
  {
    var s' := Next(c, s, Pool(P.Proceed(t)));
    P.StepKeepsInv(s.world, P.Proceed(t), s'.world);
    BirthIsReachable(c(s.world.next));
    PlacedLifeOk(c(s.world.next), s'.world, t, s.world.next, L.INITIAL);
    OneLifeChanges(c, s, s', t, s.world.next, L.INITIAL);
  }

  lemma ResetKeepsInv(c: AllSettings, s: System, t: nat)
    requires Inv(c, s) && Enabled(c, s, Pool(P.Proceed(t))) && s.world.tasks[t].Taken?
    ensures Inv(c, Next(c, s, Pool(P.Proceed(t))))
  {
    var s', id := Next(c, s, Pool(P.Proceed(t))), s.world.tasks[t].id;
    P.StepKeepsInv(s.world, P.Proceed(t), s'.world);
    HolderIsAlone(s.world, t, id);
    var l := s.life[id];
    Theorems.ReachableInv(c(id), l);
    Runs.NextIsReachable(c(id), l, L.Reacquire);
    ReacquiredIsUnstarted(c(id), l);
    PlacedLifeOk(c(id), s'.world, t, id, s'.life[id]);
    OneLifeChanges(c, s, s', t, id, s'.life[id]);
  }

  /** An object that no thread holds, in its final place or gone. */
  lemma UnheldLifeOk(c: L.Settings, w: P.World, x: P.Id, l: L.State)
    requires L.Reachable(c, l) && forall u :: 0 <= u < |w.tasks| ==> !P.Holds(w.tasks[u], x)
    requires x in w.inUse ==> l.owner.InUse?
    requires x in w.cache ==> l.owner.Cached?
    requires x !in w.live ==> l.owner.Destroyed? || (l.owner.InUse? && (LI.Orderly(c) ==> Unstarted(l)))
    ensures LifeOk(c, w, x, l)
  {
  }

  predicate Moves(w: P.World, t: nat) {
    t < |w.tasks| && P.HasId(w.tasks[t]) && !w.tasks[t].Taken? && (w.tasks[t].Storing? ==> |w.cache| < P.MAX_POOLED)
  }

  /** The object stays with its thread, or goes to the cache or into use. */
  lemma MovedPlace(w: P.World, t: nat, w': P.World)
    requires P.Inv(w) && Moves(w, t) && P.Next(w, P.Proceed(t)) == Some(w')
    ensures var task, x := w.tasks[t], w.tasks[t].id;
            && AboutOnly(w, w', t, x) && w'.live == w.live && w'.next == w.next
            && (task.Building? || task.Storing? ==> forall u :: 0 <= u < |w'.tasks| ==> !P.Holds(w'.tasks[u], x))
            && (x in w'.inUse ==> task.Building?) && (x in w'.cache ==> task.Storing?)
            && (!task.Building? && !task.Storing? ==> P.Holds(w'.tasks[t], x) && GivenAway(w'.tasks[t]) == GivenAway(task))
  {
    HolderIsAlone(w, t, w.tasks[t].id);
  }

  lemma MoveKeepsInv(c: AllSettings, s: System, t: nat)
    requires Inv(c, s) && Enabled(c, s, Pool(P.Proceed(t))) && Moves(s.world, t)
    ensures Inv(c, Next(c, s, Pool(P.Proceed(t))))
  {
    var s', task := Next(c, s, Pool(P.Proceed(t))), s.world.tasks[t];
    var id := task.id;
    var l := s.life[id];
    P.StepKeepsInv(s.world, P.Proceed(t), s'.world);
    HolderIsAlone(s.world, t, id);
    MovedPlace(s.world, t, s'.world);
    assert LifeOk(c(id), s.world, id, l) && P.Holds(task, id);
    if task.Building? || task.Storing? {
      UnheldLifeOk(c(id), s'.world, id, l);
    } else {
      PlacedLifeOk(c(id), s'.world, t, id, l);
    }
    assert s'.life == s.life[id := l];
    OneLifeChanges(c, s, s', t, id, l);
  }

  predicate Deletes(w: P.World, b: P.Action) {
    && (b.Throw? || b.Proceed?) && b.t < |w.tasks| && P.HasId(w.tasks[b.t])
    && (b.Proceed? ==> w.tasks[b.t].Storing? && |w.cache| >= P.MAX_POOLED)
  }

  lemma DeletedIsGone(w: P.World, b: P.Action, w': P.World)
    requires P.Inv(w) && Deletes(w, b) && P.Next(w, b) == Some(w')
    ensures var x := w.tasks[b.t].id;
            && AboutOnly(w, w', b.t, x) && x !in w'.inUse && x !in w'.cache && x !in w'.live
            && x < w'.next && forall u :: 0 <= u < |w'.tasks| ==> !P.Holds(w'.tasks[u], x)
  {
    HolderIsAlone(w, b.t, w.tasks[b.t].id);
  }

  function LifeOfDeleted(c: AllSettings, w: P.World, t: nat, life: map<P.Id, L.State>): L.State
    requires t < |w.tasks| && P.HasId(w.tasks[t]) && w.tasks[t].id in life
  {
    var id := w.tasks[t].id;
    if GivenAway(w.tasks[t]) then Step(c, life, id, L.ReacquireThrows)[id] else life[id]
  }

  /** What a deletion makes of the life: given away, it is destroyed; else it never began. */
  lemma DeletedLife(c: AllSettings, w: P.World, t: nat, x: P.Id, life: map<P.Id, L.State>)
    requires t < |w.tasks| && P.Holds(w.tasks[t], x)
    requires x in life && LifeOk(c(x), w, x, life[x])
    ensures var l := LifeOfDeleted(c, w, t, life);
            L.Reachable(c(x), l) && (l.owner.Destroyed? || (l.owner.InUse? && (LI.Orderly(c(x)) ==> Unstarted(l))))
  {
    if GivenAway(w.tasks[t]) {
      Theorems.ReachableInv(c(x), life[x]);
      Runs.NextIsReachable(c(x), life[x], L.ReacquireThrows);
    }
  }

  lemma DeletionInLife(c: AllSettings, w: P.World, b: P.Action, life: map<P.Id, L.State>)
    requires Deletes(w, b) && P.Next(w, b).Some? && w.tasks[b.t].id in life
    ensures LivesOn(c, w, b, life) == life[w.tasks[b.t].id := LifeOfDeleted(c, w, b.t, life)]
  {
  }

  /** The object is deleted by the thread that holds it. */
  lemma DeletionKeepsInv(c: AllSettings, s: System, b: P.Action)
    requires Inv(c, s) && Enabled(c, s, Pool(b))
    requires Deletes(s.world, b)
    ensures Inv(c, Next(c, s, Pool(b)))
  {
    var s', id := Next(c, s, Pool(b)), s.world.tasks[b.t].id;
    P.StepKeepsInv(s.world, b, s'.world);
    HolderIsAlone(s.world, b.t, id);
    DeletedIsGone(s.world, b, s'.world);
    DeletedLife(c, s.world, b.t, id, s.life);
    DeletionInLife(c, s.world, b, s.life);
    var l := LifeOfDeleted(c, s.world, b.t, s.life);
    UnheldLifeOk(c(id), s'.world, id, l);
    OneLifeChanges(c, s, s', b.t, id, l);
  }

  lemma AcquireKeepsInv(c: AllSettings, s: System, t: nat, pooled: bool)
    requires Inv(c, s) && Enabled(c, s, Pool(P.Acquire(t, pooled)))
    ensures Inv(c, Next(c, s, Pool(P.Acquire(t, pooled))))
  {
    var s' := Next(c, s, Pool(P.Acquire(t, pooled)));
    P.StepKeepsInv(s.world, P.Acquire(t, pooled), s'.world);
    if pooled && s.world.cache != [] {
      var id := s.world.cache[|s.world.cache| - 1];
      assert P.Settled(s.world, id);
      PlacedLifeOk(c(id), s'.world, t, id, s.life[id]);
      assert s'.life == s.life[id := s.life[id]];
      OneLifeChanges(c, s, s', t, id, s.life[id]);
    } else {
      NothingMoves(c, s, s', t);
    }
  }

  /** A pool thread that has no object before or after its step. */
  lemma NothingMoves(c: AllSettings, s: System, s': System, t: nat)
    requires Inv(c, s) && P.Inv(s'.world) && s'.life == s.life
    requires t < |s.world.tasks| && !P.HasId(s.world.tasks[t])
    requires |s'.world.tasks| == |s.world.tasks| && !P.HasId(s'.world.tasks[t])
    requires s'.world == s.world.(tasks := s.world.tasks[t := s'.world.tasks[t]])
    ensures Inv(c, s')
  {
    forall id | id in s'.life ensures id < s'.world.next && LifeOk(c(id), s'.world, id, s'.life[id]) {
      OthersLiveOn(c(id), s.world, s'.world, t, id + 1, id, s.life[id]);
    }
  }

  lemma PoolStepKeepsInv(c: AllSettings, s: System, b: P.Action)
    requires Inv(c, s) && Enabled(c, s, Pool(b))
    ensures Inv(c, Next(c, s, Pool(b)))
  {
    match b
    case Acquire(t, pooled) => AcquireKeepsInv(c, s, t, pooled);
    case Proceed(t) =>
      var task := s.world.tasks[t];
      if task.Allocating? {
        BirthKeepsInv(c, s, t);
      } else if task.Taken? {
        ResetKeepsInv(c, s, t);
      } else if task.Storing? && |s.world.cache| >= P.MAX_POOLED {
        DeletionKeepsInv(c, s, b);
      } else {
        MoveKeepsInv(c, s, t);
      }
    case Throw(t) =>
      if s.world.tasks[t].Allocating? {
        P.StepKeepsInv(s.world, b, Next(c, s, Pool(b)).world);
        NothingMoves(c, s, Next(c, s, Pool(b)), t);
      } else {
        DeletionKeepsInv(c, s, b);
      }
  }

  lemma InsideKeepsInv(c: AllSettings, s: System, id: P.Id, b: L.Action)
    requires Inv(c, s) && Enabled(c, s, Inside(id, b))
    ensures Inv(c, Next(c, s, Inside(id, b)))
  {
    var l := s.life[id];
    var l' := L.Next(c(id), l, b).value;
    assert LifeOk(c(id), s.world, id, l);
    Theorems.ReachableInv(c(id), l);
    Runs.NextIsReachable(c(id), l, b);
    OwnerStays(c(id), l, b);
    if b.Start? {
      assert P.Settled(s.world, id) && !P.HasHolder(s.world.tasks, id);
    } else if Unstarted(l) && LI.Orderly(c(id)) {
      UnstartedStays(c(id), l, b);
    }
    assert LifeOk(c(id), s.world, id, l') by {
      assert b.Start? ==> forall t :: 0 <= t < |s.world.tasks| ==> !P.Holds(s.world.tasks[t], id);
    }
  }

  lemma HandBackKeepsInv(c: AllSettings, s: System, id: P.Id, thread: nat, t: nat, pooled: bool)
    requires Inv(c, s) && Enabled(c, s, HandBack(id, thread, t, pooled))
    ensures Inv(c, Next(c, s, HandBack(id, thread, t, pooled)))
  {
    var s' := Next(c, s, HandBack(id, thread, t, pooled));
    P.StepKeepsInv(s.world, P.Finish(t, id, pooled), s'.world);
    Runs.NextIsReachable(c(id), s.life[id], HandingBack(thread, pooled));
    HandingBackGivesAway(c(id), s.life[id], thread, pooled);
    assert id !in s.world.cache && !P.HasHolder(s.world.tasks, id);
    assert forall u :: 0 <= u < |s.world.tasks| ==> !P.Holds(s.world.tasks[u], id);
    assert P.Settled(s.world, id);
    if pooled {
      PlacedLifeOk(c(id), s'.world, t, id, s'.life[id]);
    } else {
      assert LifeOk(c(id), s'.world, id, s'.life[id]);
    }
    OneLifeChanges(c, s, s', t, id, s'.life[id]);
  }

  lemma NextKeepsInv(c: AllSettings, s: System, a: Action)
    requires Inv(c, s) && Enabled(c, s, a)
    ensures Inv(c, Next(c, s, a))
  {
    match a
    case Pool(b) => PoolStepKeepsInv(c, s, b);
    case Inside(id, b) => InsideKeepsInv(c, s, id, b);
    case HandBack(id, thread, t, pooled) => HandBackKeepsInv(c, s, id, thread, t, pooled);
  }

  lemma {:induction false} RunKeepsInv(c: AllSettings, threads: nat, run: seq<System>, actions: seq<Action>, k: nat)
    requires IsRun(c, threads, run, actions) && k < |run|
    ensures Inv(c, run[k])
  {
    if k > 0 {
      RunKeepsInv(c, threads, run, actions, k - 1);
      NextKeepsInv(c, run[k - 1], actions[k - 1]);
    }
  }

  // ----- the theorems -----

  /** Whatever uses an object uses one that is in use: as long as a call is inside the gate or
      a finalizer runs, and, if its generations are tame, as long as an attempt is
      outstanding, the object exists, is not in the cache, and is with no thread of the pool.
      This holds over any number of objects, threads, generations and exceptions, for every
      object that has no generation with both retries and hooks that report errors, whatever
      the others have. */
  lemma TouchedObjectsAreInUse(
      c: AllSettings, threads: nat, run: seq<System>, actions: seq<Action>, k: nat, id: P.Id, u: nat, f: L.Frame)
    requires LI.Orderly(c(id)) && IsRun(c, threads, run, actions) && k < |run| && id in run[k].life
    requires var l := run[k].life[id];
             || (LI.Tame(c(id)) && l.outstanding != {})
             || (u < |l.stacks| && L.In(f, l.stacks[u]) && Theorems.Touches(f))
    ensures id in run[k].world.inUse && id in run[k].world.live
    ensures id !in run[k].world.cache && !P.HasHolder(run[k].world.tasks, id)
  {
    RunKeepsInv(c, threads, run, actions, k);
    var s, l := run[k], run[k].life[id];
    assert LifeOk(c(id), s.world, id, l);
    if LI.Tame(c(id)) && l.outstanding != {} {
      OutstandingIsStarted(c(id), l);
    } else {
      Theorems.TouchesOnlyItsGeneration(c(id), l, u, f);
    }
    assert forall t :: 0 <= t < |s.world.tasks| ==> !P.Holds(s.world.tasks[t], id);
    assert P.Settled(s.world, id);
  }

  lemma OutstandingIsStarted(c: L.Settings, l: L.State)
    requires LI.Tame(c) && LI.Orderly(c) && L.Reachable(c, l) && l.outstanding != {}
    ensures l.owner.InUse? && l.started
  {
    Theorems.ReachableInv(c, l);
    Theorems.TameRunsAreSafe(c, l);
    assert l.outstanding == LI.Live(l.outstanding, L.Current(l));
    if !l.started {
      UnstartedIsSilent(c, l);
    }
  }

  /** Nothing is lost.  When no pool operation is under way and every object that was handed
      out has been executed and has come to rest, no object is in use any more: all that
      exist are in the cache, and creations minus destructions is its length. */
  lemma AtRestOnlyTheCacheRemains(c: AllSettings, threads: nat, run: seq<System>, actions: seq<Action>, k: nat)
    requires AllOrderly(c) && IsRun(c, threads, run, actions) && k < |run|
    requires forall t :: 0 <= t < |run[k].world.tasks| ==> run[k].world.tasks[t].Idle?
    requires forall id :: id in run[k].world.inUse && id in run[k].life ==>
               run[k].life[id].started && L.Quiet(run[k].life[id])
    ensures run[k].world.inUse == {}
    ensures run[k].world.created - run[k].world.destroyed == |run[k].world.cache| <= P.MAX_POOLED
  {
    RunKeepsInv(c, threads, run, actions, k);
    var w := run[k].world;
    forall id | id in w.inUse ensures false {
      assert P.Settled(w, id);
      assert LifeOk(c(id), w, id, run[k].life[id]);
      Theorems.QuietMeansDone(c(id), run[k].life[id]);
    }
    forall id | id in w.live ensures id in w.cache {
      assert !P.HasHolder(w.tasks, id);
    }
    forall i | 0 <= i < |w.cache| ensures w.cache[i] in w.counted { assert P.Settled(w, w.cache[i]); }
    assert w.counted == (set i | 0 <= i < |w.cache| :: w.cache[i]);
    DistinctElements(w.cache);
  }

  lemma {:induction false} DistinctElements(s: seq<P.Id>)
    requires forall i, j :: 0 <= i < j < |s| ==> s[i] != s[j]
    ensures |set i | 0 <= i < |s| :: s[i]| == |s|
  {
    if s != [] {
      var n := |s| - 1;
      DistinctElements(s[..n]);
      assert (set i | 0 <= i < |s| :: s[i]) == (set i | 0 <= i < n :: s[..n][i]) + {s[n]};
    }
  }
}
