/** The conditions of the ownership theorems are exact: every life that one object can live
    alone, it can live in the pool, and there the runs that go wrong show. */
module OwnershipLimits {
  import opened Wrappers
  import opened Ownership
  import P = PipelinePool
  import L = Lifecycle
  import LI = LifecycleInvariant
  import Theorems = LifecycleTheorems
  import Runs = LifecycleRuns

  ghost predicate Reached(c: AllSettings, threads: nat, s: System) {
    exists run, actions :: IsRun(c, threads, run, actions) && run[|actions|] == s
  }

  lemma Goes(c: AllSettings, threads: nat, s: System, a: Action, s': System)
    requires Reached(c, threads, s) && Enabled(c, s, a) && Next(c, s, a) == s'
    ensures Reached(c, threads, s')
  {
    var run, actions :| IsRun(c, threads, run, actions) && run[|actions|] == s;
    var run', actions' := run + [s'], actions + [a];
    forall k | 0 <= k < |actions'| ensures Enabled(c, run'[k], actions'[k]) && run'[k + 1] == Next(c, run'[k], actions'[k]) {
      if k < |actions| {
        assert run'[k] == run[k] && run'[k + 1] == run[k + 1] && actions'[k] == actions[k];
      } else {
        assert run'[k] == s && run'[k + 1] == s' && actions'[k] == a;
      }
    }
    assert IsRun(c, threads, run', actions') && run'[|actions'|] == s';
  }

  // ----- one object after another -----

  /** All threads of the pool are idle. */
  function Idlers(threads: nat): seq<P.Task> { seq(threads, _ => P.Idle) }

  /** The objects before number n were deleted at once. */
  function Stillborn(n: nat): (lives: map<P.Id, L.State>)
    ensures forall j: P.Id :: j in lives <==> j < n
  {
    if n == 0 then map[] else Stillborn(n - 1)[n - 1 := L.INITIAL]
  }

  /** Nothing exists; number `id` is next. */
  function Before(threads: nat, id: P.Id): System {
    System(P.World([], {}, {}, {}, {}, id, id, id, Idlers(threads)), Stillborn(id))
  }

  /** Only object `id` exists, with the pool's thread 0 busy or not. */
  function Only(threads: nat, id: P.Id, l: L.State, cache: seq<P.Id>, inUse: set<P.Id>, hooked: set<P.Id>, counted: set<P.Id>,
                created: nat, task: P.Task): System
    requires threads > 0
  {
    System(P.World(cache, inUse, {id}, hooked, counted, created, id, id + 1, Idlers(threads)[0 := task]), Stillborn(id)[id := l])
  }

  /** The object is where its owner says, and the pool is idle. */
  function Alone(threads: nat, id: P.Id, l: L.State): System
    requires threads > 0
  {
    match l.owner
    case InUse => Only(threads, id, l, [], {id}, {id}, {id}, id + 1, P.Idle)
    case Cached => Only(threads, id, l, [id], {}, {id}, {id}, id + 1, P.Idle)
    case Destroyed =>
      System(P.World([], {}, {}, {}, {}, id + 1, id + 1, id + 1, Idlers(threads)), Stillborn(id)[id := l])
  }

  lemma Birth(c: AllSettings, threads: nat, id: P.Id)
    requires threads > 0 && Reached(c, threads, Before(threads, id))
    ensures Reached(c, threads, Only(threads, id, L.INITIAL, [], {}, {id}, {}, id, P.Hooked(id, true)))
  {
    var s := Before(threads, id);
    var s1 := s.(world := s.world.(tasks := Idlers(threads)[0 := P.Allocating]));
    Goes(c, threads, s, Pool(P.Acquire(0, false)), s1);
    var s2 := Only(threads, id, L.INITIAL, [], {}, {}, {}, id, P.Unhooked(id, true));
    Goes(c, threads, s1, Pool(P.Proceed(0)), s2);
    Goes(c, threads, s2, Pool(P.Proceed(0)), Only(threads, id, L.INITIAL, [], {}, {id}, {}, id, P.Hooked(id, true)));
  }

  lemma {:induction false} ObjectsAreNumbered(c: AllSettings, threads: nat, id: P.Id)
    requires threads > 0
    ensures Reached(c, threads, Before(threads, id))
  {
    if id == 0 {
      var s := System(P.Start(threads), map[]);
      assert IsRun(c, threads, [s], []) && Before(threads, 0) == s;
    } else {
      ObjectsAreNumbered(c, threads, id - 1);
      Birth(c, threads, id - 1);
      var s := Only(threads, id - 1, L.INITIAL, [], {}, {id - 1}, {}, id - 1, P.Hooked(id - 1, true));
      assert Stillborn(id - 1)[id - 1 := L.INITIAL] == Stillborn(id);
      Goes(c, threads, s, Pool(P.Throw(0)), Before(threads, id));
    }
  }

  /** The last step of acquiring an object. */
  lemma HandedOut(c: AllSettings, threads: nat, id: P.Id, l: L.State)
    requires threads > 0 && l.owner.InUse?
    requires Reached(c, threads, Only(threads, id, l, [], {}, {id}, {id}, id + 1, P.Building(id)))
    ensures Reached(c, threads, Alone(threads, id, l))
  {
    Goes(c, threads, Only(threads, id, l, [], {}, {id}, {id}, id + 1, P.Building(id)), Pool(P.Proceed(0)), Alone(threads, id, l));
  }

  lemma ObjectIsBorn(c: AllSettings, threads: nat, id: P.Id)
    requires threads > 0
    ensures Reached(c, threads, Alone(threads, id, L.INITIAL))
  {
    ObjectsAreNumbered(c, threads, id);
    Birth(c, threads, id);
    Goes(c, threads, Only(threads, id, L.INITIAL, [], {}, {id}, {}, id, P.Hooked(id, true)), Pool(P.Proceed(0)),
         Only(threads, id, L.INITIAL, [], {}, {id}, {id}, id + 1, P.Building(id)));
    HandedOut(c, threads, id, L.INITIAL);
  }

  // ----- every step of the object's life -----

  /** Taken from the cache and reset; the destruction hook is not installed yet. */
  lemma ObjectIsReset(c: AllSettings, threads: nat, id: P.Id, l: L.State)
    requires threads > 0 && l.owner.Cached? && l.gens != [] && Reached(c, threads, Alone(threads, id, l))
    ensures Reached(c, threads, Only(threads, id, l, [], {}, {id}, {id}, id + 1, P.Taken(id)))
    ensures L.Next(c(id), l, L.Reacquire).Some?
    ensures Reached(c, threads, Only(threads, id, L.Next(c(id), l, L.Reacquire).value, [], {}, {}, {id}, id + 1, P.Unhooked(id, false)))
  {
    var s1 := Only(threads, id, l, [], {}, {id}, {id}, id + 1, P.Taken(id));
    Goes(c, threads, Alone(threads, id, l), Pool(P.Acquire(0, true)), s1);
    var l' := L.Next(c(id), l, L.Reacquire).value;
    assert s1.life[id := l'] == Stillborn(id)[id := l'];
    Goes(c, threads, s1, Pool(P.Proceed(0)), Only(threads, id, l', [], {}, {}, {id}, id + 1, P.Unhooked(id, false)));
  }

  /** The destruction hook is installed, and the object handed out. */
  lemma HookIsInstalled(c: AllSettings, threads: nat, id: P.Id, l: L.State)
    requires threads > 0 && l.owner.InUse?
    requires Reached(c, threads, Only(threads, id, l, [], {}, {}, {id}, id + 1, P.Unhooked(id, false)))
    ensures Reached(c, threads, Alone(threads, id, l))
  {
    var s1 := Only(threads, id, l, [], {}, {}, {id}, id + 1, P.Unhooked(id, false));
    var s2 := Only(threads, id, l, [], {}, {id}, {id}, id + 1, P.Hooked(id, false));
    Goes(c, threads, s1, Pool(P.Proceed(0)), s2);
    OldObjectIsBuilding(c, threads, id, l);
    HandedOut(c, threads, id, l);
  }

  lemma OldObjectIsBuilding(c: AllSettings, threads: nat, id: P.Id, l: L.State)
    requires threads > 0
    requires Reached(c, threads, Only(threads, id, l, [], {}, {id}, {id}, id + 1, P.Hooked(id, false)))
    ensures Reached(c, threads, Only(threads, id, l, [], {}, {id}, {id}, id + 1, P.Building(id)))
  {
    Goes(c, threads, Only(threads, id, l, [], {}, {id}, {id}, id + 1, P.Hooked(id, false)), Pool(P.Proceed(0)),
         Only(threads, id, l, [], {}, {id}, {id}, id + 1, P.Building(id)));
  }

  lemma ReacquireIsFollowed(c: AllSettings, threads: nat, id: P.Id, l: L.State, l': L.State)
    requires threads > 0 && Reached(c, threads, Alone(threads, id, l)) && L.Next(c(id), l, L.Reacquire) == Some(l')
    ensures Reached(c, threads, Alone(threads, id, l'))
  {
    ObjectIsReset(c, threads, id, l);
    HookIsInstalled(c, threads, id, l');
  }

  lemma ResetThrows(c: AllSettings, threads: nat, id: P.Id, l: L.State, l': L.State)
    requires threads > 0 && L.Next(c(id), l, L.ReacquireThrows) == Some(l')
    requires Reached(c, threads, Only(threads, id, l, [], {}, {id}, {id}, id + 1, P.Taken(id)))
    ensures Reached(c, threads, Alone(threads, id, l'))
  {
    var s1 := Only(threads, id, l, [], {}, {id}, {id}, id + 1, P.Taken(id));
    assert s1.life[id := l'] == Stillborn(id)[id := l'];
    Goes(c, threads, s1, Pool(P.Throw(0)), Alone(threads, id, l'));
  }

  lemma FailedResetIsFollowed(c: AllSettings, threads: nat, id: P.Id, l: L.State, l': L.State)
    requires threads > 0 && Reached(c, threads, Alone(threads, id, l)) && L.Next(c(id), l, L.ReacquireThrows) == Some(l')
    ensures Reached(c, threads, Alone(threads, id, l'))
  {
    ObjectIsReset(c, threads, id, l);
    ResetThrows(c, threads, id, l, l');
  }

  lemma InsideIsFollowed(c: AllSettings, threads: nat, id: P.Id, l: L.State, a: L.Action, l': L.State)
    requires threads > 0 && Reached(c, threads, Alone(threads, id, l)) && L.Next(c(id), l, a) == Some(l')
    requires L.OneGeneration(a) && !(a.Advance? && AtLastHook(l, a.thread))
    ensures Reached(c, threads, Alone(threads, id, l'))
  {
    OwnerStays(c(id), l, a);
    var s := Alone(threads, id, l);
    assert s.life[id := l'] == Stillborn(id)[id := l'];
    Goes(c, threads, s, Inside(id, a), Alone(threads, id, l'));
  }

  lemma LastHookIsFollowed(c: AllSettings, threads: nat, id: P.Id, l: L.State, thread: nat, choice: L.Choice, l': L.State)
    requires threads > 0 && Reached(c, threads, Alone(threads, id, l)) && L.Reachable(c(id), l)
    requires AtLastHook(l, thread) && L.Next(c(id), l, L.Advance(thread, choice)) == Some(l')
    ensures Reached(c, threads, Alone(threads, id, l'))
  {
    assert L.In(l.stacks[thread].top, l.stacks[thread]);
    Theorems.TouchesOnlyItsGeneration(c(id), l, thread, l.stacks[thread].top);
    var s := Alone(threads, id, l);
    var pooled := choice == L.Go;
    assert HandingBack(thread, pooled) == L.Advance(thread, choice);
    HandingBackGivesAway(c(id), l, thread, pooled);
    assert s.life[id := l'] == Stillborn(id)[id := l'];
    if pooled {
      var s1 := Only(threads, id, l', [], {}, {id}, {id}, id + 1, P.Clearing(id));
      Goes(c, threads, s, HandBack(id, thread, 0, true), s1);
      StoredAway(c, threads, id, l');
    } else {
      Goes(c, threads, s, HandBack(id, thread, 0, false), Alone(threads, id, l'));
    }
  }

  lemma StoredAway(c: AllSettings, threads: nat, id: P.Id, l: L.State)
    requires threads > 0 && l.owner.Cached?
    requires Reached(c, threads, Only(threads, id, l, [], {}, {id}, {id}, id + 1, P.Clearing(id)))
    ensures Reached(c, threads, Alone(threads, id, l))
  {
    var s1 := Only(threads, id, l, [], {}, {id}, {id}, id + 1, P.Clearing(id));
    var s2 := Only(threads, id, l, [], {}, {id}, {id}, id + 1, P.Storing(id));
    Goes(c, threads, s1, Pool(P.Proceed(0)), s2);
    Goes(c, threads, s2, Pool(P.Proceed(0)), Alone(threads, id, l));
  }

  lemma StepIsFollowed(c: AllSettings, threads: nat, id: P.Id, l: L.State, a: L.Action, l': L.State)
    requires threads > 0 && Reached(c, threads, Alone(threads, id, l)) && L.Reachable(c(id), l)
    requires L.Next(c(id), l, a) == Some(l')
    ensures Reached(c, threads, Alone(threads, id, l'))
  {
    if a.Reacquire? {
      ReacquireIsFollowed(c, threads, id, l, l');
    } else if a.ReacquireThrows? {
      FailedResetIsFollowed(c, threads, id, l, l');
    } else if a.Advance? && AtLastHook(l, a.thread) {
      LastHookIsFollowed(c, threads, id, l, a.thread, a.choice, l');
    } else {
      InsideIsFollowed(c, threads, id, l, a, l');
    }
  }

  lemma {:induction false} LifeIsFollowed(c: AllSettings, threads: nat, id: P.Id, l: L.State, actions: seq<L.Action>)
    requires threads > 0 && Reached(c, threads, Alone(threads, id, l)) && L.Reachable(c(id), l)
    requires L.Run(c(id), l, actions).Some?
    ensures Reached(c, threads, Alone(threads, id, L.Run(c(id), l, actions).value))
    decreases |actions|
  {
    if actions != [] {
      var l' := L.Next(c(id), l, actions[0]).value;
      StepIsFollowed(c, threads, id, l, actions[0], l');
      Runs.NextIsReachable(c(id), l, actions[0]);
      LifeIsFollowed(c, threads, id, l', actions[1..]);
    }
  }

  /** Whatever an object can come to alone, it can come to in the pool. */
  lemma EveryLifeIsLived(c: AllSettings, threads: nat, id: P.Id, l: L.State)
    requires threads > 0 && L.Reachable(c(id), l)
    ensures Reached(c, threads, Alone(threads, id, l))
  {
    var actions :| L.Run(c(id), L.INITIAL, actions) == Some(l);
    ObjectIsBorn(c, threads, id);
    assert L.Run(c(id), L.INITIAL, []) == Some(L.INITIAL);
    LifeIsFollowed(c, threads, id, L.INITIAL, actions);
  }

  // ----- the conditions are exact -----

  lemma TameIsOrderly(c: L.Settings)
    requires LI.Tame(c)
    ensures LI.Orderly(c)
  {
    forall g: nat ensures c(g).maxRetry <= 0 || !c(g).hooksMayFail {
      assert LI.TameConfig(c(g));
    }
  }

  ghost predicate AttemptsInUse(c: AllSettings, threads: nat, id: P.Id) {
    forall s :: Reached(c, threads, s) && id in s.life && s.life[id].outstanding != {} ==> id in s.world.inUse
  }

  /** As long as an attempt is outstanding its object is in use: in all runs if and only if the
      generations of that object are tame. */
  lemma AttemptsInUseExactlyWhenTame(c: AllSettings, threads: nat, id: P.Id)
    requires threads > 0
    ensures AttemptsInUse(c, threads, id) <==> LI.Tame(c(id))
  {
    if LI.Tame(c(id)) {
      TameIsOrderly(c(id));
      forall s | Reached(c, threads, s) && id in s.life && s.life[id].outstanding != {} ensures id in s.world.inUse {
        var run, actions :| IsRun(c, threads, run, actions) && run[|actions|] == s;
        TouchedObjectsAreInUse(c, threads, run, actions, |actions|, id, 0, L.Frame(L.Late, 0, L.Entering));
      }
    } else {
      var g: nat :| !LI.TameConfig(c(id)(g));
      var l := GivenBackUnderAttempt(c(id), g);
      EveryLifeIsLived(c, threads, id, l);
      assert id !in Alone(threads, id, l).world.inUse && id in Alone(threads, id, l).life;
    }
  }

  lemma GivenBackUnderAttempt(c: L.Settings, g: nat) returns (l: L.State)
    requires !LI.TameConfig(c(g))
    ensures L.Reachable(c, l) && l.owner.Cached? && l.outstanding != {}
  {
    if c(g).hooksMayFail {
      Runs.HookLetsCleanupBegin(c, g);
      Runs.EarlyCleanupEnds(c, g, [L.Idle, L.Idle]);
      l := Runs.GivenBackTooEarly(g, [L.Idle, L.Idle]);
    } else {
      Runs.LateThrowLetsCleanupBegin(c, g);
      Runs.EarlyCleanupEnds(c, g, [L.Idle]);
      l := Runs.GivenBackTooEarly(g, [L.Idle]);
    }
    assert L.Attempt(1, g) in l.outstanding;
  }

  ghost predicate TouchedBy(s: System, id: P.Id, u: nat, f: L.Frame) {
    && id in s.life && u < |s.life[id].stacks|
    && L.In(f, s.life[id].stacks[u]) && Theorems.Touches(f)
  }

  ghost predicate CallsInUse(c: AllSettings, threads: nat, id: P.Id) {
    forall s, u, f :: Reached(c, threads, s) && TouchedBy(s, id, u, f) ==> id in s.world.inUse
  }

  /** While a call is inside the gate, or a finalizer runs, the object is in use: in all runs if
      and only if none of its generations has both retries and hooks that report errors. */
  lemma CallsInUseExactlyWhenOrderly(c: AllSettings, threads: nat, id: P.Id)
    requires threads > 0
    ensures CallsInUse(c, threads, id) <==> LI.Orderly(c(id))
  {
    if LI.Orderly(c(id)) {
      forall s, u, f | Reached(c, threads, s) && TouchedBy(s, id, u, f) ensures id in s.world.inUse {
        var run, actions :| IsRun(c, threads, run, actions) && run[|actions|] == s;
        TouchedObjectsAreInUse(c, threads, run, actions, |actions|, id, u, f);
      }
    } else {
      var g: nat :| c(id)(g).maxRetry > 0 && c(id)(g).hooksMayFail;
      var s, f := OldHookTouchesHeldObject(c, threads, id, g);
      assert TouchedBy(s, id, 0, f);
    }
  }

  /** A hook of an old attempt enters the gate of the next generation while a thread of the pool
      is still preparing the object. */
  lemma OldHookTouchesHeldObject(c: AllSettings, threads: nat, id: P.Id, g: nat) returns (s: System, f: L.Frame)
    requires threads > 0 && c(id)(g).maxRetry > 0 && c(id)(g).hooksMayFail
    ensures Reached(c, threads, s) && TouchedBy(s, id, 0, f)
    ensures id !in s.world.inUse && P.HasHolder(s.world.tasks, id)
  {
    var l0 := Runs.GivenBackTooEarly(g, [L.Idle, L.Idle]);
    Runs.HookLetsCleanupBegin(c(id), g);
    Runs.EarlyCleanupEnds(c(id), g, [L.Idle, L.Idle]);
    EveryLifeIsLived(c, threads, id, l0);
    ObjectIsReset(c, threads, id, l0);
    var l1 := L.Next(c(id), l0, L.Reacquire).value;
    var l2, l3;
    l2, l3, f := OldHookEnters(c(id), g, l1);
    var s1 := Only(threads, id, l1, [], {}, {}, {id}, id + 1, P.Unhooked(id, false));
    var s2 := s1.(life := s1.life[id := l2]);
    Goes(c, threads, s1, Inside(id, L.HookFails(0, L.Attempt(1, g))), s2);
    s := s2.(life := s2.life[id := l3]);
    Goes(c, threads, s2, Inside(id, L.Advance(0, L.Go)), s);
    assert P.Holds(s.world.tasks[0], id);
  }

  /** The two steps of the object: the hook calls, and passes the gate. */
  lemma OldHookEnters(c: L.Settings, g: nat, l1: L.State) returns (l2: L.State, l3: L.State, f: L.Frame)
    requires c(g).hooksMayFail && L.Next(c, Runs.GivenBackTooEarly(g, [L.Idle, L.Idle]), L.Reacquire) == Some(l1)
    ensures L.Next(c, l1, L.HookFails(0, L.Attempt(1, g))) == Some(l2)
    ensures L.Next(c, l2, L.Advance(0, L.Go)) == Some(l3) && !AtLastHook(l2, 0)
    ensures |l3.stacks| > 0 && L.In(f, l3.stacks[0]) && Theorems.Touches(f)
  {
    l2 := L.Next(c, l1, L.HookFails(0, L.Attempt(1, g))).value;
    l3 := L.Next(c, l2, L.Advance(0, L.Go)).value;
    f := l3.stacks[0].top;
  }

  /** No pool operation is under way, and every object that was handed out has been executed and
      has come to rest. */
  ghost predicate AllAtRest(s: System) {
    && (forall t :: 0 <= t < |s.world.tasks| ==> s.world.tasks[t].Idle?)
    && (forall id :: id in s.world.inUse && id in s.life ==> s.life[id].started && L.Quiet(s.life[id]))
  }

  /** Nothing stays in use at rest: in all runs if and only if no generation of any object has
      both retries and hooks that report errors. */
  lemma AtRestExactlyWhenOrderly(c: AllSettings, threads: nat)
    requires threads > 0
    ensures (forall s :: Reached(c, threads, s) && AllAtRest(s) ==> s.world.inUse == {}) <==> AllOrderly(c)
  {
    if AllOrderly(c) {
      forall s | Reached(c, threads, s) && AllAtRest(s) ensures s.world.inUse == {} {
        var run, actions :| IsRun(c, threads, run, actions) && run[|actions|] == s;
        AtRestOnlyTheCacheRemains(c, threads, run, actions, |actions|);
      }
    } else {
      var id: P.Id :| !LI.Orderly(c(id));
      var g: nat :| c(id)(g).maxRetry > 0 && c(id)(g).hooksMayFail;
      Runs.OldHookLeavesUncleaned(c(id), g);
      var l :| L.Reachable(c(id), l) && l.started && L.Quiet(l) && l.owner.InUse?;
      EveryLifeIsLived(c, threads, id, l);
      var s := Alone(threads, id, l);
      assert AllAtRest(s) && id in s.world.inUse;
    }
  }
}
