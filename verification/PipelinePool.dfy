/** The pool of pipeline objects: a bounded cache, and the counters of objects created and
    destroyed.

    The cache is guarded by a mutex that is held only for a pop or a push; resetting,
    clearing and deleting happen outside it.  The class below is one pool with its critical
    sections and the two operations built from them.  The machine interleaves any number of
    threads, each of which may be stopped by an exception wherever the source can throw. */
module PipelinePool {
  import opened Wrappers

  const MAX_POOLED: nat := 64

  // ----- the two critical sections -----

  function Popped<A>(cache: seq<A>): (seq<A>, Option<A>) {
    if cache == [] then (cache, None) else (cache[..|cache| - 1], Some(cache[|cache| - 1]))
  }

  function Pushed<A>(cache: seq<A>, p: A): (seq<A>, bool) {
    if |cache| < MAX_POOLED then (cache + [p], true) else (cache, false)
  }

  /** A pipeline object as the pool sees it: its gate generation, whether the destruction
      hook is installed, and whether it still exists. */
  class Pipeline {
    var generation: nat
    var destroyHook: bool
    var alive: bool

    constructor ()
      ensures generation == 0 && !destroyHook && alive
    {
      generation, destroyHook, alive := 0, false, true;
    }
  }

  class BoundedPipelinePool {
    var cache: seq<Pipeline>
    var destroyed: nat

    predicate Valid()
      reads this, cache
    {
      && |cache| <= MAX_POOLED
      && (forall i, j :: 0 <= i < j < |cache| ==> cache[i] != cache[j])
      && (forall p :: p in cache ==> p.alive && p.destroyHook)
    }

    constructor ()
      ensures Valid() && cache == [] && destroyed == 0
    {
      cache, destroyed := [], 0;
    }

    /** Deletes an object; the destructor calls the hook if there is one. */
    method Delete(p: Pipeline)
      requires p.alive
      modifies p`alive, this`destroyed
      ensures !p.alive
      ensures destroyed == old(destroyed) + if p.destroyHook then 1 else 0
    {
      p.alive := false;
      if p.destroyHook {
        destroyed := destroyed + 1;
      }
    }

    /** Takes a cached object, or makes a new one.  A reset that throws deletes the object
        that was taken, while its hook is still installed; otherwise a cached object comes
        back in a new generation and without a hook. */
    method Acquire(resetThrows: bool) returns (p: Option<Pipeline>, created: bool)
      requires Valid()
      modifies this, cache
      ensures Valid() && cache == Popped(old(cache)).0
      ensures cache == if old(cache) == [] then [] else old(cache)[..|old(cache)| - 1]
      ensures created == (old(cache) == [])
      ensures old(cache) == [] ==> p.Some? && fresh(p.value) && !p.value.destroyHook && destroyed == old(destroyed)
      ensures old(cache) != [] && resetThrows ==>
                var last := old(cache)[|old(cache)| - 1];
                p.None? && !last.alive && destroyed == old(destroyed) + 1
      ensures old(cache) != [] && !resetThrows ==>
                var last := old(cache)[|old(cache)| - 1];
                p == Some(last) && last.alive && !last.destroyHook && last.generation == old(last.generation) + 1
                && destroyed == old(destroyed)
    {
      if |cache| > 0 {
        var last := cache[|cache| - 1];
        cache := cache[..|cache| - 1];
        if resetThrows {
          Delete(last);
          return None, false;
        }
        last.generation := last.generation + 1;
        last.destroyHook := false;
        return Some(last), false;
      }
      var made := new Pipeline();
      return Some(made), true;
    }

    /** Takes an object back: it is cached while there is room, and deleted, with its hook
        called, if the cache is full or if clearing it or storing it throws. */
    method Recycle(p: Pipeline, throws: bool)
      requires Valid() && p.alive && p.destroyHook && p !in cache
      modifies this, p
      ensures Valid() && p.generation == old(p.generation) && p.destroyHook
      ensures !throws ==> cache == Pushed(old(cache), p).0 && p.alive == Pushed(old(cache), p).1
      ensures !throws && |old(cache)| < 64 ==> cache == old(cache) + [p] && p.alive
      ensures throws || |old(cache)| >= 64 ==> cache == old(cache) && !p.alive
      ensures destroyed == old(destroyed) + if p.alive then 0 else 1
    {
      if !throws && |cache| < MAX_POOLED {
        cache := cache + [p];
        return;
      }
      Delete(p);
    }
  }

  // ----- all threads, all exceptions -----

  type Id = nat

  datatype Task =
    | Idle
    | Allocating                        // about to allocate a new object
    | Taken(id: Id)                     // popped, not yet reset
    | Unhooked(id: Id, created: bool)   // new or reset, its destruction hook not installed
    | Hooked(id: Id, created: bool)     // hook installed, creation not yet counted
    | Building(id: Id)                  // counted, being configured
    | Clearing(id: Id)                  // finished, being cleared for the pool
    | Storing(id: Id)                   // cleared, about to be pushed

  /** `counted` records whose creation the counter has seen. */
  datatype World = World(
    cache: seq<Id>, inUse: set<Id>, live: set<Id>, hooked: set<Id>, counted: set<Id>,
    created: nat, destroyed: nat, next: Id, tasks: seq<Task>)

  datatype Action =
    | Acquire(t: nat, pooled: bool)
    | Proceed(t: nat)
    | Throw(t: nat)
    | Finish(t: nat, id: Id, pooled: bool)   // the finalizer of a generation runs

  function Become(w: World, t: nat, task: Task): World
    requires t < |w.tasks|
  {
    w.(tasks := w.tasks[t := task])
  }

  /** The destructor runs the hook, if it is installed. */
  function Destroy(w: World, id: Id): World {
    w.(live := w.live - {id}, hooked := w.hooked - {id}, counted := w.counted - {id},
       destroyed := w.destroyed + if id in w.hooked then 1 else 0)
  }

  function Proceeds(w: World, t: nat): Option<World>
    requires t < |w.tasks|
  {
    match w.tasks[t]
    case Idle => None
    case Allocating =>
      Some(Become(w.(live := w.live + {w.next}, next := w.next + 1), t, Unhooked(w.next, true)))
    case Taken(id) => Some(Become(w.(hooked := w.hooked - {id}), t, Unhooked(id, false)))
    case Unhooked(id, created) => Some(Become(w.(hooked := w.hooked + {id}), t, Hooked(id, created)))
    case Hooked(id, created) =>
      if created then Some(Become(w.(created := w.created + 1, counted := w.counted + {id}), t, Building(id)))
      else Some(Become(w, t, Building(id)))
    case Building(id) => Some(Become(w.(inUse := w.inUse + {id}), t, Idle))
    case Clearing(id) => Some(Become(w, t, Storing(id)))
    case Storing(id) =>
      var (cache, kept) := Pushed(w.cache, id);
      Some(Become(if kept then w.(cache := cache) else Destroy(w, id), t, Idle))
  }

  /** Where an exception may strike, and what unwinding then deletes.  Installing the hook
      does not allocate and cannot throw; logging after the count can. */
  function Throws(w: World, t: nat): Option<World>
    requires t < |w.tasks|
  {
    match w.tasks[t]
    case Idle => None
    case Unhooked(_, _) => None
    case Allocating => Some(Become(w, t, Idle))
    case Hooked(id, created) =>
      if created then
        Some(Become(Destroy(w.(created := w.created + 1, counted := w.counted + {id}), id), t, Idle))
      else None
    case Taken(id) => Some(Become(Destroy(w, id), t, Idle))
    case Building(id) => Some(Become(Destroy(w, id), t, Idle))
    case Clearing(id) => Some(Become(Destroy(w, id), t, Idle))
    case Storing(id) => Some(Become(Destroy(w, id), t, Idle))
  }

  function Next(w: World, a: Action): Option<World> {
    match a
    case Acquire(t, pooled) =>
      if t >= |w.tasks| || !w.tasks[t].Idle? then None
      else if !pooled then Some(Become(w, t, Allocating))
      else
        var (cache, p) := Popped(w.cache);
        Some(Become(w.(cache := cache), t, if p.Some? then Taken(p.value) else Allocating))
    case Proceed(t) => if t >= |w.tasks| then None else Proceeds(w, t)
    case Throw(t) => if t >= |w.tasks| then None else Throws(w, t)
    case Finish(t, id, pooled) =>
      if t >= |w.tasks| || !w.tasks[t].Idle? || id !in w.inUse then None
      else if pooled then Some(Become(w.(inUse := w.inUse - {id}), t, Clearing(id)))
      else Some(Become(Destroy(w.(inUse := w.inUse - {id}), id), t, Idle))
  }

  function Start(threads: nat): World {
    World([], {}, {}, {}, {}, 0, 0, 0, seq(threads, _ => Idle))
  }

  function Run(w: World, actions: seq<Action>): Option<World>
    decreases |actions|
  {
    if actions == [] then Some(w) else
    match Next(w, actions[0])
    case None => None
    case Some(w') => Run(w', actions[1..])
  }

  predicate Holds(task: Task, id: Id) {
    !task.Idle? && !task.Allocating? && task.id == id
  }

  predicate TaskOk(w: World, task: Task) {
    match task
    case Idle => true
    case Allocating => true
    case Unhooked(id, created) => id in w.live && id !in w.hooked && (created <==> id !in w.counted)
    case Hooked(id, created) => id in w.live && id in w.hooked && (created <==> id !in w.counted)
    case _ => task.id in w.counted && task.id in w.hooked
  }

  predicate HasHolder(tasks: seq<Task>, id: Id) {
    exists t :: 0 <= t < |tasks| && Holds(tasks[t], id)
  }

  /** No object is in two places: cached twice, cached and in use, or with two threads. */
  predicate Disjoint(cache: seq<Id>, inUse: set<Id>, tasks: seq<Task>) {
    && (forall i, j :: 0 <= i < j < |cache| ==> cache[i] != cache[j])
    && (forall i :: 0 <= i < |cache| ==> cache[i] !in inUse && !HasHolder(tasks, cache[i]))
    && (forall id :: id in inUse ==> !HasHolder(tasks, id))
    && (forall t, u :: 0 <= t < u < |tasks| && HasId(tasks[t]) && HasId(tasks[u]) ==> tasks[t].id != tasks[u].id)
  }

  /** Every live object is somewhere. */
  predicate Accounted(w: World) {
    forall id :: id in w.live ==> id in w.cache || id in w.inUse || HasHolder(w.tasks, id)
  }

  predicate HasId(task: Task) { !task.Idle? && !task.Allocating? }

  predicate Settled(w: World, id: Id) { id in w.counted && id in w.hooked }

  predicate Inv(w: World) {
    && Disjoint(w.cache, w.inUse, w.tasks)
    && Accounted(w)
    && |w.cache| <= MAX_POOLED
    && (forall i :: 0 <= i < |w.cache| ==> Settled(w, w.cache[i]))
    && (forall id :: id in w.inUse ==> Settled(w, id))
    && (forall t :: 0 <= t < |w.tasks| ==> TaskOk(w, w.tasks[t]))
    && w.counted <= w.live && w.hooked <= w.live
    && (forall id :: id in w.live ==> id < w.next)
    && w.created == w.destroyed + |w.counted|
  }

  /** Replacing one task changes who holds what only for the ids involved. */
  lemma HoldersAfter(tasks: seq<Task>, t: nat, task: Task, id: Id)
    requires t < |tasks|
    ensures Holds(task, id) ==> HasHolder(tasks[t := task], id)
    ensures !Holds(task, id) && !Holds(tasks[t], id) ==> HasHolder(tasks[t := task], id) == HasHolder(tasks, id)
  {
    var after := tasks[t := task];
    if Holds(task, id) {
      assert Holds(after[t], id);
    } else if !Holds(tasks[t], id) {
      if HasHolder(tasks, id) {
        var u :| 0 <= u < |tasks| && Holds(tasks[u], id);
        assert Holds(after[u], id);
      }
      if HasHolder(after, id) {
        var u :| 0 <= u < |after| && Holds(after[u], id);
        assert Holds(tasks[u], id);
      }
    }
  }

  /** Once a thread has let go of an object, nobody holds it. */
  lemma NobodyElseHolds(w: World, t: nat, task: Task)
    requires Disjoint(w.cache, w.inUse, w.tasks) && t < |w.tasks| && HasId(w.tasks[t]) && !Holds(task, w.tasks[t].id)
    ensures !HasHolder(w.tasks[t := task], w.tasks[t].id)
    ensures w.tasks[t].id !in w.inUse && w.tasks[t].id !in w.cache
  {
    assert Holds(w.tasks[t], w.tasks[t].id);
  }

  lemma HoldersAfterAll(tasks: seq<Task>, t: nat, task: Task)
    requires t < |tasks|
    ensures forall id :: !Holds(task, id) && !Holds(tasks[t], id) ==> HasHolder(tasks[t := task], id) == HasHolder(tasks, id)
    ensures forall id :: Holds(task, id) ==> HasHolder(tasks[t := task], id)
  {
    forall id ensures !Holds(task, id) && !Holds(tasks[t], id) ==> HasHolder(tasks[t := task], id) == HasHolder(tasks, id)
              ensures Holds(task, id) ==> HasHolder(tasks[t := task], id)
    {
      HoldersAfter(tasks, t, task, id);
    }
  }

  /** The task goes on with the object it has, or without any as before. */
  lemma SameIdKeepsPlaces(w: World, w': World, t: nat, task: Task)
    requires Disjoint(w.cache, w.inUse, w.tasks) && Accounted(w) && t < |w.tasks|
    requires forall id :: Holds(w.tasks[t], id) <==> Holds(task, id)
    requires HasId(w.tasks[t]) <==> HasId(task)
    requires w'.tasks == w.tasks[t := task] && w'.cache == w.cache && w'.inUse == w.inUse && w'.live == w.live
    ensures Disjoint(w'.cache, w'.inUse, w'.tasks) && Accounted(w')
  {
    HoldersAfterAll(w.tasks, t, task);
    assert HasId(task) ==> Holds(task, task.id);
    forall id ensures HasHolder(w'.tasks, id) == HasHolder(w.tasks, id) {
      if Holds(task, id) {
        assert Holds(w.tasks[t], id) && Holds(w'.tasks[t], id);
      }
    }
  }

  /** The thread lets go: the object is cached, handed out or gone. */
  lemma ReleaseKeepsPlaces(w: World, w': World, t: nat)
    requires Disjoint(w.cache, w.inUse, w.tasks) && Accounted(w) && t < |w.tasks| && HasId(w.tasks[t])
    requires w'.tasks == w.tasks[t := Idle]
    requires var id := w.tasks[t].id;
             || (w'.cache == w.cache && w'.inUse == w.inUse && w'.live == w.live - {id})
             || (w'.cache == w.cache + [id] && w'.inUse == w.inUse && w'.live == w.live)
             || (w'.cache == w.cache && w'.inUse == w.inUse + {id} && w'.live == w.live)
    ensures Disjoint(w'.cache, w'.inUse, w'.tasks) && Accounted(w')
  {
    HoldersAfterAll(w.tasks, t, Idle);
    NobodyElseHolds(w, t, Idle);
    forall id | id in w'.live ensures id in w'.cache || id in w'.inUse || HasHolder(w'.tasks, id) {
      if id != w.tasks[t].id {
        assert !Holds(w.tasks[t], id);
        assert id in w.cache ==> id in w'.cache;
      } else if w'.cache == w.cache + [id] {
        assert w'.cache[|w.cache|] == id;
      }
    }
  }

  /** The thread takes an object nobody else has. */
  lemma TakeKeepsPlaces(w: World, w': World, t: nat, task: Task)
    requires Disjoint(w.cache, w.inUse, w.tasks) && Accounted(w) && t < |w.tasks| && !HasId(w.tasks[t]) && HasId(task)
    requires w'.tasks == w.tasks[t := task]
    requires var id := task.id;
             || (id !in w.cache && id !in w.inUse && !HasHolder(w.tasks, id)
                 && w'.cache == w.cache && w'.inUse == w.inUse && w'.live == w.live + {id})
             || (w.cache != [] && w'.cache == w.cache[..|w.cache| - 1] && id == w.cache[|w.cache| - 1]
                 && w'.inUse == w.inUse && w'.live == w.live)
             || (id in w.inUse && w'.cache == w.cache && w'.inUse == w.inUse - {id} && w'.live == w.live)
    ensures Disjoint(w'.cache, w'.inUse, w'.tasks) && Accounted(w')
  {
    var id := task.id;
    HoldersAfterAll(w.tasks, t, task);
    assert !HasHolder(w.tasks, id);
    forall u | 0 <= u < |w.tasks| && HasId(w.tasks[u]) ensures w.tasks[u].id != id {
      assert Holds(w.tasks[u], w.tasks[u].id);
    }
    forall x | x in w'.live ensures x in w'.cache || x in w'.inUse || HasHolder(w'.tasks, x) {
      if x == id {
        assert Holds(w'.tasks[t], id);
      } else if x in w.cache {
        var i :| 0 <= i < |w.cache| && w.cache[i] == x;
        assert i < |w'.cache| && w'.cache[i] == x;
      }
    }
  }

  /** Whatever does not concern object x is as it was. */
  predicate SameBut(w: World, w': World, x: Id) {
    && w.counted - {x} == w'.counted - {x}
    && w.hooked - {x} == w'.hooked - {x}
    && w.live - {x} == w'.live - {x}
  }

  /** A step of thread t that concerns only the object x, which no other thread has. */
  lemma RestStays(w: World, w': World, t: nat, task: Task, x: Id)
    requires Inv(w) && t < |w.tasks| && w'.tasks == w.tasks[t := task]
    requires SameBut(w, w', x) && TaskOk(w', task)
    requires forall u :: 0 <= u < |w.tasks| && u != t && HasId(w.tasks[u]) ==> w.tasks[u].id != x
    requires forall i :: 0 <= i < |w'.cache| ==> w'.cache[i] in w.cache || w'.cache[i] == x
    requires w'.inUse <= w.inUse + {x}
    requires x in w'.cache || x in w'.inUse ==> Settled(w', x)
    ensures forall i :: 0 <= i < |w'.cache| ==> Settled(w', w'.cache[i])
    ensures forall id :: id in w'.inUse ==> Settled(w', id)
    ensures forall u :: 0 <= u < |w'.tasks| ==> TaskOk(w', w'.tasks[u])
  {
    forall id | id != x ensures (id in w.counted <==> id in w'.counted) && (id in w.hooked <==> id in w'.hooked)
                                && (id in w.live <==> id in w'.live)
    {
      assert id in w.counted <==> id in w.counted - {x};
      assert id in w.hooked <==> id in w.hooked - {x};
      assert id in w.live <==> id in w.live - {x};
    }
    forall u | 0 <= u < |w'.tasks| ensures TaskOk(w', w'.tasks[u]) {
      if u != t {
        assert TaskOk(w, w.tasks[u]);
      }
    }
  }

  lemma FreshIdIsNowhere(w: World)
    requires Inv(w)
    ensures w.next !in w.cache && w.next !in w.inUse && !HasHolder(w.tasks, w.next) && w.next !in w.live
    ensures forall u :: 0 <= u < |w.tasks| && HasId(w.tasks[u]) ==> w.tasks[u].id != w.next
  {
    forall u | 0 <= u < |w.tasks| && HasId(w.tasks[u]) ensures w.tasks[u].id != w.next {
      assert TaskOk(w, w.tasks[u]);
    }
    forall i | 0 <= i < |w.cache| ensures w.cache[i] != w.next {
      assert Settled(w, w.cache[i]);
    }
  }

  /** What a thread holds is not what another thread, the cache or a user has. */
  lemma OthersAreElsewhere(w: World, t: nat)
    requires Inv(w) && t < |w.tasks| && HasId(w.tasks[t])
    ensures forall u :: 0 <= u < |w.tasks| && u != t && HasId(w.tasks[u]) ==> w.tasks[u].id != w.tasks[t].id
    ensures w.tasks[t].id !in w.inUse && w.tasks[t].id !in w.cache
    ensures TaskOk(w, w.tasks[t])
  {
    assert Holds(w.tasks[t], w.tasks[t].id);
  }

  lemma AllocateKeepsInv(w: World, t: nat, w': World)
    requires Inv(w) && t < |w.tasks| && w.tasks[t].Allocating? && Proceeds(w, t) == Some(w')
    ensures Inv(w')
  {
    FreshIdIsNowhere(w);
    TakeKeepsPlaces(w, w', t, w'.tasks[t]);
    RestStays(w, w', t, w'.tasks[t], w.next);
  }

  /** A thread that goes on with the object it has. */
  lemma KeepIdKeepsInv(w: World, t: nat, w': World)
    requires Inv(w) && t < |w.tasks| && Proceeds(w, t) == Some(w')
    requires HasId(w.tasks[t]) && !w.tasks[t].Building? && !w.tasks[t].Storing?
    ensures Inv(w')
  {
    OthersAreElsewhere(w, t);
    SameIdKeepsPlaces(w, w', t, w'.tasks[t]);
    RestStays(w, w', t, w'.tasks[t], w.tasks[t].id);
  }

  lemma HandOutKeepsInv(w: World, t: nat, w': World)
    requires Inv(w) && t < |w.tasks| && Proceeds(w, t) == Some(w')
    requires w.tasks[t].Building? || (w.tasks[t].Storing? && |w.cache| < MAX_POOLED)
    ensures Inv(w')
  {
    OthersAreElsewhere(w, t);
    ReleaseKeepsPlaces(w, w', t);
    RestStays(w, w', t, Idle, w.tasks[t].id);
  }

  /** A thread that deletes the object it has, after its creation was counted. */
  lemma DestroyKeepsInv(w: World, t: nat, w': World)
    requires Inv(w) && t < |w.tasks| && HasId(w.tasks[t]) && Settled(w, w.tasks[t].id)
    requires w' == Become(Destroy(w, w.tasks[t].id), t, Idle)
    ensures Inv(w')
  {
    OthersAreElsewhere(w, t);
    ReleaseKeepsPlaces(w, w', t);
    RestStays(w, w', t, Idle, w.tasks[t].id);
  }

  lemma ProceedKeepsInv(w: World, t: nat, w': World)
    requires Inv(w) && t < |w.tasks| && Proceeds(w, t) == Some(w')
    ensures Inv(w')
  {
    assert TaskOk(w, w.tasks[t]);
    match w.tasks[t]
    case Allocating => AllocateKeepsInv(w, t, w');
    case Building(_) => HandOutKeepsInv(w, t, w');
    case Storing(id) =>
      if |w.cache| < MAX_POOLED {
        HandOutKeepsInv(w, t, w');
      } else {
        DestroyKeepsInv(w, t, w');
      }
    case _ => KeepIdKeepsInv(w, t, w');
  }

  /** Counting and logging: the log throws after the count. */
  lemma LogThrowKeepsInv(w: World, t: nat, w': World)
    requires Inv(w) && t < |w.tasks| && w.tasks[t].Hooked? && Throws(w, t) == Some(w')
    ensures Inv(w')
  {
    OthersAreElsewhere(w, t);
    var counted := Become(w.(created := w.created + 1, counted := w.counted + {w.tasks[t].id}), t, Building(w.tasks[t].id));
    KeepIdKeepsInv(w, t, counted);
    assert w' == Become(Destroy(counted, w.tasks[t].id), t, Idle);
    DestroyKeepsInv(counted, t, w');
  }

  lemma ThrowKeepsInv(w: World, t: nat, w': World)
    requires Inv(w) && t < |w.tasks| && Throws(w, t) == Some(w')
    ensures Inv(w')
  {
    assert TaskOk(w, w.tasks[t]);
    match w.tasks[t]
    case Allocating =>
      SameIdKeepsPlaces(w, w', t, Idle);
      FreshIdIsNowhere(w);
      RestStays(w, w', t, Idle, w.next);
    case Hooked(_, _) => LogThrowKeepsInv(w, t, w');
    case _ => DestroyKeepsInv(w, t, w');
  }

  lemma AcquireKeepsInv(w: World, t: nat, pooled: bool, w': World)
    requires Inv(w) && Next(w, Acquire(t, pooled)) == Some(w')
    ensures Inv(w')
  {
    if pooled && w.cache != [] {
      var id := w.cache[|w.cache| - 1];
      assert Settled(w, id) && !HasHolder(w.tasks, id);
      forall u | 0 <= u < |w.tasks| && HasId(w.tasks[u]) ensures w.tasks[u].id != id {
        assert Holds(w.tasks[u], w.tasks[u].id);
      }
      TakeKeepsPlaces(w, w', t, Taken(id));
      RestStays(w, w', t, Taken(id), id);
    } else {
      SameIdKeepsPlaces(w, w', t, Allocating);
      FreshIdIsNowhere(w);
      RestStays(w, w', t, Allocating, w.next);
    }
  }

  lemma FinishKeepsInv(w: World, t: nat, id: Id, pooled: bool, w': World)
    requires Inv(w) && Next(w, Finish(t, id, pooled)) == Some(w')
    ensures Inv(w')
  {
    var taken := Become(w.(inUse := w.inUse - {id}), t, Clearing(id));
    assert !HasHolder(w.tasks, id);
    forall u | 0 <= u < |w.tasks| && HasId(w.tasks[u]) ensures w.tasks[u].id != id {
      assert Holds(w.tasks[u], w.tasks[u].id);
    }
    assert id !in w.cache;
    TakeKeepsPlaces(w, taken, t, Clearing(id));
    RestStays(w, taken, t, Clearing(id), id);
    if !pooled {
      assert w' == Become(Destroy(taken, id), t, Idle);
      DestroyKeepsInv(taken, t, w');
    }
  }

  lemma StepKeepsInv(w: World, a: Action, w': World)
    requires Inv(w) && Next(w, a) == Some(w')
    ensures Inv(w')
  {
    match a
    case Acquire(t, pooled) => AcquireKeepsInv(w, t, pooled, w');
    case Proceed(t) => ProceedKeepsInv(w, t, w');
    case Throw(t) => ThrowKeepsInv(w, t, w');
    case Finish(t, id, pooled) => FinishKeepsInv(w, t, id, pooled, w');
  }

  lemma {:induction false} RunKeepsInv(w: World, actions: seq<Action>)
    requires Inv(w) && Run(w, actions).Some?
    ensures Inv(Run(w, actions).value)
    decreases |actions|
  {
    if actions != [] {
      var w' := Next(w, actions[0]).value;
      StepKeepsInv(w, actions[0], w');
      RunKeepsInv(w', actions[1..]);
    }
  }

  // ----- what every run keeps -----

  /** In every interleaving of any number of threads, with exceptions anywhere: no object is
      cached twice, or both cached and in use or in transit; everything cached or in use
      exists; and the cache holds at most 64. */
  lemma NoObjectInTwoPlaces(threads: nat, actions: seq<Action>, w: World)
    requires Run(Start(threads), actions) == Some(w)
    ensures Disjoint(w.cache, w.inUse, w.tasks) && |w.cache| <= MAX_POOLED
    ensures forall i :: 0 <= i < |w.cache| ==> w.cache[i] in w.live
    ensures w.inUse <= w.live
    ensures w.counted <= w.live && w.created == w.destroyed + |w.counted|
  {
    RunKeepsInv(Start(threads), actions);
    forall i | 0 <= i < |w.cache| ensures w.cache[i] in w.live { assert Settled(w, w.cache[i]); }
    forall id | id in w.inUse ensures id in w.live { assert Settled(w, id); }
  }

  /** Whenever no acquire or recycle is under way, creations minus destructions is the number
      of live objects, and each of them is in the cache or in use: none is lost. */
  lemma CountersMatchLiveObjects(threads: nat, actions: seq<Action>, w: World)
    requires Run(Start(threads), actions) == Some(w)
    requires forall t :: 0 <= t < |w.tasks| ==> w.tasks[t].Idle?
    ensures w.created - w.destroyed == |w.live|
    ensures w.live == w.inUse + (set i | 0 <= i < |w.cache| :: w.cache[i])
  {
    RunKeepsInv(Start(threads), actions);
    forall id | id in w.live ensures id in w.inUse || id in w.cache { assert !HasHolder(w.tasks, id); }
    forall i | 0 <= i < |w.cache| ensures Settled(w, w.cache[i]) {}
    assert w.live == w.counted;
  }

  // ----- single operations in the machine -----

  /** Where an exception can strike; the object the thread held is then gone, its creation and
      its destruction both counted, and the thread is idle. */
  lemma EveryPlaceMayThrow(w: World, t: nat)
    requires Inv(w) && t < |w.tasks|
    ensures var task := w.tasks[t];
            Next(w, Throw(t)).Some? <==>
              task.Allocating? || task.Taken? || task.Building? || task.Clearing? || task.Storing? || (task.Hooked? && task.created)
    ensures Next(w, Throw(t)).Some? ==>
              var w' := Next(w, Throw(t)).value;
              && w'.tasks == w.tasks[t := Idle] && w'.cache == w.cache && w'.inUse == w.inUse
              && w'.live == (if HasId(w.tasks[t]) then w.live - {w.tasks[t].id} else w.live)
              && w'.created == w.created + (if w.tasks[t].Hooked? then 1 else 0)
              && w'.destroyed == w.destroyed + (if HasId(w.tasks[t]) then 1 else 0)
  {
    assert TaskOk(w, w.tasks[t]);
  }

  /** The world with a thread at a task and everything else as given. */
  function At(w: World, t: nat, task: Task, cache: seq<Id>, inUse: set<Id>, hooked: set<Id>): World
    requires t < |w.tasks|
  {
    w.(tasks := w.tasks[t := task], cache := cache, inUse := inUse, hooked := hooked)
  }

  lemma AtOverwrites(w: World, t: nat, task: Task, task': Task, cache: seq<Id>, inUse: set<Id>, hooked: set<Id>)
    requires t < |w.tasks|
    ensures Become(At(w, t, task, cache, inUse, hooked), t, task') == At(w, t, task', cache, inUse, hooked)
  {
    assert w.tasks[t := task][t := task'] == w.tasks[t := task'];
  }

  lemma RunStep(w: World, a: Action, rest: seq<Action>, w': World)
    requires Next(w, a) == Some(w')
    ensures Run(w, [a] + rest) == Run(w', rest)
  {
    assert ([a] + rest)[1..] == rest;
  }

  /** From the pop to the installed hook. */
  lemma ResetAndHook(w: World, t: nat, id: Id, cache: seq<Id>)
    requires t < |w.tasks| && id in w.hooked
    ensures Next(At(w, t, Taken(id), cache, w.inUse, w.hooked), Proceed(t))
            == Some(At(w, t, Unhooked(id, false), cache, w.inUse, w.hooked - {id}))
    ensures Next(At(w, t, Unhooked(id, false), cache, w.inUse, w.hooked - {id}), Proceed(t))
            == Some(At(w, t, Hooked(id, false), cache, w.inUse, w.hooked))
  {
    AtOverwrites(w, t, Taken(id), Unhooked(id, false), cache, w.inUse, w.hooked - {id});
    AtOverwrites(w, t, Unhooked(id, false), Hooked(id, false), cache, w.inUse, w.hooked);
    assert (w.hooked - {id}) + {id} == w.hooked;
  }

  /** From there until the object is handed out. */
  lemma BuildAndHandOut(w: World, t: nat, id: Id, cache: seq<Id>)
    requires t < |w.tasks| && w.tasks[t].Idle?
    ensures Next(At(w, t, Hooked(id, false), cache, w.inUse, w.hooked), Proceed(t))
            == Some(At(w, t, Building(id), cache, w.inUse, w.hooked))
    ensures Next(At(w, t, Building(id), cache, w.inUse, w.hooked), Proceed(t))
            == Some(w.(cache := cache, inUse := w.inUse + {id}))
  {
    AtOverwrites(w, t, Hooked(id, false), Building(id), cache, w.inUse, w.hooked);
    AtOverwrites(w, t, Building(id), Idle, cache, w.inUse + {id}, w.hooked);
    assert w.tasks[t := Idle] == w.tasks;
  }

  /** An acquire that nobody disturbs hands out the newest cached object, and leaves the others. */
  lemma UndisturbedAcquire(w: World, t: nat)
    requires Inv(w) && t < |w.tasks| && w.tasks[t].Idle? && w.cache != []
    ensures var last := |w.cache| - 1;
            Run(w, [Acquire(t, true)] + ([Proceed(t)] + ([Proceed(t)] + ([Proceed(t)] + ([Proceed(t)] + [])))))
            == Some(w.(cache := w.cache[..last], inUse := w.inUse + {w.cache[last]}))
  {
    var last := |w.cache| - 1;
    var id, rest := w.cache[last], w.cache[..last];
    assert Settled(w, id);
    ResetAndHook(w, t, id, rest);
    BuildAndHandOut(w, t, id, rest);
    var w1 := At(w, t, Taken(id), rest, w.inUse, w.hooked);
    var w2 := At(w, t, Unhooked(id, false), rest, w.inUse, w.hooked - {id});
    var w3 := At(w, t, Hooked(id, false), rest, w.inUse, w.hooked);
    var w4 := At(w, t, Building(id), rest, w.inUse, w.hooked);
    RunStep(w4, Proceed(t), [], w.(cache := rest, inUse := w.inUse + {id}));
    RunStep(w3, Proceed(t), [Proceed(t)] + [], w4);
    RunStep(w2, Proceed(t), [Proceed(t)] + ([Proceed(t)] + []), w3);
    RunStep(w1, Proceed(t), [Proceed(t)] + ([Proceed(t)] + ([Proceed(t)] + [])), w2);
    RunStep(w, Acquire(t, true), [Proceed(t)] + ([Proceed(t)] + ([Proceed(t)] + ([Proceed(t)] + []))), w1);
  }

  /** What recycling comes to. */
  function Recycled(w: World, id: Id): World {
    if |w.cache| < 64 then w.(cache := w.cache + [id], inUse := w.inUse - {id})
    else w.(inUse := w.inUse - {id}, live := w.live - {id}, hooked := w.hooked - {id},
            counted := w.counted - {id}, destroyed := w.destroyed + 1)
  }

  lemma ClearAndStore(w: World, t: nat, id: Id)
    requires t < |w.tasks| && w.tasks[t].Idle? && id in w.hooked
    ensures Next(At(w, t, Clearing(id), w.cache, w.inUse - {id}, w.hooked), Proceed(t))
            == Some(At(w, t, Storing(id), w.cache, w.inUse - {id}, w.hooked))
    ensures Next(At(w, t, Storing(id), w.cache, w.inUse - {id}, w.hooked), Proceed(t)) == Some(Recycled(w, id))
  {
    AtOverwrites(w, t, Clearing(id), Storing(id), w.cache, w.inUse - {id}, w.hooked);
    assert w.tasks[t := Storing(id)][t := Idle] == w.tasks;
  }

  /** A finalizer that nobody disturbs caches the object while there is room, and otherwise
      deletes it and counts that. */
  lemma UndisturbedRecycle(w: World, t: nat, id: Id)
    requires Inv(w) && t < |w.tasks| && w.tasks[t].Idle? && id in w.inUse
    ensures Run(w, [Finish(t, id, true)] + ([Proceed(t)] + ([Proceed(t)] + []))) == Some(Recycled(w, id))
  {
    assert Settled(w, id);
    ClearAndStore(w, t, id);
    var w1 := At(w, t, Clearing(id), w.cache, w.inUse - {id}, w.hooked);
    var w2 := At(w, t, Storing(id), w.cache, w.inUse - {id}, w.hooked);
    RunStep(w2, Proceed(t), [], Recycled(w, id));
    RunStep(w1, Proceed(t), [Proceed(t)] + [], w2);
    RunStep(w, Finish(t, id, true), [Proceed(t)] + ([Proceed(t)] + []), w1);
  }
}
