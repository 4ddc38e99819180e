/** A coordinator whose steps are pipelines.  A started step owns a pipeline, or as a mapReduce
    stage one pipeline for each runner; they run by themselves, under whatever settings, and
    the callback of the pipeline, or the reduction, reports to the coordinator, which starts
    the next step or calls the final callback. */
module Composition {
  import opened Wrappers
  import G = StageGraph
  import W = ReplacedWorks
  import L = Lifecycle
  import R = Reporting
  import Par = ParallelStage
  import Liveness = LifecycleLiveness

  type Outcome<+V> = G.AnyOutcome<V>

  datatype Work<+V> =
    | One(outcome: Outcome<V>, pipe: R.Pipe)
    | Many(input: V, fork: Par.Fork<Outcome<V>>)

  /** A started step: who works on it, and whether it has reported. */
  datatype Job<+V> = Job(stage: nat, work: Work<V>, notified: bool)

  /** `started` lists the started stages and `inputs` what each of them was handed. */
  datatype System<+V> = System(
    running: bool,
    jobs: seq<Job<V>>,
    started: seq<nat>,
    inputs: seq<Outcome<V>>,
    delivered: seq<Outcome<V>>,
    releases: nat)

  /** What is fixed for a run.  `piped` says which steps are backed by pipelines; the others
      report at once.  A step's pipeline gets the object `origins(i)`, with that object's
      settings; a mapReduce step has a plan for its runners, which depends on its input, and a
      reducer. */
  datatype Setup<!V> = Setup(
    graph: G.Graph<V>,
    piped: nat -> bool,
    origins: nat -> L.State,
    settings: nat -> L.Settings,
    plan: (nat, V) -> Par.Plan<Outcome<V>>,
    reduce: nat -> seq<Outcome<V>> -> Outcome<V>,
    autoRelease: bool)

  datatype Action =
    | Run
    | Inside(k: nat, step: L.Action)     // the pipeline of job k takes a step
    | Report(k: nat)                     // its callback reports to the coordinator
    | Fork(k: nat, move: Par.Action)     // the runners of job k take a step; the reduction reports

  predicate Ok<V>(u: Setup<V>) {
    u.graph != [] && G.Forward(u.graph)
  }

  /** Every pipeline gets an object in a generation that nobody has called yet. */
  ghost predicate AllReady<V(!new)>(u: Setup<V>) {
    && (forall i :: 0 <= i < |u.graph| && u.piped(i) ==> R.Ready(u.settings(i), u.origins(i)))
    && (forall i, v :: 0 <= i < |u.graph| && u.piped(i) ==> Par.AllReady(u.plan(i, v)))
  }

  function Init<V>(): System<V> {
    System(false, [], [], [], [], 0)
  }

  /** A stage does not answer for itself but has a step to run. */
  predicate RunsStep<V>(kind: G.Kind<V>, prev: Outcome<V>) {
    kind.Start? || (!kind.Condition? && G.Casts(prev, kind.input) && G.IsSuccess(prev))
  }

  /** A mapReduce step whose runners are pipelines. */
  predicate Forks<V>(u: Setup<V>, i: nat, prev: Outcome<V>)
    requires i < |u.graph|
  {
    u.piped(i) && RunsStep(u.graph[i].kind, prev) && u.graph[i].kind.MapReduce?
  }

  function JobOf<V>(u: Setup<V>, i: nat, prev: Outcome<V>): Job<V>
    requires i < |u.graph| && RunsStep(u.graph[i].kind, prev)
  {
    if u.graph[i].kind.MapReduce? then
      Job(i, Many(prev.result.value, Par.Init(u.plan(i, prev.result.value))), false)
    else
      Job(i, One(G.Reported(u.graph[i].kind, prev), R.NewPipe(u.origins(i))), false)
  }

  function Enter<V>(u: Setup<V>, s: System<V>, i: nat, prev: Outcome<V>): System<V>
    requires Ok(u) && i < |u.graph|
    decreases |u.graph| - i, 1
  {
    var kind, branch := u.graph[i].kind, G.Chosen(u.graph[i], prev);
    var s1 := s.(started := s.started + [i], inputs := s.inputs + [prev]);
    if branch.Some? then Enter(u, s1, branch.value, prev)
    else if u.piped(i) && RunsStep(kind, prev) then
      if kind.MapReduce? && u.plan(i, prev.result.value).runners == [] then Answer(u, s1, i, u.reduce(i)([]))
      else s1.(jobs := s.jobs + [JobOf(u, i, prev)])
    else Answer(u, s1, i, G.Reported(kind, prev))
  }

  function Answer<V>(u: Setup<V>, s: System<V>, i: nat, o: Outcome<V>): System<V>
    requires Ok(u) && i < |u.graph|
    decreases |u.graph| - i, 0
  {
    var next := u.graph[i].next;
    if !G.IsSuccess(o) || next.None? then
      s.(delivered := s.delivered + [o], releases := if u.autoRelease then s.releases + 1 else s.releases)
    else Enter(u, s, next.value, o)
  }

  predicate Enabled<V>(u: Setup<V>, s: System<V>, a: Action) {
    match a
    case Run => !s.running
    case Inside(k, b) =>
      k < |s.jobs| && s.jobs[k].work.One? && R.MayStep(u.settings(s.jobs[k].stage), s.jobs[k].work.pipe, b)
    case Report(k) =>
      k < |s.jobs| && s.jobs[k].work.One? && R.InCallback(s.jobs[k].work.pipe) && s.jobs[k].stage < |u.graph|
    case Fork(k, b) =>
      && k < |s.jobs| && s.jobs[k].work.Many? && s.jobs[k].stage < |u.graph|
      && Par.Enabled(u.plan(s.jobs[k].stage, s.jobs[k].work.input), s.jobs[k].work.fork, b)
  }

  function Next<V>(u: Setup<V>, s: System<V>, a: Action): System<V>
    requires Ok(u) && Enabled(u, s, a)
  {
    match a
    case Run => Enter(u, s.(running := true), 0, G.Nothing)
    case Inside(k, b) =>
      var j := s.jobs[k];
      s.(jobs := s.jobs[k := j.(work := j.work.(pipe := R.StepInside(u.settings(j.stage), j.work.pipe, b)))])
    case Report(k) =>
      var j := s.jobs[k];
      Answer(u, s.(jobs := s.jobs[k := j.(work := j.work.(pipe := j.work.pipe.(called := true)), notified := true)]), j.stage, j.work.outcome)
    case Fork(k, b) =>
      var j := s.jobs[k];
      var fork := Par.Next(u.plan(j.stage, j.work.input), j.work.fork, b);
      if b.Reduce? then
        Answer(u, s.(jobs := s.jobs[k := j.(work := j.work.(fork := fork), notified := true)]), j.stage,
               u.reduce(j.stage)(j.work.fork.join.results))
      else s.(jobs := s.jobs[k := j.(work := j.work.(fork := fork))])
  }

  ghost predicate IsRun<V(!new)>(u: Setup<V>, run: seq<System<V>>, actions: seq<Action>)
    requires Ok(u)
  {
    && |run| == |actions| + 1 && run[0] == Init()
    && forall k :: 0 <= k < |actions| ==> Enabled(u, run[k], actions[k]) && run[k + 1] == Next(u, run[k], actions[k])
  }

  // ----- what the graph may come to -----

  /** The outcomes of all runners of stage i, in the order in which they arrived. */
  ghost predicate Arrives<V(!new)>(u: Setup<V>, i: nat, v: V, r: seq<Outcome<V>>) {
    multiset(r) == multiset(Par.Outcomes(u.plan(i, v)))
  }

  /** An execution from stage i on: as the interpreter of the graph runs it, but each mapReduce
      stage reports what its reducer makes of some order of arrival. */
  ghost predicate May<V(!new)>(u: Setup<V>, i: nat, prev: Outcome<V>, e: G.Execution<V>)
    requires Ok(u) && i < |u.graph|
    decreases |u.graph| - i, 1
  {
    && e.started != [] && e.started[0] == i
    && var rest := e.(started := e.started[1..]);
       var branch := G.Chosen(u.graph[i], prev);
       if branch.Some? then May(u, branch.value, prev, rest)
       else if Forks(u, i, prev) then
         exists r :: Arrives(u, i, prev.result.value, r) && MayAnswer(u, i, u.reduce(i)(r), rest)
       else MayAnswer(u, i, G.Reported(u.graph[i].kind, prev), rest)
  }

  ghost predicate MayAnswer<V(!new)>(u: Setup<V>, i: nat, o: Outcome<V>, e: G.Execution<V>)
    requires Ok(u) && i < |u.graph|
    decreases |u.graph| - i, 0
  {
    if !G.IsSuccess(o) || u.graph[i].next.None? then e == G.Execution([], o)
    else May(u, u.graph[i].next.value, o, e)
  }

  // ----- what is handed from stage to stage -----

  /** What stage i may report when it is handed p. */
  ghost predicate MayReport<V(!new)>(u: Setup<V>, i: nat, p: Outcome<V>, o: Outcome<V>)
    requires i < |u.graph|
  {
    if Forks(u, i, p) then exists r :: Arrives(u, i, p.result.value, r) && o == u.reduce(i)(r)
    else o == G.Reported(u.graph[i].kind, p)
  }

  /** Stage i, handed p, hands q on to stage j: a condition what it got itself, to the chosen
      branch; any other stage the success that it reports, to the next stage. */
  ghost predicate Hands<V(!new)>(u: Setup<V>, i: nat, p: Outcome<V>, j: nat, q: Outcome<V>)
    requires i < |u.graph|
  {
    var branch := G.Chosen(u.graph[i], p);
    if branch.Some? then j == branch.value && q == p
    else u.graph[i].next == Some(j) && G.IsSuccess(q) && MayReport(u, i, p, q)
  }

  /** Stage i, handed p, is the last one and ends the run with o. */
  ghost predicate Ends<V(!new)>(u: Setup<V>, i: nat, p: Outcome<V>, o: Outcome<V>)
    requires i < |u.graph|
  {
    && G.Chosen(u.graph[i], p).None? && MayReport(u, i, p, o)
    && (G.IsSuccess(o) ==> u.graph[i].next.None?)
  }

  /** Where each started stage got its input from. */
  ghost predicate Traced<V(!new)>(u: Setup<V>, started: seq<nat>, inputs: seq<Outcome<V>>) {
    && |started| == |inputs|
    && (forall n :: 0 <= n < |started| ==> started[n] < |u.graph|)
    && (started != [] ==> started[0] == 0 && inputs[0] == G.Nothing)
    && (forall n {:trigger started[n]} :: 0 < n < |started| ==> Hands(u, started[n - 1], inputs[n - 1], started[n], inputs[n]))
  }

  /** Stage i, handed prev, is the right one to be started next. */
  ghost predicate Follows<V(!new)>(u: Setup<V>, started: seq<nat>, inputs: seq<Outcome<V>>, i: nat, prev: Outcome<V>)
    requires |started| == |inputs|
  {
    var n := |started| - 1;
    && i < |u.graph|
    && if started == [] then i == 0 && prev == G.Nothing
       else started[n] < |u.graph| && Hands(u, started[n], inputs[n], i, prev)
  }

  lemma {:induction false} StartedInOrder<V(!new)>(u: Setup<V>, started: seq<nat>, inputs: seq<Outcome<V>>, m: nat, n: nat)
    requires Ok(u) && Traced(u, started, inputs) && m < n < |started|
    ensures started[m] < started[n]
    decreases n
  {
    assert Hands(u, started[n - 1], inputs[n - 1], started[n], inputs[n]);
    assert started[n - 1] < started[n];
    if m < n - 1 {
      StartedInOrder(u, started, inputs, m, n - 1);
    }
  }

  /** A trace that has ended is an execution of the graph. */
  lemma {:induction false} TraceIsExecution<V(!new)>(u: Setup<V>, started: seq<nat>, inputs: seq<Outcome<V>>, o: Outcome<V>, n: nat)
    requires Ok(u) && Traced(u, started, inputs) && n < |started|
    requires Ends(u, started[|started| - 1], inputs[|started| - 1], o)
    ensures May(u, started[n], inputs[n], G.Execution(started[n..], o))
    decreases |started| - n
  {
    var i, p := started[n], inputs[n];
    var rest := G.Execution(started[n..][1..], o);
    assert started[n..][1..] == started[n + 1..];
    if n + 1 < |started| {
      TraceIsExecution(u, started, inputs, o, n + 1);
      assert Hands(u, started[n], inputs[n], started[n + 1], inputs[n + 1]);
      if G.Chosen(u.graph[i], p).None? {
        ReportGoesOn(u, i, p, inputs[n + 1], G.Execution(started[n..], o));
      }
    } else {
      assert started[n + 1..] == [];
      ReportGoesOn(u, i, p, o, G.Execution(started[n..], o));
    }
  }

  /** What a stage reports, and what follows from it, make an execution from that stage on. */
  lemma ReportGoesOn<V(!new)>(u: Setup<V>, i: nat, p: Outcome<V>, o: Outcome<V>, e: G.Execution<V>)
    requires Ok(u) && i < |u.graph| && G.Chosen(u.graph[i], p).None? && MayReport(u, i, p, o)
    requires e.started != [] && e.started[0] == i && MayAnswer(u, i, o, e.(started := e.started[1..]))
    ensures May(u, i, p, e)
  {
  }

  // ----- which stages have a pipeline to wait for -----

  /** A step that is backed by pipelines and has something to run: the first step, or one that is
      handed a success of its type; not a condition, and not a mapReduce without runners. */
  predicate Waits<V>(u: Setup<V>, i: nat, p: Outcome<V>)
    requires i < |u.graph|
  {
    && u.piped(i)
    && match u.graph[i].kind
       case Start(_) => true
       case Condition(_, _) => false
       case Exec(input, _, _) => p.Outcome? && p.tag == input && p.result.Ok?
       case MapReduce(input, _, _) => p.Outcome? && p.tag == input && p.result.Ok? && u.plan(i, p.result.value).runners != []
  }

  /** The job of a stage that was handed p. */
  ghost predicate IsJobFor<V(!new)>(u: Setup<V>, j: Job<V>, i: nat, p: Outcome<V>)
    requires i < |u.graph|
  {
    && j.stage == i
    && match j.work
       case One(o, _) => !u.graph[i].kind.MapReduce? && o == G.Reported(u.graph[i].kind, p)
       case Many(v, _) => u.graph[i].kind.MapReduce? && G.IsSuccess(p) && v == p.result.value
  }

  /** Every started stage got its input from the one before, and the jobs are those of the stages
      that wait, in the order in which they were started. */
  ghost predicate History<V(!new)>(u: Setup<V>, jobs: seq<Job<V>>, started: seq<nat>, inputs: seq<Outcome<V>>)
    decreases |started|
  {
    && |started| == |inputs|
    && if started == [] then jobs == [] else
       var n := |started| - 1;
       && Follows(u, started[..n], inputs[..n], started[n], inputs[n])
       && if Waits(u, started[n], inputs[n]) then
            && jobs != [] && IsJobFor(u, jobs[|jobs| - 1], started[n], inputs[n])
            && History(u, jobs[..|jobs| - 1], started[..n], inputs[..n])
          else History(u, jobs, started[..n], inputs[..n])
  }

  lemma StageGoesOn<V(!new)>(u: Setup<V>, jobs: seq<Job<V>>, started: seq<nat>, inputs: seq<Outcome<V>>, i: nat, prev: Outcome<V>)
    requires History(u, jobs, started, inputs) && Follows(u, started, inputs, i, prev) && !Waits(u, i, prev)
    ensures History(u, jobs, started + [i], inputs + [prev])
  {
    assert (started + [i])[..|started|] == started && (inputs + [prev])[..|started|] == inputs;
  }

  lemma JobGoesOn<V(!new)>(
      u: Setup<V>, jobs: seq<Job<V>>, started: seq<nat>, inputs: seq<Outcome<V>>, i: nat, prev: Outcome<V>, j: Job<V>)
    requires History(u, jobs, started, inputs) && Follows(u, started, inputs, i, prev)
    requires Waits(u, i, prev) && IsJobFor(u, j, i, prev)
    ensures History(u, jobs + [j], started + [i], inputs + [prev])
  {
    assert (started + [i])[..|started|] == started && (inputs + [prev])[..|started|] == inputs;
    assert (jobs + [j])[..|jobs|] == jobs;
  }

  lemma TraceGoesOn<V(!new)>(u: Setup<V>, started: seq<nat>, inputs: seq<Outcome<V>>, i: nat, prev: Outcome<V>)
    requires Traced(u, started, inputs) && Follows(u, started, inputs, i, prev)
    ensures Traced(u, started + [i], inputs + [prev])
  {
    var started', inputs' := started + [i], inputs + [prev];
    forall n | 0 < n < |started'| ensures Hands(u, started'[n - 1], inputs'[n - 1], started'[n], inputs'[n]) {
      if n < |started| {
        assert started'[n] == started[n] && started'[n - 1] == started[n - 1];
        assert inputs'[n] == inputs[n] && inputs'[n - 1] == inputs[n - 1];
      }
    }
  }

  lemma LastSplitsOff<V(!new)>(u: Setup<V>, jobs: seq<Job<V>>, started: seq<nat>, inputs: seq<Outcome<V>>)
      returns (jobs0: seq<Job<V>>, started0: seq<nat>, inputs0: seq<Outcome<V>>, i: nat, p: Outcome<V>)
    requires History(u, jobs, started, inputs) && started != []
    ensures started == started0 + [i] && inputs == inputs0 + [p]
    ensures History(u, jobs0, started0, inputs0) && Follows(u, started0, inputs0, i, p)
  {
    var n := |started| - 1;
    jobs0 := if Waits(u, started[n], inputs[n]) then jobs[..|jobs| - 1] else jobs;
    started0, inputs0, i, p := started[..n], inputs[..n], started[n], inputs[n];
  }

  lemma {:induction false} HistoryIsTraced<V(!new)>(u: Setup<V>, jobs: seq<Job<V>>, started: seq<nat>, inputs: seq<Outcome<V>>)
    requires History(u, jobs, started, inputs)
    ensures Traced(u, started, inputs)
    decreases |started|
  {
    if started != [] {
      var jobs0, started0, inputs0, i, p := LastSplitsOff(u, jobs, started, inputs);
      HistoryIsTraced(u, jobs0, started0, inputs0);
      TraceGoesOn(u, started0, inputs0, i, p);
    }
  }

  /** The same history with one job further on. */
  lemma {:induction false} JobMayChange<V(!new)>(
      u: Setup<V>, jobs: seq<Job<V>>, started: seq<nat>, inputs: seq<Outcome<V>>, k: nat, j: Job<V>)
    requires History(u, jobs, started, inputs) && k < |jobs| && SameReport(jobs[k], j)
    ensures History(u, jobs[k := j], started, inputs)
    decreases |started|
  {
    var n := |started| - 1;
    if !Waits(u, started[n], inputs[n]) {
      JobMayChange(u, jobs, started[..n], inputs[..n], k, j);
    } else if k < |jobs| - 1 {
      JobMayChange(u, jobs[..|jobs| - 1], started[..n], inputs[..n], k, j);
      assert jobs[k := j][..|jobs| - 1] == jobs[..|jobs| - 1][k := j];
    } else {
      assert jobs[k := j][..|jobs| - 1] == jobs[..|jobs| - 1];
    }
  }

  /** Two states of one job. */
  ghost predicate SameReport<V>(j: Job<V>, j': Job<V>) {
    && j'.stage == j.stage
    && match j.work
       case One(o, _) => j'.work.One? && j'.work.outcome == o
       case Many(v, _) => j'.work.Many? && j'.work.input == v
  }

  // ----- the invariant of the system -----

  ghost predicate JobOk<V(!new)>(u: Setup<V>, j: Job<V>) {
    && j.stage < |u.graph| && u.piped(j.stage)
    && match j.work
       case One(_, pipe) => R.PipeOk(u.settings(j.stage), pipe) && j.notified == pipe.called
       case Many(v, fork) =>
         && u.graph[j.stage].kind.MapReduce?
         && Par.Reachable(u.plan(j.stage, v), fork) && u.plan(j.stage, v).runners != []
         && (j.notified <==> fork.join.reduced != [])
  }

  ghost predicate JobsOk<V(!new)>(u: Setup<V>, jobs: seq<Job<V>>)
    decreases |jobs|
  {
    jobs == [] || (JobOk(u, jobs[|jobs| - 1]) && JobsOk(u, jobs[..|jobs| - 1]))
  }

  lemma {:induction false} JobIsOk<V(!new)>(u: Setup<V>, jobs: seq<Job<V>>, k: nat)
    requires JobsOk(u, jobs) && k < |jobs|
    ensures JobOk(u, jobs[k])
    decreases |jobs|
  {
    if k < |jobs| - 1 {
      JobIsOk(u, jobs[..|jobs| - 1], k);
    }
  }

  lemma {:induction false} JobStaysOk<V(!new)>(u: Setup<V>, jobs: seq<Job<V>>, k: nat, j: Job<V>)
    requires JobsOk(u, jobs) && k < |jobs| && JobOk(u, j)
    ensures JobsOk(u, jobs[k := j])
    decreases |jobs|
  {
    var n := |jobs| - 1;
    if k < n {
      JobStaysOk(u, jobs[..n], k, j);
      assert jobs[k := j][..n] == jobs[..n][k := j];
    } else {
      assert jobs[k := j][..n] == jobs[..n];
    }
  }

  ghost predicate Stands<V(!new)>(u: Setup<V>, s: System<V>) {
    && s.releases == (if u.autoRelease then |s.delivered| else 0)
    && JobsOk(u, s.jobs)
    && (forall k :: 0 <= k < |s.jobs| - 1 ==> s.jobs[k].notified)
  }

  predicate Open<V>(s: System<V>) {
    s.jobs != [] && !s.jobs[|s.jobs| - 1].notified
  }

  /** The stage that was started last, and what it was handed. */
  ghost predicate IsLast<V(!new)>(u: Setup<V>, s: System<V>, i: nat, p: Outcome<V>) {
    && s.started != [] && |s.started| == |s.inputs| && i < |u.graph|
    && s.started[|s.started| - 1] == i && s.inputs[|s.started| - 1] == p
  }

  /** The open job is that of the last stage. */
  ghost predicate LastIsOpen<V(!new)>(u: Setup<V>, s: System<V>) {
    && s.delivered == [] && s.jobs != []
    && exists i, p :: IsLast(u, s, i, p) && Waits(u, i, p) && IsJobFor(u, s.jobs[|s.jobs| - 1], i, p)
  }

  ghost predicate HasEnded<V(!new)>(u: Setup<V>, s: System<V>) {
    |s.delivered| == 1 && exists i, p :: IsLast(u, s, i, p) && Ends(u, i, p, s.delivered[0])
  }

  /** One job is open, or one outcome has been delivered: what the last stage ended with. */
  ghost predicate OnTrack<V(!new)>(u: Setup<V>, s: System<V>) {
    if !s.running then s.started == [] && s.delivered == [] && s.jobs == []
    else if Open(s) then LastIsOpen(u, s)
    else HasEnded(u, s)
  }

  ghost predicate Inv<V(!new)>(u: Setup<V>, s: System<V>) {
    Stands(u, s) && History(u, s.jobs, s.started, s.inputs) && OnTrack(u, s)
  }

  /** Between two stages. */
  ghost predicate Between<V(!new)>(u: Setup<V>, s: System<V>) {
    Stands(u, s) && History(u, s.jobs, s.started, s.inputs) && s.running && !Open(s) && s.delivered == []
  }

  /** Stage i was started last, on p, and reports o. */
  ghost predicate Concludes<V(!new)>(u: Setup<V>, s: System<V>, i: nat, p: Outcome<V>, o: Outcome<V>) {
    IsLast(u, s, i, p) && G.Chosen(u.graph[i], p).None? && MayReport(u, i, p, o)
  }

  lemma NewJobOk<V(!new)>(u: Setup<V>, i: nat, prev: Outcome<V>)
    requires Ok(u) && AllReady(u) && i < |u.graph| && u.piped(i) && RunsStep(u.graph[i].kind, prev)
    requires u.graph[i].kind.MapReduce? ==> u.plan(i, prev.result.value).runners != []
    ensures JobOk(u, JobOf(u, i, prev))
  {
    if u.graph[i].kind.MapReduce? {
      Par.InitIsReachable(u.plan(i, prev.result.value));
    } else {
      R.NewPipeOk(u.settings(i), u.origins(i));
    }
  }

  lemma AppendStands<V(!new)>(u: Setup<V>, s: System<V>, j: Job<V>)
    requires JobOk(u, j) && Stands(u, s) && !Open(s)
    ensures Stands(u, s.(jobs := s.jobs + [j]))
  {
    assert (s.jobs + [j])[..|s.jobs|] == s.jobs;
  }

  lemma NothingArrives<V(!new)>(u: Setup<V>, i: nat, v: V)
    requires u.plan(i, v).runners == []
    ensures Arrives(u, i, v, [])
  {
    assert Par.Outcomes(u.plan(i, v)) == [];
  }

  /** What comes after a stage that has nothing to wait for. */
  lemma StageIsStarted<V(!new)>(u: Setup<V>, s: System<V>, i: nat, prev: Outcome<V>)
    requires Between(u, s) && Follows(u, s.started, s.inputs, i, prev) && !Waits(u, i, prev)
    ensures var s1 := s.(started := s.started + [i], inputs := s.inputs + [prev]); Between(u, s1) && IsLast(u, s1, i, prev)
  {
    StageGoesOn(u, s.jobs, s.started, s.inputs, i, prev);
  }

  /** Where the run goes from a stage that has just been started and has nothing to wait for. */
  ghost function Passed<V>(u: Setup<V>, s: System<V>, i: nat, p: Outcome<V>): System<V>
    requires Ok(u) && i < |u.graph|
  {
    var branch := G.Chosen(u.graph[i], p);
    if branch.Some? then Enter(u, s, branch.value, p)
    else Answer(u, s, i, if Forks(u, i, p) then u.reduce(i)([]) else G.Reported(u.graph[i].kind, p))
  }

  lemma EnterWaitsOrPasses<V>(u: Setup<V>, s: System<V>, i: nat, prev: Outcome<V>)
    requires Ok(u) && i < |u.graph|
    ensures var s1 := s.(started := s.started + [i], inputs := s.inputs + [prev]);
            Enter(u, s, i, prev) == if Waits(u, i, prev) then s1.(jobs := s.jobs + [JobOf(u, i, prev)]) else Passed(u, s1, i, prev)
  {
  }

  lemma {:induction false} EnterKeepsInv<V(!new)>(u: Setup<V>, s: System<V>, i: nat, prev: Outcome<V>)
    requires Ok(u) && AllReady(u) && Between(u, s) && Follows(u, s.started, s.inputs, i, prev)
    ensures Inv(u, Enter(u, s, i, prev))
    decreases |u.graph| - i, 1
  {
    EnterWaitsOrPasses(u, s, i, prev);
    if Waits(u, i, prev) {
      JobBegins(u, s, i, prev);
    } else {
      StageIsStarted(u, s, i, prev);
      PassesOn(u, s.(started := s.started + [i], inputs := s.inputs + [prev]), i, prev);
    }
  }

  /** The stage just started has nothing to wait for. */
  lemma {:induction false} PassesOn<V(!new)>(u: Setup<V>, s: System<V>, i: nat, p: Outcome<V>)
    requires Ok(u) && AllReady(u) && Between(u, s) && IsLast(u, s, i, p) && !Waits(u, i, p)
    ensures Inv(u, Passed(u, s, i, p))
    decreases |u.graph| - i, 0
  {
    var branch := G.Chosen(u.graph[i], p);
    if branch.Some? {
      EnterKeepsInv(u, s, branch.value, p);
    } else if Forks(u, i, p) {
      NothingArrives(u, i, p.result.value);
      AnswerKeepsInv(u, s, i, p, u.reduce(i)([]));
    } else {
      AnswerKeepsInv(u, s, i, p, G.Reported(u.graph[i].kind, p));
    }
  }

  lemma OpenJobIsOnTrack<V(!new)>(u: Setup<V>, s: System<V>, i: nat, p: Outcome<V>)
    requires s.running && s.delivered == [] && Open(s)
    requires IsLast(u, s, i, p) && Waits(u, i, p) && IsJobFor(u, s.jobs[|s.jobs| - 1], i, p)
    ensures OnTrack(u, s)
  {
  }

  lemma JobBegins<V(!new)>(u: Setup<V>, s: System<V>, i: nat, prev: Outcome<V>)
    requires Ok(u) && AllReady(u) && Between(u, s) && Follows(u, s.started, s.inputs, i, prev) && Waits(u, i, prev)
    ensures Inv(u, s.(started := s.started + [i], inputs := s.inputs + [prev], jobs := s.jobs + [JobOf(u, i, prev)]))
  {
    var j := JobOf(u, i, prev);
    NewJobFits(u, i, prev);
    NewJobStands(u, s.(started := s.started + [i], inputs := s.inputs + [prev]), i, prev);
    JobGoesOn(u, s.jobs, s.started, s.inputs, i, prev, j);
    NewJobIsOnTrack(u, s, i, prev, j);
  }

  lemma NewJobIsOnTrack<V(!new)>(u: Setup<V>, s: System<V>, i: nat, prev: Outcome<V>, j: Job<V>)
    requires s.running && s.delivered == [] && |s.started| == |s.inputs| && i < |u.graph| && Waits(u, i, prev)
    requires IsJobFor(u, j, i, prev) && !j.notified
    ensures OnTrack(u, s.(started := s.started + [i], inputs := s.inputs + [prev], jobs := s.jobs + [j]))
  {
    var s' := s.(started := s.started + [i], inputs := s.inputs + [prev], jobs := s.jobs + [j]);
    assert s'.jobs[|s'.jobs| - 1] == j;
    OpenJobIsOnTrack(u, s', i, prev);
  }

  lemma NewJobStands<V(!new)>(u: Setup<V>, s: System<V>, i: nat, prev: Outcome<V>)
    requires Ok(u) && AllReady(u) && Stands(u, s) && !Open(s) && i < |u.graph| && Waits(u, i, prev)
    ensures Stands(u, s.(jobs := s.jobs + [JobOf(u, i, prev)]))
  {
    NewJobOk(u, i, prev);
    AppendStands(u, s, JobOf(u, i, prev));
  }

  lemma NewJobFits<V(!new)>(u: Setup<V>, i: nat, prev: Outcome<V>)
    requires i < |u.graph| && Waits(u, i, prev)
    ensures IsJobFor(u, JobOf(u, i, prev), i, prev) && !JobOf(u, i, prev).notified
  {
  }

  /** The final callback is called with o. */
  function Delivered<V>(u: Setup<V>, s: System<V>, o: Outcome<V>): System<V> {
    s.(delivered := s.delivered + [o], releases := if u.autoRelease then s.releases + 1 else s.releases)
  }

  lemma RunEnds<V(!new)>(u: Setup<V>, s: System<V>, i: nat, p: Outcome<V>, o: Outcome<V>)
    requires Between(u, s) && Concludes(u, s, i, p, o) && (G.IsSuccess(o) ==> u.graph[i].next.None?)
    ensures Inv(u, Delivered(u, s, o))
  {
    assert IsLast(u, Delivered(u, s, o), i, p) && Ends(u, i, p, o);
  }

  lemma AnswerGoesOnOrEnds<V>(u: Setup<V>, s: System<V>, i: nat, o: Outcome<V>)
    requires Ok(u) && i < |u.graph|
    ensures var next := u.graph[i].next;
            Answer(u, s, i, o) == if G.IsSuccess(o) && next.Some? then Enter(u, s, next.value, o) else Delivered(u, s, o)
  {
  }

  lemma {:induction false} AnswerKeepsInv<V(!new)>(u: Setup<V>, s: System<V>, i: nat, p: Outcome<V>, o: Outcome<V>)
    requires Ok(u) && AllReady(u) && Between(u, s) && Concludes(u, s, i, p, o)
    ensures Inv(u, Answer(u, s, i, o))
    decreases |u.graph| - i - 1, 2
  {
    AnswerGoesOnOrEnds(u, s, i, o);
    if G.IsSuccess(o) && u.graph[i].next.Some? {
      EnterKeepsInv(u, s, u.graph[i].next.value, o);
    } else {
      RunEnds(u, s, i, p, o);
    }
  }

  /** A job changes inside; what the coordinator sees of it does not. */
  lemma JobChangesInside<V(!new)>(u: Setup<V>, s: System<V>, k: nat, j: Job<V>)
    requires Inv(u, s) && k < |s.jobs| && JobOk(u, j) && SameReport(s.jobs[k], j) && j.notified == s.jobs[k].notified
    ensures Inv(u, s.(jobs := s.jobs[k := j]))
  {
    JobStands(u, s, k, j);
    JobMayChange(u, s.jobs, s.started, s.inputs, k, j);
    TrackStays(u, s, k, j);
  }

  lemma TrackStays<V(!new)>(u: Setup<V>, s: System<V>, k: nat, j: Job<V>)
    requires OnTrack(u, s) && k < |s.jobs| && SameReport(s.jobs[k], j) && j.notified == s.jobs[k].notified
    ensures OnTrack(u, s.(jobs := s.jobs[k := j]))
  {
    var s' := s.(jobs := s.jobs[k := j]);
    if Open(s) {
      var i, p :| IsLast(u, s, i, p) && Waits(u, i, p) && IsJobFor(u, s.jobs[|s.jobs| - 1], i, p);
      assert IsLast(u, s', i, p) && IsJobFor(u, s'.jobs[|s.jobs| - 1], i, p);
    } else if s.running {
      var i, p :| IsLast(u, s, i, p) && Ends(u, i, p, s.delivered[0]);
      assert IsLast(u, s', i, p);
    }
  }

  lemma JobStands<V(!new)>(u: Setup<V>, s: System<V>, k: nat, j: Job<V>)
    requires Stands(u, s) && k < |s.jobs| && JobOk(u, j) && (s.jobs[k].notified ==> j.notified)
    ensures Stands(u, s.(jobs := s.jobs[k := j]))
  {
    JobStaysOk(u, s.jobs, k, j);
  }

  /** The open job reports o: the coordinator goes on from there. */
  lemma JobReports<V(!new)>(u: Setup<V>, s: System<V>, k: nat, j: Job<V>, o: Outcome<V>)
    requires Ok(u) && AllReady(u) && Inv(u, s) && k < |s.jobs| && JobOk(u, j)
    requires !s.jobs[k].notified && j.notified && SameReport(s.jobs[k], j)
    requires forall p :: IsJobFor(u, j, j.stage, p) && Waits(u, j.stage, p) ==> MayReport(u, j.stage, p, o)
    ensures Inv(u, Answer(u, s.(jobs := s.jobs[k := j]), j.stage, o))
  {
    JobStands(u, s, k, j);
    JobMayChange(u, s.jobs, s.started, s.inputs, k, j);
    var s' := s.(jobs := s.jobs[k := j]);
    LastJobIsOpen(u, s, k);
    var i, p :| IsLast(u, s, i, p) && Waits(u, i, p) && IsJobFor(u, s.jobs[|s.jobs| - 1], i, p);
    assert IsLast(u, s', i, p) && IsJobFor(u, j, i, p);
    AnswerKeepsInv(u, s', i, p, o);
  }

  lemma LastJobIsOpen<V(!new)>(u: Setup<V>, s: System<V>, k: nat)
    requires Stands(u, s) && OnTrack(u, s) && k < |s.jobs| && !s.jobs[k].notified
    ensures k == |s.jobs| - 1 && s.running && LastIsOpen(u, s)
  {
  }

  /** The runners go on, or the last of them reduces. */
  lemma ForkKeepsInv<V(!new)>(u: Setup<V>, s: System<V>, k: nat, b: Par.Action)
    requires Ok(u) && AllReady(u) && Inv(u, s) && Enabled(u, s, Fork(k, b))
    ensures Inv(u, Next(u, s, Fork(k, b)))
  {
    var j := s.jobs[k];
    JobIsOk(u, s.jobs, k);
    var fork' := Par.Next(u.plan(j.stage, j.work.input), j.work.fork, b);
    var j' := j.(work := j.work.(fork := fork'), notified := j.notified || b.Reduce?);
    ForkedJob(u, j, b, j');
    if b.Reduce? {
      JobReports(u, s, k, j', u.reduce(j.stage)(j.work.fork.join.results));
    } else {
      JobChangesInside(u, s, k, j');
    }
  }

  /** What the step makes of the job. */
  lemma ForkedJob<V(!new)>(u: Setup<V>, j: Job<V>, b: Par.Action, j': Job<V>)
    requires AllReady(u) && JobOk(u, j) && j.work.Many?
    requires var plan := u.plan(j.stage, j.work.input);
             && Par.Enabled(plan, j.work.fork, b)
             && j' == j.(work := j.work.(fork := Par.Next(plan, j.work.fork, b)), notified := j.notified || b.Reduce?)
    ensures JobOk(u, j')
    ensures b.Reduce? ==> !j.notified
    ensures b.Reduce? ==>
              forall p :: IsJobFor(u, j', j.stage, p) && Waits(u, j.stage, p) ==>
                MayReport(u, j.stage, p, u.reduce(j.stage)(j.work.fork.join.results))
  {
    var plan := u.plan(j.stage, j.work.input);
    assert Par.AllReady(plan);
    Par.NextIsReachable(plan, j.work.fork, b);
    if b.Reduce? {
      Par.ReduceHandsOverAll(plan, j.work.fork, b.i);
      assert Arrives(u, j.stage, j.work.input, j.work.fork.join.results);
    } else {
      Par.OnlyReduceReduces(plan, j.work.fork, b);
    }
  }

  lemma PipeKeepsInv<V(!new)>(u: Setup<V>, s: System<V>, a: Action)
    requires Ok(u) && AllReady(u) && Inv(u, s) && Enabled(u, s, a) && (a.Inside? || a.Report?)
    ensures Inv(u, Next(u, s, a))
  {
    var j := s.jobs[a.k];
    JobIsOk(u, s.jobs, a.k);
    if a.Inside? {
      R.StepKeepsPipeOk(u.settings(j.stage), j.work.pipe, a.step);
      JobChangesInside(u, s, a.k, j.(work := j.work.(pipe := R.StepInside(u.settings(j.stage), j.work.pipe, a.step))));
    } else {
      R.CallbackEnds(u.settings(j.stage), j.work.pipe);
      JobReports(u, s, a.k, j.(work := j.work.(pipe := j.work.pipe.(called := true)), notified := true), j.work.outcome);
    }
  }

  lemma NextKeepsInv<V(!new)>(u: Setup<V>, s: System<V>, a: Action)
    requires Ok(u) && AllReady(u) && Inv(u, s) && Enabled(u, s, a)
    ensures Inv(u, Next(u, s, a))
  {
    match a
    case Run =>
      EnterKeepsInv(u, s.(running := true), 0, G.Nothing);
    case Inside(_, _) => PipeKeepsInv(u, s, a);
    case Report(_) => PipeKeepsInv(u, s, a);
    case Fork(k, b) => ForkKeepsInv(u, s, k, b);
  }

  lemma {:induction false} RunKeepsInv<V(!new)>(u: Setup<V>, run: seq<System<V>>, actions: seq<Action>, k: nat)
    requires Ok(u) && AllReady(u) && IsRun(u, run, actions) && k < |run|
    ensures Inv(u, run[k])
  {
    if k > 0 {
      RunKeepsInv(u, run, actions, k - 1);
      NextKeepsInv(u, run[k - 1], actions[k - 1]);
    }
  }

  // ----- the theorems -----

  /** The pipelines of a job were executed and their callbacks have run, once each. */
  ghost predicate HaveCalledBack<V(!new)>(u: Setup<V>, j: Job<V>) {
    match j.work
    case One(_, pipe) => pipe.life.started && R.Callbacks(pipe.life) == 1
    case Many(v, fork) =>
      var runners := u.plan(j.stage, v).runners;
      && |fork.pipes| == |runners|
      && forall i :: 0 <= i < |runners| && !runners[i].throws ==>
           fork.pipes[i].life.started && R.Callbacks(fork.pipes[i].life) == 1
  }

  ghost predicate HaveCleanedUp<V(!new)>(u: Setup<V>, j: Job<V>) {
    match j.work
    case One(_, pipe) => R.Cleanups(pipe.life) == 1
    case Many(v, fork) =>
      var runners := u.plan(j.stage, v).runners;
      && |fork.pipes| == |runners|
      && forall i :: 0 <= i < |runners| && !runners[i].throws ==> R.Cleanups(fork.pipes[i].life) == 1
  }

  /** Job m is that of the n-th started stage. */
  ghost predicate IsTheJob<V(!new)>(u: Setup<V>, s: System<V>, n: nat, m: nat)
    requires n < |s.started| == |s.inputs| && s.started[n] < |u.graph|
  {
    m < |s.jobs| && IsJobFor(u, s.jobs[m], s.started[n], s.inputs[n])
    && forall k :: 0 <= k < |s.jobs| && s.jobs[k].stage == s.started[n] ==> k == m
  }

  lemma NotifiedHasCalledBack<V(!new)>(u: Setup<V>, j: Job<V>)
    requires AllReady(u) && JobOk(u, j) && j.notified
    ensures HaveCalledBack(u, j)
  {
    match j.work
    case One(_, pipe) => R.CalledMeansOnce(u.settings(j.stage), pipe);
    case Many(v, fork) => Par.ReducedMeansReported(u.plan(j.stage, v), fork);
  }

  lemma {:induction false} JobsComeFromStages<V(!new)>(
      u: Setup<V>, jobs: seq<Job<V>>, started: seq<nat>, inputs: seq<Outcome<V>>, k: nat) returns (n: nat)
    requires History(u, jobs, started, inputs) && k < |jobs|
    ensures n < |started| && started[n] == jobs[k].stage < |u.graph| && Waits(u, started[n], inputs[n])
    decreases |started|
  {
    n := |started| - 1;
    if !Waits(u, started[n], inputs[n]) {
      n := JobsComeFromStages(u, jobs, started[..n], inputs[..n], k);
    } else if k < |jobs| - 1 {
      n := JobsComeFromStages(u, jobs[..|jobs| - 1], started[..n], inputs[..n], k);
    }
  }

  lemma {:induction false} StageHasJob<V(!new)>(
      u: Setup<V>, jobs: seq<Job<V>>, started: seq<nat>, inputs: seq<Outcome<V>>, n: nat) returns (m: nat)
    requires History(u, jobs, started, inputs) && n < |started| && started[n] < |u.graph| && Waits(u, started[n], inputs[n])
    ensures m < |jobs| && IsJobFor(u, jobs[m], started[n], inputs[n])
    decreases |started|
  {
    var last := |started| - 1;
    if n == last {
      m := |jobs| - 1;
    } else {
      m := StageHasJob(u, if Waits(u, started[last], inputs[last]) then jobs[..|jobs| - 1] else jobs, started[..last], inputs[..last], n);
    }
  }

  /** Later jobs are those of later stages. */
  lemma {:induction false} JobsInOrder<V(!new)>(
      u: Setup<V>, jobs: seq<Job<V>>, started: seq<nat>, inputs: seq<Outcome<V>>, k: nat, m: nat)
    requires Ok(u) && History(u, jobs, started, inputs) && k < m < |jobs|
    ensures jobs[k].stage < jobs[m].stage
    decreases |started|
  {
    var last := |started| - 1;
    if !Waits(u, started[last], inputs[last]) {
      JobsInOrder(u, jobs, started[..last], inputs[..last], k, m);
    } else if m < |jobs| - 1 {
      JobsInOrder(u, jobs[..|jobs| - 1], started[..last], inputs[..last], k, m);
    } else {
      var n := JobsComeFromStages(u, jobs[..|jobs| - 1], started[..last], inputs[..last], k);
      HistoryIsTraced(u, jobs, started, inputs);
      StartedInOrder(u, started, inputs, n, last);
    }
  }

  /** If the n-th started stage has pipelines to wait for, it has exactly one job, and before a
      later stage is started or anything is delivered their callbacks have run. */
  ghost predicate IsWaitedFor<V(!new)>(u: Setup<V>, s: System<V>, n: nat)
    requires n < |s.started| == |s.inputs| && s.started[n] < |u.graph|
  {
    Waits(u, s.started[n], s.inputs[n]) ==>
      exists m: nat :: IsTheJob(u, s, n, m)
                       && (n < |s.started| - 1 || s.delivered != [] ==> HaveCalledBack(u, s.jobs[m]))
  }

  /** Job m is that of some started stage that waits. */
  ghost predicate IsWaitedOn<V(!new)>(u: Setup<V>, s: System<V>, m: nat)
    requires m < |s.jobs| && |s.started| == |s.inputs| && forall n :: 0 <= n < |s.started| ==> s.started[n] < |u.graph|
  {
    exists n :: 0 <= n < |s.started| && s.started[n] == s.jobs[m].stage && Waits(u, s.started[n], s.inputs[n])
  }

  lemma JobIsUnique<V(!new)>(u: Setup<V>, s: System<V>, n: nat) returns (m: nat)
    requires Ok(u) && History(u, s.jobs, s.started, s.inputs)
    requires n < |s.started| && s.started[n] < |u.graph| && Waits(u, s.started[n], s.inputs[n])
    ensures IsTheJob(u, s, n, m)
  {
    m := StageHasJob(u, s.jobs, s.started, s.inputs, n);
    forall k | 0 <= k < |s.jobs| && s.jobs[k].stage == s.started[n] ensures k == m {
      if k < m {
        JobsInOrder(u, s.jobs, s.started, s.inputs, k, m);
      } else if m < k {
        JobsInOrder(u, s.jobs, s.started, s.inputs, m, k);
      }
    }
  }

  lemma EarlierStageIsAnother<V(!new)>(u: Setup<V>, s: System<V>, n: nat)
    requires Ok(u) && History(u, s.jobs, s.started, s.inputs) && n < |s.started| - 1
    ensures s.started[n] != s.started[|s.started| - 1]
  {
    HistoryIsTraced(u, s.jobs, s.started, s.inputs);
    StartedInOrder(u, s.started, s.inputs, n, |s.started| - 1);
  }

  lemma UnnotifiedIsLast<V(!new)>(u: Setup<V>, s: System<V>, m: nat)
    requires Stands(u, s) && OnTrack(u, s) && m < |s.jobs| && s.started != []
    ensures !s.jobs[m].notified ==> s.delivered == [] && s.jobs[m].stage == s.started[|s.started| - 1]
  {
    if !s.jobs[m].notified {
      LastJobIsOpen(u, s, m);
    }
  }

  lemma StageIsWaitedFor<V(!new)>(u: Setup<V>, s: System<V>, n: nat)
    requires Ok(u) && AllReady(u) && Inv(u, s) && n < |s.started| == |s.inputs| && s.started[n] < |u.graph|
    ensures IsWaitedFor(u, s, n)
  {
    if Waits(u, s.started[n], s.inputs[n]) {
      var m := JobIsUnique(u, s, n);
      UnnotifiedIsLast(u, s, m);
      if n < |s.started| - 1 {
        EarlierStageIsAnother(u, s, n);
      }
      if s.jobs[m].notified {
        JobIsOk(u, s.jobs, m);
        NotifiedHasCalledBack(u, s.jobs[m]);
      }
    }
  }

  /** Each started stage was handed what the one before it passed on, and waits for its pipelines;
      no other stage has any. */
  ghost predicate Waited<V(!new)>(u: Setup<V>, s: System<V>) {
    && Traced(u, s.started, s.inputs)
    && (forall n :: 0 <= n < |s.started| ==> IsWaitedFor(u, s, n))
    && (forall m :: 0 <= m < |s.jobs| ==> IsWaitedOn(u, s, m))
  }

  lemma InvMeansWaited<V(!new)>(u: Setup<V>, s: System<V>)
    requires Ok(u) && AllReady(u) && Inv(u, s)
    ensures Waited(u, s)
  {
    HistoryIsTraced(u, s.jobs, s.started, s.inputs);
    forall n | 0 <= n < |s.started| ensures IsWaitedFor(u, s, n) {
      StageIsWaitedFor(u, s, n);
    }
    forall m | 0 <= m < |s.jobs| ensures IsWaitedOn(u, s, m) {
      var n := JobsComeFromStages(u, s.jobs, s.started, s.inputs, m);
    }
  }

  /** In every run: no step is passed over.  Each started stage was handed what the one before it
      passed on, and what is delivered is what the last one ended with; each that has pipelines
      to wait for has one job, no other stage has one, and no later stage is started and nothing
      is delivered before the callbacks of its pipelines have run. */
  lemma EveryStepWaits<V(!new)>(u: Setup<V>, run: seq<System<V>>, actions: seq<Action>, k: nat)
    requires Ok(u) && AllReady(u) && IsRun(u, run, actions) && k < |run|
    ensures Waited(u, run[k])
    ensures run[k].delivered != [] ==> HasEnded(u, run[k])
  {
    RunKeepsInv(u, run, actions, k);
    InvMeansWaited(u, run[k]);
    if run[k].delivered != [] {
      DeliveredMeansEnded(u, run[k]);
    }
  }

  lemma DeliveredMeansEnded<V(!new)>(u: Setup<V>, s: System<V>)
    requires OnTrack(u, s) && s.delivered != []
    ensures HasEnded(u, s)
  {
  }

  /** The action reports to the coordinator. */
  predicate Reports(a: Action) {
    a.Report? || (a.Fork? && a.move.Reduce?)
  }

  /** In every interleaving, for every reducer and whatever the settings of the pipelines, at most
      one final callback; the coordinator is released right with it, once, if it releases
      itself; and nobody reports to it, so no stage starts, from then on. */
  lemma FinalCallbackAtMostOnce<V(!new)>(u: Setup<V>, run: seq<System<V>>, actions: seq<Action>, k: nat, a: Action)
    requires Ok(u) && AllReady(u) && IsRun(u, run, actions) && k < |run|
    ensures |run[k].delivered| <= 1
    ensures run[k].releases == if u.autoRelease then |run[k].delivered| else 0
    ensures run[k].delivered != [] && Enabled(u, run[k], a) ==>
              !Reports(a) && a != Run
              && Next(u, run[k], a).started == run[k].started && Next(u, run[k], a).delivered == run[k].delivered
  {
    RunKeepsInv(u, run, actions, k);
    if run[k].delivered != [] {
      NobodyReportsAgain(u, run[k], a);
    }
  }

  lemma NobodyReportsAgain<V(!new)>(u: Setup<V>, s: System<V>, a: Action)
    requires Ok(u) && AllReady(u) && Stands(u, s) && OnTrack(u, s) && s.delivered != []
    ensures Enabled(u, s, a) ==> !Reports(a) && a != Run
  {
    if Reports(a) && a.k < |s.jobs| {
      JobIsOk(u, s.jobs, a.k);
      NotifiedStaysSilent(u, s, a);
    }
  }

  lemma NotifiedStaysSilent<V(!new)>(u: Setup<V>, s: System<V>, a: Action)
    requires AllReady(u) && Reports(a) && a.k < |s.jobs| && JobOk(u, s.jobs[a.k]) && s.jobs[a.k].notified
    ensures !Enabled(u, s, a)
  {
    var j := s.jobs[a.k];
    if a.Fork? && Enabled(u, s, a) {
      Par.ReduceHandsOverAll(u.plan(j.stage, j.work.input), j.work.fork, a.move.i);
      assert false;
    }
  }

  /** The job's pipelines were executed, no call of them is running and nothing is
      outstanding; for a mapReduce stage, the starting loop is over too. */
  predicate AtRest<V>(u: Setup<V>, j: Job<V>) {
    match j.work
    case One(_, pipe) => pipe.life.started && L.Quiet(pipe.life)
    case Many(v, fork) => Par.AtRest(u.plan(j.stage, v), fork)
  }

  lemma RestedJobHasReported<V(!new)>(u: Setup<V>, j: Job<V>)
    requires AllReady(u) && JobOk(u, j) && AtRest(u, j)
    ensures j.notified && HaveCalledBack(u, j) && HaveCleanedUp(u, j)
  {
    match j.work
    case One(_, pipe) => R.QuietPipeHasReported(u.settings(j.stage), pipe);
    case Many(v, fork) => Par.RestMeansReduced(u.plan(j.stage, v), fork);
    NotifiedHasCalledBack(u, j);
  }

  /** All that is done for a job at rest. */
  ghost predicate IsDone<V(!new)>(u: Setup<V>, j: Job<V>) {
    j.notified && HaveCalledBack(u, j) && HaveCleanedUp(u, j)
  }

  lemma RestedJobsAreNotified<V(!new)>(u: Setup<V>, s: System<V>)
    requires AllReady(u) && Stands(u, s) && forall i :: 0 <= i < |s.jobs| ==> AtRest(u, s.jobs[i])
    ensures forall i :: 0 <= i < |s.jobs| ==> IsDone(u, s.jobs[i])
    ensures !Open(s)
  {
    forall i | 0 <= i < |s.jobs| ensures IsDone(u, s.jobs[i]) {
      JobIsOk(u, s.jobs, i);
      RestedJobHasReported(u, s.jobs[i]);
    }
  }

  /** Composition: once a run was begun and its pipelines have come to rest, the final callback
      has been called exactly once, the coordinator released exactly once if it releases
      itself, and each started stage with pipelines to wait for has one job, whose pipelines
      have each called back once and cleaned up once.  No reducer is excluded. */
  lemma AllAtRestMeansDelivered<V(!new)>(u: Setup<V>, run: seq<System<V>>, actions: seq<Action>, k: nat)
    requires Ok(u) && AllReady(u) && IsRun(u, run, actions) && k < |run| && run[k].running
    requires forall i :: 0 <= i < |run[k].jobs| ==> AtRest(u, run[k].jobs[i])
    ensures |run[k].delivered| == 1
    ensures run[k].releases == if u.autoRelease then 1 else 0
    ensures Waited(u, run[k]) && forall i :: 0 <= i < |run[k].jobs| ==> IsDone(u, run[k].jobs[i])
  {
    RunKeepsInv(u, run, actions, k);
    EveryStepWaits(u, run, actions, k);
    RestedJobsAreNotified(u, run[k]);
  }

  /** Until then something can go on. */
  lemma RestlessGoesOn<V(!new)>(u: Setup<V>, s: System<V>, k: nat) returns (a: Action)
    requires Ok(u) && AllReady(u) && Inv(u, s) && k < |s.jobs| && !AtRest(u, s.jobs[k])
    ensures Enabled(u, s, a)
  {
    var j := s.jobs[k];
    JobIsOk(u, s.jobs, k);
    match j.work
    case One(_, _) => a := PipeGoesOn(u, s, k);
    case Many(v, fork) =>
      var b := Par.RestlessGoesOn(u.plan(j.stage, v), fork);
      a := Fork(k, b);
  }

  lemma PipeGoesOn<V(!new)>(u: Setup<V>, s: System<V>, k: nat) returns (a: Action)
    requires Ok(u) && k < |s.jobs| && JobOk(u, s.jobs[k]) && s.jobs[k].work.One? && !AtRest(u, s.jobs[k])
    ensures Enabled(u, s, a)
  {
    var c, pipe := u.settings(s.jobs[k].stage), s.jobs[k].work.pipe;
    if R.InCallback(pipe) {
      a := Report(k);
    } else if !pipe.life.started {
      Par.StartIsPossible(c, pipe);
      a := Inside(k, L.Start(|pipe.life.stacks|));
    } else {
      var b := Liveness.RestlessGoesOn(c, pipe.life);
      a := Inside(k, b);
    }
  }

  // ----- which outcome it is -----

  /** What was started and delivered is an execution of the graph. */
  lemma DeliveredIsExecution<V(!new)>(u: Setup<V>, s: System<V>)
    requires Ok(u) && Inv(u, s) && s.delivered != []
    ensures |s.delivered| == 1 && May(u, 0, G.Nothing, G.Execution(s.started, s.delivered[0]))
  {
    HistoryIsTraced(u, s.jobs, s.started, s.inputs);
    var i, p :| IsLast(u, s, i, p) && Ends(u, i, p, s.delivered[0]);
    TraceIsExecution(u, s.started, s.inputs, s.delivered[0], 0);
    assert s.started[0..] == s.started;
  }

  /** Works for the mapReduce stages: what the reducer makes of some order of arrival. */
  ghost predicate Realizes<V(!new)>(u: Setup<V>, works: W.Works<V>) {
    forall i, v :: 0 <= i < |u.graph| && u.graph[i].kind.MapReduce? ==> RealizesAt(u, works, i, v)
  }

  ghost predicate RealizesAt<V(!new)>(u: Setup<V>, works: W.Works<V>, i: nat, v: V)
    requires i < |u.graph| && u.graph[i].kind.MapReduce?
  {
    if u.piped(i) then exists r :: Arrives(u, i, v, r) && works(i)(v) == u.reduce(i)(r)
    else works(i)(v) == u.graph[i].kind.work(v)
  }

  /** The works if all runners arrive in their own order. */
  function InOrder<V>(u: Setup<V>): W.Works<V> {
    (i: nat) => (v: V) =>
      if i < |u.graph| && u.graph[i].kind.MapReduce? then
        if u.piped(i) then u.reduce(i)(Par.Outcomes(u.plan(i, v))) else u.graph[i].kind.work(v)
      else G.Nothing
  }

  lemma InOrderRealizes<V(!new)>(u: Setup<V>)
    ensures Realizes(u, InOrder(u))
  {
    forall i, v | 0 <= i < |u.graph| && u.graph[i].kind.MapReduce? ensures RealizesAt(u, InOrder(u), i, v) {
      assert Arrives(u, i, v, Par.Outcomes(u.plan(i, v)));
    }
  }

  /** The same works but for one stage on one input. */
  ghost function ButAt<V>(works: W.Works<V>, i: nat, v: V, o: Outcome<V>): W.Works<V> {
    (j: nat) => if j == i then (x: V) => if x == v then o else works(i)(x) else works(j)
  }

  lemma ButAtRealizes<V(!new)>(u: Setup<V>, works: W.Works<V>, i: nat, v: V, r: seq<Outcome<V>>)
    requires Realizes(u, works) && i < |u.graph| && u.piped(i) && Arrives(u, i, v, r)
    ensures Realizes(u, ButAt(works, i, v, u.reduce(i)(r)))
  {
    var works' := ButAt(works, i, v, u.reduce(i)(r));
    forall j, x | 0 <= j < |u.graph| && u.graph[j].kind.MapReduce? ensures RealizesAt(u, works', j, x) {
      assert RealizesAt(u, works, j, x);
    }
  }

  /** An execution that may be is the execution of the graph with such works. */
  lemma {:induction false} MayHasWorks<V(!new)>(u: Setup<V>, i: nat, prev: Outcome<V>, e: G.Execution<V>)
      returns (works: W.Works<V>)
    requires Ok(u) && i < |u.graph| && May(u, i, prev, e)
    ensures Realizes(u, works) && G.StartWith(W.WithWorks(u.graph, works), i, prev) == e
    decreases |u.graph| - i, 1
  {
    var rest := e.(started := e.started[1..]);
    var branch := G.Chosen(u.graph[i], prev);
    assert [i] + rest.started == e.started;
    if branch.Some? {
      works := MayHasWorks(u, branch.value, prev, rest);
    } else if Forks(u, i, prev) {
      var v := prev.result.value;
      var r :| Arrives(u, i, v, r) && MayAnswer(u, i, u.reduce(i)(r), rest);
      works := AnswerHasWorks(u, i, u.reduce(i)(r), rest);
      works := ForkHasWorks(u, i, prev, r, works, rest);
    } else {
      works := ReportHasWorks(u, i, prev, rest);
    }
  }

  lemma {:induction false} AnswerHasWorks<V(!new)>(u: Setup<V>, i: nat, o: Outcome<V>, e: G.Execution<V>)
      returns (works: W.Works<V>)
    requires Ok(u) && i < |u.graph| && MayAnswer(u, i, o, e)
    ensures Realizes(u, works) && G.OnStageResult(W.WithWorks(u.graph, works), i, o) == e
    decreases |u.graph| - i, 0, 0
  {
    if !G.IsSuccess(o) || u.graph[i].next.None? {
      works := InOrder(u);
      InOrderRealizes(u);
    } else {
      works := MayHasWorks(u, u.graph[i].next.value, o, e);
    }
  }

  /** The works for what comes after stage i, changed at stage i for this run's input. */
  lemma ForkHasWorks<V(!new)>(
      u: Setup<V>, i: nat, prev: Outcome<V>, r: seq<Outcome<V>>, works: W.Works<V>, rest: G.Execution<V>)
      returns (works': W.Works<V>)
    requires Ok(u) && i < |u.graph| && Forks(u, i, prev) && Arrives(u, i, prev.result.value, r) && Realizes(u, works)
    requires G.OnStageResult(W.WithWorks(u.graph, works), i, u.reduce(i)(r)) == rest
    ensures Realizes(u, works')
    ensures G.StartWith(W.WithWorks(u.graph, works'), i, prev) == G.Execution([i] + rest.started, rest.final)
  {
    var o := u.reduce(i)(r);
    works' := ButAt(works, i, prev.result.value, o);
    ButAtRealizes(u, works, i, prev.result.value, r);
    var g, g' := W.WithWorks(u.graph, works), W.WithWorks(u.graph, works');
    forall k | i + 1 <= k < |g| ensures g[k] == g'[k] {
      SameWork(works, works', i, prev.result.value, o, k);
    }
    W.AnswerLooksAhead(g, g', i, o);
    assert G.Reported(g'[i].kind, prev) == o && G.Chosen(g'[i], prev).None?;
  }

  lemma SameWork<V(!new)>(works: W.Works<V>, works': W.Works<V>, i: nat, v: V, o: Outcome<V>, k: nat)
    requires works' == ButAt(works, i, v, o) && k != i
    ensures works'(k) == works(k)
  {
  }

  /** A stage that is not a mapReduce stage, or does not run its step, or is not piped. */
  lemma {:induction false} ReportHasWorks<V(!new)>(u: Setup<V>, i: nat, prev: Outcome<V>, rest: G.Execution<V>)
      returns (works: W.Works<V>)
    requires Ok(u) && i < |u.graph| && G.Chosen(u.graph[i], prev).None? && !Forks(u, i, prev)
    requires MayAnswer(u, i, G.Reported(u.graph[i].kind, prev), rest)
    ensures Realizes(u, works)
    ensures G.StartWith(W.WithWorks(u.graph, works), i, prev) == G.Execution([i] + rest.started, rest.final)
    decreases |u.graph| - i, 0, 1
  {
    works := AnswerHasWorks(u, i, G.Reported(u.graph[i].kind, prev), rest);
    var g := W.WithWorks(u.graph, works);
    if u.graph[i].kind.MapReduce? && RunsStep(u.graph[i].kind, prev) {
      assert RealizesAt(u, works, i, prev.result.value);
    }
    assert G.Reported(g[i].kind, prev) == G.Reported(u.graph[i].kind, prev);
  }

  /** What is delivered, for every reducer: what the graph comes to if the work of each mapReduce
      stage is what its reducer makes of some order in which the outcomes arrived. */
  lemma DeliveredIsRealized<V(!new)>(u: Setup<V>, run: seq<System<V>>, actions: seq<Action>, k: nat)
      returns (works: W.Works<V>)
    requires Ok(u) && AllReady(u) && IsRun(u, run, actions) && k < |run| && run[k].delivered != []
    ensures Realizes(u, works)
    ensures var e := G.StartWith(W.WithWorks(u.graph, works), 0, G.Nothing);
            run[k].delivered == [e.final] && run[k].started == e.started
  {
    RunKeepsInv(u, run, actions, k);
    DeliveredIsExecution(u, run[k]);
    works := MayHasWorks(u, 0, G.Nothing, G.Execution(run[k].started, run[k].delivered[0]));
  }

  /** The same for a script: what a client chains together is what its final callback gets, and the
      steps that it says are run, whatever the threads do and whatever the reducers are. */
  lemma ScriptIsDelivered<V(!new)>(
      u: Setup<V>, base: () -> Outcome<V>, tag: G.Tag, script: G.Script<V>,
      run: seq<System<V>>, actions: seq<Action>, k: nat) returns (works: W.Works<V>)
    requires u.graph == G.Build(base, tag, script) && AllReady(u)
    requires Ok(u) && IsRun(u, run, actions) && k < |run| && run[k].running
    requires forall i :: 0 <= i < |run[k].jobs| ==> AtRest(u, run[k].jobs[i])
    ensures Realizes(u, works)
    ensures run[k].delivered == [G.Denote(W.ScriptWith(script, 1, works), tag, base())]
    ensures run[k].started == [0] + G.Trace(W.ScriptWith(script, 1, works), tag, base(), 1)
    ensures Waited(u, run[k]) && forall i :: 0 <= i < |run[k].jobs| ==> IsDone(u, run[k].jobs[i])
  {
    AllAtRestMeansDelivered(u, run, actions, k);
    works := DeliveredIsRealized(u, run, actions, k);
    W.BuildCommutes(base, tag, script, works);
    G.BuilderIsCorrect(base, tag, W.ScriptWith(script, 1, works));
  }

  // ----- reducers that do not care for the order -----

  /** What a mapReduce stage means does not depend on the order of its runners' reports. */
  ghost predicate ReducersAgree<V(!new)>(u: Setup<V>) {
    forall i, v, r :: 0 <= i < |u.graph| && u.graph[i].kind.MapReduce? && u.piped(i) && Arrives(u, i, v, r) ==>
      u.reduce(i)(r) == u.graph[i].kind.work(v)
  }

  /** Then there is only one execution: that of the graph. */
  lemma {:induction false} MayIsRun<V(!new)>(u: Setup<V>, i: nat, prev: Outcome<V>, e: G.Execution<V>)
    requires Ok(u) && ReducersAgree(u) && i < |u.graph| && May(u, i, prev, e)
    ensures e == G.StartWith(u.graph, i, prev)
    decreases |u.graph| - i, 1
  {
    var rest := e.(started := e.started[1..]);
    var branch := G.Chosen(u.graph[i], prev);
    assert [i] + rest.started == e.started;
    if branch.Some? {
      MayIsRun(u, branch.value, prev, rest);
    } else if Forks(u, i, prev) {
      var r :| Arrives(u, i, prev.result.value, r) && MayAnswer(u, i, u.reduce(i)(r), rest);
      AnswerIsRun(u, i, u.reduce(i)(r), rest);
    } else {
      AnswerIsRun(u, i, G.Reported(u.graph[i].kind, prev), rest);
    }
  }

  lemma {:induction false} AnswerIsRun<V(!new)>(u: Setup<V>, i: nat, o: Outcome<V>, e: G.Execution<V>)
    requires Ok(u) && ReducersAgree(u) && i < |u.graph| && MayAnswer(u, i, o, e)
    ensures e == G.OnStageResult(u.graph, i, o)
    decreases |u.graph| - i, 0
  {
    if G.IsSuccess(o) && u.graph[i].next.Some? {
      MayIsRun(u, u.graph[i].next.value, o, e);
    }
  }

  /** With such reducers the interleaving does not show: what is delivered is what the graph
      comes to, and for a script its meaning. */
  lemma OutcomeIsDetermined<V(!new)>(u: Setup<V>, run: seq<System<V>>, actions: seq<Action>, k: nat)
    requires Ok(u) && AllReady(u) && ReducersAgree(u) && IsRun(u, run, actions) && k < |run| && run[k].delivered != []
    ensures var e := G.StartWith(u.graph, 0, G.Nothing); run[k].delivered == [e.final] && run[k].started == e.started
    ensures forall base, tag, script :: u.graph == G.Build(base, tag, script) ==>
              run[k].delivered == [G.Denote(script, tag, base())] && run[k].started == [0] + G.Trace(script, tag, base(), 1)
  {
    RunKeepsInv(u, run, actions, k);
    DeliveredIsExecution(u, run[k]);
    MayIsRun(u, 0, G.Nothing, G.Execution(run[k].started, run[k].delivered[0]));
    forall base, tag, script | u.graph == G.Build(base, tag, script)
      ensures run[k].delivered == [G.Denote(script, tag, base())] && run[k].started == [0] + G.Trace(script, tag, base(), 1)
    {
      G.BuilderIsCorrect(base, tag, script);
    }
  }
}
