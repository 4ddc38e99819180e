/** The fork and join of a mapReduce stage.  Runners report from any thread, during their call
    or after it; pushing a result and counting it down are two separate steps. */
module ForkJoin {

  // ----- one callback at a time: the loop that starts the runners -----

  datatype Behaviour<+O> = ReportsNow(outcome: O) | Throws | ReportsLater

  /** What the loop pushes for a runner. */
  function PushedBy<O>(last: Behaviour<O>, error: O): seq<O> {
    match last
    case ReportsNow(o) => [o]
    case Throws => [error]
    case ReportsLater => []
  }

  /** What is in `results` once the starting loop is over. */
  function ReportedByStarter<O>(b: seq<Behaviour<O>>, error: O): seq<O> {
    if b == [] then [] else
    var most, last := b[..|b| - 1], b[|b| - 1];
    ReportedByStarter(most, error) + PushedBy(last, error)
  }

  /** The results r are the outcome of each runner that reports during its call and the error for
      each that throws, as often as there are such runners. */
  ghost predicate AccountsFor<O(!new)>(b: seq<Behaviour<O>>, error: O, r: seq<O>) {
    && |r| == |b| - multiset(b)[ReportsLater]
    && forall o :: multiset(r)[o] == multiset(b)[ReportsNow(o)] + if o == error then multiset(b)[Throws] else 0
  }

  /** Result i is that of runner i. */
  ghost predicate InPlace<O(!new)>(b: seq<Behaviour<O>>, error: O, r: seq<O>) {
    && |r| == |b|
    && forall i :: 0 <= i < |b| ==>
         (b[i].Throws? ==> r[i] == error) && (b[i].ReportsNow? ==> r[i] == b[i].outcome)
  }

  lemma OneMoreIsAccountedFor<O(!new)>(b: seq<Behaviour<O>>, last: Behaviour<O>, error: O, r: seq<O>)
    requires AccountsFor(b, error, r)
    ensures AccountsFor(b + [last], error, r + PushedBy(last, error))
  {
    assert multiset(b + [last]) == multiset(b) + multiset{last};
    assert multiset(r + PushedBy(last, error)) == multiset(r) + multiset(PushedBy(last, error));
  }

  /** Each runner that reports or throws is pushed once, and no other. */
  lemma {:induction false} EachIsPushedOnce<O(!new)>(b: seq<Behaviour<O>>, error: O)
    ensures AccountsFor(b, error, ReportedByStarter(b, error))
  {
    if b != [] {
      var most, last := b[..|b| - 1], b[|b| - 1];
      EachIsPushedOnce(most, error);
      OneMoreIsAccountedFor(most, last, error, ReportedByStarter(most, error));
      assert b == most + [last];
      assert ReportedByStarter(b, error) == ReportedByStarter(most, error) + PushedBy(last, error);
    }
  }

  lemma {:induction false} EachIsPushedInOrder<O(!new)>(b: seq<Behaviour<O>>, error: O)
    requires ReportsLater !in b
    ensures InPlace(b, error, ReportedByStarter(b, error))
  {
    if b != [] {
      var n := |b| - 1;
      EachIsPushedInOrder(b[..n], error);
      assert b[n] in b;
    }
  }

  class Join<O(!new)> {
    const total: nat
    var results: seq<O>
    var pending: int
    var reduced: seq<seq<O>>   // what the reducer was called with

    ghost predicate Valid()
      reads this
    {
      pending == total - |results| >= 0 && reduced == if pending == 0 then [results] else []
    }

    /** An empty list of runners is reduced at once. */
    constructor (total: nat)
      ensures Valid() && this.total == total && results == []
    {
      this.total := total;
      results, pending := [], total;
      reduced := if total == 0 then [[]] else [];
    }

    /** The callback that runners are given. */
    method OnItem(o: O)
      requires Valid() && pending > 0
      modifies this
      ensures Valid() && results == old(results) + [o]
    {
      results := results + [o];
      pending := pending - 1;
      if pending == 0 {
        reduced := reduced + [results];
      }
    }

    method StartAll(runners: seq<Behaviour<O>>, error: O)
      requires Valid() && results == [] && total == |runners|
      modifies this
      ensures Valid() && results == ReportedByStarter(runners, error)
      ensures AccountsFor(runners, error, results) && pending == multiset(runners)[ReportsLater]
      ensures ReportsLater !in runners ==> InPlace(runners, error, results) && reduced == [results]
      ensures ReportsLater in runners ==> reduced == []
    {
      var i := 0;
      while i < |runners|
        invariant 0 <= i <= |runners| && Valid()
        invariant results == ReportedByStarter(runners[..i], error) && |results| <= i
      {
        assert runners[..i + 1][..i] == runners[..i];
        match runners[i] {
          case ReportsNow(o) => OnItem(o);
          case Throws => OnItem(error);
          case ReportsLater =>
        }
        i := i + 1;
      }
      assert runners[..i] == runners;
      EachIsPushedOnce(runners, error);
      if ReportsLater !in runners {
        EachIsPushedInOrder(runners, error);
      }
    }
  }

  // ----- all interleavings -----

  /** Where runner i's report is: the thread that carries it pushes, then counts down, then,
      if it saw zero, calls the reducer. */
  datatype Phase<+O> =
    | NotStarted
    | Active
    | Pushed(outcome: O)
    | SawZero(outcome: O)
    | Counted(outcome: O)

  predicate HasReported<O>(p: Phase<O>) { p.Pushed? || p.SawZero? || p.Counted? }

  predicate IsCounted<O>(p: Phase<O>) { p.SawZero? || p.Counted? }

  /** The starting thread is between runners, inside one, or handling what it threw. */
  datatype Starter = Looping | InCall | Catching

  datatype State<+O> = State(
    starter: Starter,
    launched: nat,
    phase: seq<Phase<O>>,
    results: seq<O>,
    pending: int,
    sawZero: seq<nat>,
    reduced: seq<seq<O>>)

  datatype Action<+O> =
    | Call                               // the loop enters the next runner
    | Return                             // the runner returns; it has reported or will
    | Throw(error: O)                    // it throws without reporting; the loop pushes an error
    | Push(i: nat, outcome: O)           // a runner reports, from any thread
    | CountDown(i: nat)
    | Reduce(i: nat)

  function Init<O>(n: nat): State<O> {
    State(Looping, 0, seq(n, _ => NotStarted), [], n, [], if n == 0 then [[]] else [])
  }

  predicate Enabled<O>(s: State<O>, a: Action<O>) {
    match a
    case Call => s.starter.Looping? && s.launched < |s.phase|
    case Return => s.starter.InCall?
    case Throw(_) => s.starter.InCall? && 0 < s.launched <= |s.phase| && s.phase[s.launched - 1].Active?
    case Push(i, _) => i < |s.phase| && s.phase[i].Active?
    case CountDown(i) => i < |s.phase| && s.phase[i].Pushed?
    case Reduce(i) => i < |s.phase| && s.phase[i].SawZero?
  }

  function Next<O>(s: State<O>, a: Action<O>): (s': State<O>)
    requires Enabled(s, a)
  {
    match a
    case Call => s.(starter := InCall, launched := s.launched + 1, phase := s.phase[s.launched := Active])
    case Return => s.(starter := Looping)
    case Throw(e) =>
      s.(starter := Catching, phase := s.phase[s.launched - 1 := Pushed(e)], results := s.results + [e])
    case Push(i, o) => s.(phase := s.phase[i := Pushed(o)], results := s.results + [o])
    case CountDown(i) =>
      var o, left := s.phase[i].outcome, s.pending - 1;
      s.(starter := if s.starter.Catching? && i == s.launched - 1 then Looping else s.starter,
         pending := left,
         phase := s.phase[i := if left == 0 then SawZero(o) else Counted(o)],
         sawZero := if left == 0 then s.sawZero + [i] else s.sawZero)
    case Reduce(i) => s.(phase := s.phase[i := Counted(s.phase[i].outcome)], reduced := s.reduced + [s.results])
  }

  ghost predicate IsRun<O(!new)>(run: seq<State<O>>, actions: seq<Action<O>>, n: nat) {
    && |run| == |actions| + 1 && run[0] == Init(n)
    && forall k :: 0 <= k < |actions| ==> Enabled(run[k], actions[k]) && run[k + 1] == Next(run[k], actions[k])
  }

  /** What the runners have reported, in the order of the runners. */
  function Reports<O>(phase: seq<Phase<O>>): seq<O> {
    if phase == [] then [] else
    var most, last := phase[..|phase| - 1], phase[|phase| - 1];
    Reports(most) + if HasReported(last) then [last.outcome] else []
  }

  function Uncounted<O>(phase: seq<Phase<O>>): (k: nat) {
    if phase == [] then 0 else
    Uncounted(phase[..|phase| - 1]) + if IsCounted(phase[|phase| - 1]) then 0 else 1
  }

  function Weight<O>(p: Phase<O>): nat { if IsCounted(p) then 0 else 1 }

  ghost function Hit<O>(p: Phase<O>, x: O): nat { if HasReported(p) && p.outcome == x then 1 else 0 }

  /** How often x was reported. */
  ghost function Times<O>(phase: seq<Phase<O>>, x: O): nat {
    if phase == [] then 0 else Times(phase[..|phase| - 1], x) + Hit(phase[|phase| - 1], x)
  }

  lemma {:induction false} CountChanges<O(!new)>(phase: seq<Phase<O>>, i: nat, p: Phase<O>)
    requires i < |phase|
    ensures Uncounted(phase[i := p]) == Uncounted(phase) - Weight(phase[i]) + Weight(p)
  {
    var n := |phase| - 1;
    if i < n {
      CountChanges(phase[..n], i, p);
      assert phase[i := p][..n] == phase[..n][i := p];
    } else {
      assert phase[i := p][..n] == phase[..n];
    }
  }

  lemma {:induction false} ReportsChange<O(!new)>(phase: seq<Phase<O>>, i: nat, p: Phase<O>, x: O)
    requires i < |phase|
    ensures Times(phase[i := p], x) == Times(phase, x) - Hit(phase[i], x) + Hit(p, x)
  {
    var n := |phase| - 1;
    if i < n {
      ReportsChange(phase[..n], i, p, x);
      assert phase[i := p][..n] == phase[..n][i := p];
    } else {
      assert phase[i := p][..n] == phase[..n];
    }
  }

  lemma {:induction false} TimesCountsReports<O(!new)>(phase: seq<Phase<O>>, x: O)
    ensures multiset(Reports(phase))[x] == Times(phase, x)
  {
    if phase != [] {
      TimesCountsReports(phase[..|phase| - 1], x);
    }
  }

  lemma {:induction false} NoneUncounted<O(!new)>(phase: seq<Phase<O>>)
    ensures Uncounted(phase) == 0 <==> forall i :: 0 <= i < |phase| ==> IsCounted(phase[i])
  {
    if phase != [] {
      var n := |phase| - 1;
      NoneUncounted(phase[..n]);
      assert forall i :: 0 <= i < n ==> phase[i] == phase[..n][i];
    }
  }

  lemma {:induction false} AtFirst<O(!new)>(n: nat)
    ensures var phase: seq<Phase<O>> := seq(n, _ => NotStarted);
            Uncounted(phase) == n && forall x: O :: Times(phase, x) == 0
  {
    if n > 0 {
      AtFirst<O>(n - 1);
      var phase: seq<Phase<O>> := seq(n, _ => NotStarted);
      assert phase[..n - 1] == seq(n - 1, _ => NotStarted);
    }
  }

  predicate StarterOk<O>(s: State<O>) {
    && s.launched <= |s.phase|
    && (forall i :: 0 <= i < |s.phase| ==> (s.phase[i].NotStarted? <==> i >= s.launched))
    && (!s.starter.Looping? ==> s.launched > 0)
    && (s.starter.Catching? ==> s.phase[s.launched - 1].Pushed?)
  }

  /** Who saw zero, and whether the reducer has been called by that thread. */
  ghost predicate JoinOk<O>(s: State<O>) {
    if |s.phase| == 0 then s.sawZero == [] && s.reduced == [s.results] else
    && (forall i :: 0 <= i < |s.phase| && s.phase[i].SawZero? ==> s.sawZero == [i])
    && (s.pending > 0 ==> s.sawZero == [] && s.reduced == [])
    && (s.pending == 0 ==> |s.sawZero| == 1 && s.sawZero[0] < |s.phase| &&
                           s.reduced == if s.phase[s.sawZero[0]].SawZero? then [] else [s.results])
  }

  ghost predicate Inv<O(!new)>(s: State<O>) {
    && s.pending == Uncounted(s.phase)
    && (forall x: O :: multiset(s.results)[x] == Times(s.phase, x))
    && StarterOk(s) && JoinOk(s)
  }

  /** A runner's report, or what it threw, is pushed. */
  lemma PushReports<O(!new)>(phase: seq<Phase<O>>, results: seq<O>, i: nat, o: O, x: O)
    requires i < |phase| && phase[i].Active? && multiset(results)[x] == Times(phase, x)
    ensures multiset(results + [o])[x] == Times(phase[i := Pushed(o)], x)
  {
    ReportsChange(phase, i, Pushed(o), x);
    assert multiset(results + [o]) == multiset(results) + multiset{o};
  }

  lemma MoveKeepsReports<O(!new)>(phase: seq<Phase<O>>, i: nat, p: Phase<O>, x: O)
    requires i < |phase| && Hit(p, x) == Hit(phase[i], x)
    ensures Times(phase[i := p], x) == Times(phase, x)
  {
    ReportsChange(phase, i, p, x);
  }

  lemma StepKeepsReports<O(!new)>(s: State<O>, a: Action<O>, x: O)
    requires Enabled(s, a) && StarterOk(s) && multiset(s.results)[x] == Times(s.phase, x)
    ensures multiset(Next(s, a).results)[x] == Times(Next(s, a).phase, x)
  {
    match a
    case Call => MoveKeepsReports(s.phase, s.launched, Active, x);
    case Return =>
    case Throw(e) => PushReports(s.phase, s.results, s.launched - 1, e, x);
    case Push(i, o) => PushReports(s.phase, s.results, i, o, x);
    case CountDown(i) => MoveKeepsReports(s.phase, i, Next(s, a).phase[i], x);
    case Reduce(i) => MoveKeepsReports(s.phase, i, Counted(s.phase[i].outcome), x);
  }

  lemma StepKeepsCount<O(!new)>(s: State<O>, a: Action<O>)
    requires Inv(s) && Enabled(s, a)
    ensures Next(s, a).pending == Uncounted(Next(s, a).phase)
  {
    match a
    case Call => CountChanges(s.phase, s.launched, Active);
    case Return =>
    case Throw(e) => CountChanges(s.phase, s.launched - 1, Pushed(e));
    case Push(i, o) => CountChanges(s.phase, i, Pushed(o));
    case CountDown(i) => CountChanges(s.phase, i, Next(s, a).phase[i]);
    case Reduce(i) => CountChanges(s.phase, i, Counted(s.phase[i].outcome));
  }

  lemma StepKeepsStarter<O(!new)>(s: State<O>, a: Action<O>)
    requires StarterOk(s) && Enabled(s, a)
    ensures StarterOk(Next(s, a))
  {
  }

  lemma StepKeepsJoin<O(!new)>(s: State<O>, a: Action<O>)
    requires Inv(s) && Enabled(s, a)
    ensures JoinOk(Next(s, a))
  {
    NoneUncounted(s.phase);
    match a
    case Call =>
    case Return =>
    case Throw(e) =>
    case Push(i, o) =>
    case CountDown(i) => assert s.pending > 0;
    case Reduce(i) =>
  }

  lemma StepKeepsInv<O(!new)>(s: State<O>, a: Action<O>)
    requires Inv(s) && Enabled(s, a)
    ensures Inv(Next(s, a)) && |Next(s, a).phase| == |s.phase|
  {
    forall x: O ensures multiset(Next(s, a).results)[x] == Times(Next(s, a).phase, x) {
      StepKeepsReports(s, a, x);
    }
    StepKeepsCount(s, a);
    StepKeepsStarter(s, a);
    StepKeepsJoin(s, a);
  }

  lemma {:induction false} RunKeepsInv<O(!new)>(run: seq<State<O>>, actions: seq<Action<O>>, n: nat, k: nat)
    requires IsRun(run, actions, n) && k < |run|
    ensures Inv(run[k]) && |run[k].phase| == n
  {
    if k == 0 {
      AtFirst<O>(n);
      assert Inv(Init<O>(n));
    } else {
      RunKeepsInv(run, actions, n, k - 1);
      StepKeepsInv(run[k - 1], actions[k - 1]);
    }
  }

  lemma ResultsAreReports<O(!new)>(s: State<O>)
    requires Inv(s)
    ensures multiset(s.results) == multiset(Reports(s.phase))
  {
    forall x: O ensures multiset(s.results)[x] == multiset(Reports(s.phase))[x] {
      TimesCountsReports(s.phase, x);
    }
  }

  /** Nothing is left to do: every runner was called and its report counted. */
  predicate Over<O>(s: State<O>) {
    s.starter.Looping? && s.launched == |s.phase| && forall i :: 0 <= i < |s.phase| ==> s.phase[i].Counted?
  }

  /** Fork and join, over every interleaving: the reducer is called at most once and never
      before the last report is counted; in the end it has been called exactly once, by the one
      thread that saw zero, with exactly the reports of all the runners. */
  lemma ReducedOnce<O(!new)>(run: seq<State<O>>, actions: seq<Action<O>>, n: nat, k: nat)
    requires IsRun(run, actions, n) && k < |run|
    ensures |run[k].reduced| <= 1 && |run[k].sawZero| <= 1
    ensures run[k].pending > 0 ==> run[k].reduced == []
    ensures run[k].reduced != [] ==> forall i :: 0 <= i < |run[k].phase| ==> HasReported(run[k].phase[i])
    ensures run[k].reduced != [] ==> multiset(run[k].reduced[0]) == multiset(Reports(run[k].phase))
    ensures Over(run[k]) ==> |run[k].reduced| == 1 && |run[k].sawZero| == if n == 0 then 0 else 1
  {
    RunKeepsInv(run, actions, n, k);
    NoneUncounted(run[k].phase);
    ResultsAreReports(run[k]);
  }

  /** The reducer reads the results without the lock; nobody writes them meanwhile. */
  lemma NobodyPushesWhileReducing<O(!new)>(run: seq<State<O>>, actions: seq<Action<O>>, n: nat, k: nat, i: nat, a: Action<O>)
    requires IsRun(run, actions, n) && k < |run|
    requires Enabled(run[k], Reduce(i)) && Enabled(run[k], a)
    ensures Next(run[k], a).results == run[k].results
    ensures a.Reduce? ==> a.i == i
  {
    RunKeepsInv(run, actions, n, k);
    NoneUncounted(run[k].phase);
  }

  /** The join cannot get stuck: until it is over, some thread has a step of its own to take,
      or a runner still owes its report. */
  lemma NeverStuck<O(!new)>(run: seq<State<O>>, actions: seq<Action<O>>, n: nat, k: nat)
    requires IsRun(run, actions, n) && k < |run| && !Over(run[k])
    ensures || Enabled(run[k], Call) || Enabled(run[k], Return)
            || exists i :: 0 <= i < |run[k].phase| && (run[k].phase[i].Active? || Enabled(run[k], CountDown(i)) || Enabled(run[k], Reduce(i)))
  {
    RunKeepsInv(run, actions, n, k);
    var s := run[k];
    if s.starter.Catching? {
      assert Enabled(s, CountDown(s.launched - 1));
    } else if s.launched == n && s.starter.Looping? {
      var i :| 0 <= i < n && !s.phase[i].Counted?;
      assert s.phase[i].Active? || Enabled(s, CountDown(i)) || Enabled(s, Reduce(i));
    }
  }

  /** If the reducer does not care for order, the interleaving does not show: two finished runs
      in which the runners report the same end in the same reduction. */
  lemma InterleavingDoesNotShow<O(!new), R>(
      run: seq<State<O>>, actions: seq<Action<O>>, run': seq<State<O>>, actions': seq<Action<O>>, n: nat,
      reduce: seq<O> -> R)
    requires IsRun(run, actions, n) && IsRun(run', actions', n)
    requires Over(run[|actions|]) && Over(run'[|actions'|])
    requires Reports(run[|actions|].phase) == Reports(run'[|actions'|].phase)
    requires forall a, b :: multiset(a) == multiset(b) ==> reduce(a) == reduce(b)
    ensures |run[|actions|].reduced| == |run'[|actions'|].reduced| == 1
    ensures reduce(run[|actions|].reduced[0]) == reduce(run'[|actions'|].reduced[0])
  {
    ReducedOnce(run, actions, n, |actions|);
    ReducedOnce(run', actions', n, |actions'|);
  }
}
