/** The coordinator's builder as a compiler and its stages as an interpreter.

    A script is what a client chains together; compiling it creates stages and sets their
    `next` pointers; running starts stages along those pointers.  The meaning of a script is
    given directly, and the compiled graph is proved to have it. */
module StageGraph {
  import opened Wrappers

  /** Stands for the C++ type that a type-erased outcome was made from. */
  type Tag = nat

  datatype Error = Error(clientError: bool, status: int, message: string)

  datatype Result<+V> = Ok(value: V) | Err(error: Error)

  /** AnyOutcome: possibly nothing, otherwise an outcome together with its type. */
  datatype AnyOutcome<+V> = Nothing | Outcome(tag: Tag, result: Result<V>)

  predicate IsSuccess<V>(o: AnyOutcome<V>) { o.Outcome? && o.result.Ok? }

  /** tryCast succeeds exactly for the type the outcome was made from. */
  predicate Casts<V>(o: AnyOutcome<V>, tag: Tag) { o.Outcome? && o.tag == tag }

  function ClientError<V>(tag: Tag, message: string): AnyOutcome<V> {
    Outcome(tag, Err(Error(true, 0, message)))
  }

  const EXEC_MISMATCH := "ExecStage input type mismatch"
  const REDUCE_MISMATCH := "MapReduceStage input type mismatch"
  const CONDITION_MISMATCH := "ConditionStage input type mismatch"
  const BRANCH_NOT_SET := "ConditionStage branch not set"

  /** A step consumes a value and reports one outcome, of whatever type it likes. */
  type Step<!V> = V -> AnyOutcome<V>

  // ----- scripts and their meaning -----

  datatype Script<!V> =
    | Done
    | Then(output: Tag, step: Step<V>, rest: Script<V>)
    | ThenIfElse(output: Tag, pred: V -> bool, onTrue: Step<V>, onFalse: Step<V>, rest: Script<V>)
    | Reduce(output: Tag, work: Step<V>, rest: Script<V>)
    | ThenIfOnly(output: Tag, pred: V -> bool, onTrue: Step<V>)   // else_ is never called

  /** What a script makes of an outcome of the expected type `input`: the first failure stops
      it, and so does an outcome of another type. */
  function Denote<V>(s: Script<V>, input: Tag, o: AnyOutcome<V>): AnyOutcome<V> {
    if !IsSuccess(o) then o else
    match s
    case Done => o
    case Then(output, step, rest) =>
      if !Casts(o, input) then ClientError(output, EXEC_MISMATCH) else Denote(rest, output, step(o.result.value))
    case ThenIfElse(output, pred, onTrue, onFalse, rest) =>
      if !Casts(o, input) then ClientError(input, CONDITION_MISMATCH) else
      var v := o.result.value;
      Denote(rest, output, if pred(v) then onTrue(v) else onFalse(v))
    case Reduce(output, work, rest) =>
      if !Casts(o, input) then ClientError(output, REDUCE_MISMATCH) else Denote(rest, output, work(o.result.value))
    case ThenIfOnly(output, pred, onTrue) =>
      if !Casts(o, input) then ClientError(input, CONDITION_MISMATCH)
      else if pred(o.result.value) then onTrue(o.result.value)
      else ClientError(input, BRANCH_NOT_SET)
  }

  /** Which stages a script starts on an outcome, if n stages were created before it: they are
      numbered as they are chained.  Of two branches one is started, after a failure none. */
  function Trace<V>(s: Script<V>, input: Tag, o: AnyOutcome<V>, n: nat): seq<nat> {
    if !IsSuccess(o) then [] else
    match s
    case Done => []
    case Then(output, step, rest) =>
      [n] + if Casts(o, input) then Trace(rest, output, step(o.result.value), n + 1) else []
    case Reduce(output, work, rest) =>
      [n] + if Casts(o, input) then Trace(rest, output, work(o.result.value), n + 1) else []
    case ThenIfElse(output, pred, onTrue, onFalse, rest) =>
      if !Casts(o, input) then [n] else
      var v := o.result.value;
      if pred(v) then [n, n + 1] + Trace(rest, output, onTrue(v), n + 3)
      else [n, n + 2] + Trace(rest, output, onFalse(v), n + 3)
    case ThenIfOnly(output, pred, onTrue) =>
      if Casts(o, input) && pred(o.result.value) then [n, n + 1] else [n]
  }

  /** What a script makes of an outcome, and how. */
  function Meaning<V>(s: Script<V>, input: Tag, o: AnyOutcome<V>, n: nat): Execution<V> {
    Execution(Trace(s, input, o, n), Denote(s, input, o))
  }

  // ----- stages -----

  datatype Kind<!V> =
    | Start(base: () -> AnyOutcome<V>)
    | Exec(input: Tag, output: Tag, step: Step<V>)
    | Condition(input: Tag, pred: V -> bool)
    | MapReduce(input: Tag, output: Tag, work: Step<V>)

  /** A stage and its pointers, as indices into the list of stages in creation order. */
  datatype Node<!V> = Node(kind: Kind<V>, next: Option<nat>, trueNext: Option<nat>, falseNext: Option<nat>)

  type Graph<!V> = seq<Node<V>>

  predicate PointsForward(p: Option<nat>, i: nat, size: nat) {
    p.Some? ==> i < p.value < size
  }

  /** Every pointer leads to a stage created later. */
  predicate Forward<V>(g: Graph<V>) {
    forall i :: 0 <= i < |g| ==>
      PointsForward(g[i].next, i, |g|) && PointsForward(g[i].trueNext, i, |g|) && PointsForward(g[i].falseNext, i, |g|)
  }

  // ----- the compiler -----

  function New<V>(kind: Kind<V>): Node<V> {
    Node(kind, None, None, None)
  }

  /** The conditions before stage n have their branches before n. */
  predicate BranchesBelow<V>(g: Graph<V>, n: nat) {
    n < |g| &&
    forall j :: 0 <= j < n && g[j].kind.Condition? ==>
      (g[j].trueNext.Some? ==> g[j].trueNext.value < n) && (g[j].falseNext.Some? ==> g[j].falseNext.value < n)
  }

  /** setNext: a condition also passes the pointer on to its two branches. */
  function Linked<V>(g: Graph<V>, i: nat, n: nat): (g': Graph<V>)
    requires Forward(g) && i < n < |g|
    requires BranchesBelow(g, n)
    ensures |g'| == |g| && Forward(g')
    ensures forall j :: 0 <= j < |g| ==> g'[j] == g[j].(next := g'[j].next)
    decreases |g| - i, 1
  {
    var g1 := g[i := g[i].(next := Some(n))];
    if g[i].kind.Condition? then BranchesLinked(g1, i, n) else g1
  }

  function BranchesLinked<V>(g: Graph<V>, i: nat, n: nat): (g': Graph<V>)
    requires Forward(g) && i < n < |g| && g[i].kind.Condition? && BranchesBelow(g, n)
    ensures |g'| == |g| && Forward(g') && BranchesBelow(g', n)
    ensures forall j :: 0 <= j < |g| ==> g'[j] == g[j].(next := g'[j].next)
    decreases |g| - i, 0
  {
    var g1 := if g[i].trueNext.Some? then Linked(g, g[i].trueNext.value, n) else g;
    if g[i].falseNext.Some? then Linked(g1, g[i].falseNext.value, n) else g1
  }

  /** `then` and `mapReduce`: create the stage and point the attached one to it.  If the
      attached stage is a condition on the very type that is chained (the dynamic cast
      succeeds), its branches are pointed there first; setNext would do so again. */
  function Attach<V>(g: Graph<V>, attach: nat, tag: Tag, kind: Kind<V>): (g': Graph<V>)
    requires Forward(g) && attach < |g|
    ensures |g'| == |g| + 1 && Forward(g')
  {
    var n := |g|;
    var g1 := g + [New(kind)];
    Linked(if g[attach].kind.Condition? && g[attach].kind.input == tag then BranchesLinked(g1, attach, n) else g1, attach, n)
  }

  /** The graph right after `thenIf` has created its two stages. */
  function WithCondition<V>(g: Graph<V>, tag: Tag, output: Tag, pred: V -> bool, onTrue: Step<V>): Graph<V> {
    g + [New(Condition(tag, pred)).(trueNext := Some(|g| + 1)), New(Exec(tag, output, onTrue))]
  }

  /** `thenIf`: create the condition and its true branch. */
  function AttachIf<V>(g: Graph<V>, attach: nat, tag: Tag, output: Tag, pred: V -> bool, onTrue: Step<V>): (g': Graph<V>)
    requires Forward(g) && attach < |g|
    ensures |g'| == |g| + 2 && Forward(g')
  {
    Linked(WithCondition(g, tag, output, pred, onTrue), attach, |g|)
  }

  /** `else_`: create the false branch. */
  function AttachElse<V>(g: Graph<V>, cond: nat, tag: Tag, output: Tag, onFalse: Step<V>): (g': Graph<V>)
    requires Forward(g) && cond < |g|
    ensures |g'| == |g| + 1 && Forward(g')
  {
    g[cond := g[cond].(falseNext := Some(|g|))] + [New(Exec(tag, output, onFalse))]
  }

  /** Chains a whole script onto stage `attach`, whose results have type `tag`. */
  function Compile<V>(g: Graph<V>, attach: nat, tag: Tag, s: Script<V>): (g': Graph<V>)
    requires Forward(g) && attach < |g|
    ensures |g'| >= |g| && Forward(g')
    decreases s
  {
    match s
    case Done => g
    case Then(output, step, rest) =>
      Compile(Attach(g, attach, tag, Exec(tag, output, step)), |g|, output, rest)
    case Reduce(output, work, rest) =>
      Compile(Attach(g, attach, tag, MapReduce(tag, output, work)), |g|, output, rest)
    case ThenIfElse(output, pred, onTrue, onFalse, rest) =>
      var g1 := AttachIf(g, attach, tag, output, pred, onTrue);
      Compile(AttachElse(g1, |g|, tag, output, onFalse), |g|, output, rest)
    case ThenIfOnly(output, pred, onTrue) => AttachIf(g, attach, tag, output, pred, onTrue)
  }

  /** `begin` with a base step, then the script. */
  function Build<V>(base: () -> AnyOutcome<V>, tag: Tag, s: Script<V>): (g: Graph<V>)
    ensures |g| >= 1 && Forward(g)
  {
    Compile([New(Start(base))], 0, tag, s)
  }

  // ----- the interpreter -----

  /** Which stages were started, in order, and the outcome handed to the final callback. */
  datatype Execution<+V> = Execution(started: seq<nat>, final: AnyOutcome<V>)

  /** The branch to which a condition passes a good outcome on. */
  function Chosen<V>(node: Node<V>, prev: AnyOutcome<V>): Option<nat> {
    if !node.kind.Condition? || !Casts(prev, node.kind.input) || !IsSuccess(prev) then None
    else if node.kind.pred(prev.result.value) then node.trueNext else node.falseNext
  }

  /** What a stage reports to the coordinator otherwise. */
  function Reported<V>(kind: Kind<V>, prev: AnyOutcome<V>): AnyOutcome<V> {
    match kind
    case Start(base) => base()
    case Exec(input, output, step) =>
      if !Casts(prev, input) then ClientError(output, EXEC_MISMATCH)
      else if !IsSuccess(prev) then prev
      else step(prev.result.value)
    case MapReduce(input, output, work) =>
      if !Casts(prev, input) then ClientError(output, REDUCE_MISMATCH)
      else if !IsSuccess(prev) then prev
      else work(prev.result.value)
    case Condition(input, pred) =>
      if !Casts(prev, input) then ClientError(input, CONDITION_MISMATCH)
      else if !IsSuccess(prev) then prev
      else ClientError(input, BRANCH_NOT_SET)
  }

  function StartWith<V>(g: Graph<V>, i: nat, prev: AnyOutcome<V>): (e: Execution<V>)
    requires Forward(g) && i < |g|
    decreases |g| - i, 1
  {
    var branch := Chosen(g[i], prev);
    var e := if branch.Some? then StartWith(g, branch.value, prev) else OnStageResult(g, i, Reported(g[i].kind, prev));
    e.(started := [i] + e.started)
  }

  function OnStageResult<V>(g: Graph<V>, i: nat, o: AnyOutcome<V>): (e: Execution<V>)
    requires Forward(g) && i < |g|
    decreases |g| - i, 0
  {
    if !IsSuccess(o) || g[i].next.None? then Execution([], o) else StartWith(g, g[i].next.value, o)
  }

  /** The final callback's view of the outcome: its own type, or one of three errors. */
  const MISSING := "final outcome missing"
  const STOPPED := "pipeline stopped on error"
  const FINAL_MISMATCH := "pipeline final type mismatch"

  function Finalized<V>(o: AnyOutcome<V>, tag: Tag): Result<V> {
    if Casts(o, tag) then o.result
    else Err(Error(true, 0, if o.Nothing? then MISSING else if !IsSuccess(o) then STOPPED else FINAL_MISMATCH))
  }

  function Run<V>(base: () -> AnyOutcome<V>, tag: Tag, s: Script<V>, final: Tag): Result<V> {
    Finalized(StartWith(Build(base, tag, s), 0, Nothing).final, final)
  }

  // ----- what the compiler does to the graph -----

  predicate IsBranch<V>(g: Graph<V>, a: nat, i: nat)
    requires a < |g|
  {
    g[a].kind.Condition? && (g[a].trueNext == Some(i) || g[a].falseNext == Some(i))
  }

  /** Conditions branch to exec stages. */
  predicate BranchesAreExec<V>(g: Graph<V>) {
    forall i, j :: 0 <= i < |g| && 0 <= j < |g| && IsBranch(g, i, j) ==> g[j].kind.Exec?
  }

  /** A graph between two calls of the builder: the attached stage, or the two branches of an
      attached condition, are where the next stage will be linked. */
  predicate Ready<V>(g: Graph<V>, a: nat) {
    && Forward(g) && a < |g| && BranchesAreExec(g)
    && (g[a].kind.Condition? ==> g[a].trueNext.Some? && g[a].falseNext.Some?)
  }

  predicate IsExit<V>(g: Graph<V>, a: nat, i: nat)
    requires a < |g|
  {
    if g[a].kind.Condition? then IsBranch(g, a, i) else i == a
  }

  /** g' is g with the pointers of `a` and of its branches set to n. */
  ghost predicate OnlyLinks<V>(g: Graph<V>, a: nat, n: nat, g': Graph<V>)
    requires a < |g|
  {
    && |g'| == |g|
    && forall i :: 0 <= i < |g| ==>
         g'[i] == if i == a || IsBranch(g, a, i) then g[i].(next := Some(n)) else g[i]
  }

  /** Branches are exec stages: they pass nothing on. */
  lemma BranchesOnlyLinked<V>(g: Graph<V>, a: nat, n: nat)
    requires Forward(g) && a < n < |g| && BranchesAreExec(g) && BranchesBelow(g, n) && g[a].kind.Condition?
    ensures var g' := BranchesLinked(g, a, n);
            forall i :: 0 <= i < |g| ==> g'[i] == if IsBranch(g, a, i) then g[i].(next := Some(n)) else g[i]
  {
    var g1 := g;
    if g[a].trueNext.Some? {
      var t := g[a].trueNext.value;
      assert IsBranch(g, a, t);
      g1 := Linked(g, t, n);
      assert g1 == g[t := g[t].(next := Some(n))];
    }
    if g[a].falseNext.Some? {
      var f := g[a].falseNext.value;
      assert IsBranch(g, a, f);
      assert Linked(g1, f, n) == g1[f := g1[f].(next := Some(n))];
    }
  }

  lemma LinkedOnlyLinks<V>(g: Graph<V>, a: nat, n: nat)
    requires Forward(g) && a < n < |g| && BranchesAreExec(g) && BranchesBelow(g, n)
    ensures OnlyLinks(g, a, n, Linked(g, a, n))
  {
    if g[a].kind.Condition? {
      var g1 := g[a := g[a].(next := Some(n))];
      SameBranches(g, g1);
      BranchesOnlyLinked(g1, a, n);
    }
  }

  lemma AttachOnlyLinks<V>(g: Graph<V>, a: nat, tag: Tag, kind: Kind<V>)
    requires Forward(g) && a < |g| && BranchesAreExec(g)
    ensures var g1 := g + [New(kind)];
            BranchesAreExec(g1) && OnlyLinks(g1, a, |g|, Attach(g, a, tag, kind))
  {
    var n, g1 := |g|, g + [New(kind)];
    assert BranchesAreExec(g1) by {
      forall i, j | 0 <= i < |g1| && 0 <= j < |g1| && IsBranch(g1, i, j) ensures g1[j].kind.Exec? {
        assert i < |g| && IsBranch(g, i, j);
      }
    }
    if g[a].kind.Condition? && g[a].kind.input == tag {
      BranchesOnlyLinked(g1, a, n);
      var g2 := BranchesLinked(g1, a, n);
      SameBranches(g1, g2);
      LinkedOnlyLinks(g2, a, n);
    } else {
      LinkedOnlyLinks(g1, a, n);
    }
  }

  /** Branches are those of the graph before, if only `next` pointers differ. */
  lemma SameBranches<V>(g: Graph<V>, g': Graph<V>)
    requires |g'| == |g| && BranchesAreExec(g)
    requires forall i :: 0 <= i < |g| ==> g'[i] == g[i].(next := g'[i].next)
    ensures BranchesAreExec(g')
    ensures forall i, j :: 0 <= i < |g| ==> IsBranch(g', i, j) == IsBranch(g, i, j)
  {
    forall i, j | 0 <= i < |g| ensures IsBranch(g', i, j) == IsBranch(g, i, j) {
    }
  }

  /** g' is g with the exits of `a` linked to the first of some new stages. */
  ghost predicate Extends<V>(g: Graph<V>, a: nat, g': Graph<V>)
    requires a < |g|
  {
    && |g| < |g'|
    && forall i :: 0 <= i < |g| ==> g'[i] == if i == a || IsBranch(g, a, i) then g[i].(next := Some(|g|)) else g[i]
  }

  /** The stages of g are still there, and only the pointers of the exits of `a` may differ. */
  ghost predicate Keeps<V>(g: Graph<V>, a: nat, g': Graph<V>)
    requires a < |g|
  {
    && |g| <= |g'|
    && (forall i :: 0 <= i < |g| ==> g'[i] == g[i].(next := g'[i].next))
    && (forall i :: 0 <= i < |g| && i != a && !IsBranch(g, a, i) ==> g'[i] == g[i])
  }

  /** The state of the graph after one script element, seen from before it. */
  lemma AttachIsReady<V>(g: Graph<V>, a: nat, tag: Tag, kind: Kind<V>)
    requires Ready(g, a) && !kind.Condition?
    ensures var g' := Attach(g, a, tag, kind);
            Ready(g', |g|) && g'[|g|] == New(kind) && Extends(g, a, g')
  {
    AttachOnlyLinks(g, a, tag, kind);
    SameBranches(g + [New(kind)], Attach(g, a, tag, kind));
  }

  lemma WithConditionIsExec<V>(g: Graph<V>, tag: Tag, output: Tag, pred: V -> bool, onTrue: Step<V>)
    requires Forward(g) && BranchesAreExec(g)
    ensures BranchesAreExec(WithCondition(g, tag, output, pred, onTrue))
  {
    var g1 := WithCondition(g, tag, output, pred, onTrue);
    forall i, j | 0 <= i < |g1| && 0 <= j < |g1| && IsBranch(g1, i, j) ensures g1[j].kind.Exec? {
      if i < |g| {
        assert IsBranch(g, i, j);
      }
    }
  }

  lemma AttachIfNodes<V>(g: Graph<V>, a: nat, tag: Tag, output: Tag, pred: V -> bool, onTrue: Step<V>)
    requires Ready(g, a)
    ensures var n := |g|;
            var g' := AttachIf(g, a, tag, output, pred, onTrue);
            g'[n] == New(Condition(tag, pred)).(trueNext := Some(n + 1)) && g'[n + 1] == New(Exec(tag, output, onTrue))
  {
    WithConditionIsExec(g, tag, output, pred, onTrue);
    LinkedOnlyLinks(WithCondition(g, tag, output, pred, onTrue), a, |g|);
  }

  lemma AttachIfOnlyLinks<V>(g: Graph<V>, a: nat, tag: Tag, output: Tag, pred: V -> bool, onTrue: Step<V>)
    requires Ready(g, a)
    ensures var g' := AttachIf(g, a, tag, output, pred, onTrue); BranchesAreExec(g') && Extends(g, a, g')
  {
    var g1 := WithCondition(g, tag, output, pred, onTrue);
    WithConditionIsExec(g, tag, output, pred, onTrue);
    LinkedOnlyLinks(g1, a, |g|);
    SameBranches(g1, AttachIf(g, a, tag, output, pred, onTrue));
  }

  lemma AttachIfElseIsReady<V>(
      g: Graph<V>, a: nat, tag: Tag, output: Tag, pred: V -> bool, onTrue: Step<V>, onFalse: Step<V>)
    requires Ready(g, a)
    ensures var n := |g|;
            var g' := AttachElse(AttachIf(g, a, tag, output, pred, onTrue), n, tag, output, onFalse);
            && Ready(g', n)
            && g'[n] == Node(Condition(tag, pred), None, Some(n + 1), Some(n + 2))
            && g'[n + 1] == New(Exec(tag, output, onTrue)) && g'[n + 2] == New(Exec(tag, output, onFalse))
            && Extends(g, a, g')
  {
    AttachIfNodes(g, a, tag, output, pred, onTrue);
    AttachIfOnlyLinks(g, a, tag, output, pred, onTrue);
    var n := |g|;
    var g1 := AttachIf(g, a, tag, output, pred, onTrue);
    var g' := AttachElse(g1, n, tag, output, onFalse);
    assert BranchesAreExec(g') by {
      forall i, j | 0 <= i < |g'| && 0 <= j < |g'| && IsBranch(g', i, j) ensures g'[j].kind.Exec? {
        if i != n {
          assert IsBranch(g1, i, j);
        }
      }
    }
  }

  lemma KeepsThrough<V>(g: Graph<V>, a: nat, g1: Graph<V>, g': Graph<V>)
    requires a < |g| && Forward(g) && Forward(g1) && Extends(g, a, g1) && Keeps(g1, |g|, g')
    ensures Keeps(g, a, g')
    ensures forall i :: 0 <= i < |g| && IsExit(g, a, i) ==> g'[i].next == Some(|g|)
  {
    forall i | 0 <= i < |g| ensures g'[i] == g1[i] {
      assert !IsBranch(g1, |g|, i);
    }
  }

  /** What later elements leave alone: everything but the pointers of the exits. */
  lemma {:induction false} CompileKeepsRest<V>(g: Graph<V>, a: nat, tag: Tag, s: Script<V>)
    requires Ready(g, a)
    ensures var g' := Compile(g, a, tag, s);
            && Keeps(g, a, g')
            && (!s.Done? ==> forall i :: 0 <= i < |g| && IsExit(g, a, i) ==> g'[i].next == Some(|g|))
    decreases s, 0
  {
    var g' := Compile(g, a, tag, s);
    match s
    case Done =>
    case Then(output, step, rest) =>
      AttachKeepsRest(g, a, tag, Exec(tag, output, step), output, rest);
    case Reduce(output, work, rest) =>
      AttachKeepsRest(g, a, tag, MapReduce(tag, output, work), output, rest);
    case ThenIfElse(output, pred, onTrue, onFalse, rest) =>
      AttachIfElseIsReady(g, a, tag, output, pred, onTrue, onFalse);
      var g1 := AttachElse(AttachIf(g, a, tag, output, pred, onTrue), |g|, tag, output, onFalse);
      CompileKeepsRest(g1, |g|, output, rest);
      KeepsThrough(g, a, g1, g');
    case ThenIfOnly(output, pred, onTrue) =>
      AttachIfOnlyLinks(g, a, tag, output, pred, onTrue);
  }

  lemma {:induction false} AttachKeepsRest<V>(g: Graph<V>, a: nat, tag: Tag, kind: Kind<V>, output: Tag, rest: Script<V>)
    requires Ready(g, a) && !kind.Condition?
    ensures var g' := Compile(Attach(g, a, tag, kind), |g|, output, rest);
            Keeps(g, a, g') && forall i :: 0 <= i < |g| && IsExit(g, a, i) ==> g'[i].next == Some(|g|)
    decreases rest, 1
  {
    AttachIsReady(g, a, tag, kind);
    var g1 := Attach(g, a, tag, kind);
    CompileKeepsRest(g1, |g|, output, rest);
    KeepsThrough(g, a, g1, Compile(g1, |g|, output, rest));
  }

  /** The result of an exit of the attached stage goes through the rest of the script. */
  lemma {:induction false} CompiledRunsScript<V>(g: Graph<V>, a: nat, tag: Tag, s: Script<V>, e: nat, o: AnyOutcome<V>)
    requires Ready(g, a) && e < |g| && IsExit(g, a, e) && g[e].next.None?
    ensures OnStageResult(Compile(g, a, tag, s), e, o) == Meaning(s, tag, o, |g|)
    decreases s, 0
  {
    CompileKeepsRest(g, a, tag, s);
    if IsSuccess(o) {
      match s
      case Done =>
      case Then(output, step, rest) =>
        StageRunsScript(g, a, tag, Exec(tag, output, step), rest, o);
      case Reduce(output, work, rest) =>
        StageRunsScript(g, a, tag, MapReduce(tag, output, work), rest, o);
      case ThenIfElse(output, pred, onTrue, onFalse, rest) =>
        ConditionRunsScript(g, a, tag, s, o);
      case ThenIfOnly(output, pred, onTrue) =>
        AttachIfNodes(g, a, tag, output, pred, onTrue);
        OpenConditionRuns(AttachIf(g, a, tag, output, pred, onTrue), |g|, tag, output, pred, onTrue, o);
    }
  }

  /** A condition that was never given its false branch. */
  lemma OpenConditionRuns<V>(
      g: Graph<V>, n: nat, tag: Tag, output: Tag, pred: V -> bool, onTrue: Step<V>, o: AnyOutcome<V>)
    requires Forward(g) && n + 1 < |g| && IsSuccess(o)
    requires g[n] == New(Condition(tag, pred)).(trueNext := Some(n + 1)) && g[n + 1] == New(Exec(tag, output, onTrue))
    ensures StartWith(g, n, o) == Meaning(ThenIfOnly(output, pred, onTrue), tag, o, n)
  {
    if Casts(o, tag) && pred(o.result.value) {
      assert StartWith(g, n + 1, o) == Execution([n + 1], onTrue(o.result.value));
    }
  }

  /** A freshly attached exec or mapReduce stage, started on a successful outcome. */
  lemma {:induction false} StageRunsScript<V>(
      g: Graph<V>, a: nat, tag: Tag, kind: Kind<V>, rest: Script<V>, o: AnyOutcome<V>)
    requires Ready(g, a) && IsSuccess(o)
    requires (kind.Exec? || kind.MapReduce?) && kind.input == tag
    ensures var n := |g|;
            StartWith(Compile(Attach(g, a, tag, kind), n, kind.output, rest), n, o) ==
            if Casts(o, tag)
            then var e := Meaning(rest, kind.output, if kind.Exec? then kind.step(o.result.value) else kind.work(o.result.value), n + 1);
                 e.(started := [n] + e.started)
            else Execution([n], ClientError(kind.output, if kind.Exec? then EXEC_MISMATCH else REDUCE_MISMATCH))
    decreases rest, 1
  {
    AttachIsReady(g, a, tag, kind);
    var g1, n := Attach(g, a, tag, kind), |g|;
    CompileKeepsRest(g1, n, kind.output, rest);
    if Casts(o, tag) {
      var v := o.result.value;
      CompiledRunsScript(g1, n, kind.output, rest, n, if kind.Exec? then kind.step(v) else kind.work(v));
    }
  }

  /** A condition passes a good outcome to a branch, and the branch's result goes on from there. */
  lemma BranchGoesOn<V>(g: Graph<V>, n: nat, b: nat, o: AnyOutcome<V>, r: AnyOutcome<V>)
    requires Forward(g) && n < |g| && b < |g| && Chosen(g[n], o) == Some(b)
    requires Chosen(g[b], o) == None && Reported(g[b].kind, o) == r
    ensures var e := OnStageResult(g, b, r); StartWith(g, n, o) == Execution([n, b] + e.started, e.final)
  {
    var e := OnStageResult(g, b, r);
    assert StartWith(g, b, o) == Execution([b] + e.started, e.final);
    assert [n] + ([b] + e.started) == [n, b] + e.started;
  }

  /** A freshly attached condition with both branches: they rejoin in what follows. */
  lemma {:induction false} ConditionRunsScript<V>(g: Graph<V>, a: nat, tag: Tag, s: Script<V>, o: AnyOutcome<V>)
    requires Ready(g, a) && IsSuccess(o) && s.ThenIfElse?
    ensures StartWith(Compile(g, a, tag, s), |g|, o) == Meaning(s, tag, o, |g|)
    decreases s.rest, 1
  {
    var n := |g|;
    AttachIfElseIsReady(g, a, tag, s.output, s.pred, s.onTrue, s.onFalse);
    var g1 := AttachElse(AttachIf(g, a, tag, s.output, s.pred, s.onTrue), n, tag, s.output, s.onFalse);
    var g' := Compile(g1, n, s.output, s.rest);
    CompileKeepsRest(g1, n, s.output, s.rest);
    if Casts(o, tag) {
      var v := o.result.value;
      if s.pred(v) {
        CompiledRunsScript(g1, n, s.output, s.rest, n + 1, s.onTrue(v));
        BranchGoesOn(g', n, n + 1, o, s.onTrue(v));
      } else {
        CompiledRunsScript(g1, n, s.output, s.rest, n + 2, s.onFalse(v));
        BranchGoesOn(g', n, n + 2, o, s.onFalse(v));
      }
    }
  }

  // ----- the theorems -----

  /** Builder correctness: for every script, of any length and with conditions anywhere, the
      built graph, run from its root, starts the stages that the script says, and hands the
      final callback what the script means. */
  lemma BuilderIsCorrect<V>(base: () -> AnyOutcome<V>, tag: Tag, s: Script<V>)
    ensures StartWith(Build(base, tag, s), 0, Nothing) ==
            Execution([0] + Trace(s, tag, base(), 1), Denote(s, tag, base()))
  {
    var g := [New(Start(base))];
    CompileKeepsRest(g, 0, tag, s);
    CompiledRunsScript(g, 0, tag, s, 0, base());
  }

  /** What the client's callback gets. */
  lemma RunMeansScript<V>(base: () -> AnyOutcome<V>, tag: Tag, s: Script<V>, final: Tag)
    ensures Run(base, tag, s, final) == Finalized(Denote(s, tag, base()), final)
  {
    BuilderIsCorrect(base, tag, s);
  }

  /** The stage is started and what follows is `e`. */
  function Begun<V>(i: nat, e: Execution<V>): Execution<V> {
    Execution([i] + e.started, e.final)
  }

  /** The stage is started and the run stops there with an error of the coordinator. */
  function StoppedAt<V>(i: nat, tag: Tag, message: string): Execution<V> {
    Execution([i], Outcome(tag, Err(Error(true, 0, message))))
  }

  /** A step runs exactly on a success of the very type it was chained for; a failure of that
      type is passed on unchanged and everything else is a mismatch: each of the two stops. */
  lemma StepRunsOnItsTypeOnly<V>(g: Graph<V>, i: nat, prev: AnyOutcome<V>)
    requires Forward(g) && i < |g| && (g[i].kind.Exec? || g[i].kind.MapReduce?)
    ensures var kind := g[i].kind;
            StartWith(g, i, prev) ==
            match prev
            case Nothing => StoppedAt(i, kind.output, if kind.Exec? then "ExecStage input type mismatch" else "MapReduceStage input type mismatch")
            case Outcome(tag, result) =>
              if tag != kind.input then
                StoppedAt(i, kind.output, if kind.Exec? then "ExecStage input type mismatch" else "MapReduceStage input type mismatch")
              else
                match result
                case Err(_) => Execution([i], prev)
                case Ok(v) => Begun(i, OnStageResult(g, i, if kind.Exec? then kind.step(v) else kind.work(v)))
  {
  }

  lemma ConditionBranchesOnItsTypeOnly<V>(g: Graph<V>, i: nat, prev: AnyOutcome<V>)
    requires Forward(g) && i < |g| && g[i].kind.Condition?
    ensures var kind := g[i].kind;
            StartWith(g, i, prev) ==
            match prev
            case Nothing => StoppedAt(i, kind.input, "ConditionStage input type mismatch")
            case Outcome(tag, result) =>
              if tag != kind.input then StoppedAt(i, kind.input, "ConditionStage input type mismatch")
              else
                match result
                case Err(_) => Execution([i], prev)
                case Ok(v) =>
                  var branch := if kind.pred(v) then g[i].trueNext else g[i].falseNext;
                  if branch.None? then StoppedAt(i, kind.input, "ConditionStage branch not set")
                  else Begun(i, StartWith(g, branch.value, prev))
  {
  }

  /** A result goes on to the next stage exactly if it is a success and there is one. */
  lemma SuccessGoesOn<V>(g: Graph<V>, i: nat, o: AnyOutcome<V>)
    requires Forward(g) && i < |g|
    ensures OnStageResult(g, i, o) ==
            match o
            case Nothing => Execution([], o)
            case Outcome(_, Err(_)) => Execution([], o)
            case Outcome(_, Ok(_)) => if g[i].next.None? then Execution([], o) else StartWith(g, g[i].next.value, o)
  {
  }

  /** The caller gets an outcome of its own type unchanged, and otherwise an error that says
      whether there was none, a failure, or a success of another type. */
  lemma CallerGetsItsType<V>(o: AnyOutcome<V>, tag: Tag)
    ensures Finalized(o, tag) ==
            match o
            case Nothing => Err(Error(true, 0, "final outcome missing"))
            case Outcome(t, r) =>
              if t == tag then r
              else Err(Error(true, 0, if r.Err? then "pipeline stopped on error" else "pipeline final type mismatch"))
  {
  }

  predicate Increasing(s: seq<nat>) {
    forall i, j :: 0 <= i < j < |s| ==> s[i] < s[j]
  }

  /** Stages are started in the order of their creation, so none is started twice. */
  lemma {:induction false} StagesStartInOrder<V>(g: Graph<V>, i: nat, prev: AnyOutcome<V>)
    requires Forward(g) && i < |g|
    ensures var e := StartWith(g, i, prev);
            e.started != [] && e.started[0] == i && Increasing(e.started)
    ensures var e := StartWith(g, i, prev);
            forall k :: 0 <= k < |e.started| ==> i <= e.started[k] < |g|
    decreases |g| - i, 1
  {
    var branch := Chosen(g[i], prev);
    if branch.Some? {
      StagesStartInOrder(g, branch.value, prev);
    } else {
      ResultsStartLater(g, i, Reported(g[i].kind, prev));
    }
  }

  lemma {:induction false} ResultsStartLater<V>(g: Graph<V>, i: nat, o: AnyOutcome<V>)
    requires Forward(g) && i < |g|
    ensures var e := OnStageResult(g, i, o);
            Increasing(e.started) && forall k :: 0 <= k < |e.started| ==> i < e.started[k] < |g|
    decreases |g| - i, 0
  {
    if IsSuccess(o) && g[i].next.Some? {
      StagesStartInOrder(g, g[i].next.value, o);
    }
  }
}
