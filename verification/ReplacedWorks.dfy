/** A graph, or a script, with the work of its mapReduce stages replaced: compiling and
    replacing commute, and what a stage does is no matter to the stages after it. */
module ReplacedWorks {
  import opened Wrappers
  import opened StageGraph

  /** The work of each stage, by number. */
  type Works<!V> = nat -> Step<V>

  function KindWith<V>(kind: Kind<V>, work: Step<V>): Kind<V> {
    if kind.MapReduce? then MapReduce(kind.input, kind.output, work) else kind
  }

  function WithWorks<V>(g: Graph<V>, works: Works<V>): (g': Graph<V>)
    ensures |g'| == |g|
    ensures forall i :: 0 <= i < |g| ==> g'[i] == g[i].(kind := KindWith(g[i].kind, works(i)))
    ensures Forward(g) ==> Forward(g')
  {
    seq(|g|, i requires 0 <= i < |g| => g[i].(kind := KindWith(g[i].kind, works(i))))
  }

  /** The stages of a script are numbered as they are created, from n. */
  function ScriptWith<V>(s: Script<V>, n: nat, works: Works<V>): Script<V> {
    match s
    case Done => s
    case Then(output, step, rest) => Then(output, step, ScriptWith(rest, n + 1, works))
    case Reduce(output, work, rest) => Reduce(output, works(n), ScriptWith(rest, n + 1, works))
    case ThenIfElse(output, pred, onTrue, onFalse, rest) =>
      ThenIfElse(output, pred, onTrue, onFalse, ScriptWith(rest, n + 3, works))
    case ThenIfOnly(_, _, _) => s
  }

  // ----- the builder does not look at the work -----

  lemma {:induction false} LinkedCommutes<V>(g: Graph<V>, i: nat, n: nat, works: Works<V>)
    requires Forward(g) && i < n < |g| && BranchesBelow(g, n)
    ensures BranchesBelow(WithWorks(g, works), n)
    ensures Linked(WithWorks(g, works), i, n) == WithWorks(Linked(g, i, n), works)
    decreases |g| - i, 1
  {
    var g1 := g[i := g[i].(next := Some(n))];
    assert WithWorks(g, works)[i := WithWorks(g, works)[i].(next := Some(n))] == WithWorks(g1, works);
    if g[i].kind.Condition? {
      BranchesCommute(g1, i, n, works);
    }
  }

  lemma {:induction false} BranchesCommute<V>(g: Graph<V>, i: nat, n: nat, works: Works<V>)
    requires Forward(g) && i < n < |g| && g[i].kind.Condition? && BranchesBelow(g, n)
    ensures BranchesBelow(WithWorks(g, works), n)
    ensures BranchesLinked(WithWorks(g, works), i, n) == WithWorks(BranchesLinked(g, i, n), works)
    decreases |g| - i, 0
  {
    var g1 := if g[i].trueNext.Some? then Linked(g, g[i].trueNext.value, n) else g;
    if g[i].trueNext.Some? {
      LinkedCommutes(g, g[i].trueNext.value, n, works);
    }
    if g[i].falseNext.Some? {
      LinkedCommutes(g1, g[i].falseNext.value, n, works);
    }
  }

  lemma AppendCommutes<V>(g: Graph<V>, node: Node<V>, works: Works<V>)
    ensures WithWorks(g + [node], works) == WithWorks(g, works) + [node.(kind := KindWith(node.kind, works(|g|)))]
  {
  }

  lemma AttachCommutes<V>(g: Graph<V>, a: nat, tag: Tag, kind: Kind<V>, works: Works<V>)
    requires Forward(g) && a < |g|
    ensures Attach(WithWorks(g, works), a, tag, KindWith(kind, works(|g|))) == WithWorks(Attach(g, a, tag, kind), works)
  {
    var n, g1 := |g|, g + [New(kind)];
    AppendCommutes(g, New(kind), works);
    if g[a].kind.Condition? && g[a].kind.input == tag {
      BranchesCommute(g1, a, n, works);
      LinkedCommutes(BranchesLinked(g1, a, n), a, n, works);
    } else {
      LinkedCommutes(g1, a, n, works);
    }
  }

  lemma AttachIfCommutes<V>(
      g: Graph<V>, a: nat, tag: Tag, output: Tag, pred: V -> bool, onTrue: Step<V>, works: Works<V>)
    requires Forward(g) && a < |g|
    ensures AttachIf(WithWorks(g, works), a, tag, output, pred, onTrue) ==
            WithWorks(AttachIf(g, a, tag, output, pred, onTrue), works)
  {
    var g1 := WithCondition(g, tag, output, pred, onTrue);
    assert WithWorks(g1, works) == WithCondition(WithWorks(g, works), tag, output, pred, onTrue);
    LinkedCommutes(g1, a, |g|, works);
  }

  lemma AttachElseCommutes<V>(
      g: Graph<V>, cond: nat, tag: Tag, output: Tag, onFalse: Step<V>, works: Works<V>)
    requires Forward(g) && cond < |g|
    ensures AttachElse(WithWorks(g, works), cond, tag, output, onFalse) ==
            WithWorks(AttachElse(g, cond, tag, output, onFalse), works)
  {
  }

  /** What compiling the first element of a script leaves to do, and the same for the script with
      the works replaced. */
  ghost predicate GoesOnWith<V>(
      g: Graph<V>, gw: Graph<V>, a: nat, tag: Tag, s: Script<V>, works: Works<V>,
      g1: Graph<V>, gw1: Graph<V>, output: Tag, rest: Script<V>)
    requires Forward(g) && a < |g| && Forward(gw) && |gw| == |g|
  {
    && Forward(g1) && Forward(gw1) && |g| < |g1| && gw1 == WithWorks(g1, works)
    && Compile(g, a, tag, s) == Compile(g1, |g|, output, rest)
    && Compile(gw, a, tag, ScriptWith(s, |g|, works)) == Compile(gw1, |g|, output, ScriptWith(rest, |g1|, works))
  }

  lemma CompileOne<V>(g: Graph<V>, a: nat, tag: Tag, s: Script<V>)
    requires Forward(g) && a < |g| && (s.Then? || s.Reduce?)
    ensures var kind := if s.Then? then Exec(tag, s.output, s.step) else MapReduce(tag, s.output, s.work);
            Compile(g, a, tag, s) == Compile(Attach(g, a, tag, kind), |g|, s.output, s.rest)
  {
  }

  lemma OneGoesOn<V>(g: Graph<V>, a: nat, tag: Tag, s: Script<V>, works: Works<V>) returns (g1: Graph<V>)
    requires Forward(g) && a < |g| && (s.Then? || s.Reduce?)
    ensures GoesOnWith(g, WithWorks(g, works), a, tag, s, works, g1, WithWorks(g1, works), s.output, s.rest)
  {
    var kind := if s.Then? then Exec(tag, s.output, s.step) else MapReduce(tag, s.output, s.work);
    g1 := Attach(g, a, tag, kind);
    AttachCommutes(g, a, tag, kind, works);
    CompileOne(g, a, tag, s);
    CompileOne(WithWorks(g, works), a, tag, ScriptWith(s, |g|, works));
  }

  lemma ConditionGoesOn<V>(g: Graph<V>, a: nat, tag: Tag, s: Script<V>, works: Works<V>) returns (g1: Graph<V>)
    requires Forward(g) && a < |g| && s.ThenIfElse?
    ensures GoesOnWith(g, WithWorks(g, works), a, tag, s, works, g1, WithWorks(g1, works), s.output, s.rest)
  {
    var g0 := AttachIf(g, a, tag, s.output, s.pred, s.onTrue);
    AttachIfCommutes(g, a, tag, s.output, s.pred, s.onTrue, works);
    AttachElseCommutes(g0, |g|, tag, s.output, s.onFalse, works);
    g1 := AttachElse(g0, |g|, tag, s.output, s.onFalse);
  }

  lemma FirstGoesOn<V>(g: Graph<V>, a: nat, tag: Tag, s: Script<V>, works: Works<V>)
      returns (g1: Graph<V>, output: Tag, rest: Script<V>)
    requires Forward(g) && a < |g| && !s.Done? && !s.ThenIfOnly?
    ensures GoesOnWith(g, WithWorks(g, works), a, tag, s, works, g1, WithWorks(g1, works), output, rest) && rest < s
  {
    output, rest := s.output, s.rest;
    if s.Then? || s.Reduce? {
      g1 := OneGoesOn(g, a, tag, s, works);
    } else {
      g1 := ConditionGoesOn(g, a, tag, s, works);
    }
  }

  /** Compiling a script and then replacing the works is compiling the script with the works
      replaced. */
  lemma {:induction false} CompileCommutes<V>(g: Graph<V>, a: nat, tag: Tag, s: Script<V>, works: Works<V>)
    requires Forward(g) && a < |g|
    ensures Compile(WithWorks(g, works), a, tag, ScriptWith(s, |g|, works)) == WithWorks(Compile(g, a, tag, s), works)
    decreases s
  {
    if s.ThenIfOnly? {
      AttachIfCommutes(g, a, tag, s.output, s.pred, s.onTrue, works);
    } else if !s.Done? {
      var g1, output, rest := FirstGoesOn(g, a, tag, s, works);
      CompileCommutes(g1, |g|, output, rest, works);
    }
  }

  lemma BuildCommutes<V>(base: () -> AnyOutcome<V>, tag: Tag, s: Script<V>, works: Works<V>)
    ensures Build(base, tag, ScriptWith(s, 1, works)) == WithWorks(Build(base, tag, s), works)
  {
    var g: Graph<V> := [New(Start(base))];
    assert WithWorks(g, works) == g;
    CompileCommutes(g, 0, tag, s, works);
  }

  // ----- a run does not look back -----

  ghost predicate SameFrom<V>(g: Graph<V>, g': Graph<V>, j: nat) {
    |g| == |g'| && forall k :: j <= k < |g| ==> g[k] == g'[k]
  }

  lemma {:induction false} StartLooksAhead<V>(g: Graph<V>, g': Graph<V>, i: nat, prev: AnyOutcome<V>)
    requires Forward(g) && Forward(g') && i < |g| && SameFrom(g, g', i)
    ensures StartWith(g, i, prev) == StartWith(g', i, prev)
    decreases |g| - i, 1
  {
    var branch := Chosen(g[i], prev);
    if branch.Some? {
      StartLooksAhead(g, g', branch.value, prev);
    } else {
      AnswerLooksAhead(g, g', i, Reported(g[i].kind, prev));
    }
  }

  lemma {:induction false} AnswerLooksAhead<V>(g: Graph<V>, g': Graph<V>, i: nat, o: AnyOutcome<V>)
    requires Forward(g) && Forward(g') && i < |g| && |g| == |g'| && g[i].next == g'[i].next && SameFrom(g, g', i + 1)
    ensures OnStageResult(g, i, o) == OnStageResult(g', i, o)
    decreases |g| - i, 0
  {
    if IsSuccess(o) && g[i].next.Some? {
      StartLooksAhead(g, g', g[i].next.value, o);
    }
  }
}
