/** The coordinator as the objects it is made of: stages that point at each other, chains that
    set the pointers, and a run that follows them.  Every method is tied to the graph that
    the stages stand for. */
module Coordinator {
  import opened Wrappers
  import opened StageGraph

  class Stage<V(!new)> {
    const kind: Kind<V>
    ghost const index: nat   // place in the coordinator's list, which is in creation order
    var next: Stage?<V>
    var trueNext: Stage?<V>
    var falseNext: Stage?<V>

    constructor (kind: Kind<V>, ghost index: nat)
      ensures this.kind == kind && this.index == index
      ensures next == null && trueNext == null && falseNext == null
    {
      this.kind := kind;
      this.index := index;
      next, trueNext, falseNext := null, null, null;
    }

    ghost function View(): Node<V>
      reads this
    {
      Node(kind, Ref(next), Ref(trueNext), Ref(falseNext))
    }

    /** What every stage does. */
    method SetOwnNext(n: Stage<V>, ghost all: seq<Stage<V>>, ghost g: Graph<V>)
      requires Represents(all, g) && this in all && n in all
      modifies this`next
      ensures Represents(all, g[index := g[index].(next := Some(n.index))])
      ensures next == n
    {
      assert Placed(this, all, g) && Placed(n, all, g);
      next := n;
      ghost var g' := g[index := g[index].(next := Some(n.index))];
      forall s | s in all ensures Placed(s, all, g') {
        assert old(Placed(s, all, g));
      }
    }

    /** For a condition this also reaches its branches. */
    method SetNext(n: Stage<V>, ghost all: seq<Stage<V>>, ghost g: Graph<V>) returns (ghost g': Graph<V>)
      requires Represents(all, g) && Forward(g)
      requires this in all && n in all && index < n.index
      requires BranchesBelow(g, n.index)
      modifies all
      ensures g' == Linked(g, index, n.index) && Represents(all, g')
      decreases |all| - index, 1
    {
      assert Placed(this, all, g) && Placed(n, all, g);
      SetOwnNext(n, all, g);
      g' := g[index := g[index].(next := Some(n.index))];
      if kind.Condition? {
        assert Placed(this, all, g');
        g' := SetBranchesNext(n, all, g');
      }
    }

    method SetBranchesNext(n: Stage<V>, ghost all: seq<Stage<V>>, ghost g: Graph<V>) returns (ghost g': Graph<V>)
      requires Represents(all, g) && Forward(g)
      requires this in all && n in all && index < n.index && kind.Condition? && g[index].kind.Condition?
      requires BranchesBelow(g, n.index)
      modifies all
      ensures g' == BranchesLinked(g, index, n.index) && Represents(all, g')
      decreases |all| - index, 0
    {
      assert Placed(this, all, g) && Placed(n, all, g);
      g' := g;
      if trueNext != null {
        assert Placed(trueNext, all, g');
        g' := trueNext.SetNext(n, all, g');
      }
      assert Placed(this, all, g');
      if falseNext != null {
        assert Placed(falseNext, all, g');
        g' := falseNext.SetNext(n, all, g');
      }
    }

    /** Starts the stage on the outcome of the previous one. */
    method StartWith(prev: AnyOutcome<V>, coord: PiplineCoordinator<V>)
      requires coord.Running() && this in coord.stages
      modifies coord`delivered, coord`released, coord`started
      ensures coord.Finished(old(coord.delivered), old(coord.started), StageGraph.StartWith(coord.graph, index, prev))
      decreases |coord.stages| - index, 2
    {
      match kind
      case Start(_) => StartBase(prev, coord);
      case Exec(_, _, _) => StartExec(prev, coord);
      case MapReduce(_, _, _) => StartMapReduce(prev, coord);
      case Condition(_, _) => StartCondition(prev, coord);
    }

    method StartBase(prev: AnyOutcome<V>, coord: PiplineCoordinator<V>)
      requires coord.Running() && this in coord.stages && kind.Start?
      modifies coord`delivered, coord`released, coord`started
      ensures coord.Finished(old(coord.delivered), old(coord.started), StageGraph.StartWith(coord.graph, index, prev))
      decreases |coord.stages| - index, 1
    {
      coord.started := coord.started + [index];
      assert Placed(this, coord.stages, coord.graph);
      var report := kind.base();
      assert report == Reported(coord.graph[index].kind, prev) && Chosen(coord.graph[index], prev).None?;
      coord.OnStageResult(this, report);
    }

    method StartExec(prev: AnyOutcome<V>, coord: PiplineCoordinator<V>)
      requires coord.Running() && this in coord.stages && kind.Exec?
      modifies coord`delivered, coord`released, coord`started
      ensures coord.Finished(old(coord.delivered), old(coord.started), StageGraph.StartWith(coord.graph, index, prev))
      decreases |coord.stages| - index, 1
    {
      coord.started := coord.started + [index];
      var report;
      if !Casts(prev, kind.input) {
        report := ClientError(kind.output, EXEC_MISMATCH);
      } else if !IsSuccess(prev) {
        report := prev;
      } else {
        report := kind.step(prev.result.value);
      }
      assert Placed(this, coord.stages, coord.graph);
      assert report == Reported(coord.graph[index].kind, prev) && Chosen(coord.graph[index], prev).None?;
      coord.OnStageResult(this, report);
    }

    method StartMapReduce(prev: AnyOutcome<V>, coord: PiplineCoordinator<V>)
      requires coord.Running() && this in coord.stages && kind.MapReduce?
      modifies coord`delivered, coord`released, coord`started
      ensures coord.Finished(old(coord.delivered), old(coord.started), StageGraph.StartWith(coord.graph, index, prev))
      decreases |coord.stages| - index, 1
    {
      coord.started := coord.started + [index];
      var report;
      if !Casts(prev, kind.input) {
        report := ClientError(kind.output, REDUCE_MISMATCH);
      } else if !IsSuccess(prev) {
        report := prev;
      } else {
        report := kind.work(prev.result.value);
      }
      assert Placed(this, coord.stages, coord.graph);
      assert report == Reported(coord.graph[index].kind, prev) && Chosen(coord.graph[index], prev).None?;
      coord.OnStageResult(this, report);
    }

    method StartCondition(prev: AnyOutcome<V>, coord: PiplineCoordinator<V>)
      requires coord.Running() && this in coord.stages && kind.Condition?
      modifies coord`delivered, coord`released, coord`started
      ensures coord.Finished(old(coord.delivered), old(coord.started), StageGraph.StartWith(coord.graph, index, prev))
      decreases |coord.stages| - index, 1
    {
      coord.started := coord.started + [index];
      assert Placed(this, coord.stages, coord.graph);
      if !Casts(prev, kind.input) {
        coord.OnStageResult(this, ClientError(kind.input, CONDITION_MISMATCH));
      } else if !IsSuccess(prev) {
        coord.OnStageResult(this, prev);
      } else {
        var branch := if kind.pred(prev.result.value) then trueNext else falseNext;
        if branch != null {
          branch.StartWith(prev, coord);
        } else {
          coord.OnStageResult(this, ClientError(kind.input, BRANCH_NOT_SET));
        }
      }
    }
  }

  ghost function Ref<V(!new)>(p: Stage?<V>): Option<nat> {
    if p == null then None else Some(p.index)
  }

  /** A stage at its place in the list, standing for its node, with pointers into the list. */
  ghost predicate Placed<V(!new)>(s: Stage<V>, all: seq<Stage<V>>, g: Graph<V>)
    reads s
  {
    && s.index < |all| == |g| && all[s.index] == s && s.View() == g[s.index]
    && (s.next != null ==> s.next in all)
    && (s.trueNext != null ==> s.trueNext in all)
    && (s.falseNext != null ==> s.falseNext in all)
  }

  /** The objects stand for the graph: same kinds, and pointers for indices. */
  ghost predicate Represents<V(!new)>(all: seq<Stage<V>>, g: Graph<V>)
    reads all
  {
    && |all| == |g|
    && (forall i :: 0 <= i < |all| ==> all[i].index == i)
    && (forall s {:trigger Placed(s, all, g)} :: s in all ==> Placed(s, all, g))
  }

  class PiplineCoordinator<V(!new)> {
    var stages: seq<Stage<V>>
    var root: Stage?<V>
    var final: Option<Tag>           // the type the final callback wants, once run is called
    var autoRelease: bool
    var released: bool               // deleted: nothing may touch it any more
    var delivered: seq<Result<V>>    // what the final callback was called with
    ghost var started: seq<nat>
    ghost var graph: Graph<V>

    ghost predicate Valid()
      reads this, stages
    {
      Represents(stages, graph) && Forward(graph) && !released && (root != null ==> root in stages)
    }

    ghost predicate Running()
      reads this, stages
    {
      Valid() && final.Some?
    }

    /** The state after one execution: its stages were started, its outcome delivered once, and
        the coordinator released exactly if it was told to be. */
    ghost predicate Finished(before: seq<Result<V>>, startedBefore: seq<nat>, e: Execution<V>)
      reads this
    {
      && final.Some? && delivered == before + [Finalized(e.final, final.value)]
      && started == startedBefore + e.started
      && released == autoRelease
    }

    constructor (autoRelease: bool)
      ensures Valid() && graph == [] && root == null && final == None && this.autoRelease == autoRelease
      ensures delivered == [] && started == []
      ensures stages == []
    {
      stages, root, final, released := [], null, None, false;
      this.autoRelease := autoRelease;
      delivered, started, graph := [], [], [];
    }

    method Emplace(kind: Kind<V>) returns (s: Stage<V>)
      requires Valid()
      modifies this
      ensures Valid() && fresh(s) && stages == old(stages) + [s]
      ensures s.kind == kind && s.index == |old(graph)| && graph == old(graph) + [New(kind)]
      ensures root == old(root) && final == old(final) && autoRelease == old(autoRelease)
      ensures delivered == old(delivered) && started == old(started)
    {
      s := new Stage(kind, |graph|);
      stages := stages + [s];
      graph := graph + [New(kind)];
      forall t | t in stages ensures Placed(t, stages, graph) {
        assert t != s ==> old(Placed(t, stages, graph));
      }
    }

    method SetTrueNext(cond: Stage<V>, to: Stage<V>)
      requires Valid() && cond in stages && to in stages && cond.index < to.index
      modifies cond`trueNext, this`graph
      ensures Valid() && graph == old(graph)[cond.index := old(graph)[cond.index].(trueNext := Some(to.index))]
    {
      assert Placed(cond, stages, graph) && Placed(to, stages, graph);
      cond.trueNext := to;
      graph := graph[cond.index := graph[cond.index].(trueNext := Some(to.index))];
      forall s | s in stages ensures Placed(s, stages, graph) {
        assert old(Placed(s, stages, graph));
      }
    }

    method SetFalseNext(cond: Stage<V>, to: Stage<V>)
      requires Valid() && cond in stages && to in stages && cond.index < to.index
      modifies cond`falseNext, this`graph
      ensures Valid() && graph == old(graph)[cond.index := old(graph)[cond.index].(falseNext := Some(to.index))]
    {
      assert Placed(cond, stages, graph) && Placed(to, stages, graph);
      cond.falseNext := to;
      graph := graph[cond.index := graph[cond.index].(falseNext := Some(to.index))];
      forall s | s in stages ensures Placed(s, stages, graph) {
        assert old(Placed(s, stages, graph));
      }
    }

    /** The condition of a `thenIf`, with its true branch. */
    method EmplaceCondition(tag: Tag, output: Tag, pred: V -> bool, onTrue: Step<V>) returns (cond: Stage<V>, t: Stage<V>)
      requires Valid()
      modifies this
      ensures Valid() && fresh(cond) && fresh(t) && stages == old(stages) + [cond, t] && cond.index == |old(graph)|
      ensures graph == WithCondition(old(graph), tag, output, pred, onTrue)
      ensures root == old(root) && final == old(final) && autoRelease == old(autoRelease)
      ensures delivered == old(delivered) && started == old(started)
    {
      cond := Emplace(Condition(tag, pred));
      t := Emplace(Exec(tag, output, onTrue));
      SetTrueNext(cond, t);
    }

    /** `from->setNext(to)`, with the graph kept in step. */
    method Link(from: Stage<V>, to: Stage<V>)
      requires Valid() && from in stages && to in stages && from.index < to.index
      requires BranchesBelow(graph, to.index)
      modifies this`graph, stages
      ensures Valid() && graph == Linked(old(graph), from.index, to.index) && BranchesBelow(graph, to.index)
    {
      graph := from.SetNext(to, stages, graph);
    }

    method LinkBranches(cond: Stage<V>, to: Stage<V>)
      requires Valid() && cond in stages && to in stages && cond.index < to.index
      requires cond.kind.Condition? && BranchesBelow(graph, to.index)
      modifies this`graph, stages
      ensures Valid() && cond.kind == old(graph)[cond.index].kind
      ensures graph == BranchesLinked(old(graph), cond.index, to.index)
    {
      assert Placed(cond, stages, graph);
      if cond.trueNext != null {
        Link(cond.trueNext, to);
        assert Placed(cond, stages, graph);
      }
      if cond.falseNext != null {
        Link(cond.falseNext, to);
      }
    }

    method LinkExits(attach: Stage<V>, tag: Tag, to: Stage<V>)
      requires Valid() && attach in stages && to in stages && attach.index < to.index && BranchesBelow(graph, to.index)
      modifies this`graph, stages
      ensures Valid()
      ensures var g, a := old(graph), attach.index;
              graph == Linked(if g[a].kind.Condition? && g[a].kind.input == tag then BranchesLinked(g, a, to.index) else g,
                              a, to.index)
    {
      assert Placed(attach, stages, graph);
      if attach.kind.Condition? && attach.kind.input == tag {
        LinkBranches(attach, to);
      }
      Link(attach, to);
    }

    /** Creates a condition with its true branch and links a stage to it. */
    method AppendCondition(attach: Stage<V>, tag: Tag, output: Tag, pred: V -> bool, onTrue: Step<V>) returns (cond: Stage<V>)
      requires Valid() && attach in stages
      modifies this, stages
      ensures Valid() && fresh(cond) && cond in stages && cond.index == |old(graph)|
      ensures forall i :: 0 <= i < |stages| ==> stages[i] in old(stages) || fresh(stages[i])
      ensures graph == AttachIf(old(graph), attach.index, tag, output, pred, onTrue)
      ensures root == old(root) && final == old(final) && autoRelease == old(autoRelease)
      ensures delivered == old(delivered) && started == old(started)
    {
      var t;
      cond, t := EmplaceCondition(tag, output, pred, onTrue);
      Link(attach, cond);
    }

    /** `begin`: the first stage is the root. */
    method Begin(base: () -> AnyOutcome<V>, tag: Tag) returns (c: Chain<V>)
      requires Valid()
      modifies this
      ensures Valid() && c.Attached(this) && c.tag == tag && c.attach.index == |old(graph)|
      ensures fresh(c) && fresh(c.attach) && stages == old(stages) + [c.attach] && root == c.attach
      ensures graph == old(graph) + [New(Start(base))]
      ensures final == old(final) && autoRelease == old(autoRelease)
      ensures delivered == old(delivered) && started == old(started)
    {
      var s := Emplace(Start(base));
      root := s;
      c := new Chain(this, s, tag);
    }

    method Run(finalTag: Tag)
      requires Valid()
      modifies this`final, this`delivered, this`released, this`started
      ensures final == Some(finalTag)
      ensures root == null ==> Valid() && delivered == old(delivered) && started == old(started)
      ensures root != null ==> Finished(old(delivered), old(started), StageGraph.StartWith(graph, root.index, Nothing))
    {
      final := Some(finalTag);
      if root != null {
        root.StartWith(Nothing, this);
      }
    }

    /** The final callback, and then the end of the coordinator if it releases itself. */
    method Deliver(o: AnyOutcome<V>)
      requires Running()
      modifies this`delivered, this`released
      ensures Finished(old(delivered), old(started), Execution([], o))
    {
      delivered := delivered + [Finalized(o, final.value)];
      if autoRelease {
        released := true;
      }
    }

    method OnStageResult(stage: Stage<V>, o: AnyOutcome<V>)
      requires Valid() && stage in stages
      modifies this`delivered, this`released, this`started
      ensures final.None? ==> Valid() && delivered == old(delivered) && started == old(started)
      ensures final.Some? ==> Finished(old(delivered), old(started), StageGraph.OnStageResult(graph, stage.index, o))
      decreases |stages| - stage.index, 0
    {
      if final.None? {
        return;
      }
      assert Placed(stage, stages, graph);
      if !IsSuccess(o) || stage.next == null {
        Deliver(o);
      } else {
        assert Placed(stage.next, stages, graph);
        stage.next.StartWith(o, this);
      }
    }
  }

  /** One link of the fluent builder: where the next stage will be attached. */
  class Chain<V(!new)> {
    const coord: PiplineCoordinator<V>
    const attach: Stage<V>
    const tag: Tag

    constructor (coord: PiplineCoordinator<V>, attach: Stage<V>, tag: Tag)
      ensures this.coord == coord && this.attach == attach && this.tag == tag
    {
      this.coord, this.attach, this.tag := coord, attach, tag;
    }

    ghost predicate Attached(c: PiplineCoordinator<V>)
      reads c
    {
      coord == c && attach in c.stages
    }

    /** `then` and `mapReduce`. */
    method Append(kind: Kind<V>, output: Tag) returns (c: Chain<V>)
      requires coord.Valid() && Attached(coord)
      modifies coord, coord.stages
      ensures coord.Valid() && c.Attached(coord) && fresh(c) && c.tag == output
      ensures c.attach.index == |old(coord.graph)| && fresh(c.attach) && coord.stages == old(coord.stages) + [c.attach]
      ensures coord.graph == Attach(old(coord.graph), attach.index, tag, kind)
      ensures SameRun(coord.root, coord.final, coord.autoRelease, coord.delivered, coord.started,
                        old(coord.root), old(coord.final), old(coord.autoRelease), old(coord.delivered), old(coord.started))
    {
      var s := coord.Emplace(kind);
      coord.LinkExits(attach, tag, s);
      c := new Chain(coord, s, output);
    }

    /** `thenIf`. */
    method ThenIf(output: Tag, pred: V -> bool, onTrue: Step<V>) returns (b: ConditionBuilder<V>)
      requires coord.Valid() && Attached(coord)
      modifies coord, coord.stages
      ensures coord.Valid() && fresh(b) && b.coord == coord && b.cond in coord.stages
      ensures b.tag == tag && b.output == output && b.cond.index == |old(coord.graph)|
      ensures fresh(b.cond) && forall i :: 0 <= i < |coord.stages| ==> coord.stages[i] in old(coord.stages) || fresh(coord.stages[i])
      ensures coord.graph == AttachIf(old(coord.graph), attach.index, tag, output, pred, onTrue)
      ensures SameRun(coord.root, coord.final, coord.autoRelease, coord.delivered, coord.started,
                        old(coord.root), old(coord.final), old(coord.autoRelease), old(coord.delivered), old(coord.started))
    {
      var cond := coord.AppendCondition(attach, tag, output, pred, onTrue);
      b := new ConditionBuilder(coord, cond, tag, output);
    }
  }

  ghost predicate SameRun<V(!new)>(
      root: Stage?<V>, final: Option<Tag>, auto: bool, delivered: seq<Result<V>>, started: seq<nat>,
      root0: Stage?<V>, final0: Option<Tag>, auto0: bool, delivered0: seq<Result<V>>, started0: seq<nat>)
  {
    root == root0 && final == final0 && auto == auto0 && delivered == delivered0 && started == started0
  }

  class ConditionBuilder<V(!new)> {
    const coord: PiplineCoordinator<V>
    const cond: Stage<V>
    const tag: Tag
    const output: Tag

    constructor (coord: PiplineCoordinator<V>, cond: Stage<V>, tag: Tag, output: Tag)
      ensures this.coord == coord && this.cond == cond && this.tag == tag && this.output == output
    {
      this.coord, this.cond, this.tag, this.output := coord, cond, tag, output;
    }

    method Else(onFalse: Step<V>) returns (c: Chain<V>)
      requires coord.Valid() && cond in coord.stages
      modifies coord, coord.stages
      ensures coord.Valid() && c.Attached(coord) && fresh(c) && c.tag == output && c.attach == cond
      ensures forall i :: 0 <= i < |coord.stages| ==> coord.stages[i] in old(coord.stages) || fresh(coord.stages[i])
      ensures coord.graph == AttachElse(old(coord.graph), cond.index, tag, output, onFalse)
      ensures SameRun(coord.root, coord.final, coord.autoRelease, coord.delivered, coord.started,
                        old(coord.root), old(coord.final), old(coord.autoRelease), old(coord.delivered), old(coord.started))
    {
      var f := coord.Emplace(Exec(tag, output, onFalse));
      coord.SetFalseNext(cond, f);
      c := new Chain(coord, cond, output);
    }
  }

  /** A client that chains a whole script. */
  method ChainScript<V(!new)>(c: Chain<V>, s: Script<V>)
    requires c.coord.Valid() && c.Attached(c.coord)
    modifies c.coord, c.coord.stages
    ensures c.coord.Valid() && c.coord.graph == Compile(old(c.coord.graph), c.attach.index, c.tag, s)
    ensures SameRun(c.coord.root, c.coord.final, c.coord.autoRelease, c.coord.delivered, c.coord.started,
                      old(c.coord.root), old(c.coord.final), old(c.coord.autoRelease), old(c.coord.delivered),
                      old(c.coord.started))
    decreases s
  {
    match s
    case Done =>
    case Then(output, step, rest) =>
      var d := c.Append(Exec(c.tag, output, step), output);
      ChainScript(d, rest);
    case Reduce(output, work, rest) =>
      var d := c.Append(MapReduce(c.tag, output, work), output);
      ChainScript(d, rest);
    case ThenIfElse(output, pred, onTrue, onFalse, rest) =>
      var b := c.ThenIf(output, pred, onTrue);
      var d := b.Else(onFalse);
      ChainScript(d, rest);
    case ThenIfOnly(output, pred, onTrue) =>
      var b := c.ThenIf(output, pred, onTrue);
  }

  /** Build, then run: the client's callback gets exactly one result, the one its script means,
      the stages it says are started, in that order, and the coordinator is gone afterwards
      exactly if it releases itself. */
  method BuildAndRun<V(!new)>(base: () -> AnyOutcome<V>, tag: Tag, s: Script<V>, finalTag: Tag, autoRelease: bool)
      returns (coord: PiplineCoordinator<V>)
    ensures fresh(coord) && coord.delivered == [Finalized(Denote(s, tag, base()), finalTag)]
    ensures coord.released == autoRelease
    ensures coord.started == [0] + Trace(s, tag, base(), 1)
  {
    coord := new PiplineCoordinator(autoRelease);
    var c := coord.Begin(base, tag);
    assert coord.graph == [New(Start(base))];
    ChainScript(c, s);
    assert coord.graph == Build(base, tag, s);
    BuilderIsCorrect(base, tag, s);
    coord.Run(finalTag);
  }
}
