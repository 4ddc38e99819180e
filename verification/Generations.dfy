/** Where a generation of a pipeline object begins: the object has just been made or reset, and
    whatever is left of earlier generations is on its way out. */
module Generations {
  import opened Wrappers
  import L = Lifecycle
  import LI = LifecycleInvariant

  /** Nobody has called this generation yet, and nobody is in it. */
  ghost predicate Unstarted(l: L.State) {
    && l.gens != [] && l.owner.InUse? && !l.started && l.gens[L.Current(l)] == L.FRESH_GENERATION
    && forall t, f :: 0 <= t < |l.stacks| && L.In(f, l.stacks[t]) ==> f.gen != L.Current(l)
  }

  /** Before the first call of a generation no attempt of it is outstanding, and those that are
      left over from earlier ones have no hooks that report errors. */
  lemma UnstartedIsSilent(c: L.Settings, l: L.State)
    requires LI.Steady(c, l) && LI.Inv(c, l) && !l.started
    ensures LI.Live(l.outstanding, L.Current(l)) == {}
    ensures forall a :: a in l.outstanding ==> !c(a.gen).hooksMayFail
  {
    var n := LI.Total(l.stacks, L.Current(l));
    assert LI.TokenOk(c, l, n) && LI.CalmOk(c, l, n);
    forall a | a in l.outstanding ensures !c(a.gen).hooksMayFail {
      assert a !in LI.Live(l.outstanding, L.Current(l));
      assert c(a.gen).hooksMayFail ==> LI.Calm(c, a.gen);
    }
  }

  /** The threads that are still in an earlier generation are refused or on their way out. */
  lemma EarlierFramesOnlyReturn(c: L.Settings, l: L.State, t: nat, choice: L.Choice)
    requires LI.Inv(c, l) && Unstarted(l)
    requires L.Next(c, l, L.Advance(t, choice)).Some?
    ensures var l' := L.Next(c, l, L.Advance(t, choice)).value;
            && !l'.started && l'.gens == l.gens && l'.owner == l.owner && l'.outstanding == l.outstanding
            && l'.stacks == L.Place(l.stacks, t, L.Resume(l.stacks[t].below))
  {
    var f := l.stacks[t].top;
    assert L.In(f, l.stacks[t]);
    assert LI.FrameOk(c, l, f);
    assert LI.GateOk(l, LI.Total(l.stacks, L.Current(l)));
    assert l.gens[f.gen].gate.finishCalled;
  }

  /** Until the client calls it, a generation is left alone: only calls of earlier ones go on,
      none passes the new gate, and nothing of it becomes outstanding. */
  lemma UnstartedStays(c: L.Settings, l: L.State, a: L.Action)
    requires LI.Steady(c, l) && LI.Inv(c, l) && Unstarted(l)
    requires L.OneGeneration(a) && !a.Start? && L.Next(c, l, a).Some?
    ensures var l' := L.Next(c, l, a).value;
            && Unstarted(l') && l'.gens == l.gens
            && LI.Live(l'.outstanding, L.Current(l')) == {} && l'.outstanding <= l.outstanding
  {
    UnstartedIsSilent(c, l);
    var l' := L.Next(c, l, a).value;
    match a
    case Complete(t, attempt) =>
      assert attempt !in LI.Live(l.outstanding, L.Current(l));
      CalledFrameOrOld(l.stacks, t, L.Frame(L.Completion, attempt.gen, L.Entering));
    case CompleteAgain(t, g) =>
      CalledFrameOrOld(l.stacks, t, L.Frame(L.Late, g, L.Entering));
    case Advance(t, choice) =>
      EarlierFramesOnlyReturn(c, l, t, choice);
      forall u, f | 0 <= u < |l'.stacks| && L.In(f, l'.stacks[u]) ensures f.gen != L.Current(l') {
        if u == t {
          ResumedFrameWasThere(l.stacks[t], f);
        }
      }
    case _ =>
  }

  /** What a thread holds after a call was put on it: that call, or what it held. */
  lemma CalledFrameOrOld(stacks: seq<L.Stack>, t: nat, callee: L.Frame)
    requires t <= |stacks|
    ensures var stacks' := L.Place(stacks, t, L.Running(callee, L.StackAt(stacks, t)));
            forall u, f :: 0 <= u < |stacks'| && L.In(f, stacks'[u]) && f != callee ==>
              u < |stacks| && L.In(f, stacks[u])
  {
  }

  /** Resuming a caller changes where it goes on, not the generation it is in. */
  lemma ResumedFrameWasThere(st: L.Stack, f: L.Frame)
    requires st.Running? && L.In(f, L.Resume(st.below))
    ensures exists g :: L.In(g, st) && g.gen == f.gen
  {
    var b := st.below;
    if f == L.Resume(b).top {
      assert L.In(b.top, st);
    } else {
      assert L.In(f, st);
    }
  }

  lemma BirthIsReachable(c: L.Settings)
    ensures L.Reachable(c, L.INITIAL) && Unstarted(L.INITIAL)
  {
    assert L.Run(c, L.INITIAL, []) == Some(L.INITIAL);
  }

  /** A generation that has just been opened is unstarted: all frames are of earlier ones. */
  lemma ReacquiredIsUnstarted(c: L.Settings, l: L.State)
    requires LI.Inv(c, l) && l.owner.Cached?
    ensures Unstarted(L.Next(c, l, L.Reacquire).value)
  {
    var l' := L.Next(c, l, L.Reacquire).value;
    forall t, f | 0 <= t < |l'.stacks| && L.In(f, l'.stacks[t]) ensures f.gen != L.Current(l') {
      assert LI.FrameOk(c, l, f);
    }
  }
}
