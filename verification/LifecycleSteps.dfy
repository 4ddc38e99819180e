/** Every step of the lifecycle machine keeps the invariant.

    Each kind of step is split in two: a lemma on the counts alone, and the frames, which
    the shared lemmas at the top move, push or pop. */
module LifecycleSteps {
  import opened Wrappers
  import opened CompletionGate
  import opened Lifecycle
  import opened LifecycleInvariant

  // ----- frames: moving, pushing and popping -----

  /** Nothing that a frame relies on has been taken back. */
  predicate Grows(s: State, s': State) {
    && |s.gens| == |s'.gens|
    && (forall i :: 0 <= i < |s.gens| ==>
          && (s.gens[i].gate.callbackCalled ==> s'.gens[i].gate.callbackCalled)
          && (s.gens[i].gate.finishCalled ==> s'.gens[i].gate.finishCalled))
    && s.nextAttempt <= s'.nextAttempt
    && s'.outstanding == s.outstanding
  }

  ghost predicate FramesStay(c: Settings, s: State, s': State)
    requires s.gens != [] && s'.gens != []
  {
    forall u, f :: 0 <= u < |s.stacks| && In(f, s.stacks[u]) ==> FrameOk(c, s, f) && FrameOk(c, s', f)
  }

  lemma GrowingKeepsFrames(c: Settings, s: State, s': State)
    requires s.gens != [] && FramesOk(c, s) && Grows(s, s')
    ensures FramesStay(c, s, s')
  {
  }

  lemma {:induction false} HookIsSeen(st: Stack, f: Frame, a: Attempt)
    requires In(f, st) && f.role == HookError(a)
    ensures InHook(st, a)
  {
    if st.top != f {
      HookIsSeen(st.below, f, a);
    }
  }

  /** An attempt without a running hook is dropped: no frame misses it. */
  lemma DroppingKeepsFrames(c: Settings, s: State, s': State, a: Attempt)
    requires s.gens != [] && FramesOk(c, s) && s'.gens == s.gens && s'.nextAttempt == s.nextAttempt
    requires s'.outstanding == s.outstanding - {a} && !HookRuns(s.stacks, a)
    ensures FramesStay(c, s, s')
  {
    forall u, f | 0 <= u < |s.stacks| && In(f, s.stacks[u]) ensures FrameOk(c, s, f) && FrameOk(c, s', f) {
      assert FrameOk(c, s, f);
      if f.role == HookError(a) {
        HookIsSeen(s.stacks[u], f, a);
      }
      assert Live(s'.outstanding, Current(s)) <= Live(s.outstanding, Current(s));
    }
  }

  lemma FramesKept(c: Settings, s: State, s': State, t: nat, st: Stack)
    requires s.gens != [] && s'.gens != [] && FramesOk(c, s) && FramesStay(c, s, s')
    requires t <= |s.stacks| && s'.stacks == Place(s.stacks, t, st)
    requires Linked(st) && TopIsFree(st)
    requires forall f :: In(f, st) ==> FrameOk(c, s', f)
    ensures FramesOk(c, s')
  {
    forall u, f | 0 <= u < |s'.stacks| && In(f, s'.stacks[u]) ensures FrameOk(c, s', f) {
      if u != t {
        assert In(f, s.stacks[u]);
      }
    }
  }

  /** What replacing `was` by `becomes` does to a count. */
  ghost predicate Moved(n: Tally, was: Tally, becomes: Tally, n': Tally) {
    Leq(was, n) && Plus(n', was) == Plus(n, becomes)
  }

  lemma StackChanges(w: Frame -> Tally, stacks: seq<Stack>, t: nat, st: Stack)
    requires t <= |stacks|
    ensures var placed := Place(stacks, t, st);
            Moved(Sum(w, stacks, |stacks|), WeighStack(w, StackAt(stacks, t)), WeighStack(w, st),
                  Sum(w, placed, |placed|))
  {
    PlaceChangesOneStack(w, stacks, t, st);
    if t < |stacks| {
      StackIsCounted(w, stacks, t, |stacks|);
    }
  }

  lemma TopChanges(w: Frame -> Tally, stacks: seq<Stack>, t: nat, f: Frame)
    requires t < |stacks| && stacks[t].Running?
    ensures var placed := Place(stacks, t, Running(f, stacks[t].below));
            Moved(Sum(w, stacks, |stacks|), w(stacks[t].top), w(f), Sum(w, placed, |placed|))
  {
    StackChanges(w, stacks, t, Running(f, stacks[t].below));
  }

  lemma TopCalls(w: Frame -> Tally, stacks: seq<Stack>, t: nat, f: Frame, callee: Frame)
    requires t < |stacks| && stacks[t].Running?
    ensures var placed := Place(stacks, t, Running(callee, Running(f, stacks[t].below)));
            Moved(Sum(w, stacks, |stacks|), w(stacks[t].top), Plus(w(callee), w(f)), Sum(w, placed, |placed|))
  {
    var caller := Running(f, stacks[t].below);
    StackChanges(w, stacks, t, Running(callee, caller));
    assert WeighStack(w, Running(callee, caller)) == Plus(w(callee), WeighStack(w, caller));
  }

  lemma TopReturns(w: Frame -> Tally, stacks: seq<Stack>, t: nat)
    requires t < |stacks| && stacks[t].Running?
    requires stacks[t].below.Running? ==> w(Resume(stacks[t].below).top) == w(stacks[t].below.top)
    ensures var placed := Place(stacks, t, Resume(stacks[t].below));
            Moved(Sum(w, stacks, |stacks|), w(stacks[t].top), ZERO, Sum(w, placed, |placed|))
  {
    var b := stacks[t].below;
    StackChanges(w, stacks, t, Resume(b));
    assert WeighStack(w, stacks[t]) == Plus(w(stacks[t].top), WeighStack(w, b));
    if b.Running? {
      assert WeighStack(w, b) == Plus(w(b.top), WeighStack(w, b.below));
      assert WeighStack(w, Resume(b)) == Plus(w(Resume(b).top), WeighStack(w, b.below));
    }
  }

  /** A caller that is woken up by a return weighs what it weighed before. */
  lemma WakingIsWeightless(f: Frame, below: Stack, cur: nat)
    requires PcFits(f)
    ensures Weigh(Resume(Running(f, below)).top, cur) == Weigh(f, cur)
  {
  }

  lemma TransportPushes(w: Frame -> Tally, stacks: seq<Stack>, t: nat, callee: Frame)
    requires t <= |stacks|
    ensures var placed := Place(stacks, t, Running(callee, StackAt(stacks, t)));
            Moved(Sum(w, stacks, |stacks|), ZERO, w(callee), Sum(w, placed, |placed|))
  {
    StackChanges(w, stacks, t, Running(callee, StackAt(stacks, t)));
  }

  /** The top frame of one thread moves to another program point. */
  lemma TopMoveKeepsInv(c: Settings, s: State, s': State, t: nat, f: Frame)
    requires Inv(c, s) && t < |s.stacks| && s.stacks[t].Running?
    requires |s'.gens| == |s.gens| && FramesStay(c, s, s')
    requires s'.stacks == Place(s.stacks, t, Running(f, s.stacks[t].below))
    requires f.role == s.stacks[t].top.role && f.gen == s.stacks[t].top.gen
    requires !f.pc.AwaitingError? && !f.pc.AwaitingRetry?
    requires FrameOk(c, s', f)
    requires forall n' :: Moved(Total(s.stacks, Current(s)), Weigh(s.stacks[t].top, Current(s)), Weigh(f, Current(s)), n')
                          ==> CountsOk(c, s', n')
    ensures Inv(c, s')
  {
    var st := Running(f, s.stacks[t].below);
    TopChanges(WeightIn(Current(s)), s.stacks, t, f);
    assert FramesOk(c, s') by {
      assert Linked(s.stacks[t]);
      forall g | In(g, st) ensures FrameOk(c, s', g) {
        if g != f {
          assert In(g, s.stacks[t]);
        }
      }
      FramesKept(c, s, s', t, st);
    }
  }

  lemma TopOk(c: Settings, s: State, t: nat)
    requires Inv(c, s) && t < |s.stacks| && s.stacks[t].Running?
    ensures FrameOk(c, s, s.stacks[t].top) && Linked(s.stacks[t].below)
  {
    assert In(s.stacks[t].top, s.stacks[t]) && Linked(s.stacks[t]);
  }

  lemma CallFrames(c: Settings, s: State, s': State, t: nat, f: Frame, callee: Frame)
    requires Inv(c, s) && t < |s.stacks| && s.stacks[t].Running? && Grows(s, s')
    requires f.role == s.stacks[t].top.role && f.gen == s.stacks[t].top.gen
    requires callee.pc.Entering? && (callee.role.LocalError? <==> f.pc.AwaitingError?)
    requires callee.role.LocalError? ==> callee.gen == f.gen
    requires FrameOk(c, s', f) && FrameOk(c, s', callee)
    ensures var st := Running(callee, Running(f, s.stacks[t].below));
            Linked(st) && TopIsFree(st) && forall g :: In(g, st) ==> FrameOk(c, s', g)
  {
    var caller := Running(f, s.stacks[t].below);
    assert Linked(s.stacks[t]);
    assert Linked(caller);
    forall g | In(g, Running(callee, caller)) ensures FrameOk(c, s', g) {
      if g != callee && g != f {
        assert In(g, caller);
        assert In(g, s.stacks[t].below);
        assert In(g, s.stacks[t]);
        assert FrameOk(c, s, g);
      }
    }
  }

  /** The top frame of one thread moves and calls. */
  lemma CallKeepsFrames(c: Settings, s: State, s': State, t: nat, f: Frame, callee: Frame)
    requires Inv(c, s) && t < |s.stacks| && s.stacks[t].Running? && Grows(s, s')
    requires s'.stacks == Place(s.stacks, t, Running(callee, Running(f, s.stacks[t].below)))
    requires f.role == s.stacks[t].top.role && f.gen == s.stacks[t].top.gen
    requires callee.pc.Entering? && (callee.role.LocalError? <==> f.pc.AwaitingError?)
    requires callee.role.LocalError? ==> callee.gen == f.gen
    requires FrameOk(c, s', f) && FrameOk(c, s', callee)
    ensures FramesOk(c, s')
  {
    GrowingKeepsFrames(c, s, s');
    CallFrames(c, s, s', t, f, callee);
    FramesKept(c, s, s', t, Running(callee, Running(f, s.stacks[t].below)));
  }

  lemma ReturnFrames(c: Settings, s: State, s': State, t: nat)
    requires Inv(c, s) && t < |s.stacks| && s.stacks[t].Running? && Grows(s, s')
    requires s.stacks[t].below.Running? && s.stacks[t].below.top.pc.AwaitingError? ==>
               s.gens[Current(s)].gate.callbackCalled
    ensures var st := Resume(s.stacks[t].below);
            Linked(st) && TopIsFree(st) && forall g :: In(g, st) ==> FrameOk(c, s', g)
  {
    var b := s.stacks[t].below;
    assert Linked(s.stacks[t]) && Linked(b);
    if b.Running? {
      assert Linked(b.below);
      assert In(b.top, s.stacks[t]);
      assert FrameOk(c, s, b.top);
      forall g | In(g, b.below) ensures FrameOk(c, s', g) {
        assert In(g, b) && In(g, s.stacks[t]);
        assert FrameOk(c, s, g);
      }
    }
  }

  /** The top frame of one thread returns; a caller that waited for it goes on. */
  lemma ReturnKeepsInv(c: Settings, s: State, s': State, t: nat)
    requires Inv(c, s) && t < |s.stacks| && s.stacks[t].Running? && Grows(s, s')
    requires s'.stacks == Place(s.stacks, t, Resume(s.stacks[t].below))
    requires s.stacks[t].below.Running? && s.stacks[t].below.top.pc.AwaitingError? ==>
               s.gens[Current(s)].gate.callbackCalled
    requires forall n' :: Moved(Total(s.stacks, Current(s)), Weigh(s.stacks[t].top, Current(s)), ZERO, n')
                          ==> CountsOk(c, s', n')
    ensures Inv(c, s')
  {
    assert s.stacks[t].below.Running? ==> In(s.stacks[t].below.top, s.stacks[t]);
    if s.stacks[t].below.Running? {
      assert FrameOk(c, s, s.stacks[t].below.top);
      WakingIsWeightless(s.stacks[t].below.top, s.stacks[t].below.below, Current(s));
    }
    TopReturns(WeightIn(Current(s)), s.stacks, t);
    assert FramesOk(c, s') by {
      GrowingKeepsFrames(c, s, s');
      ReturnFrames(c, s, s', t);
      FramesKept(c, s, s', t, Resume(s.stacks[t].below));
    }
  }

  /** The transport, or the client, starts a call on a thread it may use. */
  lemma PushKeepsInv(c: Settings, s: State, s': State, t: nat, callee: Frame)
    requires Inv(c, s) && TransportMayUse(s.stacks, t) && |s'.gens| == |s.gens| && FramesStay(c, s, s')
    requires s'.stacks == Place(s.stacks, t, Running(callee, StackAt(s.stacks, t)))
    requires callee.pc.Entering? && !callee.role.LocalError? && FrameOk(c, s', callee)
    requires forall n' :: Moved(Total(s.stacks, Current(s)), ZERO, Weigh(callee, Current(s)), n') ==> CountsOk(c, s', n')
    ensures Inv(c, s')
  {
    var below := StackAt(s.stacks, t);
    TransportPushes(WeightIn(Current(s)), s.stacks, t, callee);
    assert FramesOk(c, s') by {
      assert Linked(below);
      FramesKept(c, s, s', t, Running(callee, below));
    }
  }

  lemma StacksDoNotCount(c: Settings, s: State, s': State, n: Tally)
    requires s.gens != [] && CountsOk(c, s, n) && s' == s.(stacks := s'.stacks)
    ensures CountsOk(c, s', n)
  {
  }

  // ----- the attempts of one generation -----

  lemma LiveWithout(outstanding: set<Attempt>, a: Attempt, gen: nat)
    requires a in outstanding
    ensures |Live(outstanding - {a}, gen)| == |Live(outstanding, gen)| - if a.gen == gen then 1 else 0
  {
    if a.gen == gen {
      assert Live(outstanding - {a}, gen) == Live(outstanding, gen) - {a};
    } else {
      assert Live(outstanding - {a}, gen) == Live(outstanding, gen);
    }
  }

  lemma LiveWith(outstanding: set<Attempt>, a: Attempt)
    requires a !in outstanding
    ensures Live(outstanding + {a}, a.gen) == Live(outstanding, a.gen) + {a}
    ensures |Live(outstanding + {a}, a.gen)| == |Live(outstanding, a.gen)| + 1
  {
    assert Live(outstanding + {a}, a.gen) == Live(outstanding, a.gen) + {a};
  }

  // ----- the steps, one by one -----

  predicate AtPc(c: Settings, s: State, t: nat, choice: Choice, s': State) {
    && s.gens != [] && t < |s.stacks| && s.stacks[t].Running? && s.stacks[t].top.gen < |s.gens|
    && Step(c, s, t, s.stacks[t].top, s.stacks[t].below, choice) == Some(s')
  }

  /** A step that only moves the top frame, with the counts in order for every outcome. */
  lemma MoveKeepsInv(c: Settings, s: State, s': State, t: nat, pc: Pc)
    requires Inv(c, s) && t < |s.stacks| && s.stacks[t].Running? && Grows(s, s')
    requires s'.stacks == Place(s.stacks, t, Running(s.stacks[t].top.(pc := pc), s.stacks[t].below))
    requires !pc.AwaitingError? && !pc.AwaitingRetry?
    requires FrameOk(c, s', s.stacks[t].top.(pc := pc))
    requires var f := s.stacks[t].top;
             forall n' :: Moved(Total(s.stacks, Current(s)), Weigh(f, Current(s)), Weigh(f.(pc := pc), Current(s)), n')
                          ==> CountsOk(c, s', n')
    ensures Inv(c, s')
  {
    GrowingKeepsFrames(c, s, s');
    TopMoveKeepsInv(c, s, s', t, s.stacks[t].top.(pc := pc));
  }

  lemma EnterCounts(c: Settings, s: State, f: Frame, n: Tally, n': Tally)
    requires s.gens != [] && CountsOk(c, s, n) && f.gen <= Current(s) && f.pc.Entering? && PcFits(f)
    requires AfterEnter(s.gens[f.gen].gate).accepted && !f.role.Late?
    requires Moved(n, Weigh(f, Current(s)), Weigh(f.(pc := Checking), Current(s)), n')
    ensures f.gen == Current(s) && CountsOk(c, SetGate(s, f.gen, AfterEnter(s.gens[f.gen].gate).gate), n')
  {
  }

  lemma EnterKeepsInv(c: Settings, s: State, t: nat, choice: Choice, s': State)
    requires Inv(c, s) && AtPc(c, s, t, choice, s') && s.stacks[t].top.pc.Entering?
    requires AfterEnter(s.gens[s.stacks[t].top.gen].gate).accepted
    ensures Inv(c, s')
  {
    TopOk(c, s, t);
    var f := s.stacks[t].top;
    forall n' | Moved(Total(s.stacks, Current(s)), Weigh(f, Current(s)), Weigh(f.(pc := Checking), Current(s)), n')
      ensures CountsOk(c, s', n')
    {
      EnterCounts(c, s, f, Total(s.stacks, Current(s)), n');
    }
    assert f.gen == Current(s);
    MoveKeepsInv(c, s, s', t, Checking);
  }

  lemma RefusalKeepsInv(c: Settings, s: State, t: nat, choice: Choice, s': State)
    requires Inv(c, s) && AtPc(c, s, t, choice, s') && s.stacks[t].top.pc.Entering?
    requires !AfterEnter(s.gens[s.stacks[t].top.gen].gate).accepted
    ensures Inv(c, s')
  {
    var Running(f, b) := s.stacks[t];
    TopOk(c, s, t);
    assert Linked(s.stacks[t]);
    if b.Running? {
      assert In(b.top, s.stacks[t]);
      assert FrameOk(c, s, b.top);
      FrameIsInTotal(s.stacks, t, b.top, Current(s));
    }
    ReturnKeepsInv(c, s, s', t);
  }

  lemma CheckedCounts(c: Settings, s: State, f: Frame, pc: Pc, n: Tally, n': Tally)
    requires s.gens != [] && CountsOk(c, s, n) && f.gen == Current(s) && f.pc.Checking? && PcFits(f)
    requires pc == if s.gens[f.gen].gate.callbackCalled then (if IsCompletion(f.role) then Rechecking else Leaving)
                   else if IsError(f.role) then Claiming else Working
    requires IsReentrant(f) ==> s.gens[f.gen].gate.callbackCalled
    requires Moved(n, Weigh(f, Current(s)), Weigh(f.(pc := pc), Current(s)), n')
    ensures CountsOk(c, s, n')
  {
  }

  lemma CheckingKeepsInv(c: Settings, s: State, t: nat, choice: Choice, s': State)
    requires Inv(c, s) && AtPc(c, s, t, choice, s') && s.stacks[t].top.pc.Checking?
    ensures Inv(c, s')
  {
    TopOk(c, s, t);
    var f, pc := s.stacks[t].top, s'.stacks[t].top.pc;
    forall n' | Moved(Total(s.stacks, Current(s)), Weigh(f, Current(s)), Weigh(f.(pc := pc), Current(s)), n')
      ensures CountsOk(c, s', n')
    {
      CheckedCounts(c, s, f, pc, Total(s.stacks, Current(s)), n');
    }
    MoveKeepsInv(c, s, s', t, pc);
  }

  lemma SendingAddsNoDoubt(c: Settings, s: State, t: nat, a: Attempt, s': State)
    requires Inv(c, s) && t < |s.stacks| && s.stacks[t].Running? && s.stacks[t].top.pc.Working?
    requires s.stacks[t].top.role.Driver?
    requires s' == s.(runs := s.runs + 1, outstanding := s.outstanding + {a}, nextAttempt := s.nextAttempt + 1,
                      stacks := s'.stacks)
    ensures FramesStay(c, s, s')
  {
    TopOk(c, s, t);
    var top := s.stacks[t].top;
    assert In(top, s.stacks[t]);
    FrameIsInTotal(s.stacks, t, top, Current(s));
    forall u, f | 0 <= u < |s.stacks| && In(f, s.stacks[u]) ensures FrameOk(c, s, f) && FrameOk(c, s', f) {
      assert FrameOk(c, s, f);
      FrameIsInTotal(s.stacks, u, f, Current(s));
    }
  }

  /** A driver hands its token to a new attempt. */
  lemma SendCounts(c: Settings, s: State, f: Frame, a: Attempt, n: Tally, n': Tally)
    requires s.gens != [] && CountsOk(c, s, n) && f.gen == Current(s) && f.pc.Working? && f.role.Driver?
    requires a == Attempt(s.nextAttempt, f.gen) && Leq(Weigh(f, Current(s)), n)
    requires Moved(n, Weigh(f, Current(s)), Weigh(f.(pc := Sending(a)), Current(s)), n')
    ensures CountsOk(c, s.(runs := s.runs + 1, outstanding := s.outstanding + {a}, nextAttempt := s.nextAttempt + 1), n')
  {
    LiveWith(s.outstanding, a);
  }

  lemma SendKeepsInv(c: Settings, s: State, t: nat, s': State)
    requires Inv(c, s) && AtPc(c, s, t, Go, s') && s.stacks[t].top.pc.Working?
    requires !IsCompletion(s.stacks[t].top.role)
    ensures Inv(c, s')
  {
    TopOk(c, s, t);
    var f, n := s.stacks[t].top, Total(s.stacks, Current(s));
    var a := Attempt(s.nextAttempt, f.gen);
    FrameIsInTotal(s.stacks, t, f, Current(s)) by { assert In(f, s.stacks[t]); }
    forall n' | Moved(n, Weigh(f, Current(s)), Weigh(f.(pc := Sending(a)), Current(s)), n') ensures CountsOk(c, s', n') {
      SendCounts(c, s, f, a, n, n');
      StacksDoNotCount(c, s'.(stacks := s.stacks), s', n');
    }
    SendKeepsFrames(c, s, t, s');
    TopMoveKeepsInv(c, s, s', t, f.(pc := Sending(a)));
  }

  lemma SendKeepsFrames(c: Settings, s: State, t: nat, s': State)
    requires Inv(c, s) && AtPc(c, s, t, Go, s') && s.stacks[t].top.pc.Working?
    requires !IsCompletion(s.stacks[t].top.role)
    ensures var f := s.stacks[t].top;
            FramesStay(c, s, s') && FrameOk(c, s', f.(pc := Sending(Attempt(s.nextAttempt, f.gen))))
  {
    TopOk(c, s, t);
    var f := s.stacks[t].top;
    LiveWith(s.outstanding, Attempt(s.nextAttempt, f.gen));
    FrameIsInTotal(s.stacks, t, f, Current(s)) by { assert In(f, s.stacks[t]); }
    SendingAddsNoDoubt(c, s, t, Attempt(s.nextAttempt, f.gen), s');
  }

  /** What the frames weigh that a call leaves behind and puts on top. */
  lemma CallWeights(f: Frame, cur: nat)
    requires f.gen == cur
    ensures f.role.Driver? && f.pc.Working? ==> Weigh(f, cur) == Tally(1, 1, 0, 0, 0, 0, 0)
    ensures f.role.Driver? && f.pc.AwaitingError? ==> Weigh(f, cur) == Tally(1, 0, 0, 0, 1, 1, 0)
    ensures f.role.LocalError? && f.pc.Entering? ==> Weigh(f, cur) == Tally(0, 0, 0, 1, 0, 0, 0)
    ensures f.role.Completion? && f.pc.Working? ==> Weigh(f, cur) == Tally(1, 0, 1, 1, 1, 0, 0)
    ensures f.role.Completion? && f.pc.AwaitingRetry? ==> Weigh(f, cur) == Tally(1, 0, 0, 0, 1, 0, 0)
    ensures f.role.Driver? && f.pc.Entering? ==> Weigh(f, cur) == Tally(0, 1, 0, 0, 0, 0, 0)
    ensures IsReentrant(f) && f.pc.Entering? ==> Weigh(f, cur) == ZERO
  {
  }

  /** The totals after a call, for a caller and a callee of known weight. */
  lemma CallBalance(stacks: seq<Stack>, t: nat, caller: Frame, callee: Frame, cur: nat,
                    was: Tally, becomes: Tally, added: Tally)
    requires t < |stacks| && stacks[t].Running?
    requires Weigh(stacks[t].top, cur) == was && Weigh(caller, cur) == becomes && Weigh(callee, cur) == added
    ensures var n' := Total(Place(stacks, t, Running(callee, Running(caller, stacks[t].below))), cur);
            Leq(was, Total(stacks, cur)) && Plus(n', was) == Plus(Total(stacks, cur), Plus(added, becomes))
  {
    TopCalls(WeightIn(cur), stacks, t, caller, callee);
  }

  lemma ReportCounts(c: Settings, s: State, n: Tally, n': Tally)
    requires s.gens != [] && CountsOk(c, s, n) && n.ready > 0
    requires n' == n.(ready := n.ready - 1, undecided := n.undecided + 1, bound := n.bound + 1, spent := n.spent + 1)
    ensures CountsOk(c, s.(runs := s.runs + 1), n')
  {
  }

  lemma ReportKeepsFrames(c: Settings, s: State, t: nat, s': State)
    requires Inv(c, s) && t < |s.stacks| && s.stacks[t].Running?
    requires s.stacks[t].top.pc.Working? && !IsCompletion(s.stacks[t].top.role)
    requires s' == Call(s.(runs := s.runs + 1), t, s.stacks[t].top, s.stacks[t].below, AwaitingError, LocalError)
    ensures FramesOk(c, s') && s.stacks[t].top.role.Driver? && s.stacks[t].top.gen == Current(s)
  {
    TopOk(c, s, t);
    CallKeepsFrames(c, s, s', t, s.stacks[t].top.(pc := AwaitingError), Frame(LocalError, Current(s), Entering));
  }

  lemma ReportKeepsInv(c: Settings, s: State, t: nat, s': State)
    requires Inv(c, s) && t < |s.stacks| && s.stacks[t].Running?
    requires s.stacks[t].top.pc.Working? && !IsCompletion(s.stacks[t].top.role)
    requires s' == Call(s.(runs := s.runs + 1), t, s.stacks[t].top, s.stacks[t].below, AwaitingError, LocalError)
    ensures Inv(c, s')
  {
    ReportKeepsFrames(c, s, t, s');
    var f := s.stacks[t].top;
    var caller, callee := f.(pc := AwaitingError), Frame(LocalError, Current(s), Entering);
    CallWeights(f, Current(s));
    CallWeights(caller, Current(s));
    CallWeights(callee, Current(s));
    CallBalance(s.stacks, t, caller, callee, Current(s), Tally(1, 1, 0, 0, 0, 0, 0), Tally(1, 0, 0, 0, 1, 1, 0),
                Tally(0, 0, 0, 1, 0, 0, 0));
    ReportCounts(c, s, Total(s.stacks, Current(s)), Total(s'.stacks, Current(s)));
  }

  lemma RetryCounts(c: Settings, s: State, n: Tally, n': Tally)
    requires s.gens != [] && CountsOk(c, s, n) && MayRetry(c(Current(s)), s) && n.undecided > 0 && n.replies > 0
    requires n' == n.(ready := n.ready + 1, replies := n.replies - 1, undecided := n.undecided - 1)
    ensures CountsOk(c, s, n')
  {
  }

  lemma RetryKeepsFrames(c: Settings, s: State, t: nat, s': State)
    requires Inv(c, s) && t < |s.stacks| && s.stacks[t].Running?
    requires s.stacks[t].top.pc.Working? && IsCompletion(s.stacks[t].top.role)
    requires s' == Call(s, t, s.stacks[t].top, s.stacks[t].below, AwaitingRetry, Driver)
    ensures FramesOk(c, s') && s.stacks[t].top.role.Completion? && s.stacks[t].top.gen == Current(s)
  {
    TopOk(c, s, t);
    CallKeepsFrames(c, s, s', t, s.stacks[t].top.(pc := AwaitingRetry), Frame(Driver, Current(s), Entering));
  }

  lemma RetryKeepsInv(c: Settings, s: State, t: nat, s': State)
    requires Inv(c, s) && t < |s.stacks| && s.stacks[t].Running?
    requires s.stacks[t].top.pc.Working? && IsCompletion(s.stacks[t].top.role) && MayRetry(c(Current(s)), s)
    requires s' == Call(s, t, s.stacks[t].top, s.stacks[t].below, AwaitingRetry, Driver)
    ensures Inv(c, s')
  {
    RetryKeepsFrames(c, s, t, s');
    var f := s.stacks[t].top;
    var caller, callee := f.(pc := AwaitingRetry), Frame(Driver, Current(s), Entering);
    CallWeights(f, Current(s));
    CallWeights(caller, Current(s));
    CallWeights(callee, Current(s));
    CallBalance(s.stacks, t, caller, callee, Current(s), Tally(1, 0, 1, 1, 1, 0, 0), Tally(1, 0, 0, 0, 1, 0, 0),
                Tally(0, 1, 0, 0, 0, 0, 0));
    RetryCounts(c, s, Total(s.stacks, Current(s)), Total(s'.stacks, Current(s)));
  }

  /** An attempt that fails before it is sent, or a response that is delivered or fails. */
  lemma DecidedCounts(c: Settings, s: State, f: Frame, pc: Pc, runs: nat, n: Tally, n': Tally)
    requires s.gens != [] && CountsOk(c, s, n) && f.gen == Current(s) && f.pc.Working? && PcFits(f) && !IsReentrant(f)
    requires pc.Failing? || (pc.Claiming? && f.role.Completion?)
    requires runs == (if f.role.Completion? then s.runs else s.runs + 1) && !f.role.Late?
    requires Leq(Weigh(f, Current(s)), n) && Moved(n, Weigh(f, Current(s)), Weigh(f.(pc := pc), Current(s)), n')
    ensures CountsOk(c, s.(runs := runs), n')
  {
  }

  lemma DecisionKeepsInv(c: Settings, s: State, t: nat, choice: Choice, s': State)
    requires Inv(c, s) && AtPc(c, s, t, choice, s') && s.stacks[t].top.pc.Working?
    requires choice == Throw || (choice == Go && IsCompletion(s.stacks[t].top.role))
    ensures Inv(c, s')
  {
    TopOk(c, s, t);
    var f, n := s.stacks[t].top, Total(s.stacks, Current(s));
    var pc := if choice == Throw then Failing else Claiming;
    FrameIsInTotal(s.stacks, t, f, Current(s)) by { assert In(f, s.stacks[t]); }
    forall n' | Moved(n, Weigh(f, Current(s)), Weigh(f.(pc := pc), Current(s)), n') ensures CountsOk(c, s', n') {
      DecidedCounts(c, s, f, pc, s'.runs, n, n');
    }
    MoveKeepsInv(c, s, s', t, pc);
  }

  lemma WorkingKeepsInv(c: Settings, s: State, t: nat, choice: Choice, s': State)
    requires Inv(c, s) && AtPc(c, s, t, choice, s') && s.stacks[t].top.pc.Working?
    ensures Inv(c, s')
  {
    if choice == Go && !IsCompletion(s.stacks[t].top.role) {
      SendKeepsInv(c, s, t, s');
    } else if choice == ReportLocally {
      ReportKeepsInv(c, s, t, s');
    } else if choice == Retry {
      RetryKeepsInv(c, s, t, s');
    } else {
      DecisionKeepsInv(c, s, t, choice, s');
    }
  }

  /** User code calls back in, from the callback or from a finalizer. */
  lemma ReenterKeepsInv(c: Settings, s: State, t: nat, role: Role, s': State)
    requires Inv(c, s) && t < |s.stacks| && s.stacks[t].Running?
    requires s.stacks[t].top.pc.InCallback? || s.stacks[t].top.pc.Cleaning?
    requires role.Reentrant? || role.ReentrantError?
    requires s' == Call(s, t, s.stacks[t].top, s.stacks[t].below, s.stacks[t].top.pc, role)
    ensures Inv(c, s')
  {
    var f, callee := s.stacks[t].top, Frame(role, Current(s), Entering);
    assert FramesOk(c, s') by {
      ReenteringFrameIsOk(c, s, t, callee);
      CallKeepsFrames(c, s, s', t, f, callee);
    }
    CallWeights(callee, Current(s));
    WeightlessCall(WeightIn(Current(s)), s.stacks, t, callee);
  }

  lemma WeightlessCall(w: Frame -> Tally, stacks: seq<Stack>, t: nat, callee: Frame)
    requires t < |stacks| && stacks[t].Running? && w(callee) == ZERO
    ensures var placed := Place(stacks, t, Running(callee, stacks[t]));
            Sum(w, placed, |placed|) == Sum(w, stacks, |stacks|)
  {
    StackChanges(w, stacks, t, Running(callee, stacks[t]));
    assert WeighStack(w, Running(callee, stacks[t])) == Plus(ZERO, WeighStack(w, stacks[t]));
  }

  lemma ReenteringFrameIsOk(c: Settings, s: State, t: nat, callee: Frame)
    requires Inv(c, s) && t < |s.stacks| && s.stacks[t].Running?
    requires s.stacks[t].top.pc.InCallback? || s.stacks[t].top.pc.Cleaning?
    requires IsReentrant(callee) && callee.pc.Entering? && callee.gen == Current(s)
    ensures FrameOk(c, s, s.stacks[t].top) && FrameOk(c, s, callee)
  {
    TopOk(c, s, t);
    FrameIsInTotal(s.stacks, t, s.stacks[t].top, Current(s)) by { assert In(s.stacks[t].top, s.stacks[t]); }
  }

  lemma FailingKeepsInv(c: Settings, s: State, t: nat, choice: Choice, s': State)
    requires Inv(c, s) && AtPc(c, s, t, choice, s') && s.stacks[t].top.pc.Failing?
    ensures Inv(c, s')
  {
    TopOk(c, s, t);
    MoveKeepsInv(c, s, s', t, s'.stacks[t].top.pc);
  }

  /** A hook that is inside the gate belongs to an attempt of the current generation, unless
      hooks of earlier generations can be left over. */
  lemma HookIsLive(c: Settings, s: State, n: Tally, a: Attempt)
    requires s.gens != [] && TokenOk(c, s, n) && CalmOk(c, s, n) && a in s.outstanding && c(a.gen).hooksMayFail
    ensures Steady(c, s) ==> a.gen == Current(s) && a in Live(s.outstanding, Current(s))
    ensures Steady(c, s) ==> |Live(s.outstanding, Current(s))| >= 1
    ensures Calm(c, Current(s)) ==> c(Current(s)).maxRetry <= 0
  {
    if Steady(c, s) {
      assert Orderly(c) ==> c(a.gen).maxRetry <= 0;
      assert a.gen == Current(s);
    }
    if Calm(c, Current(s)) && Orderly(c) {
      assert c(a.gen).maxRetry <= 0;
      assert Calm(c, a.gen);
    }
  }

  lemma ClaimCounts(c: Settings, s: State, f: Frame, n: Tally, s': State, n': Tally)
    requires s.gens != [] && CountsOk(c, s, n) && f.gen == Current(s) && f.pc.Claiming? && PcFits(f)
    requires !s.gens[f.gen].gate.callbackCalled && Leq(Weigh(f, Current(s)), n)
    requires f.role.LocalError? ==> n.bound > 0
    requires f.role.HookError? ==> f.role.attempt in s.outstanding && c(f.role.attempt.gen).hooksMayFail
    requires var g := s.gens[f.gen];
             s' == s.(gens := s.gens[f.gen := Generation(g.gate.(callbackCalled := true), g.callbacks + 1, g.cleanups)],
                      stacks := s'.stacks)
    requires Moved(n, Weigh(f, Current(s)), Weigh(f.(pc := InCallback), Current(s)), n')
    ensures CountsOk(c, s', n')
  {
    if f.role.HookError? {
      HookIsLive(c, s, n, f.role.attempt);
    }
  }

  lemma TooLateCounts(c: Settings, s: State, f: Frame, n: Tally, n': Tally)
    requires s.gens != [] && CountsOk(c, s, n) && f.gen == Current(s) && f.pc.Claiming? && PcFits(f)
    requires s.gens[f.gen].gate.callbackCalled
    requires Moved(n, Weigh(f, Current(s)), Weigh(f.(pc := AfterDelivery(f.role)), Current(s)), n')
    ensures CountsOk(c, s, n')
  {
  }

  /** A local error report sits on a call that is bound to request the finish. */
  lemma ReporterIsBound(c: Settings, s: State, t: nat)
    requires Inv(c, s) && t < |s.stacks| && s.stacks[t].Running? && s.stacks[t].top.role.LocalError?
    requires !s.stacks[t].top.pc.Entering? && !s.stacks[t].top.pc.Unwinding?
    ensures Total(s.stacks, Current(s)).bound > 0
  {
    TopOk(c, s, t);
    var b := s.stacks[t].below;
    assert Linked(s.stacks[t]) && In(b.top, s.stacks[t]);
    assert FrameOk(c, s, b.top);
    FrameIsInTotal(s.stacks, t, b.top, Current(s));
  }

  lemma AcceptedClaimKeepsInv(c: Settings, s: State, t: nat, choice: Choice, s': State)
    requires Inv(c, s) && AtPc(c, s, t, choice, s') && s.stacks[t].top.pc.Claiming?
    requires !s.gens[s.stacks[t].top.gen].gate.callbackCalled
    ensures Inv(c, s')
  {
    TopOk(c, s, t);
    var f, n := s.stacks[t].top, Total(s.stacks, Current(s));
    FrameIsInTotal(s.stacks, t, f, Current(s)) by { assert In(f, s.stacks[t]); }
    if f.role.LocalError? {
      ReporterIsBound(c, s, t);
    }
    forall n' | Moved(n, Weigh(f, Current(s)), Weigh(f.(pc := InCallback), Current(s)), n') ensures CountsOk(c, s', n') {
      ClaimCounts(c, s, f, n, s', n');
    }
    MoveKeepsInv(c, s, s', t, InCallback);
  }

  lemma ClaimKeepsInv(c: Settings, s: State, t: nat, choice: Choice, s': State)
    requires Inv(c, s) && AtPc(c, s, t, choice, s') && s.stacks[t].top.pc.Claiming?
    ensures Inv(c, s')
  {
    TopOk(c, s, t);
    if !s.gens[s.stacks[t].top.gen].gate.callbackCalled {
      AcceptedClaimKeepsInv(c, s, t, choice, s');
    } else {
      var f, n := s.stacks[t].top, Total(s.stacks, Current(s));
      var pc := AfterDelivery(f.role);
      forall n' | Moved(n, Weigh(f, Current(s)), Weigh(f.(pc := pc), Current(s)), n') ensures CountsOk(c, s', n') {
        TooLateCounts(c, s, f, n, n');
      }
      MoveKeepsInv(c, s, s', t, pc);
    }
  }

  lemma InCallbackKeepsInv(c: Settings, s: State, t: nat, choice: Choice, s': State)
    requires Inv(c, s) && AtPc(c, s, t, choice, s') && s.stacks[t].top.pc.InCallback?
    ensures Inv(c, s')
  {
    match choice
    case Go => TopOk(c, s, t); MoveKeepsInv(c, s, s', t, s'.stacks[t].top.pc);
    case Reenter => ReenterKeepsInv(c, s, t, Reentrant, s');
    case ReenterError => ReenterKeepsInv(c, s, t, ReentrantError, s');
  }

  /** The sender throws; the attempt, if it is still outstanding, will not be completed. */
  lemma ThrowCounts(c: Settings, s: State, f: Frame, n: Tally, outstanding: set<Attempt>, n': Tally)
    requires s.gens != [] && CountsOk(c, s, n) && f.gen == Current(s) && f.pc.Sending? && PcFits(f)
    requires f.pc.attempt.gen == Current(s) && (f.pc.attempt in s.outstanding || c(f.gen).senderMayThrowLate)
    requires outstanding == s.outstanding - {f.pc.attempt} && Leq(Weigh(f, Current(s)), n)
    requires c(f.gen).maxRetry <= 0 ==> Live(s.outstanding, f.gen) <= {f.pc.attempt}
    requires Moved(n, Weigh(f, Current(s)), Weigh(f.(pc := Failing), Current(s)), n')
    ensures CountsOk(c, s.(outstanding := outstanding), n')
  {
    if f.pc.attempt in s.outstanding {
      LiveWithout(s.outstanding, f.pc.attempt, Current(s));
    } else {
      assert outstanding == s.outstanding;
      assert c(f.gen).maxRetry <= 0 ==> Live(s.outstanding, f.gen) == {};
    }
  }

  lemma SentCounts(c: Settings, s: State, f: Frame, n: Tally, n': Tally)
    requires s.gens != [] && CountsOk(c, s, n) && f.gen == Current(s) && f.pc.Sending? && PcFits(f)
    requires Moved(n, Weigh(f, Current(s)), Weigh(f.(pc := Leaving), Current(s)), n')
    ensures CountsOk(c, s, n')
  {
  }

  lemma SentKeepsInv(c: Settings, s: State, t: nat, s': State)
    requires Inv(c, s) && AtPc(c, s, t, Go, s') && s.stacks[t].top.pc.Sending?
    ensures Inv(c, s')
  {
    TopOk(c, s, t);
    var f, n := s.stacks[t].top, Total(s.stacks, Current(s));
    forall n' | Moved(n, Weigh(f, Current(s)), Weigh(f.(pc := Leaving), Current(s)), n') ensures CountsOk(c, s', n') {
      SentCounts(c, s, f, n, n');
    }
    MoveKeepsInv(c, s, s', t, Leaving);
  }

  lemma ThrowKeepsInv(c: Settings, s: State, t: nat, s': State)
    requires Inv(c, s) && AtPc(c, s, t, Throw, s') && s.stacks[t].top.pc.Sending?
    ensures Inv(c, s')
  {
    TopOk(c, s, t);
    ThrowKeepsFrames(c, s, t, s');
    var f, n := s.stacks[t].top, Total(s.stacks, Current(s));
    FrameIsInTotal(s.stacks, t, f, Current(s)) by { assert In(f, s.stacks[t]); }
    forall n' | Moved(n, Weigh(f, Current(s)), Weigh(f.(pc := Failing), Current(s)), n') ensures CountsOk(c, s', n') {
      ThrowCounts(c, s, f, n, s.outstanding - {f.pc.attempt}, n');
    }
    TopMoveKeepsInv(c, s, s', t, f.(pc := Failing));
  }

  lemma SendingKeepsInv(c: Settings, s: State, t: nat, choice: Choice, s': State)
    requires Inv(c, s) && AtPc(c, s, t, choice, s') && s.stacks[t].top.pc.Sending?
    ensures Inv(c, s')
  {
    if choice == Go {
      SentKeepsInv(c, s, t, s');
    } else {
      ThrowKeepsInv(c, s, t, s');
    }
  }

  lemma ThrowKeepsFrames(c: Settings, s: State, t: nat, s': State)
    requires Inv(c, s) && AtPc(c, s, t, Throw, s') && s.stacks[t].top.pc.Sending?
    ensures FramesStay(c, s, s') && s'.outstanding == s.outstanding - {s.stacks[t].top.pc.attempt}
    ensures FrameOk(c, s', s.stacks[t].top.(pc := Failing))
  {
    TopOk(c, s, t);
    var a := s.stacks[t].top.pc.attempt;
    if a in s.outstanding {
      DroppingKeepsFrames(c, s, s', a);
    } else {
      GrowingKeepsFrames(c, s, s');
    }
  }

  lemma RecheckingKeepsInv(c: Settings, s: State, t: nat, choice: Choice, s': State)
    requires Inv(c, s) && AtPc(c, s, t, choice, s') && s.stacks[t].top.pc.Rechecking?
    ensures Inv(c, s')
  {
    TopOk(c, s, t);
    MoveKeepsInv(c, s, s', t, s'.stacks[t].top.pc);
  }

  lemma FinishingKeepsInv(c: Settings, s: State, t: nat, choice: Choice, s': State)
    requires Inv(c, s) && AtPc(c, s, t, choice, s') && s.stacks[t].top.pc.Finishing?
    ensures Inv(c, s')
  {
    TopOk(c, s, t);
    MoveKeepsInv(c, s, s', t, Leaving);
  }

  lemma LeaveClaimsKeepsInv(c: Settings, s: State, t: nat, choice: Choice, s': State)
    requires Inv(c, s) && AtPc(c, s, t, choice, s') && s.stacks[t].top.pc.Leaving?
    requires AfterLeave(s.gens[s.stacks[t].top.gen].gate).accepted
    ensures Inv(c, s')
  {
    TopOk(c, s, t);
    LocalErrorLeavesSomeone(c, s, t);
    var f := s.stacks[t].top;
    var f' := f.(pc := Cleaning(c(f.gen).extraHooks + 1));
    GrowingKeepsFrames(c, s, s');
    assert Weigh(f, Current(s)).scopes == 1;
    forall n' | Moved(Total(s.stacks, Current(s)), Weigh(f, Current(s)), Weigh(f', Current(s)), n')
      ensures CountsOk(c, s', n')
    {
      LeaveCounts(c, s, f, c(f.gen).extraHooks + 1, Total(s.stacks, Current(s)), n');
    }
    TopMoveKeepsInv(c, s, s', t, f');
  }

  lemma LeaveCounts(c: Settings, s: State, f: Frame, hooks: nat, n: Tally, n': Tally)
    requires s.gens != [] && CountsOk(c, s, n) && f.pc.Leaving? && f.gen == Current(s)
    requires s.gens[f.gen].gate.activeCalls > 0 && AfterLeave(s.gens[f.gen].gate).accepted
    requires Moved(n, Weigh(f, Current(s)), Weigh(f.(pc := Cleaning(hooks)), Current(s)), n')
    ensures CountsOk(c, SetGate(s, f.gen, AfterLeave(s.gens[f.gen].gate).gate), n')
  {
  }

  /** A local error report never leaves last: its caller is still inside the gate. */
  lemma LocalErrorLeavesSomeone(c: Settings, s: State, t: nat)
    requires Inv(c, s) && t < |s.stacks| && s.stacks[t].Running? && s.stacks[t].top.pc.Leaving?
    ensures s.stacks[t].top.role.LocalError? ==> s.gens[Current(s)].gate.activeCalls >= 2
  {
    TopOk(c, s, t);
    assert Linked(s.stacks[t]);
    if s.stacks[t].top.role.LocalError? {
      assert In(s.stacks[t].below.top, s.stacks[t]);
      assert FrameOk(c, s, s.stacks[t].below.top);
      TopTwoAreCounted(WeightIn(Current(s)), s.stacks, t);
    }
  }

  lemma LeavingKeepsInv(c: Settings, s: State, t: nat, choice: Choice, s': State)
    requires Inv(c, s) && AtPc(c, s, t, choice, s') && s.stacks[t].top.pc.Leaving?
    ensures Inv(c, s')
  {
    if AfterLeave(s.gens[s.stacks[t].top.gen].gate).accepted {
      LeaveClaimsKeepsInv(c, s, t, choice, s');
    } else {
      TopOk(c, s, t);
      assert Linked(s.stacks[t]);
      ReturnKeepsInv(c, s, s', t);
    }
  }

  lemma HookCounts(c: Settings, s: State, f: Frame, pc: Pc, s': State, n: Tally, n': Tally)
    requires s.gens != [] && CountsOk(c, s, n) && f.gen == Current(s) && f.pc.Cleaning? && PcFits(f)
    requires Leq(Weigh(f, Current(s)), n) && Moved(n, Weigh(f, Current(s)), Weigh(f.(pc := pc), Current(s)), n')
    requires || (pc.Cleaning? && s' == s.(stacks := s'.stacks))
             || (pc.Unwinding? && s'.owner != InUse &&
                 var g := s.gens[f.gen];
                 s' == s.(gens := s.gens[f.gen := g.(cleanups := g.cleanups + 1)], owner := s'.owner, stacks := s'.stacks))
    ensures CountsOk(c, s', n')
  {
  }

  lemma HookKeepsInv(c: Settings, s: State, t: nat, choice: Choice, s': State)
    requires Inv(c, s) && AtPc(c, s, t, choice, s') && s.stacks[t].top.pc.Cleaning?
    requires choice.Go? || choice.Discard?
    ensures Inv(c, s')
  {
    TopOk(c, s, t);
    var f, n, pc := s.stacks[t].top, Total(s.stacks, Current(s)), s'.stacks[t].top.pc;
    FrameIsInTotal(s.stacks, t, f, Current(s)) by { assert In(f, s.stacks[t]); }
    forall n' | Moved(n, Weigh(f, Current(s)), Weigh(f.(pc := pc), Current(s)), n') ensures CountsOk(c, s', n') {
      HookCounts(c, s, f, pc, s', n, n');
    }
    MoveKeepsInv(c, s, s', t, pc);
  }

  lemma CleaningKeepsInv(c: Settings, s: State, t: nat, choice: Choice, s': State)
    requires Inv(c, s) && AtPc(c, s, t, choice, s') && s.stacks[t].top.pc.Cleaning?
    ensures Inv(c, s')
  {
    match choice
    case Reenter => ReenterKeepsInv(c, s, t, Reentrant, s');
    case ReenterError => ReenterKeepsInv(c, s, t, ReentrantError, s');
    case _ => HookKeepsInv(c, s, t, choice, s');
  }

  lemma UnwindingKeepsInv(c: Settings, s: State, t: nat, choice: Choice, s': State)
    requires Inv(c, s) && AtPc(c, s, t, choice, s') && s.stacks[t].top.pc.Unwinding?
    ensures Inv(c, s')
  {
    TopOk(c, s, t);
    assert Linked(s.stacks[t]);
    ReturnKeepsInv(c, s, s', t);
  }

  lemma AdvanceKeepsInv(c: Settings, s: State, t: nat, choice: Choice, s': State)
    requires Inv(c, s) && Next(c, s, Advance(t, choice)) == Some(s')
    ensures Inv(c, s')
  {
    match s.stacks[t].top.pc
    case Entering =>
      if AfterEnter(s.gens[s.stacks[t].top.gen].gate).accepted {
        EnterKeepsInv(c, s, t, choice, s');
      } else {
        RefusalKeepsInv(c, s, t, choice, s');
      }
    case Checking => CheckingKeepsInv(c, s, t, choice, s');
    case Working => WorkingKeepsInv(c, s, t, choice, s');
    case Failing => FailingKeepsInv(c, s, t, choice, s');
    case Claiming => ClaimKeepsInv(c, s, t, choice, s');
    case InCallback => InCallbackKeepsInv(c, s, t, choice, s');
    case Sending(_) => SendingKeepsInv(c, s, t, choice, s');
    case AwaitingError =>
    case AwaitingRetry =>
    case Rechecking => RecheckingKeepsInv(c, s, t, choice, s');
    case Finishing => FinishingKeepsInv(c, s, t, choice, s');
    case Leaving => LeavingKeepsInv(c, s, t, choice, s');
    case Cleaning(_) => CleaningKeepsInv(c, s, t, choice, s');
    case Unwinding => UnwindingKeepsInv(c, s, t, choice, s');
  }

  // ----- the environment -----

  lemma StartKeepsInv(c: Settings, s: State, t: nat, s': State)
    requires Inv(c, s) && Next(c, s, Start(t)) == Some(s')
    ensures Inv(c, s')
  {
    GrowingKeepsFrames(c, s, s');
    PushKeepsInv(c, s, s', t, Frame(Driver, Current(s), Entering));
  }

  /** An attempt becomes a finish function: the token is handed on. */
  lemma CompleteCounts(c: Settings, s: State, a: Attempt, n: Tally, n': Tally)
    requires s.gens != [] && CountsOk(c, s, n) && a in s.outstanding
    requires Moved(n, ZERO, Weigh(Frame(Completion, a.gen, Entering), Current(s)), n')
    ensures CountsOk(c, s.(outstanding := s.outstanding - {a}), n')
  {
    LiveWithout(s.outstanding, a, Current(s));
  }

  lemma CompleteKeepsInv(c: Settings, s: State, t: nat, a: Attempt, s': State)
    requires Inv(c, s) && Next(c, s, Complete(t, a)) == Some(s')
    ensures Inv(c, s')
  {
    var n, callee := Total(s.stacks, Current(s)), Frame(Completion, a.gen, Entering);
    DroppingKeepsFrames(c, s, s', a);
    forall n' | Moved(n, ZERO, Weigh(callee, Current(s)), n') ensures CountsOk(c, s', n') {
      CompleteCounts(c, s, a, n, n');
      StacksDoNotCount(c, s.(outstanding := s.outstanding - {a}), s', n');
    }
    PushKeepsInv(c, s, s', t, callee);
  }

  /** A call that nobody counts on is started. */
  lemma WeightlessPushKeepsInv(c: Settings, s: State, s': State, t: nat, callee: Frame)
    requires Inv(c, s) && TransportMayUse(s.stacks, t) && Weigh(callee, Current(s)) == ZERO
    requires s' == s.(stacks := Place(s.stacks, t, Running(callee, StackAt(s.stacks, t))))
    requires callee.pc.Entering? && !callee.role.LocalError? && FrameOk(c, s', callee)
    ensures Inv(c, s')
  {
    GrowingKeepsFrames(c, s, s');
    var n := Total(s.stacks, Current(s));
    forall n' | Moved(n, ZERO, ZERO, n') ensures CountsOk(c, s', n') {
      assert n' == n;
      StacksDoNotCount(c, s, s', n);
    }
    PushKeepsInv(c, s, s', t, callee);
  }

  lemma LateKeepsInv(c: Settings, s: State, t: nat, g: nat, s': State)
    requires Inv(c, s) && Next(c, s, CompleteAgain(t, g)) == Some(s')
    ensures Inv(c, s')
  {
    WeightlessPushKeepsInv(c, s, s', t, Frame(Late, g, Entering));
  }

  lemma HookFailsKeepsInv(c: Settings, s: State, t: nat, a: Attempt, s': State)
    requires Inv(c, s) && Next(c, s, HookFails(t, a)) == Some(s')
    ensures Inv(c, s')
  {
    WeightlessPushKeepsInv(c, s, s', t, Frame(HookError(a), Current(s), Entering));
  }

  /** Once the object is back in the cache, whatever is left on a stack is refused or done. */
  lemma LeftoversAreHarmless(c: Settings, s: State, s': State, t: nat, f: Frame)
    requires Inv(c, s) && Next(c, s, Reacquire) == Some(s')
    requires t < |s.stacks| && In(f, s.stacks[t])
    ensures f.gen < Current(s') && FrameOk(c, s', f)
  {
    assert FrameOk(c, s, f);
    FrameIsInTotal(s.stacks, t, f, Current(s));
  }

  lemma NoneLiveYet(c: Settings, s: State, n: Tally)
    requires s.gens != [] && TokenOk(c, s, n)
    ensures Live(s.outstanding, Current(s) + 1) == {}
  {
  }

  lemma FreshCounts(c: Settings, s: State, n: Tally, s': State)
    requires s.gens != [] && CountsOk(c, s, n)
    requires Next(c, s, Reacquire) == Some(s')
    ensures CountsOk(c, s', ZERO)
  {
    NoneLiveYet(c, s, n);
    forall a | a in s.outstanding ensures !Calm(c, a.gen) {
      if a.gen == Current(s) {
        assert a in Live(s.outstanding, Current(s));
      }
    }
  }

  /** A new generation starts from nothing. */
  lemma ReacquireKeepsInv(c: Settings, s: State, s': State)
    requires Inv(c, s) && Next(c, s, Reacquire) == Some(s')
    ensures Inv(c, s')
  {
    var w := WeightIn(Current(s'));
    forall t, f | 0 <= t < |s.stacks| && In(f, s.stacks[t])
      ensures w(f) == ZERO && FrameOk(c, s', f)
    {
      LeftoversAreHarmless(c, s, s', t, f);
    }
    WeightlessStacks(w, s'.stacks, |s'.stacks|);
    FreshCounts(c, s, Total(s.stacks, Current(s)), s');
  }

  lemma StepKeepsInv(c: Settings, s: State, a: Action, s': State)
    requires Inv(c, s) && Next(c, s, a) == Some(s')
    ensures Inv(c, s')
  {
    match a
    case Start(t) => StartKeepsInv(c, s, t, s');
    case Complete(t, attempt) => CompleteKeepsInv(c, s, t, attempt, s');
    case CompleteAgain(t, g) => LateKeepsInv(c, s, t, g, s');
    case HookFails(t, attempt) => HookFailsKeepsInv(c, s, t, attempt, s');
    case Advance(t, choice) => AdvanceKeepsInv(c, s, t, choice, s');
    case Reacquire => ReacquireKeepsInv(c, s, s');
    case ReacquireThrows =>
      assert Grows(s, s');
      GrowingKeepsFrames(c, s, s');
  }

  lemma {:induction false} RunKeepsInv(c: Settings, s: State, actions: seq<Action>)
    requires Inv(c, s) && Run(c, s, actions).Some?
    ensures Inv(c, Run(c, s, actions).value)
    decreases |actions|
  {
    if actions != [] {
      var s' := Next(c, s, actions[0]).value;
      StepKeepsInv(c, s, actions[0], s');
      RunKeepsInv(c, s', actions[1..]);
    }
  }
}
