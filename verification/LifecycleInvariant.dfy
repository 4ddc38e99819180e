/** The inductive invariant of the lifecycle machine.

    Responsibility for the run is counted: while no callback has been claimed there is
    someone (a client that has not called yet, an outstanding attempt, or a frame that has
    not made up its mind) who will claim it, and once the callback is claimed someone is
    bound to request the finish.  All counts are taken over the frames of the current
    generation.

    Most of the invariant holds whatever the settings are.  What needs more is guarded by
    the condition it needs. */
module LifecycleInvariant {
  import opened CompletionGate
  import opened Lifecycle

  /** No generation has both retries and hooks that report errors. */
  ghost predicate Orderly(c: Settings) {
    forall g: nat :: c(g).maxRetry <= 0 || !c(g).hooksMayFail
  }

  /** Without retries anything goes, with retries neither a failing hook nor a late throw. */
  predicate TameConfig(c: Config) {
    c.maxRetry <= 0 || (!c.hooksMayFail && !c.senderMayThrowLate)
  }

  ghost predicate Tame(c: Settings) {
    forall g: nat :: TameConfig(c(g))
  }

  /** A generation whose cleanup never begins under an outstanding attempt. */
  ghost predicate Calm(c: Settings, g: nat) {
    c(g).maxRetry <= 0 || (Orderly(c) && !c(g).hooksMayFail && !c(g).senderMayThrowLate)
  }

  /** No hook of an earlier generation can be left over. */
  ghost predicate Steady(c: Settings, s: State) {
    Orderly(c) || |s.gens| == 1
  }

  /** The outstanding attempts of one generation. */
  function Live(outstanding: set<Attempt>, gen: nat): set<Attempt> {
    set a | a in outstanding && a.gen == gen
  }

  // ----- counting frames -----

  datatype Tally = Tally(
    scopes: nat,    // calls inside the gate
    ready: nat,     // asyncExecute calls that may still send
    replies: nat,   // finish functions that may still retry
    undecided: nat, // frames not ready that will claim the callback if nobody else does
    bound: nat,     // frames that will request the finish once the callback is claimed
    spent: nat,     // asyncExecute calls past their decision
    cleaners: nat)  // frames running the finalizers

  const ZERO := Tally(0, 0, 0, 0, 0, 0, 0)

  function Plus(a: Tally, b: Tally): Tally {
    Tally(a.scopes + b.scopes, a.ready + b.ready, a.replies + b.replies, a.undecided + b.undecided,
          a.bound + b.bound, a.spent + b.spent, a.cleaners + b.cleaners)
  }

  predicate Leq(a: Tally, b: Tally) {
    && a.scopes <= b.scopes && a.ready <= b.ready && a.replies <= b.replies && a.undecided <= b.undecided
    && a.bound <= b.bound && a.spent <= b.spent && a.cleaners <= b.cleaners
  }

  function Bit(b: bool): nat { if b then 1 else 0 }

  predicate IsReady(f: Frame) {
    f.role.Driver? && (f.pc.Entering? || f.pc.Checking? || f.pc.Working?)
  }

  predicate IsReply(f: Frame) {
    f.role.Completion? && (f.pc.Entering? || f.pc.Checking? || f.pc.Working?)
  }

  predicate IsUndecided(f: Frame) {
    || (f.role.Driver? && (f.pc.Failing? || f.pc.Claiming?))
    || (f.role.LocalError? && (f.pc.Entering? || f.pc.Checking? || f.pc.Claiming?))
    || (f.role.Completion? && (f.pc.Entering? || f.pc.Checking? || f.pc.Working? || f.pc.Failing? || f.pc.Claiming?))
  }

  predicate IsBound(f: Frame) {
    || (f.role.Driver? &&
        (f.pc.Failing? || f.pc.Claiming? || f.pc.InCallback? || f.pc.AwaitingError? || f.pc.Finishing?))
    || (f.role.Completion? && !f.pc.Leaving? && !f.pc.Cleaning? && !f.pc.Unwinding?)
  }

  predicate IsSpent(f: Frame) {
    f.role.Driver? && InScope(f) && !IsReady(f)
  }

  function Weigh(f: Frame, cur: nat): Tally {
    if f.gen != cur then ZERO else
    Tally(Bit(InScope(f)), Bit(IsReady(f)), Bit(IsReply(f)), Bit(IsUndecided(f)), Bit(IsBound(f)),
          Bit(IsSpent(f)), Bit(f.pc.Cleaning?))
  }

  function WeightIn(cur: nat): Frame -> Tally {
    f => Weigh(f, cur)
  }

  function WeighStack(w: Frame -> Tally, st: Stack): Tally {
    match st
    case Idle => ZERO
    case Running(f, b) => Plus(w(f), WeighStack(w, b))
  }

  /** The sum over the first n stacks. */
  function Sum(w: Frame -> Tally, stacks: seq<Stack>, n: nat): Tally
    requires n <= |stacks|
  {
    if n == 0 then ZERO else Plus(Sum(w, stacks, n - 1), WeighStack(w, stacks[n - 1]))
  }

  function Total(stacks: seq<Stack>, cur: nat): Tally {
    Sum(WeightIn(cur), stacks, |stacks|)
  }

  lemma {:induction false} SamePrefixSameSum(w: Frame -> Tally, stacks: seq<Stack>, stacks': seq<Stack>, n: nat)
    requires n <= |stacks| && n <= |stacks'|
    requires forall i :: 0 <= i < n ==> stacks[i] == stacks'[i]
    ensures Sum(w, stacks, n) == Sum(w, stacks', n)
  {
    if n > 0 {
      SamePrefixSameSum(w, stacks, stacks', n - 1);
    }
  }

  lemma PlusMoves(a: Tally, b: Tally, c: Tally, d: Tally, x: Tally)
    requires Plus(a, b) == Plus(c, d)
    ensures Plus(Plus(a, x), b) == Plus(Plus(c, x), d)
  {
  }

  lemma PlusSwaps(a: Tally, x: Tally, y: Tally)
    ensures Plus(Plus(a, x), y) == Plus(Plus(a, y), x)
  {
  }

  lemma {:induction false} UpdateChangesOneStack(w: Frame -> Tally, stacks: seq<Stack>, t: nat, st: Stack, n: nat)
    requires t < n <= |stacks|
    ensures Plus(Sum(w, stacks[t := st], n), WeighStack(w, stacks[t])) == Plus(Sum(w, stacks, n), WeighStack(w, st))
  {
    var stacks' := stacks[t := st];
    if t == n - 1 {
      SamePrefixSameSum(w, stacks, stacks', t);
      PlusSwaps(Sum(w, stacks, t), WeighStack(w, st), WeighStack(w, stacks[t]));
    } else {
      UpdateChangesOneStack(w, stacks, t, st, n - 1);
      PlusMoves(Sum(w, stacks', n - 1), WeighStack(w, stacks[t]), Sum(w, stacks, n - 1), WeighStack(w, st),
                WeighStack(w, stacks[n - 1]));
    }
  }

  lemma PlaceChangesOneStack(w: Frame -> Tally, stacks: seq<Stack>, t: nat, st: Stack)
    requires t <= |stacks|
    ensures var placed := Place(stacks, t, st);
            Plus(Sum(w, placed, |placed|), WeighStack(w, StackAt(stacks, t)))
            == Plus(Sum(w, stacks, |stacks|), WeighStack(w, st))
  {
    if t < |stacks| {
      UpdateChangesOneStack(w, stacks, t, st, |stacks|);
    } else {
      SamePrefixSameSum(w, stacks, Place(stacks, t, st), t);
    }
  }

  lemma {:induction false} FrameIsCounted(w: Frame -> Tally, f: Frame, st: Stack)
    requires In(f, st)
    ensures Leq(w(f), WeighStack(w, st))
  {
    if st.top != f {
      FrameIsCounted(w, f, st.below);
    }
  }

  lemma {:induction false} StackIsCounted(w: Frame -> Tally, stacks: seq<Stack>, t: nat, n: nat)
    requires t < n <= |stacks|
    ensures Leq(WeighStack(w, stacks[t]), Sum(w, stacks, n))
  {
    if t < n - 1 {
      StackIsCounted(w, stacks, t, n - 1);
    }
  }

  lemma FrameIsInTotal(stacks: seq<Stack>, t: nat, f: Frame, cur: nat)
    requires t < |stacks| && In(f, stacks[t])
    ensures Leq(Weigh(f, cur), Total(stacks, cur))
  {
    FrameIsCounted(WeightIn(cur), f, stacks[t]);
    StackIsCounted(WeightIn(cur), stacks, t, |stacks|);
  }

  lemma TopTwoAreCounted(w: Frame -> Tally, stacks: seq<Stack>, t: nat)
    requires t < |stacks| && stacks[t].Running? && stacks[t].below.Running?
    ensures Leq(Plus(w(stacks[t].top), w(stacks[t].below.top)), Sum(w, stacks, |stacks|))
  {
    StackIsCounted(w, stacks, t, |stacks|);
    assert WeighStack(w, stacks[t]) == Plus(w(stacks[t].top), WeighStack(w, stacks[t].below));
  }

  lemma {:induction false} WeightlessStack(w: Frame -> Tally, st: Stack)
    requires forall f :: In(f, st) ==> w(f) == ZERO
    ensures WeighStack(w, st) == ZERO
  {
    if st.Running? {
      assert In(st.top, st);
      forall f | In(f, st.below) ensures w(f) == ZERO { assert In(f, st); }
      WeightlessStack(w, st.below);
    }
  }

  lemma {:induction false} WeightlessStacks(w: Frame -> Tally, stacks: seq<Stack>, n: nat)
    requires n <= |stacks|
    requires forall t, f :: 0 <= t < |stacks| && In(f, stacks[t]) ==> w(f) == ZERO
    ensures Sum(w, stacks, n) == ZERO
  {
    if n > 0 {
      WeightlessStack(w, stacks[n - 1]);
      WeightlessStacks(w, stacks, n - 1);
    }
  }

  // ----- what holds of each frame -----

  predicate IsReentrant(f: Frame) { f.role.Reentrant? || f.role.ReentrantError? }

  predicate PcFits(f: Frame) {
    && (f.role.LocalError? || f.role.HookError? || f.role.ReentrantError? ==>
          !f.pc.Working? && !f.pc.Failing? && !f.pc.Finishing?)
    && (f.role.LocalError? ==> !f.pc.Cleaning? && !f.pc.Unwinding?)
    && (IsReentrant(f) ==> f.pc.Entering? || f.pc.Checking? || f.pc.Leaving? || f.pc.Cleaning? || f.pc.Unwinding?)
    && (f.role.Late? ==> f.pc.Entering?)
    && (f.pc.Sending? || f.pc.AwaitingError? ==> f.role.Driver?)
    && (f.pc.AwaitingRetry? || f.pc.Rechecking? ==> f.role.Completion?)
  }

  predicate FrameOk(c: Settings, s: State, f: Frame)
    requires s.gens != []
  {
    var cur := Current(s);
    && f.gen <= cur
    && PcFits(f)
    && (!f.pc.Entering? && !f.pc.Unwinding? ==> f.gen == cur)
    && (f.role.Late? ==> s.gens[f.gen].gate.finishCalled)
    && (IsReentrant(f) ==> s.gens[f.gen].gate.callbackCalled)
    && (f.pc.InCallback? || f.pc.Finishing? || (f.role.LocalError? && f.pc.Leaving?) ==>
          s.gens[cur].gate.callbackCalled)
    && (f.role.HookError? ==> f.role.attempt in s.outstanding && c(f.role.attempt.gen).hooksMayFail)
    && (f.pc.Cleaning? ==> f.pc.left > 0)
    && (f.pc.Sending? ==> f.pc.attempt.id < s.nextAttempt && f.pc.attempt.gen == cur)
    && (c(cur).maxRetry <= 0 && f.pc.Sending? ==> Live(s.outstanding, cur) <= {f.pc.attempt})
  }

  /** A local error report sits on the asyncExecute call that waits for it, and nobody else
      sits there; a frame that waits is never on top. */
  predicate Linked(st: Stack) {
    st.Running? ==>
      && (st.top.role.LocalError? ==>
            st.below.Running? && st.below.top.pc.AwaitingError? && st.below.top.gen == st.top.gen)
      && (st.below.Running? && st.below.top.pc.AwaitingError? ==> st.top.role.LocalError?)
      && Linked(st.below)
  }

  predicate TopIsFree(st: Stack) {
    st.Running? ==> !st.top.pc.AwaitingError? && !st.top.pc.AwaitingRetry?
  }

  ghost predicate FramesOk(c: Settings, s: State)
    requires s.gens != []
  {
    && (forall t :: 0 <= t < |s.stacks| ==> Linked(s.stacks[t]) && TopIsFree(s.stacks[t]))
    && (forall t, f :: 0 <= t < |s.stacks| && In(f, s.stacks[t]) ==> FrameOk(c, s, f))
  }

  // ----- what holds of the gate and the counts -----

  function MaxRuns(c: Config): nat {
    if c.maxRetry > 0 then c.maxRetry + 1 else 1
  }

  predicate GateOk(s: State, n: Tally)
    requires s.gens != []
  {
    var cur := Current(s);
    var g := s.gens[cur];
    && (forall i :: 0 <= i < cur ==>
          s.gens[i].gate.finishCalled && s.gens[i].callbacks == 1 && s.gens[i].cleanups == 1)
    && g.gate.activeCalls == n.scopes
    && (g.gate.finishCalled ==> g.gate.finishPending && g.gate.activeCalls == 0)
    && (g.gate.finishPending ==> g.gate.callbackCalled)
    && (g.gate.finishPending && !g.gate.finishCalled ==> g.gate.activeCalls > 0)
    && g.callbacks == Bit(g.gate.callbackCalled)
    && (s.owner != InUse ==> g.gate.finishCalled)
    && g.cleanups == Bit(s.owner != InUse)
    && n.cleaners == Bit(g.gate.finishCalled && s.owner == InUse)
  }

  /** Who may still send an attempt, or is one. */
  function Sources(s: State, n: Tally): nat
    requires s.gens != []
  {
    Bit(!s.started) + |Live(s.outstanding, Current(s))| + n.ready
  }

  /** There is one token, from the client's call through attempts and retries. */
  predicate TokenOk(c: Settings, s: State, n: Tally)
    requires s.gens != []
  {
    && Sources(s, n) + n.replies <= 1
    && s.runs <= MaxRuns(c(Current(s)))
    && (n.ready > 0 || !s.started ==> s.runs < MaxRuns(c(Current(s))))
    && (forall a | a in s.outstanding :: a.gen <= Current(s) && a.id < s.nextAttempt)
  }

  /** Somebody will claim the callback, and then somebody is bound to request the finish. */
  ghost predicate ResponsibilityOk(c: Settings, s: State, n: Tally)
    requires s.gens != []
  {
    var g := s.gens[Current(s)].gate;
    && (!g.callbackCalled ==> Sources(s, n) + n.undecided >= 1)
    && (Steady(c, s) && g.callbackCalled && !g.finishPending ==> |Live(s.outstanding, Current(s))| + n.bound >= 1)
  }

  /** In a calm generation nothing is left to send once the finish is requested. */
  ghost predicate CalmOk(c: Settings, s: State, n: Tally)
    requires s.gens != []
  {
    var cur := Current(s);
    var g := s.gens[cur].gate;
    && (Calm(c, cur) && g.finishPending ==> Sources(s, n) == 0)
    && (forall a | a in s.outstanding :: Calm(c, a.gen) ==> a.gen == cur)
    // without retries: who has decided, has left nothing to send
    && (c(cur).maxRetry <= 0 ==> (n.bound > 0 ==> Sources(s, n) == 0) && Bit(!s.started) + n.ready + n.spent <= 1)
    // with retries: responsibility is a single token, gone with the callback
    && (c(cur).maxRetry > 0 && Calm(c, cur) ==>
          Sources(s, n) + n.undecided <= 1 && (g.callbackCalled ==> Sources(s, n) + n.undecided == 0))
  }

  ghost predicate CountsOk(c: Settings, s: State, n: Tally)
    requires s.gens != []
  {
    GateOk(s, n) && TokenOk(c, s, n) && ResponsibilityOk(c, s, n) && CalmOk(c, s, n)
  }

  ghost predicate Inv(c: Settings, s: State) {
    s.gens != [] && FramesOk(c, s) && CountsOk(c, s, Total(s.stacks, Current(s)))
  }

  lemma InitialInv(c: Settings)
    ensures Inv(c, INITIAL)
  {
  }
}
