/** The life of one pipeline object as a machine over interleaved steps.

    Every critical section of the gate is one step, and so is every stretch of code
    between two of them.  A thread is a stack of frames: one frame for each running call
    of `asyncExecute`, of `callbackError`, or of a finish function handed to the
    transport.  Calls nest (a transport may complete inline, a retry re-enters
    `asyncExecute` from a finish function, user code may call back in), and any number
    of threads take turns. */
module Lifecycle {
  import opened Wrappers
  import opened CompletionGate

  /** What a run may do.  `hooksMayFail`: a transport hook may call `callbackError` while
      its attempt is outstanding.  `senderMayThrowLate`: a sender may throw although the
      finish function it was given has already been called. */
  datatype Config = Config(maxRetry: int, hooksMayFail: bool, senderMayThrowLate: bool, extraHooks: nat)

  /** Every request configures its own pipeline, so each generation of an object has its own. */
  type Settings = nat -> Config

  datatype Role =
    | Driver          // asyncExecute, called by the client or by a retry
    | Reentrant       // asyncExecute, called again by user code
    | Completion      // the finish function of an attempt
    | Late            // the finish function of a generation that is already closed
    | LocalError      // callbackError, called by executeAttempt
    | HookError(attempt: Attempt)  // callbackError, called by a transport hook of an attempt
    | ReentrantError  // callbackError, called again by user code

  datatype Attempt = Attempt(id: nat, gen: nat)

  datatype Pc =
    | Entering | Checking | Working | Failing | Claiming | InCallback
    | Sending(attempt: Attempt) | AwaitingError | AwaitingRetry
    | Rechecking | Finishing | Leaving | Cleaning(left: nat) | Unwinding

  /** `gen` is the index of the gate that the call captured when it began. */
  datatype Frame = Frame(role: Role, gen: nat, pc: Pc)

  datatype Stack = Idle | Running(top: Frame, below: Stack)

  datatype Owner = InUse | Cached | Destroyed

  datatype Generation = Generation(gate: Gate, callbacks: nat, cleanups: nat)

  /** `gens` lists the gates of the object, the current one last; `runs` is `run_count`. */
  datatype State = State(
    gens: seq<Generation>,
    owner: Owner,
    started: bool,
    runs: nat,
    outstanding: set<Attempt>,
    nextAttempt: nat,
    stacks: seq<Stack>)

  const FRESH_GENERATION := Generation(FRESH_GATE, 0, 0)

  const INITIAL := State([FRESH_GENERATION], InUse, false, 0, {}, 0, [])

  datatype Choice = Go | Throw | ReportLocally | Retry | Reenter | ReenterError | Discard

  datatype Action =
    | Start(thread: nat)                             // the client calls asyncExecute
    | Complete(thread: nat, attempt: Attempt)        // the transport calls a finish function
    | CompleteAgain(thread: nat, gen: nat)           // ... of a closed generation, once more
    | HookFails(thread: nat, attempt: Attempt)       // a transport hook calls callbackError
    | Advance(thread: nat, choice: Choice)           // the top frame of a thread takes a step
    | Reacquire                                      // the pool hands the object out again
    | ReacquireThrows

  // ----- stacks -----

  function StackAt(stacks: seq<Stack>, t: nat): Stack {
    if t < |stacks| then stacks[t] else Idle
  }

  function Place(stacks: seq<Stack>, t: nat, st: Stack): seq<Stack>
    requires t <= |stacks|
  {
    if t < |stacks| then stacks[t := st] else stacks + [st]
  }

  /** A callee has returned: the caller, if it was waiting for it, goes on. */
  function Resume(st: Stack): Stack {
    match st
    case Idle => Idle
    case Running(f, b) =>
      Running(f.(pc := match f.pc case AwaitingError => Finishing case AwaitingRetry => Rechecking case _ => f.pc), b)
  }

  /** The transport may use a thread that is idle, or call back from inside a send. */
  predicate TransportMayUse(stacks: seq<Stack>, t: nat) {
    t <= |stacks| && (StackAt(stacks, t).Idle? || StackAt(stacks, t).top.pc.Sending?)
  }

  predicate InHook(st: Stack, a: Attempt) {
    st.Running? && (st.top.role == HookError(a) || InHook(st.below, a))
  }

  /** A transport hook of the attempt has called back and not returned: the attempt is neither
      completed nor given up meanwhile. */
  predicate HookRuns(stacks: seq<Stack>, a: Attempt) {
    exists t | 0 <= t < |stacks| :: InHook(stacks[t], a)
  }

  // ----- one step -----

  function Current(s: State): nat
    requires s.gens != []
  {
    |s.gens| - 1
  }

  function SetGate(s: State, g: nat, gate: Gate): State
    requires g < |s.gens|
  {
    s.(gens := s.gens[g := s.gens[g].(gate := gate)])
  }

  function Put(s: State, t: nat, st: Stack): State
    requires t <= |s.stacks|
  {
    s.(stacks := Place(s.stacks, t, st))
  }

  predicate IsError(r: Role) { r.LocalError? || r.HookError? || r.ReentrantError? }

  predicate IsCompletion(r: Role) { r.Completion? || r.Late? }

  /** Where a call goes after it delivered an outcome, or found one already delivered. */
  function AfterDelivery(r: Role): Pc {
    if IsError(r) then Leaving else if IsCompletion(r) then Rechecking else Finishing
  }

  /** enableRetry: retries are off for a non-positive limit, else bounded by run_count. */
  predicate MayRetry(c: Config, s: State) {
    0 < c.maxRetry && s.runs - 1 < c.maxRetry
  }

  function Return(s: State, t: nat, f: Frame, below: Stack): State
    requires t <= |s.stacks|
  {
    Put(s, t, Resume(below))
  }

  function Goto(s: State, t: nat, f: Frame, below: Stack, pc: Pc): State
    requires t <= |s.stacks|
  {
    Put(s, t, Running(f.(pc := pc), below))
  }

  function Call(s: State, t: nat, f: Frame, below: Stack, pc: Pc, callee: Role): State
    requires t <= |s.stacks| && s.gens != []
  {
    Put(s, t, Running(Frame(callee, Current(s), Entering), Running(f.(pc := pc), below)))
  }

  function Step(c: Settings, s: State, t: nat, f: Frame, below: Stack, choice: Choice): Option<State>
    requires t <= |s.stacks| && f.gen < |s.gens|
  {
    var gate := s.gens[f.gen].gate;
    var cur := Current(s);
    var now := s.gens[cur].gate;
    match f.pc
    case Entering =>
      if AfterEnter(gate).accepted then Some(Goto(SetGate(s, f.gen, AfterEnter(gate).gate), t, f, below, Checking))
      else Some(Return(s, t, f, below))
    case Checking =>
      if gate.callbackCalled then
        Some(Goto(s, t, f, below, if IsCompletion(f.role) then Rechecking else Leaving))
      else
        Some(Goto(s, t, f, below, if IsError(f.role) then Claiming else Working))
    case Working => if IsCompletion(f.role) then Respond(c, s, t, f, below, choice) else Execute(s, t, f, below, choice)
    case Failing => Some(Goto(s, t, f, below, if now.callbackCalled then AfterDelivery(f.role) else Claiming))
    case Claiming =>
      var a := AfterClaim(now);
      if a.accepted then
        var s' := SetGate(s, cur, a.gate);
        var s'' := s'.(gens := s'.gens[cur := s'.gens[cur].(callbacks := s'.gens[cur].callbacks + 1)]);
        Some(Goto(s'', t, f, below, InCallback))
      else
        Some(Goto(s, t, f, below, AfterDelivery(f.role)))
    case InCallback =>
      (match choice
       case Go => Some(Goto(s, t, f, below, AfterDelivery(f.role)))
       case Reenter => Some(Call(s, t, f, below, InCallback, Reentrant))
       case ReenterError => Some(Call(s, t, f, below, InCallback, ReentrantError))
       case _ => None)
    case Sending(a) =>
      (match choice
       case Go => Some(Goto(s, t, f, below, Leaving))
       case Throw =>
         if a in s.outstanding then
           if !HookRuns(s.stacks, a) then Some(Goto(s.(outstanding := s.outstanding - {a}), t, f, below, Failing)) else None
         else
           if c(f.gen).senderMayThrowLate then Some(Goto(s, t, f, below, Failing)) else None
       case _ => None)
    case AwaitingError => None
    case AwaitingRetry => None
    case Rechecking => Some(Goto(s, t, f, below, if gate.callbackCalled then Finishing else Leaving))
    case Finishing => Some(Goto(SetGate(s, cur, AfterRequest(now)), t, f, below, Leaving))
    case Leaving =>
      if gate.activeCalls == 0 then None else
      var a := AfterLeave(gate);
      var s' := SetGate(s, f.gen, a.gate);
      if a.accepted then Some(Goto(s', t, f, below, Cleaning(c(f.gen).extraHooks + 1))) else Some(Return(s', t, f, below))
    case Cleaning(left) => Clean(s, t, f, below, left, choice)
    case Unwinding => Some(Return(s, t, f, below))
  }

  /** executeAttempt up to and including the call of the sender. */
  function Execute(s: State, t: nat, f: Frame, below: Stack, choice: Choice): Option<State>
    requires t <= |s.stacks| && s.gens != []
  {
    var s' := s.(runs := s.runs + 1);
    match choice
    case ReportLocally => Some(Call(s', t, f, below, AwaitingError, LocalError))
    case Throw => Some(Goto(s', t, f, below, Failing))
    case Go =>
      var a := Attempt(s.nextAttempt, f.gen);
      Some(Goto(s'.(outstanding := s.outstanding + {a}, nextAttempt := s.nextAttempt + 1), t, f, below, Sending(a)))
    case _ => None
  }

  /** handleResponse after its first check: parse, then throw, deliver or retry. */
  function Respond(c: Settings, s: State, t: nat, f: Frame, below: Stack, choice: Choice): Option<State>
    requires t <= |s.stacks| && s.gens != []
  {
    match choice
    case Throw => Some(Goto(s, t, f, below, Failing))
    case Go => Some(Goto(s, t, f, below, Claiming))
    case Retry => if MayRetry(c(Current(s)), s) then Some(Call(s, t, f, below, AwaitingRetry, Driver)) else None
    case _ => None
  }

  /** runFinish: the hooks run in reverse, so the pool's hook, registered first, is last. */
  function Clean(s: State, t: nat, f: Frame, below: Stack, left: nat, choice: Choice): Option<State>
    requires t <= |s.stacks| && f.gen < |s.gens|
  {
    if left == 0 then None
    else if left == 1 then
      if choice != Go && choice != Discard then None else
      var g := s.gens[f.gen];
      var s' := s.(gens := s.gens[f.gen := g.(cleanups := g.cleanups + 1)],
                   owner := if choice == Go then Cached else Destroyed);
      Some(Goto(s', t, f, below, Unwinding))
    else
      match choice
      case Go => Some(Goto(s, t, f, below, Cleaning(left - 1)))
      case Reenter => Some(Call(s, t, f, below, f.pc, Reentrant))
      case ReenterError => Some(Call(s, t, f, below, f.pc, ReentrantError))
      case _ => None
  }

  function Next(c: Settings, s: State, a: Action): Option<State> {
    if s.gens == [] then None else
    match a
    case Start(t) =>
      if s.owner != InUse || s.started || t > |s.stacks| || !StackAt(s.stacks, t).Idle? then None else
      Some(Put(s.(started := true), t, Running(Frame(Driver, Current(s), Entering), Idle)))
    case Complete(t, a) =>
      if a !in s.outstanding || HookRuns(s.stacks, a) || !TransportMayUse(s.stacks, t) then None else
      Some(Put(s.(outstanding := s.outstanding - {a}), t, Running(Frame(Completion, a.gen, Entering), StackAt(s.stacks, t))))
    case CompleteAgain(t, g) =>
      if g >= |s.gens| || !s.gens[g].gate.finishCalled || !TransportMayUse(s.stacks, t) then None else
      Some(Put(s, t, Running(Frame(Late, g, Entering), StackAt(s.stacks, t))))
    case HookFails(t, a) =>
      if a !in s.outstanding || !c(a.gen).hooksMayFail || !TransportMayUse(s.stacks, t) then None else
      Some(Put(s, t, Running(Frame(HookError(a), Current(s), Entering), StackAt(s.stacks, t))))
    case Advance(t, choice) =>
      if t >= |s.stacks| || s.stacks[t].Idle? || s.stacks[t].top.gen >= |s.gens| then None else
      Step(c, s, t, s.stacks[t].top, s.stacks[t].below, choice)
    case Reacquire =>
      if s.owner != Cached then None else
      Some(s.(gens := s.gens + [FRESH_GENERATION], owner := InUse, started := false, runs := 0))
    case ReacquireThrows => if s.owner != Cached then None else Some(s.(owner := Destroyed))
  }

  /** All steps but those of the pool. */
  predicate OneGeneration(a: Action) { !a.Reacquire? && !a.ReacquireThrows? }

  // ----- whole runs -----

  function Run(c: Settings, s: State, actions: seq<Action>): Option<State>
    decreases |actions|
  {
    if actions == [] then Some(s) else
    match Next(c, s, actions[0])
    case None => None
    case Some(s') => Run(c, s', actions[1..])
  }

  ghost predicate Reachable(c: Settings, s: State) {
    exists actions :: Run(c, INITIAL, actions) == Some(s)
  }

  // ----- what a run must keep -----

  /** A transport may touch the object through its data callbacks as long as an attempt is
      outstanding; so there is at most one, it belongs to the current generation, and the
      object has not begun its cleanup, let alone been recycled or destroyed. */
  predicate Safe(s: State) {
    && s.gens != []
    && |s.outstanding| <= 1
    && (s.outstanding != {} ==> s.owner == InUse && !s.gens[Current(s)].gate.finishCalled)
    && (forall a | a in s.outstanding :: a.gen == Current(s))
  }

  predicate Quiet(s: State) {
    s.outstanding == {} && forall t | 0 <= t < |s.stacks| :: s.stacks[t].Idle?
  }

  /** A call that got past the gate and has not left it. */
  predicate InScope(f: Frame) {
    !f.pc.Entering? && !f.pc.Cleaning? && !f.pc.Unwinding?
  }

  predicate In(f: Frame, st: Stack) {
    st.Running? && (st.top == f || In(f, st.below))
  }
}
