/** The completion gate of one pipeline generation: four fields behind one mutex.

    The class follows the source's object; each of its methods is one critical
    section and is proved against a function on `Gate` values.  The interleavings of
    these sections are explored in the module `Lifecycle`. */
module CompletionGate {

  datatype Gate = Gate(callbackCalled: bool, finishCalled: bool, finishPending: bool, activeCalls: nat)

  const FRESH_GATE := Gate(false, false, false, 0)

  /** A gate after an operation, together with what the operation returned. */
  datatype Answer = Answer(gate: Gate, accepted: bool)

  function AfterEnter(g: Gate): Answer {
    if g.finishCalled then Answer(g, false) else Answer(g.(activeCalls := g.activeCalls + 1), true)
  }

  function AfterLeave(g: Gate): Answer
    requires g.activeCalls > 0
  {
    var g' := g.(activeCalls := g.activeCalls - 1);
    if g'.activeCalls != 0 || !g.finishPending || g.finishCalled then Answer(g', false)
    else Answer(g'.(finishCalled := true), true)
  }

  function AfterClaim(g: Gate): Answer {
    if g.callbackCalled || g.finishCalled then Answer(g, false) else Answer(g.(callbackCalled := true), true)
  }

  function AfterRequest(g: Gate): Gate {
    g.(finishPending := true)
  }

  class CompletionState {
    var callbackCalled: bool
    var finishCalled: bool
    var finishPending: bool
    var activeCalls: nat

    function Snapshot(): Gate
      reads this
    {
      Gate(callbackCalled, finishCalled, finishPending, activeCalls)
    }

    constructor ()
      ensures Snapshot() == FRESH_GATE
    {
      callbackCalled, finishCalled, finishPending, activeCalls := false, false, false, 0;
    }

    method Enter() returns (entered: bool)
      modifies this
      ensures Answer(Snapshot(), entered) == AfterEnter(old(Snapshot()))
      ensures entered <==> !old(finishCalled)
      ensures activeCalls == old(activeCalls) + if entered then 1 else 0
      ensures callbackCalled == old(callbackCalled) && finishCalled == old(finishCalled) && finishPending == old(finishPending)
    {
      if finishCalled {
        return false;
      }
      activeCalls := activeCalls + 1;
      return true;
    }

    /** Only a scope that entered may leave, so the counter is positive. */
    method Leave() returns (claimed: bool)
      requires activeCalls > 0
      modifies this
      ensures Answer(Snapshot(), claimed) == AfterLeave(old(Snapshot()))
      ensures claimed <==> old(activeCalls) == 1 && finishPending && !old(finishCalled)
      ensures activeCalls == old(activeCalls) - 1 && finishCalled == (old(finishCalled) || claimed)
      ensures callbackCalled == old(callbackCalled) && finishPending == old(finishPending)
    {
      activeCalls := activeCalls - 1;
      if activeCalls != 0 || !finishPending || finishCalled {
        return false;
      }
      finishCalled := true;
      return true;
    }

    method ClaimCallback() returns (claimed: bool)
      modifies this
      ensures Answer(Snapshot(), claimed) == AfterClaim(old(Snapshot()))
      ensures claimed <==> !old(callbackCalled) && !finishCalled
      ensures callbackCalled == (old(callbackCalled) || claimed)
      ensures finishCalled == old(finishCalled) && finishPending == old(finishPending) && activeCalls == old(activeCalls)
    {
      if callbackCalled || finishCalled {
        return false;
      }
      callbackCalled := true;
      return true;
    }

    method RequestFinish()
      modifies this
      ensures Snapshot() == AfterRequest(old(Snapshot()))
      ensures finishPending
      ensures callbackCalled == old(callbackCalled) && finishCalled == old(finishCalled) && activeCalls == old(activeCalls)
    {
      finishPending := true;
    }
  }

  // ----- every history of one gate -----

  datatype Op = EnterOp | LeaveOp | ClaimOp | RequestOp

  /** The gate after a history, and how often cleanup and the callback were handed out. */
  datatype Ledger = Ledger(gate: Gate, cleanups: nat, callbacks: nat)

  function Apply(l: Ledger, op: Op): Ledger
    requires op == LeaveOp ==> l.gate.activeCalls > 0
  {
    match op
    case EnterOp => l.(gate := AfterEnter(l.gate).gate)
    case LeaveOp =>
      var a := AfterLeave(l.gate);
      l.(gate := a.gate, cleanups := l.cleanups + if a.accepted then 1 else 0)
    case ClaimOp =>
      var a := AfterClaim(l.gate);
      l.(gate := a.gate, callbacks := l.callbacks + if a.accepted then 1 else 0)
    case RequestOp => l.(gate := AfterRequest(l.gate))
  }

  /** Scope discipline: no history leaves more often than it entered. */
  predicate Disciplined(l: Ledger, ops: seq<Op>)
    decreases |ops|
  {
    ops == [] ||
    ((ops[0] == LeaveOp ==> l.gate.activeCalls > 0) && Disciplined(Apply(l, ops[0]), ops[1..]))
  }

  function Replay(l: Ledger, ops: seq<Op>): Ledger
    requires Disciplined(l, ops)
    decreases |ops|
  {
    if ops == [] then l else Replay(Apply(l, ops[0]), ops[1..])
  }

  predicate Consistent(l: Ledger) {
    && (l.gate.finishCalled ==> l.gate.activeCalls == 0 && l.gate.finishPending)
    && l.cleanups == (if l.gate.finishCalled then 1 else 0)
    && l.callbacks == (if l.gate.callbackCalled then 1 else 0)
  }

  lemma {:induction false} ReplayKeepsConsistent(l: Ledger, ops: seq<Op>)
    requires Consistent(l) && Disciplined(l, ops)
    ensures Consistent(Replay(l, ops))
    ensures l.gate.finishCalled ==> Replay(l, ops).gate.finishCalled
    ensures l.gate.finishCalled ==> Replay(l, ops).callbacks == l.callbacks
    decreases |ops|
  {
    if ops != [] {
      ReplayKeepsConsistent(Apply(l, ops[0]), ops[1..]);
    }
  }

  lemma {:induction false} ReplaySplits(l: Ledger, first: seq<Op>, rest: seq<Op>)
    requires Disciplined(l, first + rest)
    ensures Disciplined(l, first) && Disciplined(Replay(l, first), rest)
    ensures Replay(l, first + rest) == Replay(Replay(l, first), rest)
    decreases |first|
  {
    if first == [] {
      assert first + rest == rest;
    } else {
      assert (first + rest)[1..] == first[1..] + rest;
      ReplaySplits(Apply(l, first[0]), first[1..], rest);
    }
  }

  /** In every disciplined history the cleanup is claimed at most once and the callback at
      most once; once the cleanup is claimed no scope is open, no later enter is accepted,
      and neither claim is ever handed out again. */
  lemma CleanupClaimedAtMostOnce(before: seq<Op>, after: seq<Op>)
    requires Disciplined(Ledger(FRESH_GATE, 0, 0), before + after)
    ensures var l := Replay(Ledger(FRESH_GATE, 0, 0), before + after); l.cleanups <= 1 && l.callbacks <= 1
    ensures Disciplined(Ledger(FRESH_GATE, 0, 0), before)
    ensures var m := Replay(Ledger(FRESH_GATE, 0, 0), before);
            var l := Replay(Ledger(FRESH_GATE, 0, 0), before + after);
            m.cleanups == 1 ==>
              m.gate.activeCalls == 0 && l.gate.activeCalls == 0 && !AfterEnter(l.gate).accepted
              && l.cleanups == 1 && l.callbacks == m.callbacks
  {
    var l0 := Ledger(FRESH_GATE, 0, 0);
    ReplaySplits(l0, before, after);
    ReplayKeepsConsistent(l0, before);
    ReplayKeepsConsistent(Replay(l0, before), after);
  }

  /** The operations of all scopes of one generation, in whatever order they got the mutex. */
  method Drive(ops: seq<Op>) returns (cleanups: nat, callbacks: nat)
    requires Disciplined(Ledger(FRESH_GATE, 0, 0), ops)
    ensures cleanups <= 1 && callbacks <= 1
    ensures var l := Replay(Ledger(FRESH_GATE, 0, 0), ops); cleanups == l.cleanups && callbacks == l.callbacks
  {
    var state := new CompletionState();
    ghost var all := Replay(Ledger(FRESH_GATE, 0, 0), ops);
    cleanups, callbacks := 0, 0;
    for i := 0 to |ops|
      invariant fresh(state) && Consistent(Ledger(state.Snapshot(), cleanups, callbacks))
      invariant Disciplined(Ledger(state.Snapshot(), cleanups, callbacks), ops[i..])
      invariant Replay(Ledger(state.Snapshot(), cleanups, callbacks), ops[i..]) == all
    {
      assert ops[i..][1..] == ops[i + 1..];
      ghost var before := Ledger(state.Snapshot(), cleanups, callbacks);
      match ops[i] {
        case EnterOp =>
          var _ := state.Enter();
        case LeaveOp =>
          var claimed := state.Leave();
          cleanups := cleanups + if claimed then 1 else 0;
        case ClaimOp =>
          var claimed := state.ClaimCallback();
          callbacks := callbacks + if claimed then 1 else 0;
        case RequestOp =>
          state.RequestFinish();
      }
      assert Ledger(state.Snapshot(), cleanups, callbacks) == Apply(before, ops[i]);
    }
  }
}
