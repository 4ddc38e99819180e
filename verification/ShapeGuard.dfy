/** The streaming shape guard of bounded JSON responses: it sees one parse event at a time
    and must still enforce limits on the whole document.

    A document is a tree; the parser reports it as events with the depth of the parent
    (the root has depth 0), the keys and values of a container one level deeper. */
module ShapeGuard {
  import opened Wrappers

  datatype Json = Scalar | Array(items: Items) | Object(members: Items)
  datatype Items = End | More(head: Json, tail: Items)

  datatype Kind = ObjectStart | ObjectEnd | ArrayStart | ArrayEnd | Key | Value

  datatype Event = Event(depth: int, kind: Kind)

  datatype Limits = Limits(maxDepth: nat, maxEvents: nat)

  // ----- the parser's events -----

  function Events(j: Json, depth: nat): seq<Event>
    decreases j, 0
  {
    match j
    case Scalar => [Event(depth, Value)]
    case Array(items) => [Event(depth, ArrayStart)] + ItemEvents(items, depth + 1, false) + [Event(depth, ArrayEnd)]
    case Object(members) => [Event(depth, ObjectStart)] + ItemEvents(members, depth + 1, true) + [Event(depth, ObjectEnd)]
  }

  /** One element of an array, or one member of an object with its key. */
  function MemberEvents(j: Json, depth: nat, keyed: bool): seq<Event>
    decreases j, 1
  {
    (if keyed then [Event(depth, Key)] else []) + Events(j, depth)
  }

  function ItemEvents(items: Items, depth: nat, keyed: bool): seq<Event>
    decreases items
  {
    match items
    case End => []
    case More(j, rest) => MemberEvents(j, depth, keyed) + ItemEvents(rest, depth, keyed)
  }

  // ----- the limits, on the tree -----

  function Max(x: nat, y: nat): nat { if x < y then y else x }

  /** How deeply containers are nested. */
  function Nesting(j: Json): nat {
    match j
    case Scalar => 0
    case Array(items) => 1 + ItemNesting(items)
    case Object(members) => 1 + ItemNesting(members)
  }

  function ItemNesting(items: Items): nat {
    match items
    case End => 0
    case More(j, rest) => Max(Nesting(j), ItemNesting(rest))
  }

  /** Keys, scalars and container starts. */
  function Size(j: Json): nat
    decreases j, 0
  {
    match j
    case Scalar => 1
    case Array(items) => 1 + ItemSize(items, false)
    case Object(members) => 1 + ItemSize(members, true)
  }

  function MemberSize(j: Json, keyed: bool): nat
    decreases j, 1
  {
    (if keyed then 1 else 0) + Size(j)
  }

  function ItemSize(items: Items, keyed: bool): nat
    decreases items
  {
    match items
    case End => 0
    case More(j, rest) => MemberSize(j, keyed) + ItemSize(rest, keyed)
  }

  // ----- the guard, on events -----

  predicate IsStart(k: Kind) { k.ObjectStart? || k.ArrayStart? }

  predicate IsEnd(k: Kind) { k.ObjectEnd? || k.ArrayEnd? }

  predicate Admits(l: Limits, seen: nat, e: Event) {
    && e.depth >= 0 && (IsStart(e.kind) ==> e.depth < l.maxDepth)
    && (!IsEnd(e.kind) ==> seen != l.maxEvents)
  }

  function Counted(e: Event): nat { if IsEnd(e.kind) then 0 else 1 }

  /** The count after some events, or None if one of them is refused. */
  function Count(l: Limits, seen: nat, events: seq<Event>): Option<nat>
    decreases |events|
  {
    if events == [] then Some(seen)
    else if Admits(l, seen, events[0]) then Count(l, seen + Counted(events[0]), events[1..])
    else None
  }

  /** The guard object: a counter that lives as long as one parse. */
  class Guard {
    const limits: Limits
    var events: nat

    constructor (limits: Limits)
      ensures this.limits == limits && events == 0
    {
      this.limits, this.events := limits, 0;
    }

    /** False stands for the exception JsonLimitExceeded, which ends the parse. */
    method OnEvent(e: Event) returns (ok: bool)
      modifies this
      ensures ok == Admits(limits, old(events), e)
      ensures ok ==> events == old(events) + Counted(e)
      ensures var start, end := e.kind in {ObjectStart, ArrayStart}, e.kind in {ObjectEnd, ArrayEnd};
              && (ok <==> e.depth >= 0 && (start ==> e.depth < limits.maxDepth) && (!end ==> old(events) != limits.maxEvents))
              && events == old(events) + if ok && !end then 1 else 0
    {
      var start := e.kind == ObjectStart || e.kind == ArrayStart;
      if e.depth < 0 || (start && e.depth >= limits.maxDepth) {
        return false;
      }
      if e.kind != ObjectEnd && e.kind != ArrayEnd {
        if events == limits.maxEvents {
          return false;
        }
        events := events + 1;
      }
      return true;
    }
  }

  /** The parser hands its events to the guard, in order, until one is refused. */
  method Parse(l: Limits, j: Json) returns (accepted: bool)
    ensures accepted <==> Nesting(j) <= l.maxDepth && Size(j) <= l.maxEvents
  {
    var guard := new Guard(l);
    var all := Events(j, 0);
    var i := 0;
    accepted := true;
    while i < |all|
      invariant 0 <= i <= |all|
      invariant accepted && guard.limits == l
      invariant Count(l, 0, all) == Count(l, guard.events, all[i..])
    {
      accepted := guard.OnEvent(all[i]);
      assert all[i..][1..] == all[i + 1..];
      if !accepted {
        break;
      }
      i := i + 1;
    }
    GuardMatchesTree(l, j);
  }

  // ----- the streamed decision is the decision on the tree -----

  /** How many of some events are counted. */
  function Total(events: seq<Event>): nat {
    if events == [] then 0 else Counted(events[0]) + Total(events[1..])
  }

  predicate DeepEnough(l: Limits, e: Event) { e.depth >= 0 && (IsStart(e.kind) ==> e.depth < l.maxDepth) }

  /** No event of some is too deep. */
  predicate Shallow(l: Limits, events: seq<Event>) {
    forall i :: 0 <= i < |events| ==> DeepEnough(l, events[i])
  }

  /** The guard looks at one event at a time, but in the end only the sum and the deepest event
      matter, not the order. */
  lemma {:induction false} CountIsTotal(l: Limits, seen: nat, events: seq<Event>)
    requires seen <= l.maxEvents
    ensures Count(l, seen, events) ==
            if Shallow(l, events) && seen + Total(events) <= l.maxEvents then Some(seen + Total(events)) else None
    decreases |events|
  {
    if events != [] {
      var e, rest := events[0], events[1..];
      assert Shallow(l, events) <==> DeepEnough(l, e) && Shallow(l, rest);
      if Admits(l, seen, e) {
        CountIsTotal(l, seen + Counted(e), rest);
      }
    }
  }

  lemma {:induction false} TotalAdds(a: seq<Event>, b: seq<Event>)
    ensures Total(a + b) == Total(a) + Total(b)
    decreases |a|
  {
    if a == [] {
      assert a + b == b;
    } else {
      assert (a + b)[1..] == a[1..] + b;
      TotalAdds(a[1..], b);
    }
  }

  lemma ShallowSplits(l: Limits, a: seq<Event>, b: seq<Event>)
    ensures Shallow(l, a + b) <==> Shallow(l, a) && Shallow(l, b)
  {
    if Shallow(l, a + b) {
      forall i | 0 <= i < |a| ensures DeepEnough(l, a[i]) { assert a[i] == (a + b)[i]; }
      forall i | 0 <= i < |b| ensures DeepEnough(l, b[i]) { assert b[i] == (a + b)[|a| + i]; }
    }
  }

  // ----- the sum and the depth of a document, from their laws only -----

  ghost predicate Sums(total: seq<Event> -> nat) {
    && total([]) == 0
    && (forall e :: total([e]) == Counted(e))
    && (forall a, b {:trigger total(a + b)} :: total(a + b) == total(a) + total(b))
  }

  lemma {:induction false} TotalOfJson(total: seq<Event> -> nat, j: Json, depth: nat)
    requires Sums(total)
    ensures total(Events(j, depth)) == Size(j)
    decreases j, 0
  {
    match j
    case Scalar =>
    case Array(items) => TotalOfItems(total, items, depth + 1, false);
    case Object(members) => TotalOfItems(total, members, depth + 1, true);
  }

  lemma {:induction false} TotalOfItems(total: seq<Event> -> nat, items: Items, depth: nat, keyed: bool)
    requires Sums(total)
    ensures total(ItemEvents(items, depth, keyed)) == ItemSize(items, keyed)
    decreases items
  {
    if items.More? {
      TotalOfJson(total, items.head, depth);
      TotalOfItems(total, items.tail, depth, keyed);
    }
  }

  ghost predicate Accepts(l: Limits, ok: seq<Event> -> bool) {
    && ok([])
    && (forall e :: ok([e]) == DeepEnough(l, e))
    && (forall a, b {:trigger ok(a + b)} :: ok(a + b) == (ok(a) && ok(b)))
  }

  lemma DepthOfContainer(l: Limits, ok: seq<Event> -> bool, start: Event, inner: seq<Event>, end: Event)
    requires Accepts(l, ok) && start.depth >= 0 && end.depth >= 0 && IsStart(start.kind) && IsEnd(end.kind)
    ensures ok([start] + inner + [end]) <==> start.depth < l.maxDepth && ok(inner)
  {
    assert ok([start]) == DeepEnough(l, start) && ok([end]) == DeepEnough(l, end);
    assert ok(([start] + inner) + [end]) == (ok([start] + inner) && ok([end]));
  }

  lemma {:induction false} DepthOfJson(l: Limits, ok: seq<Event> -> bool, j: Json, depth: nat)
    requires Accepts(l, ok) && depth <= l.maxDepth
    ensures ok(Events(j, depth)) <==> depth + Nesting(j) <= l.maxDepth
    decreases j, 0
  {
    match j
    case Scalar =>
    case Array(items) =>
      DepthOfContainer(l, ok, Event(depth, ArrayStart), ItemEvents(items, depth + 1, false), Event(depth, ArrayEnd));
      if depth < l.maxDepth { DepthOfItems(l, ok, items, depth + 1, false); }
    case Object(members) =>
      DepthOfContainer(l, ok, Event(depth, ObjectStart), ItemEvents(members, depth + 1, true), Event(depth, ObjectEnd));
      if depth < l.maxDepth { DepthOfItems(l, ok, members, depth + 1, true); }
  }

  lemma {:induction false} DepthOfItems(l: Limits, ok: seq<Event> -> bool, items: Items, depth: nat, keyed: bool)
    requires Accepts(l, ok) && depth <= l.maxDepth
    ensures ok(ItemEvents(items, depth, keyed)) <==> depth + ItemNesting(items) <= l.maxDepth
    decreases items
  {
    if items.More? {
      DepthOfJson(l, ok, items.head, depth);
      DepthOfItems(l, ok, items.tail, depth, keyed);
    }
  }

  // ----- the theorems -----

  lemma TotalOfOne(e: Event)
    ensures Total([e]) == Counted(e)
  {
    assert [e][1..] == [];
  }

  lemma TotalIsSize(j: Json, depth: nat)
    ensures Total(Events(j, depth)) == Size(j)
  {
    var total := (events: seq<Event>) => Total(events);
    forall a, b ensures total(a + b) == total(a) + total(b) { TotalAdds(a, b); }
    forall e ensures total([e]) == Counted(e) { TotalOfOne(e); }
    TotalOfJson(total, j, depth);
  }

  lemma ShallowIsNesting(l: Limits, j: Json, depth: nat)
    requires depth <= l.maxDepth
    ensures Shallow(l, Events(j, depth)) <==> depth + Nesting(j) <= l.maxDepth
  {
    var ok := (events: seq<Event>) => Shallow(l, events);
    forall a, b ensures ok(a + b) == (ok(a) && ok(b)) { ShallowSplits(l, a, b); }
    forall e ensures ok([e]) == DeepEnough(l, e) { assert [e][0] == e; }
    DepthOfJson(l, ok, j, depth);
  }

  /** From any depth and count, a part of the document adds its size to the count, unless it
      nests too deeply or is too large for what is left. */
  lemma GuardReadsJson(l: Limits, j: Json, depth: nat, seen: nat)
    requires depth <= l.maxDepth && seen <= l.maxEvents
    ensures Count(l, seen, Events(j, depth)) ==
            if depth + Nesting(j) <= l.maxDepth && seen + Size(j) <= l.maxEvents then Some(seen + Size(j)) else None
  {
    CountIsTotal(l, seen, Events(j, depth));
    TotalIsSize(j, depth);
    ShallowIsNesting(l, j, depth);
  }

  /** The guard accepts the events of a document exactly when its containers nest no deeper
      than max_depth (section 9 of RFC 8259 allows such a limit) and its keys, scalars and
      container starts number at most max_events. */
  lemma GuardMatchesTree(l: Limits, j: Json)
    ensures Count(l, 0, Events(j, 0)).Some? <==> Nesting(j) <= l.maxDepth && Size(j) <= l.maxEvents
  {
    GuardReadsJson(l, j, 0, 0);
  }
}
