/** Hover events are well bracketed (src/shared/automation-bridge.ts). */
module HoverTrace {
  import opened Wrappers
  import opened Hover

  datatype Action = EnterAt(to: Node) | LeaveAll

  /** Every element is in the document, and the document does not change. */
  ghost predicate Steady(dom: Dom) {
    dom.Valid() && dom.depth.Keys <= dom.connected
  }

  ghost predicate InDocument(dom: Dom, acts: seq<Action>) {
    forall a | a in acts && a.EnterAt? :: a.to in dom.depth
  }

  function Step(h: Hovered, dom: Dom, a: Action): Hovered
    requires dom.Valid()
  {
    match a case EnterAt(to) => Enter(h, dom, to) case LeaveAll => NOWHERE
  }

  function StepEvents(h: Hovered, dom: Dom, a: Action): seq<Event>
    requires dom.Valid()
  {
    match a case EnterAt(to) => EnterEvents(h, dom, to) case LeaveAll => LeaveEvents(h, dom)
  }

  function RunTo(h: Hovered, dom: Dom, acts: seq<Action>): Hovered
    requires dom.Valid()
    decreases |acts|
  {
    if acts == [] then h else RunTo(Step(h, dom, acts[0]), dom, acts[1..])
  }

  function RunEvents(h: Hovered, dom: Dom, acts: seq<Action>): seq<Event>
    requires dom.Valid()
    decreases |acts|
  {
    if acts == [] then [] else StepEvents(h, dom, acts[0]) + RunEvents(Step(h, dom, acts[0]), dom, acts[1..])
  }

  /** Reads a stream as brackets: `enter` opens an element, `leave` must close the
      element opened last. The result is what is open at the end, latest first. */
  function Replay(enter: Kind, leave: Kind, open: seq<Node>, events: seq<Event>): Option<seq<Node>>
    decreases |events|
  {
    if events == [] then Some(open)
    else if events[0].kind == enter then Replay(enter, leave, [events[0].target] + open, events[1..])
    else if events[0].kind == leave then
      if open != [] && open[0] == events[0].target then Replay(enter, leave, open[1..], events[1..]) else None
    else Replay(enter, leave, open, events[1..])
  }

  predicate Stream(enter: Kind, leave: Kind) {
    (enter == PointerEnter && leave == PointerLeave) || (enter == MouseEnter && leave == MouseLeave)
  }

  lemma {:induction false} ReplayConcat(enter: Kind, leave: Kind, start: seq<Node>, a: seq<Event>, b: seq<Event>)
    ensures Replay(enter, leave, start, a + b) ==
            match Replay(enter, leave, start, a) case None => None case Some(mid) => Replay(enter, leave, mid, b)
    decreases |a|
  {
    if a == [] {
      assert a + b == b;
    } else {
      assert (a + b)[1..] == a[1..] + b;
      if a[0].kind == enter {
        ReplayConcat(enter, leave, [a[0].target] + start, a[1..], b);
      } else if a[0].kind == leave {
        if start != [] && start[0] == a[0].target { ReplayConcat(enter, leave, start[1..], a[1..], b); }
      } else {
        ReplayConcat(enter, leave, start, a[1..], b);
      }
    }
  }

  ghost predicate AllIn(chain: seq<Node>, nodes: set<Node>) {
    forall n | n in chain :: n in nodes
  }

  /** Leaving a chain innermost first closes exactly that chain. */
  lemma {:induction false} ReplayLeaves(enter: Kind, leave: Kind, dom: Dom, chain: seq<Node>, rest: seq<Node>, related: Option<Node>)
    requires AllIn(chain, dom.connected) && enter != leave
    ensures Replay(enter, leave, chain + rest, DispatchAll(dom, leave, chain, related)) == Some(rest)
  {
    if chain == [] {
      assert chain + rest == rest;
    } else {
      assert chain[0] in chain;
      ReplayLeaves(enter, leave, dom, chain[1..], rest, related);
      var events := DispatchAll(dom, leave, chain, related);
      assert events == [Event(leave, chain[0], related)] + DispatchAll(dom, leave, chain[1..], related);
      assert (chain + rest)[1..] == chain[1..] + rest;
    }
  }

  /** Entering outermost first opens the chain on top of what was open. */
  lemma {:induction false} ReplayEnters(enter: Kind, leave: Kind, dom: Dom, chain: seq<Node>, rest: seq<Node>, related: Option<Node>)
    requires AllIn(chain, dom.connected) && enter != leave
    ensures Replay(enter, leave, rest, DispatchAll(dom, enter, Reverse(chain), related)) == Some(chain + rest)
  {
    if chain == [] {
      assert chain + rest == rest;
    } else {
      assert chain[0] in chain;
      ReplayEnters(enter, leave, dom, chain[1..], rest, related);
      DispatchAllConcat(dom, enter, Reverse(chain[1..]), [chain[0]], related);
      ReplayOne(enter, leave, dom, chain[0], chain[1..] + rest, related);
      hide Replay, DispatchAll, AllIn;
      ReplayConcat(enter, leave, rest, DispatchAll(dom, enter, Reverse(chain[1..]), related),
                   DispatchAll(dom, enter, [chain[0]], related));
      assert [chain[0]] + (chain[1..] + rest) == chain + rest;
    }
  }

  lemma ReplayOne(enter: Kind, leave: Kind, dom: Dom, n: Node, open: seq<Node>, related: Option<Node>)
    requires n in dom.connected
    ensures Replay(enter, leave, open, DispatchAll(dom, enter, [n], related)) == Some([n] + open)
  {
    assert DispatchAll(dom, enter, [n], related) == [Event(enter, n, related)];
  }

  lemma {:induction false} DispatchAllConcat(dom: Dom, kind: Kind, a: seq<Node>, b: seq<Node>, related: Option<Node>)
    ensures DispatchAll(dom, kind, a + b, related) == DispatchAll(dom, kind, a, related) + DispatchAll(dom, kind, b, related)
  {
    if a == [] {
      assert a + b == b;
    } else {
      assert (a + b)[1..] == a[1..] + b;
      DispatchAllConcat(dom, kind, a[1..], b, related);
    }
  }

  /** Events of the other kinds do not touch the brackets. */
  lemma {:induction false} ReplaySkips(enter: Kind, leave: Kind, open: seq<Node>, events: seq<Event>)
    requires forall ev | ev in events :: ev.kind != enter && ev.kind != leave
    ensures Replay(enter, leave, open, events) == Some(open)
    decreases |events|
  {
    if events != [] {
      assert events[0] in events;
      ReplaySkips(enter, leave, open, events[1..]);
    }
  }

  lemma {:induction false} DispatchAllKind(dom: Dom, kind: Kind, chain: seq<Node>, related: Option<Node>)
    ensures forall ev | ev in DispatchAll(dom, kind, chain, related) :: ev.kind == kind
  {
    if chain != [] { DispatchAllKind(dom, kind, chain[1..], related); }
  }

  lemma ReplayLeaveGroup(enter: Kind, leave: Kind, dom: Dom, from: Node, to: Option<Node>, chain: seq<Node>, rest: seq<Node>)
    requires Stream(enter, leave) && AllIn(chain, dom.connected)
    ensures Replay(enter, leave, chain + rest, LeaveGroup(dom, from, to, chain)) == Some(rest)
  {
    var a, b := Dispatch(dom, Event(PointerOut, from, to)), DispatchAll(dom, PointerLeave, chain, to);
    var c, d := Dispatch(dom, Event(MouseOut, from, to)), DispatchAll(dom, MouseLeave, chain, to);
    var all := chain + rest;
    DispatchAllKind(dom, PointerLeave, chain, to);
    DispatchAllKind(dom, MouseLeave, chain, to);
    ReplaySkips(enter, leave, all, a);
    ReplaySkips(enter, leave, if leave == PointerLeave then rest else all, c);
    ReplayLeaves(enter, leave, dom, chain, rest, to);
    ReplaySkips(enter, leave, if leave == PointerLeave then rest else all, if leave == PointerLeave then d else b);
    ReplayConcat(enter, leave, all, a + b + c, d);
    ReplayConcat(enter, leave, all, a + b, c);
    ReplayConcat(enter, leave, all, a, b);
  }

  lemma ReplayEnterGroup(enter: Kind, leave: Kind, dom: Dom, to: Node, from: Option<Node>, chain: seq<Node>, rest: seq<Node>)
    requires Stream(enter, leave) && AllIn(chain, dom.connected)
    ensures Replay(enter, leave, rest, EnterGroup(dom, to, from, Reverse(chain))) == Some(chain + rest)
  {
    var a, b := Dispatch(dom, Event(PointerOver, to, from)), DispatchAll(dom, PointerEnter, Reverse(chain), from);
    var c, d := Dispatch(dom, Event(MouseOver, to, from)), DispatchAll(dom, MouseEnter, Reverse(chain), from);
    var mid := if enter == PointerEnter then chain + rest else rest;
    DispatchAllKind(dom, PointerEnter, Reverse(chain), from);
    DispatchAllKind(dom, MouseEnter, Reverse(chain), from);
    ReplaySkips(enter, leave, rest, a);
    ReplaySkips(enter, leave, mid, c);
    ReplayEnters(enter, leave, dom, chain, rest, from);
    ReplaySkips(enter, leave, mid, if enter == PointerEnter then d else b);
    ReplayConcat(enter, leave, rest, a + b + c, d);
    ReplayConcat(enter, leave, rest, a + b, c);
    ReplayConcat(enter, leave, rest, a, b);
  }

  // ----- chains ----------------------------------------------------------------------------

  lemma {:induction false} ChainInTree(dom: Dom, n: Node)
    requires dom.Valid() && n in dom.depth
    ensures AllIn(Chain(dom, n), dom.depth.Keys)
    decreases dom.DepthOf(n)
  {
    if n in dom.parent { ChainInTree(dom, dom.parent[n]); }
  }

  /** From any element of a chain on, the chain is that element's own chain. So
      two chains coincide from their first common element on. */
  lemma {:induction false} ChainFrom(dom: Dom, n: Node, c: Node)
    requires dom.Valid() && c in Chain(dom, n)
    ensures Chain(dom, n) == TakeUntil(Chain(dom, n), Some(c)) + Chain(dom, c)
    decreases dom.DepthOf(n)
  {
    var chain := Chain(dom, n);
    if n == c {
      assert TakeUntil(chain, Some(c)) == [];
    } else {
      assert n in dom.parent;
      ChainFrom(dom, dom.parent[n], c);
      assert chain[1..] == Chain(dom, dom.parent[n]);
    }
  }

  lemma {:induction false} TakeAll(chain: seq<Node>)
    ensures TakeUntil(chain, None) == chain
  {
    if chain != [] { TakeAll(chain[1..]); }
  }

  lemma {:induction false} TakeIn(chain: seq<Node>, stop: Option<Node>, nodes: set<Node>)
    requires AllIn(chain, nodes)
    ensures AllIn(TakeUntil(chain, stop), nodes)
  {
    if chain != [] {
      assert chain[0] in chain;
      TakeIn(chain[1..], stop, nodes);
    }
  }

  lemma {:induction false} CommonInBoth(from: seq<Node>, to: seq<Node>)
    ensures FirstCommon(from, to).Some? ==> FirstCommon(from, to).value in from && FirstCommon(from, to).value in to
  {
    if from != [] { CommonInBoth(from[1..], to); }
  }

  // ----- runs ---------------------------------------------------------------------------------

  /** The remembered chain is that of the hovered element. */
  ghost predicate Tracks(h: Hovered, dom: Dom)
    requires dom.Valid()
  {
    match h.element
    case None => h.chain == []
    case Some(n) => n in dom.depth && h.chain == Chain(dom, n)
  }

  lemma StepBracketed(enter: Kind, leave: Kind, h: Hovered, dom: Dom, a: Action)
    requires Steady(dom) && Tracks(h, dom) && Stream(enter, leave)
    requires a.EnterAt? ==> a.to in dom.depth
    ensures Tracks(Step(h, dom, a), dom)
    ensures Replay(enter, leave, h.chain, StepEvents(h, dom, a)) == Some(Step(h, dom, a).chain)
  {
    if h.element.Some? { ChainInTree(dom, h.element.value); }
    match a {
      case LeaveAll =>
        if h.element.Some? {
          assert h.chain + [] == h.chain;
          ReplayLeaveGroup(enter, leave, dom, h.element.value, None, h.chain, []);
        }
      case EnterAt(to) =>
        if h.element != Some(to) {
          EnterBracketed(enter, leave, h, dom, to);
        }
    }
  }

  lemma EnterBracketed(enter: Kind, leave: Kind, h: Hovered, dom: Dom, to: Node)
    requires Steady(dom) && Tracks(h, dom) && Stream(enter, leave)
    requires to in dom.depth && h.element != Some(to) && AllIn(h.chain, dom.depth.Keys)
    ensures Replay(enter, leave, h.chain, EnterEvents(h, dom, to)) == Some(Chain(dom, to))
  {
    var toChain := Chain(dom, to);
    ChainInTree(dom, to);
    TakeAll(toChain);
    if h.element.None? {
      assert toChain + [] == toChain;
      ReplayEnterGroup(enter, leave, dom, to, None, toChain, []);
    } else {
      var from := h.element.value;
      var common := FirstCommon(h.chain, toChain);
      var left, entered := TakeUntil(h.chain, common), TakeUntil(toChain, common);
      CommonInBoth(h.chain, toChain);
      TakeIn(h.chain, common, dom.connected);
      TakeIn(toChain, common, dom.connected);
      var kept := if common.Some? then Chain(dom, common.value) else [];
      if common.Some? {
        ChainFrom(dom, from, common.value);
        ChainFrom(dom, to, common.value);
      } else {
        TakeAll(h.chain);
      }
      assert h.chain == left + kept && toChain == entered + kept;
      var shown := if from in dom.connected then Some(from) else None;
      ReplayLeaveGroup(enter, leave, dom, from, Some(to), left, kept);
      ReplayEnterGroup(enter, leave, dom, to, shown, entered, kept);
      ReplayConcat(enter, leave, h.chain, LeaveGroup(dom, from, Some(to), left),
                   EnterGroup(dom, to, shown, Reverse(entered)));
    }
  }

  /** Over any sequence of hover targets and leaves, each of the two streams is a
      bracket word whose open elements are exactly the ancestor chain of the
      hovered element, innermost last opened. */
  lemma {:induction false} HoverBracketed(enter: Kind, leave: Kind, h: Hovered, dom: Dom, acts: seq<Action>)
    requires Steady(dom) && Tracks(h, dom) && Stream(enter, leave) && InDocument(dom, acts)
    ensures Tracks(RunTo(h, dom, acts), dom)
    ensures Replay(enter, leave, h.chain, RunEvents(h, dom, acts)) == Some(RunTo(h, dom, acts).chain)
    decreases |acts|
  {
    if acts != [] {
      assert acts[0] in acts;
      var next := Step(h, dom, acts[0]);
      StepBracketed(enter, leave, h, dom, acts[0]);
      HoverBracketed(enter, leave, next, dom, acts[1..]);
      ReplayConcat(enter, leave, h.chain, StepEvents(h, dom, acts[0]), RunEvents(next, dom, acts[1..]));
    }
  }

  /** From a fresh start: what has been entered and not left is the hovered
      element with its ancestors, for pointer and mouse events alike. */
  lemma EnteredIsAncestorChain(dom: Dom, acts: seq<Action>)
    requires Steady(dom) && InDocument(dom, acts)
    ensures var h := RunTo(NOWHERE, dom, acts);
            var open := if h.element.Some? then Chain(dom, h.element.value) else [];
            && Replay(PointerEnter, PointerLeave, [], RunEvents(NOWHERE, dom, acts)) == Some(open)
            && Replay(MouseEnter, MouseLeave, [], RunEvents(NOWHERE, dom, acts)) == Some(open)
  {
    HoverBracketed(PointerEnter, PointerLeave, NOWHERE, dom, acts);
    HoverBracketed(MouseEnter, MouseLeave, NOWHERE, dom, acts);
  }
}
