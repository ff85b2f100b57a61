/**
Emulated hovering (dispatchHoverEnter, dispatchHoverLeave and their groups in
src/shared/automation-bridge.ts). An element's parent is its parent element, or
the host of its shadow root; a chain lists an element and its ancestors.
*/
module Hover {
  import opened Wrappers

  type Node = nat

  /** `depth` ranks the elements, so that parents form a forest. */
  datatype Dom = Dom(parent: map<Node, Node>, depth: map<Node, nat>, connected: set<Node>)
  {
    ghost predicate Valid() {
      forall n | n in parent :: n in depth && parent[n] in depth && depth[parent[n]] < depth[n]
    }

    function DepthOf(n: Node): nat {
      if n in depth then depth[n] else 0
    }
  }

  datatype Kind =
    | PointerOver | PointerEnter | PointerOut | PointerLeave
    | MouseOver | MouseEnter | MouseOut | MouseLeave

  datatype Event = Event(kind: Kind, target: Node, related: Option<Node>)

  function Chain(dom: Dom, n: Node): seq<Node>
    requires dom.Valid()
    decreases dom.DepthOf(n)
  {
    if n in dom.parent then [n] + Chain(dom, dom.parent[n]) else [n]
  }

  function ChainOf(dom: Dom, n: Option<Node>): seq<Node>
    requires dom.Valid()
  {
    match n case None => [] case Some(node) => Chain(dom, node)
  }

  function FirstCommon(from: seq<Node>, to: seq<Node>): Option<Node> {
    if from == [] then None
    else if from[0] in to then Some(from[0])
    else FirstCommon(from[1..], to)
  }

  /** The part of `chain` in front of `stop`; all of it if `stop` is not there. */
  function TakeUntil(chain: seq<Node>, stop: Option<Node>): seq<Node> {
    if chain == [] || (stop.Some? && chain[0] == stop.value) then []
    else [chain[0]] + TakeUntil(chain[1..], stop)
  }

  function Reverse(s: seq<Node>): seq<Node> {
    if s == [] then [] else Reverse(s[1..]) + [s[0]]
  }

  /** Events at elements outside the document are dropped. */
  function Dispatch(dom: Dom, ev: Event): seq<Event> {
    if ev.target in dom.connected then [ev] else []
  }

  function DispatchAll(dom: Dom, kind: Kind, chain: seq<Node>, related: Option<Node>): seq<Event> {
    if chain == [] then []
    else Dispatch(dom, Event(kind, chain[0], related)) + DispatchAll(dom, kind, chain[1..], related)
  }

  function LeaveGroup(dom: Dom, from: Node, to: Option<Node>, chain: seq<Node>): seq<Event> {
    Dispatch(dom, Event(PointerOut, from, to)) + DispatchAll(dom, PointerLeave, chain, to) +
    Dispatch(dom, Event(MouseOut, from, to)) + DispatchAll(dom, MouseLeave, chain, to)
  }

  function EnterGroup(dom: Dom, to: Node, from: Option<Node>, chain: seq<Node>): seq<Event> {
    Dispatch(dom, Event(PointerOver, to, from)) + DispatchAll(dom, PointerEnter, chain, from) +
    Dispatch(dom, Event(MouseOver, to, from)) + DispatchAll(dom, MouseEnter, chain, from)
  }

  /** The module state: the hovered element and the chain it had when entered. */
  datatype Hovered = Hovered(element: Option<Node>, chain: seq<Node>)

  const NOWHERE := Hovered(None, [])

  function EnterEvents(h: Hovered, dom: Dom, to: Node): seq<Event>
    requires dom.Valid()
  {
    if h.element == Some(to) then []
    else
      var toChain := Chain(dom, to);
      match h.element
      case None => EnterGroup(dom, to, None, Reverse(TakeUntil(toChain, None)))
      case Some(from) =>
        var common := FirstCommon(h.chain, toChain);
        var shown := if from in dom.connected then Some(from) else None;
        LeaveGroup(dom, from, Some(to), TakeUntil(h.chain, common)) +
        EnterGroup(dom, to, shown, Reverse(TakeUntil(toChain, common)))
  }

  function Enter(h: Hovered, dom: Dom, to: Node): Hovered
    requires dom.Valid()
  {
    if h.element == Some(to) then h else Hovered(Some(to), Chain(dom, to))
  }

  function LeaveEvents(h: Hovered, dom: Dom): seq<Event> {
    match h.element case None => [] case Some(from) => LeaveGroup(dom, from, None, h.chain)
  }

  // ----- the program ------------------------------------------------------------------

  class HoverEmulation {
    var hoveredElement: Option<Node>
    var hoveredChain: seq<Node>
    var events: seq<Event>

    function Value(): Hovered
      reads this
    {
      Hovered(hoveredElement, hoveredChain)
    }

    constructor ()
      ensures Value() == NOWHERE && events == []
    {
      hoveredElement, hoveredChain, events := None, [], [];
    }

    static method HoverChain(dom: Dom, node: Node) returns (chain: seq<Node>)
      requires dom.Valid()
      ensures chain == Chain(dom, node)
    {
      chain := [];
      var current := Some(node);
      while current.Some?
        invariant chain + ChainOf(dom, current) == Chain(dom, node)
        decreases current.Some?, if current.Some? then dom.DepthOf(current.value) else 0
      {
        var above := if current.value in dom.parent then Some(dom.parent[current.value]) else None;
        assert ChainOf(dom, current) == [current.value] + ChainOf(dom, above);
        assert (chain + [current.value]) + ChainOf(dom, above) == chain + ChainOf(dom, current);
        chain := chain + [current.value];
        current := above;
      }
    }

    method DispatchEvent(dom: Dom, ev: Event)
      modifies this`events
      ensures events == old(events) + Dispatch(dom, ev)
    {
      if ev.target in dom.connected {
        events := events + [ev];
      }
    }

    method DispatchChain(dom: Dom, kind: Kind, chain: seq<Node>, related: Option<Node>)
      modifies this`events
      ensures events == old(events) + DispatchAll(dom, kind, chain, related)
    {
      for k := 0 to |chain|
        invariant events + DispatchAll(dom, kind, chain[k..], related) ==
                  old(events) + DispatchAll(dom, kind, chain, related)
      {
        assert chain[k..][1..] == chain[k + 1..];
        DispatchEvent(dom, Event(kind, chain[k], related));
      }
    }

    method DispatchLeaveGroup(dom: Dom, from: Node, to: Option<Node>, chain: seq<Node>)
      modifies this`events
      ensures events == old(events) + LeaveGroup(dom, from, to, chain)
    {
      hide Dispatch, DispatchAll;
      DispatchEvent(dom, Event(PointerOut, from, to));
      DispatchChain(dom, PointerLeave, chain, to);
      DispatchEvent(dom, Event(MouseOut, from, to));
      DispatchChain(dom, MouseLeave, chain, to);
    }

    method DispatchEnterGroup(dom: Dom, to: Node, from: Option<Node>, chain: seq<Node>)
      modifies this`events
      ensures events == old(events) + EnterGroup(dom, to, from, chain)
    {
      hide Dispatch, DispatchAll;
      DispatchEvent(dom, Event(PointerOver, to, from));
      DispatchChain(dom, PointerEnter, chain, from);
      DispatchEvent(dom, Event(MouseOver, to, from));
      DispatchChain(dom, MouseEnter, chain, from);
    }

    method DispatchHoverEnter(dom: Dom, to: Node)
      requires dom.Valid()
      modifies this
      ensures Value() == Enter(old(Value()), dom, to)
      ensures events == old(events) + EnterEvents(old(Value()), dom, to)
    {
      hide LeaveGroup, EnterGroup, TakeUntil, Reverse, FirstCommon, Chain;
      if hoveredElement == Some(to) {
        return;
      }
      var toChain := HoverChain(dom, to);
      var common := None;
      var shown := None;
      if hoveredElement.Some? {
        var from := hoveredElement.value;
        common := FirstCommon(hoveredChain, toChain);
        DispatchLeaveGroup(dom, from, Some(to), TakeUntil(hoveredChain, common));
        shown := if from in dom.connected then Some(from) else None;
      }
      DispatchEnterGroup(dom, to, shown, Reverse(TakeUntil(toChain, common)));
      hoveredElement := Some(to);
      hoveredChain := toChain;
    }

    method DispatchHoverLeave(dom: Dom)
      modifies this
      ensures Value() == NOWHERE || (old(hoveredElement).None? && Value() == old(Value()))
      ensures events == old(events) + LeaveEvents(old(Value()), dom)
    {
      if hoveredElement.None? {
        return;
      }
      DispatchLeaveGroup(dom, hoveredElement.value, None, hoveredChain);
      hoveredElement := None;
      hoveredChain := [];
    }
  }
}
