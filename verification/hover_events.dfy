/**
Which hover events a move sends, to which elements and with which related
element (src/shared/automation-bridge.ts); on any tree, also one that has
changed since the hovered element was entered.
*/
module HoverEvents {
  import opened Wrappers
  import opened Hover
  import opened HoverTrace

  predicate IsEnter(kind: Kind) {
    kind == PointerEnter || kind == MouseEnter
  }

  predicate IsLeave(kind: Kind) {
    kind == PointerLeave || kind == MouseLeave
  }

  /** The events that bubble, in order. */
  function Bubbling(events: seq<Event>): seq<Event> {
    if events == [] then []
    else (if IsEnter(events[0].kind) || IsLeave(events[0].kind) then [] else [events[0]]) + Bubbling(events[1..])
  }

  lemma {:induction false} BubblingConcat(a: seq<Event>, b: seq<Event>)
    ensures Bubbling(a + b) == Bubbling(a) + Bubbling(b)
  {
    hide IsEnter, IsLeave;
    if a == [] {
      assert a + b == b;
    } else {
      BubblingConcat(a[1..], b);
      assert (a + b)[1..] == a[1..] + b && (a + b)[0] == a[0];
    }
  }

  lemma {:induction false} ChainsDoNotBubble(dom: Dom, kind: Kind, chain: seq<Node>, related: Option<Node>)
    requires IsEnter(kind) || IsLeave(kind)
    ensures Bubbling(DispatchAll(dom, kind, chain, related)) == []
  {
    if chain != [] {
      ChainsDoNotBubble(dom, kind, chain[1..], related);
      BubblingConcat(Dispatch(dom, Event(kind, chain[0], related)), DispatchAll(dom, kind, chain[1..], related));
    }
  }

  /** The one event, if its target is in the document. */
  function Sent(dom: Dom, kind: Kind, target: Node, related: Option<Node>): seq<Event> {
    if target in dom.connected then [Event(kind, target, related)] else []
  }

  lemma BubblingOne(dom: Dom, ev: Event)
    requires !IsEnter(ev.kind) && !IsLeave(ev.kind)
    ensures Bubbling(Dispatch(dom, ev)) == Sent(dom, ev.kind, ev.target, ev.related)
  {
  }

  lemma LeaveGroupBubbles(dom: Dom, from: Node, to: Option<Node>, chain: seq<Node>)
    ensures Bubbling(LeaveGroup(dom, from, to, chain)) == Sent(dom, PointerOut, from, to) + Sent(dom, MouseOut, from, to)
  {
    var a, b := Dispatch(dom, Event(PointerOut, from, to)), DispatchAll(dom, PointerLeave, chain, to);
    var c, d := Dispatch(dom, Event(MouseOut, from, to)), DispatchAll(dom, MouseLeave, chain, to);
    BubblingConcat(a + b + c, d);
    BubblingConcat(a + b, c);
    BubblingConcat(a, b);
    ChainsDoNotBubble(dom, PointerLeave, chain, to);
    ChainsDoNotBubble(dom, MouseLeave, chain, to);
    BubblingOne(dom, Event(PointerOut, from, to));
    BubblingOne(dom, Event(MouseOut, from, to));
  }

  lemma EnterGroupBubbles(dom: Dom, to: Node, from: Option<Node>, chain: seq<Node>)
    ensures Bubbling(EnterGroup(dom, to, from, chain)) == Sent(dom, PointerOver, to, from) + Sent(dom, MouseOver, to, from)
  {
    var a, b := Dispatch(dom, Event(PointerOver, to, from)), DispatchAll(dom, PointerEnter, chain, from);
    var c, d := Dispatch(dom, Event(MouseOver, to, from)), DispatchAll(dom, MouseEnter, chain, from);
    BubblingConcat(a + b + c, d);
    BubblingConcat(a + b, c);
    BubblingConcat(a, b);
    ChainsDoNotBubble(dom, PointerEnter, chain, from);
    ChainsDoNotBubble(dom, MouseEnter, chain, from);
    BubblingOne(dom, Event(PointerOver, to, from));
    BubblingOne(dom, Event(MouseOver, to, from));
  }

  /** The element a move comes from, as its target learns it: none if it is gone. */
  function Origin(h: Hovered, dom: Dom): Option<Node> {
    if h.element.Some? && h.element.value in dom.connected then h.element else None
  }

  /** A move to another element sends out at the old one and then over at the new
      one, each once as a pointer and once as a mouse event, and each names the
      other element; elements outside the document are sent nothing. */
  lemma MoveSendsOutAndOver(h: Hovered, dom: Dom, to: Node)
    requires dom.Valid() && h.element != Some(to)
    ensures Bubbling(EnterEvents(h, dom, to)) ==
            (if h.element.Some?
             then Sent(dom, PointerOut, h.element.value, Some(to)) + Sent(dom, MouseOut, h.element.value, Some(to)) else []) +
            Sent(dom, PointerOver, to, Origin(h, dom)) + Sent(dom, MouseOver, to, Origin(h, dom))
  {
    hide LeaveGroup, EnterGroup, Bubbling, Chain, TakeUntil, FirstCommon, Reverse;
    var toChain := Chain(dom, to);
    match h.element
    case None => EnterGroupBubbles(dom, to, None, Reverse(TakeUntil(toChain, None)));
    case Some(from) =>
      var common := FirstCommon(h.chain, toChain);
      var out, over := TakeUntil(h.chain, common), Reverse(TakeUntil(toChain, common));
      LeaveGroupBubbles(dom, from, Some(to), out);
      EnterGroupBubbles(dom, to, Origin(h, dom), over);
      BubblingConcat(LeaveGroup(dom, from, Some(to), out), EnterGroup(dom, to, Origin(h, dom), over));
  }

  lemma LeaveSendsOut(h: Hovered, dom: Dom)
    ensures Bubbling(LeaveEvents(h, dom)) ==
            if h.element.Some?
            then Sent(dom, PointerOut, h.element.value, None) + Sent(dom, MouseOut, h.element.value, None) else []
  {
    if h.element.Some? { LeaveGroupBubbles(dom, h.element.value, None, h.chain); }
  }

  // ----- targets and related elements of enter and leave --------------------------------------------

  lemma {:induction false} DispatchedAre(dom: Dom, kind: Kind, chain: seq<Node>, related: Option<Node>)
    ensures forall ev :: ev in DispatchAll(dom, kind, chain, related) <==>
              ev.kind == kind && ev.related == related && ev.target in chain && ev.target in dom.connected
  {
    if chain != [] {
      DispatchedAre(dom, kind, chain[1..], related);
      assert forall n :: n in chain <==> n == chain[0] || n in chain[1..];
    }
  }

  lemma {:induction false} ReverseMembers(s: seq<Node>)
    ensures forall n :: n in Reverse(s) <==> n in s
  {
    if s != [] {
      ReverseMembers(s[1..]);
      assert forall n :: n in s <==> n == s[0] || n in s[1..];
    }
  }

  lemma LeaveGroupTargets(dom: Dom, from: Node, to: Option<Node>, chain: seq<Node>, ev: Event)
    requires IsLeave(ev.kind) || IsEnter(ev.kind)
    ensures ev in LeaveGroup(dom, from, to, chain) <==>
              IsLeave(ev.kind) && ev.related == to && ev.target in chain && ev.target in dom.connected
  {
    hide DispatchAll;
    DispatchedAre(dom, PointerLeave, chain, to);
    DispatchedAre(dom, MouseLeave, chain, to);
  }

  lemma EnterGroupTargets(dom: Dom, to: Node, from: Option<Node>, chain: seq<Node>, ev: Event)
    requires IsLeave(ev.kind) || IsEnter(ev.kind)
    ensures ev in EnterGroup(dom, to, from, chain) <==>
              IsEnter(ev.kind) && ev.related == from && ev.target in chain && ev.target in dom.connected
  {
    hide DispatchAll;
    DispatchedAre(dom, PointerEnter, chain, from);
    DispatchedAre(dom, MouseEnter, chain, from);
  }

  /** Enter and leave events of both kinds, with their targets and related elements. */
  lemma MoveTargets(h: Hovered, dom: Dom, to: Node, ev: Event)
    requires dom.Valid() && h.element.Some? && h.element != Some(to) && (IsLeave(ev.kind) || IsEnter(ev.kind))
    ensures var common := FirstCommon(h.chain, Chain(dom, to));
            ev in EnterEvents(h, dom, to) <==>
              ev.target in dom.connected &&
              if IsLeave(ev.kind) then ev.related == Some(to) && ev.target in TakeUntil(h.chain, common)
              else ev.related == Origin(h, dom) && ev.target in TakeUntil(Chain(dom, to), common)
  {
    var from, toChain := h.element.value, Chain(dom, to);
    var common := FirstCommon(h.chain, toChain);
    var out, over := TakeUntil(h.chain, common), TakeUntil(toChain, common);
    hide Chain, FirstCommon, TakeUntil, Reverse, LeaveGroup, EnterGroup;
    ReverseMembers(over);
    LeaveGroupTargets(dom, from, Some(to), out, ev);
    EnterGroupTargets(dom, to, Origin(h, dom), Reverse(over), ev);
  }

  // ----- common ancestors are left alone ----------------------------------------------------------------

  lemma {:induction false} ChainDescends(dom: Dom, n: Node, i: nat, j: nat)
    requires dom.Valid() && i < j < |Chain(dom, n)|
    ensures Chain(dom, n)[j] in dom.depth && Chain(dom, n)[i] in dom.depth
    ensures dom.depth[Chain(dom, n)[j]] < dom.depth[Chain(dom, n)[i]]
    decreases j
  {
    if n in dom.parent {
      var p := dom.parent[n];
      var rest := Chain(dom, p);
      assert Chain(dom, n) == [n] + rest;
      if i > 0 {
        ChainDescends(dom, p, i - 1, j - 1);
      } else if j > 1 {
        ChainDescends(dom, p, 0, j - 1);
        assert rest[0] == p;
      } else {
        assert rest[0] == p;
      }
    }
  }

  lemma {:induction false} FirstCommonAt(from: seq<Node>, to: seq<Node>) returns (k: nat)
    ensures k <= |from| && forall i | 0 <= i < k :: from[i] !in to
    ensures k < |from| ==> FirstCommon(from, to) == Some(from[k]) && from[k] in to
    ensures k == |from| ==> FirstCommon(from, to) == None
  {
    if from == [] || from[0] in to {
      k := 0;
    } else {
      k := FirstCommonAt(from[1..], to);
      k := k + 1;
    }
  }

  lemma {:induction false} TakenBefore(chain: seq<Node>, stop: Option<Node>, n: Node) returns (i: nat)
    requires n in TakeUntil(chain, stop)
    ensures i < |chain| && chain[i] == n && forall j | 0 <= j <= i :: Some(chain[j]) != stop
  {
    if n == chain[0] {
      i := 0;
    } else {
      i := TakenBefore(chain[1..], stop, n);
      i := i + 1;
    }
  }

  /** On the tree that the hovered element was entered on, a move between two
      elements neither leaves nor enters an ancestor that they share. */
  lemma SharedAncestorsStay(h: Hovered, dom: Dom, to: Node, ev: Event)
    requires dom.Valid() && h.element.Some? && h.element != Some(to) && h.chain == Chain(dom, h.element.value)
    requires ev in EnterEvents(h, dom, to) && (IsLeave(ev.kind) || IsEnter(ev.kind))
    ensures IsLeave(ev.kind) ==> ev.target in h.chain && ev.target !in Chain(dom, to)
    ensures IsEnter(ev.kind) ==> ev.target in Chain(dom, to) && ev.target !in h.chain
  {
    hide EnterEvents, Chain, TakeUntil, FirstCommon;
    var toChain := Chain(dom, to);
    var common := FirstCommon(h.chain, toChain);
    MoveTargets(h, dom, to, ev);
    var k := FirstCommonAt(h.chain, toChain);
    if IsLeave(ev.kind) {
      var i := TakenBefore(h.chain, common, ev.target);
      if k <= i { NotBeforeStop(h.chain, common, k, i); }
    } else {
      var i := TakenBefore(toChain, common, ev.target);
      if ev.target in h.chain {
        var j: nat :| j < |h.chain| && h.chain[j] == ev.target;
        var c: nat :| c < |toChain| && toChain[c] == h.chain[k];
        OrderClash(dom, h.element.value, to, k, j, c, i);
      }
    }
  }

  lemma NotBeforeStop(chain: seq<Node>, stop: Option<Node>, k: nat, i: nat)
    requires k <= i < |chain| && stop == Some(chain[k])
    ensures !(forall j | 0 <= j <= i :: Some(chain[j]) != stop)
  {
    assert Some(chain[k]) == stop;
  }

  /** An element cannot be both above and below another. */
  lemma OrderClash(dom: Dom, from: Node, to: Node, k: nat, j: nat, c: nat, i: nat)
    requires dom.Valid() && k <= j < |Chain(dom, from)| && i <= c < |Chain(dom, to)|
    requires Chain(dom, from)[k] == Chain(dom, to)[c] && Chain(dom, from)[j] == Chain(dom, to)[i]
    ensures Chain(dom, from)[k] == Chain(dom, to)[i]
  {
    hide Chain;
    if k < j { ChainDescends(dom, from, k, j); }
    if i < c { ChainDescends(dom, to, i, c); }
  }
}
