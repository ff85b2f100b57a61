/**
Runs of the install cache (src-tauri/src/agent_version.rs): every interleaving
of lookups, scheduling, invalidation, and of tickets that are completed,
renewed and dropped. A log records what happened, in order.
*/
module InstallRuns {
  import opened Wrappers
  import opened InstallRules

  datatype Event =
    | Invalidated
    | Captured(id: nat)
    | Committed(id: nat, command: Command, at: nat, state: InstallState)
    | Asked(command: Command, now: nat, ttl: nat)

  type History = seq<Event>

  datatype World = World(cache: Cache, tickets: map<nat, Ticket>, nextId: nat, log: History)

  const START := World(EMPTY_CACHE, map[], 0, [])

  datatype Action =
    | DoLookup(command: Command, now: nat, ttl: nat)
    | DoSchedule(command: Command, now: nat, ttl: nat, mayBegin: bool)
    | DoInvalidate
    | DoComplete(id: nat, state: InstallState, at: nat)
    | DoDrop(id: nat)

  predicate Enabled(w: World, a: Action) {
    match a
    case DoComplete(id, _, _) => id in w.tickets && w.tickets[id].live
    case DoDrop(id) => id in w.tickets
    case _ => true
  }

  function Apply(w: World, a: Action): World
    requires Enabled(w, a)
  {
    match a
    case DoLookup(command, now, ttl) =>
      w.(cache := Purge(w.cache, command, now, ttl), log := w.log + [Asked(command, now, ttl)])
    case DoSchedule(command, now, ttl, mayBegin) =>
      var w' := w.(cache := Schedule(w.cache, command, now, ttl, mayBegin),
                   log := w.log + [Asked(command, now, ttl)]);
      var answer := ScheduleAnswer(w.cache, command, now, ttl, mayBegin);
      if answer.Began? then
        w'.(tickets := w.tickets[w.nextId := answer.ticket], nextId := w.nextId + 1,
            log := w'.log + [Captured(w.nextId)])
      else w'
    case DoInvalidate => w.(cache := Invalidate(w.cache), log := w.log + [Invalidated])
    case DoComplete(id, state, at) =>
      var t := w.tickets[id];
      w.(cache := Complete(w.cache, t, state, at),
         tickets := w.tickets[id := Completed(w.cache, t)],
         log := w.log + if Accepts(w.cache, t)
                        then [Committed(id, t.command, at, Stamp(w.cache, state))]
                        else [Captured(id)])
    case DoDrop(id) =>
      w.(cache := Drop(w.cache, w.tickets[id]), tickets := w.tickets - {id})
  }

  ghost predicate Run(w: World, acts: seq<Action>, w': World)
    decreases |acts|
  {
    if acts == [] then w' == w
    else Enabled(w, acts[0]) && Run(Apply(w, acts[0]), acts[1..], w')
  }

  ghost predicate Reachable(w: World) {
    exists acts :: Run(START, acts, w)
  }

  // ----- the reference: what the log alone says ------------------------------------

  /** No invalidation from position `i` on. */
  ghost predicate ClearSince(h: History, i: nat) {
    forall k | i <= k < |h| :: !h[k].Invalidated?
  }

  /** The generation of ticket `id` was captured, or renewed, after the last invalidation. */
  ghost predicate CapturedSince(h: History, id: nat) {
    exists i | 0 <= i < |h| :: h[i] == Captured(id) && ClearSince(h, i)
  }

  /** The latest commit for `command` since the last invalidation. */
  function Latest(h: History, command: Command): Option<Cached> {
    if h == [] then None
    else
      match h[|h| - 1]
      case Invalidated => None
      case Committed(_, c, at, state) =>
        if c == command then Some(Cached(at, state)) else Latest(h[..|h| - 1], command)
      case _ => Latest(h[..|h| - 1], command)
  }

  /** The same, unless a reader has found it expired since. */
  function Held(h: History, command: Command): Option<Cached> {
    if h == [] then None
    else
      var before := h[..|h| - 1];
      match h[|h| - 1]
      case Invalidated => None
      case Committed(_, c, at, state) => if c == command then Some(Cached(at, state)) else Held(before, command)
      case Asked(c, now, ttl) => if c == command then Kept(Held(before, command), now, ttl) else Held(before, command)
      case Captured(_) => Held(before, command)
  }

  /** All readers use one time to live, and their instants never go back. */
  ghost predicate SteadyReaders(h: History, ttl: nat) {
    && (forall i | 0 <= i < |h| && h[i].Asked? :: h[i].ttl == ttl)
    && (forall i, j | 0 <= i < j < |h| && h[i].Asked? && h[j].Asked? :: h[i].now <= h[j].now)
  }

  /** Every commit is stamped above all earlier ones and comes from a ticket
      whose generation is current. */
  ghost predicate LawfulCommits(h: History) {
    forall i | 0 <= i < |h| && h[i].Committed? ::
      && CapturedSince(h[..i], h[i].id)
      && (forall j | 0 <= j < i && h[j].Committed? :: h[j].state.seqNo < h[i].state.seqNo)
  }

  ghost predicate Inv(w: World) {
    && TicketsHoldSlots(w)
    && (forall c: Command :: w.cache.Entry(c) == Held(w.log, c))
    && LawfulCommits(w.log)
    && (forall i | 0 <= i < |w.log| && w.log[i].Committed? :: w.log[i].state.seqNo <= w.cache.seqNo)
    && (forall id | id in w.tickets ::
          && w.tickets[id].generation <= w.cache.generation
          && (w.tickets[id].live ==> (w.tickets[id].generation == w.cache.generation <==> CapturedSince(w.log, id))))
  }

  /** `inFlight` is exactly the set of commands of live tickets, one for each. */
  ghost predicate TicketsHoldSlots(w: World) {
    && (forall id | id in w.tickets :: id < w.nextId)
    && (forall id | id in w.tickets && w.tickets[id].live :: w.tickets[id].command in w.cache.inFlight)
    && (forall c | c in w.cache.inFlight ::
          exists id | id in w.tickets :: w.tickets[id].live && w.tickets[id].command == c)
    && (forall i, j | i in w.tickets && j in w.tickets && w.tickets[i].live && w.tickets[j].live &&
                      w.tickets[i].command == w.tickets[j].command :: i == j)
  }

  // ----- one event ---------------------------------------------------------------------

  lemma CapturedAppend(h: History, ev: Event, id: nat)
    ensures CapturedSince(h + [ev], id) <==> !ev.Invalidated? && (CapturedSince(h, id) || ev == Captured(id))
  {
    var h' := h + [ev];
    if ev == Captured(id) {
      assert h'[|h|] == Captured(id) && ClearSince(h', |h|);
    } else if !ev.Invalidated? && CapturedSince(h, id) {
      var i :| 0 <= i < |h| && h[i] == Captured(id) && ClearSince(h, i);
      assert h'[i] == Captured(id) && ClearSince(h', i);
    }
    if CapturedSince(h', id) {
      var i :| 0 <= i < |h'| && h'[i] == Captured(id) && ClearSince(h', i);
      assert !h'[|h|].Invalidated?;
      if i < |h| {
        assert h[i] == Captured(id);
        forall k | i <= k < |h| ensures !h[k].Invalidated? { assert h'[k] == h[k]; }
      }
    }
  }

  lemma HeldAppend(h: History, ev: Event, c: Command)
    ensures (h + [ev])[..|h|] == h && (h + [ev])[|h|] == ev
  {
  }

  lemma CommitsAppend(h: History, ev: Event, bound: nat)
    requires LawfulCommits(h)
    requires forall i | 0 <= i < |h| && h[i].Committed? :: h[i].state.seqNo <= bound
    requires ev.Committed? ==> CapturedSince(h, ev.id) && bound < ev.state.seqNo
    ensures LawfulCommits(h + [ev])
  {
    var h' := h + [ev];
    forall i | 0 <= i < |h'| && h'[i].Committed?
      ensures CapturedSince(h'[..i], h'[i].id)
      ensures forall j | 0 <= j < i && h'[j].Committed? :: h'[j].state.seqNo < h'[i].state.seqNo
    {
      assert h'[..i] == h[..i];
      if i == |h| { assert h[..i] == h; }
    }
  }

  // ----- preservation ---------------------------------------------------------------------

  lemma AskKept(w: World, command: Command, now: nat, ttl: nat)
    requires Inv(w)
    ensures Inv(Apply(w, DoLookup(command, now, ttl)))
  {
    var ev := Asked(command, now, ttl);
    var w' := Apply(w, DoLookup(command, now, ttl));
    CommitsAppend(w.log, ev, w.cache.seqNo);
    forall c: Command ensures w'.cache.Entry(c) == Held(w'.log, c) {
      HeldAppend(w.log, ev, c);
      assert w.cache.Entry(c) == Held(w.log, c);
    }
    forall id: nat ensures CapturedSince(w'.log, id) <==> CapturedSince(w.log, id) || ev == Captured(id) {
      CapturedAppend(w.log, ev, id);
    }
  }

  lemma BeginKept(w: World, command: Command)
    requires Inv(w) && command !in w.cache.inFlight
    ensures Inv(w.(cache := w.cache.(inFlight := w.cache.inFlight + {command}),
                   tickets := w.tickets[w.nextId := Ticket(command, w.cache.generation, true)],
                   nextId := w.nextId + 1,
                   log := w.log + [Captured(w.nextId)]))
  {
    var ev := Captured(w.nextId);
    var w' := w.(cache := w.cache.(inFlight := w.cache.inFlight + {command}),
                 tickets := w.tickets[w.nextId := Ticket(command, w.cache.generation, true)],
                 nextId := w.nextId + 1,
                 log := w.log + [ev]);
    CommitsAppend(w.log, ev, w.cache.seqNo);
    forall c: Command ensures w'.cache.Entry(c) == Held(w'.log, c) {
      HeldAppend(w.log, ev, c);
      assert w'.cache.Entry(c) == w.cache.Entry(c) == Held(w.log, c);
    }
    forall id: nat ensures CapturedSince(w'.log, id) <==> CapturedSince(w.log, id) || ev == Captured(id) {
      CapturedAppend(w.log, ev, id);
    }
    forall c | c in w'.cache.inFlight
      ensures exists id | id in w'.tickets :: w'.tickets[id].live && w'.tickets[id].command == c
    {
      if c == command {
        assert w.nextId in w'.tickets;
      } else {
        var id :| id in w.tickets && w.tickets[id].live && w.tickets[id].command == c;
        assert id in w'.tickets && w'.tickets[id] == w.tickets[id];
      }
    }
  }

  lemma ScheduleKept(w: World, command: Command, now: nat, ttl: nat, mayBegin: bool)
    requires Inv(w)
    ensures Inv(Apply(w, DoSchedule(command, now, ttl, mayBegin)))
  {
    var asked := Apply(w, DoLookup(command, now, ttl));
    AskKept(w, command, now, ttl);
    if ScheduleAnswer(w.cache, command, now, ttl, mayBegin).Began? {
      BeginKept(asked, command);
    }
  }

  lemma InvalidateKept(w: World)
    requires Inv(w)
    ensures Inv(Apply(w, DoInvalidate))
  {
    var w' := Apply(w, DoInvalidate);
    CommitsAppend(w.log, Invalidated, w.cache.seqNo);
    forall id: nat ensures !CapturedSince(w'.log, id) { CapturedAppend(w.log, Invalidated, id); }
    forall c: Command ensures w'.cache.Entry(c) == Held(w'.log, c) {
      HeldAppend(w.log, Invalidated, c);
    }
  }

  lemma CommitKept(w: World, id: nat, state: InstallState, at: nat)
    requires Inv(w) && id in w.tickets && w.tickets[id].live && Accepts(w.cache, w.tickets[id])
    ensures Inv(Apply(w, DoComplete(id, state, at)))
  {
    var t := w.tickets[id];
    var ev := Committed(id, t.command, at, Stamp(w.cache, state));
    var w' := Apply(w, DoComplete(id, state, at));
    CommitsAppend(w.log, ev, w.cache.seqNo);
    forall c: Command ensures w'.cache.Entry(c) == Held(w'.log, c) {
      HeldAppend(w.log, ev, c);
      assert w.cache.Entry(c) == Held(w.log, c);
    }
    forall u: nat ensures CapturedSince(w'.log, u) <==> CapturedSince(w.log, u) || ev == Captured(u) {
      CapturedAppend(w.log, ev, u);
    }
    FreeSlotKept(w, w', id);
  }

  /** Ticket `id` gives up its slot; every other live ticket keeps its own. */
  lemma FreeSlotKept(w: World, w': World, id: nat)
    requires TicketsHoldSlots(w) && id in w.tickets && w.tickets[id].live && w'.nextId == w.nextId
    requires w'.cache.inFlight == w.cache.inFlight - {w.tickets[id].command}
    requires w'.tickets.Keys <= w.tickets.Keys && w.tickets.Keys <= w'.tickets.Keys + {id}
    requires forall u | u in w'.tickets :: if u == id then !w'.tickets[u].live else w'.tickets[u] == w.tickets[u]
    ensures TicketsHoldSlots(w')
  {
    forall c | c in w'.cache.inFlight
      ensures exists u | u in w'.tickets :: w'.tickets[u].live && w'.tickets[u].command == c
    {
      var u :| u in w.tickets && w.tickets[u].live && w.tickets[u].command == c;
      assert u in w'.tickets;
    }
  }

  lemma RenewKept(w: World, id: nat, state: InstallState, at: nat)
    requires Inv(w) && id in w.tickets && w.tickets[id].live && !Accepts(w.cache, w.tickets[id])
    ensures Inv(Apply(w, DoComplete(id, state, at)))
  {
    var ev := Captured(id);
    var w' := Apply(w, DoComplete(id, state, at));
    CommitsAppend(w.log, ev, w.cache.seqNo);
    forall c: Command ensures w'.cache.Entry(c) == Held(w'.log, c) {
      HeldAppend(w.log, ev, c);
      assert w.cache.Entry(c) == Held(w.log, c);
    }
    forall u: nat ensures CapturedSince(w'.log, u) <==> CapturedSince(w.log, u) || ev == Captured(u) {
      CapturedAppend(w.log, ev, u);
    }
    forall c | c in w'.cache.inFlight
      ensures exists u | u in w'.tickets :: w'.tickets[u].live && w'.tickets[u].command == c
    {
      var u :| u in w.tickets && w.tickets[u].live && w.tickets[u].command == c;
      assert u in w'.tickets && w'.tickets[u].live;
    }
  }

  lemma DropKept(w: World, id: nat)
    requires Inv(w) && id in w.tickets
    ensures Inv(Apply(w, DoDrop(id)))
  {
    var w' := Apply(w, DoDrop(id));
    forall c: Command ensures w'.cache.Entry(c) == Held(w'.log, c) {
      assert w'.cache.Entry(c) == w.cache.Entry(c) == Held(w.log, c);
    }
    if w.tickets[id].live {
      FreeSlotKept(w, w', id);
    } else {
      forall c | c in w'.cache.inFlight
        ensures exists u | u in w'.tickets :: w'.tickets[u].live && w'.tickets[u].command == c
      {
        var u :| u in w.tickets && w.tickets[u].live && w.tickets[u].command == c;
        assert u in w'.tickets;
      }
    }
  }

  lemma StepInv(w: World, a: Action)
    requires Inv(w) && Enabled(w, a)
    ensures Inv(Apply(w, a))
  {
    hide Inv;
    match a {
      case DoLookup(command, now, ttl) => AskKept(w, command, now, ttl);
      case DoSchedule(command, now, ttl, mayBegin) => ScheduleKept(w, command, now, ttl, mayBegin);
      case DoInvalidate => InvalidateKept(w);
      case DoComplete(id, state, at) =>
        if Accepts(w.cache, w.tickets[id]) { CommitKept(w, id, state, at); } else { RenewKept(w, id, state, at); }
      case DoDrop(id) => DropKept(w, id);
    }
  }

  lemma {:induction false} RunInv(w: World, acts: seq<Action>, w': World)
    requires Inv(w) && Run(w, acts, w')
    ensures Inv(w')
    decreases |acts|
  {
    hide Inv;
    if acts != [] {
      StepInv(w, acts[0]);
      RunInv(Apply(w, acts[0]), acts[1..], w');
    }
  }

  lemma ReachableInv(w: World)
    requires Reachable(w)
    ensures Inv(w)
  {
    assert Inv(START);
    var acts :| Run(START, acts, w);
    RunInv(START, acts, w);
  }

  // ----- what every run guarantees ---------------------------------------------------------

  /** Tickets are exclusive: the commands in flight are exactly those of live
      tickets, and no command has two. So a stale ticket never loses its slot. */
  lemma TicketsExclusive(w: World)
    requires Reachable(w)
    ensures w.cache.inFlight == set id | id in w.tickets && w.tickets[id].live :: w.tickets[id].command
    ensures forall i, j | i in w.tickets && j in w.tickets && w.tickets[i].live && w.tickets[j].live &&
                          w.tickets[i].command == w.tickets[j].command :: i == j
  {
    ReachableInv(w);
  }

  /** A rejected completion keeps the ticket and its slot, with a generation that
      the retry will be accepted in; dropping a committed ticket frees nothing. */
  lemma StaleKeepsSlot(w: World, id: nat, state: InstallState, at: nat)
    requires Reachable(w) && id in w.tickets
    ensures w.tickets[id].live && !Accepts(w.cache, w.tickets[id]) ==>
              var w' := Apply(w, DoComplete(id, state, at));
              && w'.cache == w.cache && w'.tickets[id].live && Accepts(w'.cache, w'.tickets[id])
              && w'.tickets[id].command in w'.cache.inFlight
    ensures !w.tickets[id].live ==> Apply(w, DoDrop(id)).cache == w.cache
  {
    ReachableInv(w);
  }

  /** A completion commits the probed state, under a number above all earlier ones,
      exactly if nothing was invalidated since its ticket was captured or renewed;
      otherwise it changes nothing but renews the ticket. */
  lemma CompletionActs(w: World, id: nat, state: InstallState, at: nat)
    requires Reachable(w) && Enabled(w, DoComplete(id, state, at))
    ensures var t, w' := w.tickets[id], Apply(w, DoComplete(id, state, at));
            if CapturedSince(w.log, id) then
              var stamped := state.(seqNo := w'.cache.seqNo);
              && w'.log == w.log + [Committed(id, t.command, at, stamped)]
              && w'.cache.Entry(t.command) == Some(Cached(at, stamped)) && !w'.tickets[id].live
              && (forall i | 0 <= i < |w.log| && w.log[i].Committed? :: w.log[i].state.seqNo < stamped.seqNo)
              && (forall c | c != t.command :: w'.cache.Entry(c) == w.cache.Entry(c))
            else
              w'.cache == w.cache && w'.log == w.log + [Captured(id)] && w'.tickets[id].live && CapturedSince(w'.log, id)
  {
    ReachableInv(w);
    var w' := Apply(w, DoComplete(id, state, at));
    if !CapturedSince(w.log, id) {
      assert w'.log[|w.log|] == Captured(id);
    }
  }

  /** Every stored entry is a commit after the last invalidation, by a ticket
      whose generation was captured or renewed after it as well. */
  lemma EntryIsCurrentCommit(w: World, command: Command)
    requires Reachable(w) && command in w.cache.entries
    ensures exists i: nat :: i < |w.log| && w.log[i].Committed? && w.log[i].command == command &&
                             w.cache.entries[command] == Cached(w.log[i].at, w.log[i].state) &&
                             ClearSince(w.log, i) && CapturedSince(w.log[..i], w.log[i].id)
  {
    ReachableInv(w);
    assert w.cache.Entry(command) == Held(w.log, command);
    var i := HeldFrom(w.log, command);
  }

  lemma {:induction false} HeldFrom(h: History, command: Command) returns (i: nat)
    requires Held(h, command).Some?
    ensures i < |h| && h[i].Committed? && h[i].command == command
    ensures Held(h, command) == Some(Cached(h[i].at, h[i].state)) && ClearSince(h, i)
    ensures Latest(h, command) == Held(h, command)
  {
    var last := h[|h| - 1];
    if last.Committed? && last.command == command {
      i := |h| - 1;
    } else {
      i := HeldFrom(h[..|h| - 1], command);
    }
  }

  /** A probe of the command is under way. */
  ghost predicate UnderWay(w: World, command: Command) {
    exists id | id in w.tickets :: w.tickets[id].live && w.tickets[id].command == command
  }

  /** What both readers are told when nothing is served. */
  lemma Unserved(w: World, command: Command, now: nat, ttl: nat, mayBegin: bool)
    requires Reachable(w) && Kept(w.cache.Entry(command), now, ttl).None?
    ensures LookupAnswer(w.cache, command, now, ttl) == if UnderWay(w, command) then InFlight else Absent
    ensures ScheduleAnswer(w.cache, command, now, ttl, mayBegin) ==
            if UnderWay(w, command) then Busy
            else if !mayBegin then Deferred
            else Began(Ticket(command, w.cache.generation, true))
  {
    TicketsExclusive(w);
    hide Reachable, Kept;
    assert UnderWay(w, command) <==> command in w.cache.inFlight;
  }

  /** With one time to live and instants that never go back, a reader or scheduler
      is served exactly the latest commit since the last invalidation, if its age is
      at most the time to live; an instant before the commit counts as age zero.
      Otherwise it learns whether a probe is under way. */
  lemma FreshExactly(w: World, command: Command, now: nat, ttl: nat, mayBegin: bool)
    requires Reachable(w) && SteadyReaders(w.log + [Asked(command, now, ttl)], ttl)
    ensures var latest := Latest(w.log, command);
            if latest.Some? && (now <= latest.value.probedAt || now - latest.value.probedAt <= ttl) then
              && LookupAnswer(w.cache, command, now, ttl) == Fresh(latest.value.state)
              && ScheduleAnswer(w.cache, command, now, ttl, mayBegin) == Ready(latest.value.state)
            else
              && LookupAnswer(w.cache, command, now, ttl) == (if UnderWay(w, command) then InFlight else Absent)
              && ScheduleAnswer(w.cache, command, now, ttl, mayBegin) ==
                 (if UnderWay(w, command) then Busy
                  else if !mayBegin then Deferred
                  else Began(Ticket(command, w.cache.generation, true)))
  {
    ReachableInv(w);
    assert w.cache.Entry(command) == Held(w.log, command);
    var h := w.log + [Asked(command, now, ttl)];
    assert h[|w.log|] == Asked(command, now, ttl);
    forall i | 0 <= i < |w.log| && w.log[i].Asked? ensures w.log[i].now <= now && w.log[i].ttl == ttl {
      assert h[i] == w.log[i];
    }
    ExpiryIsFinal(w.log, command, now, ttl);
    hide Reachable, SteadyReaders, Inv;
    if Kept(w.cache.Entry(command), now, ttl).None? { Unserved(w, command, now, ttl, mayBegin); }
  }

  /** An entry that an earlier reader found expired is still expired later. */
  lemma {:induction false} ExpiryIsFinal(h: History, command: Command, now: nat, ttl: nat)
    requires forall i | 0 <= i < |h| && h[i].Asked? :: h[i].now <= now && h[i].ttl == ttl
    ensures Kept(Held(h, command), now, ttl) == Kept(Latest(h, command), now, ttl)
  {
    if h != [] {
      var before := h[..|h| - 1];
      ExpiryIsFinal(before, command, now, ttl);
      if Held(before, command).Some? {
        var _ := HeldFrom(before, command);
      }
    }
  }

  /** For readers of any kind: an answer is never anything but the latest commit,
      and the latest commit is withheld exactly if this reader or an earlier one
      found it expired. */
  lemma ServedIffHeld(w: World, command: Command, now: nat, ttl: nat, mayBegin: bool)
    requires Reachable(w)
    ensures var latest := Latest(w.log, command);
            if latest.Some? && (now <= latest.value.probedAt || now - latest.value.probedAt <= ttl) &&
               !FoundExpired(w.log, command)
            then
              && LookupAnswer(w.cache, command, now, ttl) == Fresh(latest.value.state)
              && ScheduleAnswer(w.cache, command, now, ttl, mayBegin) == Ready(latest.value.state)
            else
              && LookupAnswer(w.cache, command, now, ttl) == (if UnderWay(w, command) then InFlight else Absent)
              && ScheduleAnswer(w.cache, command, now, ttl, mayBegin) ==
                 (if UnderWay(w, command) then Busy
                  else if !mayBegin then Deferred
                  else Began(Ticket(command, w.cache.generation, true)))
  {
    ReachableInv(w);
    assert w.cache.Entry(command) == Held(w.log, command);
    HeldIff(w.log, command);
    hide Reachable, Inv;
    if Kept(w.cache.Entry(command), now, ttl).None? { Unserved(w, command, now, ttl, mayBegin); }
  }

  /** Some reader since the latest commit of `command` found it expired. */
  predicate FoundExpired(h: History, command: Command) {
    h != [] &&
    var before := h[..|h| - 1];
    match h[|h| - 1]
    case Invalidated => false
    case Committed(_, c, _, _) => c != command && FoundExpired(before, command)
    case Asked(c, now, ttl) =>
      || FoundExpired(before, command)
      || (c == command && Latest(before, command).Some? &&
          var at := Latest(before, command).value.probedAt; at < now && ttl < now - at)
    case Captured(_) => FoundExpired(before, command)
  }

  lemma {:induction false} HeldIff(h: History, command: Command)
    ensures Held(h, command) == if FoundExpired(h, command) then None else Latest(h, command)
  {
    if h != [] {
      HeldIff(h[..|h| - 1], command);
    }
  }

  /** Readers whose clocks disagree can hide a fresh commit from each other. */
  lemma UnsteadyReadersCanMiss() returns (w: World)
    ensures Reachable(w)
    ensures Latest(w.log, "claude").Some? && Latest(w.log, "claude").value.probedAt == 0
    ensures LookupAnswer(w.cache, "claude", 5, 10).Absent?
  {
    var state := InstallState(Missing, None, None, None, 0);
    var acts := [DoSchedule("claude", 0, 10, true), DoComplete(0, state, 0), DoLookup("claude", 11, 10)];
    var w1 := Apply(START, acts[0]);
    var w2 := Apply(w1, acts[1]);
    w := Apply(w2, acts[2]);
    assert acts[1..][1..] == [acts[2]] && acts[1..][1..][1..] == [];
    assert Run(w, [], w) && Run(w2, acts[1..][1..], w) && Run(w1, acts[1..], w) && Run(START, acts, w);
    var done := Committed(0, "claude", 0, state.(seqNo := 1));
    assert w.log == [Asked("claude", 0, 10), Captured(0), done, Asked("claude", 11, 10)];
    assert w.log[..3] == [Asked("claude", 0, 10), Captured(0), done];
    assert Latest(w.log[..3], "claude") == Some(Cached(0, done.state));
  }

  // ----- clients that keep the highest sequence number ---------------------------------------

  /** A client's view of one command; unknown commands have number 0. */
  function Deliver(view: Option<InstallState>, state: InstallState): Option<InstallState> {
    if view.None? || view.value.seqNo < state.seqNo then Some(state) else view
  }

  function DeliverAll(states: seq<InstallState>): Option<InstallState> {
    if states == [] then None else Deliver(DeliverAll(states[..|states| - 1]), states[|states| - 1])
  }

  /** Under any reordering and duplication, a client that keeps the highest
      number ends on the last commit of the command that reached it. */
  lemma ClientsConverge(w: World, command: Command, i: nat, states: seq<InstallState>)
    requires Reachable(w) && i < |w.log| && w.log[i].Committed? && w.log[i].command == command
    requires w.log[i].state in states
    requires forall s | s in states ::
               exists j: nat :: j <= i && w.log[j].Committed? && w.log[j].command == command && w.log[j].state == s
    ensures DeliverAll(states) == Some(w.log[i].state)
  {
    ReachableInv(w);
    forall s | s in states && s != w.log[i].state ensures s.seqNo < w.log[i].state.seqNo {
      var j: nat :| j <= i && w.log[j].Committed? && w.log[j].command == command && w.log[j].state == s;
    }
    HighestWins(states, w.log[i].state);
  }

  lemma {:induction false} HighestWins(states: seq<InstallState>, top: InstallState)
    requires forall s | s in states && s != top :: s.seqNo < top.seqNo
    ensures top in states ==> DeliverAll(states) == Some(top)
    ensures top !in states && states != [] ==> DeliverAll(states).Some? && DeliverAll(states).value.seqNo < top.seqNo
  {
    if states != [] {
      var before, last := states[..|states| - 1], states[|states| - 1];
      HighestWins(before, top);
      assert states == before + [last];
    }
  }
}
