/** Every step of every run of the web server keeps the invariant. */
module ServerInvariant {
  import opened Wrappers
  import opened ServerRules
  import opened ServerRuns

  // ----- one event ----------------------------------------------------------------------

  lemma LawfulAppend(h: History, ev: Event)
    requires Lawful(h) && Legal(h, ev)
    ensures Lawful(h + [ev])
  {
    hide Legal;
    var h' := h + [ev];
    forall i | 0 <= i < |h'| ensures Legal(h'[..i], h'[i]) {
      assert h'[..i] == h[..i];
      if i == |h| { assert h[..i] == h; }
    }
  }

  lemma HeldAppend(h: History, ev: Event, g: nat)
    ensures Held(h + [ev], g) ==
            if ev.Admitted? && ev.generation == g then Held(h, g) + {ev.token}
            else if ev.Released? && ev.generation == g then Held(h, g) - {ev.token}
            else Held(h, g)
  {
    assert (h + [ev])[..|h|] == h;
  }

  lemma ReportedAppend(h: History, ev: Event, g: nat)
    ensures Reported(h + [ev], g) <==> Reported(h, g) || (ev.StartPublished? && ev.generation == g)
  {
    var h' := h + [ev];
    if Reported(h, g) { var x :| x in h && x.StartPublished? && x.generation == g; assert x in h'; }
    if ev.StartPublished? && ev.generation == g { assert ev in h'; }
  }

  /** The effect of an event on its own generation's marks. */
  function Marked(m: Marks, ev: Event): Marks {
    match ev
    case Began(_) => m
    case Ran(_) => m.(ran := true)
    case StopWon(_) => m.(won := true)
    case Closed(_) => m.(closed := true)
    case Admitted(_, t) => m.(held := m.held + {t})
    case Released(_, t) => m.(held := m.held - {t})
    case StartPublished(_, _) => m.(reported := true)
    case Retired(_) => m.(retired := true)
  }

  lemma MarksAppend(h: History, ev: Event, g: nat)
    ensures MarksOf(h + [ev], g) == if ev.generation == g then Marked(MarksOf(h, g), ev) else MarksOf(h, g)
  {
    hide Held, Reported;
    HeldAppend(h, ev, g);
    ReportedAppend(h, ev, g);
  }

  // ----- a run of events of one generation ---------------------------------------------------

  function MarkedAll(m: Marks, evs: History): Marks
    decreases |evs|
  {
    if evs == [] then m else MarkedAll(Marked(m, evs[0]), evs[1..])
  }

  predicate PermitsAll(m: Marks, evs: History, g: nat)
    decreases |evs|
  {
    evs == [] || (evs[0].generation == g && Permits(m, evs[0]) && PermitsAll(Marked(m, evs[0]), evs[1..], g))
  }

  lemma {:induction false} AppendAll(h: History, evs: History, id: nat)
    requires Lawful(h) && Began(id) in h && PermitsAll(MarksOf(h, id), evs, id)
    ensures Lawful(h + evs)
    ensures MarksOf(h + evs, id) == MarkedAll(MarksOf(h, id), evs)
    ensures forall g | g != id :: MarksOf(h + evs, g) == MarksOf(h, g)
    ensures forall x | x in evs :: x.generation == id
    decreases |evs|
  {
    hide Lawful, MarksOf, Marked;
    if evs == [] {
      assert h + evs == h;
    } else {
      var h' := h + [evs[0]];
      LawfulAppend(h, evs[0]);
      forall g ensures MarksOf(h', g) == if g == id then Marked(MarksOf(h, g), evs[0]) else MarksOf(h, g) {
        MarksAppend(h, evs[0], g);
      }
      AppendAll(h', evs[1..], id);
      assert h' + evs[1..] == h + evs;
    }
  }

  // ----- a step of the current generation ------------------------------------------------------

  /** The world after the current generation, its supervisor and the shutdown flags moved. */
  function Moved(w: World, g: Generation, step: Step, evs: History, down: bool, downToken: bool): World
    requires w.control.Is(g.id)
  {
    w.(control := w.control.(current := Some(g)), supervisors := w.supervisors[g.id := step],
       log := w.log + evs, down := down, downToken := downToken)
  }

  lemma MovedKeeps(w: World, g: Generation, step: Step, evs: History, down: bool, downToken: bool)
    requires Inv(w) && w.control.Is(g.id) && (downToken ==> down)
    requires g.gate.tokens == w.control.current.value.gate.tokens
    requires PermitsAll(MarksOf(w.log, g.id), evs, g.id)
    requires PhaseOk(g, MarkedAll(MarksOf(w.log, g.id), evs)) && StepOk(g, step, MarkedAll(MarksOf(w.log, g.id), evs))
    ensures Inv(Moved(w, g, step, evs, down, downToken))
  {
    hide Lawful, MarksOf, PermitsAll, MarkedAll, PhaseOk, StepOk, OldOk, ConnectionOk;
    AppendAll(w.log, evs, g.id);
    var w' := Moved(w, g, step, evs, down, downToken);
    assert OldsOk(w');
    assert ConnectionsOk(w') by { ConnectionsFrame(w, w'); }
  }

  lemma ConnectionsFrame(w: World, w': World)
    requires ConnectionsOk(w) && w'.connections == w.connections
    requires w.control.current.Some? && w'.control.current.Some?
    requires w.control.current.value.id == w'.control.current.value.id
    requires w'.control.current.value.gate.tokens == w.control.current.value.gate.tokens
    ensures ConnectionsOk(w')
  {
  }

  // ----- halting ---------------------------------------------------------------------------------

  lemma HaltMarks(g: Generation, m: Marks, stop: bool)
    requires PhaseOk(g, m) && (stop && g.lifecycle == Starting ==> !m.reported)
    ensures PermitsAll(m, HaltEvents(g, stop), g.id)
    ensures MarkedAll(m, HaltEvents(g, stop)) == m.(closed := true, won := m.won || (stop && g.lifecycle == Starting))
    ensures PhaseOk(Halt(g), MarkedAll(m, HaltEvents(g, stop)))
    ensures Halt(g).id == g.id && Halt(g).lifecycle == Stopping && Halt(g).gate == g.gate.Shut()
  {
    var closed := [Closed(g.id)];
    assert closed[1..] == [];
    if stop && g.lifecycle == Starting {
      assert HaltEvents(g, stop)[1..] == closed;
      assert MarkedAll(m.(won := true), closed) == m.(won := true, closed := true);
    } else {
      assert HaltEvents(g, stop) == closed;
    }
  }

  /** The world halted, with the supervisor moved on. */
  lemma HaltKeeps(w: World, id: nat, stop: bool, step: Step, down: bool, downToken: bool)
    requires Inv(w) && w.control.Is(id) && (downToken ==> down)
    requires stop && w.control.current.value.lifecycle == Starting ==> !Reported(w.log, id)
    requires var g := w.control.current.value;
             StepOk(Halt(g), step, MarksOf(w.log, id).(closed := true, won := MarksOf(w.log, id).won || (stop && g.lifecycle == Starting)))
    ensures Inv(At(HaltWorld(w, id, stop), id, step).(down := down, downToken := downToken))
  {
    hide Lawful, OldsOk, ConnectionsOk, StepOk, PhaseOk, PermitsAll, MarkedAll, Halt, HaltEvents;
    var g := w.control.current.value;
    HaltMarks(g, MarksOf(w.log, id), stop);
    MovedKeeps(w, Halt(g), step, HaltEvents(g, stop), down, downToken);
    assert Moved(w, Halt(g), step, HaltEvents(g, stop), down, downToken) ==
           At(HaltWorld(w, id, stop), id, step).(down := down, downToken := downToken);
  }

  // ----- requests ---------------------------------------------------------------------------------

  lemma StartKeeps(w: World)
    requires Inv(w)
    ensures Inv(Apply(w, RequestStart))
  {
    hide Lawful, Legal, MarksOf, OldOk, ConnectionOk, PhaseOk, StepOk;
    if w.control.current.None? {
      var id := w.control.nextGeneration + 1;
      var w' := Apply(w, RequestStart);
      StartLog(w, id);
      Unmarked(w.log, id);
      assert LogOk(w');
      assert LiveOk(w') by { FreshOk(w'.control.current.value); }
      assert OldsOk(w');
      assert ConnectionsOk(w') by { FreshConnections(w, w'); }
    }
  }

  lemma StartLog(w: World, id: nat)
    requires LogOk(w) && OldsOk(w) && w.control.current.None? && id == w.control.nextGeneration + 1
    ensures Lawful(w.log + [Began(id)])
    ensures forall g :: MarksOf(w.log + [Began(id)], g) == MarksOf(w.log, g)
    ensures forall x | x in w.log :: x.generation != id
  {
    hide Lawful;
    forall x | x in w.log && x.Began? ensures Retired(x.generation) in w.log {
      OldMarks(w, x.generation);
    }
    LawfulAppend(w.log, Began(id));
    forall g ensures MarksOf(w.log + [Began(id)], g) == MarksOf(w.log, g) { MarksAppend(w.log, Began(id), g); }
  }

  lemma FreshOk(g: Generation)
    requires g.lifecycle == Starting && g.gate == NEW_GATE
    ensures PhaseOk(g, UNMARKED) && StepOk(g, Launching, UNMARKED)
  {
  }

  lemma FreshConnections(w: World, w': World)
    requires ConnectionsOk(w) && w.control.current.None? && w'.connections == w.connections
    requires w'.control.current.Some? && w'.control.current.value.gate == NEW_GATE
    ensures ConnectionsOk(w')
  {
  }

  lemma OldMarks(w: World, g: nat)
    requires OldsOk(w) && g in w.supervisors && !w.control.Is(g)
    ensures Retired(g) in w.log
  {
  }

  lemma {:induction false} Unmarked(h: History, g: nat)
    requires forall x | x in h :: x.generation != g
    ensures MarksOf(h, g) == UNMARKED
  {
    if h != [] {
      var h' := h[..|h| - 1];
      assert h == h' + [h[|h| - 1]];
      Unmarked(h', g);
      MarksAppend(h', h[|h| - 1], g);
    }
  }

  /** The current generation after a stop request, and what the request records. */
  function Stopped(g: Generation, until: nat): Generation {
    var halted := if IsLive(g) then Halt(g) else g;
    if halted.deadline.None? then halted.(deadline := Some(until)) else halted
  }

  predicate IsLive(g: Generation) {
    g.lifecycle == Starting || g.lifecycle == Running
  }

  function StopEvents(g: Generation): History {
    if IsLive(g) then HaltEvents(g, true) else []
  }

  lemma StopMarks(g: Generation, until: nat, step: Step, m: Marks)
    requires PhaseOk(g, m) && StepOk(g, step, m)
    ensures PermitsAll(m, StopEvents(g), g.id)
    ensures PhaseOk(Stopped(g, until), MarkedAll(m, StopEvents(g)))
    ensures StepOk(Stopped(g, until), step, MarkedAll(m, StopEvents(g)))
    ensures Stopped(g, until).id == g.id && Stopped(g, until).gate.tokens == g.gate.tokens
  {
    hide PermitsAll, MarkedAll;
    if IsLive(g) { HaltMarks(g, m, true); } else { NoEvents(m, g.id); }
  }

  lemma StopKeeps(w: World, until: nat)
    requires Inv(w)
    ensures Inv(Apply(w, RequestStop(until)))
  {
    hide Lawful, OldsOk, ConnectionsOk, PermitsAll, MarkedAll, PhaseOk, StepOk, MarksOf, HaltEvents;
    if w.control.current.Some? {
      var g := w.control.current.value;
      var step := w.supervisors[g.id];
      StopMarks(g, until, step, MarksOf(w.log, g.id));
      MovedKeeps(w, Stopped(g, until), step, StopEvents(g), w.down, w.downToken);
      assert Apply(w, RequestStop(until)) == Moved(w, Stopped(g, until), step, StopEvents(g), w.down, w.downToken) by {
        assert w.log + [] == w.log;
        assert w.supervisors[g.id := step] == w.supervisors;
      }
    }
  }

  lemma NoEvents(m: Marks, id: nat)
    ensures PermitsAll(m, [], id) && MarkedAll(m, []) == m
  {
  }

  /** A step that records nothing. */
  lemma QuietKeeps(w: World, g: Generation, step: Step, down: bool, downToken: bool, w': World)
    requires Inv(w) && w.control.Is(g.id) && (downToken ==> down)
    requires g.gate.tokens == w.control.current.value.gate.tokens
    requires PhaseOk(g, MarksOf(w.log, g.id)) && StepOk(g, step, MarksOf(w.log, g.id))
    requires w' == Moved(w, g, step, [], down, downToken)
    ensures Inv(w')
  {
    hide Inv, PhaseOk, StepOk, MarksOf;
    NoEvents(MarksOf(w.log, g.id), g.id);
    MovedKeeps(w, g, step, [], down, downToken);
  }

  /** A step that records one event. */
  lemma NotedKeeps(w: World, g: Generation, step: Step, ev: Event, down: bool, w': World)
    requires Inv(w) && w.control.Is(g.id) && (w.downToken ==> down) && ev.generation == g.id
    requires g.gate.tokens == w.control.current.value.gate.tokens
    requires Permits(MarksOf(w.log, g.id), ev)
    requires PhaseOk(g, Marked(MarksOf(w.log, g.id), ev)) && StepOk(g, step, Marked(MarksOf(w.log, g.id), ev))
    requires w' == Moved(w, g, step, [ev], down, w.downToken)
    ensures Inv(w')
  {
    hide Inv, PhaseOk, StepOk, MarksOf, Permits, Marked;
    OneEvent(MarksOf(w.log, g.id), ev, g.id);
    MovedKeeps(w, g, step, [ev], down, w.downToken);
  }

  lemma OneEvent(m: Marks, ev: Event, id: nat)
    requires Permits(m, ev) && ev.generation == id
    ensures PermitsAll(m, [ev], id) && MarkedAll(m, [ev]) == Marked(m, ev)
  {
    assert [ev][1..] == [];
  }

  lemma Unmoved(w: World, id: nat)
    requires w.control.Is(id) && id in w.supervisors
    ensures w == Moved(w, w.control.current.value, w.supervisors[id], [], w.down, w.downToken)
  {
    assert w.log + [] == w.log;
    assert w.supervisors[id := w.supervisors[id]] == w.supervisors;
  }

  lemma EndpointKeeps(w: World, id: nat, endpoint: Endpoint)
    requires Inv(w)
    ensures Inv(Apply(w, RequestEndpoint(id, endpoint)))
  {
    hide Lawful, MarksOf, OldsOk, ConnectionsOk;
    if TakesEndpoint(w.control, id) && w.control.current.value.endpoint != Some(endpoint) {
      Unmoved(w, id);
      var g := w.control.current.value;
      var g' := g.(endpoint := Some(endpoint), revision := g.revision + 1);
      QuietKeeps(w, g', w.supervisors[id], w.down, w.downToken, Apply(w, RequestEndpoint(id, endpoint)));
    }
  }

  // ----- the shutdown --------------------------------------------------------------------------------

  lemma FlagsKeep(w: World, down: bool, downToken: bool)
    requires Inv(w) && (downToken ==> down)
    ensures Inv(w.(down := down, downToken := downToken))
  {
    hide Lawful, MarksOf, OldOk, StepOk, PhaseOk, ConnectionOk;
  }

  lemma ServerSeesDownKeeps(w: World, id: nat)
    requires Inv(w) && Enabled(w, ServerSeesDown(id))
    ensures Inv(Apply(w, ServerSeesDown(id)))
  {
    hide Lawful, MarksOf, OldsOk, ConnectionsOk;
    Unmoved(w, id);
    var g := w.control.current.value;
    QuietKeeps(w, g.(gate := g.gate.(cancelled := true)), w.supervisors[id], w.down, w.downToken,
               Apply(w, ServerSeesDown(id)));
  }

  // ----- the supervisor -----------------------------------------------------------------------------

  /** Only the current generation's supervisor is still at work. */
  lemma AtWork(w: World, id: nat)
    requires Inv(w) && id in w.supervisors && !w.supervisors[id].Done?
    ensures w.control.Is(id) && id !in w.retired
    ensures PhaseOk(w.control.current.value, MarksOf(w.log, id))
    ensures StepOk(w.control.current.value, w.supervisors[id], MarksOf(w.log, id))
    ensures w.Gate(id) == w.control.current.value.gate
  {
    hide Lawful, MarksOf;
  }

  lemma FactoryReturnsKeeps(w: World, id: nat, output: FactoryOutput)
    requires Inv(w) && Enabled(w, FactoryReturns(id, output))
    ensures Inv(Apply(w, FactoryReturns(id, output)))
  {
    hide Inv, MarksOf;
    AtWork(w, id);
    DownToken(w);
    assert w.log + [] == w.log;
    QuietKeeps(w, w.control.current.value, Launched(output), w.down, w.downToken, Apply(w, FactoryReturns(id, output)));
  }

  lemma SupervisorSeesDownKeeps(w: World, id: nat)
    requires Inv(w) && Enabled(w, SupervisorSeesDown(id))
    ensures Inv(Apply(w, SupervisorSeesDown(id)))
  {
    hide Inv, Lawful;
    AtWork(w, id);
    assert w.downToken ==> w.down by { DownToken(w); }
    HaltKeeps(w, id, true, Interrupted, w.down, w.downToken);
  }

  lemma DownToken(w: World)
    requires Inv(w)
    ensures w.downToken ==> w.down
  {
    hide Lawful, LiveOk, OldsOk, ConnectionsOk;
  }

  lemma LaunchedServerKeeps(w: World, id: nat, down1: bool, down2: bool, down3: bool)
    requires Inv(w) && id in w.supervisors && w.supervisors[id] == Launched(Server)
    requires Enabled(w, Supervise(id, down1, down2, down3))
    ensures Inv(Apply(w, Supervise(id, down1, down2, down3)))
  {
    hide Inv, MarksOf;
    AtWork(w, id);
    DownToken(w);
    var g := w.control.current.value;
    var w' := Apply(w, Supervise(id, down1, down2, down3));
    if !MayRun(w.control, id, down1) {
      assert w.log + [] == w.log;
      QuietKeeps(w, g, Unpublished, w.down || down3, w.downToken, w');
    } else {
      var ran := g.(lifecycle := Running, revision := g.revision + 1);
      if Opens(down2, down3) {
        NotedKeeps(w, ran.(gate := g.gate.(isOpen := true)), Reporting(Ok(true), true), Ran(id), w.down || down3, w');
      } else {
        NotedKeeps(w, Halt(ran), Unpublished, Closed(id), w.down || down3, w');
      }
    }
  }

  lemma LaunchedOtherKeeps(w: World, id: nat, output: FactoryOutput)
    requires Inv(w) && id in w.supervisors && w.supervisors[id] == Launched(output) && output != Server
    ensures Inv(At(HaltWorld(w, id, false), id, Reporting(StartOutcome(w.control, id, OwnResult(output)), false)))
  {
    hide Inv, MarksOf;
    AtWork(w, id);
    DownToken(w);
    HaltKeeps(w, id, false, Reporting(StartOutcome(w.control, id, OwnResult(output)), false), w.down, w.downToken);
  }

  lemma UnpublishedKeeps(w: World, id: nat)
    requires Inv(w) && id in w.supervisors && w.supervisors[id] == Unpublished
    ensures Inv(At(HaltWorld(w, id, false), id, Reporting(START_CANCELLED, true)))
  {
    hide Inv, MarksOf;
    AtWork(w, id);
    DownToken(w);
    HaltKeeps(w, id, false, Reporting(START_CANCELLED, true), w.down, w.downToken);
  }

  lemma ReportingKeeps(w: World, id: nat)
    requires Inv(w) && id in w.supervisors && w.supervisors[id].Reporting?
    ensures var step := w.supervisors[id];
            Inv(At(w, id, if step.serving then Joining else Halting).Note([StartPublished(id, step.result)]))
  {
    hide Inv, MarksOf;
    AtWork(w, id);
    DownToken(w);
    var step := w.supervisors[id];
    NotedKeeps(w, w.control.current.value, if step.serving then Joining else Halting,
               StartPublished(id, step.result), w.down,
               At(w, id, if step.serving then Joining else Halting).Note([StartPublished(id, step.result)]));
  }

  lemma JoiningKeeps(w: World, id: nat)
    requires Inv(w) && id in w.supervisors && w.supervisors[id] == Joining
    ensures Inv(At(w, id, Halting))
  {
    hide Inv, MarksOf;
    AtWork(w, id);
    DownToken(w);
    assert w.log + [] == w.log;
    QuietKeeps(w, w.control.current.value, Halting, w.down, w.downToken, At(w, id, Halting));
  }

  lemma HaltingKeeps(w: World, id: nat)
    requires Inv(w) && id in w.supervisors && w.supervisors[id] == Halting
    ensures Inv(At(HaltWorld(w, id, false), id, Draining))
  {
    hide Inv, MarksOf;
    AtWork(w, id);
    DownToken(w);
    HaltKeeps(w, id, false, Draining, w.down, w.downToken);
  }

  lemma DrainingKeeps(w: World, id: nat)
    requires Inv(w) && id in w.supervisors && w.supervisors[id] == Draining && w.Gate(id).Drained()
    ensures Inv(At(w, id, Finishing))
  {
    hide Inv, MarksOf;
    AtWork(w, id);
    DownToken(w);
    assert w.log + [] == w.log;
    QuietKeeps(w, w.control.current.value, Finishing, w.down, w.downToken, At(w, id, Finishing));
  }

  lemma FinishingKeeps(w: World, id: nat)
    requires Inv(w) && id in w.supervisors && w.supervisors[id] == Finishing
    ensures Inv(SuperviseStep(w, id, true, true, true))
  {
    hide Inv, MarksOf, OldOk, Permits, SuperviseStep;
    AtWork(w, id);
    var g := w.control.current.value;
    RetiredOk(g, MarksOf(w.log, id));
    FinishedWorld(w, g);
    FinishedKeeps(w, g, SuperviseStep(w, id, true, true, true));
  }

  lemma FinishedWorld(w: World, g: Generation)
    requires w.control.current == Some(g) && g.id in w.supervisors && w.supervisors[g.id] == Finishing
    ensures SuperviseStep(w, g.id, true, true, true) ==
            w.(control := Finish(w.control, g.id), retired := w.retired[g.id := g.gate],
               supervisors := w.supervisors[g.id := Done], log := w.log + [Retired(g.id)])
  {
  }

  lemma FinishedKeeps(w: World, g: Generation, w': World)
    requires Inv(w) && w.control.current == Some(g)
    requires Permits(MarksOf(w.log, g.id), Retired(g.id)) && g.gate.tokens == {}
    requires OldOk(g.gate, Done, MarksOf(w.log, g.id).(retired := true))
    requires w' == w.(control := Finish(w.control, g.id), retired := w.retired[g.id := g.gate],
                      supervisors := w.supervisors[g.id := Done], log := w.log + [Retired(g.id)])
    ensures Inv(w')
  {
    hide Lawful, Legal, MarksOf, OldOk, ConnectionOk, PhaseOk, StepOk, Permits;
    RetireLog(w.log, g.id);
    NoneLeft(w);
  }

  lemma RetiredOk(g: Generation, m: Marks)
    requires PhaseOk(g, m) && StepOk(g, Finishing, m)
    ensures Permits(m, Retired(g.id)) && OldOk(g.gate, Done, m.(retired := true)) && g.gate.tokens == {}
  {
  }

  lemma RetireLog(h: History, id: nat)
    requires Lawful(h) && Began(id) in h && Permits(MarksOf(h, id), Retired(id))
    ensures Lawful(h + [Retired(id)])
    ensures MarksOf(h + [Retired(id)], id) == MarksOf(h, id).(retired := true)
    ensures forall g | g != id :: MarksOf(h + [Retired(id)], g) == MarksOf(h, g)
  {
    hide Lawful, MarksOf;
    LawfulAppend(h, Retired(id));
    forall g ensures MarksOf(h + [Retired(id)], g) == if g == id then Marked(MarksOf(h, g), Retired(id)) else MarksOf(h, g) {
      MarksAppend(h, Retired(id), g);
    }
  }

  /** A drained gate has no connection behind it. */
  lemma NoneLeft(w: World)
    requires ConnectionsOk(w) && w.control.current.Some? && w.control.current.value.gate.tokens == {}
    ensures forall k | k in w.connections :: w.connections[k].Gone?
  {
    forall k | k in w.connections ensures w.connections[k].Gone? {
      assert ConnectionOk(w.connections[k], k, w.control.current.value.gate);
    }
  }

  lemma SuperviseKeeps(w: World, id: nat, down1: bool, down2: bool, down3: bool)
    requires Inv(w) && Enabled(w, Supervise(id, down1, down2, down3))
    ensures Inv(Apply(w, Supervise(id, down1, down2, down3)))
  {
    hide Inv;
    match w.supervisors[id]
    case Launched(output) =>
      if output == Server { LaunchedServerKeeps(w, id, down1, down2, down3); } else { LaunchedOtherKeeps(w, id, output); }
    case Unpublished => UnpublishedKeeps(w, id);
    case Reporting(_, _) => ReportingKeeps(w, id);
    case Joining => JoiningKeeps(w, id);
    case Halting => HaltingKeeps(w, id);
    case Draining => DrainingKeeps(w, id);
    case Finishing => FinishingKeeps(w, id);
    case _ =>
  }

  // ----- connections -------------------------------------------------------------------------------------

  /** A guard of the current generation's gate changes hands. */
  ghost predicate GuardStep(w: World, w': World, ev: Event, k: nat, c: Connection) {
    && (ev.Admitted? || ev.Released?) && w.control.Is(ev.generation) && ev.token.connection == k
    && var g := w.control.current.value;
       var gate := g.gate.(tokens := if ev.Admitted? then g.gate.tokens + {ev.token} else g.gate.tokens - {ev.token});
       w' == w.(control := w.control.(current := Some(g.(gate := gate))), log := w.log + [ev],
                connections := w.connections[k := c])
  }

  lemma GuardKeeps(w: World, w': World, ev: Event, k: nat, c: Connection)
    requires Inv(w) && GuardStep(w, w', ev, k, c)
    requires Permits(MarksOf(w.log, ev.generation), ev)
    requires c.generation == ev.generation && ConnectionOk(c, k, w'.control.current.value.gate)
    ensures Inv(w')
  {
    hide Lawful, MarksOf, ConnectionOk, OldOk;
    var id := ev.generation;
    GuardLog(w.log, ev);
    GuardMarks(w.control.current.value, w'.control.current.value, w.supervisors[id], MarksOf(w.log, id), ev);
    assert OldsOk(w');
    assert ConnectionsOk(w') by { GuardConnections(w, w', ev, k, c); }
  }

  lemma GuardLog(h: History, ev: Event)
    requires Lawful(h) && Began(ev.generation) in h && !ev.Began? && Permits(MarksOf(h, ev.generation), ev)
    ensures Lawful(h + [ev])
    ensures MarksOf(h + [ev], ev.generation) == Marked(MarksOf(h, ev.generation), ev)
    ensures forall g | g != ev.generation :: MarksOf(h + [ev], g) == MarksOf(h, g)
  {
    hide Lawful, MarksOf;
    LawfulAppend(h, ev);
    forall g ensures MarksOf(h + [ev], g) == if ev.generation == g then Marked(MarksOf(h, g), ev) else MarksOf(h, g) {
      MarksAppend(h, ev, g);
    }
  }

  lemma GuardMarks(g: Generation, g': Generation, step: Step, m: Marks, ev: Event)
    requires PhaseOk(g, m) && StepOk(g, step, m) && Permits(m, ev)
    requires (ev.Admitted? && g' == g.(gate := g.gate.(tokens := g.gate.tokens + {ev.token}))) ||
             (ev.Released? && g' == g.(gate := g.gate.(tokens := g.gate.tokens - {ev.token})))
    ensures PhaseOk(g', Marked(m, ev)) && StepOk(g', step, Marked(m, ev))
  {
  }

  lemma GuardConnections(w: World, w': World, ev: Event, k: nat, c: Connection)
    requires ConnectionsOk(w) && GuardStep(w, w', ev, k, c)
    requires c.generation == ev.generation && ConnectionOk(c, k, w'.control.current.value.gate)
    ensures ConnectionsOk(w')
  {
    var gate, gate' := w.control.current.value.gate, w'.control.current.value.gate;
    forall j | j in w'.connections ensures ConnectionOk(w'.connections[j], j, gate') {
      if j != k { assert ConnectionOk(w.connections[j], j, gate); }
    }
  }

  /** A connection changes state without touching the gate. */
  lemma ConnectKeeps(w: World, k: nat, c: Connection)
    requires Inv(w) && k in w.connections && c.generation == w.connections[k].generation
    requires !w.connections[k].Gone? && !c.Gone?
    requires w.control.current.Some? && ConnectionOk(c, k, w.control.current.value.gate)
    ensures Inv(Connect(w, k, c))
  {
    hide Lawful, MarksOf, PhaseOk, StepOk, OldOk, ConnectionOk;
  }

  /** A live connection is the current generation's, and its guards are as its state says. */
  lemma LiveConnection(w: World, k: nat)
    requires Inv(w) && k in w.connections && !w.connections[k].Gone?
    ensures var c := w.connections[k];
            && w.control.Is(c.generation) && w.Gate(c.generation) == w.control.current.value.gate
            && ConnectionOk(c, k, w.control.current.value.gate)
            && PhaseOk(w.control.current.value, MarksOf(w.log, c.generation))
  {
    hide Lawful, MarksOf, StepOk, OldOk, PhaseOk, ConnectionOk;
  }

  lemma UpgradeKeeps(w: World, k: nat, id: nat)
    requires Inv(w) && Enabled(w, Upgrade(k, id))
    ensures Inv(Apply(w, Upgrade(k, id)))
  {
    hide Inv, MarksOf;
    if w.Gate(id).Admits() {
      Admitting(w, id, k);
      var w' := Apply(w, Upgrade(k, id));
      assert GuardStep(w, w', Admitted(id, ConnectionToken(k)), k, Upgraded(id));
      GuardKeeps(w, w', Admitted(id, ConnectionToken(k)), k, Upgraded(id));
    }
  }

  /** An open gate is the current generation's, and a new connection has no guard yet. */
  lemma Admitting(w: World, id: nat, k: nat)
    requires Inv(w) && id in w.supervisors && w.Gate(id).Admits()
    ensures w.control.Is(id) && PhaseOk(w.control.current.value, MarksOf(w.log, id))
    ensures w.control.current.value.lifecycle == Running
    ensures k !in w.connections ==>
              forall t | t in w.control.current.value.gate.tokens :: t.connection != k
  {
    hide Lawful, MarksOf, StepOk, ConnectionOk;
  }

  /** The connection's guard is given back. */
  lemma LeaveKeeps(w: World, k: nat)
    requires Inv(w) && k in w.connections
    requires w.connections[k].Upgraded? ||
             (w.connections[k].Serving? && !w.connections[k].sending && !w.connections[k].receiving)
    ensures var g := w.connections[k].generation;
            Inv(Connect(Release(w, g, ConnectionToken(k)), k, Gone(g)))
  {
    hide Inv, MarksOf;
    LiveConnection(w, k);
    var g := w.connections[k].generation;
    var w' := Connect(Release(w, g, ConnectionToken(k)), k, Gone(g));
    assert GuardStep(w, w', Released(g, ConnectionToken(k)), k, Gone(g));
    GuardKeeps(w, w', Released(g, ConnectionToken(k)), k, Gone(g));
  }

  lemma FrameArrivesKeeps(w: World, k: nat)
    requires Inv(w) && Enabled(w, FrameArrives(k))
    ensures Inv(Apply(w, FrameArrives(k)))
  {
    hide Inv, MarksOf;
    LiveConnection(w, k);
    var c := w.connections[k];
    if w.Gate(c.generation).Admits() {
      var w' := Apply(w, FrameArrives(k));
      assert GuardStep(w, w', Admitted(c.generation, FrameToken(k)), k, c.(inFrame := true));
      GuardKeeps(w, w', Admitted(c.generation, FrameToken(k)), k, c.(inFrame := true));
    } else {
      ConnectKeeps(w, k, c.(receiving := false));
    }
  }

  lemma FrameCompletesKeeps(w: World, k: nat)
    requires Inv(w) && Enabled(w, FrameCompletes(k))
    ensures Inv(Apply(w, FrameCompletes(k)))
  {
    hide Inv, MarksOf;
    LiveConnection(w, k);
    var c := w.connections[k];
    var w' := Apply(w, FrameCompletes(k));
    assert GuardStep(w, w', Released(c.generation, FrameToken(k)), k, c.(inFrame := false));
    GuardKeeps(w, w', Released(c.generation, FrameToken(k)), k, c.(inFrame := false));
  }

  // ----- every step and every run ----------------------------------------------------------------------------

  lemma StepInv(w: World, a: Action)
    requires Inv(w) && Enabled(w, a)
    ensures Inv(Apply(w, a))
  {
    hide Inv;
    match a
    case RequestStart => StartKeeps(w);
    case RequestStop(until) => StopKeeps(w, until);
    case RequestEndpoint(id, endpoint) => EndpointKeeps(w, id, endpoint);
    case RaiseDown => FlagsKeep(w, true, w.downToken);
    case CancelDown => FlagsKeep(w, w.down, true);
    case ServerSeesDown(id) => ServerSeesDownKeeps(w, id);
    case FactoryReturns(id, output) => FactoryReturnsKeeps(w, id, output);
    case SupervisorSeesDown(id) => SupervisorSeesDownKeeps(w, id);
    case Supervise(id, down1, down2, down3) => SuperviseKeeps(w, id, down1, down2, down3);
    case Upgrade(k, id) => UpgradeKeeps(w, k, id);
    case UpgradeFails(k) => LeaveKeeps(w, k);
    case Spawn(k) => LiveConnection(w, k); ConnectKeeps(w, k, Serving(w.connections[k].generation, true, true, false));
    case FrameArrives(k) => FrameArrivesKeeps(w, k);
    case FrameCompletes(k) => FrameCompletesKeeps(w, k);
    case ReceiveEnds(k) => LiveConnection(w, k); ConnectKeeps(w, k, w.connections[k].(receiving := false));
    case SendEnds(k) => LiveConnection(w, k); ConnectKeeps(w, k, w.connections[k].(sending := false));
    case Reap(k) => LeaveKeeps(w, k);
  }

  lemma {:induction false} RunInv(w: World, acts: seq<Action>, w': World)
    requires Inv(w) && Run(w, acts, w')
    ensures Inv(w')
    decreases |acts|
  {
    hide Inv, Apply, Enabled;
    if acts != [] {
      StepInv(w, acts[0]);
      RunInv(Apply(w, acts[0]), acts[1..], w');
    }
  }

  lemma ReachableInv(w: World)
    requires Reachable(w)
    ensures Inv(w)
  {
    var acts :| Run(BOOT, acts, w);
    assert Inv(BOOT);
    RunInv(BOOT, acts, w);
  }
}
