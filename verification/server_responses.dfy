/**
How the web server (src-tauri/src/web_server.rs) responds to each request and
each step of a supervisor in a reachable state.
*/
module ServerResponses {
  import opened Wrappers
  import opened ServerRules
  import opened ServerRuns
  import opened ServerInvariant
  import opened ServerTheorems

  // ----- start requests ---------------------------------------------------------------------

  /** The current generation, as every reachable world has it. */
  lemma CurrentFacts(w: World)
    requires Reachable(w) && w.control.current.Some?
    ensures var g := w.control.current.value;
            && PhaseOk(g, MarksOf(w.log, g.id)) && g.id in w.supervisors && g.id == w.control.nextGeneration
            && StepOk(g, w.supervisors[g.id], MarksOf(w.log, g.id)) && Lawful(w.log)
  {
    hide Lawful, MarksOf, OldOk, PhaseOk, StepOk;
    ReachableInv(w);
  }

  /** A start request is answered at once with success exactly if the current
      generation has run and its gate is open, at once with the cancelled error
      exactly if that generation is stopping; otherwise it follows the generation
      that is starting, or the new one. */
  lemma StartAnswered(w: World)
    requires Reachable(w)
    ensures StartAnswer(w.control) == Settled(Ok(true)) <==>
              exists g: nat :: w.control.Is(g) && Ran(g) in w.log && w.Gate(g).isOpen
    ensures StartAnswer(w.control) == Settled(Err("Web server start cancelled by stop")) <==>
              exists g: nat :: w.control.Is(g) && Closed(g) in w.log
    ensures forall r :: StartAnswer(w.control) == Settled(r) ==>
              r == Ok(true) || r == Err("Web server start cancelled by stop")
    ensures StartAnswer(w.control).Follow? ==>
              var g := StartAnswer(w.control).generation;
              if w.control.current.Some? then w.control.Is(g) && Ran(g) !in w.log && Closed(g) !in w.log
              else g == w.control.nextGeneration + 1 && g !in w.supervisors
  {
    if w.control.current.Some? {
      CurrentFacts(w);
      var id := w.control.current.value.id;
      assert w.control.Is(id);
    } else {
      NextIsFresh(w);
    }
    hide Reachable, Lawful, StepOk;
  }

  lemma NextIsFresh(w: World)
    requires Reachable(w)
    ensures w.control.nextGeneration + 1 !in w.supervisors
  {
    hide Lawful, MarksOf, LiveOk, OldsOk, ConnectionsOk;
    ReachableInv(w);
  }

  /** Success at once never contradicts the generation's published result. The
      error speaks of the new request only: the generation's own start succeeded
      exactly if it ran before it was stopped. */
  lemma StartAnswerAgrees(w: World, r: StartResult, g: nat, published: StartResult)
    requires Reachable(w) && StartAnswer(w.control) == Settled(r) && w.control.Is(g)
    requires StartPublished(g, published) in w.log
    ensures r == Ok(true) ==> published == Ok(true)
    ensures published == Ok(true) <==> Ran(g) in w.log
  {
    hide Reachable, Lawful, MarksOf, StepOk, StartAnswer;
    StartAnswered(w);
    StartIsTruthful(w, g, published);
  }

  lemma {:induction false} RunSnoc(w: World, acts: seq<Action>, m: World, a: Action)
    requires Run(w, acts, m) && Enabled(m, a)
    ensures Run(w, acts + [a], Apply(m, a))
    decreases |acts|
  {
    hide Apply, Enabled;
    if acts == [] {
      assert [a][1..] == [];
    } else {
      RunSnoc(Apply(w, acts[0]), acts[1..], m, a);
      assert (acts + [a])[1..] == acts[1..] + [a];
    }
  }

  lemma Extend(m: World, a: Action) returns (m': World)
    requires Reachable(m) && Enabled(m, a)
    ensures m' == Apply(m, a) && Reachable(m')
  {
    hide Apply, Enabled;
    var acts :| Run(BOOT, acts, m);
    RunSnoc(BOOT, acts, m, a);
    m' := Apply(m, a);
  }

  lemma Launches() returns (w: World)
    ensures Reachable(w) && w.log == [Began(1)] && w.supervisors == map[1 := Launched(Server)] && !w.down
    ensures w.control.current == Some(Generation(1, 2, Starting, Some(Endpoint("127.0.0.1", 9876)), None, NEW_GATE))
  {
    assert Run(BOOT, [], BOOT);
    hide Run, Reachable;
    w := Extend(BOOT, RequestStart);
    assert w.control.current == Some(Generation(1, 1, Starting, None, None, NEW_GATE));
    w := Extend(w, RequestEndpoint(1, Endpoint("127.0.0.1", 9876)));
    w := Extend(w, FactoryReturns(1, Server));
  }

  lemma Reports() returns (w: World)
    ensures Reachable(w) && w.log == [Began(1), Ran(1)] && w.supervisors == map[1 := Reporting(Ok(true), true)]
    ensures w.control.Is(1) && w.control.current.value.lifecycle == Running && !w.down
  {
    w := Launches();
    hide Run, Reachable;
    w := Extend(w, Supervise(1, false, false, false));
  }

  /** A start is answered with success, the server is stopped, and while it drains
      a second start is answered as cancelled. */
  lemma ErrorAfterSuccess() returns (w: World)
    ensures Reachable(w) && StartPublished(1, Ok(true)) in w.log && w.control.Is(1)
    ensures StartAnswer(w.control) == Settled(Err("Web server start cancelled by stop"))
  {
    w := Reports();
    hide Run, Reachable;
    w := Extend(w, Supervise(1, false, false, false));
    assert w.log[2] == StartPublished(1, Ok(true));
    w := Extend(w, RequestStop(5));
    assert w.log[2] == StartPublished(1, Ok(true));
  }

  /** A request with no current generation begins one, closed and starting, with a
      supervisor of its own; any other changes nothing. */
  lemma StartRequested(w: World)
    requires Reachable(w)
    ensures var w' := Apply(w, RequestStart);
            if w.control.current.Some? then w' == w
            else
              var id := w.control.nextGeneration + 1;
              && w'.log == w.log + [Began(id)] && w'.supervisors == w.supervisors[id := Launching]
              && SnapshotOf(w'.control) == Snapshot(Some(id), SnapshotOf(w.control).revision + 1, Starting, None)
              && w'.control.current.value.deadline.None? && w'.Gate(id) == Admission(false, false, false, {})
  {
  }

  // ----- snapshots -----------------------------------------------------------------------------------

  /** What a snapshot shows: the current generation with its phase and endpoint, or
      the stopped server with its last generation. */
  lemma SnapshotShows(w: World)
    requires Reachable(w)
    ensures var s := SnapshotOf(w.control);
            if w.control.current.Some? then
              && s.generation == Some(w.control.nextGeneration)
              && s.endpoint == w.control.current.value.endpoint && s.lifecycle != Stopped
              && (s.lifecycle == Stopping <==> Closed(w.control.nextGeneration) in w.log)
              && (s.lifecycle == Running <==> w.Gate(w.control.nextGeneration).isOpen)
            else
              && s.lifecycle == Stopped && s.endpoint.None?
              && s.generation == if w.control.nextGeneration == 0 then None else Some(w.control.nextGeneration)
  {
    if w.control.current.Some? { CurrentFacts(w); }
    hide Lawful, StepOk;
    LastFacts(w);
  }

  ghost predicate LastOk(w: World) {
    && (w.control.current.None? ==>
          w.control.lastGeneration == if w.control.nextGeneration == 0 then None else Some(w.control.nextGeneration))
    && (w.control.current.Some? ==> w.control.current.value.id == w.control.nextGeneration && 1 <= w.control.nextGeneration)
  }

  lemma LastFacts(w: World)
    requires Reachable(w)
    ensures LastOk(w)
  {
    var acts :| Run(BOOT, acts, w);
    assert Inv(BOOT);
    hide Inv, Run, Reachable;
    LastRun(BOOT, acts, w);
  }

  lemma {:induction false} LastRun(w: World, acts: seq<Action>, w': World)
    requires LastOk(w) && Run(w, acts, w')
    ensures LastOk(w')
    decreases |acts|
  {
    hide Apply, Enabled, LastOk;
    if acts != [] {
      LastStep(w, acts[0]);
      LastRun(Apply(w, acts[0]), acts[1..], w');
    }
  }

  lemma LastStep(w: World, a: Action)
    requires LastOk(w) && Enabled(w, a)
    ensures LastOk(Apply(w, a))
  {
    if a.Supervise? {
      hide SuperviseStep;
      SuperviseSection(w, a.id, a.down1, a.down2, a.down3);
    } else if !IsRequest(a) {
      hide Apply;
      ConnectionsChangeTokens(w, a);
    }
  }

  // ----- endpoints ---------------------------------------------------------------------------------------

  /** An endpoint is taken exactly from the current generation while it starts or
      stops; a changed one raises the revision by one. */
  lemma EndpointTaken(w: World, id: nat, endpoint: Endpoint)
    requires Reachable(w)
    ensures var s, s' := SnapshotOf(w.control), SnapshotOf(Apply(w, RequestEndpoint(id, endpoint)).control);
            if w.control.Is(id) && s.lifecycle != Running && s.endpoint != Some(endpoint)
            then s' == s.(endpoint := Some(endpoint), revision := s.revision + 1)
            else s' == s
  {
    if w.control.current.Some? { CurrentFacts(w); }
    hide Reachable, Lawful, MarksOf, StepOk;
  }

  // ----- the supervisor -----------------------------------------------------------------------------------

  /** A server that came up runs, with its gate open, exactly if it is still
      starting, has published its endpoint, and neither its token nor the shutdown
      was seen; otherwise its start is answered as cancelled. */
  lemma ServerComesUp(w: World, id: nat, down1: bool, down2: bool, down3: bool)
    requires Reachable(w) && Enabled(w, Supervise(id, down1, down2, down3)) && w.supervisors[id] == Launched(Server)
    ensures w.control.Is(id)
    ensures var g, w' := w.control.current.value, Apply(w, Supervise(id, down1, down2, down3));
            if g.lifecycle == Starting && g.endpoint.Some? && !g.gate.cancelled && !down1 && !down2 && !down3
            then
              && w'.supervisors[id] == Reporting(Ok(true), true) && w'.log == w.log + [Ran(id)]
              && w'.Gate(id) == g.gate.(isOpen := true) && w'.control.current.value.lifecycle == Running
            else
              && w'.supervisors[id] == Unpublished && Ran(id) !in w'.log && !w'.Gate(id).isOpen
              && if g.lifecycle == Starting && g.endpoint.Some? && !g.gate.cancelled && !down1
                 then w'.control.current.value.lifecycle == Stopping && w'.log == w.log + [Closed(id)]
                 else w'.control == w.control && w'.log == w.log
  {
    ReachableInv(w);
    AtWork(w, id);
    hide Inv, Reachable;
  }

  /** A section for a generation that is not the current one changes nothing, and a
      start of such a generation is cancelled. */
  lemma OutdatedDoesNothing(c: Control, id: nat, r: StartResult, down1: bool, down2: bool, down3: bool)
    requires !c.Is(id)
    ensures MoveToStopping(c, id) == c && Finish(c, id) == c
    ensures PublishRunning(c, id, down1, down2, down3) == c && !Published(c, id, down1, down2, down3)
    ensures StartOutcome(c, id, r) == Err("Web server start cancelled by stop")
  {
  }

  /** Such a start is then answered as cancelled, and the generation stops. */
  lemma UnpublishedIsCancelled(w: World, id: nat, down1: bool, down2: bool, down3: bool)
    requires Reachable(w) && Enabled(w, Supervise(id, down1, down2, down3)) && w.supervisors[id] == Unpublished
    ensures var w' := Apply(w, Supervise(id, down1, down2, down3));
            && w'.supervisors[id] == Reporting(Err("Web server start cancelled by stop"), true)
            && w'.control.Is(id) && w'.control.current.value.lifecycle == Stopping
  {
    ReachableInv(w);
    AtWork(w, id);
    hide Inv, Reachable;
  }

  /** A start that brought up no server reports its own result exactly if no stop
      came before, and the cancelled error otherwise. */
  lemma NoServerReports(w: World, id: nat, output: FactoryOutput, down1: bool, down2: bool, down3: bool)
    requires Reachable(w) && Enabled(w, Supervise(id, down1, down2, down3))
    requires w.supervisors[id] == Launched(output) && output != Server
    ensures w.control.Is(id)
    ensures var w' := Apply(w, Supervise(id, down1, down2, down3));
            && w'.control.Is(id) && w'.control.current.value.lifecycle == Stopping
            && w'.supervisors[id] == Reporting(
                 if Closed(id) in w.log then Err("Web server start cancelled by stop")
                 else match output
                      case NoServer => Ok(false)
                      case Failed(message) => Err(message)
                      case Panicked => Err("Web server start supervisor panicked")
                      case Server => Ok(true), false)
  {
    ReachableInv(w);
    AtWork(w, id);
    hide Inv, Reachable, Held, Reported;
  }

  /** What is reported is published. */
  lemma ReportIsPublished(w: World, id: nat, down1: bool, down2: bool, down3: bool)
    requires Reachable(w) && Enabled(w, Supervise(id, down1, down2, down3)) && w.supervisors[id].Reporting?
    ensures Apply(w, Supervise(id, down1, down2, down3)).log == w.log + [StartPublished(id, w.supervisors[id].result)]
  {
  }

  /** A draining supervisor goes on exactly when every guard was given back. */
  lemma DrainEndsIff(w: World, id: nat)
    requires Reachable(w) && id in w.supervisors && w.supervisors[id] == Draining
    ensures CanSupervise(w, id) <==> Held(w.log, id) == {}
  {
    ReachableInv(w);
    AtWork(w, id);
    hide Inv, Reachable, Held;
  }

  /** Retirement leaves no current generation, under the next revision. */
  lemma FinishingRetires(w: World, id: nat, down1: bool, down2: bool, down3: bool)
    requires Reachable(w) && Enabled(w, Supervise(id, down1, down2, down3)) && w.supervisors[id] == Finishing
    ensures var w' := SuperviseStep(w, id, down1, down2, down3);
            && w'.log == w.log + [Retired(id)] && w'.supervisors[id] == Done
            && SnapshotOf(w'.control) == Snapshot(Some(id), SnapshotOf(w.control).revision + 1, Stopped, None)
  {
    assert w.control.Is(id) by { ReachableInv(w); hide Inv; AtWork(w, id); }
    hide Reachable;
    Retires(w, id, down1, down2, down3);
  }

  lemma Retires(w: World, id: nat, down1: bool, down2: bool, down3: bool)
    requires w.control.Is(id) && id in w.supervisors && w.supervisors[id] == Finishing
    ensures var w' := SuperviseStep(w, id, down1, down2, down3);
            && w'.log == w.log + [Retired(id)] && w'.supervisors == w.supervisors[id := Done]
            && w'.control.current.None? && w'.control.lastGeneration == Some(id)
            && w'.control.stoppedRevision == w.control.current.value.revision + 1
  {
  }

  // ----- admission -------------------------------------------------------------------------------------------

  /** An upgrade is admitted exactly while its generation runs and its token is not
      cancelled. */
  lemma UpgradeAdmittedIff(w: World, k: nat, id: nat)
    requires Reachable(w) && Enabled(w, Upgrade(k, id))
    ensures var w' := Apply(w, Upgrade(k, id));
            if w.control.Is(id) && w.control.current.value.lifecycle == Running && !w.control.current.value.gate.cancelled
            then w'.log == w.log + [Admitted(id, ConnectionToken(k))] && w'.connections == w.connections[k := Upgraded(id)]
            else w' == w
  {
    hide Lawful, MarksOf, StepOk, ConnectionsOk;
    ReachableInv(w);
  }

  /** So is a frame; a frame that is refused ends the receiving half. */
  lemma FrameAdmittedIff(w: World, k: nat)
    requires Reachable(w) && Enabled(w, FrameArrives(k))
    ensures var c, w' := w.connections[k], Apply(w, FrameArrives(k));
            && w.control.Is(c.generation)
            && if w.control.current.value.lifecycle == Running && !w.control.current.value.gate.cancelled
               then w'.log == w.log + [Admitted(c.generation, FrameToken(k))] && w'.connections[k] == c.(inFrame := true)
               else w'.log == w.log && w'.connections[k] == c.(receiving := false)
  {
    ReachableInv(w);
    LiveConnection(w, k);
    hide Inv, Reachable, MarksOf;
  }
}
