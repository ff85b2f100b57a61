/**
Runs of the web server (src-tauri/src/web_server.rs, src-tauri/src/web.rs):
start and stop requests, one supervisor for each generation, the global
shutdown, and connections whose two halves and frames hold admission guards.
*/
module ServerRuns {
  import opened Wrappers
  import opened ServerRules

  datatype Event =
    | Began(generation: nat)
    | Ran(generation: nat)
    | StopWon(generation: nat)
    | Closed(generation: nat)
    | Admitted(generation: nat, token: Token)
    | Released(generation: nat, token: Token)
    | StartPublished(generation: nat, result: StartResult)
    | Retired(generation: nat)

  type History = seq<Event>

  datatype FactoryOutput = Server | NoServer | Failed(message: string) | Panicked

  /** Where the supervisor of a generation stands. */
  datatype Step =
    | Launching
    | Interrupted
    | Launched(output: FactoryOutput)
    | Unpublished
    | Reporting(result: StartResult, serving: bool)
    | Joining
    | Halting
    | Draining
    | Finishing
    | Done

  /** A connection holds its guard from the upgrade until both halves are reaped;
      the receiving half may be inside one admitted frame. */
  datatype Connection =
    | Upgraded(generation: nat)
    | Serving(generation: nat, sending: bool, receiving: bool, inFrame: bool)
    | Gone(generation: nat)

  datatype World = World(
    control: Control,
    retired: map<nat, Admission>,
    supervisors: map<nat, Step>,
    connections: map<nat, Connection>,
    down: bool,
    downToken: bool,
    log: History)
  {
    function Gate(g: nat): Admission {
      if control.Is(g) then control.current.value.gate
      else if g in retired then retired[g]
      else NEW_GATE
    }

    function WithGate(g: nat, gate: Admission): World {
      if control.Is(g) then this.(control := control.(current := Some(control.current.value.(gate := gate))))
      else if g in retired then this.(retired := retired[g := gate])
      else this
    }

    function Note(events: History): World {
      this.(log := log + events)
    }
  }

  const BOOT := World(IDLE_CONTROL, map[], map[], map[], false, false, [])

  datatype Action =
    | RequestStart
    | RequestStop(until: nat)
    | RequestEndpoint(id: nat, endpoint: Endpoint)
    | RaiseDown
    | CancelDown
    | ServerSeesDown(id: nat)
    | FactoryReturns(id: nat, output: FactoryOutput)
    | SupervisorSeesDown(id: nat)
    | Supervise(id: nat, down1: bool, down2: bool, down3: bool)
    | Upgrade(connection: nat, id: nat)
    | UpgradeFails(connection: nat)
    | Spawn(connection: nat)
    | FrameArrives(connection: nat)
    | FrameCompletes(connection: nat)
    | ReceiveEnds(connection: nat)
    | SendEnds(connection: nat)
    | Reap(connection: nat)

  function HaltEvents(g: Generation, stop: bool): History {
    (if stop && g.lifecycle == Starting then [StopWon(g.id)] else []) + [Closed(g.id)]
  }

  function HaltWorld(w: World, id: nat, stop: bool): World {
    var w' := w.(control := MoveToStopping(w.control, id));
    if w.control.Is(id) then w'.Note(HaltEvents(w.control.current.value, stop)) else w'
  }

  function At(w: World, id: nat, step: Step): World {
    w.(supervisors := w.supervisors[id := step])
  }

  function OwnResult(output: FactoryOutput): StartResult {
    match output
    case Failed(message) => Err(message)
    case Panicked => Err("Web server start supervisor panicked")
    case _ => Ok(false)
  }

  predicate CanSupervise(w: World, id: nat) {
    && id in w.supervisors
    && match w.supervisors[id]
       case Launching => false
       case Interrupted => false
       case Draining => w.Gate(id).Drained()
       case Done => false
       case _ => true
  }

  /** The supervisor's next section; the shutdown flag as each reading saw it. */
  function SuperviseStep(w: World, id: nat, down1: bool, down2: bool, down3: bool): World
    requires CanSupervise(w, id)
  {
    match w.supervisors[id]
    case Launched(output) =>
      if output == Server then
        var w' := w.(control := PublishRunning(w.control, id, down1, down2, down3), down := w.down || down3);
        if Published(w.control, id, down1, down2, down3)
        then At(w', id, Reporting(Ok(true), true)).Note([Ran(id)])
        else At(w', id, Unpublished).Note(if MayRun(w.control, id, down1) then [Closed(id)] else [])
      else
        At(HaltWorld(w, id, false), id, Reporting(StartOutcome(w.control, id, OwnResult(output)), false))
    case Unpublished => At(HaltWorld(w, id, false), id, Reporting(START_CANCELLED, true))
    case Reporting(result, serving) =>
      At(w, id, if serving then Joining else Halting).Note([StartPublished(id, result)])
    case Joining => At(w, id, Halting)
    case Halting => At(HaltWorld(w, id, false), id, Draining)
    case Draining => At(w, id, Finishing)
    case Finishing =>
      var w' := At(w.(control := Finish(w.control, id)), id, Done);
      if w.control.Is(id) then (w'.(retired := w.retired[id := w.Gate(id)])).Note([Retired(id)]) else w'
    case _ => w
  }

  predicate Enabled(w: World, a: Action) {
    match a
    case CancelDown => w.down
    case ServerSeesDown(id) => w.downToken && w.control.Is(id)
    case FactoryReturns(id, _) =>
      id in w.supervisors && (w.supervisors[id].Launching? || w.supervisors[id].Interrupted?)
    case SupervisorSeesDown(id) => w.downToken && id in w.supervisors && w.supervisors[id].Launching?
    case Supervise(id, down1, down2, down3) =>
      CanSupervise(w, id) && (w.down ==> down1) && (down1 ==> down2) && (down2 ==> down3)
    case Upgrade(k, id) => k !in w.connections && id in w.supervisors
    case UpgradeFails(k) => k in w.connections && w.connections[k].Upgraded?
    case Spawn(k) => k in w.connections && w.connections[k].Upgraded?
    case FrameArrives(k) => Receiving(w, k) && !w.connections[k].inFrame
    case FrameCompletes(k) => Receiving(w, k) && w.connections[k].inFrame
    case ReceiveEnds(k) => Receiving(w, k) && !w.connections[k].inFrame
    case SendEnds(k) => k in w.connections && w.connections[k].Serving? && w.connections[k].sending
    case Reap(k) =>
      k in w.connections && w.connections[k].Serving? && !w.connections[k].sending && !w.connections[k].receiving
    case _ => true
  }

  predicate Receiving(w: World, k: nat) {
    k in w.connections && w.connections[k].Serving? && w.connections[k].receiving
  }

  function Connect(w: World, k: nat, c: Connection): World {
    w.(connections := w.connections[k := c])
  }

  function Acquire(w: World, g: nat, t: Token): World {
    w.WithGate(g, w.Gate(g).(tokens := w.Gate(g).tokens + {t})).Note([Admitted(g, t)])
  }

  function Release(w: World, g: nat, t: Token): World {
    w.WithGate(g, w.Gate(g).(tokens := w.Gate(g).tokens - {t})).Note([Released(g, t)])
  }

  function Apply(w: World, a: Action): World
    requires Enabled(w, a)
  {
    match a
    case RequestStart =>
      var c := BeginStart(w.control);
      var w' := w.(control := c);
      if w.control.current.Some? then w'
      else At(w', c.nextGeneration, Launching).Note([Began(c.nextGeneration)])
    case RequestStop(until) =>
      var w' := w.(control := BeginStop(w.control, until));
      if w.control.current.Some? &&
         (w.control.current.value.lifecycle == Starting || w.control.current.value.lifecycle == Running)
      then w'.Note(HaltEvents(w.control.current.value, true))
      else w'
    case RequestEndpoint(id, endpoint) => w.(control := PublishEndpoint(w.control, id, endpoint))
    case RaiseDown => w.(down := true)
    case CancelDown => w.(downToken := true)
    case ServerSeesDown(id) => w.WithGate(id, w.Gate(id).(cancelled := true))
    case FactoryReturns(id, output) => At(w, id, Launched(output))
    case SupervisorSeesDown(id) => At(HaltWorld(w, id, true), id, Interrupted)
    case Supervise(id, down1, down2, down3) => SuperviseStep(w, id, down1, down2, down3)
    case Upgrade(k, id) =>
      if w.Gate(id).Admits() then Connect(Acquire(w, id, ConnectionToken(k)), k, Upgraded(id)) else w
    case UpgradeFails(k) =>
      var g := w.connections[k].generation;
      Connect(Release(w, g, ConnectionToken(k)), k, Gone(g))
    case Spawn(k) => Connect(w, k, Serving(w.connections[k].generation, true, true, false))
    case FrameArrives(k) =>
      var c := w.connections[k];
      if w.Gate(c.generation).Admits()
      then Connect(Acquire(w, c.generation, FrameToken(k)), k, c.(inFrame := true))
      else Connect(w, k, c.(receiving := false))
    case FrameCompletes(k) =>
      var c := w.connections[k];
      Connect(Release(w, c.generation, FrameToken(k)), k, c.(inFrame := false))
    case ReceiveEnds(k) => Connect(w, k, w.connections[k].(receiving := false))
    case SendEnds(k) => Connect(w, k, w.connections[k].(sending := false))
    case Reap(k) =>
      var g := w.connections[k].generation;
      Connect(Release(w, g, ConnectionToken(k)), k, Gone(g))
  }

  ghost predicate Run(w: World, acts: seq<Action>, w': World)
    decreases |acts|
  {
    if acts == [] then w' == w
    else Enabled(w, acts[0]) && Run(Apply(w, acts[0]), acts[1..], w')
  }

  ghost predicate Reachable(w: World) {
    exists acts :: Run(BOOT, acts, w)
  }

  // ----- what a history may contain ---------------------------------------------------

  ghost predicate Reported(h: History, g: nat) {
    exists x | x in h :: x.StartPublished? && x.generation == g
  }

  /** The guards that were issued for `g` and are still held. */
  function Held(h: History, g: nat): set<Token> {
    if h == [] then {}
    else
      var before := Held(h[..|h| - 1], g);
      match h[|h| - 1]
      case Admitted(g', t) => if g' == g then before + {t} else before
      case Released(g', t) => if g' == g then before - {t} else before
      case _ => before
  }

  /** What a history records of one generation. */
  datatype Marks = Marks(ran: bool, won: bool, closed: bool, reported: bool, retired: bool, held: set<Token>)

  const UNMARKED := Marks(false, false, false, false, false, {})

  ghost function MarksOf(h: History, g: nat): Marks {
    Marks(Ran(g) in h, StopWon(g) in h, Closed(g) in h, Reported(h, g), Retired(g) in h, Held(h, g))
  }

  /** Whether an event other than the beginning may come next. */
  predicate Permits(m: Marks, ev: Event) {
    match ev
    case Began(_) => false
    case Ran(_) => !m.won && !m.closed && !m.reported
    case StopWon(_) => !m.ran && !m.reported
    case Closed(_) => !m.retired
    case Admitted(_, t) => m.ran && !m.closed && t !in m.held
    case Released(_, t) => t in m.held
    case StartPublished(_, r) => !m.reported && (r == Ok(true) <==> m.ran) && (m.won ==> r == START_CANCELLED)
    case Retired(_) => m.closed && m.reported && !m.retired && m.held == {}
  }

  ghost predicate Legal(h: History, ev: Event) {
    if ev.Began? then
      && (forall x | x in h :: x.generation < ev.generation)
      && (forall x | x in h && x.Began? :: Retired(x.generation) in h)
    else
      Permits(MarksOf(h, ev.generation), ev) && Began(ev.generation) in h
  }

  ghost predicate Lawful(h: History) {
    forall i | 0 <= i < |h| :: Legal(h[..i], h[i])
  }

  // ----- the invariant ------------------------------------------------------------------

  /** The gate of the current generation is open exactly while it runs. */
  predicate PhaseOk(g: Generation, m: Marks) {
    && g.lifecycle != Stopped
    && (g.gate.isOpen <==> g.lifecycle == Running)
    && (g.lifecycle == Stopping <==> m.closed)
    && (g.lifecycle == Stopping ==> g.gate.closed && g.gate.cancelled)
    && (g.lifecycle == Starting ==> !m.won && !m.ran)
    && (g.lifecycle == Running ==> m.ran && !m.won && g.endpoint.Some?)
    && g.gate.tokens == m.held
    && !m.retired
  }

  /** What the supervisor knows where it stands. */
  predicate StepOk(g: Generation, step: Step, m: Marks) {
    match step
    case Launching => !m.reported && !m.ran
    case Interrupted => !m.reported && !m.ran && g.lifecycle == Stopping
    case Launched(_) => !m.reported && !m.ran
    case Unpublished => !m.reported && !m.ran
    case Reporting(r, _) =>
      && !m.reported && g.lifecycle != Starting
      && (r == Ok(true) <==> m.ran)
      && (m.won ==> r == START_CANCELLED)
    case Joining => m.reported && g.lifecycle != Starting
    case Halting => m.reported && g.lifecycle != Starting
    case Draining => m.reported && g.lifecycle == Stopping
    case Finishing => m.reported && g.lifecycle == Stopping && g.gate.Drained()
    case Done => false
  }

  ghost predicate LiveOk(w: World) {
    w.control.current.Some? ==>
      var g := w.control.current.value;
      && g.id == w.control.nextGeneration && g.id in w.supervisors
      && PhaseOk(g, MarksOf(w.log, g.id))
      && StepOk(g, w.supervisors[g.id], MarksOf(w.log, g.id))
  }

  predicate OldOk(gate: Admission, step: Step, m: Marks) {
    && step == Done && !gate.isOpen && gate.closed && gate.tokens == {}
    && m.held == {} && m.closed && m.reported && m.retired
  }

  /** Every generation but the current one is retired. */
  ghost predicate OldsOk(w: World) {
    && (forall g | g in w.retired :: g in w.supervisors && !w.control.Is(g))
    && (forall g | g in w.supervisors && !w.control.Is(g) ::
          g in w.retired && OldOk(w.retired[g], w.supervisors[g], MarksOf(w.log, g)))
  }

  predicate ConnectionOk(c: Connection, k: nat, gate: Admission) {
    && (ConnectionToken(k) in gate.tokens <==> !c.Gone?)
    && (FrameToken(k) in gate.tokens <==> c.Serving? && c.inFrame)
    && (c.Serving? && c.inFrame ==> c.receiving)
  }

  /** A connection that still runs is one of the current generation's. */
  ghost predicate ConnectionsOk(w: World) {
    && (forall k | k in w.connections && !w.connections[k].Gone? :: w.control.Is(w.connections[k].generation))
    && (w.control.current.Some? ==>
          var gate := w.control.current.value.gate;
          && (forall k | k in w.connections :: ConnectionOk(w.connections[k], k, gate))
          && (forall t | t in gate.tokens :: t.connection in w.connections))
  }

  ghost predicate LogOk(w: World) {
    && Lawful(w.log)
    && (forall x | x in w.log :: x.generation in w.supervisors)
    && (forall g | g in w.supervisors :: 1 <= g <= w.control.nextGeneration && Began(g) in w.log)
    && (w.downToken ==> w.down)
  }

  ghost predicate Inv(w: World) {
    LogOk(w) && LiveOk(w) && OldsOk(w) && ConnectionsOk(w)
  }
}
