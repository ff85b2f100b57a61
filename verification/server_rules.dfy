/**
The web server's lifecycle and its admission gate (src-tauri/src/web_server.rs):
the critical sections, as functions on the values that the two mutexes guard.
The global shutdown flag is not guarded by either; a section that reads it
several times takes one value for each reading.
*/
module ServerRules {
  import opened Wrappers

  datatype Phase = Stopped | Starting | Running | Stopping

  datatype Endpoint = Endpoint(host: string, port: nat)

  datatype StartResult = Ok(served: bool) | Err(message: string)

  const START_CANCELLED := Err("Web server start cancelled by stop")

  /** Tracked work: a connection with both its halves, or one admitted frame. */
  datatype Token = ConnectionToken(connection: nat) | FrameToken(connection: nat)

  /** `closed` and `tokens` are the task tracker's; `cancelled` is the generation token. */
  datatype Admission = Admission(isOpen: bool, closed: bool, cancelled: bool, tokens: set<Token>)
  {
    predicate Admits() {
      isOpen && !cancelled
    }

    function Shut(): Admission {
      this.(isOpen := false, closed := true, cancelled := true)
    }

    /** The drain that retirement waits for. */
    predicate Drained() {
      closed && tokens == {}
    }
  }

  const NEW_GATE := Admission(false, false, false, {})

  /** One generation, with the admission gate it shares with its connections. */
  datatype Generation = Generation(
    id: nat,
    revision: nat,
    lifecycle: Phase,
    endpoint: Option<Endpoint>,
    deadline: Option<nat>,
    gate: Admission)

  datatype Control = Control(
    nextGeneration: nat,
    stoppedRevision: nat,
    lastGeneration: Option<nat>,
    current: Option<Generation>)
  {
    predicate Is(id: nat) {
      current.Some? && current.value.id == id
    }
  }

  const IDLE_CONTROL := Control(0, 0, None, None)

  datatype Snapshot = Snapshot(
    generation: Option<nat>,
    revision: nat,
    lifecycle: Phase,
    endpoint: Option<Endpoint>)

  function SnapshotOf(c: Control): Snapshot {
    match c.current
    case Some(g) => Snapshot(Some(g.id), g.revision, g.lifecycle, g.endpoint)
    case None => Snapshot(c.lastGeneration, c.stoppedRevision, Stopped, None)
  }

  /** What a start request waits for. */
  datatype StartWaiter = Follow(generation: nat) | Settled(result: StartResult)

  function StartAnswer(c: Control): StartWaiter {
    match c.current
    case None => Follow(c.nextGeneration + 1)
    case Some(g) =>
      if g.lifecycle == Starting then Follow(g.id)
      else if g.lifecycle == Running then Settled(Ok(true))
      else Settled(START_CANCELLED)
  }

  function BeginStart(c: Control): Control {
    if c.current.Some? then c
    else
      var id := c.nextGeneration + 1;
      c.(nextGeneration := id,
         current := Some(Generation(id, c.stoppedRevision + 1, Starting, None, None, NEW_GATE)))
  }

  /** Stopping, with the gate closed and the token cancelled. */
  function Halt(g: Generation): Generation {
    if g.lifecycle == Stopping then g.(gate := g.gate.Shut())
    else g.(lifecycle := Stopping, revision := g.revision + 1, gate := g.gate.Shut())
  }

  /** The first stop fixes the deadline. */
  function BeginStop(c: Control, until: nat): Control {
    match c.current
    case None => c
    case Some(g) =>
      var g' := if g.lifecycle == Starting || g.lifecycle == Running then Halt(g) else g;
      c.(current := Some(if g'.deadline.None? then g'.(deadline := Some(until)) else g'))
  }

  predicate TakesEndpoint(c: Control, id: nat) {
    c.Is(id) && (c.current.value.lifecycle == Starting || c.current.value.lifecycle == Stopping)
  }

  function PublishEndpoint(c: Control, id: nat, endpoint: Endpoint): Control {
    if TakesEndpoint(c, id) && c.current.value.endpoint != Some(endpoint) then
      var g := c.current.value;
      c.(current := Some(g.(endpoint := Some(endpoint), revision := g.revision + 1)))
    else c
  }

  predicate MayRun(c: Control, id: nat, down: bool) {
    && c.Is(id) && c.current.value.lifecycle == Starting && c.current.value.endpoint.Some?
    && !c.current.value.gate.cancelled && !down
  }

  /** The gate opens unless the shutdown flag was seen before or after the write. */
  predicate Opens(down2: bool, down3: bool) {
    !down2 && !down3
  }

  function PublishRunning(c: Control, id: nat, down1: bool, down2: bool, down3: bool): Control {
    if !MayRun(c, id, down1) then c
    else
      var g := c.current.value;
      var g' := g.(lifecycle := Running, revision := g.revision + 1);
      c.(current := Some(if Opens(down2, down3) then g'.(gate := g.gate.(isOpen := true)) else Halt(g')))
  }

  predicate Published(c: Control, id: nat, down1: bool, down2: bool, down3: bool) {
    MayRun(c, id, down1) && Opens(down2, down3)
  }

  function MoveToStopping(c: Control, id: nat): Control {
    if c.Is(id) then c.(current := Some(Halt(c.current.value))) else c
  }

  /** A start that did not bring up a server reports its own result only if no
      stop came first. */
  function StartOutcome(c: Control, id: nat, ifStarting: StartResult): StartResult {
    if c.Is(id) && c.current.value.lifecycle == Starting then ifStarting else START_CANCELLED
  }

  function Finish(c: Control, id: nat): Control {
    if !c.Is(id) then c
    else c.(current := None, lastGeneration := Some(id), stoppedRevision := c.current.value.revision + 1)
  }
}
