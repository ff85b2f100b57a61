/**
The main window's half of the quit handshake (src/main/App.tsx): its handlers,
as functions on the window's state. Each handler runs to its end, or to its
next `await`, without being interrupted.

A payload that is missing counts as one whose epoch is not live.
*/
module QuitUiRules {
  import opened Wrappers

  /** The largest integer that JavaScript calls safe. */
  const MAX_SAFE_INTEGER: nat := 9_007_199_254_740_991

  predicate IsLiveEpoch(epoch: int) {
    0 <= epoch <= MAX_SAFE_INTEGER
  }

  datatype Kind = Exiting | Aborted | InFlight | Stale | Other

  datatype Reply = Reply(
    kind: Kind,
    epoch: int,
    reason: Option<string>,
    refusing: seq<string>,
    unanswered: seq<string>)

  datatype Status =
    | Hidden
    | WaitingToQuit
    | QuitAborted(reason: Option<string>, refusing: seq<string>, unanswered: seq<string>)
    | QuitFailed(errors: seq<string>)

  /** The placement flush that all attempts of a round share. */
  datatype Flush = NotAsked | Pending | Settled

  /** `attempt` names the latest attempt; `listening` the one whose start event is listened for. */
  datatype Round = Round(
    epoch: Option<nat>,
    attempt: Option<nat>,
    attempts: nat,
    earned: bool,
    suppressed: bool,
    offer: bool,
    dialog: bool,
    ended: bool,
    handled: bool,
    errors: seq<string>,
    forceTimer: bool,
    graceTimer: bool,
    listening: Option<nat>,
    flush: Flush)

  const NEW_ROUND := Round(None, None, 0, false, false, false, false, false, false, [], true, false, None, Pending)

  /** The rounds in the order they began. */
  datatype App = App(
    rounds: seq<Round>,
    active: Option<nat>,
    inProgress: bool,
    status: Status,
    offerVisible: bool,
    dialogVisible: bool)
  {
    /** A handler acts only for the active round, and only until it has ended. */
    predicate Stands(r: nat) {
      active == Some(r) && r < |rounds| && !rounds[r].ended
    }

    function With(r: nat, x: Round): App
      requires r < |rounds|
    {
      this.(rounds := rounds[r := x])
    }
  }

  const QUIET_APP := App([], None, false, Hidden, false, false)

  function Begin(app: App): App {
    if app.inProgress then app
    else App(app.rounds + [NEW_ROUND], Some(|app.rounds|), true, WaitingToQuit, false, false)
  }

  function Over(x: Round): Round {
    x.(ended := true, handled := true, forceTimer := false, graceTimer := false, listening := None)
  }

  function End(app: App, r: nat, status: Status): App
    requires r < |app.rounds|
  {
    if app.rounds[r].ended then app
    else App(app.rounds[r := Over(app.rounds[r])], None, false, status, false, false)
  }

  function AbortedStatus(reply: Reply): Status {
    QuitAborted(reply.reason, reply.refusing, reply.unanswered)
  }

  /** An epoch is bound once; a second one is ignored. */
  function Bind(app: App, r: nat, epoch: int): App
    requires r < |app.rounds|
  {
    var x := app.rounds[r];
    if !IsLiveEpoch(epoch) || !app.Stands(r) || (x.epoch.Some? && x.epoch.value != epoch) then app
    else
      var bound := x.(epoch := Some(epoch));
      if x.earned && !x.suppressed && !x.dialog
      then app.With(r, bound.(offer := true)).(offerVisible := true)
      else app.With(r, bound)
  }

  function SuppressForce(app: App, r: nat): App
    requires r < |app.rounds|
  {
    var x := app.rounds[r].(earned := false, suppressed := true, offer := false, dialog := false, forceTimer := false);
    app.With(r, x).(offerVisible := false, dialogVisible := false)
  }

  function HandleStarted(app: App, r: nat, listener: nat, attempt: nat, epoch: int): App
    requires r < |app.rounds|
  {
    if !app.Stands(r) || app.rounds[r].attempt != Some(listener) || attempt != listener then app
    else Bind(app, r, epoch)
  }

  /** The active round, if the payload is about its epoch. */
  predicate Concerns(app: App, epoch: int) {
    && app.active.Some? && app.active.value < |app.rounds| && !app.rounds[app.active.value].ended
    && IsLiveEpoch(epoch) && app.rounds[app.active.value].epoch == Some(epoch)
  }

  function EndBy(app: App, r: nat, reply: Reply): App
    requires r < |app.rounds|
  {
    match reply.kind
    case Exiting => End(app, r, Hidden)
    case Aborted => End(app, r, AbortedStatus(reply))
    case Stale => End(app, r, Hidden)
    case _ => app
  }

  function HandleOutcome(app: App, reply: Reply): App {
    if !Concerns(app, reply.epoch) || app.rounds[app.active.value].handled then app
    else EndBy(app, app.active.value, reply)
  }

  function HandleCancelled(app: App, epoch: int): App {
    if Concerns(app, epoch) then SuppressForce(app, app.active.value) else app
  }

  function FlushSettled(app: App, r: nat): App
    requires r < |app.rounds|
  {
    app.With(r, app.rounds[r].(flush := Settled))
  }

  /** An attempt gets its number once the placement is flushed. */
  function Attempt(app: App, r: nat, attempt: nat): App
    requires r < |app.rounds|
  {
    var x := app.rounds[r];
    app.With(r, x.(attempts := x.attempts + 1, attempt := Some(attempt), listening := None))
  }

  predicate StillCurrent(app: App, r: nat, attempt: nat) {
    app.Stands(r) && app.rounds[r].attempt == Some(attempt)
  }

  function ApplyResult(app: App, r: nat, reply: Reply): App
    requires r < |app.rounds|
  {
    var x := app.rounds[r];
    if !IsLiveEpoch(reply.epoch) || (x.epoch.Some? && x.epoch.value != reply.epoch) then app
    else if reply.kind == InFlight then Bind(app, r, reply.epoch)
    else EndBy(app, r, reply)
  }

  /** A rejected attempt is retried once after a grace, unless an epoch is bound. */
  function HandleNormal(app: App, r: nat, attempt: nat, result: Option<Reply>, error: string): App
    requires r < |app.rounds|
  {
    var x := app.rounds[r];
    if !StillCurrent(app, r, attempt) then app
    else if result.Some? then ApplyResult(app, r, result.value)
    else if x.epoch.Some? then app
    else
      var noted := x.(errors := x.errors + [error]);
      if x.attempts <= 1 then app.With(r, noted.(graceTimer := true))
      else End(app.With(r, noted), r, QuitFailed(noted.errors))
  }

  function ForceTimerFires(app: App, r: nat): App
    requires r < |app.rounds|
  {
    var x := app.rounds[r].(forceTimer := false);
    if !app.Stands(r) || x.suppressed then app.With(r, x)
    else if x.epoch.Some? then app.With(r, x.(earned := true, offer := true)).(offerVisible := true)
    else app.With(r, x.(earned := true))
  }

  /** Whether the grace ends in a retry. */
  predicate Retries(app: App, r: nat) {
    app.Stands(r) && app.rounds[r].epoch.None?
  }

  function GraceEnds(app: App, r: nat): App
    requires r < |app.rounds|
  {
    app.With(r, app.rounds[r].(graceTimer := false))
  }

  function ClickOffer(app: App): App {
    if app.active.None? || !app.Stands(app.active.value) then app
    else
      var r := app.active.value;
      var x := app.rounds[r];
      if x.suppressed || x.epoch.None? || !IsLiveEpoch(x.epoch.value) then app
      else app.With(r, x.(offer := false, dialog := true)).(offerVisible := false, dialogVisible := true)
  }

  function ClickKeepWaiting(app: App): App {
    if app.active.None? || !app.Stands(app.active.value) then app
    else
      var r := app.active.value;
      var x := app.rounds[r];
      var back := x.earned && !x.suppressed;
      app.With(r, x.(dialog := false, offer := back)).(offerVisible := back, dialogVisible := false)
  }

  /** Force is sent for the bound epoch of the active round only. */
  predicate MayForce(app: App, r: nat) {
    app.Stands(r) && app.rounds[r].epoch.Some? && IsLiveEpoch(app.rounds[r].epoch.value)
  }

  function ForceAnswered(app: App, r: nat, result: Option<Reply>): App
    requires r < |app.rounds|
  {
    if !app.Stands(r) || result.None? then app else EndBy(app, r, result.value)
  }

  function Cleanup(app: App): App {
    match app.active
    case None => app
    case Some(r) =>
      if r < |app.rounds|
      then app.With(r, app.rounds[r].(forceTimer := false, graceTimer := false, listening := None)).(active := None)
      else app.(active := None)
  }
}
