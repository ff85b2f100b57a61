/**
Runs of the main window's quit handshake (src/main/App.tsx): invoke results,
events, both timers and clicks in any order, with a log of what a run did.

What waits for a promise that is already settled goes on in the same step, as
the job queue of JavaScript runs it before any other event.
*/
module QuitUiRuns {
  import opened Wrappers
  import opened QuitUiRules

  datatype How = ByExit | ByAbort | ByStale | ByFailure

  datatype Event =
    | Begun(round: nat)
    | StartSent(round: nat, attempt: nat)
    | Bound(round: nat, epoch: nat)
    | Earned(round: nat)
    | Suppressed(round: nat, epoch: nat)
    | ForceSent(round: nat, epoch: nat)
    | Unusable(round: nat, reply: Reply)
    | Rejected(round: nat, error: string)
    | Ended(round: nat, how: How, about: Option<Said>)

  /** The reply that ended a round, and the epoch it is about. */
  datatype Said = Said(epoch: nat, reply: Reply)

  type History = seq<Event>

  /** Where the normal attempt of a round stands. */
  datatype Pc = Resting | Flushing | Listening(attempt: nat) | Asking(attempt: nat)

  datatype Ui = Ui(app: App, pcs: seq<Pc>, lastAttempt: nat, disposed: bool, log: History)

  const IDLE_UI := Ui(QUIET_APP, [], 0, false, [])

  datatype Action =
    | CloseWindow
    | FlushSettles(round: nat)
    | ListenerReady(round: nat, heard: bool)
    | StartSettles(round: nat, result: Option<Reply>, error: string)
    | StartedArrives(round: nat, listener: nat, sender: nat, attempt: nat, epoch: int)
    | OutcomeArrives(reply: Reply)
    | CancelledArrives(epoch: int)
    | ForceTimer(round: nat)
    | GraceTimer(round: nat)
    | Offer
    | KeepWaiting
    | Confirm
    | ForceSettles(round: nat, target: nat, result: Option<Reply>)
    | Dispose

  /** What the change of a round's state shows. */
  function Seen(x: Round, x': Round, r: nat, how: How, about: Option<Said>): History {
    (if x.epoch.None? && x'.epoch.Some? then [Bound(r, x'.epoch.value)] else []) +
    (if !x.earned && x'.earned then [Earned(r)] else []) +
    (if !x.suppressed && x'.suppressed && x.epoch.Some? then [Suppressed(r, x.epoch.value)] else []) +
    (if !x.ended && x'.ended then [Ended(r, how, about)] else [])
  }

  function HowOf(kind: Kind): How {
    match kind
    case Exiting => ByExit
    case Aborted => ByAbort
    case _ => ByStale
  }

  /** A reply that neither binds an epoch nor ends the round. */
  predicate Unhelpful(reply: Reply) {
    !IsLiveEpoch(reply.epoch) || reply.kind == Other
  }

  /** The active round moves on to `app`. */
  function Move(u: Ui, r: nat, app: App, pc: Pc, how: How, about: Option<Said>, more: History): Ui
    requires r < |u.app.rounds| && r < |app.rounds| && r < |u.pcs|
  {
    u.(app := app, pcs := u.pcs[r := pc], log := u.log + Seen(u.app.rounds[r], app.rounds[r], r, how, about) + more)
  }

  function SaidBy(reply: Reply): Option<Said> {
    if 0 <= reply.epoch then Some(Said(reply.epoch, reply)) else None
  }

  /** The section of an attempt that follows the placement flush. */
  function AfterFlush(u: Ui, r: nat): Ui
    requires r < |u.app.rounds| && r < |u.pcs|
  {
    if u.app.Stands(r) then
      var a := u.lastAttempt + 1;
      u.(app := QuitUiRules.Attempt(u.app, r, a), pcs := u.pcs[r := Listening(a)], lastAttempt := a)
    else u.(pcs := u.pcs[r := Resting])
  }

  function Started(u: Ui, r: nat): Ui
    requires r < |u.app.rounds| && r < |u.pcs|
  {
    if u.app.rounds[r].flush == Settled then AfterFlush(u, r) else u.(pcs := u.pcs[r := Flushing])
  }

  /** A rejection counts while the attempt is current and no epoch is bound. */
  predicate Rejects(u: Ui, r: nat, attempt: nat)
    requires r < |u.app.rounds|
  {
    StillCurrent(u.app, r, attempt) && u.app.rounds[r].epoch.None?
  }

  /** The result of a normal attempt. */
  function Answered(u: Ui, r: nat, result: Option<Reply>, error: string): Ui
    requires r < |u.app.rounds| && r < |u.pcs| && u.pcs[r].Asking?
  {
    var a := u.pcs[r].attempt;
    var app := HandleNormal(u.app, r, a, result, error);
    if result.None? then
      var noted := u.(log := u.log + if Rejects(u, r, a) then [Rejected(r, error)] else []);
      Move(noted, r, app, Resting, ByFailure, None, [])
    else
      var lost := StillCurrent(u.app, r, a) && Unhelpful(result.value) && u.app.rounds[r].epoch.None?;
      Move(u, r, app, Resting, HowOf(result.value.kind), SaidBy(result.value),
           if lost then [Unusable(r, result.value)] else [])
  }

  predicate Known(u: Ui, r: nat) {
    r < |u.app.rounds| && r < |u.pcs|
  }

  predicate Enabled(u: Ui, a: Action) {
    match a
    case FlushSettles(r) => Known(u, r) && u.pcs[r].Flushing?
    case ListenerReady(r, _) => Known(u, r) && u.pcs[r].Listening?
    case StartSettles(r, _, _) => Known(u, r) && u.pcs[r].Asking?
    case StartedArrives(r, _, sender, attempt, _) => Known(u, r) && StartSent(sender, attempt) in u.log
    case OutcomeArrives(_) => ActiveKnown(u)
    case CancelledArrives(_) => ActiveKnown(u)
    case ForceTimer(r) => Known(u, r) && u.app.rounds[r].forceTimer
    case GraceTimer(r) => Known(u, r) && u.app.rounds[r].graceTimer
    case Offer => u.app.offerVisible && ActiveKnown(u)
    case KeepWaiting => u.app.dialogVisible && ActiveKnown(u)
    case Confirm => u.app.dialogVisible && ActiveKnown(u)
    case ForceSettles(r, e, _) => Known(u, r) && ForceSent(r, e) in u.log
    case Dispose => !u.disposed
    case _ => true
  }

  predicate ActiveKnown(u: Ui) {
    u.app.active.Some? ==> Known(u, u.app.active.value)
  }

  /** The active round's handler has run. */
  function MoveActive(u: Ui, app: App, how: How, about: Option<Said>): Ui
    requires ActiveKnown(u) && |app.rounds| == |u.app.rounds|
  {
    if u.app.active.None? then u.(app := app)
    else Move(u, u.app.active.value, app, u.pcs[u.app.active.value], how, about, [])
  }

  function Apply(u: Ui, a: Action): Ui
    requires Enabled(u, a)
  {
    match a
    case CloseWindow =>
      var w := u.(app := Begin(u.app));
      if u.app.inProgress then w else w.(pcs := u.pcs + [Flushing], log := u.log + [Begun(|u.app.rounds|)])
    case FlushSettles(r) => AfterFlush(u.(app := FlushSettled(u.app, r)), r)
    case ListenerReady(r, heard) =>
      var attempt := u.pcs[r].attempt;
      if StillCurrent(u.app, r, attempt) then
        var x := u.app.rounds[r].(listening := if heard then Some(attempt) else None);
        Move(u, r, u.app.With(r, x), Asking(attempt), ByFailure, None, [StartSent(r, attempt)])
      else u.(pcs := u.pcs[r := Resting])
    case StartSettles(r, result, error) => Answered(u, r, result, error)
    case StartedArrives(r, listener, _, attempt, epoch) =>
      Move(u, r, HandleStarted(u.app, r, listener, attempt, epoch), u.pcs[r], ByFailure, None, [])
    case OutcomeArrives(reply) => MoveActive(u, HandleOutcome(u.app, reply), HowOf(reply.kind), SaidBy(reply))
    case CancelledArrives(epoch) => MoveActive(u, HandleCancelled(u.app, epoch), ByFailure, None)
    case ForceTimer(r) => Move(u, r, ForceTimerFires(u.app, r), u.pcs[r], ByFailure, None, [])
    case GraceTimer(r) =>
      var w := u.(app := GraceEnds(u.app, r));
      if Retries(w.app, r) then Started(w, r) else w
    case Offer => MoveActive(u, ClickOffer(u.app), ByFailure, None)
    case KeepWaiting => MoveActive(u, ClickKeepWaiting(u.app), ByFailure, None)
    case Confirm =>
      if u.app.active.Some? && MayForce(u.app, u.app.active.value) &&
         u.app.rounds[u.app.active.value].flush == Settled
      then u.(log := u.log + [ForceSent(u.app.active.value, u.app.rounds[u.app.active.value].epoch.value)])
      else u
    case ForceSettles(r, e, result) =>
      if result.None? then u
      else Move(u, r, ForceAnswered(u.app, r, result), u.pcs[r], HowOf(result.value.kind), Some(Said(e, result.value)), [])
    case Dispose => u.(app := Cleanup(u.app), disposed := true)
  }

  ghost predicate Run(u: Ui, acts: seq<Action>, u': Ui)
    decreases |acts|
  {
    if acts == [] then u' == u
    else Enabled(u, acts[0]) && Run(Apply(u, acts[0]), acts[1..], u')
  }

  ghost predicate Reachable(u: Ui) {
    exists acts :: Run(IDLE_UI, acts, u)
  }

  // ----- what a history may contain -------------------------------------------------------

  /** What a history says of one round. */
  datatype Marks = Marks(
    begun: bool,
    bound: Option<nat>,
    sends: nat,
    earned: bool,
    suppressed: bool,
    unusable: bool,
    rejected: seq<string>,
    end: Option<Ending>)
  {
    predicate Over() {
      end.Some?
    }
  }

  /** How a round ended, and what was said. */
  datatype Ending = Ending(how: How, about: Option<Said>)

  const UNMARKED := Marks(false, None, 0, false, false, false, [], None)

  function Marked(m: Marks, ev: Event): Marks {
    match ev
    case Begun(_) => m.(begun := true)
    case StartSent(_, _) => m.(sends := m.sends + 1)
    case Bound(_, e) => m.(bound := Some(e))
    case Earned(_) => m.(earned := true)
    case Suppressed(_, _) => m.(suppressed := true)
    case ForceSent(_, _) => m
    case Unusable(_, _) => m.(unusable := true)
    case Rejected(_, error) => m.(rejected := m.rejected + [error])
    case Ended(_, how, about) => m.(end := Some(Ending(how, about)))
  }

  function MarksOf(h: History, r: nat): Marks {
    if h == [] then UNMARKED
    else
      var before := MarksOf(h[..|h| - 1], r);
      if h[|h| - 1].round == r then Marked(before, h[|h| - 1]) else before
  }

  predicate Ends(how: How, kind: Kind) {
    || (how == ByExit && kind == Exiting) || (how == ByAbort && kind == Aborted) || (how == ByStale && kind == Stale)
  }

  /** Whether an event of a round may come next. */
  predicate Permits(m: Marks, ev: Event) {
    if ev.Begun? then m == UNMARKED
    else
      && m.begun && !m.Over()
      && match ev
         case StartSent(_, _) => m.sends <= 1 && m.bound.None?
         case Bound(_, e) => m.bound.None? && m.sends >= 1 && IsLiveEpoch(e)
         case Earned(_) => !m.earned && !m.suppressed
         case Suppressed(_, e) => !m.suppressed && m.bound == Some(e)
         case ForceSent(_, e) => m.bound == Some(e) && m.earned && !m.suppressed
         case Unusable(_, reply) => m.bound.None? && Unhelpful(reply)
         case Rejected(_, _) => m.bound.None? && |m.rejected| + 1 == m.sends
         case Ended(_, how, about) =>
           && (m.bound.Some? ==> about.Some? && m.bound == Some(about.value.epoch))
           && (how == ByFailure ==> m.bound.None? && m.sends == 2 && |m.rejected| == 2)
           && (how != ByFailure ==> about.Some? && Ends(how, about.value.reply.kind))
         case _ => true
  }

  ghost predicate Legal(h: History, ev: Event) {
    && Permits(MarksOf(h, ev.round), ev)
    && (ev.Begun? ==> forall r | 0 <= r < ev.round :: MarksOf(h, r).Over())
    && (ev.StartSent? ==> forall x | x in h && x.StartSent? :: x.attempt < ev.attempt)
  }

  ghost predicate Lawful(h: History) {
    forall i | 0 <= i < |h| :: Legal(h[..i], h[i])
  }

  // ----- the invariant ------------------------------------------------------------------------

  /** The active round. */
  predicate ActiveOk(x: Round, pc: Pc, m: Marks) {
    && !x.ended
    && (x.earned <==> m.earned && !m.suppressed)
    && (x.forceTimer <==> !m.earned && !m.suppressed)
    && (x.offer || x.dialog <==> x.earned && x.epoch.Some?)
    && !(x.offer && x.dialog)
    && (m.bound.Some? ==> m.sends >= 1)
    && (x.listening.Some? ==> x.listening == x.attempt)
    && (x.graceTimer ==> pc.Resting? && x.attempts == 1)
    && match pc
       case Flushing =>
         x.flush == Pending && x.attempts == 0 && x.attempt.None? && m.sends == 0 && m.rejected == []
       case Listening(a) =>
         |m.rejected| == m.sends && x.flush == Settled && 1 <= x.attempts <= 2 && m.sends == x.attempts - 1 && x.attempt == Some(a) && m.bound.None?
       case Asking(a) =>
         && x.flush == Settled && 1 <= x.attempts <= 2 && m.sends == x.attempts && x.attempt == Some(a)
         && |m.rejected| + 1 == m.sends
       case Resting =>
         && x.flush == Settled && 1 <= x.attempts <= 2 && m.sends == x.attempts
         && (x.graceTimer || x.epoch.Some? || m.unusable)
         && (x.graceTimer ==> |m.rejected| == 1)
  }

  predicate RoundOk(x: Round, pc: Pc, m: Marks, active: bool) {
    && m.begun && m.sends <= 2
    && x.epoch == m.bound && x.errors == m.rejected && x.ended == m.Over() && x.handled == x.ended && x.suppressed == m.suppressed
    && (x.epoch.Some? ==> IsLiveEpoch(x.epoch.value))
    && (if active then ActiveOk(x, pc, m) else !x.forceTimer && !x.graceTimer && x.listening.None?)
  }

  ghost predicate RoundsOk(u: Ui) {
    && |u.pcs| == |u.app.rounds|
    && forall r | 0 <= r < |u.pcs| :: RoundOk(u.app.rounds[r], u.pcs[r], MarksOf(u.log, r), u.app.active == Some(r))
  }

  predicate ScreenOk(u: Ui) {
    && (forall r | 0 <= r < |u.app.rounds| - 1 :: u.app.rounds[r].ended)
    && (u.app.inProgress <==> u.app.status == WaitingToQuit)
    && (u.app.inProgress <==> u.app.rounds != [] && !u.app.rounds[|u.app.rounds| - 1].ended)
    && (!u.app.inProgress ==> u.app.active.None?)
    && (u.app.inProgress && !u.disposed ==> u.app.active.Some?)
    && (u.app.active.None? && !u.disposed ==> !u.app.offerVisible && !u.app.dialogVisible)
    && (u.app.active.Some? ==>
          && u.app.active.value == |u.app.rounds| - 1
          && u.app.offerVisible == u.app.rounds[|u.app.rounds| - 1].offer
          && u.app.dialogVisible == u.app.rounds[|u.app.rounds| - 1].dialog)
  }

  /** An attempt that was not sent yet has a number of its own. */
  ghost predicate AttemptsOk(u: Ui) {
    && (forall x | x in u.log && x.StartSent? :: x.attempt <= u.lastAttempt)
    && (u.app.active.Some? && Known(u, u.app.active.value) && u.pcs[u.app.active.value].Listening? ==>
          && u.pcs[u.app.active.value].attempt == u.lastAttempt
          && forall x | x in u.log && x.StartSent? :: x.attempt < u.lastAttempt)
  }

  /** The screen of a window with no quit in progress: what ended the last round. */
  predicate ShowsEnding(status: Status, m: Marks) {
    match m.end
    case None => false
    case Some(Ending(how, about)) =>
      match how
      case ByExit => status == Hidden
      case ByStale => status == Hidden
      case ByAbort =>
        about.Some? && status == QuitAborted(about.value.reply.reason, about.value.reply.refusing, about.value.reply.unanswered)
      case ByFailure => |m.rejected| == 2 && status == QuitFailed(m.rejected)
  }

  ghost predicate StatusOk(u: Ui) {
    !u.app.inProgress ==>
      if u.app.rounds == [] then u.app.status == Hidden
      else ShowsEnding(u.app.status, MarksOf(u.log, |u.app.rounds| - 1))
  }

  ghost predicate LogOk(u: Ui) {
    Lawful(u.log) && forall x | x in u.log :: x.round < |u.app.rounds|
  }

  ghost predicate Inv(u: Ui) {
    LogOk(u) && ScreenOk(u) && RoundsOk(u) && AttemptsOk(u) && StatusOk(u)
  }
}
