/**
The main window and the quit gate together. The window's invocations start and
force rounds of the gate; what the gate answers and emits reaches the window
later, in any order, any number of times or not at all.

Both halves are the ones of `QuitRuns` and `QuitUiRuns`; here their actions are
tied to each other: the gate is started or forced only as the window asked, and
the window hears only what the gate said.
*/
module QuitHandshake {
  import opened Wrappers
  import opened QuitRules
  import G = QuitRuns
  import GT = QuitTheorems
  import UR = QuitUiRules
  import U = QuitUiRuns

  /** `served` are the attempts whose call has reached the gate, and `starters`
      names for each round the attempt that opened it. `stales` are the epochs
      that a Force was answered as stale for. */
  datatype Shell = Shell(gate: G.System, ui: U.Ui, served: set<nat>, starters: map<nat, nat>, stales: set<nat>)

  const FRESH_SHELL := Shell(G.START, U.IDLE_UI, {}, map[], {})

  datatype Action =
    | GateStep(gate: G.Action)
    | CallStart(task: nat, round: nat, attempt: nat)
    | UiStep(ui: U.Action)

  ghost predicate ForceAsked(h: U.History, e: nat) {
    exists x | x in h :: x.ForceSent? && x.epoch == e
  }

  ghost predicate Opened(h: G.History, e: int) {
    exists x | x in h :: x.Opened? && x.epoch == e
  }

  function ReasonText(reason: AbortReason): string {
    match reason
    case Refused => "refused"
    case Timeout => "timeout"
    case Unregistered => "unregistered"
    case Destroyed => "destroyed"
    case Cancelled => "cancelled"
  }

  function Labels(labels: seq<string>): set<Label> {
    set who | who in labels :: who
  }

  /** The reply is the message that carries the outcome. */
  predicate Carries(reply: UR.Reply, o: Outcome) {
    match o
    case Exiting(_) => reply.kind == UR.Exiting
    case InFlight(_) => reply.kind == UR.InFlight
    case Stale(_) => reply.kind == UR.Stale
    case Aborted(_, reason, refusing, unanswered) =>
      && reply.kind == UR.Aborted && reply.reason == Some(ReasonText(reason))
      && Labels(reply.refusing) == refusing && Labels(reply.unanswered) == unanswered
  }

  /** The attempt opened round `e`. */
  predicate Opener(s: Shell, e: int, attempt: nat) {
    0 <= e && e in s.starters && s.starters[e] == attempt
  }

  /** An answer to a normal attempt: a result of the round it opened, or the
      round that was in flight already. */
  ghost predicate Answers(s: Shell, attempt: nat, reply: UR.Reply) {
    || (Opener(s, reply.epoch, attempt) && ResultOf(s.gate.log, reply))
    || (reply.kind == UR.InFlight && Opened(s.gate.log, reply.epoch))
  }

  ghost predicate ResultOf(h: G.History, reply: UR.Reply) {
    exists x | x in h :: (x.Returned? || x.StartLost?) && x.epoch == reply.epoch && Carries(reply, x.outcome)
  }

  ghost predicate Announced(h: G.History, reply: UR.Reply) {
    exists x | x in h :: x.Ended? && x.epoch == reply.epoch && x.outcome.Aborted? && Carries(reply, x.outcome)
  }

  ghost predicate ForceAnswers(s: Shell, e: nat, reply: UR.Reply) {
    reply.epoch == e &&
    if reply.kind == UR.Exiting then exists x | x in s.gate.log :: x.Ended? && x.epoch == e && x.outcome == Exiting(e)
    else reply.kind == UR.Stale && e in s.stales
  }

  /** What the window hears is what the gate said. */
  ghost predicate Heard(s: Shell, a: U.Action)
    requires U.Enabled(s.ui, a)
  {
    var h := s.gate.log;
    match a
    case StartSettles(r, result, _) => result.Some? ==> Answers(s, s.ui.pcs[r].attempt, result.value)
    case StartedArrives(_, _, _, attempt, epoch) => Opened(h, epoch) && Opener(s, epoch, attempt)
    case OutcomeArrives(reply) => Announced(h, reply)
    case CancelledArrives(epoch) => exists x | x in h :: x.GatesTold? && x.epoch == epoch
    case ForceSettles(_, e, result) => result.Some? ==> ForceAnswers(s, e, result.value)
    case _ => true
  }

  /** The gate is started once for each attempt that was sent. */
  ghost predicate Enabled(s: Shell, a: Action) {
    match a
    case GateStep(g) =>
      && G.Enabled(s.gate, g) && !g.DoStart?
      && (g.DoForce? ==> g.target.Some? && ForceAsked(s.ui.log, g.target.value))
    case CallStart(t, r, attempt) =>
      G.Enabled(s.gate, G.DoStart(t)) && U.StartSent(r, attempt) in s.ui.log && attempt !in s.served
    case UiStep(u) => U.Enabled(s.ui, u) && Heard(s, u)
  }

  function Apply(s: Shell, a: Action): Shell
    requires (a.GateStep? ==> G.Enabled(s.gate, a.gate)) && (a.UiStep? ==> U.Enabled(s.ui, a.ui))
    requires a.CallStart? ==> G.Enabled(s.gate, G.DoStart(a.task))
  {
    match a
    case GateStep(g) =>
      s.(gate := G.Apply(s.gate, g),
         stales := if g.DoForce? && !s.gate.gate.Live(Target(g.target)) then s.stales + {Target(g.target)} else s.stales)
    case CallStart(t, _, attempt) =>
      s.(gate := G.Apply(s.gate, G.DoStart(t)),
         served := s.served + {attempt},
         starters := if s.gate.gate.round.None? then s.starters[s.gate.gate.nextEpoch + 1 := attempt] else s.starters)
    case UiStep(u) => s.(ui := U.Apply(s.ui, u))
  }

  ghost predicate Run(s: Shell, acts: seq<Action>, s': Shell)
    decreases |acts|
  {
    if acts == [] then s' == s
    else Enabled(s, acts[0]) && Run(Apply(s, acts[0]), acts[1..], s')
  }

  ghost predicate Reachable(s: Shell) {
    exists acts :: Run(FRESH_SHELL, acts, s)
  }

  // ----- what both logs say together ------------------------------------------------------

  /** The end of `e` has a later one after it, so its slot is gone. */
  ghost predicate Overwritten(h: G.History, e: nat) {
    G.HasEnded(h, e) && G.LaterEnded(h, e)
  }

  ghost predicate EndedAborted(h: G.History, e: nat) {
    exists x | x in h :: x.Ended? && x.epoch == e && x.outcome.Aborted?
  }

  /** Round `e` ended as the abort that the reply carries. */
  ghost predicate AbortedAs(h: G.History, e: nat, reply: UR.Reply) {
    exists x | x in h :: x.Ended? && x.epoch == e && x.outcome.Aborted? && Carries(reply, x.outcome)
  }

  /** What an event of the window presupposes of the gate. */
  ghost predicate Backed(h: G.History, ev: U.Event) {
    match ev
    case Bound(_, e) => Opened(h, e)
    case Suppressed(_, e) => EndedAborted(h, e)
    case Unusable(_, reply) => reply.kind != UR.Other && exists x | x in h :: x.epoch == reply.epoch
    case Ended(_, how, about) =>
      about.Some? ==>
        (match how
         case ByExit => G.HasEndedAs(h, about.value.epoch, Exiting(about.value.epoch))
         case ByAbort =>
           || AbortedAs(h, about.value.epoch, about.value.reply)
           || (Overwritten(h, about.value.epoch) && Carries(about.value.reply, G.BareCancel(about.value.epoch)))
         case ByStale => G.HasEnded(h, about.value.epoch)
         case ByFailure => true)
    case _ => true
  }

  ghost predicate Cross(s: Shell) {
    && (forall x | x in s.gate.log && x.Ended? && x.forced :: ForceAsked(s.ui.log, x.epoch))
    && (forall ev | ev in s.ui.log :: Backed(s.gate.log, ev))
    && (forall e | e in s.stales :: G.HasEnded(s.gate.log, e))
  }

  /** Every round was opened for an attempt of its own, which the window sent. */
  ghost predicate Calls(s: Shell) {
    && (forall x | x in s.gate.log && x.Opened? :: x.epoch in s.starters)
    && (forall e | e in s.starters :: e <= s.gate.gate.nextEpoch && s.starters[e] in s.served)
    && (forall e, e' | e in s.starters && e' in s.starters && s.starters[e] == s.starters[e'] :: e == e')
    && (forall a | a in s.served :: Sent(s.ui.log, a))
  }

  ghost predicate Sent(h: U.History, attempt: nat) {
    exists x | x in h :: x.StartSent? && x.attempt == attempt
  }

  ghost predicate Inv(s: Shell) {
    G.Reachable(s.gate) && U.Reachable(s.ui) && Cross(s) && Calls(s)
  }
}
