/**
Runs of the quit gate (src-tauri/src/quit_gate.rs): any number of tasks, each
with a program counter, interleave one critical section, one notification or
one read at a time. A log records what a run did, in order.
*/
module QuitRuns {
  import opened Wrappers
  import opened QuitRules

  datatype Event =
    | Opened(epoch: nat, gates: set<Label>)
    | Answered(epoch: nat, who: Label, consent: bool)
    | TimeoutCheck(epoch: nat, unpaused: nat, busy: set<Label>)
    | Ended(epoch: nat, outcome: Outcome, forced: bool, registered: set<Label>)
    | GatesTold(epoch: nat, gates: set<Label>)
    | Returned(epoch: nat, outcome: Outcome)
    | StartLost(epoch: nat, outcome: Outcome)
    | ExitClaimed(epoch: nat)

  type History = seq<Event>

  /** Where a task stands. A waiter owns the receivers it has not read yet;
      `ticket` is the notification count it enrolled at. */
  datatype Pc =
    | Idle
    | Owing(after: Pc)
    | Installed(epoch: nat, unread: set<Label>)
    | Unannounced(epoch: nat)
    | ReadBack(epoch: nat)
    | Announced(epoch: nat, unread: set<Label>)
    | Looping(epoch: nat, unread: set<Label>)
    | Enrolled(epoch: nat, unread: set<Label>, ticket: nat)
    | Undecided(epoch: nat, unread: set<Label>, ticket: nat)
    | Parked(epoch: nat, unread: set<Label>, ticket: nat, deadline: Option<nat>)
    | Expired(epoch: nat, unread: set<Label>)
    | Condemned(epoch: nat, unread: set<Label>)
    | Dropping(epoch: nat)
    | Decided(epoch: nat, outcome: Outcome)
    | Forced(epoch: nat)
  {
    /** The task holds an enrolment. */
    predicate Waiting() {
      Enrolled? || Undecided? || Parked?
    }

    /** The round guard aborts the round if the task dies here. */
    predicate Armed() {
      Installed? || Announced? || Looping? || Enrolled? || Undecided? || Parked? || Expired? || Condemned?
    }
  }

  /** The windows that were registered, while no round was live, and torn down. */
  datatype Change = Joined(who: Label) | Left(who: Label)

  type Roster = seq<Change>

  datatype System = System(
    gate: Gate,
    now: nat,
    unpaused: nat,
    notified: nat,
    pcs: map<nat, Pc>,
    log: History,
    roster: Roster)
  {
    function At(t: nat): Pc {
      if t in pcs then pcs[t] else Idle
    }

    /** No task still owes a `notify_waiters`. */
    ghost predicate Quiet() {
      forall t | t in pcs :: !pcs[t].Owing?
    }
  }

  const START := System(EMPTY_GATE, 0, 0, 0, map[], [], [])

  datatype Action =
    | Elapse(ticks: nat)
    | DoRegister(task: nat, who: Label)
    | DoTeardown(task: nat, who: Label, reason: AbortReason)
    | DoResolve(task: nat, who: Label, epoch: nat, consent: bool)
    | DoProgress(task: nat, who: Label, epoch: nat, busy: bool)
    | DoForce(task: nat, target: Option<nat>)
    | DoStart(task: nat)
    | Announce(task: nat, delivered: bool)
    | Advance(task: nat)
    | WakeNotified(task: nat)
    | WakeReceiver(task: nat, who: Label)
    | WakeTimer(task: nat)
    | Die(task: nat)

  /** Ticks of the live round's running clock. */
  function Spend(s: System, ticks: nat): nat {
    if s.gate.round.Some? && s.gate.round.value.deadline.Some? then s.unpaused + ticks else s.unpaused
  }

  function Told(sec: Section): History {
    if sec.effects.CancelRound? then [GatesTold(sec.effects.epoch, sec.effects.gates)] else []
  }

  function EndEvents(g: Gate, sec: Section, forced: bool): History {
    (if g.round.Some? && sec.gate.round.None? && sec.gate.terminal.Some?
     then [Ended(g.round.value.epoch, sec.gate.terminal.value.outcome, forced, sec.gate.registered)]
     else []) + Told(sec)
  }

  /** Task `t` runs a critical section and goes on to `next`. */
  function Commit(s: System, t: nat, sec: Section, next: Pc, seen: History, forced: bool): System {
    s.(gate := sec.gate,
       pcs := s.pcs[t := if sec.notify then Owing(next) else next],
       log := s.log + seen + EndEvents(s.gate, sec, forced))
  }

  function Goto(s: System, t: nat, next: Pc, seen: History): System {
    s.(pcs := s.pcs[t := next], log := s.log + seen)
  }

  function Answer(s: System, a: Action): History
    requires a.DoResolve?
  {
    if AnswerCounts(s.gate, a.who, a.epoch) then [Answered(a.epoch, a.who, a.consent)] else []
  }

  /** The next step of a task that does not wait for anything. */
  predicate CanAdvance(pc: Pc) {
    !pc.Idle? && !pc.Installed? && !pc.Parked?
  }

  function AdvanceFrom(s: System, t: nat): System
    requires CanAdvance(s.At(t))
  {
    match s.At(t)
    case Owing(after) => s.(notified := s.notified + 1, pcs := s.pcs[t := after])
    case Unannounced(e) => Commit(s, t, Abort(s.gate, e, Cancelled), ReadBack(e), [], false)
    case ReadBack(e) =>
      (match s.gate.TerminalFor(e)
       case Some(o) => Goto(s, t, Idle, [StartLost(e, o)])
       case None => Goto(s, t, Idle, [StartLost(e, BareCancel(e))]))
    case Announced(e, unread) => Commit(s, t, FinalizeConsent(s.gate, e), Looping(e, unread), [], false)
    case Looping(e, unread) => Goto(s, t, Enrolled(e, unread, s.notified), [])
    case Enrolled(e, unread, ticket) =>
      (match s.gate.TerminalFor(e)
       case Some(o) => Goto(s, t, Decided(e, o), [Returned(e, o)])
       case None => Goto(s, t, Undecided(e, unread, ticket), []))
    case Undecided(e, unread, ticket) => Goto(s, t, Parked(e, unread, ticket, s.gate.DeadlineFor(e)), [])
    case Expired(e, unread) =>
      if TimeoutDue(s.gate, e, s.now)
      then Goto(s, t, Condemned(e, unread), [TimeoutCheck(e, s.unpaused, s.gate.round.value.busy)])
      else Goto(s, t, Looping(e, unread), [])
    case Condemned(e, unread) => Commit(s, t, Abort(s.gate, e, Timeout), Looping(e, unread), [], false)
    case Dropping(e) => Commit(s, t, Abort(s.gate, e, Cancelled), Idle, [], false)
    case Decided(e, o) => if o.Exiting? then Claim(s, t, e) else Goto(s, t, Idle, [])
    case Forced(e) => Claim(s, t, e)
  }

  function Claim(s: System, t: nat, epoch: nat): System {
    s.(gate := ClaimExit(s.gate, epoch),
       pcs := s.pcs[t := Idle],
       log := s.log + if ClaimGranted(s.gate, epoch) then [ExitClaimed(epoch)] else [])
  }

  predicate Enabled(s: System, a: Action) {
    match a
    case Elapse(_) => true
    case DoRegister(t, _) => s.At(t).Idle?
    case DoTeardown(t, _, reason) => s.At(t).Idle? && (reason == Unregistered || reason == Destroyed)
    case DoResolve(t, _, _, _) => s.At(t).Idle?
    case DoProgress(t, _, _, _) => s.At(t).Idle?
    case DoForce(t, _) => s.At(t).Idle?
    case DoStart(t) => s.At(t).Idle?
    case Announce(t, _) => s.At(t).Installed?
    case Advance(t) => CanAdvance(s.At(t))
    case WakeNotified(t) => s.At(t).Parked? && s.At(t).ticket < s.notified
    case WakeReceiver(t, who) =>
      && s.At(t).Parked? && who in s.At(t).unread
      && !(s.gate.Live(s.At(t).epoch) && who in s.gate.round.value.pending)
    case WakeTimer(t) =>
      s.At(t).Parked? && s.At(t).deadline.Some? && s.At(t).deadline.value <= s.now
    case Die(t) => s.At(t).Armed()
  }

  function Apply(s: System, a: Action): System
    requires Enabled(s, a)
  {
    match a
    case Elapse(ticks) => s.(now := s.now + ticks, unpaused := Spend(s, ticks))
    case DoRegister(t, who) =>
      s.(gate := Register(s.gate, who), roster := if s.gate.round.None? then s.roster + [Joined(who)] else s.roster)
    case DoTeardown(t, who, reason) =>
      var s' := Commit(s, t, Teardown(s.gate, who, reason, s.now), Idle, [], false);
      s'.(roster := s.roster + [Left(who)])
    case DoResolve(t, who, e, consent) =>
      Commit(s, t, Resolve(s.gate, who, e, consent, s.now), Idle, Answer(s, a), false)
    case DoProgress(t, who, e, busy) =>
      Commit(s, t, Progress(s.gate, who, e, busy, s.now), Idle, [], false)
    case DoForce(t, target) =>
      var e := Target(target);
      if s.gate.Live(e) then Commit(s, t, Force(s.gate, e), Forced(e), [], true) else s
    case DoStart(t) =>
      if s.gate.round.Some? then s
      else
        var e := s.gate.nextEpoch + 1;
        s.(gate := Install(s.gate, s.now),
           unpaused := 0,
           pcs := s.pcs[t := Installed(e, s.gate.registered)],
           log := s.log + [Opened(e, s.gate.registered)])
    case Announce(t, delivered) =>
      var pc := s.At(t);
      Goto(s, t, if delivered then Announced(pc.epoch, pc.unread) else Unannounced(pc.epoch), [])
    case Advance(t) => AdvanceFrom(s, t)
    case WakeNotified(t) => Goto(s, t, Looping(s.At(t).epoch, s.At(t).unread), [])
    case WakeReceiver(t, who) => Goto(s, t, Looping(s.At(t).epoch, s.At(t).unread - {who}), [])
    case WakeTimer(t) => Goto(s, t, Expired(s.At(t).epoch, s.At(t).unread), [])
    case Die(t) => Goto(s, t, Dropping(s.At(t).epoch), [])
  }

  ghost predicate Run(s: System, acts: seq<Action>, s': System)
    decreases |acts|
  {
    if acts == [] then s' == s
    else Enabled(s, acts[0]) && Run(Apply(s, acts[0]), acts[1..], s')
  }

  ghost predicate Reachable(s: System) {
    exists acts :: Run(START, acts, s)
  }

  // ----- what a history may contain --------------------------------------------

  ghost predicate HasOpened(h: History, e: nat, gates: set<Label>) {
    Opened(e, gates) in h
  }

  ghost predicate HasEnded(h: History, e: nat) {
    exists x | x in h :: x.Ended? && x.epoch == e
  }

  ghost predicate HasEndedAs(h: History, e: nat, outcome: Outcome) {
    exists x | x in h :: x.Ended? && x.epoch == e && x.outcome == outcome
  }

  ghost predicate HasCheck(h: History, e: nat) {
    exists x | x in h :: x.TimeoutCheck? && x.epoch == e && x.busy == {} && QUIT_GATE_TIMEOUT <= x.unpaused
  }

  /** A round after `e` has ended, and with it the slot for `e`'s result. */
  ghost predicate LaterEnded(h: History, e: nat) {
    exists x | x in h :: x.Ended? && e < x.epoch
  }

  /** What a start reports that cannot read its result. */
  function BareCancel(e: nat): Outcome {
    Aborted(e, Cancelled, {}, {})
  }

  /** `e` is the round that is asking its gates. */
  ghost predicate IsOpen(h: History, e: nat) {
    && !HasEnded(h, e)
    && exists x | x in h :: x.Opened? && x.epoch == e
  }

  ghost predicate AllConsented(h: History, e: nat, gates: set<Label>) {
    forall who | who in gates :: Answered(e, who, true) in h
  }

  /** When `ev` may follow the history `h`. */
  ghost predicate Legal(h: History, ev: Event) {
    match ev
    case Opened(e, _) =>
      && 1 <= e
      && (forall x | x in h :: x.epoch < e)
      && (forall x | x in h && x.Opened? :: HasEnded(h, x.epoch))
    case Answered(e, who, _) =>
      && IsOpen(h, e)
      && (exists gates :: HasOpened(h, e, gates) && who in gates)
      && Answered(e, who, true) !in h && Answered(e, who, false) !in h
    case TimeoutCheck(e, unpaused, busy) =>
      IsOpen(h, e) && busy == {} && QUIT_GATE_TIMEOUT <= unpaused
    case Ended(e, o, forced, registered) =>
      && IsOpen(h, e) && o.epoch == e && (o.Exiting? || o.Aborted?)
      && (forced ==> o.Exiting?)
      && (exists gates :: HasOpened(h, e, gates) && registered <= gates &&
                          (o.Exiting? && !forced ==> AllConsented(h, e, gates)))
      && (o.Aborted? && o.reason == Timeout ==> HasCheck(h, e))
    case GatesTold(e, gates) =>
      && h != [] && h[|h| - 1].Ended? && h[|h| - 1].epoch == e && h[|h| - 1].outcome.Aborted?
      && HasOpened(h, e, gates)
    case Returned(e, o) => HasEndedAs(h, e, o)
    case StartLost(e, o) =>
      HasEnded(h, e) && if LaterEnded(h, e) then o == BareCancel(e) else HasEndedAs(h, e, o)
    case ExitClaimed(e) => HasEndedAs(h, e, Exiting(e)) && ExitClaimed(e) !in h
  }

  ghost predicate Lawful(h: History) {
    forall i | 0 <= i < |h| :: Legal(h[..i], h[i])
  }

  /** Every aborted round is cancelled at its gates, at once. */
  ghost predicate CancelsFollow(h: History) {
    forall i | 0 <= i < |h| && h[i].Ended? && h[i].outcome.Aborted? ::
      i + 1 < |h| && h[i + 1].GatesTold? && h[i + 1].epoch == h[i].epoch
  }

  lemma LawfulAppend(h: History, ev: Event)
    requires Lawful(h) && Legal(h, ev)
    ensures Lawful(h + [ev])
  {
    var h' := h + [ev];
    forall i | 0 <= i < |h'| ensures Legal(h'[..i], h'[i]) {
      assert h'[..i] == h[..i];
      if i == |h| { assert h[..i] == h; }
    }
  }

  // ----- how the guarded value and the tasks reflect the history -----------------

  ghost predicate GateReflects(g: Gate, h: History) {
    && (forall x | x in h :: x.epoch <= g.nextEpoch)
    && (g.round.Some? ==>
          HasOpened(h, g.round.value.epoch, g.round.value.snapshot) && !HasEnded(h, g.round.value.epoch))
    && (forall x | x in h && x.Opened? :: HasEnded(h, x.epoch) || g.Live(x.epoch))
    && (forall x | x in h && x.Ended? :: g.terminal.Some? && x.epoch <= g.terminal.value.epoch)
    && (g.terminal.Some? ==> HasEndedAs(h, g.terminal.value.epoch, g.terminal.value.outcome))
    && (forall x | x in h && x.ExitClaimed? ::
          && HasEnded(h, x.epoch)
          && (g.terminal.Some? && x.epoch == g.terminal.value.epoch ==> g.exitClaimed))
    && (g.exitClaimed ==> g.terminal.Some? && ExitClaimed(g.terminal.value.epoch) in h)
  }

  /** The pending gates of the live round are those that have not answered; all
      others consented. */
  ghost predicate AnswersReflect(g: Gate, h: History) {
    g.round.Some? ==>
      var r := g.round.value;
      && AllConsented(h, r.epoch, r.snapshot - r.pending)
      && (forall who | who in r.pending ::
            Answered(r.epoch, who, true) !in h && Answered(r.epoch, who, false) !in h)
  }

  ghost predicate PcReflects(pc: Pc, h: History)
    decreases pc
  {
    match pc
    case Idle => true
    case Owing(after) => !after.Owing? && !after.Waiting() && PcReflects(after, h)
    case Decided(e, o) => HasEndedAs(h, e, o)
    case Forced(e) => HasEndedAs(h, e, Exiting(e))
    case ReadBack(e) => HasEnded(h, e)
    case Condemned(e, _) => HasCheck(h, e) && exists x | x in h :: x.Opened? && x.epoch == e
    case _ => exists x | x in h :: x.Opened? && x.epoch == pc.epoch
  }

  /** No lost wake-up: if nothing has been or will be signalled since the waiter
      enrolled, then what it read is still what the gate says. */
  ghost predicate ViewCurrent(pc: Pc, s: System) {
    && (pc.Waiting() ==> pc.ticket <= s.notified)
    && ((pc.Undecided? || pc.Parked?) && pc.ticket == s.notified && s.Quiet() ==>
          && s.gate.TerminalFor(pc.epoch) == None
          && (pc.Parked? ==> s.gate.DeadlineFor(pc.epoch) == pc.deadline))
  }

  ghost predicate Inv(s: System) {
    && GateInv(s.gate, s.now, s.unpaused)
    && Lawful(s.log)
    && CancelsFollow(s.log)
    && GateReflects(s.gate, s.log)
    && AnswersReflect(s.gate, s.log)
    && (forall t | t in s.pcs :: PcReflects(s.pcs[t], s.log) && ViewCurrent(s.pcs[t], s))
  }
}
