/**
The critical sections of the quit gate (src-tauri/src/quit_gate.rs), as
functions on the value that its mutex guards. A quit round asks every
registered window (a gate) for consent; it ends with one terminal outcome.

Ticks are milliseconds since the gate was created. A list that the program
builds from an ordered set, or sorts, is modelled as the set of its labels.
*/
module QuitRules {
  import opened Wrappers

  type Label = string

  /** The unpaused time a round may spend waiting for its gates. */
  const QUIT_GATE_TIMEOUT: nat := 30_000

  datatype AbortReason = Refused | Timeout | Unregistered | Destroyed | Cancelled

  datatype Outcome =
    | Exiting(epoch: nat)
    | InFlight(epoch: nat)
    | Stale(epoch: nat)
    | Aborted(epoch: nat, reason: AbortReason, refusing: set<Label>, unanswered: set<Label>)

  /** What a section asks its caller to emit once the lock is released. */
  datatype Effects =
    | NoEffects
    | CancelRound(outcome: Outcome, gates: set<Label>, epoch: nat)

  datatype Round = Round(
    epoch: nat,
    snapshot: set<Label>,
    pending: set<Label>,
    refusing: set<Label>,
    busy: set<Label>,
    remaining: nat,
    deadline: Option<nat>)
  {
    /** Restarts the clock once no busy gate holds it. */
    function ResumeIfIdle(now: nat): Round {
      if busy == {} && deadline.None? then this.(deadline := Some(now + remaining)) else this
    }

    /** Stops the clock and keeps what was left of the budget. */
    function Pause(now: nat): Round {
      match deadline
      case None => this
      case Some(at) => this.(deadline := None, remaining := TimeLeft(at, now))
    }

    /** The label has answered, or is gone. */
    function Settle(who: Label, now: nat): Round {
      var answered := this.(pending := pending - {who}, busy := busy - {who});
      answered.ResumeIfIdle(now)
    }

    /** The part of the budget that is still unspent. */
    function Left(now: nat): nat {
      match deadline
      case None => remaining
      case Some(at) => TimeLeft(at, now)
    }
  }

  function TimeLeft(deadline: nat, now: nat): nat {
    if now <= deadline then deadline - now else 0
  }

  datatype Terminal = Terminal(epoch: nat, outcome: Outcome)

  datatype Gate = Gate(
    nextEpoch: nat,
    registered: set<Label>,
    round: Option<Round>,
    terminal: Option<Terminal>,
    exitClaimed: bool)
  {
    predicate Live(epoch: nat) {
      round.Some? && round.value.epoch == epoch
    }

    function TerminalFor(epoch: nat): Option<Outcome> {
      if terminal.Some? && terminal.value.epoch == epoch then Some(terminal.value.outcome) else None
    }

    function DeadlineFor(epoch: nat): Option<nat> {
      if Live(epoch) then round.value.deadline else None
    }
  }

  const EMPTY_GATE := Gate(0, {}, None, None, false)

  /** The outcome of one critical section: the new state, what the caller
      emits, and whether `notify_waiters` follows once the lock is released. */
  datatype Section = Section(gate: Gate, effects: Effects, notify: bool)

  function Untouched(g: Gate): Section {
    Section(g, NoEffects, false)
  }

  /** The terminal result is written once, for the live round only. */
  predicate CanFinish(g: Gate, epoch: nat) {
    g.TerminalFor(epoch).None? && g.Live(epoch)
  }

  function Finish(g: Gate, epoch: nat, outcome: Outcome): Gate
    requires CanFinish(g, epoch)
  {
    g.(terminal := Some(Terminal(epoch, outcome)), exitClaimed := false, round := None)
  }

  /** Ends the round `r`, which `g` holds, as aborted. */
  function AbortWith(g: Gate, r: Round, reason: AbortReason, unanswered: set<Label>): Section {
    var outcome := Aborted(r.epoch, reason, r.refusing, unanswered);
    if CanFinish(g, r.epoch) then
      Section(Finish(g, r.epoch, outcome), CancelRound(outcome, r.snapshot, r.epoch), true)
    else
      Untouched(g)
  }

  function Abort(g: Gate, epoch: nat, reason: AbortReason): Section {
    if !g.Live(epoch) then Untouched(g)
    else AbortWith(g, g.round.value, reason,
                   if reason == Timeout then g.round.value.pending else {})
  }

  predicate Settled(g: Gate, epoch: nat) {
    g.Live(epoch) && g.round.value.pending == {} && g.round.value.refusing == {}
  }

  function FinalizeConsent(g: Gate, epoch: nat): Section {
    if Settled(g, epoch) && CanFinish(g, epoch)
    then Section(Finish(g, epoch, Exiting(epoch)), NoEffects, true)
    else Untouched(g)
  }

  predicate ClaimGranted(g: Gate, epoch: nat) {
    g.TerminalFor(epoch).Some? && g.TerminalFor(epoch).value.Exiting? && !g.exitClaimed
  }

  function ClaimExit(g: Gate, epoch: nat): Gate {
    if ClaimGranted(g, epoch) then g.(exitClaimed := true) else g
  }

  function Register(g: Gate, who: Label): Gate {
    if g.round.Some? then g else g.(registered := g.registered + {who})
  }

  function Teardown(g0: Gate, who: Label, reason: AbortReason, now: nat): Section {
    var g := g0.(registered := g0.registered - {who});
    if g.round.None? then Untouched(g)
    else
      var r := g.round.value.Settle(who, now);
      var g' := g.(round := Some(r));
      if who in g.round.value.pending then AbortWith(g', r, reason, {who}) else Untouched(g')
  }

  /** The answer of `label` counts: the round is live and still waits for it. */
  predicate AnswerCounts(g: Gate, who: Label, epoch: nat) {
    g.Live(epoch) && who in g.round.value.pending
  }

  function Resolve(g: Gate, who: Label, epoch: nat, consent: bool, now: nat): Section {
    if !AnswerCounts(g, who, epoch) then Untouched(g)
    else
      var r := g.round.value.Settle(who, now);
      if consent then
        var s := FinalizeConsent(g.(round := Some(r)), epoch);
        s.(notify := true)
      else
        var r' := r.(refusing := r.refusing + {who});
        AbortWith(g.(round := Some(r')), r', Refused, {})
  }

  function Progress(g: Gate, who: Label, epoch: nat, busy: bool, now: nat): Section {
    if !AnswerCounts(g, who, epoch) then Untouched(g)
    else
      var r := g.round.value;
      var r' := if busy then (r.(busy := r.busy + {who})).Pause(now)
                else (r.(busy := r.busy - {who})).ResumeIfIdle(now);
      Section(g.(round := Some(r')), NoEffects, true)
  }

  /** The first half of a timeout: decided under one lock, acted on under a second. */
  predicate TimeoutDue(g: Gate, epoch: nat, now: nat) {
    g.Live(epoch) && g.round.value.busy == {} &&
    g.round.value.deadline.Some? && g.round.value.deadline.value <= now
  }

  /** Force supersedes a live round only; it also retires the epoch number. */
  function Force(g: Gate, epoch: nat): Section {
    if !g.Live(epoch) then Untouched(g)
    else
      var g' := g.(nextEpoch := g.nextEpoch + 1);
      if CanFinish(g', epoch) then Section(Finish(g', epoch, Exiting(epoch)), NoEffects, true)
      else Untouched(g')
  }

  /** A Force without an epoch names epoch 0, which no round ever has. */
  function Target(target: Option<nat>): nat {
    match target case None => 0 case Some(e) => e
  }

  function FreshRound(epoch: nat, registered: set<Label>, now: nat): Round {
    Round(epoch, registered, registered, {}, {}, QUIT_GATE_TIMEOUT, Some(now + QUIT_GATE_TIMEOUT))
  }

  function Install(g: Gate, now: nat): Gate
    requires g.round.None?
  {
    var epoch := g.nextEpoch + 1;
    g.(nextEpoch := epoch, round := Some(FreshRound(epoch, g.registered, now)))
  }

  // ----- the invariant of the guarded value ---------------------------------

  /** What every reachable live round satisfies. `unpaused` is the time that
      passed while its clock was running. */
  ghost predicate RoundInv(r: Round, now: nat, unpaused: nat) {
    && r.busy <= r.pending <= r.snapshot
    && r.refusing == {}
    && (r.busy == {} <==> r.deadline.Some?)
    && BudgetKept(r, now, unpaused)
  }

  /** Unpaused time spent plus time left is the whole budget, until none is left. */
  ghost predicate BudgetKept(r: Round, now: nat, unpaused: nat) {
    && (r.Left(now) > 0 ==> unpaused + r.Left(now) == QUIT_GATE_TIMEOUT)
    && (r.Left(now) == 0 ==> QUIT_GATE_TIMEOUT <= unpaused)
  }

  ghost predicate GateInv(g: Gate, now: nat, unpaused: nat) {
    && (g.round.Some? ==>
          && g.round.value.epoch == g.nextEpoch
          && g.registered <= g.round.value.snapshot
          && RoundInv(g.round.value, now, unpaused)
          && (g.terminal.Some? ==> g.terminal.value.epoch < g.round.value.epoch))
    && (g.terminal.Some? ==>
          && g.terminal.value.epoch <= g.nextEpoch
          && g.terminal.value.outcome.epoch == g.terminal.value.epoch)
    && (g.exitClaimed ==> g.terminal.Some? && g.terminal.value.outcome.Exiting?)
  }

  // ----- the two shapes a section can have -----------------------------------

  /** The round stays as it is, except for answers, busy marks and its clock. */
  ghost predicate SameDecisions(g: Gate, g': Gate) {
    && g'.nextEpoch == g.nextEpoch
    && g'.terminal == g.terminal
    && g'.exitClaimed == g.exitClaimed
    && (g'.round.Some? <==> g.round.Some?)
    && (g.round.Some? ==>
          && g'.round.value.epoch == g.round.value.epoch
          && g'.round.value.snapshot == g.round.value.snapshot
          && g'.round.value.pending <= g.round.value.pending)
  }

  /** What a parked waiter reads of any epoch is unchanged. */
  ghost predicate SameViews(g: Gate, g': Gate) {
    && g'.terminal == g.terminal
    && forall e: nat {:trigger g'.DeadlineFor(e)} :: g'.DeadlineFor(e) == g.DeadlineFor(e)
  }

  /** The live round is over, with `outcome` in the terminal slot. */
  ghost predicate Ends(g: Gate, g': Gate, outcome: Outcome) {
    && g.round.Some?
    && g'.round.None?
    && outcome.epoch == g.round.value.epoch
    && g'.terminal == Some(Terminal(outcome.epoch, outcome))
    && !g'.exitClaimed
    && g.nextEpoch <= g'.nextEpoch
  }

  /** Both halves of what a section owes: the invariant, and the wake-up of
      every waiter whose view of the round it changed. */
  ghost predicate SectionKeeps(g: Gate, s: Section, now: nat, unpaused: nat) {
    && GateInv(s.gate, now, unpaused)
    && (!s.notify ==> SameViews(g, s.gate))
    && (SameDecisions(g, s.gate) || exists o :: Ends(g, s.gate, o))
    && (s.effects.CancelRound? ==>
          && Ends(g, s.gate, s.effects.outcome)
          && s.effects.outcome.Aborted?
          && s.effects.epoch == g.round.value.epoch
          && s.effects.gates == g.round.value.snapshot)
    && (s.effects.NoEffects? && s.gate.round.None? && g.round.Some? ==>
          Ends(g, s.gate, Exiting(g.round.value.epoch)))
  }

  // ----- one lemma per entry point --------------------------------------------

  lemma AbortKeeps(g: Gate, epoch: nat, reason: AbortReason, now: nat, unpaused: nat)
    requires GateInv(g, now, unpaused)
    ensures SectionKeeps(g, Abort(g, epoch, reason), now, unpaused)
    ensures Abort(g, epoch, reason).effects.CancelRound? <==> g.Live(epoch)
    ensures !g.Live(epoch) ==> Abort(g, epoch, reason).gate == g
    ensures g.Live(epoch) ==>
              Abort(g, epoch, reason).effects.outcome ==
              Aborted(epoch, reason, {}, if reason == Timeout then g.round.value.pending else {})
  {
    if g.Live(epoch) {
      var o := Abort(g, epoch, reason).effects.outcome;
      assert Ends(g, Abort(g, epoch, reason).gate, o);
    }
  }

  lemma FinalizeConsentKeeps(g: Gate, epoch: nat, now: nat, unpaused: nat)
    requires GateInv(g, now, unpaused)
    ensures SectionKeeps(g, FinalizeConsent(g, epoch), now, unpaused)
    ensures !(g.Live(epoch) && g.round.value.pending == {}) ==> FinalizeConsent(g, epoch).gate == g
    ensures g.Live(epoch) && g.round.value.pending == {} ==> Ends(g, FinalizeConsent(g, epoch).gate, Exiting(epoch))
  {
    if Settled(g, epoch) {
      assert Ends(g, FinalizeConsent(g, epoch).gate, Exiting(epoch));
    }
  }

  lemma SettleKeeps(r: Round, who: Label, now: nat, unpaused: nat)
    requires RoundInv(r, now, unpaused)
    ensures RoundInv(r.Settle(who, now), now, unpaused)
    ensures who !in r.pending ==> r.Settle(who, now) == r
  {
    if who !in r.pending {
      assert r.pending - {who} == r.pending && r.busy - {who} == r.busy;
    }
  }

  lemma TeardownKeeps(g: Gate, who: Label, reason: AbortReason, now: nat, unpaused: nat)
    requires GateInv(g, now, unpaused)
    ensures SectionKeeps(g, Teardown(g, who, reason, now), now, unpaused)
    ensures Teardown(g, who, reason, now).effects.CancelRound? <==>
              g.round.Some? && who in g.round.value.pending
    ensures Teardown(g, who, reason, now).gate.registered == g.registered - {who}
    ensures g.round.Some? && who in g.round.value.pending ==>
              Teardown(g, who, reason, now).effects.outcome == Aborted(g.round.value.epoch, reason, {}, {who})
  {
    if g.round.Some? {
      SettleKeeps(g.round.value, who, now, unpaused);
      if who in g.round.value.pending {
        var s := Teardown(g, who, reason, now);
        assert Ends(g, s.gate, s.effects.outcome);
      }
    }
  }

  lemma ResolveKeeps(g: Gate, who: Label, epoch: nat, consent: bool, now: nat, unpaused: nat)
    requires GateInv(g, now, unpaused)
    ensures SectionKeeps(g, Resolve(g, who, epoch, consent, now), now, unpaused)
    ensures Resolve(g, who, epoch, consent, now).effects.CancelRound? <==>
              (g.Live(epoch) && who in g.round.value.pending) && !consent
    ensures (g.Live(epoch) && who in g.round.value.pending) && !consent ==>
              Resolve(g, who, epoch, consent, now).effects.outcome == Aborted(epoch, Refused, {who}, {})
    ensures !(g.Live(epoch) && who in g.round.value.pending) ==>
              Resolve(g, who, epoch, consent, now).gate == g
    ensures (g.Live(epoch) && who in g.round.value.pending) && consent ==>
              var g' := Resolve(g, who, epoch, consent, now).gate;
              if g.round.value.pending == {who} then g'.round.None?
              else g'.round.Some? && g'.round.value.pending == g.round.value.pending - {who}
  {
    if AnswerCounts(g, who, epoch) {
      SettleKeeps(g.round.value, who, now, unpaused);
      var r := g.round.value.Settle(who, now);
      var s := Resolve(g, who, epoch, consent, now);
      if consent {
        FinalizeConsentKeeps(g.(round := Some(r)), epoch, now, unpaused);
        assert r.pending == {} <==> g.round.value.pending == {who};
        if r.pending == {} {
          assert Ends(g, s.gate, Exiting(epoch));
        }
      } else {
        assert Ends(g, s.gate, s.effects.outcome);
      }
    }
  }

  lemma ProgressKeeps(g: Gate, who: Label, epoch: nat, busy: bool, now: nat, unpaused: nat)
    requires GateInv(g, now, unpaused)
    ensures SectionKeeps(g, Progress(g, who, epoch, busy, now), now, unpaused)
    ensures SameDecisions(g, Progress(g, who, epoch, busy, now).gate)
    ensures g.round.Some? ==>
              Progress(g, who, epoch, busy, now).gate.round.value.pending == g.round.value.pending
    ensures (g.Live(epoch) && who in g.round.value.pending) ==>
              Progress(g, who, epoch, busy, now).gate.round.value.busy ==
              if busy then g.round.value.busy + {who} else g.round.value.busy - {who}
    ensures !(g.Live(epoch) && who in g.round.value.pending) ==>
              Progress(g, who, epoch, busy, now).gate == g
  {
    if AnswerCounts(g, who, epoch) && busy {
      assert who in Progress(g, who, epoch, busy, now).gate.round.value.busy;
    }
  }

  lemma ForceKeeps(g: Gate, epoch: nat, now: nat, unpaused: nat)
    requires GateInv(g, now, unpaused)
    ensures SectionKeeps(g, Force(g, epoch), now, unpaused)
    ensures Force(g, epoch).notify <==> g.Live(epoch)
    ensures g.Live(epoch) ==> Ends(g, Force(g, epoch).gate, Exiting(epoch))
    ensures g.Live(epoch) ==> Force(g, epoch).gate.nextEpoch == epoch + 1
    ensures !g.Live(epoch) ==> Force(g, epoch).gate == g
  {
    if g.Live(epoch) {
      assert Ends(g, Force(g, epoch).gate, Exiting(epoch));
    }
  }

  lemma RegisterKeeps(g: Gate, who: Label, now: nat, unpaused: nat)
    requires GateInv(g, now, unpaused)
    ensures GateInv(Register(g, who), now, unpaused)
    ensures SameDecisions(g, Register(g, who)) && SameViews(g, Register(g, who))
    ensures Register(g, who) == if g.round.None? then g.(registered := Register(g, who).registered) else g
    ensures forall other :: other in Register(g, who).registered <==>
              other in g.registered || (other == who && g.round.None?)
  {
  }

  lemma InstallKeeps(g: Gate, now: nat, unpaused: nat)
    requires GateInv(g, now, unpaused) && g.round.None?
    ensures GateInv(Install(g, now), now, 0)
    ensures var g' := Install(g, now);
            && g'.Live(g.nextEpoch + 1) && g'.round.value.snapshot == g'.round.value.pending == g.registered
            && g'.round.value.busy == {} && g'.round.value.Left(now) == QUIT_GATE_TIMEOUT
    ensures forall e: nat {:trigger Install(g, now).DeadlineFor(e)} ::
              e <= g.nextEpoch ==> Install(g, now).DeadlineFor(e) == g.DeadlineFor(e)
  {
  }

  /** Time spends the budget of a running clock and leaves a paused one alone. */
  lemma TickKeeps(g: Gate, now: nat, unpaused: nat, spent: nat)
    requires GateInv(g, now, unpaused)
    ensures GateInv(g, now + spent, if g.round.Some? && g.round.value.deadline.Some? then unpaused + spent else unpaused)
  {
  }

  /** A timeout is due exactly when thirty seconds of unpaused time have passed
      and no window is busy. */
  lemma TimeoutDueIff(g: Gate, epoch: nat, now: nat, unpaused: nat)
    requires GateInv(g, now, unpaused)
    ensures TimeoutDue(g, epoch, now) <==>
              g.Live(epoch) && g.round.value.busy == {} && 30_000 <= unpaused
  {
    if g.Live(epoch) {
      assert g.round.value.Left(now) == 0 <==> 30_000 <= unpaused;
    }
  }
}
