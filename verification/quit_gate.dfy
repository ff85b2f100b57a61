/**
The quit gate of src-tauri/src/quit_gate.rs in the form of the program: a round
and a gate whose fields are updated in place, one method for each critical
section. Every method is proved to have the effect of the corresponding
function of `QuitRules`; `wakeups` counts the calls of `notify_waiters`.
*/
module QuitGateState {
  import opened Wrappers
  import opened QuitRules

  class QuitRound {
    const epoch: nat
    const snapshot: set<Label>
    var pending: set<Label>
    var refusing: set<Label>
    var busy: set<Label>
    var remaining: nat
    var deadline: Option<nat>

    function Value(): Round
      reads this
    {
      Round(epoch, snapshot, pending, refusing, busy, remaining, deadline)
    }

    constructor (epoch: nat, gates: set<Label>, now: nat)
      ensures Value() == FreshRound(epoch, gates, now)
    {
      this.epoch := epoch;
      snapshot, pending, refusing, busy := gates, gates, {}, {};
      remaining := QUIT_GATE_TIMEOUT;
      deadline := Some(now + QUIT_GATE_TIMEOUT);
    }

    method ResumeIfIdle(now: nat)
      modifies this
      ensures Value() == old(Value()).ResumeIfIdle(now)
    {
      if busy == {} && deadline.None? {
        deadline := Some(now + remaining);
      }
    }

    method Pause(now: nat)
      modifies this
      ensures Value() == old(Value()).Pause(now)
    {
      if deadline.Some? {
        remaining := if deadline.value < now then 0 else deadline.value - now;
        deadline := None;
      }
    }

    /** Removes `who` from the pending and busy gates; reports whether it was pending. */
    method Settle(who: Label, now: nat) returns (wasPending: bool)
      modifies this
      ensures Value() == old(Value()).Settle(who, now)
      ensures wasPending == (who in old(pending))
    {
      wasPending := who in pending;
      pending := pending - {who};
      busy := busy - {who};
      ResumeIfIdle(now);
    }
  }

  /** What a new quit gets: its epoch with one receiver for each gate it asks,
      or the round that is already in flight. */
  datatype Installation = Asking(epoch: nat, receivers: set<Label>) | Rejected(outcome: Outcome)

  class QuitGate {
    var nextEpoch: nat
    var registered: set<Label>
    var round: QuitRound?
    var terminal: Option<Terminal>
    var exitClaimed: bool
    var wakeups: nat

    function RoundValue(): Option<Round>
      reads this, round
    {
      if round == null then None else Some(round.Value())
    }

    function Value(): Gate
      reads this, round
    {
      Gate(nextEpoch, registered, RoundValue(), terminal, exitClaimed)
    }

    /** The state, wake-ups and effects that the section `sec` asks for. */
    twostate predicate Did(sec: Section, effects: Effects)
      reads this, round
    {
      && Value() == sec.gate
      && effects == sec.effects
      && wakeups == old(wakeups) + (if sec.notify then 1 else 0)
    }

    constructor ()
      ensures Value() == EMPTY_GATE && wakeups == 0
    {
      nextEpoch, registered, round, terminal, exitClaimed := 0, {}, null, None, false;
      wakeups := 0;
    }

    method NotifyWaiters()
      modifies this`wakeups
      ensures wakeups == old(wakeups) + 1
    {
      wakeups := wakeups + 1;
    }

    /** Terminal result first, cleanup second. */
    method Finish(epoch: nat, outcome: Outcome) returns (finished: bool)
      modifies this
      ensures finished == CanFinish(old(Value()), epoch) && wakeups == old(wakeups)
      ensures Value() == if finished then QuitRules.Finish(old(Value()), epoch, outcome) else old(Value())
    {
      if terminal.Some? && terminal.value.epoch == epoch {
        return false;
      }
      if round == null || round.epoch != epoch {
        return false;
      }
      terminal := Some(Terminal(epoch, outcome));
      exitClaimed := false;
      round := null;
      finished := true;
    }

    method Abort(epoch: nat, reason: AbortReason) returns (effects: Effects)
      modifies this
      ensures Did(QuitRules.Abort(old(Value()), epoch, reason), effects)
    {
      if round == null || round.epoch != epoch {
        return NoEffects;
      }
      var unanswered := if reason == Timeout then round.pending else {};
      var outcome := Aborted(epoch, reason, round.refusing, unanswered);
      effects := CancelRound(outcome, round.snapshot, epoch);
      var finished := Finish(epoch, outcome);
      if finished {
        NotifyWaiters();
      } else {
        effects := NoEffects;
      }
    }

    /** Writes `Exiting` once the live round has no unanswered gate. */
    method FinalizeLocked(epoch: nat) returns (finished: bool)
      modifies this
      ensures Value() == QuitRules.FinalizeConsent(old(Value()), epoch).gate && wakeups == old(wakeups)
      ensures finished == QuitRules.FinalizeConsent(old(Value()), epoch).notify
    {
      if round == null || round.epoch != epoch || round.pending != {} || round.refusing != {} {
        return false;
      }
      finished := Finish(epoch, Exiting(epoch));
    }

    method FinalizeConsent(epoch: nat)
      modifies this
      ensures Did(QuitRules.FinalizeConsent(old(Value()), epoch), NoEffects)
    {
      var finished := FinalizeLocked(epoch);
      if finished {
        NotifyWaiters();
      }
    }

    method TryClaimExit(epoch: nat) returns (claimed: bool)
      modifies this
      ensures claimed == ClaimGranted(old(Value()), epoch)
      ensures Value() == ClaimExit(old(Value()), epoch) && wakeups == old(wakeups)
    {
      var exiting := terminal.Some? && terminal.value.epoch == epoch && terminal.value.outcome.Exiting?;
      if exiting && !exitClaimed {
        exitClaimed := true;
        claimed := true;
      } else {
        claimed := false;
      }
    }

    /** A label may enrol only between rounds; otherwise it learns the live epoch. */
    method Register(who: Label) returns (inFlight: Option<nat>)
      modifies this
      ensures Value() == QuitRules.Register(old(Value()), who) && wakeups == old(wakeups)
      ensures inFlight == if old(round) == null then None else Some(old(round).epoch)
    {
      if round != null {
        return Some(round.epoch);
      }
      registered := registered + {who};
      inFlight := None;
    }

    method TeardownGate(who: Label, reason: AbortReason, now: nat) returns (effects: Effects)
      modifies this, round
      ensures Did(Teardown(old(Value()), who, reason, now), effects)
    {
      registered := registered - {who};
      if round == null {
        return NoEffects;
      }
      var wasPending := round.Settle(who, now);
      if !wasPending {
        return NoEffects;
      }
      var epoch := round.epoch;
      var outcome := Aborted(epoch, reason, round.refusing, {who});
      effects := CancelRound(outcome, round.snapshot, epoch);
      var finished := Finish(epoch, outcome);
      if finished {
        NotifyWaiters();
      } else {
        effects := NoEffects;
      }
    }

    method Resolve(who: Label, epoch: nat, consent: bool, now: nat) returns (effects: Effects)
      modifies this, round
      ensures Did(QuitRules.Resolve(old(Value()), who, epoch, consent, now), effects)
    {
      effects := NoEffects;
      if round == null || round.epoch != epoch || who !in round.pending {
        return;
      }
      var _ := round.Settle(who, now);
      if consent {
        var _ := FinalizeLocked(epoch);
        NotifyWaiters();
        return;
      }
      round.refusing := round.refusing + {who};
      var outcome := Aborted(epoch, Refused, round.refusing, {});
      effects := CancelRound(outcome, round.snapshot, epoch);
      var finished := Finish(epoch, outcome);
      if finished {
        NotifyWaiters();
      } else {
        effects := NoEffects;
      }
    }

    method Progress(who: Label, epoch: nat, isBusy: bool, now: nat)
      modifies this, round
      ensures Did(QuitRules.Progress(old(Value()), who, epoch, isBusy, now), NoEffects)
    {
      if round == null || round.epoch != epoch || who !in round.pending {
        return;
      }
      if isBusy {
        round.busy := round.busy + {who};
        round.Pause(now);
      } else {
        round.busy := round.busy - {who};
        round.ResumeIfIdle(now);
      }
      NotifyWaiters();
    }

    /** The check under the first of a timeout's two locks. */
    method TimeoutPassed(epoch: nat, now: nat) returns (passed: bool)
      ensures passed == TimeoutDue(Value(), epoch, now)
    {
      if round == null || round.epoch != epoch {
        return false;
      }
      if round.busy != {} {
        return false;
      }
      passed := round.deadline.Some? && round.deadline.value <= now;
    }

    /** Force: retires the epoch number and ends the live round it names. */
    method Supersede(target: Option<nat>) returns (claimed: bool)
      modifies this
      ensures claimed == QuitRules.Force(old(Value()), Target(target)).notify
      ensures Did(QuitRules.Force(old(Value()), Target(target)), NoEffects)
    {
      var supplied := Target(target);
      claimed := false;
      if round != null && round.epoch == supplied {
        nextEpoch := nextEpoch + 1;
        claimed := Finish(supplied, Exiting(supplied));
      }
      if claimed {
        NotifyWaiters();
      }
    }

    /** Allocates an epoch, snapshots the registered gates and asks them all. */
    method Install(now: nat) returns (result: Installation)
      modifies this
      ensures wakeups == old(wakeups)
      ensures old(round) == null ==>
                && result == Asking(nextEpoch, registered)
                && Value() == QuitRules.Install(old(Value()), now) && fresh(round)
      ensures old(round) != null ==>
                result == Rejected(InFlight(old(round).epoch)) && Value() == old(Value())
    {
      if round != null {
        return Rejected(InFlight(round.epoch));
      }
      nextEpoch := nextEpoch + 1;
      round := new QuitRound(nextEpoch, registered, now);
      result := Asking(nextEpoch, registered);
    }
  }
}
