/**
The main window as the program has it (src/main/App.tsx): one object for each
quit round and the window's own variables, updated in place. Every handler is
proved to have the effect of the corresponding function of `QuitUiRules`.
*/
module QuitUi {
  import opened Wrappers
  import opened QuitUiRules

  class QuitRound {
    /** The place of this round among all rounds of the window. */
    ghost const index: nat
    var epoch: Option<nat>
    var attemptId: Option<nat>
    var attempts: nat
    var forceEarned: bool
    var forceSuppressed: bool
    var forceOffer: bool
    var forceDialog: bool
    var ended: bool
    var terminalHandled: bool
    var errors: seq<string>
    var forceTimer: bool
    var graceTimer: bool
    var startedListener: Option<nat>
    var placementFlush: Flush

    function Value(): Round
      reads this
    {
      Round(epoch, attemptId, attempts, forceEarned, forceSuppressed, forceOffer, forceDialog, ended,
            terminalHandled, errors, forceTimer, graceTimer, startedListener, placementFlush)
    }

    constructor (ghost index: nat)
      ensures Value() == NEW_ROUND && this.index == index
    {
      this.index := index;
      epoch, attemptId, attempts, startedListener := None, None, 0, None;
      forceEarned, forceSuppressed, forceOffer, forceDialog := false, false, false, false;
      ended, terminalHandled, errors := false, false, [];
      forceTimer, graceTimer, placementFlush := true, false, Pending;
    }

    /** Clears both timers and detaches the listener. */
    method Detach()
      modifies this
      ensures Value() == old(Value()).(forceTimer := false, graceTimer := false, listening := None)
    {
      forceTimer := false;
      graceTimer := false;
      startedListener := None;
    }

    method Suppress()
      modifies this
      ensures Value() == old(Value()).(earned := false, suppressed := true, offer := false, dialog := false,
                                       forceTimer := false)
    {
      forceEarned := false;
      forceSuppressed := true;
      forceOffer := false;
      forceDialog := false;
      forceTimer := false;
    }

    /** The ten seconds are over; shows the offer if the epoch is bound. */
    method Earn(standing: bool) returns (show: bool)
      modifies this
      ensures show == (standing && !forceSuppressed && epoch.Some?)
      ensures Value() == old(Value()).(forceTimer := false, earned := old(forceEarned) || (standing && !forceSuppressed),
                                       offer := old(forceOffer) || show)
    {
      forceTimer := false;
      if !standing || forceSuppressed {
        return false;
      }
      forceEarned := true;
      show := epoch.Some?;
      if show {
        forceOffer := true;
      }
    }

    /** Notes a rejected attempt, and starts the grace after the first one. */
    method Reject(error: string) returns (again: bool)
      modifies this
      ensures again == (attempts <= 1)
      ensures Value() == old(Value()).(errors := old(errors) + [error], graceTimer := old(graceTimer) || again)
    {
      errors := errors + [error];
      again := attempts <= 1;
      if again {
        graceTimer := true;
      }
    }

    method Finish()
      modifies this
      ensures Value() == Over(old(Value()))
    {
      ended := true;
      terminalHandled := true;
      Detach();
    }
  }

  class MainWindow {
    var activeQuitRound: QuitRound?
    var quitInProgress: bool
    var quitStatus: Status
    var offerVisible: bool
    var dialogVisible: bool
    var quitAttemptSeq: nat
    /** All rounds in the order they began, and their values. */
    ghost var rounds: seq<QuitRound>
    ghost var values: seq<Round>

    ghost predicate Valid()
      reads this, rounds
    {
      && |values| == |rounds|
      && (forall i | 0 <= i < |rounds| :: rounds[i].index == i && rounds[i].Value() == values[i])
      && (activeQuitRound != null ==> activeQuitRound.index < |rounds| && rounds[activeQuitRound.index] == activeQuitRound)
    }

    ghost function Value(): App
      reads this
    {
      App(values, if activeQuitRound == null then None else Some(activeQuitRound.index), quitInProgress, quitStatus, offerVisible, dialogVisible)
    }

    /** `round` is one of this window's. */
    ghost predicate Has(round: QuitRound)
      reads this, rounds
    {
      Valid() && round.index < |rounds| && rounds[round.index] == round
    }

    constructor ()
      ensures Valid() && Value() == QUIET_APP
    {
      activeQuitRound, rounds, values := null, [], [];
      quitInProgress, quitStatus, offerVisible, dialogVisible, quitAttemptSeq := false, Hidden, false, false, 0;
    }

    method SuppressQuitForce(round: QuitRound)
      requires Has(round)
      modifies this, round
      ensures Has(round) && rounds == old(rounds) && Value() == SuppressForce(old(Value()), round.index)
    {
      round.Suppress();
      offerVisible := false;
      dialogVisible := false;
      values := values[round.index := round.Value()];
    }

    method BindQuitEpoch(round: QuitRound, epoch: int)
      requires Has(round)
      modifies this, round
      ensures Has(round) && rounds == old(rounds) && Value() == Bind(old(Value()), round.index, epoch)
    {
      if !IsLiveEpoch(epoch) || round.ended || activeQuitRound != round {
        return;
      }
      if round.epoch.None? {
        round.epoch := Some(epoch);
      } else if round.epoch.value != epoch {
        return;
      }
      if round.forceEarned && !round.forceSuppressed && !round.forceDialog {
        round.forceOffer := true;
        offerVisible := true;
      }
      values := values[round.index := round.Value()];
    }

    /** The common body of the four ways a round can finish. */
    method FinishQuit(round: QuitRound, status: Status)
      requires Has(round)
      modifies this, round
      ensures Has(round) && rounds == old(rounds) && Value() == End(old(Value()), round.index, status)
    {
      if round.ended {
        return;
      }
      round.Finish();
      quitInProgress := false;
      quitStatus := status;
      offerVisible := false;
      dialogVisible := false;
      activeQuitRound := null;
      values := values[round.index := round.Value()];
    }

    method HandleQuitStarted(round: QuitRound, attemptId: nat, payloadAttempt: nat, epoch: int)
      requires Has(round)
      modifies this, round
      ensures Has(round) && rounds == old(rounds)
      ensures Value() == HandleStarted(old(Value()), round.index, attemptId, payloadAttempt, epoch)
    {
      if round.ended || activeQuitRound != round || round.attemptId != Some(attemptId) ||
         payloadAttempt != attemptId {
        return;
      }
      BindQuitEpoch(round, epoch);
    }

    method FinishBy(round: QuitRound, reply: Reply)
      requires Has(round)
      modifies this, round
      ensures Has(round) && rounds == old(rounds) && Value() == EndBy(old(Value()), round.index, reply)
    {
      if reply.kind == Aborted {
        FinishQuit(round, AbortedStatus(reply));
      } else if reply.kind == Exiting {
        FinishQuit(round, Hidden);
      } else if reply.kind == Stale {
        FinishQuit(round, Hidden);
      }
    }

    method HandleQuitOutcomeEvent(reply: Reply)
      requires Valid()
      modifies this, activeQuitRound
      ensures Valid() && rounds == old(rounds) && Value() == HandleOutcome(old(Value()), reply)
    {
      var round := activeQuitRound;
      if round == null || round.ended || round.terminalHandled || !IsLiveEpoch(reply.epoch) {
        return;
      }
      if round.epoch.None? || round.epoch.value != reply.epoch {
        return;
      }
      FinishBy(round, reply);
    }

    method HandleQuitCancelledEvent(epoch: int)
      requires Valid()
      modifies this, activeQuitRound
      ensures Valid() && rounds == old(rounds) && Value() == HandleCancelled(old(Value()), epoch)
    {
      var round := activeQuitRound;
      if round == null || round.ended || !IsLiveEpoch(epoch) {
        return;
      }
      if round.epoch.None? || round.epoch.value != epoch {
        return;
      }
      SuppressQuitForce(round);
    }

    /** What `issueNormalAttempt` does between the placement flush and the listener. */
    method NumberAttempt(round: QuitRound) returns (attempt: Option<nat>)
      requires Has(round)
      modifies this, round
      ensures Has(round) && rounds == old(rounds)
      ensures attempt == if old(Value()).Stands(round.index) then Some(old(quitAttemptSeq) + 1) else None
      ensures Value() == if attempt.Some? then Attempt(old(Value()), round.index, attempt.value) else old(Value())
    {
      if round.ended || activeQuitRound != round {
        return None;
      }
      round.attempts := round.attempts + 1;
      quitAttemptSeq := quitAttemptSeq + 1;
      round.attemptId := Some(quitAttemptSeq);
      round.startedListener := None;
      values := values[round.index := round.Value()];
      attempt := Some(quitAttemptSeq);
    }

    method ApplyStartQuitResult(round: QuitRound, reply: Reply)
      requires Has(round)
      modifies this, round
      ensures Has(round) && rounds == old(rounds) && Value() == ApplyResult(old(Value()), round.index, reply)
    {
      if !IsLiveEpoch(reply.epoch) || (round.epoch.Some? && round.epoch.value != reply.epoch) {
        return;
      }
      if reply.kind == InFlight {
        BindQuitEpoch(round, reply.epoch);
      } else {
        FinishBy(round, reply);
      }
    }

    method HandleNormalOutcome(round: QuitRound, attemptId: nat, result: Option<Reply>, error: string)
      requires Has(round)
      modifies this, round
      ensures Has(round) && rounds == old(rounds)
      ensures Value() == HandleNormal(old(Value()), round.index, attemptId, result, error)
    {
      if round.ended || activeQuitRound != round || round.attemptId != Some(attemptId) {
        return;
      }
      if result.Some? {
        ApplyStartQuitResult(round, result.value);
        return;
      }
      if round.epoch.Some? {
        return;
      }
      var again := round.Reject(error);
      values := values[round.index := round.Value()];
      if !again {
        FinishQuit(round, QuitFailed(round.errors));
      }
    }

    method BeginQuitRound()
      requires Valid()
      modifies this
      ensures Valid() && Value() == Begin(old(Value()))
    {
      if quitInProgress {
        return;
      }
      quitInProgress := true;
      var round := new QuitRound(|rounds|);
      rounds, values := rounds + [round], values + [NEW_ROUND];
      activeQuitRound := round;
      quitStatus := WaitingToQuit;
      offerVisible := false;
      dialogVisible := false;
    }

    method OnForceTimer(round: QuitRound)
      requires Has(round)
      modifies this, round
      ensures Has(round) && rounds == old(rounds) && Value() == ForceTimerFires(old(Value()), round.index)
    {
      var show := round.Earn(!round.ended && activeQuitRound == round);
      if show {
        offerVisible := true;
      }
      values := values[round.index := round.Value()];
    }

    method OnGraceTimer(round: QuitRound) returns (retry: bool)
      requires Has(round)
      modifies this, round
      ensures Has(round) && rounds == old(rounds) && Value() == GraceEnds(old(Value()), round.index)
      ensures retry == Retries(Value(), round.index)
    {
      round.graceTimer := false;
      values := values[round.index := round.Value()];
      retry := !round.ended && activeQuitRound == round && round.epoch.None?;
    }

    method OnQuitForceOffer()
      requires Valid()
      modifies this, activeQuitRound
      ensures Valid() && rounds == old(rounds) && Value() == ClickOffer(old(Value()))
    {
      var round := activeQuitRound;
      if round == null || round.ended || round.forceSuppressed || round.epoch.None? ||
         !IsLiveEpoch(round.epoch.value) {
        return;
      }
      round.forceOffer := false;
      round.forceDialog := true;
      values := values[round.index := round.Value()];
      offerVisible := false;
      dialogVisible := true;
    }

    method OnQuitForceKeepWaiting()
      requires Valid()
      modifies this, activeQuitRound
      ensures Valid() && rounds == old(rounds) && Value() == ClickKeepWaiting(old(Value()))
    {
      var round := activeQuitRound;
      if round == null || round.ended {
        return;
      }
      round.forceDialog := false;
      round.forceOffer := round.forceEarned && !round.forceSuppressed;
      values := values[round.index := round.Value()];
      offerVisible := round.forceOffer;
      dialogVisible := false;
    }

    /** The epoch that Force is to be sent for. */
    method OnQuitForceConfirm() returns (epoch: Option<nat>)
      requires Valid()
      ensures var app := Value();
              epoch == if app.active.Some? && MayForce(app, app.active.value)
                       then app.rounds[app.active.value].epoch else None
    {
      var round := activeQuitRound;
      if round == null || round.ended || round.epoch.None? || !IsLiveEpoch(round.epoch.value) {
        return None;
      }
      epoch := round.epoch;
    }

    method OnForceAnswered(round: QuitRound, result: Option<Reply>)
      requires Has(round)
      modifies this, round
      ensures Has(round) && rounds == old(rounds) && Value() == ForceAnswered(old(Value()), round.index, result)
    {
      if activeQuitRound != round || round.ended || result.None? {
        return;
      }
      FinishBy(round, result.value);
    }

    method OnCleanup()
      requires Valid()
      modifies this, activeQuitRound
      ensures Valid() && rounds == old(rounds) && Value() == Cleanup(old(Value()))
    {
      var round := activeQuitRound;
      if round != null {
        round.Detach();
        values := values[round.index := round.Value()];
        activeQuitRound := null;
      }
    }
  }
}
