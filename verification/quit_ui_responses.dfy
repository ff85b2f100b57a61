/**
How the main window (src/main/App.tsx) responds to each message, timer and click
in a reachable state: not only what it never does, but what it does.
*/
module QuitUiResponses {
  import opened Wrappers
  import opened QuitUiRules
  import opened QuitUiRuns
  import opened QuitUiInvariant
  import opened QuitUiTheorems

  /** The active round, in a state that a run can reach. */
  ghost predicate ActiveIn(u: Ui, r: nat) {
    Reachable(u) && u.app.active == Some(r) && Known(u, r)
  }

  lemma ActiveFacts(u: Ui, r: nat)
    requires ActiveIn(u, r)
    ensures u.app.Stands(r) && r == |u.app.rounds| - 1 && ActiveKnown(u)
    ensures RoundOk(u.app.rounds[r], u.pcs[r], MarksOf(u.log, r), true) && Faithful(u.log, r)
    ensures u.app.offerVisible == u.app.rounds[r].offer && u.app.dialogVisible == u.app.rounds[r].dialog
    ensures u.app.inProgress
  {
    hide Lawful, MarksOf;
    ReachableInv(u);
    Busy(u);
    AtActive(u, r);
    MarksAreFaithful(u.log, r);
  }

  // ----- beginning -----------------------------------------------------------------------------

  /** A close begins a round exactly while no quit is in progress; the new round is
      active, waits, has its clock running and nothing else. */
  lemma CloseBegins(u: Ui)
    requires Reachable(u)
    ensures var u' := Apply(u, CloseWindow);
            if u.app.inProgress then u' == u
            else
              var n := |u.app.rounds|;
              && u'.log == u.log + [Begun(n)] && u'.pcs == u.pcs + [Flushing]
              && |u'.app.rounds| == n + 1 && u'.app.rounds[..n] == u.app.rounds
              && u'.app.active == Some(n) && u'.app.inProgress && u'.app.status == WaitingToQuit
              && !u'.app.offerVisible && !u'.app.dialogVisible
              && u'.app.rounds[n].forceTimer && !u'.app.rounds[n].graceTimer && u'.app.rounds[n].epoch.None?
              && u'.app.rounds[n].errors == [] && u'.app.rounds[n].attempts == 0
  {
  }

  /** A quit is in progress exactly while a round has begun that has not ended. */
  lemma InProgressIff(u: Ui)
    requires Reachable(u)
    ensures u.app.inProgress <==> exists r: nat :: Begun(r) in u.log && !HasEnded(u.log, r)
  {
    hide Lawful, MarksOf, AttemptsOk, StatusOk, ActiveOk;
    ReachableInv(u);
    forall r: nat | Begun(r) in u.log ensures r < |u.app.rounds| && (HasEnded(u.log, r) <==> u.app.rounds[r].ended) {
      AtRound(u, r);
      MarksAreFaithful(u.log, r);
    }
    if u.app.inProgress {
      var r: nat := |u.app.rounds| - 1;
      AtRound(u, r);
      MarksAreFaithful(u.log, r);
      assert Begun(r) in u.log && !HasEnded(u.log, r);
    }
  }

  // ----- binding -----------------------------------------------------------------------------------

  /** A start event binds the active round exactly if it names the attempt that is
      listened for and current, its epoch is a safe integer, and none is bound. */
  lemma StartEventBinds(u: Ui, r: nat, listener: nat, sender: nat, attempt: nat, epoch: int)
    requires ActiveIn(u, r) && Enabled(u, StartedArrives(r, listener, sender, attempt, epoch))
    ensures var u' := Apply(u, StartedArrives(r, listener, sender, attempt, epoch));
            if u.app.rounds[r].epoch.None? && u.app.rounds[r].attempt == Some(listener) && attempt == listener &&
               0 <= epoch <= 9_007_199_254_740_991
            then u'.log == u.log + [Bound(r, epoch)] && u'.app.rounds[r].epoch == Some(epoch)
            else u'.log == u.log && u'.app.rounds[r].epoch == u.app.rounds[r].epoch
  {
    ActiveFacts(u, r);
    hide Reachable, Lawful, MarksOf, Faithful;
    assert u.log + [] + [] == u.log;
    var x, app' := u.app.rounds[r], HandleStarted(u.app, r, listener, attempt, epoch);
    assert Seen(x, app'.rounds[r], r, ByFailure, None) ==
           if x.epoch.None? && app'.rounds[r].epoch.Some? then [Bound(r, app'.rounds[r].epoch.value)] else [];
  }

  // ----- the answer of an attempt --------------------------------------------------------------------

  /** Whether a reply speaks of the epoch that the round is or may be bound to. */
  predicate Relevant(x: Round, reply: Reply) {
    0 <= reply.epoch <= 9_007_199_254_740_991 && (x.epoch.None? || x.epoch.value == reply.epoch)
  }

  /** A relevant answer ends the round if it is final and binds it if the quit is
      in flight; every other answer leaves the round as it was. */
  lemma AnswerActs(u: Ui, r: nat, reply: Reply, error: string)
    requires ActiveIn(u, r) && Enabled(u, StartSettles(r, Some(reply), error))
    ensures var u' := Apply(u, StartSettles(r, Some(reply), error));
            if Relevant(u.app.rounds[r], reply) && (reply.kind == Exiting || reply.kind == Aborted || reply.kind == Stale)
            then
              var how := if reply.kind == Exiting then ByExit else if reply.kind == Aborted then ByAbort else ByStale;
              u'.log == u.log + [Ended(r, how, Some(Said(reply.epoch, reply)))] && !u'.app.inProgress
            else if Relevant(u.app.rounds[r], reply) && reply.kind == InFlight
            then
              u'.app.rounds[r].epoch == Some(reply.epoch) && u'.app.active == Some(r)
            else
              u'.app == u.app
  {
    ActiveFacts(u, r);
    hide Reachable, Lawful, MarksOf, Faithful;
    var x := u.app.rounds[r];
    var app' := HandleNormal(u.app, r, u.pcs[r].attempt, Some(reply), error);
    if Relevant(x, reply) && (reply.kind == Exiting || reply.kind == Aborted || reply.kind == Stale) {
      assert app'.rounds[r] == Over(x);
      assert Seen(x, Over(x), r, HowOf(reply.kind), SaidBy(reply)) == [Ended(r, HowOf(reply.kind), Some(Said(reply.epoch, reply)))];
      assert u.log + [Ended(r, HowOf(reply.kind), SaidBy(reply))] + [] == u.log + [Ended(r, HowOf(reply.kind), SaidBy(reply))];
    }
  }

  /** A rejection of a bound round changes nothing; the first of an unbound one
      starts the grace, the second ends the round as failed. */
  lemma RejectionActs(u: Ui, r: nat, error: string)
    requires ActiveIn(u, r) && Enabled(u, StartSettles(r, None, error))
    ensures var x, u' := u.app.rounds[r], Apply(u, StartSettles(r, None, error));
            if x.epoch.Some? then u'.app == u.app && u'.log == u.log
            else if x.attempts == 1 then u'.app.rounds[r].graceTimer && u'.app.inProgress && u'.log == u.log + [Rejected(r, error)]
            else !u'.app.inProgress && u'.log == u.log + [Rejected(r, error), Ended(r, ByFailure, None)]
  {
    ActiveFacts(u, r);
    hide Reachable, Lawful, MarksOf, Faithful;
    var x := u.app.rounds[r];
    if x.epoch.Some? {
      assert Seen(x, x, r, ByFailure, None) == [];
      assert u.log + [] + [] + [] == u.log;
    } else if x.attempts == 1 {
      var noted := x.(errors := x.errors + [error], graceTimer := true);
      assert Seen(x, noted, r, ByFailure, None) == [];
      assert u.log + [Rejected(r, error)] + [] + [] == u.log + [Rejected(r, error)];
    } else {
      FailedWorld(u, r, error);
    }
  }

  /** When the grace is over, a second attempt is prepared exactly if the round is
      still unbound. */
  lemma GraceActs(u: Ui, r: nat)
    requires ActiveIn(u, r) && Enabled(u, GraceTimer(r))
    ensures var u' := Apply(u, GraceTimer(r));
            if u.app.rounds[r].epoch.None?
            then u'.pcs[r] == Listening(u.lastAttempt + 1) && u'.app.rounds[r].attempts == 2
            else u'.pcs == u.pcs && u'.app.rounds[r] == u.app.rounds[r].(graceTimer := false)
  {
    ActiveFacts(u, r);
  }

  /** A prepared attempt is sent when its listener is ready. */
  lemma PreparedIsSent(u: Ui, r: nat, heard: bool)
    requires ActiveIn(u, r) && Enabled(u, ListenerReady(r, heard))
    ensures Apply(u, ListenerReady(r, heard)).log == u.log + [StartSent(r, u.pcs[r].attempt)]
    ensures Apply(u, ListenerReady(r, heard)).pcs[r] == Asking(u.pcs[r].attempt)
  {
    ActiveFacts(u, r);
    var x := u.app.rounds[r];
    assert Seen(x, x.(listening := if heard then Some(u.pcs[r].attempt) else None), r, ByFailure, None) == [];
    assert u.log + [] + [StartSent(r, u.pcs[r].attempt)] == u.log + [StartSent(r, u.pcs[r].attempt)];
  }

  // ----- events ---------------------------------------------------------------------------------------

  /** An outcome event ends the active round exactly if it is about the bound epoch
      and final; otherwise nothing changes. */
  lemma OutcomeEventActs(u: Ui, r: nat, reply: Reply)
    requires ActiveIn(u, r)
    ensures Enabled(u, OutcomeArrives(reply))
    ensures var u' := Apply(u, OutcomeArrives(reply));
            if u.app.rounds[r].epoch.Some? && u.app.rounds[r].epoch.value == reply.epoch &&
               (reply.kind == Exiting || reply.kind == Aborted || reply.kind == Stale)
            then
              var how := if reply.kind == Exiting then ByExit else if reply.kind == Aborted then ByAbort else ByStale;
              u'.log == u.log + [Ended(r, how, Some(Said(reply.epoch, reply)))] && !u'.app.inProgress
            else u'.app == u.app && u'.log == u.log
  {
    ActiveFacts(u, r);
    hide Reachable, Lawful, MarksOf, Faithful;
    var x := u.app.rounds[r];
    assert Seen(x, x, r, HowOf(reply.kind), SaidBy(reply)) == [] && u.log + [] + [] == u.log;
    if x.epoch == Some(reply.epoch) && (reply.kind == Exiting || reply.kind == Aborted || reply.kind == Stale) {
      assert HandleOutcome(u.app, reply).rounds[r] == Over(x);
      assert Seen(x, Over(x), r, HowOf(reply.kind), SaidBy(reply)) == [Ended(r, HowOf(reply.kind), Some(Said(reply.epoch, reply)))];
      assert u.log + [Ended(r, HowOf(reply.kind), SaidBy(reply))] + [] == u.log + [Ended(r, HowOf(reply.kind), SaidBy(reply))];
    }
  }

  /** A cancelled event withdraws Force exactly if it is about the bound epoch. */
  lemma CancelledEventActs(u: Ui, r: nat, epoch: int)
    requires ActiveIn(u, r)
    ensures Enabled(u, CancelledArrives(epoch))
    ensures var u' := Apply(u, CancelledArrives(epoch));
            if u.app.rounds[r].epoch.Some? && u.app.rounds[r].epoch.value == epoch
            then
              && u'.app.rounds[r].suppressed && !u'.app.rounds[r].earned && !u'.app.rounds[r].forceTimer
              && !u'.app.offerVisible && !u'.app.dialogVisible && u'.app.active == Some(r)
            else u'.app == u.app
  {
    ActiveFacts(u, r);
  }

  // ----- Force ------------------------------------------------------------------------------------------

  /** While the round is active, its ten-second clock runs exactly until Force is
      earned or withdrawn, and something is offered exactly while Force is earned,
      not withdrawn and the epoch bound. */
  lemma ForceIsOfferedIff(u: Ui, r: nat)
    requires ActiveIn(u, r)
    ensures u.app.rounds[r].forceTimer <==> Earned(r) !in u.log && !HasSuppressed(u.log, r)
    ensures u.app.offerVisible || u.app.dialogVisible <==>
              && Earned(r) in u.log && !HasSuppressed(u.log, r)
              && exists e: nat :: Bound(r, e) in u.log
  {
    ActiveFacts(u, r);
    hide Reachable, Lawful, MarksOf;
    if u.app.rounds[r].epoch.Some? { assert Bound(r, u.app.rounds[r].epoch.value) in u.log; }
  }

  /** The clock earns Force. */
  lemma ClockEarns(u: Ui, r: nat)
    requires ActiveIn(u, r) && Enabled(u, ForceTimer(r))
    ensures Apply(u, ForceTimer(r)).log == u.log + [Earned(r)]
    ensures Apply(u, ForceTimer(r)).app.offerVisible <==> u.app.rounds[r].epoch.Some?
  {
    ActiveFacts(u, r);
    hide Reachable, Lawful, MarksOf, Faithful;
    var x, app' := u.app.rounds[r], ForceTimerFires(u.app, r);
    assert Seen(x, app'.rounds[r], r, ByFailure, None) == [Earned(r)];
    assert u.log + [Earned(r)] + [] == u.log + [Earned(r)];
  }

  /** A click on the offer opens the dialog in its place, and declining goes back. */
  lemma ClicksSwitch(u: Ui)
    requires Reachable(u) && !u.disposed
    ensures u.app.offerVisible ==>
              Enabled(u, Offer) && Apply(u, Offer).app.dialogVisible && !Apply(u, Offer).app.offerVisible
    ensures u.app.dialogVisible ==>
              Enabled(u, KeepWaiting) && Apply(u, KeepWaiting).app.offerVisible && !Apply(u, KeepWaiting).app.dialogVisible
  {
    if u.app.offerVisible || u.app.dialogVisible {
      ForceShownWhenEarned(u);
      ReachableInv(u);
      var r := u.app.active.value;
      assert Known(u, r);
      ActiveFacts(u, r);
    }
  }

  /** The answer to Force ends an active round if it is final. */
  lemma ForceAnswerActs(u: Ui, r: nat, e: nat, reply: Reply)
    requires ActiveIn(u, r) && Enabled(u, ForceSettles(r, e, Some(reply)))
    ensures var u' := Apply(u, ForceSettles(r, e, Some(reply)));
            if reply.kind == Exiting || reply.kind == Aborted || reply.kind == Stale
            then
              var how := if reply.kind == Exiting then ByExit else if reply.kind == Aborted then ByAbort else ByStale;
              u'.log == u.log + [Ended(r, how, Some(Said(e, reply)))] && !u'.app.inProgress
            else u'.app == u.app && u'.log == u.log
  {
    ActiveFacts(u, r);
    hide Reachable, Lawful, MarksOf, Faithful;
    var x := u.app.rounds[r];
    assert Seen(x, x, r, HowOf(reply.kind), Some(Said(e, reply))) == [] && u.log + [] + [] == u.log;
    if reply.kind == Exiting || reply.kind == Aborted || reply.kind == Stale {
      assert ForceAnswered(u.app, r, Some(reply)).rounds[r] == Over(x);
      assert Seen(x, Over(x), r, HowOf(reply.kind), Some(Said(e, reply))) == [Ended(r, HowOf(reply.kind), Some(Said(e, reply)))];
      assert u.log + [Ended(r, HowOf(reply.kind), Some(Said(e, reply)))] + [] == u.log + [Ended(r, HowOf(reply.kind), Some(Said(e, reply)))];
    }
  }

  /** Unmounting silences the active round and drops it. */
  lemma DisposeActs(u: Ui, r: nat)
    requires ActiveIn(u, r) && Enabled(u, Dispose)
    ensures var u' := Apply(u, Dispose);
            && u'.app.active.None? && u'.log == u.log && u'.app.inProgress
            && !u'.app.rounds[r].forceTimer && !u'.app.rounds[r].graceTimer && u'.app.rounds[r].listening.None?
            && !u'.app.rounds[r].ended
  {
    ActiveFacts(u, r);
  }

  /** A round that is over, or whose window is gone, has no timer and no listener
      left; an active one listens at most for its current attempt. */
  lemma NothingLingers(u: Ui, r: nat)
    requires Reachable(u) && r < |u.app.rounds|
    ensures u.app.active != Some(r) ==>
              !u.app.rounds[r].forceTimer && !u.app.rounds[r].graceTimer && u.app.rounds[r].listening.None?
    ensures u.app.rounds[r].listening.Some? ==> u.app.rounds[r].listening == u.app.rounds[r].attempt
    ensures HasEnded(u.log, r) ==> u.app.active != Some(r)
  {
    hide Lawful, MarksOf, AttemptsOk, ScreenOk, StatusOk;
    ReachableInv(u);
    AtRound(u, r);
    MarksAreFaithful(u.log, r);
  }
}
