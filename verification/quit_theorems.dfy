/** What the quit gate (src-tauri/src/quit_gate.rs) guarantees over every run. */
module QuitTheorems {
  import opened Wrappers
  import opened QuitRules
  import opened QuitRuns
  import opened QuitInvariant

  lemma ReachableLawful(s: System)
    requires Reachable(s)
    ensures Lawful(s.log) && CancelsFollow(s.log) && GateReflects(s.gate, s.log)
    ensures GateInv(s.gate, s.now, s.unpaused)
  {
    ReachableInv(s);
  }

  // ----- histories -----------------------------------------------------------------------

  lemma EndFacts(h: History, i: nat)
    requires Lawful(h) && i < |h| && h[i].Ended?
    ensures IsOpen(h[..i], h[i].epoch) && h[i].outcome.epoch == h[i].epoch
    ensures exists gates :: HasOpened(h[..i], h[i].epoch, gates) && h[i].registered <= gates &&
              (h[i].outcome.Exiting? && !h[i].forced ==> AllConsented(h[..i], h[i].epoch, gates))
    ensures h[i].outcome.Aborted? && h[i].outcome.reason == Timeout ==> HasCheck(h[..i], h[i].epoch)
  {
    assert Legal(h[..i], h[i]);
  }

  lemma ReturnFacts(h: History, j: nat)
    requires Lawful(h) && j < |h| && h[j].Returned?
    ensures HasEndedAs(h[..j], h[j].epoch, h[j].outcome)
  {
    assert Legal(h[..j], h[j]);
  }

  /** The round whose result the waiter loop returned. */
  lemma ReturnedFrom(h: History, j: nat) returns (k: nat)
    requires Lawful(h) && j < |h| && h[j].Returned?
    ensures k < j && h[k].Ended? && h[k].epoch == h[j].epoch && h[k].outcome == h[j].outcome
  {
    hide Lawful, HasEndedAs;
    ReturnFacts(h, j);
    k := EndIndex(h, j, h[j].epoch, h[j].outcome);
  }

  lemma EndIndex(h: History, j: nat, e: nat, o: Outcome) returns (k: nat)
    requires j <= |h| && HasEndedAs(h[..j], e, o)
    ensures k < j && h[k].Ended? && h[k].epoch == e && h[k].outcome == o
  {
    var x :| x in h[..j] && x.Ended? && x.epoch == e && x.outcome == o;
    k :| 0 <= k < j && h[..j][k] == x;
  }

  lemma ClaimFacts(h: History, i: nat)
    requires Lawful(h) && i < |h| && h[i].ExitClaimed?
    ensures HasEndedAs(h[..i], h[i].epoch, Exiting(h[i].epoch)) && h[i] !in h[..i]
  {
    assert Legal(h[..i], h[i]);
  }

  lemma ClaimOnce(h: History, i: nat, j: nat)
    requires Lawful(h) && i < j < |h| && h[i].ExitClaimed? && h[j].ExitClaimed?
    ensures h[i] != h[j]
  {
    ClaimFacts(h, j);
    assert h[i] in h[..j];
  }

  lemma CheckIndex(h: History, i: nat, e: nat)
    requires i <= |h| && HasCheck(h[..i], e)
    ensures exists k: nat :: k < i && h[k].TimeoutCheck? && h[k].epoch == e &&
                             h[k].busy == {} && QUIT_GATE_TIMEOUT <= h[k].unpaused
  {
    var x :| x in h[..i] && x.TimeoutCheck? && x.epoch == e && x.busy == {} && QUIT_GATE_TIMEOUT <= x.unpaused;
    var k: nat :| k < i && h[..i][k] == x;
    assert h[k] == x;
  }

  lemma ToldFacts(h: History, j: nat)
    requires Lawful(h) && j < |h| && h[j].GatesTold?
    ensures j > 0 && h[j - 1].Ended? && h[j - 1].epoch == h[j].epoch && h[j - 1].outcome.Aborted?
    ensures HasOpened(h, h[j].epoch, h[j].gates)
  {
    assert Legal(h[..j], h[j]);
    assert h[..j][|h[..j]| - 1] == h[j - 1];
    assert Opened(h[j].epoch, h[j].gates) in h[..j];
  }

  lemma OpenFacts(h: History, b: nat)
    requires Lawful(h) && b < |h| && h[b].Opened?
    ensures forall x | x in h[..b] :: x.epoch < h[b].epoch
    ensures forall x | x in h[..b] && x.Opened? :: HasEnded(h[..b], x.epoch)
  {
    assert Legal(h[..b], h[b]);
  }

  lemma EndedEarlier(h: History, i: nat, j: nat, e: nat)
    requires i <= j <= |h| && HasEnded(h[..i], e)
    ensures HasEnded(h[..j], e)
  {
    var x :| x in h[..i] && x.Ended? && x.epoch == e;
    assert x in h[..j];
  }

  /** Rounds open one after the other, each when all before it have ended. */
  lemma OpensIncrease(h: History, a: nat, b: nat)
    requires Lawful(h) && a < b < |h| && h[a].Opened? && h[b].Opened?
    ensures h[a].epoch < h[b].epoch && HasEnded(h[..b], h[a].epoch)
  {
    OpenFacts(h, b);
    assert h[a] in h[..b];
  }

  lemma OpeningOf(h: History, i: nat) returns (k: nat)
    requires Lawful(h) && i < |h| && h[i].Ended?
    ensures k < i && h[k].Opened? && h[k].epoch == h[i].epoch
    ensures !HasEnded(h[..i], h[i].epoch)
  {
    EndFacts(h, i);
    var x :| x in h[..i] && x.Opened? && x.epoch == h[i].epoch;
    k :| 0 <= k < i && h[..i][k] == x;
  }

  /** Rounds end one after the other: terminal epochs strictly increase, so no
      epoch has two terminal results. */
  lemma EndsIncrease(h: History, i: nat, j: nat)
    requires Lawful(h) && i < j < |h| && h[i].Ended? && h[j].Ended?
    ensures h[i].epoch < h[j].epoch
  {
    hide Lawful;
    var a := OpeningOf(h, i);
    var b := OpeningOf(h, j);
    if i < b {
      OpenFacts(h, b);
      assert h[i] in h[..b];
    } else if a < b {
      OpensIncrease(h, a, b);
      EndedEarlier(h, b, i, h[a].epoch);
      assert false;
    } else {
      assert h[i] in h[..j];
      assert h[a].epoch != h[b].epoch;
      OpensIncrease(h, b, a);
      EndedEarlier(h, a, j, h[b].epoch);
      assert false;
    }
  }

  lemma EndsUnique(h: History, i: nat, j: nat)
    requires Lawful(h) && i < |h| && j < |h| && h[i].Ended? && h[j].Ended?
    requires h[i].epoch == h[j].epoch
    ensures i == j
  {
    hide Lawful;
    if i < j { EndsIncrease(h, i, j); }
    if j < i { EndsIncrease(h, j, i); }
  }

  /** An epoch is opened once. */
  lemma OpenedUnique(h: History, e: nat, a: set<Label>, b: set<Label>)
    requires Lawful(h) && HasOpened(h, e, a) && HasOpened(h, e, b)
    ensures a == b
  {
    hide Lawful;
    var i: nat :| i < |h| && h[i] == Opened(e, a);
    var j: nat :| j < |h| && h[j] == Opened(e, b);
    if i < j { OpensIncrease(h, i, j); }
    if j < i { OpensIncrease(h, j, i); }
  }

  // ----- safety over every run ---------------------------------------------------------------

  /** Exit means consent: when a round exits without Force, every window it asked
      has answered yes in it, and every window registered at that instant was asked. */
  lemma ExitMeansConsent(s: System, i: nat)
    requires Reachable(s) && i < |s.log|
    requires s.log[i].Ended? && s.log[i].outcome.Exiting? && !s.log[i].forced
    ensures exists gates :: HasOpened(s.log[..i], s.log[i].epoch, gates) && s.log[i].registered <= gates &&
                            AllConsented(s.log[..i], s.log[i].epoch, gates)
    ensures forall who | who in s.log[i].registered :: Answered(s.log[i].epoch, who, true) in s.log[..i]
  {
    ReachableLawful(s);
    hide GateReflects, GateInv, CancelsFollow, Lawful;
    EndFacts(s.log, i);
  }

  /** One decision per epoch: at most one terminal result, which is also the one
      that the waiter loop returns, however waiter, force, timeout, teardown and
      the guard's drop interleave. */
  lemma OneDecision(s: System, i: nat, j: nat)
    requires Reachable(s) && i < |s.log| && j < |s.log|
    requires s.log[i].Ended? && (s.log[j].Ended? || s.log[j].Returned?)
    requires s.log[i].epoch == s.log[j].epoch
    ensures s.log[i].outcome == s.log[j].outcome
    ensures s.log[j].Ended? ==> i == j
    ensures s.log[j].Returned? ==> i < j
  {
    ReachableLawful(s);
    hide GateReflects, GateInv, CancelsFollow, Lawful;
    var h := s.log;
    if h[j].Ended? {
      EndsUnique(h, i, j);
    } else {
      var k := ReturnedFrom(h, j);
      EndsUnique(h, i, k);
    }
  }

  /** Terminal epochs strictly increase over every run. */
  lemma TerminalEpochsIncrease(s: System, i: nat, j: nat)
    requires Reachable(s) && i < j < |s.log| && s.log[i].Ended? && s.log[j].Ended?
    ensures s.log[i].epoch < s.log[j].epoch
  {
    ReachableLawful(s);
    hide GateReflects, GateInv, CancelsFollow, Lawful;
    EndsIncrease(s.log, i, j);
  }

  /** The process exit is claimed at most once per epoch, for an `Exiting` round only. */
  lemma OneExit(s: System, i: nat, j: nat)
    requires Reachable(s) && i < |s.log| && s.log[i].ExitClaimed?
    requires j < |s.log| && s.log[j].ExitClaimed? && s.log[j].epoch == s.log[i].epoch
    ensures i == j
    ensures HasEndedAs(s.log[..i], s.log[i].epoch, Exiting(s.log[i].epoch))
  {
    ReachableLawful(s);
    hide GateReflects, GateInv, CancelsFollow, Lawful;
    var h := s.log;
    ClaimFacts(h, i);
    assert h[i] == h[j];
    if i < j { ClaimOnce(h, i, j); }
    if j < i { ClaimOnce(h, j, i); }
  }

  /** Exactly one caller receives the cancellation of an aborted round, at once,
      and it names exactly the gates that the round asked. */
  lemma CancelledOnce(s: System, i: nat, gates: set<Label>)
    requires Reachable(s) && i < |s.log| && s.log[i].Ended? && s.log[i].outcome.Aborted?
    requires HasOpened(s.log, s.log[i].epoch, gates)
    ensures i + 1 < |s.log| && s.log[i + 1] == GatesTold(s.log[i].epoch, gates)
    ensures forall j | 0 <= j < |s.log| && s.log[j].GatesTold? && s.log[j].epoch == s.log[i].epoch :: j == i + 1
  {
    ReachableLawful(s);
    var h := s.log;
    assert h[i + 1].GatesTold? && h[i + 1].epoch == h[i].epoch;
    hide GateReflects, GateInv, Lawful, CancelsFollow;
    ToldFacts(h, i + 1);
    OpenedUnique(h, h[i].epoch, gates, h[i + 1].gates);
    ToldOnce(h, i);
  }

  lemma ToldOnce(h: History, i: nat)
    requires Lawful(h) && i < |h| && h[i].Ended?
    ensures forall j | 0 <= j < |h| && h[j].GatesTold? && h[j].epoch == h[i].epoch :: j == i + 1
  {
    hide Lawful;
    forall j | 0 <= j < |h| && h[j].GatesTold? && h[j].epoch == h[i].epoch ensures j == i + 1 {
      ToldFacts(h, j);
      EndsUnique(h, i, j - 1);
    }
  }

  /** A timeout abort follows a check that found no busy gate and at least thirty
      seconds of unpaused time, however often the round was paused. */
  lemma TimeoutAfterBudget(s: System, i: nat)
    requires Reachable(s) && i < |s.log|
    requires s.log[i].Ended? && s.log[i].outcome.Aborted? && s.log[i].outcome.reason == Timeout
    ensures exists k: nat :: k < i && s.log[k].TimeoutCheck? && s.log[k].epoch == s.log[i].epoch &&
                             s.log[k].busy == {} && 30_000 <= s.log[k].unpaused
  {
    ReachableLawful(s);
    hide GateReflects, GateInv, CancelsFollow, Lawful;
    EndFacts(s.log, i);
    CheckIndex(s.log, i, s.log[i].epoch);
  }

  /** In every live round the busy gates are unanswered ones, the clock runs
      exactly while none is busy, and time spent plus time left is the budget. */
  lemma BudgetConserved(s: System)
    requires Reachable(s) && s.gate.round.Some?
    ensures var r := s.gate.round.value;
            && r.busy <= r.pending <= r.snapshot
            && (r.busy == {} <==> r.deadline.Some?)
            && (r.Left(s.now) > 0 ==> s.unpaused + r.Left(s.now) == 30_000)
            && (r.Left(s.now) == 0 ==> 30_000 <= s.unpaused)
  {
    ReachableLawful(s);
  }

  /** A spent budget aborts the round: a waiter whose timer woke it to a live
      round with no busy window and thirty seconds of unpaused time ends it in its
      own next two steps, as a timeout that names exactly the unanswered windows. */
  lemma SpentBudgetAborts(s: System, t: nat)
    requires Reachable(s) && s.At(t).Expired? && s.gate.Live(s.At(t).epoch)
    requires s.gate.round.value.busy == {} && 30_000 <= s.unpaused
    ensures CanAdvance(Apply(s, Advance(t)).At(t))
    ensures var e, r := s.At(t).epoch, s.gate.round.value;
            Apply(Apply(s, Advance(t)), Advance(t)).log ==
            s.log + [TimeoutCheck(e, s.unpaused, {}),
                     Ended(e, Aborted(e, Timeout, {}, r.pending), false, s.gate.registered),
                     GatesTold(e, r.snapshot)]
  {
    ReachableLawful(s);
    hide Lawful, CancelsFollow, GateReflects;
    var e, r := s.At(t).epoch, s.gate.round.value;
    TimeoutDueIff(s.gate, e, s.now, s.unpaused);
    var s1 := Apply(s, Advance(t));
    assert s1.log == s.log + [TimeoutCheck(e, s.unpaused, {})];
    assert s1.At(t).Condemned?;
    var s2 := Apply(s1, Advance(t));
    assert s2.log == s1.log + [] + [Ended(e, Aborted(e, Timeout, {}, r.pending), false, s.gate.registered),
                                    GatesTold(e, r.snapshot)];
  }

  /** And the timer does wake it: a parked waiter with a true view of such a round
      can be woken by its timer, and by nothing earlier. */
  lemma TimerFiresIff(s: System, t: nat)
    requires Reachable(s) && s.At(t).Parked? && s.At(t).ticket == s.notified && s.Quiet()
    requires s.gate.Live(s.At(t).epoch)
    ensures Enabled(s, WakeTimer(t)) <==> s.gate.round.value.busy == {} && 30_000 <= s.unpaused
  {
    NoLostWakeup(s, t);
    ReachableLawful(s);
    hide Lawful, CancelsFollow, GateReflects;
    TimeoutDueIff(s.gate, s.At(t).epoch, s.now, s.unpaused);
  }

  // ----- who is asked -------------------------------------------------------------------------

  /** The windows that joined and have not left since. */
  function Members(roster: Roster): set<Label> {
    if roster == [] then {}
    else
      var before := Members(roster[..|roster| - 1]);
      match roster[|roster| - 1]
      case Joined(who) => before + {who}
      case Left(who) => before - {who}
  }

  lemma {:induction false} MembersAre(roster: Roster, who: Label)
    ensures who in Members(roster) <==>
              exists i | 0 <= i < |roster| :: roster[i] == Joined(who) &&
                forall j | i < j < |roster| :: roster[j] != Left(who)
  {
    if roster != [] {
      var n := |roster| - 1;
      MembersAre(roster[..n], who);
      if who in Members(roster[..n]) && roster[n] != Left(who) {
        var i :| 0 <= i < n && roster[..n][i] == Joined(who) && forall j | i < j < n :: roster[..n][j] != Left(who);
        assert roster[i] == Joined(who);
        forall j | i < j < |roster| ensures roster[j] != Left(who) {
          if j < n { assert roster[..n][j] == roster[j]; }
        }
      }
      if i :| 0 <= i < |roster| && roster[i] == Joined(who) && forall j | i < j < |roster| :: roster[j] != Left(who) {
        if i < n {
          assert roster[..n][i] == Joined(who);
        }
      }
    }
  }

  /** Exactly those are registered, and each round asked those of its time. */
  ghost predicate RosterOk(s: System) {
    && s.gate.registered == Members(s.roster)
    && forall x | x in s.log && x.Opened? :: AskedThen(s.roster, x.gates)
  }

  ghost predicate AskedThen(roster: Roster, gates: set<Label>) {
    exists k :: 0 <= k <= |roster| && gates == Members(roster[..k])
  }

  /** What a step does to the registered windows and to the openings in the log. */
  ghost predicate KeepsRoster(s: System, s': System) {
    && s'.gate.registered == s.gate.registered && s'.roster == s.roster
    && forall x | x in s'.log && x.Opened? :: x in s.log
  }

  lemma SectionsKeepRegistered(g: Gate)
    ensures forall who, e, yes, now :: Resolve(g, who, e, yes, now).gate.registered == g.registered
    ensures forall who, e, busy, now :: Progress(g, who, e, busy, now).gate.registered == g.registered
    ensures forall e, reason :: Abort(g, e, reason).gate.registered == g.registered
    ensures forall e :: FinalizeConsent(g, e).gate.registered == g.registered
    ensures forall e :: ClaimExit(g, e).registered == g.registered
    ensures forall e :: Force(g, e).gate.registered == g.registered
  {
  }

  lemma AdvanceKeepsRoster(s: System, t: nat)
    requires CanAdvance(s.At(t))
    ensures KeepsRoster(s, AdvanceFrom(s, t))
  {
    hide Abort, FinalizeConsent, ClaimExit;
    SectionsKeepRegistered(s.gate);
  }

  lemma OthersKeepRoster(s: System, a: Action)
    requires Enabled(s, a) && !a.DoRegister? && !a.DoTeardown? && !a.DoStart?
    ensures KeepsRoster(s, Apply(s, a))
  {
    hide Resolve, Progress, Force;
    SectionsKeepRegistered(s.gate);
    if a.Advance? { AdvanceKeepsRoster(s, a.task); }
  }

  lemma AskedLater(roster: Roster, more: Roster, gates: set<Label>)
    requires AskedThen(roster, gates)
    ensures AskedThen(roster + more, gates)
  {
    var k :| 0 <= k <= |roster| && gates == Members(roster[..k]);
    assert (roster + more)[..k] == roster[..k];
  }

  lemma JoinOrLeave(s: System, a: Action)
    requires RosterOk(s) && Enabled(s, a) && (a.DoRegister? || a.DoTeardown?)
    ensures RosterOk(Apply(s, a))
  {
    var s' := Apply(s, a);
    RegistersOrTears(s, a);
    hide Register, Teardown;
    var more := s'.roster[|s.roster|..];
    assert s'.roster == s.roster + more;
    assert more != [] ==> s'.roster[..|s'.roster| - 1] == s.roster;
    forall x | x in s'.log && x.Opened? ensures AskedThen(s'.roster, x.gates) {
      AskedLater(s.roster, more, x.gates);
    }
  }

  lemma RegistersOrTears(s: System, a: Action)
    requires Enabled(s, a) && (a.DoRegister? || a.DoTeardown?)
    ensures var s' := Apply(s, a);
            && (forall x | x in s'.log && x.Opened? :: x in s.log)
            && s.roster <= s'.roster && |s'.roster| <= |s.roster| + 1
            && s'.gate.registered == (if a.DoTeardown? then s.gate.registered - {a.who}
                                      else if s.gate.round.None? then s.gate.registered + {a.who} else s.gate.registered)
            && (if a.DoTeardown? then s'.roster == s.roster + [Left(a.who)]
                else if s.gate.round.None? then s'.roster == s.roster + [Joined(a.who)] else s'.roster == s.roster)
  {
  }

  lemma StartAsksRoster(s: System, a: Action)
    requires RosterOk(s) && Enabled(s, a) && a.DoStart?
    ensures RosterOk(Apply(s, a))
  {
    assert s.roster[..|s.roster|] == s.roster;
  }

  lemma StepRoster(s: System, a: Action)
    requires RosterOk(s) && Enabled(s, a)
    ensures RosterOk(Apply(s, a))
  {
    hide Members, AskedThen;
    if a.DoRegister? || a.DoTeardown? { JoinOrLeave(s, a); }
    else if a.DoStart? { StartAsksRoster(s, a); }
    else { hide Apply; OthersKeepRoster(s, a); }
  }

  lemma {:induction false} RunRoster(s: System, acts: seq<Action>, s': System)
    requires RosterOk(s) && Run(s, acts, s')
    ensures RosterOk(s')
    decreases |acts|
  {
    hide Apply, Enabled, RosterOk;
    if acts != [] {
      StepRoster(s, acts[0]);
      RunRoster(Apply(s, acts[0]), acts[1..], s');
    }
  }

  /** A window is registered exactly if it joined, while no round was live, and has
      not been torn down since; and each round asked exactly those registered at
      some moment, the one it opened at. */
  lemma RegisteredExactly(s: System, who: Label)
    requires Reachable(s)
    ensures who in s.gate.registered <==>
              exists i | 0 <= i < |s.roster| :: s.roster[i] == Joined(who) &&
                forall j | i < j < |s.roster| :: s.roster[j] != Left(who)
    ensures forall x | x in s.log && x.Opened? :: AskedThen(s.roster, x.gates)
  {
    var acts :| Run(START, acts, s);
    assert RosterOk(START);
    hide Run;
    RunRoster(START, acts, s);
    MembersAre(s.roster, who);
  }

  /** The roster takes a registration exactly while no round is live, and a start
      asks those on it. */
  lemma StartAsksRegistered(s: System, t: nat)
    requires Reachable(s) && Enabled(s, DoStart(t)) && s.gate.round.None?
    ensures Apply(s, DoStart(t)).log == s.log + [Opened(s.gate.nextEpoch + 1, Members(s.roster))]
    ensures Apply(s, DoStart(t)).gate.round.Some? && Apply(s, DoStart(t)).gate.round.value.pending == Members(s.roster)
  {
    var acts :| Run(START, acts, s);
    assert RosterOk(START);
    hide Run;
    RunRoster(START, acts, s);
  }

  /** A Force that names no epoch authorizes nothing. */
  lemma ForceNeedsEpoch(s: System, t: nat)
    requires Reachable(s) && Enabled(s, DoForce(t, None))
    ensures Apply(s, DoForce(t, None)) == s
  {
    ReachableLawful(s);
    hide CancelsFollow, GateInv;
    if s.gate.round.Some? {
      var r := s.gate.round.value;
      var i :| 0 <= i < |s.log| && s.log[i] == Opened(r.epoch, r.snapshot);
      assert Legal(s.log[..i], s.log[i]);
    }
  }

  /** No lost wake-up: a parked waiter that nothing has signalled since it
      enrolled, and that nobody is about to signal, still sees the gate as it
      is. While its round is live and it has no deadline, some gate is busy. */
  lemma NoLostWakeup(s: System, t: nat)
    requires Reachable(s) && s.At(t).Parked? && s.At(t).ticket == s.notified && s.Quiet()
    ensures s.gate.TerminalFor(s.At(t).epoch).None?
    ensures s.gate.DeadlineFor(s.At(t).epoch) == s.At(t).deadline
    ensures s.gate.Live(s.At(t).epoch) && s.At(t).deadline.None? ==> s.gate.round.value.busy != {}
  {
    ReachableInv(s);
    hide Lawful, CancelsFollow, GateReflects, AnswersReflect, PcReflects;
    assert ViewCurrent(s.pcs[t], s);
  }

  // ----- where the single terminal slot is too small -----------------------------------

  /** Such a waiter's round is over exactly when a later round has ended too and
      taken the one terminal slot; then it has no deadline to wake it either. */
  lemma StrandedIffOverwritten(s: System, t: nat)
    requires Reachable(s) && s.At(t).Parked? && s.At(t).ticket == s.notified && s.Quiet()
    ensures HasEnded(s.log, s.At(t).epoch) <==> LaterEnded(s.log, s.At(t).epoch)
    ensures HasEnded(s.log, s.At(t).epoch) ==> s.At(t).deadline.None?
  {
    var e := s.At(t).epoch;
    NoLostWakeup(s, t);
    ReachableInv(s);
    assert PcReflects(s.pcs[t], s.log);
    hide Lawful, CancelsFollow, Legal, AnswersReflect, ViewCurrent;
    if HasEnded(s.log, e) {
      LastEnded(s.gate, s.log, e);
      LiveNotEnded(s.gate, s.log, e);
    }
    if LaterEnded(s.log, e) {
      var x :| x in s.log && x.Ended? && e < x.epoch;
      LaterMeansOver(s.gate, s.log, s.now, s.unpaused, e, x);
    }
  }

  lemma LiveNotEnded(g: Gate, h: History, e: nat)
    requires GateReflects(g, h) && HasEnded(h, e)
    ensures !g.Live(e)
  {
  }

  lemma LaterMeansOver(g: Gate, h: History, now: nat, unpaused: nat, e: nat, x: Event)
    requires GateReflects(g, h) && GateInv(g, now, unpaused)
    requires x in h && x.Ended? && e < x.epoch
    requires exists y | y in h :: y.Opened? && y.epoch == e
    ensures HasEnded(h, e)
  {
    assert !g.Live(e);
    var y :| y in h && y.Opened? && y.epoch == e;
  }

  /** Whether an exit that was decided can still be carried out: exactly if it
      has not been yet and no later round has ended since. */
  lemma ExitClaimableIff(s: System, e: nat)
    requires Reachable(s) && HasEndedAs(s.log, e, Exiting(e))
    ensures ClaimGranted(s.gate, e) <==> ExitClaimed(e) !in s.log && !LaterEnded(s.log, e)
  {
    ReachableLawful(s);
    hide CancelsFollow, Legal, GateInv;
    var x :| x in s.log && x.Ended? && x.epoch == e && x.outcome == Exiting(e);
    var T := s.gate.terminal.value;
    var y :| y in s.log && y.Ended? && y.epoch == T.epoch && y.outcome == T.outcome;
    if T.epoch == e {
      EndOfEpoch(s.log, x, y);
    }
  }

  lemma EndOfEpoch(h: History, x: Event, y: Event)
    requires Lawful(h) && x in h && y in h && x.Ended? && y.Ended? && x.epoch == y.epoch
    ensures x == y
  {
    var i :| 0 <= i < |h| && h[i] == x;
    var j :| 0 <= j < |h| && h[j] == y;
    EndsUnique(h, i, j);
  }

  lemma {:induction false} LostInRun(s: System, acts: seq<Action>, s': System, e: nat)
    requires Inv(s) && Run(s, acts, s')
    requires LaterEnded(s.log, e) && ExitClaimed(e) !in s.log
    ensures LaterEnded(s'.log, e) && ExitClaimed(e) !in s'.log
    decreases |acts|
  {
    hide Inv;
    if acts != [] {
      var m := Apply(s, acts[0]);
      StepInv(s, acts[0]);
      LostByStep(s, acts[0], e);
      LostInRun(m, acts[1..], s', e);
    }
  }

  /** A lost exit stays lost in every continuation. */
  lemma LostForever(s: System, acts: seq<Action>, s': System, e: nat)
    requires Reachable(s) && Run(s, acts, s')
    requires LaterEnded(s.log, e) && ExitClaimed(e) !in s.log
    ensures LaterEnded(s'.log, e) && ExitClaimed(e) !in s'.log
  {
    hide Inv, Run, Reachable, LaterEnded;
    ReachableInv(s);
    LostInRun(s, acts, s', e);
  }

  lemma LostByStep(s: System, a: Action, e: nat)
    requires Inv(s) && Enabled(s, a)
    requires LaterEnded(s.log, e) && ExitClaimed(e) !in s.log
    ensures LaterEnded(Apply(s, a).log, e) && ExitClaimed(e) !in Apply(s, a).log
  {
    hide Inv, Apply, ClaimGranted;
    var s' := Apply(s, a);
    var x :| x in s.log && x.Ended? && e < x.epoch;
    NoClaim(s, e, x);
    LogGrows(s, a, e);
    var i :| 0 <= i < |s.log| && s.log[i] == x;
    assert s'.log[i] == x;
  }

  lemma NoClaim(s: System, e: nat, x: Event)
    requires Inv(s) && x in s.log && x.Ended? && e < x.epoch
    ensures !ClaimGranted(s.gate, e)
  {
  }

  /** Only a granted claim adds an exit to the log. */
  lemma LogGrows(s: System, a: Action, e: nat)
    requires Enabled(s, a) && !ClaimGranted(s.gate, e)
    ensures s.log <= Apply(s, a).log
    ensures ExitClaimed(e) in Apply(s, a).log ==> ExitClaimed(e) in s.log
  {
    hide Resolve, Teardown, Progress, Abort, FinalizeConsent, Force, Install, ClaimExit;
    match a {
      case DoTeardown(t, who, reason) => CommitLog(s, t, Teardown(s.gate, who, reason, s.now), Idle, [], false, e);
      case DoResolve(t, who, e', c) =>
        CommitLog(s, t, Resolve(s.gate, who, e', c, s.now), Idle, Answer(s, a), false, e);
      case DoProgress(t, who, e', busy) => CommitLog(s, t, Progress(s.gate, who, e', busy, s.now), Idle, [], false, e);
      case DoForce(t, target) =>
        CommitLog(s, t, Force(s.gate, Target(target)), Forced(Target(target)), [], true, e);
      case Advance(t) => AdvanceLog(s, t, e);
      case _ =>
    }
  }

  lemma CommitLog(s: System, t: nat, sec: Section, next: Pc, seen: History, forced: bool, e: nat)
    requires ExitClaimed(e) !in seen
    ensures s.log <= Commit(s, t, sec, next, seen, forced).log
    ensures ExitClaimed(e) in Commit(s, t, sec, next, seen, forced).log ==> ExitClaimed(e) in s.log
  {
    var more := EndEvents(s.gate, sec, forced);
    assert ExitClaimed(e) !in more;
    assert s.log + seen + more == s.log + (seen + more);
  }

  lemma AdvanceLog(s: System, t: nat, e: nat)
    requires CanAdvance(s.At(t)) && !ClaimGranted(s.gate, e)
    ensures s.log <= AdvanceFrom(s, t).log
    ensures ExitClaimed(e) in AdvanceFrom(s, t).log ==> ExitClaimed(e) in s.log
  {
    hide Abort, FinalizeConsent, ClaimExit;
    match s.At(t) {
      case Unannounced(e') => CommitLog(s, t, Abort(s.gate, e', Cancelled), ReadBack(e'), [], false, e);
      case Announced(e', unread) => CommitLog(s, t, FinalizeConsent(s.gate, e'), Looping(e', unread), [], false, e);
      case Condemned(e', unread) => CommitLog(s, t, Abort(s.gate, e', Timeout), Looping(e', unread), [], false, e);
      case Dropping(e') => CommitLog(s, t, Abort(s.gate, e', Cancelled), Idle, [], false, e);
      case _ =>
    }
  }
}
