/** What the main window and the quit gate guarantee together. */
module QuitHandshakeTheorems {
  import opened Wrappers
  import opened QuitRules
  import opened QuitHandshake
  import opened QuitHandshakeInvariant
  import G = QuitRuns
  import GL = QuitLosses
  import GT = QuitTheorems
  import UR = QuitUiRules
  import U = QuitUiRuns
  import UT = QuitUiTheorems

  /** The user confirmed a Force for `e`, in a round bound to `e` that had waited its ten seconds. */
  ghost predicate Confirmed(h: U.History, e: nat) {
    exists r: nat :: U.ForceSent(r, e) in h && U.Bound(r, e) in h && U.Earned(r) in h
  }

  /** All gates that round `e` asked consented, among them every gate registered when it ended. */
  ghost predicate Consented(h: G.History, e: nat) {
    exists i: nat | i < |h| && h[i].Ended? ::
      && h[i].epoch == e && h[i].outcome == Exiting(e) && !h[i].forced
      && exists gates :: G.HasOpened(h[..i], e, gates) && h[i].registered <= gates && G.AllConsented(h[..i], e, gates)
  }

  /** The process exits only by the consent of every gate, or because the user
      confirmed a Force for that very epoch. */
  lemma ExitIsConsentedOrConfirmed(s: Shell, e: nat)
    requires Reachable(s) && G.ExitClaimed(e) in s.gate.log
    ensures Consented(s.gate.log, e) || Confirmed(s.ui.log, e)
  {
    hide Reachable, G.Reachable, U.Reachable, Backed;
    ReachableInv(s);
    var h := s.gate.log;
    var j :| 0 <= j < |h| && h[j] == G.ExitClaimed(e);
    GT.OneExit(s.gate, j, j);
    var x :| x in h[..j] && x.Ended? && x.epoch == e && x.outcome == Exiting(e);
    var i: nat :| i < j && h[..j][i] == x;
    assert h[i] == x;
    if x.forced {
      ForcedIsConfirmed(s, i);
    } else {
      ConsentedAt(s.gate, i);
    }
  }

  lemma ConsentedAt(g: G.System, i: nat)
    requires G.Reachable(g) && i < |g.log| && g.log[i].Ended? && !g.log[i].forced
    requires g.log[i].outcome == Exiting(g.log[i].epoch)
    ensures Consented(g.log, g.log[i].epoch)
  {
    hide G.Reachable;
    GT.ReachableLawful(g);
    hide G.Lawful, G.CancelsFollow, G.GateReflects, GateInv, G.AllConsented, G.HasOpened;
    GT.EndFacts(g.log, i);
  }

  /** A round ends as forced only if the user confirmed it. */
  lemma ForcedIsConfirmed(s: Shell, i: nat)
    requires Reachable(s) && i < |s.gate.log| && s.gate.log[i].Ended? && s.gate.log[i].forced
    ensures Confirmed(s.ui.log, s.gate.log[i].epoch)
  {
    hide Reachable, G.Reachable, U.Reachable, Backed;
    ReachableInv(s);
    var x := s.gate.log[i];
    assert x in s.gate.log;
    var y :| y in s.ui.log && y.ForceSent? && y.epoch == x.epoch;
    BoundIfForced(s.ui, y);
    assert y == U.ForceSent(y.round, x.epoch);
  }

  /** How a round of the window ended is what the gate decided, down to the reason
      and the labels of an abort. */
  lemma EndIsDecided(s: Shell, r: nat, how: U.How, said: U.Said)
    requires Reachable(s) && U.Ended(r, how, Some(said)) in s.ui.log
    ensures how == U.ByExit ==> G.HasEndedAs(s.gate.log, said.epoch, Exiting(said.epoch))
    ensures how == U.ByAbort ==>
              || AbortedAs(s.gate.log, said.epoch, said.reply)
              || (Overwritten(s.gate.log, said.epoch) && Carries(said.reply, G.BareCancel(said.epoch)))
    ensures how == U.ByStale ==> G.HasEnded(s.gate.log, said.epoch)
  {
    hide Reachable, G.Reachable, U.Reachable, Carries;
    ReachableInv(s);
    assert Backed(s.gate.log, U.Ended(r, how, Some(said)));
  }

  /** The abort that the window shows, with no later round begun, is an abort of
      the gate: its reason, the windows that refused and those that did not answer.
      The one exception is the bare cancel of a start whose slot was taken. */
  lemma ShownIsDecided(s: Shell, i: nat)
    requires Reachable(s) && i < |s.ui.log| && s.ui.log[i].Ended? && s.ui.log[i].how == U.ByAbort
    requires forall j | i < j < |s.ui.log| :: !s.ui.log[j].Begun?
    ensures s.ui.app.status.QuitAborted? && s.ui.log[i].about.Some?
    ensures var e, shown := s.ui.log[i].about.value.epoch, s.ui.app.status;
            || ShowsAbort(s.gate.log, e, shown)
            || (Overwritten(s.gate.log, e) && shown.reason == Some("cancelled") &&
                Labels(shown.refusing) == {} && Labels(shown.unanswered) == {})
  {
    hide Reachable, G.Reachable, U.Reachable;
    ReachableInv(s);
    UT.EndDecidesScreen(s.ui, i);
    var ev := s.ui.log[i];
    EndIsDecided(s, ev.round, U.ByAbort, ev.about.value);
    ShowsCarried(s, ev.about.value);
  }

  ghost predicate ShowsAbort(h: G.History, e: nat, shown: UR.Status)
    requires shown.QuitAborted?
  {
    exists x | x in h :: x.Ended? && x.epoch == e && x.outcome.Aborted? &&
      shown.reason == Some(ReasonText(x.outcome.reason)) &&
      Labels(shown.refusing) == x.outcome.refusing && Labels(shown.unanswered) == x.outcome.unanswered
  }

  lemma ShowsCarried(s: Shell, said: U.Said)
    requires s.ui.app.status == UR.QuitAborted(said.reply.reason, said.reply.refusing, said.reply.unanswered)
    ensures AbortedAs(s.gate.log, said.epoch, said.reply) ==> ShowsAbort(s.gate.log, said.epoch, s.ui.app.status)
    ensures Carries(said.reply, G.BareCancel(said.epoch)) ==>
              && said.reply.reason == Some("cancelled")
              && Labels(said.reply.refusing) == {} && Labels(said.reply.unanswered) == {}
  {
  }

  /** A round that the gate aborted never exits. */
  lemma AbortedNeverExits(g: G.System, e: nat)
    requires G.Reachable(g) && EndedAborted(g.log, e)
    ensures G.ExitClaimed(e) !in g.log && !ClaimGranted(g.gate, e)
  {
    hide G.Reachable;
    GT.ReachableLawful(g);
    var h := g.log;
    var x :| x in h && x.Ended? && x.epoch == e && x.outcome.Aborted?;
    if ClaimGranted(g.gate, e) {
      TerminalIs(g, e, x);
    }
    hide G.Lawful, G.CancelsFollow, G.GateReflects, GateInv;
    if G.ExitClaimed(e) in h {
      ClaimedIs(g, e, x);
    }
  }

  lemma TerminalIs(g: G.System, e: nat, x: G.Event)
    requires G.Reachable(g) && x in g.log && x.Ended? && x.epoch == e
    ensures g.gate.TerminalFor(e).Some? ==> g.gate.TerminalFor(e).value == x.outcome
  {
    hide G.Reachable;
    GT.ReachableLawful(g);
    if g.gate.TerminalFor(e).Some? {
      var y :| y in g.log && y.Ended? && y.epoch == e && y.outcome == g.gate.terminal.value.outcome;
      hide G.CancelsFollow, G.GateReflects, GateInv;
      GT.EndOfEpoch(g.log, x, y);
    }
  }

  lemma ClaimedIs(g: G.System, e: nat, x: G.Event)
    requires G.Reachable(g) && x in g.log && x.Ended? && x.epoch == e && G.ExitClaimed(e) in g.log
    ensures x.outcome == Exiting(e)
  {
    hide G.Reachable;
    GT.ReachableLawful(g);
    var h := g.log;
    var j :| 0 <= j < |h| && h[j] == G.ExitClaimed(e);
    hide G.CancelsFollow, G.GateReflects, GateInv;
    GT.OneExit(g, j, j);
    var y :| y in h[..j] && y.Ended? && y.epoch == e && y.outcome == Exiting(e);
    assert y in h;
    GT.EndOfEpoch(h, x, y);
  }

  /** Once the window withdrew the Force of a cancelled epoch, that epoch can
      neither exit nor be forced any more. */
  lemma SuppressedNeverExits(s: Shell, r: nat, e: nat)
    requires Reachable(s) && U.Suppressed(r, e) in s.ui.log
    ensures G.ExitClaimed(e) !in s.gate.log && !ClaimGranted(s.gate.gate, e) && !s.gate.gate.Live(e)
  {
    hide Reachable, G.Reachable, U.Reachable;
    ReachableInv(s);
    assert Backed(s.gate.log, U.Suppressed(r, e));
    AbortedNeverExits(s.gate, e);
    NotLive(s.gate, e);
  }

  lemma NotLive(g: G.System, e: nat)
    requires G.Reachable(g) && EndedAborted(g.log, e)
    ensures !g.gate.Live(e)
  {
    hide G.Reachable;
    GT.ReachableLawful(g);
    var x :| x in g.log && x.Ended? && x.epoch == e && x.outcome.Aborted?;
    assert G.HasEnded(g.log, e);
  }

  /** A window that shows an abort belongs to an app that stays open, unless a
      later round took the slot the abort would have been read from. */
  lemma ShownAbortStaysOpen(s: Shell, r: nat, said: U.Said)
    requires Reachable(s) && U.Ended(r, U.ByAbort, Some(said)) in s.ui.log && !G.LaterEnded(s.gate.log, said.epoch)
    ensures var e := said.epoch; G.ExitClaimed(e) !in s.gate.log && !ClaimGranted(s.gate.gate, e)
  {
    hide Reachable, G.Reachable, U.Reachable;
    EndIsDecided(s, r, U.ByAbort, said);
    ReachableInv(s);
    AbortedNeverExits(s.gate, said.epoch);
  }

  /** As long as epochs are safe integers, the active round always has an answer,
      a timer or the end of its bound epoch to wait for. */
  lemma NeverStuck(s: Shell, r: nat)
    requires Reachable(s) && s.ui.app.active == Some(r)
    requires forall x | x in s.gate.log :: UR.IsLiveEpoch(x.epoch)
    ensures U.Known(s.ui, r)
    ensures !s.ui.pcs[r].Resting? || s.ui.app.rounds[r].graceTimer || s.ui.app.rounds[r].epoch.Some?
  {
    hide Reachable, G.Reachable, U.Reachable;
    ReachableInv(s);
    UT.NeverStuck(s.ui, r);
    AnswersHelp(s);
  }

  lemma AnswersHelp(s: Shell)
    requires Inv(s) && forall x | x in s.gate.log :: UR.IsLiveEpoch(x.epoch)
    ensures forall ev | ev in s.ui.log && ev.Unusable? :: !U.Unhelpful(ev.reply)
  {
    forall ev | ev in s.ui.log && ev.Unusable? ensures !U.Unhelpful(ev.reply) {
      assert Backed(s.gate.log, ev);
    }
  }

  /** The epoch that a round of the window is bound to is a round of the gate,
      and a bound epoch that is over for the gate is one that ended. */
  lemma BoundIsOpened(s: Shell, r: nat, e: nat)
    requires Reachable(s) && U.Bound(r, e) in s.ui.log
    ensures Opened(s.gate.log, e) && (G.HasEnded(s.gate.log, e) <==> !s.gate.gate.Live(e))
  {
    hide Reachable, G.Reachable, U.Reachable;
    ReachableInv(s);
    assert Backed(s.gate.log, U.Bound(r, e));
    GT.ReachableLawful(s.gate);
  }

  // ----- which attempt opened a round ---------------------------------------------------------

  /** Each round of the gate was opened for an attempt of its own that the window
      had sent. */
  lemma RoundsHaveAttempts(s: Shell, e: nat, e': nat)
    requires Reachable(s) && e != e' && Opened(s.gate.log, e) && Opened(s.gate.log, e')
    ensures e in s.starters && e' in s.starters && s.starters[e] != s.starters[e']
    ensures Sent(s.ui.log, s.starters[e]) && Sent(s.ui.log, s.starters[e'])
  {
    hide Reachable, G.Reachable, U.Reachable, Cross, Sent;
    ReachableInv(s);
  }

  /** The slot of a round is taken only after the window has sent a second attempt. */
  lemma OverwritingNeedsTwoAttempts(s: Shell, e: nat)
    requires Reachable(s) && Overwritten(s.gate.log, e)
    ensures exists a, a' :: a != a' && Sent(s.ui.log, a) && Sent(s.ui.log, a')
  {
    hide Reachable, G.Reachable, U.Reachable, Sent;
    ReachableInv(s);
    GT.ReachableLawful(s.gate);
    hide GateInv, G.CancelsFollow, G.GateReflects, Cross, Calls;
    var h := s.gate.log;
    var x :| x in h && x.Ended? && x.epoch == e;
    var y :| y in h && y.Ended? && e < y.epoch;
    EndedOpened(h, x);
    EndedOpened(h, y);
    RoundsHaveAttempts(s, e, y.epoch);
  }

  lemma EndedOpened(h: G.History, x: G.Event)
    requires G.Lawful(h) && x in h && x.Ended?
    ensures Opened(h, x.epoch)
  {
    var i :| 0 <= i < |h| && h[i] == x;
    var k := GT.OpeningOf(h, i);
    assert h[k] in h;
  }

  // ----- the window can drive the lost exit ------------------------------------------------------

  lemma {:induction false} RunSnoc(s: Shell, acts: seq<Action>, m: Shell, a: Action)
    requires Run(s, acts, m) && Enabled(m, a)
    ensures Run(s, acts + [a], Apply(m, a))
    decreases |acts|
  {
    hide Apply, Heard;
    if acts == [] {
      assert [a][1..] == [];
    } else {
      RunSnoc(Apply(s, acts[0]), acts[1..], m, a);
      assert (acts + [a])[1..] == acts[1..] + [a];
    }
  }

  lemma Extend(m: Shell, a: Action) returns (m': Shell)
    requires Reachable(m) && Enabled(m, a)
    ensures m' == Apply(m, a) && Reachable(m')
  {
    hide Apply, Heard;
    var acts :| Run(FRESH_SHELL, acts, m);
    RunSnoc(FRESH_SHELL, acts, m, a);
    m' := Apply(m, a);
  }

  const ASKED: UR.Round := UR.NEW_ROUND.(flush := UR.Settled, attempts := 1, attempt := Some(1), listening := Some(1))

  /** The window has sent its first attempt. */
  function Waiting(x: UR.Round): UR.App {
    UR.App([x], Some(0), true, UR.WaitingToQuit, false, false)
  }

  lemma SendsOnce() returns (s: Shell)
    ensures Reachable(s) && s == FRESH_SHELL.(ui := s.ui)
    ensures s.ui == U.Ui(Waiting(ASKED), [U.Asking(1)], 1, false, [U.Begun(0), U.StartSent(0, 1)])
  {
    assert Run(FRESH_SHELL, [], FRESH_SHELL);
    hide Run, Reachable;
    s := Extend(FRESH_SHELL, UiStep(U.CloseWindow));
    assert s.ui == U.Ui(Waiting(UR.NEW_ROUND), [U.Flushing], 0, false, [U.Begun(0)]);
    s := Extend(s, UiStep(U.FlushSettles(0)));
    s := ListensOnce(s);
  }

  lemma ListensOnce(s0: Shell) returns (s: Shell)
    requires Reachable(s0)
    requires s0.ui == U.Ui(Waiting(ASKED.(listening := None)), [U.Listening(1)], 1, false, [U.Begun(0)])
    ensures Reachable(s) && s == s0.(ui := s.ui)
    ensures s.ui == U.Ui(Waiting(ASKED), [U.Asking(1)], 1, false, [U.Begun(0), U.StartSent(0, 1)])
  {
    hide Run, Reachable;
    s := Extend(s0, UiStep(U.ListenerReady(0, true)));
  }

  /** The gate asks its one window. */
  lemma GateAsks(s0: Shell) returns (s: Shell)
    requires Reachable(s0) && s0 == FRESH_SHELL.(ui := s0.ui) && U.StartSent(0, 1) in s0.ui.log
    ensures Reachable(s) && s.ui == s0.ui && s.served == {1}
    ensures s.gate.gate == Gate(1, GL.EDITOR, Some(FreshRound(1, GL.EDITOR, 0)), None, false)
    ensures s.gate.log == [G.Opened(1, GL.EDITOR)] && s.gate.now == 0
    ensures s.gate.pcs == map[1 := G.Looping(1, GL.EDITOR)]
  {
    hide Run, Reachable;
    s := Extend(s0, GateStep(G.DoRegister(2, "editor")));
    assert s.gate.gate.registered == GL.EDITOR;
    s := Extend(s, CallStart(1, 0, 1));
    s := Extend(s, GateStep(G.Announce(1, true)));
    s := Extend(s, GateStep(G.Advance(1)));
  }

  /** The invocation is rejected, no start event arrives, and the grace ends in a retry. */
  lemma SendsAgain(s0: Shell) returns (s: Shell)
    requires Reachable(s0)
    requires s0.ui == U.Ui(Waiting(ASKED), [U.Asking(1)], 1, false, [U.Begun(0), U.StartSent(0, 1)])
    ensures Reachable(s) && s == s0.(ui := s.ui)
    ensures s.ui.log == [U.Begun(0), U.StartSent(0, 1), U.Rejected(0, "lost"), U.StartSent(0, 2)]
  {
    hide Run, Reachable;
    var rejected := ASKED.(errors := ["lost"], graceTimer := true);
    s := Extend(s0, UiStep(U.StartSettles(0, None, "lost")));
    Rejected(s0.ui, rejected);
    s := Extend(s, UiStep(U.GraceTimer(0)));
    var again := rejected.(graceTimer := false, attempts := 2, attempt := Some(2), listening := None);
    assert s.ui == U.Ui(Waiting(again), [U.Listening(2)], 2, false, s0.ui.log + [U.Rejected(0, "lost")]);
    s := Extend(s, UiStep(U.ListenerReady(0, true)));
  }

  lemma Rejected(u: U.Ui, x: UR.Round)
    requires u == U.Ui(Waiting(ASKED), [U.Asking(1)], 1, false, [U.Begun(0), U.StartSent(0, 1)])
    requires x == ASKED.(errors := ["lost"], graceTimer := true)
    ensures U.Apply(u, U.StartSettles(0, None, "lost")) == U.Ui(Waiting(x), [U.Resting], 1, false, u.log + [U.Rejected(0, "lost")])
  {
    assert [] + ["lost"] == ["lost"];
    var app := UR.HandleNormal(u.app, 0, 1, None, "lost");
    assert app.rounds == [x];
    assert U.Seen(ASKED, x, 0, U.ByFailure, None) == [];
    assert u.log + [U.Rejected(0, "lost")] + [] + [] == u.log + [U.Rejected(0, "lost")];
  }

  /** The window consents to the first round and refuses the second. */
  lemma GateLoses(s0: Shell) returns (s: Shell)
    requires Reachable(s0) && U.StartSent(0, 2) in s0.ui.log && s0.served == {1}
    requires s0.gate.gate == Gate(1, GL.EDITOR, Some(FreshRound(1, GL.EDITOR, 0)), None, false)
    requires s0.gate.log == [G.Opened(1, GL.EDITOR)] && s0.gate.now == 0
    requires s0.gate.pcs == map[1 := G.Looping(1, GL.EDITOR)]
    ensures Reachable(s) && s.ui == s0.ui && s.gate.log == GL.ThenRefusal()
  {
    hide Run, Reachable;
    assert GL.EDITOR - {"editor"} == {} && {} + {"editor"} == GL.EDITOR;
    s := Extend(s0, GateStep(G.DoResolve(2, "editor", 1, true)));
    assert s.gate.log == GL.Consent();
    s := Extend(s, CallStart(3, 0, 2));
    assert s.gate.gate.round == Some(FreshRound(2, GL.EDITOR, 0));
    s := Extend(s, GateStep(G.DoResolve(4, "editor", 2, false)));
  }

  /** One close of the window is enough to lose a consented exit: its first
      invocation is rejected on the way back, and the retry opens the round that
      takes the slot. */
  lemma WindowCanLoseExit() returns (s: Shell)
    ensures Reachable(s) && G.HasEndedAs(s.gate.log, 1, Exiting(1)) && !GL.CanExit(s.gate, 1)
    ensures G.Answered(1, "editor", true) in s.gate.log
    ensures forall x | x in s.ui.log && x.Begun? :: x.round == 0
  {
    s := SendsOnce();
    s := GateAsks(s);
    s := SendsAgain(s);
    s := GateLoses(s);
    RefusalLoses(s);
  }

  lemma RefusalLoses(s: Shell)
    requires Reachable(s) && s.gate.log == GL.ThenRefusal()
    ensures G.HasEndedAs(s.gate.log, 1, Exiting(1)) && !GL.CanExit(s.gate, 1)
    ensures G.Answered(1, "editor", true) in s.gate.log
  {
    hide Reachable, G.Reachable, U.Reachable, GL.CanExit, Cross, Calls;
    ReachableInv(s);
    GL.RefusalEnds();
    GL.ExitReachableIff(s.gate, 1);
    assert GL.ThenRefusal()[1] in s.gate.log;
  }
}
