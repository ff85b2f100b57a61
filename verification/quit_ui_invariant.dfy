/** Every step of every run of the main window keeps the invariant. */
module QuitUiInvariant {
  import opened Wrappers
  import opened QuitUiRules
  import opened QuitUiRuns

  // ----- the log ------------------------------------------------------------------------------

  lemma LawfulAppend(h: History, ev: Event)
    requires Lawful(h) && Legal(h, ev)
    ensures Lawful(h + [ev])
  {
    hide Legal;
    var h' := h + [ev];
    forall i | 0 <= i < |h'| ensures Legal(h'[..i], h'[i]) {
      assert h'[..i] == h[..i];
      if i == |h| { assert h[..i] == h; }
    }
  }

  lemma MarksAppend(h: History, ev: Event, r: nat)
    ensures MarksOf(h + [ev], r) == if ev.round == r then Marked(MarksOf(h, r), ev) else MarksOf(h, r)
  {
    assert (h + [ev])[..|h|] == h;
  }

  function MarkedAll(m: Marks, evs: History): Marks
    decreases |evs|
  {
    if evs == [] then m else MarkedAll(Marked(m, evs[0]), evs[1..])
  }

  /** Events of round `r` other than its beginning and its attempts. */
  predicate PermitsAll(m: Marks, evs: History, r: nat)
    decreases |evs|
  {
    evs == [] ||
    (evs[0].round == r && !evs[0].Begun? && !evs[0].StartSent? && Permits(m, evs[0]) &&
     PermitsAll(Marked(m, evs[0]), evs[1..], r))
  }

  lemma {:induction false} AppendAll(h: History, evs: History, r: nat)
    requires Lawful(h) && PermitsAll(MarksOf(h, r), evs, r)
    ensures Lawful(h + evs)
    ensures MarksOf(h + evs, r) == MarkedAll(MarksOf(h, r), evs)
    ensures forall q | q != r :: MarksOf(h + evs, q) == MarksOf(h, q)
    ensures forall x | x in evs :: x.round == r && !x.StartSent?
    decreases |evs|
  {
    hide Lawful, MarksOf, Marked, Permits;
    if evs == [] {
      assert h + evs == h;
    } else {
      var h' := h + [evs[0]];
      LawfulAppend(h, evs[0]);
      forall q ensures MarksOf(h', q) == if q == r then Marked(MarksOf(h, q), evs[0]) else MarksOf(h, q) {
        MarksAppend(h, evs[0], q);
      }
      AppendAll(h', evs[1..], r);
      assert h' + evs[1..] == h + evs;
    }
  }

  lemma NoEvents(m: Marks, r: nat)
    ensures PermitsAll(m, [], r) && MarkedAll(m, []) == m
  {
  }

  lemma OneEvent(m: Marks, ev: Event)
    requires Permits(m, ev) && !ev.Begun? && !ev.StartSent?
    ensures PermitsAll(m, [ev], ev.round) && MarkedAll(m, [ev]) == Marked(m, ev)
  {
    assert [ev][1..] == [];
  }

  // ----- a step of one round -----------------------------------------------------------------------

  /** Only round `r` changes. */
  ghost predicate Local(u: Ui, u': Ui, r: nat, evs: History) {
    && Known(u, r) && Known(u', r)
    && u'.app.rounds == u.app.rounds[r := u'.app.rounds[r]]
    && u'.pcs == u.pcs[r := u'.pcs[r]]
    && u'.log == u.log + evs
    && (u'.app.active == u.app.active || (u.app.active == Some(r) && u'.app.active.None?))
  }

  lemma LocalKeeps(u: Ui, u': Ui, r: nat, evs: History)
    requires Inv(u) && Local(u, u', r, evs)
    requires PermitsAll(MarksOf(u.log, r), evs, r)
    requires RoundOk(u'.app.rounds[r], u'.pcs[r], MarkedAll(MarksOf(u.log, r), evs), u'.app.active == Some(r))
    requires ScreenOk(u') && AttemptsOk(u') && StatusOk(u')
    ensures Inv(u')
  {
    hide Lawful, MarksOf, PermitsAll, MarkedAll, RoundOk, ScreenOk, AttemptsOk, StatusOk;
    AppendAll(u.log, evs, r);
    assert RoundsOk(u');
  }

  lemma AtRound(u: Ui, r: nat)
    requires Inv(u) && r < |u.app.rounds|
    ensures RoundOk(u.app.rounds[r], u.pcs[r], MarksOf(u.log, r), u.app.active == Some(r))
    ensures u.app.active == Some(r) || u.app.active.None? || u.app.rounds[r].ended
  {
    hide Lawful, MarksOf, RoundOk, AttemptsOk;
  }

  /** Screens agree when only round `r` changed and the active round's state matches it. */
  lemma ScreenKept(u: Ui, u': Ui, r: nat, evs: History)
    requires ScreenOk(u) && Local(u, u', r, evs) && u'.disposed == u.disposed
    requires u'.app.rounds[r].ended == u.app.rounds[r].ended
    requires u'.app.active == u.app.active && u'.app.inProgress == u.app.inProgress && u'.app.status == u.app.status
    requires u.app.active != Some(r) ==>
               && u'.app.offerVisible == u.app.offerVisible && u'.app.dialogVisible == u.app.dialogVisible
    requires u.app.active == Some(r) ==>
               && u'.app.offerVisible == u'.app.rounds[r].offer && u'.app.dialogVisible == u'.app.rounds[r].dialog
    ensures ScreenOk(u')
  {
  }

  lemma ScreenEnded(u: Ui, u': Ui, r: nat, evs: History)
    requires ScreenOk(u) && Local(u, u', r, evs) && u'.disposed == u.disposed && u.app.active == Some(r)
    requires u'.app.rounds[r].ended && u'.app.active.None? && !u'.app.inProgress && u'.app.status != WaitingToQuit
    requires !u'.app.offerVisible && !u'.app.dialogVisible
    ensures ScreenOk(u')
  {
  }

  lemma AttemptsKept(u: Ui, u': Ui, r: nat, evs: History)
    requires AttemptsOk(u) && Local(u, u', r, evs) && u'.lastAttempt == u.lastAttempt
    requires forall x | x in evs :: !x.StartSent?
    requires u'.pcs[r].Listening? ==> u'.pcs[r] == u.pcs[r]
    ensures AttemptsOk(u')
  {
  }

  /** A quit is in progress while a round is active. */
  lemma Busy(u: Ui)
    requires ScreenOk(u) && u.app.active.Some?
    ensures u.app.inProgress
  {
  }

  /** A handler that leaves the round active. */
  lemma StaysKeeps(u: Ui, u': Ui, r: nat, evs: History)
    requires Inv(u) && Local(u, u', r, evs) && u.app.active == Some(r) && u'.app.active == Some(r)
    requires u'.disposed == u.disposed && u'.lastAttempt == u.lastAttempt
    requires u'.app.inProgress == u.app.inProgress && u'.app.status == u.app.status
    requires u'.app.offerVisible == u'.app.rounds[r].offer && u'.app.dialogVisible == u'.app.rounds[r].dialog
    requires PermitsAll(MarksOf(u.log, r), evs, r)
    requires RoundOk(u'.app.rounds[r], u'.pcs[r], MarkedAll(MarksOf(u.log, r), evs), true)
    requires u'.pcs[r].Listening? ==> u'.pcs[r] == u.pcs[r]
    ensures Inv(u')
  {
    hide Lawful, MarksOf, PermitsAll, MarkedAll, ScreenOk, AttemptsOk;
    Busy(u);
    AtRound(u, r);
    AppendAll(u.log, evs, r);
    ScreenKept(u, u', r, evs);
    AttemptsKept(u, u', r, evs);
    hide RoundOk;
    LocalKeeps(u, u', r, evs);
  }

  /** What the end of a round must agree with. */
  predicate EndingOk(x: Round, status: Status, m: Marks) {
    && m.begun && m.sends <= 2 && m.Over()
    && x.epoch == m.bound && x.errors == m.rejected && x.suppressed == m.suppressed
    && (x.epoch.Some? ==> IsLiveEpoch(x.epoch.value))
    && status != WaitingToQuit && ShowsEnding(status, m)
  }

  /** A handler that ends the round. */
  lemma EndsKeeps(u: Ui, u': Ui, r: nat, evs: History, x: Round)
    requires Inv(u) && Local(u, u', r, evs) && u.app.active == Some(r)
    requires u'.disposed == u.disposed && u'.lastAttempt == u.lastAttempt
    requires u'.app.rounds[r] == Over(x) && u'.app == App(u'.app.rounds, None, false, u'.app.status, false, false)
    requires PermitsAll(MarksOf(u.log, r), evs, r) && EndingOk(x, u'.app.status, MarkedAll(MarksOf(u.log, r), evs))
    requires u'.pcs[r].Listening? ==> u'.pcs[r] == u.pcs[r]
    ensures Inv(u')
  {
    hide Lawful, MarksOf, ScreenOk, AttemptsOk, PermitsAll, MarkedAll, RoundsOk, ShowsEnding;
    AtActive(u, r);
    AppendAll(u.log, evs, r);
    ScreenEnded(u, u', r, evs);
    AttemptsKept(u, u', r, evs);
    assert StatusOk(u');
    LocalKeeps(u, u', r, evs);
  }

  // ----- rounds that are not active ---------------------------------------------------------------

  /** Nothing but the flush and the attempt's place changes in a round that is not active. */
  lemma IdleKeeps(u: Ui, u': Ui, r: nat)
    requires Inv(u) && Known(u, r) && u.app.active != Some(r)
    requires Known(u', r) && u'.app == u.app.With(r, u'.app.rounds[r]) && u'.pcs == u.pcs[r := u'.pcs[r]]
    requires u' == u.(app := u'.app, pcs := u'.pcs)
    requires u'.app.rounds[r] == u.app.rounds[r].(flush := u'.app.rounds[r].flush)
    ensures Inv(u')
  {
    hide Lawful, MarksOf, ScreenOk, AttemptsOk, ShowsEnding;
    AtRound(u, r);
    assert u.log + [] == u.log;
    NoEvents(MarksOf(u.log, r), r);
    ScreenKept(u, u', r, []);
    assert AttemptsOk(u') by { AttemptsIdle(u, u', r); }
    LocalKeeps(u, u', r, []);
  }

  lemma AttemptsIdle(u: Ui, u': Ui, r: nat)
    requires AttemptsOk(u) && Known(u, r) && u.app.active != Some(r) && u'.app.active == u.app.active
    requires Known(u', r) && u'.pcs == u.pcs[r := u'.pcs[r]] && u'.log == u.log && u'.lastAttempt == u.lastAttempt
    requires |u'.app.rounds| == |u.app.rounds|
    ensures AttemptsOk(u')
  {
  }

  // ----- the attempts -------------------------------------------------------------------------------

  lemma CloseKeeps(u: Ui)
    requires Inv(u)
    ensures Inv(Apply(u, CloseWindow))
  {
    hide Lawful, MarksOf;
    if !u.app.inProgress {
      var n := |u.app.rounds|;
      Unmarked(u.log, n);
      forall r | 0 <= r < n ensures MarksOf(u.log, r).Over() { AtRound(u, r); }
      LawfulAppend(u.log, Begun(n));
      forall r ensures MarksOf(u.log + [Begun(n)], r) ==
                       if r == n then Marked(MarksOf(u.log, n), Begun(n)) else MarksOf(u.log, r) {
        MarksAppend(u.log, Begun(n), r);
      }
    }
  }

  lemma {:induction false} Unmarked(h: History, r: nat)
    requires forall x | x in h :: x.round != r
    ensures MarksOf(h, r) == UNMARKED
  {
    if h != [] { Unmarked(h[..|h| - 1], r); }
  }

  /** An attempt of the active round gets the next number. */
  lemma AttemptKeeps(u: Ui, r: nat, u': Ui)
    requires Inv(u) && Known(u, r) && u.app.Stands(r)
    requires u.pcs[r].Flushing? || (u.pcs[r].Resting? && u.app.rounds[r].graceTimer && u.app.rounds[r].epoch.None?)
    requires u' == AfterFlush(u.(app := FlushSettled(u.app, r)), r).(app := u'.app)
    requires var x := u.app.rounds[r];
             u'.app == u.app.With(r, x.(flush := Settled, graceTimer := false, attempts := x.attempts + 1,
                                        attempt := Some(u.lastAttempt + 1), listening := None))
    ensures Inv(u')
  {
    hide Lawful, MarksOf, ScreenOk;
    Busy(u);
    AtRound(u, r);
    assert u.log + [] == u.log;
    NoEvents(MarksOf(u.log, r), r);
    assert ScreenOk(u') by { assert u'.app.rounds[r].offer == u.app.rounds[r].offer; SameScreen(u, u', r); }
    LocalKeeps(u, u', r, []);
  }

  lemma SameScreen(u: Ui, u': Ui, r: nat)
    requires ScreenOk(u) && u.app.Stands(r) && u'.disposed == u.disposed
    requires |u'.app.rounds| == |u.app.rounds| && u'.app == u.app.With(r, u'.app.rounds[r])
    requires u'.app.rounds[r].offer == u.app.rounds[r].offer && u'.app.rounds[r].dialog == u.app.rounds[r].dialog
    requires !u'.app.rounds[r].ended
    ensures ScreenOk(u')
  {
  }

  lemma FlushSettlesKeeps(u: Ui, r: nat)
    requires Inv(u) && Enabled(u, FlushSettles(r))
    ensures Inv(Apply(u, FlushSettles(r)))
  {
    hide Inv, MarksOf;
    AtRound(u, r);
    if u.app.Stands(r) {
      AttemptKeeps(u, r, Apply(u, FlushSettles(r)));
    } else {
      IdleKeeps(u, Apply(u, FlushSettles(r)), r);
    }
  }

  lemma GraceTimerKeeps(u: Ui, r: nat)
    requires Inv(u) && Enabled(u, GraceTimer(r))
    ensures Inv(Apply(u, GraceTimer(r)))
  {
    hide Inv, MarksOf, AfterFlush;
    AtRound(u, r);
    var u' := Apply(u, GraceTimer(r));
    if u.app.rounds[r].epoch.None? {
      RetryState(u, r);
      AttemptKeeps(u, r, u');
    } else {
      NoEvents(MarksOf(u.log, r), r);
      GraceOver(u, r);
      StaysKeeps(u, u', r, []);
    }
  }

  lemma GraceOver(u: Ui, r: nat)
    requires Inv(u) && Enabled(u, GraceTimer(r)) && u.app.active == Some(r) && u.app.rounds[r].epoch.Some?
    ensures Local(u, Apply(u, GraceTimer(r)), r, [])
    ensures u.app.offerVisible == u.app.rounds[r].offer && u.app.dialogVisible == u.app.rounds[r].dialog
  {
    hide Lawful, MarksOf, RoundOk;
  }

  lemma RetryState(u: Ui, r: nat)
    requires Known(u, r) && u.app.Stands(r) && u.app.rounds[r].graceTimer && u.app.rounds[r].epoch.None?
    requires u.app.rounds[r].flush == Settled && u.pcs[r].Resting?
    ensures var x := u.app.rounds[r];
            var app := u.app.With(r, x.(flush := Settled, graceTimer := false, attempts := x.attempts + 1,
                                        attempt := Some(u.lastAttempt + 1), listening := None));
            Apply(u, GraceTimer(r)) == AfterFlush(u.(app := FlushSettled(u.app, r)), r).(app := app)
  {
    var x := u.app.rounds[r].(graceTimer := false);
    var w := u.(app := GraceEnds(u.app, r));
    TwiceWith(u.app, r, x, x.(attempts := x.attempts + 1, attempt := Some(u.lastAttempt + 1), listening := None));
    assert Apply(u, GraceTimer(r)) == AfterFlush(w, r);
  }

  lemma TwiceWith(app: App, r: nat, x: Round, y: Round)
    requires r < |app.rounds|
    ensures app.With(r, x).With(r, y) == app.With(r, y)
  {
    assert app.rounds[r := x][r := y] == app.rounds[r := y];
  }

  lemma ListenerReadyKeeps(u: Ui, r: nat, heard: bool)
    requires Inv(u) && Enabled(u, ListenerReady(r, heard))
    ensures Inv(Apply(u, ListenerReady(r, heard)))
  {
    hide Inv, Lawful, MarksOf;
    AtRound(u, r);
    var a := u.pcs[r].attempt;
    var u' := Apply(u, ListenerReady(r, heard));
    if StillCurrent(u.app, r, a) {
      assert u'.log == u.log + [StartSent(r, a)];
      SendKeeps(u, r, u');
    } else if u.app.active != Some(r) {
      IdleKeeps(u, u', r);
    }
  }

  /** The prepared attempt is sent. */
  lemma SendKeeps(u: Ui, r: nat, u': Ui)
    requires Inv(u) && Known(u, r) && Known(u', r) && u.pcs[r].Listening? && u.app.Stands(r)
    requires var a, x := u.pcs[r].attempt, u.app.rounds[r];
             && u' == u.(app := u.app.With(r, x.(listening := u'.app.rounds[r].listening)),
                         pcs := u.pcs[r := Asking(a)], log := u.log + [StartSent(r, a)])
             && (u'.app.rounds[r].listening == None || u'.app.rounds[r].listening == Some(a))
    ensures Inv(u')
  {
    hide Lawful, MarksOf, ScreenOk, AttemptsOk, RoundOk;
    Busy(u);
    AtRound(u, r);
    SentLog(u, r, u.pcs[r].attempt);
    SentRound(u.app.rounds[r], u'.app.rounds[r], u.pcs[r], MarksOf(u.log, r), StartSent(r, u.pcs[r].attempt));
    SameScreen(u, u', r);
    assert AttemptsOk(u') by { SentAttempts(u, r, u'); }
  }

  lemma SentLog(u: Ui, r: nat, a: nat)
    requires Inv(u) && Known(u, r) && u.app.Stands(r) && u.pcs[r] == Listening(a)
    ensures Lawful(u.log + [StartSent(r, a)])
    ensures forall q :: MarksOf(u.log + [StartSent(r, a)], q) ==
              if q == r then Marked(MarksOf(u.log, r), StartSent(r, a)) else MarksOf(u.log, q)
  {
    hide Lawful, MarksOf, ScreenOk;
    AtRound(u, r);
    LawfulAppend(u.log, StartSent(r, a));
    forall q ensures MarksOf(u.log + [StartSent(r, a)], q) ==
                     if q == r then Marked(MarksOf(u.log, r), StartSent(r, a)) else MarksOf(u.log, q) {
      MarksAppend(u.log, StartSent(r, a), q);
    }
  }

  lemma SentRound(x: Round, x': Round, pc: Pc, m: Marks, ev: Event)
    requires RoundOk(x, pc, m, true) && pc.Listening? && ev.StartSent?
    requires x' == x.(listening := x'.listening) && (x'.listening == None || x'.listening == Some(pc.attempt))
    ensures RoundOk(x', Asking(pc.attempt), Marked(m, ev), true)
  {
  }

  lemma SentAttempts(u: Ui, r: nat, u': Ui)
    requires AttemptsOk(u) && Known(u, r) && u.app.active == Some(r) && u.pcs[r].Listening?
    requires u'.log == u.log + [StartSent(r, u.pcs[r].attempt)] && u'.lastAttempt == u.lastAttempt
    requires Known(u', r) && u'.app.active == Some(r) && u'.pcs[r].Asking?
    ensures AttemptsOk(u')
  {
  }

  // ----- binding and ending --------------------------------------------------------------------------

  /** What is known of the active round. */
  lemma AtActive(u: Ui, r: nat)
    requires Inv(u) && u.app.active == Some(r)
    ensures Known(u, r) && u.app.Stands(r) && r == |u.app.rounds| - 1
    ensures RoundOk(u.app.rounds[r], u.pcs[r], MarksOf(u.log, r), true)
    ensures u.app.offerVisible == u.app.rounds[r].offer && u.app.dialogVisible == u.app.rounds[r].dialog
  {
    hide Lawful, MarksOf, AttemptsOk;
  }

  lemma BindSeen(app: App, r: nat, epoch: int, how: How, about: Option<Said>)
    requires app.Stands(r) && IsLiveEpoch(epoch)
    requires app.rounds[r].epoch.Some? ==> app.rounds[r].epoch.value == epoch
    requires app.offerVisible == app.rounds[r].offer
    ensures var x, app' := app.rounds[r], Bind(app, r, epoch);
            && Seen(x, app'.rounds[r], r, how, about) == BindEvents(x, r, epoch)
            && |app'.rounds| == |app.rounds| && app' == app.With(r, app'.rounds[r]).(offerVisible := app'.rounds[r].offer)
            && app'.rounds[r] == x.(epoch := Some(epoch), offer := app'.rounds[r].offer)
            && (app'.rounds[r].offer <==> x.offer || (x.earned && !x.suppressed && !x.dialog))
  {
  }

  function BindEvents(x: Round, r: nat, epoch: nat): History {
    if x.epoch.None? then [Bound(r, epoch)] else []
  }

  lemma BindMarks(x: Round, x': Round, r: nat, epoch: nat, pc: Pc, pc': Pc, m: Marks)
    requires RoundOk(x, pc, m, true) && IsLiveEpoch(epoch) && (x.epoch.Some? ==> x.epoch.value == epoch)
    requires m.sends >= 1 && !pc.Listening? && !pc.Flushing? && (pc' == pc || (pc' == Resting && pc.Asking?))
    requires x' == x.(epoch := Some(epoch), offer := x'.offer)
    requires x'.offer <==> x.offer || (x.earned && !x.suppressed && !x.dialog)
    ensures PermitsAll(m, BindEvents(x, r, epoch), r)
    ensures RoundOk(x', pc', MarkedAll(m, BindEvents(x, r, epoch)), true)
  {
    if x.epoch.None? { OneEvent(m, Bound(r, epoch)); } else { NoEvents(m, r); }
  }

  /** The bound round goes on, now or still with this epoch. */
  lemma BindKeeps(u: Ui, r: nat, epoch: int, pc: Pc, how: How, about: Option<Said>)
    requires Inv(u) && u.app.active == Some(r) && Known(u, r)
    requires IsLiveEpoch(epoch) && (u.app.rounds[r].epoch.Some? ==> u.app.rounds[r].epoch.value == epoch)
    requires MarksOf(u.log, r).sends >= 1 && !u.pcs[r].Listening? && !u.pcs[r].Flushing?
    requires pc == u.pcs[r] || (pc == Resting && u.pcs[r].Asking?)
    ensures Inv(Move(u, r, Bind(u.app, r, epoch), pc, how, about, []))
  {
    hide Inv, MarksOf, RoundOk, Bind, PermitsAll, MarkedAll, BindEvents, Seen;
    AtActive(u, r);
    BindSeen(u.app, r, epoch, how, about);
    var x := u.app.rounds[r];
    var u' := Move(u, r, Bind(u.app, r, epoch), pc, how, about, []);
    BindMarks(x, u'.app.rounds[r], r, epoch, u.pcs[r], pc, MarksOf(u.log, r));
    assert u'.log == u.log + BindEvents(x, r, epoch);
    StaysKeeps(u, u', r, BindEvents(x, r, epoch));
  }

  /** The round ends by a reply. */
  lemma EndKeeps(u: Ui, r: nat, status: Status, pc: Pc, how: How, said: Said)
    requires Inv(u) && u.app.active == Some(r) && Known(u, r) && status != WaitingToQuit
    requires Ends(how, said.reply.kind) && how != ByFailure
    requires u.app.rounds[r].epoch.Some? ==> u.app.rounds[r].epoch == Some(said.epoch)
    requires ShowsEnding(status, UNMARKED.(end := Some(Ending(how, Some(said)))))
    requires pc == u.pcs[r] || pc == Resting
    ensures Inv(Move(u, r, End(u.app, r, status), pc, how, Some(said), []))
  {
    hide Inv, MarksOf;
    AtActive(u, r);
    var x, ev := u.app.rounds[r], Ended(r, how, Some(said));
    var u' := Move(u, r, End(u.app, r, status), pc, how, Some(said), []);
    assert u'.log == u.log + [ev];
    OneEvent(MarksOf(u.log, r), ev);
    EndsKeeps(u, u', r, [ev], x);
  }

  /** Nothing about the round changes but the place of its attempt. */
  lemma RestKeeps(u: Ui, r: nat, pc: Pc, how: How, about: Option<Said>, more: History)
    requires Inv(u) && u.app.active == Some(r)
    requires pc == u.pcs[r] || (pc == Resting && u.pcs[r].Asking?)
    requires PermitsAll(MarksOf(u.log, r), more, r)
    requires RoundOk(u.app.rounds[r], pc, MarkedAll(MarksOf(u.log, r), more), true)
    ensures Inv(Move(u, r, u.app, pc, how, about, more))
  {
    hide Inv, MarksOf, RoundOk, PermitsAll, MarkedAll;
    AtActive(u, r);
    var u' := Move(u, r, u.app, pc, how, about, more);
    assert Seen(u.app.rounds[r], u.app.rounds[r], r, how, about) == [];
    assert u'.log == u.log + more;
    StaysKeeps(u, u', r, more);
  }

  lemma EndByKeeps(u: Ui, r: nat, reply: Reply, pc: Pc, about: Option<Said>)
    requires Inv(u) && u.app.active == Some(r) && about.Some?
    requires about.value.reply == reply
    requires u.app.rounds[r].epoch.Some? ==> u.app.rounds[r].epoch == Some(about.value.epoch)
    requires pc == u.pcs[r] || (pc == Resting && u.pcs[r].Asking?)
    requires pc == u.pcs[r] || reply.kind.Exiting? || reply.kind.Aborted? || reply.kind.Stale?
    ensures Inv(Move(u, r, EndBy(u.app, r, reply), pc, HowOf(reply.kind), about, []))
  {
    hide Inv, MarksOf;
    AtActive(u, r);
    match reply.kind
    case Exiting => EndKeeps(u, r, Hidden, pc, ByExit, about.value);
    case Aborted => EndKeeps(u, r, AbortedStatus(reply), pc, ByAbort, about.value);
    case Stale => EndKeeps(u, r, Hidden, pc, ByStale, about.value);
    case _ =>
      NoEvents(MarksOf(u.log, r), r);
      RestKeeps(u, r, pc, HowOf(reply.kind), about, []);
  }

  // ----- the result of an attempt -----------------------------------------------------------------------

  lemma AnsweredKeeps(u: Ui, r: nat, result: Option<Reply>, error: string)
    requires Inv(u) && Enabled(u, StartSettles(r, result, error))
    ensures Inv(Answered(u, r, result, error))
  {
    hide Inv, MarksOf;
    AtRound(u, r);
    if u.app.active != Some(r) {
      assert !u.app.Stands(r);
      assert u.log + [] + [] == u.log;
      IdleKeeps(u, Answered(u, r, result, error), r);
    } else {
      AtActive(u, r);
      if result.None? { RejectedKeeps(u, r, error); } else { RepliedKeeps(u, r, result.value, error); }
    }
  }

  lemma RejectedKeeps(u: Ui, r: nat, error: string)
    requires Inv(u) && Enabled(u, StartSettles(r, None, error)) && u.app.active == Some(r)
    ensures Inv(Answered(u, r, None, error))
  {
    hide Inv, MarksOf;
    AtActive(u, r);
    var x := u.app.rounds[r];
    var m := MarksOf(u.log, r);
    var u' := Answered(u, r, None, error);
    var ev := Rejected(r, error);
    if x.epoch.Some? {
      NoEvents(m, r);
      assert u.log + [] == u.log;
      RestKeeps(u, r, Resting, ByFailure, None, []);
    } else if x.attempts <= 1 {
      OneEvent(m, ev);
      assert u'.log == u.log + [ev];
      StaysKeeps(u, u', r, [ev]);
    } else {
      FailedMarks(m, ev, Ended(r, ByFailure, None));
      FailedWorld(u, r, error);
      EndsKeeps(u, u', r, [ev, Ended(r, ByFailure, None)], x.(errors := x.errors + [error]));
    }
  }

  lemma FailedMarks(m: Marks, ev: Event, end: Event)
    requires Permits(m, ev) && ev.Rejected? && end == Ended(ev.round, ByFailure, None)
    requires m.sends == 2 && m.bound.None?
    ensures PermitsAll(m, [ev, end], ev.round)
    ensures MarkedAll(m, [ev, end]) == m.(rejected := m.rejected + [ev.error], end := Some(Ending(ByFailure, None)))
  {
    assert [ev, end][1..] == [end] && [end][1..] == [];
    OneEvent(Marked(m, ev), end);
  }

  lemma FailedWorld(u: Ui, r: nat, error: string)
    requires Enabled(u, StartSettles(r, None, error)) && StillCurrent(u.app, r, u.pcs[r].attempt)
    requires u.app.rounds[r].epoch.None? && u.app.rounds[r].attempts > 1
    ensures var x, u' := u.app.rounds[r].(errors := u.app.rounds[r].errors + [error]), Answered(u, r, None, error);
            && u'.log == u.log + [Rejected(r, error), Ended(r, ByFailure, None)]
            && u'.app == App(u.app.rounds[r := Over(x)], None, false, QuitFailed(x.errors), false, false)
            && u'.pcs == u.pcs[r := Resting]
  {
    var x := u.app.rounds[r].(errors := u.app.rounds[r].errors + [error]);
    assert u.app.rounds[r := x][r := Over(x)] == u.app.rounds[r := Over(x)];
    assert Seen(u.app.rounds[r], Over(x), r, ByFailure, None) == [Ended(r, ByFailure, None)];
    assert u.log + [Rejected(r, error)] + [Ended(r, ByFailure, None)] + [] ==
           u.log + [Rejected(r, error), Ended(r, ByFailure, None)];
  }

  lemma RepliedKeeps(u: Ui, r: nat, reply: Reply, error: string)
    requires Inv(u) && Enabled(u, StartSettles(r, Some(reply), error)) && u.app.active == Some(r)
    ensures Inv(Answered(u, r, Some(reply), error))
  {
    hide Inv, MarksOf, EndBy, Bind;
    AtActive(u, r);
    var x := u.app.rounds[r];
    var m := MarksOf(u.log, r);
    if x.epoch.None? && Unhelpful(reply) {
      EndByNothing(u.app, r, reply);
      OneEvent(m, Unusable(r, reply));
      RestKeeps(u, r, Resting, HowOf(reply.kind), SaidBy(reply), [Unusable(r, reply)]);
    } else if !IsLiveEpoch(reply.epoch) || (x.epoch.Some? && x.epoch.value != reply.epoch) || reply.kind.Other? {
      EndByNothing(u.app, r, reply);
      NoEvents(m, r);
      RestKeeps(u, r, Resting, HowOf(reply.kind), SaidBy(reply), []);
    } else if reply.kind.InFlight? {
      BindKeeps(u, r, reply.epoch, Resting, HowOf(reply.kind), SaidBy(reply));
    } else {
      EndByKeeps(u, r, reply, Resting, SaidBy(reply));
    }
  }

  lemma EndByNothing(app: App, r: nat, reply: Reply)
    requires r < |app.rounds|
    ensures reply.kind.Other? ==> EndBy(app, r, reply) == app
  {
  }

  // ----- events, timers and clicks --------------------------------------------------------------------------

  /** A handler that changes nothing. */
  lemma StillKeeps(u: Ui, r: nat, how: How, about: Option<Said>)
    requires Inv(u) && Known(u, r)
    ensures Inv(Move(u, r, u.app, u.pcs[r], how, about, []))
  {
    hide Inv;
    assert Seen(u.app.rounds[r], u.app.rounds[r], r, how, about) == [];
    assert u.log + [] + [] == u.log;
    assert u.pcs[r := u.pcs[r]] == u.pcs;
  }

  lemma StartedKeeps(u: Ui, r: nat, listener: nat, sender: nat, attempt: nat, epoch: int)
    requires Inv(u) && Enabled(u, StartedArrives(r, listener, sender, attempt, epoch))
    ensures Inv(Apply(u, StartedArrives(r, listener, sender, attempt, epoch)))
  {
    hide Inv, MarksOf;
    var x := u.app.rounds[r];
    if !u.app.Stands(r) || x.attempt != Some(listener) || attempt != listener || !IsLiveEpoch(epoch) ||
       (x.epoch.Some? && x.epoch.value != epoch) {
      StillKeeps(u, r, ByFailure, None);
    } else {
      AtActive(u, r);
      SentBefore(u, r, sender, attempt);
      BindKeeps(u, r, epoch, u.pcs[r], ByFailure, None);
    }
  }

  /** An attempt that the backend knows of was sent. */
  lemma SentBefore(u: Ui, r: nat, sender: nat, attempt: nat)
    requires Inv(u) && u.app.active == Some(r) && StartSent(sender, attempt) in u.log
    requires u.app.rounds[r].attempt == Some(attempt)
    ensures !u.pcs[r].Listening? && !u.pcs[r].Flushing?
  {
    hide Lawful, MarksOf;
    AtActive(u, r);
  }

  lemma OutcomeKeeps(u: Ui, reply: Reply)
    requires Inv(u) && Enabled(u, OutcomeArrives(reply))
    ensures Inv(Apply(u, OutcomeArrives(reply)))
  {
    hide Inv, MarksOf, EndBy;
    if u.app.active.Some? {
      var r := u.app.active.value;
      AtActive(u, r);
      if Concerns(u.app, reply.epoch) {
        EndByKeeps(u, r, reply, u.pcs[r], SaidBy(reply));
      } else {
        StillKeeps(u, r, HowOf(reply.kind), SaidBy(reply));
      }
    }
  }

  lemma CancelledKeeps(u: Ui, epoch: int)
    requires Inv(u) && Enabled(u, CancelledArrives(epoch))
    ensures Inv(Apply(u, CancelledArrives(epoch)))
  {
    hide Inv, MarksOf;
    if u.app.active.Some? {
      var r := u.app.active.value;
      AtActive(u, r);
      if Concerns(u.app, epoch) {
        var u' := Apply(u, CancelledArrives(epoch));
        var m := MarksOf(u.log, r);
        NoEvents(m, r);
        if m.suppressed {
          assert u'.log == u.log + [];
          StaysKeeps(u, u', r, []);
        } else {
          OneEvent(m, Suppressed(r, epoch));
          assert u'.log == u.log + [Suppressed(r, epoch)];
          StaysKeeps(u, u', r, [Suppressed(r, epoch)]);
        }
      } else {
        StillKeeps(u, r, ByFailure, None);
      }
    }
  }

  lemma ForceTimerKeeps(u: Ui, r: nat)
    requires Inv(u) && Enabled(u, ForceTimer(r))
    ensures Inv(Apply(u, ForceTimer(r)))
  {
    hide Inv, MarksOf;
    AtRound(u, r);
    AtActive(u, r);
    var u' := Apply(u, ForceTimer(r));
    var m := MarksOf(u.log, r);
    OneEvent(m, Earned(r));
    assert u'.log == u.log + [Earned(r)];
    StaysKeeps(u, u', r, [Earned(r)]);
  }

  lemma OfferKeeps(u: Ui)
    requires Inv(u) && Enabled(u, Offer)
    ensures Inv(Apply(u, Offer))
  {
    hide Inv, MarksOf;
    if u.app.active.Some? {
      var r := u.app.active.value;
      AtActive(u, r);
      NoEvents(MarksOf(u.log, r), r);
      var u' := Apply(u, Offer);
      assert u'.log == u.log + [];
      StaysKeeps(u, u', r, []);
    }
  }

  lemma KeepWaitingKeeps(u: Ui)
    requires Inv(u) && Enabled(u, KeepWaiting)
    ensures Inv(Apply(u, KeepWaiting))
  {
    hide Inv, MarksOf;
    if u.app.active.Some? {
      var r := u.app.active.value;
      AtActive(u, r);
      NoEvents(MarksOf(u.log, r), r);
      var u' := Apply(u, KeepWaiting);
      assert u'.log == u.log + [];
      StaysKeeps(u, u', r, []);
    }
  }

  lemma ConfirmKeeps(u: Ui)
    requires Inv(u) && Enabled(u, Confirm)
    ensures Inv(Apply(u, Confirm))
  {
    hide Inv, MarksOf;
    if u.app.active.Some? && MayForce(u.app, u.app.active.value) {
      var r := u.app.active.value;
      AtActive(u, r);
      var ev := ForceSent(r, u.app.rounds[r].epoch.value);
      OneEvent(MarksOf(u.log, r), ev);
      var u' := Apply(u, Confirm);
      assert u.pcs[r := u.pcs[r]] == u.pcs && u.app.rounds[r := u.app.rounds[r]] == u.app.rounds;
      if u.app.rounds[r].flush == Settled { StaysKeeps(u, u', r, [ev]); }
    }
  }

  /** The epoch that Force was sent for is the round's. */
  lemma {:induction false} ForcedEpoch(h: History, r: nat, e: nat)
    requires Lawful(h) && ForceSent(r, e) in h
    ensures MarksOf(h, r).bound == Some(e)
  {
    var n := |h| - 1;
    var h' := h[..n];
    assert h == h' + [h[n]];
    MarksAppend(h', h[n], r);
    assert Legal(h', h[n]);
    Shorter(h, n);
    if h[n] != ForceSent(r, e) { ForcedEpoch(h', r, e); }
  }

  lemma Shorter(h: History, n: nat)
    requires Lawful(h) && n <= |h|
    ensures Lawful(h[..n])
  {
    hide Legal;
    forall i | 0 <= i < n ensures Legal(h[..n][..i], h[..n][i]) {
      assert h[..n][..i] == h[..i];
    }
  }

  lemma ForceSettlesKeeps(u: Ui, r: nat, e: nat, result: Option<Reply>)
    requires Inv(u) && Enabled(u, ForceSettles(r, e, result))
    ensures Inv(Apply(u, ForceSettles(r, e, result)))
  {
    hide Inv, MarksOf, EndBy, Lawful;
    if result.Some? {
      if u.app.Stands(r) {
        AtActive(u, r);
        assert Lawful(u.log) by { LogLawful(u); }
        ForcedEpoch(u.log, r, e);
        EndByKeeps(u, r, result.value, u.pcs[r], Some(Said(e, result.value)));
      } else {
        StillKeeps(u, r, HowOf(result.value.kind), Some(Said(e, result.value)));
      }
    }
  }

  lemma LogLawful(u: Ui)
    requires Inv(u)
    ensures Lawful(u.log)
  {
  }

  lemma DisposeKeeps(u: Ui)
    requires Inv(u) && Enabled(u, Dispose)
    ensures Inv(Apply(u, Dispose))
  {
    hide Lawful, MarksOf;
    if u.app.active.Some? { AtActive(u, u.app.active.value); }
  }

  // ----- every step and every run --------------------------------------------------------------------------------

  lemma StepInv(u: Ui, a: Action)
    requires Inv(u) && Enabled(u, a)
    ensures Inv(Apply(u, a))
  {
    hide Inv;
    match a
    case CloseWindow => CloseKeeps(u);
    case FlushSettles(r) => FlushSettlesKeeps(u, r);
    case ListenerReady(r, heard) => ListenerReadyKeeps(u, r, heard);
    case StartSettles(r, result, error) => AnsweredKeeps(u, r, result, error);
    case StartedArrives(r, listener, sender, attempt, epoch) => StartedKeeps(u, r, listener, sender, attempt, epoch);
    case OutcomeArrives(reply) => OutcomeKeeps(u, reply);
    case CancelledArrives(epoch) => CancelledKeeps(u, epoch);
    case ForceTimer(r) => ForceTimerKeeps(u, r);
    case GraceTimer(r) => GraceTimerKeeps(u, r);
    case Offer => OfferKeeps(u);
    case KeepWaiting => KeepWaitingKeeps(u);
    case Confirm => ConfirmKeeps(u);
    case ForceSettles(r, e, result) => ForceSettlesKeeps(u, r, e, result);
    case Dispose => DisposeKeeps(u);
  }

  lemma {:induction false} RunInv(u: Ui, acts: seq<Action>, u': Ui)
    requires Inv(u) && Run(u, acts, u')
    ensures Inv(u')
    decreases |acts|
  {
    hide Inv, Apply, Enabled;
    if acts != [] {
      StepInv(u, acts[0]);
      RunInv(Apply(u, acts[0]), acts[1..], u');
    }
  }

  lemma ReachableInv(u: Ui)
    requires Reachable(u)
    ensures Inv(u)
  {
    var acts :| Run(IDLE_UI, acts, u);
    assert Inv(IDLE_UI);
    RunInv(IDLE_UI, acts, u);
  }
}
