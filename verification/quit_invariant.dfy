/** Every step of every run of the quit gate keeps the invariant `Inv`. */
module QuitInvariant {
  import opened Wrappers
  import opened QuitRules
  import opened QuitRuns

  // ----- one event ------------------------------------------------------------------

  lemma PcGrows(pc: Pc, h: History, more: History)
    requires PcReflects(pc, h)
    ensures PcReflects(pc, h + more)
  {
    forall x | x in h ensures x in h + more {}
  }

  lemma CancelsAppend(h: History, ev: Event)
    requires CancelsFollow(h) && !(ev.Ended? && ev.outcome.Aborted?)
    ensures CancelsFollow(h + [ev])
  {
  }

  /** Events other than `Ended` leave every reading of the ended rounds alone. */
  lemma EndedSame(h: History, ev: Event)
    requires !ev.Ended?
    ensures forall e: nat :: HasEnded(h + [ev], e) <==> HasEnded(h, e)
    ensures forall e: nat, o: Outcome :: HasEndedAs(h + [ev], e, o) <==> HasEndedAs(h, e, o)
  {
    var h' := h + [ev];
    forall e: nat ensures HasEnded(h', e) <==> HasEnded(h, e) {
      if HasEnded(h', e) { var x :| x in h' && x.Ended? && x.epoch == e; assert x in h; }
      if HasEnded(h, e) { var x :| x in h && x.Ended? && x.epoch == e; assert x in h'; }
    }
    forall e: nat, o: Outcome ensures HasEndedAs(h', e, o) <==> HasEndedAs(h, e, o) {
      if HasEndedAs(h', e, o) { var x :| x in h' && x.Ended? && x.epoch == e && x.outcome == o; assert x in h; }
      if HasEndedAs(h, e, o) { var x :| x in h && x.Ended? && x.epoch == e && x.outcome == o; assert x in h'; }
    }
  }

  /** Events that neither open, end nor exit leave the gate's reading alone. */
  lemma SideEventReflects(g: Gate, h: History, ev: Event)
    requires GateReflects(g, h)
    requires !ev.Opened? && !ev.Ended? && !ev.ExitClaimed? && ev.epoch <= g.nextEpoch
    ensures GateReflects(g, h + [ev])
  {
    EndedSame(h, ev);
  }

  lemma SameDecisionsReflect(g: Gate, g': Gate, h: History)
    requires GateReflects(g, h) && SameDecisions(g, g')
    ensures GateReflects(g', h)
  {
    forall x | x in h && x.Opened? ensures HasEnded(h, x.epoch) || g'.Live(x.epoch) {
      assert HasEnded(h, x.epoch) || g.Live(x.epoch);
    }
  }

  /** An answer that counts is legal, and moves its gate out of the pending set. */
  lemma AnswerReflects(g: Gate, h: History, who: Label, consent: bool, r: Round)
    requires GateReflects(g, h) && AnswersReflect(g, h) && Lawful(h) && CancelsFollow(h)
    requires g.round.Some? && AnswerCounts(g, who, g.round.value.epoch)
    requires g.round.value.pending <= g.round.value.snapshot
    requires r.epoch == g.round.value.epoch && r.snapshot == g.round.value.snapshot
    requires r.pending == g.round.value.pending - {who}
    ensures var h' := h + [Answered(r.epoch, who, consent)];
            && Lawful(h') && CancelsFollow(h')
            && GateReflects(g.(round := Some(r)), h')
            && (consent ==> AnswersReflect(g.(round := Some(r)), h'))
  {
    var ev := Answered(r.epoch, who, consent);
    assert Legal(h, ev) by {
      assert HasOpened(h, r.epoch, r.snapshot) && who in r.snapshot;
      assert Opened(r.epoch, r.snapshot) in h;
    }
    LawfulAppend(h, ev);
    CancelsAppend(h, ev);
    SideEventReflects(g, h, ev);
    SameDecisionsReflect(g, g.(round := Some(r)), h + [ev]);
    if consent { ConsentReflects(g, h, who, r); }
  }

  lemma ConsentReflects(g: Gate, h: History, who: Label, r: Round)
    requires AnswersReflect(g, h) && g.round.Some? && who in g.round.value.pending
    requires r.epoch == g.round.value.epoch && r.snapshot == g.round.value.snapshot
    requires r.pending == g.round.value.pending - {who}
    ensures AnswersReflect(g.(round := Some(r)), h + [Answered(r.epoch, who, true)])
  {
  }

  /** A terminal result that is legal closes the round in the history as in the gate. */
  lemma EndReflects(g: Gate, h: History, g': Gate, ev: Event)
    requires ev.Ended? && GateReflects(g, h) && Ends(g, g', ev.outcome) && Legal(h, ev)
    requires ev.epoch == g.round.value.epoch
    requires g.terminal.Some? ==> g.terminal.value.epoch < ev.epoch
    ensures GateReflects(g', h + [ev]) && AnswersReflect(g', h + [ev])
  {
    var h' := h + [ev];
    assert ev in h';
    assert HasEndedAs(h', ev.epoch, ev.outcome);
    forall x | x in h' && x.Opened? ensures HasEnded(h', x.epoch) {
      assert x in h;
      if HasEnded(h, x.epoch) {
        var y :| y in h && y.Ended? && y.epoch == x.epoch;
        assert y in h';
      }
    }
    forall x | x in h' && x.ExitClaimed? ensures HasEnded(h', x.epoch) && x.epoch != ev.epoch {
      assert x in h && HasEnded(h, x.epoch);
      var y :| y in h && y.Ended? && y.epoch == x.epoch;
      assert y in h';
    }
  }

  /** The gates of an aborted round are told right after it ended. */
  lemma TellKept(h: History, ev: Event, told: Event)
    requires Lawful(h) && CancelsFollow(h) && Lawful(h + [ev])
    requires ev.Ended? && ev.outcome.Aborted?
    requires told.GatesTold? && told.epoch == ev.epoch && HasOpened(h, ev.epoch, told.gates)
    ensures Lawful(h + [ev] + [told]) && CancelsFollow(h + [ev] + [told])
  {
    var h1 := h + [ev];
    var h2 := h1 + [told];
    assert Legal(h1, told) by {
      assert Opened(ev.epoch, told.gates) in h1;
      assert h1[|h1| - 1] == ev;
    }
    LawfulAppend(h1, told);
    forall i | 0 <= i < |h2| && h2[i].Ended? && h2[i].outcome.Aborted?
      ensures i + 1 < |h2| && h2[i + 1].GatesTold? && h2[i + 1].epoch == h2[i].epoch
    {
      if i < |h| {
        assert h2[i] == h[i];
        assert h2[i + 1] == h[i + 1];
      }
    }
  }

  lemma EndedBounds(g: Gate, g': Gate, ev: Event)
    requires ev.Ended? && Ends(g, g', ev.outcome) && ev.epoch <= g.nextEpoch
    ensures g'.round.None? && ev.epoch <= g'.nextEpoch
  {
  }

  lemma NoRoundReflects(g: Gate, h: History)
    requires g.round.None?
    ensures AnswersReflect(g, h)
  {
  }

  lemma LiveOpened(g: Gate, h: History)
    requires GateReflects(g, h) && g.round.Some?
    ensures HasOpened(h, g.round.value.epoch, g.round.value.snapshot)
  {
  }

  /** The same, with the cancellation of an aborted round behind it. */
  lemma EndAndTell(g: Gate, h: History, sec: Section, ev: Event)
    requires g.round.Some? && ev.Ended? && GateReflects(g, h)
    requires Ends(g, sec.gate, ev.outcome) && Legal(h, ev)
    requires ev.epoch == g.round.value.epoch && ev.epoch <= g.nextEpoch
    requires g.terminal.Some? ==> g.terminal.value.epoch < ev.epoch
    requires Lawful(h) && CancelsFollow(h)
    requires ev.outcome.Aborted? <==> sec.effects.CancelRound?
    requires sec.effects.CancelRound? ==>
               sec.effects.epoch == ev.epoch && sec.effects.gates == g.round.value.snapshot
    ensures Lawful(h + [ev] + Told(sec)) && CancelsFollow(h + [ev] + Told(sec))
    ensures GateReflects(sec.gate, h + [ev] + Told(sec)) && AnswersReflect(sec.gate, h + [ev] + Told(sec))
  {
    hide Lawful, CancelsFollow, Legal, GateReflects, AnswersReflect, HasOpened, Ends;
    LiveOpened(g, h);
    LawfulAppend(h, ev);
    EndReflects(g, h, sec.gate, ev);
    if sec.effects.CancelRound? {
      TellKept(h, ev, GatesTold(sec.effects.epoch, sec.effects.gates));
      EndedBounds(g, sec.gate, ev);
      SideEventReflects(sec.gate, h + [ev], GatesTold(sec.effects.epoch, sec.effects.gates));
      NoRoundReflects(sec.gate, h + [ev] + Told(sec));
    } else {
      CancelsAppend(h, ev);
      assert h + [ev] + Told(sec) == h + [ev];
    }
  }

  // ----- the tasks ------------------------------------------------------------------

  /** What `s'` keeps for the tasks that did not move. */
  ghost predicate OthersKept(s: System, s': System) {
    && (exists more :: s'.log == s.log + more)
    && s.notified <= s'.notified
    && (s'.Quiet() && s'.notified == s.notified ==>
          s.Quiet() && s'.gate.terminal == s.gate.terminal &&
          forall e: nat {:trigger s'.gate.DeadlineFor(e)} ::
            e <= s.gate.nextEpoch ==> s'.gate.DeadlineFor(e) == s.gate.DeadlineFor(e))
  }

  lemma OtherTaskKept(s: System, s': System, pc: Pc)
    requires OthersKept(s, s') && GateReflects(s.gate, s.log)
    requires PcReflects(pc, s.log) && ViewCurrent(pc, s)
    ensures PcReflects(pc, s'.log) && ViewCurrent(pc, s')
  {
    var more :| s'.log == s.log + more;
    PcGrows(pc, s.log, more);
  }

  /** The parts of the invariant, for a step in which task `t` moves to `pc`. */
  lemma StepKept(s: System, s': System, t: nat, pc: Pc)
    requires Inv(s) && OthersKept(s, s')
    requires s'.pcs == s.pcs[t := pc]
    requires GateInv(s'.gate, s'.now, s'.unpaused)
    requires Lawful(s'.log) && CancelsFollow(s'.log)
    requires GateReflects(s'.gate, s'.log) && AnswersReflect(s'.gate, s'.log)
    requires PcReflects(pc, s'.log) && ViewCurrent(pc, s')
    ensures Inv(s')
  {
    forall u | u in s'.pcs ensures PcReflects(s'.pcs[u], s'.log) && ViewCurrent(s'.pcs[u], s') {
      if u != t { OtherTaskKept(s, s', s.pcs[u]); }
    }
  }

  /** A move of one task that leaves the gate alone and may log one side event. */
  lemma GotoKept(s: System, t: nat, pc: Pc, seen: History)
    requires Inv(s) && !s.At(t).Owing? && !pc.Owing?
    requires seen == [] || (|seen| == 1 && Legal(s.log, seen[0]) && seen[0].epoch <= s.gate.nextEpoch &&
                            !seen[0].Opened? && !seen[0].Ended? && !seen[0].ExitClaimed? && !seen[0].Answered?)
    requires PcReflects(pc, s.log + seen) && ViewCurrent(pc, Goto(s, t, pc, seen))
    ensures Inv(Goto(s, t, pc, seen))
  {
    var s' := Goto(s, t, pc, seen);
    if seen == [] {
      assert s'.log == s.log;
    } else {
      assert seen == [seen[0]];
      LawfulAppend(s.log, seen[0]);
      CancelsAppend(s.log, seen[0]);
      SideEventReflects(s.gate, s.log, seen[0]);
    }
    assert s'.Quiet() ==> s.Quiet() by { QuietBack(s, s', t); }
    assert s'.log == s.log + seen;
    StepKept(s, s', t, pc);
  }

  lemma QuietBack(s: System, s': System, t: nat)
    requires !s.At(t).Owing? && t in s'.pcs && s'.pcs == s.pcs[t := s'.pcs[t]]
    ensures s'.Quiet() ==> s.Quiet()
  {
    if s'.Quiet() {
      forall u | u in s.pcs ensures !s.pcs[u].Owing? {
        if u != t { assert s'.pcs[u] == s.pcs[u]; }
      }
    }
  }

  /** A critical section that decides nothing. */
  lemma QuietSectionKept(s: System, t: nat, sec: Section, next: Pc, seen: History)
    requires Inv(s) && !s.At(t).Owing? && !next.Owing?
    requires SectionKeeps(s.gate, sec, s.now, s.unpaused) && SameDecisions(s.gate, sec.gate)
    requires sec.effects.NoEffects?
    requires Lawful(s.log + seen) && CancelsFollow(s.log + seen)
    requires GateReflects(sec.gate, s.log + seen) && AnswersReflect(sec.gate, s.log + seen)
    requires PcReflects(next, s.log + seen) && !next.Waiting()
    ensures Inv(Commit(s, t, sec, next, seen, false))
  {
    var s' := Commit(s, t, sec, next, seen, false);
    assert EndEvents(s.gate, sec, false) == [];
    assert s'.log == s.log + seen;
    assert s'.Quiet() ==> s.Quiet() by { QuietBack(s, s', t); }
    if sec.notify { assert t in s'.pcs && s'.pcs[t].Owing?; }
    StepKept(s, s', t, s'.pcs[t]);
  }

  /** A critical section that ends the live round, after at most one answer. */
  lemma EndSectionKept(s: System, t: nat, mid: Gate, sec: Section, next: Pc, seen: History, forced: bool)
    requires Inv(s) && !s.At(t).Owing? && !next.Owing?
    requires SectionKeeps(s.gate, sec, s.now, s.unpaused) && sec.notify && sec.gate.terminal.Some?
    requires mid.round.Some? && s.gate.round.Some?
    requires mid.round.value.epoch == s.gate.round.value.epoch
    requires mid.round.value.snapshot == s.gate.round.value.snapshot
    requires mid.terminal == s.gate.terminal && mid.nextEpoch == s.gate.nextEpoch
    requires Ends(mid, sec.gate, sec.gate.terminal.value.outcome)
    requires sec.gate.terminal.value.outcome.Aborted? <==> sec.effects.CancelRound?
    requires Lawful(s.log + seen) && CancelsFollow(s.log + seen) && GateReflects(mid, s.log + seen)
    requires Legal(s.log + seen,
                   Ended(mid.round.value.epoch, sec.gate.terminal.value.outcome, forced, sec.gate.registered))
    requires PcReflects(next, Commit(s, t, sec, next, seen, forced).log)
    requires !next.Waiting()
    ensures Inv(Commit(s, t, sec, next, seen, forced))
  {
    hide Lawful, CancelsFollow, Legal, GateReflects, AnswersReflect, PcReflects;
    var s' := Commit(s, t, sec, next, seen, forced);
    var h := s.log + seen;
    var ev := Ended(mid.round.value.epoch, sec.gate.terminal.value.outcome, forced, sec.gate.registered);
    EndAndTell(mid, h, sec, ev);
    assert EndEvents(s.gate, sec, forced) == [ev] + Told(sec);
    assert s'.log == h + [ev] + Told(sec);
    assert s'.log == s.log + (seen + [ev] + Told(sec));
    assert t in s'.pcs && s'.pcs[t].Owing?;
    StepKept(s, s', t, s'.pcs[t]);
  }

  // ----- each entry point ----------------------------------------------------------

  /** When a section may write the terminal result of the live round of `mid`. */
  lemma EndLegal(mid: Gate, h: History, o: Outcome, forced: bool, registered: set<Label>)
    requires GateReflects(mid, h) && mid.round.Some? && o.epoch == mid.round.value.epoch
    requires registered <= mid.round.value.snapshot
    requires o.Exiting? || (o.Aborted? && !forced)
    requires o.Exiting? && !forced ==> AnswersReflect(mid, h) && mid.round.value.pending == {}
    requires o.Aborted? && o.reason == Timeout ==> HasCheck(h, o.epoch)
    ensures Legal(h, Ended(o.epoch, o, forced, registered))
  {
    var r := mid.round.value;
    assert HasOpened(h, r.epoch, r.snapshot);
    assert Opened(r.epoch, r.snapshot) in h;
    if o.Exiting? && !forced {
      assert r.snapshot - r.pending == r.snapshot;
    }
  }

  lemma OpenedEnded(g: Gate, h: History, x: Event)
    requires GateReflects(g, h) && x in h && x.Opened? && !g.Live(x.epoch)
    ensures HasEnded(h, x.epoch)
  {
  }

  /** No gate registers behind the back of a live round. */
  lemma LiveCovers(g: Gate, now: nat, unpaused: nat)
    requires GateInv(g, now, unpaused) && g.round.Some?
    ensures g.round.value.epoch == g.nextEpoch && g.registered <= g.round.value.snapshot
    ensures CanFinish(g, g.nextEpoch)
  {
  }

  lemma NothingSeen(s: System)
    ensures s.log + [] == s.log
  {
  }

  lemma AbortKept(s: System, t: nat, e: nat, reason: AbortReason, next: Pc)
    requires Inv(s) && !s.At(t).Owing? && !next.Owing?
    requires next.Idle? || next.Looping? || next.ReadBack?
    requires exists x | x in s.log :: x.Opened? && x.epoch == e
    requires next.Looping? || next.ReadBack? ==> next.epoch == e
    requires reason == Timeout ==> HasCheck(s.log, e)
    ensures Inv(Commit(s, t, Abort(s.gate, e, reason), next, [], false))
  {
    hide Lawful, CancelsFollow, Legal, GateReflects, AnswersReflect, GateInv, ViewCurrent;
    var sec := Abort(s.gate, e, reason);
    AbortKeeps(s.gate, e, reason, s.now, s.unpaused);
    NothingSeen(s);
    var x :| x in s.log && x.Opened? && x.epoch == e;
    if s.gate.Live(e) {
      LiveCovers(s.gate, s.now, s.unpaused);
      EndLegal(s.gate, s.log, sec.effects.outcome, false, sec.gate.registered);
      var s' := Commit(s, t, sec, next, [], false);
      EndedIn(s.log, s'.log, Ended(e, sec.effects.outcome, false, sec.gate.registered), x);
      EndSectionKept(s, t, s.gate, sec, next, [], false);
    } else {
      OpenedEnded(s.gate, s.log, x);
      QuietSectionKept(s, t, sec, next, []);
    }
  }

  lemma EndedIn(h: History, h': History, ev: Event, x: Event)
    requires x in h && x.Opened? && h <= h' && ev.Ended? && ev in h'
    ensures HasEnded(h', ev.epoch) && HasEndedAs(h', ev.epoch, ev.outcome)
    ensures exists y | y in h' :: y.Opened? && y.epoch == x.epoch
  {
    var i :| 0 <= i < |h| && h[i] == x;
    assert h'[i] == x;
  }

  lemma FinalizeKept(s: System, t: nat, e: nat, next: Pc)
    requires Inv(s) && !s.At(t).Owing? && next.Looping? && next.epoch == e
    requires exists x | x in s.log :: x.Opened? && x.epoch == e
    ensures Inv(Commit(s, t, FinalizeConsent(s.gate, e), next, [], false))
  {
    hide Lawful, CancelsFollow, Legal, GateReflects, GateInv, ViewCurrent;
    var sec := FinalizeConsent(s.gate, e);
    FinalizeConsentKeeps(s.gate, e, s.now, s.unpaused);
    NothingSeen(s);
    var x :| x in s.log && x.Opened? && x.epoch == e;
    if Settled(s.gate, e) {
      LiveCovers(s.gate, s.now, s.unpaused);
      EndLegal(s.gate, s.log, Exiting(e), false, sec.gate.registered);
      var s' := Commit(s, t, sec, next, [], false);
      EndedIn(s.log, s'.log, Ended(e, Exiting(e), false, sec.gate.registered), x);
      EndSectionKept(s, t, s.gate, sec, next, [], false);
    } else {
      QuietSectionKept(s, t, sec, next, []);
    }
  }

  lemma ForceKept(s: System, t: nat, e: nat)
    requires Inv(s) && s.At(t).Idle? && s.gate.Live(e)
    ensures Inv(Commit(s, t, Force(s.gate, e), Forced(e), [], true))
  {
    var sec := Force(s.gate, e);
    ForceKeeps(s.gate, e, s.now, s.unpaused);
    NothingSeen(s);
    EndLegal(s.gate, s.log, Exiting(e), true, sec.gate.registered);
    var s' := Commit(s, t, sec, Forced(e), [], true);
    EndedIn(s.log, s'.log, Ended(e, Exiting(e), true, sec.gate.registered), Opened(e, s.gate.round.value.snapshot));
    EndSectionKept(s, t, s.gate, sec, Forced(e), [], true);
  }

  lemma TeardownKept(s: System, t: nat, who: Label, reason: AbortReason)
    requires Inv(s) && s.At(t).Idle? && (reason == Unregistered || reason == Destroyed)
    ensures Inv(Commit(s, t, Teardown(s.gate, who, reason, s.now), Idle, [], false))
  {
    var sec := Teardown(s.gate, who, reason, s.now);
    TeardownKeeps(s.gate, who, reason, s.now, s.unpaused);
    NothingSeen(s);
    if s.gate.round.Some? { SettleKeeps(s.gate.round.value, who, s.now, s.unpaused); }
    if sec.effects.CancelRound? {
      EndLegal(s.gate, s.log, sec.effects.outcome, false, sec.gate.registered);
      EndSectionKept(s, t, s.gate, sec, Idle, [], false);
    } else {
      SameDecisionsReflect(s.gate, sec.gate, s.log);
      QuietSectionKept(s, t, sec, Idle, []);
    }
  }

  /** The invariant does not speak of the roster. */
  lemma RosterAside(s: System, roster: Roster)
    requires Inv(s)
    ensures Inv(s.(roster := roster))
  {
    hide Lawful, CancelsFollow, GateReflects, AnswersReflect, GateInv, PcReflects;
    var s' := s.(roster := roster);
    assert s'.Quiet() <==> s.Quiet();
    forall t | t in s'.pcs ensures ViewCurrent(s'.pcs[t], s') { assert ViewCurrent(s.pcs[t], s); }
  }

  lemma ProgressKept(s: System, t: nat, who: Label, e: nat, busy: bool)
    requires Inv(s) && s.At(t).Idle?
    ensures Inv(Commit(s, t, Progress(s.gate, who, e, busy, s.now), Idle, [], false))
  {
    var sec := Progress(s.gate, who, e, busy, s.now);
    ProgressKeeps(s.gate, who, e, busy, s.now, s.unpaused);
    NothingSeen(s);
    SameDecisionsReflect(s.gate, sec.gate, s.log);
    QuietSectionKept(s, t, sec, Idle, []);
  }

  lemma ResolveKept(s: System, t: nat, who: Label, e: nat, consent: bool)
    requires Inv(s) && s.At(t).Idle?
    ensures var a := DoResolve(t, who, e, consent);
            Inv(Commit(s, t, Resolve(s.gate, who, e, consent, s.now), Idle, Answer(s, a), false))
  {
    var sec := Resolve(s.gate, who, e, consent, s.now);
    var seen := Answer(s, DoResolve(t, who, e, consent));
    ResolveKeeps(s.gate, who, e, consent, s.now, s.unpaused);
    if !AnswerCounts(s.gate, who, e) {
      NothingSeen(s);
      QuietSectionKept(s, t, sec, Idle, []);
    } else {
      var r := s.gate.round.value.Settle(who, s.now);
      var mid := s.gate.(round := Some(r));
      AnswerReflects(s.gate, s.log, who, consent, r);
      if sec.gate.round.Some? {
        assert sec.gate == mid;
        QuietSectionKept(s, t, sec, Idle, seen);
      } else {
        EndLegal(mid, s.log + seen, sec.gate.terminal.value.outcome, false, sec.gate.registered);
        EndSectionKept(s, t, mid, sec, Idle, seen, false);
      }
    }
  }

  lemma StartKept(s: System, t: nat)
    requires Inv(s) && s.At(t).Idle? && s.gate.round.None?
    ensures Inv(Apply(s, DoStart(t)))
  {
    hide Lawful, CancelsFollow;
    var s' := Apply(s, DoStart(t));
    var e := s.gate.nextEpoch + 1;
    var ev := Opened(e, s.gate.registered);
    InstallKeeps(s.gate, s.now, s.unpaused);
    assert s'.log == s.log + [ev];
    LawfulAppend(s.log, ev);
    CancelsAppend(s.log, ev);
    EndedSame(s.log, ev);
    assert ev in s'.log;
    assert GateReflects(s'.gate, s'.log) by { InstallReflects(s.gate, s'.gate, s.log, ev); }
    assert s'.Quiet() ==> s.Quiet() by { QuietBack(s, s', t); }
    StepKept(s, s', t, Installed(e, s.gate.registered));
  }

  lemma InstallReflects(g: Gate, g': Gate, h: History, ev: Event)
    requires GateReflects(g, h) && g.round.None? && ev.Opened? && ev.epoch == g.nextEpoch + 1
    requires g'.nextEpoch == ev.epoch && g'.terminal == g.terminal && g'.exitClaimed == g.exitClaimed
    requires g'.round.Some? && g'.round.value.epoch == ev.epoch && g'.round.value.snapshot == ev.gates
    ensures GateReflects(g', h + [ev])
  {
    EndedSame(h, ev);
    var h' := h + [ev];
    assert !HasEnded(h, ev.epoch);
    forall x | x in h' && x.Opened? ensures HasEnded(h', x.epoch) || g'.Live(x.epoch) {
      if x in h { assert HasEnded(h, x.epoch); }
    }
  }

  /** The exit of a round is claimed while its `Exiting` is in the terminal slot,
      and the claim is recorded beside it. */
  lemma ClaimReflects(g: Gate, h: History, e: nat)
    requires GateReflects(g, h) && ClaimGranted(g, e)
    requires g.terminal.value.outcome.epoch == g.terminal.value.epoch
    ensures Legal(h, ExitClaimed(e))
    ensures GateReflects(ClaimExit(g, e), h + [ExitClaimed(e)])
  {
    var ev := ExitClaimed(e);
    assert g.terminal.value.outcome == Exiting(e);
    assert ev !in h;
    EndedSame(h, ev);
    HasEndedWeaken(h, e, Exiting(e));
    assert ev in h + [ev];
  }

  lemma ClaimKept(s: System, t: nat, e: nat)
    requires Inv(s) && !s.At(t).Owing?
    requires s.At(t).Decided? || s.At(t).Forced?
    ensures Inv(Claim(s, t, e))
  {
    hide Lawful, CancelsFollow, Legal, GateReflects, PcReflects, ViewCurrent;
    var s' := Claim(s, t, e);
    if ClaimGranted(s.gate, e) {
      var ev := ExitClaimed(e);
      ClaimReflects(s.gate, s.log, e);
      LawfulAppend(s.log, ev);
      CancelsAppend(s.log, ev);
      assert s'.log == s.log + [ev];
    } else {
      NothingSeen(s);
      assert s'.log == s.log + [];
    }
    QuietBack(s, s', t);
    IdleReflects(s');
    StepKept(s, s', t, Idle);
  }

  lemma IdleReflects(s: System)
    ensures PcReflects(Idle, s.log) && ViewCurrent(Idle, s)
  {
  }

  lemma HasEndedWeaken(h: History, e: nat, o: Outcome)
    requires HasEndedAs(h, e, o)
    ensures HasEnded(h, e)
  {
  }

  /** The read after a lost start event: the round's own result, unless a later
      round has taken the terminal slot. */
  lemma ReadBackKept(s: System, t: nat)
    requires Inv(s) && s.At(t).ReadBack?
    ensures Inv(AdvanceFrom(s, t))
  {
    hide Lawful, CancelsFollow, GateReflects, ViewCurrent, AnswersReflect, GateInv;
    var e := s.At(t).epoch;
    assert HasEnded(s.log, e) by { assert PcReflects(s.pcs[t], s.log); }
    var o := match s.gate.TerminalFor(e) case Some(o) => o case None => BareCancel(e);
    ReadBackLegal(s.gate, s.log, e, o);
    assert AdvanceFrom(s, t) == Goto(s, t, Idle, [StartLost(e, o)]);
    IdleReflects(Goto(s, t, Idle, [StartLost(e, o)]));
    GotoKept(s, t, Idle, [StartLost(e, o)]);
  }

  lemma ReadBackLegal(g: Gate, h: History, e: nat, o: Outcome)
    requires GateReflects(g, h) && HasEnded(h, e)
    requires match g.TerminalFor(e) case Some(o') => o == o' case None => o == BareCancel(e)
    ensures Legal(h, StartLost(e, o)) && e <= g.nextEpoch
  {
    var x :| x in h && x.Ended? && x.epoch == e;
    if g.TerminalFor(e).None? { LastEnded(g, h, e); }
    assert g.TerminalFor(e).Some? ==> !LaterEnded(h, e);
  }

  lemma LastEnded(g: Gate, h: History, e: nat)
    requires GateReflects(g, h) && HasEnded(h, e) && g.TerminalFor(e).None?
    ensures LaterEnded(h, e)
  {
    var x :| x in h && x.Ended? && x.epoch == e;
    var T := g.terminal.value;
    var y :| y in h && y.Ended? && y.epoch == T.epoch && y.outcome == T.outcome;
  }

  lemma NotifyKept(s: System, t: nat)
    requires Inv(s) && s.At(t).Owing?
    ensures Inv(AdvanceFrom(s, t))
  {
    hide Lawful, CancelsFollow, Legal, GateReflects, AnswersReflect, GateInv;
    var s' := AdvanceFrom(s, t);
    var after := s.At(t).after;
    assert s'.log == s.log + [];
    assert PcReflects(s.pcs[t], s.log);
    assert OthersKept(s, s');
    StepKept(s, s', t, after);
  }

  lemma ElapseKept(s: System, ticks: nat)
    requires Inv(s)
    ensures Inv(Apply(s, Elapse(ticks)))
  {
    TickKeeps(s.gate, s.now, s.unpaused, ticks);
    var s' := Apply(s, Elapse(ticks));
    assert s'.Quiet() <==> s.Quiet();
  }

  lemma RegisterKept(s: System, t: nat, who: Label)
    requires Inv(s) && s.At(t).Idle?
    ensures Inv(Apply(s, DoRegister(t, who)))
  {
    RegisterKeeps(s.gate, who, s.now, s.unpaused);
    var s' := Apply(s, DoRegister(t, who));
    SameDecisionsReflect(s.gate, s'.gate, s.log);
    assert s'.Quiet() <==> s.Quiet();
  }

  lemma ExpiryKept(s: System, t: nat)
    requires Inv(s) && s.At(t).Expired?
    ensures Inv(AdvanceFrom(s, t))
  {
    hide Lawful, CancelsFollow, Legal, GateReflects, ViewCurrent, AnswersReflect;
    var e, unread := s.At(t).epoch, s.At(t).unread;
    assert PcReflects(s.pcs[t], s.log);
    if TimeoutDue(s.gate, e, s.now) {
      CheckLegal(s, e);
      var ev := TimeoutCheck(e, s.unpaused, s.gate.round.value.busy);
      PcGrows(s.pcs[t], s.log, [ev]);
      assert ev in s.log + [ev];
      RunningKept(Goto(s, t, Condemned(e, unread), [ev]), Condemned(e, unread));
      GotoKept(s, t, Condemned(e, unread), [ev]);
    } else {
      RunningKept(Goto(s, t, Looping(e, unread), []), Looping(e, unread));
      MoveKept(s, t, Looping(e, unread));
    }
  }

  lemma RunningKept(s: System, pc: Pc)
    requires !pc.Waiting()
    ensures ViewCurrent(pc, s)
  {
  }

  /** A check that condemns a round finds it open, idle and out of budget. */
  lemma CheckLegal(s: System, e: nat)
    requires Inv(s) && TimeoutDue(s.gate, e, s.now)
    ensures Legal(s.log, TimeoutCheck(e, s.unpaused, s.gate.round.value.busy)) && e <= s.gate.nextEpoch
  {
    hide Lawful, CancelsFollow, AnswersReflect, ViewCurrent, PcReflects;
    TimeoutDueIff(s.gate, e, s.now, s.unpaused);
    assert Opened(e, s.gate.round.value.snapshot) in s.log;
  }

  lemma EnrolledKept(s: System, t: nat)
    requires Inv(s) && s.At(t).Enrolled?
    ensures Inv(AdvanceFrom(s, t))
  {
    var pc := s.At(t);
    assert PcReflects(s.pcs[t], s.log);
    match s.gate.TerminalFor(pc.epoch)
    case Some(o) =>
      assert HasEndedAs(s.log, pc.epoch, o);
      EndedSame(s.log, Returned(pc.epoch, o));
      GotoKept(s, t, Decided(pc.epoch, o), [Returned(pc.epoch, o)]);
    case None =>
      NothingSeen(s);
      GotoKept(s, t, Undecided(pc.epoch, pc.unread, pc.ticket), []);
  }

  /** A task moves on without touching the gate or the history. */
  lemma MoveKept(s: System, t: nat, pc: Pc)
    requires Inv(s) && t in s.pcs && !s.At(t).Owing? && !pc.Owing?
    requires PcReflects(pc, s.log) && ViewCurrent(pc, Goto(s, t, pc, []))
    ensures Inv(Goto(s, t, pc, []))
  {
    NothingSeen(s);
    GotoKept(s, t, pc, []);
  }

  lemma ParkKept(s: System, t: nat)
    requires Inv(s) && s.At(t).Undecided?
    ensures Inv(AdvanceFrom(s, t))
  {
    var pc := s.At(t);
    assert PcReflects(pc, s.log) && ViewCurrent(pc, s);
    var s' := AdvanceFrom(s, t);
    QuietBack(s, s', t);
    MoveKept(s, t, s'.pcs[t]);
  }

  lemma AdvanceKept(s: System, t: nat)
    requires Inv(s) && CanAdvance(s.At(t))
    ensures Inv(AdvanceFrom(s, t))
  {
    hide Lawful, CancelsFollow, Legal, GateReflects, AnswersReflect, GateInv;
    var pc := s.At(t);
    assert PcReflects(pc, s.log);
    match pc {
      case Owing(_) => NotifyKept(s, t);
      case Unannounced(e) => AbortKept(s, t, e, Cancelled, ReadBack(e));
      case ReadBack(_) => ReadBackKept(s, t);
      case Announced(e, unread) => FinalizeKept(s, t, e, Looping(e, unread));
      case Looping(e, unread) => MoveKept(s, t, Enrolled(e, unread, s.notified));
      case Enrolled(_, _, _) => EnrolledKept(s, t);
      case Undecided(_, _, _) => ParkKept(s, t);
      case Expired(_, _) => ExpiryKept(s, t);
      case Condemned(e, unread) => AbortKept(s, t, e, Timeout, Looping(e, unread));
      case Dropping(e) => AbortKept(s, t, e, Cancelled, Idle);
      case Decided(e, o) => if o.Exiting? { ClaimKept(s, t, e); } else { MoveKept(s, t, Idle); }
      case Forced(e) => ClaimKept(s, t, e);
    }
  }

  /** One step of any task keeps the invariant. */
  lemma StepInv(s: System, a: Action)
    requires Inv(s) && Enabled(s, a)
    ensures Inv(Apply(s, a))
  {
    hide Lawful, CancelsFollow, Legal, GateReflects, AnswersReflect, GateInv;
    match a {
      case Elapse(ticks) => ElapseKept(s, ticks);
      case DoRegister(t, who) => RegisterKept(s, t, who);
      case DoTeardown(t, who, reason) =>
        TeardownKept(s, t, who, reason);
        RosterAside(Commit(s, t, Teardown(s.gate, who, reason, s.now), Idle, [], false), s.roster + [Left(who)]);
      case DoResolve(t, who, e, consent) => ResolveKept(s, t, who, e, consent);
      case DoProgress(t, who, e, busy) => ProgressKept(s, t, who, e, busy);
      case DoForce(t, target) => if s.gate.Live(Target(target)) { ForceKept(s, t, Target(target)); }
      case DoStart(t) => if s.gate.round.None? { StartKept(s, t); }
      case Announce(t, delivered) => MoveKept(s, t, Apply(s, a).pcs[t]);
      case Advance(t) => AdvanceKept(s, t);
      case WakeNotified(t) => MoveKept(s, t, Apply(s, a).pcs[t]);
      case WakeReceiver(t, _) => MoveKept(s, t, Apply(s, a).pcs[t]);
      case WakeTimer(t) => MoveKept(s, t, Apply(s, a).pcs[t]);
      case Die(t) => MoveKept(s, t, Apply(s, a).pcs[t]);
    }
  }

  lemma {:induction false} RunInv(s: System, acts: seq<Action>, s': System)
    requires Inv(s) && Run(s, acts, s')
    ensures Inv(s')
    decreases |acts|
  {
    if acts != [] {
      StepInv(s, acts[0]);
      RunInv(Apply(s, acts[0]), acts[1..], s');
    }
  }

  lemma ReachableInv(s: System)
    requires Reachable(s)
    ensures Inv(s)
  {
    var acts :| Run(START, acts, s);
    assert Inv(START);
    RunInv(START, acts, s);
  }
}
