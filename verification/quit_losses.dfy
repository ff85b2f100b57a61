/**
Where the quit gate (src-tauri/src/quit_gate.rs) loses something: an exit that
was decided but that no task can carry out any more, and a start that reports a
result its round never had.
*/
module QuitLosses {
  import opened Wrappers
  import opened QuitRules
  import opened QuitRuns
  import opened QuitInvariant
  import opened QuitTheorems

  // ----- who can still carry out an exit --------------------------------------------------

  /** The task will read the result of `e`, or has it in hand: a waiter whose
      guard is armed, or a caller that is about to claim the exit. */
  predicate Holds(pc: Pc, e: nat)
    decreases pc
  {
    match pc
    case Owing(after) => Holds(after, e)
    case Decided(e', o) => e' == e && o.Exiting?
    case Forced(e') => e' == e
    case _ => pc.Armed() && pc.epoch == e
  }

  ghost predicate HasHolder(s: System, e: nat) {
    exists t | t in s.pcs :: Holds(s.pcs[t], e)
  }

  /** Some continuation claims the exit of `e`. */
  ghost predicate CanExit(s: System, e: nat) {
    exists acts, s' :: Run(s, acts, s') && ExitClaimed(e) in s'.log
  }

  // ----- a holder can get there --------------------------------------------------------------

  ghost predicate Ready(s: System, e: nat) {
    Inv(s) && ClaimGranted(s.gate, e)
  }

  lemma ByStep(s: System, a: Action, e: nat)
    requires Enabled(s, a) && CanExit(Apply(s, a), e)
    ensures CanExit(s, e)
  {
    hide Apply, Enabled;
    var acts, s' :| Run(Apply(s, a), acts, s') && ExitClaimed(e) in s'.log;
    assert ([a] + acts)[1..] == acts;
    assert Run(s, [a] + acts, s');
  }

  lemma StillReady(s: System, a: Action, e: nat)
    requires Ready(s, e) && Enabled(s, a) && Apply(s, a).gate == s.gate
    ensures Ready(Apply(s, a), e)
  {
    hide Inv, Apply, Enabled;
    StepInv(s, a);
  }

  lemma OverWhenGranted(s: System, e: nat)
    requires Ready(s, e)
    ensures !s.gate.Live(e) && s.gate.DeadlineFor(e).None? && s.gate.TerminalFor(e).Some?
    ensures s.gate.TerminalFor(e).value.Exiting?
  {
    hide Lawful, CancelsFollow, GateReflects, AnswersReflect, PcReflects, ViewCurrent;
  }

  lemma FromDecided(s: System, t: nat, e: nat)
    requires Ready(s, e)
    requires s.At(t) == Forced(e) || (s.At(t).Decided? && s.At(t).epoch == e && s.At(t).outcome.Exiting?)
    ensures CanExit(s, e)
  {
    hide Inv;
    var s' := Apply(s, Advance(t));
    assert ExitClaimed(e) in s'.log;
    assert Run(s', [], s');
    ByStep(s, Advance(t), e);
  }

  lemma FromEnrolled(s: System, t: nat, e: nat)
    requires Ready(s, e) && s.At(t).Enrolled? && s.At(t).epoch == e
    ensures CanExit(s, e)
  {
    hide Inv;
    OverWhenGranted(s, e);
    StillReady(s, Advance(t), e);
    FromDecided(Apply(s, Advance(t)), t, e);
    ByStep(s, Advance(t), e);
  }

  lemma FromLooping(s: System, t: nat, e: nat)
    requires Ready(s, e) && s.At(t).Looping? && s.At(t).epoch == e
    ensures CanExit(s, e)
  {
    hide Inv, ClaimGranted;
    StillReady(s, Advance(t), e);
    FromEnrolled(Apply(s, Advance(t)), t, e);
    ByStep(s, Advance(t), e);
  }

  /** The sections of a waiter do nothing to a round that is over. */
  lemma FromSection(s: System, t: nat, e: nat)
    requires Ready(s, e) && s.At(t).Armed() && s.At(t).epoch == e
    requires s.At(t).Announced? || s.At(t).Condemned? || s.At(t).Expired?
    ensures CanExit(s, e)
  {
    hide Inv, ClaimGranted;
    OverWhenGranted(s, e);
    StillReady(s, Advance(t), e);
    FromLooping(Apply(s, Advance(t)), t, e);
    ByStep(s, Advance(t), e);
  }

  lemma FromInstalled(s: System, t: nat, e: nat)
    requires Ready(s, e) && s.At(t).Installed? && s.At(t).epoch == e
    ensures CanExit(s, e)
  {
    hide Inv, ClaimGranted;
    StillReady(s, Announce(t, true), e);
    FromSection(Apply(s, Announce(t, true)), t, e);
    ByStep(s, Announce(t, true), e);
  }

  lemma FromNotified(s: System, t: nat, e: nat)
    requires Ready(s, e) && s.At(t).Parked? && s.At(t).epoch == e && s.At(t).ticket < s.notified
    ensures CanExit(s, e)
  {
    hide Inv, ClaimGranted;
    StillReady(s, WakeNotified(t), e);
    FromLooping(Apply(s, WakeNotified(t)), t, e);
    ByStep(s, WakeNotified(t), e);
  }

  /** A waiter parked on a finished round is signalled already, or will be by a
      task that still owes its notification. */
  lemma FromParked(s: System, t: nat, e: nat)
    requires Ready(s, e) && s.At(t).Parked? && s.At(t).epoch == e
    ensures CanExit(s, e)
  {
    hide Inv, ClaimGranted;
    ParkedView(s, t);
    OverWhenGranted(s, e);
    if s.At(t).ticket < s.notified {
      FromNotified(s, t, e);
    } else {
      var u :| u in s.pcs && s.pcs[u].Owing?;
      StillReady(s, Advance(u), e);
      FromNotified(Apply(s, Advance(u)), t, e);
      ByStep(s, Advance(u), e);
    }
  }

  lemma ParkedView(s: System, t: nat)
    requires Inv(s) && s.At(t).Parked?
    ensures s.At(t).ticket <= s.notified
    ensures s.At(t).ticket == s.notified && s.Quiet() ==> s.gate.TerminalFor(s.At(t).epoch).None?
  {
    assert ViewCurrent(s.pcs[t], s);
  }

  lemma FromUndecided(s: System, t: nat, e: nat)
    requires Ready(s, e) && s.At(t).Undecided? && s.At(t).epoch == e
    ensures CanExit(s, e)
  {
    hide Inv, ClaimGranted;
    StillReady(s, Advance(t), e);
    FromParked(Apply(s, Advance(t)), t, e);
    ByStep(s, Advance(t), e);
  }

  lemma FromOwing(s: System, t: nat, e: nat)
    requires Ready(s, e) && s.At(t).Owing? && Holds(s.At(t), e)
    ensures CanExit(s, e)
  {
    assert !s.At(t).after.Owing? by { assert PcReflects(s.pcs[t], s.log); }
    hide Inv, ClaimGranted;
    StillReady(s, Advance(t), e);
    FromHolder(Apply(s, Advance(t)), t, e);
    ByStep(s, Advance(t), e);
  }

  lemma FromHolder(s: System, t: nat, e: nat)
    requires Ready(s, e) && Holds(s.At(t), e) && !s.At(t).Owing?
    ensures CanExit(s, e)
  {
    hide Inv, ClaimGranted;
    match s.At(t)
    case Installed(_, _) => FromInstalled(s, t, e);
    case Announced(_, _) => FromSection(s, t, e);
    case Looping(_, _) => FromLooping(s, t, e);
    case Enrolled(_, _, _) => FromEnrolled(s, t, e);
    case Undecided(_, _, _) => FromUndecided(s, t, e);
    case Parked(_, _, _, _) => FromParked(s, t, e);
    case Expired(_, _) => FromSection(s, t, e);
    case Condemned(_, _) => FromSection(s, t, e);
    case Decided(_, _) => FromDecided(s, t, e);
    case Forced(_) => FromDecided(s, t, e);
    case _ =>
  }

  // ----- without a holder nobody ever will ---------------------------------------------------------

  /** Nobody became a holder of `e` and nobody claimed its exit. */
  ghost predicate Abandons(s: System, s': System, e: nat) {
    && s.log <= s'.log
    && (ExitClaimed(e) in s'.log ==> ExitClaimed(e) in s.log)
    && (forall t | t in s'.pcs && Holds(s'.pcs[t], e) :: t in s.pcs && Holds(s.pcs[t], e))
  }

  lemma CommitAbandons(s: System, t: nat, sec: Section, next: Pc, seen: History, forced: bool, e: nat)
    requires ExitClaimed(e) !in seen && (Holds(next, e) ==> Holds(s.At(t), e))
    ensures Abandons(s, Commit(s, t, sec, next, seen, forced), e)
  {
    hide Holds;
    var more := EndEvents(s.gate, sec, forced);
    assert ExitClaimed(e) !in more;
    assert s.log + seen + more == s.log + (seen + more);
    HoldsFacts(next, e);
  }

  lemma HoldsFacts(pc: Pc, e: nat)
    ensures Holds(Owing(pc), e) == Holds(pc, e) && !Holds(Idle, e)
  {
  }

  lemma AdvanceAbandons(s: System, t: nat, e: nat)
    requires CanAdvance(s.At(t)) && !Holds(s.At(t), e)
    ensures Abandons(s, AdvanceFrom(s, t), e)
  {
    hide Abort, FinalizeConsent, ClaimExit;
    match s.At(t) {
      case Unannounced(e') => CommitAbandons(s, t, Abort(s.gate, e', Cancelled), ReadBack(e'), [], false, e);
      case Announced(e', unread) =>
        CommitAbandons(s, t, FinalizeConsent(s.gate, e'), Looping(e', unread), [], false, e);
      case Condemned(e', unread) =>
        CommitAbandons(s, t, Abort(s.gate, e', Timeout), Looping(e', unread), [], false, e);
      case Dropping(e') => CommitAbandons(s, t, Abort(s.gate, e', Cancelled), Idle, [], false, e);
      case _ =>
    }
  }

  lemma StepAbandons(s: System, a: Action, e: nat)
    requires Enabled(s, a) && e <= s.gate.nextEpoch && !s.gate.Live(e) && !HasHolder(s, e)
    ensures Abandons(s, Apply(s, a), e)
  {
    hide Resolve, Teardown, Progress, Abort, FinalizeConsent, Force, Install, ClaimExit;
    match a {
      case DoTeardown(t, who, reason) =>
        CommitAbandons(s, t, Teardown(s.gate, who, reason, s.now), Idle, [], false, e);
      case DoResolve(t, who, e', c) =>
        CommitAbandons(s, t, Resolve(s.gate, who, e', c, s.now), Idle, Answer(s, a), false, e);
      case DoProgress(t, who, e', busy) =>
        CommitAbandons(s, t, Progress(s.gate, who, e', busy, s.now), Idle, [], false, e);
      case DoForce(t, target) =>
        var e' := Target(target);
        if s.gate.Live(e') { CommitAbandons(s, t, Force(s.gate, e'), Forced(e'), [], true, e); }
      case Advance(t) => AdvanceAbandons(s, t, e);
      case _ =>
    }
  }

  lemma {:induction false} NoHolderForever(s: System, acts: seq<Action>, s': System, e: nat)
    requires Inv(s) && Run(s, acts, s') && HasEnded(s.log, e)
    requires !HasHolder(s, e) && ExitClaimed(e) !in s.log
    ensures ExitClaimed(e) !in s'.log
    decreases |acts|
  {
    if acts != [] {
      EndedIsOver(s, e);
      hide Inv, Apply, Enabled, Holds;
      StepAbandons(s, acts[0], e);
      StepInv(s, acts[0]);
      var x :| x in s.log && x.Ended? && x.epoch == e;
      assert x in Apply(s, acts[0]).log;
      NoHolderForever(Apply(s, acts[0]), acts[1..], s', e);
    }
  }

  lemma EndedIsOver(s: System, e: nat)
    requires Inv(s) && HasEnded(s.log, e)
    ensures e <= s.gate.nextEpoch && !s.gate.Live(e)
  {
    hide Lawful, CancelsFollow, AnswersReflect, PcReflects, ViewCurrent, GateInv;
  }

  // ----- the exact condition -------------------------------------------------------------------------

  /** An exit that was decided is carried out in some continuation if and only if
      it has been already, or no later round has ended and some task is left that
      holds it. So it is lost exactly when a later round has taken the slot or
      the last task that would have read it is gone. */
  lemma ExitReachableIff(s: System, e: nat)
    requires Reachable(s) && HasEndedAs(s.log, e, Exiting(e))
    ensures CanExit(s, e) <==> ExitClaimed(e) in s.log || (!LaterEnded(s.log, e) && HasHolder(s, e))
  {
    ReachableInv(s);
    hide Inv, Reachable, ClaimGranted, HasHolder, CanExit, LaterEnded;
    if ExitClaimed(e) in s.log {
      Already(s, e);
    } else if LaterEnded(s.log, e) {
      forall acts, s' | Run(s, acts, s') ensures ExitClaimed(e) !in s'.log { LostForever(s, acts, s', e); }
      Unreachable(s, e);
    } else if !HasHolder(s, e) {
      EndedAs(s.log, e, Exiting(e));
      forall acts, s' | Run(s, acts, s') ensures ExitClaimed(e) !in s'.log { NoHolderForever(s, acts, s', e); }
      Unreachable(s, e);
    } else {
      ExitClaimableIff(s, e);
      SomeHolder(s, e);
    }
  }

  lemma EndedAs(h: History, e: nat, o: Outcome)
    requires HasEndedAs(h, e, o)
    ensures HasEnded(h, e)
  {
  }

  lemma Already(s: System, e: nat)
    requires ExitClaimed(e) in s.log
    ensures CanExit(s, e)
  {
    assert Run(s, [], s);
  }

  lemma Unreachable(s: System, e: nat)
    requires forall acts, s' | Run(s, acts, s') :: ExitClaimed(e) !in s'.log
    ensures !CanExit(s, e)
  {
  }

  lemma SomeHolder(s: System, e: nat)
    requires Ready(s, e) && HasHolder(s, e)
    ensures CanExit(s, e)
  {
    hide Inv, ClaimGranted, Holds, CanExit;
    var t :| t in s.pcs && Holds(s.pcs[t], e);
    if s.At(t).Owing? { FromOwing(s, t, e); } else { FromHolder(s, t, e); }
  }

  // ----- runs that lose an exit --------------------------------------------------------------------------

  lemma {:induction false} RunSnoc(s: System, acts: seq<Action>, m: System, a: Action)
    requires Run(s, acts, m) && Enabled(m, a)
    ensures Run(s, acts + [a], Apply(m, a))
    decreases |acts|
  {
    if acts == [] {
      assert [a][1..] == [];
    } else {
      RunSnoc(Apply(s, acts[0]), acts[1..], m, a);
      assert (acts + [a])[1..] == acts[1..] + [a];
    }
  }

  lemma Extend(m: System, a: Action) returns (m': System)
    requires Reachable(m) && Enabled(m, a)
    ensures m' == Apply(m, a) && Reachable(m')
  {
    var acts :| Run(START, acts, m);
    RunSnoc(START, acts, m, a);
    m' := Apply(m, a);
  }

  const EDITOR: set<Label> := {"editor"}

  /** A round that asks the one registered window, before it has answered. */
  lemma Asking() returns (s: System)
    ensures Reachable(s) && s.gate == Gate(1, EDITOR, Some(FreshRound(1, EDITOR, 0)), None, false)
    ensures s.pcs == map[1 := Looping(1, EDITOR)] && s.now == 0 && s.notified == 0
    ensures s.log == [Opened(1, EDITOR)]
  {
    assert Run(START, [], START);
    hide Run, Reachable;
    s := Extend(START, DoRegister(2, "editor"));
    assert s.gate.registered == EDITOR;
    s := Extend(s, DoStart(1));
    s := Extend(s, Announce(1, true));
    s := Extend(s, Advance(1));
  }

  /** Its consent decides the round. */
  function Consent(): History {
    [Opened(1, EDITOR), Answered(1, "editor", true), Ended(1, Exiting(1), false, EDITOR)]
  }

  lemma Consented(s: System) returns (s': System)
    requires Reachable(s) && s.gate == Gate(1, EDITOR, Some(FreshRound(1, EDITOR, 0)), None, false)
    requires s.pcs.Keys == {1} && s.now == 0 && s.log == [Opened(1, EDITOR)]
    ensures Reachable(s') && s'.gate == Gate(1, EDITOR, None, Some(Terminal(1, Exiting(1))), false)
    ensures s'.pcs == s.pcs[2 := Owing(Idle)] && s'.log == Consent() && s'.now == 0 && s'.notified == s.notified
  {
    hide Run, Reachable;
    assert EDITOR - {"editor"} == {};
    s' := Extend(s, DoResolve(2, "editor", 1, true));
  }

  /** The waiter is gone before it reads the slot: its guard has nothing left to
      abort, and nobody exits, though every window has consented. */
  lemma DeadWaiterLosesExit() returns (s: System)
    ensures Reachable(s) && s.Quiet() && s.log == Consent()
    ensures ClaimGranted(s.gate, 1) && !LaterEnded(s.log, 1)
    ensures !CanExit(s, 1)
  {
    s := Asking();
    s := Parks(s);
    s := Consented(s);
    s := WaiterDies(s);
    ConsentDecides();
    hide CanExit, HasHolder, Run, Reachable;
    ExitReachableIff(s, 1);
    assert !HasHolder(s, 1) by { AllIdle(s, 1); }
  }

  lemma Parks(s0: System) returns (s: System)
    requires Reachable(s0) && s0.gate == Gate(1, EDITOR, Some(FreshRound(1, EDITOR, 0)), None, false)
    requires s0.pcs == map[1 := Looping(1, EDITOR)]
    ensures Reachable(s) && s == s0.(pcs := s.pcs) && s.pcs.Keys == {1}
    ensures s.At(1) == Parked(1, EDITOR, s0.notified, Some(QUIT_GATE_TIMEOUT))
  {
    hide Run, Reachable;
    s := Extend(s0, Advance(1));
    s := Extend(s, Advance(1));
    s := Extend(s, Advance(1));
  }

  lemma WaiterDies(s0: System) returns (s: System)
    requires Reachable(s0) && s0.At(1).Parked? && s0.At(1).epoch == 1 && s0.pcs.Keys == {1, 2}
    requires s0.At(2) == Owing(Idle) && s0.gate.round.None? && s0.gate.terminal == Some(Terminal(1, Exiting(1)))
    ensures Reachable(s) && s.gate == s0.gate && s.log == s0.log
    ensures forall t | t in s.pcs :: s.pcs[t].Idle?
  {
    hide Run, Reachable;
    s := Extend(s0, Die(1));
    s := Extend(s, Advance(1));
    s := Extend(s, Advance(2));
  }

  lemma ConsentDecides()
    ensures HasEndedAs(Consent(), 1, Exiting(1)) && !LaterEnded(Consent(), 1) && ExitClaimed(1) !in Consent()
  {
    assert Consent()[2] in Consent();
  }

  lemma AllIdle(s: System, e: nat)
    requires forall t | t in s.pcs :: s.pcs[t].Idle?
    ensures !HasHolder(s, e)
  {
  }

  /** The log of a second round that the same window refuses. */
  function ThenRefusal(): History {
    Consent() + [Opened(2, EDITOR), Answered(2, "editor", false),
                 Ended(2, Aborted(2, Refused, EDITOR, {}), false, EDITOR), GatesTold(2, EDITOR)]
  }

  /** A second quit is refused before the first waiter has read its slot: the
      waiter parks again with nothing to wake it, and nobody exits. */
  lemma ExitCanBeLost() returns (s: System)
    ensures Reachable(s) && s.Quiet() && s.log == ThenRefusal()
    ensures s.At(1) == Parked(1, {}, s.notified, None)
    ensures HasEndedAs(s.log, 1, Exiting(1)) && !CanExit(s, 1)
  {
    s := Asking();
    hide Run, Reachable;
    s := Consented(s);
    s := RefusedLater(s);
    s := FirstWaiterParks(s);
    RefusalEnds();
    hide CanExit;
    ExitReachableIff(s, 1);
  }

  lemma RefusalEnds()
    ensures HasEndedAs(ThenRefusal(), 1, Exiting(1)) && LaterEnded(ThenRefusal(), 1)
    ensures ExitClaimed(1) !in ThenRefusal()
  {
    assert ThenRefusal()[2] in ThenRefusal() && ThenRefusal()[5] in ThenRefusal();
  }

  lemma RefusedLater(s0: System) returns (s: System)
    requires Reachable(s0) && s0.gate == Gate(1, EDITOR, None, Some(Terminal(1, Exiting(1))), false)
    requires s0.pcs == map[1 := Looping(1, EDITOR), 2 := Owing(Idle)] && s0.log == Consent()
    requires s0.now == 0 && s0.notified == 0
    ensures Reachable(s) && s.gate.round.None? && s.notified == 0 && s.log == ThenRefusal()
    ensures s.gate.terminal == Some(Terminal(2, Aborted(2, Refused, EDITOR, {})))
    ensures s.pcs == map[1 := Looping(1, EDITOR), 2 := Owing(Idle), 3 := Installed(2, EDITOR), 4 := Owing(Idle)]
  {
    hide Run, Reachable;
    s := Extend(s0, DoStart(3));
    assert s.gate.round == Some(FreshRound(2, EDITOR, 0));
    s := Extend(s, DoResolve(4, "editor", 2, false));
    assert {} + {"editor"} == EDITOR;
  }

  lemma FirstWaiterParks(s0: System) returns (s: System)
    requires Reachable(s0) && s0.gate.terminal.Some? && s0.gate.terminal.value.epoch == 2
    requires s0.gate.round.None? && s0.notified == 0
    requires s0.pcs == map[1 := Looping(1, EDITOR), 2 := Owing(Idle), 3 := Installed(2, EDITOR), 4 := Owing(Idle)]
    ensures Reachable(s) && s.Quiet() && s.At(1) == Parked(1, {}, s.notified, None) && s.log == s0.log
  {
    hide Run, Reachable;
    s := Extend(s0, Advance(2));
    s := Extend(s, Advance(4));
    s := Extend(s, Advance(1));
    s := Extend(s, Advance(1));
    s := Extend(s, Advance(1));
    s := Extend(s, WakeReceiver(1, "editor"));
    assert EDITOR - {"editor"} == {};
    s := Extend(s, Advance(1));
    s := Extend(s, Advance(1));
    s := Extend(s, Advance(1));
  }

  // ----- what a lost start reports ---------------------------------------------------------------------------

  /** A start that could not be announced reports the round's own result if and
      only if no later round had ended when it read the slot, or the round itself
      ended as a bare cancel; otherwise it reports a bare cancel. */
  lemma LostStartIsTruthfulIff(s: System, j: nat)
    requires Reachable(s) && j < |s.log| && s.log[j].StartLost?
    ensures var e, o := s.log[j].epoch, s.log[j].outcome;
            && HasEnded(s.log[..j], e)
            && (HasEndedAs(s.log, e, o) <==> !LaterEnded(s.log[..j], e) || HasEndedAs(s.log, e, BareCancel(e)))
            && (LaterEnded(s.log[..j], e) ==> o == BareCancel(e))
  {
    ReachableLawful(s);
    hide CancelsFollow, GateReflects, GateInv;
    var h := s.log;
    var e, o := h[j].epoch, h[j].outcome;
    assert Legal(h[..j], h[j]);
    hide Lawful, Legal, LaterEnded;
    if HasEndedAs(h[..j], e, o) { EndedAsLater(h, j, e, o); }
  }

  lemma EndedAsLater(h: History, j: nat, e: nat, o: Outcome)
    requires j <= |h| && HasEndedAs(h[..j], e, o)
    ensures HasEndedAs(h, e, o)
  {
    var x :| x in h[..j] && x.Ended? && x.epoch == e && x.outcome == o;
    assert x in h;
  }

  /** The history of a start that reports a cancel of a round that its window destroyed. */
  function Misreport(): History {
    [Opened(1, EDITOR), Ended(1, Aborted(1, Destroyed, {}, EDITOR), false, {}), GatesTold(1, EDITOR),
     Opened(2, {}), Ended(2, Exiting(2), false, {}), StartLost(1, BareCancel(1))]
  }

  /** The announcement of round 1 fails, its window is destroyed and a second
      round ends, all before the start reads its result. */
  lemma StartCanMisreport() returns (s: System)
    ensures Reachable(s) && s.log == Misreport()
    ensures StartLost(1, BareCancel(1)) in s.log && !HasEndedAs(s.log, 1, BareCancel(1))
    ensures HasEndedAs(s.log, 1, Aborted(1, Destroyed, {}, EDITOR))
  {
    s := Unannounced1();
    s := EmptyRound(s);
    s := ReadsTooLate(s);
    MisreportEnds();
  }

  /** A second round that asks nobody ends at once. */
  lemma EmptyRound(s0: System) returns (s: System)
    requires Reachable(s0) && s0.log == Misreport()[..3] && s0.now == 0
    requires s0.gate == Gate(1, {}, None, Some(Terminal(1, Aborted(1, Destroyed, {}, EDITOR))), false)
    requires s0.pcs == map[1 := Unannounced(1), 2 := Owing(Idle)]
    ensures Reachable(s) && s.log == Misreport()[..5] && s.At(1) == Unannounced(1)
    ensures s.gate == Gate(2, {}, None, Some(Terminal(2, Exiting(2))), false)
  {
    hide Run, Reachable;
    s := Extend(s0, DoStart(3));
    s := Extend(s, Announce(3, true));
    s := Extend(s, Advance(3));
  }

  lemma ReadsTooLate(s0: System) returns (s: System)
    requires Reachable(s0) && s0.At(1) == Unannounced(1)
    requires s0.gate == Gate(2, {}, None, Some(Terminal(2, Exiting(2))), false)
    ensures Reachable(s) && s.log == s0.log + [StartLost(1, BareCancel(1))]
  {
    hide Run, Reachable;
    s := Extend(s0, Advance(1));
    s := Extend(s, Advance(1));
  }

  lemma Unannounced1() returns (s: System)
    ensures Reachable(s) && s.gate == Gate(1, {}, None, Some(Terminal(1, Aborted(1, Destroyed, {}, EDITOR))), false)
    ensures s.pcs == map[1 := Unannounced(1), 2 := Owing(Idle)] && s.now == 0
    ensures s.log == Misreport()[..3]
  {
    assert Run(START, [], START);
    hide Run, Reachable;
    s := Extend(START, DoRegister(2, "editor"));
    assert s.gate.registered == EDITOR;
    s := Extend(s, DoStart(1));
    s := Extend(s, Announce(1, false));
    assert EDITOR - {"editor"} == {};
    s := Extend(s, DoTeardown(2, "editor", Destroyed));
  }

  lemma MisreportEnds()
    ensures var h := Misreport();
            && StartLost(1, BareCancel(1)) in h && !HasEndedAs(h, 1, BareCancel(1))
            && HasEndedAs(h, 1, Aborted(1, Destroyed, {}, EDITOR))
  {
    var h := Misreport();
    assert h[1] in h && h[5] in h;
    assert "editor" in EDITOR;
  }
}
