/** Every step of both halves together keeps what ties them. */
module QuitHandshakeInvariant {
  import opened Wrappers
  import opened QuitRules
  import opened QuitHandshake
  import G = QuitRuns
  import GI = QuitInvariant
  import GL = QuitLosses
  import GT = QuitTheorems
  import UR = QuitUiRules
  import U = QuitUiRuns
  import UI = QuitUiInvariant
  import UT = QuitUiTheorems

  // ----- the gate's log -----------------------------------------------------------------------

  ghost predicate OnlyForced(h: G.History, h': G.History, a: G.Action) {
    && h <= h'
    && (forall x | x in h' && x.Ended? && x.forced :: x in h || (a.DoForce? && x.epoch == Target(a.target)))
  }

  lemma CommitLog(s: G.System, t: nat, sec: Section, next: G.Pc, seen: G.History, forced: bool, a: G.Action)
    requires forall x | x in seen :: !x.Ended?
    requires forced && s.gate.round.Some? && sec.gate.round.None? ==> a.DoForce? && s.gate.round.value.epoch == Target(a.target)
    ensures OnlyForced(s.log, G.Commit(s, t, sec, next, seen, forced).log, a)
  {
    var more := G.EndEvents(s.gate, sec, forced);
    assert forall x | x in more && x.Ended? :: x.forced == forced && s.gate.round.Some? && sec.gate.round.None? && x.epoch == s.gate.round.value.epoch;
    assert s.log + seen + more == s.log + (seen + more);
  }

  lemma AdvanceLog(s: G.System, t: nat, a: G.Action)
    requires G.CanAdvance(s.At(t))
    ensures OnlyForced(s.log, G.AdvanceFrom(s, t).log, a)
  {
    hide Abort, FinalizeConsent, ClaimExit;
    match s.At(t) {
      case Unannounced(e) => CommitLog(s, t, Abort(s.gate, e, Cancelled), G.ReadBack(e), [], false, a);
      case Announced(e, unread) => CommitLog(s, t, FinalizeConsent(s.gate, e), G.Looping(e, unread), [], false, a);
      case Condemned(e, unread) => CommitLog(s, t, Abort(s.gate, e, Timeout), G.Looping(e, unread), [], false, a);
      case Dropping(e) => CommitLog(s, t, Abort(s.gate, e, Cancelled), G.Idle, [], false, a);
      case _ =>
    }
  }

  /** The log only grows, and only a Force ends a round as forced. */
  lemma GateLog(s: G.System, a: G.Action)
    requires G.Enabled(s, a)
    ensures OnlyForced(s.log, G.Apply(s, a).log, a)
  {
    hide Resolve, Teardown, Progress, Abort, FinalizeConsent, Force, Install, ClaimExit;
    match a {
      case DoTeardown(t, who, reason) => CommitLog(s, t, Teardown(s.gate, who, reason, s.now), G.Idle, [], false, a);
      case DoResolve(t, who, e, c) => CommitLog(s, t, Resolve(s.gate, who, e, c, s.now), G.Idle, G.Answer(s, a), false, a);
      case DoProgress(t, who, e, busy) => CommitLog(s, t, Progress(s.gate, who, e, busy, s.now), G.Idle, [], false, a);
      case DoForce(t, target) =>
        if s.gate.Live(Target(target)) {
          CommitLog(s, t, Force(s.gate, Target(target)), G.Forced(Target(target)), [], true, a);
        }
      case Advance(t) => AdvanceLog(s, t, a);
      case _ =>
    }
  }

  // ----- facts stay true as the logs grow ---------------------------------------------------------

  lemma MemberStays(h: G.History, h': G.History)
    requires h <= h'
    ensures forall x | x in h :: x in h'
  {
  }

  lemma BackedStays(h: G.History, h': G.History, ev: U.Event)
    requires h <= h' && Backed(h, ev)
    ensures Backed(h', ev)
  {
    MemberStays(h, h');
  }

  // ----- steps of the gate --------------------------------------------------------------------------

  /** The gate moves, and nothing else that `Cross` speaks of but stale answers. */
  lemma GateMoves(s: Shell, g: G.Action, s': Shell)
    requires Inv(s) && G.Enabled(s.gate, g) && s'.gate == G.Apply(s.gate, g) && s'.ui == s.ui
    requires g.DoForce? ==> g.target.Some? && ForceAsked(s.ui.log, g.target.value)
    requires forall e | e in s'.stales :: e in s.stales || (ForceAsked(s.ui.log, e) && !s.gate.gate.Live(e))
    ensures G.Reachable(s'.gate) && Cross(s') && s.gate.log <= s'.gate.log
  {
    hide G.Reachable, U.Reachable, Backed, G.Apply, G.Enabled, Calls;
    var next := GL.Extend(s.gate, g);
    GateLog(s.gate, g);
    forall ev | ev in s'.ui.log ensures Backed(s'.gate.log, ev) {
      BackedStays(s.gate.log, s'.gate.log, ev);
    }
    forall e | e in s'.stales ensures G.HasEnded(s'.gate.log, e) {
      if e !in s.stales { StaleEnded(s, e); }
      var x :| x in s.gate.log && x.Ended? && x.epoch == e;
      assert x in s'.gate.log;
    }
  }

  lemma GateStepKeeps(s: Shell, g: G.Action)
    requires Inv(s) && Enabled(s, GateStep(g))
    ensures Inv(Apply(s, GateStep(g)))
  {
    hide G.Reachable, U.Reachable, G.Apply, Cross;
    var s' := Apply(s, GateStep(g));
    GateMoves(s, g, s');
    EpochsStay(s.gate, g);
    assert Calls(s');
  }

  /** Only a start opens a round. */
  lemma EpochsStay(s: G.System, g: G.Action)
    requires G.Enabled(s, g) && !g.DoStart?
    ensures s.gate.nextEpoch <= G.Apply(s, g).gate.nextEpoch
    ensures forall x | x in G.Apply(s, g).log && x.Opened? :: x in s.log
  {
    hide Register, Resolve, Teardown, Progress, Abort, FinalizeConsent, Force, ClaimExit;
    NextEpochs(s.gate);
    if g.Advance? { AdvanceOpens(s, g.task); }
  }

  lemma AdvanceOpens(s: G.System, t: nat)
    requires G.CanAdvance(s.At(t))
    ensures s.gate.nextEpoch <= G.AdvanceFrom(s, t).gate.nextEpoch
    ensures forall x | x in G.AdvanceFrom(s, t).log && x.Opened? :: x in s.log
  {
    hide Abort, FinalizeConsent, ClaimExit;
    NextEpochs(s.gate);
  }

  lemma NextEpochs(g: Gate)
    ensures forall who :: Register(g, who).nextEpoch == g.nextEpoch
    ensures forall who, reason, now :: Teardown(g, who, reason, now).gate.nextEpoch == g.nextEpoch
    ensures forall who, e, yes, now :: Resolve(g, who, e, yes, now).gate.nextEpoch == g.nextEpoch
    ensures forall who, e, busy, now :: Progress(g, who, e, busy, now).gate.nextEpoch == g.nextEpoch
    ensures forall e, reason :: Abort(g, e, reason).gate.nextEpoch == g.nextEpoch
    ensures forall e :: FinalizeConsent(g, e).gate.nextEpoch == g.nextEpoch
    ensures forall e :: ClaimExit(g, e).nextEpoch == g.nextEpoch
    ensures forall e :: g.nextEpoch <= Force(g, e).gate.nextEpoch
  {
  }

  lemma CallStartKeeps(s: Shell, t: nat, r: nat, attempt: nat)
    requires Inv(s) && Enabled(s, CallStart(t, r, attempt))
    ensures Inv(Apply(s, CallStart(t, r, attempt)))
  {
    hide G.Reachable, U.Reachable, Cross;
    var s' := Apply(s, CallStart(t, r, attempt));
    GateMoves(s, G.DoStart(t), s');
    forall a | a in s'.served ensures Sent(s'.ui.log, a) {
      if a !in s.served { assert U.StartSent(r, a) in s.ui.log; }
    }
  }

  /** Force is asked only for rounds that were opened, so a stale one has ended. */
  lemma StaleEnded(s: Shell, e: nat)
    requires Inv(s) && ForceAsked(s.ui.log, e) && !s.gate.gate.Live(e)
    ensures G.HasEnded(s.gate.log, e)
  {
    hide G.Reachable, U.Reachable, GateInv, G.Lawful, G.CancelsFollow;
    var x :| x in s.ui.log && x.ForceSent? && x.epoch == e;
    BoundIfForced(s.ui, x);
    assert Backed(s.gate.log, U.Bound(x.round, e));
    GT.ReachableLawful(s.gate);
  }

  lemma BoundIfForced(u: U.Ui, x: U.Event)
    requires U.Reachable(u) && x in u.log && x.ForceSent?
    ensures U.Bound(x.round, x.epoch) in u.log && U.Earned(x.round) in u.log
  {
    hide U.Reachable;
    var i :| 0 <= i < |u.log| && u.log[i] == x;
    UT.ForceIsEarned(u, i);
  }

  // ----- steps of the window --------------------------------------------------------------------------

  /** What a step of the window may add to its log. */
  ghost predicate Adds(a: U.Action, ev: U.Event) {
    match ev
    case Bound(_, e) =>
      || (a.StartedArrives? && a.epoch == e)
      || (a.StartSettles? && a.result.Some? && a.result.value.kind == UR.InFlight && a.result.value.epoch == e)
    case Suppressed(_, e) => a.CancelledArrives? && a.epoch == e
    case Unusable(_, reply) => a.StartSettles? && a.result == Some(reply)
    case Ended(_, how, about) =>
      about.Some? ==> EndsRound(a, how, about.value)
    case _ => true
  }

  ghost predicate EndsRound(a: U.Action, how: U.How, said: U.Said) {
    && Final(said.reply, how)
    && ((a.StartSettles? && a.result == Some(said.reply) && said.reply.epoch == said.epoch)
        || (a.OutcomeArrives? && a.reply == said.reply && said.reply.epoch == said.epoch)
        || (a.ForceSettles? && a.result == Some(said.reply) && a.target == said.epoch))
  }

  ghost predicate Final(reply: UR.Reply, how: U.How) {
    how == U.HowOf(reply.kind) && (reply.kind == UR.Exiting || reply.kind == UR.Aborted || reply.kind == UR.Stale)
  }

  ghost predicate Extends(h: U.History, h': U.History, a: U.Action) {
    h <= h' && forall ev | ev in h' && ev !in h :: Adds(a, ev)
  }

  /** The difference of two round states shows in `Seen`. */
  lemma SeenAdds(x: UR.Round, x': UR.Round, r: nat, how: U.How, about: Option<U.Said>, a: U.Action)
    requires x.epoch.None? && x'.epoch.Some? ==> Adds(a, U.Bound(r, x'.epoch.value))
    requires !x.suppressed && x'.suppressed && x.epoch.Some? ==> Adds(a, U.Suppressed(r, x.epoch.value))
    requires !x.ended && x'.ended ==> Adds(a, U.Ended(r, how, about))
    ensures forall ev | ev in U.Seen(x, x', r, how, about) :: Adds(a, ev)
  {
  }

  lemma MoveAdds(u: U.Ui, r: nat, app: UR.App, pc: U.Pc, how: U.How, about: Option<U.Said>, more: U.History, a: U.Action)
    requires r < |u.app.rounds| && r < |app.rounds| && r < |u.pcs|
    requires var x, x' := u.app.rounds[r], app.rounds[r];
             && (x.epoch.None? && x'.epoch.Some? ==> Adds(a, U.Bound(r, x'.epoch.value)))
             && (!x.suppressed && x'.suppressed && x.epoch.Some? ==> Adds(a, U.Suppressed(r, x.epoch.value)))
             && (!x.ended && x'.ended ==> Adds(a, U.Ended(r, how, about)))
    requires forall ev | ev in more :: Adds(a, ev)
    ensures Extends(u.log, U.Move(u, r, app, pc, how, about, more).log, a)
  {
    hide Adds, U.Seen;
    SeenAdds(u.app.rounds[r], app.rounds[r], r, how, about, a);
    var seen := U.Seen(u.app.rounds[r], app.rounds[r], r, how, about);
    assert u.log + seen + more == u.log + (seen + more);
  }

  lemma EndByChanges(app: UR.App, r: nat, reply: UR.Reply)
    requires r < |app.rounds|
    ensures var x, app' := app.rounds[r], UR.EndBy(app, r, reply);
            && |app'.rounds| == |app.rounds|
            && app'.rounds[r].epoch == x.epoch && app'.rounds[r].suppressed == x.suppressed
            && (!x.ended && app'.rounds[r].ended ==> Final(reply, U.HowOf(reply.kind)))
  {
    hide UR.End;
    EndChanges(app, r, UR.Hidden);
    EndChanges(app, r, UR.AbortedStatus(reply));
  }

  lemma EndChanges(app: UR.App, r: nat, status: UR.Status)
    requires r < |app.rounds|
    ensures |UR.End(app, r, status).rounds| == |app.rounds|
    ensures UR.End(app, r, status).rounds[r] == if app.rounds[r].ended then app.rounds[r] else UR.Over(app.rounds[r])
  {
  }

  /** A result changes the round's epoch, or ends it, only as it says. */
  lemma ResultChanges(app: UR.App, r: nat, attempt: nat, reply: UR.Reply, error: string)
    requires r < |app.rounds|
    ensures var x, app' := app.rounds[r], UR.HandleNormal(app, r, attempt, Some(reply), error);
            && |app'.rounds| == |app.rounds| && app'.rounds[r].suppressed == x.suppressed
            && (x.epoch.None? && app'.rounds[r].epoch.Some? ==>
                  reply.kind == UR.InFlight && app'.rounds[r].epoch == Some(reply.epoch))
            && (!x.ended && app'.rounds[r].ended ==> Final(reply, U.HowOf(reply.kind)) && UR.IsLiveEpoch(reply.epoch))
  {
    hide UR.EndBy, Final, U.HowOf;
    EndByChanges(app, r, reply);
  }

  lemma StartSettlesAdds(u: U.Ui, r: nat, result: Option<UR.Reply>, error: string)
    requires U.Enabled(u, U.StartSettles(r, result, error))
    ensures Extends(u.log, U.Apply(u, U.StartSettles(r, result, error)).log, U.StartSettles(r, result, error))
  {
    var a := U.StartSettles(r, result, error);
    var attempt := u.pcs[r].attempt;
    var app := UR.HandleNormal(u.app, r, attempt, result, error);
    if result.None? {
      MoveAdds(u, r, app, U.Resting, U.ByFailure, None, [], a);
    } else {
      hide UR.HandleNormal, Final, U.HowOf, Extends;
      var reply := result.value;
      ResultChanges(u.app, r, attempt, reply, error);
      var lost := UR.StillCurrent(u.app, r, attempt) && U.Unhelpful(reply) && u.app.rounds[r].epoch.None?;
      MoveAdds(u, r, app, U.Resting, U.HowOf(reply.kind), U.SaidBy(reply), if lost then [U.Unusable(r, reply)] else [], a);
    }
  }

  lemma StartedAdds(u: U.Ui, a: U.Action)
    requires a.StartedArrives? && U.Enabled(u, a)
    ensures Extends(u.log, U.Apply(u, a).log, a)
  {
    MoveAdds(u, a.round, UR.HandleStarted(u.app, a.round, a.listener, a.attempt, a.epoch), u.pcs[a.round],
             U.ByFailure, None, [], a);
  }

  lemma ActiveAdds(u: U.Ui, app: UR.App, how: U.How, about: Option<U.Said>, a: U.Action)
    requires U.ActiveKnown(u) && |app.rounds| == |u.app.rounds|
    requires u.app.active.Some? ==>
               var r := u.app.active.value;
               var x, x' := u.app.rounds[r], app.rounds[r];
               && (x.epoch.None? && x'.epoch.Some? ==> Adds(a, U.Bound(r, x'.epoch.value)))
               && (!x.suppressed && x'.suppressed && x.epoch.Some? ==> Adds(a, U.Suppressed(r, x.epoch.value)))
               && (!x.ended && x'.ended ==> Adds(a, U.Ended(r, how, about)))
    ensures Extends(u.log, U.MoveActive(u, app, how, about).log, a)
  {
    hide Adds, U.Seen;
    if u.app.active.Some? {
      MoveAdds(u, u.app.active.value, app, u.pcs[u.app.active.value], how, about, [], a);
    }
  }

  lemma OutcomeAdds(u: U.Ui, reply: UR.Reply)
    requires U.Enabled(u, U.OutcomeArrives(reply))
    ensures Extends(u.log, U.Apply(u, U.OutcomeArrives(reply)).log, U.OutcomeArrives(reply))
  {
    ActiveAdds(u, UR.HandleOutcome(u.app, reply), U.HowOf(reply.kind), U.SaidBy(reply), U.OutcomeArrives(reply));
  }

  lemma CancelledAdds(u: U.Ui, epoch: int)
    requires U.Enabled(u, U.CancelledArrives(epoch))
    ensures Extends(u.log, U.Apply(u, U.CancelledArrives(epoch)).log, U.CancelledArrives(epoch))
  {
    ActiveAdds(u, UR.HandleCancelled(u.app, epoch), U.ByFailure, None, U.CancelledArrives(epoch));
  }

  lemma ClicksAdd(u: U.Ui, a: U.Action)
    requires (a.Offer? || a.KeepWaiting?) && U.Enabled(u, a)
    ensures Extends(u.log, U.Apply(u, a).log, a)
  {
    ActiveAdds(u, if a.Offer? then UR.ClickOffer(u.app) else UR.ClickKeepWaiting(u.app), U.ByFailure, None, a);
  }

  lemma TimersAdd(u: U.Ui, a: U.Action)
    requires (a.ForceTimer? || a.GraceTimer?) && U.Enabled(u, a)
    ensures Extends(u.log, U.Apply(u, a).log, a)
  {
    if a.ForceTimer? {
      MoveAdds(u, a.round, UR.ForceTimerFires(u.app, a.round), u.pcs[a.round], U.ByFailure, None, [], a);
    }
  }

  lemma ForceAdds(u: U.Ui, r: nat, e: nat, result: Option<UR.Reply>)
    requires U.Enabled(u, U.ForceSettles(r, e, result))
    ensures Extends(u.log, U.Apply(u, U.ForceSettles(r, e, result)).log, U.ForceSettles(r, e, result))
  {
    if result.Some? {
      hide UR.EndBy, Final, U.HowOf, Extends;
      EndByChanges(u.app, r, result.value);
      MoveAdds(u, r, UR.ForceAnswered(u.app, r, result), u.pcs[r], U.HowOf(result.value.kind), Some(U.Said(e, result.value)), [],
               U.ForceSettles(r, e, result));
    }
  }

  lemma UiLog(u: U.Ui, a: U.Action)
    requires U.Enabled(u, a)
    ensures Extends(u.log, U.Apply(u, a).log, a)
  {
    hide Extends;
    match a
    case StartSettles(r, result, error) => StartSettlesAdds(u, r, result, error);
    case StartedArrives(_, _, _, _, _) => StartedAdds(u, a);
    case OutcomeArrives(reply) => OutcomeAdds(u, reply);
    case CancelledArrives(epoch) => CancelledAdds(u, epoch);
    case ForceTimer(_) => TimersAdd(u, a);
    case GraceTimer(_) => TimersAdd(u, a);
    case Offer => ClicksAdd(u, a);
    case KeepWaiting => ClicksAdd(u, a);
    case ForceSettles(r, e, result) => ForceAdds(u, r, e, result);
    case ListenerReady(r, heard) => ListenerAdds(u, r, heard);
    case _ => OthersAdd(u, a);
  }

  lemma OthersAdd(u: U.Ui, a: U.Action)
    requires U.Enabled(u, a) && (a.CloseWindow? || a.FlushSettles? || a.Confirm? || a.Dispose?)
    ensures Extends(u.log, U.Apply(u, a).log, a)
  {
  }

  lemma ListenerAdds(u: U.Ui, r: nat, heard: bool)
    requires U.Enabled(u, U.ListenerReady(r, heard))
    ensures Extends(u.log, U.Apply(u, U.ListenerReady(r, heard)).log, U.ListenerReady(r, heard))
  {
    var attempt := u.pcs[r].attempt;
    if UR.StillCurrent(u.app, r, attempt) {
      var x := u.app.rounds[r].(listening := if heard then Some(attempt) else None);
      MoveAdds(u, r, u.app.With(r, x), U.Asking(attempt), U.ByFailure, None, [U.StartSent(r, attempt)],
               U.ListenerReady(r, heard));
    }
  }

  lemma {:induction false} UiSnoc(u: U.Ui, acts: seq<U.Action>, m: U.Ui, a: U.Action)
    requires U.Run(u, acts, m) && U.Enabled(m, a)
    ensures U.Run(u, acts + [a], U.Apply(m, a))
    decreases |acts|
  {
    hide U.Apply, U.Enabled;
    if acts == [] {
      assert [a][1..] == [];
    } else {
      UiSnoc(U.Apply(u, acts[0]), acts[1..], m, a);
      assert (acts + [a])[1..] == acts[1..] + [a];
    }
  }

  lemma UiExtend(u: U.Ui, a: U.Action)
    requires U.Reachable(u) && U.Enabled(u, a)
    ensures U.Reachable(U.Apply(u, a))
  {
    hide U.Apply, U.Enabled, U.Run;
    var acts :| U.Run(U.IDLE_UI, acts, u);
    UiSnoc(U.IDLE_UI, acts, u, a);
  }

  /** What the window heard backs what it notes. */
  lemma AddsBacked(s: Shell, a: U.Action, ev: U.Event)
    requires Inv(s) && Enabled(s, UiStep(a)) && Adds(a, ev)
    ensures Backed(s.gate.log, ev)
  {
    hide G.Reachable, U.Reachable, G.Enabled, U.Apply, G.Apply, Cross, Calls;
    match ev
    case Bound(_, e) => if a.StartSettles? { AnswerBacked(s, s.ui.pcs[a.round].attempt, a.result.value, e); }
    case Unusable(_, reply) => AnswerKnown(s, s.ui.pcs[a.round].attempt, reply);
    case Suppressed(_, e) => ToldAborted(s.gate, e);
    case Ended(_, how, about) => if about.Some? { EndBacked(s, a, how, about.value); }
    case _ =>
  }

  lemma ToldAborted(g: G.System, e: nat)
    requires G.Reachable(g) && exists x | x in g.log :: x.GatesTold? && x.epoch == e
    ensures EndedAborted(g.log, e)
  {
    hide G.Reachable;
    GT.ReachableLawful(g);
    var x :| x in g.log && x.GatesTold? && x.epoch == e;
    var j :| 0 <= j < |g.log| && g.log[j] == x;
    hide G.Lawful, G.CancelsFollow, G.GateReflects, GateInv;
    GT.ToldFacts(g.log, j);
    assert g.log[j - 1] in g.log;
  }

  lemma EndBacked(s: Shell, a: U.Action, how: U.How, said: U.Said)
    requires Inv(s) && U.Enabled(s.ui, a) && Heard(s, a) && EndsRound(a, how, said)
    ensures how == U.ByExit ==> G.HasEndedAs(s.gate.log, said.epoch, Exiting(said.epoch))
    ensures how == U.ByAbort ==>
              || AbortedAs(s.gate.log, said.epoch, said.reply)
              || (Overwritten(s.gate.log, said.epoch) && Carries(said.reply, G.BareCancel(said.epoch)))
    ensures how == U.ByStale ==> G.HasEnded(s.gate.log, said.epoch)
    ensures how != U.ByFailure
  {
    hide G.Reachable, U.Reachable;
    if a.StartSettles? {
      AnswerBacked(s, s.ui.pcs[a.round].attempt, said.reply, said.epoch);
    }
  }

  lemma AnswerBacked(s: Shell, attempt: nat, reply: UR.Reply, e: nat)
    requires G.Reachable(s.gate) && Answers(s, attempt, reply) && reply.epoch == e
    ensures reply.kind == UR.Exiting ==> G.HasEndedAs(s.gate.log, e, Exiting(e))
    ensures reply.kind == UR.Aborted ==>
              || AbortedAs(s.gate.log, e, reply)
              || (Overwritten(s.gate.log, e) && Carries(reply, G.BareCancel(e)))
    ensures reply.kind == UR.InFlight ==> Opened(s.gate.log, e)
    ensures reply.kind != UR.Stale
  {
    hide G.Reachable;
    var h := s.gate.log;
    if !(reply.kind == UR.InFlight && Opened(h, e)) {
      GT.ReachableLawful(s.gate);
      hide GateInv, G.CancelsFollow, G.GateReflects, G.Lawful, Carries;
      var j := ResultIndex(h, reply);
      ResultFacts(h, j);
      KindOf(reply, h[j].outcome);
    }
  }

  lemma ResultIndex(h: G.History, reply: UR.Reply) returns (j: nat)
    requires ResultOf(h, reply)
    ensures j < |h| && (h[j].Returned? || h[j].StartLost?) && h[j].epoch == reply.epoch && Carries(reply, h[j].outcome)
  {
    hide Carries;
    var x :| x in h && (x.Returned? || x.StartLost?) && x.epoch == reply.epoch && Carries(reply, x.outcome);
    j :| 0 <= j < |h| && h[j] == x;
  }

  lemma KindOf(reply: UR.Reply, o: Outcome)
    requires Carries(reply, o)
    ensures reply.kind == UR.Exiting <==> o.Exiting?
    ensures reply.kind == UR.Aborted <==> o.Aborted?
    ensures reply.kind == UR.Stale <==> o.Stale?
    ensures reply.kind == UR.InFlight <==> o.InFlight?
  {
  }

  lemma AnswerKnown(s: Shell, attempt: nat, reply: UR.Reply)
    requires Answers(s, attempt, reply)
    ensures reply.kind != UR.Other && exists x | x in s.gate.log :: x.epoch == reply.epoch
  {
  }

  /** A result is the round's own terminal outcome, except that a start which
      could not be announced reports a bare cancel exactly if a later round had
      ended when it read the slot. */
  lemma ResultFacts(h: G.History, j: nat)
    requires G.Lawful(h) && j < |h| && (h[j].Returned? || h[j].StartLost?)
    ensures var e, o := h[j].epoch, h[j].outcome;
            if h[j].StartLost? && G.LaterEnded(h[..j], e) then o == G.BareCancel(e) && Overwritten(h, e)
            else G.HasEndedAs(h, e, o) && o.epoch == e && (o.Exiting? || o.Aborted?)
  {
    assert G.Legal(h[..j], h[j]);
    hide G.Lawful;
    var e, o := h[j].epoch, h[j].outcome;
    if h[j].StartLost? && G.LaterEnded(h[..j], e) {
      MemberStays(h[..j], h);
    } else {
      EndedAsFacts(h, j, e, o);
    }
  }

  lemma EndedAsFacts(h: G.History, j: nat, e: nat, o: Outcome)
    requires G.Lawful(h) && j < |h| && G.HasEndedAs(h[..j], e, o)
    ensures G.HasEndedAs(h, e, o) && o.epoch == e && (o.Exiting? || o.Aborted?)
  {
    var x :| x in h[..j] && x.Ended? && x.epoch == e && x.outcome == o;
    var i: nat :| i < j && h[..j][i] == x;
    assert h[i] == x;
    assert G.Legal(h[..i], h[i]);
  }

  lemma UiStepKeeps(s: Shell, a: U.Action)
    requires Inv(s) && Enabled(s, UiStep(a))
    ensures Inv(Apply(s, UiStep(a)))
  {
    hide G.Reachable, U.Reachable, Backed, U.Apply, U.Enabled, Heard, Adds;
    var s' := Apply(s, UiStep(a));
    UiExtend(s.ui, a);
    UiLog(s.ui, a);
    forall ev | ev in s'.ui.log ensures Backed(s'.gate.log, ev) {
      if ev !in s.ui.log { AddsBacked(s, a, ev); }
    }
    forall x | x in s.gate.log && x.Ended? && x.forced ensures ForceAsked(s'.ui.log, x.epoch) {
      var y :| y in s.ui.log && y.ForceSent? && y.epoch == x.epoch;
      assert y in s'.ui.log;
    }
    forall attempt | attempt in s.served ensures Sent(s'.ui.log, attempt) {
      var y :| y in s.ui.log && y.StartSent? && y.attempt == attempt;
      assert y in s'.ui.log;
    }
  }

  lemma {:induction false} RunInv(s: Shell, acts: seq<Action>, s': Shell)
    requires Inv(s) && Run(s, acts, s')
    ensures Inv(s')
    decreases |acts|
  {
    hide Inv, Apply, Heard;
    if acts != [] {
      StepInv(s, acts[0]);
      RunInv(Apply(s, acts[0]), acts[1..], s');
    }
  }

  lemma StepInv(s: Shell, a: Action)
    requires Inv(s) && Enabled(s, a)
    ensures Inv(Apply(s, a))
  {
    hide Inv, Heard, Apply;
    match a
    case GateStep(g) => GateStepKeeps(s, g);
    case CallStart(t, r, attempt) => CallStartKeeps(s, t, r, attempt);
    case UiStep(u) => UiStepKeeps(s, u);
  }

  lemma ReachableInv(s: Shell)
    requires Reachable(s)
    ensures Inv(s)
  {
    var acts :| Run(FRESH_SHELL, acts, s);
    assert G.Run(G.START, [], G.START) && U.Run(U.IDLE_UI, [], U.IDLE_UI);
    assert Inv(FRESH_SHELL);
    hide Inv, Run;
    RunInv(FRESH_SHELL, acts, s);
  }
}
