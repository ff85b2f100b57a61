/** What the main window (src/main/App.tsx) guarantees over every run of quit rounds. */
module QuitUiTheorems {
  import opened Wrappers
  import opened QuitUiRules
  import opened QuitUiRuns
  import opened QuitUiInvariant

  // ----- reading a lawful history -------------------------------------------------------------

  ghost predicate HasSuppressed(h: History, r: nat) {
    exists x | x in h :: x.Suppressed? && x.round == r
  }

  ghost predicate HasEnded(h: History, r: nat) {
    exists x | x in h :: x.Ended? && x.round == r
  }

  ghost predicate HasUnusable(h: History, r: nat) {
    exists x | x in h :: x.Unusable? && x.round == r && Unhelpful(x.reply)
  }

  /** The marks of a round are exactly what its history contains. */
  ghost predicate Faithful(h: History, r: nat) {
    var m := MarksOf(h, r);
    && (m.begun <==> Begun(r) in h)
    && (forall e: nat :: m.bound == Some(e) <==> Bound(r, e) in h)
    && (m.earned <==> Earned(r) in h)
    && (m.suppressed <==> HasSuppressed(h, r))
    && (m.unusable <==> HasUnusable(h, r))
    && (m.Over() <==> HasEnded(h, r))
    && (m.end.Some? ==> Ended(r, m.end.value.how, m.end.value.about) in h)
    && (forall how, about :: Ended(r, how, about) in h ==> m.end == Some(Ending(how, about)))
  }

  lemma {:induction false} MarksAreFaithful(h: History, r: nat)
    requires Lawful(h)
    ensures Faithful(h, r)
  {
    if h != [] {
      var n := |h| - 1;
      var h', ev := h[..n], h[n];
      assert h == h' + [ev];
      Shorter(h, n);
      MarksAreFaithful(h', r);
      MarksAppend(h', ev, r);
      assert Legal(h', ev);
      hide Lawful, Legal, MarksOf;
      StillFaithful(h', ev, r);
    }
  }

  lemma StillFaithful(h: History, ev: Event, r: nat)
    requires Faithful(h, r) && Permits(MarksOf(h, ev.round), ev)
    requires MarksOf(h + [ev], r) == if ev.round == r then Marked(MarksOf(h, r), ev) else MarksOf(h, r)
    ensures Faithful(h + [ev], r)
  {
    hide MarksOf;
    var h' := h + [ev];
    assert forall x :: x in h' <==> x in h || x == ev;
  }

  lemma LegalAt(h: History, i: nat)
    requires Lawful(h) && i < |h|
    ensures Permits(MarksOf(h[..i], h[i].round), h[i]) && Lawful(h[..i]) && Faithful(h[..i], h[i].round)
  {
    assert Legal(h[..i], h[i]);
    Shorter(h, i);
    MarksAreFaithful(h[..i], h[i].round);
  }

  lemma Prefix(h: History, i: nat, j: nat)
    requires i < j <= |h|
    ensures h[..j][i] == h[i] && h[i] in h[..j] && h[..j][..i] == h[..i]
  {
  }

  lemma LawfulLog(u: Ui)
    requires Reachable(u)
    ensures Lawful(u.log)
  {
    hide Lawful, ScreenOk, RoundsOk, AttemptsOk;
    ReachableInv(u);
  }

  // ----- epochs -------------------------------------------------------------------------------------

  /** A round is bound at most once, to an epoch it then keeps. */
  lemma BoundOnce(u: Ui, r: nat, e: nat, e': nat)
    requires Reachable(u) && Bound(r, e) in u.log && Bound(r, e') in u.log
    ensures e == e' && r < |u.app.rounds| && u.app.rounds[r].epoch == Some(e) && IsLiveEpoch(e)
  {
    hide Lawful, MarksOf, ActiveOk, AttemptsOk, ScreenOk;
    ReachableInv(u);
    MarksAreFaithful(u.log, r);
    AtRound(u, r);
  }

  // ----- attempts ------------------------------------------------------------------------------------

  lemma {:induction false} SendsCounted(h: History, i: nat, r: nat)
    requires i < |h| && h[i].StartSent? && h[i].round == r
    ensures MarksOf(h, r).sends >= MarksOf(h[..i], r).sends + 1
  {
    var n := |h| - 1;
    MarksAppend(h[..n], h[n], r);
    assert h == h[..n] + [h[n]];
    if i < n {
      SendsCounted(h[..n], i, r);
      assert h[..n][..i] == h[..i];
    }
  }

  /** Each round asks the backend to quit at most twice, under distinct attempts,
      and only while no epoch is bound. */
  lemma AtMostTwoStarts(u: Ui, i: nat, j: nat, k: nat)
    requires Reachable(u) && i < j < k < |u.log|
    requires u.log[i].StartSent? && u.log[j].StartSent? && u.log[k].StartSent?
    requires u.log[i].round == u.log[j].round
    ensures u.log[k].round != u.log[i].round
    ensures u.log[i].attempt < u.log[j].attempt < u.log[k].attempt
  {
    hide Lawful, MarksOf;
    LawfulLog(u);
    var h, r := u.log, u.log[i].round;
    AttemptsIncrease(h, i, j);
    AttemptsIncrease(h, j, k);
    if h[k].round == r {
      Prefix(h, i, j);
      Prefix(h, j, k);
      SendsCounted(h[..j], i, r);
      SendsCounted(h[..k], j, r);
      LegalAt(h, k);
    }
  }

  lemma AttemptsIncrease(h: History, i: nat, j: nat)
    requires Lawful(h) && i < j < |h| && h[i].StartSent? && h[j].StartSent?
    ensures h[i].attempt < h[j].attempt
  {
    assert Legal(h[..j], h[j]);
    assert h[..j][i] == h[i];
  }

  lemma StartsWhileUnbound(u: Ui, i: nat, j: nat, e: nat)
    requires Reachable(u) && i < |u.log| && j < |u.log|
    requires u.log[i].StartSent? && u.log[j] == Bound(u.log[i].round, e)
    ensures i < j
  {
    hide Lawful, MarksOf;
    LawfulLog(u);
    if j < i { Prefix(u.log, j, i); }
    LegalAt(u.log, i);
  }

  // ----- Force ------------------------------------------------------------------------------------------

  /** Force is sent only for the bound epoch of a round that has earned it and
      is neither suppressed nor over. */
  lemma ForceIsEarned(u: Ui, i: nat)
    requires Reachable(u) && i < |u.log| && u.log[i].ForceSent?
    ensures var r := u.log[i].round;
            && Bound(r, u.log[i].epoch) in u.log[..i] && Earned(r) in u.log[..i]
            && !HasSuppressed(u.log[..i], r) && !HasEnded(u.log[..i], r)
  {
    hide Lawful, MarksOf;
    LawfulLog(u);
    LegalAt(u.log, i);
  }

  /** The offer and the dialog are shown only for an active round that has
      earned Force and whose epoch is bound; never both. */
  lemma ForceShownWhenEarned(u: Ui)
    requires Reachable(u) && !u.disposed && (u.app.offerVisible || u.app.dialogVisible)
    ensures u.app.active.Some? && u.app.active.value < |u.app.rounds|
    ensures !(u.app.offerVisible && u.app.dialogVisible)
    ensures var r := u.app.active.value;
            && Earned(r) in u.log && !HasSuppressed(u.log, r) && !HasEnded(u.log, r)
            && u.app.rounds[r].epoch.Some? && Bound(r, u.app.rounds[r].epoch.value) in u.log
  {
    hide Lawful, MarksOf;
    ReachableInv(u);
    var r := u.app.active.value;
    AtActive(u, r);
    MarksAreFaithful(u.log, r);
  }

  /** The dialog's confirmation always sends Force, at once, for the bound epoch. */
  lemma ConfirmSends(u: Ui)
    requires Reachable(u) && !u.disposed && u.app.dialogVisible
    ensures ActiveKnown(u) && u.app.active.Some? && u.app.rounds[u.app.active.value].epoch.Some?
    ensures var r := u.app.active.value;
            Apply(u, Confirm).log == u.log + [ForceSent(r, u.app.rounds[r].epoch.value)]
  {
    hide Lawful, MarksOf;
    ReachableInv(u);
    AtActive(u, u.app.active.value);
  }

  // ----- ends --------------------------------------------------------------------------------------------

  /** A round ends at most once, and nothing of it happens afterwards. */
  lemma EndsOnce(u: Ui, i: nat, j: nat)
    requires Reachable(u) && i < j < |u.log| && u.log[i].Ended?
    ensures u.log[j].round != u.log[i].round
  {
    hide Lawful, MarksOf;
    LawfulLog(u);
    Prefix(u.log, i, j);
    LegalAt(u.log, j);
  }

  /** A round begins only when all rounds before it have ended. */
  lemma OneRoundAtATime(u: Ui, i: nat, j: nat)
    requires Reachable(u) && i < j < |u.log| && u.log[i].Begun? && u.log[j].Begun?
    ensures u.log[i].round < u.log[j].round && HasEnded(u.log[..j], u.log[i].round)
  {
    hide Lawful, MarksOf;
    LawfulLog(u);
    BegunInTurn(u.log, i, j);
  }

  lemma BegunInTurn(h: History, i: nat, j: nat)
    requires Lawful(h) && i < j < |h| && h[i].Begun? && h[j].Begun?
    ensures h[i].round < h[j].round && HasEnded(h[..j], h[i].round)
  {
    hide MarksOf;
    NotLater(h, i, j);
    assert Legal(h[..j], h[j]);
    Shorter(h, j);
    MarksAreFaithful(h[..j], h[i].round);
    Prefix(h, i, j);
    LegalAt(h, j);
  }

  /** A round that has not begun has not ended either. */
  lemma NotLater(h: History, i: nat, j: nat)
    requires Lawful(h) && i < j < |h| && h[i].Begun? && h[j].Begun?
    ensures h[i].round <= h[j].round
  {
    hide MarksOf;
    var s := h[j].round;
    if s < h[i].round {
      assert Legal(h[..i], h[i]);
      Shorter(h, i);
      MarksAreFaithful(h[..i], s);
      EndedStays(h, i, j, s);
      LegalAt(h, j);
    }
  }

  lemma EndedStays(h: History, i: nat, j: nat, r: nat)
    requires i <= j <= |h| && HasEnded(h[..i], r)
    ensures HasEnded(h[..j], r)
  {
    var x :| x in h[..i] && x.Ended? && x.round == r;
    var k: nat :| k < i && h[..i][k] == x;
    assert h[..j][k] == x;
  }

  /** A failure is shown only after two attempts, with no epoch bound. */
  lemma FailsAfterTwo(u: Ui, i: nat)
    requires Reachable(u) && i < |u.log| && u.log[i].Ended? && u.log[i].how == ByFailure
    ensures MarksOf(u.log[..i], u.log[i].round).sends == 2
    ensures forall e: nat :: Bound(u.log[i].round, e) !in u.log[..i]
  {
    hide Lawful, MarksOf;
    LawfulLog(u);
    LegalAt(u.log, i);
  }

  /** An active round always has something to wait for: an answer, a timer, or
      the end of its epoch; unless the backend's answer was of no use. */
  lemma NeverStuck(u: Ui, r: nat)
    requires Reachable(u) && u.app.active == Some(r)
    ensures Known(u, r)
    ensures u.pcs[r].Resting? && !u.app.rounds[r].graceTimer && u.app.rounds[r].epoch.None? ==> HasUnusable(u.log, r)
  {
    hide Lawful, MarksOf;
    ReachableInv(u);
    AtActive(u, r);
    MarksAreFaithful(u.log, r);
  }

  // ----- the screen -----------------------------------------------------------------------------

  /** The errors that were noted for a round, in order. */
  function Errors(h: History, r: nat): seq<string> {
    if h == [] then []
    else
      var before, ev := Errors(h[..|h| - 1], r), h[|h| - 1];
      if ev.Rejected? && ev.round == r then before + [ev.error] else before
  }

  lemma {:induction false} ErrorsAreNoted(h: History, r: nat)
    ensures MarksOf(h, r).rejected == Errors(h, r)
  {
    if h != [] { ErrorsAreNoted(h[..|h| - 1], r); }
  }

  /** While no later round has begun, the end of a round decides what is shown: an
      abort shows exactly the reason and the labels of the reply that ended the
      round, a failure both errors in order, anything else nothing. */
  lemma EndDecidesScreen(u: Ui, i: nat)
    requires Reachable(u) && i < |u.log| && u.log[i].Ended?
    requires forall j | i < j < |u.log| :: !u.log[j].Begun?
    ensures !u.app.inProgress && u.app.active.None?
    ensures u.log[i].how == ByExit || u.log[i].how == ByStale ==> u.app.status == Hidden
    ensures u.log[i].how == ByAbort ==>
              && u.log[i].about.Some? && u.log[i].about.value.reply.kind == Aborted
              && var reply := u.log[i].about.value.reply;
                 u.app.status == QuitAborted(reply.reason, reply.refusing, reply.unanswered)
    ensures u.log[i].how == ByFailure ==>
              |Errors(u.log, u.log[i].round)| == 2 && u.app.status == QuitFailed(Errors(u.log, u.log[i].round))
  {
    hide Lawful, MarksOf, RoundsOk, AttemptsOk, ScreenOk;
    ReachableInv(u);
    var r := u.log[i].round;
    LastEnded(u, i);
    EndMarks(u, i);
    ErrorsAreNoted(u.log, r);
    assert u.app.inProgress == false && u.app.active.None? by { NotInProgress(u); }
  }

  lemma EndMarks(u: Ui, i: nat)
    requires Inv(u) && i < |u.log| && u.log[i].Ended?
    ensures MarksOf(u.log, u.log[i].round).end == Some(Ending(u.log[i].how, u.log[i].about))
    ensures u.app.rounds[u.log[i].round].ended
    ensures u.log[i].how == ByAbort ==> u.log[i].about.Some? && u.log[i].about.value.reply.kind == Aborted
  {
    hide MarksOf, AttemptsOk, ScreenOk, StatusOk;
    var r := u.log[i].round;
    MarksAreFaithful(u.log, r);
    assert u.log[i] in u.log && u.log[i] == Ended(r, u.log[i].how, u.log[i].about);
    AtRound(u, r);
    LegalAt(u.log, i);
  }

  lemma NotInProgress(u: Ui)
    requires ScreenOk(u) && u.app.rounds != [] && u.app.rounds[|u.app.rounds| - 1].ended
    ensures !u.app.inProgress && u.app.active.None?
  {
  }

  /** A round after which none has begun is the last one. */
  lemma LastEnded(u: Ui, i: nat)
    requires Inv(u) && i < |u.log| && u.log[i].Ended?
    requires forall j | i < j < |u.log| :: !u.log[j].Begun?
    ensures u.log[i].round == |u.app.rounds| - 1
  {
    hide MarksOf, AttemptsOk, ScreenOk, StatusOk;
    var r, q := u.log[i].round, |u.app.rounds| - 1;
    assert r <= q;
    if r < q {
      MarksAreFaithful(u.log, q);
      AtRound(u, q);
      var j: nat :| j < |u.log| && u.log[j] == Begun(q);
      BeganAfter(u.log, i, j);
    }
  }

  lemma BeganAfter(h: History, i: nat, j: nat)
    requires Lawful(h) && i < |h| && j < |h| && h[i].Ended? && h[j].Begun? && h[i].round < h[j].round
    ensures i < j
  {
    hide MarksOf;
    if j <= i {
      assert Legal(h[..j], h[j]);
      Shorter(h, j);
      MarksAreFaithful(h[..j], h[i].round);
      EndedStays(h, j, i, h[i].round);
      LegalAt(h, i);
    }
  }
}
