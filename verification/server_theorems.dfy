/** What every run of the web server promises. */
module ServerTheorems {
  import opened Wrappers
  import opened ServerRules
  import opened ServerRuns
  import opened ServerInvariant

  // ----- reading a lawful history -------------------------------------------------------------

  lemma LegalAt(h: History, i: nat)
    requires Lawful(h) && i < |h|
    ensures Legal(h[..i], h[i])
  {
  }

  lemma Before(h: History, i: nat, j: nat)
    requires i < j < |h|
    ensures h[i] in h[..j]
  {
    assert h[..j][i] == h[i];
  }

  lemma LawfulLog(w: World)
    requires Reachable(w)
    ensures Lawful(w.log)
  {
    hide Lawful, LiveOk, OldsOk, ConnectionsOk;
    ReachableInv(w);
  }

  // ----- admission ---------------------------------------------------------------------------------

  /** The gate admits work only while its generation is the one that runs. */
  lemma OpenIffRunning(w: World, g: nat)
    requires Reachable(w) && g in w.supervisors
    ensures w.Gate(g).isOpen <==> w.control.Is(g) && w.control.current.value.lifecycle == Running
  {
    hide Lawful, MarksOf, ConnectionsOk, StepOk;
    ReachableInv(w);
  }

  /** A snapshot that says Running names the endpoint, and nothing about the
      gate keeps a running generation from admitting but its cancellation. */
  lemma RunningHasEndpoint(w: World)
    requires Reachable(w) && SnapshotOf(w.control).lifecycle == Running
    ensures SnapshotOf(w.control).endpoint.Some? && SnapshotOf(w.control).generation.Some?
    ensures var g := w.control.current.value;
            w.Gate(g.id).Admits() <==> !g.gate.cancelled
  {
    hide Lawful, MarksOf, ConnectionsOk, StepOk, OldsOk;
    ReachableInv(w);
  }

  /** A stop request takes effect at once: the current generation is stopping, its
      gate admits nothing more, and it has a deadline, this one if it had none. */
  lemma StopTakesEffect(w: World, until: nat)
    requires Reachable(w) && w.control.current.Some?
    ensures var g, c := w.control.current.value, Apply(w, RequestStop(until)).control;
            && c.Is(g.id) && c.current.value.lifecycle == Stopping && !c.current.value.gate.Admits()
            && c.current.value.deadline == (if g.deadline.None? then Some(until) else g.deadline)
            && c.current.value.gate.tokens == g.gate.tokens
  {
    hide Lawful, MarksOf, ConnectionsOk, StepOk, OldsOk;
    ReachableInv(w);
  }

  /** Once a gate was closed, no guard is issued any more. */
  lemma NoneAdmittedAfterClose(w: World, i: nat, j: nat)
    requires Reachable(w) && i < j < |w.log| && w.log[i].Closed?
    ensures !(w.log[j].Admitted? && w.log[j].generation == w.log[i].generation)
  {
    hide Lawful, Held, Reported;
    LawfulLog(w);
    LegalAt(w.log, j);
    Before(w.log, i, j);
  }

  /** A guard that is no longer held was given back. */
  lemma {:induction false} GivenBack(h: History, i: nat, g: nat, t: Token)
    requires i < |h| && h[i] == Admitted(g, t) && t !in Held(h, g)
    ensures exists j :: i < j < |h| && h[j] == Released(g, t)
  {
    var n := |h| - 1;
    assert h == h[..n] + [h[n]];
    HeldAppend(h[..n], h[n], g);
    if h[n] == Released(g, t) && i < n {
    } else {
      GivenBack(h[..n], i, g, t);
      var j :| i < j < n && h[..n][j] == Released(g, t);
      assert h[j] == Released(g, t);
    }
  }

  /** A generation is retired after all its work: every guard it issued was given
      back before, and nothing of it happens afterwards. */
  lemma DrainedBeforeRetired(w: World, i: nat, n: nat, t: Token)
    requires Reachable(w) && n < |w.log| && w.log[n].Retired? && i < |w.log|
    requires w.log[i] == Admitted(w.log[n].generation, t)
    ensures i < n && exists j :: i < j < n && w.log[j] == Released(w.log[n].generation, t)
  {
    hide Lawful, Reported;
    LawfulLog(w);
    var h, g := w.log, w.log[n].generation;
    LegalAt(h, n);
    if n < i {
      LegalAt(h, i);
      ClosedBefore(h, n, i);
      assert false;
    }
    GivenBack(h[..n], i, g, t);
    var j :| i < j < n && h[..n][j] == Released(g, t);
    assert h[j] == Released(g, t);
  }

  lemma ClosedBefore(h: History, n: nat, i: nat)
    requires Lawful(h) && n < i < |h| && h[n].Retired?
    ensures Closed(h[n].generation) in h[..i]
  {
    hide Held, Reported;
    LegalAt(h, n);
    var k :| 0 <= k < n && h[..n][k] == Closed(h[n].generation);
    Before(h, k, i);
  }

  /** In a retired generation both halves of every connection are gone. */
  lemma RetiredIsQuiet(w: World, g: nat)
    requires Reachable(w) && Retired(g) in w.log
    ensures w.Gate(g).tokens == {} && !w.Gate(g).isOpen && !w.control.Is(g)
    ensures forall k | k in w.connections && w.connections[k].generation == g :: w.connections[k].Gone?
    ensures g in w.supervisors && w.supervisors[g] == Done
  {
    hide Lawful, StepOk, Held;
    ReachableInv(w);
  }

  /** A frame runs only under a connection of the current generation. */
  lemma FramesAreAdmitted(w: World, k: nat)
    requires Reachable(w) && k in w.connections && w.connections[k].Serving? && w.connections[k].inFrame
    ensures var g := w.connections[k].generation;
            w.control.Is(g) && {ConnectionToken(k), FrameToken(k)} <= Held(w.log, g)
    ensures w.connections[k].receiving && Ran(w.connections[k].generation) in w.log
  {
    hide Lawful, StepOk, OldsOk, Held, Reported;
    ReachableInv(w);
    var gate := w.control.current.value.gate;
    assert ConnectionOk(w.connections[k], k, gate);
    RanIfHeld(w, w.connections[k].generation, FrameToken(k));
  }

  lemma RanIfHeld(w: World, g: nat, t: Token)
    requires Lawful(w.log) && t in Held(w.log, g)
    ensures Ran(g) in w.log
  {
    hide Lawful, Reported;
    var i := AdmissionOf(w.log, g, t);
    LegalAt(w.log, i);
    assert Ran(g) in w.log[..i];
  }

  lemma {:induction false} AdmissionOf(h: History, g: nat, t: Token) returns (i: nat)
    requires t in Held(h, g)
    ensures i < |h| && h[i] == Admitted(g, t)
  {
    var n := |h| - 1;
    assert h == h[..n] + [h[n]];
    HeldAppend(h[..n], h[n], g);
    if h[n] == Admitted(g, t) { i := n; } else { i := AdmissionOf(h[..n], g, t); }
  }

  // ----- what a step does to the control record -------------------------------------------------------

  /** The section of the control mutex that a supervisor's step enters, if any. */
  function Section(c: Control, step: Step, id: nat, down1: bool, down2: bool, down3: bool): Control {
    match step
    case Launched(output) =>
      if output == Server then PublishRunning(c, id, down1, down2, down3) else MoveToStopping(c, id)
    case Unpublished => MoveToStopping(c, id)
    case Halting => MoveToStopping(c, id)
    case Finishing => Finish(c, id)
    case _ => c
  }

  lemma SuperviseSection(w: World, id: nat, down1: bool, down2: bool, down3: bool)
    requires CanSupervise(w, id)
    ensures SuperviseStep(w, id, down1, down2, down3).control ==
            Section(w.control, w.supervisors[id], id, down1, down2, down3)
  {
    hide PublishRunning, Halt, StartOutcome, OwnResult, MayRun, Opens, HaltEvents;
  }

  lemma SuperviseRecords(w: World, id: nat, down1: bool, down2: bool, down3: bool, g: nat)
    requires CanSupervise(w, id)
    ensures Ran(g) in SuperviseStep(w, id, down1, down2, down3).log <==>
              || Ran(g) in w.log
              || (g == id && w.supervisors[id] == Launched(Server) && Published(w.control, id, down1, down2, down3))
  {
    hide PublishRunning, MoveToStopping, Finish, StartOutcome, OwnResult, MayRun, Opens;
  }

  predicate IsRequest(a: Action) {
    || a.RequestStart? || a.RequestStop? || a.RequestEndpoint? || a.RaiseDown? || a.CancelDown?
    || a.ServerSeesDown? || a.FactoryReturns? || a.SupervisorSeesDown?
  }

  ghost predicate SameButTokens(c: Control, c': Control) {
    || c' == c
    || (c.current.Some? && c'.current.Some? && c'.current.value.gate.tokens != c.current.value.gate.tokens &&
        var g := c.current.value;
        c' == c.(current := Some(g.(gate := g.gate.(tokens := c'.current.value.gate.tokens)))))
  }

  lemma TokensOnly(w: World, g: nat, tokens: set<Token>)
    ensures SameButTokens(w.control, w.WithGate(g, w.Gate(g).(tokens := tokens)).control)
  {
  }

  /** A connection changes the control record only in the tokens of its gate. */
  lemma ConnectionsChangeTokens(w: World, a: Action)
    requires Enabled(w, a) && !a.Supervise? && !IsRequest(a)
    ensures SameButTokens(w.control, Apply(w, a).control)
    ensures forall g :: Ran(g) in Apply(w, a).log <==> Ran(g) in w.log
  {
    hide SameButTokens;
    var id := if a.Upgrade? then a.id else w.connections[a.connection].generation;
    forall tokens: set<Token> ensures SameButTokens(w.control, w.WithGate(id, w.Gate(id).(tokens := tokens)).control) {
      TokensOnly(w, id, tokens);
    }
    assert SameButTokens(w.control, w.control) by { SameTokens(w.control); }
  }

  lemma SameTokens(c: Control)
    ensures SameButTokens(c, c)
  {
  }

  // ----- revisions -----------------------------------------------------------------------------------

  ghost predicate Raised(s: Snapshot, s': Snapshot) {
    s' == s || s.revision < s'.revision
  }

  /** Every observable change raises the revision. */
  lemma StepRaises(w: World, a: Action)
    requires Enabled(w, a)
    ensures Raised(SnapshotOf(w.control), SnapshotOf(Apply(w, a).control))
  {
    match a
    case Supervise(id, down1, down2, down3) => SuperviseRaises(w, id, down1, down2, down3);
    case _ =>
  }

  lemma SuperviseRaises(w: World, id: nat, down1: bool, down2: bool, down3: bool)
    requires Enabled(w, Supervise(id, down1, down2, down3))
    ensures Raised(SnapshotOf(w.control), SnapshotOf(SuperviseStep(w, id, down1, down2, down3).control))
  {
    hide SuperviseStep;
    SuperviseSection(w, id, down1, down2, down3);
    SectionRaises(w.control, w.supervisors[id], id, down1, down2, down3);
  }

  lemma SectionRaises(c: Control, step: Step, id: nat, down1: bool, down2: bool, down3: bool)
    ensures Raised(SnapshotOf(c), SnapshotOf(Section(c, step, id, down1, down2, down3)))
  {
  }

  lemma {:induction false} RunRaises(w: World, acts: seq<Action>, w': World)
    requires Run(w, acts, w')
    ensures Raised(SnapshotOf(w.control), SnapshotOf(w'.control))
    decreases |acts|
  {
    hide Apply, Enabled, SnapshotOf;
    if acts != [] {
      StepRaises(w, acts[0]);
      RunRaises(Apply(w, acts[0]), acts[1..], w');
    }
  }

  /** A revision identifies its snapshot across all generations of a run. */
  lemma RevisionsIdentify(w: World, acts: seq<Action>, w': World)
    requires Run(w, acts, w')
    ensures SnapshotOf(w.control).revision == SnapshotOf(w'.control).revision <==>
            SnapshotOf(w.control) == SnapshotOf(w'.control)
  {
    hide SnapshotOf, Run;
    RunRaises(w, acts, w');
  }

  /** A snapshot that is current again was current all the time. */
  lemma NoReturn(w: World, acts: seq<Action>, mid: World, acts': seq<Action>, w': World)
    requires Run(w, acts, mid) && Run(mid, acts', w') && SnapshotOf(w.control) == SnapshotOf(w'.control)
    ensures SnapshotOf(mid.control) == SnapshotOf(w.control)
  {
    hide SnapshotOf, Run;
    RunRaises(w, acts, mid);
    RunRaises(mid, acts', w');
  }

  // ----- the start result ------------------------------------------------------------------------------

  lemma ReportedBefore(h: History, i: nat, j: nat)
    requires i < j < |h| && h[i].StartPublished?
    ensures Reported(h[..j], h[i].generation)
  {
    Before(h, i, j);
  }

  lemma OneStartResult(w: World, i: nat, j: nat)
    requires Reachable(w) && i < |w.log| && j < |w.log|
    requires w.log[i].StartPublished? && w.log[j].StartPublished? && w.log[i].generation == w.log[j].generation
    ensures i == j
  {
    hide Lawful, Held, Reported;
    LawfulLog(w);
    LegalAt(w.log, i);
    LegalAt(w.log, j);
    if i < j { ReportedBefore(w.log, i, j); }
    if j < i { ReportedBefore(w.log, j, i); }
  }

  /** A start succeeds exactly if its generation ran, and a stop that came first
      is always answered with the cancelled error. */
  lemma StartIsTruthful(w: World, g: nat, r: StartResult)
    requires Reachable(w) && StartPublished(g, r) in w.log
    ensures r == Ok(true) <==> Ran(g) in w.log
    ensures StopWon(g) in w.log ==> r == START_CANCELLED
  {
    hide Lawful, Held, Reported;
    LawfulLog(w);
    var h := w.log;
    var i :| 0 <= i < |h| && h[i] == StartPublished(g, r);
    LegalAt(h, i);
    if Ran(g) in h {
      var j :| 0 <= j < |h| && h[j] == Ran(g);
      EarlierThanResult(h, i, j);
    }
    if StopWon(g) in h {
      var j :| 0 <= j < |h| && h[j] == StopWon(g);
      EarlierThanResult(h, i, j);
    }
  }

  /** Neither the running nor the stop that wins can follow the result. */
  lemma EarlierThanResult(h: History, i: nat, j: nat)
    requires Lawful(h) && i < |h| && j < |h| && h[i].StartPublished?
    requires h[j] == Ran(h[i].generation) || h[j] == StopWon(h[i].generation)
    ensures j < i && h[j] in h[..i]
  {
    hide Lawful, Held, Reported;
    LegalAt(h, j);
    if i < j { ReportedBefore(h, i, j); assert false; }
    Before(h, j, i);
  }

  /** Every retired generation has answered its start. */
  lemma RetiredHasResult(w: World, g: nat)
    requires Reachable(w) && Retired(g) in w.log
    ensures exists r :: StartPublished(g, r) in w.log
  {
    hide Lawful, Held;
    LawfulLog(w);
    var n :| 0 <= n < |w.log| && w.log[n] == Retired(g);
    LegalAt(w.log, n);
    var x :| x in w.log[..n] && x.StartPublished? && x.generation == g;
    assert StartPublished(g, x.result) in w.log;
  }

  ghost predicate Runs(w: World, g: nat) {
    w.control.Is(g) && w.control.current.value.lifecycle == Running
  }

  /** `Ran` is recorded by the very step that makes the running phase observable,
      and that step opens the gate. */
  lemma RanWhenObservable(w: World, a: Action, g: nat)
    requires Reachable(w) && Enabled(w, a)
    ensures var w' := Apply(w, a);
            Ran(g) in w'.log && Ran(g) !in w.log <==> Runs(w', g) && !Runs(w, g)
    ensures var w' := Apply(w, a);
            Runs(w', g) && !Runs(w, g) ==>
              w'.control.current.value.gate.isOpen && w.control.Is(g) && w.control.current.value.lifecycle == Starting
  {
    hide Inv, Reachable;
    ReachableInv(w);
    Newest(w);
    if w.control.Is(g) { NotRanWhileStarting(w, g); }
    if a.Supervise? {
      SuperviseRan(w, a.id, a.down1, a.down2, a.down3, g);
    } else {
      OthersRunNothing(w, a, g);
    }
  }

  lemma OthersRunNothing(w: World, a: Action, g: nat)
    requires Enabled(w, a) && !a.Supervise?
    ensures Ran(g) in Apply(w, a).log <==> Ran(g) in w.log
    ensures Runs(Apply(w, a), g) ==> Runs(w, g)
  {
    if !IsRequest(a) {
      hide Apply;
      ConnectionsChangeTokens(w, a);
    }
  }

  lemma NotRanWhileStarting(w: World, g: nat)
    requires Inv(w) && w.control.Is(g)
    ensures w.control.current.value.lifecycle == Starting ==> Ran(g) !in w.log
  {
    hide Lawful, OldsOk, ConnectionsOk;
  }

  lemma SuperviseRan(w: World, id: nat, down1: bool, down2: bool, down3: bool, g: nat)
    requires Enabled(w, Supervise(id, down1, down2, down3))
    requires w.control.Is(g) && w.control.current.value.lifecycle == Starting ==> Ran(g) !in w.log
    ensures var w' := SuperviseStep(w, id, down1, down2, down3);
            Ran(g) in w'.log && Ran(g) !in w.log <==> Runs(w', g) && !Runs(w, g)
    ensures var w' := SuperviseStep(w, id, down1, down2, down3);
            Runs(w', g) && !Runs(w, g) ==>
              w'.control.current.value.gate.isOpen && w.control.Is(g) && w.control.current.value.lifecycle == Starting
  {
    hide SuperviseStep;
    SuperviseSection(w, id, down1, down2, down3);
    SuperviseRecords(w, id, down1, down2, down3, g);
  }

  // ----- generations --------------------------------------------------------------------------------------

  /** Generation numbers are never reused, and a generation begins only after
      every earlier one was retired. */
  lemma OneLiveGeneration(w: World, i: nat, j: nat)
    requires Reachable(w) && i < j < |w.log| && w.log[i].Began? && w.log[j].Began?
    ensures w.log[i].generation < w.log[j].generation
    ensures exists k :: i < k < j && w.log[k] == Retired(w.log[i].generation)
  {
    hide Lawful, Held, Reported;
    LawfulLog(w);
    var h := w.log;
    LegalAt(h, j);
    Before(h, i, j);
    var k :| 0 <= k < j && h[..j][k] == Retired(h[i].generation);
    LegalAt(h, k);
    BeganFirst(h, i, k);
  }

  lemma BeganFirst(h: History, i: nat, k: nat)
    requires Lawful(h) && i < |h| && k < |h| && h[i].Began? && h[k].Retired? && h[k].generation == h[i].generation
    ensures i < k
  {
    hide Lawful, Held, Reported;
    LegalAt(h, i);
    if k < i { Before(h, k, i); }
  }

  function Rank(p: Phase): nat {
    match p
    case Starting => 0
    case Running => 1
    case Stopping => 2
    case Stopped => 3
  }

  /** How a generation may have moved: forward only, and its deadline, once set, stays. */
  ghost predicate Forward(g: Generation, g': Generation) {
    && g'.id == g.id && Rank(g.lifecycle) <= Rank(g'.lifecycle) && g.revision <= g'.revision
    && (g.deadline.Some? ==> g'.deadline == g.deadline)
    && (g.gate.closed ==> g'.gate.closed) && (g.gate.cancelled ==> g'.gate.cancelled)
  }

  ghost predicate Onward(c: Control, c': Control) {
    c.current.Some? ==>
      || (c'.current.Some? && Forward(c.current.value, c'.current.value))
      || Past(c', c.current.value.id)
  }

  ghost predicate Past(c: Control, id: nat) {
    id <= c.nextGeneration && !c.Is(id)
  }

  lemma StepOnward(w: World, a: Action)
    requires Inv(w) && Enabled(w, a)
    ensures Onward(w.control, Apply(w, a).control)
    ensures forall id | Past(w.control, id) :: Past(Apply(w, a).control, id)
  {
    hide Inv;
    Newest(w);
    if a.Supervise? {
      SuperviseOnward(w, a.id, a.down1, a.down2, a.down3);
    } else {
      OthersOnward(w, a);
    }
  }

  lemma OthersOnward(w: World, a: Action)
    requires Enabled(w, a) && !a.Supervise?
    requires w.control.current.Some? ==> w.control.current.value.id == w.control.nextGeneration && w.control.current.value.lifecycle != Stopped
    ensures Onward(w.control, Apply(w, a).control)
    ensures forall id | Past(w.control, id) :: Past(Apply(w, a).control, id)
  {
    if !IsRequest(a) {
      hide Apply;
      ConnectionsChangeTokens(w, a);
    }
  }

  lemma Newest(w: World)
    requires Inv(w)
    ensures w.control.current.Some? ==>
              && w.control.current.value.id == w.control.nextGeneration
              && w.control.current.value.lifecycle != Stopped
  {
    hide Lawful, OldsOk, ConnectionsOk, StepOk, MarksOf;
  }

  lemma SuperviseOnward(w: World, id: nat, down1: bool, down2: bool, down3: bool)
    requires Enabled(w, Supervise(id, down1, down2, down3))
    requires w.control.current.Some? ==> w.control.current.value.id == w.control.nextGeneration && w.control.current.value.lifecycle != Stopped
    ensures Onward(w.control, SuperviseStep(w, id, down1, down2, down3).control)
    ensures forall g | Past(w.control, g) :: Past(SuperviseStep(w, id, down1, down2, down3).control, g)
  {
    hide SuperviseStep;
    SuperviseSection(w, id, down1, down2, down3);
  }

  lemma {:induction false} RunOnward(w: World, acts: seq<Action>, w': World)
    requires Inv(w) && Run(w, acts, w')
    ensures Onward(w.control, w'.control)
    ensures forall id | Past(w.control, id) :: Past(w'.control, id)
    decreases |acts|
  {
    hide Apply, Enabled, Inv;
    if acts != [] {
      StepInv(w, acts[0]);
      StepOnward(w, acts[0]);
      RunOnward(Apply(w, acts[0]), acts[1..], w');
    }
  }

  /** Over any run a generation's phase only moves forward, its stop deadline is
      never extended, and a generation that is past never comes back. */
  lemma PhasesMoveForward(w: World, acts: seq<Action>, w': World)
    requires Reachable(w) && Run(w, acts, w')
    ensures Onward(w.control, w'.control)
    ensures forall id | Past(w.control, id) :: Past(w'.control, id)
  {
    hide Inv, Run, Onward, Past, Reachable;
    ReachableInv(w);
    RunOnward(w, acts, w');
  }
}
