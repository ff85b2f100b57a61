/**
Runs of the error sink (src-tauri/src/logging.rs): captures, drains and mutes
interleave with the task that pings the frontend. A capturer pushes under the
lock and signals afterwards; the notifier stores at most one permit.
*/
module ErrorSinkRuns {
  import opened SinkRules

  datatype Event =
    | Captured(entry: Entry, skipped: bool)
    | Drained(batch: seq<Entry>)
    | Muting(typeId: string, on: bool)
    | Pinged

  type History = seq<Event>

  datatype World = World(sink: SinkState, permit: bool, signalling: nat, pinging: bool, log: History)

  const START := World(EMPTY_SINK, false, 0, false, [])

  datatype Action = DoCapture(entry: Entry) | DoSignal | DoDrain | DoMute(typeId: string, on: bool) | TakePermit | DoPing

  predicate Enabled(w: World, a: Action) {
    match a
    case DoSignal => w.signalling > 0
    case TakePermit => w.permit && !w.pinging
    case DoPing => w.pinging
    case _ => true
  }

  function Apply(w: World, a: Action): World
    requires Enabled(w, a)
  {
    match a
    case DoCapture(e) =>
      var skipped := e.typeId in w.sink.muted;
      w.(sink := Capture(w.sink, e),
         signalling := if skipped then w.signalling else w.signalling + 1,
         log := w.log + [Captured(e, skipped)])
    case DoSignal => w.(permit := true, signalling := w.signalling - 1)
    case DoDrain => w.(sink := w.sink.(pending := []), log := w.log + [Drained(w.sink.pending)])
    case DoMute(typeId, on) =>
      w.(sink := SetMuted(w.sink, typeId, on),
         log := if typeId in w.sink.known then w.log + [Muting(typeId, on)] else w.log)
    case TakePermit => w.(permit := false, pinging := true)
    case DoPing => w.(pinging := false, log := w.log + [Pinged])
  }

  ghost predicate Run(w: World, acts: seq<Action>, w': World)
    decreases |acts|
  {
    if acts == [] then w' == w
    else Enabled(w, acts[0]) && Run(Apply(w, acts[0]), acts[1..], w')
  }

  ghost predicate Reachable(w: World) {
    exists acts :: Run(START, acts, w)
  }

  // ----- what the log alone says ---------------------------------------------------

  /** The type ids that are muted after `h`. */
  function MutedAfter(h: History): set<string> {
    if h == [] then {}
    else
      var before := MutedAfter(h[..|h| - 1]);
      match h[|h| - 1]
      case Muting(typeId, on) => if on then before + {typeId} else before - {typeId}
      case _ => before
  }

  /** The captures that were not skipped since the last drain. */
  function SinceDrain(h: History): seq<Entry> {
    if h == [] then []
    else
      match h[|h| - 1]
      case Captured(e, skipped) => SinceDrain(h[..|h| - 1]) + (if skipped then [] else [e])
      case Drained(_) => []
      case _ => SinceDrain(h[..|h| - 1])
  }

  function LastOf(s: seq<Entry>, n: nat): seq<Entry> {
    if |s| <= n then s else s[|s| - n..]
  }

  /** All captures that were not skipped. */
  function Kept(h: History): seq<Entry> {
    if h == [] then []
    else
      match h[|h| - 1]
      case Captured(e, false) => Kept(h[..|h| - 1]) + [e]
      case _ => Kept(h[..|h| - 1])
  }

  /** All entries that were handed out. */
  function Delivered(h: History): seq<Entry> {
    if h == [] then []
    else
      match h[|h| - 1]
      case Drained(batch) => Delivered(h[..|h| - 1]) + batch
      case _ => Delivered(h[..|h| - 1])
  }

  /** Some capture that was not skipped happened after the last ping. */
  predicate Unannounced(h: History) {
    h != [] &&
    match h[|h| - 1]
    case Captured(_, false) => true
    case Pinged => false
    case _ => Unannounced(h[..|h| - 1])
  }

  /** `a` is found in `b` at the increasing positions `at`. */
  ghost predicate FoundAt(at: seq<nat>, a: seq<Entry>, b: seq<Entry>) {
    && |at| == |a|
    && (forall k | 0 <= k < |at| :: at[k] < |b| && b[at[k]] == a[k])
    && (forall k, l | 0 <= k < l < |at| :: at[k] < at[l])
  }

  ghost predicate InOrder(a: seq<Entry>, b: seq<Entry>) {
    exists at :: FoundAt(at, a, b)
  }

  /** A capture is skipped exactly if its type is muted at that moment. */
  ghost predicate MutesRespected(h: History) {
    forall i | 0 <= i < |h| && h[i].Captured? :: h[i].skipped <==> h[i].entry.typeId in MutedAfter(h[..i])
  }

  /** The type ids of all captures, skipped ones included. */
  function CapturedIds(h: History): set<string> {
    if h == [] then {}
    else
      match h[|h| - 1]
      case Captured(e, _) => CapturedIds(h[..|h| - 1]) + {e.typeId}
      case _ => CapturedIds(h[..|h| - 1])
  }

  ghost predicate Inv(w: World) {
    && w.sink.known == CapturedIds(w.log)
    && w.sink.pending == LastOf(SinceDrain(w.log), ERROR_BUFFER_CAP)
    && w.sink.muted == MutedAfter(w.log)
    && MutesRespected(w.log)
    && InOrder(Delivered(w.log) + w.sink.pending, Kept(w.log))
    && (Unannounced(w.log) ==> w.permit || w.signalling > 0 || w.pinging)
  }

  lemma Last(h: History, ev: Event)
    ensures (h + [ev])[..|h|] == h && (h + [ev])[|h|] == ev
  {
  }

  lemma MutesAppend(h: History, ev: Event)
    requires MutesRespected(h) && (ev.Captured? ==> (ev.skipped <==> ev.entry.typeId in MutedAfter(h)))
    ensures MutesRespected(h + [ev])
  {
    var h' := h + [ev];
    forall i | 0 <= i < |h'| && h'[i].Captured?
      ensures h'[i].skipped <==> h'[i].entry.typeId in MutedAfter(h'[..i])
    {
      assert h'[..i] == h[..i];
      if i == |h| { assert h[..i] == h; }
    }
  }

  /** A push keeps the queue the last entries of the growing list. */
  lemma PushIsWindow(all: seq<Entry>, e: Entry)
    ensures Push(LastOf(all, ERROR_BUFFER_CAP), e) == LastOf(all + [e], ERROR_BUFFER_CAP)
  {
  }

  /** A push keeps what was delivered and what is queued in capture order; it may
      lose the oldest queued entry. */
  lemma PushInOrder(done: seq<Entry>, queue: seq<Entry>, all: seq<Entry>, e: Entry)
    requires InOrder(done + queue, all)
    ensures InOrder(done + Push(queue, e), all + [e])
  {
    var at: seq<nat> :| FoundAt(at, done + queue, all);
    if ERROR_BUFFER_CAP <= |queue| {
      var at': seq<nat> := at[..|done|] + at[|done| + 1..] + [|all|];
      var a' := done + Push(queue, e);
      forall k | 0 <= k < |at'| ensures at'[k] < |all + [e]| && (all + [e])[at'[k]] == a'[k] {
        if k < |done| {
          assert a'[k] == (done + queue)[k];
        } else if k < |at'| - 1 {
          assert a'[k] == (done + queue)[k + 1];
        }
      }
      assert FoundAt(at', a', all + [e]);
    } else {
      assert FoundAt(at + [|all|], done + Push(queue, e), all + [e]);
    }
  }

  lemma CaptureKept(w: World, e: Entry)
    requires Inv(w)
    ensures Inv(Apply(w, DoCapture(e)))
  {
    var skipped := e.typeId in w.sink.muted;
    var ev := Captured(e, skipped);
    Last(w.log, ev);
    MutesAppend(w.log, ev);
    if skipped {
      assert SinceDrain(w.log) + [] == SinceDrain(w.log);
    } else {
      PushIsWindow(SinceDrain(w.log), e);
      PushInOrder(Delivered(w.log), w.sink.pending, Kept(w.log), e);
    }
  }

  lemma DrainKept(w: World)
    requires Inv(w)
    ensures Inv(Apply(w, DoDrain))
  {
    Last(w.log, Drained(w.sink.pending));
    MutesAppend(w.log, Drained(w.sink.pending));
    assert Delivered(w.log) + w.sink.pending + [] == Delivered(w.log) + w.sink.pending;
  }

  lemma MuteKept(w: World, typeId: string, on: bool)
    requires Inv(w)
    ensures Inv(Apply(w, DoMute(typeId, on)))
  {
    Last(w.log, Muting(typeId, on));
    MutesAppend(w.log, Muting(typeId, on));
  }

  lemma PingKept(w: World)
    requires Inv(w) && w.pinging
    ensures Inv(Apply(w, DoPing))
  {
    Last(w.log, Pinged);
    MutesAppend(w.log, Pinged);
  }

  lemma StepInv(w: World, a: Action)
    requires Inv(w) && Enabled(w, a)
    ensures Inv(Apply(w, a))
  {
    hide MutesRespected, InOrder, LastOf, SinceDrain, Delivered, Kept, MutedAfter, Unannounced, CapturedIds;
    match a {
      case DoCapture(e) => CaptureKept(w, e);
      case DoDrain => DrainKept(w);
      case DoMute(typeId, on) => MuteKept(w, typeId, on);
      case DoPing => PingKept(w);
      case _ =>
    }
  }

  lemma {:induction false} RunInv(w: World, acts: seq<Action>, w': World)
    requires Inv(w) && Run(w, acts, w')
    ensures Inv(w')
    decreases |acts|
  {
    hide Inv;
    if acts != [] {
      StepInv(w, acts[0]);
      RunInv(Apply(w, acts[0]), acts[1..], w');
    }
  }

  lemma ReachableInv(w: World)
    requires Reachable(w)
    ensures Inv(w)
  {
    assert Delivered(START.log) + START.sink.pending == [] && Kept(START.log) == [];
    assert FoundAt([], Delivered(START.log) + START.sink.pending, Kept(START.log));
    assert Inv(START);
    var acts :| Run(START, acts, w);
    RunInv(START, acts, w);
  }

  // ----- what every run guarantees ------------------------------------------------------

  /** The queue is exactly the last 200 captures since the previous drain that
      were not muted when they happened. Muting later changes nothing in it. */
  lemma QueueIsWindow(w: World)
    requires Reachable(w)
    ensures w.sink.pending == LastOf(SinceDrain(w.log), 200)
    ensures forall i | 0 <= i < |w.log| && w.log[i].Captured? ::
              w.log[i].skipped <==> w.log[i].entry.typeId in MutedAfter(w.log[..i])
  {
    ReachableInv(w);
  }

  /** The ids that can be muted are exactly those of entries that were captured. */
  lemma {:induction false} CapturedIdsAre(h: History, id: string)
    ensures id in CapturedIds(h) <==> exists x | x in h :: x.Captured? && x.entry.typeId == id
  {
    if h != [] {
      var before, last := h[..|h| - 1], h[|h| - 1];
      CapturedIdsAre(before, id);
      assert forall x :: x in h <==> x in before || x == last;
    }
  }

  /** Muting takes effect exactly for an id that was captured before: from then on
      its captures are skipped, until it is unmuted; the queue stays as it is. */
  lemma MuteTakesIff(w: World, id: string, on: bool)
    requires Reachable(w)
    ensures var w' := Apply(w, DoMute(id, on));
            && w'.sink.pending == w.sink.pending && w'.sink.known == w.sink.known
            && if exists x | x in w.log :: x.Captured? && x.entry.typeId == id
               then
                 && w'.log == w.log + [Muting(id, on)]
                 && forall e: Entry | e.typeId == id :: Apply(w', DoCapture(e)).log == w'.log + [Captured(e, on)]
               else w' == w
  {
    ReachableInv(w);
    CapturedIdsAre(w.log, id);
  }

  /** Each captured entry is handed out at most once, in capture order, and is
      not queued any more after that. */
  lemma DeliveredOnceInOrder(w: World)
    requires Reachable(w)
    ensures exists at :: FoundAt(at, Delivered(w.log) + w.sink.pending, Kept(w.log))
  {
    ReachableInv(w);
  }

  /** Nothing stays unannounced: an entry captured since the last ping has a
      stored permit, a capturer about to signal, or a ping in progress. */
  lemma NothingUnannounced(w: World)
    requires Reachable(w) && !w.permit && w.signalling == 0 && !w.pinging
    ensures !Unannounced(w.log)
  {
    ReachableInv(w);
  }
}
