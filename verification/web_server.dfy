/**
The web server handle as the program has it (src-tauri/src/web_server.rs): a
gate, a generation and a control record updated in place. Every method is
proved to have the effect of the corresponding function of `ServerRules`.
*/
module WebServer {
  import opened Wrappers
  import opened ServerRules

  class WebSocketAdmission {
    var isOpen: bool
    var closed: bool
    var cancelled: bool
    var tokens: set<Token>

    function Value(): Admission
      reads this
    {
      Admission(isOpen, closed, cancelled, tokens)
    }

    constructor ()
      ensures Value() == NEW_GATE
    {
      isOpen, closed, cancelled, tokens := false, false, false, {};
    }

    /** Checks, writes and checks again; the shutdown flag may rise in between. */
    method Open(downBefore: bool, downAfter: bool) returns (admitting: bool)
      modifies this
      ensures admitting == (!old(cancelled) && !downBefore && !downAfter)
      ensures admitting ==> Value() == old(Value()).(isOpen := true)
      ensures !admitting && (old(cancelled) || downBefore) ==> Value() == old(Value())
      ensures !admitting && !old(cancelled) && !downBefore ==> Value() == old(Value()).(isOpen := false, closed := true)
    {
      if cancelled || downBefore {
        return false;
      }
      isOpen := true;
      if cancelled || downAfter {
        isOpen := false;
        closed := true;
        return false;
      }
      admitting := true;
    }

    method Close()
      modifies this
      ensures Value() == old(Value()).(isOpen := false, closed := true)
    {
      isOpen := false;
      closed := true;
    }

    method Cancel()
      modifies this
      ensures Value() == old(Value()).(cancelled := true)
    {
      cancelled := true;
    }

    /** A guard is issued exactly while the gate admits work. */
    method TryAcquire(token: Token) returns (admitted: bool)
      modifies this
      ensures admitted == old(Value()).Admits()
      ensures Value() == if admitted then old(Value()).(tokens := old(tokens) + {token}) else old(Value())
    {
      if !isOpen || cancelled {
        return false;
      }
      tokens := tokens + {token};
      admitted := true;
    }

    /** The guard goes out of scope. */
    method Release(token: Token)
      modifies this
      ensures Value() == old(Value()).(tokens := old(tokens) - {token})
    {
      tokens := tokens - {token};
    }
  }

  class WebServerGeneration {
    const id: nat
    var revision: nat
    var lifecycle: Phase
    var endpoint: Option<Endpoint>
    var stopDeadline: Option<nat>
    const admission: WebSocketAdmission

    function Value(): Generation
      reads this, admission
    {
      Generation(id, revision, lifecycle, endpoint, stopDeadline, admission.Value())
    }

    constructor (id: nat, revision: nat, admission: WebSocketAdmission)
      ensures this.admission == admission
      ensures Value() == Generation(id, revision, Starting, None, None, admission.Value())
    {
      this.id, this.revision, this.admission := id, revision, admission;
      lifecycle, endpoint, stopDeadline := Starting, None, None;
    }

    method Halt()
      modifies this, admission
      ensures Value() == ServerRules.Halt(old(Value()))
    {
      if lifecycle != Stopping {
        lifecycle := Stopping;
        revision := revision + 1;
      }
      admission.Close();
      admission.Cancel();
    }
  }

  class WebServerHandle {
    var nextGeneration: nat
    var stoppedRevision: nat
    var lastGeneration: Option<nat>
    var current: WebServerGeneration?

    ghost function Parts(): set<object>
      reads this, current
    {
      if current == null then {} else {current, current.admission}
    }

    function Value(): Control
      reads this, current, if current == null then {} else {current.admission}
    {
      Control(nextGeneration, stoppedRevision, lastGeneration,
              if current == null then None else Some(current.Value()))
    }

    constructor ()
      ensures Value() == IDLE_CONTROL
    {
      nextGeneration, stoppedRevision, lastGeneration, current := 0, 0, None, null;
    }

    method Snapshot() returns (s: ServerRules.Snapshot)
      ensures s == SnapshotOf(Value())
    {
      if current != null {
        s := ServerRules.Snapshot.Snapshot(Some(current.id), current.revision, current.lifecycle, current.endpoint);
      } else {
        s := ServerRules.Snapshot.Snapshot(lastGeneration, stoppedRevision, Stopped, None);
      }
    }

    method SnapshotIsCurrent(s: ServerRules.Snapshot) returns (same: bool)
      ensures same == (s == SnapshotOf(Value()))
    {
      var now := Snapshot();
      same := now == s;
    }

    method BeginStart() returns (waiter: StartWaiter)
      modifies this
      ensures Value() == ServerRules.BeginStart(old(Value()))
      ensures waiter == StartAnswer(old(Value()))
    {
      if current != null {
        if current.lifecycle == Starting {
          return Follow(current.id);
        }
        if current.lifecycle == Running {
          return Settled(Ok(true));
        }
        return Settled(START_CANCELLED);
      }
      nextGeneration := nextGeneration + 1;
      var admission := new WebSocketAdmission();
      current := new WebServerGeneration(nextGeneration, stoppedRevision + 1, admission);
      waiter := Follow(nextGeneration);
    }

    method BeginStop(now: nat, timeout: nat) returns (deadline: Option<nat>)
      modifies Parts()
      ensures Value() == ServerRules.BeginStop(old(Value()), now + timeout)
      ensures deadline == if current == null then None else current.stopDeadline
    {
      if current == null {
        return None;
      }
      if current.lifecycle == Starting || current.lifecycle == Running {
        current.Halt();
      }
      if current.stopDeadline.None? {
        current.stopDeadline := Some(now + timeout);
      }
      deadline := current.stopDeadline;
    }

    method PublishEffectiveEndpoint(id: nat, endpoint: Endpoint) returns (starting: bool)
      modifies Parts()
      ensures Value() == PublishEndpoint(old(Value()), id, endpoint)
      ensures starting == (old(Value()).Is(id) && old(Value()).current.value.lifecycle == Starting)
    {
      if current == null || current.id != id || (current.lifecycle != Starting && current.lifecycle != Stopping) {
        return false;
      }
      if current.endpoint != Some(endpoint) {
        current.endpoint := Some(endpoint);
        current.revision := current.revision + 1;
      }
      starting := current.lifecycle == Starting;
    }

    method PublishRunning(id: nat, down1: bool, down2: bool, down3: bool) returns (published: bool)
      requires (down1 ==> down2) && (down2 ==> down3)
      modifies Parts()
      ensures Value() == ServerRules.PublishRunning(old(Value()), id, down1, down2, down3)
      ensures published == Published(old(Value()), id, down1, down2, down3)
    {
      if current == null || current.id != id || current.lifecycle != Starting || current.endpoint.None? ||
         current.admission.cancelled || down1 {
        return false;
      }
      current.lifecycle := Running;
      current.revision := current.revision + 1;
      published := current.admission.Open(down2, down3);
      if !published {
        current.Halt();
      }
    }

    method MoveGenerationToStopping(id: nat) returns (moved: bool)
      modifies Parts()
      ensures Value() == MoveToStopping(old(Value()), id) && moved == old(Value()).Is(id)
    {
      if current == null || current.id != id {
        return false;
      }
      current.Halt();
      moved := true;
    }

    method TransitionStartResultToStopping(id: nat, ifStarting: StartResult) returns (result: StartResult)
      modifies Parts()
      ensures Value() == MoveToStopping(old(Value()), id)
      ensures result == StartOutcome(old(Value()), id, ifStarting)
    {
      if current == null || current.id != id {
        return START_CANCELLED;
      }
      result := if current.lifecycle == Starting then ifStarting else START_CANCELLED;
      current.Halt();
    }

    method FinishGeneration(id: nat) returns (finished: bool)
      modifies this
      ensures Value() == Finish(old(Value()), id) && finished == old(Value()).Is(id)
    {
      if current == null || current.id != id {
        return false;
      }
      stoppedRevision := current.revision + 1;
      current := null;
      lastGeneration := Some(id);
      finished := true;
    }
  }
}
