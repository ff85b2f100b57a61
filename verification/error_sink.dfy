/**
The sink that tees error log entries to the error modal (ErrorEventSink and
error_emit_loop in src-tauri/src/logging.rs).
*/
module SinkRules {
  import opened Wrappers

  datatype Entry = Entry(timestamp: string, target: string, message: string, typeId: string)

  const ERROR_BUFFER_CAP: nat := 200

  /** What the sink's mutex guards. */
  datatype SinkState = SinkState(pending: seq<Entry>, muted: set<string>, known: set<string>)

  const EMPTY_SINK := SinkState([], {}, {})

  function Push(pending: seq<Entry>, e: Entry): seq<Entry> {
    if ERROR_BUFFER_CAP <= |pending| then pending[1..] + [e] else pending + [e]
  }

  function Capture(s: SinkState, e: Entry): SinkState {
    var s' := s.(known := s.known + {e.typeId});
    if e.typeId in s.muted then s' else s'.(pending := Push(s.pending, e))
  }

  function SetMuted(s: SinkState, typeId: string, on: bool): SinkState {
    if typeId !in s.known then s
    else s.(muted := if on then s.muted + {typeId} else s.muted - {typeId})
  }
}

/** The sink as the program has it. */
module ErrorSink {
  import opened Wrappers
  import opened SinkRules

  class ErrorEventSink {
    var pending: seq<Entry>
    var muted: set<string>
    var known: set<string>
    /** The one stored permit of the notifier. */
    var permit: bool

    function Value(): SinkState
      reads this
    {
      SinkState(pending, muted, known)
    }

    constructor ()
      ensures Value() == EMPTY_SINK && !permit
    {
      pending, muted, known, permit := [], {}, {}, false;
    }

    method Capture(e: Entry)
      modifies this
      ensures Value() == SinkRules.Capture(old(Value()), e)
      ensures permit == (old(permit) || e.typeId !in old(muted))
    {
      if e.typeId !in known {
        known := known + {e.typeId};
      }
      if e.typeId in muted {
        return;
      }
      if ERROR_BUFFER_CAP <= |pending| {
        pending := pending[1..];
      }
      pending := pending + [e];
      permit := true;
    }

    method Drain() returns (batch: seq<Entry>)
      modifies this`pending
      ensures batch == old(pending) && pending == []
    {
      batch := pending;
      pending := [];
    }

    /** The muted ids, or nothing for an id that was never seen. */
    method SetMuted(typeId: string, on: bool) returns (ids: Option<set<string>>)
      modifies this`muted
      ensures Value() == SinkRules.SetMuted(old(Value()), typeId, on)
      ensures ids == if typeId in known then Some(muted) else None
    {
      if typeId !in known {
        return None;
      }
      if on {
        muted := muted + {typeId};
      } else {
        muted := muted - {typeId};
      }
      ids := Some(muted);
    }
  }
}
