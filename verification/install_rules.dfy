/**
The install-state cache and its probe tickets (src-tauri/src/agent_version.rs).
The functions below are the critical sections, on the value that the cache's
mutex guards. An instant is the number of ticks since some fixed origin.
*/
module InstallRules {
  import opened Wrappers

  type Command = string

  datatype InstallStatus = Checking | Missing | Installed | ProbeFailed | Unprobed

  datatype InstallState = InstallState(
    status: InstallStatus,
    version: Option<string>,
    path: Option<string>,
    detail: Option<string>,
    seqNo: nat)

  datatype Cached = Cached(probedAt: nat, state: InstallState)
  {
    /** An instant before the probe counts as age zero. */
    predicate FreshAt(now: nat, ttl: nat) {
      now <= probedAt || now - probedAt <= ttl
    }
  }

  datatype Cache = Cache(
    generation: nat,
    seqNo: nat,
    entries: map<Command, Cached>,
    inFlight: set<Command>)
  {
    function Entry(command: Command): Option<Cached> {
      if command in entries then Some(entries[command]) else None
    }
  }

  const EMPTY_CACHE := Cache(0, 0, map[], {})

  datatype Ticket = Ticket(command: Command, generation: nat, live: bool)

  datatype CacheLookup = Fresh(state: InstallState) | InFlight | Absent

  datatype Scheduling = Ready(state: InstallState) | Busy | Began(ticket: Ticket) | Deferred

  /** What is left of an entry after it was read at `now`. */
  function Kept(entry: Option<Cached>, now: nat, ttl: nat): Option<Cached> {
    if entry.Some? && entry.value.FreshAt(now, ttl) then entry else None
  }

  function Purge(c: Cache, command: Command, now: nat, ttl: nat): Cache {
    if Kept(c.Entry(command), now, ttl).Some? then c else c.(entries := c.entries - {command})
  }

  function LookupAnswer(c: Cache, command: Command, now: nat, ttl: nat): CacheLookup {
    match Kept(c.Entry(command), now, ttl)
    case Some(entry) => Fresh(entry.state)
    case None => if command in c.inFlight then InFlight else Absent
  }

  function ScheduleAnswer(c: Cache, command: Command, now: nat, ttl: nat, mayBegin: bool): Scheduling {
    match Kept(c.Entry(command), now, ttl)
    case Some(entry) => Ready(entry.state)
    case None =>
      if command in c.inFlight then Busy
      else if !mayBegin then Deferred
      else Began(Ticket(command, c.generation, true))
  }

  function Schedule(c: Cache, command: Command, now: nat, ttl: nat, mayBegin: bool): Cache {
    var c' := Purge(c, command, now, ttl);
    if ScheduleAnswer(c, command, now, ttl, mayBegin).Began?
    then c'.(inFlight := c'.inFlight + {command}) else c'
  }

  function Invalidate(c: Cache): Cache {
    c.(generation := c.generation + 1, entries := map[])
  }

  predicate Accepts(c: Cache, t: Ticket) {
    c.generation == t.generation
  }

  function Stamp(c: Cache, state: InstallState): InstallState {
    state.(seqNo := c.seqNo + 1)
  }

  function Complete(c: Cache, t: Ticket, state: InstallState, at: nat): Cache {
    if Accepts(c, t) then
      c.(seqNo := c.seqNo + 1,
         entries := c.entries[t.command := Cached(at, Stamp(c, state))],
         inFlight := c.inFlight - {t.command})
    else c
  }

  function Completed(c: Cache, t: Ticket): Ticket {
    if Accepts(c, t) then t.(live := false) else t.(generation := c.generation)
  }

  function Drop(c: Cache, t: Ticket): Cache {
    if t.live then c.(inFlight := c.inFlight - {t.command}) else c
  }
}
