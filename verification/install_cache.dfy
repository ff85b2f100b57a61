/**
The cache and its tickets as the program has them (src-tauri/src/agent_version.rs):
objects whose fields are updated in place, proved against `InstallRules`.
*/
module InstallCache {
  import opened Wrappers
  import opened InstallRules

  class AgentInstallCache {
    var generation: nat
    var seqNo: nat
    var entries: map<Command, Cached>
    var inFlight: set<Command>

    function Value(): Cache
      reads this
    {
      Cache(generation, seqNo, entries, inFlight)
    }

    constructor ()
      ensures Value() == EMPTY_CACHE
    {
      generation, seqNo, entries, inFlight := 0, 0, map[], {};
    }

    method Lookup(command: Command, now: nat, ttl: nat) returns (r: CacheLookup)
      modifies this
      ensures Value() == Purge(old(Value()), command, now, ttl)
      ensures r == LookupAnswer(old(Value()), command, now, ttl)
    {
      if command in entries {
        var entry := entries[command];
        if entry.FreshAt(now, ttl) {
          return Fresh(entry.state);
        }
      }
      entries := entries - {command};
      r := if command in inFlight then InFlight else Absent;
    }

    method LookupOrBegin(command: Command, now: nat, ttl: nat, mayBegin: bool)
      returns (r: Scheduling, ticket: ProbeTicket?)
      modifies this
      ensures Value() == Schedule(old(Value()), command, now, ttl, mayBegin)
      ensures r == ScheduleAnswer(old(Value()), command, now, ttl, mayBegin)
      ensures r.Began? <==> ticket != null
      ensures ticket != null ==> fresh(ticket) && ticket.Value() == r.ticket && ticket.cache == this
    {
      ticket := null;
      if command in entries {
        var entry := entries[command];
        if entry.FreshAt(now, ttl) {
          return Ready(entry.state), null;
        }
      }
      entries := entries - {command};
      if command in inFlight {
        return Busy, null;
      }
      if !mayBegin {
        return Deferred, null;
      }
      inFlight := inFlight + {command};
      ticket := new ProbeTicket(this, command, generation);
      r := Began(Ticket(command, generation, true));
    }

    method InvalidateAll()
      modifies this
      ensures Value() == Invalidate(old(Value()))
    {
      generation := generation + 1;
      entries := map[];
    }
  }

  /** The exclusive right to probe one command and commit its state. */
  class ProbeTicket {
    const cache: AgentInstallCache
    const command: Command
    var generation: nat
    var live: bool

    function Value(): Ticket
      reads this
    {
      Ticket(command, generation, live)
    }

    constructor (cache: AgentInstallCache, command: Command, generation: nat)
      ensures this.cache == cache && Value() == Ticket(command, generation, true)
    {
      this.cache, this.command, this.generation, live := cache, command, generation, true;
    }

    /** Commits, or adopts the current generation and stays open for a retry. */
    method Complete(state: InstallState, at: nat) returns (committed: Option<InstallState>)
      modifies this, cache
      ensures cache.Value() == InstallRules.Complete(old(cache.Value()), old(Value()), state, at)
      ensures Value() == Completed(old(cache.Value()), old(Value()))
      ensures committed == if Accepts(old(cache.Value()), old(Value()))
                           then Some(Stamp(old(cache.Value()), state)) else None
    {
      if cache.generation == generation {
        cache.seqNo := cache.seqNo + 1;
        var stamped := state.(seqNo := cache.seqNo);
        cache.entries := cache.entries[command := Cached(at, stamped)];
        cache.inFlight := cache.inFlight - {command};
        live := false;
        committed := Some(stamped);
      } else {
        generation := cache.generation;
        committed := None;
      }
    }

    /** What happens when the ticket goes out of scope. */
    method Drop()
      modifies cache
      ensures cache.Value() == InstallRules.Drop(old(cache.Value()), old(Value()))
    {
      if live {
        cache.inFlight := cache.inFlight - {command};
      }
    }
  }
}
