/** The broker's mutable state and the sections that run under its mutex, in the source's own form (subsystems/tunnel/tunnel.go). */
module LinkBroker {
  import opened SessionTypes
  import opened DeviceBroker

  class Broker {
    var entries: map<Handle, Entry>
    var nextStart: map<Principal, int>

    constructor ()
      ensures entries == map[] && nextStart == map[]
    {
      entries, nextStart := map[], map[];
    }

    method CleanEntries(now: int)
      modifies this`entries
      ensures entries == Live(old(entries), now)
    {
      var handles := entries.Keys;
      while handles != {}
        invariant handles <= entries.Keys <= old(entries).Keys
        invariant forall h :: h in entries ==> entries[h] == old(entries)[h]
        invariant forall h :: h in old(entries) && h !in handles ==> (h in entries <==> now < old(entries)[h].expiresAt)
        decreases |handles|
      {
        var handle :| handle in handles;
        if !(now < entries[handle].expiresAt) { entries := entries - {handle}; }
        handles := handles - {handle};
      }
    }

    method CleanStarts(now: int)
      modifies this`nextStart
      ensures nextStart == LiveStarts(old(nextStart), now)
    {
      var principals := nextStart.Keys;
      while principals != {}
        invariant principals <= nextStart.Keys <= old(nextStart).Keys
        invariant forall p :: p in nextStart ==> nextStart[p] == old(nextStart)[p]
        invariant forall p :: p in old(nextStart) && p !in principals ==> (p in nextStart <==> now < old(nextStart)[p])
        decreases |principals|
      {
        var principal :| principal in principals;
        if !(now < nextStart[principal]) { nextStart := nextStart - {principal}; }
        principals := principals - {principal};
      }
    }

    /** Both loops of the cleanup visit their map in any order. */
    method Cleanup(now: int)
      modifies this
      ensures entries == Live(old(entries), now) && nextStart == LiveStarts(old(nextStart), now)
    {
      CleanEntries(now);
      CleanStarts(now);
    }

    /** The first section of a start: clean up, then refuse when the principal is too quick or the broker full. */
    method BeginStart(principal: Principal, now: int) returns (ok: bool)
      modifies this
      ensures entries == Live(old(entries), now)
      ensures ok <==> !(principal in old(nextStart) && now < old(nextStart)[principal]) && |Live(old(entries), now)| < MAX_ENTRIES
      ensures nextStart == if ok then LiveStarts(old(nextStart), now)[principal := now + START_INTERVAL] else LiveStarts(old(nextStart), now)
    {
      Cleanup(now);
      if principal in nextStart && now < nextStart[principal] { return false; }
      if |entries| >= MAX_ENTRIES { return false; }
      nextStart := nextStart[principal := now + START_INTERVAL];
      return true;
    }

    method Insert(handle: Handle, entry: Entry) returns (ok: bool)
      modifies this`entries
      ensures ok <==> |old(entries)| < MAX_ENTRIES
      ensures entries == if ok then old(entries)[handle := entry] else old(entries)
    {
      if |entries| >= MAX_ENTRIES { return false; }
      entries := entries[handle := entry];
      return true;
    }

    method FinishPoll(handle: Handle, remove: bool, slowDown: int, now: int) returns (interval: int)
      modifies this`entries
      ensures entries == Finished(old(entries), handle, remove, slowDown, now)
      ensures interval == if handle in old(entries) && !remove then entries[handle].interval else 0
    {
      if handle !in entries { return 0; }
      if remove {
        entries := entries - {handle};
        return 0;
      }
      var entry := entries[handle];
      entry := entry.(interval := Min(entry.interval + slowDown, MAX_INTERVAL));
      entry := entry.(nextPoll := now + entry.interval);
      entries := entries[handle := entry];
      return entry.interval;
    }
  }
}
