// core/log.py: the append-only audit log of a tick.

module CoreLog {
  import opened Base
  import opened Docs

  datatype AuditEntry = AuditEntry(
    kind: string,
    tick: int,
    worldId: Option<WorldId>,
    factionId: Option<FactionId>,
    delta: real,
    reason: Option<string>,
    details: Dict<string, Value>)

  /** The entry add_entry builds: `details or {}` turns a missing or empty details into {}. */
  function Entry(kind: string, tick: int, worldId: Option<WorldId>, factionId: Option<FactionId>,
                 delta: real, reason: Option<string>, details: Option<Dict<string, Value>>): (e: AuditEntry)
    ensures e.kind == kind && e.tick == tick && e.worldId == worldId && e.factionId == factionId
    ensures e.delta == delta && e.reason == reason
    ensures details.None? ==> e.details == EmptyDict()
    ensures details.Some? && details.value.keys != [] ==> e.details == details.value
    ensures details.Some? && details.value.Valid() ==> e.details.Valid() && e.details.vals == details.value.vals
  {
    if details.None? || details.value.keys == [] then AuditEntry(kind, tick, worldId, factionId, delta, reason, EmptyDict())
    else AuditEntry(kind, tick, worldId, factionId, delta, reason, details.value)
  }

  /** An entry with every default: no world, no faction, delta 0.0, no details. */
  function Note(kind: string, tick: int, worldId: Option<WorldId>, reason: string): (e: AuditEntry)
    ensures e.kind == kind && e.tick == tick && e.worldId == worldId && e.factionId == None
    ensures e.delta == 0.0 && e.reason == Some(reason) && e.details == EmptyDict()
  {
    Entry(kind, tick, worldId, None, 0.0, Some(reason), None)
  }

  class AuditLog {
    var entries: seq<AuditEntry>

    constructor ()
      ensures entries == []
    {
      entries := [];
    }

    /** add_entry: exactly one entry goes at the end; earlier entries stay as they were. */
    method AddEntry(kind: string, tick: int, worldId: Option<WorldId>, factionId: Option<FactionId>,
                    delta: real, reason: Option<string>, details: Option<Dict<string, Value>>)
      modifies this
      ensures entries == old(entries) + [Entry(kind, tick, worldId, factionId, delta, reason, details)]
    {
      entries := entries + [Entry(kind, tick, worldId, factionId, delta, reason, details)];
    }
  }
}
