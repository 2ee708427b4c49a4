/** The routed-groups cache (routed-groups-cache.service.ts): entries with a time to live,
    one generation counter per session, and one shared load per session and generation.
    A load is named by its `LoadId` in place of its promise. */
module RoutedGroupsCache {

  const TTL_MS := 15_000

  type LoadId = nat

  /** What one query returned, with the version of the route table it saw. */
  datatype Snapshot = Snapshot(groups: set<string>, version: nat)

  datatype Entry = Entry(expiresAt: int, snapshot: Snapshot)

  datatype Pending = Pending(generation: nat, load: LoadId)

  datatype Cache = Cache(
    entries: map<string, Entry>,
    generations: map<string, nat>,
    pendingLoads: map<string, Pending>)

  datatype LookupResult = Hit(snapshot: Snapshot) | Join(load: LoadId) | Miss(generation: nat)

  function Generation(c: Cache, sessionId: string): nat {
    if sessionId in c.generations then c.generations[sessionId] else 0
  }

  function Invalidated(c: Cache, sessionId: string): Cache {
    c.(entries := c.entries - {sessionId},
       generations := c.generations[sessionId := Generation(c, sessionId) + 1])
  }

  function LookedUp(c: Cache, sessionId: string, now: int): LookupResult {
    if sessionId in c.entries && now < c.entries[sessionId].expiresAt then Hit(c.entries[sessionId].snapshot)
    else if sessionId in c.pendingLoads && c.pendingLoads[sessionId].generation == Generation(c, sessionId)
    then Join(c.pendingLoads[sessionId].load)
    else Miss(Generation(c, sessionId))
  }

  function LoadStarted(c: Cache, sessionId: string, load: LoadId): Cache {
    c.(pendingLoads := c.pendingLoads[sessionId := Pending(Generation(c, sessionId), load)])
  }

  function LoadReturned(c: Cache, sessionId: string, generation: nat, snapshot: Snapshot, now: int): Cache {
    if Generation(c, sessionId) == generation
    then c.(entries := c.entries[sessionId := Entry(now + TTL_MS, snapshot)])
    else c
  }

  function LoadForgotten(c: Cache, sessionId: string, load: LoadId): Cache {
    if sessionId in c.pendingLoads && c.pendingLoads[sessionId].load == load
    then c.(pendingLoads := c.pendingLoads - {sessionId})
    else c
  }

  /** The service, cut at its awaits: each method is what runs without interruption. */
  class RoutedGroupsCacheService {
    var entries: map<string, Entry>
    var generations: map<string, nat>
    var pendingLoads: map<string, Pending>

    function View(): Cache
      reads this
    {
      Cache(entries, generations, pendingLoads)
    }

    constructor ()
      ensures View() == Cache(map[], map[], map[])
    {
      entries, generations, pendingLoads := map[], map[], map[];
    }

    method Invalidate(sessionId: string)
      modifies this
      ensures View() == Invalidated(old(View()), sessionId)
    {
      entries := entries - {sessionId};
      generations := generations[sessionId := (if sessionId in generations then generations[sessionId] else 0) + 1];
    }

    /** A lookup up to its first await; `load` names the load it starts when it misses. */
    method GetSourceGroupJids(sessionId: string, now: int, load: LoadId) returns (result: LookupResult)
      modifies this`pendingLoads
      ensures result == LookedUp(old(View()), sessionId, now)
      ensures View() == if result.Miss? then LoadStarted(old(View()), sessionId, load) else old(View())
    {
      if sessionId in entries && entries[sessionId].expiresAt > now {
        return Hit(entries[sessionId].snapshot);
      }
      var generation := if sessionId in generations then generations[sessionId] else 0;
      if sessionId in pendingLoads && pendingLoads[sessionId].generation == generation {
        return Join(pendingLoads[sessionId].load);
      }
      pendingLoads := pendingLoads[sessionId := Pending(generation, load)];
      return Miss(generation);
    }

    /** The rest of a load, once its query answered. */
    method FinishLoad(sessionId: string, generation: nat, snapshot: Snapshot, now: int)
      modifies this`entries
      ensures View() == LoadReturned(old(View()), sessionId, generation, snapshot, now)
    {
      var current := if sessionId in generations then generations[sessionId] else 0;
      if current == generation {
        entries := entries[sessionId := Entry(now + TTL_MS, snapshot)];
      }
    }

    /** The `finally` of the lookup that started the load. */
    method ForgetLoad(sessionId: string, load: LoadId)
      modifies this`pendingLoads
      ensures View() == LoadForgotten(old(View()), sessionId, load)
    {
      if sessionId in pendingLoads && pendingLoads[sessionId].load == load {
        pendingLoads := pendingLoads - {sessionId};
      }
    }
  }
}
