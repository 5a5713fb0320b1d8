/**
 The storage service's cache of per-project connection pools. The class holds the sections that run
 under its mutex; `PoolProtocol` interleaves them.
 */
module PoolManager {
  import opened Wrappers

  /** Pools are told apart by an identity; whether one is open is state of its own. */
  type PoolId = nat

  datatype Entry = Entry(pool: PoolId, lastUsed: int)

  /** Half an hour, in nanoseconds. */
  const IDLE_TTL: int := 30 * 60 * 1_000_000_000

  /** The mutex-protected map together with the set of pools not yet closed. */
  datatype Cache = Cache(pools: map<string, Entry>, open: set<PoolId>)

  function Touched(c: Cache, projectID: string, now: int): Cache {
    if projectID in c.pools then c.(pools := c.pools[projectID := c.pools[projectID].(lastUsed := now)]) else c
  }

  function Found(c: Cache, projectID: string): Option<PoolId> {
    if projectID in c.pools then Some(c.pools[projectID].pool) else None
  }

  function Inserted(c: Cache, projectID: string, pool: PoolId, now: int): Cache {
    c.(pools := c.pools[projectID := Entry(pool, now)])
  }

  /** Keep the entries `keep` accepts; close the pools of the others. */
  function Retained(c: Cache, keep: Entry -> bool): Cache {
    Cache(map p | p in c.pools && keep(c.pools[p]) :: c.pools[p],
          c.open - set p | p in c.pools && !keep(c.pools[p]) :: c.pools[p].pool)
  }

  function Evicted(c: Cache, now: int): Cache {
    Retained(c, (e: Entry) => now - e.lastUsed <= IDLE_TTL)
  }

  function Emptied(c: Cache): Cache {
    Retained(c, (e: Entry) => false)
  }

  class Manager {
    var pools: map<string, Entry>
    var open: set<PoolId>
    var closeDone: bool

    function View(): Cache
      reads this
    {
      Cache(pools, open)
    }

    constructor ()
      ensures View() == Cache(map[], {}) && !closeDone
    {
      pools, open, closeDone := map[], {}, false;
    }

    /** The lookup GetPool performs, on its fast path and again inside the flight. */
    method Lookup(projectID: string, now: int) returns (r: Option<PoolId>)
      modifies this
      ensures View() == Touched(old(View()), projectID, now) && closeDone == old(closeDone)
      ensures r == Found(old(View()), projectID)
    {
      if projectID in pools {
        var e := pools[projectID];
        pools := pools[projectID := e.(lastUsed := now)];
        return Some(e.pool);
      }
      r := None;
    }

    /** Publishes a freshly created pool. */
    method Insert(projectID: string, pool: PoolId, now: int)
      modifies this
      ensures View() == Inserted(old(View()), projectID, pool, now) && closeDone == old(closeDone)
    {
      pools := pools[projectID := Entry(pool, now)];
    }

    method EvictIdle(now: int)
      modifies this
      ensures View() == Evicted(old(View()), now) && closeDone == old(closeDone)
    {
      ghost var before := View();
      ghost var keep := (e: Entry) => now - e.lastUsed <= IDLE_TTL;
      var ids := pools.Keys;
      while ids != {}
        invariant ids <= before.pools.Keys && closeDone == old(closeDone)
        invariant pools == map p | p in before.pools && (p in ids || keep(before.pools[p])) :: before.pools[p]
        invariant open == before.open
                          - set p | p in before.pools && p !in ids && !keep(before.pools[p]) :: before.pools[p].pool
        decreases ids
      {
        var id :| id in ids;
        var e := pools[id];
        if now - e.lastUsed > IDLE_TTL {
          open := open - {e.pool};
          pools := pools - {id};
        }
        ids := ids - {id};
      }
    }

    method Close()
      modifies this
      ensures closeDone
      ensures View() == if old(closeDone) then old(View()) else Emptied(old(View()))
    {
      if closeDone {
        return;
      }
      closeDone := true;
      ghost var before := View();
      var ids := pools.Keys;
      while ids != {}
        invariant ids <= before.pools.Keys && closeDone
        invariant pools == map p | p in before.pools && p in ids :: before.pools[p]
        invariant open == before.open - set p | p in before.pools && p !in ids :: before.pools[p].pool
        decreases ids
      {
        var id :| id in ids;
        open := open - {pools[id].pool};
        pools := pools - {id};
        ids := ids - {id};
      }
    }
  }
}
