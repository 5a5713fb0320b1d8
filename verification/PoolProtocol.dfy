/**
 Every interleaving of GetPool callers, the eviction loop and Close. A caller runs the lookup, then
 a single flight per project that looks up again, creates a pool, and inserts it.
 */
module PoolProtocol {
  import opened Wrappers
  import opened PoolManager

  type CallerId = nat

  /** Where the leader of a flight is; `Holding` owns an open pool that is not in the map yet. */
  datatype Stage = Checking | Creating | Holding(pool: PoolId) | Finishing(result: Option<PoolId>)

  datatype Caller =
    | Idle
    | Missed(projectID: string)
    | Leading(projectID: string, stage: Stage)
    | Waiting(projectID: string)
    | Returned(result: Option<PoolId>)

  datatype System = System(
    cache: Cache,
    callers: map<CallerId, Caller>,
    flights: map<string, CallerId>,    // the singleflight group: who leads each project's flight
    owner: map<PoolId, string>,        // the project each pool was created for
    next: PoolId,
    closed: bool)

  datatype Action =
    | Begin(c: CallerId, projectID: string, now: int)
    | Enter(c: CallerId)
    | Check(c: CallerId, now: int)
    | Create(c: CallerId, ok: bool)
    | Publish(c: CallerId, now: int)
    | Finish(c: CallerId)
    | Evict(now: int)
    | CloseAll

  const START: System := System(Cache(map[], {}), map[], map[], map[], 0, false)

  function At(s: System, c: CallerId): Caller {
    if c in s.callers then s.callers[c] else Idle
  }

  function Moved(s: System, c: CallerId, to: Caller): System {
    s.(callers := s.callers[c := to])
  }

  function Resolved(callers: map<CallerId, Caller>, projectID: string, leader: CallerId, r: Option<PoolId>)
    : map<CallerId, Caller>
  {
    map c | c in callers :: if c == leader || callers[c] == Waiting(projectID) then Returned(r) else callers[c]
  }

  function Next(s: System, a: Action): Option<System> {
    match a
    case Begin(c, p, now) =>
      if !At(s, c).Idle? && !At(s, c).Returned? then None
      else
        var r := Found(s.cache, p);
        Some(Moved(s, c, if r.Some? then Returned(r) else Missed(p)).(cache := Touched(s.cache, p, now)))
    case Enter(c) =>
      if !At(s, c).Missed? then None
      else
        var p := At(s, c).projectID;
        if p in s.flights then Some(Moved(s, c, Waiting(p)))
        else Some(Moved(s, c, Leading(p, Checking)).(flights := s.flights[p := c]))
    case Check(c, now) =>
      if !At(s, c).Leading? || !At(s, c).stage.Checking? then None
      else
        var p := At(s, c).projectID;
        var r := Found(s.cache, p);
        Some(Moved(s, c, Leading(p, if r.Some? then Finishing(r) else Creating)).(cache := Touched(s.cache, p, now)))
    case Create(c, ok) =>
      if !At(s, c).Leading? || !At(s, c).stage.Creating? then None
      else
        var p := At(s, c).projectID;
        if !ok then Some(Moved(s, c, Leading(p, Finishing(None))))
        else Some(Moved(s, c, Leading(p, Holding(s.next))).(
                    cache := s.cache.(open := s.cache.open + {s.next}),
                    owner := s.owner[s.next := p], next := s.next + 1))
    case Publish(c, now) =>
      if !At(s, c).Leading? || !At(s, c).stage.Holding? then None
      else
        var p, id := At(s, c).projectID, At(s, c).stage.pool;
        Some(Moved(s, c, Leading(p, Finishing(Some(id)))).(cache := Inserted(s.cache, p, id, now)))
    case Finish(c) =>
      if !At(s, c).Leading? || !At(s, c).stage.Finishing? then None
      else
        var p, r := At(s, c).projectID, At(s, c).stage.result;
        Some(s.(callers := Resolved(s.callers, p, c, r), flights := s.flights - {p}))
    case Evict(now) => Some(s.(cache := Evicted(s.cache, now)))
    case CloseAll => Some(if s.closed then s else s.(cache := Emptied(s.cache), closed := true))
  }

  function Exec(s: System, actions: seq<Action>): Option<System>
    decreases |actions|
  {
    if actions == [] then Some(s)
    else
      var n := Next(s, actions[0]);
      if n.None? then None else Exec(n.value, actions[1..])
  }

  /** Caller `c` leads the flight of project `p`. */
  predicate Leads(s: System, c: CallerId, p: string) {
    At(s, c).Leading? && At(s, c).projectID == p
  }

  /** Caller `c` holds pool `id`, created but not yet in the map. */
  predicate Holds(s: System, c: CallerId, id: PoolId) {
    At(s, c).Leading? && At(s, c).stage == Holding(id)
  }

  predicate Cached(s: System, p: string, id: PoolId) {
    p in s.cache.pools && s.cache.pools[p].pool == id
  }

  /** The leader of the project's flight holds the pool. */
  predicate Held(s: System, p: string, id: PoolId) {
    p in s.flights && Holds(s, s.flights[p], id)
  }

  /**
   What the cache promises in every state: a cached pool is open and belongs to its project; an open
   pool is cached or held by the leader of its project's flight, never both; and a project has at
   most one open pool.
   */
  ghost predicate Safe(s: System) {
    && (forall p :: p in s.cache.pools ==>
          var id := s.cache.pools[p].pool; id in s.cache.open && id in s.owner && s.owner[id] == p)
    && (forall id :: id in s.cache.open ==>
          id in s.owner && (Cached(s, s.owner[id], id) || Held(s, s.owner[id], id)))
    && (forall a, b :: a in s.cache.open && b in s.cache.open && s.owner[a] == s.owner[b] ==> a == b)
  }

  /** Publishing never overwrites an entry: the project has none. */
  ghost predicate InsertIsFresh(s: System) {
    forall c, id :: Holds(s, c, id) ==> At(s, c).projectID !in s.cache.pools
  }

  ghost predicate Invariant(s: System) {
    && (forall p :: p in s.flights ==> Leads(s, s.flights[p], p))
    && (forall c :: At(s, c).Leading? ==> At(s, c).projectID in s.flights && s.flights[At(s, c).projectID] == c)
    && (forall c :: At(s, c).Waiting? ==> At(s, c).projectID in s.flights)
    && (forall c :: At(s, c).Leading? && (At(s, c).stage.Creating? || At(s, c).stage.Holding?) ==>
          At(s, c).projectID !in s.cache.pools)
    && (forall c :: At(s, c).Leading? && At(s, c).stage.Holding? ==>
          var id := At(s, c).stage.pool;
          id in s.cache.open && id in s.owner && s.owner[id] == At(s, c).projectID)
    && (forall id :: id in s.owner ==> id < s.next)
    && (forall p :: p in s.cache.pools ==>
          var id := s.cache.pools[p].pool; id in s.cache.open && id in s.owner && s.owner[id] == p)
    && (forall id :: id in s.cache.open ==>
          id in s.owner && (Cached(s, s.owner[id], id) || Held(s, s.owner[id], id)))
  }

  lemma InvariantIsSafe(s: System)
    requires Invariant(s)
    ensures Safe(s) && InsertIsFresh(s)
  {
    forall a, b | a in s.cache.open && b in s.cache.open && s.owner[a] == s.owner[b]
      ensures a == b
    {
      assert Held(s, s.owner[a], a) ==> s.owner[a] !in s.cache.pools;
      assert Held(s, s.owner[b], b) ==> s.owner[b] !in s.cache.pools;
    }
  }

  lemma TouchKeeps(s: System, p: string, now: int)
    requires Invariant(s)
    ensures Invariant(s.(cache := Touched(s.cache, p, now)))
  {
    var s' := s.(cache := Touched(s.cache, p, now));
    assert forall c :: At(s', c) == At(s, c);
  }

  /** Moving a caller between states that lead no flight changes nothing the invariant sees. */
  lemma BystanderMoves(s: System, c: CallerId, to: Caller)
    requires Invariant(s) && !At(s, c).Leading? && !to.Leading?
    requires to.Waiting? ==> to.projectID in s.flights
    ensures Invariant(Moved(s, c, to))
  {
    var s' := Moved(s, c, to);
    assert forall d :: At(s', d) == if d == c then to else At(s, d);
  }

  lemma BeginKeeps(s: System, c: CallerId, p: string, now: int)
    requires Invariant(s) && Next(s, Begin(c, p, now)).Some?
    ensures Invariant(Next(s, Begin(c, p, now)).value)
  {
    hide Invariant;
    var r := Found(s.cache, p);
    BystanderMoves(s, c, if r.Some? then Returned(r) else Missed(p));
    TouchKeeps(Moved(s, c, if r.Some? then Returned(r) else Missed(p)), p, now);
  }

  lemma EnterKeeps(s: System, c: CallerId)
    requires Invariant(s) && Next(s, Enter(c)).Some?
    ensures Invariant(Next(s, Enter(c)).value)
  {
    hide Touched, Found, Inserted, Retained, Resolved;
    var p := At(s, c).projectID;
    if p in s.flights {
      BystanderMoves(s, c, Waiting(p));
    } else {
      var s' := Next(s, Enter(c)).value;
      assert forall d :: At(s', d) == if d == c then Leading(p, Checking) else At(s, d);
    }
  }

  lemma CheckKeeps(s: System, c: CallerId, now: int)
    requires Invariant(s) && Next(s, Check(c, now)).Some?
    ensures Invariant(Next(s, Check(c, now)).value)
  {
    var p := At(s, c).projectID;
    var r := Found(s.cache, p);
    var to := Leading(p, if r.Some? then Finishing(r) else Creating);
    var mid := Moved(s, c, to);
    hide Touched, Inserted, Retained, Resolved, Emptied, Evicted;
    assert forall d :: At(mid, d) == if d == c then to else At(s, d);
    assert Invariant(mid);
    TouchKeeps(mid, p, now);
  }

  lemma CreateKeeps(s: System, c: CallerId, ok: bool)
    requires Invariant(s) && Next(s, Create(c, ok)).Some?
    ensures Invariant(Next(s, Create(c, ok)).value)
  {
    hide Touched, Found, Inserted, Retained, Resolved;
    var p := At(s, c).projectID;
    var to := Leading(p, if ok then Holding(s.next) else Finishing(None));
    var s' := Next(s, Create(c, ok)).value;
    assert forall d :: At(s', d) == if d == c then to else At(s, d);
    assert forall q :: q in s'.flights ==> Leads(s', s'.flights[q], q);
    forall id | id in s'.cache.open
      ensures id in s'.owner && (Cached(s', s'.owner[id], id) || Held(s', s'.owner[id], id))
    {
      if id in s.cache.open {
        assert id < s.next && !Holds(s, c, id);
      } else {
        assert id == s.next && Holds(s', c, id);
      }
    }
  }

  lemma PublishKeeps(s: System, c: CallerId, now: int)
    requires Invariant(s) && Next(s, Publish(c, now)).Some?
    ensures Invariant(Next(s, Publish(c, now)).value)
  {
    var s' := Next(s, Publish(c, now)).value;
    assert forall d :: d != c ==> At(s', d) == At(s, d);
  }

  lemma FinishKeeps(s: System, c: CallerId)
    requires Invariant(s) && Next(s, Finish(c)).Some?
    ensures Invariant(Next(s, Finish(c)).value)
  {
    hide Touched, Found, Inserted, Retained;
    var s' := Next(s, Finish(c)).value;
    assert forall d :: At(s', d) == At(s, d) || At(s', d).Returned?;
    assert forall d :: d != c && At(s, d).Leading? ==> At(s', d) == At(s, d);
  }

  lemma RetainKeeps(s: System, keep: Entry -> bool)
    requires Invariant(s)
    ensures Invariant(s.(cache := Retained(s.cache, keep)))
  {
    var s' := s.(cache := Retained(s.cache, keep));
    assert forall c :: At(s', c) == At(s, c);
    forall p | p in s'.cache.pools
      ensures s'.cache.pools[p].pool in s'.cache.open
    {
      assert s.cache.pools[p].pool in s.owner && s.owner[s.cache.pools[p].pool] == p;
    }
    forall c | At(s, c).Leading? && At(s, c).stage.Holding?
      ensures At(s, c).stage.pool in s'.cache.open
    {
      assert s.owner[At(s, c).stage.pool] == At(s, c).projectID;
    }
  }

  lemma NextKeeps(s: System, a: Action)
    requires Invariant(s) && Next(s, a).Some?
    ensures Invariant(Next(s, a).value)
  {
    hide Invariant;
    match a {
      case Begin(c, p, now) => BeginKeeps(s, c, p, now);
      case Enter(c) => EnterKeeps(s, c);
      case Check(c, now) => CheckKeeps(s, c, now);
      case Create(c, ok) => CreateKeeps(s, c, ok);
      case Publish(c, now) => PublishKeeps(s, c, now);
      case Finish(c) => FinishKeeps(s, c);
      case Evict(now) => RetainKeeps(s, (e: Entry) => now - e.lastUsed <= IDLE_TTL);
      case CloseAll =>
        RetainKeeps(s, (e: Entry) => false);
        ClosedFlagIrrelevant(s.(cache := Emptied(s.cache)));
    }
  }

  lemma ClosedFlagIrrelevant(s: System)
    requires Invariant(s)
    ensures Invariant(s.(closed := true))
  {
    var s' := s.(closed := true);
    assert forall c :: At(s', c) == At(s, c);
  }

  lemma {:induction false} RunKeeps(s: System, actions: seq<Action>)
    requires Invariant(s) && Exec(s, actions).Some?
    ensures Invariant(Exec(s, actions).value)
    decreases |actions|
  {
    hide Invariant, Next;
    if actions != [] {
      NextKeeps(s, actions[0]);
      RunKeeps(Next(s, actions[0]).value, actions[1..]);
    }
  }

  /** The cache keeps its promises in every interleaving. */
  lemma EveryInterleavingSafe(actions: seq<Action>)
    requires Exec(START, actions).Some?
    ensures Safe(Exec(START, actions).value) && InsertIsFresh(Exec(START, actions).value)
  {
    hide Exec;
    assert Invariant(START);
    RunKeeps(START, actions);
    InvariantIsSafe(Exec(START, actions).value);
  }

  /** A pool handed out by the fast path is open when it is handed out, and is the project's own. */
  lemma HitIsOpen(actions: seq<Action>, c: CallerId, p: string, now: int)
    requires Exec(START, actions).Some?
    requires Found(Exec(START, actions).value.cache, p).Some?
    ensures var s := Exec(START, actions).value;
      var id := Found(s.cache, p).value;
      id in s.cache.open && id in s.owner && s.owner[id] == p
  {
    EveryInterleavingSafe(actions);
  }

  /** In nanoseconds. */
  const HALF_HOUR: int := 1_800_000_000_000

  /**
   A pool handed out by the fast path at `now` and not used again is gone after an eviction at
   `later` if and only if more than half an hour lies between; until then it is open and cached.
   */
  lemma HitEvictedIff(actions: seq<Action>, c: CallerId, p: string, now: int, later: int)
    requires Exec(START, actions).Some?
    requires Found(Exec(START, actions).value.cache, p).Some?
    requires Next(Exec(START, actions).value, Begin(c, p, now)).Some?
    ensures var s := Exec(START, actions).value;
      var hit := Next(s, Begin(c, p, now)).value;
      var s' := Next(hit, Evict(later)).value;
      var id := Found(s.cache, p).value;
      && At(hit, c) == Returned(Some(id))
      && (if later - now <= HALF_HOUR then Cached(s', p, id) && id in s'.cache.open
          else p !in s'.cache.pools && id !in s'.cache.open)
  {
    hide Exec;
    assert Invariant(START);
    RunKeeps(START, actions);
    var s := Exec(START, actions).value;
    hide Invariant;
    EvictionAt(s, p, now, later);
  }

  lemma EvictionAt(s: System, p: string, now: int, later: int)
    requires Invariant(s) && p in s.cache.pools
    ensures var touched := Touched(s.cache, p, now);
      var after := Evicted(touched, later);
      var id := s.cache.pools[p].pool;
      if later - now <= HALF_HOUR then p in after.pools && after.pools[p].pool == id && id in after.open
      else p !in after.pools && id !in after.open
  {
    var touched := Touched(s.cache, p, now);
    var id := s.cache.pools[p].pool;
    assert s.owner[id] == p;
    if later - now > HALF_HOUR {
      assert touched.pools[p] == Entry(id, now);
    } else {
      forall q | q in touched.pools && touched.pools[q].pool == id
        ensures q == p
      {
        assert s.cache.pools[q].pool == id && s.owner[id] == q;
      }
    }
  }

  /** The same holds of a pool published at `now`: its half hour starts with it. */
  lemma PublishedEvictedIff(actions: seq<Action>, c: CallerId, now: int, later: int)
    requires Exec(START, actions).Some? && Next(Exec(START, actions).value, Publish(c, now)).Some?
    ensures var s := Exec(START, actions).value;
      var p, id := At(s, c).projectID, At(s, c).stage.pool;
      var s' := Next(Next(s, Publish(c, now)).value, Evict(later)).value;
      if later - now <= HALF_HOUR then Cached(s', p, id) && id in s'.cache.open
      else p !in s'.cache.pools && id !in s'.cache.open
  {
    hide Exec;
    assert Invariant(START);
    RunKeeps(START, actions);
    var s := Exec(START, actions).value;
    NextKeeps(s, Publish(c, now));
    var mid := Next(s, Publish(c, now)).value;
    var p, id := At(s, c).projectID, At(s, c).stage.pool;
    assert mid.cache.pools[p] == Entry(id, now);
    assert Touched(mid.cache, p, now).pools == mid.cache.pools;
    EvictionAt(mid, p, now, later);
    hide Invariant, Evicted;
  }

  // What callers get

  /** The result a flight is about to hand out is a pool of its project. */
  ghost predicate ResultsOwned(s: System) {
    forall c :: At(s, c).Leading? && At(s, c).stage.Finishing? && At(s, c).stage.result.Some? ==>
      var id := At(s, c).stage.result.value;
      id in s.owner && s.owner[id] == At(s, c).projectID
  }

  lemma NextOwns(s: System, a: Action)
    requires Invariant(s) && ResultsOwned(s) && Next(s, a).Some?
    ensures ResultsOwned(Next(s, a).value)
  {
    var s' := Next(s, a).value;
    hide Touched, Inserted, Retained, Emptied, Evicted;
    forall c | At(s', c).Leading? && At(s', c).stage.Finishing? && At(s', c).stage.result.Some?
      ensures var id := At(s', c).stage.result.value; id in s'.owner && s'.owner[id] == At(s', c).projectID
    {
      if At(s', c) == At(s, c) {
        assert At(s, c).stage.result.value < s.next;
      }
    }
  }

  lemma {:induction false} RunOwns(s: System, actions: seq<Action>)
    requires Invariant(s) && ResultsOwned(s) && Exec(s, actions).Some?
    ensures ResultsOwned(Exec(s, actions).value)
    decreases |actions|
  {
    hide Invariant, ResultsOwned, Next;
    if actions != [] {
      NextKeeps(s, actions[0]);
      NextOwns(s, actions[0]);
      RunOwns(Next(s, actions[0]).value, actions[1..]);
    }
  }

  /**
   When a flight ends, its leader and all who waited for its project get its one result, a pool of that
   project or none; nobody else moves, and the next miss starts a new flight.
   */
  lemma FlightHandsOut(actions: seq<Action>, c: CallerId, d: CallerId)
    requires Exec(START, actions).Some? && Next(Exec(START, actions).value, Finish(c)).Some?
    ensures var s := Exec(START, actions).value;
      var s' := Next(s, Finish(c)).value;
      var p, result := At(s, c).projectID, At(s, c).stage.result;
      && (result.Some? ==> result.value in s.owner && s.owner[result.value] == p)
      && At(s', d) == (if d == c || At(s, d) == Waiting(p) then Returned(result) else At(s, d))
      && p !in s'.flights && s'.cache == s.cache
  {
    hide Exec;
    assert Invariant(START) && ResultsOwned(START);
    RunOwns(START, actions);
    hide Invariant;
  }

  /** Close leaves open exactly the pools that in-flight creators hold at that moment. */
  lemma CloseLeavesHeldPools(actions: seq<Action>)
    requires Exec(START, actions).Some? && !Exec(START, actions).value.closed
    ensures var s := Exec(START, actions).value;
      var s' := Next(s, CloseAll).value;
      s'.cache.pools == map[] && forall id :: id in s'.cache.open <==> exists c :: Holds(s, c, id)
  {
    hide Exec;
    assert Invariant(START);
    RunKeeps(START, actions);
    var s := Exec(START, actions).value;
    var s' := Next(s, CloseAll).value;
    forall id
      ensures id in s'.cache.open <==> exists c :: Holds(s, c, id)
    {
      if id in s'.cache.open {
        assert id in s.cache.open;
        assert Holds(s, s.flights[s.owner[id]], id);
      }
      if c :| Holds(s, c, id) {
        assert id in s.cache.open && s.owner[id] == At(s, c).projectID;
      }
    }
  }

  lemma {:induction false} ExecAppend(s: System, before: seq<Action>, a: Action)
    requires Exec(s, before).Some?
    ensures Exec(s, before + [a]) == Next(Exec(s, before).value, a)
    decreases |before|
  {
    hide Next;
    if before == [] {
      assert [a][1..] == [];
    } else {
      assert (before + [a])[1..] == before[1..] + [a];
      ExecAppend(Next(s, before[0]).value, before[1..], a);
    }
  }

  /** A creation that straddles Close publishes an open pool into the closed manager's map. */
  lemma CreationOutlivesClose(actions: seq<Action>, c: CallerId, id: PoolId, now: int)
    requires Exec(START, actions).Some? && Holds(Exec(START, actions).value, c, id)
    ensures var r := Exec(START, actions + [CloseAll] + [Publish(c, now)]);
      r.Some? && r.value.closed && id in r.value.cache.open
      && Cached(r.value, At(Exec(START, actions).value, c).projectID, id)
  {
    var s := Exec(START, actions).value;
    ExecAppend(START, actions, CloseAll);
    ExecAppend(START, actions + [CloseAll], Publish(c, now));
    EveryInterleavingSafe(actions + [CloseAll]);
    RunKeeps(START, actions + [CloseAll]);
    var s' := Next(s, CloseAll).value;
    assert At(s', c) == At(s, c);
    hide Exec;
  }

  /** Such a creation exists: four steps of a lone caller lead to it. */
  lemma CreatorHolds(c: CallerId, p: string)
    ensures var r := Exec(START, [] + [Begin(c, p, 0)] + [Enter(c)] + [Check(c, 0)] + [Create(c, true)]);
      r.Some? && Holds(r.value, c, 0) && !r.value.closed
  {
    var none: seq<Action> := [];
    ExecAppend(START, none, Begin(c, p, 0));
    ExecAppend(START, none + [Begin(c, p, 0)], Enter(c));
    ExecAppend(START, none + [Begin(c, p, 0)] + [Enter(c)], Check(c, 0));
    ExecAppend(START, none + [Begin(c, p, 0)] + [Enter(c)] + [Check(c, 0)], Create(c, true));
  }
}
