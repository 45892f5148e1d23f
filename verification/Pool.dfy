/**
  The connection pool. Each critical section of the manager is a function on the pool's
  state; the class runs them on its fields, and the state machine interleaves them over
  any number of threads.
 */
module ConnectorPool {
  import opened Wrappers

  /** `id` is unique among live connections only; `serial` among all that were ever made. */
  datatype Conn = Conn(id: nat, serial: nat)
  datatype Stats = Stats(createdAt: int, lastUsedAt: int, useCount: nat)

  datatype Pool = Pool(
    permits: nat, conns: map<nat, Conn>, stats: map<nat, Stats>, available: set<nat>, closed: set<Conn>)

  function Empty(max: nat): Pool { Pool(max, map[], map[], {}, {}) }

  // ------------------------------------------------------------ critical sections

  /** Takes `id` out of the available connections; an unhealthy one is closed and forgotten. */
  function Popped(p: Pool, id: nat, healthy: bool): Pool {
    var q := p.(available := p.available - {id});
    if id in p.conns && !healthy then
      q.(conns := p.conns - {id}, stats := p.stats - {id}, closed := p.closed + {p.conns[id]})
    else q
  }
  function Handed(p: Pool, id: nat, healthy: bool): Option<Conn> {
    if id in p.conns && healthy then Some(p.conns[id]) else None
  }

  function Inserted(p: Pool, c: Conn, now: int): Pool {
    p.(conns := p.conns[c.id := c], stats := p.stats[c.id := Stats(now, now, 0)])
  }

  /** A connection that is not tracked any more is closed. */
  function GivenBack(p: Pool, c: Conn, now: int): Pool {
    if c.id in p.stats then
      p.(stats := p.stats[c.id := Stats(p.stats[c.id].createdAt, now, p.stats[c.id].useCount + 1)],
         available := p.available + {c.id})
    else p.(closed := p.closed + {c})
  }

  function IdleIds(p: Pool, now: int, timeout: int): set<nat> {
    set id | id in p.stats && now - p.stats[id].lastUsedAt > timeout
  }
  /** Closes and forgets the connections in `ids`, held or not. */
  function Cleaned(p: Pool, ids: set<nat>): Pool {
    var gone := ids * p.conns.Keys;
    p.(conns := p.conns - gone, stats := p.stats - gone, available := p.available - gone,
       closed := p.closed + set id | id in gone :: p.conns[id])
  }
  function ShutDown(p: Pool): Pool {
    p.(conns := map[], stats := map[], available := {}, closed := p.closed + p.conns.Values)
  }

  // ------------------------------------------------------------ what a caller meets

  /**
    What the environment does in one attempt: the semaphore, the connector class, the
    method, and how other threads leave the pool before the attempt and during the call.
   */
  datatype Attempt<V> = Attempt(
    acquired: bool, made: Option<Conn>, outcome: Result<V, nat>, now: int, before: Option<Pool>, during: Option<Pool>)
  datatype Failure = NoConnection | Raised(code: nat)

  function OutcomeOf<V>(a: Attempt<V>): Result<V, Failure> { TryResult(Called(a.outcome)) }

  /** How an attempt went. */
  datatype Try<V> = Refused | Called(outcome: Result<V, nat>)

  function TryResult<V>(t: Try<V>): Result<V, Failure> {
    match t
    case Refused => Err(NoConnection)
    case Called(Ok(v)) => Ok(v)
    case Called(Err(code)) => Err(Raised(code))
  }

  /** One attempt in a history: how it went, and the permits before and after it. */
  datatype Turn<V> = Turn(attempt: Try<V>, found: nat, left: nat)

  /**
    An attempt finds what was given, or what others made of it, and leaves what it found,
    or what others made of that.
   */
  ghost predicate Accounted<V>(a: Attempt<V>, t: Turn<V>, given: nat) {
    && t.found == (if a.before.Some? then a.before.value.permits else given)
    && t.left == (if t.attempt.Called? && a.during.Some? then a.during.value.permits + 1 else t.found)
    && (t.attempt.Called? ==> t.attempt.outcome == a.outcome)
    && (!a.acquired || t.found == 0 ==> t.attempt.Refused?)
    && (a.acquired && t.found > 0 && a.made.Some? ==> t.attempt.Called?)
  }

  /** The permits that a history leaves. */
  function LeftBy<V>(start: nat, h: seq<Turn<V>>): nat { if h == [] then start else h[|h| - 1].left }

  /** Every attempt of a history is accounted for, and all but the last failed. */
  ghost predicate History<V>(attempts: seq<Attempt<V>>, start: nat, h: seq<Turn<V>>) {
    h == [] ||
    var n := |h| - 1;
    && n < |attempts| && History(attempts, start, h[..n]) && Accounted(attempts[n], h[n], LeftBy(start, h[..n]))
    && (n > 0 ==> TryResult(h[n - 1].attempt).Err?)
  }

  lemma HistorySnoc<V>(attempts: seq<Attempt<V>>, start: nat, h: seq<Turn<V>>, t: Turn<V>)
    requires History(attempts, start, h) && |h| < |attempts| && Accounted(attempts[|h|], t, LeftBy(start, h))
    requires h != [] ==> TryResult(h[|h| - 1].attempt).Err?
    ensures History(attempts, start, h + [t]) && LeftBy(start, h + [t]) == t.left
    ensures CallCount(h + [t]) == CallCount(h) + if t.attempt.Called? then 1 else 0
  {
    assert (h + [t])[..|h|] == h;
  }

  /** Nobody else did anything to the pool. */
  predicate Alone<V>(a: Attempt<V>) { a.before.None? && a.during.None? }

  /** A thread on its own leaves the permits as it found them. */
  lemma {:induction false} AloneKeeps<V>(attempts: seq<Attempt<V>>, start: nat, h: seq<Turn<V>>)
    requires History(attempts, start, h) && forall k :: 0 <= k < |attempts| ==> Alone(attempts[k])
    ensures LeftBy(start, h) == start
  {
    if h != [] {
      AloneKeeps(attempts, start, h[..|h| - 1]);
    }
  }

  function CallCount<V>(h: seq<Turn<V>>): nat {
    if h == [] then 0 else CallCount(h[..|h| - 1]) + if h[|h| - 1].attempt.Called? then 1 else 0
  }

  // ------------------------------------------------------------ the manager

  class PooledConnectorManager {
    const maxConnections: nat
    const idleTimeout: int
    var permits: nat
    var connectionPool: map<nat, Conn>
    var connectionStats: map<nat, Stats>
    var availableConnections: set<nat>
    ghost var closed: set<Conn>
    var running: bool

    constructor (max: nat, idleTimeout: int)
      ensures View() == Empty(max) && maxConnections == max && this.idleTimeout == idleTimeout && running
    {
      maxConnections, this.idleTimeout, permits, running := max, idleTimeout, max, true;
      connectionPool, connectionStats, availableConnections, closed := map[], map[], {}, {};
    }

    ghost function View(): Pool
      reads this
    {
      Pool(permits, connectionPool, connectionStats, availableConnections, closed)
    }

    /** `_get_available_connection`; `health` answers for each connection. */
    method GetAvailableConnection(health: Conn -> bool) returns (conn: Option<Conn>)
      modifies this
      ensures old(availableConnections) == {} ==> conn.None? && View() == old(View())
      ensures old(availableConnections) != {} ==>
        exists id :: id in old(availableConnections)
          && var ok := id in old(connectionPool) && health(old(connectionPool)[id]);
          View() == Popped(old(View()), id, ok) && conn == Handed(old(View()), id, ok)
    {
      if availableConnections == {} { return None; }
      var id :| id in availableConnections;
      ghost var before := View();
      availableConnections := availableConnections - {id};
      if id in connectionPool && health(connectionPool[id]) {
        conn := Some(connectionPool[id]);
        assert View() == Popped(before, id, true);
      } else {
        if id in connectionPool {
          closed := closed + {connectionPool[id]};
          connectionPool, connectionStats := connectionPool - {id}, connectionStats - {id};
        }
        conn := None;
        assert View() == Popped(before, id, false);
      }
    }

    /** The locked part of `_create_new_connection`. */
    method InsertConnection(c: Conn, now: int)
      modifies this
      ensures View() == Inserted(old(View()), c, now)
    {
      connectionPool := connectionPool[c.id := c];
      connectionStats := connectionStats[c.id := Stats(now, now, 0)];
    }

    /** `release_connection`: the locked part, and then the permit. */
    method ReleaseConnection(c: Conn, now: int)
      modifies this
      ensures View() == GivenBack(old(View()), c, now).(permits := old(permits) + 1)
    {
      if c.id in connectionStats {
        var s := connectionStats[c.id];
        connectionStats := connectionStats[c.id := Stats(s.createdAt, now, s.useCount + 1)];
        availableConnections := availableConnections + {c.id};
      } else {
        closed := closed + {c};
      }
      permits := permits + 1;
    }

    /** `get_connection`: a failed creation gives the permit back. */
    method GetConnection<V>(a: Attempt<V>, health: Conn -> bool) returns (r: Result<Conn, Failure>)
      modifies this
      ensures r.Ok? ==> old(permits) > 0 && a.acquired && permits == old(permits) - 1
      ensures r.Err? ==> r == Err(NoConnection) && permits == old(permits)
      ensures a.acquired && old(permits) > 0 && a.made.Some? ==> r.Ok?
      ensures r.Ok? && (a.made.None? || r.value != a.made.value) ==>
        r.value in old(connectionPool).Values && health(r.value)
    {
      if !a.acquired || permits == 0 { return Err(NoConnection); }
      permits := permits - 1;
      var found := GetAvailableConnection(health);
      if found.Some? { return Ok(found.value); }
      if a.made.None? {
        permits := permits + 1;
        return Err(NoConnection);
      }
      InsertConnection(a.made.value, a.now);
      return Ok(a.made.value);
    }

    /** The pool as other threads have left it, if they did anything. */
    method Interfere(p: Option<Pool>)
      modifies this
      ensures View() == if p.Some? then p.value else old(View())
    {
      if p.Some? {
        permits, connectionPool, connectionStats := p.value.permits, p.value.conns, p.value.stats;
        availableConnections, closed := p.value.available, p.value.closed;
      }
    }

    /** One attempt: a connection that was obtained is released whatever the method does. */
    method TryOnce<V>(a: Attempt<V>, health: Conn -> bool)
      returns (result: Result<V, Failure>, called: bool, ghost t: Turn<V>)
      modifies this
      ensures result == TryResult(t.attempt) && called == t.attempt.Called? && permits == t.left
      ensures Accounted(a, t, old(permits))
    {
      Interfere(a.before);
      ghost var found := permits;
      var connector := GetConnection(a, health);
      if connector.Err? { return Err(NoConnection), false, Turn(Refused, found, permits); }
      Interfere(a.during);
      ReleaseConnection(connector.value, a.now);
      return OutcomeOf(a), true, Turn(Called(a.outcome), found, permits);
    }

    /**
      `execute_with_retry`: `attempts` has one entry per allowed attempt, and `history` says
      how each attempt made went: refused a connection, or called the method. The thread
      itself takes and returns one permit in an attempt that calls the method, and none in
      any other, so it leaves the semaphore as it was but for what other threads do. The
      answer is the first success or else the last failure.
     */
    method ExecuteWithRetry<V>(attempts: seq<Attempt<V>>, health: Conn -> bool)
      returns (r: Option<Result<V, Failure>>, calls: nat, ghost history: seq<Turn<V>>)
      modifies this
      ensures History(attempts, old(permits), history) && calls == CallCount(history)
      ensures permits == LeftBy(old(permits), history)
      ensures (forall k :: 0 <= k < |attempts| ==> Alone(attempts[k])) ==> permits == old(permits)
      ensures r == if history == [] then None else Some(TryResult(history[|history| - 1].attempt))
      ensures r.None? || r.value.Err? ==> |history| == |attempts|
    {
      r, calls, history := None, 0, [];
      var i := 0;
      while i < |attempts|
        invariant 0 <= i == |history| <= |attempts|
        invariant History(attempts, old(permits), history) && calls == CallCount(history)
        invariant permits == LeftBy(old(permits), history)
        invariant r == if i == 0 then None else Some(TryResult(history[i - 1].attempt))
        invariant i > 0 ==> r.value.Err?
      {
        var result, called;
        ghost var t;
        result, called, t := TryOnce(attempts[i], health);
        HistorySnoc(attempts, old(permits), history, t);
        if called { calls := calls + 1; }
        r, history := Some(result), history + [t];
        if result.Ok? { break; }
        i := i + 1;
      }
      if forall k :: 0 <= k < |attempts| ==> Alone(attempts[k]) { AloneKeeps(attempts, old(permits), history); }
    }

    /** One round of `_cleanup_idle_connections`: finds the idle connections, then closes them. */
    method CleanUp(now: int)
      modifies this
      ensures View() == Cleaned(old(View()), IdleIds(old(View()), now, idleTimeout))
    {
      var idle: set<nat> := {};
      var left := connectionStats.Keys;
      while left != {}
        invariant left <= connectionStats.Keys && View() == old(View())
        invariant idle ==
          set id | id in connectionStats.Keys - left && now - connectionStats[id].lastUsedAt > idleTimeout
        decreases left
      {
        var id :| id in left;
        if now - connectionStats[id].lastUsedAt > idleTimeout { idle := idle + {id}; }
        left := left - {id};
      }
      assert idle == IdleIds(View(), now, idleTimeout);
      CloseAll(idle);
    }

    method CloseAll(ids: set<nat>)
      modifies this
      ensures View() == Cleaned(old(View()), ids)
    {
      var left := ids;
      CleanedNone(View());
      while left != {}
        invariant left <= ids && View() == Cleaned(old(View()), ids - left)
        decreases left
      {
        var id :| id in left;
        CleanedOneMore(old(View()), ids - left, id);
        if id in connectionPool {
          closed := closed + {connectionPool[id]};
          connectionPool, connectionStats := connectionPool - {id}, connectionStats - {id};
          availableConnections := availableConnections - {id};
        }
        assert ids - (left - {id}) == (ids - left) + {id};
        left := left - {id};
      }
      assert ids - {} == ids;
    }

    method Shutdown()
      modifies this
      ensures View() == if old(running) then ShutDown(old(View())) else old(View())
      ensures !running
    {
      if running {
        running := false;
        closed := closed + connectionPool.Values;
        connectionPool, connectionStats, availableConnections := map[], map[], {};
      }
    }
  }

  lemma CleanedNone(p: Pool)
    ensures Cleaned(p, {}) == p
  {
    assert p.conns - {} == p.conns && p.stats - {} == p.stats && p.available - {} == p.available;
    assert {} * p.conns.Keys == {};
    assert p.closed + {} == p.closed;
  }

  function CloseOne(p: Pool, id: nat): Pool {
    if id in p.conns then
      Pool(p.permits, p.conns - {id}, p.stats - {id}, p.available - {id}, p.closed + {p.conns[id]})
    else p
  }

  lemma CleanedOneMore(p: Pool, ids: set<nat>, id: nat)
    requires id !in ids
    ensures Cleaned(p, ids + {id}) == CloseOne(Cleaned(p, ids), id)
  {
    var gone := ids * p.conns.Keys;
    if id in p.conns {
      assert (ids + {id}) * p.conns.Keys == gone + {id};
      assert p.conns - (gone + {id}) == p.conns - gone - {id};
      assert p.stats - (gone + {id}) == p.stats - gone - {id};
      assert p.available - (gone + {id}) == p.available - gone - {id};
      assert (set x | x in gone + {id} :: p.conns[x]) == (set x | x in gone :: p.conns[x]) + {p.conns[id]};
    } else {
      assert (ids + {id}) * p.conns.Keys == gone;
    }
  }
}
