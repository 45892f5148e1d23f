/**
  The pool under any number of threads: every interleaving of its critical sections and
  of the steps between them.
 */
module PoolRuns {
  import opened Wrappers
  import opened ConnectorPool

  /** Where a thread is between asking for a connection and having returned it. */
  datatype Phase =
    | Outside
    | Permitted
    | Creating
    | Created(conn: Conn)
    | Holding(conn: Conn)
    | Leaving

  datatype System = System(max: nat, pool: Pool, threads: seq<Phase>, made: nat)

  function Initial(max: nat, threads: nat): System {
    System(max, Empty(max), seq(threads, i => Outside), 0)
  }

  datatype Step =
    | Acquire(i: nat)
    | PopNothing(i: nat)
    | Pop(i: nat, id: nat, healthy: bool)
    | Make(i: nat, id: nat)
    | MakeFails(i: nat)
    | Insert(i: nat, now: int)
    | GiveBack(i: nat, now: int)
    | Release(i: nat)
    | CleanUp(now: int, timeout: int)
    | Shutdown

  predicate InPhase(s: System, i: nat, p: Phase) { i < |s.threads| && s.threads[i] == p }

  /** The identifiers of the connections that some thread or the pool refers to. */
  predicate Live(s: System, id: nat) {
    || id in s.pool.conns
    || exists i :: 0 <= i < |s.threads| && HasConn(s.threads[i]) && s.threads[i].conn.id == id
  }
  predicate HasConn(p: Phase) { p.Created? || p.Holding? }

  predicate Enabled(s: System, e: Step) {
    match e
    case Acquire(i) => InPhase(s, i, Outside) && s.pool.permits > 0
    case PopNothing(i) => InPhase(s, i, Permitted) && s.pool.available == {}
    case Pop(i, id, _) => InPhase(s, i, Permitted) && id in s.pool.available
    case Make(i, id) => InPhase(s, i, Creating) && !Live(s, id)
    case MakeFails(i) => InPhase(s, i, Creating)
    case Insert(i, _) => i < |s.threads| && s.threads[i].Created?
    case GiveBack(i, _) => i < |s.threads| && s.threads[i].Holding?
    case Release(i) => InPhase(s, i, Leaving)
    case CleanUp(_, _) => true
    case Shutdown => true
  }

  function Apply(s: System, e: Step): System
    requires Enabled(s, e)
  {
    var p, ts := s.pool, s.threads;
    match e
    case Acquire(i) => s.(pool := p.(permits := p.permits - 1), threads := ts[i := Permitted])
    case PopNothing(i) => s.(threads := ts[i := Creating])
    case Pop(i, id, healthy) =>
      s.(pool := Popped(p, id, healthy),
         threads := ts[i := match Handed(p, id, healthy) case Some(c) => Holding(c) case None => Creating])
    case Make(i, id) => s.(threads := ts[i := Created(Conn(id, s.made))], made := s.made + 1)
    case MakeFails(i) => s.(pool := p.(permits := p.permits + 1), threads := ts[i := Outside])
    case Insert(i, now) => s.(pool := Inserted(p, ts[i].conn, now), threads := ts[i := Holding(ts[i].conn)])
    case GiveBack(i, now) => s.(pool := GivenBack(p, ts[i].conn, now), threads := ts[i := Leaving])
    case Release(i) => s.(pool := p.(permits := p.permits + 1), threads := ts[i := Outside])
    case CleanUp(now, timeout) => s.(pool := Cleaned(p, IdleIds(p, now, timeout)))
    case Shutdown => s.(pool := ShutDown(p))
  }

  // ------------------------------------------------------------ counting threads

  function Tally(ts: seq<Phase>, f: Phase -> bool): nat {
    if ts == [] then 0 else Tally(ts[..|ts| - 1], f) + if f(ts[|ts| - 1]) then 1 else 0
  }
  predicate Inside(p: Phase) { !p.Outside? }
  predicate Making(p: Phase) { p.Creating? || p.Created? }
  predicate Holds(p: Phase) { p.Holding? }

  lemma {:induction false} TallyUpdate(ts: seq<Phase>, i: nat, p: Phase, f: Phase -> bool)
    requires i < |ts|
    ensures Tally(ts[i := p], f) + (if f(ts[i]) then 1 else 0) == Tally(ts, f) + if f(p) then 1 else 0
  {
    var n := |ts| - 1;
    if i == n {
      assert ts[i := p][..n] == ts[..n];
    } else {
      assert ts[i := p][..n] == ts[..n][i := p];
      TallyUpdate(ts[..n], i, p, f);
    }
  }

  lemma {:induction false} TallyNone(n: nat, f: Phase -> bool)
    requires !f(Outside)
    ensures Tally(seq(n, i => Outside), f) == 0
  {
    if n > 0 {
      assert seq(n, i => Outside)[..n - 1] == seq(n - 1, i => Outside);
      TallyNone(n - 1, f);
    }
  }

  lemma {:induction false} InsideAtLeast(ts: seq<Phase>)
    ensures Tally(ts, Making) + Tally(ts, Holds) <= Tally(ts, Inside)
  {
    if ts != [] { InsideAtLeast(ts[..|ts| - 1]); }
  }

  ghost function HeldIds(ts: seq<Phase>): set<nat> {
    set i | 0 <= i < |ts| && ts[i].Holding? :: ts[i].conn.id
  }

  lemma {:induction false} HeldCount(ts: seq<Phase>)
    ensures |HeldIds(ts)| <= Tally(ts, Holds)
  {
    if ts != [] {
      var n := |ts| - 1;
      HeldCount(ts[..n]);
      var last: set<nat> := if ts[n].Holding? then {ts[n].conn.id} else {};
      assert HeldIds(ts) <= HeldIds(ts[..n]) + last;
      Bigger(HeldIds(ts), HeldIds(ts[..n]) + last);
    }
  }

  lemma {:induction false} Bigger<T>(a: set<T>, b: set<T>)
    requires a <= b
    ensures |a| <= |b|
  {
    if a != {} {
      var x :| x in a;
      Bigger(a - {x}, b - {x});
    }
  }

  // ------------------------------------------------------------ the invariant

  /** Every thread inside has a permit, and there is room for what it may bring. */
  ghost predicate Counted(s: System) {
    && s.pool.permits + Tally(s.threads, Inside) == s.max
    && |s.pool.available| + Tally(s.threads, Making) + Tally(s.threads, Holds) <= s.max
  }

  /** Pool and statistics agree; what is in the pool is available or held. */
  ghost predicate Tracked(s: System) {
    && s.pool.conns.Keys == s.pool.stats.Keys && s.pool.available <= s.pool.conns.Keys
    && (forall id :: id in s.pool.conns ==> s.pool.conns[id].id == id)
    && (forall id :: id in s.pool.conns ==> id in s.pool.available || id in HeldIds(s.threads))
  }

  /** No two threads have the same connection. */
  ghost predicate Separate(ts: seq<Phase>) {
    forall i, j :: 0 <= i < j < |ts| && HasConn(ts[i]) && HasConn(ts[j]) ==> ts[i].conn.id != ts[j].conn.id
  }

  /** A held connection is not available and tracked as itself if at all; a new one is not in the pool yet. */
  ghost predicate Apart(p: Pool, t: Phase) {
    && (t.Holding? ==> t.conn.id !in p.available && (t.conn.id in p.conns ==> p.conns[t.conn.id] == t.conn))
    && (t.Created? ==> t.conn.id !in p.conns)
  }

  ghost predicate Exclusive(s: System) {
    Separate(s.threads) && forall i :: 0 <= i < |s.threads| ==> Apart(s.pool, s.threads[i])
  }

  /** What the pool tracks, or a thread has just made, has not been closed. */
  ghost predicate Open(s: System) {
    && (forall c :: c in s.pool.closed ==> c.serial < s.made)
    && (forall i :: 0 <= i < |s.threads| && HasConn(s.threads[i]) ==> s.threads[i].conn.serial < s.made)
    && (forall id :: id in s.pool.conns ==> s.pool.conns[id].serial < s.made && s.pool.conns[id] !in s.pool.closed)
    && (forall i :: 0 <= i < |s.threads| && s.threads[i].Created? ==> s.threads[i].conn !in s.pool.closed)
  }

  ghost predicate Inv(s: System) { Counted(s) && Tracked(s) && Exclusive(s) && Open(s) }

  lemma InitialInv(max: nat, n: nat)
    ensures Inv(Initial(max, n))
  {
    TallyNone(n, Inside);
    TallyNone(n, Making);
    TallyNone(n, Holds);
  }

  lemma TallyStep(s: System, e: Step)
    requires Enabled(s, e)
    ensures |Apply(s, e).threads| == |s.threads|
    ensures e.CleanUp? || e.Shutdown? ==> Apply(s, e).threads == s.threads
    ensures !e.CleanUp? && !e.Shutdown? ==>
      var ts := Apply(s, e).threads; var p, q := s.threads[e.i], ts[e.i];
      && ts == s.threads[e.i := q]
      && Tally(ts, Inside) + (if Inside(p) then 1 else 0) == Tally(s.threads, Inside) + (if Inside(q) then 1 else 0)
      && Tally(ts, Making) + (if Making(p) then 1 else 0) == Tally(s.threads, Making) + (if Making(q) then 1 else 0)
      && Tally(ts, Holds) + (if Holds(p) then 1 else 0) == Tally(s.threads, Holds) + (if Holds(q) then 1 else 0)
  {
    if !e.CleanUp? && !e.Shutdown? {
      var q := Apply(s, e).threads[e.i];
      TallyUpdate(s.threads, e.i, q, Inside);
      TallyUpdate(s.threads, e.i, q, Making);
      TallyUpdate(s.threads, e.i, q, Holds);
    }
  }

  lemma AvailableStep(s: System, e: Step)
    requires Enabled(s, e)
    ensures e.Pop? ==> |Apply(s, e).pool.available| == |s.pool.available| - 1
    ensures e.GiveBack? ==> |Apply(s, e).pool.available| <= |s.pool.available| + 1
    ensures !e.Pop? && !e.GiveBack? ==> |Apply(s, e).pool.available| <= |s.pool.available|
  {
    if e.CleanUp? { Bigger(Apply(s, e).pool.available, s.pool.available); }
  }

  /** A step that takes or returns no permit keeps a thread inside. */
  lemma PermitsStep(s: System, e: Step)
    requires Counted(s) && Enabled(s, e)
    ensures Apply(s, e).pool.permits + Tally(Apply(s, e).threads, Inside) == s.max
  {
    TallyStep(s, e);
  }

  lemma RoomStep(s: System, e: Step)
    requires Counted(s) && Tracked(s) && Enabled(s, e)
    ensures var r := Apply(s, e);
      |r.pool.available| + Tally(r.threads, Making) + Tally(r.threads, Holds) <= s.max
  {
    TallyStep(s, e);
    AvailableStep(s, e);
    if e.PopNothing? {
      PermitsStep(s, e);
      InsideAtLeast(Apply(s, e).threads);
    }
  }

  lemma CountedStep(s: System, e: Step)
    requires Inv(s) && Enabled(s, e)
    ensures Counted(Apply(s, e))
  {
    PermitsStep(s, e);
    RoomStep(s, e);
  }

  lemma HeldUpdate(ts: seq<Phase>, i: nat, p: Phase, id: nat)
    requires i < |ts| && id in HeldIds(ts)
    ensures id in HeldIds(ts[i := p]) || (ts[i].Holding? && ts[i].conn.id == id)
  {
    var k :| 0 <= k < |ts| && ts[k].Holding? && ts[k].conn.id == id;
    if k != i { assert ts[i := p][k] == ts[k]; }
  }

  lemma TrackedStep(s: System, e: Step)
    requires Inv(s) && Enabled(s, e)
    ensures Tracked(Apply(s, e))
  {
    var r := Apply(s, e);
    forall id | id in r.pool.conns ensures id in r.pool.available || id in HeldIds(r.threads) {
      if !e.CleanUp? && !e.Shutdown? {
        assert r.threads == s.threads[e.i := r.threads[e.i]];
        assert r.threads[e.i].Holding? ==> r.threads[e.i].conn.id in HeldIds(r.threads);
        if id in HeldIds(s.threads) { HeldUpdate(s.threads, e.i, r.threads[e.i], id); }
      }
    }
  }

  lemma SeparateUpdate(ts: seq<Phase>, i: nat, p: Phase)
    requires Separate(ts) && i < |ts|
    requires HasConn(p) ==> forall k :: 0 <= k < |ts| && k != i && HasConn(ts[k]) ==> ts[k].conn.id != p.conn.id
    ensures Separate(ts[i := p])
  {
  }

  /** The connection a step gives a thread is no other thread's. */
  lemma SeparateStep(s: System, e: Step)
    requires Inv(s) && Enabled(s, e)
    ensures Separate(Apply(s, e).threads)
  {
    if !e.CleanUp? && !e.Shutdown? {
      var q := Apply(s, e).threads[e.i];
      assert Apply(s, e).threads == s.threads[e.i := q];
      if HasConn(q) {
        forall k | 0 <= k < |s.threads| && k != e.i && HasConn(s.threads[k]) ensures s.threads[k].conn.id != q.conn.id {
          assert Apart(s.pool, s.threads[k]);
          assert e.Insert? ==> q.conn == s.threads[e.i].conn;
        }
      }
      SeparateUpdate(s.threads, e.i, q);
    }
  }

  lemma ApartStep(s: System, e: Step, k: nat)
    requires Inv(s) && Enabled(s, e) && k < |s.threads|
    ensures Apart(Apply(s, e).pool, Apply(s, e).threads[k])
  {
    assert Apart(s.pool, s.threads[k]);
    if e.Insert? || e.GiveBack? {
      assert Apart(s.pool, s.threads[e.i]);
      assert k != e.i && HasConn(s.threads[k]) ==> s.threads[k].conn.id != s.threads[e.i].conn.id;
    }
  }

  lemma ExclusiveStep(s: System, e: Step)
    requires Inv(s) && Enabled(s, e)
    ensures Exclusive(Apply(s, e))
  {
    SeparateStep(s, e);
    TallyStep(s, e);
    forall k | 0 <= k < |s.threads| ensures Apart(Apply(s, e).pool, Apply(s, e).threads[k]) { ApartStep(s, e, k); }
  }

  lemma OpenStep(s: System, e: Step)
    requires Inv(s) && Enabled(s, e)
    ensures Open(Apply(s, e))
  {
    var r := Apply(s, e);
    forall c | c in r.pool.closed ensures c.serial < r.made { ClosedFrom(s, e, c); }
    forall id | id in r.pool.conns ensures r.pool.conns[id].serial < r.made && r.pool.conns[id] !in r.pool.closed {
      if r.pool.conns[id] in r.pool.closed { ClosedFrom(s, e, r.pool.conns[id]); }
    }
    forall i | 0 <= i < |r.threads| && r.threads[i].Created? ensures r.threads[i].conn !in r.pool.closed {
      if r.threads[i].conn in r.pool.closed { ClosedFrom(s, e, r.threads[i].conn); }
    }
  }

  /** Where a closed connection comes from. */
  lemma ClosedFrom(s: System, e: Step, c: Conn)
    requires Inv(s) && Enabled(s, e) && c in Apply(s, e).pool.closed
    ensures c in s.pool.closed
      || (c.id in s.pool.conns && s.pool.conns[c.id] == c && c.id !in Apply(s, e).pool.conns)
      || (e.GiveBack? && c == s.threads[e.i].conn && c.id !in s.pool.conns)
  {
  }

  lemma StepInv(s: System, e: Step)
    requires Inv(s) && Enabled(s, e)
    ensures Inv(Apply(s, e)) && Apply(s, e).max == s.max
  {
    CountedStep(s, e);
    TrackedStep(s, e);
    ExclusiveStep(s, e);
    OpenStep(s, e);
  }

  // ------------------------------------------------------------ all runs

  /** The state after some steps, if each of them was possible in its turn. */
  function Run(s: System, es: seq<Step>): Option<System> {
    if es == [] then Some(s)
    else
      var n := |es| - 1;
      match Run(s, es[..n])
      case None => None
      case Some(r) => if Enabled(r, es[n]) then Some(Apply(r, es[n])) else None
  }

  ghost predicate Reachable(max: nat, n: nat, s: System) {
    exists es :: Run(Initial(max, n), es) == Some(s)
  }

  lemma {:induction false} RunInv(max: nat, n: nat, es: seq<Step>, s: System)
    requires Run(Initial(max, n), es) == Some(s)
    ensures Inv(s) && s.max == max
  {
    InitialInv(max, n);
    if es != [] {
      var k := |es| - 1;
      var r := Run(Initial(max, n), es[..k]).value;
      RunInv(max, n, es[..k], r);
      StepInv(r, es[k]);
    }
  }

  lemma ReachableInv(max: nat, n: nat, s: System)
    requires Reachable(max, n, s)
    ensures Inv(s) && s.max == max
  {
    var es :| Run(Initial(max, n), es) == Some(s);
    RunInv(max, n, es, s);
  }

  /**
    In every interleaving, the tracked connections and the creations in progress together
    never exceed the limit.
   */
  lemma NeverOverLimit(max: nat, n: nat, s: System)
    requires Reachable(max, n, s)
    ensures |s.pool.conns| + Tally(s.threads, Making) <= max
  {
    ReachableInv(max, n, s);
    HeldCount(s.threads);
    assert s.pool.conns.Keys <= s.pool.available + HeldIds(s.threads);
    Bigger(s.pool.conns.Keys, s.pool.available + HeldIds(s.threads));
    assert |s.pool.conns| == |s.pool.conns.Keys|;
  }

  /**
    In every interleaving, pool and statistics have the same keys and what is available is
    in the pool; no connection is held twice or both held and available.
   */
  lemma AlwaysExclusive(max: nat, n: nat, s: System)
    requires Reachable(max, n, s)
    ensures s.pool.conns.Keys == s.pool.stats.Keys && s.pool.available <= s.pool.conns.Keys
    ensures forall i :: 0 <= i < |s.threads| && s.threads[i].Holding? ==> s.threads[i].conn.id !in s.pool.available
    ensures forall i, j :: 0 <= i < j < |s.threads| && s.threads[i].Holding? && s.threads[j].Holding? ==>
      s.threads[i].conn.id != s.threads[j].conn.id
  {
    ReachableInv(max, n, s);
  }

  /** A connection that the next step hands out has not been closed by the manager. */
  lemma HandedOutOpen(max: nat, n: nat, s: System, e: Step)
    requires Reachable(max, n, s) && Enabled(s, e) && (e.Pop? || e.Insert?) && Apply(s, e).threads[e.i].Holding?
    ensures Apply(s, e).threads[e.i].conn !in s.pool.closed + Apply(s, e).pool.closed
  {
    ReachableInv(max, n, s);
  }

  /**
    Every thread accounts for one permit while it is inside and for none outside, so the
    semaphore is full exactly when every thread is outside.
   */
  lemma PermitsReturn(max: nat, n: nat, s: System)
    requires Reachable(max, n, s)
    ensures s.pool.permits == max - Tally(s.threads, Inside)
    ensures (forall i :: 0 <= i < |s.threads| ==> s.threads[i].Outside?) <==> s.pool.permits == max
  {
    ReachableInv(max, n, s);
    NobodyInside(s.threads);
  }

  lemma {:induction false} NobodyInside(ts: seq<Phase>)
    ensures (forall i :: 0 <= i < |ts| ==> ts[i].Outside?) <==> Tally(ts, Inside) == 0
  {
    if ts != [] {
      NobodyInside(ts[..|ts| - 1]);
      assert forall i :: 0 <= i < |ts| - 1 ==> ts[..|ts| - 1][i] == ts[i];
    }
  }

  lemma RunSnoc(s: System, es: seq<Step>, e: Step, r: System)
    requires Run(s, es) == Some(r) && Enabled(r, e)
    ensures Run(s, es + [e]) == Some(Apply(r, e))
  {
    assert (es + [e])[..|es + [e]| - 1] == es;
  }

  /** Where one thread is when it holds a connection that nobody gave back yet. */
  function FirstHold(max: nat): System
    requires max > 0
  {
    var c := Conn(7, 0);
    System(max, Pool(max - 1, map[7 := c], map[7 := Stats(0, 0, 0)], {}, {}), [Holding(c)], 1)
  }

  lemma ReachesCreating(max: nat) returns (es: seq<Step>)
    requires max > 0
    ensures Run(Initial(max, 1), es) == Some(System(max, Pool(max - 1, map[], map[], {}, {}), [Creating], 0))
  {
    var s0 := Initial(max, 1);
    assert Run(s0, []) == Some(s0);
    RunSnoc(s0, [], Acquire(0), s0);
    var s1 := Apply(s0, Acquire(0));
    RunSnoc(s0, [] + [Acquire(0)], PopNothing(0), s1);
    assert Apply(s1, PopNothing(0)).threads == [Creating];
    es := [] + [Acquire(0)] + [PopNothing(0)];
  }

  lemma ReachesHold(max: nat) returns (es: seq<Step>)
    requires max > 0
    ensures Run(Initial(max, 1), es) == Some(FirstHold(max))
  {
    var s0 := Initial(max, 1);
    es := ReachesCreating(max);
    var s2 := System(max, Pool(max - 1, map[], map[], {}, {}), [Creating], 0);
    assert !Live(s2, 7);
    RunSnoc(s0, es, Make(0, 7), s2);
    es := es + [Make(0, 7)];
    var s3 := Apply(s2, Make(0, 7));
    RunSnoc(s0, es, Insert(0, 0), s3);
    es := es + [Insert(0, 0)];
    assert Apply(s3, Insert(0, 0)) == FirstHold(max);
  }

  /** A connection in use can be closed under its holder: cleaning looks only at the time of last use. */
  lemma HeldMayBeClosed(max: nat) returns (s: System)
    requires max > 0
    ensures Reachable(max, 1, s)
    ensures |s.threads| == 1 && s.threads[0].Holding? && s.threads[0].conn in s.pool.closed
  {
    var es := ReachesHold(max);
    var held := FirstHold(max);
    RunSnoc(Initial(max, 1), es, CleanUp(301, 300), held);
    s := Apply(held, CleanUp(301, 300));
    assert 7 in IdleIds(held.pool, 301, 300) * held.pool.conns.Keys;
    assert held.pool.conns[7] in s.pool.closed;
  }

  /** Exactly the cleaning of an idle connection, or a shutdown, closes a connection that is in use. */
  lemma HeldClosedIff(max: nat, n: nat, s: System, e: Step, i: nat)
    requires Reachable(max, n, s) && Enabled(s, e) && i < |s.threads| && s.threads[i].Holding?
    requires s.threads[i].conn !in s.pool.closed && !(e.GiveBack? && e.i == i)
    ensures var c := s.threads[i].conn;
      c in Apply(s, e).pool.closed <==>
        c.id in s.pool.conns && (e.Shutdown? || (e.CleanUp? && c.id in IdleIds(s.pool, e.now, e.timeout)))
  {
    ReachableInv(max, n, s);
    var c := s.threads[i].conn;
    if e.CleanUp? {
      var gone := IdleIds(s.pool, e.now, e.timeout) * s.pool.conns.Keys;
      if c.id in gone { assert s.pool.conns[c.id] == c; }
    }
    if e.Shutdown? && c.id in s.pool.conns { assert s.pool.conns[c.id] in s.pool.conns.Values; }
    if e.GiveBack? { assert s.threads[e.i].conn.id != c.id; }
  }
}
