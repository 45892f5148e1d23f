/**
  Every run ends and dispatches each task at most once, whatever the verdicts: the tasks
  dispatched and the tasks below the queued sinks are never more than the tasks below the
  current one and the sinks queued before.
 */
module Conservation {
  import opened Wrappers
  import opened Pointy
  import opened TaskTree
  import opened TaskStore
  import opened Queries
  import opened Verdicts
  import opened Engine

  /** How often a task occurs below another one, and below a link. */
  ghost function Uses<N>(t: Tree<N>, n: N): nat { multiset(Preorder(t))[n] }
  ghost function LinkUses<N>(l: Link<N>, n: N): nat { multiset(LinkOrder(l))[n] }
  ghost function SinksUses<N>(ts: seq<Tree<N>>, n: N): nat {
    if ts == [] then 0 else SinksUses(ts[..|ts| - 1], n) + Uses(ts[|ts| - 1], n)
  }

  /** How often it has been dispatched. */
  ghost function Dispatched<N>(cs: seq<Context<N>>, n: N): nat {
    if cs == [] then 0 else Dispatched(cs[..|cs| - 1], n) + multiset(cs[|cs| - 1].tasks)[n]
  }

  /** Dispatched so far, or still queued. */
  ghost function Spent<N>(s: Run<N>, n: N): nat { Dispatched(s.contexts, n) + SinksUses(s.sinks, n) }

  lemma SinksUsesSnoc<N>(ts: seq<Tree<N>>, t: Tree<N>, n: N)
    ensures SinksUses(ts + [t], n) == SinksUses(ts, n) + Uses(t, n)
  {
    assert (ts + [t])[..|ts + [t]| - 1] == ts;
  }

  lemma {:induction false} DispatchedSame<N>(cs: seq<Context<N>>, cs': seq<Context<N>>, n: N)
    requires |cs| == |cs'| && forall i :: 0 <= i < |cs| ==> cs[i].tasks == cs'[i].tasks
    ensures Dispatched(cs, n) == Dispatched(cs', n)
  {
    if cs != [] { DispatchedSame(cs[..|cs| - 1], cs'[..|cs| - 1], n); }
  }

  lemma DispatchedStep<N>(o: Oracle, t: Tree<N>, prev: Option<nat>, s: Run<N>, n: N)
    requires prev.Some? ==> prev.value < |s.contexts|
    ensures Dispatched(Dispatch(o, t, prev, s).contexts, n)
         == Dispatched(s.contexts, n) + multiset(RunNodes(t, prev.None?))[n]
  {
    var cs := Dispatch(o, t, prev, s).contexts;
    DispatchedSame(cs[..|cs| - 1], s.contexts, n);
  }

  lemma UsesParts<N>(t: Tree<N>, n: N)
    ensures Uses(t, n) == (if t.node == n then 1 else 0) + LinkUses(t.fail, n) + LinkUses(t.sink, n)
                          + LinkUses(t.succ, n) + multiset(ExtrasOrder(t.extras))[n]
  {
  }

  lemma {:induction false} FindLinkUses<N>(x: Extras<N>, k: nat, n: N)
    ensures LinkUses(FindLink(x, k), n) <= multiset(ExtrasOrder(x))[n]
  {
    match x
    case NoExtras =>
    case Extra(front, j, p, t) =>
      FindLinkUses(front, k, n);
      assert LinkOrder(Link(p, t)) == Preorder(t);
  }

  /** The group and what is below its last task are parts of what is below its first. */
  lemma {:induction false} GroupUses<N>(t: Tree<N>, n: N)
    ensures multiset(GroupNodes(t))[n] + Uses(GroupLast(t), n)
         <= Uses(t, n) + (if GroupLast(t).node == n then 1 else 0)
    ensures StartsParallel(t) ==>
      multiset(GroupNodes(t))[n] + Uses(GroupLast(t), n) + LinkUses(t.sink, n)
      <= Uses(t, n) + (if GroupLast(t).node == n then 1 else 0)
  {
    UsesParts(t, n);
    if StartsParallel(t) {
      GroupUses(t.succ.tree, n);
      assert LinkOrder(t.succ) == Preorder(t.succ.tree);
    }
  }

  lemma NextUses<N>(last: Tree<N>, v: Verdict, n: N)
    ensures (if last.node == n then 1 else 0) + LinkUses(last.sink, n) + LinkUses(NextLink(last, v), n) <= Uses(last, n)
  {
    UsesParts(last, n);
    if v.SwitchTo? { FindLinkUses(last.extras, v.key, n); }
  }

  lemma QueueUses<N>(t: Tree<N>, first: bool, sinks: seq<Tree<N>>, n: N)
    ensures SinksUses(Queue(t, first, sinks), n) == SinksUses(sinks, n) + if first then 0 else LinkUses(t.sink, n)
  {
    if !first && t.sink.Link? {
      SinksUsesSnoc(sinks, t.sink.tree, n);
      assert LinkOrder(t.sink) == Preorder(t.sink.tree);
    }
  }

  /** One dispatch spends no more than it was given. */
  lemma StepUses<N>(t: Tree<N>, first: bool, v: Verdict, sinks: seq<Tree<N>>, n: N)
    ensures multiset(RunNodes(t, first))[n] + SinksUses(Queue(t, first, sinks), n)
            + LinkUses(NextLink(RunLast(t, first), v), n)
         <= SinksUses(sinks, n) + Uses(t, n)
  {
    QueueUses(t, first, sinks, n);
    NextUses(RunLast(t, first), v, n);
    GroupUses(t, n);
    assert !StartsParallel(t) ==> GroupNodes(t) == [t.node] && GroupLast(t) == t;
  }

  lemma {:induction false} ExecSpends<N>(o: Oracle, t: Tree<N>, prev: Option<nat>, s: Run<N>, n: N)
    requires prev.Some? ==> prev.value < |s.contexts|
    ensures Spent(Exec(o, t, prev, s), n) <= Spent(s, n) + Uses(t, n)
    decreases SinksSize(s.sinks) + Size(t), 0
  {
    var last := RunLast(t, prev.None?);
    var v := o(|s.contexts|, last.event);
    var s1 := Dispatch(o, t, prev, s);
    NextIsSmaller(t, prev.None?, v, s.sinks);
    StepUses(t, prev.None?, v, s.sinks, n);
    DispatchedStep(o, t, prev, s, n);
    if Stopped(EndState(v, last)) {
    } else if v.SwitchTo? {
      ExecSpends(o, NextLink(last, v).tree, prev, s1, n);
    } else {
      ContinueSpends(o, NextLink(last, v), |s.contexts|, s1, n);
    }
  }
  lemma {:induction false} ContinueSpends<N>(o: Oracle, l: Link<N>, prev: nat, s: Run<N>, n: N)
    requires prev < |s.contexts|
    ensures Spent(Continue(o, l, prev, s), n) <= Spent(s, n) + LinkUses(l, n)
    decreases SinksSize(s.sinks) + LinkSize(l), 2
  {
    match l
    case NoLink => DrainSpends(o, prev, s.(leaf := Some(prev)), n);
    case Link(_, t) => ExecSpends(o, t, Some(prev), s, n);
  }
  lemma {:induction false} DrainSpends<N>(o: Oracle, prev: nat, s: Run<N>, n: N)
    requires prev < |s.contexts|
    ensures Spent(Drain(o, prev, s), n) <= Spent(s, n)
    decreases SinksSize(s.sinks), 1
  {
    if s.sinks != [] {
      var k := |s.sinks| - 1;
      var s1 := s.(sinks := s.sinks[..k]);
      ExecSpends(o, s.sinks[k], Some(prev), s1, n);
      DrainSpends(o, prev, Exec(o, s.sinks[k], Some(prev), s1), n);
    }
  }

  /**
    Every run of a graph without repeated nodes dispatches each of its tasks at most once
    and no other task, so it creates at most as many contexts as there are tasks.
   */
  lemma DispatchedAtMostOnce<N>(o: Oracle, t: Tree<N>, n: N)
    requires Distinct(t)
    ensures Dispatched(RunPipeline(o, t).contexts, n) <= if n in Nodes(t) then 1 else 0
    ensures |RunPipeline(o, t).contexts| <= Size(t)
  {
    ExecSpends(o, t, None, EmptyRun(), n);
    PreorderOnce(t);
    assert multiset(Nodes(t))[n] <= if n in Nodes(t) then 1 else 0;
  }
}
