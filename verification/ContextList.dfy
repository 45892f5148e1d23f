/**
  The linked list of execution contexts. Neighbours always agree, and links only lead
  from older contexts to newer ones. In a run that nothing stops, the list from the
  pipeline's head is the dispatch order without the contexts that switched away.
 */
module ContextList {
  import opened Wrappers
  import opened Pointy
  import opened TaskTree
  import opened Queries
  import opened Verdicts
  import opened Engine

  // ------------------------------------------------------------ neighbours agree

  ghost predicate LinksAgree<N>(cs: seq<Context<N>>) {
    && (forall i :: 0 <= i < |cs| && cs[i].prev.Some? ==> cs[i].prev.value < i)
    && (forall i {:trigger cs[i].next} :: 0 <= i < |cs| && cs[i].next.Some? ==>
          i < cs[i].next.value < |cs| && cs[cs[i].next.value].prev == Some(i))
  }

  ghost predicate HeadOk<N>(s: Run<N>) {
    s.head.Some? ==> s.head.value < |s.contexts| && s.contexts[s.head.value].prev.None?
  }

  /** What a dispatch does to the links of the contexts. */
  lemma DispatchFields<N>(o: Oracle, t: Tree<N>, prev: Option<nat>, s: Run<N>)
    requires prev.Some? ==> prev.value < |s.contexts|
    ensures var r := Dispatch(o, t, prev, s); var n := |s.contexts|;
      && |r.contexts| == n + 1 && r.contexts[n].next.None? && r.contexts[n].prev == prev
      && r.head == (if prev.None? then Some(n) else s.head)
      && (forall i :: 0 <= i < n ==> r.contexts[i].next == if prev == Some(i) then Some(n) else s.contexts[i].next)
      && (forall i :: 0 <= i < n ==> r.contexts[i].state == s.contexts[i].state)
      && (forall i :: 0 <= i < n ==> r.contexts[i].prev == s.contexts[i].prev)
      && r.contexts[n].state == EndState(o(n, RunLast(t, prev.None?).event), RunLast(t, prev.None?))
  {
  }

  lemma LinksStep<N>(cs: seq<Context<N>>, cs': seq<Context<N>>, prev: Option<nat>)
    requires LinksAgree(cs) && |cs'| == |cs| + 1 && cs'[|cs|].next.None? && cs'[|cs|].prev == prev
    requires prev.Some? ==> prev.value < |cs|
    requires forall i :: 0 <= i < |cs| ==> cs'[i].next == if prev == Some(i) then Some(|cs|) else cs[i].next
    requires forall i :: 0 <= i < |cs| ==> cs'[i].prev == cs[i].prev
    ensures LinksAgree(cs')
  {
    var n := |cs|;
    forall i | 0 <= i < n && cs'[i].next.Some?
      ensures i < cs'[i].next.value <= n && cs'[cs'[i].next.value].prev == Some(i)
    {
      if prev != Some(i) {
        var j := cs[i].next.value;
        assert cs'[i].next == Some(j) && cs[j].prev == Some(i);
        assert cs'[j].prev == cs[j].prev;
      }
    }
  }

  lemma DispatchLinks<N>(o: Oracle, t: Tree<N>, prev: Option<nat>, s: Run<N>)
    requires prev.Some? ==> prev.value < |s.contexts|
    requires LinksAgree(s.contexts) && HeadOk(s)
    ensures LinksAgree(Dispatch(o, t, prev, s).contexts) && HeadOk(Dispatch(o, t, prev, s))
  {
    DispatchFields(o, t, prev, s);
    LinksStep(s.contexts, Dispatch(o, t, prev, s).contexts, prev);
  }

  lemma {:induction false} ExecLinks<N>(o: Oracle, t: Tree<N>, prev: Option<nat>, s: Run<N>)
    requires prev.Some? ==> prev.value < |s.contexts|
    requires LinksAgree(s.contexts) && HeadOk(s)
    ensures LinksAgree(Exec(o, t, prev, s).contexts) && HeadOk(Exec(o, t, prev, s))
    decreases SinksSize(s.sinks) + Size(t), 0
  {
    var last := RunLast(t, prev.None?);
    var v := o(|s.contexts|, last.event);
    var s1 := Dispatch(o, t, prev, s);
    NextIsSmaller(t, prev.None?, v, s.sinks);
    DispatchLinks(o, t, prev, s);
    if Stopped(EndState(v, last)) {
    } else if v.SwitchTo? {
      ExecLinks(o, NextLink(last, v).tree, prev, s1);
    } else {
      ContinueLinks(o, NextLink(last, v), |s.contexts|, s1);
    }
  }
  lemma {:induction false} ContinueLinks<N>(o: Oracle, l: Link<N>, prev: nat, s: Run<N>)
    requires prev < |s.contexts| && LinksAgree(s.contexts) && HeadOk(s)
    ensures LinksAgree(Continue(o, l, prev, s).contexts) && HeadOk(Continue(o, l, prev, s))
    decreases SinksSize(s.sinks) + LinkSize(l), 2
  {
    match l
    case NoLink => DrainLinks(o, prev, s.(leaf := Some(prev)));
    case Link(_, t) => ExecLinks(o, t, Some(prev), s);
  }
  lemma {:induction false} DrainLinks<N>(o: Oracle, prev: nat, s: Run<N>)
    requires prev < |s.contexts| && LinksAgree(s.contexts) && HeadOk(s)
    ensures LinksAgree(Drain(o, prev, s).contexts) && HeadOk(Drain(o, prev, s))
    decreases SinksSize(s.sinks), 1
  {
    if s.sinks != [] {
      var k := |s.sinks| - 1;
      var s1 := s.(sinks := s.sinks[..k]);
      ExecLinks(o, s.sinks[k], Some(prev), s1);
      DrainLinks(o, prev, Exec(o, s.sinks[k], Some(prev), s1));
    }
  }

  // ------------------------------------------------------------ the walks

  /** Forward iteration from a context. */
  function Walk<N>(cs: seq<Context<N>>, i: nat): (w: seq<nat>)
    requires LinksAgree(cs) && i < |cs|
    ensures w != []
    decreases |cs| - i
  {
    if cs[i].next.None? then [i] else [i] + Walk(cs, cs[i].next.value)
  }

  /** `get_execution_context_head`: back to a context without predecessor. */
  function HeadOf<N>(cs: seq<Context<N>>, i: nat): (r: nat)
    requires LinksAgree(cs) && i < |cs|
    ensures r <= i
    decreases i
  {
    if cs[i].prev.None? then i else HeadOf(cs, cs[i].prev.value)
  }

  function WalkEnd<N>(cs: seq<Context<N>>, i: nat): (r: nat)
    requires LinksAgree(cs) && i < |cs|
    ensures i <= r < |cs| && cs[r].next.None?
    ensures var w := Walk(cs, i); r == w[|w| - 1]
    decreases |cs| - i
  {
    if cs[i].next.None? then i else WalkEnd(cs, cs[i].next.value)
  }

  /** `get_latest_execution_context`: the end of the walk from that head. */
  function Latest<N>(cs: seq<Context<N>>, i: nat): (r: nat)
    requires LinksAgree(cs) && i < |cs|
    ensures r < |cs|
  {
    WalkEnd(cs, HeadOf(cs, i))
  }

  // ------------------------------------------------------------ the live contexts

  /** The contexts that have not switched away, in dispatch order. */
  function Live<N>(cs: seq<Context<N>>): (r: seq<nat>)
    ensures forall k :: 0 <= k < |r| ==> r[k] < |cs| && cs[r[k]].state != ExecutingState
    ensures cs != [] && cs[|cs| - 1].state != ExecutingState ==> r != [] && r[|r| - 1] == |cs| - 1
    ensures forall i, j :: 0 <= i < j < |r| ==> r[i] < r[j]
  {
    if cs == [] then []
    else
      var n := |cs| - 1;
      var front := Live(cs[..n]);
      if cs[n].state == ExecutingState then front else front + [n]
  }

  lemma {:induction false} LiveSame<N>(cs: seq<Context<N>>, cs': seq<Context<N>>)
    requires |cs| == |cs'| && forall i :: 0 <= i < |cs| ==> cs[i].state == cs'[i].state
    ensures Live(cs) == Live(cs')
  {
    if cs != [] { LiveSame(cs[..|cs| - 1], cs'[..|cs| - 1]); }
  }

  function Tip(l: seq<nat>): Option<nat> { if l == [] then None else Some(l[|l| - 1]) }

  /** The contexts in `l` are linked in order, from the pipeline's head. */
  ghost predicate Threaded<N>(s: Run<N>, l: seq<nat>) {
    && (forall i :: 0 <= i < |l| ==> l[i] < |s.contexts|)
    && (l != [] ==> s.head == Some(l[0]))
    && forall i :: 0 <= i < |l| - 1 ==> s.contexts[l[i]].next == Some(l[i + 1])
  }

  // The live contexts are threaded and `prev` is the last of them. They are named through
  // a quantifier, so that they are unfolded only by the lemma below.
  ghost predicate Ready<N>(s: Run<N>, prev: Option<nat>) {
    && (prev.Some? ==> prev.value < |s.contexts|)
    && forall l :: l == Live(s.contexts) ==> Threaded(s, l) && Tip(l) == prev
  }

  lemma ReadyLive<N>(s: Run<N>, prev: Option<nat>)
    ensures Ready(s, prev) <==> Threaded(s, Live(s.contexts)) && Tip(Live(s.contexts)) == prev
  {
  }

  lemma ReadySame<N>(s: Run<N>, s': Run<N>, prev: Option<nat>)
    requires Ready(s, prev) && s'.contexts == s.contexts && s'.head == s.head
    ensures Ready(s', prev)
  {
    ReadyLive(s, prev);
    ReadyLive(s', prev);
  }

  /** The context dispatched last is live and ends the list. */
  ghost predicate Complete<N>(s: Run<N>) {
    && s.contexts != [] && var n := |s.contexts| - 1;
    Ready(s, Some(n)) && s.contexts[n].state != ExecutingState && s.contexts[n].next.None?
  }

  lemma LiveDispatch<N>(o: Oracle, t: Tree<N>, prev: Option<nat>, s: Run<N>)
    requires prev.Some? ==> prev.value < |s.contexts|
    ensures var cs := Dispatch(o, t, prev, s).contexts; var n := |s.contexts|;
      && Live(cs) == (if cs[n].state == ExecutingState then Live(s.contexts) else Live(s.contexts) + [n])
  {
    var cs := Dispatch(o, t, prev, s).contexts;
    LiveSame(cs[..|s.contexts|], s.contexts);
  }

  lemma DispatchThreads<N>(o: Oracle, t: Tree<N>, prev: Option<nat>, s: Run<N>)
    requires Ready(s, prev)
    ensures var r := Dispatch(o, t, prev, s);
      if r.contexts[|s.contexts|].state == ExecutingState then Ready(r, prev) else Complete(r)
  {
    var r := Dispatch(o, t, prev, s);
    LiveDispatch(o, t, prev, s);
    DispatchFields(o, t, prev, s);
    ReadyLive(s, prev);
    ReadyLive(r, Tip(Live(r.contexts)));
    ThreadStep(s, r, prev, Live(s.contexts));
  }

  lemma ThreadStep<N>(s: Run<N>, r: Run<N>, prev: Option<nat>, l: seq<nat>)
    requires Threaded(s, l) && prev == Tip(l) && |r.contexts| == |s.contexts| + 1
    requires forall i, j :: 0 <= i < j < |l| ==> l[i] < l[j]
    requires var n := |s.contexts|;
      && r.head == (if prev.None? then Some(n) else s.head)
      && (forall i :: 0 <= i < n ==> r.contexts[i].next == if prev == Some(i) then Some(n) else s.contexts[i].next)
    ensures Threaded(r, l) && Threaded(r, l + [|s.contexts|])
  {
  }

  /** Only the context dispatched last may have been stopped. */
  ghost predicate StopFree<N>(cs: seq<Context<N>>) {
    forall i :: 0 <= i < |cs| - 1 ==> !Stopped(cs[i].state)
  }

  /** A run keeps the states of the contexts it has dispatched. */
  ghost predicate KeepsStates<N>(cs: seq<Context<N>>, cs': seq<Context<N>>) {
    |cs| <= |cs'| && forall i :: 0 <= i < |cs| ==> cs'[i].state == cs[i].state
  }

  lemma {:induction false} ExecKeeps<N>(o: Oracle, t: Tree<N>, prev: Option<nat>, s: Run<N>)
    requires prev.Some? ==> prev.value < |s.contexts|
    ensures KeepsStates(s.contexts, Exec(o, t, prev, s).contexts)
    decreases SinksSize(s.sinks) + Size(t), 0
  {
    var last := RunLast(t, prev.None?);
    var v := o(|s.contexts|, last.event);
    var s1 := Dispatch(o, t, prev, s);
    NextIsSmaller(t, prev.None?, v, s.sinks);
    DispatchFields(o, t, prev, s);
    assert KeepsStates(s.contexts, s1.contexts);
    if Stopped(EndState(v, last)) {
    } else if v.SwitchTo? {
      ExecKeeps(o, NextLink(last, v).tree, prev, s1);
    } else {
      ContinueKeeps(o, NextLink(last, v), |s.contexts|, s1);
    }
  }
  lemma {:induction false} ContinueKeeps<N>(o: Oracle, l: Link<N>, prev: nat, s: Run<N>)
    requires prev < |s.contexts|
    ensures KeepsStates(s.contexts, Continue(o, l, prev, s).contexts)
    decreases SinksSize(s.sinks) + LinkSize(l), 2
  {
    match l
    case NoLink => DrainKeeps(o, prev, s.(leaf := Some(prev)));
    case Link(_, t) => ExecKeeps(o, t, Some(prev), s);
  }
  lemma {:induction false} DrainKeeps<N>(o: Oracle, prev: nat, s: Run<N>)
    requires prev < |s.contexts|
    ensures KeepsStates(s.contexts, Drain(o, prev, s).contexts)
    decreases SinksSize(s.sinks), 1
  {
    if s.sinks != [] {
      var k := |s.sinks| - 1;
      var s1 := s.(sinks := s.sinks[..k]);
      ExecKeeps(o, s.sinks[k], Some(prev), s1);
      DrainKeeps(o, prev, Exec(o, s.sinks[k], Some(prev), s1));
    }
  }

  /** A run leaves sinks in the queue only if its last context was stopped. */
  ghost predicate Emptied<N>(s: Run<N>) {
    s.contexts != [] && (Stopped(s.contexts[|s.contexts| - 1].state) || s.sinks == [])
  }

  lemma {:induction false} ExecThreads<N>(o: Oracle, t: Tree<N>, prev: Option<nat>, s: Run<N>)
    requires Ready(s, prev)
    requires StopFree(Exec(o, t, prev, s).contexts)
    ensures Complete(Exec(o, t, prev, s))
    ensures Emptied(Exec(o, t, prev, s))
    decreases SinksSize(s.sinks) + Size(t), 0
  {
    var last := RunLast(t, prev.None?);
    var v := o(|s.contexts|, last.event);
    NextIsSmaller(t, prev.None?, v, s.sinks);
    DispatchThreads(o, t, prev, s);
    DispatchFields(o, t, prev, s);
    ExecOnward(o, t, prev, s);
    if Stopped(EndState(v, last)) {
      assert Emptied(Dispatch(o, t, prev, s));
    } else if v.SwitchTo? {
      ExecThreads(o, NextLink(last, v).tree, prev, Dispatch(o, t, prev, s));
    } else {
      ContinueThreads(o, NextLink(last, v), |s.contexts|, Dispatch(o, t, prev, s));
    }
  }
  lemma {:induction false} ContinueThreads<N>(o: Oracle, l: Link<N>, prev: nat, s: Run<N>)
    requires prev == |s.contexts| - 1 && Complete(s) && !Stopped(s.contexts[prev].state)
    requires StopFree(Continue(o, l, prev, s).contexts)
    ensures Complete(Continue(o, l, prev, s))
    ensures Emptied(Continue(o, l, prev, s))
    decreases SinksSize(s.sinks) + LinkSize(l), 2
  {
    match l
    case NoLink =>
      ReadySame(s, s.(leaf := Some(prev)), Some(prev));
      DrainThreads(o, prev, s.(leaf := Some(prev)));
    case Link(_, t) => ExecThreads(o, t, Some(prev), s);
  }
  lemma {:induction false} DrainThreads<N>(o: Oracle, prev: nat, s: Run<N>)
    requires prev == |s.contexts| - 1 && Complete(s)
    requires StopFree(Drain(o, prev, s).contexts)
    ensures Complete(Drain(o, prev, s))
    decreases SinksSize(s.sinks), 1
  {
    if s.sinks != [] {
      var k := |s.sinks| - 1;
      var s1 := s.(sinks := s.sinks[..k]);
      var r := Exec(o, s.sinks[k], Some(prev), s1);
      DrainKeeps(o, prev, r);
      ReadySame(s, s1, Some(prev));
      assert StopFree(r.contexts);
      ExecThreads(o, s.sinks[k], Some(prev), s1);
      if r.sinks != [] {
        // a stop inside the loop would be followed by another dispatch
        assert false;
      }
    }
  }

  // ------------------------------------------------------------ the list of a whole run

  lemma {:induction false} WalkThread<N>(s: Run<N>, l: seq<nat>, i: nat)
    requires LinksAgree(s.contexts) && Threaded(s, l) && i < |l| && s.contexts[l[|l| - 1]].next.None?
    ensures Walk(s.contexts, l[i]) == l[i..]
    decreases |l| - i
  {
    if i < |l| - 1 {
      WalkThread(s, l, i + 1);
      assert l[i..] == [l[i]] + l[i + 1..];
    }
  }

  lemma {:induction false} HeadThread<N>(s: Run<N>, l: seq<nat>, i: nat)
    requires LinksAgree(s.contexts) && HeadOk(s) && Threaded(s, l) && i < |l|
    ensures s.head.Some? && HeadOf(s.contexts, l[i]) == s.head.value
    decreases i
  {
    if i > 0 {
      assert s.contexts[l[i - 1]].next == Some(l[i]);
      HeadThread(s, l, i - 1);
    }
  }

  /**
    Walking forward from the pipeline's head gives the dispatch order without the contexts
    that switched away, and from each of these contexts the head is the pipeline's and the
    latest context is the last one dispatched.
   */
  ghost predicate InDispatchOrder<N>(r: Run<N>) {
    && LinksAgree(r.contexts) && r.head.Some? && r.head.value < |r.contexts|
    && Walk(r.contexts, r.head.value) == Live(r.contexts)
    && (forall c :: c in Live(r.contexts) ==> c < |r.contexts|)
    && forall c :: c in Live(r.contexts) ==>
         HeadOf(r.contexts, c) == r.head.value && Latest(r.contexts, c) == |r.contexts| - 1
  }

  /** The list of every run that no verdict stops before its last dispatch is in dispatch order. */
  lemma ListIsDispatchOrder<N>(o: Oracle, t: Tree<N>)
    requires StopFree(RunPipeline(o, t).contexts)
    ensures InDispatchOrder(RunPipeline(o, t))
  {
    ExecLinks(o, t, None, EmptyRun());
    ReadyLive(EmptyRun<N>(), None);
    ExecThreads(o, t, None, EmptyRun());
    var r := RunPipeline(o, t);
    var l := Live(r.contexts);
    ReadyLive(r, Some(|r.contexts| - 1));
    WalkThread(r, l, 0);
    assert l[0..] == l;
    forall c | c in l
      ensures c < |r.contexts| && HeadOf(r.contexts, c) == r.head.value && Latest(r.contexts, c) == |r.contexts| - 1
    {
      var i :| 0 <= i < |l| && l[i] == c;
      HeadThread(r, l, i);
    }
  }

  // ------------------------------------------------------------ stops

  /** A run up to the end of the first chain, where the drain loop begins. */
  function Descend<N>(o: Oracle, t: Tree<N>, prev: Option<nat>, s: Run<N>): (r: Run<N>)
    requires prev.Some? ==> prev.value < |s.contexts|
    ensures |r.contexts| > |s.contexts| && (r.leaf == s.leaf || LeafOk(r))
    decreases Size(t)
  {
    var n := |s.contexts|;
    var last := RunLast(t, prev.None?);
    var v := o(n, last.event);
    var s1 := Dispatch(o, t, prev, s);
    var l := NextLink(last, v);
    NextIsSmaller(t, prev.None?, v, []);
    if Stopped(EndState(v, last)) then s1
    else if l.NoLink? then s1.(leaf := Some(n))
    else Descend(o, l.tree, if v.SwitchTo? then prev else Some(n), s1)
  }

  /** A run is its descent and then, unless the descent was stopped, the drain loop. */
  lemma {:induction false} DescendThenDrain<N>(o: Oracle, t: Tree<N>, prev: Option<nat>, s: Run<N>)
    requires prev.Some? ==> prev.value < |s.contexts|
    requires s.leaf.None?
    ensures Exec(o, t, prev, s) == Finish(o, Descend(o, t, prev, s))
    decreases Size(t)
  {
    var n := |s.contexts|;
    var last := RunLast(t, prev.None?);
    var v := o(n, last.event);
    var l := NextLink(last, v);
    NextIsSmaller(t, prev.None?, v, []);
    ExecForm(o, t, prev, s);
    if !Stopped(EndState(v, last)) && l.Link? {
      DescendThenDrain(o, l.tree, if v.SwitchTo? then prev else Some(n), Dispatch(o, t, prev, s));
    }
  }

  ghost predicate NoStops<N>(cs: seq<Context<N>>) { forall i :: 0 <= i < |cs| ==> !Stopped(cs[i].state) }

  lemma DescendForm<N>(o: Oracle, t: Tree<N>, prev: Option<nat>, s: Run<N>)
    requires prev.Some? ==> prev.value < |s.contexts|
    ensures var n := |s.contexts|; var last := RunLast(t, prev.None?); var v := o(n, last.event);
      var s1 := Dispatch(o, t, prev, s); var l := NextLink(last, v);
      && (Stopped(EndState(v, last)) ==> Descend(o, t, prev, s) == s1)
      && (!Stopped(EndState(v, last)) && l.NoLink? ==> Descend(o, t, prev, s) == s1.(leaf := Some(n)))
      && (!Stopped(EndState(v, last)) && l.Link? ==>
          Descend(o, t, prev, s) == Descend(o, l.tree, if v.SwitchTo? then prev else Some(n), s1))
  {
  }

  /** The state of the last context of a run, and nothing but that, may be a stop. */
  ghost predicate StopsLast<N>(cs: seq<Context<N>>, stopped: bool) {
    cs != [] && StopFree(cs) && Stopped(cs[|cs| - 1].state) == stopped
  }

  lemma DispatchStops<N>(o: Oracle, t: Tree<N>, prev: Option<nat>, s: Run<N>)
    requires prev.Some? ==> prev.value < |s.contexts|
    requires NoStops(s.contexts)
    ensures var last := RunLast(t, prev.None?); var stopped := Stopped(EndState(o(|s.contexts|, last.event), last));
      var cs := Dispatch(o, t, prev, s).contexts;
      StopsLast(cs, stopped) && (!stopped ==> NoStops(cs))
  {
    DispatchFields(o, t, prev, s);
  }

  /** Only the last dispatch of a descent can have been stopped. */
  lemma {:induction false} DescendStops<N>(o: Oracle, t: Tree<N>, prev: Option<nat>, s: Run<N>)
    requires prev.Some? ==> prev.value < |s.contexts|
    requires s.leaf.None? && NoStops(s.contexts)
    ensures StopsLast(Descend(o, t, prev, s).contexts, Descend(o, t, prev, s).leaf.None?)
    decreases Size(t)
  {
    var n := |s.contexts|;
    var last := RunLast(t, prev.None?);
    var v := o(n, last.event);
    var l := NextLink(last, v);
    NextIsSmaller(t, prev.None?, v, []);
    DescendForm(o, t, prev, s);
    DispatchStops(o, t, prev, s);
    if !Stopped(EndState(v, last)) && l.Link? {
      DescendStops(o, l.tree, if v.SwitchTo? then prev else Some(n), Dispatch(o, t, prev, s));
    }
  }

  lemma StopEndsRun<N>(o: Oracle, t: Tree<N>, i: nat)
    requires i < |Descend(o, t, None, EmptyRun()).contexts|
    requires Stopped(Descend(o, t, None, EmptyRun()).contexts[i].state)
    ensures var d := Descend(o, t, None, EmptyRun());
      RunPipeline(o, t) == d && i == |d.contexts| - 1 && StopFree(d.contexts)
  {
    DescendStops(o, t, None, EmptyRun());
    DescendThenDrain(o, t, None, EmptyRun());
  }

  /**
    Stop safety: if a context dispatched before the drain loop ends cancelled or aborted,
    nothing more is dispatched, no other context was stopped, and it is the latest
    context on the list.
   */
  lemma StopSafety<N>(o: Oracle, t: Tree<N>, i: nat)
    requires i < |Descend(o, t, None, EmptyRun()).contexts|
    requires Stopped(Descend(o, t, None, EmptyRun()).contexts[i].state)
    ensures var r := RunPipeline(o, t);
      && r == Descend(o, t, None, EmptyRun()) && i == |r.contexts| - 1
      && StopFree(r.contexts) && InDispatchOrder(r)
  {
    StopEndsRun(o, t, i);
    ListIsDispatchOrder(o, t);
  }
}
