/**
  The interpreter `execute_task` as a function on task trees: the recursion over the
  graph, the sink queue and the linked list of execution contexts. Contexts are numbered
  in the order in which they are dispatched.
 */
module Engine {
  import opened Wrappers
  import opened Pointy
  import opened TaskTree
  import opened Queries
  import opened Verdicts

  datatype ExecutionState = PendingState | ExecutingState | FinishedState | CancelledState | AbortedState

  predicate Stopped(s: ExecutionState) { s == CancelledState || s == AbortedState }

  datatype Context<N> = Context(
    tasks: seq<N>, events: seq<string>, state: ExecutionState, prev: Option<nat>, next: Option<nat>)

  /** `leaf`: the context from which the innermost running drain loop continues. */
  datatype Run<N> = Run(contexts: seq<Context<N>>, head: Option<nat>, sinks: seq<Tree<N>>, leaf: Option<nat>)

  function EmptyRun<N>(): Run<N> { Run([], None, [], None) }

  function SinksSize<N>(ts: seq<Tree<N>>): nat {
    if ts == [] then 0 else SinksSize(ts[..|ts| - 1]) + Size(ts[|ts| - 1])
  }

  lemma SinksSizeSnoc<N>(ts: seq<Tree<N>>, t: Tree<N>)
    ensures SinksSize(ts + [t]) == SinksSize(ts) + Size(t)
  {
    assert (ts + [t])[..|ts + [t]| - 1] == ts;
  }

  // ------------------------------------------------------------ one dispatch

  /** The state a context ends in; a switch needs a descriptor of the last task. */
  function EndState<N>(v: Verdict, last: Tree<N>): ExecutionState {
    match v
    case Failed => FinishedState
    case Succeeded => FinishedState
    case SwitchTo(k) => if FindLink(last.extras, k).Link? then ExecutingState else CancelledState
    case Cancelled => CancelledState
    case Aborted => AbortedState
  }

  /** The first task runs alone; any other starts its whole parallel group. */
  function RunLast<N>(t: Tree<N>, first: bool): Tree<N> { if first then t else GroupLast(t) }
  function RunNodes<N>(t: Tree<N>, first: bool): seq<N> { if first then [t.node] else GroupNodes(t) }
  function GroupEvents<N>(t: Tree<N>): seq<string> {
    if StartsParallel(t) then [t.event] + GroupEvents(t.succ.tree) else [t.event]
  }
  function RunEvents<N>(t: Tree<N>, first: bool): seq<string> { if first then [t.event] else GroupEvents(t) }

  /** The sink of a task that is not first is queued before the task runs. */
  function Queue<N>(t: Tree<N>, first: bool, sinks: seq<Tree<N>>): seq<Tree<N>> {
    if !first && t.sink.Link? then sinks + [t.sink.tree] else sinks
  }

  /** The context list after adding a context behind `prev`, or as a new head. */
  function AddContext<N>(s: Run<N>, c: Context<N>): Run<N>
    requires c.prev.Some? ==> c.prev.value < |s.contexts|
  {
    var n := |s.contexts|;
    match c.prev
    case None => s.(contexts := s.contexts + [c], head := Some(n))
    case Some(j) => s.(contexts := s.contexts[j := s.contexts[j].(next := Some(n))] + [c])
  }

  function Dispatch<N>(o: Oracle, t: Tree<N>, prev: Option<nat>, s: Run<N>): (r: Run<N>)
    requires prev.Some? ==> prev.value < |s.contexts|
    ensures |r.contexts| == |s.contexts| + 1
    ensures r.sinks == Queue(t, prev.None?, s.sinks) && r.leaf == s.leaf
  {
    var first := prev.None?;
    var last := RunLast(t, first);
    var state := EndState(o(|s.contexts|, last.event), last);
    AddContext(s.(sinks := Queue(t, first, s.sinks)),
               Context(RunNodes(t, first), RunEvents(t, first), state, prev, None))
  }

  /** Where a task goes on after a verdict that does not stop it. */
  function NextLink<N>(last: Tree<N>, v: Verdict): Link<N> {
    if v.SwitchTo? then FindLink(last.extras, v.key)
    else if IsConditional(last) && v.Failed? then last.fail
    else last.succ
  }

  // ------------------------------------------------------------ sizes

  lemma {:induction false} FindLinkSize<N>(x: Extras<N>, k: nat)
    ensures LinkSize(FindLink(x, k)) <= ExtrasSize(x)
  {
    match x case NoExtras => case Extra(front, _, _, _) => FindLinkSize(front, k);
  }

  lemma {:induction false} GroupLastSize<N>(t: Tree<N>)
    ensures Size(GroupLast(t)) <= Size(t)
    ensures StartsParallel(t) ==> LinkSize(t.sink) + Size(GroupLast(t)) < Size(t)
  {
    if StartsParallel(t) {
      GroupLastSize(t.succ.tree);
      assert LinkSize(t.succ) == Size(t.succ.tree);
    }
  }

  /** What a task queues and goes on with is smaller than the task itself. */
  lemma NextIsSmaller<N>(t: Tree<N>, first: bool, v: Verdict, sinks: seq<Tree<N>>)
    ensures SinksSize(Queue(t, first, sinks)) + LinkSize(NextLink(RunLast(t, first), v)) < SinksSize(sinks) + Size(t)
    ensures SinksSize(Queue(t, first, sinks)) < SinksSize(sinks) + Size(t)
  {
    var last := RunLast(t, first);
    GroupLastSize(t);
    if v.SwitchTo? { FindLinkSize(last.extras, v.key); }
    if !first && t.sink.Link? {
      SinksSizeSnoc(sinks, t.sink.tree);
      assert LinkSize(t.sink) == Size(t.sink.tree);
    }
    assert Size(last) == 1 + LinkSize(last.fail) + LinkSize(last.sink) + LinkSize(last.succ) + ExtrasSize(last.extras);
    assert LinkSize(NextLink(last, v)) + (if first || StartsParallel(t) then 0 else LinkSize(t.sink)) < Size(last);
  }

  // ------------------------------------------------------------ execute_task

  function Exec<N>(o: Oracle, t: Tree<N>, prev: Option<nat>, s: Run<N>): (r: Run<N>)
    requires prev.Some? ==> prev.value < |s.contexts|
    ensures |r.contexts| > |s.contexts|
    ensures |r.contexts| + SinksSize(r.sinks) <= |s.contexts| + SinksSize(s.sinks) + Size(t)
    decreases SinksSize(s.sinks) + Size(t), 0
  {
    var n := |s.contexts|;
    var last := RunLast(t, prev.None?);
    var v := o(n, last.event);
    var s1 := Dispatch(o, t, prev, s);
    NextIsSmaller(t, prev.None?, v, s.sinks);
    if Stopped(EndState(v, last)) then s1
    else if v.SwitchTo? then
      // the branch takes the place of the task that switched
      Exec(o, NextLink(last, v).tree, prev, s1)
    else Continue(o, NextLink(last, v), n, s1)
  }

  function Continue<N>(o: Oracle, l: Link<N>, prev: nat, s: Run<N>): (r: Run<N>)
    requires prev < |s.contexts|
    ensures |r.contexts| >= |s.contexts|
    ensures |r.contexts| + SinksSize(r.sinks) <= |s.contexts| + SinksSize(s.sinks) + LinkSize(l)
    decreases SinksSize(s.sinks) + LinkSize(l), 2
  {
    match l
    case NoLink => Drain(o, prev, s.(leaf := Some(prev)))
    case Link(_, t) => Exec(o, t, Some(prev), s)
  }

  /** The loop that empties the sink queue, last in first out. */
  function Drain<N>(o: Oracle, prev: nat, s: Run<N>): (r: Run<N>)
    requires prev < |s.contexts|
    ensures |r.contexts| >= |s.contexts| && r.sinks == []
    ensures |r.contexts| <= |s.contexts| + SinksSize(s.sinks)
    decreases SinksSize(s.sinks), 1
  {
    if s.sinks == [] then s
    else
      var k := |s.sinks| - 1;
      Drain(o, prev, Exec(o, s.sinks[k], Some(prev), s.(sinks := s.sinks[..k])))
  }

  /** The three ways in which a task goes on. */
  lemma ExecOnward<N>(o: Oracle, t: Tree<N>, prev: Option<nat>, s: Run<N>)
    requires prev.Some? ==> prev.value < |s.contexts|
    ensures var last := RunLast(t, prev.None?); var v := o(|s.contexts|, last.event); var s1 := Dispatch(o, t, prev, s);
      && (Stopped(EndState(v, last)) ==> Exec(o, t, prev, s) == s1)
      && (!Stopped(EndState(v, last)) && v.SwitchTo? ==>
          NextLink(last, v).Link? && Exec(o, t, prev, s) == Exec(o, NextLink(last, v).tree, prev, s1))
      && (!Stopped(EndState(v, last)) && !v.SwitchTo? ==>
          Exec(o, t, prev, s) == Continue(o, NextLink(last, v), |s.contexts|, s1))
  {
  }

  lemma ExecForm<N>(o: Oracle, t: Tree<N>, prev: Option<nat>, s: Run<N>)
    requires prev.Some? ==> prev.value < |s.contexts|
    ensures var n := |s.contexts|; var last := RunLast(t, prev.None?); var v := o(n, last.event);
      var s1 := Dispatch(o, t, prev, s); var l := NextLink(last, v);
      && (Stopped(EndState(v, last)) ==> Exec(o, t, prev, s) == s1)
      && (!Stopped(EndState(v, last)) && l.NoLink? ==> Exec(o, t, prev, s) == Drain(o, n, s1.(leaf := Some(n))))
      && (!Stopped(EndState(v, last)) && l.Link? ==>
          Exec(o, t, prev, s) == Exec(o, l.tree, if v.SwitchTo? then prev else Some(n), s1))
  {
    ExecOnward(o, t, prev, s);
  }

  // ------------------------------------------------------------ whole runs

  /** A run of a whole pipeline. */
  function RunPipeline<N>(o: Oracle, t: Tree<N>): Run<N> { Exec(o, t, None, EmptyRun()) }

  /** The leaf of a run is one of its contexts. */
  ghost predicate LeafOk<N>(s: Run<N>) { s.leaf.Some? ==> s.leaf.value < |s.contexts| }

  /** What is left to the enclosing drain loop, if there is one. */
  function Finish<N>(o: Oracle, s: Run<N>): Run<N>
    requires LeafOk(s)
  {
    if s.leaf.None? then s else Drain(o, s.leaf.value, s)
  }
}
