/**
  The interpreter `execute_task` over objects. The objects it creates mirror the run that
  the engine computes.
 */
module Execution {
  import opened Wrappers
  import opened Pointy
  import opened TaskTree
  import opened TaskStore
  import opened TaskGraph
  import opened TaskQueries
  import opened Queries
  import opened Verdicts
  import opened Engine
  import opened Outcomes
  import opened Runnable
  import opened Interpreter

  class SinkQueue {
    var tasks: seq<PipelineTask>
    constructor ()
      ensures tasks == []
    {
      tasks := [];
    }
  }

  class Pipeline {
    var executionContext: EventExecutionContext?
    /** How many contexts have been created. */
    var created: nat
    /** All of them, in that order. */
    ghost var contexts: seq<EventExecutionContext>
    ghost var repr: set<EventExecutionContext>

    constructor ()
      ensures executionContext == null && created == 0 && contexts == [] && repr == {}
    {
      executionContext, created, contexts, repr := null, 0, [], {};
    }
  }

  ghost function At(cs: seq<EventExecutionContext>, i: Option<nat>): EventExecutionContext? {
    if i.Some? && i.value < |cs| then cs[i.value] else null
  }

  /** The fields of a context object; its tasks are an unordered list. */
  datatype Image = Image(
    state: ExecutionState, tasks: multiset<PipelineTask>, prev: EventExecutionContext?, next: EventExecutionContext?)

  ghost function View(c: EventExecutionContext): Image
    reads c
  {
    Image(c.state, multiset(c.taskProfiles), c.previousContext, c.nextContext)
  }

  ghost function ImageOf(cs: seq<EventExecutionContext>, c: Context<PipelineTask>): Image {
    Image(c.state, multiset(c.tasks), At(cs, c.prev), At(cs, c.next))
  }

  /** Links of a run stay within it. */
  ghost predicate Closed(cs: seq<Context<PipelineTask>>, head: Option<nat>) {
    && (head.Some? ==> head.value < |cs|)
    && forall i :: 0 <= i < |cs| ==>
      (cs[i].prev.Some? ==> cs[i].prev.value < |cs|) && (cs[i].next.Some? ==> cs[i].next.value < |cs|)
  }

  ghost function ImagesOf(cs: seq<EventExecutionContext>, s: seq<Context<PipelineTask>>): seq<Image> {
    seq(|s|, i requires 0 <= i < |s| => ImageOf(cs, s[i]))
  }

  ghost predicate Hold(cs: seq<EventExecutionContext>, vs: seq<Image>)
    reads cs
  {
    && |cs| == |vs| && (forall i, j :: 0 <= i < j < |cs| ==> cs[i] != cs[j])
    && forall i :: 0 <= i < |cs| ==> View(cs[i]) == vs[i]
  }

  /** The context objects of a pipeline mirror the contexts of a run. */
  ghost predicate MirrorList(p: Pipeline, cs: seq<Context<PipelineTask>>, head: Option<nat>)
    reads p, p.repr
  {
    && (forall c :: c in p.contexts ==> c in p.repr)
    && Closed(cs, head) && Hold(p.contexts, ImagesOf(p.contexts, cs))
    && p.created == |cs| && p.executionContext == At(p.contexts, head)
  }

  // And the sink queue holds the sinks of the run. The list is named through its length,
  // so that it is unfolded only by the lemma below.
  ghost predicate Mirror(p: Pipeline, q: SinkQueue, s: Run<PipelineTask>)
    reads p, q, p.repr
  {
    && |p.contexts| == |s.contexts| && q.tasks == Roots(s.sinks)
    && forall n :: n == |s.contexts| ==> MirrorOf(p, s.contexts, s.head, n)
  }
  ghost predicate MirrorOf(p: Pipeline, cs: seq<Context<PipelineTask>>, head: Option<nat>, n: nat)
    reads p, p.repr
  {
    n == |cs| && MirrorList(p, cs, head)
  }

  lemma MirrorMeans(p: Pipeline, q: SinkQueue, s: Run<PipelineTask>)
    ensures Mirror(p, q, s) <==> MirrorList(p, s.contexts, s.head) && q.tasks == Roots(s.sinks)
  {
    if MirrorList(p, s.contexts, s.head) { assert MirrorOf(p, s.contexts, s.head, |s.contexts|); }
    if Mirror(p, q, s) { assert MirrorOf(p, s.contexts, s.head, |s.contexts|); }
  }

  ghost predicate SinksRun(h: Store<PipelineTask>, ts: seq<Tree<PipelineTask>>) {
    forall i :: 0 <= i < |ts| ==> Runs(h, ts[i])
  }

  // ------------------------------------------------------------ gathering a group

  method ListOf(s: set<PipelineTask>) returns (l: seq<PipelineTask>)
    ensures multiset(l) == multiset(s)
  {
    var rest := s;
    l := [];
    while rest != {}
      invariant rest <= s && multiset(l) == multiset(s - rest)
      decreases rest
    {
      var x :| x in rest;
      assert s - (rest - {x}) == (s - rest) + {x};
      rest, l := rest - {x}, l + [x];
    }
    assert s - {} == s;
  }

  ghost function Members(ns: seq<PipelineTask>): set<PipelineTask> { set n | n in ns }

  lemma MembersSnoc(ns: seq<PipelineTask>, n: PipelineTask)
    ensures Members(ns + [n]) == Members(ns) + {n} && Members(ns) + {n} != {}
  {
    assert n in Members(ns) + {n};
  }

  lemma {:induction false} NoRepeats(ns: seq<PipelineTask>)
    requires forall i, j :: 0 <= i < j < |ns| ==> ns[i] != ns[j]
    ensures multiset(Members(ns)) == multiset(ns)
  {
    if ns != [] {
      var k := |ns| - 1;
      NoRepeats(ns[..k]);
      assert ns == ns[..k] + [ns[k]];
      assert Members(ns) == Members(ns[..k]) + {ns[k]};
    }
  }

  lemma GroupStep(t: Tree<PipelineTask>, u: Tree<PipelineTask>, before: seq<PipelineTask>)
    requires GroupNodes(t) == before + GroupNodes(u) && GroupLast(u) == GroupLast(t)
    ensures StartsParallel(u) ==> Size(u.succ.tree) < Size(u)
    ensures StartsParallel(u) ==>
      GroupNodes(t) == before + [u.node] + GroupNodes(u.succ.tree) && GroupLast(u.succ.tree) == GroupLast(t)
    ensures !StartsParallel(u) ==> GroupNodes(t) == before + [GroupLast(t).node] && u == GroupLast(t)
  {
    if StartsParallel(u) { assert LinkSize(u.succ) == Size(u.succ.tree); }
  }

  /** Collects the tasks of a group up to its last one. */
  method CollectParallel(task: PipelineTask, ghost h: Store<PipelineTask>, ghost t: Tree<PipelineTask>)
    returns (parallel: set<PipelineTask>, last: PipelineTask, ghost before: seq<PipelineTask>)
    requires InMemory(h) && Runs(h, t) && task == t.node
    ensures last == GroupLast(t).node && GroupNodes(t) == before + [last]
    ensures (parallel == {} <==> before == []) && parallel == Members(before)
  {
    parallel, last := {}, task;
    ghost var u := t;
    before := [];
    RunsParts(h, u);
    while last.successPipe == Some(Parallelism)
      invariant Runs(h, u) && last == u.node && GroupLast(u) == GroupLast(t)
      invariant (last.successPipe == Some(Parallelism)) == StartsParallel(u)
      invariant GroupNodes(t) == before + GroupNodes(u) && parallel == Members(before)
      invariant parallel == {} <==> before == []
      decreases Size(u)
    {
      GroupStep(t, u, before);
      RunsParts(h, u);
      MembersSnoc(before, last);
      parallel := parallel + {last};
      last := last.onSuccess;
      before, u := before + [u.node], u.succ.tree;
      RunsParts(h, u);
    }
    GroupStep(t, u, before);
  }

  lemma GatheredSet(h: Store<PipelineTask>, t: Tree<PipelineTask>, before: seq<PipelineTask>)
    requires Runs(h, t) && GroupNodes(t) == before + [GroupLast(t).node]
    ensures multiset(Members(before) + {GroupLast(t).node}) == multiset(GroupNodes(t))
  {
    RunsMeans(h, t);
    GroupOnce(t);
    NoRepeats(GroupNodes(t));
    assert Members(before) + {GroupLast(t).node} == Members(GroupNodes(t));
  }

  /** The tasks joined to `task` by `||`, as an unordered list, and the last of them. */
  method GatherParallel(task: PipelineTask, ghost h: Store<PipelineTask>, ghost t: Tree<PipelineTask>)
    returns (tasks: seq<PipelineTask>, last: PipelineTask)
    requires InMemory(h) && Runs(h, t) && task == t.node
    ensures multiset(tasks) == multiset(GroupNodes(t)) && last == GroupLast(t).node
  {
    var parallel;
    ghost var before;
    parallel, last, before := CollectParallel(task, h, t);
    if parallel != {} {
      GatheredSet(h, t, before);
      tasks := ListOf(parallel + {last});
    } else {
      tasks := [last];
    }
  }

  // ------------------------------------------------------------ starting a context

  /** The run when a context for `t` has been created and not yet dispatched. */
  ghost function Pending(t: Tree<PipelineTask>, prev: Option<nat>, s: Run<PipelineTask>): (r: Run<PipelineTask>)
    requires prev.Some? ==> prev.value < |s.contexts|
    ensures |r.contexts| == |s.contexts| + 1
  {
    AddContext(s.(sinks := Queue(t, prev.None?, s.sinks)), NewContext(t, prev))
  }
  ghost function NewContext(t: Tree<PipelineTask>, prev: Option<nat>): Context<PipelineTask> {
    Context(RunNodes(t, prev.None?), RunEvents(t, prev.None?), PendingState, prev, None)
  }

  /** The predecessor of a context, in the run and in memory. */
  ghost predicate Precedes(p: Pipeline, previous: EventExecutionContext?, prev: Option<nat>)
    reads p
  {
    if prev.None? then previous == null
    else prev.value < |p.contexts| && previous == p.contexts[prev.value]
  }

  lemma PendingFirst(cs: seq<EventExecutionContext>, c: EventExecutionContext, t: Tree<PipelineTask>,
                     s: Run<PipelineTask>)
    requires Closed(s.contexts, s.head) && |cs| == |s.contexts|
    ensures var r := Pending(t, None, s);
      && Closed(r.contexts, r.head) && At(cs + [c], r.head) == c
      && ImagesOf(cs + [c], r.contexts)
         == ImagesOf(cs, s.contexts) + [Image(PendingState, multiset{t.node}, null, null)]
  {
    assert multiset([t.node]) == multiset{t.node};
  }

  lemma ClosedBehind(s: Run<PipelineTask>, c: Context<PipelineTask>)
    requires Closed(s.contexts, s.head) && c.prev.Some? && c.prev.value < |s.contexts| && c.next.None?
    ensures var r := AddContext(s, c); var j := c.prev.value;
      && Closed(r.contexts, r.head) && r.head == s.head
      && r.contexts == s.contexts[j := s.contexts[j].(next := Some(|s.contexts|))] + [c]
  {
  }

  lemma ImagesBehind(cs: seq<EventExecutionContext>, c: EventExecutionContext, s: seq<Context<PipelineTask>>,
                     head: Option<nat>, j: nat, d: Context<PipelineTask>)
    requires Closed(s, head) && |cs| == |s| && j < |cs| && d.prev == Some(j) && d.next.None?
    ensures var vs := ImagesOf(cs, s);
      ImagesOf(cs + [c], s[j := s[j].(next := Some(|s|))] + [d])
      == vs[j := vs[j].(next := c)] + [Image(d.state, multiset(d.tasks), cs[j], null)]
  {
    var vs := ImagesOf(cs, s);
    var s' := s[j := s[j].(next := Some(|s|))] + [d];
    forall i | 0 <= i < |s| && i != j ensures ImageOf(cs + [c], s'[i]) == vs[i] {
      assert s'[i] == s[i];
    }
    assert ImageOf(cs + [c], s'[j]) == vs[j].(next := c);
    assert ImageOf(cs + [c], s'[|s|]) == Image(d.state, multiset(d.tasks), cs[j], null);
  }

  lemma PendingBehind(cs: seq<EventExecutionContext>, c: EventExecutionContext, t: Tree<PipelineTask>, j: nat,
                      s: Run<PipelineTask>)
    requires Closed(s.contexts, s.head) && |cs| == |s.contexts| && j < |cs|
    ensures var r := Pending(t, Some(j), s); var vs := ImagesOf(cs, s.contexts);
      && Closed(r.contexts, r.head) && At(cs + [c], r.head) == At(cs, s.head)
      && ImagesOf(cs + [c], r.contexts)
         == vs[j := vs[j].(next := c)] + [Image(PendingState, multiset(GroupNodes(t)), cs[j], null)]
  {
    ClosedBehind(s.(sinks := Queue(t, false, s.sinks)), NewContext(t, Some(j)));
    ImagesBehind(cs, c, s.contexts, s.head, j, NewContext(t, Some(j)));
  }

  /** Links a new context behind `previous`. */
  method LinkBehind(previous: EventExecutionContext, context: EventExecutionContext,
                    ghost cs: seq<EventExecutionContext>, ghost vs: seq<Image>, ghost j: nat)
    requires Hold(cs, vs) && j < |cs| && previous == cs[j] && context !in cs
    modifies context`previousContext, previous`nextContext
    ensures Hold(cs + [context], vs[j := vs[j].(next := context)] + [old(View(context)).(prev := previous)])
  {
    context.previousContext := previous;
    previous.nextContext := context;
  }

  lemma HoldGrows(cs: seq<EventExecutionContext>, vs: seq<Image>, c: EventExecutionContext)
    requires Hold(cs, vs) && c !in cs
    ensures Hold(cs + [c], vs + [View(c)])
  {
  }

  method StartFirst(task: PipelineTask, p: Pipeline, ghost h: Store<PipelineTask>, ghost t: Tree<PipelineTask>,
                    ghost s: Run<PipelineTask>)
    returns (context: EventExecutionContext)
    requires MirrorList(p, s.contexts, s.head) && Runs(h, t) && task == t.node
    modifies p
    ensures var r := Pending(t, None, s); MirrorList(p, r.contexts, r.head)
    ensures fresh(context) && p.contexts == old(p.contexts) + [context] && p.repr == old(p.repr) + {context}
    ensures context.Serves(h, t, true) && context.results == [] && context.errors == []
  {
    context := new EventExecutionContext([task]);
    PendingFirst(p.contexts, context, t, s);
    HoldGrows(p.contexts, ImagesOf(p.contexts, s.contexts), context);
    p.executionContext := context;
    p.contexts, p.repr := p.contexts + [context], p.repr + {context};
    p.created := p.created + 1;
  }

  method StartBehind(tasks: seq<PipelineTask>, p: Pipeline, previous: EventExecutionContext,
                     ghost h: Store<PipelineTask>, ghost t: Tree<PipelineTask>, ghost j: nat,
                     ghost s: Run<PipelineTask>)
    returns (context: EventExecutionContext)
    requires MirrorList(p, s.contexts, s.head) && Runs(h, t) && multiset(tasks) == multiset(GroupNodes(t))
    requires j < |p.contexts| && previous == p.contexts[j]
    modifies p, p.repr
    ensures var r := Pending(t, Some(j), s); MirrorList(p, r.contexts, r.head)
    ensures fresh(context) && p.contexts == old(p.contexts) + [context] && p.repr == old(p.repr) + {context}
    ensures context.Serves(h, t, false) && context.results == [] && context.errors == []
  {
    context := new EventExecutionContext(tasks);
    PendingBehind(p.contexts, context, t, j, s);
    LinkBehind(previous, context, p.contexts, ImagesOf(p.contexts, s.contexts), j);
    p.contexts, p.repr := p.contexts + [context], p.repr + {context};
    p.created := p.created + 1;
  }

  /** Queues the sink of a task that is not first. */
  method QueueSink(task: PipelineTask, q: SinkQueue, ghost h: Store<PipelineTask>, ghost t: Tree<PipelineTask>,
                   ghost sinks: seq<Tree<PipelineTask>>)
    requires InMemory(h) && Runs(h, t) && task == t.node && q.tasks == Roots(sinks) && SinksRun(h, sinks)
    modifies q
    ensures q.tasks == Roots(Queue(t, false, sinks)) && SinksRun(h, Queue(t, false, sinks))
  {
    RunsParts(h, t);
    if task.sinkNode != null { q.tasks := q.tasks + [task.sinkNode]; }
  }

  method StartNext(task: PipelineTask, p: Pipeline, q: SinkQueue, previous: EventExecutionContext,
                   ghost h: Store<PipelineTask>, ghost t: Tree<PipelineTask>, ghost j: nat, ghost s: Run<PipelineTask>)
    returns (context: EventExecutionContext, last: PipelineTask)
    requires InMemory(h) && Runs(h, t) && task == t.node
    requires Mirror(p, q, s) && SinksRun(h, s.sinks) && j < |p.contexts| && previous == p.contexts[j]
    modifies p, q, p.repr
    ensures SinksRun(h, Queue(t, false, s.sinks))
    ensures Mirror(p, q, Pending(t, Some(j), s))
    ensures fresh(context) && p.contexts == old(p.contexts) + [context] && p.repr == old(p.repr) + {context}
    ensures context.Serves(h, t, false) && context.results == [] && context.errors == []
    ensures last == GroupLast(t).node
  {
    MirrorMeans(p, q, s);
    var tasks;
    tasks, last := GatherParallel(task, h, t);
    QueueSink(task, q, h, t, s.sinks);
    context := StartBehind(tasks, p, previous, h, t, j, s);
    MirrorMeans(p, q, Pending(t, Some(j), s));
  }

  /** Creates the context of a task: alone if it is first, with its parallel group otherwise. */
  method StartContext(task: PipelineTask, p: Pipeline, q: SinkQueue, previous: EventExecutionContext?,
                      ghost h: Store<PipelineTask>, ghost t: Tree<PipelineTask>, ghost prev: Option<nat>,
                      ghost s: Run<PipelineTask>)
    returns (context: EventExecutionContext, last: PipelineTask)
    requires InMemory(h) && Runs(h, t) && task == t.node
    requires Mirror(p, q, s) && SinksRun(h, s.sinks) && Precedes(p, previous, prev)
    modifies p, q, p.repr
    ensures SinksRun(h, Queue(t, prev.None?, s.sinks))
    ensures prev.Some? ==> prev.value < |s.contexts|
    ensures Mirror(p, q, Pending(t, prev, s))
    ensures fresh(context) && p.contexts == old(p.contexts) + [context] && p.repr == old(p.repr) + {context}
    ensures context.Serves(h, t, prev.None?) && context.results == [] && context.errors == []
    ensures last == RunLast(t, prev.None?).node
  {
    if previous == null {
      last := task;
      MirrorMeans(p, q, s);
      context := StartFirst(task, p, h, t, s);
      MirrorMeans(p, q, Pending(t, None, s));
    } else {
      context, last := StartNext(task, p, q, previous, h, t, prev.value, s);
    }
  }

  /** `r` is `u` with its last context, which is pending, settled to a state. */
  ghost predicate SettlesTo(u: Run<PipelineTask>, r: Run<PipelineTask>, state: ExecutionState) {
    && u.contexts != [] && r.head == u.head && r.sinks == u.sinks
    && var n := |u.contexts| - 1;
    u.contexts[n].state == PendingState && r.contexts == u.contexts[n := u.contexts[n].(state := state)]
  }

  /** A dispatch settles the state of the pending context. */
  lemma PendingSettles(o: Oracle, t: Tree<PipelineTask>, prev: Option<nat>, s: Run<PipelineTask>)
    requires prev.Some? ==> prev.value < |s.contexts|
    ensures var last := RunLast(t, prev.None?);
      SettlesTo(Pending(t, prev, s), Engine.Dispatch(o, t, prev, s), EndState(o(|s.contexts|, last.event), last))
  {
  }

  lemma StateImages(cs: seq<EventExecutionContext>, us: seq<Context<PipelineTask>>, head: Option<nat>, n: nat,
                    state: ExecutionState)
    requires n < |us| && Closed(us, head)
    ensures var rs := us[n := us[n].(state := state)]; var vs := ImagesOf(cs, us);
      Closed(rs, head) && ImagesOf(cs, rs) == vs[n := vs[n].(state := state)]
  {
  }

  /** What a dispatch reports, beside the state of its context. */
  ghost predicate Reports(v: Verdict, state: ExecutionState, e: Evaluator, results: nat, errors: nat,
                          request: Option<SwitchRequest>) {
    && (!Stopped(state) && v.SwitchTo? ==> request == Some(SwitchRequest(v.key, true)))
    && (!Stopped(state) && !v.SwitchTo? ==>
        request.None? && (v.Failed? <==> ContextEvaluation(e, results, errors, false)))
  }

  /** What holds of a pipeline beside the fields of its contexts. */
  ghost predicate Awaits(p: Pipeline, q: SinkQueue, u: Run<PipelineTask>)
    reads p, q
  {
    && (forall c :: c in p.contexts ==> c in p.repr) && Closed(u.contexts, u.head)
    && p.created == |u.contexts| && p.executionContext == At(p.contexts, u.head) && q.tasks == Roots(u.sinks)
  }

  // The contexts of a pipeline have the images `vs`, and the rest of it mirrors `u`.
  // Unfolded only by the lemma below.
  ghost predicate Prepared(p: Pipeline, q: SinkQueue, u: Run<PipelineTask>, vs: seq<Image>)
    reads p, q, p.repr
  {
    |p.contexts| == |u.contexts| == |vs| && forall n :: n == |vs| ==> PreparedFor(p, q, u, vs, n)
  }
  ghost predicate PreparedFor(p: Pipeline, q: SinkQueue, u: Run<PipelineTask>, vs: seq<Image>, n: nat)
    reads p, q, p.repr
  {
    n == |vs| && Awaits(p, q, u) && Hold(p.contexts, vs)
  }
  lemma PreparedMeans(p: Pipeline, q: SinkQueue, u: Run<PipelineTask>, vs: seq<Image>)
    requires |p.contexts| == |u.contexts| == |vs|
    ensures Prepared(p, q, u, vs) <==> Awaits(p, q, u) && Hold(p.contexts, vs)
  {
    if Prepared(p, q, u, vs) { assert PreparedFor(p, q, u, vs, |vs|); }
  }

  lemma MirrorParts(p: Pipeline, q: SinkQueue, u: Run<PipelineTask>)
    requires Mirror(p, q, u)
    ensures Prepared(p, q, u, ImagesOf(p.contexts, u.contexts))
  {
    MirrorMeans(p, q, u);
    PreparedMeans(p, q, u, ImagesOf(p.contexts, u.contexts));
  }

  /** When the last context has been settled, the objects mirror the settled run. */
  lemma SettledMirrors(p: Pipeline, q: SinkQueue, u: Run<PipelineTask>, r: Run<PipelineTask>, state: ExecutionState)
    requires SettlesTo(u, r, state) && |p.contexts| == |u.contexts|
    requires var vs := ImagesOf(p.contexts, u.contexts); var n := |vs| - 1;
      Prepared(p, q, u, vs[n := vs[n].(state := state)])
    ensures Mirror(p, q, r)
  {
    var vs := ImagesOf(p.contexts, u.contexts);
    var n := |vs| - 1;
    PreparedMeans(p, q, u, vs[n := vs[n].(state := state)]);
    StateImages(p.contexts, u.contexts, u.head, n, state);
    MirrorMeans(p, q, r);
  }

  method DispatchHeld(context: EventExecutionContext, launch: Launch, ghost e: Evaluator,
                      ghost h: Store<PipelineTask>, ghost t: Tree<PipelineTask>, ghost first: bool,
                      ghost cs: seq<EventExecutionContext>, ghost vs: seq<Image>)
    returns (request: Option<SwitchRequest>)
    requires InMemory(h) && context.Serves(h, t, first) && context.results == [] && context.errors == []
    requires Hold(cs, vs) && cs != [] && context == cs[|cs| - 1] && vs[|cs| - 1].state == PendingState
    modifies context`state, context`results, context`errors
    ensures InMemory(h)
    ensures var v := Outcomes.Verdict(launch, e); var n := |cs| - 1;
      && context.state == EndState(v, RunLast(t, first)) && Hold(cs, vs[n := vs[n].(state := context.state)])
      && Reports(v, context.state, e, |context.results|, |context.errors|, request)
  {
    assert View(cs[|cs| - 1]) == vs[|cs| - 1];
    request := context.Dispatch(launch, e, h, t, first);
  }

  method DispatchPrepared(context: EventExecutionContext, launch: Launch, ghost e: Evaluator,
                          ghost h: Store<PipelineTask>, ghost t: Tree<PipelineTask>, ghost first: bool,
                          ghost p: Pipeline, ghost q: SinkQueue, ghost u: Run<PipelineTask>, ghost vs: seq<Image>)
    returns (request: Option<SwitchRequest>)
    requires InMemory(h) && context.Serves(h, t, first) && context.results == [] && context.errors == []
    requires Prepared(p, q, u, vs) && vs != [] && context == p.contexts[|vs| - 1] && vs[|vs| - 1].state == PendingState
    modifies context`state, context`results, context`errors
    ensures InMemory(h) && |vs| == |p.contexts| && p.contexts == old(p.contexts)
    ensures var v := Outcomes.Verdict(launch, e); var n := |vs| - 1;
      && context.state == EndState(v, RunLast(t, first))
      && Prepared(p, q, u, vs[n := vs[n].(state := context.state)])
      && Reports(v, context.state, e, |context.results|, |context.errors|, request)
  {
    PreparedMeans(p, q, u, vs);
    request := DispatchHeld(context, launch, e, h, t, first, p.contexts, vs);
    ghost var n := |vs| - 1;
    PreparedMeans(p, q, u, vs[n := vs[n].(state := context.state)]);
  }

  /** Dispatches the last context of a pipeline, which is pending. */
  method DispatchContext(context: EventExecutionContext, launch: Launch, ghost e: Evaluator,
                         ghost h: Store<PipelineTask>, ghost t: Tree<PipelineTask>, ghost first: bool,
                         ghost p: Pipeline, ghost q: SinkQueue, ghost u: Run<PipelineTask>, ghost r: Run<PipelineTask>)
    returns (request: Option<SwitchRequest>)
    requires SettlesTo(u, r, EndState(Outcomes.Verdict(launch, e), RunLast(t, first)))
    requires InMemory(h) && Mirror(p, q, u) && context == p.contexts[|u.contexts| - 1]
    requires context.Serves(h, t, first) && context.results == [] && context.errors == []
    modifies context`state, context`results, context`errors
    ensures InMemory(h) && Mirror(p, q, r)
    ensures var v := Outcomes.Verdict(launch, e);
      && context.state == EndState(v, RunLast(t, first))
      && Reports(v, context.state, e, |context.results|, |context.errors|, request)
  {
    MirrorParts(p, q, u);
    request := DispatchPrepared(context, launch, e, h, t, first, p, q, u, ImagesOf(p.contexts, u.contexts));
    SettledMirrors(p, q, u, r, context.state);
  }

  // ------------------------------------------------------------ execute_task

  /** `get_descriptor`. */
  function GetDescriptor(task: PipelineTask, key: nat): PipelineTask?
    reads task
  {
    if key == 0 then task.onFailure
    else if key == 1 then task.onSuccess
    else match FindConfig(task.descriptors, key) case Some(c) => c.task case None => null
  }

  lemma MirrorCreated(p: Pipeline, q: SinkQueue, u: Run<PipelineTask>)
    requires Mirror(p, q, u)
    ensures p.created == |u.contexts|
  {
    MirrorMeans(p, q, u);
  }

  /** Dispatches the context that has just been created for `t`, with what the world gives it. */
  method LaunchContext(context: EventExecutionContext, p: Pipeline, w: World, ghost j: Judges, ghost q: SinkQueue,
                       ghost h: Store<PipelineTask>, ghost t: Tree<PipelineTask>, ghost prev: Option<nat>,
                       ghost s: Run<PipelineTask>)
    returns (request: Option<SwitchRequest>)
    requires prev.Some? ==> prev.value < |s.contexts|
    requires InMemory(h) && Mirror(p, q, Pending(t, prev, s)) && context == p.contexts[|s.contexts|]
    requires context.Serves(h, t, prev.None?) && context.results == [] && context.errors == []
    modifies context`state, context`results, context`errors
    ensures InMemory(h) && Mirror(p, q, Engine.Dispatch(OracleOf(w, j), t, prev, s))
    ensures var last := RunLast(t, prev.None?); var v := OracleOf(w, j)(|s.contexts|, last.event);
      && context.state == EndState(v, last)
      && Reports(v, context.state, j(last.event), |context.results|, |context.errors|, request)
  {
    ghost var u, r := Pending(t, prev, s), Engine.Dispatch(OracleOf(w, j), t, prev, s);
    PendingSettles(OracleOf(w, j), t, prev, s);
    MirrorCreated(p, q, u);
    ghost var e := j(RunLast(t, prev.None?).event);
    request := DispatchContext(context, w(p.created - 1), e, h, t, prev.None?, p, q, u, r);
  }

  /** Starts and dispatches one context. */
  method RunContext(task: PipelineTask, p: Pipeline, q: SinkQueue, previous: EventExecutionContext?, w: World,
                    ghost j: Judges,
                    ghost h: Store<PipelineTask>, ghost t: Tree<PipelineTask>, ghost prev: Option<nat>,
                    ghost s: Run<PipelineTask>)
    returns (context: EventExecutionContext, last: PipelineTask, request: Option<SwitchRequest>)
    requires InMemory(h) && Runs(h, t) && task == t.node
    requires Mirror(p, q, s) && SinksRun(h, s.sinks) && Precedes(p, previous, prev)
    modifies p, q, p.repr
    ensures InMemory(h) && SinksRun(h, Queue(t, prev.None?, s.sinks))
    ensures prev.Some? ==> prev.value < |s.contexts|
    ensures Mirror(p, q, Engine.Dispatch(OracleOf(w, j), t, prev, s))
    ensures fresh(context) && p.contexts == old(p.contexts) + [context] && p.repr == old(p.repr) + {context}
    ensures context.Serves(h, t, prev.None?) && last == RunLast(t, prev.None?).node
    ensures var v := OracleOf(w, j)(|s.contexts|, RunLast(t, prev.None?).event);
      && context.state == EndState(v, RunLast(t, prev.None?))
      && Reports(v, context.state, j(RunLast(t, prev.None?).event), |context.results|, |context.errors|, request)
  {
    context, last := StartContext(task, p, q, previous, h, t, prev, s);
    request := LaunchContext(context, p, w, j, q, h, t, prev, s);
  }

  /** The task that follows when nothing stopped the context. */
  method NextTask(context: EventExecutionContext, last: PipelineTask, request: Option<SwitchRequest>, judges: Judges,
                  ghost v: Verdict, ghost h: Store<PipelineTask>, ghost t: Tree<PipelineTask>, ghost first: bool)
    returns (next: PipelineTask?)
    requires InMemory(h) && context.Serves(h, t, first) && last == RunLast(t, first).node
    requires !Stopped(context.state) && context.state == EndState(v, RunLast(t, first))
    requires Reports(v, context.state, judges(RunLast(t, first).event), |context.results|, |context.errors|, request)
    ensures LinkAt(h, NextLink(RunLast(t, first), v), next)
    ensures v.SwitchTo? ==> next != null
  {
    LastRuns(h, t, first);
    RunsParts(h, RunLast(t, first));
    if request.Some? {
      // the descriptor was checked, so there is always a task to switch to
      DescriptorRuns(h, RunLast(t, first), request.value.key);
      next := GetDescriptor(last, request.value.key);
      assert next != null;
    } else if last.IsConditionalTask() {
      var failed := context.ExecutionFailed(judges, h, t, first);
      next := if failed then last.onFailure else last.onSuccess;
    } else {
      next := last.onSuccess;
    }
  }

  /** What the interpreter computes from a task, or from the end of a chain. */
  ghost function Executed(o: Oracle, l: Link<PipelineTask>, prev: Option<nat>, s: Run<PipelineTask>): Run<PipelineTask>
    requires prev.Some? ==> prev.value < |s.contexts|
    requires l.NoLink? ==> prev.Some?
  {
    match l case NoLink => Drain(o, prev.value, s.(leaf := prev)) case Link(_, t) => Exec(o, t, prev, s)
  }

  /** The tasks below a link and below the queued sinks. */
  ghost function Work(l: Link<PipelineTask>, s: Run<PipelineTask>): nat { SinksSize(s.sinks) + LinkSize(l) }

  // The result of a run, unfolded only by the lemmas below.
  ghost predicate Executes(o: Oracle, l: Link<PipelineTask>, prev: Option<nat>, s: Run<PipelineTask>,
                           r: Run<PipelineTask>) {
    && (prev.Some? ==> prev.value < |s.contexts|) && (l.NoLink? ==> prev.Some?)
    && forall n :: n == |s.contexts| ==> ExecutesFrom(o, l, prev, s, r, n)
  }
  ghost predicate ExecutesFrom(o: Oracle, l: Link<PipelineTask>, prev: Option<nat>, s: Run<PipelineTask>,
                               r: Run<PipelineTask>, n: nat)
    requires (prev.Some? ==> prev.value < |s.contexts|) && (l.NoLink? ==> prev.Some?)
  {
    n == |s.contexts| && r == Executed(o, l, prev, s)
  }

  lemma ExecutesMeans(o: Oracle, l: Link<PipelineTask>, prev: Option<nat>, s: Run<PipelineTask>, r: Run<PipelineTask>)
    requires (prev.Some? ==> prev.value < |s.contexts|) && (l.NoLink? ==> prev.Some?)
    ensures Executes(o, l, prev, s, r) <==> r == Executed(o, l, prev, s)
  {
    if Executes(o, l, prev, s, r) { assert ExecutesFrom(o, l, prev, s, r, |s.contexts|); }
  }

  /** Where a context leads: to its own predecessor's successor after a switch, else onward. */
  ghost function After(prev: Option<nat>, n: nat, v: Verdict): Option<nat> { if v.SwitchTo? then prev else Some(n) }

  // Two runs that drain to the same end, unfolded only by the lemmas below.
  ghost predicate SameDrain(o: Oracle, j: nat, s: Run<PipelineTask>, r: Run<PipelineTask>) {
    j < |s.contexts| <= |r.contexts| && forall n :: n == |s.contexts| ==> SameDrainFrom(o, j, s, r, n)
  }
  ghost predicate SameDrainFrom(o: Oracle, j: nat, s: Run<PipelineTask>, r: Run<PipelineTask>, n: nat)
    requires j < |s.contexts| <= |r.contexts|
  {
    n == |s.contexts| && Drain(o, j, s) == Drain(o, j, r) && SinksSize(r.sinks) <= SinksSize(s.sinks)
  }

  lemma DrainStart(o: Oracle, j: nat, s: Run<PipelineTask>)
    requires j < |s.contexts|
    ensures SameDrain(o, j, s, s)
  {
  }

  lemma PopSize(o: Oracle, j: nat, s: Run<PipelineTask>, r: Run<PipelineTask>)
    requires SameDrain(o, j, s, r) && r.sinks != []
    ensures var k := |r.sinks| - 1;
      Work(Link(Pointer, r.sinks[k]), r.(sinks := r.sinks[..k])) == Work(NoLink, r) <= Work(NoLink, s)
  {
    assert SameDrainFrom(o, j, s, r, |s.contexts|);
  }

  lemma DrainStep(o: Oracle, j: nat, s: Run<PipelineTask>, r: Run<PipelineTask>, r': Run<PipelineTask>)
    requires SameDrain(o, j, s, r) && r.sinks != []
    requires var k := |r.sinks| - 1; Executes(o, Link(Pointer, r.sinks[k]), Some(j), r.(sinks := r.sinks[..k]), r')
    ensures SameDrain(o, j, s, r') && Work(NoLink, r') < Work(NoLink, r)
  {
    assert SameDrainFrom(o, j, s, r, |s.contexts|);
    var k := |r.sinks| - 1;
    ExecutesMeans(o, Link(Pointer, r.sinks[k]), Some(j), r.(sinks := r.sinks[..k]), r');
  }

  lemma DrainEnd(o: Oracle, j: nat, s: Run<PipelineTask>, r: Run<PipelineTask>)
    requires SameDrain(o, j, s.(leaf := Some(j)), r) && r.sinks == []
    ensures Executes(o, NoLink, Some(j), s, r)
  {
    assert SameDrainFrom(o, j, s.(leaf := Some(j)), r, |s.contexts|);
    ExecutesMeans(o, NoLink, Some(j), s, r);
  }

  lemma Longer(a: seq<EventExecutionContext>, b: seq<EventExecutionContext>, c: seq<EventExecutionContext>)
    requires a <= b && b <= c
    ensures a <= c
  {
  }

  ghost predicate Bounded(l: Link<PipelineTask>, prev: Option<nat>, s: Run<PipelineTask>) {
    (prev.Some? ==> prev.value < |s.contexts|) && (l.NoLink? ==> prev.Some?)
  }

  // One turn of the interpreter: it ends the run in `s'`, or leaves the rest of it to a
  // run of `l'` behind `prev'`. Unfolded only by the lemmas below.
  ghost predicate Turn(o: Oracle, l: Link<PipelineTask>, prev: Option<nat>, s: Run<PipelineTask>, stopped: bool,
                       l': Link<PipelineTask>, prev': Option<nat>, s': Run<PipelineTask>) {
    && Work(l', s') < Work(l, s) && Bounded(l, prev, s) && (!stopped ==> Bounded(l', prev', s'))
    && forall n :: n == |s.contexts| ==> TurnFrom(o, l, prev, s, stopped, l', prev', s', n)
  }
  ghost predicate TurnFrom(o: Oracle, l: Link<PipelineTask>, prev: Option<nat>, s: Run<PipelineTask>, stopped: bool,
                           l': Link<PipelineTask>, prev': Option<nat>, s': Run<PipelineTask>, n: nat)
    requires Bounded(l, prev, s) && (!stopped ==> Bounded(l', prev', s'))
  {
    n == |s.contexts| && Executed(o, l, prev, s) == if stopped then s' else Executed(o, l', prev', s')
  }

  lemma TurnEnd(o: Oracle, l: Link<PipelineTask>, prev: Option<nat>, s: Run<PipelineTask>, stopped: bool,
                l': Link<PipelineTask>, prev': Option<nat>, s': Run<PipelineTask>, r: Run<PipelineTask>)
    requires Turn(o, l, prev, s, stopped, l', prev', s')
    requires if stopped then r == s' else Executes(o, l', prev', s', r)
    ensures Executes(o, l, prev, s, r)
  {
    assert TurnFrom(o, l, prev, s, stopped, l', prev', s', |s.contexts|);
    ExecutesMeans(o, l, prev, s, r);
    if !stopped { ExecutesMeans(o, l', prev', s', r); }
  }

  lemma TurnOf(o: Oracle, l: Link<PipelineTask>, prev: Option<nat>, s: Run<PipelineTask>)
    requires l.Link? && (prev.Some? ==> prev.value < |s.contexts|)
    requires var last := RunLast(l.tree, prev.None?); var v := o(|s.contexts|, last.event);
      !Stopped(EndState(v, last)) && v.SwitchTo? ==> NextLink(last, v).Link?
    ensures var last := RunLast(l.tree, prev.None?); var v := o(|s.contexts|, last.event);
      Turn(o, l, prev, s, Stopped(EndState(v, last)), NextLink(last, v), After(prev, |s.contexts|, v),
           Engine.Dispatch(o, l.tree, prev, s))
  {
    TurnSize(o, l, prev, s);
    TurnResult(o, l, prev, s);
  }

  lemma TurnSize(o: Oracle, l: Link<PipelineTask>, prev: Option<nat>, s: Run<PipelineTask>)
    requires l.Link? && (prev.Some? ==> prev.value < |s.contexts|)
    ensures var last := RunLast(l.tree, prev.None?); var v := o(|s.contexts|, last.event);
      Work(NextLink(last, v), Engine.Dispatch(o, l.tree, prev, s)) < Work(l, s)
  {
    NextIsSmaller(l.tree, prev.None?, o(|s.contexts|, RunLast(l.tree, prev.None?).event), s.sinks);
  }

  lemma TurnResult(o: Oracle, l: Link<PipelineTask>, prev: Option<nat>, s: Run<PipelineTask>)
    requires l.Link? && (prev.Some? ==> prev.value < |s.contexts|)
    ensures var last := RunLast(l.tree, prev.None?); var v := o(|s.contexts|, last.event);
      var s1 := Engine.Dispatch(o, l.tree, prev, s);
      var l' := NextLink(last, v); var prev' := After(prev, |s.contexts|, v);
      && (Stopped(EndState(v, last)) ==> Executed(o, l, prev, s) == s1)
      && (!Stopped(EndState(v, last)) && Bounded(l', prev', s1) ==>
          Executed(o, l, prev, s) == Executed(o, l', prev', s1))
  {
    ExecForm(o, l.tree, prev, s);
  }

  /** Runs one context and finds the task to go on with, and the context to put it behind. */
  method Advance(task: PipelineTask, p: Pipeline, q: SinkQueue, previous: EventExecutionContext?, w: World,
                 judges: Judges,
                 ghost h: Store<PipelineTask>, ghost l: Link<PipelineTask>, ghost prev: Option<nat>,
                 ghost s: Run<PipelineTask>)
    returns (stopped: bool, next: PipelineTask?, from: EventExecutionContext?,
             ghost l': Link<PipelineTask>, ghost prev': Option<nat>, ghost s': Run<PipelineTask>)
    requires InMemory(h) && LinkAt(h, l, task)
    requires Mirror(p, q, s) && SinksRun(h, s.sinks) && Precedes(p, previous, prev)
    modifies p, q, p.repr
    ensures InMemory(h) && Mirror(p, q, s') && SinksRun(h, s'.sinks)
    ensures Turn(OracleOf(w, judges), l, prev, s, stopped, l', prev', s')
    ensures !stopped ==> LinkAt(h, l', next) && (next == null ==> from != null) && Precedes(p, from, prev')
    ensures old(p.contexts) <= p.contexts && forall c :: c in p.repr && c !in old(p.repr) ==> fresh(c)
  {
    ghost var o, t, first := OracleOf(w, judges), l.tree, prev.None?;
    ghost var v := o(|s.contexts|, RunLast(t, first).event);
    var context, last, request := RunContext(task, p, q, previous, w, judges, h, t, prev, s);
    l', prev', s' := NextLink(RunLast(t, first), v), After(prev, |s.contexts|, v), Engine.Dispatch(o, t, prev, s);
    next, from := null, null;
    stopped := context.state == CancelledState || context.state == AbortedState;
    if !stopped {
      next := NextTask(context, last, request, judges, v, h, t, first);
      from := if request.Some? then previous else context;
    }
    TurnOf(o, l, prev, s);
  }

  /**
    `execute_task`: from a task, or from the end of a chain when there is none, it makes
    the run of the engine.
   */
  method ExecuteTask(task: PipelineTask?, p: Pipeline, q: SinkQueue, previous: EventExecutionContext?, w: World,
                     judges: Judges,
                     ghost h: Store<PipelineTask>, ghost l: Link<PipelineTask>, ghost prev: Option<nat>,
                     ghost s: Run<PipelineTask>)
    returns (ghost r: Run<PipelineTask>)
    requires InMemory(h) && LinkAt(h, l, task) && (task == null ==> previous != null)
    requires Mirror(p, q, s) && SinksRun(h, s.sinks) && Precedes(p, previous, prev)
    modifies p, q, p.repr
    ensures InMemory(h) && Mirror(p, q, r) && SinksRun(h, r.sinks)
    ensures Executes(OracleOf(w, judges), l, prev, s, r)
    ensures old(p.contexts) <= p.contexts && forall c :: c in p.repr && c !in old(p.repr) ==> fresh(c)
    decreases Work(l, s), if task == null then 3 else 0
  {
    if task == null {
      r := ClearSinks(p, q, previous, w, judges, h, prev.value, s);
    } else {
      var stopped, next, from;
      ghost var l', prev', s';
      stopped, next, from, l', prev', s' := Advance(task, p, q, previous, w, judges, h, l, prev, s);
      r := s';
      if stopped {
        TurnEnd(OracleOf(w, judges), l, prev, s, true, l', prev', s', r);
      } else {
        ghost var cs := p.contexts;
        r := ExecuteTask(next, p, q, from, w, judges, h, l', prev', s');
        TurnEnd(OracleOf(w, judges), l, prev, s, false, l', prev', s', r);
        Longer(old(p.contexts), cs, p.contexts);
      }
    }
  }

  /** Takes the last sink from the queue. */
  method PopSink(p: Pipeline, q: SinkQueue, ghost h: Store<PipelineTask>, ghost s: Run<PipelineTask>)
    returns (sink: PipelineTask, ghost l: Link<PipelineTask>, ghost s': Run<PipelineTask>)
    requires Mirror(p, q, s) && SinksRun(h, s.sinks) && q.tasks != []
    modifies q
    ensures s.sinks != [] && var k := |s.sinks| - 1; l == Link(Pointer, s.sinks[k]) && s' == s.(sinks := s.sinks[..k])
    ensures Mirror(p, q, s') && SinksRun(h, s'.sinks) && LinkAt(h, l, sink)
  {
    var k := |q.tasks| - 1;
    sink := q.tasks[k];
    l, s' := Link(Pointer, s.sinks[k]), s.(sinks := s.sinks[..k]);
    q.tasks := q.tasks[..k];
  }

  /** Runs the task at the end of the queue. */
  method ClearOne(p: Pipeline, q: SinkQueue, previous: EventExecutionContext, w: World, judges: Judges,
                  ghost h: Store<PipelineTask>, ghost j: nat, ghost s0: Run<PipelineTask>, ghost s: Run<PipelineTask>)
    returns (ghost r: Run<PipelineTask>)
    requires InMemory(h) && Mirror(p, q, s) && SinksRun(h, s.sinks) && Precedes(p, previous, Some(j))
    requires q.tasks != [] && SameDrain(OracleOf(w, judges), j, s0, s)
    modifies p, q, p.repr
    ensures InMemory(h) && Mirror(p, q, r) && SinksRun(h, r.sinks)
    ensures SameDrain(OracleOf(w, judges), j, s0, r) && Work(NoLink, r) < Work(NoLink, s)
    ensures old(p.contexts) <= p.contexts && forall c :: c in p.repr && c !in old(p.repr) ==> fresh(c)
    decreases Work(NoLink, s), 1
  {
    var sink;
    ghost var l, s1;
    sink, l, s1 := PopSink(p, q, h, s);
    PopSize(OracleOf(w, judges), j, s0, s);
    r := ExecuteTask(sink, p, q, previous, w, judges, h, l, Some(j), s1);
    DrainStep(OracleOf(w, judges), j, s0, s, r);
  }

  /** The loop that clears the sink queue, last in first out. */
  method ClearSinks(p: Pipeline, q: SinkQueue, previous: EventExecutionContext, w: World, judges: Judges,
                    ghost h: Store<PipelineTask>, ghost j: nat, ghost s: Run<PipelineTask>)
    returns (ghost r: Run<PipelineTask>)
    requires InMemory(h) && Mirror(p, q, s) && SinksRun(h, s.sinks) && Precedes(p, previous, Some(j))
    modifies p, q, p.repr
    ensures InMemory(h) && Mirror(p, q, r) && SinksRun(h, r.sinks)
    ensures Executes(OracleOf(w, judges), NoLink, Some(j), s, r)
    ensures old(p.contexts) <= p.contexts && forall c :: c in p.repr && c !in old(p.repr) ==> fresh(c)
    decreases Work(NoLink, s), 2
  {
    ghost var s0 := s.(leaf := Some(j));
    r := s0;
    DrainStart(OracleOf(w, judges), j, s0);
    while q.tasks != []
      invariant InMemory(h) && Mirror(p, q, r) && SinksRun(h, r.sinks)
      invariant SameDrain(OracleOf(w, judges), j, s0, r) && Work(NoLink, r) <= Work(NoLink, s)
      invariant old(p.contexts) <= p.contexts && forall c :: c in p.repr && c !in old(p.repr) ==> fresh(c)
      decreases Work(NoLink, r)
    {
      ghost var cs := p.contexts;
      r := ClearOne(p, q, previous, w, judges, h, j, s0, r);
      Longer(old(p.contexts), cs, p.contexts);
    }
    DrainEnd(OracleOf(w, judges), j, s, r);
  }
}
