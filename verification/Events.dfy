/**
  The events of a run are the events of the task objects it dispatches.
 */
module Events {
  import opened Wrappers
  import opened Pointy
  import opened TaskTree
  import opened TaskStore
  import opened TaskGraph
  import opened Queries
  import opened Verdicts
  import opened Engine

  /** The events of a list of task objects. */
  function EventsOf(tasks: seq<PipelineTask>): (r: seq<string>)
    ensures |r| == |tasks| && forall i :: 0 <= i < |tasks| ==> r[i] == tasks[i].event
  {
    seq(|tasks|, i requires 0 <= i < |tasks| => tasks[i].event)
  }

  /** Every node of a tree has the event that the tree gives it. */
  ghost predicate Named(t: Tree<PipelineTask>) {
    && t.node.event == t.event && LinkNamed(t.fail) && LinkNamed(t.sink) && LinkNamed(t.succ) && ExtrasNamed(t.extras)
  }
  ghost predicate LinkNamed(l: Link<PipelineTask>) {
    match l case NoLink => true case Link(_, t) => Named(t)
  }
  ghost predicate ExtrasNamed(x: Extras<PipelineTask>) {
    match x case NoExtras => true case Extra(front, _, _, t) => ExtrasNamed(front) && Named(t)
  }

  lemma {:induction false} TreeNamed(h: Store<PipelineTask>, t: Tree<PipelineTask>, parent: Option<PipelineTask>)
    requires InMemory(h) && Represents(h, t, parent)
    ensures Named(t)
    decreases t
  {
    var f := h[t.node];
    assert t.node.View() == f;
    ChildNamed(h, t.fail, f.fail, t.node);
    ChildNamed(h, t.sink, f.sink, t.node);
    ChildNamed(h, t.succ, f.succ, t.node);
    BranchesNamed(h, t.extras, f.descriptors, t.node);
  }
  lemma {:induction false} ChildNamed(
    h: Store<PipelineTask>, l: Link<PipelineTask>, slot: Slot<PipelineTask>, owner: PipelineTask)
    requires InMemory(h) && LinkRep(h, l, slot, owner)
    ensures LinkNamed(l)
    decreases l
  {
    match l case NoLink => case Link(_, t) => TreeNamed(h, t, Some(owner));
  }
  lemma {:induction false} BranchesNamed(
    h: Store<PipelineTask>, x: Extras<PipelineTask>, ds: seq<Config<PipelineTask>>, owner: PipelineTask)
    requires InMemory(h) && ExtrasRep(h, x, ds, owner)
    ensures ExtrasNamed(x)
    decreases x
  {
    match x case NoExtras =>
    case Extra(front, _, _, t) =>
      BranchesNamed(h, front, ds[..|ds| - 1], owner);
      TreeNamed(h, t, Some(owner));
  }

  lemma {:induction false} FoundNamed(x: Extras<PipelineTask>, k: nat)
    requires ExtrasNamed(x)
    ensures LinkNamed(FindLink(x, k))
  {
    match x case NoExtras => case Extra(front, _, _, _) => FoundNamed(front, k);
  }

  lemma {:induction false} GroupNamed(t: Tree<PipelineTask>)
    requires Named(t)
    ensures EventsOf(GroupNodes(t)) == GroupEvents(t) && Named(GroupLast(t))
  {
    if StartsParallel(t) { GroupNamed(t.succ.tree); }
  }

  /** The contexts of a run carry the events of their tasks; what is queued is named too. */
  ghost predicate RunNamed(s: Run<PipelineTask>) {
    && (forall i :: 0 <= i < |s.contexts| ==> EventsOf(s.contexts[i].tasks) == s.contexts[i].events)
    && (forall i :: 0 <= i < |s.sinks| ==> Named(s.sinks[i]))
  }

  lemma DispatchNamed(o: Oracle, t: Tree<PipelineTask>, prev: Option<nat>, s: Run<PipelineTask>)
    requires prev.Some? ==> prev.value < |s.contexts|
    requires Named(t) && RunNamed(s)
    ensures RunNamed(Dispatch(o, t, prev, s)) && Named(RunLast(t, prev.None?))
    ensures LinkNamed(NextLink(RunLast(t, prev.None?), o(|s.contexts|, RunLast(t, prev.None?).event)))
  {
    GroupNamed(t);
    var last := RunLast(t, prev.None?);
    var v := o(|s.contexts|, last.event);
    if v.SwitchTo? { FoundNamed(last.extras, v.key); }
    assert EventsOf([t.node]) == [t.event];
  }

  lemma {:induction false} ExecNamed(o: Oracle, t: Tree<PipelineTask>, prev: Option<nat>, s: Run<PipelineTask>)
    requires prev.Some? ==> prev.value < |s.contexts|
    requires Named(t) && RunNamed(s)
    ensures RunNamed(Exec(o, t, prev, s))
    decreases SinksSize(s.sinks) + Size(t), 0
  {
    var last := RunLast(t, prev.None?);
    var v := o(|s.contexts|, last.event);
    var s1 := Dispatch(o, t, prev, s);
    NextIsSmaller(t, prev.None?, v, s.sinks);
    DispatchNamed(o, t, prev, s);
    if Stopped(EndState(v, last)) {
    } else if v.SwitchTo? {
      ExecNamed(o, NextLink(last, v).tree, prev, s1);
    } else {
      ContinueNamed(o, NextLink(last, v), |s.contexts|, s1);
    }
  }
  lemma {:induction false} ContinueNamed(o: Oracle, l: Link<PipelineTask>, prev: nat, s: Run<PipelineTask>)
    requires prev < |s.contexts| && LinkNamed(l) && RunNamed(s)
    ensures RunNamed(Continue(o, l, prev, s))
    decreases SinksSize(s.sinks) + LinkSize(l), 2
  {
    match l
    case NoLink => DrainNamed(o, prev, s.(leaf := Some(prev)));
    case Link(_, t) => ExecNamed(o, t, Some(prev), s);
  }
  lemma {:induction false} DrainNamed(o: Oracle, prev: nat, s: Run<PipelineTask>)
    requires prev < |s.contexts| && RunNamed(s)
    ensures RunNamed(Drain(o, prev, s))
    decreases SinksSize(s.sinks), 1
  {
    if s.sinks != [] {
      var k := |s.sinks| - 1;
      var s1 := s.(sinks := s.sinks[..k]);
      ExecNamed(o, s.sinks[k], Some(prev), s1);
      DrainNamed(o, prev, Exec(o, s.sinks[k], Some(prev), s1));
    }
  }

  // ------------------------------------------------------------ unordered lists

  /** Taking a task out of a list takes its event out of the events. */
  lemma WithoutTask(a: seq<PipelineTask>, x: PipelineTask) returns (rest: seq<PipelineTask>)
    requires x in a
    ensures multiset(a) == multiset(rest) + multiset{x} && |rest| == |a| - 1
    ensures multiset(EventsOf(a)) == multiset(EventsOf(rest)) + multiset{x.event}
  {
    var i :| 0 <= i < |a| && a[i] == x;
    rest := a[..i] + a[i + 1..];
    assert a == a[..i] + [x] + a[i + 1..];
    var e := EventsOf(a);
    assert e == e[..i] + [x.event] + e[i + 1..];
    assert EventsOf(rest) == e[..i] + e[i + 1..];
  }

  lemma Cancel<T>(a: multiset<T>, b: multiset<T>, x: T)
    requires a + multiset{x} == b + multiset{x}
    ensures a == b
  {
    assert a == (a + multiset{x}) - multiset{x} && b == (b + multiset{x}) - multiset{x};
  }

  /** Lists of the same tasks have the same events. */
  lemma {:induction false} SameEvents(a: seq<PipelineTask>, b: seq<PipelineTask>)
    requires multiset(a) == multiset(b)
    ensures multiset(EventsOf(a)) == multiset(EventsOf(b))
    decreases |a|
  {
    if a == [] {
      assert |b| == |multiset(b)| == 0;
      assert EventsOf(a) == EventsOf(b);
    } else {
      var x := a[0];
      assert x in multiset(a) && x in multiset(b);
      var a' := WithoutTask(a, x);
      var b' := WithoutTask(b, x);
      Cancel(multiset(a'), multiset(b'), x);
      SameEvents(a', b');
    }
  }
}
