/**
  Compilation preserves meaning: on the graph of a well-formed program, the interpreter
  dispatches exactly the groups that `Behaviour` gives, with the sink queue as the stack
  of what is still to be run.
 */
module Refinement {
  import opened Wrappers
  import opened Pointy
  import opened TaskTree
  import opened Programs
  import opened Queries
  import opened Verdicts
  import opened Semantics
  import opened Engine

  function TraceOf<N>(cs: seq<Context<N>>): (r: Trace)
    ensures |r| == |cs|
  {
    seq(|cs|, i requires 0 <= i < |cs| => cs[i].events)
  }

  lemma DispatchTrace<N>(o: Oracle, t: Tree<N>, prev: Option<nat>, s: Run<N>)
    requires prev.Some? ==> prev.value < |s.contexts|
    ensures TraceOf(Dispatch(o, t, prev, s).contexts) == TraceOf(s.contexts) + [RunEvents(t, prev.None?)]
  {
  }

  // ------------------------------------------------------------ trees of programs

  /** `t` is the compiled form of `p`. */
  ghost predicate Compiled<N>(t: Tree<N>, p: Program) {
    WellFormed(p) && Strip(t) == MarkedGraph(t.mark, p)
  }

  ghost predicate CompiledLink<N>(l: Link<N>, p: Option<Program>) {
    l.Link? == p.Some? && (l.Link? ==> Compiled(l.tree, p.value))
  }

  function RestOf(n: Next): Option<Program> {
    match n case Done => None case Then(_, p) => Some(p)
  }

  lemma GraphForm(m: Mark, p: Program)
    ensures MarkedGraph(m, p).mark == m
    ensures MarkedGraph(m, p) == match p.next {
      case Done => AtomTree(m, p.atom)
      case Then(op, rest) => Attach(AtomTree(m, p.atom), op, Graph(rest))
    }
  {
    match p.next
    case Done =>
    case Then(op, rest) => assert Graph(rest) == AndThen(AtomTree(Unmarked, rest.atom), rest.next);
  }

  lemma {:induction false} CaseLinkBody(cs: Cases, k: nat)
    ensures CaseLink(cs, k).Link? == CaseBody(cs, k).Some?
    ensures CaseLink(cs, k).Link? ==>
      CaseLink(cs, k).tree == MarkedGraph(CaseLink(cs, k).tree.mark, CaseBody(cs, k).value)
    ensures CaseLink(cs, k).Link? && WellFormedCases(cs) ==> LabelOp(CaseLink(cs, k).pipe)
  {
    match cs
    case NoCases =>
    case Case(j, op, body, more) =>
      GraphForm(Marked(j, op), body);
      CaseLinkBody(more, k);
  }

  lemma LinkOfCase<N>(l: Link<N>, cs: Cases, k: nat)
    requires StripLink(l) == CaseLink(cs, k) && WellFormedCases(cs)
    ensures CompiledLink(l, CaseBody(cs, k))
    ensures l.Link? ==> l.pipe != Parallelism
  {
    CaseLinkBody(cs, k);
  }

  /** The links of a compiled task, by the parts of the program they come from. */
  lemma CompiledParts<N>(t: Tree<N>, p: Program)
    requires Compiled(t, p)
    ensures t.event == p.atom.name && IsConditional(t) == !Plain(p.atom)
    ensures StripExtras(t.extras) == AtomTree(t.mark, p.atom).extras
    ensures Plain(p.atom) ==> t.sink.NoLink? && CompiledLink(t.succ, RestOf(p.next))
    ensures !Plain(p.atom) ==> CompiledLink(t.sink, RestOf(p.next))
    ensures !Plain(p.atom) ==> StripLink(t.fail) == CaseLink(p.atom.cases, 0)
    ensures !Plain(p.atom) ==> StripLink(t.succ) == CaseLink(p.atom.cases, 1)
    ensures Plain(p.atom) && t.succ.Link? ==> t.succ.pipe == p.next.op
  {
    var a := AtomTree(t.mark, p.atom);
    assert WellFormedAtom(p.atom) && WellFormedNext(p.next);
    AtomLinks(t.mark, p.atom, 0);
    ConditionalAtom(t.mark, p.atom);
    GraphForm(t.mark, p);
    StripAttach(t, Pointer, t);
    if p.next.Then? { GraphForm(Unmarked, p.next.rest); }
  }

  lemma CompiledBranches<N>(t: Tree<N>, p: Program, k: nat)
    requires Compiled(t, p)
    ensures StartsParallel(t) == StartsGroup(p)
    ensures !Plain(p.atom) ==> CompiledLink(t.fail, CaseBody(p.atom.cases, 0))
    ensures !Plain(p.atom) ==> CompiledLink(t.succ, CaseBody(p.atom.cases, 1))
    ensures k > 1 ==> CompiledLink(FindLink(t.extras, k), CaseBody(p.atom.cases, k))
    ensures k <= 1 ==> FindLink(t.extras, k).NoLink?
  {
    CompiledParts(t, p);
    AtomLinks(t.mark, p.atom, k);
    StripFindLink(t.extras, k);
    FindCustom(Entries(NoExtras, p.atom.cases), k);
    assert WellFormedCases(p.atom.cases);
    if !Plain(p.atom) {
      LinkOfCase(t.fail, p.atom.cases, 0);
      LinkOfCase(t.succ, p.atom.cases, 1);
    }
    if k > 1 { LinkOfCase(FindLink(t.extras, k), p.atom.cases, k); }
  }

  lemma {:induction false} CompiledGroup<N>(t: Tree<N>, p: Program)
    requires Compiled(t, p)
    ensures GroupEvents(t) == GroupNames(p) && Compiled(GroupLast(t), GroupEnd(p))
    decreases t
  {
    CompiledParts(t, p);
    CompiledBranches(t, p, 0);
    if StartsParallel(t) { CompiledGroup(t.succ.tree, p.next.rest); }
  }

  // ------------------------------------------------------------ the queue is a stack of programs

  ghost predicate Matches<N>(ts: seq<Tree<N>>, ps: seq<Program>) {
    |ts| == |ps| && forall i :: 0 <= i < |ts| ==> Compiled(ts[i], ps[i])
  }

  /** Runs the programs of a stack, the last one first. */
  function RunAll(o: Oracle, ps: seq<Program>, s: Progress): (r: Progress)
    ensures s.halted ==> r == s
  {
    if ps == [] then s
    else RunAll(o, ps[..|ps| - 1], Behaviour(o, ps[|ps| - 1], false, s))
  }

  lemma RunAllSnoc(o: Oracle, ps: seq<Program>, p: Program, s: Progress)
    ensures RunAll(o, ps + [p], s) == RunAll(o, ps, Behaviour(o, p, false, s))
  {
    assert (ps + [p])[..|ps + [p]| - 1] == ps;
  }

  /** How far a run is: the groups it has dispatched, and whether it is draining. */
  function Begin<N>(s: Run<N>): Progress { Progress(TraceOf(s.contexts), s.leaf.Some?, false) }

  /** A run that did not reach the end of a chain has halted. */
  function Ended<N>(o: Oracle, s: Run<N>): Progress
    requires LeafOk(s)
  {
    Progress(TraceOf(Finish(o, s).contexts), s.leaf.Some?, s.leaf.None?)
  }

  // ------------------------------------------------------------ leaves

  lemma {:induction false} ExecLeaf<N>(o: Oracle, t: Tree<N>, prev: Option<nat>, s: Run<N>)
    requires prev.Some? ==> prev.value < |s.contexts|
    requires LeafOk(s)
    ensures var r := Exec(o, t, prev, s); LeafOk(r) && (r.leaf == s.leaf || (r.leaf.Some? && r.sinks == []))
    decreases SinksSize(s.sinks) + Size(t), 0
  {
    var n := |s.contexts|;
    var last := RunLast(t, prev.None?);
    var v := o(n, last.event);
    var s1 := Dispatch(o, t, prev, s);
    NextIsSmaller(t, prev.None?, v, s.sinks);
    if Stopped(EndState(v, last)) {
    } else if v.SwitchTo? {
      ExecLeaf(o, NextLink(last, v).tree, prev, s1);
    } else {
      ContinueLeaf(o, NextLink(last, v), n, s1);
    }
  }
  lemma {:induction false} ContinueLeaf<N>(o: Oracle, l: Link<N>, prev: nat, s: Run<N>)
    requires prev < |s.contexts| && LeafOk(s)
    ensures var r := Continue(o, l, prev, s); LeafOk(r) && (r.leaf == s.leaf || (r.leaf.Some? && r.sinks == []))
    decreases SinksSize(s.sinks) + LinkSize(l), 2
  {
    match l
    case NoLink => DrainLeaf(o, prev, s.(leaf := Some(prev)));
    case Link(_, t) => ExecLeaf(o, t, Some(prev), s);
  }
  lemma {:induction false} DrainLeaf<N>(o: Oracle, prev: nat, s: Run<N>)
    requires prev < |s.contexts| && LeafOk(s) && s.leaf.Some?
    ensures var r := Drain(o, prev, s); LeafOk(r) && r.leaf.Some?
    decreases SinksSize(s.sinks), 1
  {
    if s.sinks != [] {
      var k := |s.sinks| - 1;
      var s1 := s.(sinks := s.sinks[..k]);
      ExecLeaf(o, s.sinks[k], Some(prev), s1);
      DrainLeaf(o, prev, Exec(o, s.sinks[k], Some(prev), s1));
    }
  }

  // ------------------------------------------------------------ one dispatch, on both sides

  lemma StopsAlike<N>(t: Tree<N>, p: Program, v: Verdict)
    requires Compiled(t, p)
    ensures Stopped(EndState(v, t)) == Stops(p.atom, v)
    ensures !Stops(p.atom, v) && Plain(p.atom) ==> !v.SwitchTo? && CompiledLink(NextLink(t, v), RestOf(p.next))
    ensures !Stops(p.atom, v) && !Plain(p.atom) ==> CompiledLink(NextLink(t, v), Chosen(p.atom, v))
  {
    CompiledParts(t, p);
    CompiledBranches(t, p, if v.SwitchTo? then v.key else 0);
  }

  lemma DispatchAlike<N>(o: Oracle, t: Tree<N>, p: Program, prev: Option<nat>, s: Run<N>)
    requires Compiled(t, p)
    requires prev.Some? ==> prev.value < |s.contexts|
    ensures Compiled(RunLast(t, prev.None?), RunEnd(p, prev.None?))
    ensures RunLast(t, prev.None?).event == RunEnd(p, prev.None?).atom.name
    ensures var b := Begin(s); Begin(Dispatch(o, t, prev, s)) == b.(trace := b.trace + [RunNames(p, prev.None?)])
  {
    CompiledGroup(t, p);
    CompiledParts(t, p);
    CompiledParts(GroupLast(t), GroupEnd(p));
    DispatchTrace(o, t, prev, s);
  }

  /** The stack after a dispatch. */
  function Pushed(p: Program, first: bool, ps: seq<Program>): seq<Program> {
    if QueuesRest(p, first) then ps + [p.next.rest] else ps
  }

  lemma QueueAlike<N>(t: Tree<N>, p: Program, first: bool, ts: seq<Tree<N>>, ps: seq<Program>)
    requires Compiled(t, p) && Matches(ts, ps)
    ensures Matches(Queue(t, first, ts), Pushed(p, first, ps))
  {
    CompiledParts(t, p);
  }

  function After(o: Oracle, p: Program, first: bool, s: Progress): Progress {
    if QueuesRest(p, first) then Behaviour(o, p.next.rest, false, s) else s
  }
  function Entered(o: Oracle, q: Option<Program>, s: Progress): Progress {
    match q case None => s.(drained := true) case Some(p) => Behaviour(o, p, false, s)
  }
  function Onward(a: Atom, n: Next, v: Verdict): Option<Program> {
    if Plain(a) then RestOf(n) else Chosen(a, v)
  }

  lemma BehaviourForm(o: Oracle, p: Program, first: bool, s: Progress)
    requires !s.halted
    ensures var end := RunEnd(p, first); var v := o(|s.trace|, end.atom.name);
      var s1 := s.(trace := s.trace + [RunNames(p, first)]);
      && (Stops(end.atom, v) ==>
          Behaviour(o, p, first, s) == if s.drained then After(o, p, first, s1) else s1.(halted := true))
      && (!Stops(end.atom, v) && v.SwitchTo? && !Plain(end.atom) ==>
          Behaviour(o, p, first, s) == After(o, p, first, Behaviour(o, Chosen(end.atom, v).value, first, s1)))
      && (!Stops(end.atom, v) && !v.SwitchTo? ==>
          Behaviour(o, p, first, s) == After(o, p, first, Entered(o, Onward(end.atom, end.next, v), s1)))
  {
  }

  lemma RunPushed(o: Oracle, p: Program, first: bool, ps: seq<Program>, s: Progress)
    ensures RunAll(o, Pushed(p, first, ps), s) == RunAll(o, ps, After(o, p, first, s))
  {
    if QueuesRest(p, first) { RunAllSnoc(o, ps, p.next.rest, s); }
  }

  // ------------------------------------------------------------ whole runs

  /** Running a compiled task and then the queue is running its program and then the stack. */
  lemma {:induction false} ExecBehaves<N>(o: Oracle, t: Tree<N>, p: Program, prev: Option<nat>, s: Run<N>,
                                          ps: seq<Program>)
    requires Compiled(t, p) && Matches(s.sinks, ps) && LeafOk(s)
    requires prev.Some? ==> prev.value < |s.contexts|
    ensures LeafOk(Exec(o, t, prev, s))
    ensures RunAll(o, ps, Behaviour(o, p, prev.None?, Begin(s))) == Ended(o, Exec(o, t, prev, s))
    decreases SinksSize(s.sinks) + Size(t), 0
  {
    ExecLeaf(o, t, prev, s);
    var n, first := |s.contexts|, prev.None?;
    var last, end := RunLast(t, first), RunEnd(p, first);
    var v := o(n, last.event);
    var s1, ps1 := Dispatch(o, t, prev, s), Pushed(p, first, ps);
    NextIsSmaller(t, first, v, s.sinks);
    DispatchAlike(o, t, p, prev, s);
    QueueAlike(t, p, first, s.sinks, ps);
    StopsAlike(last, end, v);
    BehaviourForm(o, p, first, Begin(s));
    RunPushed(o, p, first, ps, Begin(s1));
    if Stops(end.atom, v) {
      if s.leaf.Some? { DrainBehaves(o, s.leaf.value, s1, ps1); }
    } else if v.SwitchTo? {
      var b := Chosen(end.atom, v).value;
      ExecBehaves(o, NextLink(last, v).tree, b, prev, s1, ps1);
      RunPushed(o, p, first, ps, Behaviour(o, b, first, Begin(s1)));
    } else {
      var q := Onward(end.atom, end.next, v);
      ContinueBehaves(o, NextLink(last, v), q, n, s1, ps1);
      RunPushed(o, p, first, ps, Entered(o, q, Begin(s1)));
    }
  }

  lemma {:induction false} ContinueBehaves<N>(o: Oracle, l: Link<N>, q: Option<Program>, prev: nat, s: Run<N>,
                                              ps: seq<Program>)
    requires CompiledLink(l, q) && Matches(s.sinks, ps) && LeafOk(s) && prev < |s.contexts|
    ensures LeafOk(Continue(o, l, prev, s))
    ensures RunAll(o, ps, Entered(o, q, Begin(s))) == Ended(o, Continue(o, l, prev, s))
    decreases SinksSize(s.sinks) + LinkSize(l), 2
  {
    match l
    case NoLink =>
      DrainLeaf(o, prev, s.(leaf := Some(prev)));
      DrainBehaves(o, prev, s.(leaf := Some(prev)), ps);
    case Link(_, t) => ExecBehaves(o, t, q.value, Some(prev), s, ps);
  }

  lemma {:induction false} DrainBehaves<N>(o: Oracle, prev: nat, s: Run<N>, ps: seq<Program>)
    requires Matches(s.sinks, ps) && LeafOk(s) && s.leaf == Some(prev)
    ensures RunAll(o, ps, Begin(s)) == Progress(TraceOf(Drain(o, prev, s).contexts), true, false)
    decreases SinksSize(s.sinks), 1
  {
    if s.sinks != [] {
      var k := |s.sinks| - 1;
      var s1 := s.(sinks := s.sinks[..k]);
      ExecLeaf(o, s.sinks[k], Some(prev), s1);
      ExecBehaves(o, s.sinks[k], ps[k], Some(prev), s1, ps[..k]);
    }
  }

  // ------------------------------------------------------------ main results

  /** On a compiled program the interpreter does what `Behaviour` says, for all verdicts. */
  lemma RunBehaves<N>(o: Oracle, t: Tree<N>, p: Program)
    requires WellFormed(p) && Strip(t) == Graph(p)
    ensures var r := RunPipeline(o, t); var b := Behaviour(o, p, true, Start);
      TraceOf(r.contexts) == b.trace && r.leaf.None? == b.halted && (r.leaf.Some? ==> r.sinks == [])
  {
    GraphForm(Unmarked, p);
    ExecLeaf(o, t, None, EmptyRun());
    assert TraceOf<N>([]) == [];
    ExecBehaves(o, t, p, None, EmptyRun(), []);
  }

  /** A faithful program runs as it reads, and the sink queue ends empty. */
  lemma FaithfulRun<N>(o: Oracle, t: Tree<N>, p: Program)
    requires WellFormed(p) && Strip(t) == Graph(p) && FaithfulProgram(p)
    requires Meaning(o, p, Reading([], true)).going
    ensures TraceOf(RunPipeline(o, t).contexts) == Meaning(o, p, Reading([], true)).trace
    ensures RunPipeline(o, t).sinks == []
  {
    FirstAgrees(o, p, Start);
    RunBehaves(o, t, p);
  }

  /**
    Compilation preserves meaning exactly for the faithful programs: whatever the
    verdicts, as long as they stop nothing, the compiled graph dispatches the groups of
    the plain reading in its order.
   */
  lemma CompilationPreservesMeaning<N>(t: Tree<N>, p: Program)
    requires WellFormed(p) && Strip(t) == Graph(p)
    ensures FaithfulProgram(p) <==>
      forall o: Oracle :: Meaning(o, p, Reading([], true)).going ==>
        TraceOf(RunPipeline(o, t).contexts) == Meaning(o, p, Reading([], true)).trace
  {
    FaithfulIff(p);
    forall o: Oracle ensures TraceOf(RunPipeline(o, t).contexts) == Behaviour(o, p, true, Start).trace {
      RunBehaves(o, t, p);
    }
  }
}
