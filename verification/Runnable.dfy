/**
  What the interpreter needs to know of a graph in memory: the objects hold the fields
  of the tree, and custom branches are filed under 2 to 9.
 */
module Runnable {
  import opened Wrappers
  import opened Pointy
  import opened TaskTree
  import opened TaskStore
  import opened TaskGraph
  import opened TaskQueries
  import opened Queries

  // ------------------------------------------------------------ keys of custom branches

  predicate Keyed<N>(t: Tree<N>) {
    LinkKeyed(t.fail) && LinkKeyed(t.sink) && LinkKeyed(t.succ) && ExtrasKeyed(t.extras)
  }
  predicate LinkKeyed<N>(l: Link<N>) {
    match l case NoLink => true case Link(_, t) => Keyed(t)
  }
  predicate ExtrasKeyed<N>(x: Extras<N>) {
    match x case NoExtras => true case Extra(front, k, _, t) => ExtrasKeyed(front) && 1 < k < 10 && Keyed(t)
  }
  /** The same for the entries of a group, which may also be 0 and 1. */
  predicate EntriesKeyed<N>(x: Extras<N>) {
    match x case NoExtras => true case Extra(front, k, _, t) => EntriesKeyed(front) && k < 10 && Keyed(t)
  }
  predicate SpineKeyed<N>(s: Spine<N>) {
    match s case Last(a) => Keyed(a) case Step(a, _, rest) => Keyed(a) && SpineKeyed(rest)
  }

  lemma {:induction false} EntriesParts<N>(x: Extras<N>, k: nat)
    requires EntriesKeyed(x)
    ensures LinkKeyed(FindLink(x, k)) && ExtrasKeyed(Customs(x))
  {
    match x case NoExtras => case Extra(front, _, _, _) => EntriesParts(front, k);
  }

  lemma {:induction false} SpineTreeKeyed<N>(s: Spine<N>)
    requires SpineKeyed(s)
    ensures Keyed(SpineTree(s))
  {
    match s
    case Last(_) =>
    case Step(a, p, rest) =>
      SpineTreeKeyed(rest);
      assert LinkKeyed(Link(p, SpineTree(rest)));
  }

  lemma {:induction false} SnocKeyed<N>(s: Spine<N>, pipe: Pipe, r: Tree<N>)
    requires SpineKeyed(s) && Keyed(r)
    ensures SpineKeyed(Snoc(s, pipe, r))
  {
    match s case Last(_) => case Step(_, _, rest) => SnocKeyed(rest, pipe, r);
  }

  lemma {:induction false} TaskKeyed(e: Expr)
    requires IsTaskExpr(e) && LowerTask(e).Ok?
    ensures Keyed(LowerTask(e).value)
    decreases e, 0
  {
    match e
    case TaskName(_) =>
    case ConditionalBinOp(_, d) =>
      GroupKeyed(d);
      EntriesParts(LowerGroup(d).value, 0);
      EntriesParts(LowerGroup(d).value, 1);
  }
  lemma {:induction false} GroupKeyed(d: Dict)
    requires IsGroup(d) && LowerGroup(d).Ok?
    ensures EntriesKeyed(LowerGroup(d).value)
    decreases d, 0
  {
    match d
    case EmptyDict =>
    case Bind(front, _, v) => GroupKeyed(front); ChainKeyed(v); SpineTreeKeyed(LowerChain(v).value);
  }
  lemma {:induction false} ElemKeyed(e: Expr)
    requires IsElemExpr(e) && LowerElem(e).Ok?
    ensures Keyed(LowerElem(e).value)
    decreases e, 2
  {
    if e.BinOp? && e.left.Descriptor? { ElemKeyed(e.right); }
    else if e.BinOp? { TaskKeyed(if e.left.Factor? then e.right else e.left); }
    else { TaskKeyed(e); }
  }
  /** Every compiled graph files its custom branches under 2 to 9. */
  lemma {:induction false} ChainKeyed(e: Expr)
    requires IsChainExpr(e) && LowerChain(e).Ok?
    ensures SpineKeyed(LowerChain(e).value)
    decreases e, 3
  {
    if e.BinOp? && e.op != Retry && !e.left.Descriptor? {
      ChainKeyed(e.left);
      ElemKeyed(e.right);
      SnocKeyed(LowerChain(e.left).value, e.op, LowerElem(e.right).value);
    } else {
      ElemKeyed(e);
    }
  }

  lemma {:induction false} StripKeyed<N>(t: Tree<N>)
    ensures Keyed(Strip(t)) == Keyed(t)
    decreases t
  {
    StripLinkKeyed(t.fail); StripLinkKeyed(t.sink); StripLinkKeyed(t.succ); StripExtrasKeyed(t.extras);
  }
  lemma {:induction false} StripLinkKeyed<N>(l: Link<N>)
    ensures LinkKeyed(StripLink(l)) == LinkKeyed(l)
    decreases l
  {
    match l case NoLink => case Link(_, t) => StripKeyed(t);
  }
  lemma {:induction false} StripExtrasKeyed<N>(x: Extras<N>)
    ensures ExtrasKeyed(StripExtras(x)) == ExtrasKeyed(x)
    decreases x
  {
    match x case NoExtras => case Extra(front, _, _, t) => StripExtrasKeyed(front); StripKeyed(t);
  }

  // ------------------------------------------------------------ subtrees in memory

  ghost predicate RunsIn(h: Store<PipelineTask>, t: Tree<PipelineTask>) {
    && t.node in h && var p := h[t.node].parent;
    && Represents(h, t, p) && Distinct(t) && Keyed(t) && (p.Some? ==> p.value in h)
  }

  // As above, unfolded only by the lemmas below.
  ghost predicate Runs(h: Store<PipelineTask>, t: Tree<PipelineTask>) {
    t.node in h && forall ns :: ns == h.Keys ==> RunsIn(Restrict(h, ns), t)
  }

  lemma RunsMeans(h: Store<PipelineTask>, t: Tree<PipelineTask>)
    ensures Runs(h, t) <==> RunsIn(h, t)
  {
    assert Restrict(h, h.Keys) == h;
  }

  /** The task object a link leads to, or null. */
  ghost predicate LinkAt(h: Store<PipelineTask>, l: Link<PipelineTask>, task: PipelineTask?) {
    match l case NoLink => task == null case Link(_, t) => task == t.node && Runs(h, t)
  }

  lemma LinkRuns(h: Store<PipelineTask>, l: Link<PipelineTask>, slot: Slot<PipelineTask>, owner: PipelineTask)
    requires LinkRep(h, l, slot, owner) && DistinctLink(l) && LinkKeyed(l) && owner in h
    ensures l.NoLink? ==> slot == Slot(None, None)
    ensures l.Link? ==> slot == Slot(Some(l.tree.node), Some(l.pipe)) && Runs(h, l.tree)
  {
    if l.Link? { RunsMeans(h, l.tree); }
  }

  lemma RunsParts(h: Store<PipelineTask>, t: Tree<PipelineTask>)
    requires InMemory(h) && Runs(h, t)
    ensures t.node.event == t.event && t.node.IsConditionalTask() == IsConditional(t)
    ensures LinkAt(h, t.fail, t.node.onFailure) && LinkAt(h, t.sink, t.node.sinkNode)
    ensures LinkAt(h, t.succ, t.node.onSuccess)
    ensures (t.node.successPipe == Some(Parallelism)) == StartsParallel(t)
  {
    RunsMeans(h, t);
    var f := h[t.node];
    assert t.node.View() == f;
    LinkRuns(h, t.fail, f.fail, t.node);
    LinkRuns(h, t.sink, f.sink, t.node);
    LinkRuns(h, t.succ, f.succ, t.node);
    assert ExtrasRep(h, t.extras, f.descriptors, t.node);
  }

  lemma {:induction false} ConfigRuns(h: Store<PipelineTask>, x: Extras<PipelineTask>, ds: seq<Config<PipelineTask>>,
                                      owner: PipelineTask, key: nat)
    requires ExtrasRep(h, x, ds, owner) && DistinctExtras(x) && ExtrasKeyed(x) && owner in h
    ensures var c := FindConfig(ds, key); LinkAt(h, FindLink(x, key), if c.Some? then c.value.task else null)
    ensures FindLink(x, key).Link? == FindConfig(ds, key).Some?
    ensures FindLink(x, key).Link? ==> 1 < key < 10
  {
    match x
    case NoExtras =>
    case Extra(front, k, _, t) =>
      if k == key { RunsMeans(h, t); } else { ConfigRuns(h, front, ds[..|ds| - 1], owner, key); }
  }

  /** A descriptor that is configured leads to its branch. */
  lemma DescriptorRuns(h: Store<PipelineTask>, t: Tree<PipelineTask>, key: nat)
    requires InMemory(h) && Runs(h, t)
    ensures var c := FindConfig(t.node.descriptors, key);
      LinkAt(h, FindLink(t.extras, key), if c.Some? then c.value.task else null)
    ensures FindLink(t.extras, key).Link? == FindConfig(t.node.descriptors, key).Some?
    ensures FindLink(t.extras, key).Link? ==> 1 < key < 10
  {
    RunsMeans(h, t);
    assert t.node.View() == h[t.node];
    ConfigRuns(h, t.extras, h[t.node].descriptors, t.node, key);
  }

  lemma {:induction false} GroupMembers(h: Store<PipelineTask>, t: Tree<PipelineTask>, n: PipelineTask)
    requires RunsIn(h, t) && n in GroupNodes(t)
    ensures n in h && (h[n].parent.Some? ==> h[n].parent.value in h)
    ensures n in Nodes(t)
    decreases t
  {
    if n != t.node {
      LinkRuns(h, t.succ, h[t.node].succ, t.node);
      RunsMeans(h, t.succ.tree);
      GroupMembers(h, t.succ.tree, n);
    }
  }

  /** In memory too, exactly the last task of a gathered group passes the test for the last one. */
  lemma LastInMemory(h: Store<PipelineTask>, t: Tree<PipelineTask>, n: PipelineTask)
    requires InMemory(h) && Runs(h, t) && StartsParallel(t) && n in GroupNodes(t)
    ensures (GetPointerType(n) == Some(Parallelism) && n.successPipe != Some(Parallelism)) <==> n == GroupLast(t).node
  {
    RunsMeans(h, t);
    GroupMembers(h, t, n);
    assert n.View() == h[n];
    PointerInMemory(h, n);
    OnlyLastLooksLast(h, t, h[t.node].parent, n);
  }

  lemma {:induction false} GroupLastRuns(h: Store<PipelineTask>, t: Tree<PipelineTask>)
    requires RunsIn(h, t)
    ensures RunsIn(h, GroupLast(t))
    decreases t
  {
    if StartsParallel(t) {
      LinkRuns(h, t.succ, h[t.node].succ, t.node);
      RunsMeans(h, t.succ.tree);
      GroupLastRuns(h, t.succ.tree);
    }
  }

  /** A group has no task twice. */
  lemma {:induction false} GroupOnce<N>(t: Tree<N>)
    requires Distinct(t)
    ensures forall i, j :: 0 <= i < j < |GroupNodes(t)| ==> GroupNodes(t)[i] != GroupNodes(t)[j]
    decreases t
  {
    if StartsParallel(t) {
      GroupOnce(t.succ.tree);
      GroupLastIn(t.succ.tree);
      assert LinkNodes(t.succ) == Nodes(t.succ.tree);
    }
  }
}
