/**
  The queries of a task object, in memory.
 */
module TaskQueries {
  import opened Wrappers
  import opened Pointy
  import opened TaskTree
  import opened TaskStore
  import opened TaskGraph
  import opened Queries

  // ------------------------------------------------------------ traversal

  /** `get_children`. */
  function GetChildren(task: PipelineTask): seq<PipelineTask>
    reads task
  {
    (if task.onFailure != null then [task.onFailure] else [])
    + (if task.sinkNode != null then [task.sinkNode] else [])
    + (if task.onSuccess != null then [task.onSuccess] else [])
    + Tasks(task.descriptors)
  }

  ghost function LinkTrees(l: Link<PipelineTask>): seq<Tree<PipelineTask>> {
    match l case NoLink => [] case Link(_, t) => [t]
  }
  ghost function ExtrasTrees(x: Extras<PipelineTask>): seq<Tree<PipelineTask>> {
    match x case NoExtras => [] case Extra(front, _, _, t) => ExtrasTrees(front) + [t]
  }
  ghost function ChildTrees(t: Tree<PipelineTask>): seq<Tree<PipelineTask>> {
    LinkTrees(t.fail) + LinkTrees(t.sink) + LinkTrees(t.succ) + ExtrasTrees(t.extras)
  }
  ghost function Orders(ts: seq<Tree<PipelineTask>>): seq<PipelineTask> {
    if ts == [] then [] else Orders(ts[..|ts| - 1]) + Preorder(ts[|ts| - 1])
  }
  function Roots(ts: seq<Tree<PipelineTask>>): (r: seq<PipelineTask>)
    ensures |r| == |ts| && forall i :: 0 <= i < |ts| ==> r[i] == ts[i].node
  {
    seq(|ts|, i requires 0 <= i < |ts| => ts[i].node)
  }

  lemma AssocOrders<T>(a: seq<T>, b: seq<T>, c: seq<T>)
    ensures (a + b) + c == a + (b + c)
  {
  }

  lemma {:induction false} OrdersConcat(a: seq<Tree<PipelineTask>>, b: seq<Tree<PipelineTask>>)
    ensures Orders(a + b) == Orders(a) + Orders(b)
  {
    if b == [] {
      assert a + b == a;
    } else {
      var front, last := b[..|b| - 1], b[|b| - 1];
      assert (a + b)[..|a + b| - 1] == a + front;
      OrdersConcat(a, front);
      AssocOrders(Orders(a), Orders(front), Preorder(last));
    }
  }

  lemma {:induction false} ExtrasOrders(x: Extras<PipelineTask>)
    ensures Orders(ExtrasTrees(x)) == ExtrasOrder(x)
  {
    match x case NoExtras =>
    case Extra(front, _, _, t) =>
      ExtrasOrders(front);
      assert ExtrasTrees(x)[..|ExtrasTrees(x)| - 1] == ExtrasTrees(front);
  }

  lemma LinkOrders(l: Link<PipelineTask>)
    ensures Orders(LinkTrees(l)) == LinkOrder(l)
  {
    if l.Link? { assert LinkTrees(l)[..0] == []; }
  }

  lemma RegroupOrders<T>(n: seq<T>, a: seq<T>, b: seq<T>, c: seq<T>, d: seq<T>)
    ensures n + a + b + c + d == n + (a + b + c + d)
  {
  }

  lemma ChildOrders(t: Tree<PipelineTask>)
    ensures Preorder(t) == [t.node] + Orders(ChildTrees(t))
  {
    LinkOrders(t.fail); LinkOrders(t.sink); LinkOrders(t.succ); ExtrasOrders(t.extras);
    RegroupOrders([t.node], LinkOrder(t.fail), LinkOrder(t.sink), LinkOrder(t.succ), ExtrasOrder(t.extras));
    OrdersConcat(LinkTrees(t.fail), LinkTrees(t.sink));
    OrdersConcat(LinkTrees(t.fail) + LinkTrees(t.sink), LinkTrees(t.succ));
    OrdersConcat(LinkTrees(t.fail) + LinkTrees(t.sink) + LinkTrees(t.succ), ExtrasTrees(t.extras));
  }

  // A subtree in its store, unfolded only by the lemmas about it.
  ghost predicate Sub(h: Store<PipelineTask>, t: Tree<PipelineTask>, parent: Option<PipelineTask>) {
    forall ns :: ns == h.Keys ==> Represents(Restrict(h, ns), t, parent)
  }

  lemma SubRepresents(h: Store<PipelineTask>, t: Tree<PipelineTask>, parent: Option<PipelineTask>)
    ensures Sub(h, t, parent) <==> Represents(h, t, parent)
  {
    assert Restrict(h, h.Keys) == h;
  }

  /** The trees in `ts` hang under `owner` and are no larger than `bound`. */
  ghost predicate Under(h: Store<PipelineTask>, ts: seq<Tree<PipelineTask>>, owner: PipelineTask, bound: nat) {
    forall i :: 0 <= i < |ts| ==> Sub(h, ts[i], Some(owner)) && Size(ts[i]) <= bound
  }

  lemma LinkUnder(h: Store<PipelineTask>, l: Link<PipelineTask>, slot: Slot<PipelineTask>, owner: PipelineTask)
    requires LinkRep(h, l, slot, owner)
    ensures Under(h, LinkTrees(l), owner, LinkSize(l))
    ensures Roots(LinkTrees(l)) == if slot.target.Some? then [slot.target.value] else []
  {
    if l.Link? { SubRepresents(h, l.tree, Some(owner)); }
  }

  function Tasks(ds: seq<Config<PipelineTask>>): (r: seq<PipelineTask>)
    ensures |r| == |ds| && forall i :: 0 <= i < |ds| ==> r[i] == ds[i].task
  {
    seq(|ds|, i requires 0 <= i < |ds| => ds[i].task)
  }

  lemma {:induction false} ExtrasUnder(h: Store<PipelineTask>, x: Extras<PipelineTask>,
                                       ds: seq<Config<PipelineTask>>, owner: PipelineTask)
    requires ExtrasRep(h, x, ds, owner)
    ensures Under(h, ExtrasTrees(x), owner, ExtrasSize(x)) && Roots(ExtrasTrees(x)) == Tasks(ds)
  {
    match x case NoExtras =>
    case Extra(front, _, _, t) =>
      ExtrasUnder(h, front, ds[..|ds| - 1], owner);
      SubRepresents(h, t, Some(owner));
      assert Tasks(ds)[..|ds| - 1] == Tasks(ds[..|ds| - 1]) == Roots(ExtrasTrees(front));
      assert Roots(ExtrasTrees(x)) == Roots(ExtrasTrees(front)) + [t.node];
  }

  lemma UnderConcat(h: Store<PipelineTask>, a: seq<Tree<PipelineTask>>, b: seq<Tree<PipelineTask>>,
                    owner: PipelineTask, m: nat, n: nat)
    requires Under(h, a, owner, m) && Under(h, b, owner, n)
    ensures Under(h, a + b, owner, m + n) && Roots(a + b) == Roots(a) + Roots(b)
  {
  }

  lemma ChildrenOf(h: Store<PipelineTask>, t: Tree<PipelineTask>, parent: Option<PipelineTask>)
    requires InMemory(h) && Sub(h, t, parent)
    ensures GetChildren(t.node) == Roots(ChildTrees(t)) && Under(h, ChildTrees(t), t.node, Size(t) - 1)
  {
    SubRepresents(h, t, parent);
    var f := h[t.node];
    assert t.node.View() == f;
    LinkUnder(h, t.fail, f.fail, t.node);
    LinkUnder(h, t.sink, f.sink, t.node);
    LinkUnder(h, t.succ, f.succ, t.node);
    ExtrasUnder(h, t.extras, f.descriptors, t.node);
    var a, b, c, d := LinkTrees(t.fail), LinkTrees(t.sink), LinkTrees(t.succ), ExtrasTrees(t.extras);
    UnderConcat(h, a, b, t.node, LinkSize(t.fail), LinkSize(t.sink));
    UnderConcat(h, a + b, c, t.node, LinkSize(t.fail) + LinkSize(t.sink), LinkSize(t.succ));
    UnderConcat(h, a + b + c, d, t.node, LinkSize(t.fail) + LinkSize(t.sink) + LinkSize(t.succ), ExtrasSize(t.extras));
  }

  lemma OrdersSnoc(ts: seq<Tree<PipelineTask>>, i: nat)
    requires i < |ts|
    ensures Orders(ts[..i + 1]) == Orders(ts[..i]) + Preorder(ts[i])
  {
    assert ts[..i + 1][..i] == ts[..i];
  }

  /** `bf_traversal`: the node, then the traversals of its children, one after the other. */
  method BfTraversal(node: PipelineTask, ghost h: Store<PipelineTask>, ghost t: Tree<PipelineTask>,
                     ghost parent: Option<PipelineTask>)
    returns (nodes: seq<PipelineTask>)
    requires InMemory(h) && Sub(h, t, parent) && node == t.node
    ensures nodes == Preorder(t)
    decreases Size(t), 1
  {
    ChildrenOf(h, t, parent);
    var below := TraverseChildren(GetChildren(node), h, ChildTrees(t), node, Size(t));
    ChildOrders(t);
    nodes := [node] + below;
  }

  method TraverseChildren(children: seq<PipelineTask>, ghost h: Store<PipelineTask>,
                          ghost trees: seq<Tree<PipelineTask>>, ghost owner: PipelineTask, ghost bound: nat)
    returns (nodes: seq<PipelineTask>)
    requires InMemory(h) && children == Roots(trees) && bound > 0 && Under(h, trees, owner, bound - 1)
    ensures nodes == Orders(trees)
    decreases bound, 0
  {
    nodes := [];
    var i := 0;
    while i < |children|
      invariant 0 <= i <= |children| == |trees|
      invariant nodes == Orders(trees[..i])
    {
      var below := BfTraversal(children[i], h, trees[i], Some(owner));
      OrdersSnoc(trees, i);
      nodes := nodes + below;
      i := i + 1;
    }
    assert trees[..i] == trees;
  }

  /** `get_task_count`: the length of the traversal from the root. */
  method GetTaskCount(task: PipelineTask, ghost p: Piece) returns (count: nat)
    requires InMemory(p.h) && Good(p) && task in Nodes(p.t)
    ensures count == Size(p.t)
  {
    GoodHolds(p);
    SubRepresents(p.h, p.t, None);
    var root := task.GetRoot(p.h, p.t);
    var nodes := BfTraversal(root, p.h, p.t, None);
    PreorderNodes(p.t);
    count := |nodes|;
  }

  // ------------------------------------------------------------ operators

  /** `get_pointer_type_to_this_event`. */
  function GetPointerType(task: PipelineTask): Option<Pipe>
    reads task, task.parentNode
  {
    var g := task.parentNode;
    if g == null then None
    else if g.onSuccess == task then g.successPipe
    else if g.onFailure == task then g.failurePipe
    else if g.sinkNode == task then g.sinkPipe
    else if task.mark.Unmarked? then None
    else match FindConfig(g.descriptors, task.mark.key)
      case Some(c) => Some(c.pipe)
      case None => Some(task.mark.pipe)
  }

  lemma PointerInMemory(h: Store<PipelineTask>, n: PipelineTask)
    requires InMemory(h) && n in h && (n.parentNode != null ==> n.parentNode in h)
    ensures GetPointerType(n) == PointerIn(h, n)
  {
    assert n.View() == h[n];
    if n.parentNode != null { assert n.parentNode.View() == h[n.parentNode]; }
  }
}
