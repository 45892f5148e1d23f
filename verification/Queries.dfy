/**
  Questions asked of a task graph: which operator leads to a task, and which tasks form
  a parallel group. They are answered from the fields of the nodes; the lemmas say what
  the answers are on the graph of a tree.
 */
module Queries {
  import opened Wrappers
  import opened Pointy
  import opened TaskTree
  import opened TaskStore

  function FindConfig<N>(ds: seq<Config<N>>, key: nat): Option<Config<N>> {
    if ds == [] then None
    else if ds[|ds| - 1].key == key then Some(ds[|ds| - 1])
    else FindConfig(ds[..|ds| - 1], key)
  }

  /** `get_pointer_type_to_this_event`, on the fields of a task and of its parent. */
  ghost function PointerType<N>(n: N, f: Fields<N>, parent: Option<Fields<N>>): Option<Pipe> {
    if parent.None? then None
    else
      var g := parent.value;
      if g.succ.target == Some(n) then g.succ.pipe
      else if g.fail.target == Some(n) then g.fail.pipe
      else if g.sink.target == Some(n) then g.sink.pipe
      else if f.mark.Unmarked? then None
      else match FindConfig(g.descriptors, f.mark.key)
        case Some(c) => Some(c.pipe)
        case None => Some(f.mark.pipe)
  }

  ghost function PointerIn<N>(h: Store<N>, n: N): Option<Pipe>
    requires n in h
  {
    PointerType(n, h[n], if h[n].parent.Some? && h[n].parent.value in h then Some(h[h[n].parent.value]) else None)
  }

  /** Every custom branch carries the label and operator it is filed under, once. */
  ghost predicate WellMarked<N>(t: Tree<N>) {
    && LinkMarked(t.fail) && LinkMarked(t.sink) && LinkMarked(t.succ)
    && ExtrasMarked(t.extras) && UniqueKeys(t.extras)
  }
  ghost predicate LinkMarked<N>(l: Link<N>) {
    match l case NoLink => true case Link(_, t) => WellMarked(t)
  }
  ghost predicate ExtrasMarked<N>(x: Extras<N>) {
    match x case NoExtras => true
    case Extra(front, k, p, t) => ExtrasMarked(front) && t.mark == Marked(k, p) && WellMarked(t)
  }

  lemma {:induction false} PartsMarked<N>(x: Extras<N>, k: nat)
    requires ExtrasMarked(x)
    ensures LinkMarked(FindLink(x, k))
  {
    match x case NoExtras => case Extra(front, _, _, _) => PartsMarked(front, k);
  }

  /** Each task of `t` is answered with the operator of the link that leads to it. */
  ghost predicate Pointers<N>(h: Store<N>, t: Tree<N>, o: Option<Pipe>) {
    && t.node in h && PointerIn(h, t.node) == o
    && LinkPointers(h, t.fail) && LinkPointers(h, t.sink) && LinkPointers(h, t.succ)
    && ExtrasPointers(h, t.extras)
  }
  ghost predicate LinkPointers<N>(h: Store<N>, l: Link<N>) {
    match l case NoLink => true case Link(p, t) => Pointers(h, t, Some(p))
  }
  ghost predicate ExtrasPointers<N>(h: Store<N>, x: Extras<N>) {
    match x case NoExtras => true
    case Extra(front, _, p, t) => ExtrasPointers(h, front) && Pointers(h, t, Some(p))
  }

  lemma {:induction false} PointersHold<N>(h: Store<N>, t: Tree<N>, parent: Option<N>)
    requires Represents(h, t, parent) && Distinct(t) && WellMarked(t)
    ensures Pointers(h, t, PointerIn(h, t.node))
    decreases t
  {
    var f := h[t.node];
    if t.fail.Link? {
      var u := t.fail.tree;
      assert u.node in LinkNodes(t.fail);
      assert t.succ.Link? ==> t.succ.tree.node in LinkNodes(t.succ);
      assert Represents(h, u, Some(t.node));
      PointersHold(h, u, Some(t.node));
      assert PointerIn(h, u.node) == Some(t.fail.pipe);
    }
    if t.sink.Link? {
      var u := t.sink.tree;
      assert u.node in LinkNodes(t.sink);
      assert t.succ.Link? ==> t.succ.tree.node in LinkNodes(t.succ);
      assert t.fail.Link? ==> t.fail.tree.node in LinkNodes(t.fail);
      assert Represents(h, u, Some(t.node));
      PointersHold(h, u, Some(t.node));
      assert PointerIn(h, u.node) == Some(t.sink.pipe);
    }
    if t.succ.Link? {
      assert Represents(h, t.succ.tree, Some(t.node));
      PointersHold(h, t.succ.tree, Some(t.node));
    }
    ExtrasPointersHold(h, t, parent, t.extras, f.descriptors);
  }

  /** The branches in `x`, a part of the custom branches of `t`. */
  lemma {:induction false} ExtrasPointersHold<N>(
    h: Store<N>, t: Tree<N>, parent: Option<N>, x: Extras<N>, ds: seq<Config<N>>)
    requires Represents(h, t, parent) && Distinct(t) && UniqueKeys(t.extras)
    requires ExtrasRep(h, x, ds, t.node) && DistinctExtras(x) && ExtrasMarked(x) && UniqueKeys(x)
    requires ExtrasNodes(x) <= ExtrasNodes(t.extras)
    requires forall k :: FindLink(x, k).Link? ==> FindLink(t.extras, k) == FindLink(x, k)
    ensures ExtrasPointers(h, x)
    decreases x
  {
    match x
    case NoExtras =>
    case Extra(front, k, p, u) =>
      forall j | FindLink(front, j).Link? ensures FindLink(t.extras, j) == FindLink(front, j) {
        assert FindLink(x, j) == FindLink(front, j);
      }
      ExtrasPointersHold(h, t, parent, front, ds[..|ds| - 1]);
      PointersHold(h, u, Some(t.node));
      assert FindLink(x, k) == Link(p, u);
      FindConfigRep(h, t.extras, h[t.node].descriptors, t.node, k);
      assert u.node in Nodes(u);
      NotElsewhere(h, t, parent, u.node);
  }

  lemma NotElsewhere<N>(h: Store<N>, t: Tree<N>, parent: Option<N>, n: N)
    requires Represents(h, t, parent) && Distinct(t) && n in ExtrasNodes(t.extras)
    ensures h[t.node].succ.target != Some(n) && h[t.node].fail.target != Some(n) && h[t.node].sink.target != Some(n)
  {
    assert t.succ.Link? ==> t.succ.tree.node in LinkNodes(t.succ);
    assert t.fail.Link? ==> t.fail.tree.node in LinkNodes(t.fail);
    assert t.sink.Link? ==> t.sink.tree.node in LinkNodes(t.sink);
  }

  lemma {:induction false} FindConfigRep<N>(h: Store<N>, x: Extras<N>, ds: seq<Config<N>>, owner: N, key: nat)
    requires ExtrasRep(h, x, ds, owner)
    ensures match FindLink(x, key)
      case NoLink => FindConfig(ds, key) == None
      case Link(p, t) => FindConfig(ds, key) == Some(Config(key, p, t.node))
  {
    match x
    case NoExtras =>
    case Extra(front, k, _, _) => if k != key { FindConfigRep(h, front, ds[..|ds| - 1], owner, key); }
  }

  // ------------------------------------------------------------ parallel groups

  predicate StartsParallel<N>(t: Tree<N>) { t.succ.Link? && t.succ.pipe == Parallelism }

  function GroupLast<N>(t: Tree<N>): Tree<N> {
    if StartsParallel(t) then GroupLast(t.succ.tree) else t
  }

  /** The tasks from `t` on that are joined by `||`, as `execute_task` gathers them. */
  function GroupNodes<N>(t: Tree<N>): seq<N> {
    if StartsParallel(t) then [t.node] + GroupNodes(t.succ.tree) else [t.node]
  }

  /** `is_parallel_execution_node`. */
  ghost predicate IsParallelNode<N>(h: Store<N>, n: N)
    requires n in h
  {
    h[n].succ.pipe == Some(Parallelism) || PointerIn(h, n) == Some(Parallelism)
  }

  ghost predicate BelowParallel<N>(h: Store<N>, n: N)
    requires n in h
  {
    h[n].parent.Some? && h[n].parent.value in h && h[h[n].parent.value].succ.pipe == Some(Parallelism)
  }

  /** `get_parallel_execution_parent_node`; `t` is the graph of the task. */
  ghost function ParallelHead<N>(h: Store<N>, t: Tree<N>, n: N): Option<N>
    requires Represents(h, t, None) && Distinct(t) && n in Nodes(t) && n in h
    decreases Depth(t, n)
  {
    ParentOf(h, t, None, n);
    if !IsParallelNode(h, n) then None
    else if BelowParallel(h, n) then
      ParentOf(h, t, None, h[n].parent.value);
      ParallelHead(h, t, h[n].parent.value)
    else Some(n)
  }

  /**
    Every member of a parallel group resolves to the first task of the group. `g` is
    the group's first task and `t` the whole graph.
   */
  lemma {:induction false} GroupHead<N>(h: Store<N>, t: Tree<N>, g: Tree<N>, parent: Option<N>, head: N, n: N)
    requires Represents(h, t, None) && Distinct(t) && Represents(h, g, parent) && Nodes(g) <= Nodes(t)
    requires n in GroupNodes(g) && g.node in h && head in Nodes(t) && head in h
    requires ParallelHead(h, t, g.node) == Some(head)
    ensures n in h && n in Nodes(t) && ParallelHead(h, t, n) == Some(head)
    decreases g
  {
    assert g.node in Nodes(g);
    if n != g.node {
      var u := g.succ.tree;
      assert LinkRep(h, g.succ, h[g.node].succ, g.node);
      assert Represents(h, u, Some(g.node));
      assert Nodes(u) == LinkNodes(g.succ);
      assert u.node in Nodes(u) && u.node in Nodes(t);
      assert PointerIn(h, u.node) == Some(Parallelism);
      assert ParallelHead(h, t, u.node) == ParallelHead(h, t, g.node);
      GroupHead(h, t, u, Some(g.node), head, n);
    }
  }

  // ------------------------------------------------------------ the last task of a group

  /** The test that `_get_last_task_profile_in_chain` makes on each member of a group. */
  ghost predicate LooksLast<N>(h: Store<N>, n: N)
    requires n in h
  {
    PointerIn(h, n) == Some(Parallelism) && h[n].succ.pipe != Some(Parallelism)
  }

  /** Of the members of a group, exactly the last one looks last. */
  lemma {:induction false} OnlyLastLooksLast<N>(h: Store<N>, g: Tree<N>, parent: Option<N>, n: N)
    requires Represents(h, g, parent) && Distinct(g) && n in GroupNodes(g)
    requires StartsParallel(g) || PointerIn(h, g.node) == Some(Parallelism)
    ensures n in h && (LooksLast(h, n) <==> n == GroupLast(g).node)
    decreases g
  {
    assert LinkRep(h, g.succ, h[g.node].succ, g.node);
    if StartsParallel(g) {
      var u := g.succ.tree;
      assert Represents(h, u, Some(g.node)) && PointerIn(h, u.node) == Some(Parallelism);
      assert LinkNodes(g.succ) == Nodes(u) && DistinctLink(g.succ) == Distinct(u);
      GroupLastIn(u);
      if n == g.node {
        assert n != GroupLast(u).node;
      } else {
        OnlyLastLooksLast(h, u, Some(g.node), n);
      }
    }
  }

  lemma {:induction false} GroupLastIn<N>(g: Tree<N>)
    ensures GroupLast(g).node in Nodes(g) && GroupLast(g).node in GroupNodes(g)
    ensures forall n :: n in GroupNodes(g) ==> n in Nodes(g)
  {
    if StartsParallel(g) {
      GroupLastIn(g.succ.tree);
      assert LinkNodes(g.succ) == Nodes(g.succ.tree);
    }
  }
}
