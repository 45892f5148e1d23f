/**
  Parallel groups of task objects: the methods that find the members and the first task
  of a group, and the operator that decides whether a member receives previous results.
 */
module Groups {
  import opened Wrappers
  import opened Pointy
  import opened TaskTree
  import opened TaskStore
  import opened TaskGraph
  import opened TaskQueries
  import opened Queries
  import opened Runnable
  import opened Outcomes
  import opened Interpreter
  import opened Execution

  /** `is_parallel_execution_node`. */
  predicate IsParallelTask(task: PipelineTask)
    reads task, task.parentNode
  {
    task.successPipe == Some(Parallelism) || GetPointerType(task) == Some(Parallelism)
  }

  /** `get_parallel_nodes`: the group from a task on, or nothing for a task outside groups. */
  method GetParallelNodes(task: PipelineTask, ghost h: Store<PipelineTask>, ghost t: Tree<PipelineTask>)
    returns (nodes: Option<seq<PipelineTask>>)
    requires InMemory(h) && Runs(h, t) && task == t.node
    ensures nodes == if IsParallelTask(task) then Some(GroupNodes(t)) else None
  {
    if !IsParallelTask(task) { return None; }
    var found: seq<PipelineTask>, last: PipelineTask := [], task;
    ghost var u := t;
    RunsParts(h, u);
    while last.successPipe == Some(Parallelism)
      invariant Runs(h, u) && last == u.node && GroupLast(u) == GroupLast(t)
      invariant (last.successPipe == Some(Parallelism)) == StartsParallel(u)
      invariant GroupNodes(t) == found + GroupNodes(u)
      decreases Size(u)
    {
      GroupStep(t, u, found);
      RunsParts(h, u);
      found, last := found + [last], last.onSuccess;
      u := u.succ.tree;
      RunsParts(h, u);
    }
    GroupStep(t, u, found);
    return Some(found + [last]);
  }

  /** What a dispatch gathers for a task in a group is what `get_parallel_nodes` answers. */
  method GatherAgrees(task: PipelineTask, ghost h: Store<PipelineTask>, ghost t: Tree<PipelineTask>)
    returns (gathered: seq<PipelineTask>, nodes: seq<PipelineTask>)
    requires InMemory(h) && Runs(h, t) && task == t.node && IsParallelTask(task)
    ensures multiset(gathered) == multiset(nodes) && nodes != [] && nodes[0] == task
    ensures nodes[|nodes| - 1] == GroupLast(t).node
  {
    var last, answer;
    gathered, last := GatherParallel(task, h, t);
    answer := GetParallelNodes(task, h, t);
    nodes := answer.value;
    GroupEnds(t);
  }

  lemma {:induction false} GroupEnds<N>(t: Tree<N>)
    ensures var ns := GroupNodes(t); ns != [] && ns[0] == t.node && ns[|ns| - 1] == GroupLast(t).node
  {
    if StartsParallel(t) { GroupEnds(t.succ.tree); }
  }

  lemma ParallelInMemory(h: Store<PipelineTask>, t: Tree<PipelineTask>, n: PipelineTask)
    requires InMemory(h) && Good(Piece(h, t)) && n in Nodes(t)
    ensures Represents(h, t, None) && Distinct(t) && n in h
    ensures IsParallelTask(n) == IsParallelNode(h, n) && GetPointerType(n) == PointerIn(h, n)
    ensures BelowParallel(h, n) == (n.parentNode != null && n.parentNode.successPipe == Some(Parallelism))
    ensures n.parentNode != null ==> n.parentNode in Nodes(t) && Depth(t, n.parentNode) < Depth(t, n)
  {
    GoodHolds(Piece(h, t));
    ParentOf(h, t, None, n);
    assert n.View() == h[n];
    PointerInMemory(h, n);
    if n.parentNode != null { assert n.parentNode.View() == h[n.parentNode]; }
  }

  /** `get_parallel_execution_parent_node`. */
  method GetParallelHead(task: PipelineTask, ghost h: Store<PipelineTask>, ghost t: Tree<PipelineTask>)
    returns (head: PipelineTask?)
    requires InMemory(h) && Good(Piece(h, t)) && task in Nodes(t)
    ensures Represents(h, t, None) && Distinct(t) && task in h && Ref(head) == ParallelHead(h, t, task)
    ensures head != null ==> head in Nodes(t)
    decreases Depth(t, task)
  {
    ParallelInMemory(h, t, task);
    if !IsParallelTask(task) {
      head := null;
    } else if task.parentNode != null && task.parentNode.successPipe == Some(Parallelism) {
      head := GetParallelHead(task.parentNode, h, t);
    } else {
      head := task;
    }
  }

  /** The operator that decides whether a task receives the previous result. */
  ghost function ResolvedPointer(h: Store<PipelineTask>, t: Tree<PipelineTask>, n: PipelineTask): Option<Pipe>
    requires Represents(h, t, None) && Distinct(t) && n in Nodes(t) && n in h
  {
    match ParallelHead(h, t, n)
    case Some(head) => if head in h then PointerIn(h, head) else None
    case None => PointerIn(h, n)
  }

  /** The `previous_result` argument of an event: absent, empty, or the results of the previous context. */
  datatype Argument = Absent | Empty | ResultsOf(results: seq<Future>)

  /** What an event receives of the context before it. */
  method PreviousResult(task: PipelineTask, previous: EventExecutionContext?,
                        ghost h: Store<PipelineTask>, ghost t: Tree<PipelineTask>)
    returns (argument: Argument)
    requires InMemory(h) && Good(Piece(h, t)) && task in Nodes(t)
    ensures Represents(h, t, None) && Distinct(t) && task in h
    ensures argument ==
      if ResolvedPointer(h, t, task) != Some(PipePointer) then Absent
      else if previous == null then Empty else ResultsOf(previous.results)
  {
    var receives;
    ParallelInMemory(h, t, task);
    if IsParallelTask(task) {
      var head := GetParallelHead(task, h, t);
      AlwaysHead(h, t, task);
      ParallelInMemory(h, t, head);
      receives := GetPointerType(head) == Some(PipePointer);
    } else {
      receives := GetPointerType(task) == Some(PipePointer);
    }
    argument := if !receives then Absent else if previous == null then Empty else ResultsOf(previous.results);
  }

  /** A task in a group has a first task. */
  lemma {:induction false} AlwaysHead(h: Store<PipelineTask>, t: Tree<PipelineTask>, n: PipelineTask)
    requires Represents(h, t, None) && Distinct(t) && n in Nodes(t) && n in h && IsParallelNode(h, n)
    ensures ParallelHead(h, t, n).Some?
    decreases Depth(t, n)
  {
    ParentOf(h, t, None, n);
    if BelowParallel(h, n) {
      ParentOf(h, t, None, h[n].parent.value);
      AlwaysHead(h, t, h[n].parent.value);
    }
  }

  /** All members of a group, or none of them, receive the previous result. */
  lemma GroupSharesOperator(h: Store<PipelineTask>, t: Tree<PipelineTask>, g: Tree<PipelineTask>,
                            parent: Option<PipelineTask>, n: PipelineTask)
    requires Represents(h, t, None) && Distinct(t) && Represents(h, g, parent) && Nodes(g) <= Nodes(t)
    requires StartsParallel(g) && !BelowParallel(h, g.node) && n in GroupNodes(g)
    ensures n in h && n in Nodes(t) && ResolvedPointer(h, t, n) == PointerIn(h, g.node)
  {
    assert g.node in Nodes(g);
    assert LinkRep(h, g.succ, h[g.node].succ, g.node);
    assert IsParallelNode(h, g.node);
    assert ParallelHead(h, t, g.node) == Some(g.node);
    GroupHead(h, t, g, parent, g.node, n);
  }
}
