/**
  Task objects in memory and the compiler that links them in place.
 */
module TaskGraph {
  import opened Wrappers
  import opened Pointy
  import opened TaskTree
  import opened TaskStore

  class PipelineTask {
    const event: string
    var numberOfRetries: Option<nat>
    var mark: Mark
    var parentNode: PipelineTask?
    var sinkNode: PipelineTask?
    var sinkPipe: Option<Pipe>
    var onSuccess: PipelineTask?
    var successPipe: Option<Pipe>
    var onFailure: PipelineTask?
    var failurePipe: Option<Pipe>
    var descriptors: seq<Config<PipelineTask>>

    constructor (event: string)
      ensures View() == NewFields(event)
    {
      this.event := event;
      numberOfRetries, mark, parentNode := None, Unmarked, null;
      sinkNode, sinkPipe, onSuccess, successPipe := null, None, null, None;
      onFailure, failurePipe, descriptors := null, None, [];
    }

    /** The fields of this object as one value. */
    ghost function View(): Fields<PipelineTask>
      reads this
    {
      Fields(event, numberOfRetries, mark, Ref(parentNode), Slot(Ref(onFailure), failurePipe),
             Slot(Ref(onSuccess), successPipe), Slot(Ref(sinkNode), sinkPipe), descriptors)
    }

    predicate IsConditionalTask()
      reads this
      ensures IsConditionalTask() == ConditionalFields(View())
    {
      descriptors != [] || (onSuccess != null && onFailure != null)
    }

    /** `get_root`: follows the parents up to the first task of the graph `t`. */
    function GetRoot(ghost h: Store<PipelineTask>, ghost t: Tree<PipelineTask>): (root: PipelineTask)
      requires InMemory(h) && Good(Piece(h, t)) && this in Nodes(t)
      reads h.Keys
      ensures root == t.node
      decreases Depth(t, this)
    {
      GoodHolds(Piece(h, t));
      ParentOf(h, t, None, this);
      if parentNode == null then this else parentNode.GetRoot(h, t)
    }

    /** Joins this task to the one on the right of an operator. */
    method SetNext(pipe: Pipe, right: PipelineTask)
      modifies this
      ensures var slot := Slot(Some(right), Some(pipe));
        View() == if old(IsConditionalTask()) then old(View()).(sink := slot) else old(View()).(succ := slot)
    {
      if IsConditionalTask() {
        sinkNode, sinkPipe := right, Some(pipe);
      } else {
        onSuccess, successPipe := right, Some(pipe);
      }
    }

    /** Takes a labelled branch: label 0 is the failure event, any other the success event. */
    method SetBranch(node: PipelineTask, m: Mark)
      requires m.Marked?
      modifies this
      ensures var slot := Slot(Some(node), Some(m.pipe));
        View() == if m.key == 0 then old(View()).(fail := slot) else old(View()).(succ := slot)
    {
      if m.key == 0 {
        onFailure, failurePipe := node, Some(m.pipe);
      } else {
        onSuccess, successPipe := node, Some(m.pipe);
      }
    }

    method SetParentNode(parent: PipelineTask)
      modifies this`parentNode
      ensures View() == old(View()).(parent := Some(parent))
    {
      parentNode := parent;
    }

    /** `add_descriptor`: a dictionary assignment, for keys 2 to 9 only. */
    method AddDescriptor(key: nat, pipe: Pipe, task: PipelineTask) returns (added: bool)
      modifies this
      ensures added == (1 < key < 10)
      ensures View() == old(View()).(descriptors :=
        if added then AssignConfig(old(descriptors), Config(key, pipe, task)) else old(descriptors))
    {
      added := 1 < key < 10;
      if added {
        descriptors := AssignConfig(descriptors, Config(key, pipe, task));
      }
    }
  }

  function Ref(n: PipelineTask?): Option<PipelineTask> {
    if n == null then None else Some(n)
  }

  function AssignConfig(ds: seq<Config<PipelineTask>>, c: Config<PipelineTask>): seq<Config<PipelineTask>> {
    if ds == [] then [c]
    else if ds[0].key == c.key then [c] + ds[1..]
    else [ds[0]] + AssignConfig(ds[1..], c)
  }

  lemma {:induction false} AssignNewKey(ds: seq<Config<PipelineTask>>, c: Config<PipelineTask>)
    requires forall d :: d in ds ==> d.key != c.key
    ensures AssignConfig(ds, c) == ds + [c]
  {
    if ds != [] {
      assert ds[0] in ds;
      AssignNewKey(ds[1..], c);
    }
  }

  // ------------------------------------------------------------ graphs in memory

  /** The task objects of `h` now have the fields that `h` gives them. */
  ghost predicate InMemory(h: Store<PipelineTask>)
    reads h.Keys
  {
    forall n :: n in h ==> n.View() == h[n]
  }

  /** `t` is a graph of distinct nodes of `h`, rooted at a task without parent. */
  ghost predicate Holds(h: Store<PipelineTask>, t: Tree<PipelineTask>) {
    Distinct(t) && Represents(h, t, None) && Nodes(t) <= h.Keys
  }

  /** A graph under construction: its store and its chain. */
  datatype Part = Part(h: Store<PipelineTask>, s: Spine<PipelineTask>)
  /** A finished graph: its store and its tree. */
  datatype Piece = Piece(h: Store<PipelineTask>, t: Tree<PipelineTask>)

  ghost function Restrict(h: Store<PipelineTask>, ns: set<PipelineTask>): Store<PipelineTask> {
    map n | n in h && n in ns :: h[n]
  }

  // A piece that holds in its store. The store is named through its keys, so that the
  // graph is unfolded only by the lemmas below.
  ghost predicate Good(p: Piece) {
    p.t.node in p.h && forall ns :: ns == p.h.Keys ==> Holds(Restrict(p.h, ns), p.t)
  }

  lemma GoodHolds(p: Piece)
    ensures Good(p) <==> Holds(p.h, p.t)
  {
    assert Restrict(p.h, p.h.Keys) == p.h;
  }

  lemma MergeHolds(a: Piece, b: Piece)
    requires Good(a) && Good(b) && a.h.Keys !! b.h.Keys
    ensures Holds(a.h + b.h, a.t) && Holds(a.h + b.h, b.t) && Nodes(a.t) !! Nodes(b.t)
    ensures a.t.node in a.h + b.h && b.t.node in a.h + b.h && a.t.node != b.t.node
  {
    GoodHolds(a);
    GoodHolds(b);
    Frame(a.h, a.h + b.h, a.t, None);
    Frame(b.h, a.h + b.h, b.t, None);
  }

  lemma JoinHolds(p: Part, pipe: Pipe, b: Piece)
    requires Good(Piece(p.h, SpineTree(p.s))) && Good(b) && p.h.Keys !! b.h.Keys
    ensures TailAtom(p.s).node in p.h
    ensures Good(Piece(Join(p.h + b.h, TailAtom(p.s).node, pipe, b.t.node), SpineTree(Snoc(p.s, pipe, b.t))))
  {
    GoodHolds(Piece(p.h, SpineTree(p.s)));
    MergeHolds(Piece(p.h, SpineTree(p.s)), b);
    TailRep(p.h, p.s, None);
    JoinRepresents(p.h + b.h, p.s, pipe, b.t, None);
    SnocShape(p.s, pipe, b.t);
    var h := Join(p.h + b.h, TailAtom(p.s).node, pipe, b.t.node);
    GoodHolds(Piece(h, SpineTree(Snoc(p.s, pipe, b.t))));
  }

  /** The store after a labelled branch has been hung under its parent. */
  ghost function AdoptStore(h: Store<PipelineTask>, parent: PipelineTask, node: PipelineTask,
                            m: Mark): Store<PipelineTask>
    requires parent in h && node in h && m.Marked?
  {
    var slot := Slot(Some(node), Some(m.pipe));
    var f := if m.key == 0 then h[parent].(fail := slot) else h[parent].(succ := slot);
    h[parent := f][node := h[node].(parent := Some(parent))]
  }

  function AdoptTree(t: Tree<PipelineTask>, b: Tree<PipelineTask>): Tree<PipelineTask>
    requires b.mark.Marked?
  {
    if b.mark.key == 0 then t.(fail := Link(b.mark.pipe, b)) else t.(succ := Link(b.mark.pipe, b))
  }

  lemma AdoptHolds(a: Piece, b: Piece)
    requires Good(a) && Good(b) && a.h.Keys !! b.h.Keys && b.t.mark.Marked?
    requires if b.t.mark.key == 0 then a.t.fail.NoLink? else a.t.succ.NoLink? && !IsConditional(a.t)
    ensures (a.h + b.h)[b.t.node].mark == b.t.mark && a.t.node != b.t.node
    ensures Good(Piece(AdoptStore(a.h + b.h, a.t.node, b.t.node, b.t.mark), AdoptTree(a.t, b.t)))
  {
    var h, pipe := a.h + b.h, b.t.mark.pipe;
    MergeHolds(a, b);
    if b.t.mark.key == 0 {
      AdoptFail(h, a.t, pipe, b.t);
      AdoptFailDistinct(a.t, pipe, b.t);
    } else {
      ConditionalMatches(h, a.t, None);
      JoinLast(h, a.t, pipe, b.t, None);
      ReplaceRest(a.t, pipe, a.t, b.t);
    }
    GoodHolds(Piece(AdoptStore(h, a.t.node, b.t.node, b.t.mark), AdoptTree(a.t, b.t)));
  }

  lemma AdoptCustomHolds(a: Piece, key: nat, pipe: Pipe, b: Piece)
    requires Good(a) && Good(b) && a.h.Keys !! b.h.Keys
    ensures a.t.node != b.t.node
    ensures Good(Piece(AdoptExtraStore(a.h + b.h, a.t.node, Config(key, pipe, b.t.node)),
                       a.t.(extras := Extra(a.t.extras, key, pipe, b.t))))
  {
    MergeHolds(a, b);
    AdoptExtra(a.h + b.h, a.t, key, pipe, b.t);
    AdoptExtraDistinct(a.t, key, pipe, b.t);
    GoodHolds(Piece(AdoptExtraStore(a.h + b.h, a.t.node, Config(key, pipe, b.t.node)),
                    a.t.(extras := Extra(a.t.extras, key, pipe, b.t))));
  }

  lemma RetriesGood(p: Piece, n: nat)
    requires Good(p) && p.t.node in p.h
    ensures Good(Piece(p.h[p.t.node := p.h[p.t.node].(retries := Some(n))], p.t.(retries := Some(n))))
  {
    GoodHolds(p);
    SetRetries(p.h, p.t, Some(n), None);
    GoodHolds(Piece(p.h[p.t.node := p.h[p.t.node].(retries := Some(n))], p.t.(retries := Some(n))));
  }

  lemma MarkGood(p: Piece, m: Mark)
    requires Good(p)
    ensures Good(Piece(p.h[p.t.node := p.h[p.t.node].(mark := m)], p.t.(mark := m)))
  {
    GoodHolds(p);
    SetMark(p.h, p.t, m, None);
    GoodHolds(Piece(p.h[p.t.node := p.h[p.t.node].(mark := m)], p.t.(mark := m)));
  }

  // The assignments of the compiler, as updates of a store.

  method LinkNext(left: PipelineTask, pipe: Pipe, right: PipelineTask, ghost h: Store<PipelineTask>)
    requires InMemory(h) && left in h && right in h && left != right
    modifies left, right
    ensures InMemory(Join(h, left, pipe, right))
  {
    left.SetNext(pipe, right);
    assert InMemory(h[left := left.View()]);
    right.SetParentNode(left);
  }

  method LinkBranch(parent: PipelineTask, node: PipelineTask, ghost h: Store<PipelineTask>)
    requires InMemory(h) && parent in h && node in h && parent != node && node.mark.Marked?
    modifies parent, node
    ensures InMemory(AdoptStore(h, parent, node, h[node].mark))
  {
    node.SetParentNode(parent);
    parent.SetBranch(node, node.mark);
  }

  method LinkCustom(parent: PipelineTask, key: nat, pipe: Pipe, head: PipelineTask, ghost h: Store<PipelineTask>)
    requires InMemory(h) && parent in h && head in h && parent != head && 1 < key < 10
    requires forall c :: c in h[parent].descriptors ==> c.key != key
    modifies parent, head
    ensures InMemory(AdoptExtraStore(h, parent, Config(key, pipe, head)))
  {
    head.SetParentNode(parent);
    AssignNewKey(parent.descriptors, Config(key, pipe, head));
    var _ := parent.AddDescriptor(key, pipe, head);
  }

  // ------------------------------------------------------------ the compiler

  /** What `_parse_ast` returns: a number, or the last task of a chain. */
  datatype Parsed = NumberValue(number: nat) | TaskValue(task: PipelineTask)

  // What `_parse_ast` is given: the parts of a phrase.
  predicate IsPhrase(e: Expr) { IsChainExpr(e) || e.Descriptor? || e.Factor? }

  /** A result for the chain `e`: an error exactly when `e` cannot be built, else its graph. */
  ghost predicate ChainResult(e: Expr, r: Result<Parsed, BuildError>, p: Option<Part>)
    requires IsChainExpr(e)
  {
    && r.Ok? == LowerChain(e).Ok? && (r.Ok? ==> r.value.TaskValue?) && r.Ok? == p.Some?
    && (r.Ok? ==> PartResult(p.value, r.value.task, LowerChain(e).value))
  }

  ghost predicate PartResult(p: Part, tail: PipelineTask, shape: Spine<()>) {
    && tail == TailAtom(p.s).node && tail in p.h && StripSpine(p.s) == shape
    && Good(Piece(p.h, SpineTree(p.s)))
  }

  ghost function StoreOf(p: Option<Part>): Store<PipelineTask> {
    if p.Some? then p.value.h else map[]
  }

  /**
    `_parse_ast`: builds new task objects for a phrase, linking them in place. A chain
    that cannot be built is reported, and one that can is returned as a graph of new,
    distinct objects whose fields are exactly those of the phrase's shape.
   */
  method ParseAst(e: Expr) returns (r: Result<Parsed, BuildError>, ghost p: Option<Part>)
    requires IsPhrase(e)
    ensures e.Descriptor? ==> r == Ok(NumberValue(e.key))
    ensures e.Factor? ==> r == Ok(NumberValue(e.count))
    ensures IsChainExpr(e) ==> ChainResult(e, r, p)
    ensures InMemory(StoreOf(p)) && fresh(StoreOf(p).Keys)
    decreases ExprSize(e), 2
  {
    p := None;
    match e
    case Descriptor(k) =>
      if IsChainExpr(e) { ChainExprKind(e); }
      r := Ok(NumberValue(k));
    case Factor(n) =>
      if IsChainExpr(e) { ChainExprKind(e); }
      r := Ok(NumberValue(n));
    case TaskName(name) =>
      var task := new PipelineTask(name);
      r := Ok(TaskValue(task));
      p := Some(Part(map[task := task.View()], Last(Leaf(task, name))));
      LeafGood(task, name);
      TaskAsElem(e);
      ElemAsChain(e);
      assert LowerTask(e) == Ok(Leaf((), name));
    case BinOp(_, _, _) =>
      r, p := ParseBinOp(e);
    case ConditionalBinOp(_, _) =>
      r, p := ParseConditional(e);
  }

  lemma LeafGood(task: PipelineTask, name: string)
    ensures Good(Piece(map[task := NewFields(name)], Leaf(task, name)))
    ensures Nodes(Leaf(task, name)) == {task} && Strip(Leaf(task, name)) == Leaf((), name)
  {
    var t := Leaf(task, name);
    var h: Store<PipelineTask> := map[task := NewFields(name)];
    assert LinkRep(h, t.fail, h[task].fail, task) && ExtrasRep(h, t.extras, h[task].descriptors, task);
    assert LinkNodes(t.fail) == {} && ExtrasNodes(t.extras) == {};
    assert DistinctLink(t.fail) && DistinctExtras(t.extras);
    GoodHolds(Piece(h, t));
  }

  /** The three forms of a binary node. */
  lemma OperandKinds(e: Expr)
    requires IsChainExpr(e) && e.BinOp?
    ensures
      if e.op == Retry then !e.left.Descriptor?
        && if e.left.Factor? then IsTaskExpr(e.right) else e.right.Factor? && IsTaskExpr(e.left)
      else if e.left.Descriptor? then LabelOp(e.op) && IsElemExpr(e.right)
      else IsChainExpr(e.left) && IsElemExpr(e.right)
    ensures IsPhrase(e.left) && IsPhrase(e.right)
    ensures IsChainExpr(e.left) ==> !e.left.Descriptor? && !e.left.Factor?
    ensures IsChainExpr(e.right) ==> !e.right.Descriptor? && !e.right.Factor?
  {
    assert e.op == Retry || e.left.Descriptor? ==> IsElemExpr(e);
    assert e.op == Retry ==> IsItemExpr(e);
    if e.op == Retry {
      var t := if e.left.Factor? then e.right else e.left;
      TaskAsElem(t);
      ElemAsChain(t);
    } else {
      ElemAsChain(e.right);
    }
    if IsChainExpr(e.left) { ChainExprKind(e.left); }
    if IsChainExpr(e.right) { ChainExprKind(e.right); }
  }

  /** Both operands, in order; an error in either ends the build. */
  method ParseOperands(e: Expr)
    returns (left: Result<Parsed, BuildError>, right: Result<Parsed, BuildError>,
             ghost lp: Option<Part>, ghost rp: Option<Part>)
    requires IsChainExpr(e) && e.BinOp? && IsPhrase(e.left) && IsPhrase(e.right)
    ensures e.left.Descriptor? ==> left == Ok(NumberValue(e.left.key))
    ensures e.left.Factor? ==> left == Ok(NumberValue(e.left.count))
    ensures e.right.Factor? && left.Ok? ==> right == Ok(NumberValue(e.right.count))
    ensures IsChainExpr(e.left) ==> ChainResult(e.left, left, lp)
    ensures left.Ok? && IsChainExpr(e.right) ==> ChainResult(e.right, right, rp)
    ensures left.Err? ==> right == left
    ensures InMemory(StoreOf(lp)) && InMemory(StoreOf(rp)) && fresh(StoreOf(lp).Keys) && fresh(StoreOf(rp).Keys)
    ensures StoreOf(lp).Keys !! StoreOf(rp).Keys
    decreases ExprSize(e), 0
  {
    left, lp := ParseAst(e.left);
    right, rp := left, None;
    if left.Ok? {
      right, rp := ParseAst(e.right);
    }
  }

  method ParseBinOp(e: Expr) returns (r: Result<Parsed, BuildError>, ghost p: Option<Part>)
    requires IsChainExpr(e) && e.BinOp?
    ensures ChainResult(e, r, p)
    ensures InMemory(StoreOf(p)) && fresh(StoreOf(p).Keys)
    decreases ExprSize(e), 1
  {
    OperandKinds(e);
    var left, right, lp, rp := ParseOperands(e);
    if left.Err? || right.Err? {
      OperandFails(e);
      r, p := Err(NoSuchAttribute), None;
    } else if left.value.TaskValue? && right.value.TaskValue? {
      r, p := FinishChain(e, left.value.task, right.value.task, lp.value, rp.value);
    } else if e.op == Retry {
      if left.value.NumberValue? {
        r, p := FinishTimes(e, e.right, left.value.number, right.value.task, rp.value);
      } else {
        r, p := FinishTimes(e, e.left, right.value.number, left.value.task, lp.value);
      }
    } else {
      r, p := FinishLabel(e, left.value.number, right.value.task, rp.value);
    }
  }

  lemma TimesLowers(e: Expr, t: Expr, n: nat)
    requires e == BinOp(Retry, Factor(n), t) || e == BinOp(Retry, t, Factor(n))
    requires IsTaskExpr(t) && IsChainExpr(e)
    ensures IsChainExpr(t) && LowerChain(e).Ok? == LowerChain(t).Ok?
    ensures LowerChain(t).Ok? ==> LowerChain(t).value.Last?
    ensures LowerChain(t).Ok? ==> LowerChain(e) == Ok(Last(LowerChain(t).value.atom.(retries := Some(n))))
  {
    TaskAsElem(t);
    ElemAsChain(t);
    assert IsItemExpr(e);
    ElemAsChain(e);
    assert !t.Factor?;
    assert LowerElem(e) == LowerItem(e) == WithRetries(LowerTask(t), n);
  }

  lemma LabelLowers(e: Expr)
    requires IsChainExpr(e) && e.BinOp? && e.op != Retry && e.left.Descriptor? && IsElemExpr(e.right)
    ensures IsChainExpr(e.right) && LowerChain(e).Ok? == LowerChain(e.right).Ok?
    ensures LowerChain(e.right).Ok? ==> LowerChain(e.right).value.Last?
    ensures LowerChain(e.right).Ok? ==>
      LowerChain(e) == Ok(Last(LowerChain(e.right).value.atom.(mark := Marked(e.left.key, e.op))))
  {
    ElemAsChain(e.right);
    ElemAsChain(e);
  }

  lemma ChainOpLowers(e: Expr)
    requires IsChainExpr(e) && e.BinOp? && e.op != Retry && !e.left.Descriptor?
    ensures IsChainExpr(e.left) && IsChainExpr(e.right)
    ensures LowerChain(e).Ok? == (LowerChain(e.left).Ok? && LowerChain(e.right).Ok?)
    ensures LowerChain(e.right).Ok? ==> LowerChain(e.right).value.Last?
    ensures LowerChain(e).Ok? ==>
      LowerChain(e) == Ok(Snoc(LowerChain(e.left).value, e.op, LowerChain(e.right).value.atom))
  {
    ElemAsChain(e.right);
  }

  lemma OperandFails(e: Expr)
    requires IsChainExpr(e) && e.BinOp?
    requires (IsChainExpr(e.left) && LowerChain(e.left).Err?) || (IsChainExpr(e.right) && LowerChain(e.right).Err?)
    ensures LowerChain(e).Err?
  {
    OperandKinds(e);
    if e.op == Retry {
      if e.left.Factor? { TimesLowers(e, e.right, e.left.count); } else { TimesLowers(e, e.left, e.right.count); }
    } else if e.left.Descriptor? { LabelLowers(e); } else { ChainOpLowers(e); }
  }

  method FinishChain(e: Expr, left: PipelineTask, right: PipelineTask, ghost lp: Part, ghost rp: Part)
    returns (r: Result<Parsed, BuildError>, ghost p: Option<Part>)
    requires IsChainExpr(e) && e.BinOp? && e.op != Retry && !e.left.Descriptor?
    requires IsChainExpr(e.left) && ChainResult(e.left, Ok(TaskValue(left)), Some(lp))
    requires IsChainExpr(e.right) && ChainResult(e.right, Ok(TaskValue(right)), Some(rp))
    requires InMemory(lp.h) && InMemory(rp.h) && lp.h.Keys !! rp.h.Keys
    modifies left, right
    ensures ChainResult(e, r, p) && InMemory(StoreOf(p)) && StoreOf(p).Keys == lp.h.Keys + rp.h.Keys
  {
    ChainOpLowers(e);
    ghost var b := rp.s.atom;
    JoinHolds(lp, e.op, Piece(rp.h, b));
    LinkNext(left, e.op, right, lp.h + rp.h);
    StripSnoc(lp.s, e.op, b);
    SnocTail(lp.s, e.op, b);
    ghost var h := Join(lp.h + rp.h, left, e.op, right);
    r, p := Ok(TaskValue(right)), Some(Part(h, Snoc(lp.s, e.op, b)));
  }

  method FinishTimes(e: Expr, ghost t: Expr, n: nat, node: PipelineTask, ghost s: Part)
    returns (r: Result<Parsed, BuildError>, ghost p: Option<Part>)
    requires IsChainExpr(e) && (e == BinOp(Retry, Factor(n), t) || e == BinOp(Retry, t, Factor(n)))
    requires IsTaskExpr(t) && IsChainExpr(t) && ChainResult(t, Ok(TaskValue(node)), Some(s)) && InMemory(s.h)
    modifies node
    ensures ChainResult(e, r, p) && InMemory(StoreOf(p)) && StoreOf(p).Keys == s.h.Keys
  {
    TimesLowers(e, t, n);
    ghost var a := s.s.atom;
    RetriesGood(Piece(s.h, a), n);
    node.numberOfRetries := Some(n);
    r, p := Ok(TaskValue(node)), Some(Part(s.h[node := s.h[node].(retries := Some(n))], Last(a.(retries := Some(n)))));
  }

  method FinishLabel(e: Expr, key: nat, node: PipelineTask, ghost s: Part)
    returns (r: Result<Parsed, BuildError>, ghost p: Option<Part>)
    requires IsChainExpr(e) && e.BinOp? && e.op != Retry && e.left == Descriptor(key) && IsElemExpr(e.right)
    requires IsChainExpr(e.right) && ChainResult(e.right, Ok(TaskValue(node)), Some(s)) && InMemory(s.h)
    modifies s.h.Keys
    ensures ChainResult(e, r, p) && InMemory(StoreOf(p)) && StoreOf(p).Keys == s.h.Keys
  {
    LabelLowers(e);
    ghost var a := s.s.atom;
    var m := Marked(key, e.op);
    TailNode(s);
    var root := node.GetRoot(s.h, a);
    MarkGood(Piece(s.h, a), m);
    root.mark := m;
    r, p := Ok(TaskValue(root)), Some(Part(s.h[root := s.h[root].(mark := m)], Last(a.(mark := m))));
  }

  lemma {:induction false} SnocTail(s: Spine<PipelineTask>, pipe: Pipe, r: Tree<PipelineTask>)
    ensures TailAtom(Snoc(s, pipe, r)) == r
  {
    match s case Last(_) => case Step(_, _, rest) => SnocTail(rest, pipe, r);
  }

  // ------------------------------------------------------------ groups

  ghost function PieceStore(b: Option<Piece>): Store<PipelineTask> {
    if b.Some? then b.value.h else map[]
  }

  /** `b` is the graph of the labelled branch `v`, with root `root`. */
  ghost predicate BranchBuilt(v: Expr, root: PipelineTask, b: Piece)
    requires IsChainExpr(v)
  {
    && LowerChain(v).Ok? && root == b.t.node && Good(b) && Strip(b.t) == SpineTree(LowerChain(v).value)
    && (LeftmostDescriptor(v).Some? ==> b.t.mark == Marked(LeftmostDescriptor(v).value, LabelPipe(v)))
  }

  lemma TailNode(p: Part)
    requires Good(Piece(p.h, SpineTree(p.s)))
    ensures TailAtom(p.s).node in Nodes(SpineTree(p.s))
  {
    GoodHolds(Piece(p.h, SpineTree(p.s)));
    TailRep(p.h, p.s, None);
  }

  /** Builds a branch and finds its first task. */
  method ParseBranch(v: Expr) returns (r: Result<PipelineTask, BuildError>, ghost b: Option<Piece>)
    requires IsChainExpr(v)
    ensures r.Ok? == LowerChain(v).Ok? == b.Some?
    ensures r.Ok? ==> BranchBuilt(v, r.value, b.value)
    ensures InMemory(PieceStore(b)) && fresh(PieceStore(b).Keys)
    decreases ExprSize(v), 3
  {
    ChainExprKind(v);
    var p, part := ParseAst(v);
    if p.Err? {
      return Err(p.error), None;
    }
    ghost var t := SpineTree(part.value.s);
    TailNode(part.value);
    r, b := Ok(p.value.task.GetRoot(part.value.h, t)), Some(Piece(part.value.h, t));
    StripSpineTree(part.value.s);
    if LeftmostDescriptor(v).Some? { BranchRootMark(v); }
  }

  /** `b`, if there is one, is the graph of the branch with label `key`, and `node` its root. */
  ghost predicate Side(node: PipelineTask?, b: Option<Piece>, key: nat) {
    if b.None? then node == null
    else node == b.value.t.node && Good(b.value) && b.value.t.mark.Marked? && b.value.t.mark.key == key
  }

  ghost function SideLink(b: Option<Piece>): Link<PipelineTask> {
    if b.Some? && b.value.t.mark.Marked? then Link(b.value.t.mark.pipe, b.value.t) else NoLink
  }

  /** Branch 0 or 1 of a group, if it has one. */
  method ParseEntry(d: Dict, k: nat) returns (r: Result<PipelineTask?, BuildError>, ghost b: Option<Piece>)
    requires IsGroup(d)
    ensures r.Ok? == LowerEntry(d, k).Ok?
    ensures r.Ok? ==> Side(r.value, b, k) && LowerEntry(d, k) == Ok(StripLink(SideLink(b)))
    ensures InMemory(PieceStore(b)) && fresh(PieceStore(b).Keys)
    decreases DictSize(d), 4
  {
    r, b := Ok(null), None;
    if Lookup(d, k).Some? {
      GroupEntry(d, k);
      var p, t := ParseBranch(Lookup(d, k).value);
      if p.Err? {
        return Err(p.error), None;
      }
      r, b := Ok(p.value), t;
    }
  }

  /** Branches 0 and 1, in order. */
  method ParseSides(d: Dict)
    returns (left: Result<PipelineTask?, BuildError>, right: Result<PipelineTask?, BuildError>,
             ghost lb: Option<Piece>, ghost rb: Option<Piece>)
    requires IsGroup(d)
    ensures (left.Ok? && right.Ok?) == (LowerEntry(d, 0).Ok? && LowerEntry(d, 1).Ok?)
    ensures left.Ok? && right.Ok? ==>
      && Side(left.value, lb, 0) && Side(right.value, rb, 1)
      && LowerEntry(d, 0) == Ok(StripLink(SideLink(lb))) && LowerEntry(d, 1) == Ok(StripLink(SideLink(rb)))
    ensures InMemory(PieceStore(lb)) && InMemory(PieceStore(rb))
    ensures fresh(PieceStore(lb).Keys) && fresh(PieceStore(rb).Keys)
    ensures PieceStore(lb).Keys !! PieceStore(rb).Keys
    decreases DictSize(d), 5
  {
    left, lb := ParseEntry(d, 0);
    right, rb := left, None;
    if left.Ok? {
      right, rb := ParseEntry(d, 1);
    }
  }

  /** The body of the loop over branches 1 and 0: `node`, if any, becomes a child of `parent`. */
  method AdoptSide(parent: PipelineTask, node: PipelineTask?, key: nat, ghost a: Piece, ghost b: Option<Piece>)
    returns (ghost c: Piece)
    requires key <= 1 && Good(a) && parent == a.t.node && Side(node, b, key)
    requires InMemory(a.h) && InMemory(PieceStore(b)) && a.h.Keys !! PieceStore(b).Keys
    requires if key == 0 then a.t.fail.NoLink? else a.t.succ.NoLink? && !IsConditional(a.t)
    modifies parent, node
    ensures c.t == if key == 0 then a.t.(fail := SideLink(b)) else a.t.(succ := SideLink(b))
    ensures Good(c) && InMemory(c.h) && c.h.Keys == a.h.Keys + PieceStore(b).Keys
  {
    c := a;
    if node != null {
      AdoptHolds(a, b.value);
      ghost var h := a.h + b.value.h;
      LinkBranch(parent, node, h);
      c := Piece(AdoptStore(h, parent, node, b.value.t.mark), AdoptTree(a.t, b.value.t));
    }
  }

  /** A new task with branch 1, if any, hung under it. */
  method NewParent(name: string, right: PipelineTask?, ghost rb: Option<Piece>)
    returns (parent: PipelineTask, ghost c: Piece)
    requires Side(right, rb, 1) && InMemory(PieceStore(rb))
    modifies right
    ensures c.t == Leaf(parent, name).(succ := SideLink(rb))
    ensures Good(c) && InMemory(c.h) && c.h.Keys == {parent} + PieceStore(rb).Keys && fresh(parent)
  {
    parent := new PipelineTask(name);
    LeafGood(parent, name);
    c := Piece(map[parent := parent.View()], Leaf(parent, name));
    c := AdoptSide(parent, right, 1, c, rb);
  }

  /** A new task with all the branches of a group hung under it. */
  method BuildChoice(name: string, d: Dict, left: PipelineTask?, right: PipelineTask?,
                     ghost lb: Option<Piece>, ghost rb: Option<Piece>)
    returns (ok: bool, parent: PipelineTask, ghost c: Piece)
    requires IsGroup(d) && AllChains(ExtraValues(d)) && Side(left, lb, 0) && Side(right, rb, 1)
    requires InMemory(PieceStore(lb)) && InMemory(PieceStore(rb)) && PieceStore(lb).Keys !! PieceStore(rb).Keys
    modifies left, right
    ensures ok == LowerCustoms(ExtraValues(d)).Ok?
    ensures ok ==> c.t == Tree(parent, name, None, Unmarked, SideLink(lb), SideLink(rb), NoLink, c.t.extras)
    ensures ok ==> Good(c) && LowerCustoms(ExtraValues(d)) == Ok(StripExtras(c.t.extras))
    ensures ok ==> InMemory(c.h) && forall n :: n in c.h && n !in PieceStore(lb) && n !in PieceStore(rb) ==> fresh(n)
    decreases DictSize(d), 7
  {
    parent, c := HangSides(name, left, right, lb, rb);
    ok, c := ParseCustoms(d, parent, c);
  }

  method HangSides(name: string, left: PipelineTask?, right: PipelineTask?, ghost lb: Option<Piece>,
                   ghost rb: Option<Piece>)
    returns (parent: PipelineTask, ghost c: Piece)
    requires Side(left, lb, 0) && Side(right, rb, 1)
    requires InMemory(PieceStore(lb)) && InMemory(PieceStore(rb)) && PieceStore(lb).Keys !! PieceStore(rb).Keys
    modifies left, right
    ensures c.t == Leaf(parent, name).(fail := SideLink(lb), succ := SideLink(rb)) && Good(c) && InMemory(c.h)
    ensures fresh(parent) && forall n :: n in c.h && n !in PieceStore(lb) && n !in PieceStore(rb) ==> n == parent
  {
    parent, c := NewParent(name, right, rb);
    c := AdoptSide(parent, left, 0, c, lb);
  }

  /** Builds one custom branch and hangs it under `parent`. */
  method ParseCustom(v: Expr, key: nat, parent: PipelineTask, ghost a: Piece)
    returns (ok: bool, ghost c: Piece)
    requires IsChainExpr(v) && LeftmostDescriptor(v) == Some(key) && 1 < key < 10
    requires Good(a) && InMemory(a.h) && parent == a.t.node
    requires forall c :: c in a.h[parent].descriptors ==> c.key != key
    modifies parent
    ensures ok == (LowerChain(v).Ok? && v.BinOp? && v.left.Descriptor?)
    ensures ok ==> c.t.extras.Extra? && c.t == a.t.(extras := Extra(a.t.extras, key, LabelPipe(v), c.t.extras.tree))
    ensures ok ==> Strip(c.t.extras.tree) == SpineTree(LowerChain(v).value)
    ensures ok ==> Good(c) && InMemory(c.h) && a.h.Keys <= c.h.Keys && fresh(c.h.Keys - a.h.Keys)
    ensures ok ==> c.h[parent].descriptors == a.h[parent].descriptors + [Config(key, v.op, c.t.extras.tree.node)]
    decreases ExprSize(v), 4
  {
    c := a;
    var head, b := ParseBranch(v);
    ok := head.Ok? && v.BinOp? && v.left.Descriptor?;
    if ok {
      assert LeftmostDescriptor(v.left) == Some(v.left.key) && LabelPipe(v) == v.op;
      AdoptCustomHolds(a, key, v.op, b.value);
      ghost var h := a.h + b.value.h;
      LinkCustom(parent, v.left.key, v.op, head.value, h);
      c := Piece(AdoptExtraStore(h, parent, Config(key, v.op, head.value)),
                 a.t.(extras := Extra(a.t.extras, key, v.op, b.value.t)));
    }
  }

  ghost predicate KeysFrom(ds: seq<Config<PipelineTask>>, values: seq<Expr>) {
    forall c :: c in ds ==> Some(c.key) in Labels(values)
  }
  ghost function Labels(values: seq<Expr>): set<Option<nat>> {
    set v | v in values :: LeftmostDescriptor(v)
  }

  /** After `i` turns of the loop: the custom branches so far hang under the parent. */
  ghost predicate AfterTurns(d: Dict, i: nat, a: Piece, c: Piece)
    requires IsGroup(d) && AllChains(ExtraValues(d)) && i <= |ExtraValues(d)|
  {
    && Good(c) && c.t == a.t.(extras := c.t.extras) && KeysFrom(c.h[c.t.node].descriptors, ExtraValues(d)[..i])
    && LowerCustoms(ExtraValues(d)[..i]) == Ok(StripExtras(c.t.extras))
  }

  lemma NoConfigs(p: Piece)
    requires Good(p) && p.t.extras.NoExtras?
    ensures p.h[p.t.node].descriptors == []
  {
    GoodHolds(p);
    assert ExtrasRep(p.h, p.t.extras, p.h[p.t.node].descriptors, p.t.node);
  }

  method CustomTurn(d: Dict, i: nat, parent: PipelineTask, ghost a: Piece, ghost b: Piece)
    returns (ok: bool, ghost c: Piece)
    requires IsGroup(d) && AllChains(ExtraValues(d)) && i < |ExtraValues(d)|
    requires AfterTurns(d, i, a, b) && InMemory(b.h) && parent == b.t.node
    modifies parent
    ensures !ok ==> LowerCustoms(ExtraValues(d)).Err?
    ensures ok ==> AfterTurns(d, i + 1, a, c) && InMemory(c.h)
    ensures ok ==> b.h.Keys <= c.h.Keys && fresh(c.h.Keys - b.h.Keys)
    decreases DictSize(d), 5
  {
    var v := ExtraValues(d)[i];
    var _ := CustomStep(d, i, b.h[parent].descriptors);
    ok, c := ParseCustom(v, LeftmostDescriptor(v).value, parent, b);
    if !ok { CustomsFail(ExtraValues(d), i + 1); }
  }

  /** The loop over the custom branches of a group. */
  method ParseCustoms(d: Dict, parent: PipelineTask, ghost a: Piece)
    returns (ok: bool, ghost c: Piece)
    requires IsGroup(d) && AllChains(ExtraValues(d))
    requires Good(a) && InMemory(a.h) && parent == a.t.node && a.t.extras.NoExtras?
    modifies parent
    ensures ok == LowerCustoms(ExtraValues(d)).Ok?
    ensures ok ==> Good(c) && c.t == a.t.(extras := c.t.extras)
    ensures ok ==> LowerCustoms(ExtraValues(d)) == Ok(StripExtras(c.t.extras))
    ensures ok ==> InMemory(c.h) && a.h.Keys <= c.h.Keys && fresh(c.h.Keys - a.h.Keys)
    decreases DictSize(d), 6
  {
    ok, c := true, a;
    NoConfigs(a);
    var i := 0;
    while i < |ExtraValues(d)|
      invariant 0 <= i <= |ExtraValues(d)|
      invariant AfterTurns(d, i, a, c)
      invariant InMemory(c.h) && a.h.Keys <= c.h.Keys && fresh(c.h.Keys - a.h.Keys)
    {
      ok, c := CustomTurn(d, i, parent, a, c);
      if !ok {
        return;
      }
      i := i + 1;
    }
    assert ExtraValues(d)[..i] == ExtraValues(d);
  }

  /** What one turn of the loop needs: a new key, and how the entries grow. */
  lemma CustomStep(d: Dict, i: nat, ds: seq<Config<PipelineTask>>) returns (key: nat)
    requires IsGroup(d) && AllChains(ExtraValues(d)) && i < |ExtraValues(d)|
    requires KeysFrom(ds, ExtraValues(d)[..i])
    ensures var vs := ExtraValues(d); var v := vs[i];
      && LeftmostDescriptor(v) == Some(key) && 1 < key < 10 && ExprSize(v) <= DictSize(d)
      && (forall c :: c in ds ==> c.key != key)
      && (forall c: Config<PipelineTask> :: c.key == key ==> KeysFrom(ds + [c], vs[..i + 1]))
      && LowerCustoms(vs[..i + 1]) ==
         if LowerCustoms(vs[..i]).Err? || LowerChain(v).Err? || !(v.BinOp? && v.left.Descriptor?)
         then Err(NoSuchAttribute)
         else Ok(Extra(LowerCustoms(vs[..i]).value, key, LabelPipe(v), SpineTree(LowerChain(v).value)))
  {
    var vs := ExtraValues(d);
    var v := vs[i];
    GroupExtras(d, v);
    key := LeftmostDescriptor(v).value;
    LowerCustomsSnoc(vs[..i], v, key);
    assert vs[..i + 1] == vs[..i] + [v];
    ExtraKeysDiffer(d);
    assert Some(key) !in Labels(vs[..i]);
    assert Labels(vs[..i + 1]) == Labels(vs[..i]) + {Some(key)};
  }

  lemma {:induction false} CustomsFail(vs: seq<Expr>, i: nat)
    requires AllChains(vs) && i <= |vs| && LowerCustoms(vs[..i]).Err?
    ensures LowerCustoms(vs).Err?
    decreases |vs|
  {
    if i < |vs| {
      assert vs[..|vs| - 1][..i] == vs[..i];
      CustomsFail(vs[..|vs| - 1], i);
    } else {
      assert vs[..i] == vs;
    }
  }

  method ParseConditional(e: Expr) returns (r: Result<Parsed, BuildError>, ghost p: Option<Part>)
    requires IsChainExpr(e) && e.ConditionalBinOp?
    ensures ChainResult(e, r, p)
    ensures InMemory(StoreOf(p)) && fresh(StoreOf(p).Keys)
    decreases ExprSize(e), 1
  {
    r, p := Err(NoSuchAttribute), None;
    ConditionalLowers(e);
    GroupParts(e.group);
    var left, right, lb, rb := ParseSides(e.group);
    if left.Err? || right.Err? || !e.parent.TaskName? {
      return;
    }
    assert DictSize(e.group) < ExprSize(e);
    var ok, parent, c := BuildChoice(e.parent.value, e.group, left.value, right.value, lb, rb);
    if ok {
      ConditionalShape(e, c.t, SideLink(lb), SideLink(rb));
      r, p := Ok(TaskValue(parent)), Some(Part(c.h, Last(c.t)));
    }
  }

  lemma ConditionalLowers(e: Expr)
    requires IsChainExpr(e) && e.ConditionalBinOp?
    ensures IsGroup(e.group) && LowerChain(e).Ok? == (e.parent.TaskName? && LowerGroup(e.group).Ok?)
    ensures LowerChain(e).Ok? ==>
      var x := LowerGroup(e.group).value;
      LowerChain(e) == Ok(Last(Tree((), e.parent.value, None, Unmarked,
                                    FindLink(x, 0), FindLink(x, 1), NoLink, Customs(x))))
  {
    assert IsElemExpr(e);
    assert IsItemExpr(e);
    assert IsTaskExpr(e);
    TaskAsElem(e);
    ElemAsChain(e);
  }

  lemma ConditionalShape(e: Expr, u: Tree<PipelineTask>, fail: Link<PipelineTask>, succ: Link<PipelineTask>)
    requires IsChainExpr(e) && e.ConditionalBinOp? && e.parent.TaskName? && IsGroup(e.group)
    requires LowerEntry(e.group, 0) == Ok(StripLink(fail)) && LowerEntry(e.group, 1) == Ok(StripLink(succ))
    requires AllChains(ExtraValues(e.group)) && LowerCustoms(ExtraValues(e.group)) == Ok(StripExtras(u.extras))
    requires u == Tree(u.node, e.parent.value, None, Unmarked, fail, succ, NoLink, u.extras)
    ensures LowerChain(e) == Ok(Last(Strip(u)))
  {
    ConditionalLowers(e);
    GroupParts(e.group);
    assert StripLink(u.sink) == NoLink;
  }

  /**
    `build_pipeline_from_execution_code` after parsing: compiles the tree and walks from
    the tail to the root. It fails exactly on the trees that cannot be built; otherwise
    the root heads a graph of new, distinct task objects with the program's shape.
   */
  method BuildPipeline(e: Expr) returns (r: Result<PipelineTask, BuildError>, ghost g: Option<Piece>)
    requires IsChainExpr(e)
    ensures r.Ok? == LowerChain(e).Ok? == g.Some?
    ensures r.Ok? ==> r.value == g.value.t.node && Holds(g.value.h, g.value.t) && Good(g.value)
    ensures r.Ok? ==> Strip(g.value.t) == SpineTree(LowerChain(e).value)
    ensures InMemory(PieceStore(g)) && fresh(PieceStore(g).Keys)
  {
    r, g := ParseBranch(e);
    if r.Ok? { GoodHolds(g.value); }
  }
}
