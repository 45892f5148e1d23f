/**
  The shape of a compiled task graph, as a value. A tree names the node behind each
  task (`N` is the class of nodes for a graph in memory, and `()` for a bare shape) and
  follows the child links of a task: failure, success, sink and custom descriptors.
 */
module TaskTree {
  import opened Wrappers
  import opened Pointy

  /** `_descriptor` and `_descriptor_pipe` of a task. */
  datatype Mark = Unmarked | Marked(key: nat, pipe: Pipe)

  datatype Tree<N> = Tree(
    node: N, event: string, retries: Option<nat>, mark: Mark,
    fail: Link<N>, succ: Link<N>, sink: Link<N>, extras: Extras<N>)
  datatype Link<N> = NoLink | Link(pipe: Pipe, tree: Tree<N>)
  /** Custom descriptors, oldest innermost. */
  datatype Extras<N> = NoExtras | Extra(front: Extras<N>, key: nat, pipe: Pipe, tree: Tree<N>)

  function Leaf<N>(node: N, event: string): Tree<N> {
    Tree(node, event, None, Unmarked, NoLink, NoLink, NoLink, NoExtras)
  }

  /** The `is_conditional` property. */
  predicate IsConditional<N>(t: Tree<N>) {
    t.extras.Extra? || (t.succ.Link? && t.fail.Link?)
  }

  function FindLink<N>(x: Extras<N>, key: nat): Link<N> {
    match x
    case NoExtras => NoLink
    case Extra(front, k, p, t) => if k == key then Link(p, t) else FindLink(front, key)
  }

  /** The entries whose key is neither 0 nor 1. */
  function Customs<N>(x: Extras<N>): Extras<N> {
    match x
    case NoExtras => NoExtras
    case Extra(front, k, p, t) => if k <= 1 then Customs(front) else Extra(Customs(front), k, p, t)
  }

  lemma {:induction false} FindCustom<N>(x: Extras<N>, key: nat)
    ensures FindLink(Customs(x), key) == if key <= 1 then NoLink else FindLink(x, key)
  {
    match x
    case NoExtras =>
    case Extra(front, _, _, _) => FindCustom(front, key);
  }

  predicate UniqueKeys<N>(x: Extras<N>) {
    match x
    case NoExtras => true
    case Extra(front, k, _, _) => UniqueKeys(front) && FindLink(front, k).NoLink?
  }

  // ------------------------------------------------------------ sizes

  function Size<N>(t: Tree<N>): nat {
    1 + LinkSize(t.fail) + LinkSize(t.sink) + LinkSize(t.succ) + ExtrasSize(t.extras)
  }
  function LinkSize<N>(l: Link<N>): nat {
    match l case NoLink => 0 case Link(_, t) => Size(t)
  }
  function ExtrasSize<N>(x: Extras<N>): nat {
    match x case NoExtras => 0 case Extra(front, _, _, t) => ExtrasSize(front) + Size(t)
  }

  // ------------------------------------------------------------ shapes

  function Strip<N>(t: Tree<N>): Tree<()> {
    Tree((), t.event, t.retries, t.mark,
         StripLink(t.fail), StripLink(t.succ), StripLink(t.sink), StripExtras(t.extras))
  }
  function StripLink<N>(l: Link<N>): Link<()> {
    match l case NoLink => NoLink case Link(p, t) => Link(p, Strip(t))
  }
  function StripExtras<N>(x: Extras<N>): Extras<()> {
    match x case NoExtras => NoExtras
    case Extra(front, k, p, t) => Extra(StripExtras(front), k, p, Strip(t))
  }

  lemma {:induction false} StripFindLink<N>(x: Extras<N>, key: nat)
    ensures StripLink(FindLink(x, key)) == FindLink(StripExtras(x), key)
  {
    match x
    case NoExtras =>
    case Extra(front, _, _, _) => StripFindLink(front, key);
  }

  // ------------------------------------------------------------ spines

  /** A chain of tasks still being built: each task with its branches, and its operators. */
  datatype Spine<N> = Last(atom: Tree<N>) | Step(atom: Tree<N>, pipe: Pipe, rest: Spine<N>)

  /** Where an operator puts its right operand: the sink of a conditional, else success. */
  function Attach<N>(t: Tree<N>, pipe: Pipe, r: Tree<N>): Tree<N> {
    if IsConditional(t) then t.(sink := Link(pipe, r)) else t.(succ := Link(pipe, r))
  }

  function SpineTree<N>(s: Spine<N>): Tree<N> {
    match s
    case Last(a) => a
    case Step(a, p, rest) => Attach(a, p, SpineTree(rest))
  }

  function Snoc<N>(s: Spine<N>, pipe: Pipe, r: Tree<N>): Spine<N> {
    match s
    case Last(a) => Step(a, pipe, Last(r))
    case Step(a, p, rest) => Step(a, p, Snoc(rest, pipe, r))
  }

  function StripSpine<N>(s: Spine<N>): Spine<()> {
    match s
    case Last(a) => Last(Strip(a))
    case Step(a, p, rest) => Step(Strip(a), p, StripSpine(rest))
  }

  lemma StripAttach<N>(t: Tree<N>, pipe: Pipe, r: Tree<N>)
    ensures Strip(Attach(t, pipe, r)) == Attach(Strip(t), pipe, Strip(r))
    ensures IsConditional(Strip(t)) == IsConditional(t)
  {
    assert StripExtras(t.extras).Extra? == t.extras.Extra?;
    assert StripLink(t.succ).Link? == t.succ.Link? && StripLink(t.fail).Link? == t.fail.Link?;
    assert StripLink(Link(pipe, r)) == Link(pipe, Strip(r));
  }

  lemma {:induction false} StripSpineTree<N>(s: Spine<N>)
    ensures Strip(SpineTree(s)) == SpineTree(StripSpine(s))
  {
    match s
    case Last(_) =>
    case Step(a, p, rest) =>
      StripSpineTree(rest);
      StripAttach(a, p, SpineTree(rest));
  }

  lemma {:induction false} StripSnoc<N>(s: Spine<N>, pipe: Pipe, r: Tree<N>)
    ensures StripSpine(Snoc(s, pipe, r)) == Snoc(StripSpine(s), pipe, Strip(r))
  {
    match s
    case Last(_) =>
    case Step(_, _, rest) => StripSnoc(rest, pipe, r);
  }

  // ------------------------------------------------------------ from syntax trees to shapes

  predicate IsTaskExpr(e: Expr)
    decreases e, 0
  {
    match e
    case TaskName(_) => true
    case ConditionalBinOp(p, d) => IsTaskExpr(p) && IsGroup(d)
    case _ => false
  }
  predicate IsGroup(d: Dict)
    decreases d, 0
  {
    match d
    case EmptyDict => true
    case Bind(front, k, v) =>
      && IsGroup(front) && IsChainExpr(v)
      && k < 10 && LeftmostDescriptor(v) == Some(k) && Lookup(front, k).None?
  }
  predicate IsItemExpr(e: Expr)
    decreases e, 1
  {
    if e.BinOp? then
      e.op == Retry && if e.left.Factor? then IsTaskExpr(e.right) else e.right.Factor? && IsTaskExpr(e.left)
    else IsTaskExpr(e)
  }
  predicate IsElemExpr(e: Expr)
    decreases e, 2
  {
    if e.BinOp? && e.left.Descriptor? then LabelOp(e.op) && e.left.key < 10 && IsElemExpr(e.right)
    else IsItemExpr(e)
  }
  /** The trees the parser produces: left-nested, operands on the right. */
  predicate IsChainExpr(e: Expr)
    decreases e, 3
  {
    if e.BinOp? && e.op != Retry && !e.left.Descriptor? then IsChainExpr(e.left) && IsElemExpr(e.right)
    else IsElemExpr(e)
  }

  lemma ChainExprKind(e: Expr)
    requires IsChainExpr(e)
    ensures !e.Descriptor? && !e.Factor?
  {
    if !e.BinOp? {
      assert IsElemExpr(e);
      assert IsItemExpr(e);
      assert IsTaskExpr(e);
    }
  }

  datatype BuildError = NoSuchAttribute

  function LowerTask(e: Expr): Result<Tree<()>, BuildError>
    requires IsTaskExpr(e)
    decreases e, 0
  {
    match e
    case TaskName(s) => Ok(Leaf((), s))
    case ConditionalBinOp(p, d) =>
      // `ast.parent.value` exists only on a task name
      if !p.TaskName? || LowerGroup(d).Err? then Err(NoSuchAttribute)
      else
        var entries := LowerGroup(d).value;
        Ok(Tree((), p.value, None, Unmarked, FindLink(entries, 0), FindLink(entries, 1),
                NoLink, Customs(entries)))
  }
  function LowerGroup(d: Dict): Result<Extras<()>, BuildError>
    requires IsGroup(d)
    decreases d, 0
  {
    match d
    case EmptyDict => Ok(NoExtras)
    case Bind(front, k, v) =>
      if LowerGroup(front).Err? || LowerChain(v).Err? then Err(NoSuchAttribute)
      // `custom_node.left.value` exists only when the branch is a single operand
      else if k > 1 && !(v.BinOp? && v.left.Descriptor?) then Err(NoSuchAttribute)
      else Ok(Extra(LowerGroup(front).value, k, LabelPipe(v), SpineTree(LowerChain(v).value)))
  }
  function LowerItem(e: Expr): Result<Tree<()>, BuildError>
    requires IsItemExpr(e)
    decreases e, 1
  {
    if e.BinOp? then
      if e.left.Factor? then WithRetries(LowerTask(e.right), e.left.count)
      else WithRetries(LowerTask(e.left), e.right.count)
    else LowerTask(e)
  }
  function LowerElem(e: Expr): Result<Tree<()>, BuildError>
    requires IsElemExpr(e)
    decreases e, 2
  {
    if e.BinOp? && e.left.Descriptor? then
      var r := LowerElem(e.right);
      if r.Err? then r else Ok(r.value.(mark := Marked(e.left.key, e.op)))
    else LowerItem(e)
  }
  function LowerChain(e: Expr): Result<Spine<()>, BuildError>
    requires IsChainExpr(e)
    decreases e, 3
  {
    if e.BinOp? && e.op != Retry && !e.left.Descriptor? then
      if LowerChain(e.left).Err? || LowerElem(e.right).Err? then Err(NoSuchAttribute)
      else Ok(Snoc(LowerChain(e.left).value, e.op, LowerElem(e.right).value))
    else
      if LowerElem(e).Err? then Err(NoSuchAttribute) else Ok(Last(LowerElem(e).value))
  }

  function WithRetries(r: Result<Tree<()>, BuildError>, n: nat): Result<Tree<()>, BuildError> {
    if r.Err? then r else Ok(r.value.(retries := Some(n)))
  }

  // ------------------------------------------------------------ a group, entry by entry

  function ExprSize(e: Expr): nat {
    match e
    case BinOp(_, l, r) => 1 + ExprSize(l) + ExprSize(r)
    case ConditionalBinOp(p, d) => 1 + ExprSize(p) + DictSize(d)
    case _ => 1
  }
  function DictSize(d: Dict): nat {
    match d case EmptyDict => 0 case Bind(front, _, v) => DictSize(front) + ExprSize(v)
  }

  /** `get_extra_descriptors`: the branches whose label is neither 0 nor 1. */
  function ExtraValues(d: Dict): seq<Expr> {
    match d
    case EmptyDict => []
    case Bind(front, k, v) => if k <= 1 then ExtraValues(front) else ExtraValues(front) + [v]
  }

  lemma {:induction false} GroupEntry(d: Dict, k: nat)
    requires IsGroup(d) && Lookup(d, k).Some?
    ensures var v := Lookup(d, k).value;
      IsChainExpr(v) && LeftmostDescriptor(v) == Some(k) && ExprSize(v) <= DictSize(d)
  {
    if d.key != k { GroupEntry(d.front, k); }
  }

  lemma {:induction false} GroupExtras(d: Dict, v: Expr)
    requires IsGroup(d) && v in ExtraValues(d)
    ensures IsChainExpr(v) && ExprSize(v) <= DictSize(d)
    ensures LeftmostDescriptor(v).Some? && 1 < LeftmostDescriptor(v).value < 10
  {
    if v in ExtraValues(d.front) { GroupExtras(d.front, v); }
  }

  predicate AllChains(vs: seq<Expr>) {
    forall v :: v in vs ==> IsChainExpr(v) && LeftmostDescriptor(v).Some?
  }

  /** What the loop over the custom branches builds. */
  function LowerCustoms(vs: seq<Expr>): Result<Extras<()>, BuildError>
    requires AllChains(vs)
  {
    if vs == [] then Ok(NoExtras)
    else
      var front, v := LowerCustoms(vs[..|vs| - 1]), vs[|vs| - 1];
      if front.Err? || LowerChain(v).Err? || !(v.BinOp? && v.left.Descriptor?) then Err(NoSuchAttribute)
      else Ok(Extra(front.value, v.left.key, v.op, SpineTree(LowerChain(v).value)))
  }

  function LowerEntry(d: Dict, k: nat): Result<Link<()>, BuildError>
    requires IsGroup(d)
  {
    if Lookup(d, k).None? then Ok(NoLink)
    else
      GroupEntry(d, k);
      var v := Lookup(d, k).value;
      if LowerChain(v).Err? then Err(NoSuchAttribute)
      else Ok(Link(LabelPipe(v), SpineTree(LowerChain(v).value)))
  }

  lemma {:induction false} GroupEntryLowers(d: Dict, k: nat)
    requires IsGroup(d) && k <= 1
    ensures LowerGroup(d).Ok? ==> LowerEntry(d, k) == Ok(FindLink(LowerGroup(d).value, k))
  {
    match d
    case EmptyDict =>
    case Bind(front, j, v) => GroupEntryLowers(front, k);
  }

  lemma LowerCustomsSnoc(vs: seq<Expr>, v: Expr, k: nat)
    requires AllChains(vs) && IsChainExpr(v) && LeftmostDescriptor(v) == Some(k)
    ensures AllChains(vs + [v])
    ensures LowerCustoms(vs + [v]) ==
      if LowerCustoms(vs).Err? || LowerChain(v).Err? || !(v.BinOp? && v.left.Descriptor?) then Err(NoSuchAttribute)
      else Ok(Extra(LowerCustoms(vs).value, k, LabelPipe(v), SpineTree(LowerChain(v).value)))
  {
    assert (vs + [v])[..|vs + [v]| - 1] == vs;
    if v.BinOp? && v.left.Descriptor? {
      assert LeftmostDescriptor(v.left) == Some(k);
    }
  }

  lemma {:induction false} GroupCustomsLower(d: Dict)
    requires IsGroup(d)
    ensures AllChains(ExtraValues(d))
    ensures LowerGroup(d).Ok? ==> LowerCustoms(ExtraValues(d)) == Ok(Customs(LowerGroup(d).value))
  {
    match d
    case EmptyDict =>
    case Bind(front, k, v) =>
      GroupCustomsLower(front);
      if k > 1 { LowerCustomsSnoc(ExtraValues(front), v, k); }
  }

  lemma {:induction false} GroupFails(d: Dict)
    requires IsGroup(d) && LowerGroup(d).Err? && AllChains(ExtraValues(d))
    ensures LowerEntry(d, 0).Err? || LowerEntry(d, 1).Err? || LowerCustoms(ExtraValues(d)).Err?
  {
    var Bind(front, k, v) := d;
    GroupCustomsLower(front);
    if LowerGroup(front).Err? { GroupFails(front); }
    if k > 1 { LowerCustomsSnoc(ExtraValues(front), v, k); }
  }

  /** A group lowers to its entries 0 and 1 and its custom branches. */
  lemma GroupParts(d: Dict)
    requires IsGroup(d)
    ensures AllChains(ExtraValues(d))
    ensures LowerGroup(d).Err? <==>
      LowerEntry(d, 0).Err? || LowerEntry(d, 1).Err? || LowerCustoms(ExtraValues(d)).Err?
    ensures LowerGroup(d).Ok? ==>
      && LowerEntry(d, 0) == Ok(FindLink(LowerGroup(d).value, 0))
      && LowerEntry(d, 1) == Ok(FindLink(LowerGroup(d).value, 1))
      && LowerCustoms(ExtraValues(d)) == Ok(Customs(LowerGroup(d).value))
  {
    GroupEntryLowers(d, 0);
    GroupEntryLowers(d, 1);
    GroupCustomsLower(d);
    if LowerGroup(d).Err? { GroupFails(d); }
  }

  /** The operator written after the label of a branch. */
  function LabelPipe(e: Expr): Pipe {
    if !e.BinOp? then Pointer
    else if e.left.Descriptor? then e.op
    else LabelPipe(e.left)
  }

  lemma SpineTreeMark<N>(s: Spine<N>)
    ensures SpineTree(s).mark == s.atom.mark
  {
  }

  lemma UnlabelledItem(e: Expr)
    requires IsItemExpr(e)
    ensures LeftmostDescriptor(e).None?
  {
    if e.BinOp? && !e.left.Factor? {
      assert IsTaskExpr(e.left);
    }
  }

  /** The label of a branch, as filed in its group, is the mark its first task carries. */
  lemma {:induction false} BranchRootMark(e: Expr)
    requires IsChainExpr(e) && LowerChain(e).Ok? && LeftmostDescriptor(e).Some?
    ensures SpineTree(LowerChain(e).value).mark == Marked(LeftmostDescriptor(e).value, LabelPipe(e))
    decreases e
  {
    if IsElemExpr(e) {
      if IsItemExpr(e) { UnlabelledItem(e); }
    } else {
      assert !e.left.Descriptor?;
      BranchRootMark(e.left);
      SpineTreeMark(LowerChain(e.left).value);
      SpineTreeMark(LowerChain(e).value);
    }
  }

  lemma ElemAsChain(e: Expr)
    requires IsElemExpr(e)
    ensures IsChainExpr(e) && LowerChain(e).Ok? == LowerElem(e).Ok?
    ensures LowerElem(e).Ok? ==> LowerChain(e) == Ok(Last(LowerElem(e).value))
  {
    assert e.BinOp? && !e.left.Descriptor? ==> IsItemExpr(e);
  }

  lemma TaskAsElem(e: Expr)
    requires IsTaskExpr(e)
    ensures IsElemExpr(e) && LowerElem(e) == LowerTask(e)
  {
    assert !e.BinOp?;
    assert IsItemExpr(e) && LowerItem(e) == LowerTask(e);
  }

  lemma {:induction false} ExtraKeys(d: Dict, k: nat)
    requires IsGroup(d) && Lookup(d, k).None?
    ensures forall v :: v in ExtraValues(d) ==> LeftmostDescriptor(v) != Some(k)
  {
    match d
    case EmptyDict =>
    case Bind(front, _, _) => ExtraKeys(front, k);
  }

  /** The custom branches of a group carry different labels. */
  lemma {:induction false} ExtraKeysDiffer(d: Dict)
    requires IsGroup(d)
    ensures forall i, j :: 0 <= i < j < |ExtraValues(d)| ==>
      LeftmostDescriptor(ExtraValues(d)[i]) != LeftmostDescriptor(ExtraValues(d)[j])
  {
    match d
    case EmptyDict =>
    case Bind(front, k, _) => ExtraKeysDiffer(front); ExtraKeys(front, k);
  }

  // ------------------------------------------------------------ parser output has this form

  lemma {:induction false} AssignIsGroup(d: Dict, k: nat, v: Expr)
    requires IsGroup(d) && IsChainExpr(v) && k < 10 && LeftmostDescriptor(v) == Some(k)
    ensures IsGroup(Replace(d, k, v))
    ensures IsGroup(Assign(d, k, v))
  {
    match d
    case EmptyDict =>
    case Bind(front, j, _) =>
      AssignIsGroup(front, k, v);
      ReplaceLookup(front, k, v, j);
  }

  lemma {:induction false} LeftmostBelowTen(e: Expr)
    requires IsChainExpr(e) && LeftmostDescriptor(e).Some?
    ensures LeftmostDescriptor(e).value < 10
    decreases e
  {
    if IsElemExpr(e) {
      if IsItemExpr(e) { UnlabelledItem(e); }
    } else {
      LeftmostBelowTen(e.left);
    }
  }

  lemma SetValueIsGroup(d: Dict, e: Expr)
    requires IsGroup(d) && IsChainExpr(e)
    ensures IsGroup(SetValue(d, e, e))
  {
    if LeftmostDescriptor(e).Some? {
      LeftmostBelowTen(e);
      AssignIsGroup(d, LeftmostDescriptor(e).value, e);
    }
  }

  lemma {:induction false} ChainAstForm(c: Chain)
    requires ValidChain(c)
    ensures IsChainExpr(ChainAst(c))
  {
    match c
    case One(e) => ElemAstForm(e);
    case More(f, op, e) => ChainAstForm(f); ElemAstForm(e); ChainExprKind(ChainAst(f));
  }
  lemma {:induction false} ElemAstForm(e: Elem)
    requires ValidElem(e)
    ensures IsElemExpr(ElemAst(e))
  {
    match e
    case Bare(Single(t)) => TaskAstForm(t);
    case Bare(TimesRight(t, _)) => TaskAstForm(t);
    case Bare(TimesLeft(_, t)) => TaskAstForm(t);
    case Labelled(_, _, r) => ElemAstForm(r);
  }
  lemma {:induction false} TaskAstForm(t: Task)
    requires ValidTask(t)
    ensures IsTaskExpr(TaskAst(t))
  {
    match t
    case Name(_) =>
    case Choice(u, bs) => TaskAstForm(u); BranchesAstForm(bs);
  }
  lemma {:induction false} BranchesAstForm(bs: Branches)
    requires ValidBranches(bs)
    ensures IsGroup(BranchesAst(bs))
  {
    match bs
    case Two(a, b) =>
      ChainAstForm(a); ChainAstForm(b);
      SetValueIsGroup(EmptyDict, ChainAst(a));
      SetValueIsGroup(SetValue(EmptyDict, ChainAst(a), ChainAst(a)), ChainAst(b));
    case Another(f, c) =>
      BranchesAstForm(f); ChainAstForm(c);
      BranchesWellKeyed(f);
      SetGroupIdentity(BranchesAst(f));
      SetValueIsGroup(BranchesAst(f), ChainAst(c));
  }
}
