/** Shared wrappers. */
module Wrappers {
  datatype Option<+T> = None | Some(value: T)
  datatype Result<+T, +E> = Ok(value: T) | Err(error: E)
}

/**
  The Pointy language: tokens, the concrete syntax of the grammar, and the abstract
  syntax trees that its semantic actions build.
 */
module Pointy {
  import opened Wrappers

  /** PipeType: `->`, `|->`, `||` and `*`. */
  datatype Pipe = Pointer | PipePointer | Parallelism | Retry

  datatype Token =
    | TaskToken(name: string)
    | NumberToken(number: nat)
    | OpToken(pipe: Pipe)
    | LParen
    | RParen
    | Separator

  // ------------------------------------------------------------ abstract syntax

  datatype Expr =
    | BinOp(op: Pipe, left: Expr, right: Expr)
    | TaskName(value: string)
    | Descriptor(key: nat)
    | Factor(count: nat)
    | ConditionalBinOp(parent: Expr, group: Dict)

  /** The `_descriptors` dictionary of a ConditionalGroup, oldest key innermost. */
  datatype Dict = EmptyDict | Bind(front: Dict, key: nat, value: Expr)

  function Lookup(d: Dict, key: nat): Option<Expr> {
    match d
    case EmptyDict => None
    case Bind(front, k, v) => if k == key then Some(v) else Lookup(front, key)
  }

  function Replace(d: Dict, key: nat, value: Expr): Dict {
    match d
    case EmptyDict => EmptyDict
    case Bind(front, k, v) =>
      if k == key then Bind(front, k, value) else Bind(Replace(front, key, value), k, v)
  }

  /** Dictionary assignment: an existing key keeps its place, a new one goes last. */
  function Assign(d: Dict, key: nat, value: Expr): Dict {
    if Lookup(d, key).None? then Bind(d, key, value) else Replace(d, key, value)
  }

  lemma {:induction false} ReplaceLookup(d: Dict, key: nat, value: Expr, k: nat)
    ensures Lookup(Replace(d, key, value), k)
         == if k == key && Lookup(d, key).Some? then Some(value) else Lookup(d, k)
  {
    match d
    case EmptyDict =>
    case Bind(front, _, _) => ReplaceLookup(front, key, value, k);
  }

  lemma AssignLookup(d: Dict, key: nat, value: Expr, k: nat)
    ensures Lookup(Assign(d, key, value), k) == if k == key then Some(value) else Lookup(d, k)
  {
    ReplaceLookup(d, key, value, k);
  }

  /** The descriptor that `set_value` reaches by going left, if there is one. */
  function LeftmostDescriptor(e: Expr): Option<nat> {
    match e
    case BinOp(_, left, _) => LeftmostDescriptor(left)
    case Descriptor(k) => Some(k)
    case _ => None
  }

  /** `set_value` on an expression: files `initial` under the leftmost descriptor. */
  function SetValue(d: Dict, value: Expr, initial: Expr): Dict {
    match LeftmostDescriptor(value)
    case Some(k) => Assign(d, k, initial)
    case None => d
  }

  /** `set_value` on a group: files its entries again, in order. */
  function SetGroup(d: Dict, g: Dict): Dict {
    match g
    case EmptyDict => d
    case Bind(front, _, v) => SetValue(SetGroup(d, front), v, v)
  }

  // ------------------------------------------------------------ concrete syntax

  /** A chain of elements joined by operators; the grammar's `expression`. */
  datatype Chain = One(elem: Elem) | More(front: Chain, op: Pipe, elem: Elem)
  /** An operand: an item, or an element labelled by a descriptor. */
  datatype Elem = Bare(item: Item) | Labelled(key: nat, op: Pipe, elem: Elem)
  datatype Item =
    | Single(task: Task)
    | TimesRight(task: Task, factor: nat)
    | TimesLeft(factor: nat, task: Task)
  datatype Task = Name(name: string) | Choice(task: Task, branches: Branches)
  /** The grammar's `task_group`: two or more expressions. */
  datatype Branches = Two(first: Chain, second: Chain) | Another(front: Branches, last: Chain)

  predicate ChainOp(op: Pipe) { op != Retry }
  predicate LabelOp(op: Pipe) { op == Pointer || op == PipePointer }

  predicate ValidChain(c: Chain) {
    match c
    case One(e) => ValidElem(e)
    case More(f, op, e) => ValidChain(f) && ChainOp(op) && ValidElem(e)
  }
  predicate ValidElem(e: Elem) {
    match e
    case Bare(i) => ValidItem(i)
    case Labelled(d, op, r) => d < 10 && LabelOp(op) && ValidElem(r)
  }
  predicate ValidItem(i: Item) {
    match i
    case Single(t) => ValidTask(t)
    case TimesRight(t, n) => ValidTask(t) && 2 <= n
    case TimesLeft(n, t) => ValidTask(t) && 2 <= n
  }
  predicate ValidTask(t: Task) {
    match t
    case Name(_) => true
    case Choice(u, bs) => ValidTask(u) && ValidBranches(bs)
  }
  predicate ValidBranches(bs: Branches) {
    match bs
    case Two(a, b) => ValidChain(a) && ValidChain(b)
    case Another(f, c) => ValidBranches(f) && ValidChain(c)
  }

  // The tokens of a phrase, followed by `rest`.

  function ChainTokens(c: Chain, rest: seq<Token>): seq<Token> {
    match c
    case One(e) => ElemTokens(e, rest)
    case More(f, op, e) => ChainTokens(f, [OpToken(op)] + ElemTokens(e, rest))
  }
  function ElemTokens(e: Elem, rest: seq<Token>): seq<Token> {
    match e
    case Bare(i) => ItemTokens(i, rest)
    case Labelled(d, op, r) => [NumberToken(d)] + ([OpToken(op)] + ElemTokens(r, rest))
  }
  function ItemTokens(i: Item, rest: seq<Token>): seq<Token> {
    match i
    case Single(t) => TaskTokens(t, rest)
    case TimesRight(t, n) => TaskTokens(t, [OpToken(Retry)] + ([NumberToken(n)] + rest))
    case TimesLeft(n, t) => [NumberToken(n)] + ([OpToken(Retry)] + TaskTokens(t, rest))
  }
  function TaskTokens(t: Task, rest: seq<Token>): seq<Token> {
    match t
    case Name(s) => [TaskToken(s)] + rest
    case Choice(u, bs) => TaskTokens(u, [LParen] + BranchTokens(bs, [RParen] + rest))
  }
  function BranchTokens(bs: Branches, rest: seq<Token>): seq<Token> {
    match bs
    case Two(a, b) => ChainTokens(a, [Separator] + ChainTokens(b, rest))
    case Another(f, c) => BranchTokens(f, [Separator] + ChainTokens(c, rest))
  }

  // The tree the semantic actions build for a phrase.

  function ChainAst(c: Chain): Expr {
    match c
    case One(e) => ElemAst(e)
    case More(f, op, e) => BinOp(op, ChainAst(f), ElemAst(e))
  }
  function ElemAst(e: Elem): Expr {
    match e
    case Bare(i) => ItemAst(i)
    case Labelled(d, op, r) => BinOp(op, Descriptor(d), ElemAst(r))
  }
  function ItemAst(i: Item): Expr {
    match i
    case Single(t) => TaskAst(t)
    case TimesRight(t, n) => BinOp(Retry, TaskAst(t), Factor(n))
    case TimesLeft(n, t) => BinOp(Retry, Factor(n), TaskAst(t))
  }
  function TaskAst(t: Task): Expr {
    match t
    case Name(s) => TaskName(s)
    case Choice(u, bs) => ConditionalBinOp(TaskAst(u), BranchesAst(bs))
  }
  /** ConditionalGroup(expr0, expr1), where expr0 is an expression or a group. */
  function BranchesAst(bs: Branches): Dict {
    match bs
    case Two(a, b) =>
      SetValue(SetValue(EmptyDict, ChainAst(a), ChainAst(a)), ChainAst(b), ChainAst(b))
    case Another(f, c) =>
      SetValue(SetGroup(EmptyDict, BranchesAst(f)), ChainAst(c), ChainAst(c))
  }

  // ------------------------------------------------------------ merging of branches

  /** The i-th branch of a group, in written order. */
  function BranchSeq(bs: Branches): (r: seq<Chain>)
    ensures |r| >= 2
  {
    match bs
    case Two(a, b) => [a, b]
    case Another(f, c) => BranchSeq(f) + [c]
  }

  /** The last branch of `cs` whose label is `key`. */
  function LastLabelled(cs: seq<Chain>, key: nat): Option<Expr> {
    if cs == [] then None
    else
      var last := ChainAst(cs[|cs| - 1]);
      if LeftmostDescriptor(last) == Some(key) then Some(last)
      else LastLabelled(cs[..|cs| - 1], key)
  }

  /** Every entry is filed under its own leftmost descriptor, and keys are unique. */
  predicate WellKeyed(d: Dict) {
    match d
    case EmptyDict => true
    case Bind(front, k, v) =>
      WellKeyed(front) && LeftmostDescriptor(v) == Some(k) && Lookup(front, k).None?
  }

  lemma {:induction false} ReplaceWellKeyed(d: Dict, k: nat, v: Expr)
    requires WellKeyed(d) && LeftmostDescriptor(v) == Some(k)
    ensures WellKeyed(Replace(d, k, v))
  {
    match d
    case EmptyDict =>
    case Bind(front, j, _) =>
      ReplaceWellKeyed(front, k, v);
      ReplaceLookup(front, k, v, j);
  }

  lemma SetValueWellKeyed(d: Dict, e: Expr)
    requires WellKeyed(d)
    ensures WellKeyed(SetValue(d, e, e))
  {
    if LeftmostDescriptor(e).Some? {
      ReplaceWellKeyed(d, LeftmostDescriptor(e).value, e);
    }
  }

  /** Filing a well-keyed group again gives the same group: merging loses nothing. */
  lemma {:induction false} SetGroupIdentity(g: Dict)
    requires WellKeyed(g)
    ensures SetGroup(EmptyDict, g) == g
  {
    match g
    case EmptyDict =>
    case Bind(front, _, _) => SetGroupIdentity(front);
  }

  lemma {:induction false} BranchesWellKeyed(bs: Branches)
    ensures WellKeyed(BranchesAst(bs))
  {
    match bs
    case Two(a, b) =>
      SetValueWellKeyed(EmptyDict, ChainAst(a));
      SetValueWellKeyed(SetValue(EmptyDict, ChainAst(a), ChainAst(a)), ChainAst(b));
    case Another(f, c) =>
      BranchesWellKeyed(f);
      SetGroupIdentity(BranchesAst(f));
      SetValueWellKeyed(BranchesAst(f), ChainAst(c));
  }

  lemma SetValueLookup(d: Dict, e: Expr, key: nat)
    ensures Lookup(SetValue(d, e, e), key)
         == if LeftmostDescriptor(e) == Some(key) then Some(e) else Lookup(d, key)
  {
    if LeftmostDescriptor(e).Some? {
      AssignLookup(d, LeftmostDescriptor(e).value, e, key);
    }
  }

  lemma LastLabelledSnoc(cs: seq<Chain>, c: Chain, key: nat)
    ensures LastLabelled(cs + [c], key)
         == if LeftmostDescriptor(ChainAst(c)) == Some(key) then Some(ChainAst(c))
            else LastLabelled(cs, key)
  {
    assert (cs + [c])[..|cs + [c]| - 1] == cs;
  }

  /**
    For every group, however many branches were merged two by two, the dictionary
    binds each descriptor to the whole expression of the last branch that carries it,
    and branches without a descriptor leave no entry.
   */
  lemma {:induction false} MergeBindsWholeBranches(bs: Branches, key: nat)
    ensures Lookup(BranchesAst(bs), key) == LastLabelled(BranchSeq(bs), key)
  {
    match bs
    case Two(a, b) =>
      SetValueLookup(EmptyDict, ChainAst(a), key);
      SetValueLookup(SetValue(EmptyDict, ChainAst(a), ChainAst(a)), ChainAst(b), key);
      LastLabelledSnoc([], a, key);
      LastLabelledSnoc([a], b, key);
      assert [] + [a] == [a] && [a] + [b] == [a, b];
    case Another(f, c) =>
      MergeBindsWholeBranches(f, key);
      BranchesWellKeyed(f);
      SetGroupIdentity(BranchesAst(f));
      SetValueLookup(BranchesAst(f), ChainAst(c), key);
      LastLabelledSnoc(BranchSeq(f), c, key);
  }
}
