/**
  Well-formed Pointy programs: a chain of tasks joined by operators, where a task may
  have a retry factor and a group of labelled branches. This module gives their tokens,
  the tree the parser builds for them, and the task tree they stand for.
 */
module Programs {
  import opened Wrappers
  import opened Pointy
  import Parser
  import opened TaskTree

  datatype Program = Program(atom: Atom, next: Next)
  datatype Next = Done | Then(op: Pipe, rest: Program)
  datatype Atom = Atom(name: string, times: Times, cases: Cases)
  datatype Times = Once | After(count: nat) | Before(count: nat)
  /** Branches in written order; a task without branches is plain. */
  datatype Cases = NoCases | Case(key: nat, op: Pipe, body: Program, more: Cases)

  predicate Plain(a: Atom) { a.cases.NoCases? }

  predicate HasCase(cs: Cases, key: nat) {
    match cs case NoCases => false case Case(k, _, _, more) => k == key || HasCase(more, key)
  }

  predicate WellFormed(p: Program) { WellFormedAtom(p.atom) && WellFormedNext(p.next) }
  predicate WellFormedNext(n: Next) {
    match n case Done => true case Then(op, rest) => ChainOp(op) && WellFormed(rest)
  }
  predicate WellFormedAtom(a: Atom) {
    && (a.times.Once? || 2 <= a.times.count)
    && (a.cases.NoCases? || (a.cases.more.Case? && WellFormedCases(a.cases)))
  }
  /** Distinct labels below ten; branches 2 to 9 are a single task. */
  predicate WellFormedCases(cs: Cases) {
    match cs
    case NoCases => true
    case Case(k, op, body, more) =>
      && k < 10 && LabelOp(op) && WellFormed(body) && (k > 1 ==> body.next.Done?)
      && !HasCase(more, k) && WellFormedCases(more)
  }

  // ------------------------------------------------------------ tokens

  function Tokens(p: Program, rest: seq<Token>): seq<Token> {
    AtomTokens(p.atom, NextTokens(p.next, rest))
  }
  function NextTokens(n: Next, rest: seq<Token>): seq<Token> {
    match n case Done => rest case Then(op, p) => [OpToken(op)] + Tokens(p, rest)
  }
  function AtomTokens(a: Atom, rest: seq<Token>): seq<Token> {
    match a.times
    case Once => [TaskToken(a.name)] + GroupTokens(a.cases, rest)
    case After(n) => [TaskToken(a.name)] + GroupTokens(a.cases, [OpToken(Retry)] + ([NumberToken(n)] + rest))
    case Before(n) => [NumberToken(n)] + ([OpToken(Retry)] + ([TaskToken(a.name)] + GroupTokens(a.cases, rest)))
  }
  function GroupTokens(cs: Cases, rest: seq<Token>): seq<Token> {
    match cs
    case NoCases => rest
    case Case(k, op, body, more) =>
      [LParen] + ([NumberToken(k)] + ([OpToken(op)] + Tokens(body, MoreTokens(more, [RParen] + rest))))
  }
  function MoreTokens(cs: Cases, rest: seq<Token>): seq<Token> {
    match cs
    case NoCases => rest
    case Case(k, op, body, more) =>
      [Separator] + ([NumberToken(k)] + ([OpToken(op)] + Tokens(body, MoreTokens(more, rest))))
  }

  // ------------------------------------------------------------ as a phrase of the grammar

  function Syntax(p: Program): Chain
    decreases p
  {
    Extend(One(ElemOf(p.atom)), p.next)
  }
  function Extend(c: Chain, n: Next): Chain
    decreases n
  {
    match n case Done => c case Then(op, p) => Extend(More(c, op, ElemOf(p.atom)), p.next)
  }
  function ElemOf(a: Atom): Elem
    decreases a, 1
  {
    match a.times
    case Once => Bare(Single(TaskOf(a)))
    case After(n) => Bare(TimesRight(TaskOf(a), n))
    case Before(n) => Bare(TimesLeft(n, TaskOf(a)))
  }
  /** A group has two branches or more. */
  function TaskOf(a: Atom): Task
    decreases a, 0
  {
    if a.cases.Case? && a.cases.more.Case? then Choice(Name(a.name), CasesOf(a.cases))
    else Name(a.name)
  }
  function CasesOf(cs: Cases): Branches
    requires cs.Case? && cs.more.Case?
    decreases cs
  {
    var second := cs.more;
    ExtendCases(Two(BranchOf(cs.key, cs.op, cs.body), BranchOf(second.key, second.op, second.body)), second.more)
  }
  function BranchOf(k: nat, op: Pipe, body: Program): Chain
    decreases body
  {
    Extend(One(Labelled(k, op, ElemOf(body.atom))), body.next)
  }
  function ExtendCases(bs: Branches, cs: Cases): Branches
    decreases cs
  {
    match cs
    case NoCases => bs
    case Case(k, op, body, more) => ExtendCases(Another(bs, BranchOf(k, op, body)), more)
  }

  // ------------------------------------------------------------ the task tree of a program

  function Graph(p: Program): Tree<()> { MarkedGraph(Unmarked, p) }

  function MarkedGraph(m: Mark, p: Program): Tree<()>
    decreases p
  {
    AndThen(AtomTree(m, p.atom), p.next)
  }
  function AndThen(t: Tree<()>, n: Next): Tree<()>
    decreases n
  {
    match n
    case Done => t
    case Then(op, rest) => Attach(t, op, AndThen(AtomTree(Unmarked, rest.atom), rest.next))
  }
  function AtomTree(m: Mark, a: Atom): Tree<()>
    decreases a
  {
    var entries := Entries(NoExtras, a.cases);
    Tree((), a.name, if a.times.Once? then None else Some(a.times.count), m,
         FindLink(entries, 0), FindLink(entries, 1), NoLink, Customs(entries))
  }
  function Entries(acc: Extras<()>, cs: Cases): Extras<()>
    decreases cs
  {
    match cs
    case NoCases => acc
    case Case(k, op, body, more) =>
      Entries(Extra(acc, k, op, MarkedGraph(Marked(k, op), body)), more)
  }

  // ------------------------------------------------------------ the phrase spells the tokens

  lemma {:induction false} ExtendTokens(c: Chain, n: Next, rest: seq<Token>)
    requires WellFormedNext(n)
    ensures ChainTokens(Extend(c, n), rest) == ChainTokens(c, NextTokens(n, rest))
    decreases n
  {
    match n
    case Done =>
    case Then(op, p) =>
      ExtendTokens(More(c, op, ElemOf(p.atom)), p.next, rest);
      ElemOfTokens(p.atom, NextTokens(p.next, rest));
  }
  lemma {:induction false} ElemOfTokens(a: Atom, rest: seq<Token>)
    requires WellFormedAtom(a)
    ensures ElemTokens(ElemOf(a), rest) == AtomTokens(a, rest)
    decreases a, 1
  {
    match a.times
    case Once => TaskOfTokens(a, rest);
    case After(n) => TaskOfTokens(a, [OpToken(Retry)] + ([NumberToken(n)] + rest));
    case Before(n) => TaskOfTokens(a, rest);
  }
  lemma {:induction false} TaskOfTokens(a: Atom, rest: seq<Token>)
    requires WellFormedAtom(a)
    ensures TaskTokens(TaskOf(a), rest) == [TaskToken(a.name)] + GroupTokens(a.cases, rest)
    decreases a, 0
  {
    match a.cases
    case NoCases =>
    case Case(k, op, body, more) =>
      assert WellFormedCases(more);
      var close := [RParen] + rest;
      var first := BranchOf(k, op, body);
      var second := BranchOf(more.key, more.op, more.body);
      ExtendCasesTokens(Two(first, second), more.more, close);
      var tail := MoreTokens(more.more, close);
      BranchOfTokens(more.key, more.op, more.body, tail);
      BranchOfTokens(k, op, body, [Separator] + ChainTokens(second, tail));
      assert TaskTokens(Name(a.name), [LParen] + BranchTokens(CasesOf(a.cases), close))
          == [TaskToken(a.name)] + ([LParen] + BranchTokens(CasesOf(a.cases), close));
  }
  lemma {:induction false} BranchOfTokens(k: nat, op: Pipe, body: Program, rest: seq<Token>)
    requires WellFormed(body)
    ensures ChainTokens(BranchOf(k, op, body), rest) == [NumberToken(k)] + ([OpToken(op)] + Tokens(body, rest))
    decreases body
  {
    ExtendTokens(One(Labelled(k, op, ElemOf(body.atom))), body.next, rest);
    ElemOfTokens(body.atom, NextTokens(body.next, rest));
    Parser.OneLabelled(k, op, ElemOf(body.atom), NextTokens(body.next, rest));
  }
  lemma {:induction false} ExtendCasesTokens(bs: Branches, cs: Cases, rest: seq<Token>)
    requires WellFormedCases(cs)
    ensures BranchTokens(ExtendCases(bs, cs), rest) == BranchTokens(bs, MoreTokens(cs, rest))
    decreases cs
  {
    match cs
    case NoCases =>
    case Case(k, op, body, more) =>
      ExtendCasesTokens(Another(bs, BranchOf(k, op, body)), more, rest);
      BranchOfTokens(k, op, body, MoreTokens(more, rest));
  }

  lemma {:induction false} ExtendValid(c: Chain, n: Next)
    requires ValidChain(c) && WellFormedNext(n)
    ensures ValidChain(Extend(c, n))
    decreases n
  {
    match n
    case Done =>
    case Then(op, p) => ElemOfValid(p.atom); ExtendValid(More(c, op, ElemOf(p.atom)), p.next);
  }
  lemma {:induction false} ElemOfValid(a: Atom)
    requires WellFormedAtom(a)
    ensures ValidElem(ElemOf(a))
    decreases a
  {
    assert ValidTask(TaskOf(a)) by {
      match a.cases
      case NoCases =>
      case Case(k, op, body, more) =>
        assert WellFormedCases(more);
        BranchOfValid(k, op, body);
        BranchOfValid(more.key, more.op, more.body);
        ExtendCasesValid(
          Two(BranchOf(k, op, body), BranchOf(more.key, more.op, more.body)), more.more);
    }
  }
  lemma {:induction false} BranchOfValid(k: nat, op: Pipe, body: Program)
    requires WellFormed(body) && k < 10 && LabelOp(op)
    ensures ValidChain(BranchOf(k, op, body))
    decreases body
  {
    ElemOfValid(body.atom);
    Parser.OneLabelled(k, op, ElemOf(body.atom), []);
    ExtendValid(One(Labelled(k, op, ElemOf(body.atom))), body.next);
  }
  lemma {:induction false} ExtendCasesValid(bs: Branches, cs: Cases)
    requires ValidBranches(bs) && WellFormedCases(cs)
    ensures ValidBranches(ExtendCases(bs, cs))
    decreases cs
  {
    match cs
    case NoCases =>
    case Case(k, op, body, more) =>
      BranchOfValid(k, op, body);
      ExtendCasesValid(Another(bs, BranchOf(k, op, body)), more);
  }

  /** The tree of a program: what the semantic actions build from its tokens. */
  function ProgramAst(p: Program): Expr { ChainAst(Syntax(p)) }

  /**
    Parse round trip: on the tokens of any well-formed program, the shift-reduce
    machine accepts and rebuilds the program's tree.
   */
  lemma ParseRoundTrip(p: Program)
    requires WellFormed(p)
    ensures Parser.Spells(Syntax(p), Tokens(p, []))
    ensures Parser.Run(Parser.Bottom, Tokens(p, [])) == Ok(ProgramAst(p))
  {
    ElemOfValid(p.atom);
    ElemOfTokens(p.atom, NextTokens(p.next, []));
    ExtendTokens(One(ElemOf(p.atom)), p.next, []);
    ExtendValid(One(ElemOf(p.atom)), p.next);
    Parser.AcceptsEveryPhrase(Syntax(p));
  }

  // ------------------------------------------------------------ the phrase lowers to the graph

  function SpineExtend(s: Spine<()>, n: Next): Spine<()>
    decreases n
  {
    match n
    case Done => s
    case Then(op, p) => SpineExtend(Snoc(s, op, AtomTree(Unmarked, p.atom)), p.next)
  }

  lemma {:induction false} SpineExtendStep(a: Tree<()>, pipe: Pipe, s: Spine<()>, n: Next)
    ensures SpineExtend(Step(a, pipe, s), n) == Step(a, pipe, SpineExtend(s, n))
    decreases n
  {
    match n
    case Done =>
    case Then(op, p) => SpineExtendStep(a, pipe, Snoc(s, op, AtomTree(Unmarked, p.atom)), p.next);
  }

  lemma {:induction false} SpineExtendTree(a: Tree<()>, n: Next)
    ensures SpineTree(SpineExtend(Last(a), n)) == AndThen(a, n)
    decreases n
  {
    match n
    case Done =>
    case Then(op, p) =>
      var b := AtomTree(Unmarked, p.atom);
      SpineExtendStep(a, op, Last(b), p.next);
      SpineExtendTree(b, p.next);
  }

  lemma {:induction false} ExtendLowers(c: Chain, n: Next, s: Spine<()>)
    requires ValidChain(c) && WellFormedNext(n)
    requires IsChainExpr(ChainAst(c)) && LowerChain(ChainAst(c)) == Ok(s)
    ensures IsChainExpr(ChainAst(Extend(c, n)))
    ensures LowerChain(ChainAst(Extend(c, n))) == Ok(SpineExtend(s, n))
    decreases n
  {
    match n
    case Done =>
    case Then(op, p) =>
      ElemOfValid(p.atom);
      ElemOfLowers(p.atom);
      ChainExprKind(ChainAst(c));
      var c' := More(c, op, ElemOf(p.atom));
      assert ChainAst(c') == BinOp(op, ChainAst(c), ElemAst(ElemOf(p.atom)));
      ExtendLowers(c', p.next, Snoc(s, op, AtomTree(Unmarked, p.atom)));
  }

  lemma {:induction false} ElemOfLowers(a: Atom)
    requires WellFormedAtom(a)
    ensures IsElemExpr(ElemAst(ElemOf(a)))
    ensures LowerElem(ElemAst(ElemOf(a))) == Ok(AtomTree(Unmarked, a))
    decreases a, 1
  {
    ElemOfValid(a);
    ElemAstForm(ElemOf(a));
    TaskOfLowers(a);
    var t := TaskAst(TaskOf(a));
    match a.times
    case Once => assert IsItemExpr(t);
    case After(n) => assert LowerItem(BinOp(Retry, t, Factor(n))) == WithRetries(LowerTask(t), n);
    case Before(n) => assert LowerItem(BinOp(Retry, Factor(n), t)) == WithRetries(LowerTask(t), n);
  }

  lemma {:induction false} TaskOfLowers(a: Atom)
    requires WellFormedAtom(a)
    ensures IsTaskExpr(TaskAst(TaskOf(a)))
    ensures LowerTask(TaskAst(TaskOf(a))) == Ok(AtomTree(Unmarked, a).(retries := None))
    decreases a, 0
  {
    match a.cases
    case NoCases =>
    case Case(k, op, body, more) =>
      assert WellFormedCases(more);
      var first := ChainAst(BranchOf(k, op, body));
      var second := ChainAst(BranchOf(more.key, more.op, more.body));
      BranchOfLowers(k, op, body);
      BranchOfLowers(more.key, more.op, more.body);
      BranchOfValid(k, op, body);
      BranchOfValid(more.key, more.op, more.body);
      assert HasCase(more, more.key) && !HasCase(more, k);
      var bs := Two(BranchOf(k, op, body), BranchOf(more.key, more.op, more.body));
      TwoDict(first, second, k, more.key);
      var x1 := Extra(NoExtras, k, op, MarkedGraph(Marked(k, op), body));
      var x2 := Extra(x1, more.key, more.op, MarkedGraph(Marked(more.key, more.op), more.body));
      LowerGroupBind(EmptyDict, NoExtras, k, op, body);
      LowerGroupBind(Bind(EmptyDict, k, first), x1, more.key, more.op, more.body);
      forall j | HasCase(more.more, j) ensures Lookup(BranchesAst(bs), j).None? {
        assert HasCase(more, j);
      }
      ExtendCasesLowers(bs, more.more, x2);
      assert Entries(NoExtras, a.cases) == Entries(x1, more) == Entries(x2, more.more);
  }

  lemma TwoDict(first: Expr, second: Expr, k: nat, j: nat)
    requires LeftmostDescriptor(first) == Some(k) && LeftmostDescriptor(second) == Some(j) && j != k
    ensures SetValue(SetValue(EmptyDict, first, first), second, second)
         == Bind(Bind(EmptyDict, k, first), j, second)
    ensures forall i :: i != j && i != k ==> Lookup(Bind(Bind(EmptyDict, k, first), j, second), i).None?
  {
    assert SetValue(EmptyDict, first, first) == Bind(EmptyDict, k, first);
    assert Lookup(Bind(EmptyDict, k, first), j).None?;
    forall i | i != j && i != k ensures Lookup(Bind(Bind(EmptyDict, k, first), j, second), i).None? {
      assert Lookup(Bind(EmptyDict, k, first), i).None?;
    }
  }

  lemma {:induction false} BranchOfLowers(k: nat, op: Pipe, body: Program)
    requires WellFormed(body) && k < 10 && LabelOp(op)
    ensures var e := ChainAst(BranchOf(k, op, body));
      && IsChainExpr(e) && LowerChain(e).Ok?
      && SpineTree(LowerChain(e).value) == MarkedGraph(Marked(k, op), body)
      && LeftmostDescriptor(e) == Some(k) && LabelPipe(e) == op
      && (body.next.Done? ==> e.BinOp? && e.left.Descriptor?)
    decreases body
  {
    var el := Labelled(k, op, ElemOf(body.atom));
    BranchOfValid(k, op, body);
    ElemOfValid(body.atom);
    ElemOfLowers(body.atom);
    Parser.OneLabelled(k, op, ElemOf(body.atom), []);
    var e0 := ChainAst(One(el));
    assert LowerElem(e0) == Ok(AtomTree(Marked(k, op), body.atom));
    ExtendLowers(One(el), body.next, Last(AtomTree(Marked(k, op), body.atom)));
    SpineExtendTree(AtomTree(Marked(k, op), body.atom), body.next);
    ExtendLabel(One(el), body.next, k, op);
  }

  lemma {:induction false} ExtendLabel(c: Chain, n: Next, k: nat, op: Pipe)
    requires IsChainExpr(ChainAst(c)) || ChainAst(c).BinOp?
    requires LeftmostDescriptor(ChainAst(c)) == Some(k) && LabelPipe(ChainAst(c)) == op
    ensures LeftmostDescriptor(ChainAst(Extend(c, n))) == Some(k) && LabelPipe(ChainAst(Extend(c, n))) == op
    decreases n
  {
    match n
    case Done =>
    case Then(o, p) =>
      if !ChainAst(c).BinOp? { ChainExprKind(ChainAst(c)); }
      ExtendLabel(More(c, o, ElemOf(p.atom)), p.next, k, op);
  }

  lemma LowerGroupBind(d: Dict, x: Extras<()>, k: nat, op: Pipe, body: Program)
    requires WellFormed(body) && k < 10 && LabelOp(op) && (k > 1 ==> body.next.Done?)
    requires IsGroup(d) && LowerGroup(d) == Ok(x) && Lookup(d, k).None?
    requires var e := ChainAst(BranchOf(k, op, body));
      && IsChainExpr(e) && LowerChain(e).Ok?
      && SpineTree(LowerChain(e).value) == MarkedGraph(Marked(k, op), body)
      && LeftmostDescriptor(e) == Some(k) && LabelPipe(e) == op
      && (body.next.Done? ==> e.BinOp? && e.left.Descriptor?)
    ensures var d' := Bind(d, k, ChainAst(BranchOf(k, op, body)));
      IsGroup(d') && LowerGroup(d') == Ok(Extra(x, k, op, MarkedGraph(Marked(k, op), body)))
  {
  }

  lemma {:induction false} ExtendCasesLowers(bs: Branches, cs: Cases, x: Extras<()>)
    requires ValidBranches(bs) && WellFormedCases(cs)
    requires IsGroup(BranchesAst(bs)) && LowerGroup(BranchesAst(bs)) == Ok(x)
    requires forall k :: HasCase(cs, k) ==> Lookup(BranchesAst(bs), k).None?
    ensures IsGroup(BranchesAst(ExtendCases(bs, cs)))
    ensures LowerGroup(BranchesAst(ExtendCases(bs, cs))) == Ok(Entries(x, cs))
    decreases cs
  {
    match cs
    case NoCases =>
    case Case(k, op, body, more) =>
      var bs' := Another(bs, BranchOf(k, op, body));
      var e := ChainAst(BranchOf(k, op, body));
      BranchOfLowers(k, op, body);
      BranchOfValid(k, op, body);
      BranchesWellKeyed(bs);
      SetGroupIdentity(BranchesAst(bs));
      assert HasCase(cs, k);
      assert BranchesAst(bs') == Bind(BranchesAst(bs), k, e);
      LowerGroupBind(BranchesAst(bs), x, k, op, body);
      forall j | HasCase(more, j) ensures Lookup(BranchesAst(bs'), j).None? {
        assert HasCase(cs, j);
      }
      ExtendCasesLowers(bs', more, Extra(x, k, op, MarkedGraph(Marked(k, op), body)));
  }

  /** A well-formed program builds without error, and its shape is the program's graph. */
  lemma ProgramLowers(p: Program)
    requires WellFormed(p)
    ensures IsChainExpr(ProgramAst(p))
    ensures LowerChain(ProgramAst(p)).Ok? && SpineTree(LowerChain(ProgramAst(p)).value) == Graph(p)
  {
    var el := ElemOf(p.atom);
    ElemOfValid(p.atom);
    ElemOfLowers(p.atom);
    var e0 := ChainAst(One(el));
    assert e0 == ElemAst(el);
    assert IsChainExpr(e0) by { ChainAstForm(One(el)); }
    ElemAsChain(e0);
    ExtendLowers(One(el), p.next, Last(AtomTree(Unmarked, p.atom)));
    SpineExtendTree(AtomTree(Unmarked, p.atom), p.next);
  }

  // ------------------------------------------------------------ branches of a task

  function CaseLink(cs: Cases, key: nat): Link<()> {
    match cs
    case NoCases => NoLink
    case Case(k, op, body, more) =>
      if k == key then Link(op, MarkedGraph(Marked(k, op), body)) else CaseLink(more, key)
  }

  lemma {:induction false} NoCaseLink(cs: Cases, key: nat)
    ensures CaseLink(cs, key).Link? == HasCase(cs, key)
  {
    match cs
    case NoCases =>
    case Case(_, _, _, more) => NoCaseLink(more, key);
  }

  lemma {:induction false} FindEntry(acc: Extras<()>, cs: Cases, key: nat)
    requires WellFormedCases(cs)
    ensures FindLink(Entries(acc, cs), key)
         == if HasCase(cs, key) then CaseLink(cs, key) else FindLink(acc, key)
    decreases cs
  {
    match cs
    case NoCases =>
    case Case(k, op, body, more) =>
      FindEntry(Extra(acc, k, op, MarkedGraph(Marked(k, op), body)), more, key);
  }

  lemma {:induction false} EntriesUnique(acc: Extras<()>, cs: Cases)
    requires WellFormedCases(cs) && UniqueKeys(acc)
    requires forall k :: HasCase(cs, k) ==> FindLink(acc, k).NoLink?
    ensures UniqueKeys(Entries(acc, cs))
    decreases cs
  {
    match cs
    case NoCases =>
    case Case(k, op, body, more) =>
      assert HasCase(cs, k);
      assert forall j :: HasCase(more, j) ==> HasCase(cs, j);
      EntriesUnique(Extra(acc, k, op, MarkedGraph(Marked(k, op), body)), more);
  }

  /** A branch of the program is the link of the same descriptor in its graph. */
  lemma AtomLinks(m: Mark, a: Atom, key: nat)
    requires WellFormedAtom(a)
    ensures AtomTree(m, a).fail == CaseLink(a.cases, 0)
    ensures AtomTree(m, a).succ == CaseLink(a.cases, 1)
    ensures key > 1 ==> FindLink(AtomTree(m, a).extras, key) == CaseLink(a.cases, key)
  {
    FindEntry(NoExtras, a.cases, 0);
    FindEntry(NoExtras, a.cases, 1);
    FindEntry(NoExtras, a.cases, key);
    FindCustom(Entries(NoExtras, a.cases), key);
    NoCaseLink(a.cases, 0);
    NoCaseLink(a.cases, 1);
    NoCaseLink(a.cases, key);
  }

  /** In a well-formed program, exactly the tasks with branches are conditional. */
  lemma ConditionalAtom(m: Mark, a: Atom)
    requires WellFormedAtom(a)
    ensures IsConditional(AtomTree(m, a)) == !Plain(a)
    ensures AtomTree(m, a).sink.NoLink?
    ensures Plain(a) ==> AtomTree(m, a).succ.NoLink? && AtomTree(m, a).fail.NoLink?
  {
    if !Plain(a) {
      var k, j := a.cases.key, a.cases.more.key;
      assert HasCase(a.cases.more, j);
      assert HasCase(a.cases, k) && HasCase(a.cases, j);
      AtomLinks(m, a, k);
      AtomLinks(m, a, j);
      NoCaseLink(a.cases, k);
      NoCaseLink(a.cases, j);
    }
  }

  // ------------------------------------------------------------ the size of the graph

  /** The number of task names in a program. */
  function ProgramSize(p: Program): (r: nat)
    ensures r > CasesSize(p.atom.cases)
    ensures p.next.Then? ==> r > CasesSize(p.atom.cases) + ProgramSize(p.next.rest)
  {
    1 + CasesSize(p.atom.cases) + match p.next case Done => 0 case Then(_, rest) => ProgramSize(rest)
  }
  function CasesSize(cs: Cases): (r: nat)
    ensures cs.Case? ==> r > CasesSize(cs.more) && r >= ProgramSize(cs.body)
  {
    match cs case NoCases => 0 case Case(_, _, body, more) => ProgramSize(body) + CasesSize(more)
  }

  lemma {:induction false} SplitSize<N>(x: Extras<N>)
    requires UniqueKeys(x)
    ensures ExtrasSize(x) == LinkSize(FindLink(x, 0)) + LinkSize(FindLink(x, 1)) + ExtrasSize(Customs(x))
  {
    match x
    case NoExtras =>
    case Extra(front, _, p, t) =>
      SplitSize(front);
      assert LinkSize(Link(p, t)) == Size(t);
  }

  /** The graph of a program has one task for each name. */
  lemma {:induction false} GraphSize(m: Mark, p: Program)
    requires WellFormed(p)
    ensures Size(MarkedGraph(m, p)) == ProgramSize(p)
    decreases p, 1
  {
    var a := AtomTree(m, p.atom);
    AtomSize(m, p.atom);
    ConditionalAtom(m, p.atom);
    if p.next.Then? {
      var rest := Graph(p.next.rest);
      GraphSize(Unmarked, p.next.rest);
      assert MarkedGraph(m, p) == Attach(a, p.next.op, rest);
      assert LinkSize(Link(p.next.op, rest)) == Size(rest);
    }
  }
  lemma {:induction false} AtomSize(m: Mark, a: Atom)
    requires WellFormedAtom(a)
    ensures Size(AtomTree(m, a)) == 1 + CasesSize(a.cases)
    decreases a, 0
  {
    EntriesUnique(NoExtras, a.cases);
    EntriesSize(NoExtras, a.cases);
    SplitSize(Entries(NoExtras, a.cases));
  }
  lemma {:induction false} EntriesSize(acc: Extras<()>, cs: Cases)
    requires WellFormedCases(cs)
    ensures ExtrasSize(Entries(acc, cs)) == ExtrasSize(acc) + CasesSize(cs)
    decreases cs, 0
  {
    match cs
    case NoCases =>
    case Case(k, op, body, more) =>
      GraphSize(Marked(k, op), body);
      EntriesSize(Extra(acc, k, op, MarkedGraph(Marked(k, op), body)), more);
  }
}
