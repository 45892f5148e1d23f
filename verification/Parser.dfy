/**
  The shift-reduce machine given by the LALR tables, with the semantic actions of the
  grammar, and its agreement with the concrete syntax in both directions.
 */
module Parser {
  import opened Wrappers
  import opened Pointy

  // ------------------------------------------------------------ tables

  datatype Terminal = TNumber | TTaskName | TOp(pipe: Pipe) | TLParen | TRParen | TSeparator | TEnd
  datatype NonTerminal = NExpression | NDescriptor | NFactor | NTask | NTerm | NTaskGroup
  datatype Act = Shift(state: nat) | Reduce(production: nat) | Accept | Error

  /** States in which an expression may begin. */
  predicate ExpressionStart(s: nat) {
    s == 0 || 8 <= s <= 12 || s == 15 || s == 27 || s == 28
  }

  predicate EndsExpression(t: Terminal) {
    t == TEnd || t == TSeparator || t == TRParen || ExtendsExpression(t)
  }
  predicate ExtendsExpression(t: Terminal) { t.TOp? && t.pipe != Retry }

  /** The shift of a chain operator in states 1, 25, 29 and 30. */
  function ShiftOp(t: Terminal): Act {
    match t
    case TOp(Pointer) => Shift(8)
    case TOp(PipePointer) => Shift(9)
    case TOp(Parallelism) => Shift(10)
    case _ => Error
  }

  /** `_lr_action`, row by row. */
  function Action(s: nat, t: Terminal): Act {
    if ExpressionStart(s) then
      (match t case TNumber => Shift(6) case TTaskName => Shift(7) case _ => Error)
    else if s == 1 then if t == TEnd then Accept else ShiftOp(t)
    else if s == 2 then
      (match t case TOp(Pointer) => Shift(11) case TOp(PipePointer) => Shift(12) case _ => Error)
    else if s == 3 then if t == TOp(Retry) then Shift(13) else Error
    else if s == 4 then
      if t == TOp(Retry) then Shift(14) else if t == TLParen then Shift(15)
      else if EndsExpression(t) then Reduce(9) else Error
    else if s == 5 then if EndsExpression(t) then Reduce(8) else Error
    else if s == 6 then
      (match t
       case TOp(Pointer) => Reduce(10) case TOp(PipePointer) => Reduce(10)
       case TOp(Retry) => Reduce(11) case _ => Error)
    else if s == 7 then
      if EndsExpression(t) || t == TOp(Retry) || t == TLParen then Reduce(12) else Error
    else if s == 13 then if t == TTaskName then Shift(7) else Error
    else if s == 14 then if t == TNumber then Shift(23) else Error
    else if 16 <= s <= 20 then if EndsExpression(t) then Reduce(s - 15) else Error
    else if s == 21 then
      if t == TLParen then Shift(15) else if EndsExpression(t) then Reduce(6) else Error
    else if s == 22 then if EndsExpression(t) then Reduce(7) else Error
    else if s == 23 then if EndsExpression(t) then Reduce(11) else Error
    else if s == 24 then
      (match t case TSeparator => Shift(27) case TRParen => Shift(26) case _ => Error)
    else if s == 25 then if t == TSeparator then Shift(28) else ShiftOp(t)
    else if s == 26 then
      if EndsExpression(t) || t == TOp(Retry) || t == TLParen then Reduce(15) else Error
    else if s == 29 then if t == TSeparator || t == TRParen then Reduce(14) else ShiftOp(t)
    else if s == 30 then if t == TSeparator || t == TRParen then Reduce(13) else ShiftOp(t)
    else Error
  }

  /** `_lr_goto`; -1 where the table has no entry. */
  function Goto(s: int, n: NonTerminal): int {
    match n
    case NExpression =>
      if s == 0 then 1 else if 8 <= s <= 12 then s + 8 else if s == 15 then 25
      else if s == 27 then 29 else if s == 28 then 30 else -1
    case NDescriptor => if s >= 0 && ExpressionStart(s) then 2 else -1
    case NFactor => if s >= 0 && ExpressionStart(s) then 3 else if s == 14 then 22 else -1
    case NTask => if s >= 0 && ExpressionStart(s) then 4 else if s == 13 then 21 else -1
    case NTerm => if s >= 0 && ExpressionStart(s) then 5 else -1
    case NTaskGroup => if s == 15 then 24 else -1
  }

  // ------------------------------------------------------------ machine

  datatype Value =
    | VToken(token: Token)
    | VExpression(expr: Expr)
    | VTerm(expr: Expr)
    | VTask(expr: Expr)
    | VDescriptor(key: nat)
    | VFactor(count: nat)
    | VGroup(dict: Dict)

  /** The symbol and state stacks of the driver; state 0 is at the bottom. */
  datatype Stack = Bottom | Push(below: Stack, value: Value, state: int)

  datatype SyntaxError = UnexpectedToken | DescriptorRange | FactorRange | Stuck

  function Top(st: Stack): int {
    match st case Bottom => 0 case Push(_, _, s) => s
  }

  function Kind(t: Token): Terminal {
    match t
    case TaskToken(_) => TTaskName
    case NumberToken(_) => TNumber
    case OpToken(p) => TOp(p)
    case LParen => TLParen
    case RParen => TRParen
    case Separator => TSeparator
  }

  function Lookahead(input: seq<Token>): Terminal {
    if input == [] then TEnd else Kind(input[0])
  }

  function PushGoto(st: Stack, n: NonTerminal, v: Value): Result<Stack, SyntaxError> {
    var s := Goto(Top(st), n);
    if s < 0 then Err(Stuck) else Ok(Push(st, v, s))
  }

  /** A reduction: pops the right-hand side, runs the action, pushes the left-hand side. */
  function ReduceBy(production: nat, st: Stack): Result<Stack, SyntaxError> {
    if 1 <= production <= 3 then
      match st
      case Push(Push(Push(b, VExpression(l), _), VToken(OpToken(op)), _), VExpression(r), _) =>
        PushGoto(b, NExpression, VExpression(BinOp(op, l, r)))
      case _ => Err(Stuck)
    else if production == 4 || production == 5 then
      match st
      case Push(Push(Push(b, VDescriptor(d), _), VToken(OpToken(op)), _), VExpression(r), _) =>
        PushGoto(b, NExpression, VExpression(BinOp(op, Descriptor(d), r)))
      case _ => Err(Stuck)
    else if production == 6 then
      match st
      case Push(Push(Push(b, VFactor(n), _), VToken(OpToken(op)), _), VTask(t), _) =>
        PushGoto(b, NExpression, VExpression(BinOp(op, Factor(n), t)))
      case _ => Err(Stuck)
    else if production == 7 then
      match st
      case Push(Push(Push(b, VTask(t), _), VToken(OpToken(op)), _), VFactor(n), _) =>
        PushGoto(b, NExpression, VExpression(BinOp(op, t, Factor(n))))
      case _ => Err(Stuck)
    else if production == 8 then
      match st case Push(b, VTerm(e), _) => PushGoto(b, NExpression, VExpression(e)) case _ => Err(Stuck)
    else if production == 9 then
      match st case Push(b, VTask(e), _) => PushGoto(b, NTerm, VTerm(e)) case _ => Err(Stuck)
    else if production == 10 then
      match st
      case Push(b, VToken(NumberToken(n)), _) =>
        if n < 10 then PushGoto(b, NDescriptor, VDescriptor(n)) else Err(DescriptorRange)
      case _ => Err(Stuck)
    else if production == 11 then
      match st
      case Push(b, VToken(NumberToken(n)), _) =>
        if n < 2 then Err(FactorRange) else PushGoto(b, NFactor, VFactor(n))
      case _ => Err(Stuck)
    else if production == 12 then
      match st
      case Push(b, VToken(TaskToken(s)), _) => PushGoto(b, NTask, VTask(TaskName(s)))
      case _ => Err(Stuck)
    else if production == 13 then
      match st
      case Push(Push(Push(b, VExpression(l), _), VToken(Separator), _), VExpression(r), _) =>
        PushGoto(b, NTaskGroup, VGroup(SetValue(SetValue(EmptyDict, l, l), r, r)))
      case _ => Err(Stuck)
    else if production == 14 then
      match st
      case Push(Push(Push(b, VGroup(g), _), VToken(Separator), _), VExpression(r), _) =>
        PushGoto(b, NTaskGroup, VGroup(SetValue(SetGroup(EmptyDict, g), r, r)))
      case _ => Err(Stuck)
    else if production == 15 then
      match st
      case Push(Push(Push(Push(b, VTask(t), _), VToken(LParen), _), VGroup(g), _), VToken(RParen), _) =>
        PushGoto(b, NTask, VTask(ConditionalBinOp(t, g)))
      case _ => Err(Stuck)
    else Err(Stuck)
  }

  // Every step lowers this weight: an unread token weighs more than a symbol, and each
  // left-hand side weighs less than its right-hand side.
  function Weight(v: Value): nat {
    match v
    case VToken(TaskToken(_)) => 5
    case VToken(NumberToken(_)) => 5
    case VToken(_) => 1
    case VTask(_) => 4
    case VTerm(_) => 3
    case VExpression(_) => 2
    case VDescriptor(_) => 2
    case VFactor(_) => 2
    case VGroup(_) => 1
  }
  function StackWeight(st: Stack): nat {
    match st case Bottom => 0 case Push(b, v, _) => StackWeight(b) + Weight(v)
  }

  lemma ReduceLowersWeight(production: nat, st: Stack)
    requires ReduceBy(production, st).Ok?
    ensures StackWeight(ReduceBy(production, st).value) < StackWeight(st)
  {
    if st.below.Push? {
      assert StackWeight(st) == StackWeight(st.below.below) + Weight(st.below.value) + Weight(st.value);
      if st.below.below.Push? {
        assert StackWeight(st.below.below) == StackWeight(st.below.below.below) + Weight(st.below.below.value);
      }
    }
  }

  datatype Config =
    | Running(stack: Stack, input: seq<Token>)
    | Accepted(expr: Expr)
    | Rejected(error: SyntaxError)

  /** One step of the driver. */
  function Step(st: Stack, input: seq<Token>): (c: Config)
    ensures c.Running? ==>
      StackWeight(c.stack) + 6 * |c.input| < StackWeight(st) + 6 * |input|
  {
    match Action(if Top(st) < 0 then 31 else Top(st), Lookahead(input))
    case Shift(s) =>
      if input == [] then Rejected(Stuck) else Running(Push(st, VToken(input[0]), s), input[1..])
    case Reduce(p) =>
      if ReduceBy(p, st).Err? then Rejected(ReduceBy(p, st).error)
      else ReduceLowersWeight(p, st); Running(ReduceBy(p, st).value, input)
    case Accept =>
      (match st case Push(_, VExpression(e), _) => Accepted(e) case _ => Rejected(Stuck))
    case Error => Rejected(UnexpectedToken)
  }

  /** The whole run of the driver from a configuration. */
  function Run(st: Stack, input: seq<Token>): Result<Expr, SyntaxError>
    decreases StackWeight(st) + 6 * |input|
  {
    match Step(st, input)
    case Running(st', input') => Run(st', input')
    case Accepted(e) => Ok(e)
    case Rejected(err) => Err(err)
  }

  // ------------------------------------------------------------ completeness
  // From any stack on which a phrase may begin, the machine reads the tokens of the
  // phrase and leaves its tree on the stack.

  predicate EndsTask(t: Terminal) { EndsExpression(t) || t == TOp(Retry) || t == TLParen }

  // The proofs below are about any function that obeys the step equation, so that the
  // equation is used only where a step is taken.
  type Driver = (Stack, seq<Token>) -> Result<Expr, SyntaxError>

  function Continue(run: Driver, c: Config): Result<Expr, SyntaxError> {
    match c
    case Running(st, input) => run(st, input)
    case Accepted(e) => Ok(e)
    case Rejected(err) => Err(err)
  }

  predicate TakeStep(st: Stack, input: seq<Token>) { true }

  ghost predicate Drives(run: Driver) {
    forall st, input {:trigger TakeStep(st, input)} ::
      TakeStep(st, input) ==> run(st, input) == Continue(run, Step(st, input))
  }

  lemma RunShift(run: Driver, st: Stack, t: Token, rest: seq<Token>, s: nat)
    requires Drives(run)
    requires Top(st) >= 0 && Action(Top(st), Kind(t)) == Shift(s)
    ensures run(st, [t] + rest) == run(Push(st, VToken(t), s), rest)
  {
    assert TakeStep(st, [t] + rest);
    assert ([t] + rest)[1..] == rest;
  }

  lemma RunReduce(run: Driver, st: Stack, input: seq<Token>, production: nat, st': Stack)
    requires Drives(run)
    requires Top(st) >= 0 && Action(Top(st), Lookahead(input)) == Reduce(production)
    requires ReduceBy(production, st) == Ok(st')
    ensures run(st, input) == run(st', input)
  {
    assert TakeStep(st, input);
  }

  lemma {:induction false} ReadsTask(run: Driver, st: Stack, t: Task, rest: seq<Token>)
    requires Drives(run) && ValidTask(t)
    requires Top(st) >= 0 && (ExpressionStart(Top(st)) || Top(st) == 13)
    requires EndsTask(Lookahead(rest))
    ensures run(st, TaskTokens(t, rest)) == run(Push(st, VTask(TaskAst(t)), Goto(Top(st), NTask)), rest)
    decreases t
  {
    var st0 := Push(st, VTask(TaskAst(t)), Goto(Top(st), NTask));
    match t
    case Name(s) =>
      RunShift(run, st, TaskToken(s), rest, 7);
      RunReduce(run, Push(st, VToken(TaskToken(s)), 7), rest, 12, st0);
    case Choice(u, bs) =>
      var close := [RParen] + rest;
      ReadsTask(run, st, u, [LParen] + BranchTokens(bs, close));
      var st1 := Push(st, VTask(TaskAst(u)), Goto(Top(st), NTask));
      var st2 := Push(st1, VToken(LParen), 15);
      RunShift(run, st1, LParen, BranchTokens(bs, close), 15);
      ReadsBranches(run, st2, bs, close);
      var st3 := Push(st2, VGroup(BranchesAst(bs)), 24);
      RunShift(run, st3, RParen, rest, 26);
      RunReduce(run, Push(st3, VToken(RParen), 26), rest, 15, st0);
  }

  lemma {:induction false} ReadsBranches(run: Driver, st: Stack, bs: Branches, rest: seq<Token>)
    requires Drives(run) && ValidBranches(bs) && Top(st) == 15
    requires Lookahead(rest) == TSeparator || Lookahead(rest) == TRParen
    ensures run(st, BranchTokens(bs, rest)) == run(Push(st, VGroup(BranchesAst(bs)), 24), rest)
    decreases bs
  {
    var st0 := Push(st, VGroup(BranchesAst(bs)), 24);
    match bs
    case Two(a, b) =>
      ReadsChain(run, st, a, [Separator] + ChainTokens(b, rest));
      var st1 := Push(st, VExpression(ChainAst(a)), 25);
      RunShift(run, st1, Separator, ChainTokens(b, rest), 28);
      var st2 := Push(st1, VToken(Separator), 28);
      ReadsChain(run, st2, b, rest);
      RunReduce(run, Push(st2, VExpression(ChainAst(b)), 30), rest, 13, st0);
    case Another(f, c) =>
      ReadsBranches(run, st, f, [Separator] + ChainTokens(c, rest));
      var st1 := Push(st, VGroup(BranchesAst(f)), 24);
      RunShift(run, st1, Separator, ChainTokens(c, rest), 27);
      var st2 := Push(st1, VToken(Separator), 27);
      ReadsChain(run, st2, c, rest);
      RunReduce(run, Push(st2, VExpression(ChainAst(c)), 29), rest, 14, st0);
  }

  lemma {:induction false} ReadsChain(run: Driver, st: Stack, c: Chain, rest: seq<Token>)
    requires Drives(run) && ValidChain(c)
    requires Top(st) == 0 || Top(st) == 15 || Top(st) == 27 || Top(st) == 28
    requires EndsExpression(Lookahead(rest))
    ensures run(st, ChainTokens(c, rest))
         == run(Push(st, VExpression(ChainAst(c)), Goto(Top(st), NExpression)), rest)
    decreases c
  {
    match c
    case One(e) => ReadsElem(run, st, e, rest);
    case More(f, op, e) =>
      ReadsChain(run, st, f, [OpToken(op)] + ElemTokens(e, rest));
      var st1 := Push(st, VExpression(ChainAst(f)), Goto(Top(st), NExpression));
      var s := ShiftOp(TOp(op)).state;
      RunShift(run, st1, OpToken(op), ElemTokens(e, rest), s);
      var st2 := Push(st1, VToken(OpToken(op)), s);
      ReadsElem(run, st2, e, rest);
      RunReduce(run, Push(st2, VExpression(ElemAst(e)), s + 8), rest, s - 7,
                Push(st, VExpression(ChainAst(c)), Goto(Top(st), NExpression)));
  }

  lemma {:induction false} ReadsElem(run: Driver, st: Stack, e: Elem, rest: seq<Token>)
    requires Drives(run) && ValidElem(e)
    requires Top(st) >= 0 && ExpressionStart(Top(st))
    requires EndsExpression(Lookahead(rest))
    ensures run(st, ElemTokens(e, rest))
         == run(Push(st, VExpression(ElemAst(e)), Goto(Top(st), NExpression)), rest)
    decreases e
  {
    match e
    case Bare(i) => ReadsItem(run, st, i, rest);
    case Labelled(d, op, r) =>
      var after := [OpToken(op)] + ElemTokens(r, rest);
      RunShift(run, st, NumberToken(d), after, 6);
      var st1 := Push(st, VDescriptor(d), 2);
      RunReduce(run, Push(st, VToken(NumberToken(d)), 6), after, 10, st1);
      var s := if op == Pointer then 11 else 12;
      RunShift(run, st1, OpToken(op), ElemTokens(r, rest), s);
      var st2 := Push(st1, VToken(OpToken(op)), s);
      ReadsElem(run, st2, r, rest);
      RunReduce(run, Push(st2, VExpression(ElemAst(r)), s + 8), rest, s - 7,
                Push(st, VExpression(ElemAst(e)), Goto(Top(st), NExpression)));
  }

  lemma ReadsFactor(run: Driver, st: Stack, t: Expr, n: nat, rest: seq<Token>)
    requires Drives(run) && 2 <= n
    requires Top(st) >= 0 && ExpressionStart(Top(st))
    requires EndsExpression(Lookahead(rest))
    ensures run(Push(st, VTask(t), 4), [OpToken(Retry)] + ([NumberToken(n)] + rest))
         == run(Push(st, VExpression(BinOp(Retry, t, Factor(n))), Goto(Top(st), NExpression)), rest)
  {
    var st1 := Push(st, VTask(t), 4);
    RunShift(run, st1, OpToken(Retry), [NumberToken(n)] + rest, 14);
    var st2 := Push(st1, VToken(OpToken(Retry)), 14);
    RunShift(run, st2, NumberToken(n), rest, 23);
    var st3 := Push(st2, VFactor(n), 22);
    RunReduce(run, Push(st2, VToken(NumberToken(n)), 23), rest, 11, st3);
    RunReduce(run, st3, rest, 7,
              Push(st, VExpression(BinOp(Retry, t, Factor(n))), Goto(Top(st), NExpression)));
  }

  lemma {:induction false} ReadsItem(run: Driver, st: Stack, i: Item, rest: seq<Token>)
    requires Drives(run) && ValidItem(i)
    requires Top(st) >= 0 && ExpressionStart(Top(st))
    requires EndsExpression(Lookahead(rest))
    ensures run(st, ItemTokens(i, rest))
         == run(Push(st, VExpression(ItemAst(i)), Goto(Top(st), NExpression)), rest)
    decreases i
  {
    var st0 := Push(st, VExpression(ItemAst(i)), Goto(Top(st), NExpression));
    match i
    case Single(t) =>
      ReadsTask(run, st, t, rest);
      var st1 := Push(st, VTerm(TaskAst(t)), 5);
      RunReduce(run, Push(st, VTask(TaskAst(t)), 4), rest, 9, st1);
      RunReduce(run, st1, rest, 8, st0);
    case TimesRight(t, n) =>
      ReadsTask(run, st, t, [OpToken(Retry)] + ([NumberToken(n)] + rest));
      ReadsFactor(run, st, TaskAst(t), n, rest);
    case TimesLeft(n, t) =>
      var after := [OpToken(Retry)] + TaskTokens(t, rest);
      RunShift(run, st, NumberToken(n), after, 6);
      var st1 := Push(st, VFactor(n), 3);
      RunReduce(run, Push(st, VToken(NumberToken(n)), 6), after, 11, st1);
      RunShift(run, st1, OpToken(Retry), TaskTokens(t, rest), 13);
      var st2 := Push(st1, VToken(OpToken(Retry)), 13);
      ReadsTask(run, st2, t, rest);
      RunReduce(run, Push(st2, VTask(TaskAst(t)), 21), rest, 6, st0);
  }

  /** Every phrase of the grammar is accepted and its tree rebuilt. */
  lemma AcceptsEveryPhrase(c: Chain)
    requires ValidChain(c)
    ensures Run(Bottom, ChainTokens(c, [])) == Ok(ChainAst(c))
  {
    var run: Driver := (st, input) => Run(st, input);
    assert Drives(run);
    ReadsChain(run, Bottom, c, []);
    assert Run(Bottom, ChainTokens(c, [])) == Run(Push(Bottom, VExpression(ChainAst(c)), 1), []);
  }

  // ------------------------------------------------------------ soundness
  // A second stack holds the phrase behind each symbol. The two stacks stay matched,
  // and the phrases followed by the unread input always spell the original input.

  datatype Phrase =
    | PToken(token: Token)
    | PChain(chain: Chain)
    | PTerm(task: Task)
    | PTask(task: Task)
    | PDescriptor(key: nat)
    | PFactor(count: nat)
    | PGroup(branches: Branches)

  datatype PhraseStack = PBottom | PPush(below: PhraseStack, phrase: Phrase)

  predicate ValidPhrase(p: Phrase) {
    match p
    case PToken(_) => true
    case PChain(c) => ValidChain(c)
    case PTerm(t) => ValidTask(t)
    case PTask(t) => ValidTask(t)
    case PDescriptor(d) => d < 10
    case PFactor(n) => 2 <= n
    case PGroup(bs) => ValidBranches(bs)
  }

  function PhraseValue(p: Phrase): Value {
    match p
    case PToken(t) => VToken(t)
    case PChain(c) => VExpression(ChainAst(c))
    case PTerm(t) => VTerm(TaskAst(t))
    case PTask(t) => VTask(TaskAst(t))
    case PDescriptor(d) => VDescriptor(d)
    case PFactor(n) => VFactor(n)
    case PGroup(bs) => VGroup(BranchesAst(bs))
  }

  function PhraseTokens(p: Phrase, rest: seq<Token>): seq<Token> {
    match p
    case PToken(t) => [t] + rest
    case PChain(c) => ChainTokens(c, rest)
    case PTerm(t) => TaskTokens(t, rest)
    case PTask(t) => TaskTokens(t, rest)
    case PDescriptor(d) => [NumberToken(d)] + rest
    case PFactor(n) => [NumberToken(n)] + rest
    case PGroup(bs) => BranchTokens(bs, rest)
  }

  function StackTokens(ps: PhraseStack, rest: seq<Token>): seq<Token> {
    match ps
    case PBottom => rest
    case PPush(below, p) => StackTokens(below, PhraseTokens(p, rest))
  }

  /** The state entered from `s` on the symbol of `p`. */
  function Trans(s: int, p: Phrase): int {
    match p
    case PToken(t) =>
      if s < 0 then -1
      else (match Action(s, Kind(t)) case Shift(n) => n case _ => -1)
    case PChain(_) => Goto(s, NExpression)
    case PTerm(_) => Goto(s, NTerm)
    case PTask(_) => Goto(s, NTask)
    case PDescriptor(_) => Goto(s, NDescriptor)
    case PFactor(_) => Goto(s, NFactor)
    case PGroup(_) => Goto(s, NTaskGroup)
  }

  /** In states 16 to 20 an expression is a single operand: chains nest to the left. */
  predicate Matched(st: Stack, ps: PhraseStack) {
    match st
    case Bottom => ps.PBottom?
    case Push(below, v, s) =>
      && ps.PPush? && Matched(below, ps.below)
      && ValidPhrase(ps.phrase) && v == PhraseValue(ps.phrase)
      && s == Trans(Top(below), ps.phrase) && s > 0
      && (16 <= s <= 20 ==> ps.phrase.PChain? && ps.phrase.chain.One?)
  }

  /** What a reduction has to do to the phrase stack. */
  ghost predicate Rebuilds(st: Stack, ps: PhraseStack, st': Stack, ps': PhraseStack, rest: seq<Token>) {
    Matched(st', ps') && StackTokens(ps', rest) == StackTokens(ps, rest)
  }

  lemma TokensOfThree(b: PhraseStack, x: Phrase, y: Phrase, z: Phrase, rest: seq<Token>)
    ensures StackTokens(PPush(PPush(PPush(b, x), y), z), rest)
         == StackTokens(b, PhraseTokens(x, PhraseTokens(y, PhraseTokens(z, rest))))
  {
    assert StackTokens(PPush(PPush(b, x), y), PhraseTokens(z, rest))
        == StackTokens(PPush(b, x), PhraseTokens(y, PhraseTokens(z, rest)));
  }

  lemma OneBare(item: Item, rest: seq<Token>)
    ensures ChainAst(One(Bare(item))) == ItemAst(item)
    ensures ChainTokens(One(Bare(item)), rest) == ItemTokens(item, rest)
    ensures ValidChain(One(Bare(item))) == ValidItem(item)
  {
    assert ElemAst(Bare(item)) == ItemAst(item);
    assert ElemTokens(Bare(item), rest) == ItemTokens(item, rest);
    assert ValidElem(Bare(item)) == ValidItem(item);
  }

  lemma OneLabelled(d: nat, op: Pipe, e: Elem, rest: seq<Token>)
    ensures ChainAst(One(Labelled(d, op, e))) == BinOp(op, Descriptor(d), ElemAst(e))
    ensures ChainTokens(One(Labelled(d, op, e)), rest) == [NumberToken(d)] + ([OpToken(op)] + ElemTokens(e, rest))
    ensures ValidChain(One(Labelled(d, op, e))) == (d < 10 && LabelOp(op) && ValidElem(e))
  {
    var el := Labelled(d, op, e);
    assert ElemAst(el) == BinOp(op, Descriptor(d), ElemAst(e));
    assert ElemTokens(el, rest) == [NumberToken(d)] + ([OpToken(op)] + ElemTokens(e, rest));
    assert ValidElem(el) == (d < 10 && LabelOp(op) && ValidElem(e));
  }

  lemma ReduceChain(production: nat, st: Stack, ps: PhraseStack, st': Stack, rest: seq<Token>)
    returns (ps': PhraseStack)
    requires Matched(st, ps) && 1 <= production <= 3 && Top(st) == production + 15
    requires ReduceBy(production, st) == Ok(st')
    ensures Rebuilds(st, ps, st', ps', rest)
  {
    var opPhrase, left := ps.below.phrase, ps.below.below;
    assert Top(st.below) == production + 7;
    assert Matched(st.below.below, left);
    assert opPhrase.token.pipe != Retry;
    TokensOfThree(left.below, left.phrase, opPhrase, ps.phrase, rest);
    ps' := PPush(left.below, PChain(More(left.phrase.chain, opPhrase.token.pipe, ps.phrase.chain.elem)));
  }

  lemma ReduceLabelled(production: nat, st: Stack, ps: PhraseStack, st': Stack, rest: seq<Token>)
    returns (ps': PhraseStack)
    requires Matched(st, ps) && 4 <= production <= 5 && Top(st) == production + 15
    requires ReduceBy(production, st) == Ok(st')
    ensures Rebuilds(st, ps, st', ps', rest)
  {
    var opPhrase, left := ps.below.phrase, ps.below.below;
    assert Top(st.below) == production + 7;
    assert Matched(st.below.below, left);
    TokensOfThree(left.below, left.phrase, opPhrase, ps.phrase, rest);
    OneLabelled(left.phrase.key, opPhrase.token.pipe, ps.phrase.chain.elem, rest);
    ps' := PPush(left.below, PChain(One(Labelled(left.phrase.key, opPhrase.token.pipe, ps.phrase.chain.elem))));
  }

  lemma ReduceTimes(production: nat, st: Stack, ps: PhraseStack, st': Stack, rest: seq<Token>)
    returns (ps': PhraseStack)
    requires Matched(st, ps) && 6 <= production <= 7 && Top(st) == production + 15
    requires ReduceBy(production, st) == Ok(st')
    ensures Rebuilds(st, ps, st', ps', rest)
  {
    var opPhrase, left := ps.below.phrase, ps.below.below;
    assert Top(st.below) == production + 7;
    assert Matched(st.below.below, left);
    assert opPhrase.token.pipe == Retry;
    var item := if production == 6 then TimesLeft(left.phrase.count, ps.phrase.task)
                else TimesRight(left.phrase.task, ps.phrase.count);
    TokensOfThree(left.below, left.phrase, opPhrase, ps.phrase, rest);
    OneBare(item, rest);
    ps' := PPush(left.below, PChain(One(Bare(item))));
  }

  lemma ReduceUnit(production: nat, st: Stack, ps: PhraseStack, st': Stack, rest: seq<Token>)
    returns (ps': PhraseStack)
    requires Matched(st, ps) && 8 <= production <= 12
    requires ReduceBy(production, st) == Ok(st')
    ensures Rebuilds(st, ps, st', ps', rest)
  {
    if production == 8 { OneBare(Single(ps.phrase.task), rest); }
    var phrase :=
      if production == 8 then PChain(One(Bare(Single(ps.phrase.task))))
      else if production == 9 then PTerm(ps.phrase.task)
      else if production == 10 then PDescriptor(ps.phrase.token.number)
      else if production == 11 then PFactor(ps.phrase.token.number)
      else PTask(Name(ps.phrase.token.name));
    ps' := PPush(ps.below, phrase);
  }

  lemma ReduceTwo(st: Stack, ps: PhraseStack, st': Stack, rest: seq<Token>)
    returns (ps': PhraseStack)
    requires Matched(st, ps)
    requires ReduceBy(13, st) == Ok(st')
    ensures Rebuilds(st, ps, st', ps', rest)
  {
    var left := ps.below.below;
    assert Matched(st.below.below, left);
    TokensOfThree(left.below, left.phrase, ps.below.phrase, ps.phrase, rest);
    ps' := PPush(left.below, PGroup(Two(left.phrase.chain, ps.phrase.chain)));
  }

  lemma ReduceAnother(st: Stack, ps: PhraseStack, st': Stack, rest: seq<Token>)
    returns (ps': PhraseStack)
    requires Matched(st, ps)
    requires ReduceBy(14, st) == Ok(st')
    ensures Rebuilds(st, ps, st', ps', rest)
  {
    var left := ps.below.below;
    assert Matched(st.below.below, left);
    TokensOfThree(left.below, left.phrase, ps.below.phrase, ps.phrase, rest);
    ps' := PPush(left.below, PGroup(Another(left.phrase.branches, ps.phrase.chain)));
  }

  lemma ReduceChoice(st: Stack, ps: PhraseStack, st': Stack, rest: seq<Token>)
    returns (ps': PhraseStack)
    requires Matched(st, ps)
    requires ReduceBy(15, st) == Ok(st')
    ensures Rebuilds(st, ps, st', ps', rest)
  {
    var group := ps.below;
    assert Matched(st.below.below, group.below);
    var task := group.below.below;
    assert Matched(st.below.below.below, task);
    TokensOfThree(task, group.below.phrase, group.phrase, ps.phrase, rest);
    ps' := PPush(task.below, PTask(Choice(task.phrase.task, group.phrase.branches)));
  }

  lemma ReduceMatched(production: nat, st: Stack, ps: PhraseStack, st': Stack, input: seq<Token>)
    returns (ps': PhraseStack)
    requires Matched(st, ps) && Top(st) >= 0
    requires Action(Top(st), Lookahead(input)) == Reduce(production)
    requires ReduceBy(production, st) == Ok(st')
    ensures Rebuilds(st, ps, st', ps', input)
  {
    if production <= 3 { ps' := ReduceChain(production, st, ps, st', input); }
    else if production <= 5 { ps' := ReduceLabelled(production, st, ps, st', input); }
    else if production <= 7 { ps' := ReduceTimes(production, st, ps, st', input); }
    else if production <= 12 { ps' := ReduceUnit(production, st, ps, st', input); }
    else if production == 13 { ps' := ReduceTwo(st, ps, st', input); }
    else if production == 14 { ps' := ReduceAnother(st, ps, st', input); }
    else { ps' := ReduceChoice(st, ps, st', input); }
  }

  lemma ShiftTargets(s: nat, t: Terminal)
    ensures Action(s, t).Shift? ==> 1 < Action(s, t).state && !(16 <= Action(s, t).state <= 20)
    ensures Action(s, t).Accept? ==> s == 1 && t == TEnd
  {
  }

  lemma IntoStateOne(s: int, p: Phrase)
    requires Trans(s, p) == 1
    ensures s == 0 && p.PChain?
  {
    if p.PToken? && s >= 0 { ShiftTargets(s, Kind(p.token)); }
  }

  lemma ShiftMatched(st: Stack, ps: PhraseStack, input: seq<Token>, s: nat)
    requires Matched(st, ps) && Top(st) >= 0 && input != []
    requires Action(Top(st), Lookahead(input)) == Shift(s)
    ensures Matched(Push(st, VToken(input[0]), s), PPush(ps, PToken(input[0])))
    ensures StackTokens(PPush(ps, PToken(input[0])), input[1..]) == StackTokens(ps, input)
  {
    ShiftTargets(Top(st), Lookahead(input));
    assert input == [input[0]] + input[1..];
  }

  lemma AcceptMatched(st: Stack, ps: PhraseStack, input: seq<Token>)
    requires Matched(st, ps) && Top(st) >= 0
    requires Action(Top(st), Lookahead(input)) == Accept
    ensures input == [] && st.Push? && st.below.Bottom? && ps.phrase.PChain?
  {
    ShiftTargets(Top(st), Lookahead(input));
    IntoStateOne(Top(st.below), ps.phrase);
  }

  lemma {:induction false} AcceptedSpells(st: Stack, ps: PhraseStack, input: seq<Token>, e: Expr)
    returns (c: Chain)
    requires Matched(st, ps)
    requires Run(st, input) == Ok(e)
    ensures ValidChain(c) && ChainTokens(c, []) == StackTokens(ps, input) && ChainAst(c) == e
    decreases StackWeight(st) + 6 * |input|
  {
    var next := Step(st, input);
    match Action(Top(st), Lookahead(input))
    case Shift(s) =>
      ShiftMatched(st, ps, input, s);
      c := AcceptedSpells(next.stack, PPush(ps, PToken(input[0])), input[1..], e);
    case Reduce(p) =>
      var ps' := ReduceMatched(p, st, ps, next.stack, input);
      c := AcceptedSpells(next.stack, ps', input, e);
    case Accept =>
      AcceptMatched(st, ps, input);
      c := ps.phrase.chain;
      assert StackTokens(ps, input) == StackTokens(PBottom, ChainTokens(c, []));
  }

  // ------------------------------------------------------------ the parser

  /** `c` is the phrase that `tokens` spell. */
  ghost predicate Spells(c: Chain, tokens: seq<Token>) {
    ValidChain(c) && ChainTokens(c, []) == tokens
  }

  /** Two phrases with the same tokens have the same tree: the grammar's ambiguity is gone. */
  lemma TreeIsUnique(c: Chain, d: Chain, tokens: seq<Token>)
    requires Spells(c, tokens) && Spells(d, tokens)
    ensures ChainAst(c) == ChainAst(d)
  {
    AcceptsEveryPhrase(c);
    AcceptsEveryPhrase(d);
  }

  /**
    `pointy_parser` from the token stream on: the driver loop over the tables. It
    answers with a tree exactly when some phrase spells the tokens, and the tree is the
    one the semantic actions give that phrase.
   */
  method Parse(tokens: seq<Token>) returns (r: Result<Expr, SyntaxError>)
    ensures r == Run(Bottom, tokens)
    ensures r.Ok? <==> exists c :: Spells(c, tokens)
    ensures forall c :: Spells(c, tokens) ==> r == Ok(ChainAst(c))
  {
    var stack, input := Bottom, tokens;
    var config := Step(stack, input);
    while config.Running?
      invariant config == Step(stack, input)
      invariant Run(stack, input) == Run(Bottom, tokens)
      decreases StackWeight(stack) + 6 * |input|
    {
      stack, input := config.stack, config.input;
      config := Step(stack, input);
    }
    r := if config.Accepted? then Ok(config.expr) else Err(config.error);
    forall c | Spells(c, tokens) ensures r == Ok(ChainAst(c)) {
      AcceptsEveryPhrase(c);
    }
    if r.Ok? {
      ghost var c := AcceptedSpells(Bottom, PBottom, tokens, r.value);
      assert Spells(c, tokens);
    }
  }
}
