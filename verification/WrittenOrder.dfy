/**
  Operator fidelity, occurrence by occurrence: taken in the order in which their names are
  written, the tasks of a program's graph have those names, and the operators of the links
  to them are the operators written before the names.
 */
module WrittenOrder {
  import opened Wrappers
  import opened Pointy
  import opened TaskTree
  import opened TaskStore
  import opened Queries
  import opened Programs
  import opened Semantics
  import opened Refinement

  type Mention = (string, Option<Pipe>)

  /** The task names of a text in order, each with the operator written last before it. */
  function WrittenSeq(tokens: seq<Token>, last: Option<Pipe>): seq<Mention> {
    if tokens == [] then []
    else match tokens[0]
      case TaskToken(s) => [(s, last)] + WrittenSeq(tokens[1..], last)
      case OpToken(p) => WrittenSeq(tokens[1..], if p == Retry then last else Some(p))
      case _ => WrittenSeq(tokens[1..], last)
  }

  /** The link of the branch with a given label. */
  function BranchLink<N>(t: Tree<N>, key: nat): Link<N> {
    if key == 0 then t.fail else if key == 1 then t.succ else FindLink(t.extras, key)
  }

  /** The link to what follows a task in its chain. */
  function RestLink<N>(t: Tree<N>, p: Program): Link<N> { if Plain(p.atom) then t.succ else t.sink }

  /** The nodes of the graph of `p` in written order: a task, its branches, and the rest of its chain. */
  function InOrder<N>(t: Tree<N>, p: Program): seq<N>
    decreases p, 1
  {
    [t.node] + (CasesInOrder(t, p.atom.cases)
                + match p.next case Done => [] case Then(_, rest) => LinkInOrder(RestLink(t, p), rest))
  }
  function LinkInOrder<N>(l: Link<N>, p: Program): seq<N>
    decreases p, 2
  {
    match l case NoLink => [] case Link(_, t) => InOrder(t, p)
  }
  function CasesInOrder<N>(t: Tree<N>, cs: Cases): seq<N>
    decreases cs, 0
  {
    match cs
    case NoCases => []
    case Case(k, _, body, more) => LinkInOrder(BranchLink(t, k), body) + CasesInOrder(t, more)
  }

  /** The same with the event of each task and the operator of the link to it. */
  function Labelled<N>(t: Tree<N>, p: Program, o: Option<Pipe>): (r: seq<Mention>)
    decreases p, 1
  {
    [(t.event, o)] + (CasesLabelled(t, p.atom.cases)
                      + match p.next case Done => [] case Then(_, rest) => LinkLabelled(RestLink(t, p), rest))
  }
  function LinkLabelled<N>(l: Link<N>, p: Program): seq<Mention>
    decreases p, 2
  {
    match l case NoLink => [] case Link(op, t) => Labelled(t, p, Some(op))
  }
  function CasesLabelled<N>(t: Tree<N>, cs: Cases): seq<Mention>
    decreases cs, 0
  {
    match cs
    case NoCases => []
    case Case(k, _, body, more) => LinkLabelled(BranchLink(t, k), body) + CasesLabelled(t, more)
  }

  // ------------------------------------------------------------ links of compiled tasks

  lemma {:induction false} CasePipe(cs: Cases, k: nat)
    requires HasCase(cs, k)
    ensures CaseLink(cs, k).Link? && CaseLink(cs, k).pipe == CaseOp(cs, k)
  {
    if cs.key != k { CasePipe(cs.more, k); }
  }
  function CaseOp(cs: Cases, k: nat): Pipe
    requires HasCase(cs, k)
  {
    if cs.key == k then cs.op else CaseOp(cs.more, k)
  }

  /** A branch of a program is a compiled link with the operator of its label. */
  lemma BranchOfTask<N>(t: Tree<N>, p: Program, k: nat)
    requires Compiled(t, p) && HasCase(p.atom.cases, k)
    ensures var l := BranchLink(t, k);
      l.Link? && l.pipe == CaseOp(p.atom.cases, k) && Compiled(l.tree, CaseBody(p.atom.cases, k).value)
  {
    CompiledParts(t, p);
    CompiledBranches(t, p, k);
    CasePipe(p.atom.cases, k);
    AtomLinks(t.mark, p.atom, k);
    StripFindLink(t.extras, k);
    assert StripLink(BranchLink(t, k)) == CaseLink(p.atom.cases, k);
  }

  lemma RestOfTask<N>(t: Tree<N>, p: Program)
    requires Compiled(t, p) && p.next.Then?
    ensures var l := RestLink(t, p); l.Link? && l.pipe == p.next.op && Compiled(l.tree, p.next.rest)
  {
    CompiledParts(t, p);
    GraphForm(t.mark, p);
    ConditionalAtom(t.mark, p.atom);
    assert StripLink(RestLink(t, p)) == Link(p.next.op, Graph(p.next.rest));
  }

  // ------------------------------------------------------------ texts

  ghost predicate FreshSeq(tokens: seq<Token>) {
    forall o :: WrittenSeq(tokens, o) == WrittenSeq(tokens, None)
  }

  lemma SeqCons(t: Token, rest: seq<Token>, o: Option<Pipe>)
    ensures WrittenSeq([t] + rest, o) ==
      match t
      case TaskToken(s) => [(s, o)] + WrittenSeq(rest, o)
      case OpToken(p) => WrittenSeq(rest, if p == Retry then o else Some(p))
      case _ => WrittenSeq(rest, o)
  {
    assert ([t] + rest)[1..] == rest;
  }

  lemma FreshSeqCons(t: Token, rest: seq<Token>)
    requires !t.TaskToken? && (FreshSeq(rest) || (t.OpToken? && t.pipe != Retry))
    ensures FreshSeq([t] + rest)
  {
    forall o ensures WrittenSeq([t] + rest, o) == WrittenSeq([t] + rest, None) {
      SeqCons(t, rest, o);
      SeqCons(t, rest, None);
    }
  }

  lemma FreshSeqNext(n: Next, rest: seq<Token>)
    requires WellFormedNext(n) && FreshSeq(rest)
    ensures FreshSeq(NextTokens(n, rest))
  {
    match n case Done => case Then(op, p) => FreshSeqCons(OpToken(op), Tokens(p, rest));
  }

  lemma {:induction false} FreshSeqMore(cs: Cases, rest: seq<Token>)
    requires WellFormedCases(cs) && FreshSeq(rest)
    ensures FreshSeq(MoreTokens(cs, rest))
  {
    match cs
    case NoCases =>
    case Case(k, op, body, more) =>
      var inner := Tokens(body, MoreTokens(more, rest));
      FreshSeqCons(OpToken(op), inner);
      FreshSeqCons(NumberToken(k), [OpToken(op)] + inner);
      FreshSeqCons(Separator, [NumberToken(k)] + ([OpToken(op)] + inner));
  }

  lemma Assoc<T>(a: seq<T>, b: seq<T>, c: seq<T>)
    ensures (a + b) + c == a + (b + c)
  {
  }

  /** The text of a program is read as its graph in written order. */
  lemma {:induction false} ProgramWritten<N>(t: Tree<N>, p: Program, rest: seq<Token>, o: Option<Pipe>)
    requires Compiled(t, p) && FreshSeq(rest)
    ensures WrittenSeq(Tokens(p, rest), o) == Labelled(t, p, o) + WrittenSeq(rest, None)
    decreases p, 3
  {
    CompiledParts(t, p);
    assert WellFormedAtom(p.atom) && WellFormedNext(p.next);
    var after := NextTokens(p.next, rest);
    FreshSeqNext(p.next, rest);
    AtomWritten(t, p, after, o);
    var tail := match p.next case Done => [] case Then(_, r) => LinkLabelled(RestLink(t, p), r);
    assert WrittenSeq(after, None) == tail + WrittenSeq(rest, None) by {
      if p.next.Then? {
        RestOfTask(t, p);
        SeqCons(OpToken(p.next.op), Tokens(p.next.rest, rest), None);
        ProgramWritten(RestLink(t, p).tree, p.next.rest, rest, Some(p.next.op));
      }
    }
    var head, cases := [(t.event, o)], CasesLabelled(t, p.atom.cases);
    Assoc(cases, tail, WrittenSeq(rest, None));
    Assoc(head, cases + tail, WrittenSeq(rest, None));
    Assoc(head, cases, WrittenSeq(after, None));
  }

  lemma {:induction false} AtomWritten<N>(t: Tree<N>, p: Program, rest: seq<Token>, o: Option<Pipe>)
    requires Compiled(t, p) && FreshSeq(rest)
    ensures WrittenSeq(AtomTokens(p.atom, rest), o)
         == [(t.event, o)] + (CasesLabelled(t, p.atom.cases) + WrittenSeq(rest, None))
    decreases p, 2
  {
    var a := p.atom;
    match a.times
    case Once => NameWritten(t, p, rest, o);
    case After(n) =>
      var count := [NumberToken(n)] + rest;
      FreshSeqCons(NumberToken(n), rest);
      FreshSeqCons(OpToken(Retry), count);
      SeqCons(NumberToken(n), rest, None);
      SeqCons(OpToken(Retry), count, None);
      NameWritten(t, p, [OpToken(Retry)] + count, o);
    case Before(n) =>
      var named := [TaskToken(a.name)] + GroupTokens(a.cases, rest);
      SeqCons(NumberToken(n), [OpToken(Retry)] + named, o);
      SeqCons(OpToken(Retry), named, o);
      NameWritten(t, p, rest, o);
  }

  lemma {:induction false} NameWritten<N>(t: Tree<N>, p: Program, rest: seq<Token>, o: Option<Pipe>)
    requires Compiled(t, p) && FreshSeq(rest)
    ensures WrittenSeq([TaskToken(p.atom.name)] + GroupTokens(p.atom.cases, rest), o)
         == [(t.event, o)] + (CasesLabelled(t, p.atom.cases) + WrittenSeq(rest, None))
    decreases p, 1
  {
    var cs := p.atom.cases;
    CompiledParts(t, p);
    SeqCons(TaskToken(p.atom.name), GroupTokens(cs, rest), o);
    match cs
    case NoCases =>
    case Case(k, op, body, more) =>
      assert WellFormed(p) && WellFormedAtom(p.atom);
      assert WellFormedCases(cs) && WellFormedCases(more);
      var close := [RParen] + rest;
      FreshSeqCons(RParen, rest);
      SeqCons(RParen, rest, None);
      FreshSeqMore(more, close);
      var inner := Tokens(body, MoreTokens(more, close));
      SeqCons(LParen, [NumberToken(k)] + ([OpToken(op)] + inner), o);
      SeqCons(NumberToken(k), [OpToken(op)] + inner, o);
      SeqCons(OpToken(op), inner, o);
      assert CaseBody(cs, k) == Some(body) && CaseOp(cs, k) == op;
      BranchOfTask(t, p, k);
      ProgramWritten(BranchLink(t, k).tree, body, MoreTokens(more, close), Some(op));
      MoreWritten(t, p, more, close);
      Assoc(LinkLabelled(BranchLink(t, k), body), CasesLabelled(t, more), WrittenSeq(rest, None));
  }

  /** `cs` is a tail of the branches of `p`. */
  ghost predicate TailOf(cs: Cases, p: Program) {
    forall k :: HasCase(cs, k) ==>
      && HasCase(p.atom.cases, k) && CaseBody(p.atom.cases, k) == CaseBody(cs, k)
      && CaseOp(p.atom.cases, k) == CaseOp(cs, k)
  }

  lemma {:induction false} MoreWritten<N>(t: Tree<N>, p: Program, cs: Cases, rest: seq<Token>)
    requires Compiled(t, p) && FreshSeq(rest) && WellFormedCases(cs) && TailOf(cs, p)
    ensures WrittenSeq(MoreTokens(cs, rest), None) == CasesLabelled(t, cs) + WrittenSeq(rest, None)
    decreases cs, 0
  {
    match cs
    case NoCases =>
    case Case(k, op, body, more) =>
      var inner := Tokens(body, MoreTokens(more, rest));
      FreshSeqMore(more, rest);
      SeqCons(Separator, [NumberToken(k)] + ([OpToken(op)] + inner), None);
      SeqCons(NumberToken(k), [OpToken(op)] + inner, None);
      SeqCons(OpToken(op), inner, None);
      assert HasCase(cs, k) && CaseBody(cs, k) == Some(body) && CaseOp(cs, k) == op;
      BranchOfTask(t, p, k);
      ProgramWritten(BranchLink(t, k).tree, body, MoreTokens(more, rest), Some(op));
      assert TailOf(more, p);
      MoreWritten(t, p, more, rest);
      Assoc(LinkLabelled(BranchLink(t, k), body), CasesLabelled(t, more), WrittenSeq(rest, None));
  }

  // ------------------------------------------------------------ answers in memory

  ghost predicate Within<N>(h: Store<N>, ns: seq<N>) { forall i :: 0 <= i < |ns| ==> ns[i] in h }

  /** The tasks of a list, each with its event and the operator it reports. */
  ghost function Reported<N>(h: Store<N>, ns: seq<N>): (r: seq<Mention>)
    requires Within(h, ns)
    ensures |r| == |ns| && forall i :: 0 <= i < |ns| ==> r[i] == (h[ns[i]].event, PointerIn(h, ns[i]))
  {
    seq(|ns|, i requires 0 <= i < |ns| => (h[ns[i]].event, PointerIn(h, ns[i])))
  }

  lemma ReportedConcat<N>(h: Store<N>, a: seq<N>, b: seq<N>)
    requires Within(h, a) && Within(h, b)
    ensures Within(h, a + b) && Reported(h, a + b) == Reported(h, a) + Reported(h, b)
  {
  }

  /** What the tasks report, in written order, is the operators of the links to them. */
  lemma {:induction false} ReportsLinks<N>(h: Store<N>, t: Tree<N>, parent: Option<N>, p: Program, o: Option<Pipe>)
    requires Represents(h, t, parent) && Pointers(h, t, o)
    ensures Within(h, InOrder(t, p)) && Reported(h, InOrder(t, p)) == Labelled(t, p, o)
    decreases p, 1
  {
    CasesReport(h, t, parent, p.atom.cases, o);
    var cases := CasesInOrder(t, p.atom.cases);
    var tail := match p.next case Done => [] case Then(_, rest) => LinkInOrder(RestLink(t, p), rest);
    if p.next.Then? {
      LinkReports(h, RestLink(t, p), if Plain(p.atom) then h[t.node].succ else h[t.node].sink, t.node, p.next.rest);
    }
    ReportedConcat(h, cases, tail);
    ReportedConcat(h, [t.node], cases + tail);
    assert Reported(h, [t.node]) == [(t.event, o)];
  }
  lemma {:induction false} LinkReports<N>(h: Store<N>, l: Link<N>, slot: Slot<N>, owner: N, p: Program)
    requires LinkRep(h, l, slot, owner) && LinkPointers(h, l)
    ensures Within(h, LinkInOrder(l, p)) && Reported(h, LinkInOrder(l, p)) == LinkLabelled(l, p)
    decreases p, 2
  {
    match l case NoLink => case Link(op, t) => ReportsLinks(h, t, Some(owner), p, Some(op));
  }
  lemma {:induction false} CasesReport<N>(h: Store<N>, t: Tree<N>, parent: Option<N>, cs: Cases, o: Option<Pipe>)
    requires Represents(h, t, parent) && Pointers(h, t, o)
    ensures Within(h, CasesInOrder(t, cs)) && Reported(h, CasesInOrder(t, cs)) == CasesLabelled(t, cs)
    decreases cs, 0
  {
    match cs
    case NoCases =>
    case Case(k, _, body, more) =>
      var slot := BranchRep(h, t, parent, k, o);
      LinkReports(h, BranchLink(t, k), slot, t.node, body);
      CasesReport(h, t, parent, more, o);
      ReportedConcat(h, LinkInOrder(BranchLink(t, k), body), CasesInOrder(t, more));
  }

  lemma BranchRep<N>(h: Store<N>, t: Tree<N>, parent: Option<N>, k: nat, o: Option<Pipe>) returns (slot: Slot<N>)
    requires Represents(h, t, parent) && Pointers(h, t, o)
    ensures LinkRep(h, BranchLink(t, k), slot, t.node) && LinkPointers(h, BranchLink(t, k))
  {
    var f := h[t.node];
    if k == 0 { slot := f.fail; } else if k == 1 { slot := f.succ; }
    else { slot := FoundRep(h, t.extras, f.descriptors, t.node, k); }
  }
  lemma {:induction false} FoundRep<N>(h: Store<N>, x: Extras<N>, ds: seq<Config<N>>, owner: N, k: nat)
    returns (slot: Slot<N>)
    requires ExtrasRep(h, x, ds, owner) && ExtrasPointers(h, x)
    ensures LinkRep(h, FindLink(x, k), slot, owner) && LinkPointers(h, FindLink(x, k))
  {
    match x
    case NoExtras => slot := Slot(None, None);
    case Extra(front, j, pipe, t) =>
      if j == k { slot := Slot(Some(t.node), Some(pipe)); }
      else { slot := FoundRep(h, front, ds[..|ds| - 1], owner, k); }
  }

  // ------------------------------------------------------------ every task occurs, once

  lemma InOrderIn<N>(t: Tree<N>, p: Program, n: N)
    ensures n in InOrder(t, p) <==>
      n == t.node || n in CasesInOrder(t, p.atom.cases)
      || (p.next.Then? && n in LinkInOrder(RestLink(t, p), p.next.rest))
  {
  }

  lemma PlainLinks<N>(t: Tree<N>, p: Program)
    requires Compiled(t, p) && Plain(p.atom)
    ensures t.fail.NoLink? && t.sink.NoLink? && t.extras.NoExtras?
  {
    CompiledParts(t, p);
    GraphForm(t.mark, p);
    ConditionalAtom(t.mark, p.atom);
    assert StripLink(t.fail) == AtomTree(t.mark, p.atom).fail;
  }

  lemma LinkHasCase<N>(t: Tree<N>, p: Program, k: nat)
    requires Compiled(t, p) && !Plain(p.atom) && BranchLink(t, k).Link?
    ensures HasCase(p.atom.cases, k)
  {
    CompiledBranches(t, p, k);
  }

  lemma {:induction false} KeyOf<N>(x: Extras<N>, n: N) returns (k: nat)
    requires n in ExtrasNodes(x) && UniqueKeys(x)
    ensures FindLink(x, k).Link? && n in LinkNodes(FindLink(x, k))
  {
    k := x.key;
    if n !in Nodes(x.tree) { k := KeyOf(x.front, n); }
  }

  /** A task below another one is below the rest of its chain or below one of its branches. */
  lemma WhichLink<N>(t: Tree<N>, p: Program, n: N) returns (k: nat)
    requires Compiled(t, p) && UniqueKeys(t.extras) && n in Nodes(t) && n != t.node
    ensures if n in LinkNodes(RestLink(t, p)) then p.next.Then?
      else HasCase(p.atom.cases, k) && n in LinkNodes(BranchLink(t, k))
    ensures WellFormedCases(p.atom.cases)
  {
    assert WellFormed(p) && WellFormedAtom(p.atom);
    CompiledParts(t, p);
    k := if n in LinkNodes(t.fail) then 0 else 1;
    if Plain(p.atom) {
      PlainLinks(t, p);
    } else if n !in LinkNodes(RestLink(t, p)) {
      if n !in LinkNodes(t.fail) && n !in LinkNodes(t.succ) {
        k := KeyOf(t.extras, n);
        CompiledBranches(t, p, k);
      }
      LinkHasCase(t, p, k);
    }
  }

  /** Every task of the graph has its place in the written order. */
  lemma {:induction false} Covers<N>(t: Tree<N>, p: Program, n: N)
    requires Compiled(t, p) && WellMarked(t) && n in Nodes(t)
    ensures n in InOrder(t, p)
    decreases p, 1
  {
    InOrderIn(t, p, n);
    if n != t.node {
      var k := WhichLink(t, p, n);
      if n in LinkNodes(RestLink(t, p)) {
        RestOfTask(t, p);
        Covers(RestLink(t, p).tree, p.next.rest, n);
      } else {
        CasesCover(t, p, p.atom.cases, k, n);
      }
    }
  }

  lemma {:induction false} CasesCover<N>(t: Tree<N>, p: Program, cs: Cases, k: nat, n: N)
    requires Compiled(t, p) && WellMarked(t) && TailOf(cs, p) && HasCase(cs, k) && WellFormedCases(cs)
    requires n in LinkNodes(BranchLink(t, k))
    ensures n in CasesInOrder(t, cs)
    decreases cs, 0
  {
    if cs.key == k {
      BranchOfTask(t, p, k);
      PartsMarked(t.extras, k);
      Covers(BranchLink(t, k).tree, cs.body, n);
    } else {
      assert TailOf(cs.more, p);
      CasesCover(t, p, cs.more, k, n);
    }
  }

  /** The written order has one place for each name of the program. */
  lemma {:induction false} OrderLength<N>(t: Tree<N>, p: Program)
    requires Compiled(t, p)
    ensures |InOrder(t, p)| == ProgramSize(p)
    decreases p, 1
  {
    assert WellFormed(p) && WellFormedAtom(p.atom) && WellFormedCases(p.atom.cases);
    CasesLength(t, p, p.atom.cases);
    if p.next.Then? {
      RestOfTask(t, p);
      OrderLength(RestLink(t, p).tree, p.next.rest);
    }
  }
  lemma {:induction false} CasesLength<N>(t: Tree<N>, p: Program, cs: Cases)
    requires Compiled(t, p) && TailOf(cs, p) && WellFormedCases(cs)
    ensures |CasesInOrder(t, cs)| == CasesSize(cs)
    decreases cs, 0
  {
    match cs
    case NoCases =>
    case Case(k, _, body, more) =>
      BranchOfTask(t, p, k);
      OrderLength(BranchLink(t, k).tree, body);
      assert TailOf(more, p);
      CasesLength(t, p, more);
  }

  lemma {:induction false} Pigeonhole<T>(s: seq<T>, ns: set<T>)
    requires forall n :: n in ns ==> n in s
    ensures |ns| <= |s|
  {
    if s != [] {
      var k := |s| - 1;
      Pigeonhole(s[..k], ns - {s[k]});
    } else {
      assert ns == {};
    }
  }

  /** A list that covers a set of its own length has each member once. */
  lemma {:induction false} EachOnce<T>(s: seq<T>, ns: set<T>)
    requires (forall n :: n in ns ==> n in s) && |s| == |ns|
    ensures multiset(s) == multiset(ns)
  {
    if s != [] {
      var k := |s| - 1;
      var x := s[k];
      assert s == s[..k] + [x];
      if x !in ns || x in s[..k] {
        Pigeonhole(s[..k], ns);
        assert false;
      }
      EachOnce(s[..k], ns - {x});
      assert ns == (ns - {x}) + {x};
    }
  }

  /** The graph of a program, in written order, has the names and operators of its text. */
  lemma GraphKeepsOperators(p: Program)
    requires WellFormed(p)
    ensures Labelled(Graph(p), p, None) == WrittenSeq(Tokens(p, []), None)
  {
    GraphForm(Unmarked, p);
    StripUnit(Graph(p));
    assert FreshSeq([]);
    ProgramWritten(Graph(p), p, [], None);
  }

  lemma {:induction false} StripUnit(t: Tree<()>)
    ensures Strip(t) == t
  {
    assert t.node == ();
    StripUnitLink(t.fail); StripUnitLink(t.sink); StripUnitLink(t.succ); StripUnitExtras(t.extras);
  }
  lemma {:induction false} StripUnitLink(l: Link<()>)
    ensures StripLink(l) == l
  {
    match l case NoLink => case Link(_, t) => StripUnit(t);
  }
  lemma {:induction false} StripUnitExtras(x: Extras<()>)
    ensures StripExtras(x) == x
  {
    match x case NoExtras => case Extra(front, _, _, t) => StripUnitExtras(front); StripUnit(t);
  }
}
