/**
  What the queries answer for a well-formed program that has been compiled.
 */
module Fidelity {
  import opened Wrappers
  import opened Pointy
  import opened TaskTree
  import opened TaskStore
  import opened TaskGraph
  import opened Queries
  import opened Programs
  import opened WrittenOrder
  import Refinement

  lemma {:induction false} GraphMarked(m: Mark, p: Program)
    requires WellFormed(p)
    ensures WellMarked(MarkedGraph(m, p))
    decreases p
  {
    AtomMarked(m, p.atom);
    AndThenMarked(m, p.atom, p.next);
  }
  lemma {:induction false} AndThenMarked(m: Mark, a: Atom, n: Next)
    requires WellFormedAtom(a) && WellFormedNext(n) && WellMarked(AtomTree(m, a))
    ensures WellMarked(AndThen(AtomTree(m, a), n))
    decreases n
  {
    match n
    case Done =>
    case Then(op, p) =>
      GraphMarked(Unmarked, p);
      assert LinkMarked(Link(op, MarkedGraph(Unmarked, p)));
  }
  lemma {:induction false} AtomMarked(m: Mark, a: Atom)
    requires WellFormedAtom(a)
    ensures WellMarked(AtomTree(m, a))
    decreases a
  {
    var x := Entries(NoExtras, a.cases);
    EntriesMarked(NoExtras, a.cases);
    EntriesUnique(NoExtras, a.cases);
    PartsMarked(x, 0);
    PartsMarked(x, 1);
    CustomsMarked(x);
  }
  lemma {:induction false} EntriesMarked(acc: Extras<()>, cs: Cases)
    requires WellFormedCases(cs) && ExtrasMarked(acc)
    ensures ExtrasMarked(Entries(acc, cs))
    decreases cs
  {
    match cs
    case NoCases =>
    case Case(k, op, body, more) =>
      GraphMarked(Marked(k, op), body);
      Refinement.GraphForm(Marked(k, op), body);
      EntriesMarked(Extra(acc, k, op, MarkedGraph(Marked(k, op), body)), more);
  }
  lemma {:induction false} CustomsMarked<N>(x: Extras<N>)
    requires ExtrasMarked(x) && UniqueKeys(x)
    ensures ExtrasMarked(Customs(x)) && UniqueKeys(Customs(x))
  {
    match x case NoExtras =>
    case Extra(front, k, _, _) => CustomsMarked(front); FindCustom(front, k);
  }

  lemma {:induction false} StripMarked<N>(t: Tree<N>)
    requires WellMarked(Strip(t))
    ensures WellMarked(t)
    decreases t
  {
    StripLinkMarked(t.fail); StripLinkMarked(t.sink); StripLinkMarked(t.succ); StripExtrasMarked(t.extras);
  }
  lemma {:induction false} StripLinkMarked<N>(l: Link<N>)
    requires LinkMarked(StripLink(l))
    ensures LinkMarked(l)
    decreases l
  {
    match l case NoLink => case Link(_, t) => StripMarked(t);
  }
  lemma {:induction false} StripExtrasMarked<N>(x: Extras<N>)
    requires ExtrasMarked(StripExtras(x)) && UniqueKeys(StripExtras(x))
    ensures ExtrasMarked(x) && UniqueKeys(x)
    decreases x
  {
    match x case NoExtras =>
    case Extra(front, k, _, t) =>
      StripExtrasMarked(front);
      StripMarked(t);
      StripFindLink(front, k);
  }

  /** The number of task names in a text. */
  function NameCount(tokens: seq<Token>): nat {
    if tokens == [] then 0 else (if tokens[0].TaskToken? then 1 else 0) + NameCount(tokens[1..])
  }

  lemma {:induction false} WrittenLength(tokens: seq<Token>, o: Option<Pipe>)
    ensures |WrittenSeq(tokens, o)| == NameCount(tokens)
    decreases |tokens|
  {
    if tokens != [] {
      var o' := if tokens[0].OpToken? && tokens[0].pipe != Retry then Some(tokens[0].pipe) else o;
      WrittenLength(tokens[1..], o');
    }
  }

  /**
    The compiled graph is a tree over the names of the text: the traversal from the root
    yields each node once, and there are as many nodes as task names.
   */
  lemma GraphIsTree(p: Program, g: Piece)
    requires WellFormed(p) && Holds(g.h, g.t) && Strip(g.t) == Graph(p)
    ensures multiset(Preorder(g.t)) == multiset(Nodes(g.t))
    ensures |Preorder(g.t)| == NameCount(Tokens(p, []))
  {
    PreorderOnce(g.t);
    PreorderNodes(g.t);
    StripSize(g.t);
    GraphSize(Unmarked, p);
    ReportsText(p, g);
    Refinement.GraphForm(Unmarked, p);
    OrderLength(g.t, p);
    WrittenLength(Tokens(p, []), None);
  }

  /**
    Operator fidelity: take the tasks of a compiled well-formed program in the order in
    which their names are written. Each task occurs once, has the name written at its
    place, and reports the operator written before that name.
   */
  lemma OperatorFidelity(p: Program, g: Piece)
    requires WellFormed(p) && Holds(g.h, g.t) && Strip(g.t) == Graph(p)
    ensures multiset(InOrder(g.t, p)) == multiset(Nodes(g.t))
    ensures Within(g.h, InOrder(g.t, p)) && Reported(g.h, InOrder(g.t, p)) == WrittenSeq(Tokens(p, []), None)
  {
    ReportsText(p, g);
    GraphIsTree(p, g);
    WrittenLength(Tokens(p, []), None);
    assert |multiset(Preorder(g.t))| == |Preorder(g.t)| && |multiset(Nodes(g.t))| == |Nodes(g.t)|;
    EachOnce(InOrder(g.t, p), Nodes(g.t));
  }

  lemma ReportsText(p: Program, g: Piece)
    requires WellFormed(p) && Holds(g.h, g.t) && Strip(g.t) == Graph(p)
    ensures forall n :: n in Nodes(g.t) ==> n in InOrder(g.t, p)
    ensures Within(g.h, InOrder(g.t, p)) && Reported(g.h, InOrder(g.t, p)) == WrittenSeq(Tokens(p, []), None)
  {
    GraphMarked(Unmarked, p);
    StripMarked(g.t);
    Refinement.GraphForm(Unmarked, p);
    assert Refinement.Compiled(g.t, p);
    PointersHold(g.h, g.t, None);
    assert PointerIn(g.h, g.t.node) == None;
    ReportsLinks(g.h, g.t, None, p, None);
    assert FreshSeq([]);
    ProgramWritten(g.t, p, [], None);
    forall n | n in Nodes(g.t) ensures n in InOrder(g.t, p) { Covers(g.t, p, n); }
  }
}
