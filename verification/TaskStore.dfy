/**
  Task graphs as stores: a store gives the fields of each node, and `Represents` says
  that the nodes of a tree hold exactly the fields of the tree.
 */
module TaskStore {
  import opened Wrappers
  import opened Pointy
  import opened TaskTree

  /** A child reference together with its pipe, as two fields of a task. */
  datatype Slot<N> = Slot(target: Option<N>, pipe: Option<Pipe>)
  datatype Config<N> = Config(key: nat, pipe: Pipe, task: N)
  datatype Fields<N> = Fields(
    event: string, retries: Option<nat>, mark: Mark, parent: Option<N>,
    fail: Slot<N>, succ: Slot<N>, sink: Slot<N>, descriptors: seq<Config<N>>)
  type Store<N> = map<N, Fields<N>>

  function NewFields<N>(event: string): Fields<N> {
    Fields(event, None, Unmarked, None, Slot(None, None), Slot(None, None), Slot(None, None), [])
  }

  ghost function Nodes<N>(t: Tree<N>): set<N> {
    {t.node} + LinkNodes(t.fail) + LinkNodes(t.sink) + LinkNodes(t.succ) + ExtrasNodes(t.extras)
  }
  ghost function LinkNodes<N>(l: Link<N>): set<N> {
    match l case NoLink => {} case Link(_, t) => Nodes(t)
  }
  ghost function ExtrasNodes<N>(x: Extras<N>): set<N> {
    match x case NoExtras => {} case Extra(front, _, _, t) => ExtrasNodes(front) + Nodes(t)
  }

  /** No node occurs twice. */
  ghost predicate Distinct<N>(t: Tree<N>) {
    && t.node !in LinkNodes(t.fail) + LinkNodes(t.sink) + LinkNodes(t.succ) + ExtrasNodes(t.extras)
    && LinkNodes(t.fail) !! LinkNodes(t.sink) + LinkNodes(t.succ) + ExtrasNodes(t.extras)
    && LinkNodes(t.sink) !! LinkNodes(t.succ) + ExtrasNodes(t.extras)
    && LinkNodes(t.succ) !! ExtrasNodes(t.extras)
    && DistinctLink(t.fail) && DistinctLink(t.sink) && DistinctLink(t.succ) && DistinctExtras(t.extras)
  }
  ghost predicate DistinctLink<N>(l: Link<N>) {
    match l case NoLink => true case Link(_, t) => Distinct(t)
  }
  ghost predicate DistinctExtras<N>(x: Extras<N>) {
    match x case NoExtras => true
    case Extra(front, _, _, t) => DistinctExtras(front) && Distinct(t) && ExtrasNodes(front) !! Nodes(t)
  }

  ghost predicate Represents<N>(h: Store<N>, t: Tree<N>, parent: Option<N>) {
    && t.node in h
    && var f := h[t.node];
    && f.event == t.event && f.retries == t.retries && f.mark == t.mark && f.parent == parent
    && LinkRep(h, t.fail, f.fail, t.node)
    && LinkRep(h, t.sink, f.sink, t.node)
    && LinkRep(h, t.succ, f.succ, t.node)
    && ExtrasRep(h, t.extras, f.descriptors, t.node)
  }
  ghost predicate LinkRep<N>(h: Store<N>, l: Link<N>, slot: Slot<N>, owner: N) {
    match l
    case NoLink => slot == Slot(None, None)
    case Link(p, t) => slot == Slot(Some(t.node), Some(p)) && Represents(h, t, Some(owner))
  }
  ghost predicate ExtrasRep<N>(h: Store<N>, x: Extras<N>, ds: seq<Config<N>>, owner: N) {
    match x
    case NoExtras => ds == []
    case Extra(front, k, p, t) =>
      && ds != [] && ds[|ds| - 1] == Config(k, p, t.node)
      && Represents(h, t, Some(owner)) && ExtrasRep(h, front, ds[..|ds| - 1], owner)
  }

  // ------------------------------------------------------------ frames

  ghost predicate Agree<N>(h: Store<N>, h': Store<N>, ns: set<N>) {
    forall n :: n in ns && n in h ==> n in h' && h'[n] == h[n]
  }

  lemma {:induction false} Frame<N>(h: Store<N>, h': Store<N>, t: Tree<N>, parent: Option<N>)
    requires Represents(h, t, parent) && Agree(h, h', Nodes(t))
    ensures Represents(h', t, parent)
  {
    FrameLink(h, h', t.fail, h[t.node].fail, t.node);
    FrameLink(h, h', t.sink, h[t.node].sink, t.node);
    FrameLink(h, h', t.succ, h[t.node].succ, t.node);
    FrameExtras(h, h', t.extras, h[t.node].descriptors, t.node);
  }
  lemma {:induction false} FrameLink<N>(h: Store<N>, h': Store<N>, l: Link<N>, slot: Slot<N>, owner: N)
    requires LinkRep(h, l, slot, owner) && Agree(h, h', LinkNodes(l))
    ensures LinkRep(h', l, slot, owner)
  {
    match l
    case NoLink =>
    case Link(_, t) => Frame(h, h', t, Some(owner));
  }
  lemma {:induction false} FrameExtras<N>(h: Store<N>, h': Store<N>, x: Extras<N>, ds: seq<Config<N>>, owner: N)
    requires ExtrasRep(h, x, ds, owner) && Agree(h, h', ExtrasNodes(x))
    ensures ExtrasRep(h', x, ds, owner)
  {
    match x
    case NoExtras =>
    case Extra(front, _, _, t) =>
      Frame(h, h', t, Some(owner));
      FrameExtras(h, h', front, ds[..|ds| - 1], owner);
  }

  /** What hangs below a node is kept when only the node itself changes. */
  lemma FrameBelow<N>(h: Store<N>, h': Store<N>, t: Tree<N>, parent: Option<N>)
    requires Represents(h, t, parent) && Distinct(t) && Agree(h, h', Nodes(t) - {t.node})
    ensures LinkRep(h', t.fail, h[t.node].fail, t.node) && LinkRep(h', t.sink, h[t.node].sink, t.node)
    ensures LinkRep(h', t.succ, h[t.node].succ, t.node)
    ensures ExtrasRep(h', t.extras, h[t.node].descriptors, t.node)
  {
    FrameLink(h, h', t.fail, h[t.node].fail, t.node);
    FrameLink(h, h', t.sink, h[t.node].sink, t.node);
    FrameLink(h, h', t.succ, h[t.node].succ, t.node);
    FrameExtras(h, h', t.extras, h[t.node].descriptors, t.node);
  }

  // ------------------------------------------------------------ extending a chain

  /** The `is_conditional` property, read from the fields. */
  predicate ConditionalFields<N>(f: Fields<N>) {
    f.descriptors != [] || (f.succ.target.Some? && f.fail.target.Some?)
  }

  function TailAtom<N>(s: Spine<N>): Tree<N> {
    match s case Last(a) => a case Step(_, _, rest) => TailAtom(rest)
  }

  /** The store after joining the tail of a chain to the node `r` by `pipe`. */
  function Join<N>(h: Store<N>, tail: N, pipe: Pipe, r: N): Store<N>
    requires tail in h && r in h && tail != r
  {
    var slot := Slot(Some(r), Some(pipe));
    var f := if ConditionalFields(h[tail]) then h[tail].(sink := slot) else h[tail].(succ := slot);
    h[tail := f][r := h[r].(parent := Some(tail))]
  }

  lemma StepRest<N>(h: Store<N>, a: Tree<N>, p: Pipe, u: Tree<N>, parent: Option<N>)
    requires Represents(h, Attach(a, p, u), parent)
    ensures Represents(h, u, Some(a.node))
  {
    var t := Attach(a, p, u);
    assert LinkRep(h, Link(p, u), if IsConditional(a) then h[t.node].sink else h[t.node].succ, a.node);
  }

  lemma StepDistinct<N>(a: Tree<N>, p: Pipe, u: Tree<N>)
    requires Distinct(Attach(a, p, u))
    ensures Distinct(u) && Nodes(u) <= Nodes(Attach(a, p, u)) && a.node !in Nodes(u)
  {
    assert LinkNodes(Link(p, u)) == Nodes(u) && DistinctLink(Link(p, u)) == Distinct(u);
  }

  lemma ConditionalMatches<N>(h: Store<N>, t: Tree<N>, parent: Option<N>)
    requires Represents(h, t, parent)
    ensures ConditionalFields(h[t.node]) == IsConditional(t)
  {
  }

  lemma {:induction false} TailRep<N>(h: Store<N>, s: Spine<N>, parent: Option<N>)
    requires Represents(h, SpineTree(s), parent)
    ensures TailAtom(s).node in Nodes(SpineTree(s)) && TailAtom(s).node in h
    ensures ConditionalFields(h[TailAtom(s).node]) == IsConditional(TailAtom(s))
  {
    match s
    case Last(a) => ConditionalMatches(h, a, parent);
    case Step(a, p, rest) =>
      StepRest(h, a, p, SpineTree(rest), parent);
      TailRep(h, rest, Some(a.node));
      assert LinkNodes(Link(p, SpineTree(rest))) == Nodes(SpineTree(rest));
  }

  lemma {:induction false} SnocShape<N>(s: Spine<N>, pipe: Pipe, r: Tree<N>)
    requires Distinct(SpineTree(s)) && Distinct(r) && Nodes(SpineTree(s)) !! Nodes(r)
    ensures Distinct(SpineTree(Snoc(s, pipe, r)))
    ensures SpineTree(Snoc(s, pipe, r)).node == SpineTree(s).node
    ensures Nodes(SpineTree(Snoc(s, pipe, r))) <= Nodes(SpineTree(s)) + Nodes(r)
    ensures TailAtom(Snoc(s, pipe, r)) == r
  {
    match s
    case Last(a) => ReplaceRest(a, pipe, a, r);
    case Step(a, p, rest) =>
      StepDistinct(a, p, SpineTree(rest));
      SnocShape(rest, pipe, r);
      ReplaceRest(a, p, Attach(a, p, SpineTree(rest)), SpineTree(Snoc(rest, pipe, r)));
  }

  /** Attaching a tree of new nodes, or of nodes from the old rest, keeps nodes distinct. */
  lemma ReplaceRest<N>(a: Tree<N>, p: Pipe, t: Tree<N>, u: Tree<N>)
    requires Distinct(t) && Distinct(u)
    requires t == a || exists r :: t == Attach(a, p, r)
    requires var rest := if IsConditional(a) then t.sink else t.succ;
      Nodes(u) !! Nodes(t) - LinkNodes(rest)
    ensures Distinct(Attach(a, p, u))
    ensures Nodes(Attach(a, p, u)) <= Nodes(t) + Nodes(u)
  {
    assert LinkNodes(Link(p, u)) == Nodes(u) && DistinctLink(Link(p, u));
  }

  lemma JoinLast<N>(h: Store<N>, a: Tree<N>, pipe: Pipe, r: Tree<N>, parent: Option<N>)
    requires Represents(h, a, parent) && Represents(h, r, None)
    requires Distinct(a) && Distinct(r) && Nodes(a) !! Nodes(r) && a.node != r.node
    ensures Represents(Join(h, a.node, pipe, r.node), Attach(a, pipe, r), parent)
    ensures Represents(Join(h, a.node, pipe, r.node), r, Some(a.node))
  {
    var h' := Join(h, a.node, pipe, r.node);
    FrameBelow(h, h', r, None);
    FrameBelow(h, h', a, parent);
    ConditionalMatches(h, a, parent);
    assert Represents(h', r, Some(a.node));
    assert LinkRep(h', Link(pipe, r), Slot(Some(r.node), Some(pipe)), a.node);
  }

  lemma {:induction false} JoinRepresents<N>(
    h: Store<N>, s: Spine<N>, pipe: Pipe, r: Tree<N>, parent: Option<N>)
    requires Represents(h, SpineTree(s), parent) && Represents(h, r, None)
    requires Distinct(SpineTree(s)) && Distinct(r) && Nodes(SpineTree(s)) !! Nodes(r)
    requires TailAtom(s).node in h && r.node in h && TailAtom(s).node != r.node
    ensures Represents(Join(h, TailAtom(s).node, pipe, r.node), SpineTree(Snoc(s, pipe, r)), parent)
  {
    var tail := TailAtom(s).node;
    var h' := Join(h, tail, pipe, r.node);
    match s
    case Last(a) => JoinLast(h, a, pipe, r, parent);
    case Step(a, p, rest) =>
      var u, t := SpineTree(rest), SpineTree(s);
      StepRest(h, a, p, u, parent);
      StepDistinct(a, p, u);
      TailRep(h, rest, Some(a.node));
      JoinRepresents(h, rest, pipe, r, Some(a.node));
      SnocShape(rest, pipe, r);
      var u' := SpineTree(Snoc(rest, pipe, r));
      KeepFirst(h, h', a, p, u, u', parent);
  }

  lemma KeepFirst<N>(h: Store<N>, h': Store<N>, a: Tree<N>, p: Pipe, u: Tree<N>, u': Tree<N>, parent: Option<N>)
    requires Represents(h, Attach(a, p, u), parent) && Distinct(Attach(a, p, u))
    requires Agree(h, h', Nodes(Attach(a, p, u)) - Nodes(u))
    requires u'.node == u.node && Represents(h', u', Some(a.node))
    ensures Represents(h', Attach(a, p, u'), parent)
  {
    var t := Attach(a, p, u);
    var f := h[t.node];
    assert LinkNodes(Link(p, u)) == Nodes(u);
    assert LinkRep(h', Link(p, u'), Slot(Some(u.node), Some(p)), a.node);
    FrameLink(h, h', t.fail, f.fail, t.node);
    if IsConditional(a) { FrameLink(h, h', t.succ, f.succ, t.node); }
    else { FrameLink(h, h', t.sink, f.sink, t.node); }
    FrameExtras(h, h', t.extras, f.descriptors, t.node);
  }

  // ------------------------------------------------------------ single updates

  lemma SetRetries<N>(h: Store<N>, t: Tree<N>, n: Option<nat>, parent: Option<N>)
    requires Represents(h, t, parent) && Distinct(t)
    ensures Represents(h[t.node := h[t.node].(retries := n)], t.(retries := n), parent)
  {
    FrameBelow(h, h[t.node := h[t.node].(retries := n)], t, parent);
  }

  lemma SetMark<N>(h: Store<N>, t: Tree<N>, m: Mark, parent: Option<N>)
    requires Represents(h, t, parent) && Distinct(t)
    ensures Represents(h[t.node := h[t.node].(mark := m)], t.(mark := m), parent)
  {
    FrameBelow(h, h[t.node := h[t.node].(mark := m)], t, parent);
  }

  /** The store after `owner` takes the branch `b` as its failure event. */
  function AdoptFailStore<N>(h: Store<N>, owner: N, pipe: Pipe, b: N): Store<N>
    requires owner in h && b in h
  {
    h[owner := h[owner].(fail := Slot(Some(b), Some(pipe)))][b := h[b].(parent := Some(owner))]
  }

  lemma AdoptFail<N>(h: Store<N>, t: Tree<N>, pipe: Pipe, b: Tree<N>)
    requires Represents(h, t, None) && Represents(h, b, None)
    requires Distinct(t) && Distinct(b) && Nodes(t) !! Nodes(b) && t.node != b.node
    ensures Represents(AdoptFailStore(h, t.node, pipe, b.node), t.(fail := Link(pipe, b)), None)
  {
    var h' := AdoptFailStore(h, t.node, pipe, b.node);
    FrameBelow(h, h', b, None);
    FrameBelow(h, h', t, None);
    assert Represents(h', b, Some(t.node));
    assert LinkRep(h', Link(pipe, b), Slot(Some(b.node), Some(pipe)), t.node);
  }

  lemma AdoptFailDistinct<N>(t: Tree<N>, pipe: Pipe, b: Tree<N>)
    requires Distinct(t) && Distinct(b) && Nodes(t) !! Nodes(b) && t.fail.NoLink?
    ensures var u := t.(fail := Link(pipe, b)); Distinct(u) && Nodes(u) == Nodes(t) + Nodes(b)
  {
    assert LinkNodes(Link(pipe, b)) == Nodes(b) && DistinctLink(Link(pipe, b));
  }

  /** The store after `owner` takes the branch `b` as a custom descriptor. */
  function AdoptExtraStore<N>(h: Store<N>, owner: N, c: Config<N>): Store<N>
    requires owner in h && c.task in h
  {
    h[owner := h[owner].(descriptors := h[owner].descriptors + [c])][c.task := h[c.task].(parent := Some(owner))]
  }

  lemma AdoptExtra<N>(h: Store<N>, t: Tree<N>, key: nat, pipe: Pipe, b: Tree<N>)
    requires Represents(h, t, None) && Represents(h, b, None)
    requires Distinct(t) && Distinct(b) && Nodes(t) !! Nodes(b) && t.node != b.node
    ensures Represents(AdoptExtraStore(h, t.node, Config(key, pipe, b.node)),
                       t.(extras := Extra(t.extras, key, pipe, b)), None)
  {
    var h' := AdoptExtraStore(h, t.node, Config(key, pipe, b.node));
    FrameBelow(h, h', b, None);
    FrameBelow(h, h', t, None);
    assert Represents(h', b, Some(t.node));
    var ds := h'[t.node].descriptors;
    assert ds[..|ds| - 1] == h[t.node].descriptors;
    assert ExtrasRep(h', Extra(t.extras, key, pipe, b), ds, t.node);
  }

  lemma AdoptExtraDistinct<N>(t: Tree<N>, key: nat, pipe: Pipe, b: Tree<N>)
    requires Distinct(t) && Distinct(b) && Nodes(t) !! Nodes(b)
    ensures var u := t.(extras := Extra(t.extras, key, pipe, b)); Distinct(u) && Nodes(u) == Nodes(t) + Nodes(b)
  {
    var x := Extra(t.extras, key, pipe, b);
    assert ExtrasNodes(x) == ExtrasNodes(t.extras) + Nodes(b) && DistinctExtras(x);
  }

  // ------------------------------------------------------------ parents

  /** The number of links from the root of `t` down to `n`. */
  ghost function Depth<N>(t: Tree<N>, n: N): nat {
    if n == t.node then 0
    else if n in LinkNodes(t.fail) then 1 + LinkDepth(t.fail, n)
    else if n in LinkNodes(t.sink) then 1 + LinkDepth(t.sink, n)
    else if n in LinkNodes(t.succ) then 1 + LinkDepth(t.succ, n)
    else 1 + ExtrasDepth(t.extras, n)
  }
  ghost function LinkDepth<N>(l: Link<N>, n: N): nat {
    match l case NoLink => 0 case Link(_, t) => Depth(t, n)
  }
  ghost function ExtrasDepth<N>(x: Extras<N>, n: N): nat {
    match x case NoExtras => 0
    case Extra(front, _, _, t) => if n in Nodes(t) then Depth(t, n) else ExtrasDepth(front, n)
  }

  /** Going to the parent goes up the tree, and only the root has the given parent. */
  lemma {:induction false} ParentOf<N>(h: Store<N>, t: Tree<N>, parent: Option<N>, n: N)
    requires Represents(h, t, parent) && Distinct(t) && n in Nodes(t)
    ensures n in h
    ensures n == t.node ==> h[n].parent == parent
    ensures n != t.node ==>
      h[n].parent.Some? && h[n].parent.value in Nodes(t) && Depth(t, h[n].parent.value) < Depth(t, n)
  {
    if n == t.node {
    } else if n in LinkNodes(t.fail) { LinkParentOf(h, t.fail, h[t.node].fail, t.node, n); }
    else if n in LinkNodes(t.sink) { LinkParentOf(h, t.sink, h[t.node].sink, t.node, n); }
    else if n in LinkNodes(t.succ) { LinkParentOf(h, t.succ, h[t.node].succ, t.node, n); }
    else { ExtrasParentOf(h, t.extras, h[t.node].descriptors, t.node, n); }
  }
  lemma {:induction false} LinkParentOf<N>(h: Store<N>, l: Link<N>, slot: Slot<N>, owner: N, n: N)
    requires LinkRep(h, l, slot, owner) && DistinctLink(l) && n in LinkNodes(l)
    ensures n in h && h[n].parent.Some?
    ensures var p := h[n].parent.value; p == owner || (p in LinkNodes(l) && LinkDepth(l, p) < LinkDepth(l, n))
  {
    ParentOf(h, l.tree, Some(owner), n);
  }
  lemma {:induction false} ExtrasParentOf<N>(h: Store<N>, x: Extras<N>, ds: seq<Config<N>>, owner: N, n: N)
    requires ExtrasRep(h, x, ds, owner) && DistinctExtras(x) && n in ExtrasNodes(x)
    ensures n in h && h[n].parent.Some?
    ensures var p := h[n].parent.value; p == owner || (p in ExtrasNodes(x) && ExtrasDepth(x, p) < ExtrasDepth(x, n))
  {
    if n in Nodes(x.tree) { ParentOf(h, x.tree, Some(owner), n); }
    else { ExtrasParentOf(h, x.front, ds[..|ds| - 1], owner, n); }
  }

  // ------------------------------------------------------------ traversal

  /** The nodes of a tree in the order of `bf_traversal`. */
  function Preorder<N>(t: Tree<N>): seq<N> {
    [t.node] + LinkOrder(t.fail) + LinkOrder(t.sink) + LinkOrder(t.succ) + ExtrasOrder(t.extras)
  }
  function LinkOrder<N>(l: Link<N>): seq<N> {
    match l case NoLink => [] case Link(_, t) => Preorder(t)
  }
  function ExtrasOrder<N>(x: Extras<N>): seq<N> {
    match x case NoExtras => [] case Extra(front, _, _, t) => ExtrasOrder(front) + Preorder(t)
  }

  lemma {:induction false} PreorderNodes<N>(t: Tree<N>)
    ensures |Preorder(t)| == Size(t) && forall n :: n in Preorder(t) <==> n in Nodes(t)
  {
    LinkOrderNodes(t.fail);
    LinkOrderNodes(t.sink);
    LinkOrderNodes(t.succ);
    ExtrasOrderNodes(t.extras);
  }
  lemma {:induction false} LinkOrderNodes<N>(l: Link<N>)
    ensures |LinkOrder(l)| == LinkSize(l) && forall n :: n in LinkOrder(l) <==> n in LinkNodes(l)
  {
    match l case NoLink => case Link(_, t) => PreorderNodes(t);
  }
  lemma {:induction false} ExtrasOrderNodes<N>(x: Extras<N>)
    ensures |ExtrasOrder(x)| == ExtrasSize(x) && forall n :: n in ExtrasOrder(x) <==> n in ExtrasNodes(x)
  {
    match x case NoExtras =>
    case Extra(front, _, _, t) => ExtrasOrderNodes(front); PreorderNodes(t);
  }

  lemma JoinOrders<N>(a: seq<N>, b: seq<N>, ns: set<N>, ms: set<N>)
    requires multiset(a) == multiset(ns) && multiset(b) == multiset(ms) && ns !! ms
    ensures multiset(a + b) == multiset(ns + ms)
  {
  }

  /** The traversal of a graph yields each of its nodes exactly once. */
  lemma {:induction false} PreorderOnce<N>(t: Tree<N>)
    requires Distinct(t)
    ensures multiset(Preorder(t)) == multiset(Nodes(t))
  {
    LinkOrderOnce(t.fail); LinkOrderOnce(t.sink); LinkOrderOnce(t.succ); ExtrasOrderOnce(t.extras);
    var a, f, k, s, x := [t.node], LinkOrder(t.fail), LinkOrder(t.sink), LinkOrder(t.succ), ExtrasOrder(t.extras);
    var fs, ks, ss, xs := LinkNodes(t.fail), LinkNodes(t.sink), LinkNodes(t.succ), ExtrasNodes(t.extras);
    JoinOrders(a, f, {t.node}, fs);
    JoinOrders(a + f, k, {t.node} + fs, ks);
    JoinOrders(a + f + k, s, {t.node} + fs + ks, ss);
    JoinOrders(a + f + k + s, x, {t.node} + fs + ks + ss, xs);
  }
  lemma {:induction false} LinkOrderOnce<N>(l: Link<N>)
    requires DistinctLink(l)
    ensures multiset(LinkOrder(l)) == multiset(LinkNodes(l))
  {
    match l case NoLink => case Link(_, t) => PreorderOnce(t);
  }
  lemma {:induction false} ExtrasOrderOnce<N>(x: Extras<N>)
    requires DistinctExtras(x)
    ensures multiset(ExtrasOrder(x)) == multiset(ExtrasNodes(x))
  {
    match x case NoExtras =>
    case Extra(front, _, _, t) =>
      ExtrasOrderOnce(front); PreorderOnce(t);
      JoinOrders(ExtrasOrder(front), Preorder(t), ExtrasNodes(front), Nodes(t));
  }

  lemma {:induction false} StripSize<N>(t: Tree<N>)
    ensures Size(Strip(t)) == Size(t)
  {
    StripLinkSize(t.fail); StripLinkSize(t.sink); StripLinkSize(t.succ); StripExtrasSize(t.extras);
  }
  lemma {:induction false} StripLinkSize<N>(l: Link<N>)
    ensures LinkSize(StripLink(l)) == LinkSize(l)
  {
    match l case NoLink => case Link(_, t) => StripSize(t);
  }
  lemma {:induction false} StripExtrasSize<N>(x: Extras<N>)
    ensures ExtrasSize(StripExtras(x)) == ExtrasSize(x)
  {
    match x case NoExtras => case Extra(front, _, _, t) => StripExtrasSize(front); StripSize(t);
  }
}
