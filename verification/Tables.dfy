/**
  The generated tables of the parser: columns of entries, expanded by nested loops into
  one dictionary per state. The expansion is the action and goto functions of the machine.
 */
module Tables {
  import opened Wrappers
  import opened Pointy
  import opened Parser

  /** The entries of one symbol: the states that have one, and what it is. */
  datatype Column<K> = Column(key: K, states: seq<nat>, entries: seq<int>)
  type Table<K> = map<nat, map<K, int>>

  /** `_lr_action_items`. */
  const NumberColumn: Column<Terminal> := Column(TNumber,
    [0, 8, 9, 10, 11, 12, 14, 15, 27, 28],
    [6, 6, 6, 6, 6, 6, 23, 6, 6, 6])
  const TaskNameColumn: Column<Terminal> := Column(TTaskName,
    [0, 8, 9, 10, 11, 12, 13, 15, 27, 28],
    [7, 7, 7, 7, 7, 7, 7, 7, 7, 7])
  const EndColumn: Column<Terminal> := Column(TEnd,
    [1, 4, 5, 7, 16, 17, 18, 19, 20, 21, 22, 23, 26],
    [0, -9, -8, -12, -1, -2, -3, -4, -5, -6, -7, -11, -15])
  const PointerColumn: Column<Terminal> := Column(TOp(Pointer),
    [1, 2, 4, 5, 6, 7, 16, 17, 18, 19, 20, 21, 22, 23, 25, 26, 29, 30],
    [8, 11, -9, -8, -10, -12, -1, -2, -3, -4, -5, -6, -7, -11, 8, -15, 8, 8])
  const PipePointerColumn: Column<Terminal> := Column(TOp(PipePointer),
    [1, 2, 4, 5, 6, 7, 16, 17, 18, 19, 20, 21, 22, 23, 25, 26, 29, 30],
    [9, 12, -9, -8, -10, -12, -1, -2, -3, -4, -5, -6, -7, -11, 9, -15, 9, 9])
  const ParallelColumn: Column<Terminal> := Column(TOp(Parallelism),
    [1, 4, 5, 7, 16, 17, 18, 19, 20, 21, 22, 23, 25, 26, 29, 30],
    [10, -9, -8, -12, -1, -2, -3, -4, -5, -6, -7, -11, 10, -15, 10, 10])
  const RetryColumn: Column<Terminal> := Column(TOp(Retry),
    [3, 4, 6, 7, 26],
    [13, 14, -11, -12, -15])
  const LeftParenColumn: Column<Terminal> := Column(TLParen,
    [4, 7, 21, 26],
    [15, -12, 15, -15])
  const SeparatorColumn: Column<Terminal> := Column(TSeparator,
    [4, 5, 7, 16, 17, 18, 19, 20, 21, 22, 23, 24, 25, 26, 29, 30],
    [-9, -8, -12, -1, -2, -3, -4, -5, -6, -7, -11, 27, 28, -15, -14, -13])
  const RightParenColumn: Column<Terminal> := Column(TRParen,
    [4, 5, 7, 16, 17, 18, 19, 20, 21, 22, 23, 24, 26, 29, 30],
    [-9, -8, -12, -1, -2, -3, -4, -5, -6, -7, -11, 26, -15, -14, -13])

  const ActionItems: seq<Column<Terminal>> := [
    NumberColumn, TaskNameColumn, EndColumn, PointerColumn, PipePointerColumn, ParallelColumn,
    RetryColumn, LeftParenColumn, SeparatorColumn, RightParenColumn
  ]

  /** `_lr_goto_items`. */
  const ExpressionColumn: Column<NonTerminal> := Column(NExpression,
    [0, 8, 9, 10, 11, 12, 15, 27, 28],
    [1, 16, 17, 18, 19, 20, 25, 29, 30])
  const DescriptorColumn: Column<NonTerminal> := Column(NDescriptor,
    [0, 8, 9, 10, 11, 12, 15, 27, 28],
    [2, 2, 2, 2, 2, 2, 2, 2, 2])
  const FactorColumn: Column<NonTerminal> := Column(NFactor,
    [0, 8, 9, 10, 11, 12, 14, 15, 27, 28],
    [3, 3, 3, 3, 3, 3, 22, 3, 3, 3])
  const TaskColumn: Column<NonTerminal> := Column(NTask,
    [0, 8, 9, 10, 11, 12, 13, 15, 27, 28],
    [4, 4, 4, 4, 4, 4, 21, 4, 4, 4])
  const TermColumn: Column<NonTerminal> := Column(NTerm,
    [0, 8, 9, 10, 11, 12, 15, 27, 28],
    [5, 5, 5, 5, 5, 5, 5, 5, 5])
  const TaskGroupColumn: Column<NonTerminal> := Column(NTaskGroup,
    [15],
    [24])

  const GotoItems: seq<Column<NonTerminal>> := [
    ExpressionColumn, DescriptorColumn, FactorColumn, TaskColumn, TermColumn, TaskGroupColumn
  ]

  // ------------------------------------------------------------ the expansion

  predicate Shaped<K(==)>(items: seq<Column<K>>) {
    && (forall a :: 0 <= a < |items| ==> |items[a].states| == |items[a].entries|)
    && (forall a, b :: 0 <= a < b < |items| ==> items[a].key != items[b].key)
  }

  function Entry<K>(t: Table<K>, s: nat, k: K): Option<int> {
    if s in t && k in t[s] then Some(t[s][k]) else None
  }

  /** A state has an entry exactly when it is among the first `n` of the column, and one of theirs. */
  ghost predicate Expanded<K>(t: Table<K>, c: Column<K>, n: nat)
    requires n <= |c.states| == |c.entries|
  {
    && (forall s: nat :: s in c.states[..n] <==> Entry(t, s, c.key).Some?)
    && (forall s: nat :: Entry(t, s, c.key).Some? ==>
          exists i :: 0 <= i < n && c.states[i] == s && Entry(t, s, c.key).value == c.entries[i])
  }

  function SetEntry<K(!new)>(t: Table<K>, s: nat, k: K, y: int): (r: Table<K>)
    ensures forall s', k' :: Entry(r, s', k') == if s' == s && k' == k then Some(y) else Entry(t, s', k')
  {
    var row := if s in t then t[s] else map[];
    t[s := row[k := y]]
  }

  method Expand<K(==, !new)>(items: seq<Column<K>>) returns (t: Table<K>)
    requires Shaped(items)
    ensures forall a :: 0 <= a < |items| ==> Expanded(t, items[a], |items[a].states|)
    ensures forall s, k :: (forall a :: 0 <= a < |items| ==> items[a].key != k) ==> Entry(t, s, k) == None
  {
    t := map[];
    var a := 0;
    while a < |items|
      invariant 0 <= a <= |items|
      invariant forall b :: 0 <= b < a ==> Expanded(t, items[b], |items[b].states|)
      invariant forall s, k :: (forall b :: 0 <= b < a ==> items[b].key != k) ==> Entry(t, s, k) == None
    {
      t := ExpandColumn(t, items[a]);
      forall b | 0 <= b < a ensures Expanded(t, items[b], |items[b].states|) {
        assert items[b].key != items[a].key;
      }
      a := a + 1;
    }
  }

  method ExpandColumn<K(==, !new)>(t0: Table<K>, c: Column<K>) returns (t: Table<K>)
    requires |c.states| == |c.entries| && forall s :: Entry(t0, s, c.key) == None
    ensures Expanded(t, c, |c.states|)
    ensures forall s, k :: k != c.key ==> Entry(t, s, k) == Entry(t0, s, k)
  {
    t := t0;
    var i := 0;
    while i < |c.states|
      invariant 0 <= i <= |c.states| && Expanded(t, c, i)
      invariant forall s, k :: k != c.key ==> Entry(t, s, k) == Entry(t0, s, k)
    {
      t := SetEntry(t, c.states[i], c.key, c.entries[i]);
      assert c.states[..i + 1] == c.states[..i] + [c.states[i]];
      i := i + 1;
    }
  }

  // ------------------------------------------------------------ what the entries mean

  /** Zero accepts, a positive entry shifts to a state, a negative one reduces by a production. */
  function Decode(y: Option<int>): Act {
    match y
    case None => Error
    case Some(n) => if n == 0 then Accept else if n > 0 then Shift(n) else Reduce(-n)
  }

  ghost predicate EntriesAgree(c: Column<Terminal>) {
    && |c.states| == |c.entries|
    && forall i :: 0 <= i < |c.states| ==> Decode(Some(c.entries[i])) == Action(c.states[i], c.key)
  }
  ghost predicate NoOthers(c: Column<Terminal>) {
    forall s: nat :: s !in c.states ==> Action(s, c.key) == Error
  }
  ghost predicate ActionColumn(c: Column<Terminal>) { EntriesAgree(c) && NoOthers(c) }

  ghost predicate GotoColumn(c: Column<NonTerminal>) {
    && |c.states| == |c.entries|
    && (forall i :: 0 <= i < |c.states| ==> c.entries[i] >= 0 && c.entries[i] == Goto(c.states[i], c.key))
    && (forall s: nat :: s !in c.states ==> Goto(s, c.key) == -1)
  }

  lemma NumberColumnAgrees()
    ensures ActionColumn(NumberColumn)
  {
    var c := NumberColumn;
    forall i | 0 <= i < 10 ensures Decode(Some(c.entries[i])) == Action(c.states[i], c.key) {
      if i < 5 { } else { }
    }
  }
  lemma TaskNameColumnAgrees()
    ensures ActionColumn(TaskNameColumn)
  {
    var c := TaskNameColumn;
    forall i | 0 <= i < 10 ensures Decode(Some(c.entries[i])) == Action(c.states[i], c.key) {
      if i < 5 { } else { }
    }
  }
  lemma EndColumnAgrees()
    ensures ActionColumn(EndColumn)
  {
    var c := EndColumn;
    forall i | 0 <= i < 13 ensures Decode(Some(c.entries[i])) == Action(c.states[i], c.key) {
      if i < 6 { } else { }
    }
  }
  lemma PointerColumnAgrees()
    ensures ActionColumn(PointerColumn)
  {
    var c := PointerColumn;
    forall i | 0 <= i < 18 ensures Decode(Some(c.entries[i])) == Action(c.states[i], c.key) {
      if i < 9 { } else { }
    }
  }
  lemma PipePointerColumnAgrees()
    ensures ActionColumn(PipePointerColumn)
  {
    var c := PipePointerColumn;
    forall i | 0 <= i < 18 ensures Decode(Some(c.entries[i])) == Action(c.states[i], c.key) {
      if i < 9 { } else { }
    }
  }
  lemma ParallelColumnAgrees()
    ensures ActionColumn(ParallelColumn)
  {
    var c := ParallelColumn;
    forall i | 0 <= i < 16 ensures Decode(Some(c.entries[i])) == Action(c.states[i], c.key) {
      if i < 8 { } else { }
    }
  }
  lemma RetryColumnAgrees()
    ensures ActionColumn(RetryColumn)
  {
    var c := RetryColumn;
    forall i | 0 <= i < 5 ensures Decode(Some(c.entries[i])) == Action(c.states[i], c.key) {
      if i < 2 { } else { }
    }
  }
  lemma LeftParenColumnAgrees()
    ensures ActionColumn(LeftParenColumn)
  {
    var c := LeftParenColumn;
    forall i | 0 <= i < 4 ensures Decode(Some(c.entries[i])) == Action(c.states[i], c.key) {
      if i < 2 { } else { }
    }
  }
  lemma SeparatorColumnAgrees()
    ensures ActionColumn(SeparatorColumn)
  {
    var c := SeparatorColumn;
    forall i | 0 <= i < 16 ensures Decode(Some(c.entries[i])) == Action(c.states[i], c.key) {
      if i < 8 { } else { }
    }
  }
  lemma RightParenColumnAgrees()
    ensures ActionColumn(RightParenColumn)
  {
    var c := RightParenColumn;
    forall i | 0 <= i < 15 ensures Decode(Some(c.entries[i])) == Action(c.states[i], c.key) {
      if i < 7 { } else { }
    }
  }
  lemma ExpressionColumnAgrees()
    ensures GotoColumn(ExpressionColumn)
  {
  }
  lemma DescriptorColumnAgrees()
    ensures GotoColumn(DescriptorColumn)
  {
  }
  lemma FactorColumnAgrees()
    ensures GotoColumn(FactorColumn)
  {
  }
  lemma TaskColumnAgrees()
    ensures GotoColumn(TaskColumn)
  {
  }
  lemma TermColumnAgrees()
    ensures GotoColumn(TermColumn)
  {
  }
  lemma TaskGroupColumnAgrees()
    ensures GotoColumn(TaskGroupColumn)
  {
  }

  lemma ActionColumns(a: nat)
    requires a < |ActionItems|
    ensures ActionColumn(ActionItems[a])
  {
    NumberColumnAgrees();
    TaskNameColumnAgrees();
    EndColumnAgrees();
    PointerColumnAgrees();
    PipePointerColumnAgrees();
    ParallelColumnAgrees();
    RetryColumnAgrees();
    LeftParenColumnAgrees();
    SeparatorColumnAgrees();
    RightParenColumnAgrees();
  }

  lemma GotoColumns(a: nat)
    requires a < |GotoItems|
    ensures GotoColumn(GotoItems[a])
  {
    ExpressionColumnAgrees();
    DescriptorColumnAgrees();
    FactorColumnAgrees();
    TaskColumnAgrees();
    TermColumnAgrees();
    TaskGroupColumnAgrees();
  }

  lemma ActionShape()
    ensures Shaped(ActionItems)
  {
  }
  lemma GotoShape()
    ensures Shaped(GotoItems)
  {
  }

  lemma EntryMeans(t: Table<Terminal>, c: Column<Terminal>, s: nat)
    requires ActionColumn(c) && Expanded(t, c, |c.states|)
    ensures Decode(Entry(t, s, c.key)) == Action(s, c.key)
  {
    assert c.states[..|c.states|] == c.states;
  }
  lemma TargetMeans(t: Table<NonTerminal>, c: Column<NonTerminal>, s: nat)
    requires GotoColumn(c) && Expanded(t, c, |c.states|)
    ensures Entry(t, s, c.key) == if Goto(s, c.key) < 0 then None else Some(Goto(s, c.key))
  {
    assert c.states[..|c.states|] == c.states;
  }

  lemma EveryTerminal(k: Terminal) returns (a: nat)
    ensures a < |ActionItems| && ActionItems[a].key == k
  {
    a := match k {
      case TNumber => 0 case TTaskName => 1 case TEnd => 2
      case TOp(Pointer) => 3 case TOp(PipePointer) => 4 case TOp(Parallelism) => 5 case TOp(Retry) => 6
      case TLParen => 7 case TSeparator => 8 case TRParen => 9
    };
  }
  lemma EveryNonTerminal(k: NonTerminal) returns (a: nat)
    ensures a < |GotoItems| && GotoItems[a].key == k
  {
    a := match k {
      case NExpression => 0 case NDescriptor => 1 case NFactor => 2
      case NTask => 3 case NTerm => 4 case NTaskGroup => 5
    };
  }

  /** The expanded action table, entry by entry, is the machine's action function. */
  method BuildActions() returns (t: Table<Terminal>)
    ensures forall s: nat, k: Terminal :: Decode(Entry(t, s, k)) == Action(s, k)
  {
    ActionShape();
    t := Expand(ActionItems);
    forall s: nat, k: Terminal ensures Decode(Entry(t, s, k)) == Action(s, k) {
      var a := EveryTerminal(k);
      ActionColumns(a);
      EntryMeans(t, ActionItems[a], s);
    }
  }

  /** The expanded goto table is the machine's goto function. */
  method BuildGotos() returns (t: Table<NonTerminal>)
    ensures forall s: nat, k: NonTerminal :: Entry(t, s, k) == if Goto(s, k) < 0 then None else Some(Goto(s, k))
  {
    GotoShape();
    t := Expand(GotoItems);
    forall s: nat, k: NonTerminal ensures Entry(t, s, k) == if Goto(s, k) < 0 then None else Some(Goto(s, k)) {
      var a := EveryNonTerminal(k);
      GotoColumns(a);
      TargetMeans(t, GotoItems[a], s);
    }
  }
}
