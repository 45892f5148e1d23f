/**
  The `ConditionalGroup` object of the syntax tree, which files branches in its dictionary
  as it is built.
 */
module BranchGroups {
  import opened Wrappers
  import opened Pointy
  import opened TaskTree

  /** `get_bin_ops`: the branches in the order of the dictionary. */
  function BinOps(d: Dict): seq<Expr> {
    match d case EmptyDict => [] case Bind(front, _, v) => BinOps(front) + [v]
  }

  function Entries(d: Dict): seq<(nat, Expr)> {
    match d case EmptyDict => [] case Bind(front, k, v) => Entries(front) + [(k, v)]
  }

  class ConditionalGroup {
    var descriptors: Dict

    /** A group of two expressions. */
    constructor (expr0: Expr, expr1: Expr)
      ensures descriptors == Pointy.SetValue(Pointy.SetValue(EmptyDict, expr0, expr0), expr1, expr1)
    {
      descriptors := EmptyDict;
      new;
      SetValue(expr0, expr0);
      SetValue(expr1, expr1);
    }

    /** A group and one more expression. */
    constructor Extend(group: ConditionalGroup, expr: Expr)
      ensures descriptors == Pointy.SetValue(SetGroup(EmptyDict, group.descriptors), expr, expr)
    {
      descriptors := EmptyDict;
      new;
      MergeGroup(group);
      SetValue(expr, expr);
    }

    /** `set_value` on an expression: goes left to a descriptor, and files the whole branch there. */
    method SetValue(value: Expr, initial: Expr)
      modifies this
      ensures descriptors == Pointy.SetValue(old(descriptors), value, initial)
      decreases value
    {
      match value
      case BinOp(_, left, _) => SetValue(left, initial);
      case Descriptor(k) => descriptors := Assign(descriptors, k, initial);
      case _ =>
    }

    /** `set_value` on a group: files each of its branches again. */
    method MergeGroup(group: ConditionalGroup)
      requires group != this
      modifies this
      ensures descriptors == SetGroup(old(descriptors), group.descriptors)
    {
      var branches := BinOps(group.descriptors);
      var i := 0;
      while i < |branches|
        invariant 0 <= i <= |branches|
        invariant group.descriptors == old(group.descriptors)
        invariant descriptors == SetAll(old(descriptors), branches[..i])
      {
        assert branches[..i + 1][..i] == branches[..i];
        SetValue(branches[i], branches[i]);
        i := i + 1;
      }
      assert branches[..i] == branches;
      SetAllGroup(old(descriptors), group.descriptors);
    }

    /** `get_extra_descriptors`: the branches whose label is neither 0 nor 1. */
    method GetExtraDescriptors() returns (extras: seq<Expr>)
      ensures extras == ExtraValues(descriptors)
    {
      var entries := Entries(descriptors);
      extras := [];
      var i := 0;
      while i < |entries|
        invariant 0 <= i <= |entries| && extras == CustomOnes(entries[..i])
      {
        assert entries[..i + 1][..i] == entries[..i];
        if entries[i].0 > 1 { extras := extras + [entries[i].1]; }
        i := i + 1;
      }
      assert entries[..i] == entries;
      ExtrasOfEntries(descriptors);
    }
  }

  function SetAll(d: Dict, vs: seq<Expr>): Dict {
    if vs == [] then d else Pointy.SetValue(SetAll(d, vs[..|vs| - 1]), vs[|vs| - 1], vs[|vs| - 1])
  }
  function CustomOnes(es: seq<(nat, Expr)>): seq<Expr> {
    if es == [] then []
    else CustomOnes(es[..|es| - 1]) + if es[|es| - 1].0 > 1 then [es[|es| - 1].1] else []
  }

  lemma {:induction false} SetAllGroup(d: Dict, g: Dict)
    ensures SetAll(d, BinOps(g)) == SetGroup(d, g)
  {
    match g
    case EmptyDict =>
    case Bind(front, _, v) =>
      SetAllGroup(d, front);
      assert BinOps(g)[..|BinOps(g)| - 1] == BinOps(front);
  }

  lemma {:induction false} ExtrasOfEntries(d: Dict)
    ensures CustomOnes(Entries(d)) == ExtraValues(d)
  {
    match d
    case EmptyDict =>
    case Bind(front, _, _) =>
      ExtrasOfEntries(front);
      assert Entries(d)[..|Entries(d)| - 1] == Entries(front);
  }
}
