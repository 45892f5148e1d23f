/**
  Batch rounds: each list field is cut into batches, every round takes the next batch of
  each field, and the consumer of a round writes into the dictionary that is yielded.
 */
module Batch {
  import opened Wrappers
  import opened Rounds

  // ------------------------------------------------------------ batches of a list

  function Min(a: nat, b: nat): nat { if a < b then a else b }

  /** `batched`: full batches, and a shorter last one. */
  function Batches<V>(xs: seq<V>, size: nat): seq<seq<V>>
    requires size > 0
  {
    if xs == [] then []
    else
      var n := Min(size, |xs|);
      [xs[..n]] + Batches(xs[n..], size)
  }

  function Joined<V>(bs: seq<seq<V>>): seq<V> {
    if bs == [] then [] else bs[0] + Joined(bs[1..])
  }

  lemma {:induction false} BatchesJoin<V>(xs: seq<V>, size: nat)
    requires size > 0
    ensures Joined(Batches(xs, size)) == xs
    decreases |xs|
  {
    if xs != [] {
      var n := Min(size, |xs|);
      BatchesJoin(xs[n..], size);
      var b, rest := xs[..n], Batches(xs[n..], size);
      assert ([b] + rest)[1..] == rest && ([b] + rest)[0] == b;
      assert b + xs[n..] == xs;
    }
  }

  lemma {:induction false} BatchSizes<V>(xs: seq<V>, size: nat, i: nat)
    requires size > 0 && i < |Batches(xs, size)|
    ensures 0 < |Batches(xs, size)[i]| <= size
    ensures i + 1 < |Batches(xs, size)| ==> |Batches(xs, size)[i]| == size
    decreases |xs|
  {
    var n := Min(size, |xs|);
    if i > 0 { BatchSizes(xs[n..], size, i - 1); }
  }

  /** There are as many batches as the length divided by the size, rounded up. */
  lemma {:induction false} BatchCount<V>(xs: seq<V>, size: nat)
    requires size > 0
    ensures var k := |Batches(xs, size)|; |xs| <= k * size && (k > 0 ==> (k - 1) * size < |xs|)
    decreases |xs|
  {
    if xs != [] {
      var n := Min(size, |xs|);
      BatchCount(xs[n..], size);
      var k := |Batches(xs[n..], size)|;
      assert (k + 1) * size == k * size + size;
      if k > 0 { assert (k - 1) * size + size == k * size; }
    }
  }

  // ------------------------------------------------------------ fields

  /** A list field, with the data types it accepts. */
  datatype Field<V> = Field(name: Name, values: seq<V>, size: nat, kinds: seq<Kind>)

  predicate Proper<V>(fs: seq<Field<V>>) {
    && (forall i :: 0 <= i < |fs| ==> fs[i].size > 0 && fs[i].kinds != [])
    && (forall i, j :: 0 <= i < j < |fs| ==> fs[i].name != fs[j].name)
  }

  /** `_convert_value_to_field_data_type`: a container the field does not accept becomes its first one. */
  function Convert<V>(f: Field<V>, v: Value<V>): Value<V>
    requires f.kinds != []
  {
    if v.BatchOf? && v.kind !in f.kinds then BatchOf(f.kinds[0], v.items) else v
  }

  function BatchValue<V>(f: Field<V>, items: seq<V>): Value<V>
    requires f.kinds != []
  {
    Convert(f, BatchOf(TupleKind, items))
  }

  /** The column of a field: its batches, converted. */
  function ColumnOf<V>(f: Field<V>): (c: Column<V>)
    requires f.size > 0 && f.kinds != []
    ensures c.name == f.name && |c.given| == |Batches(f.values, f.size)|
    ensures forall r :: 0 <= r < |c.given| ==> c.given[r] == BatchValue(f, Batches(f.values, f.size)[r])
  {
    var bs := Batches(f.values, f.size);
    Column(f.name, seq(|bs|, r requires 0 <= r < |bs| => BatchValue(f, bs[r])))
  }
  function ColumnsOf<V>(fs: seq<Field<V>>): (cs: seq<Column<V>>)
    requires Proper(fs)
    ensures |cs| == |fs| && forall i :: 0 <= i < |fs| ==> cs[i] == ColumnOf(fs[i])
  {
    seq(|fs|, i requires 0 <= i < |fs| => ColumnOf(fs[i]))
  }

  lemma ColumnsForm<V>(fs: seq<Field<V>>)
    requires Proper(fs)
    ensures Separate(ColumnsOf(fs)) && Full(ColumnsOf(fs))
  {
    var cs := ColumnsOf(fs);
    forall i, r | 0 <= i < |cs| && 0 <= r < |cs[i].given| ensures Truthy(cs[i].given[r]) {
      BatchSizes(fs[i].values, fs[i].size, r);
    }
  }

  /** The value of a field in a round: its next batch, converted, or none when it is used up. */
  function ValueAt<V>(f: Field<V>, round: nat): Value<V>
    requires f.size > 0 && f.kinds != []
  {
    At(ColumnOf(f), round)
  }

  /** The largest number of batches of a field. */
  function MostBatches<V>(fs: seq<Field<V>>): nat
    requires Proper(fs)
  {
    Most(ColumnsOf(fs))
  }

  // ------------------------------------------------------------ the generator

  /** What an iterator has left after it has given some values of its column. */
  ghost predicate LeftAfter<V>(f: Field<V>, left: seq<V>, round: nat)
    requires f.size > 0
  {
    var bs := Batches(f.values, f.size);
    Batches(left, f.size) == bs[Min(round, |bs|)..]
  }

  lemma LeftStep<V>(f: Field<V>, left: seq<V>, round: nat)
    requires f.size > 0 && f.kinds != [] && LeftAfter(f, left, round)
    ensures left == [] ==> ValueAt(f, round) == NoValue && LeftAfter(f, left, round + 1)
    ensures left != [] ==> var n := Min(f.size, |left|);
      ValueAt(f, round) == BatchValue(f, left[..n]) && LeftAfter(f, left[n..], round + 1)
  {
    var bs := Batches(f.values, f.size);
    if left != [] {
      var n := Min(f.size, |left|);
      FirstBatch(bs, round, left[..n], Batches(left[n..], f.size));
    }
  }
  lemma FirstBatch<V>(bs: seq<seq<V>>, round: nat, b: seq<V>, more: seq<seq<V>>)
    requires [b] + more == bs[Min(round, |bs|)..]
    ensures round < |bs| && bs[round] == b && more == bs[Min(round + 1, |bs|)..]
  {
    assert |[b] + more| == |bs| - Min(round, |bs|);
    assert bs[round..][0] == b;
    assert more == ([b] + more)[1..] == bs[round + 1..];
  }

  // The iterators when the first `i` of them are one value further than `round`; unfolded
  // only by the lemmas below.
  ghost predicate Midway<V>(fs: seq<Field<V>>, left: seq<seq<V>>, i: nat, round: nat) {
    |left| == |fs| && Proper(fs) && forall n :: n == |fs| ==> MidwayFor(fs, left, i, round, n)
  }
  ghost predicate MidwayFor<V>(fs: seq<Field<V>>, left: seq<seq<V>>, i: nat, round: nat, n: nat)
    requires |left| == |fs| && Proper(fs)
  {
    n == |fs| && forall j :: 0 <= j < |fs| ==> LeftAfter(fs[j], left[j], if j < i then round + 1 else round)
  }

  lemma MidwayStart<V>(fs: seq<Field<V>>, left: seq<seq<V>>)
    requires Proper(fs) && |left| == |fs| && forall i :: 0 <= i < |fs| ==> left[i] == fs[i].values
    ensures Midway(fs, left, 0, 0)
  {
  }

  lemma MidwayStep<V>(fs: seq<Field<V>>, left: seq<seq<V>>, i: nat, round: nat, rest: seq<V>)
    requires Midway(fs, left, i, round) && i < |fs|
    requires left[i] == [] ==> rest == []
    requires left[i] != [] ==> rest == left[i][Min(fs[i].size, |left[i]|)..]
    ensures left[i] == [] ==> ValueAt(fs[i], round) == NoValue
    ensures left[i] != [] ==> ValueAt(fs[i], round) == BatchValue(fs[i], left[i][..Min(fs[i].size, |left[i]|)])
    ensures Midway(fs, left[i := rest], i + 1, round)
  {
    assert MidwayFor(fs, left, i, round, |fs|);
    assert LeftAfter(fs[i], left[i], round);
    LeftStep(fs[i], left[i], round);
  }

  lemma MidwayEnd<V>(fs: seq<Field<V>>, left: seq<seq<V>>, round: nat)
    requires Midway(fs, left, |fs|, round)
    ensures Midway(fs, left, 0, round + 1)
  {
    assert MidwayFor(fs, left, |fs|, round, |fs|);
  }

  /** `_execute_field_batch_processors`: the iterators, and the one dictionary it yields. */
  class RoundGenerator<V> {
    const fields: seq<Field<V>>
    /** What each iterator has not given yet. */
    var left: seq<seq<V>>
    var kwargs: Round<V>
    var finished: bool

    constructor (fields: seq<Field<V>>)
      requires Proper(fields)
      ensures this.fields == fields && Midway(fields, left, 0, 0) && kwargs == map[] && finished == (fields == [])
    {
      this.fields := fields;
      left := seq(|fields|, i requires 0 <= i < |fields| => fields[i].values);
      kwargs, finished := map[], fields == [];
      new;
      MidwayStart(fields, left);
    }

    /** The next value of one field goes into the dictionary. */
    method NextOf(i: nat, ghost round: nat) returns (consumed: bool)
      requires Midway(fields, left, i, round) && i < |fields|
      modifies this`left, this`kwargs
      ensures Midway(fields, left, i + 1, round)
      ensures kwargs == old(kwargs)[fields[i].name := ValueAt(fields[i], round)]
      ensures consumed == (round >= |ColumnOf(fields[i]).given|)
    {
      var f, rest := fields[i], left[i];
      if rest == [] {
        MidwayStep(fields, left, i, round, []);
        left := left[i := []];
        kwargs := kwargs[f.name := Convert(f, NoValue)];
        return true;
      }
      var n := Min(f.size, |rest|);
      MidwayStep(fields, left, i, round, rest[n..]);
      left := left[i := rest[n..]];
      kwargs := kwargs[f.name := Convert(f, BatchOf(TupleKind, rest[..n]))];
      return false;
    }

    /** One round: the next value of every field goes into the dictionary. */
    method Next(ghost round: nat)
      requires Midway(fields, left, 0, round) && !finished && fields != []
      modifies this
      ensures Midway(fields, left, 0, round + 1)
      ensures kwargs == old(kwargs) + Row(ColumnsOf(fields), round)
      ensures finished <==> round >= MostBatches(fields)
    {
      ghost var cs := ColumnsOf(fields);
      var consumed, i := true, 0;
      while i < |fields|
        invariant 0 <= i <= |fields| && Midway(fields, left, i, round)
        invariant kwargs == old(kwargs) + RoundMap(cs, i, round)
        invariant consumed <==> forall j :: 0 <= j < i ==> round >= |cs[j].given|
      {
        MergeStep(old(kwargs), RoundMap(cs, i, round), fields[i].name, ValueAt(fields[i], round));
        var used := NextOf(i, round);
        if !used { consumed := false; }
        i := i + 1;
      }
      MidwayEnd(fields, left, round);
      LastRound(cs, round);
      finished := consumed;
    }
  }

  lemma MergeStep<V>(a: Round<V>, b: Round<V>, k: Name, v: Value<V>)
    ensures (a + b)[k := v] == a + b[k := v]
  {
  }

  // ------------------------------------------------------------ the consumer

  /** The batches a field was given over the rounds. */
  function Given<V>(rounds: seq<Round<V>>, name: Name): seq<seq<V>> {
    if rounds == [] then []
    else
      var n := |rounds| - 1;
      Given(rounds[..n], name)
      + if name in rounds[n] && rounds[n][name].BatchOf? then [rounds[n][name].items] else []
  }

  ghost predicate YieldedAll<V>(fields: seq<Field<V>>, rounds: seq<Round<V>>)
    requires Proper(fields)
  {
    forall r, i :: 0 <= r < |rounds| && 0 <= i < |fields| ==>
      fields[i].name in rounds[r] && rounds[r][fields[i].name] == ValueAt(fields[i], r)
  }

  /** All submissions: one for each batch number, and one more without a batch if a non-batch value is truthy. */
  ghost function Submissions<V>(fields: seq<Field<V>>, others: Round<V>): seq<Round<V>>
    requires Proper(fields)
  {
    AllSent(ColumnsOf(fields), others)
  }

  /** One turn of the submission loop: a round with any truthy value is submitted. */
  method Submit<V>(g: RoundGenerator<V>, others: Round<V>, ghost n: nat)
    returns (round: Round<V>, sent: seq<Round<V>>)
    requires Midway(g.fields, g.left, 0, n) && !g.finished && g.fields != []
    requires var cs := ColumnsOf(g.fields);
      Names(cs) !! others.Keys && n <= Most(cs) && g.kwargs == Before(cs, others, n)
    modifies g
    ensures Midway(g.fields, g.left, 0, n + 1) && (g.finished <==> n >= MostBatches(g.fields))
    ensures var cs := ColumnsOf(g.fields);
      && (n < Most(cs) ==> g.kwargs == Before(cs, others, n + 1)) && round == Yielded(cs, others, n)
      && sent == if Sends(cs, others, n) then [Delivered(cs, others, n)] else []
  {
    ghost var cs := ColumnsOf(g.fields);
    ColumnsForm(g.fields);
    RoundStep(cs, others, n);
    RoundTruth(cs, others, n);
    g.Next(n);
    round, sent := g.kwargs, [];
    if AnyTruthy(g.kwargs) {
      g.kwargs := g.kwargs + others;
      sent := [g.kwargs];
    }
  }

  /** What the first rounds yield. */
  ghost function Yields<V>(cs: seq<Column<V>>, others: Round<V>, n: nat): (r: seq<Round<V>>)
    ensures |r| == n
  {
    if n == 0 then [] else Yields(cs, others, n - 1) + [Yielded(cs, others, n - 1)]
  }
  lemma {:induction false} YieldsAt<V>(cs: seq<Column<V>>, others: Round<V>, n: nat, r: nat)
    requires r < n
    ensures Yields(cs, others, n)[r] == Yielded(cs, others, r)
  {
    if r < n - 1 { YieldsAt(cs, others, n - 1, r); }
  }

  // The generator before round `n`, unfolded only by the lemma below.
  ghost predicate Ready<V>(fields: seq<Field<V>>, others: Round<V>, left: seq<seq<V>>, kwargs: Round<V>, n: nat) {
    Proper(fields) && forall m :: m == n ==> ReadyFor(fields, others, left, kwargs, m)
  }
  ghost predicate ReadyFor<V>(fields: seq<Field<V>>, others: Round<V>, left: seq<seq<V>>, kwargs: Round<V>, n: nat)
    requires Proper(fields)
  {
    Midway(fields, left, 0, n) && kwargs == Before(ColumnsOf(fields), others, n)
  }
  lemma ReadyMeans<V>(fields: seq<Field<V>>, others: Round<V>, left: seq<seq<V>>, kwargs: Round<V>, n: nat)
    requires Proper(fields)
    ensures Ready(fields, others, left, kwargs, n) <==>
      Midway(fields, left, 0, n) && kwargs == Before(ColumnsOf(fields), others, n)
  {
    if Ready(fields, others, left, kwargs, n) { assert ReadyFor(fields, others, left, kwargs, n); }
  }

  /** The same turn, on a generator that is ready for its round. */
  method SubmitNext<V>(g: RoundGenerator<V>, others: Round<V>, ghost n: nat, ghost cs: seq<Column<V>>)
    returns (round: Round<V>, sent: seq<Round<V>>)
    requires Proper(g.fields) && cs == ColumnsOf(g.fields) && Ready(g.fields, others, g.left, g.kwargs, n)
    requires !g.finished && g.fields != [] && Names(cs) !! others.Keys && n <= Most(cs)
    modifies g
    ensures n < Most(cs) ==> Ready(g.fields, others, g.left, g.kwargs, n + 1)
    ensures g.finished <==> n >= Most(cs)
    ensures Yields(cs, others, n) + [round] == Yields(cs, others, n + 1)
    ensures Sent(cs, others, n) + sent == Sent(cs, others, n + 1)
  {
    ReadyMeans(g.fields, others, g.left, g.kwargs, n);
    round, sent := Submit(g, others, n);
    ReadyMeans(g.fields, others, g.left, g.kwargs, n + 1);
  }

  lemma YieldsAll<V>(fields: seq<Field<V>>, others: Round<V>, n: nat)
    requires Proper(fields)
    ensures YieldedAll(fields, Yields(ColumnsOf(fields), others, n))
  {
    var cs, rounds := ColumnsOf(fields), Yields(ColumnsOf(fields), others, n);
    ColumnsForm(fields);
    forall r, i | 0 <= r < n && 0 <= i < |fields|
      ensures fields[i].name in rounds[r] && rounds[r][fields[i].name] == ValueAt(fields[i], r)
    {
      RowValues(cs, r);
      YieldsAt(cs, others, n, r);
      assert cs[i].name in Row(cs, r) && rounds[r] == Base(others, r) + Row(cs, r);
    }
  }

  /** The submission loop of `execute`, over all rounds. */
  method SubmitAll<V>(fields: seq<Field<V>>, others: Round<V>)
    returns (rounds: seq<Round<V>>, sent: seq<Round<V>>)
    requires Proper(fields) && fields != [] && Names(ColumnsOf(fields)) !! others.Keys
    ensures |rounds| == 1 + MostBatches(fields) && YieldedAll(fields, rounds)
    ensures sent == Submissions(fields, others)
  {
    ghost var cs := ColumnsOf(fields);
    rounds, sent := [], [];
    ghost var n := 0;
    var g := new RoundGenerator<V>(fields);
    ReadyMeans(fields, others, g.left, g.kwargs, 0);
    while !g.finished
      invariant fresh(g) && g.fields == fields
      invariant !g.finished ==> Ready(fields, others, g.left, g.kwargs, |rounds|)
      invariant (g.finished <==> |rounds| > Most(cs)) && |rounds| <= Most(cs) + 1
      invariant n == |rounds| && rounds == Yields(cs, others, n) && sent == Sent(cs, others, n)
      decreases Most(cs) + 1 - |rounds|
    {
      var round, more := SubmitNext(g, others, n, cs);
      rounds, sent, n := rounds + [round], sent + more, n + 1;
    }
    YieldsAll(fields, others, |rounds|);
    SentAll(cs, others);
  }

  datatype BatchError = NotConfigured

  /**
    `execute`: without batch fields one pipeline is started, with the other values; a run
    that configures no pipeline is an error.
   */
  method Execute<V>(fields: seq<Field<V>>, others: Round<V>)
    returns (rounds: seq<Round<V>>, sent: seq<Round<V>>, status: Result<nat, BatchError>)
    requires Proper(fields) && Names(ColumnsOf(fields)) !! others.Keys
    ensures fields == [] ==> rounds == [] && sent == [others]
    ensures fields != [] ==> |rounds| == 1 + MostBatches(fields) && sent == Submissions(fields, others)
    ensures fields != [] ==>
      |sent| == MostBatches(fields) + if AnyTruthy(others) && MostBatches(fields) > 0 then 1 else 0
    ensures YieldedAll(fields, rounds)
    ensures status == if fields != [] && MostBatches(fields) == 0 then Err(NotConfigured) else Ok(|sent|)
  {
    rounds, sent := [], [others];
    if fields != [] { rounds, sent := SubmitAll(fields, others); }
    status := if sent == [] then Err(NotConfigured) else Ok(|sent|);
  }

  /** A submission carries the batches of its round and every other value; past the last batch it carries none. */
  lemma SubmissionCarries<V>(fields: seq<Field<V>>, others: Round<V>, r: nat)
    requires Proper(fields) && Names(ColumnsOf(fields)) !! others.Keys && r < |Submissions(fields, others)|
    ensures var m := Submissions(fields, others)[r];
      && m.Keys == Names(ColumnsOf(fields)) + others.Keys
      && (forall i :: 0 <= i < |fields| ==> fields[i].name in m && m[fields[i].name] == ValueAt(fields[i], r))
      && (forall k :: k in others ==> m[k] == others[k])
      && (r == MostBatches(fields) ==> forall i :: 0 <= i < |fields| ==> ValueAt(fields[i], r) == NoValue)
  {
    var cs, m := ColumnsOf(fields), Submissions(fields, others)[r];
    ColumnsForm(fields);
    CarriesOthers(cs, others, r);
    forall i | 0 <= i < |fields|
      ensures fields[i].name in m && m[fields[i].name] == ValueAt(fields[i], r)
      ensures r == MostBatches(fields) ==> ValueAt(fields[i], r) == NoValue
    {
      CarriesColumn(cs, others, r, i);
    }
  }

  /** One field with one batch and one truthy other value: a second submission, without a batch. */
  lemma ExtraSubmission()
    ensures var f, g := Name("f"), Name("g"); var fields := [Field(f, [1], 1, [ListKind])];
      Submissions(fields, map[g := Plain(true, 0)])
      == [map[f := BatchOf(ListKind, [1]), g := Plain(true, 0)], map[f := NoValue, g := Plain(true, 0)]]
  {
    var f, others := Field(Name("f"), [1], 1, [ListKind]), map[Name("g") := Plain(true, 0)];
    assert f.values[..1] == [1] && f.values[1..] == [];
    assert Batches(f.values, 1) == [f.values[..1]] + Batches(f.values[1..], 1) == [[1]];
    var cs := ColumnsOf([f]);
    assert Most(cs[..0]) == 0 && Most(cs) == 1;
    assert Truthy(others[Name("g")]);
    assert RoundMap(cs, 0, 0) == RoundMap(cs, 0, 1) == map[];
    assert Delivered(cs, others, 0) == map[Name("f") := BatchOf(ListKind, [1]), Name("g") := Plain(true, 0)];
    assert Delivered(cs, others, 1) == map[Name("f") := NoValue, Name("g") := Plain(true, 0)];
  }

  // ------------------------------------------------------------ conservation

  lemma {:induction false} GivenBatches<V>(rounds: seq<Round<V>>, f: Field<V>)
    requires f.size > 0 && f.kinds != []
    requires forall r :: 0 <= r < |rounds| ==> f.name in rounds[r] && rounds[r][f.name] == ValueAt(f, r)
    ensures var bs := Batches(f.values, f.size); Given(rounds, f.name) == bs[..Min(|rounds|, |bs|)]
  {
    if rounds != [] {
      var n := |rounds| - 1;
      var bs := Batches(f.values, f.size);
      GivenBatches(rounds[..n], f);
      if n < |bs| { assert bs[..n] + [bs[n]] == bs[..n + 1]; }
    }
  }

  /** Nothing is lost: joining what a field was given over the rounds gives back its list. */
  lemma RoundsConserve<V>(rounds: seq<Round<V>>, fields: seq<Field<V>>, i: nat)
    requires Proper(fields) && i < |fields| && |rounds| >= MostBatches(fields)
    requires YieldedAll(fields, rounds)
    ensures Joined(Given(rounds, fields[i].name)) == fields[i].values
  {
    var f := fields[i];
    var bs := Batches(f.values, f.size);
    MostIsMaximum(ColumnsOf(fields));
    assert |ColumnsOf(fields)[i].given| == |bs|;
    GivenBatches(rounds, f);
    assert bs[..|bs|] == bs;
    BatchesJoin(f.values, f.size);
  }
}
