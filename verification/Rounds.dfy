/**
  Rounds over columns: in every round each column gives its next value, or none when it is
  used up, and the values are written into one dictionary that is kept between the rounds.
 */
module Rounds {
  /** The containers a batch may be handed over in. */
  datatype Kind = TupleKind | ListKind
  datatype Value<V> = NoValue | BatchOf(kind: Kind, items: seq<V>) | Plain(truthy: bool, tag: nat)
  /** The name of an argument. */
  datatype Name = Name(text: string)
  type Round<V> = map<Name, Value<V>>

  predicate Truthy<V>(v: Value<V>) {
    match v case NoValue => false case BatchOf(_, xs) => xs != [] case Plain(t, _) => t
  }
  predicate AnyTruthy<V>(m: Round<V>) { exists k :: k in m && Truthy(m[k]) }

  /** What a field gives over the rounds. */
  datatype Column<V> = Column(name: Name, given: seq<Value<V>>)

  function At<V>(c: Column<V>, round: nat): Value<V> { if round < |c.given| then c.given[round] else NoValue }

  ghost predicate Separate<V>(cs: seq<Column<V>>) { forall i, j :: 0 <= i < j < |cs| ==> cs[i].name != cs[j].name }

  /** Every value given is truthy. */
  ghost predicate Full<V>(cs: seq<Column<V>>) {
    forall i, r :: 0 <= i < |cs| && 0 <= r < |cs[i].given| ==> Truthy(cs[i].given[r])
  }

  function Names<V>(cs: seq<Column<V>>): set<Name> { set i | 0 <= i < |cs| :: cs[i].name }

  /** The length of the longest column. */
  function Most<V>(cs: seq<Column<V>>): nat {
    if cs == [] then 0
    else
      var front, last := Most(cs[..|cs| - 1]), |cs[|cs| - 1].given|;
      if front < last then last else front
  }

  lemma {:induction false} MostIsMaximum<V>(cs: seq<Column<V>>)
    ensures forall i :: 0 <= i < |cs| ==> |cs[i].given| <= Most(cs)
    ensures cs != [] ==> exists i :: 0 <= i < |cs| && |cs[i].given| == Most(cs)
  {
    if cs != [] {
      var n := |cs| - 1;
      MostIsMaximum(cs[..n]);
      assert forall i :: 0 <= i < n ==> cs[..n][i] == cs[i];
      if Most(cs[..n]) < |cs[n].given| || n == 0 {
        assert |cs[n].given| == Most(cs);
      } else {
        var i :| 0 <= i < n && |cs[..n][i].given| == Most(cs[..n]);
        assert |cs[i].given| == Most(cs);
      }
    }
  }

  // ------------------------------------------------------------ one round

  /** What a round writes for the first `n` columns. */
  function RoundMap<V>(cs: seq<Column<V>>, n: nat, round: nat): Round<V>
    requires n <= |cs|
  {
    if n == 0 then map[] else RoundMap(cs, n - 1, round)[cs[n - 1].name := At(cs[n - 1], round)]
  }
  function Row<V>(cs: seq<Column<V>>, round: nat): Round<V> { RoundMap(cs, |cs|, round) }

  lemma {:induction false} RoundKeys<V>(cs: seq<Column<V>>, n: nat, round: nat)
    requires n <= |cs|
    ensures RoundMap(cs, n, round).Keys == Names(cs[..n])
  {
    if n > 0 {
      RoundKeys(cs, n - 1, round);
      assert cs[..n] == cs[..n - 1] + [cs[n - 1]];
      NamesSnoc(cs[..n - 1], cs[n - 1]);
    }
  }
  lemma NamesSnoc<V>(cs: seq<Column<V>>, c: Column<V>)
    ensures Names(cs + [c]) == Names(cs) + {c.name}
  {
    var all := cs + [c];
    forall k ensures k in Names(all) <==> k in Names(cs) + {c.name} {
      if k in Names(cs) {
        var i :| 0 <= i < |cs| && cs[i].name == k;
        assert all[i].name == k;
      }
      if k == c.name { assert all[|cs|].name == k; }
    }
  }

  lemma {:induction false} RoundValue<V>(cs: seq<Column<V>>, n: nat, round: nat, i: nat)
    requires Separate(cs) && i < n <= |cs|
    ensures cs[i].name in RoundMap(cs, n, round) && RoundMap(cs, n, round)[cs[i].name] == At(cs[i], round)
  {
    if i < n - 1 { RoundValue(cs, n - 1, round, i); }
  }

  lemma RowValues<V>(cs: seq<Column<V>>, round: nat)
    requires Separate(cs)
    ensures Row(cs, round).Keys == Names(cs)
    ensures forall i :: 0 <= i < |cs| ==> cs[i].name in Names(cs) && Row(cs, round)[cs[i].name] == At(cs[i], round)
    ensures forall k :: k in Names(cs) ==> exists i :: 0 <= i < |cs| && cs[i].name == k
  {
    RoundKeys(cs, |cs|, round);
    assert cs[..|cs|] == cs;
    forall i | 0 <= i < |cs|
      ensures cs[i].name in Names(cs) && Row(cs, round)[cs[i].name] == At(cs[i], round)
    {
      RoundValue(cs, |cs|, round, i);
    }
  }

  /** The last round is the first in which every column is used up. */
  lemma LastRound<V>(cs: seq<Column<V>>, n: nat)
    requires cs != []
    ensures (forall i :: 0 <= i < |cs| ==> n >= |cs[i].given|) <==> n >= Most(cs)
  {
    MostIsMaximum(cs);
  }

  // ------------------------------------------------------------ the dictionary between rounds

  /** What the consumer has written into the dictionary by round `n`. */
  function Base<V>(others: Round<V>, n: nat): Round<V> { if n == 0 then map[] else others }

  /** The dictionary before round `n`. */
  function Before<V>(cs: seq<Column<V>>, others: Round<V>, n: nat): Round<V> {
    if n == 0 then map[] else others + Row(cs, n - 1)
  }

  /** The dictionary that round `n` yields, and the one its submission receives. */
  function Yielded<V>(cs: seq<Column<V>>, others: Round<V>, n: nat): Round<V> { Base(others, n) + Row(cs, n) }
  function Delivered<V>(cs: seq<Column<V>>, others: Round<V>, n: nat): Round<V> { others + Row(cs, n) }

  lemma Overwrite<V>(a: Round<V>, b: Round<V>, c: Round<V>)
    requires b.Keys == c.Keys
    ensures a + b + c == a + c
  {
  }
  lemma Exchange<V>(a: Round<V>, b: Round<V>)
    requires a.Keys !! b.Keys
    ensures a + b == b + a
  {
  }
  lemma Twice<V>(a: Round<V>, b: Round<V>)
    requires a.Keys !! b.Keys
    ensures a + b + a == a + b
  {
  }

  /** A round overwrites the values of the round before it, and the consumer adds the others. */
  lemma RoundStep<V>(cs: seq<Column<V>>, others: Round<V>, n: nat)
    requires Separate(cs) && Names(cs) !! others.Keys
    ensures Before(cs, others, n) + Row(cs, n) == Yielded(cs, others, n)
    ensures Yielded(cs, others, n) + others == Delivered(cs, others, n) == Before(cs, others, n + 1)
  {
    var row := Row(cs, n);
    RowValues(cs, n);
    Exchange(row, others);
    if n == 0 {
      assert map[] + row == row;
    } else {
      RowValues(cs, n - 1);
      Overwrite(others, Row(cs, n - 1), row);
      Twice(others, row);
    }
  }

  lemma RowTruth<V>(cs: seq<Column<V>>, n: nat)
    requires Separate(cs) && Full(cs) && cs != []
    ensures AnyTruthy(Row(cs, n)) <==> n < Most(cs)
  {
    RowValues(cs, n);
    LastRound(cs, n);
    if n < Most(cs) {
      var i :| 0 <= i < |cs| && n < |cs[i].given|;
      assert Truthy(Row(cs, n)[cs[i].name]);
    } else {
      assert forall i :: 0 <= i < |cs| ==> At(cs[i], n) == NoValue;
    }
  }

  lemma UnionTruth<V>(a: Round<V>, b: Round<V>)
    requires a.Keys !! b.Keys
    ensures AnyTruthy(a + b) <==> AnyTruthy(a) || AnyTruthy(b)
  {
    if AnyTruthy(a) {
      var k :| k in a && Truthy(a[k]);
      assert k in a + b && Truthy((a + b)[k]);
    }
    if AnyTruthy(b) {
      var k :| k in b && Truthy(b[k]);
      assert k in a + b && Truthy((a + b)[k]);
    }
  }

  /** Whether round `n` is submitted. */
  ghost predicate Sends<V>(cs: seq<Column<V>>, others: Round<V>, n: nat) {
    n < Most(cs) || (n == Most(cs) > 0 && AnyTruthy(others))
  }

  /** A round has a truthy value unless it is the last one and nothing else is truthy. */
  lemma RoundTruth<V>(cs: seq<Column<V>>, others: Round<V>, n: nat)
    requires Separate(cs) && Full(cs) && cs != [] && Names(cs) !! others.Keys && n <= Most(cs)
    ensures AnyTruthy(Yielded(cs, others, n)) <==> Sends(cs, others, n)
  {
    RowValues(cs, n);
    RowTruth(cs, n);
    UnionTruth(Base(others, n), Row(cs, n));
  }

  // ------------------------------------------------------------ all rounds

  /** The submissions of the first `n` rounds. */
  ghost function Sent<V>(cs: seq<Column<V>>, others: Round<V>, n: nat): seq<Round<V>> {
    if n == 0 then []
    else Sent(cs, others, n - 1) + if Sends(cs, others, n - 1) then [Delivered(cs, others, n - 1)] else []
  }

  ghost function Deliveries<V>(cs: seq<Column<V>>, others: Round<V>, n: nat): (r: seq<Round<V>>)
    ensures |r| == n && forall i :: 0 <= i < n ==> r[i] == Delivered(cs, others, i)
  {
    seq(n, i requires 0 <= i < n => Delivered(cs, others, i))
  }

  /** All submissions: one for each round with a batch, and one more if another value is truthy. */
  ghost function AllSent<V>(cs: seq<Column<V>>, others: Round<V>): seq<Round<V>> {
    Deliveries(cs, others, Most(cs) + if AnyTruthy(others) && Most(cs) > 0 then 1 else 0)
  }

  lemma {:induction false} SentBefore<V>(cs: seq<Column<V>>, others: Round<V>, n: nat)
    requires n <= Most(cs)
    ensures Sent(cs, others, n) == Deliveries(cs, others, n)
  {
    if n > 0 {
      SentBefore(cs, others, n - 1);
      DeliveriesSnoc(cs, others, n - 1);
    }
  }
  lemma DeliveriesSnoc<V>(cs: seq<Column<V>>, others: Round<V>, n: nat)
    ensures Deliveries(cs, others, n + 1) == Deliveries(cs, others, n) + [Delivered(cs, others, n)]
  {
  }

  lemma SentAll<V>(cs: seq<Column<V>>, others: Round<V>)
    ensures Sent(cs, others, Most(cs) + 1) == AllSent(cs, others)
  {
    SentBefore(cs, others, Most(cs));
    DeliveriesSnoc(cs, others, Most(cs));
  }

  /** What a submission carries for a column, and for any other name. */
  lemma CarriesColumn<V>(cs: seq<Column<V>>, others: Round<V>, r: nat, i: nat)
    requires Separate(cs) && Names(cs) !! others.Keys && i < |cs|
    ensures cs[i].name in Delivered(cs, others, r) && Delivered(cs, others, r)[cs[i].name] == At(cs[i], r)
    ensures r >= Most(cs) ==> At(cs[i], r) == NoValue
  {
    RowValues(cs, r);
    MostIsMaximum(cs);
  }
  lemma CarriesOthers<V>(cs: seq<Column<V>>, others: Round<V>, r: nat)
    requires Separate(cs) && Names(cs) !! others.Keys
    ensures Delivered(cs, others, r).Keys == Names(cs) + others.Keys
    ensures forall k :: k in others ==> Delivered(cs, others, r)[k] == others[k]
  {
    RowValues(cs, r);
  }
}
