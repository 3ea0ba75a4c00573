/** `SequenceCollection`: for each order, the distinct values seen, most
    frequent first; and the builder that learns them one value at a time. */
module SequenceCollection {
  import opened Common
  import opened Ranking

  /** The per-order sequences a builder has produced. */
  datatype SequenceCollection = SequenceCollection(sortedSequences: seq<seq<nat>>)

  /** `SequenceCollection::new`: takes over the builder's sequences. */
  function New(b: SequenceCollectionBuilder): (sc: SequenceCollection)
    reads b
  {
    SequenceCollection(b.sortedSequences)
  }

  /** `access(order, i)`: the `i`-th value of `order` in frequency order. */
  function Access(sc: SequenceCollection, order: nat, i: nat): nat
    requires order < |sc.sortedSequences| && i < |sc.sortedSequences[order]|
  {
    sc.sortedSequences[order][i]
  }

  class SequenceCollectionBuilder {
    /** Frequencies of the values eaten since the last `build_sequence`. */
    var v2fMap: map<nat, nat>
    /** Per order, each value to its rank. */
    var v2rMaps: seq<map<nat, nat>>
    /** Per order, the values in frequency order. */
    var sortedSequences: seq<seq<nat>>

    /** Every finished order has its values once each, and its rank map
        gives each value its index. */
    predicate Valid()
      reads this
    {
      && |v2rMaps| == |sortedSequences|
      && forall o :: 0 <= o < |sortedSequences| ==>
           Distinct(sortedSequences[o]) && v2rMaps[o] == RankMap(sortedSequences[o])
    }

    constructor Default()
      ensures Valid()
      ensures v2fMap == map[] && v2rMaps == [] && sortedSequences == []
    {
      v2fMap := map[];
      v2rMaps := [];
      sortedSequences := [];
    }

    /** `eat_value(x)`: one more occurrence of `x` in the current order. */
    method EatValue(x: nat)
      requires Valid()
      modifies this
      ensures Valid()
      ensures v2fMap == Bump(old(v2fMap), x)
      ensures v2rMaps == old(v2rMaps) && sortedSequences == old(sortedSequences)
    {
      if x in v2fMap {
        v2fMap := v2fMap[x := v2fMap[x] + 1];
      } else {
        v2fMap := v2fMap[x := 1];
      }
    }

    /** `build_sequence`: closes the current order. Its values go into a new
        sequence in frequency order, each gets its index as rank, and the
        frequencies start afresh. */
    method BuildSequence()
      requires Valid()
      modifies this
      ensures Valid()
      ensures |sortedSequences| == |old(sortedSequences)| + 1
      ensures sortedSequences[..|old(sortedSequences)|] == old(sortedSequences)
      ensures IsFrequencyOrder(old(v2fMap), sortedSequences[|old(sortedSequences)|])
      ensures v2rMaps == old(v2rMaps) + [RankMap(sortedSequences[|old(sortedSequences)|])]
      ensures old(v2fMap) == map[] ==> sortedSequences[|old(sortedSequences)|] == []
      ensures v2fMap == map[]
    {
      if v2fMap == map[] {
        v2rMaps := v2rMaps + [map[]];
        sortedSequences := sortedSequences + [[]];
        return;
      }
      var sorted := FrequencyOrder(v2fMap);
      v2fMap := map[];
      FrequencyOrderDistinct(old(v2fMap), sorted);
      var v2rMap := BuildRankMap(sorted);
      sortedSequences := sortedSequences + [sorted];
      v2rMaps := v2rMaps + [v2rMap];
    }

    /** `rank(order, value)`: the index of `value` in the sequence of
        `order`, or `None` when it was not eaten for that order. */
    function Rank(order: nat, value: nat): (r: Option<nat>)
      reads this
      requires Valid() && order < |v2rMaps|
      ensures r.Some? <==> value in sortedSequences[order]
      ensures r.Some? ==> r.value < |sortedSequences[order]| && sortedSequences[order][r.value] == value
    {
      RankAccess(sortedSequences[order], value);
      if value in v2rMaps[order] then Some(v2rMaps[order][value]) else None
    }
  }

  /** `access` undoes `rank`: the value at a value's rank is that value. */
  lemma AccessRank(b: SequenceCollectionBuilder, order: nat, value: nat)
    requires b.Valid() && order < |b.v2rMaps| && b.Rank(order, value).Some?
    ensures b.Rank(order, value).value < |New(b).sortedSequences[order]|
    ensures Access(New(b), order, b.Rank(order, value).value) == value
  {
  }

  lemma SeqOfTwo<T>(s: seq<T>, a: T, b: T)
    requires |s| == 2 && s[0] == a && s[1] == b
    ensures s == [a, b]
  {
  }

  /** The ranks the unit test asks for, once the sequences are built. */
  method BasicRanks(b: SequenceCollectionBuilder) returns (ranks: seq<Option<nat>>)
    requires b.Valid() && b.sortedSequences == [[2, 1, 4], [1, 2]]
    ensures ranks == [Some(1), Some(0), None, Some(2), Some(0), Some(1)]
  {
    var first := b.sortedSequences[0];
    var second := b.sortedSequences[1];
    assert first[1] == 1 && first[0] == 2 && first[2] == 4;
    assert second[0] == 1 && second[1] == 2;
    ranks := [b.Rank(0, 1), b.Rank(0, 2), b.Rank(0, 3), b.Rank(0, 4), b.Rank(1, 1), b.Rank(1, 2)];
  }

  /** The inner loop of the unit test: eats the values of `xs` in turn. */
  method EatAll(b: SequenceCollectionBuilder, xs: seq<nat>)
    requires b.Valid() && b.v2fMap == map[]
    modifies b
    ensures b.Valid() && b.v2fMap == Tally(xs)
    ensures b.sortedSequences == old(b.sortedSequences) && b.v2rMaps == old(b.v2rMaps)
  {
    for i := 0 to |xs|
      invariant b.Valid() && b.v2fMap == Tally(xs[..i])
      invariant b.sortedSequences == old(b.sortedSequences) && b.v2rMaps == old(b.v2rMaps)
    {
      assert xs[..i + 1][..i] == xs[..i];
      b.EatValue(xs[i]);
    }
    assert xs[..|xs|] == xs;
  }

  /** The unit test: two orders fed 2, 2, 1, 2, 4, 2, 1, 2, 1 and
      2, 1, 2, 1, 1, 1 give the sequences 2, 1, 4 and 1, 2, and the ranks
      of 1, 2, 3, 4 in the first order and of 1, 2 in the second are 1, 0,
      none, 2 and 0, 1. */
  method BasicTest() returns (sc: SequenceCollection, ranks: seq<Option<nat>>)
    ensures sc.sortedSequences == [[2, 1, 4], [1, 2]]
    ensures ranks == [Some(1), Some(0), None, Some(2), Some(0), Some(1)]
  {
    var b := new SequenceCollectionBuilder.Default();
    EatAll(b, FIRST_TEST);
    b.BuildSequence();
    FirstOracle(b.sortedSequences[0]);
    assert b.sortedSequences == [[2, 1, 4]];
    EatAll(b, SECOND_TEST);
    b.BuildSequence();
    SecondOracle(b.sortedSequences[1]);
    assert b.sortedSequences[0] == b.sortedSequences[..1][0];
    SeqOfTwo(b.sortedSequences, [2, 1, 4], [1, 2]);
    sc := New(b);
    ranks := BasicRanks(b);
  }
}
