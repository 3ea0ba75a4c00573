/** `TrieLayerBuilder`: collects the token ids and count ranks of one trie
    level. This version of the builder releases a three-part level (token
    ids, count ranks, pointers), which it calls `SimpleTrieArray`. */
module TrieLayerBuilder {
  import opened Common
  import opened GramsSequence

  /** The level `release` returns. */
  datatype SimpleTrieArray = SimpleTrieArray(tokenIds: SimpleGramsSequence, countRanks: seq<nat>, pointers: seq<nat>)

  class TrieLayerBuilder {
    var tokenIds: seq<nat>
    var countRanks: seq<nat>

    /** `new(num_grams, ..)`: the sizes only reserve capacity. */
    constructor New(numGrams: nat, maxGramId: nat, maxCountRank: nat, quantizationBits: nat)
      ensures tokenIds == [] && countRanks == []
    {
      tokenIds := [];
      countRanks := [];
    }

    /** `add`: both vectors grow together. */
    method Add(tokenId: nat, countRank: nat)
      modifies this
      ensures tokenIds == old(tokenIds) + [tokenId]
      ensures countRanks == old(countRanks) + [countRank]
    {
      tokenIds := tokenIds + [tokenId];
      countRanks := countRanks + [countRank];
    }

    /** `add_count_rank`: a rank only. */
    method AddCountRank(rank: nat)
      modifies this
      ensures tokenIds == old(tokenIds)
      ensures countRanks == old(countRanks) + [rank]
    {
      countRanks := countRanks + [rank];
    }

    /** `release(pointers)`. */
    function Release(pointers: seq<nat>): SimpleTrieArray
      reads this
    {
      SimpleTrieArray(SimpleGramsSequence(tokenIds), countRanks, pointers)
    }

    /** `release_counts_ranks`. */
    function ReleaseCountsRanks(): SimpleTrieArray
      reads this
    {
      SimpleTrieArray(SimpleGramsSequence([]), countRanks, [])
    }
  }

  /** `release` keeps the token ids, count ranks and pointers as collected
      and given; `release_counts_ranks` keeps the ranks and drops the rest. */
  lemma ReleaseKeeps(b: TrieLayerBuilder, pointers: seq<nat>)
    ensures forall i :: 0 <= i < |b.tokenIds| ==> Get(b.Release(pointers).tokenIds, i) == b.tokenIds[i]
    ensures |b.Release(pointers).tokenIds.grams| == |b.tokenIds|
    ensures b.Release(pointers).countRanks == b.countRanks && b.Release(pointers).pointers == pointers
    ensures b.ReleaseCountsRanks().tokenIds.grams == [] && b.ReleaseCountsRanks().pointers == []
    ensures b.ReleaseCountsRanks().countRanks == b.countRanks
  {
  }

  /** Adding `n` grams and then `m` ranks alone, then `release` with no
      pointers, gives `n` token ids and `n + m` ranks, in the order they
      were added. */
  method AddThenRanks(ids: seq<nat>, ranks: seq<nat>, more: seq<nat>) returns (layer: SimpleTrieArray)
    requires |ids| == |ranks|
    ensures layer.tokenIds.grams == ids && layer.countRanks == ranks + more && layer.pointers == []
  {
    var b := new TrieLayerBuilder.New(|ids|, 0, 0, 0);
    for i := 0 to |ids|
      invariant b.tokenIds == ids[..i] && b.countRanks == ranks[..i]
    {
      b.Add(ids[i], ranks[i]);
      assert ids[..i + 1] == ids[..i] + [ids[i]];
      assert ranks[..i + 1] == ranks[..i] + [ranks[i]];
    }
    assert ids[..|ids|] == ids && ranks[..|ranks|] == ranks;
    for i := 0 to |more|
      invariant b.tokenIds == ids && b.countRanks == ranks + more[..i]
    {
      b.AddCountRank(more[i]);
      assert more[..i + 1] == more[..i] + [more[i]];
    }
    assert more[..|more|] == more;
    layer := b.Release([]);
  }
}
