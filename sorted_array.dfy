/** `SimpleSortedArray`, one level of the count trie as `TrieCountLmBuilder`
    builds it, and `SortedArrayBuilder`, which collects its token ids and
    count ranks. */
module SortedArray {
  import opened Common
  import opened GramsSequence

  datatype SimpleSortedArray = SimpleSortedArray(tokenIds: SimpleGramsSequence, countRanks: seq<nat>, pointers: seq<nat>)

  /** `range(pos)`: the slice of the level below that continues gram `pos`. */
  function Range(sa: SimpleSortedArray, pos: nat): (nat, nat)
    requires pos + 1 < |sa.pointers|
  {
    (sa.pointers[pos], sa.pointers[pos + 1])
  }

  function TokenId(sa: SimpleSortedArray, pos: nat): nat
    requires pos < |sa.tokenIds.grams|
  {
    Get(sa.tokenIds, pos)
  }

  function CountRank(sa: SimpleSortedArray, pos: nat): nat
    requires pos < |sa.countRanks|
  {
    sa.countRanks[pos]
  }

  /** `position(rng, id)`: what `find` of the token ids answers, an offset
      from the start of the range. */
  function Position(sa: SimpleSortedArray, rng: (nat, nat), id: nat): (r: Option<nat>)
    requires rng.0 <= rng.1 <= |sa.tokenIds.grams|
    ensures r == Find(sa.tokenIds, rng, id)
  {
    Find(sa.tokenIds, rng, id)
  }

  class SortedArrayBuilder {
    var tokenIds: seq<nat>
    var countRanks: seq<nat>

    /** `new(num_grams, ..)`: the sizes only reserve capacity. */
    constructor New(numGrams: nat, maxGramId: nat, maxCountRank: nat, quantizationBits: nat)
      ensures tokenIds == [] && countRanks == []
    {
      tokenIds := [];
      countRanks := [];
    }

    /** `add`: one more gram, with its token id and its count rank. */
    method Add(tokenId: nat, countRank: nat)
      modifies this
      ensures tokenIds == old(tokenIds) + [tokenId]
      ensures countRanks == old(countRanks) + [countRank]
    {
      tokenIds := tokenIds + [tokenId];
      countRanks := countRanks + [countRank];
    }

    /** `add_count_rank`: a count rank only; the token ids stay as they are. */
    method AddCountRank(rank: nat)
      modifies this
      ensures tokenIds == old(tokenIds)
      ensures countRanks == old(countRanks) + [rank]
    {
      countRanks := countRanks + [rank];
    }

    /** `release(pointers)`. */
    function Release(pointers: seq<nat>): SimpleSortedArray
      reads this
    {
      SimpleSortedArray(GramsSequence.New(tokenIds, pointers), countRanks, pointers)
    }

    /** `release_counts_ranks`: the count ranks alone, for the unigram level. */
    function ReleaseCountsRanks(): SimpleSortedArray
      reads this
    {
      SimpleSortedArray(SimpleGramsSequence([]), countRanks, [])
    }
  }

  /** The released level reads back what the builder collected: each token
      id and count rank at its index, and each range from the pointers. */
  lemma ReleaseReads(b: SortedArrayBuilder, pointers: seq<nat>)
    ensures forall i :: 0 <= i < |b.tokenIds| ==> TokenId(b.Release(pointers), i) == b.tokenIds[i]
    ensures forall i :: 0 <= i < |b.countRanks| ==> CountRank(b.Release(pointers), i) == b.countRanks[i]
    ensures forall p :: 0 <= p < |pointers| - 1 ==> Range(b.Release(pointers), p) == (pointers[p], pointers[p + 1])
  {
  }

  /** The unigram level has no token ids and no pointers, only the ranks. */
  lemma ReleaseCountsRanksReads(b: SortedArrayBuilder)
    ensures b.ReleaseCountsRanks().tokenIds.grams == [] && b.ReleaseCountsRanks().pointers == []
    ensures forall i :: 0 <= i < |b.countRanks| ==> CountRank(b.ReleaseCountsRanks(), i) == b.countRanks[i]
  {
  }
}
