/** `SimpleTrieArray`: one trie level as two plain vectors, the token id of
    each gram and, for each gram of the level below, where its
    continuations start. */
module SimpleTrieArray {
  import opened Common

  datatype SimpleTrieArray = SimpleTrieArray(tokenIds: seq<nat>, pointers: seq<nat>)

  /** `build`: keeps both vectors as they are. */
  function Build(tokenIds: seq<nat>, pointers: seq<nat>): SimpleTrieArray {
    SimpleTrieArray(tokenIds, pointers)
  }

  function TokenId(ta: SimpleTrieArray, i: nat): nat
    requires i < |ta.tokenIds|
  {
    ta.tokenIds[i]
  }

  function Range(ta: SimpleTrieArray, pos: nat): (nat, nat)
    requires pos + 1 < |ta.pointers|
  {
    (ta.pointers[pos], ta.pointers[pos + 1])
  }

  /** The slice `token_ids[b..e]` of a range is in bounds. */
  predicate RangeInBounds(ta: SimpleTrieArray, pos: nat) {
    pos + 1 < |ta.pointers| && ta.pointers[pos] <= ta.pointers[pos + 1] <= |ta.tokenIds|
  }

  /** `find_token(pos, id)`: the index of the first `id` in range `pos`. */
  function FindToken(ta: SimpleTrieArray, pos: nat, id: nat): (r: Option<nat>)
    requires RangeInBounds(ta, pos)
    ensures r.Some? ==> ta.pointers[pos] <= r.value < ta.pointers[pos + 1] && ta.tokenIds[r.value] == id
    ensures r.Some? ==> id !in ta.tokenIds[ta.pointers[pos]..r.value]
    ensures r.None? <==> id !in ta.tokenIds[ta.pointers[pos]..ta.pointers[pos + 1]]
  {
    var (b, e) := Range(ta, pos);
    var slice := ta.tokenIds[b..e];
    PositionFirst(slice, id);
    if Position(slice, id).Some? then
      assert slice[..Position(slice, id).value] == ta.tokenIds[b..Position(slice, id).value + b];
      OptionPlus(Position(slice, id), b)
    else OptionPlus(Position(slice, id), b)
  }

  function NumTokens(ta: SimpleTrieArray): nat {
    |ta.tokenIds|
  }

  function NumPointers(ta: SimpleTrieArray): nat {
    |ta.pointers|
  }

  /** A built array reads back its vectors: each token id at its index,
      each range from consecutive pointers, and their lengths. */
  lemma BuildReads(tokenIds: seq<nat>, pointers: seq<nat>)
    ensures forall i :: 0 <= i < |tokenIds| ==> TokenId(Build(tokenIds, pointers), i) == tokenIds[i]
    ensures forall p :: 0 <= p < |pointers| - 1 ==> Range(Build(tokenIds, pointers), p) == (pointers[p], pointers[p + 1])
    ensures NumTokens(Build(tokenIds, pointers)) == |tokenIds| && NumPointers(Build(tokenIds, pointers)) == |pointers|
  {
  }
}
