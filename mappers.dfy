/** `SortedArrayMapper`: turns a query gram into the ids of its tokens,
    written into a fixed buffer of `MAX_ORDER` slots. */
module Mappers {
  import opened Common
  import G = Gram
  import V = Vocabulary
  import U = Utf8

  /** The token is in the vocabulary: `get` returns an id. */
  predicate Known(vocab: V.Vocabulary, token: seq<byte>) {
    V.Get(vocab, token).Returned? && V.Get(vocab, token).value.Some?
  }

  /** The ids of tokens that are all in the vocabulary. */
  function IdsOf(vocab: V.Vocabulary, tokens: seq<seq<byte>>): (ids: seq<nat>)
    requires forall k :: 0 <= k < |tokens| ==> Known(vocab, tokens[k])
    ensures |ids| == |tokens|
  {
    if tokens == [] then []
    else
      var last := tokens[|tokens| - 1];
      assert Known(vocab, last);
      IdsOf(vocab, tokens[..|tokens| - 1]) + [V.Get(vocab, last).value.value]
  }

  /** The `k`-th id is what the vocabulary gives the `k`-th token. */
  lemma {:induction false} IdsOfAt(vocab: V.Vocabulary, tokens: seq<seq<byte>>, k: nat)
    requires forall j :: 0 <= j < |tokens| ==> Known(vocab, tokens[j])
    requires k < |tokens|
    ensures V.Get(vocab, tokens[k]) == Returned(Some(IdsOf(vocab, tokens)[k]))
    decreases |tokens|
  {
    var n := |tokens| - 1;
    if k < n {
      assert tokens[..n][k] == tokens[k];
      IdsOfAt(vocab, tokens[..n], k);
    }
  }

  /** How many tokens, from `i` on, are found and still have a slot: the
      loop writes their ids and stops at the next one. */
  function Reach(vocab: V.Vocabulary, tokens: seq<seq<byte>>, i: nat): (k: nat)
    requires i <= |tokens|
    ensures i <= k <= |tokens| && (k == i || k <= MAX_ORDER)
    decreases |tokens| - i
  {
    if i == |tokens| || !(Known(vocab, tokens[i]) && i < MAX_ORDER) then i
    else Reach(vocab, tokens, i + 1)
  }

  /** The tokens before `Reach` are found and have slots; the one at it is
      not, or has none. */
  lemma {:induction false} ReachStops(vocab: V.Vocabulary, tokens: seq<seq<byte>>, i: nat)
    requires i <= |tokens|
    ensures forall j :: i <= j < Reach(vocab, tokens, i) ==> Known(vocab, tokens[j]) && j < MAX_ORDER
    ensures Reach(vocab, tokens, i) < |tokens| ==> !(Known(vocab, tokens[Reach(vocab, tokens, i)]) && Reach(vocab, tokens, i) < MAX_ORDER)
    decreases |tokens| - i
  {
    if i < |tokens| && Known(vocab, tokens[i]) && i < MAX_ORDER {
      assert Reach(vocab, tokens, i) == Reach(vocab, tokens, i + 1);
      ReachStops(vocab, tokens, i + 1);
    } else {
      assert Reach(vocab, tokens, i) == i;
    }
  }

  /** What `map_query` returns for the tokens of a query: their ids when
      every one is found and fits; `None` when the first that does not is
      missing; a panic when it is not UTF-8 (for the simple vocabulary) or
      has no slot left. */
  function MapTokens(vocab: V.Vocabulary, tokens: seq<seq<byte>>): (r: Outcome<Option<seq<nat>>>)
  {
    var k := Reach(vocab, tokens, 0);
    ReachStops(vocab, tokens, 0);
    if k == |tokens| then Returned(Some(IdsOf(vocab, tokens)))
    else match V.Get(vocab, tokens[k])
      case Panicked => Panicked
      case Returned(None) => Returned(None)
      case Returned(Some(_)) => Panicked
  }

  function MapQueryOf(vocab: V.Vocabulary, gram: seq<byte>): Outcome<Option<seq<nat>>> {
    MapTokens(vocab, G.SplitToTokens(gram))
  }

  /** Ids that the vocabulary gives the tokens one by one are `IdsOf`. */
  lemma IdsOfUnique(vocab: V.Vocabulary, tokens: seq<seq<byte>>, ids: seq<nat>)
    requires |ids| == |tokens|
    requires forall j :: 0 <= j < |tokens| ==> V.Get(vocab, tokens[j]) == Returned(Some(ids[j]))
    ensures forall j :: 0 <= j < |tokens| ==> Known(vocab, tokens[j])
    ensures ids == IdsOf(vocab, tokens)
  {
    forall j | 0 <= j < |tokens|
      ensures ids[j] == IdsOf(vocab, tokens)[j]
    {
      IdsOfAt(vocab, tokens, j);
    }
  }

  /** The tokens from `i` up to `k` are found and have slots. */
  predicate FoundFrom(vocab: V.Vocabulary, tokens: seq<seq<byte>>, i: nat, k: nat)
    requires k <= |tokens|
  {
    forall j :: i <= j < k ==> Known(vocab, tokens[j]) && j < MAX_ORDER
  }

  /** Where the loop stops does not depend on where it is looked for from. */
  lemma {:induction false} ReachFrom(vocab: V.Vocabulary, tokens: seq<seq<byte>>, i: nat, k: nat)
    requires i <= k <= |tokens|
    requires FoundFrom(vocab, tokens, i, k)
    requires k < |tokens| ==> !(Known(vocab, tokens[k]) && k < MAX_ORDER)
    ensures Reach(vocab, tokens, i) == k
    decreases k - i
  {
    if i < k {
      assert Known(vocab, tokens[i]) && i < MAX_ORDER;
      assert FoundFrom(vocab, tokens, i + 1, k);
      ReachFrom(vocab, tokens, i + 1, k);
    }
  }

  /** `map_query` gives the ids of all the tokens, in order, exactly when
      each is in the vocabulary and there are at most `MAX_ORDER` of them. */
  lemma MapTokensSucceeds(vocab: V.Vocabulary, tokens: seq<seq<byte>>)
    ensures MapTokens(vocab, tokens).Returned? && MapTokens(vocab, tokens).value.Some?
            <==> |tokens| <= MAX_ORDER && forall k :: 0 <= k < |tokens| ==> Known(vocab, tokens[k])
    ensures MapTokens(vocab, tokens).Returned? && MapTokens(vocab, tokens).value.Some? ==>
              var ids := MapTokens(vocab, tokens).value.value;
              |ids| == |tokens| && forall k :: 0 <= k < |tokens| ==> tokens[k] in V.Ids(vocab) && ids[k] == V.Ids(vocab)[tokens[k]]
  {
    var k := Reach(vocab, tokens, 0);
    ReachStops(vocab, tokens, 0);
    if |tokens| <= MAX_ORDER && forall j :: 0 <= j < |tokens| ==> Known(vocab, tokens[j]) {
      ReachFrom(vocab, tokens, 0, |tokens|);
      forall j | 0 <= j < |tokens|
        ensures tokens[j] in V.Ids(vocab) && IdsOf(vocab, tokens)[j] == V.Ids(vocab)[tokens[j]]
      {
        IdsOfAt(vocab, tokens, j);
      }
    }
  }

  /** Tokens that fit and that the vocabulary gives `ids` map to `ids`. */
  lemma MapTokensAll(vocab: V.Vocabulary, tokens: seq<seq<byte>>, ids: seq<nat>)
    requires |tokens| <= MAX_ORDER && |ids| == |tokens|
    requires forall j :: 0 <= j < |tokens| ==> V.Get(vocab, tokens[j]) == Returned(Some(ids[j]))
    ensures MapTokens(vocab, tokens) == Returned(Some(ids))
  {
    IdsOfUnique(vocab, tokens, ids);
    ReachFrom(vocab, tokens, 0, |tokens|);
  }

  /** A query whose first token is missing maps to nothing. */
  lemma MapTokensFirstMissing(vocab: V.Vocabulary, tokens: seq<seq<byte>>)
    requires |tokens| > 0 && V.Get(vocab, tokens[0]) == Returned(None)
    ensures MapTokens(vocab, tokens) == Returned(None)
  {
    ReachFrom(vocab, tokens, 0, 0);
  }

  /** `map_query` answers `None` only for a token that the vocabulary does
      not hold. */
  lemma MapTokensMissing(vocab: V.Vocabulary, tokens: seq<seq<byte>>)
    requires MapTokens(vocab, tokens) == Returned(None)
    ensures exists k :: 0 <= k < |tokens| && V.Get(vocab, tokens[k]) == Returned(None)
  {
    var k := Reach(vocab, tokens, 0);
    ReachStops(vocab, tokens, 0);
    assert V.Get(vocab, tokens[k]) == Returned(None);
  }

  /** `map_query` panics only on a token that is not UTF-8, or on more than
      `MAX_ORDER` tokens. */
  lemma MapTokensPanics(vocab: V.Vocabulary, tokens: seq<seq<byte>>)
    requires MapTokens(vocab, tokens).Panicked?
    ensures |tokens| > MAX_ORDER || exists k :: 0 <= k < |tokens| && V.Get(vocab, tokens[k]).Panicked?
  {
    var k := Reach(vocab, tokens, 0);
    ReachStops(vocab, tokens, 0);
    assert V.Get(vocab, tokens[k]).Panicked? || k >= MAX_ORDER;
  }

  class SortedArrayMapper {
    /** `mapped: [usize; MAX_ORDER]`. */
    var mapped: array<nat>

    predicate Valid()
      reads this
    {
      mapped.Length == MAX_ORDER
    }

    /** `default`: all slots zero. */
    constructor Default()
      ensures Valid() && fresh(mapped)
      ensures mapped[..] == seq(MAX_ORDER, _ => 0)
    {
      mapped := new nat[MAX_ORDER](_ => 0);
    }

    /** `map_query`: writes the id of each token of `gram` into its slot and
      returns the filled slots, or stops at the first token that is missing.
      The slots from there on keep what they held. */
    method MapQuery(gram: seq<byte>, vocab: V.Vocabulary) returns (r: Outcome<Option<seq<nat>>>)
      requires Valid()
      modifies mapped
      ensures Valid()
      ensures r == MapQueryOf(vocab, gram)
      ensures var tokens := G.SplitToTokens(gram);
              && (forall j :: 0 <= j < Reach(vocab, tokens, 0) ==> V.Get(vocab, tokens[j]) == Returned(Some(mapped[j])))
              && forall j :: Reach(vocab, tokens, 0) <= j < MAX_ORDER ==> mapped[j] == old(mapped[j])
    {
      r := MapTokensInto(G.SplitToTokens(gram), vocab);
    }

    /** The loop of `map_query`, over the tokens of the query. */
    method MapTokensInto(tokens: seq<seq<byte>>, vocab: V.Vocabulary) returns (r: Outcome<Option<seq<nat>>>)
      requires Valid()
      modifies mapped
      ensures Valid()
      ensures r == MapTokens(vocab, tokens)
      ensures forall j :: 0 <= j < Reach(vocab, tokens, 0) ==> V.Get(vocab, tokens[j]) == Returned(Some(mapped[j]))
      ensures forall j :: Reach(vocab, tokens, 0) <= j < MAX_ORDER ==> mapped[j] == old(mapped[j])
    {
      var i := 0;
      while i < |tokens|
        invariant i <= |tokens| && i <= MAX_ORDER
        invariant forall j :: 0 <= j < i ==> V.Get(vocab, tokens[j]) == Returned(Some(mapped[j])) && j < MAX_ORDER
        invariant forall j :: i <= j < MAX_ORDER ==> mapped[j] == old(mapped[j])
      {
        var got := V.Get(vocab, tokens[i]);
        if got.Panicked? || got.value.None? || i >= mapped.Length {
          ReachFrom(vocab, tokens, 0, i);
          r := if got.Returned? && got.value.None? then Returned(None) else Panicked;
          return;
        }
        mapped[i] := got.value.value;
        i := i + 1;
      }
      ReachFrom(vocab, tokens, 0, |tokens|);
      IdsOfUnique(vocab, tokens, mapped[..|tokens|]);
      return Returned(Some(mapped[..|tokens|]));
    }

    /** `get(i)`: slot `i`; an index past the buffer panics. */
    function Get(i: nat): (r: Outcome<nat>)
      reads this, mapped
      requires Valid()
      ensures r.Returned? <==> i < MAX_ORDER
      ensures r.Returned? ==> r.value == mapped[i]
    {
      if i < mapped.Length then Returned(mapped[i]) else Panicked
    }
  }

  /** The grams of the unit test and their tokens. */
  const E: seq<byte> := [69]
  const QUERY_HIT: seq<byte> := V.A + [G.SEPARATOR] + V.B + [G.SEPARATOR] + V.D_
  const QUERY_MISS: seq<byte> := E + [G.SEPARATOR] + V.B

  /** The vocabulary of the unit test, built from "A", "D", "B". */
  predicate TestVocabulary(vocab: V.Vocabulary) {
    vocab.Simple? && IndexMap(V.Ids(vocab), V.TEST_GRAMS)
  }

  /** The tokens of a query are the pieces it was joined from. */
  lemma TokensOfThree(a: seq<byte>, b: seq<byte>, c: seq<byte>)
    requires G.SEPARATOR !in a && G.SEPARATOR !in b && G.SEPARATOR !in c
    ensures G.SplitToTokens(a + [G.SEPARATOR] + b + [G.SEPARATOR] + c) == [a, b, c]
  {
    var parts := [a, b, c];
    assert parts[1..] == [b, c] && parts[1..][1..] == [c];
    assert Join(parts[1..], G.SEPARATOR) == b + [G.SEPARATOR] + c;
    assert Join(parts, G.SEPARATOR) == a + [G.SEPARATOR] + b + [G.SEPARATOR] + c;
    G.TokensOfJoin(parts);
  }

  lemma TokensOfTwo(a: seq<byte>, b: seq<byte>)
    requires G.SEPARATOR !in a && G.SEPARATOR !in b
    ensures G.SplitToTokens(a + [G.SEPARATOR] + b) == [a, b]
  {
    var parts := [a, b];
    assert parts[1..] == [b];
    G.TokensOfJoin(parts);
  }

  /** What the test vocabulary gives the tokens of the queries. */
  lemma TestLookups(vocab: V.Vocabulary)
    requires TestVocabulary(vocab)
    ensures V.Get(vocab, V.A) == Returned(Some(0))
    ensures V.Get(vocab, V.B) == Returned(Some(2))
    ensures V.Get(vocab, V.D_) == Returned(Some(1))
    ensures V.Get(vocab, E) == Returned(None)
  {
    V.TestGramsFacts();
    U.AsciiIsUtf8(E);
    assert V.TEST_GRAMS[0] == V.A && V.TEST_GRAMS[1] == V.D_ && V.TEST_GRAMS[2] == V.B;
  }

  /** "A B D" maps to 0, 2, 1. */
  lemma BasicHit(vocab: V.Vocabulary)
    requires TestVocabulary(vocab)
    ensures MapQueryOf(vocab, QUERY_HIT) == Returned(Some([0, 2, 1]))
  {
    TokensOfThree(V.A, V.B, V.D_);
    TestLookups(vocab);
    var tokens := [V.A, V.B, V.D_];
    assert forall j :: 0 <= j < 3 ==> V.Get(vocab, tokens[j]) == Returned(Some([0, 2, 1][j]));
    MapTokensAll(vocab, tokens, [0, 2, 1]);
  }

  /** "E B" maps to nothing: "E" is not in the vocabulary. */
  lemma BasicMiss(vocab: V.Vocabulary)
    requires TestVocabulary(vocab)
    ensures MapQueryOf(vocab, QUERY_MISS) == Returned(None)
  {
    TokensOfTwo(E, V.B);
    TestLookups(vocab);
    MapTokensFirstMissing(vocab, [E, V.B]);
  }

  /** The unit test: with the vocabulary of "A", "D", "B", the query
      "A B D" maps to 0, 2, 1 and "E B" to nothing. */
  method BasicTest() returns (hit: Outcome<Option<seq<nat>>>, miss: Outcome<Option<seq<nat>>>)
    ensures hit == Returned(Some([0, 2, 1]))
    ensures miss == Returned(None)
  {
    V.TestGramsFacts();
    var sv := V.S.Build(V.TEST_GRAMS);
    V.S.BuildSucceeds(V.TEST_GRAMS);
    var vocab := V.Simple(sv.value.value);
    var mapper := new SortedArrayMapper.Default();
    hit := mapper.MapQuery(QUERY_HIT, vocab);
    BasicHit(vocab);
    miss := mapper.MapQuery(QUERY_MISS, vocab);
    BasicMiss(vocab);
  }
}
