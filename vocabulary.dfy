/** The `Vocabulary` trait: a map from tokens to ids, implemented by
    `SimpleVocabulary` and `DoubleArrayVocabulary`; and its unit test, in
    which both vocabularies built from the grams "A", "D", "B" give each its
    position, and nothing to "C". */
module Vocabulary {
  import opened Common
  import opened Utf8
  import S = SimpleVocabulary
  import D = DoubleArrayVocabulary

  /** A vocabulary of either implementation. */
  datatype Vocabulary = Simple(s: S.SimpleVocabulary) | DoubleArray(d: D.DoubleArrayVocabulary)

  /** The token-to-id map a vocabulary holds. */
  function Ids(v: Vocabulary): map<seq<byte>, nat> {
    match v
    case Simple(s) => s.tokenMap
    case DoubleArray(d) => d.data
  }

  /** `get`: the id of `token`, or `None`. Only the simple vocabulary turns
      the token into a `String`, and so only it panics on bytes that are
      not UTF-8. */
  function Get(v: Vocabulary, token: seq<byte>): (r: Outcome<Option<nat>>)
    ensures r.Panicked? <==> v.Simple? && !ValidUtf8(token)
    ensures r.Returned? ==> (r.value.Some? <==> token in Ids(v))
    ensures r.Returned? && r.value.Some? ==> r.value.value == Ids(v)[token]
  {
    match v
    case Simple(s) => S.Get(s, token)
    case DoubleArray(d) => Returned(D.Get(d, token))
  }

  const A: seq<byte> := [65]
  const B: seq<byte> := [66]
  const C: seq<byte> := [67]
  const D_: seq<byte> := [68]

  /** The test's grams, in the order they get their ids. */
  const TEST_GRAMS: seq<seq<byte>> := [A, D_, B]

  lemma TestGramsFacts()
    ensures Distinct(TEST_GRAMS) && S.AllUtf8(TEST_GRAMS)
    ensures ValidUtf8(A) && ValidUtf8(B) && ValidUtf8(C) && ValidUtf8(D_)
    ensures C !in TEST_GRAMS
  {
    AsciiIsUtf8(A);
    AsciiIsUtf8(B);
    AsciiIsUtf8(C);
    AsciiIsUtf8(D_);
  }

  method BasicTest() returns (simple: seq<Outcome<Option<nat>>>, doubleArray: seq<Option<nat>>)
    ensures simple == [Returned(Some(0)), Returned(Some(2)), Returned(None), Returned(Some(1))]
    ensures doubleArray == [Some(0), Some(2), None, Some(1)]
  {
    TestGramsFacts();
    var sv := S.Build(TEST_GRAMS);
    S.BuildSucceeds(TEST_GRAMS);
    var v := sv.value.value;
    assert v.tokenMap[TEST_GRAMS[0]] == 0 && v.tokenMap[TEST_GRAMS[1]] == 1 && v.tokenMap[TEST_GRAMS[2]] == 2;
    assert C !in v.tokenMap;
    simple := [S.Get(v, A), S.Get(v, B), S.Get(v, C), S.Get(v, D_)];

    var dv := D.New(TEST_GRAMS);
    var w := dv.value;
    assert w.data[TEST_GRAMS[0]] == 0 && w.data[TEST_GRAMS[1]] == 1 && w.data[TEST_GRAMS[2]] == 2;
    assert C !in w.data;
    doubleArray := [D.Get(w, A), D.Get(w, B), D.Get(w, C), D.Get(w, D_)];
  }
}
