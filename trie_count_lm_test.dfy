/** The unit tests of `TrieCountLm`: the index of the grams of three count
    files (four unigrams, nine bigrams, seven trigrams over the tokens A, B,
    C, D), assembled from the components the tests expect, indexes those
    grams; every record looks up to its own count, and "E", "B A", "B B A"
    look up to nothing. */
module TrieCountLmTest {
  import opened Common
  import U = Utf8
  import G = Gram
  import S = SimpleVocabulary
  import V = Vocabulary
  import T = TrieArray
  import M = Mappers
  import L = TrieCountLm
  import K = TrieCountLmLookuper

  /** The tokens of the unigram file, in file order: A, B, C, D get the ids
      0 to 3. */
  const UNIGRAMS: seq<seq<byte>> := [V.A, V.B, V.C, V.D_]

  /** The grams of each order, as token ids, in file order. */
  const GRAMS: seq<seq<seq<nat>>> := [
    [[0], [1], [2], [3]],
    [[0, 0], [0, 2], [1, 1], [1, 2], [1, 3], [2, 0], [2, 3], [3, 1], [3, 3]],
    [[0, 0, 2], [1, 1, 2], [1, 1, 3], [1, 2, 3], [3, 1, 1], [3, 1, 2], [3, 3, 3]]]

  /** The count of each record. */
  const GRAM_COUNTS: seq<seq<nat>> := [
    [10, 7, 1, 1],
    [5, 2, 2, 2, 1, 3, 2, 1, 1],
    [4, 2, 1, 1, 2, 1, 1]]

  /** The count ranks `test_unigrams`, `test_bigrams` and `test_trigrams`
      expect. */
  const COUNT_RANKS: seq<seq<nat>> := [
    [2, 1, 0, 0],
    [3, 0, 0, 0, 1, 2, 0, 1, 1],
    [2, 1, 0, 0, 1, 0, 0]]

  /** Per order, the distinct counts by frequency, then value. */
  const COUNTS: seq<seq<nat>> := [[1, 7, 10], [2, 1, 3, 5], [1, 2, 4]]

  const LAYERS: seq<K.Layer> := [
    K.Layer(T.BASIC1_TOKENS, T.BASIC1_PTRS),
    K.Layer(T.BASIC2_TOKENS, T.BASIC2_PTRS)]

  lemma UnigramsFacts()
    ensures Distinct(UNIGRAMS) && S.AllUtf8(UNIGRAMS)
  {
    V.TestGramsFacts();
  }

  /** The vocabulary built from the unigram file. */
  function TestVocabulary(): (v: V.Vocabulary)
    ensures v.Simple? && IndexMap(V.Ids(v), UNIGRAMS)
  {
    UnigramsFacts();
    S.BuildSucceeds(UNIGRAMS);
    V.Simple(S.BuildOf(UNIGRAMS).value.value)
  }

  /** The level built from ids and pointers laid out as the builders do. */
  function BuiltLevel(kind: T.Kind, t: seq<nat>, p: seq<nat>): (ta: T.TrieArray)
    requires T.Layout(t, p)
    ensures T.Buildable(kind, t, p) && T.Build(kind, t, p) == Returned(ta)
  {
    T.BuildSizes(kind, t, p);
    T.Build(kind, t, p).value
  }

  /** The index the tests build with either kind of trie level. */
  function TestLm(kind: T.Kind): L.TrieCountLm
  {
    T.Basic1Layout();
    T.Basic2Layout();
    L.TrieCountLm(
      TestVocabulary(),
      [BuiltLevel(kind, T.BASIC1_TOKENS, T.BASIC1_PTRS), BuiltLevel(kind, T.BASIC2_TOKENS, T.BASIC2_PTRS)],
      COUNT_RANKS, COUNTS)
  }

  /** `test_vocabulary`: A, B, C, D get the ids 0 to 3. */
  lemma TestVocabularyIds()
    ensures V.Get(TestVocabulary(), V.A) == Returned(Some(0))
    ensures V.Get(TestVocabulary(), V.B) == Returned(Some(1))
    ensures V.Get(TestVocabulary(), V.C) == Returned(Some(2))
    ensures V.Get(TestVocabulary(), V.D_) == Returned(Some(3))
  {
    V.TestGramsFacts();
    assert UNIGRAMS[0] == V.A && UNIGRAMS[1] == V.B && UNIGRAMS[2] == V.C && UNIGRAMS[3] == V.D_;
  }

  /** The bigrams in range `j` of `test_basic_1`'s pointers are the `j`-th
      unigram followed by their token ids. */
  lemma BigramPrefixes()
    ensures forall j, i :: 0 <= j < |GRAMS[0]| && T.BASIC1_PTRS[j] <= i < T.BASIC1_PTRS[j + 1] ==>
              GRAMS[1][i] == GRAMS[0][j] + [T.BASIC1_TOKENS[i]]
  {
    var p := T.BASIC1_PTRS;
    forall j, i | 0 <= j < |GRAMS[0]| && p[j] <= i < p[j + 1]
      ensures GRAMS[1][i] == GRAMS[0][j] + [T.BASIC1_TOKENS[i]]
    {
      if j == 0 {
        assert i == 0 || i == 1;
      } else if j == 1 {
        assert i == 2 || i == 3 || i == 4;
      } else if j == 2 {
        assert i == 5 || i == 6;
      } else {
        assert i == 7 || i == 8;
      }
    }
  }

  /** The trigrams in range `j` of `test_basic_2`'s pointers are the `j`-th
      bigram followed by their token ids. */
  lemma TrigramPrefixes()
    ensures forall j, i :: 0 <= j < |GRAMS[1]| && T.BASIC2_PTRS[j] <= i < T.BASIC2_PTRS[j + 1] ==>
              GRAMS[2][i] == GRAMS[1][j] + [T.BASIC2_TOKENS[i]]
  {
    var p := T.BASIC2_PTRS;
    forall j, i | 0 <= j < |GRAMS[1]| && p[j] <= i < p[j + 1]
      ensures GRAMS[2][i] == GRAMS[1][j] + [T.BASIC2_TOKENS[i]]
    {
      if j == 0 {
        assert i == 0;
      } else if j == 2 {
        assert i == 1 || i == 2;
      } else if j == 3 {
        assert i == 3;
      } else if j == 7 {
        assert i == 4 || i == 5;
      } else {
        assert j == 8 && i == 6;
      }
    }
  }

  lemma BigramLevel(kind: T.Kind)
    ensures K.LevelOf(kind, LAYERS[0], TestLm(kind).arrays[0], GRAMS[0], GRAMS[1])
  {
    T.Basic1Layout();
    BigramPrefixes();
    assert TestLm(kind).arrays[0] == BuiltLevel(kind, T.BASIC1_TOKENS, T.BASIC1_PTRS);
  }

  lemma TrigramLevel(kind: T.Kind)
    ensures K.LevelOf(kind, LAYERS[1], TestLm(kind).arrays[1], GRAMS[1], GRAMS[2])
  {
    T.Basic2Layout();
    TrigramPrefixes();
    assert TestLm(kind).arrays[1] == BuiltLevel(kind, T.BASIC2_TOKENS, T.BASIC2_PTRS);
  }

  lemma GramsDistinct()
    ensures forall o :: 0 <= o < 3 ==> Distinct(GRAMS[o])
  {
  }

  lemma RanksLeadToCounts()
    ensures forall o, i :: 0 <= o < 3 && 0 <= i < |GRAMS[o]| ==>
              COUNT_RANKS[o][i] < |COUNTS[o]| && COUNTS[o][COUNT_RANKS[o][i]] == GRAM_COUNTS[o][i]
  {
  }

  /** `lm` is an index of the grams of the three files with their counts, over
      the vocabulary of the unigram file. */
  predicate TestIndex(lm: L.TrieCountLm, kind: T.Kind) {
    lm.vocab == TestVocabulary() && K.Indexed(lm, kind, LAYERS, GRAMS, GRAM_COUNTS)
  }

  lemma UnigramIds()
    ensures forall i :: 0 <= i < |GRAMS[0]| ==> GRAMS[0][i] == [i]
  {
    var g := GRAMS[0];
    assert g == [[0], [1], [2], [3]];
  }

  lemma IndexedShapes(lm: L.TrieCountLm)
    requires lm.countRanks == COUNT_RANKS
    ensures forall o :: 0 <= o < |GRAMS| ==>
              Distinct(GRAMS[o]) && |GRAM_COUNTS[o]| == |GRAMS[o]| && |lm.countRanks[o]| == |GRAMS[o]|
  {
    GramsDistinct();
  }

  lemma IndexedRanks(lm: L.TrieCountLm)
    requires lm.countRanks == COUNT_RANKS && lm.counts == COUNTS
    ensures forall o, i :: 0 <= o < |GRAMS| && 0 <= i < |GRAMS[o]| ==>
              lm.countRanks[o][i] < |lm.counts[o]| && lm.counts[o][lm.countRanks[o][i]] == GRAM_COUNTS[o][i]
  {
    RanksLeadToCounts();
  }

  lemma IndexedVocabulary(lm: L.TrieCountLm)
    requires IndexMap(V.Ids(lm.vocab), UNIGRAMS)
    ensures forall w :: w in V.Ids(lm.vocab) ==> V.Ids(lm.vocab)[w] < |GRAMS[0]|
  {
    forall w | w in V.Ids(lm.vocab)
      ensures V.Ids(lm.vocab)[w] < |GRAMS[0]|
    {
      var i :| 0 <= i < |UNIGRAMS| && UNIGRAMS[i] == w;
    }
  }

  lemma BothLevels(kind: T.Kind, layers: seq<K.Layer>, arrays: seq<T.TrieArray>, grams: seq<seq<seq<nat>>>)
    requires |layers| == 2 && |arrays| == 2 && |grams| == 3
    requires K.LevelOf(kind, layers[0], arrays[0], grams[0], grams[1])
    requires K.LevelOf(kind, layers[1], arrays[1], grams[1], grams[2])
    ensures forall o :: 0 <= o < |layers| ==> K.LevelOf(kind, layers[o], arrays[o], grams[o], grams[o + 1])
  {
  }

  /** An index with the tests' count ranks and counts, the unigram file's
      vocabulary and levels built over the tests' orders indexes the grams of
      the three files. */
  lemma IndexedOf(lm: L.TrieCountLm, kind: T.Kind)
    requires lm.countRanks == COUNT_RANKS && lm.counts == COUNTS && IndexMap(V.Ids(lm.vocab), UNIGRAMS)
    requires |lm.arrays| == 2
    requires K.LevelOf(kind, LAYERS[0], lm.arrays[0], GRAMS[0], GRAMS[1])
    requires K.LevelOf(kind, LAYERS[1], lm.arrays[1], GRAMS[1], GRAMS[2])
    ensures K.Indexed(lm, kind, LAYERS, GRAMS, GRAM_COUNTS)
  {
    IndexedShapes(lm);
    IndexedRanks(lm);
    IndexedVocabulary(lm);
    UnigramIds();
    BothLevels(kind, LAYERS, lm.arrays, GRAMS);
  }

  /** The tests' index holds the grams of the three files with their counts. */
  lemma TestIndexed(kind: T.Kind)
    ensures TestIndex(TestLm(kind), kind)
  {
    BigramLevel(kind);
    TrigramLevel(kind);
    IndexedOf(TestLm(kind), kind);
  }

  // -----------------------------------------------------------------------
  // `test_simple_lookup` and `test_ef_lookup`.

  /** The token of id `x`: its letter. */
  function Letter(x: nat): (t: seq<byte>)
    requires x < 26
    ensures |t| == 1 && G.SEPARATOR !in t
  {
    [65 + x]
  }

  /** The tokens of a gram of ids. */
  function Tokens(ids: seq<nat>): (r: seq<seq<byte>>)
    requires forall k :: 0 <= k < |ids| ==> ids[k] < 26
    ensures |r| == |ids| && forall k :: 0 <= k < |ids| ==> r[k] == Letter(ids[k])
  {
    seq(|ids|, k requires 0 <= k < |ids| => Letter(ids[k]))
  }

  /** The text of a gram: its letters with a space between two. */
  function GramText(ids: seq<nat>): seq<byte>
    requires 1 <= |ids| && forall k :: 0 <= k < |ids| ==> ids[k] < 26
  {
    Join(Tokens(ids), G.SEPARATOR)
  }

  /** The test vocabulary gives each letter of the four its id. */
  lemma LetterIds(x: nat)
    requires x < 4
    ensures V.Get(TestVocabulary(), Letter(x)) == Returned(Some(x))
  {
    UnigramsFacts();
    assert UNIGRAMS[x] == Letter(x);
  }

  /** The text of ids of the four letters maps back to the ids. */
  lemma MapIds(ids: seq<nat>)
    requires 1 <= |ids| <= MAX_ORDER && forall k :: 0 <= k < |ids| ==> ids[k] < 4
    ensures M.MapQueryOf(TestVocabulary(), GramText(ids)) == Returned(Some(ids))
  {
    var tokens := Tokens(ids);
    G.TokensOfJoin(tokens);
    forall k | 0 <= k < |tokens|
      ensures V.Get(TestVocabulary(), tokens[k]) == Returned(Some(ids[k]))
    {
      LetterIds(ids[k]);
    }
    M.MapTokensAll(TestVocabulary(), tokens, ids);
  }

  /** Looking up the text of ids of the four letters, of at most three
      tokens, answers what the index should. */
  lemma LookupOfIds(lm: L.TrieCountLm, kind: T.Kind, ids: seq<nat>)
    requires TestIndex(lm, kind)
    requires 1 <= |ids| <= 3 && forall k :: 0 <= k < |ids| ==> ids[k] < 4
    ensures K.RunOf(lm, GramText(ids)) == Returned(K.Expected(GRAMS, GRAM_COUNTS, ids))
  {
    MapIds(ids);
    K.AnswerMeaning(lm, kind, LAYERS, GRAMS, GRAM_COUNTS, ids);
  }

  lemma GramsOfLetters()
    ensures forall o, i, k :: 0 <= o < 3 && 0 <= i < |GRAMS[o]| && 0 <= k < |GRAMS[o][i]| ==> GRAMS[o][i][k] < 4
    ensures forall o, i :: 0 <= o < 3 && 0 <= i < |GRAMS[o]| ==> |GRAMS[o][i]| == o + 1
  {
  }

  /** Every record of the three files looks up to its own count. */
  lemma RecordLookup(lm: L.TrieCountLm, kind: T.Kind, o: nat, i: nat)
    requires TestIndex(lm, kind)
    requires o < 3 && i < |GRAMS[o]|
    ensures 1 <= |GRAMS[o][i]| && forall k :: 0 <= k < |GRAMS[o][i]| ==> GRAMS[o][i][k] < 4
    ensures K.RunOf(lm, GramText(GRAMS[o][i])) == Returned(Some(GRAM_COUNTS[o][i]))
  {
    GramsOfLetters();
    GramsDistinct();
    LookupOfIds(lm, kind, GRAMS[o][i]);
    K.PositionDistinct(GRAMS[o], i);
  }

  const QUERY_E: seq<byte> := M.E
  const QUERY_BA: seq<byte> := V.B + [G.SEPARATOR] + V.A
  const QUERY_BBA: seq<byte> := V.B + [G.SEPARATOR] + V.B + [G.SEPARATOR] + V.A
  const QUERY_AACA: seq<byte> := V.A + [G.SEPARATOR] + V.A + [G.SEPARATOR] + V.C + [G.SEPARATOR] + V.A

  /** "E" is not in the vocabulary. */
  lemma LookupE(lm: L.TrieCountLm, kind: T.Kind)
    requires TestIndex(lm, kind)
    ensures K.RunOf(lm, QUERY_E) == Returned(None)
  {
    G.TokensOfJoin([QUERY_E]);
    UnigramsFacts();
    U.AsciiIsUtf8(QUERY_E);
    assert QUERY_E !in UNIGRAMS;
    M.MapTokensFirstMissing(TestVocabulary(), [QUERY_E]);
  }

  lemma AbsentBigram()
    ensures Position(GRAMS[1], [1, 0]) == None
  {
    var g := GRAMS[1];
    assert forall i :: 0 <= i < |g| ==> g[i][1] != 0 || g[i][0] != 1;
    PositionFirst(g, [1, 0]);
  }

  lemma AbsentTrigram()
    ensures Position(GRAMS[2], [1, 1, 0]) == None
  {
    var g := GRAMS[2];
    assert forall i :: 0 <= i < |g| ==> g[i][2] != 0;
    PositionFirst(g, [1, 1, 0]);
  }

  /** "B A", "B B A" and "A A C A" are the texts of the ids 1 0, 1 1 0 and
      0 0 2 0. */
  lemma QueryTexts()
    ensures QUERY_BA == GramText([1, 0])
    ensures QUERY_BBA == GramText([1, 1, 0])
    ensures QUERY_AACA == GramText([0, 0, 2, 0])
  {
    assert Tokens([1, 0]) == [V.B, V.A];
    assert Tokens([1, 1, 0]) == [V.B, V.B, V.A];
    assert Tokens([0, 0, 2, 0]) == [V.A, V.A, V.C, V.A];
  }

  /** "B A" is not in the index. */
  lemma LookupBA(lm: L.TrieCountLm, kind: T.Kind)
    requires TestIndex(lm, kind)
    ensures K.RunOf(lm, QUERY_BA) == Returned(None)
  {
    QueryTexts();
    MapIds([1, 0]);
    K.AnswerMeaning(lm, kind, LAYERS, GRAMS, GRAM_COUNTS, [1, 0]);
    AbsentBigram();
  }

  /** "B B A" is not in the index. */
  lemma LookupBBA(lm: L.TrieCountLm, kind: T.Kind)
    requires TestIndex(lm, kind)
    ensures K.RunOf(lm, QUERY_BBA) == Returned(None)
  {
    QueryTexts();
    MapIds([1, 1, 0]);
    K.AnswerMeaning(lm, kind, LAYERS, GRAMS, GRAM_COUNTS, [1, 1, 0]);
    AbsentTrigram();
  }

  /** "A A C" is a trigram of the index. */
  lemma AacPresent()
    ensures [0, 0, 2, 0][..3] in GRAMS[2]
  {
    assert [0, 0, 2, 0][..3] == GRAMS[2][0];
  }

  /** "A A C A" extends the trigram "A A C" past the highest order: as
      written, looking it up panics. */
  lemma LookupTooLong(lm: L.TrieCountLm, kind: T.Kind)
    requires TestIndex(lm, kind)
    ensures K.RunOf(lm, QUERY_AACA) == Panicked
  {
    QueryTexts();
    MapIds([0, 0, 2, 0]);
    AacPresent();
    K.LongQueryPanics(lm, kind, LAYERS, GRAMS, GRAM_COUNTS, [0, 0, 2, 0]);
  }

  /** The answers so far are the counts of the first records. */
  predicate AnswersCounts(answers: seq<Outcome<Option<nat>>>, counts: seq<nat>) {
    |answers| <= |counts| && forall b :: 0 <= b < |answers| ==> answers[b] == Returned(Some(counts[b]))
  }

  lemma AnswersOneMore(answers: seq<Outcome<Option<nat>>>, counts: seq<nat>, r: Outcome<Option<nat>>)
    requires AnswersCounts(answers, counts) && |answers| < |counts| && r == Returned(Some(counts[|answers|]))
    ensures AnswersCounts(answers + [r], counts)
  {
  }

  /** Looks up every record of order `o + 1` with `lookuper`. */
  method LookupOrder(lookuper: K.Lookuper, kind: T.Kind, o: nat) returns (answers: seq<Outcome<Option<nat>>>)
    requires o < 3 && lookuper.Valid() && TestIndex(lookuper.trie, kind)
    modifies lookuper.mapper.mapped
    ensures lookuper.Valid()
    ensures |answers| == |GRAMS[o]| && AnswersCounts(answers, GRAM_COUNTS[o])
  {
    ghost var counts := GRAM_COUNTS[o];
    assert |counts| == |GRAMS[o]|;
    answers := [];
    for i := 0 to |GRAMS[o]|
      invariant lookuper.Valid()
      invariant |answers| == i
      invariant AnswersCounts(answers, counts)
    {
      RecordLookup(lookuper.trie, kind, o, i);
      var r := lookuper.Run(GramText(GRAMS[o][i]));
      AnswersOneMore(answers, counts, r);
      answers := answers + [r];
    }
  }

  /** Looks up "E", "B A" and "B B A" with `lookuper`. */
  method LookupMissing(lookuper: K.Lookuper, kind: T.Kind) returns (missing: seq<Outcome<Option<nat>>>)
    requires lookuper.Valid() && TestIndex(lookuper.trie, kind)
    modifies lookuper.mapper.mapped
    ensures missing == [Returned(None), Returned(None), Returned(None)]
  {
    LookupE(lookuper.trie, kind);
    LookupBA(lookuper.trie, kind);
    LookupBBA(lookuper.trie, kind);
    var e := lookuper.Run(QUERY_E);
    var ba := lookuper.Run(QUERY_BA);
    var bba := lookuper.Run(QUERY_BBA);
    missing := [e, ba, bba];
  }

  /** Looks up every record of the three files with `lookuper`. */
  method LookupAll(lookuper: K.Lookuper, kind: T.Kind) returns (found: seq<seq<Outcome<Option<nat>>>>)
    requires lookuper.Valid() && TestIndex(lookuper.trie, kind)
    modifies lookuper.mapper.mapped
    ensures lookuper.Valid()
    ensures |found| == 3
    ensures forall o :: 0 <= o < 3 ==> |found[o]| == |GRAMS[o]| && AnswersCounts(found[o], GRAM_COUNTS[o])
  {
    var unigrams := LookupOrder(lookuper, kind, 0);
    var bigrams := LookupOrder(lookuper, kind, 1);
    var trigrams := LookupOrder(lookuper, kind, 2);
    found := [unigrams, bigrams, trigrams];
  }

  /** The lookup tests: a lookuper over the index answers every record of
      the three files with its count, and "E", "B A", "B B A" with `None`. */
  method LookupTest(kind: T.Kind) returns (found: seq<seq<Outcome<Option<nat>>>>, missing: seq<Outcome<Option<nat>>>)
    ensures |found| == 3
    ensures forall o :: 0 <= o < 3 ==> |found[o]| == |GRAMS[o]| && AnswersCounts(found[o], GRAM_COUNTS[o])
    ensures missing == [Returned(None), Returned(None), Returned(None)]
  {
    TestIndexed(kind);
    var lookuper := new K.Lookuper.New(TestLm(kind));
    found := LookupAll(lookuper, kind);
    missing := LookupMissing(lookuper, kind);
  }
}
