/** What a whole probability-trie build returns: one trie level per order
    above the unigrams, the probabilities of every order and the backoff
    weights of every order below the highest, each exactly those of the
    records of its own file; every level's pointers are laid out over the
    lines of the order below; and the token id stored for a gram is the
    position, in the unigram file, of the gram's first token. */
module TrieProbLmBuilt {
  import opened Common
  import opened TrieProbLmBuilder
  import opened TrieProbLmBuildFacts
  import P = Parser
  import S = SimpleVocabulary
  import TA = TrieArray
  import E = EliasFanoTrieArray

  // ---------------------------------------------------------------------
  // The steps of the build, order by order.

  /** The orders up to `i` of built orders built on their own first. */
  lemma LevelsPrefix(kind: TA.Kind, vocab: S.SimpleVocabulary, loaders: seq<ProbLoader>, levels: seq<ProbLevel>, i: nat, n: nat)
    requires i <= n < |loaders|
    requires LevelsOf(kind, vocab, loaders, n) == Returned(Ok(levels))
    ensures LevelsOf(kind, vocab, loaders, i) == Returned(Ok(levels[..i]))
  {
    var chain := seq(n + 1, k requires 0 <= k <= n => LevelsOf(kind, vocab, loaders, k));
    forall k | 0 < k < |chain| && chain[k].Returned? && chain[k].value.Ok?
      ensures |chain[k].value.value| == k && chain[k - 1] == Returned(Ok(chain[k].value.value[..k - 1]))
    {
      assert chain[k] == LevelsOf(kind, vocab, loaders, k) && chain[k - 1] == LevelsOf(kind, vocab, loaders, k - 1);
      LevelsInit(kind, vocab, loaders, k);
    }
    ChainPrefix(chain, levels, i, n);
  }

  /** The last level of built orders is the sorted array of the highest
      order's file over the file below. */
  lemma LevelLast(kind: TA.Kind, vocab: S.SimpleVocabulary, loaders: seq<ProbLoader>, n: nat)
    requires 0 < n < |loaders|
    requires LevelsOf(kind, vocab, loaders, n).Returned? && LevelsOf(kind, vocab, loaders, n).value.Ok?
    ensures SortedArrayOf(kind, vocab, n, |loaders| - 1, loaders[n - 1], loaders[n]) == Returned(Ok(LevelsOf(kind, vocab, loaders, n).value.value[n - 1]))
  {
    ExtendOk(LevelsOf(kind, vocab, loaders, n - 1), SortedArrayOf(kind, vocab, n, |loaders| - 1, loaders[n - 1], loaders[n]));
  }

  /** The orders below the highest of built orders built on their own. */
  lemma LevelsInit(kind: TA.Kind, vocab: S.SimpleVocabulary, loaders: seq<ProbLoader>, n: nat)
    requires 0 < n < |loaders|
    requires LevelsOf(kind, vocab, loaders, n).Returned? && LevelsOf(kind, vocab, loaders, n).value.Ok?
    ensures LevelsOf(kind, vocab, loaders, n - 1) == Returned(Ok(LevelsOf(kind, vocab, loaders, n).value.value[..n - 1]))
  {
    ExtendOk(LevelsOf(kind, vocab, loaders, n - 1), SortedArrayOf(kind, vocab, n, |loaders| - 1, loaders[n - 1], loaders[n]));
  }

  /** The level of order `o` of built orders up to `n`. */
  lemma LevelOf(kind: TA.Kind, vocab: S.SimpleVocabulary, loaders: seq<ProbLoader>, o: nat, n: nat)
    requires 0 < o <= n < |loaders|
    requires LevelsOf(kind, vocab, loaders, n).Returned? && LevelsOf(kind, vocab, loaders, n).value.Ok?
    ensures SortedArrayOf(kind, vocab, o, |loaders| - 1, loaders[o - 1], loaders[o]) == Returned(Ok(LevelsOf(kind, vocab, loaders, n).value.value[o - 1]))
  {
    LevelsPrefix(kind, vocab, loaders, LevelsOf(kind, vocab, loaders, n).value.value, o, n);
    LevelLast(kind, vocab, loaders, o);
  }

  /** Orders up to `k` that built: the orders below built on their own,
      and the last level is what `build_sorted_array` promises of order
      `k`. */
  lemma StepBuilt(kind: TA.Kind, vocab: S.SimpleVocabulary, loaders: seq<ProbLoader>, k: nat)
    requires 0 < k < |loaders|
    requires LevelsOf(kind, vocab, loaders, k).Returned? && LevelsOf(kind, vocab, loaders, k).value.Ok?
    ensures var levels := LevelsOf(kind, vocab, loaders, k).value.value;
      && LevelsOf(kind, vocab, loaders, k - 1) == Returned(Ok(levels[..k - 1]))
      && LevelBuilt(kind, vocab, k, |loaders| - 1, loaders[k - 1], loaders[k], levels[k - 1])
  {
    LevelsInit(kind, vocab, loaders, k);
    LevelLast(kind, vocab, loaders, k);
    SortedArrayBuilt(kind, vocab, k, |loaders| - 1, loaders[k - 1], loaders[k]);
  }

  /** The levels of a set of files: one per order above the unigrams, each
      what `build_sorted_array` promises of its order. */
  predicate LevelsOver(kind: TA.Kind, vocab: S.SimpleVocabulary, loaders: seq<ProbLoader>, levels: seq<ProbLevel>) {
    && |levels| + 1 == |loaders|
    && forall k :: 0 <= k < |levels| ==> LevelBuilt(kind, vocab, k + 1, |loaders| - 1, loaders[k], loaders[k + 1], levels[k])
  }

  /** Levels whose first `n - 1` are what `build_sorted_array` promises of
      their orders, and whose last is that of order `n`, are all so. */
  lemma LevelsExtend(kind: TA.Kind, vocab: S.SimpleVocabulary, loaders: seq<ProbLoader>, init: seq<ProbLevel>, levels: seq<ProbLevel>, n: nat)
    requires 0 < n < |loaders| && |levels| == n && init == levels[..n - 1]
    requires forall k :: 0 <= k < n - 1 ==> LevelBuilt(kind, vocab, k + 1, |loaders| - 1, loaders[k], loaders[k + 1], init[k])
    requires LevelBuilt(kind, vocab, n, |loaders| - 1, loaders[n - 1], loaders[n], levels[n - 1])
    ensures forall k :: 0 <= k < n ==> LevelBuilt(kind, vocab, k + 1, |loaders| - 1, loaders[k], loaders[k + 1], levels[k])
  {
    forall k | 0 <= k < n
      ensures LevelBuilt(kind, vocab, k + 1, |loaders| - 1, loaders[k], loaders[k + 1], levels[k])
    {
      if k < n - 1 {
        assert init[k] == levels[k];
      }
    }
  }

  /** Every level of the orders up to `n` that built is what
      `build_sorted_array` promises of its order. */
  lemma {:induction false} PrefixBuilt(kind: TA.Kind, vocab: S.SimpleVocabulary, loaders: seq<ProbLoader>, n: nat)
    requires n < |loaders|
    requires LevelsOf(kind, vocab, loaders, n).Returned? && LevelsOf(kind, vocab, loaders, n).value.Ok?
    ensures var levels := LevelsOf(kind, vocab, loaders, n).value.value;
      && |levels| == n
      && forall k :: 0 <= k < n ==> LevelBuilt(kind, vocab, k + 1, |loaders| - 1, loaders[k], loaders[k + 1], levels[k])
  {
    if n > 0 {
      var levels := LevelsOf(kind, vocab, loaders, n).value.value;
      StepBuilt(kind, vocab, loaders, n);
      PrefixBuilt(kind, vocab, loaders, n - 1);
      LevelsExtend(kind, vocab, loaders, LevelsOf(kind, vocab, loaders, n - 1).value.value, levels, n);
    }
  }

  /** Every level of a set of files whose orders all built is what
      `build_sorted_array` promises of its order. */
  lemma LevelsBuilt(kind: TA.Kind, vocab: S.SimpleVocabulary, loaders: seq<ProbLoader>)
    requires 0 < |loaders|
    requires LevelsOf(kind, vocab, loaders, |loaders| - 1).Returned? && LevelsOf(kind, vocab, loaders, |loaders| - 1).value.Ok?
    ensures LevelsOver(kind, vocab, loaders, LevelsOf(kind, vocab, loaders, |loaders| - 1).value.value)
  {
    PrefixBuilt(kind, vocab, loaders, |loaders| - 1);
  }

  /** The backoff weights of levels of which exactly the first `m` keep
      them are those `m` levels' weights, in order. */
  lemma {:induction false} BackoffsKept(levels: seq<ProbLevel>, m: nat)
    requires m <= |levels|
    requires forall k :: 0 <= k < |levels| ==> (levels[k].backoffs.Some? <==> k < m)
    ensures |LevelBackoffs(levels)| == m
    ensures forall k :: 0 <= k < m ==> LevelBackoffs(levels)[k] == levels[k].backoffs.value
  {
    if levels != [] {
      var n := |levels| - 1;
      var init := levels[..n];
      assert forall k :: 0 <= k < n ==> init[k] == levels[k];
      if levels[n].backoffs.Some? {
        BackoffsKept(init, n);
      } else {
        BackoffsKept(init, m);
      }
    }
  }

  /** `lm` is put together from the vocabulary step on the loaders and the
      levels `levels` built over them. */
  predicate Parts(kind: TA.Kind, loaders: seq<ProbLoader>, lm: BuiltProbLm, levels: seq<ProbLevel>) {
    && 0 < |loaders| <= MAX_ORDER
    && |lm.probs| > 0 && |lm.backoffs| > 0
    && VocabularyOf(loaders) == Returned(Ok((lm.vocab, lm.probs[0], lm.backoffs[0])))
    && LevelsOver(kind, lm.vocab, loaders, levels)
    && lm.arrays == LevelArrays(levels)
    && lm.probs == [lm.probs[0]] + LevelProbs(levels)
    && lm.backoffs == [lm.backoffs[0]] + LevelBackoffs(levels)
  }

  /** The parts of a build that succeeds: at most `MAX_ORDER` files, the
      vocabulary step on the unigram file, then the levels. */
  lemma BuiltParts(kind: TA.Kind, loaders: seq<ProbLoader>)
    requires BuildOf(kind, loaders).Returned? && BuildOf(kind, loaders).value.Ok?
    ensures 0 < |loaders| <= MAX_ORDER
    ensures LevelsOf(kind, BuildOf(kind, loaders).value.value.vocab, loaders, |loaders| - 1).Returned?
    ensures LevelsOf(kind, BuildOf(kind, loaders).value.value.vocab, loaders, |loaders| - 1).value.Ok?
    ensures Parts(kind, loaders, BuildOf(kind, loaders).value.value, LevelsOf(kind, BuildOf(kind, loaders).value.value.vocab, loaders, |loaders| - 1).value.value)
  {
    LevelsBuilt(kind, BuildOf(kind, loaders).value.value.vocab, loaders);
  }

  // ---------------------------------------------------------------------
  // What is built.

  /** One trie level per order above the unigrams, the probabilities of
      every order, and backoff weights for the unigrams and every order
      below the highest. */
  lemma BuiltLayout(kind: TA.Kind, loaders: seq<ProbLoader>)
    requires BuildOf(kind, loaders).Returned? && BuildOf(kind, loaders).value.Ok?
    ensures 0 < |loaders| <= MAX_ORDER
    ensures var lm := BuildOf(kind, loaders).value.value;
      && |lm.arrays| == |loaders| - 1
      && |lm.probs| == |loaders|
      && |lm.backoffs| == (if |loaders| == 1 then 1 else |loaders| - 1)
  {
    BuiltParts(kind, loaders);
    var lm := BuildOf(kind, loaders).value.value;
    BuiltKeeps(kind, loaders, lm.vocab, LevelsOf(kind, lm.vocab, loaders, |loaders| - 1).value.value);
  }

  /** The level of order `k + 1` keeps backoff weights exactly when that
      order is not the highest. */
  lemma KeepsAt(kind: TA.Kind, loaders: seq<ProbLoader>, vocab: S.SimpleVocabulary, levels: seq<ProbLevel>, k: nat)
    requires 0 < |loaders|
    requires LevelsOf(kind, vocab, loaders, |loaders| - 1) == Returned(Ok(levels))
    requires k < |levels|
    ensures levels[k].backoffs.Some? <==> k + 1 < |loaders| - 1
  {
    LevelsBuilt(kind, vocab, loaders);
    BuiltKeeps(kind, loaders, vocab, levels);
  }

  /** Exactly the levels below the highest order keep backoff weights. */
  lemma BuiltKeeps(kind: TA.Kind, loaders: seq<ProbLoader>, vocab: S.SimpleVocabulary, levels: seq<ProbLevel>)
    requires LevelsOver(kind, vocab, loaders, levels)
    ensures var m := if |loaders| == 1 then 0 else |loaders| - 2;
      && (forall k :: 0 <= k < |levels| ==> (levels[k].backoffs.Some? <==> k < m))
      && |LevelBackoffs(levels)| == m
      && forall k :: 0 <= k < m ==> LevelBackoffs(levels)[k] == levels[k].backoffs.value
  {
    var m := if |loaders| == 1 then 0 else |loaders| - 2;
    forall k | 0 <= k < |levels|
      ensures levels[k].backoffs.Some? <==> k < m
    {
      assert LevelBuilt(kind, vocab, k + 1, |loaders| - 1, loaders[k], loaders[k + 1], levels[k]);
    }
    BackoffsKept(levels, m);
  }

  /** The unigram payloads are those of the unigram file's records. */
  lemma VocabularyPayloads(loaders: seq<ProbLoader>, vocab: S.SimpleVocabulary, probs: seq<seq<byte>>, backoffs: seq<Option<seq<byte>>>)
    requires VocabularyOf(loaders) == Returned(Ok((vocab, probs, backoffs)))
    ensures loaders != [] && LoadProbs(loaders[0]).Ok?
    ensures probs == RecordProbs(LoadProbs(loaders[0]).value)
    ensures backoffs == RecordBackoffs(LoadProbs(loaders[0]).value)
  {
  }

  /** The payloads of order `o` of a build put together from its parts. */
  lemma PayloadsAt(kind: TA.Kind, loaders: seq<ProbLoader>, lm: BuiltProbLm, levels: seq<ProbLevel>, o: nat)
    requires Parts(kind, loaders, lm, levels)
    requires 1 <= o < |loaders|
    ensures LoadProbs(loaders[o]).Ok?
    ensures o < |lm.probs| && lm.probs[o] == RecordProbs(LoadProbs(loaders[o]).value)
    ensures o < |lm.backoffs| ==> lm.backoffs[o] == RecordBackoffs(LoadProbs(loaders[o]).value)
  {
    BuiltKeeps(kind, loaders, lm.vocab, levels);
    var k := o - 1;
    assert LevelBuilt(kind, lm.vocab, k + 1, |loaders| - 1, loaders[k], loaders[k + 1], levels[k]);
    assert lm.probs[o] == LevelProbs(levels)[o - 1];
    if o < |lm.backoffs| {
      assert lm.backoffs[o] == LevelBackoffs(levels)[o - 1];
    }
  }

  /** The payloads of a build put together from its parts. */
  lemma PartsPayloads(kind: TA.Kind, loaders: seq<ProbLoader>, lm: BuiltProbLm, levels: seq<ProbLevel>)
    requires Parts(kind, loaders, lm, levels)
    ensures |lm.probs| == |loaders| && |lm.backoffs| <= |loaders|
    ensures forall o :: 0 <= o < |loaders| ==>
      LoadProbs(loaders[o]).Ok? && lm.probs[o] == RecordProbs(LoadProbs(loaders[o]).value)
    ensures forall o :: 0 <= o < |lm.backoffs| ==>
      LoadProbs(loaders[o]).Ok? && lm.backoffs[o] == RecordBackoffs(LoadProbs(loaders[o]).value)
  {
    BuiltKeeps(kind, loaders, lm.vocab, levels);
    assert |lm.probs| == |loaders| && |lm.backoffs| <= |loaders|;
    forall o | 0 <= o < |loaders|
      ensures LoadProbs(loaders[o]).Ok? && lm.probs[o] == RecordProbs(LoadProbs(loaders[o]).value)
      ensures o < |lm.backoffs| ==> lm.backoffs[o] == RecordBackoffs(LoadProbs(loaders[o]).value)
    {
      if o == 0 {
        VocabularyPayloads(loaders, lm.vocab, lm.probs[0], lm.backoffs[0]);
      } else {
        PayloadsAt(kind, loaders, lm, levels, o);
      }
    }
  }

  /** The probabilities of every order are those of the records of its
      file, in file order, and so are the backoff weights of the unigrams
      and of every order below the highest. */
  lemma BuiltPayloads(kind: TA.Kind, loaders: seq<ProbLoader>)
    requires BuildOf(kind, loaders).Returned? && BuildOf(kind, loaders).value.Ok?
    ensures var lm := BuildOf(kind, loaders).value.value;
      && |lm.probs| == |loaders| && |lm.backoffs| <= |loaders|
      && (forall o :: 0 <= o < |loaders| ==>
            LoadProbs(loaders[o]).Ok? && lm.probs[o] == RecordProbs(LoadProbs(loaders[o]).value))
      && (forall o :: 0 <= o < |lm.backoffs| ==>
            LoadProbs(loaders[o]).Ok? && lm.backoffs[o] == RecordBackoffs(LoadProbs(loaders[o]).value))
  {
    BuiltParts(kind, loaders);
    var lm := BuildOf(kind, loaders).value.value;
    PartsPayloads(kind, loaders, lm, LevelsOf(kind, lm.vocab, loaders, |loaders| - 1).value.value);
  }

  /** The gram's first token is the unigram at position `id`. */
  predicate FirstTokenIs(unigrams: seq<P.ProbRecord>, rec: P.ProbRecord, id: nat) {
    && PopFrontToken(rec.gram).Some?
    && id < |unigrams|
    && unigrams[id].gram == PopFrontToken(rec.gram).value.0
  }

  /** The vocabulary of a build maps each unigram to its position in the
      unigram file, so a first token's id is that position. */
  lemma VocabularyIds(loaders: seq<ProbLoader>, vocab: S.SimpleVocabulary, probs: seq<seq<byte>>, backoffs: seq<Option<seq<byte>>>)
    requires VocabularyOf(loaders) == Returned(Ok((vocab, probs, backoffs)))
    ensures loaders != [] && LoadProbs(loaders[0]).Ok?
    ensures var unigrams := LoadProbs(loaders[0]).value;
      && (forall i :: 0 <= i < |unigrams| ==> S.Get(vocab, unigrams[i].gram) == Returned(Some(i)))
      && forall rec: P.ProbRecord, id: nat :: FirstTokenId(vocab, rec, id) ==> FirstTokenIs(unigrams, rec, id)
  {
    var unigrams := LoadProbs(loaders[0]).value;
    var tokens := Grams(unigrams);
    S.BuildSucceeds(tokens);
    assert IndexMap(vocab.tokenMap, tokens);
    forall i | 0 <= i < |unigrams|
      ensures S.Get(vocab, unigrams[i].gram) == Returned(Some(i))
    {
      assert tokens[i] == unigrams[i].gram;
    }
    forall rec: P.ProbRecord, id: nat | FirstTokenId(vocab, rec, id)
      ensures FirstTokenIs(unigrams, rec, id)
    {
      var token := PopFrontToken(rec.gram).value.0;
      var j :| 0 <= j < |tokens| && tokens[j] == token;
      assert vocab.tokenMap[tokens[j]] == j;
    }
  }

  /** A level's array, built by `T::build` from token ids and pointers
      laid out from 0, reads back every token id and, unless it is an
      Elias-Fano array over no grams (which is left empty), one range per
      pair of consecutive pointers. */
  lemma ArrayReads(kind: TA.Kind, t: seq<nat>, p: seq<nat>, a: TA.TrieArray)
    requires E.Pointers(t, p) && TA.Buildable(kind, t, p) && TA.Build(kind, t, p) == Returned(a)
    ensures TA.NumTokens(a) == |t|
    ensures TA.NumPointers(a) == if kind == TA.EliasFanoKind && t == [] then 0 else |p|
    ensures forall i :: 0 <= i < |t| ==> TA.TokenIdReady(a, i) && TA.TokenId(a, i) == t[i]
    ensures forall pos :: 0 <= pos < TA.NumPointers(a) - 1 ==> TA.RangeReady(a, pos) && TA.Range(a, pos) == (p[pos], p[pos + 1])
  {
    if kind == TA.EliasFanoKind {
      if t == [] {
        E.BuildShape(t, p);
      } else {
        E.BuildSucceeds(t, p);
        TA.ReadsBack(kind, t, p);
        TA.BuildSizes(kind, t, p);
      }
    }
  }

  /** Every level above the unigrams, read through its array: one token
      id per record of its file, in file order the position of the
      record's first token in the unigram file; and, unless it is an
      Elias-Fano array over no grams, one range per line of the order below
      when those are text, the first from 0, each ending where the next
      begins, the last at the number of records, none running backwards. */
  predicate LevelOver(kind: TA.Kind, unigrams: seq<P.ProbRecord>, below: ProbLoader, recs: seq<P.ProbRecord>, a: TA.TrieArray) {
    var n := TA.NumPointers(a);
    && TA.NumTokens(a) == |recs|
    && (forall i :: 0 <= i < |recs| ==> TA.TokenIdReady(a, i) && FirstTokenIs(unigrams, recs[i], TA.TokenId(a, i)))
    && below.Ok?
    && (n == 0 <==> kind == TA.EliasFanoKind && recs == [])
    && (n != 0 ==> n >= 2 && (AllText(below.value) ==> n == |below.value| + 1))
    && forall pos :: 0 <= pos < n - 1 ==>
         && TA.RangeReady(a, pos)
         && TA.Range(a, pos).0 <= TA.Range(a, pos).1
         && (pos == 0 ==> TA.Range(a, pos).0 == 0)
         && (pos == n - 2 ==> TA.Range(a, pos).1 == |recs|)
         && (pos < n - 2 ==> TA.RangeReady(a, pos + 1) && TA.Range(a, pos).1 == TA.Range(a, pos + 1).0)
  }

  /** An array built from vectors laid out over the order below, with
      the first-token positions of the records as token ids, is a level
      over that order for them. */
  lemma ArrayOver(kind: TA.Kind, unigrams: seq<P.ProbRecord>, below: ProbLoader, recs: seq<P.ProbRecord>, t: seq<nat>, p: seq<nat>, a: TA.TrieArray)
    requires |p| >= 2 && p[0] == 0 && NonDecreasing(p) && p[|p| - 1] == |t| == |recs|
    requires below.Ok? && (AllText(below.value) ==> |p| == |below.value| + 1)
    requires forall i :: 0 <= i < |recs| ==> FirstTokenIs(unigrams, recs[i], t[i])
    requires TA.Buildable(kind, t, p) && TA.Build(kind, t, p) == Returned(a)
    ensures LevelOver(kind, unigrams, below, recs, a)
  {
    ArrayReads(kind, t, p, a);
  }

  /** The level of order `o` of a build put together from its parts. */
  lemma PartsLevel(kind: TA.Kind, loaders: seq<ProbLoader>, lm: BuiltProbLm, levels: seq<ProbLevel>, o: nat)
    requires Parts(kind, loaders, lm, levels)
    requires 1 <= o < |loaders|
    ensures LoadProbs(loaders[0]).Ok? && LoadProbs(loaders[o]).Ok?
    ensures |lm.arrays| == |loaders| - 1
    ensures LevelOver(kind, LoadProbs(loaders[0]).value, loaders[o - 1], LoadProbs(loaders[o]).value, lm.arrays[o - 1])
  {
    VocabularyIds(loaders, lm.vocab, lm.probs[0], lm.backoffs[0]);
    var k := o - 1;
    assert LevelBuilt(kind, lm.vocab, k + 1, |loaders| - 1, loaders[k], loaders[k + 1], levels[k]);
    var recs := LoadProbs(loaders[o]).value;
    var level := levels[o - 1];
    var (t, p) := (level.layout.tokenIds, level.layout.pointers);
    assert lm.arrays[o - 1] == level.trie;
    assert forall i :: 0 <= i < |recs| ==> FirstTokenId(lm.vocab, recs[i], t[0 + i]);
    ArrayOver(kind, LoadProbs(loaders[0]).value, loaders[o - 1], recs, t, p, level.trie);
  }

  /** The level of order `o` of a build that succeeds. */
  lemma LevelFacts(kind: TA.Kind, loaders: seq<ProbLoader>, o: nat)
    requires BuildOf(kind, loaders).Returned? && BuildOf(kind, loaders).value.Ok?
    requires 1 <= o < |loaders|
    ensures LoadProbs(loaders[0]).Ok? && LoadProbs(loaders[o]).Ok?
    ensures var lm := BuildOf(kind, loaders).value.value;
      |lm.arrays| == |loaders| - 1 &&
      LevelOver(kind, LoadProbs(loaders[0]).value, loaders[o - 1], LoadProbs(loaders[o]).value, lm.arrays[o - 1])
  {
    BuiltParts(kind, loaders);
    var lm := BuildOf(kind, loaders).value.value;
    PartsLevel(kind, loaders, lm, LevelsOf(kind, lm.vocab, loaders, |loaders| - 1).value.value, o);
  }

  /** Every level above the unigrams of a build that succeeds is laid out
      over the order below for the records of its own file. */
  lemma BuiltLevels(kind: TA.Kind, loaders: seq<ProbLoader>)
    requires BuildOf(kind, loaders).Returned? && BuildOf(kind, loaders).value.Ok?
    ensures loaders != [] && forall o :: 0 <= o < |loaders| ==> LoadProbs(loaders[o]).Ok?
    ensures var lm := BuildOf(kind, loaders).value.value;
      && |lm.arrays| == |loaders| - 1
      && forall o :: 1 <= o < |loaders| ==>
           LevelOver(kind, LoadProbs(loaders[0]).value, loaders[o - 1], LoadProbs(loaders[o]).value, lm.arrays[o - 1])
  {
    BuiltPayloads(kind, loaders);
    BuiltLayout(kind, loaders);
    forall o | 1 <= o < |loaders|
      ensures LevelOver(kind, LoadProbs(loaders[0]).value, loaders[o - 1], LoadProbs(loaders[o]).value, BuildOf(kind, loaders).value.value.arrays[o - 1])
    {
      LevelFacts(kind, loaders, o);
    }
  }
}
