/** What a whole count-trie build returns: one level and one value order
    per file; the count rank stored for a gram leads back, through the
    value order of its order, to the count of its record; the vocabulary
    gives every unigram its position in the unigram file; every level above
    the unigrams has the pointer layout of the order below and the last
    token ids of its records; and on files whose grams extend the grams of
    the order below, in their order, the build succeeds and the pointers
    group the grams under their parents. */
module TrieCountLmBuilt {
  import opened Common
  import opened Ranking
  import opened PointerGroups
  import opened ParserStreams
  import opened TrieCountLmBuilder
  import opened TrieCountLmBuildFacts
  import P = Parser
  import S = SimpleVocabulary
  import SA = SortedArray
  import GS = GramsSequence

  // ---------------------------------------------------------------------
  // The steps of the build, order by order.

  /** Every file of a loaded set loaded on its own. */
  lemma {:induction false} LoadAllEach(loaders: seq<Loader>)
    requires LoadAll(loaders).Ok?
    ensures forall o :: 0 <= o < |loaders| ==> Load(loaders[o]) == Ok(LoadAll(loaders).value[o])
  {
    if loaders != [] {
      var n := |loaders| - 1;
      var init := loaders[..n];
      LoadAllEach(init);
      assert forall o :: 0 <= o < n ==> init[o] == loaders[o];
    }
  }

  /** The orders up to `i` of built orders built on their own first. */
  lemma LevelsPrefix(vocab: S.SimpleVocabulary, ranks: seq<map<nat, nat>>, loaders: seq<Loader>, levels: seq<SA.SimpleSortedArray>, i: nat, n: nat)
    requires i <= n < |loaders| && |ranks| == |loaders|
    requires LevelsOf(vocab, ranks, loaders, n) == Returned(Ok(levels))
    ensures LevelsOf(vocab, ranks, loaders, i) == Returned(Ok(levels[..i]))
  {
    var chain := seq(n + 1, k requires 0 <= k <= n => LevelsOf(vocab, ranks, loaders, k));
    forall k | 0 < k < |chain| && chain[k].Returned? && chain[k].value.Ok?
      ensures |chain[k].value.value| == k && chain[k - 1] == Returned(Ok(chain[k].value.value[..k - 1]))
    {
      assert chain[k] == LevelsOf(vocab, ranks, loaders, k) && chain[k - 1] == LevelsOf(vocab, ranks, loaders, k - 1);
      LevelsInit(vocab, ranks, loaders, k);
    }
    ChainPrefix(chain, levels, i, n);
  }

  /** The last level of built orders is the sorted array of the highest
      order's file over the file below. */
  lemma LevelLast(vocab: S.SimpleVocabulary, ranks: seq<map<nat, nat>>, loaders: seq<Loader>, n: nat)
    requires 0 < n < |loaders| && |ranks| == |loaders|
    requires LevelsOf(vocab, ranks, loaders, n).Returned? && LevelsOf(vocab, ranks, loaders, n).value.Ok?
    ensures SortedArrayOf(vocab, ranks[n], loaders[n - 1], loaders[n]) == Returned(Ok(LevelsOf(vocab, ranks, loaders, n).value.value[n - 1]))
  {
    ExtendOk(LevelsOf(vocab, ranks, loaders, n - 1), SortedArrayOf(vocab, ranks[n], loaders[n - 1], loaders[n]));
  }

  /** The orders below the highest of built orders built on their own. */
  lemma LevelsInit(vocab: S.SimpleVocabulary, ranks: seq<map<nat, nat>>, loaders: seq<Loader>, n: nat)
    requires 0 < n < |loaders| && |ranks| == |loaders|
    requires LevelsOf(vocab, ranks, loaders, n).Returned? && LevelsOf(vocab, ranks, loaders, n).value.Ok?
    ensures LevelsOf(vocab, ranks, loaders, n - 1) == Returned(Ok(LevelsOf(vocab, ranks, loaders, n).value.value[..n - 1]))
  {
    ExtendOk(LevelsOf(vocab, ranks, loaders, n - 1), SortedArrayOf(vocab, ranks[n], loaders[n - 1], loaders[n]));
  }

  /** The level of order `o` of built orders up to `n`. */
  lemma LevelOf(vocab: S.SimpleVocabulary, ranks: seq<map<nat, nat>>, loaders: seq<Loader>, o: nat, n: nat)
    requires 0 < o <= n < |loaders| && |ranks| == |loaders|
    requires LevelsOf(vocab, ranks, loaders, n).Returned? && LevelsOf(vocab, ranks, loaders, n).value.Ok?
    ensures SortedArrayOf(vocab, ranks[o], loaders[o - 1], loaders[o]) == Returned(Ok(LevelsOf(vocab, ranks, loaders, n).value.value[o - 1]))
  {
    LevelsPrefix(vocab, ranks, loaders, LevelsOf(vocab, ranks, loaders, n).value.value, o, n);
    LevelLast(vocab, ranks, loaders, o);
  }

  /** A level above the unigrams over `below` records of the order below,
      built for the records `recs`: pointers that start at 0, never
      decrease and end at the number of its grams, at least one more of them
      than the grams below, and for each record the id of its last token. */
  predicate LevelOver(vocab: S.SimpleVocabulary, below: nat, recs: seq<P.CountRecord>, a: SA.SimpleSortedArray) {
    && |a.pointers| >= below + 1
    && a.pointers[0] == 0 && NonDecreasing(a.pointers)
    && a.pointers[|a.pointers| - 1] == |a.tokenIds.grams| == |recs|
    && forall i :: 0 <= i < |recs| ==> LastTokenAt(vocab, recs, a, i)
  }

  /** The token id the level `a` stores for the `i`-th of the records
      `recs` is the id of the record's last token. */
  predicate LastTokenAt(vocab: S.SimpleVocabulary, recs: seq<P.CountRecord>, a: SA.SimpleSortedArray, i: nat) {
    i < |recs| && i < |a.tokenIds.grams| && LastTokenId(vocab, recs[i], a.tokenIds.grams[i])
  }

  /** What the level of order `o` of built orders up to `n` holds, when the
      files of the order and of the order below load: the level is laid out
      over the records below for the records of its file, and its count
      ranks are those of its records' counts. */
  lemma LevelFacts(vocab: S.SimpleVocabulary, ranks: seq<map<nat, nat>>, loaders: seq<Loader>, o: nat, n: nat, below: seq<P.CountRecord>, recs: seq<P.CountRecord>)
    requires 0 < o <= n < |loaders| && |ranks| == |loaders|
    requires LevelsOf(vocab, ranks, loaders, n).Returned? && LevelsOf(vocab, ranks, loaders, n).value.Ok?
    requires Load(loaders[o - 1]) == Ok(below) && Load(loaders[o]) == Ok(recs)
    ensures LevelOver(vocab, |below|, recs, LevelsOf(vocab, ranks, loaders, n).value.value[o - 1])
    ensures AllRanked(recs, ranks[o]) && LevelsOf(vocab, ranks, loaders, n).value.value[o - 1].countRanks == RanksOf(recs, ranks[o])
  {
    LevelOf(vocab, ranks, loaders, o, n);
    LevelShape(vocab, ranks[o], loaders[o - 1], loaders[o]);
    LevelRecords(vocab, ranks[o], loaders[o - 1], loaders[o]);
  }

  /** Every level above the unigrams, when every file loads: laid out over
      the records of the order below for the records of its file, with the
      ranks of its records' counts. */
  lemma LevelsOver(vocab: S.SimpleVocabulary, ranks: seq<map<nat, nat>>, loaders: seq<Loader>, recss: seq<seq<P.CountRecord>>, levels: seq<SA.SimpleSortedArray>)
    requires 0 < |loaders| && |ranks| == |loaders| == |recss|
    requires LevelsOf(vocab, ranks, loaders, |loaders| - 1) == Returned(Ok(levels))
    requires forall o :: 0 <= o < |loaders| ==> Load(loaders[o]) == Ok(recss[o])
    ensures |levels| == |loaders| - 1
    ensures forall o :: 1 <= o < |loaders| ==> LevelOver(vocab, |recss[o - 1]|, recss[o], levels[o - 1])
    ensures forall o :: 1 <= o < |loaders| ==>
      AllRanked(recss[o], ranks[o]) && levels[o - 1].countRanks == RanksOf(recss[o], ranks[o])
  {
    forall o | 1 <= o < |loaders|
      ensures LevelOver(vocab, |recss[o - 1]|, recss[o], levels[o - 1])
      ensures AllRanked(recss[o], ranks[o]) && levels[o - 1].countRanks == RanksOf(recss[o], ranks[o])
    {
      LevelFacts(vocab, ranks, loaders, o, |loaders| - 1, recss[o - 1], recss[o]);
    }
  }

  /** Reading the value order of each order at the rank stored for a record
      gives the record's count back, when the ranks are the positions in
      the value orders. */
  lemma RanksDecode(counts: seq<seq<nat>>, ranks: seq<map<nat, nat>>, recss: seq<seq<P.CountRecord>>, arrays: seq<SA.SimpleSortedArray>)
    requires |counts| == |ranks| == |recss| == |arrays|
    requires forall o :: 0 <= o < |counts| ==> Distinct(counts[o]) && ranks[o] == RankMap(counts[o])
    requires forall o :: 0 <= o < |counts| ==> AllRanked(recss[o], ranks[o]) && arrays[o].countRanks == RanksOf(recss[o], ranks[o])
    ensures forall o :: 0 <= o < |counts| ==> |arrays[o].countRanks| == |recss[o]|
    ensures forall o, i :: 0 <= o < |counts| && 0 <= i < |recss[o]| ==>
      && arrays[o].countRanks[i] < |counts[o]|
      && counts[o][arrays[o].countRanks[i]] == recss[o][i].count
  {
    forall o, i | 0 <= o < |counts| && 0 <= i < |recss[o]|
      ensures arrays[o].countRanks[i] < |counts[o]|
      ensures counts[o][arrays[o].countRanks[i]] == recss[o][i].count
    {
      RankAccess(counts[o], recss[o][i].count);
    }
  }

  /** What a built vocabulary step returns on the unigram file's records:
      the vocabulary `build` gives their grams, and a unigram level without
      pointers or token ids holding the ranks of their counts. */
  lemma VocabularyFacts(loaders: seq<Loader>, ranks: seq<map<nat, nat>>, recs: seq<P.CountRecord>, vocab: S.SimpleVocabulary, unigrams: SA.SimpleSortedArray)
    requires |ranks| == |loaders| && loaders != [] && Load(loaders[0]) == Ok(recs)
    requires VocabularyOf(loaders, ranks) == Returned(Ok((vocab, unigrams)))
    ensures S.BuildOf(Grams(recs)) == Returned(Ok(vocab))
    ensures unigrams.pointers == [] && unigrams.tokenIds.grams == []
    ensures AllRanked(recs, ranks[0]) && unigrams.countRanks == RanksOf(recs, ranks[0])
  {
  }

  /** The parts of a build in which every step succeeded. */
  lemma BuiltParts(loaders: seq<Loader>)
    requires BuildOf(loaders).Returned? && BuildOf(loaders).value.Ok?
    ensures LoadAll(loaders).Ok? && loaders != []
    ensures var recss := LoadAll(loaders).value;
      var counts := OrdersOf(recss);
      var lm := BuildOf(loaders).value.value;
      && lm.counts == counts
      && VocabularyOf(loaders, RankMaps(counts)) == Returned(Ok((lm.vocab, lm.arrays[0])))
      && LevelsOf(lm.vocab, RankMaps(counts), loaders, |loaders| - 1) == Returned(Ok(lm.arrays[1..]))
  {
  }

  // ---------------------------------------------------------------------
  // What is built.

  /** One level and one value order per file, and the value order of each
      file lists its distinct counts, most frequent first. */
  lemma BuiltLayout(loaders: seq<Loader>)
    requires BuildOf(loaders).Returned? && BuildOf(loaders).value.Ok?
    ensures LoadAll(loaders).Ok?
    ensures var lm := BuildOf(loaders).value.value;
      var recss := LoadAll(loaders).value;
      && lm.maxOrder + 1 == |loaders| == |lm.arrays| == |lm.counts|
      && forall o :: 0 <= o < |loaders| ==> IsFrequencyOrder(Tally(Counts(recss[o])), lm.counts[o])
  {
    BuiltParts(loaders);
  }

  /** The count rank stored for a record's gram is the position of the
      record's count in the value order of its order, so reading the value
      order at that rank gives the count back. */
  lemma BuiltCounts(loaders: seq<Loader>)
    requires BuildOf(loaders).Returned? && BuildOf(loaders).value.Ok?
    ensures LoadAll(loaders).Ok?
    ensures var lm := BuildOf(loaders).value.value;
      var recss := LoadAll(loaders).value;
      && |lm.arrays| == |lm.counts| == |loaders|
      && (forall o :: 0 <= o < |loaders| ==> |lm.arrays[o].countRanks| == |recss[o]|)
      && forall o, i :: 0 <= o < |loaders| && 0 <= i < |recss[o]| ==>
           && lm.arrays[o].countRanks[i] < |lm.counts[o]|
           && lm.counts[o][lm.arrays[o].countRanks[i]] == recss[o][i].count
  {
    BuiltParts(loaders);
    var lm := BuildOf(loaders).value.value;
    var recss := LoadAll(loaders).value;
    var ranks := RankMaps(lm.counts);
    LoadAllEach(loaders);
    LevelsOver(lm.vocab, ranks, loaders, recss, lm.arrays[1..]);
    forall o | 0 <= o < |loaders|
      ensures AllRanked(recss[o], ranks[o]) && lm.arrays[o].countRanks == RanksOf(recss[o], ranks[o])
    {
      if o == 0 {
        VocabularyFacts(loaders, ranks, recss[0], lm.vocab, lm.arrays[0]);
      } else {
        assert lm.arrays[o] == lm.arrays[1..][o - 1];
      }
    }
    RanksDecode(lm.counts, ranks, recss, lm.arrays);
  }

  /** The vocabulary maps the gram of the `i`-th unigram record to `i`, and
      the unigram level has no pointers and no token ids. */
  lemma BuiltVocabulary(loaders: seq<Loader>)
    requires BuildOf(loaders).Returned? && BuildOf(loaders).value.Ok?
    ensures LoadAll(loaders).Ok? && loaders != []
    ensures var lm := BuildOf(loaders).value.value;
      var unigrams := LoadAll(loaders).value[0];
      && lm.arrays[0].pointers == [] && lm.arrays[0].tokenIds.grams == []
      && forall i :: 0 <= i < |unigrams| ==> S.Get(lm.vocab, unigrams[i].gram) == Returned(Some(i))
  {
    BuiltParts(loaders);
    LoadAllEach(loaders);
    var lm := BuildOf(loaders).value.value;
    var unigrams := LoadAll(loaders).value[0];
    var tokens := Grams(unigrams);
    VocabularyFacts(loaders, RankMaps(lm.counts), unigrams, lm.vocab, lm.arrays[0]);
    S.BuildSucceeds(tokens);
    forall i | 0 <= i < |unigrams|
      ensures S.Get(lm.vocab, unigrams[i].gram) == Returned(Some(i))
    {
      assert tokens[i] == unigrams[i].gram;
    }
  }

  /** Every level above the unigrams is laid out over the records of the
      order below for the records of its own file. */
  lemma BuiltLevels(loaders: seq<Loader>)
    requires BuildOf(loaders).Returned? && BuildOf(loaders).value.Ok?
    ensures LoadAll(loaders).Ok?
    ensures var lm := BuildOf(loaders).value.value;
      var recss := LoadAll(loaders).value;
      && |lm.arrays| == |loaders|
      && forall o :: 1 <= o < |loaders| ==> LevelOver(lm.vocab, |recss[o - 1]|, recss[o], lm.arrays[o])
  {
    BuiltParts(loaders);
    var lm := BuildOf(loaders).value.value;
    var recss := LoadAll(loaders).value;
    LoadAllEach(loaders);
    LevelsOver(lm.vocab, RankMaps(lm.counts), loaders, recss, lm.arrays[1..]);
    forall o | 1 <= o < |loaders|
      ensures LevelOver(lm.vocab, |recss[o - 1]|, recss[o], lm.arrays[o])
    {
      assert lm.arrays[o] == lm.arrays[1..][o - 1];
    }
  }

  // ---------------------------------------------------------------------
  // Builds that succeed.

  /** Files that deliver the records `recss`, one file per order. */
  function Files(recss: seq<seq<P.CountRecord>>): (loaders: seq<Loader>)
    ensures |loaders| == |recss| && forall o :: 0 <= o < |recss| ==> loaders[o] == Ok(P.Delivered(recss[o]))
  {
    seq(|recss|, o requires 0 <= o < |recss| => Ok(P.Delivered(recss[o])))
  }

  /** Files that deliver records load them. */
  lemma {:induction false} LoadFiles(recss: seq<seq<P.CountRecord>>)
    ensures LoadAll(Files(recss)) == Ok(recss)
  {
    if recss != [] {
      var n := |recss| - 1;
      LoadFiles(recss[..n]);
      assert Files(recss)[..n] == Files(recss[..n]);
      P.CollectDelivered(recss[n], []);
      assert P.Collect([]) == Ok([]);
      assert P.Delivered(recss[n]) + [] == P.Delivered(recss[n]);
      assert recss[n] + [] == recss[n];
      assert Load(Files(recss)[n]) == Ok(recss[n]);
      assert recss[..n] + [recss[n]] == recss;
    }
  }

  /** Every count of a file has a rank in the value order of its file. */
  lemma CountsRanked(recs: seq<P.CountRecord>, s: seq<nat>)
    requires IsFrequencyOrder(Tally(Counts(recs)), s)
    ensures AllRanked(recs, RankMap(s))
  {
    TallyCounts(Counts(recs));
    FrequencyOrderDistinct(Tally(Counts(recs)), s);
    forall i | 0 <= i < |recs|
      ensures recs[i].count in RankMap(s)
    {
      assert Counts(recs)[i] == recs[i].count;
      RankAccess(s, recs[i].count);
    }
  }

  /** The pointers `p` of `n` grams group under each of them exactly the
      grams whose parent it is. */
  predicate Groups(p: seq<nat>, parent: seq<nat>, n: nat) {
    && |p| == n + 1
    && forall j, i :: 0 <= j < n && 0 <= i < |parent| ==> (p[j] <= i < p[j + 1] <==> parent[i] == j)
  }

  /** The level of order `o` has the pointers of the parents `parents[o]`
      of its grams in the records of the order below, and so groups the
      grams under their parents. */
  predicate GroupedAt(levels: seq<SA.SimpleSortedArray>, recss: seq<seq<P.CountRecord>>, parents: seq<seq<nat>>, o: nat) {
    && 0 < o <= |levels| && o < |recss| && o < |parents|
    && levels[o - 1].pointers == PointersOf(parents[o], |recss[o - 1]|)
    && Groups(levels[o - 1].pointers, parents[o], |recss[o - 1]|)
  }

  /** The orders 1 to `n` of files whose grams each extend, in order, a gram
      of the order below build. */
  lemma {:induction false} LevelsHappy(vocab: S.SimpleVocabulary, ranks: seq<map<nat, nat>>, recss: seq<seq<P.CountRecord>>, parents: seq<seq<nat>>, n: nat)
    requires n < |recss| && |ranks| == |recss| == |parents|
    requires forall o :: 1 <= o <= n ==> Nested(vocab, ranks[o], recss[o - 1], recss[o], parents[o])
    ensures LevelsOf(vocab, ranks, Files(recss), n).Returned? && LevelsOf(vocab, ranks, Files(recss), n).value.Ok?
  {
    var loaders := Files(recss);
    if n > 0 {
      LevelsHappy(vocab, ranks, recss, parents, n - 1);
      var prev := LevelsOf(vocab, ranks, loaders, n - 1);
      var next := SortedArrayOf(vocab, ranks[n], loaders[n - 1], loaders[n]);
      assert LevelsOf(vocab, ranks, loaders, n) == Extend(prev, next);
      HappyLevel(vocab, ranks[n], recss[n - 1], recss[n], parents[n]);
      ExtendBuilt(prev, next);
    }
  }

  /** In built orders of such files, the level of order `o` groups the grams
      of its file under their parents. */
  lemma LevelGrouped(vocab: S.SimpleVocabulary, ranks: seq<map<nat, nat>>, recss: seq<seq<P.CountRecord>>, parents: seq<seq<nat>>, o: nat, n: nat)
    requires 0 < o <= n < |recss| && |ranks| == |recss| == |parents|
    requires Nested(vocab, ranks[o], recss[o - 1], recss[o], parents[o])
    requires LevelsOf(vocab, ranks, Files(recss), n).Returned? && LevelsOf(vocab, ranks, Files(recss), n).value.Ok?
    ensures GroupedAt(LevelsOf(vocab, ranks, Files(recss), n).value.value, recss, parents, o)
  {
    LevelOf(vocab, ranks, Files(recss), o, n);
    HappyLevel(vocab, ranks[o], recss[o - 1], recss[o], parents[o]);
  }

  /** Files that deliver records build when the unigram grams are distinct
      and UTF-8 (so that `build` gives the vocabulary `vocab`) and the grams
      of each higher order extend, in order, the grams of the order below,
      at the indices `parents[o]`: the index holds that vocabulary and, in
      every level, the pointers that group the grams under their parents. */
  lemma BuildHappy(recss: seq<seq<P.CountRecord>>, parents: seq<seq<nat>>, vocab: S.SimpleVocabulary)
    requires 0 < |recss| == |parents|
    requires S.BuildOf(Grams(recss[0])) == Returned(Ok(vocab))
    requires forall o :: 1 <= o < |recss| ==> Nested(vocab, RankMap(OrdersOf(recss)[o]), recss[o - 1], recss[o], parents[o])
    ensures BuildOf(Files(recss)).Returned? && BuildOf(Files(recss)).value.Ok?
    ensures var lm := BuildOf(Files(recss)).value.value;
      && lm.vocab == vocab && |lm.arrays| == |recss|
      && forall o :: 1 <= o < |recss| ==> GroupedAt(lm.arrays[1..], recss, parents, o)
  {
    var loaders := Files(recss);
    LoadFiles(recss);
    var counts := OrdersOf(recss);
    var ranks := RankMaps(counts);
    assert Load(loaders[0]) == Ok(recss[0]) by {
      LoadAllEach(loaders);
    }
    CountsRanked(recss[0], counts[0]);
    var unigrams := SA.SimpleSortedArray(GS.SimpleGramsSequence([]), RanksOf(recss[0], ranks[0]), []);
    assert VocabularyOf(loaders, ranks) == Returned(Ok((vocab, unigrams)));
    LevelsHappy(vocab, ranks, recss, parents, |recss| - 1);
    var levels := LevelsOf(vocab, ranks, loaders, |recss| - 1).value.value;
    forall o | 1 <= o < |recss|
      ensures GroupedAt(levels, recss, parents, o)
    {
      LevelGrouped(vocab, ranks, recss, parents, o, |recss| - 1);
    }
    BuiltFrom(loaders, counts, vocab, unigrams, levels);
    assert ([unigrams] + levels)[1..] == levels;
  }
}
