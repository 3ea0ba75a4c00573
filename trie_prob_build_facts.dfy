/** What a probability-trie build guarantees about what it returns: it fails
    with too many orders exactly when there are more files than `MAX_ORDER`,
    and a level fails only on a bad line or on incomplete data; every
    level's pointers start at 0, never decrease, end at the number of grams
    of the level, and number one more than the lines of the order below;
    the probabilities, backoff weights and token ids of a level are those of
    the records of its file, in file order; a level is incomplete exactly
    when a pattern is missing from the order below; and on files whose
    grams each extend, with a token in front, a gram of the order below, in
    the order of those grams, the pointers of a gram of the order below
    delimit exactly the grams that extend it. */
module TrieProbLmBuildFacts {
  import opened Common
  import opened Utf8
  import opened PointerGroups
  import opened TrieProbLmBuilder
  import P = Parser
  import G = Gram
  import S = SimpleVocabulary
  import ST = SimpleTrieArray
  import TA = TrieArray
  import E = EliasFanoTrieArray

  // ---------------------------------------------------------------------
  // Which errors each step can end with.

  /** The errors a level can end with: a bad line, or the data of its order
      being incomplete. */
  predicate LevelError(e: BuildError, grams: nat) {
    e.ParseFailed? || e == Incomplete(grams)
  }

  /** The inner advance fails only on a bad line or as incomplete. */
  lemma {:induction false} AdvanceErrors(grams: nat, prev: seq<seq<byte>>, gram: seq<byte>, pattern: seq<byte>, pointer: nat, pointers: seq<nat>)
    requires Advance(grams, prev, gram, pattern, pointer, pointers).Err?
    ensures LevelError(Advance(grams, prev, gram, pattern, pointer, pointers).error, grams)
    decreases |prev|
  {
    if pattern != gram && FirstProb(prev).Some? && FirstProb(prev).value.Ok? {
      AdvanceErrors(grams, prev[1..], FirstProb(prev).value.value.gram, pattern, pointer, pointers + [pointer]);
    }
  }

  /** The merge of an order fails only on a bad line or as incomplete. */
  lemma {:induction false} MergeErrors(vocab: S.SimpleVocabulary, grams: nat, keep: bool, curr: seq<seq<byte>>, prev: seq<seq<byte>>, st: ProbState)
    requires Merge(vocab, grams, keep, curr, prev, st).Returned? && Merge(vocab, grams, keep, curr, prev, st).value.Err?
    ensures LevelError(Merge(vocab, grams, keep, curr, prev, st).value.error, grams)
    decreases |curr|
  {
    if FirstProb(curr).Some? && FirstProb(curr).value.Ok? {
      var rec := FirstProb(curr).value.value;
      var (token, pattern) := PopFrontToken(rec.gram).value;
      var a := Advance(grams, prev, st.prevGram, pattern, st.pointer, st.pointers);
      if a.Err? {
        AdvanceErrors(grams, prev, st.prevGram, pattern, st.pointer, st.pointers);
      } else {
        var (rest, next) := Attach(vocab, grams, keep, rec, prev, st).value.value;
        MergeErrors(vocab, grams, keep, curr[1..], rest, next);
      }
    }
  }

  /** A level of order `order` fails only on a bad line or as incomplete
      `order + 1`-grams data. */
  lemma LevelErrors(kind: TA.Kind, vocab: S.SimpleVocabulary, order: nat, maxOrder: nat, prevLoader: ProbLoader, currLoader: ProbLoader)
    requires SortedArrayOf(kind, vocab, order, maxOrder, prevLoader, currLoader).Returned?
    requires SortedArrayOf(kind, vocab, order, maxOrder, prevLoader, currLoader).value.Err?
    ensures LevelError(SortedArrayOf(kind, vocab, order, maxOrder, prevLoader, currLoader).value.error, order + 1)
  {
    if prevLoader.Ok? && currLoader.Ok? && FirstProb(prevLoader.value).value.Ok? {
      var first := FirstProb(prevLoader.value).value.value;
      MergeErrors(vocab, order + 1, order < maxOrder, currLoader.value, prevLoader.value[1..], ProbState(first.gram, 0, [0], [], [], []));
    }
  }

  /** Building the levels fails only on a bad line or as incomplete. */
  lemma {:induction false} LevelsErrors(kind: TA.Kind, vocab: S.SimpleVocabulary, loaders: seq<ProbLoader>, n: nat)
    requires n < |loaders|
    requires LevelsOf(kind, vocab, loaders, n).Returned? && LevelsOf(kind, vocab, loaders, n).value.Err?
    ensures LevelsOf(kind, vocab, loaders, n).value.error.ParseFailed? || LevelsOf(kind, vocab, loaders, n).value.error.Incomplete?
  {
    var before := LevelsOf(kind, vocab, loaders, n - 1);
    if before.Returned? && before.value.Err? {
      LevelsErrors(kind, vocab, loaders, n - 1);
    } else {
      LevelErrors(kind, vocab, n, |loaders| - 1, loaders[n - 1], loaders[n]);
    }
  }

  /** `new` and `build` together fail with too many orders exactly when
      there are more files than `MAX_ORDER`, and no later step reports
      that error. */
  lemma OrderLimit(kind: TA.Kind, loaders: seq<ProbLoader>)
    ensures BuildOf(kind, loaders) == Returned(Err(TooManyOrders(|loaders|))) <==> MAX_ORDER < |loaders|
    ensures BuildOf(kind, loaders).Returned? && BuildOf(kind, loaders).value.Err? && BuildOf(kind, loaders).value.error.TooManyOrders? ==> MAX_ORDER < |loaders|
  {
    if |loaders| <= MAX_ORDER {
      var v := VocabularyOf(loaders);
      if v.Returned? && v.value.Ok? {
        var l := LevelsOf(kind, v.value.value.0, loaders, |loaders| - 1);
        if l.Returned? && l.value.Err? {
          LevelsErrors(kind, v.value.value.0, loaders, |loaders| - 1);
        }
      }
    }
  }

  // ---------------------------------------------------------------------
  // Shape of the pointers.

  /** A merge state whose pointers can end a level: they start at 0, never
      decrease and stay at most the number of grams so far; one token id
      and one probability per gram, and one backoff weight per gram when
      the order keeps them. */
  predicate Wf(st: ProbState, keep: bool) {
    && |st.pointers| > 0
    && st.pointers[0] == 0
    && NonDecreasing(st.pointers)
    && st.pointers[|st.pointers| - 1] <= st.pointer
    && st.pointer == |st.tokenIds| == |st.probs|
    && |st.backoffs| == (if keep then st.pointer else 0)
  }

  /** A merge that succeeds on a file whose first answer is a record
      attaches that record and merges the rest of the file. */
  lemma MergeOn(vocab: S.SimpleVocabulary, grams: nat, keep: bool, curr: seq<seq<byte>>, prev: seq<seq<byte>>, st: ProbState)
    requires Merge(vocab, grams, keep, curr, prev, st).Returned? && Merge(vocab, grams, keep, curr, prev, st).value.Ok?
    requires FirstProb(curr).Some? && FirstProb(curr).value.Ok?
    ensures var a := Attach(vocab, grams, keep, FirstProb(curr).value.value, prev, st);
      && a.Returned? && a.value.Ok?
      && Merge(vocab, grams, keep, curr, prev, st) == Merge(vocab, grams, keep, curr[1..], a.value.value.0, a.value.value.1)
  {
  }

  /** Attaching a record keeps a merge state well formed, counts one more
      gram, reads a prefix of the previous-order lines, and pushes one
      pointer per line it reads. */
  lemma AttachShape(vocab: S.SimpleVocabulary, grams: nat, keep: bool, rec: P.ProbRecord, prev: seq<seq<byte>>, st: ProbState)
    requires Wf(st, keep)
    requires Attach(vocab, grams, keep, rec, prev, st).Returned? && Attach(vocab, grams, keep, rec, prev, st).value.Ok?
    ensures var (rest, next) := Attach(vocab, grams, keep, rec, prev, st).value.value;
      && Wf(next, keep) && next.pointer == st.pointer + 1
      && |next.pointers| + |rest| == |st.pointers| + |prev|
      && |rest| <= |prev| && SuffixOf(rest, prev)
  {
    var (token, pattern) := PopFrontToken(rec.gram).value;
    var (rest, gram, pushed) := Advance(grams, prev, st.prevGram, pattern, st.pointer, st.pointers).value;
    PushedShape(st.pointers, pushed, st.pointer);
    AddTokenShape(vocab, keep, rec, token, rest, gram, pushed, st);
  }

  /** Adding a token to a well-formed state whose new pointers still start
      at 0, never decrease and stay within the grams so far gives a
      well-formed state with one gram more. */
  lemma AddTokenShape(vocab: S.SimpleVocabulary, keep: bool, rec: P.ProbRecord, token: seq<byte>, rest: seq<seq<byte>>, gram: seq<byte>, pointers: seq<nat>, st: ProbState)
    requires Wf(st, keep)
    requires |pointers| > 0 && pointers[0] == 0 && NonDecreasing(pointers) && pointers[|pointers| - 1] <= st.pointer
    requires AddToken(vocab, keep, rec, token, rest, gram, pointers, st).Returned? && AddToken(vocab, keep, rec, token, rest, gram, pointers, st).value.Ok?
    ensures var (rest', next) := AddToken(vocab, keep, rec, token, rest, gram, pointers, st).value.value;
      && rest' == rest && next.pointers == pointers
      && Wf(next, keep) && next.pointer == st.pointer + 1
  {
  }

  /** What a merge that succeeds from `st` over the lines `prev` ends in:
      a well-formed state, no fewer grams, one pointer per line read, and
      the lines after those it read. */
  predicate Shaped(m: Outcome<Result<(seq<seq<byte>>, ProbState), BuildError>>, keep: bool, prev: seq<seq<byte>>, st: ProbState) {
    && m.Returned? && m.value.Ok?
    && var (rest, fin) := m.value.value;
       && Wf(fin, keep) && st.pointer <= fin.pointer
       && |fin.pointers| + |rest| == |st.pointers| + |prev|
       && |rest| <= |prev| && SuffixOf(rest, prev)
  }

  /** The shape of a merge from the state after one attached record is
      that of a merge from the state before it. */
  lemma ShapedStep(m: Outcome<Result<(seq<seq<byte>>, ProbState), BuildError>>, keep: bool, prev: seq<seq<byte>>, st: ProbState, rest: seq<seq<byte>>, next: ProbState)
    requires Shaped(m, keep, rest, next)
    requires next.pointer == st.pointer + 1 && |next.pointers| + |rest| == |st.pointers| + |prev|
    requires |rest| <= |prev| && SuffixOf(rest, prev)
    ensures Shaped(m, keep, prev, st)
  {
    SuffixTrans(m.value.value.0, rest, prev);
  }

  /** The merge of a whole order keeps the state well formed, and every
      previous-order line it reads gives one pointer. */
  lemma {:induction false} MergeShape(vocab: S.SimpleVocabulary, grams: nat, keep: bool, curr: seq<seq<byte>>, prev: seq<seq<byte>>, st: ProbState)
    requires Wf(st, keep)
    requires Merge(vocab, grams, keep, curr, prev, st).Returned? && Merge(vocab, grams, keep, curr, prev, st).value.Ok?
    ensures Shaped(Merge(vocab, grams, keep, curr, prev, st), keep, prev, st)
    decreases |curr|
  {
    if FirstProb(curr).Some? && FirstProb(curr).value.Ok? {
      var rec := FirstProb(curr).value.value;
      MergeOn(vocab, grams, keep, curr, prev, st);
      AttachShape(vocab, grams, keep, rec, prev, st);
      var (rest, next) := Attach(vocab, grams, keep, rec, prev, st).value.value;
      MergeShape(vocab, grams, keep, curr[1..], rest, next);
      ShapedStep(Merge(vocab, grams, keep, curr[1..], rest, next), keep, prev, st, rest, next);
    }
  }

  /** Every line is UTF-8 text. */
  predicate AllText(lines: seq<seq<byte>>) {
    forall i :: 0 <= i < |lines| ==> ValidUtf8(lines[i])
  }

  /** On lines that are all text, the tail loop counts every one. */
  lemma {:induction false} TailCountAll(lines: seq<seq<byte>>)
    requires AllText(lines)
    ensures TailCount(lines) == |lines|
    decreases |lines|
  {
    if lines != [] {
      assert ValidUtf8(lines[0]);
      assert AllText(lines[1..]) by {
        assert forall i :: 0 <= i < |lines| - 1 ==> lines[1..][i] == lines[i + 1];
      }
      TailCountAll(lines[1..]);
    }
  }

  /** A suffix of text lines is text lines. */
  lemma TextSuffix(lines: seq<seq<byte>>, k: nat)
    requires AllText(lines) && k <= |lines|
    ensures AllText(lines[k..])
  {
    assert forall i :: 0 <= i < |lines| - k ==> lines[k..][i] == lines[k + i];
  }

  /** The vectors a well-formed state ends in have pointers from 0, never
      decreasing, up to its number of grams, one payload per gram, and one
      pointer for each line left when those are text. */
  lemma FinishedShape(st: ProbState, rest: seq<seq<byte>>, keep: bool)
    requires Wf(st, keep)
    ensures var layout := LayoutOf(st, rest);
      var ps := layout.pointers;
      && |ps| >= 2 && ps[0] == 0 && NonDecreasing(ps)
      && ps[|ps| - 1] == |layout.tokenIds| == |st.probs|
      && (keep ==> |st.backoffs| == |st.probs|)
      && (AllText(rest) ==> |ps| == |st.pointers| + |rest| + 1)
  {
    var ps := st.pointers + Repeat(st.pointer, TailCount(rest)) + [st.pointer];
    assert ps[..|st.pointers|] == st.pointers;
    assert forall k :: |st.pointers| <= k < |ps| ==> ps[k] == st.pointer;
    PushedShape(st.pointers, ps, st.pointer);
    if AllText(rest) {
      TailCountAll(rest);
    }
  }

  /** The level a well-formed state ends in is `T::build` of its vectors,
      which always fit the array: the Elias-Fano array panics exactly when
      it is handed token ids with a range that is not sorted, and the plain
      array never does. */
  lemma FinishedLevel(kind: TA.Kind, st: ProbState, rest: seq<seq<byte>>, keep: bool)
    requires Wf(st, keep)
    ensures var layout := LayoutOf(st, rest);
      var (t, p) := (layout.tokenIds, layout.pointers);
      && E.Pointers(t, p) && TA.Buildable(kind, t, p)
      && (Level(kind, st, rest, keep).Panicked? <==> kind == TA.EliasFanoKind && t != [] && !E.RangesSorted(t, p))
      && (Level(kind, st, rest, keep).Returned? ==>
            TA.Build(kind, t, p).Returned? &&
            Level(kind, st, rest, keep).value == ProbLevel(layout, TA.Build(kind, t, p).value, st.probs, if keep then Some(st.backoffs) else None))
  {
    FinishedShape(st, rest, keep);
    LevelFromPanics(kind, LayoutOf(st, rest), st.probs, if keep then Some(st.backoffs) else None);
  }

  /** `T::build` of vectors that fit panics only for the Elias-Fano array,
      and then exactly when a range of token ids is not sorted. */
  lemma LevelFromPanics(kind: TA.Kind, layout: ST.SimpleTrieArray, probs: seq<seq<byte>>, backoffs: Option<seq<Option<seq<byte>>>>)
    requires E.Pointers(layout.tokenIds, layout.pointers)
    ensures var (t, p) := (layout.tokenIds, layout.pointers);
      var level := LevelFrom(kind, layout, probs, backoffs);
      && TA.Buildable(kind, t, p)
      && (level.Panicked? <==> kind == TA.EliasFanoKind && t != [] && !E.RangesSorted(t, p))
      && (level.Returned? ==> TA.Build(kind, t, p).Returned? && level.value == ProbLevel(layout, TA.Build(kind, t, p).value, probs, backoffs))
  {
    if kind == TA.EliasFanoKind && layout.tokenIds != [] {
      E.BuildSucceeds(layout.tokenIds, layout.pointers);
    }
  }

  /** Every level's pointers start at 0, never decrease and end at the
      number of grams of the level; there is one probability per gram, and
      one backoff weight per gram exactly below the highest order; and on a
      previous-order file of text lines there is one pointer per line and
      one more. */
  lemma LevelShape(kind: TA.Kind, vocab: S.SimpleVocabulary, order: nat, maxOrder: nat, prevLoader: ProbLoader, currLoader: ProbLoader)
    requires SortedArrayOf(kind, vocab, order, maxOrder, prevLoader, currLoader).Returned?
    requires SortedArrayOf(kind, vocab, order, maxOrder, prevLoader, currLoader).value.Ok?
    ensures var level := SortedArrayOf(kind, vocab, order, maxOrder, prevLoader, currLoader).value.value;
      var ps := level.layout.pointers;
      && |ps| >= 2 && ps[0] == 0 && NonDecreasing(ps)
      && ps[|ps| - 1] == |level.layout.tokenIds| == |level.probs|
      && (level.backoffs.Some? <==> order < maxOrder)
      && (level.backoffs.Some? ==> |level.backoffs.value| == |level.probs|)
      && prevLoader.Ok? && (AllText(prevLoader.value) ==> |ps| == |prevLoader.value| + 1)
  {
    var prev := prevLoader.value;
    var keep := order < maxOrder;
    var first := FirstProb(prev).value.value;
    var st := ProbState(first.gram, 0, [0], [], [], []);
    var m := Merge(vocab, order + 1, keep, currLoader.value, prev[1..], st);
    MergeShape(vocab, order + 1, keep, currLoader.value, prev[1..], st);
    var (rest, fin) := m.value.value;
    FinishedShape(fin, rest, keep);
    FinishedLevel(kind, fin, rest, keep);
    if AllText(prev) {
      SuffixDrop(rest, prev[1..]);
      TextSuffix(prev, 1);
      TextSuffix(prev[1..], |prev| - 1 - |rest|);
    }
  }

  /** The trie array `T` decides only what a level's array is built as:
      a level that fails or panics in the merge does so alike for every
      `T`, the plain
      array builds every merged level, and the Elias-Fano array panics on
      exactly those merged levels that have grams and a range of token ids
      that is not sorted; otherwise the level is the same apart from its
      array, which is `T::build` of the merged vectors. */
  lemma LevelKind(kind: TA.Kind, vocab: S.SimpleVocabulary, order: nat, maxOrder: nat, prevLoader: ProbLoader, currLoader: ProbLoader)
    ensures var simple := SortedArrayOf(TA.SimpleKind, vocab, order, maxOrder, prevLoader, currLoader);
      var built := SortedArrayOf(kind, vocab, order, maxOrder, prevLoader, currLoader);
      && (!(simple.Returned? && simple.value.Ok?) ==> built == simple)
      && (simple.Returned? && simple.value.Ok? ==>
            var level := simple.value.value;
            var (t, p) := (level.layout.tokenIds, level.layout.pointers);
            && E.Pointers(t, p) && TA.Buildable(kind, t, p)
            && (built.Panicked? <==> kind == TA.EliasFanoKind && t != [] && !E.RangesSorted(t, p))
            && (built.Returned? ==> TA.Build(kind, t, p).Returned? && built == Returned(Ok(level.(trie := TA.Build(kind, t, p).value)))))
  {
    if prevLoader.Ok? && currLoader.Ok? && FirstProb(prevLoader.value).Some? && FirstProb(prevLoader.value).value.Ok? {
      var prev := prevLoader.value;
      var keep := order < maxOrder;
      var first := FirstProb(prev).value.value;
      var st := ProbState(first.gram, 0, [0], [], [], []);
      var m := Merge(vocab, order + 1, keep, currLoader.value, prev[1..], st);
      if m.Returned? && m.value.Ok? {
        MergeShape(vocab, order + 1, keep, currLoader.value, prev[1..], st);
        var (rest, fin) := m.value.value;
        FinishedLevel(kind, fin, rest, keep);
        FinishedLevel(TA.SimpleKind, fin, rest, keep);
      }
    }
  }

  // ---------------------------------------------------------------------
  // Contents of a level.

  /** `id` is the vocabulary's id of the first token of the record's
      gram. */
  predicate FirstTokenId(vocab: S.SimpleVocabulary, rec: P.ProbRecord, id: nat) {
    && PopFrontToken(rec.gram).Some?
    && PopFrontToken(rec.gram).value.0 in vocab.tokenMap
    && vocab.tokenMap[PopFrontToken(rec.gram).value.0] == id
  }

  /** Attaching a record appends its first token's id, its probability and,
      when the order keeps them, its backoff weight. */
  lemma AttachContents(vocab: S.SimpleVocabulary, grams: nat, keep: bool, rec: P.ProbRecord, prev: seq<seq<byte>>, st: ProbState)
    requires Attach(vocab, grams, keep, rec, prev, st).Returned? && Attach(vocab, grams, keep, rec, prev, st).value.Ok?
    ensures var next := Attach(vocab, grams, keep, rec, prev, st).value.value.1;
      && next.probs == st.probs + [rec.prob]
      && next.backoffs == st.backoffs + (if keep then [rec.backoff] else [])
      && |next.tokenIds| == |st.tokenIds| + 1 && next.tokenIds[..|st.tokenIds|] == st.tokenIds
      && FirstTokenId(vocab, rec, next.tokenIds[|st.tokenIds|])
  {
    var next := Attach(vocab, grams, keep, rec, prev, st).value.value.1;
    assert next.tokenIds[..|st.tokenIds|] == st.tokenIds;
  }

  /** The payloads of a record in front of others. */
  lemma RecordsCons(rec: P.ProbRecord, recs: seq<P.ProbRecord>)
    ensures RecordProbs([rec] + recs) == [rec.prob] + RecordProbs(recs)
    ensures RecordBackoffs([rec] + recs) == [rec.backoff] + RecordBackoffs(recs)
  {
  }

  /** The merge of an order reads the records of its file up to the end
      (or a line that is not text) and appends their probabilities and,
      when the order keeps them, their backoff weights, in file order. */
  lemma {:induction false} MergePayloads(vocab: S.SimpleVocabulary, grams: nat, keep: bool, curr: seq<seq<byte>>, prev: seq<seq<byte>>, st: ProbState)
    requires Merge(vocab, grams, keep, curr, prev, st).Returned? && Merge(vocab, grams, keep, curr, prev, st).value.Ok?
    ensures CollectProbs(curr).Ok?
    ensures var recs := CollectProbs(curr).value;
      var fin := Merge(vocab, grams, keep, curr, prev, st).value.value.1;
      && fin.probs == st.probs + RecordProbs(recs)
      && fin.backoffs == st.backoffs + (if keep then RecordBackoffs(recs) else [])
    decreases |curr|
  {
    var fin := Merge(vocab, grams, keep, curr, prev, st).value.value.1;
    if FirstProb(curr).Some? && FirstProb(curr).value.Ok? {
      var rec := FirstProb(curr).value.value;
      AttachContents(vocab, grams, keep, rec, prev, st);
      var (rest, next) := Attach(vocab, grams, keep, rec, prev, st).value.value;
      MergePayloads(vocab, grams, keep, curr[1..], rest, next);
      var tail := CollectProbs(curr[1..]).value;
      RecordsCons(rec, tail);
      Associative(st.probs, [rec.prob], RecordProbs(tail));
      if keep {
        Associative(st.backoffs, [rec.backoff], RecordBackoffs(tail));
      } else {
        assert st.backoffs + [] == st.backoffs;
      }
    } else {
      assert st.probs + [] == st.probs;
      assert st.backoffs + [] == st.backoffs;
    }
  }

  /** From index `n` on, `ids` holds the id of the first token of each
      record of `recs`, in order. */
  predicate TokensFrom(vocab: S.SimpleVocabulary, recs: seq<P.ProbRecord>, ids: seq<nat>, n: nat) {
    n + |recs| <= |ids| && forall i :: 0 <= i < |recs| ==> FirstTokenId(vocab, recs[i], ids[n + i])
  }

  /** A record's id in front of the ids of the records after it. */
  lemma ShiftTokens(vocab: S.SimpleVocabulary, rec: P.ProbRecord, tail: seq<P.ProbRecord>, ids: seq<nat>, n: nat)
    requires n < |ids| && FirstTokenId(vocab, rec, ids[n])
    requires TokensFrom(vocab, tail, ids, n + 1)
    ensures TokensFrom(vocab, [rec] + tail, ids, n)
  {
    forall i | 0 <= i < |tail| + 1
      ensures FirstTokenId(vocab, ([rec] + tail)[i], ids[n + i])
    {
      if i > 0 {
        assert ([rec] + tail)[i] == tail[i - 1];
        assert ids[n + i] == ids[n + 1 + (i - 1)];
      }
    }
  }

  /** `ids` starts with `before` and holds `n` ids more. */
  predicate TokensKept(ids: seq<nat>, before: seq<nat>, n: nat) {
    |ids| == |before| + n && ids[..|before|] == before
  }

  /** Ids kept over one step and then over `n` more are kept over all. */
  lemma TokensKeptStep(ids: seq<nat>, mid: seq<nat>, before: seq<nat>, n: nat)
    requires TokensKept(ids, mid, n) && TokensKept(mid, before, 1)
    ensures TokensKept(ids, before, n + 1)
  {
    assert ids[..|before|] == ids[..|mid|][..|before|];
  }

  /** A merge that succeeds keeps the token ids it started with and adds
      one per record of its file. */
  lemma {:induction false} MergeTokenCount(vocab: S.SimpleVocabulary, grams: nat, keep: bool, curr: seq<seq<byte>>, prev: seq<seq<byte>>, st: ProbState)
    requires Merge(vocab, grams, keep, curr, prev, st).Returned? && Merge(vocab, grams, keep, curr, prev, st).value.Ok?
    requires CollectProbs(curr).Ok?
    ensures TokensKept(Merge(vocab, grams, keep, curr, prev, st).value.value.1.tokenIds, st.tokenIds, |CollectProbs(curr).value|)
    decreases |curr|
  {
    if FirstProb(curr).Some? && FirstProb(curr).value.Ok? {
      var rec := FirstProb(curr).value.value;
      MergeOn(vocab, grams, keep, curr, prev, st);
      var (rest, next) := Attach(vocab, grams, keep, rec, prev, st).value.value;
      AttachContents(vocab, grams, keep, rec, prev, st);
      MergeTokenCount(vocab, grams, keep, curr[1..], rest, next);
      assert CollectProbs(curr) == Ok([rec] + CollectProbs(curr[1..]).value);
      TokensKeptStep(Merge(vocab, grams, keep, curr[1..], rest, next).value.value.1.tokenIds, next.tokenIds, st.tokenIds, |CollectProbs(curr[1..]).value|);
    } else {
      assert st.tokenIds[..|st.tokenIds|] == st.tokenIds;
    }
  }

  /** The merge of an order appends, for each record of its file in order,
      the id of the record's first token. */
  lemma {:induction false} MergeTokens(vocab: S.SimpleVocabulary, grams: nat, keep: bool, curr: seq<seq<byte>>, prev: seq<seq<byte>>, st: ProbState)
    requires Merge(vocab, grams, keep, curr, prev, st).Returned? && Merge(vocab, grams, keep, curr, prev, st).value.Ok?
    requires CollectProbs(curr).Ok?
    ensures TokensFrom(vocab, CollectProbs(curr).value, Merge(vocab, grams, keep, curr, prev, st).value.value.1.tokenIds, |st.tokenIds|)
    decreases |curr|
  {
    MergeTokenCount(vocab, grams, keep, curr, prev, st);
    if FirstProb(curr).Some? && FirstProb(curr).value.Ok? {
      var rec := FirstProb(curr).value.value;
      MergeOn(vocab, grams, keep, curr, prev, st);
      var (rest, next) := Attach(vocab, grams, keep, rec, prev, st).value.value;
      AttachContents(vocab, grams, keep, rec, prev, st);
      MergeTokens(vocab, grams, keep, curr[1..], rest, next);
      MergeTokenCount(vocab, grams, keep, curr[1..], rest, next);
      var tail := CollectProbs(curr[1..]).value;
      assert CollectProbs(curr) == Ok([rec] + tail);
      var fin := Merge(vocab, grams, keep, curr[1..], rest, next).value.value.1;
      var n := |st.tokenIds|;
      assert fin.tokenIds[n] == fin.tokenIds[..|next.tokenIds|][n] == next.tokenIds[n];
      ShiftTokens(vocab, rec, tail, fin.tokenIds, n);
    }
  }

  /** A level holds, in file order, the probabilities of the records of
      its file, and their backoff weights exactly when the order is below
      the highest. */
  lemma LevelPayloads(kind: TA.Kind, vocab: S.SimpleVocabulary, order: nat, maxOrder: nat, prevLoader: ProbLoader, currLoader: ProbLoader)
    requires SortedArrayOf(kind, vocab, order, maxOrder, prevLoader, currLoader).Returned?
    requires SortedArrayOf(kind, vocab, order, maxOrder, prevLoader, currLoader).value.Ok?
    ensures LoadProbs(currLoader).Ok?
    ensures var level := SortedArrayOf(kind, vocab, order, maxOrder, prevLoader, currLoader).value.value;
      var recs := LoadProbs(currLoader).value;
      && level.probs == RecordProbs(recs)
      && level.backoffs == (if order < maxOrder then Some(RecordBackoffs(recs)) else None)
  {
    var prev := prevLoader.value;
    var curr := currLoader.value;
    var keep := order < maxOrder;
    var first := FirstProb(prev).value.value;
    var st := ProbState(first.gram, 0, [0], [], [], []);
    var m := Merge(vocab, order + 1, keep, curr, prev[1..], st);
    MergePayloads(vocab, order + 1, keep, curr, prev[1..], st);
    var (rest, fin) := m.value.value;
    FinishedContents(kind, fin, rest, keep, CollectProbs(curr).value);
  }

  /** A level holds, in file order, the ids of the first tokens of the
      records of its file. */
  lemma LevelTokens(kind: TA.Kind, vocab: S.SimpleVocabulary, order: nat, maxOrder: nat, prevLoader: ProbLoader, currLoader: ProbLoader)
    requires SortedArrayOf(kind, vocab, order, maxOrder, prevLoader, currLoader).Returned?
    requires SortedArrayOf(kind, vocab, order, maxOrder, prevLoader, currLoader).value.Ok?
    ensures LoadProbs(currLoader).Ok?
    ensures var level := SortedArrayOf(kind, vocab, order, maxOrder, prevLoader, currLoader).value.value;
      var recs := LoadProbs(currLoader).value;
      && |level.layout.tokenIds| == |recs|
      && TokensFrom(vocab, recs, level.layout.tokenIds, 0)
  {
    var prev := prevLoader.value;
    var curr := currLoader.value;
    var keep := order < maxOrder;
    var first := FirstProb(prev).value.value;
    var st := ProbState(first.gram, 0, [0], [], [], []);
    var m := Merge(vocab, order + 1, keep, curr, prev[1..], st);
    MergePayloads(vocab, order + 1, keep, curr, prev[1..], st);
    MergeTokenCount(vocab, order + 1, keep, curr, prev[1..], st);
    MergeTokens(vocab, order + 1, keep, curr, prev[1..], st);
  }

  /** What `build_sorted_array` promises of the level `level` it makes for
      `order` of the files `prevLoader` and `currLoader`: pointers from 0,
      never decreasing, up to the number of records, one per line of the
      file below and one more when those are text; the id of each record's
      first token; the records' probabilities and, exactly below the
      highest order, their backoff weights; and the array `T::build` makes
      of those vectors. */
  predicate LevelBuilt(kind: TA.Kind, vocab: S.SimpleVocabulary, order: nat, maxOrder: nat, prevLoader: ProbLoader, currLoader: ProbLoader, level: ProbLevel) {
    && prevLoader.Ok? && LoadProbs(currLoader).Ok?
    && var recs := LoadProbs(currLoader).value;
       var (t, p) := (level.layout.tokenIds, level.layout.pointers);
       && |p| >= 2 && p[0] == 0 && NonDecreasing(p) && p[|p| - 1] == |t| == |recs|
       && (AllText(prevLoader.value) ==> |p| == |prevLoader.value| + 1)
       && TokensFrom(vocab, recs, t, 0)
       && level.probs == RecordProbs(recs)
       && level.backoffs == (if order < maxOrder then Some(RecordBackoffs(recs)) else None)
       && TA.Buildable(kind, t, p) && TA.Build(kind, t, p) == Returned(level.trie)
  }

  /** A level that `build_sorted_array` returns is what it promises. */
  lemma SortedArrayBuilt(kind: TA.Kind, vocab: S.SimpleVocabulary, order: nat, maxOrder: nat, prevLoader: ProbLoader, currLoader: ProbLoader)
    requires SortedArrayOf(kind, vocab, order, maxOrder, prevLoader, currLoader).Returned?
    requires SortedArrayOf(kind, vocab, order, maxOrder, prevLoader, currLoader).value.Ok?
    ensures LevelBuilt(kind, vocab, order, maxOrder, prevLoader, currLoader, SortedArrayOf(kind, vocab, order, maxOrder, prevLoader, currLoader).value.value)
  {
    LevelShape(kind, vocab, order, maxOrder, prevLoader, currLoader);
    LevelTokens(kind, vocab, order, maxOrder, prevLoader, currLoader);
    LevelPayloads(kind, vocab, order, maxOrder, prevLoader, currLoader);
    LevelKind(kind, vocab, order, maxOrder, prevLoader, currLoader);
  }

  /** The level a merge state ends in keeps its payloads and its token
      ids. */
  lemma FinishedContents(kind: TA.Kind, st: ProbState, rest: seq<seq<byte>>, keep: bool, recs: seq<P.ProbRecord>)
    requires st.probs == [] + RecordProbs(recs)
    requires st.backoffs == [] + (if keep then RecordBackoffs(recs) else [])
    requires Level(kind, st, rest, keep).Returned?
    ensures var level := Level(kind, st, rest, keep).value;
      && level.probs == RecordProbs(recs)
      && level.backoffs == (if keep then Some(RecordBackoffs(recs)) else None)
      && level.layout.tokenIds == st.tokenIds
  {
    LevelFromFields(kind, LayoutOf(st, rest), st.probs, if keep then Some(st.backoffs) else None);
    assert [] + RecordProbs(recs) == RecordProbs(recs);
    assert [] + RecordBackoffs(recs) == RecordBackoffs(recs);
  }

  // ---------------------------------------------------------------------
  // Incomplete data.

  /** Every line is a text line that reads as a record. */
  predicate AllRecords(lines: seq<seq<byte>>) {
    forall i :: 0 <= i < |lines| ==> ValidUtf8(lines[i]) && P.ProbLine(lines[i]).Ok?
  }

  /** No record among the lines has the gram `pattern`. */
  predicate Absent(lines: seq<seq<byte>>, pattern: seq<byte>) {
    forall i :: 0 <= i < |lines| ==> P.ProbLine(lines[i]).Ok? ==> P.ProbLine(lines[i]).value.gram != pattern
  }

  /** The lines after the first keep both properties, and the first line's
      record is the one the parser reads. */
  lemma RecordsTail(lines: seq<seq<byte>>, pattern: seq<byte>)
    requires AllRecords(lines) && lines != []
    ensures FirstProb(lines) == Some(P.ProbLine(lines[0])) && P.ProbLine(lines[0]).Ok?
    ensures AllRecords(lines[1..])
    ensures Absent(lines, pattern) <==> P.ProbLine(lines[0]).value.gram != pattern && Absent(lines[1..], pattern)
  {
    assert forall i :: 0 <= i < |lines| - 1 ==> lines[1..][i] == lines[i + 1];
    if P.ProbLine(lines[0]).value.gram != pattern && Absent(lines[1..], pattern) {
      forall i | 0 <= i < |lines| && P.ProbLine(lines[i]).Ok?
        ensures P.ProbLine(lines[i]).value.gram != pattern
      {
        if i > 0 {
          assert lines[i] == lines[1..][i - 1];
        }
      }
    }
  }

  /** On previous-order lines that are all records, the inner advance
      fails as incomplete exactly when the pattern is neither the gram it is
      at nor any gram after it, and succeeds otherwise. */
  lemma {:induction false} AdvanceIncomplete(grams: nat, prev: seq<seq<byte>>, gram: seq<byte>, pattern: seq<byte>, pointer: nat, pointers: seq<nat>)
    requires AllRecords(prev)
    ensures Advance(grams, prev, gram, pattern, pointer, pointers) == Err(Incomplete(grams)) <==> gram != pattern && Absent(prev, pattern)
    ensures Advance(grams, prev, gram, pattern, pointer, pointers).Ok? <==> !(gram != pattern && Absent(prev, pattern))
    decreases |prev|
  {
    if pattern != gram && prev != [] {
      RecordsTail(prev, pattern);
      AdvanceIncomplete(grams, prev[1..], P.ProbLine(prev[0]).value.gram, pattern, pointer, pointers + [pointer]);
    }
  }

  /** When the previous-order file is all records and the pattern of the
      first record of the order (its gram without the first token) is not
      among them, the level fails as incomplete data of its order. */
  lemma LevelIncomplete(kind: TA.Kind, vocab: S.SimpleVocabulary, order: nat, maxOrder: nat, prev: seq<seq<byte>>, curr: seq<seq<byte>>)
    requires prev != [] && AllRecords(prev)
    requires curr != [] && ValidUtf8(curr[0]) && P.ProbLine(curr[0]).Ok?
    requires PopFrontToken(P.ProbLine(curr[0]).value.gram).Some?
    requires Absent(prev, PopFrontToken(P.ProbLine(curr[0]).value.gram).value.1)
    ensures SortedArrayOf(kind, vocab, order, maxOrder, Ok(prev), Ok(curr)) == Returned(Err(Incomplete(order + 1)))
  {
    var rec := P.ProbLine(curr[0]).value;
    var pattern := PopFrontToken(rec.gram).value.1;
    RecordsTail(prev, pattern);
    var first := P.ProbLine(prev[0]).value;
    AdvanceIncomplete(order + 1, prev[1..], first.gram, pattern, 0, [0]);
  }
}
