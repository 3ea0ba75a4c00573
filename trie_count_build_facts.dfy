/** What a count-trie build guarantees about what it returns: every level's
    pointers start at 0, never decrease, end at the number of grams of the
    level and are at least one more than the grams of the order below; the
    count ranks and token ids of a level are those of the records of its
    file, in file order; and on files whose grams each extend a gram of the
    order below, in the order of those grams, the pointers of a gram of the
    order below delimit exactly the grams that extend it. */
module TrieCountLmBuildFacts {
  import opened Common
  import opened PointerGroups
  import opened ParserStreams
  import opened TrieCountLmBuilder
  import P = Parser
  import G = Gram
  import S = SimpleVocabulary
  import SA = SortedArray

  // ---------------------------------------------------------------------
  // Shape of the pointers.

  /** A merge state whose pointers can end a level: they start at 0, never
      decrease and stay at most the number of grams so far, one token id and
      one count rank per gram. */
  predicate Wf(st: MergeState) {
    && |st.pointers| > 0
    && st.pointers[0] == 0
    && NonDecreasing(st.pointers)
    && st.pointers[|st.pointers| - 1] <= st.pointer
    && st.pointer == |st.tokenIds| == |st.countRanks|
  }

  /** The inner advance consumes at most as many previous-order answers as
      it pushes pointers. */
  lemma {:induction false} AdvanceCount(prev: seq<Answer>, gram: seq<byte>, pattern: seq<byte>, pointer: nat, pointers: seq<nat>)
    requires Advance(prev, gram, pattern, pointer, pointers).Ok?
    ensures var (rest, _, pushed) := Advance(prev, gram, pattern, pointer, pointers).value;
      |pointers| + TailCount(prev) <= |pushed| + TailCount(rest)
    decreases |prev|
  {
    if pattern != gram && !(prev == [] || prev[0].None?) {
      AdvanceCount(prev[1..], prev[0].value.value.gram, pattern, pointer, pointers + [pointer]);
    }
  }

  /** Attaching a record keeps a merge state well formed, counts one more
      gram, and keeps the pointers and the pending previous-order answers
      from losing ground. */
  lemma AttachShape(vocab: S.SimpleVocabulary, ranks: map<nat, nat>, rec: P.CountRecord, prev: seq<Answer>, st: MergeState)
    requires Wf(st)
    requires Attach(vocab, ranks, rec, prev, st).Returned? && Attach(vocab, ranks, rec, prev, st).value.Ok?
    ensures var (rest, next) := Attach(vocab, ranks, rec, prev, st).value.value;
      && Wf(next) && next.pointer == st.pointer + 1
      && |st.pointers| + TailCount(prev) <= |next.pointers| + TailCount(rest)
  {
    var (pattern, token) := G.PopToken(rec.gram).value;
    var (rest, gram, pushed) := Advance(prev, st.prevGram, pattern, st.pointer, st.pointers).value;
    PushedShape(st.pointers, pushed, st.pointer);
    AdvanceCount(prev, st.prevGram, pattern, st.pointer, st.pointers);
  }

  /** The merge of a whole order keeps the state well formed. */
  lemma {:induction false} MergeShape(vocab: S.SimpleVocabulary, ranks: map<nat, nat>, curr: seq<Answer>, prev: seq<Answer>, st: MergeState)
    requires Wf(st)
    requires Merge(vocab, ranks, curr, prev, st).Returned? && Merge(vocab, ranks, curr, prev, st).value.Ok?
    ensures var (rest, fin) := Merge(vocab, ranks, curr, prev, st).value.value;
      && Wf(fin) && st.pointer <= fin.pointer
      && |st.pointers| + TailCount(prev) <= |fin.pointers| + TailCount(rest)
    decreases |curr|
  {
    if !(curr == [] || curr[0].None?) {
      var rec := curr[0].value.value;
      AttachShape(vocab, ranks, rec, prev, st);
      var (rest, next) := Attach(vocab, ranks, rec, prev, st).value.value;
      MergeShape(vocab, ranks, curr[1..], rest, next);
    }
  }

  /** A file whose records all load has one answer before the end per
      record. */
  lemma {:induction false} CollectCount(answers: seq<Answer>)
    requires P.Collect(answers).Ok?
    ensures |P.Collect(answers).value| == TailCount(answers)
    decreases |answers|
  {
    if !(answers == [] || answers[0].None?) {
      CollectCount(answers[1..]);
    }
  }

  /** A level that builds has pointers that start at 0, never decrease and
      end at its number of grams, one token id and one count rank per gram,
      and one pointer more than the grams of the order below, at least;
      `range(pos)` is therefore defined for every gram of the order below. */
  lemma LevelShape(vocab: S.SimpleVocabulary, ranks: map<nat, nat>, prevLoader: Loader, currLoader: Loader)
    requires SortedArrayOf(vocab, ranks, prevLoader, currLoader).Returned?
    requires SortedArrayOf(vocab, ranks, prevLoader, currLoader).value.Ok?
    ensures var a := SortedArrayOf(vocab, ranks, prevLoader, currLoader).value.value;
      && |a.pointers| >= 2 && a.pointers[0] == 0 && NonDecreasing(a.pointers)
      && a.pointers[|a.pointers| - 1] == |a.tokenIds.grams| == |a.countRanks|
      && (Load(prevLoader).Ok? ==> |Load(prevLoader).value| + 1 <= |a.pointers|)
  {
    var prev := prevLoader.value;
    var first := prev[0].value.value;
    var st := MergeState(first.gram, 0, [0], [], []);
    var curr := currLoader.value;
    MergeShape(vocab, ranks, curr, prev[1..], st);
    var (rest, fin) := Merge(vocab, ranks, curr, prev[1..], st).value.value;
    var a := SortedArrayOf(vocab, ranks, prevLoader, currLoader).value.value;
    var tail := Repeat(fin.pointer, TailCount(rest));
    assert a.pointers == fin.pointers + tail + [fin.pointer];
    PushedShape(fin.pointers, fin.pointers + tail, fin.pointer);
    PushedShape(fin.pointers + tail, a.pointers, fin.pointer);
    if Load(prevLoader).Ok? {
      CollectCount(prev);
    }
  }

  // ---------------------------------------------------------------------
  // Contents of the levels.

  /** `id` is what the vocabulary gives for the last token of `rec`'s gram. */
  predicate LastTokenId(vocab: S.SimpleVocabulary, rec: P.CountRecord, id: nat) {
    G.PopToken(rec.gram).Some? && S.Get(vocab, G.PopToken(rec.gram).value.1) == Returned(Some(id))
  }

  /** Attaching a record adds the rank of its count and the id of its last
      token. */
  lemma AttachRecord(vocab: S.SimpleVocabulary, ranks: map<nat, nat>, rec: P.CountRecord, prev: seq<Answer>, st: MergeState)
    requires Attach(vocab, ranks, rec, prev, st).Returned? && Attach(vocab, ranks, rec, prev, st).value.Ok?
    ensures var next := Attach(vocab, ranks, rec, prev, st).value.value.1;
      && rec.count in ranks
      && next.countRanks == st.countRanks + [ranks[rec.count]]
      && |next.tokenIds| == |st.tokenIds| + 1
      && (forall k :: 0 <= k < |st.tokenIds| ==> next.tokenIds[k] == st.tokenIds[k])
      && LastTokenId(vocab, rec, next.tokenIds[|st.tokenIds|])
  {
  }

  lemma ConcatAssoc(a: seq<nat>, b: seq<nat>, c: seq<nat>)
    ensures (a + b) + c == a + (b + c)
  {
  }

  /** The ranks of one more record in front. */
  lemma RanksCons(rec: P.CountRecord, tail: seq<P.CountRecord>, ranks: map<nat, nat>)
    requires rec.count in ranks && AllRanked(tail, ranks)
    ensures AllRanked([rec] + tail, ranks)
    ensures RanksOf([rec] + tail, ranks) == [ranks[rec.count]] + RanksOf(tail, ranks)
  {
    var recs := [rec] + tail;
    assert forall i :: 1 <= i < |recs| ==> recs[i] == tail[i - 1];
  }

  /** A merge that succeeds has read the whole file of its order, and added
      the ranks of the records' counts, in order. */
  lemma {:induction false} MergeRanks(vocab: S.SimpleVocabulary, ranks: map<nat, nat>, curr: seq<Answer>, prev: seq<Answer>, st: MergeState)
    requires Merge(vocab, ranks, curr, prev, st).Returned? && Merge(vocab, ranks, curr, prev, st).value.Ok?
    ensures P.Collect(curr).Ok?
    ensures AllRanked(P.Collect(curr).value, ranks)
    ensures Merge(vocab, ranks, curr, prev, st).value.value.1.countRanks == st.countRanks + RanksOf(P.Collect(curr).value, ranks)
    decreases |curr|
  {
    if curr == [] || curr[0].None? {
      assert st.countRanks + RanksOf([], ranks) == st.countRanks;
    } else {
      var rec := curr[0].value.value;
      var (rest, next) := Attach(vocab, ranks, rec, prev, st).value.value;
      AttachRecord(vocab, ranks, rec, prev, st);
      MergeRanks(vocab, ranks, curr[1..], rest, next);
      var tail := P.Collect(curr[1..]).value;
      var recs := [rec] + tail;
      assert P.Collect(curr) == Ok(recs);
      RanksCons(rec, tail, ranks);
      assert Merge(vocab, ranks, curr, prev, st) == Merge(vocab, ranks, curr[1..], rest, next);
      var fin := Merge(vocab, ranks, curr[1..], rest, next).value.value.1;
      assert fin.countRanks == next.countRanks + RanksOf(tail, ranks);
      assert next.countRanks == st.countRanks + [ranks[rec.count]];
      ConcatAssoc(st.countRanks, [ranks[rec.count]], RanksOf(tail, ranks));
    }
  }

  /** From index `n` on, `ids` holds the id of the last token of each
      record of `recs`, in order. */
  predicate TokensFrom(vocab: S.SimpleVocabulary, recs: seq<P.CountRecord>, ids: seq<nat>, n: nat) {
    n + |recs| <= |ids| && forall i :: 0 <= i < |recs| ==> LastTokenId(vocab, recs[i], ids[n + i])
  }

  /** A record's id in front of the ids of the records after it. */
  lemma ShiftTokens(vocab: S.SimpleVocabulary, rec: P.CountRecord, tail: seq<P.CountRecord>, ids: seq<nat>, n: nat)
    requires n < |ids| && LastTokenId(vocab, rec, ids[n])
    requires TokensFrom(vocab, tail, ids, n + 1)
    ensures TokensFrom(vocab, [rec] + tail, ids, n)
  {
    forall i | 0 <= i < |tail| + 1
      ensures LastTokenId(vocab, ([rec] + tail)[i], ids[n + i])
    {
      if i > 0 {
        assert ([rec] + tail)[i] == tail[i - 1];
        assert ids[n + i] == ids[n + 1 + (i - 1)];
      }
    }
  }

  /** A merge that succeeds keeps the token ids it started with and adds one
      per record of its file. */
  lemma {:induction false} MergeTokenCount(vocab: S.SimpleVocabulary, ranks: map<nat, nat>, curr: seq<Answer>, prev: seq<Answer>, st: MergeState)
    requires Merge(vocab, ranks, curr, prev, st).Returned? && Merge(vocab, ranks, curr, prev, st).value.Ok?
    requires P.Collect(curr).Ok?
    ensures var fin := Merge(vocab, ranks, curr, prev, st).value.value.1;
      && |fin.tokenIds| == |st.tokenIds| + |P.Collect(curr).value|
      && (forall k :: 0 <= k < |st.tokenIds| ==> fin.tokenIds[k] == st.tokenIds[k])
    decreases |curr|
  {
    if !(curr == [] || curr[0].None?) {
      var rec := curr[0].value.value;
      var (rest, next) := Attach(vocab, ranks, rec, prev, st).value.value;
      AttachRecord(vocab, ranks, rec, prev, st);
      assert Merge(vocab, ranks, curr, prev, st) == Merge(vocab, ranks, curr[1..], rest, next);
      MergeTokenCount(vocab, ranks, curr[1..], rest, next);
      assert P.Collect(curr) == Ok([rec] + P.Collect(curr[1..]).value);
    }
  }

  /** A merge that succeeds has added, for each record of its file in order,
      the id of its last token. */
  lemma {:induction false} MergeTokens(vocab: S.SimpleVocabulary, ranks: map<nat, nat>, curr: seq<Answer>, prev: seq<Answer>, st: MergeState)
    requires Merge(vocab, ranks, curr, prev, st).Returned? && Merge(vocab, ranks, curr, prev, st).value.Ok?
    requires P.Collect(curr).Ok?
    ensures var fin := Merge(vocab, ranks, curr, prev, st).value.value.1;
      |fin.tokenIds| == |st.tokenIds| + |P.Collect(curr).value|
      && TokensFrom(vocab, P.Collect(curr).value, fin.tokenIds, |st.tokenIds|)
    decreases |curr|
  {
    MergeTokenCount(vocab, ranks, curr, prev, st);
    if !(curr == [] || curr[0].None?) {
      var rec := curr[0].value.value;
      var (rest, next) := Attach(vocab, ranks, rec, prev, st).value.value;
      AttachRecord(vocab, ranks, rec, prev, st);
      assert Merge(vocab, ranks, curr, prev, st) == Merge(vocab, ranks, curr[1..], rest, next);
      MergeTokens(vocab, ranks, curr[1..], rest, next);
      MergeTokenCount(vocab, ranks, curr[1..], rest, next);
      var tail := P.Collect(curr[1..]).value;
      assert P.Collect(curr) == Ok([rec] + tail);
      var fin := Merge(vocab, ranks, curr[1..], rest, next).value.value.1;
      var n := |st.tokenIds|;
      assert fin.tokenIds[n] == next.tokenIds[n];
      ShiftTokens(vocab, rec, tail, fin.tokenIds, n);
    }
  }

  /** A level that builds holds, for each record of its file in order, the
      rank of its count and the id of its gram's last token. */
  lemma LevelRecords(vocab: S.SimpleVocabulary, ranks: map<nat, nat>, prevLoader: Loader, currLoader: Loader)
    requires SortedArrayOf(vocab, ranks, prevLoader, currLoader).Returned?
    requires SortedArrayOf(vocab, ranks, prevLoader, currLoader).value.Ok?
    ensures Load(currLoader).Ok?
    ensures var a := SortedArrayOf(vocab, ranks, prevLoader, currLoader).value.value;
      var recs := Load(currLoader).value;
      && AllRanked(recs, ranks)
      && a.countRanks == RanksOf(recs, ranks)
      && |a.tokenIds.grams| == |recs|
      && forall i :: 0 <= i < |recs| ==> LastTokenId(vocab, recs[i], a.tokenIds.grams[i])
  {
    var prev := prevLoader.value;
    var first := prev[0].value.value;
    var st := MergeState(first.gram, 0, [0], [], []);
    MergeRanks(vocab, ranks, currLoader.value, prev[1..], st);
    MergeTokens(vocab, ranks, currLoader.value, prev[1..], st);
    assert [] + RanksOf(Load(currLoader).value, ranks) == RanksOf(Load(currLoader).value, ranks);
  }

  // ---------------------------------------------------------------------
  // Files that fit together.

  /** `rec` is a gram that extends `prefix` by one token the vocabulary
      knows, and its count has a rank. */
  predicate Extends(vocab: S.SimpleVocabulary, ranks: map<nat, nat>, rec: P.CountRecord, prefix: seq<byte>) {
    && G.PopToken(rec.gram).Some?
    && G.PopToken(rec.gram).value.0 == prefix
    && S.Get(vocab, G.PopToken(rec.gram).value.1).Returned?
    && S.Get(vocab, G.PopToken(rec.gram).value.1).value.Some?
    && rec.count in ranks
  }

  /** The records of an order (`currs`) and of the order below (`prevs`, with
      distinct grams) fit together when each gram of the order extends the
      gram of the order below at its index in `parent`, and these indices
      never go down along the file. */
  predicate Nested(vocab: S.SimpleVocabulary, ranks: map<nat, nat>, prevs: seq<P.CountRecord>, currs: seq<P.CountRecord>, parent: seq<nat>) {
    && Parents(prevs, parent, |currs|)
    && forall i :: 0 <= i < |currs| ==> ExtendsAt(vocab, ranks, prevs, currs, parent, i)
  }

  /** The `i`-th gram of the order extends its parent. */
  predicate ExtendsAt(vocab: S.SimpleVocabulary, ranks: map<nat, nat>, prevs: seq<P.CountRecord>, currs: seq<P.CountRecord>, parent: seq<nat>, i: nat) {
    i < |currs| && i < |parent| && parent[i] < |prevs| && Extends(vocab, ranks, currs[i], prevs[parent[i]].gram)
  }

  /** `parent` gives `n` grams indices, never going down, into records with
      distinct grams. */
  predicate Parents(prevs: seq<P.CountRecord>, parent: seq<nat>, n: nat) {
    && |prevs| > 0
    && Distinct(Grams(prevs))
    && |parent| == n
    && NonDecreasing(parent)
    && forall i :: 0 <= i < n ==> parent[i] < |prevs|
  }

  /** The index of the gram of the order below the merge is at once it has
      attached the first `i` grams. */
  function At(parent: seq<nat>, i: nat): nat
    requires i <= |parent|
  {
    if i == 0 then 0 else parent[i - 1]
  }

  /** On nested files every index so far is at most the current one. */
  lemma AtBounds(parent: seq<nat>, i: nat)
    requires NonDecreasing(parent) && i <= |parent|
    ensures forall k :: 0 <= k < i ==> parent[k] <= At(parent, i)
    ensures i < |parent| ==> At(parent, i) <= parent[i]
  {
  }

  /** The inner advance, on delivered records, walks from gram `c` to the
      first gram equal to the pattern, pushing one pointer per gram left. */
  lemma {:induction false} AdvanceRun(prevs: seq<P.CountRecord>, c: nat, p: nat, pointer: nat, pointers: seq<nat>)
    requires c <= p < |prevs|
    requires forall k :: c <= k < p ==> prevs[k].gram != prevs[p].gram
    ensures Advance(P.Delivered(prevs)[c + 1..], prevs[c].gram, prevs[p].gram, pointer, pointers)
      == Ok((P.Delivered(prevs)[p + 1..], prevs[p].gram, pointers + Repeat(pointer, p - c)))
    decreases p - c
  {
    var d := P.Delivered(prevs);
    if c < p {
      assert d[c + 1..][0] == Some(Ok(prevs[c + 1]));
      assert d[c + 1..][1..] == d[c + 2..];
      AdvanceRun(prevs, c + 1, p, pointer, pointers + [pointer]);
      assert pointers + [pointer] + Repeat(pointer, p - (c + 1)) == pointers + Repeat(pointer, p - c);
    } else {
      assert pointers + Repeat(pointer, 0) == pointers;
    }
  }

  /** `a` is an attach or merge that returned, leaving `rest` of the order
      below, at `gram`, with `pointer` grams and the pointers `pointers`. */
  predicate Lands(a: Outcome<Result<(seq<Answer>, MergeState), P.ParseError>>, rest: seq<Answer>, gram: seq<byte>, pointer: nat, pointers: seq<nat>) {
    && a.Returned? && a.value.Ok?
    && a.value.value.0 == rest
    && a.value.value.1.prevGram == gram
    && a.value.value.1.pointer == pointer
    && a.value.value.1.pointers == pointers
  }

  /** Once the inner advance reaches the prefix of a gram that extends it,
      the record attaches where the advance stopped. */
  lemma AttachAfterAdvance(vocab: S.SimpleVocabulary, ranks: map<nat, nat>, rec: P.CountRecord, prev: seq<Answer>, st: MergeState, rest: seq<Answer>, gram: seq<byte>, pointers: seq<nat>)
    requires G.PopToken(rec.gram).Some? && Extends(vocab, ranks, rec, G.PopToken(rec.gram).value.0)
    requires Advance(prev, st.prevGram, G.PopToken(rec.gram).value.0, st.pointer, st.pointers) == Ok((rest, gram, pointers))
    ensures Lands(Attach(vocab, ranks, rec, prev, st), rest, gram, st.pointer + 1, pointers)
  {
  }

  /** The merge is where it is once it has attached the first `i` grams of
      nested files: what is left of the order below starts after the `i`-th
      parent, and the state is at that parent's gram, with `i` grams and their
      pointers so far. */
  predicate Before(prevs: seq<P.CountRecord>, parent: seq<nat>, i: nat, prev: seq<Answer>, st: MergeState) {
    && i <= |parent|
    && At(parent, i) < |prevs|
    && prev == P.Delivered(prevs)[At(parent, i) + 1..]
    && st.prevGram == prevs[At(parent, i)].gram
    && st.pointer == i
    && st.pointers == PointersOf(parent[..i], At(parent, i))
  }

  /** One step of the merge of nested files. */
  lemma AttachHappy(vocab: S.SimpleVocabulary, ranks: map<nat, nat>, prevs: seq<P.CountRecord>, rec: P.CountRecord, parent: seq<nat>, i: nat, prev: seq<Answer>, st: MergeState)
    requires i < |parent| && Parents(prevs, parent, |parent|)
    requires Extends(vocab, ranks, rec, prevs[parent[i]].gram)
    requires Before(prevs, parent, i, prev, st)
    ensures Lands(Attach(vocab, ranks, rec, prev, st), P.Delivered(prevs)[parent[i] + 1..], prevs[parent[i]].gram, i + 1, PointersOf(parent[..i + 1], parent[i]))
  {
    var c := At(parent, i);
    var p := parent[i];
    AtBounds(parent, i);
    forall k | c <= k < p
      ensures prevs[k].gram != prevs[p].gram
    {
      assert Grams(prevs)[k] != Grams(prevs)[p];
    }
    AdvanceRun(prevs, c, p, i, st.pointers);
    PointersExtend(parent[..i], c, p);
    PointersAppend(parent[..i], p, p);
    assert parent[..i] + [p] == parent[..i + 1];
    AttachAfterAdvance(vocab, ranks, rec, prev, st, P.Delivered(prevs)[p + 1..], prevs[p].gram, PointersOf(parent[..i + 1], p));
  }

  /** A record that attaches hands the merge on to the next record: where
      the merge of the rest lands, the whole merge lands. */
  lemma MergeAfterAttach(vocab: S.SimpleVocabulary, ranks: map<nat, nat>, curr: seq<Answer>, prev: seq<Answer>, st: MergeState, rec: P.CountRecord,
                         rest: seq<Answer>, gram: seq<byte>, pointer: nat, pointers: seq<nat>)
    requires curr != [] && curr[0] == Some(Ok(rec))
    requires Attach(vocab, ranks, rec, prev, st).Returned? && Attach(vocab, ranks, rec, prev, st).value.Ok?
    requires Lands(Merge(vocab, ranks, curr[1..], Attach(vocab, ranks, rec, prev, st).value.value.0, Attach(vocab, ranks, rec, prev, st).value.value.1), rest, gram, pointer, pointers)
    ensures Lands(Merge(vocab, ranks, curr, prev, st), rest, gram, pointer, pointers)
  {
  }

  /** The rest of the merge of nested files, from the `i`-th gram on, with any
      token ids and count ranks so far. */
  lemma {:induction false} MergeHappy(vocab: S.SimpleVocabulary, ranks: map<nat, nat>, prevs: seq<P.CountRecord>, currs: seq<P.CountRecord>, parent: seq<nat>, i: nat, curr: seq<Answer>, prev: seq<Answer>, st: MergeState)
    requires Nested(vocab, ranks, prevs, currs, parent) && i <= |currs|
    requires curr == P.Delivered(currs)[i..] && Before(prevs, parent, i, prev, st)
    ensures At(parent, |currs|) < |prevs|
    ensures Lands(Merge(vocab, ranks, curr, prev, st), P.Delivered(prevs)[At(parent, |currs|) + 1..], prevs[At(parent, |currs|)].gram, |currs|, PointersOf(parent, At(parent, |currs|)))
    decreases |currs| - i, 1
  {
    if i == |currs| {
      assert curr == [];
      assert parent[..i] == parent;
    } else {
      MergeHappyStep(vocab, ranks, prevs, currs, parent, i, curr, prev, st);
    }
  }

  /** The merge of nested files attaches the `i`-th gram and goes on. */
  lemma {:induction false} MergeHappyStep(vocab: S.SimpleVocabulary, ranks: map<nat, nat>, prevs: seq<P.CountRecord>, currs: seq<P.CountRecord>, parent: seq<nat>, i: nat, curr: seq<Answer>, prev: seq<Answer>, st: MergeState)
    requires Nested(vocab, ranks, prevs, currs, parent) && i < |currs|
    requires curr == P.Delivered(currs)[i..] && Before(prevs, parent, i, prev, st)
    ensures At(parent, |currs|) < |prevs|
    ensures Lands(Merge(vocab, ranks, curr, prev, st), P.Delivered(prevs)[At(parent, |currs|) + 1..], prevs[At(parent, |currs|)].gram, |currs|, PointersOf(parent, At(parent, |currs|)))
    decreases |currs| - i, 0
  {
    var a := Attach(vocab, ranks, currs[i], prev, st);
    assert curr[0] == Some(Ok(currs[i]));
    assert a.Returned? && a.value.Ok? && Before(prevs, parent, i + 1, a.value.value.0, a.value.value.1) by {
      assert ExtendsAt(vocab, ranks, prevs, currs, parent, i);
      AttachHappy(vocab, ranks, prevs, currs[i], parent, i, prev, st);
      assert At(parent, i + 1) == parent[i];
    }
    assert curr[1..] == P.Delivered(currs)[i + 1..];
    MergeHappy(vocab, ranks, prevs, currs, parent, i + 1, curr[1..], a.value.value.0, a.value.value.1);
    var fin := At(parent, |currs|);
    MergeAfterAttach(vocab, ranks, curr, prev, st, currs[i], P.Delivered(prevs)[fin + 1..], prevs[fin].gram, |currs|, PointersOf(parent, fin));
  }

  /** What the previous-order loop `for _ in prev_gp` still meets of delivered
      records from `j` on. */
  lemma {:induction false} TailCountDelivered(recs: seq<P.CountRecord>, j: nat)
    requires j <= |recs|
    ensures TailCount(P.Delivered(recs)[j..]) == |recs| - j
    decreases |recs| - j
  {
    if j < |recs| {
      assert P.Delivered(recs)[j..][1..] == P.Delivered(recs)[j + 1..];
      TailCountDelivered(recs, j + 1);
    }
  }

  /** On nested files the level builds, and its pointers are those of the
      parent indices: the grams extending the `j`-th gram of the order below
      are exactly those from pointer `j` up to pointer `j + 1`. */
  lemma HappyLevel(vocab: S.SimpleVocabulary, ranks: map<nat, nat>, prevs: seq<P.CountRecord>, currs: seq<P.CountRecord>, parent: seq<nat>)
    requires Nested(vocab, ranks, prevs, currs, parent)
    ensures var a := SortedArrayOf(vocab, ranks, Ok(P.Delivered(prevs)), Ok(P.Delivered(currs)));
      && a.Returned? && a.value.Ok?
      && a.value.value.pointers == PointersOf(parent, |prevs|)
      && forall j, i :: 0 <= j < |prevs| && 0 <= i < |currs| ==>
           (a.value.value.pointers[j] <= i < a.value.value.pointers[j + 1] <==> parent[i] == j)
  {
    var prev := P.Delivered(prevs);
    var curr := P.Delivered(currs);
    var n := |currs|;
    assert Parents(prevs, parent, n);
    assert prev[0] == Some(Ok(prevs[0]));
    assert parent[..0] == [];
    assert PointersOf([], 0) == [0];
    assert curr[0..] == curr;
    var st := MergeState(prevs[0].gram, 0, [0], [], []);
    MergeHappy(vocab, ranks, prevs, currs, parent, 0, curr, prev[1..], st);
    var m := Merge(vocab, ranks, curr, prev[1..], st);
    assert m.Returned? && m.value.Ok?;
    var c := At(parent, n);
    var (rest, fin) := m.value.value;
    assert SortedArrayOf(vocab, ranks, Ok(prev), Ok(curr)) == Returned(Ok(Level(fin, rest)));
    TailCountDelivered(prevs, c + 1);
    AtBounds(parent, n);
    var k := |prevs| - (c + 1);
    RepeatOneMore(n, k);
    ConcatAssoc(fin.pointers, Repeat(n, k), [n]);
    PointersExtend(parent, c, |prevs|);
    assert Level(fin, rest).pointers == PointersOf(parent, |prevs|);
    PointersGroup(parent, |prevs|);
  }
}
