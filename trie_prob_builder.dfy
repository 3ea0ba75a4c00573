/** `TrieProbLmBuilder`: builds the backward trie of a language model from
    one file of probabilities (and backoff weights) per order. It reads the
    unigram file into the vocabulary and the unigram payloads, and then, for
    each higher order, merges the file of that order with the file below
    it. In a backward trie a gram is split into its first token and the
    rest (the pattern); the pattern is a gram of the order below, and the
    merge walks the file below until it reaches it.

    The probabilities and backoff weights are kept as the text of their
    fields: the builder moves them around and never computes with them.

    Each file is given by the lines its parser still reads, one per call
    (`ProbLoader`); both `next_prob_record` and `next_count_record` are
    called on the same parser, and each consumes one line.

    The builder is generic in its trie array `T`; a `TrieArray.Kind` names
    the implementation, and each level is what `T::build` makes of the
    token ids and pointers of the merge. */
module TrieProbLmBuilder {
  import opened Common
  import opened Utf8
  import opened PointerGroups
  import P = Parser
  import G = Gram
  import S = SimpleVocabulary
  import ST = SimpleTrieArray
  import TA = TrieArray

  /** What `loader.parser()` gives: the header's error, or the lines the
      parser reads, call after call, before it answers `None` for good. */
  type ProbLoader = Result<seq<seq<byte>>, P.ParseError>

  /** The loader of a file's bytes. */
  function FileLines(text: seq<byte>): ProbLoader {
    match P.ParseHeader(text)
    case Err(e) => Err(e)
    case Ok((n, rest)) => Ok(P.Lines(rest, n))
  }

  /** What `next_prob_record` answers on the lines left: `None` at the end
      and on a line that is not UTF-8, else the line's record or error. */
  function FirstProb(lines: seq<seq<byte>>): (r: Option<Result<P.ProbRecord, P.ParseError>>)
    ensures r.Some? ==> lines != []
  {
    if lines == [] || !ValidUtf8(lines[0]) then None else Some(P.ProbLine(lines[0]))
  }

  /** What `next_count_record` answers on the lines left. */
  function FirstCount(lines: seq<seq<byte>>): (r: Option<Result<P.CountRecord, P.ParseError>>)
    ensures r.Some? ==> lines != []
  {
    if lines == [] then None else P.CountAnswer(lines[0])
  }

  /** The lines left after one call. */
  function Drop(lines: seq<seq<byte>>): seq<seq<byte>> {
    if lines == [] then [] else lines[1..]
  }

  /** The lines a `GramsParser` still has to read. */
  function RemainingLines(p: P.GramsParser): seq<seq<byte>>
    reads p
  {
    if p.numParsed >= p.numGrams then [] else P.Lines(p.input, p.numGrams - p.numParsed)
  }

  /** `GramsParser::new` on a file: it fails exactly when the loader does,
      and otherwise has the loader's lines to read. */
  method OpenFile(text: seq<byte>) returns (r: Result<P.GramsParser, P.ParseError>)
    ensures r.Ok? <==> FileLines(text).Ok?
    ensures r.Err? ==> r.error == FileLines(text).error
    ensures r.Ok? ==> fresh(r.value) && RemainingLines(r.value) == FileLines(text).value
  {
    r := P.GramsParser.New(text);
    if r.Ok? {
      var (n, rest) := P.ParseHeader(text).value;
      if n == 0 {
        assert P.Lines(rest, n) == [];
      }
    }
  }

  /** The line one call reads, and the lines it leaves. */
  lemma RemainingStep(input: seq<byte>, left: nat)
    requires left > 0
    ensures P.Lines(input, left) == [P.ReadLine(input).0] + P.Lines(P.ReadLine(input).1, left - 1)
  {
  }

  /** `next_prob_record` on a `GramsParser` answers for the first line left
      and leaves the others. */
  method ReadProb(p: P.GramsParser) returns (r: Option<Result<P.ProbRecord, P.ParseError>>)
    modifies p
    ensures r == FirstProb(old(RemainingLines(p)))
    ensures RemainingLines(p) == Drop(old(RemainingLines(p)))
  {
    ghost var left := p.numGrams - p.numParsed;
    ghost var input := p.input;
    r := p.NextProbRecord();
    if left > 0 {
      RemainingStep(input, left);
    }
  }

  /** `next_count_record` on a `GramsParser` answers for the first line left
      and leaves the others. */
  method ReadCount(p: P.GramsParser) returns (r: Option<Result<P.CountRecord, P.ParseError>>)
    modifies p
    ensures r == FirstCount(old(RemainingLines(p)))
    ensures RemainingLines(p) == Drop(old(RemainingLines(p)))
  {
    ghost var left := p.numGrams - p.numParsed;
    ghost var input := p.input;
    r := p.NextCountRecord();
    if left > 0 {
      RemainingStep(input, left);
    }
  }

  /** A parser seen through the lines it still reads. */
  class LineParser {
    var rest: seq<seq<byte>>

    /** `loader.parser()`. */
    constructor Over(lines: seq<seq<byte>>)
      ensures rest == lines
    {
      rest := lines;
    }

    /** `next_prob_record()`. */
    method NextProb() returns (r: Option<Result<P.ProbRecord, P.ParseError>>)
      modifies this
      ensures r == FirstProb(old(rest)) && rest == Drop(old(rest))
    {
      r := FirstProb(rest);
      rest := Drop(rest);
    }

    /** `next_count_record()`. */
    method NextCount() returns (r: Option<Result<P.CountRecord, P.ParseError>>)
      modifies this
      ensures r == FirstCount(old(rest)) && rest == Drop(old(rest))
    {
      r := FirstCount(rest);
      rest := Drop(rest);
    }
  }

  /** Opening a loader: its error, or a parser over its lines. */
  method OpenLines(l: ProbLoader) returns (r: Result<LineParser, P.ParseError>)
    ensures r.Ok? <==> l.Ok?
    ensures r.Err? ==> r.error == l.error
    ensures r.Ok? ==> fresh(r.value) && r.value.rest == l.value
  {
    if l.Err? {
      return Err(l.error);
    }
    var p := new LineParser.Over(l.value);
    return Ok(p);
  }

  /** The `anyhow::Error`s a build can end with. `Incomplete(n)` is the
      "`n`-grams data is incomplete" error: the file of order `n - 1` ran
      out before a pattern of order `n` was found in it. */
  datatype BuildError =
    | TooManyOrders(orders: nat)
    | ParseFailed(parse: P.ParseError)
    | VocabularyFailed(vocabulary: S.BuildError)
    | Incomplete(grams: nat)

  /** The index the builder returns: the vocabulary, one trie level per
      order above the unigrams, the probabilities of every order, and the
      backoff weights of every order below the highest (and of the
      unigrams). */
  datatype BuiltProbLm = BuiltProbLm(vocab: S.SimpleVocabulary, arrays: seq<TA.TrieArray>, probs: seq<seq<seq<byte>>>, backoffs: seq<seq<Option<seq<byte>>>>)

  // ---------------------------------------------------------------------
  // Reading the unigram file.

  /** `while let Some(rec) = gp.next_prob_record() { records.push(rec?) }`:
      the records up to the end or to the first line that is not UTF-8, or
      the first bad line. */
  function CollectProbs(lines: seq<seq<byte>>): Result<seq<P.ProbRecord>, P.ParseError>
    decreases |lines|
  {
    match FirstProb(lines)
    case None => Ok([])
    case Some(Err(e)) => Err(e)
    case Some(Ok(rec)) => Prepend([rec], CollectProbs(lines[1..]))
  }

  /** The records of a loader. */
  function LoadProbs(l: ProbLoader): Result<seq<P.ProbRecord>, P.ParseError> {
    match l
    case Err(e) => Err(e)
    case Ok(lines) => CollectProbs(lines)
  }

  /** The grams of some records, in order. */
  function Grams(recs: seq<P.ProbRecord>): (g: seq<seq<byte>>)
    ensures |g| == |recs| && forall i :: 0 <= i < |recs| ==> g[i] == recs[i].gram
  {
    seq(|recs|, i requires 0 <= i < |recs| => recs[i].gram)
  }

  /** The probabilities of some records, in order. */
  function RecordProbs(recs: seq<P.ProbRecord>): (p: seq<seq<byte>>)
    ensures |p| == |recs| && forall i :: 0 <= i < |recs| ==> p[i] == recs[i].prob
  {
    seq(|recs|, i requires 0 <= i < |recs| => recs[i].prob)
  }

  /** The backoff weights of some records, in order (`None` where the line
      has none, which `backoff()` reads as 0). */
  function RecordBackoffs(recs: seq<P.ProbRecord>): (b: seq<Option<seq<byte>>>)
    ensures |b| == |recs| && forall i :: 0 <= i < |recs| ==> b[i] == recs[i].backoff
  {
    seq(|recs|, i requires 0 <= i < |recs| => recs[i].backoff)
  }

  /** What `build_vocabulary` makes of the unigram file: the vocabulary of
      its grams, and the probability and the backoff weight of each
      unigram. Indexing the empty list of loaders panics. */
  function VocabularyOf(loaders: seq<ProbLoader>): (r: Outcome<Result<(S.SimpleVocabulary, seq<seq<byte>>, seq<Option<seq<byte>>>), BuildError>>)
    ensures r.Returned? && r.value.Ok? ==> loaders != []
  {
    if loaders == [] then Panicked
    else match LoadProbs(loaders[0])
      case Err(e) => Returned(Err(ParseFailed(e)))
      case Ok(recs) =>
        match S.BuildOf(Grams(recs))
        case Panicked => Panicked
        case Returned(Err(e)) => Returned(Err(VocabularyFailed(e)))
        case Returned(Ok(v)) => Returned(Ok((v, RecordProbs(recs), RecordBackoffs(recs))))
  }

  // ---------------------------------------------------------------------
  // `build_sorted_array`.

  /** `pop_front_token`: the first token and the rest of the gram, cut at
      the first separator; `None` on a gram of one token. */
  function PopFrontToken(data: seq<byte>): (r: Option<(seq<byte>, seq<byte>)>)
    ensures r.None? <==> G.SEPARATOR !in data
    ensures r.Some? ==> r.value.0 + [G.SEPARATOR] + r.value.1 == data
    ensures r.Some? ==> G.SEPARATOR !in r.value.0
  {
    PositionFirst(data, G.SEPARATOR);
    match Position(data, G.SEPARATOR)
    case None => None
    case Some(i) =>
      assert data == data[..i] + [G.SEPARATOR] + data[i + 1..];
      Some((data[..i], data[i + 1..]))
  }

  /** The state of the merge of one order with the order below: the gram of
      the previous-order record the merge is at, the number of grams of this
      order so far, and the pointers, token ids, probabilities and backoff
      weights so far. */
  datatype ProbState = ProbState(prevGram: seq<byte>, pointer: nat, pointers: seq<nat>, tokenIds: seq<nat>, probs: seq<seq<byte>>, backoffs: seq<Option<seq<byte>>>)

  /** The inner `while pattern != prev_rec.gram()`: a pointer is pushed, then
      the next previous-order record is read. The end of the
      previous-order file (or a line that is not UTF-8) is the
      `Incomplete(grams)` error, a bad line its parse error. */
  function Advance(grams: nat, prev: seq<seq<byte>>, gram: seq<byte>, pattern: seq<byte>, pointer: nat, pointers: seq<nat>): (r: Result<(seq<seq<byte>>, seq<byte>, seq<nat>), BuildError>)
    ensures r.Ok? ==> |r.value.0| <= |prev| && SuffixOf(r.value.0, prev)
    ensures r.Ok? ==> r.value.1 == pattern
    ensures r.Ok? ==> |r.value.2| == |pointers| + |prev| - |r.value.0| && r.value.2[..|pointers|] == pointers
    ensures r.Ok? ==> forall k :: |pointers| <= k < |r.value.2| ==> r.value.2[k] == pointer
    decreases |prev|
  {
    if pattern == gram then Ok((prev, gram, pointers))
    else
      var pushed := pointers + [pointer];
      match FirstProb(prev)
      case None => Err(Incomplete(grams))
      case Some(Err(e)) => Err(ParseFailed(e))
      case Some(Ok(rec)) =>
        var r := Advance(grams, prev[1..], rec.gram, pattern, pointer, pushed);
        assert r.Ok? ==> r.value.2[..|pointers|] == pushed[..|pointers|];
        r
  }

  /** One record `rec` of the outer loop: split off its first token, advance
      the previous order to the rest of the gram, then add the token's id,
      the record's probability and, below the highest order (`keep`), its
      backoff weight. It panics on a gram without a separator and on a
      token the vocabulary does not hold (or that is not UTF-8). */
  function Attach(vocab: S.SimpleVocabulary, grams: nat, keep: bool, rec: P.ProbRecord, prev: seq<seq<byte>>, st: ProbState): Outcome<Result<(seq<seq<byte>>, ProbState), BuildError>> {
    match PopFrontToken(rec.gram)
    case None => Panicked
    case Some((token, pattern)) =>
      match Advance(grams, prev, st.prevGram, pattern, st.pointer, st.pointers)
      case Err(e) => Returned(Err(e))
      case Ok((rest, gram, pointers)) => AddToken(vocab, keep, rec, token, rest, gram, pointers, st)
  }

  /** The end of one record's step, once the previous order has advanced to
      `gram` with `pointers`: one gram more, with the id of `token`, the
      record's probability and, when `keep`, its backoff weight. */
  function AddToken(vocab: S.SimpleVocabulary, keep: bool, rec: P.ProbRecord, token: seq<byte>, rest: seq<seq<byte>>, gram: seq<byte>, pointers: seq<nat>, st: ProbState): Outcome<Result<(seq<seq<byte>>, ProbState), BuildError>> {
    match S.Get(vocab, token)
    case Panicked => Panicked
    case Returned(None) => Panicked
    case Returned(Some(id)) =>
      Returned(Ok((rest, ProbState(gram, st.pointer + 1, pointers, st.tokenIds + [id], st.probs + [rec.prob],
        st.backoffs + if keep then [rec.backoff] else []))))
  }

  /** The outer `while let Some(curr_rec) = curr_gp.next_prob_record()`:
      attaches the records of this order one after another, up to the end
      of the file or a line that is not UTF-8; a bad line ends the build. */
  function Merge(vocab: S.SimpleVocabulary, grams: nat, keep: bool, curr: seq<seq<byte>>, prev: seq<seq<byte>>, st: ProbState): Outcome<Result<(seq<seq<byte>>, ProbState), BuildError>>
    decreases |curr|
  {
    match FirstProb(curr)
    case None => Returned(Ok((prev, st)))
    case Some(Err(e)) => Returned(Err(ParseFailed(e)))
    case Some(Ok(rec)) =>
      match Attach(vocab, grams, keep, rec, prev, st)
      case Panicked => Panicked
      case Returned(Err(e)) => Returned(Err(e))
      case Returned(Ok((rest, next))) => Merge(vocab, grams, keep, curr[1..], rest, next)
  }

  /** The number of calls `while prev_gp.next_count_record().is_some()`
      answers something. */
  function TailCount(rest: seq<seq<byte>>): (n: nat)
    ensures n <= |rest|
  {
    if FirstCount(rest).None? then 0 else 1 + TailCount(rest[1..])
  }

  /** One level of the trie with its payloads: `layout` holds the vectors
      `token_ids` and `pointers` handed to `T::build`, and `trie` what it
      built of them; the backoff weights are `None` at the highest order,
      where none are stored. */
  datatype ProbLevel = ProbLevel(layout: ST.SimpleTrieArray, trie: TA.TrieArray, probs: seq<seq<byte>>, backoffs: Option<seq<Option<seq<byte>>>>)

  /** The vectors the merge ends in: one more pointer for every
      previous-order gram not reached, and the final one. */
  function LayoutOf(st: ProbState, rest: seq<seq<byte>>): ST.SimpleTrieArray {
    ST.Build(st.tokenIds, st.pointers + Repeat(st.pointer, TailCount(rest)) + [st.pointer])
  }

  /** The level the merge ends in: `T::build(token_ids, pointers)`, which
      panics when the Elias-Fano array is handed a range of token ids that
      is not sorted. Pointers a merge does not produce (they always fit,
      `TrieProbLmBuildFacts.FinishedShape`) count as a panic too. */
  function Level(kind: TA.Kind, st: ProbState, rest: seq<seq<byte>>, keep: bool): Outcome<ProbLevel> {
    LevelFrom(kind, LayoutOf(st, rest), st.probs, if keep then Some(st.backoffs) else None)
  }

  /** `T::build` of the vectors of `layout`, stored with the payloads. */
  function LevelFrom(kind: TA.Kind, layout: ST.SimpleTrieArray, probs: seq<seq<byte>>, backoffs: Option<seq<Option<seq<byte>>>>): Outcome<ProbLevel> {
    if !TA.Buildable(kind, layout.tokenIds, layout.pointers) then Panicked
    else match TA.Build(kind, layout.tokenIds, layout.pointers)
      case Panicked => Panicked
      case Returned(a) => Returned(ProbLevel(layout, a, probs, backoffs))
  }

  /** A level that is built holds the vectors and payloads it was given, and
      the array `T::build` made of the vectors. */
  lemma LevelFromFields(kind: TA.Kind, layout: ST.SimpleTrieArray, probs: seq<seq<byte>>, backoffs: Option<seq<Option<seq<byte>>>>)
    requires LevelFrom(kind, layout, probs, backoffs).Returned?
    ensures var level := LevelFrom(kind, layout, probs, backoffs).value;
      && level.layout == layout && level.probs == probs && level.backoffs == backoffs
      && TA.Buildable(kind, layout.tokenIds, layout.pointers)
      && TA.Build(kind, layout.tokenIds, layout.pointers) == Returned(level.trie)
  {
  }

  function Finish(kind: TA.Kind, m: Outcome<Result<(seq<seq<byte>>, ProbState), BuildError>>, keep: bool): Outcome<Result<ProbLevel, BuildError>> {
    match m
    case Panicked => Panicked
    case Returned(Err(e)) => Returned(Err(e))
    case Returned(Ok((rest, st))) =>
      match Level(kind, st, rest, keep)
      case Panicked => Panicked
      case Returned(level) => Returned(Ok(level))
  }

  /** What `build_sorted_array(order)` makes of the file below
      (`prevLoader`) and the file of the order (`currLoader`) when the
      highest order is `maxOrder`: both parsers are opened first, then the
      first previous-order record is taken (`next_prob_record().unwrap()?`
      panics when there is none), and the merge starts with the pointer 0.
      Backoff weights are kept below the highest order only. */
  function SortedArrayOf(kind: TA.Kind, vocab: S.SimpleVocabulary, order: nat, maxOrder: nat, prevLoader: ProbLoader, currLoader: ProbLoader): Outcome<Result<ProbLevel, BuildError>> {
    match prevLoader
    case Err(e) => Returned(Err(ParseFailed(e)))
    case Ok(prev) =>
      match currLoader
      case Err(e) => Returned(Err(ParseFailed(e)))
      case Ok(curr) =>
        match FirstProb(prev)
        case None => Panicked
        case Some(Err(e)) => Returned(Err(ParseFailed(e)))
        case Some(Ok(first)) =>
          Finish(kind, Merge(vocab, order + 1, order < maxOrder, curr, prev[1..], ProbState(first.gram, 0, [0], [], [], [])), order < maxOrder)
  }

  // ---------------------------------------------------------------------
  // `build`.

  /** The levels of the orders 1 to `n`, built in turn; the first that
      panics or fails ends the build. */
  function LevelsOf(kind: TA.Kind, vocab: S.SimpleVocabulary, loaders: seq<ProbLoader>, n: nat): (r: Outcome<Result<seq<ProbLevel>, BuildError>>)
    requires n < |loaders|
    ensures r.Returned? && r.value.Ok? ==> |r.value.value| == n
  {
    if n == 0 then Returned(Ok([]))
    else Extend(LevelsOf(kind, vocab, loaders, n - 1), SortedArrayOf(kind, vocab, n, |loaders| - 1, loaders[n - 1], loaders[n]))
  }

  /** After the orders below `order` have built, the next step's outcome
      is that of the level of `order`, and it pushes that level. */
  lemma LevelsStep(kind: TA.Kind, vocab: S.SimpleVocabulary, loaders: seq<ProbLoader>, order: nat, levels: seq<ProbLevel>, next: Outcome<Result<ProbLevel, BuildError>>)
    requires 1 <= order < |loaders|
    requires LevelsOf(kind, vocab, loaders, order - 1) == Returned(Ok(levels))
    requires next == SortedArrayOf(kind, vocab, order, |loaders| - 1, loaders[order - 1], loaders[order])
    ensures Done(LevelsOf(kind, vocab, loaders, order)) == Done(next)
    ensures next.Returned? && next.value.Ok? ==> LevelsOf(kind, vocab, loaders, order) == Returned(Ok(levels + Pushed(next)))
  {
    ExtendBuilt(LevelsOf(kind, vocab, loaders, order - 1), next);
  }

  /** Once the orders up to `i` have not built, neither has any larger set
      of orders. */
  lemma {:induction false} LevelsStop(kind: TA.Kind, vocab: S.SimpleVocabulary, loaders: seq<ProbLoader>, i: nat, n: nat)
    requires i <= n < |loaders|
    requires !(LevelsOf(kind, vocab, loaders, i).Returned? && LevelsOf(kind, vocab, loaders, i).value.Ok?)
    ensures LevelsOf(kind, vocab, loaders, n) == LevelsOf(kind, vocab, loaders, i)
    decreases n - i
  {
    if i < n {
      LevelsStop(kind, vocab, loaders, i, n - 1);
    }
  }

  /** The trie arrays of some levels. */
  function LevelArrays(levels: seq<ProbLevel>): (a: seq<TA.TrieArray>)
    ensures |a| == |levels| && forall i :: 0 <= i < |levels| ==> a[i] == levels[i].trie
  {
    seq(|levels|, i requires 0 <= i < |levels| => levels[i].trie)
  }

  /** The probabilities of some levels. */
  function LevelProbs(levels: seq<ProbLevel>): (p: seq<seq<seq<byte>>>)
    ensures |p| == |levels| && forall i :: 0 <= i < |levels| ==> p[i] == levels[i].probs
  {
    seq(|levels|, i requires 0 <= i < |levels| => levels[i].probs)
  }

  /** The backoff weights some levels store, in order. */
  function LevelBackoffs(levels: seq<ProbLevel>): (b: seq<seq<Option<seq<byte>>>>)
    ensures |b| <= |levels|
  {
    if levels == [] then []
    else
      var last := levels[|levels| - 1];
      LevelBackoffs(levels[..|levels| - 1]) + if last.backoffs.Some? then [last.backoffs.value] else []
  }

  /** The payloads of levels pushed one after another. */
  lemma LevelsAppend(levels: seq<ProbLevel>, more: seq<ProbLevel>)
    requires |more| <= 1
    ensures LevelArrays(levels + more) == LevelArrays(levels) + LevelArrays(more)
    ensures LevelProbs(levels + more) == LevelProbs(levels) + LevelProbs(more)
    ensures LevelBackoffs(levels + more) == LevelBackoffs(levels) + LevelBackoffs(more)
  {
    if more == [] {
      assert levels + more == levels;
    } else {
      assert (levels + more)[..|levels|] == levels;
      assert more[..0] == [];
    }
  }

  /** What `TrieProbLmBuilder::new(loaders)?.build()` returns: more files
      than `MAX_ORDER` is an error; then the vocabulary's outcome, then the
      first level's failure (each as soon as it happens, panics included),
      or the index: the vocabulary, the levels of the orders 1 to the
      highest, the probabilities of each order from the unigrams up, and
      the backoff weights of the unigrams and of each order that keeps
      them. */
  function BuildOf(kind: TA.Kind, loaders: seq<ProbLoader>): Outcome<Result<BuiltProbLm, BuildError>> {
    if MAX_ORDER < |loaders| then Returned(Err(TooManyOrders(|loaders|)))
    else match VocabularyOf(loaders)
      case Panicked => Panicked
      case Returned(Err(e)) => Returned(Err(e))
      case Returned(Ok((vocab, probs, backoffs))) =>
        match LevelsOf(kind, vocab, loaders, |loaders| - 1)
        case Panicked => Panicked
        case Returned(Err(e)) => Returned(Err(e))
        case Returned(Ok(levels)) =>
          Returned(Ok(BuiltProbLm(vocab, LevelArrays(levels), [probs] + LevelProbs(levels), [backoffs] + LevelBackoffs(levels))))
  }

  /** `BuildOf` at the end of a build in which every step succeeded. */
  lemma BuiltFrom(kind: TA.Kind, loaders: seq<ProbLoader>, vocab: S.SimpleVocabulary, probs: seq<seq<byte>>, backoffs: seq<Option<seq<byte>>>, levels: seq<ProbLevel>)
    requires |loaders| <= MAX_ORDER
    requires VocabularyOf(loaders) == Returned(Ok((vocab, probs, backoffs)))
    requires LevelsOf(kind, vocab, loaders, |loaders| - 1) == Returned(Ok(levels))
    ensures BuildOf(kind, loaders) == Returned(Ok(BuiltProbLm(vocab, LevelArrays(levels), [probs] + LevelProbs(levels), [backoffs] + LevelBackoffs(levels))))
  {
  }

  // ---------------------------------------------------------------------
  // The loops.

  /** The loop of `while pattern != prev_rec.gram()`, on the previous-order
      parser. */
  method Seek(grams: nat, pp: LineParser, gram: seq<byte>, pattern: seq<byte>, pointer: nat, pointers: seq<nat>)
    returns (r: Result<(seq<byte>, seq<nat>), BuildError>)
    modifies pp
    ensures var a := Advance(grams, old(pp.rest), gram, pattern, pointer, pointers);
      && (r.Ok? <==> a.Ok?)
      && (r.Ok? ==> r.value == (a.value.1, a.value.2) && pp.rest == a.value.0)
      && (r.Err? ==> r.error == a.error)
  {
    var g := gram;
    var ps := pointers;
    while pattern != g
      invariant Advance(grams, old(pp.rest), gram, pattern, pointer, pointers) == Advance(grams, pp.rest, g, pattern, pointer, ps)
      decreases |pp.rest|
    {
      ps := ps + [pointer];
      var next := pp.NextProb();
      if next.None? {
        return Err(Incomplete(grams));
      }
      if next.value.Err? {
        return Err(ParseFailed(next.value.error));
      }
      g := next.value.value.gram;
    }
    return Ok((g, ps));
  }

  /** `while prev_gp.next_count_record().is_some() { pointers.push(pointer) }`. */
  method PushRest(pp: LineParser, pointer: nat, pointers: seq<nat>) returns (ps: seq<nat>)
    modifies pp
    ensures ps == pointers + Repeat(pointer, TailCount(old(pp.rest)))
  {
    ps := pointers;
    while true
      invariant ps + Repeat(pointer, TailCount(pp.rest)) == pointers + Repeat(pointer, TailCount(old(pp.rest)))
      decreases |pp.rest|
    {
      ghost var before := pp.rest;
      var next := pp.NextCount();
      if next.None? {
        break;
      }
      assert Repeat(pointer, TailCount(before)) == [pointer] + Repeat(pointer, TailCount(pp.rest));
      ps := ps + [pointer];
    }
  }

  /** `for rec in records { probs.push(rec.prob()); backoffs.push(rec.backoff()) }`. */
  method Payloads(recs: seq<P.ProbRecord>) returns (ps: seq<seq<byte>>, bs: seq<Option<seq<byte>>>)
    ensures ps == RecordProbs(recs) && bs == RecordBackoffs(recs)
  {
    ps, bs := [], [];
    for i := 0 to |recs|
      invariant |ps| == i && |bs| == i
      invariant forall k :: 0 <= k < i ==> ps[k] == recs[k].prob && bs[k] == recs[k].backoff
    {
      ps := ps + [recs[i].prob];
      bs := bs + [recs[i].backoff];
    }
  }

  /** The unigram records of a file, as `build_vocabulary` collects them. */
  method CollectRecords(loader: ProbLoader) returns (r: Result<seq<P.ProbRecord>, P.ParseError>)
    ensures r == LoadProbs(loader)
  {
    var parser := OpenLines(loader);
    if parser.Err? {
      return Err(parser.error);
    }
    var gp := parser.value;
    ghost var all := gp.rest;
    var records: seq<P.ProbRecord> := [];
    PrependNothing(CollectProbs(all));
    while true
      invariant CollectProbs(all) == Prepend(records, CollectProbs(gp.rest))
      decreases |gp.rest|
    {
      ghost var before := gp.rest;
      var next := gp.NextProb();
      if next.None? {
        AppendEmpty(records);
        break;
      }
      if next.value.Err? {
        return Err(next.value.error);
      }
      PrependOne(records, next.value.value, CollectProbs(gp.rest));
      records := records + [next.value.value];
    }
    return Ok(records);
  }

  /** The builder. The loaders are the files, lowest order first. */
  class ProbBuilder {
    const kind: TA.Kind
    const loaders: seq<ProbLoader>
    var vocab: S.SimpleVocabulary
    var arrays: seq<TA.TrieArray>
    var probs: seq<seq<seq<byte>>>
    var backoffs: seq<seq<Option<seq<byte>>>>

    /** The body of `new` past its check. */
    constructor Init(kind: TA.Kind, loaders: seq<ProbLoader>)
      requires |loaders| <= MAX_ORDER
      ensures this.kind == kind && this.loaders == loaders && vocab == S.New() && arrays == [] && probs == [] && backoffs == []
    {
      this.kind := kind;
      this.loaders := loaders;
      vocab := S.New();
      arrays := [];
      probs := [];
      backoffs := [];
    }

    /** `build`: the vocabulary, then the levels of the orders 1 to the
        highest, each ending the build on failure. */
    method Build() returns (r: Outcome<Result<BuiltProbLm, BuildError>>)
      requires |loaders| <= MAX_ORDER && arrays == [] && probs == [] && backoffs == []
      modifies this
      ensures r == BuildOf(kind, loaders)
    {
      var built := BuildVocabulary();
      if built.Panicked? {
        return Panicked;
      }
      if built.value.Err? {
        return Returned(Err(built.value.error));
      }
      ghost var (v, ps, bs) := VocabularyOf(loaders).value.value;
      assert [] + [ps] == [ps] && [] + [bs] == [bs];
      assert arrays == [] && probs == [ps] && backoffs == [bs];
      var maxOrder := |loaders| - 1;
      var levels := BuildLevels(maxOrder);
      if levels.Panicked? {
        return Panicked;
      }
      if levels.value.Err? {
        return Returned(Err(levels.value.error));
      }
      ghost var done := LevelsOf(kind, vocab, loaders, maxOrder).value.value;
      assert [] + LevelArrays(done) == LevelArrays(done);
      BuiltFrom(kind, loaders, vocab, ps, bs, done);
      return Returned(Ok(BuiltProbLm(vocab, arrays, probs, backoffs)));
    }

    /** `build_vocabulary`. */
    method BuildVocabulary() returns (r: Outcome<Result<(), BuildError>>)
      modifies this
      ensures r == Done(VocabularyOf(loaders))
      ensures arrays == old(arrays)
      ensures VocabularyOf(loaders).Returned? && VocabularyOf(loaders).value.Ok? ==>
        var (v, ps, bs) := VocabularyOf(loaders).value.value;
        vocab == v && probs == old(probs) + [ps] && backoffs == old(backoffs) + [bs]
      ensures !(VocabularyOf(loaders).Returned? && VocabularyOf(loaders).value.Ok?) ==>
        vocab == old(vocab) && probs == old(probs) && backoffs == old(backoffs)
    {
      if |loaders| == 0 {
        return Panicked;
      }
      var records := CollectRecords(loaders[0]);
      if records.Err? {
        return Returned(Err(ParseFailed(records.error)));
      }
      var recs := records.value;
      var built := S.Build(Grams(recs));
      if built.Panicked? {
        return Panicked;
      }
      if built.value.Err? {
        return Returned(Err(VocabularyFailed(built.value.error)));
      }
      vocab := built.value.value;
      var ps, bs := Payloads(recs);
      probs := probs + [ps];
      backoffs := backoffs + [bs];
      return Returned(Ok(()));
    }

    /** `for order in 1..=max_order { self.build_sorted_array(order)? }`. */
    method BuildLevels(maxOrder: nat) returns (r: Outcome<Result<(), BuildError>>)
      requires maxOrder == |loaders| - 1 && 0 < |loaders|
      modifies this
      ensures vocab == old(vocab)
      ensures r == Done(LevelsOf(kind, vocab, loaders, maxOrder))
      ensures r.Returned? && r.value.Ok? ==>
        var levels := LevelsOf(kind, vocab, loaders, maxOrder).value.value;
        && arrays == old(arrays) + LevelArrays(levels)
        && probs == old(probs) + LevelProbs(levels)
        && backoffs == old(backoffs) + LevelBackoffs(levels)
    {
      ghost var levels: seq<ProbLevel> := [];
      for order := 1 to maxOrder + 1
        invariant vocab == old(vocab)
        invariant LevelsOf(kind, vocab, loaders, order - 1) == Returned(Ok(levels))
        invariant arrays == old(arrays) + LevelArrays(levels)
        invariant probs == old(probs) + LevelProbs(levels)
        invariant backoffs == old(backoffs) + LevelBackoffs(levels)
      {
        ghost var v := vocab;
        var level, next := BuildSortedArray(order);
        LevelsStep(kind, v, loaders, order, levels, next);
        LevelsAppend(levels, Pushed(next));
        if !level.Returned? || level.value.Err? {
          LevelsStop(kind, vocab, loaders, order, maxOrder);
          return level;
        }
        Associative(old(arrays), LevelArrays(levels), LevelArrays(Pushed(next)));
        Associative(old(probs), LevelProbs(levels), LevelProbs(Pushed(next)));
        Associative(old(backoffs), LevelBackoffs(levels), LevelBackoffs(Pushed(next)));
        levels := levels + Pushed(next);
      }
      assert LevelsOf(kind, vocab, loaders, maxOrder).value.value == levels;
      return Returned(Ok(()));
    }

    /** `build_sorted_array(order)`. */
    method BuildSortedArray(order: nat) returns (r: Outcome<Result<(), BuildError>>, ghost level: Outcome<Result<ProbLevel, BuildError>>)
      requires 1 <= order < |loaders|
      modifies this
      ensures vocab == old(vocab)
      ensures level == SortedArrayOf(kind, vocab, order, |loaders| - 1, loaders[order - 1], loaders[order])
      ensures r == Done(level)
      ensures arrays == old(arrays) + LevelArrays(Pushed(level))
      ensures probs == old(probs) + LevelProbs(Pushed(level))
      ensures backoffs == old(backoffs) + LevelBackoffs(Pushed(level))
    {
      var built := SortedArray(kind, vocab, order, |loaders| - 1, loaders[order - 1], loaders[order]);
      level := built;
      r := Store(built);
    }

    /** Pushes a level's trie array, probabilities and backoff weights. */
    method Store(level: Outcome<Result<ProbLevel, BuildError>>) returns (r: Outcome<Result<(), BuildError>>)
      modifies this
      ensures vocab == old(vocab)
      ensures r == Done(level)
      ensures arrays == old(arrays) + LevelArrays(Pushed(level))
      ensures probs == old(probs) + LevelProbs(Pushed(level))
      ensures backoffs == old(backoffs) + LevelBackoffs(Pushed(level))
    {
      if level.Panicked? {
        return Panicked;
      }
      if level.value.Err? {
        return Returned(Err(level.value.error));
      }
      var l := level.value.value;
      LevelsOne(l);
      arrays := arrays + [l.trie];
      probs := probs + [l.probs];
      if l.backoffs.Some? {
        backoffs := backoffs + [l.backoffs.value];
      }
      return Returned(Ok(()));
    }
  }

  /** A single level's payloads. */
  lemma LevelsOne(l: ProbLevel)
    ensures LevelArrays([l]) == [l.trie] && LevelProbs([l]) == [l.probs]
    ensures LevelBackoffs([l]) == if l.backoffs.Some? then [l.backoffs.value] else []
  {
    assert [l][..0] == [];
  }

  /** The body of the outer loop for one record: what the merge state
      becomes, also on the previous-order parser. */
  method AttachRecord(vocab: S.SimpleVocabulary, grams: nat, keep: bool, pp: LineParser, rec: P.ProbRecord, st: ProbState)
    returns (r: Outcome<Result<ProbState, BuildError>>)
    modifies pp
    ensures var a := Attach(vocab, grams, keep, rec, old(pp.rest), st);
      && (r.Panicked? <==> a.Panicked?)
      && (a.Returned? && a.value.Err? ==> r == Returned(Err(a.value.error)))
      && (a.Returned? && a.value.Ok? ==> r == Returned(Ok(a.value.value.1)) && pp.rest == a.value.value.0)
  {
    var popped := PopFrontToken(rec.gram);
    if popped.None? {
      return Panicked;
    }
    var (token, pattern) := popped.value;
    ghost var prev := pp.rest;
    var seek := Seek(grams, pp, st.prevGram, pattern, st.pointer, st.pointers);
    if seek.Err? {
      assert Attach(vocab, grams, keep, rec, prev, st) == Returned(Err(seek.error));
      return Returned(Err(seek.error));
    }
    assert Advance(grams, prev, st.prevGram, pattern, st.pointer, st.pointers) == Ok((pp.rest, seek.value.0, seek.value.1));
    var pointer := st.pointer + 1;
    var id := S.Get(vocab, token);
    if id.Panicked? || id.value.None? {
      assert Attach(vocab, grams, keep, rec, prev, st) == Panicked;
      return Panicked;
    }
    var backoffs := st.backoffs + if keep then [rec.backoff] else [];
    var next := ProbState(seek.value.0, pointer, seek.value.1, st.tokenIds + [id.value.value], st.probs + [rec.prob], backoffs);
    AttachOk(vocab, grams, keep, rec, prev, st, token, pattern, pp.rest, seek.value.0, seek.value.1, id.value.value);
    return Returned(Ok(next));
  }

  /** The step of a record when each of its parts succeeds. */
  lemma AttachOk(vocab: S.SimpleVocabulary, grams: nat, keep: bool, rec: P.ProbRecord, prev: seq<seq<byte>>, st: ProbState,
    token: seq<byte>, pattern: seq<byte>, rest: seq<seq<byte>>, gram: seq<byte>, pointers: seq<nat>, id: nat)
    requires PopFrontToken(rec.gram) == Some((token, pattern))
    requires Advance(grams, prev, st.prevGram, pattern, st.pointer, st.pointers) == Ok((rest, gram, pointers))
    requires S.Get(vocab, token) == Returned(Some(id))
    ensures Attach(vocab, grams, keep, rec, prev, st) ==
      Returned(Ok((rest, ProbState(gram, st.pointer + 1, pointers, st.tokenIds + [id], st.probs + [rec.prob], st.backoffs + if keep then [rec.backoff] else []))))
  {
    assert Attach(vocab, grams, keep, rec, prev, st) == AddToken(vocab, keep, rec, token, rest, gram, pointers, st);
  }

  /** The merge of `build_sorted_array` from the state after the first
      previous-order record on: the outer loop, the remaining pointers and
      the final one. The merge keeps `prev_rec`'s gram, `pointer`,
      `pointers`, `token_ids`, `probs` and `backoffs` in one state `st`. */
  method MergeFiles(kind: TA.Kind, vocab: S.SimpleVocabulary, grams: nat, keep: bool, pp: LineParser, cp: LineParser, st0: ProbState)
    returns (r: Outcome<Result<ProbLevel, BuildError>>)
    requires pp != cp
    modifies pp, cp
    ensures r == Finish(kind, Merge(vocab, grams, keep, old(cp.rest), old(pp.rest), st0), keep)
  {
    var st := st0;
    ghost var spec := Merge(vocab, grams, keep, cp.rest, pp.rest, st);
    while true
      invariant spec == Merge(vocab, grams, keep, cp.rest, pp.rest, st)
      decreases |cp.rest|
    {
      var next := cp.NextProb();
      if next.None? {
        break;
      }
      if next.value.Err? {
        return Returned(Err(ParseFailed(next.value.error)));
      }
      var attached := AttachRecord(vocab, grams, keep, pp, next.value.value, st);
      if attached.Panicked? {
        return Panicked;
      }
      if attached.value.Err? {
        return Returned(Err(attached.value.error));
      }
      st := attached.value.value;
    }
    ghost var rest := pp.rest;
    var ps := PushRest(pp, st.pointer, st.pointers);
    ps := ps + [st.pointer];
    assert LayoutOf(st, rest) == ST.Build(st.tokenIds, ps);
    if !TA.Buildable(kind, st.tokenIds, ps) {
      return Panicked;
    }
    var trie := TA.Build(kind, st.tokenIds, ps);
    if trie.Panicked? {
      return Panicked;
    }
    return Returned(Ok(ProbLevel(ST.Build(st.tokenIds, ps), trie.value, st.probs, if keep then Some(st.backoffs) else None)));
  }

  /** What `build_sorted_array(order)` builds: both parsers are opened,
      the first previous-order record is taken, and the files are merged. */
  method SortedArray(kind: TA.Kind, vocab: S.SimpleVocabulary, order: nat, maxOrder: nat, prevLoader: ProbLoader, currLoader: ProbLoader)
    returns (r: Outcome<Result<ProbLevel, BuildError>>)
    ensures r == SortedArrayOf(kind, vocab, order, maxOrder, prevLoader, currLoader)
  {
    var prevParser := OpenLines(prevLoader);
    if prevParser.Err? {
      return Returned(Err(ParseFailed(prevParser.error)));
    }
    var currParser := OpenLines(currLoader);
    if currParser.Err? {
      return Returned(Err(ParseFailed(currParser.error)));
    }
    var pp := prevParser.value;
    var cp := currParser.value;
    var first := pp.NextProb();
    if first.None? {
      return Panicked;
    }
    if first.value.Err? {
      return Returned(Err(ParseFailed(first.value.error)));
    }
    r := MergeFiles(kind, vocab, order + 1, order < maxOrder, pp, cp, ProbState(first.value.value.gram, 0, [0], [], [], []));
  }

  /** `TrieProbLmBuilder::new`: more loaders than `MAX_ORDER` is an error;
      otherwise an empty builder over them. */
  method New(kind: TA.Kind, loaders: seq<ProbLoader>) returns (r: Result<ProbBuilder, BuildError>)
    ensures r.Err? <==> MAX_ORDER < |loaders|
    ensures r.Err? ==> r.error == TooManyOrders(|loaders|)
    ensures r.Ok? ==> fresh(r.value) && r.value.kind == kind && r.value.loaders == loaders
    ensures r.Ok? ==> r.value.vocab == S.New() && r.value.arrays == [] && r.value.probs == [] && r.value.backoffs == []
  {
    if MAX_ORDER < |loaders| {
      return Err(TooManyOrders(|loaders|));
    }
    var b := new ProbBuilder.Init(kind, loaders);
    return Ok(b);
  }
}
