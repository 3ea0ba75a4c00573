/** `TrieCountLmBuilder`: builds the count trie from one count file per
    order. It first ranks the count values of each order (`CountsBuilder`),
    then reads the unigram file into the vocabulary and the unigram count
    ranks, and then, for each higher order, merges the file of that order
    with the file below it: every gram is attached to the gram of the order
    below that it extends, which gives the pointers of the level.

    Each file is given by its loader: the answers its parser gives, call
    after call (`ParserStreams`). */
module TrieCountLmBuilder {
  import opened Common
  import opened Ranking
  import opened PointerGroups
  import opened ParserStreams
  import P = Parser
  import G = Gram
  import S = SimpleVocabulary
  import SA = SortedArray
  import GS = GramsSequence
  import U = Util

  /** The `anyhow::Error`s a build can end with. */
  datatype BuildError = ParseFailed(parse: P.ParseError) | VocabularyFailed(vocabulary: S.BuildError)

  /** The index the builder returns: the highest order, the vocabulary, one
      level per order, and the count values of each order in rank order. */
  datatype BuiltCountLm = BuiltCountLm(maxOrder: nat, vocab: S.SimpleVocabulary, arrays: seq<SA.SimpleSortedArray>, counts: seq<seq<nat>>)

  // ---------------------------------------------------------------------
  // Reading the files.

  /** The count values of some records, in order. */
  function Counts(recs: seq<P.CountRecord>): (c: seq<nat>)
    ensures |c| == |recs| && forall i :: 0 <= i < |recs| ==> c[i] == recs[i].count
  {
    seq(|recs|, i requires 0 <= i < |recs| => recs[i].count)
  }

  /** The records of every file, or the first error in file order. */
  function LoadAll(loaders: seq<Loader>): (r: Result<seq<seq<P.CountRecord>>, P.ParseError>)
    ensures r.Ok? ==> |r.value| == |loaders|
  {
    if loaders == [] then Ok([])
    else match LoadAll(loaders[..|loaders| - 1])
      case Err(e) => Err(e)
      case Ok(recss) =>
        match Load(loaders[|loaders| - 1])
        case Err(e) => Err(e)
        case Ok(recs) => Ok(recss + [recs])
  }

  /** Once a prefix of the files has failed, the others are not read. */
  lemma {:induction false} LoadAllStops(loaders: seq<Loader>, i: nat)
    requires i <= |loaders| && LoadAll(loaders[..i]).Err?
    ensures LoadAll(loaders) == LoadAll(loaders[..i])
    decreases |loaders| - i
  {
    if i < |loaders| {
      var n := |loaders| - 1;
      assert loaders[..n][..i] == loaders[..i];
      LoadAllStops(loaders[..n], i);
    } else {
      assert loaders[..i] == loaders;
    }
  }

  /** A file that loads adds its records to those of the files before it. */
  lemma LoadAllNext(loaders: seq<Loader>, i: nat)
    requires i < |loaders| && LoadAll(loaders[..i]).Ok?
    ensures Load(loaders[i]).Err? ==> LoadAll(loaders[..i + 1]) == Err(Load(loaders[i]).error)
    ensures Load(loaders[i]).Ok? ==>
      LoadAll(loaders[..i + 1]) == Ok(LoadAll(loaders[..i]).value + [Load(loaders[i]).value])
  {
    assert loaders[..i + 1][..i] == loaders[..i];
  }

  // ---------------------------------------------------------------------
  // `CountsBuilder`.

  /** The value order of each order: its distinct count values, most
      frequent first. */
  ghost function OrdersOf(recss: seq<seq<P.CountRecord>>): (s: seq<seq<nat>>)
    ensures |s| == |recss|
    ensures forall o :: 0 <= o < |recss| ==> IsFrequencyOrder(Tally(Counts(recss[o])), s[o])
    ensures forall o :: 0 <= o < |recss| ==> Distinct(s[o])
  {
    var s := seq(|recss|, o requires 0 <= o < |recss| => FrequencyOrderOf(Tally(Counts(recss[o]))));
    assert forall o :: 0 <= o < |recss| ==> Distinct(s[o]) by {
      forall o | 0 <= o < |recss|
        ensures Distinct(s[o])
      {
        FrequencyOrderDistinct(Tally(Counts(recss[o])), s[o]);
      }
    }
    s
  }

  /** One more file adds the value order of its counts at the end. */
  lemma OrdersAppend(recss: seq<seq<P.CountRecord>>, recs: seq<P.CountRecord>)
    ensures OrdersOf(recss + [recs]) == OrdersOf(recss) + [FrequencyOrderOf(Tally(Counts(recs)))]
  {
    var all := recss + [recs];
    assert forall o :: 0 <= o < |recss| ==> all[o] == recss[o];
    assert all[|recss|] == recs;
  }

  /** Rank maps that match their sequences still do after one more
      sequence without repeats and its rank map. */
  lemma RanksAppend(maps: seq<map<nat, nat>>, seqs: seq<seq<nat>>, s: seq<nat>)
    requires |maps| == |seqs| && Distinct(s)
    requires forall o :: 0 <= o < |seqs| ==> Distinct(seqs[o]) && maps[o] == RankMap(seqs[o])
    ensures var m := maps + [RankMap(s)]; var t := seqs + [s];
      |m| == |t| && forall o :: 0 <= o < |t| ==> Distinct(t[o]) && m[o] == RankMap(t[o])
  {
  }

  class CountsBuilder {
    /** Frequencies of the count values eaten since the last `build_sequence`. */
    var v2fMap: map<nat, nat>
    /** Per order, each count value to its rank. */
    var v2rMaps: seq<map<nat, nat>>
    /** Per order, the count values in frequency order. */
    var sortedSequences: seq<seq<nat>>

    /** Every finished order lists its values once each, and its rank map
        gives each value its index. */
    predicate Valid()
      reads this
    {
      && |v2rMaps| == |sortedSequences|
      && forall o :: 0 <= o < |sortedSequences| ==>
           Distinct(sortedSequences[o]) && v2rMaps[o] == RankMap(sortedSequences[o])
    }

    /** Nothing eaten and no order finished. */
    predicate Empty()
      reads this
    {
      v2fMap == map[] && v2rMaps == [] && sortedSequences == []
    }

    constructor Default()
      ensures Valid() && Empty()
    {
      v2fMap := map[];
      v2rMaps := [];
      sortedSequences := [];
    }

    /** `eat_value(x)`: one more occurrence of `x` in the current order. */
    method EatValue(x: nat)
      requires Valid()
      modifies this
      ensures Valid()
      ensures v2fMap == Bump(old(v2fMap), x)
      ensures v2rMaps == old(v2rMaps) && sortedSequences == old(sortedSequences)
    {
      if x in v2fMap {
        v2fMap := v2fMap[x := v2fMap[x] + 1];
      } else {
        v2fMap := v2fMap[x := 1];
      }
    }

    /** `build_sequence`: closes the current order; its values in frequency
        order become the next sequence, their indices its ranks, and the
        frequencies start afresh. */
    method BuildSequence()
      requires Valid()
      modifies this
      ensures Valid()
      ensures sortedSequences == old(sortedSequences) + [FrequencyOrderOf(old(v2fMap))]
      ensures v2rMaps == old(v2rMaps) + [RankMap(FrequencyOrderOf(old(v2fMap)))]
      ensures old(v2fMap) == map[] ==> sortedSequences[|old(sortedSequences)|] == []
      ensures v2fMap == map[]
    {
      if v2fMap == map[] {
        FrequencyOrderIs(v2fMap, []);
        RanksAppend(v2rMaps, sortedSequences, []);
        assert RankMap([]) == map[];
        v2rMaps := v2rMaps + [map[]];
        sortedSequences := sortedSequences + [[]];
        return;
      }
      var sorted := FrequencyOrder(v2fMap);
      FrequencyOrderIs(v2fMap, sorted);
      FrequencyOrderDistinct(v2fMap, sorted);
      v2fMap := map[];
      var v2rMap := BuildRankMap(sorted);
      RanksAppend(v2rMaps, sortedSequences, sorted);
      sortedSequences := sortedSequences + [sorted];
      v2rMaps := v2rMaps + [v2rMap];
    }

    /** `rank(order, value)`: the index of `value` in the sequence of
        `order`, `None` when it was not eaten for that order. The source
        has this same operation twice, here and in
        `SequenceCollectionBuilder`, and so does the model. */
    function Rank(order: nat, value: nat): (r: Option<nat>)
      reads this
      requires Valid() && order < |v2rMaps|
      ensures r.Some? <==> value in sortedSequences[order]
      ensures r.Some? ==> r.value < |sortedSequences[order]| && sortedSequences[order][r.value] == value
    {
      RankAccess(sortedSequences[order], value);
      if value in v2rMaps[order] then Some(v2rMaps[order][value]) else None
    }

    /** `release`: the sequences, which map each rank back to its value. */
    function Release(): (counts: seq<seq<nat>>)
      reads this
      requires Valid()
      ensures |counts| == |v2rMaps|
      ensures forall o, v :: 0 <= o < |counts| && v in v2rMaps[o] ==>
        v2rMaps[o][v] < |counts[o]| && counts[o][v2rMaps[o][v]] == v
    {
      assert forall o, v :: 0 <= o < |sortedSequences| && v in v2rMaps[o] ==> v in sortedSequences[o] by {
        forall o, v | 0 <= o < |sortedSequences| && v in v2rMaps[o]
          ensures v in sortedSequences[o]
        {
          RankAccess(sortedSequences[o], v);
        }
      }
      forall o, v | 0 <= o < |sortedSequences| && v in v2rMaps[o]
        ensures v2rMaps[o][v] < |sortedSequences[o]| && sortedSequences[o][v2rMaps[o][v]] == v
      {
        RankAccess(sortedSequences[o], v);
      }
      sortedSequences
    }
  }

  /** The unit test's loop over one order. */
  method EatAll(b: CountsBuilder, xs: seq<nat>)
    requires b.Valid() && b.v2fMap == map[]
    modifies b
    ensures b.Valid() && b.v2fMap == Tally(xs)
    ensures b.sortedSequences == old(b.sortedSequences) && b.v2rMaps == old(b.v2rMaps)
  {
    for i := 0 to |xs|
      invariant b.Valid() && b.v2fMap == Tally(xs[..i])
      invariant b.sortedSequences == old(b.sortedSequences) && b.v2rMaps == old(b.v2rMaps)
    {
      assert xs[..i + 1][..i] == xs[..i];
      b.EatValue(xs[i]);
    }
    assert xs[..|xs|] == xs;
  }

  /** The unit test's first order: 2, 1, 4. */
  method FirstOrder(b: CountsBuilder)
    requires b.Valid() && b.Empty()
    modifies b
    ensures b.Valid() && b.v2fMap == map[] && b.sortedSequences == [[2, 1, 4]]
  {
    EatAll(b, FIRST_TEST);
    b.BuildSequence();
    FirstOracle(FrequencyOrderOf(Tally(FIRST_TEST)));
  }

  /** The unit test's second order: 1, 2. */
  method SecondOrder(b: CountsBuilder)
    requires b.Valid() && b.v2fMap == map[] && b.sortedSequences == [[2, 1, 4]]
    modifies b
    ensures b.Valid() && b.sortedSequences == [[2, 1, 4], [1, 2]]
  {
    EatAll(b, SECOND_TEST);
    b.BuildSequence();
    SecondOracle(FrequencyOrderOf(Tally(SECOND_TEST)));
  }

  /** The unit test: orders fed 2, 2, 1, 2, 4, 2, 1, 2, 1 and 2, 1, 2, 1,
      1, 1 rank 1, 2, 3, 4 as 1, 0, none, 2 and 1, 2 as 0, 1, and release
      the counts 2, 1, 4 and 1, 2. */
  method CountsBasicTest() returns (ranks: seq<Option<nat>>, counts: seq<seq<nat>>)
    ensures ranks == [Some(1), Some(0), None, Some(2), Some(0), Some(1)]
    ensures counts == [[2, 1, 4], [1, 2]]
  {
    var b := new CountsBuilder.Default();
    FirstOrder(b);
    SecondOrder(b);
    var first := b.sortedSequences[0];
    var second := b.sortedSequences[1];
    assert first[1] == 1 && first[0] == 2 && first[2] == 4;
    assert second[0] == 1 && second[1] == 2;
    ranks := [b.Rank(0, 1), b.Rank(0, 2), b.Rank(0, 3), b.Rank(0, 4), b.Rank(1, 1), b.Rank(1, 2)];
    counts := b.Release();
  }

  // ---------------------------------------------------------------------
  // `build_vocabulary`.

  /** Every count of `recs` has a rank in `ranks`. */
  predicate AllRanked(recs: seq<P.CountRecord>, ranks: map<nat, nat>) {
    forall i :: 0 <= i < |recs| ==> recs[i].count in ranks
  }

  /** The ranks of the counts of `recs`, in order. */
  function RanksOf(recs: seq<P.CountRecord>, ranks: map<nat, nat>): (r: seq<nat>)
    requires AllRanked(recs, ranks)
    ensures |r| == |recs| && forall i :: 0 <= i < |recs| ==> r[i] == ranks[recs[i].count]
  {
    seq(|recs|, i requires 0 <= i < |recs| => ranks[recs[i].count])
  }

  /** What `build_vocabulary` makes of the unigram file: the vocabulary of
      its grams, each with its position as id, and the unigram level, which
      holds only the count ranks. `rank(0, count).unwrap()` panics on a count
      without a rank. */
  function VocabularyOf(loaders: seq<Loader>, ranks: seq<map<nat, nat>>): (r: Outcome<Result<(S.SimpleVocabulary, SA.SimpleSortedArray), BuildError>>)
    requires |ranks| == |loaders|
    ensures r.Returned? && r.value.Ok? ==> loaders != []
  {
    if loaders == [] then Panicked
    else match Load(loaders[0])
      case Err(e) => Returned(Err(ParseFailed(e)))
      case Ok(recs) =>
        match S.BuildOf(Grams(recs))
        case Panicked => Panicked
        case Returned(Err(e)) => Returned(Err(VocabularyFailed(e)))
        case Returned(Ok(v)) =>
          if !AllRanked(recs, ranks[0]) then Panicked
          else Returned(Ok((v, SA.SimpleSortedArray(GS.SimpleGramsSequence([]), RanksOf(recs, ranks[0]), []))))
  }

  // ---------------------------------------------------------------------
  // `build_sorted_array`.

  /** The state of the merge of one order with the order below: the gram of
      the previous-order record the merge is at, the number of grams of this
      order so far, and the pointers, token ids and count ranks so far. */
  datatype MergeState = MergeState(prevGram: seq<byte>, pointer: nat, pointers: seq<nat>, tokenIds: seq<nat>, countRanks: seq<nat>)

  /** The inner `while pattern != prev_rec.gram()`: one pointer is pushed
      for every previous-order gram left behind. It stops at the pattern,
      at the end of the previous-order file (`break`), or on a bad line. */
  function Advance(prev: seq<Answer>, gram: seq<byte>, pattern: seq<byte>, pointer: nat, pointers: seq<nat>): (r: Result<(seq<Answer>, seq<byte>, seq<nat>), P.ParseError>)
    ensures r.Ok? ==> |r.value.0| <= |prev|
    ensures r.Ok? ==> |pointers| <= |r.value.2| && r.value.2[..|pointers|] == pointers
    ensures r.Ok? ==> forall k :: |pointers| <= k < |r.value.2| ==> r.value.2[k] == pointer
    decreases |prev|
  {
    if pattern == gram then Ok((prev, gram, pointers))
    else
      var pushed := pointers + [pointer];
      if prev == [] || prev[0].None? then Ok((Tail(prev), gram, pushed))
      else match prev[0].value
        case Err(e) => Err(e)
        case Ok(rec) =>
          var r := Advance(prev[1..], rec.gram, pattern, pointer, pushed);
          assert r.Ok? ==> r.value.2[..|pointers|] == pushed[..|pointers|];
          r
  }

  /** One record `rec` of the outer loop: advance the previous order to the
      record's prefix, then add the id of its last token and the rank of its
      count. It panics on a gram without a separator, on a token the
      vocabulary does not hold (or that is not UTF-8), and on a count
      without a rank. */
  function Attach(vocab: S.SimpleVocabulary, ranks: map<nat, nat>, rec: P.CountRecord, prev: seq<Answer>, st: MergeState): Outcome<Result<(seq<Answer>, MergeState), P.ParseError>> {
    match G.PopToken(rec.gram)
    case None => Panicked
    case Some((pattern, token)) =>
      match Advance(prev, st.prevGram, pattern, st.pointer, st.pointers)
      case Err(e) => Returned(Err(e))
      case Ok((rest, gram, pointers)) =>
        match S.Get(vocab, token)
        case Panicked => Panicked
        case Returned(None) => Panicked
        case Returned(Some(id)) =>
          if rec.count !in ranks then Panicked
          else Returned(Ok((rest, MergeState(gram, st.pointer + 1, pointers, st.tokenIds + [id], st.countRanks + [ranks[rec.count]]))))
  }

  /** The outer `for curr_rec in curr_gp`: attaches the records of this
      order one after another, up to the end of the file or a bad line. */
  function Merge(vocab: S.SimpleVocabulary, ranks: map<nat, nat>, curr: seq<Answer>, prev: seq<Answer>, st: MergeState): Outcome<Result<(seq<Answer>, MergeState), P.ParseError>>
    decreases |curr|
  {
    if curr == [] || curr[0].None? then Returned(Ok((prev, st)))
    else match curr[0].value
      case Err(e) => Returned(Err(e))
      case Ok(rec) =>
        match Attach(vocab, ranks, rec, prev, st)
        case Panicked => Panicked
        case Returned(Err(e)) => Returned(Err(e))
        case Returned(Ok((rest, next))) => Merge(vocab, ranks, curr[1..], rest, next)
  }

  /** The number of answers `for _ in prev_gp` still goes through. */
  function TailCount(rest: seq<Answer>): (n: nat)
    ensures n <= |rest|
  {
    if rest == [] || rest[0].None? then 0 else 1 + TailCount(rest[1..])
  }

  /** The level the merge ends in: one more pointer for every
      previous-order gram not reached, and the final one. */
  function Level(st: MergeState, rest: seq<Answer>): SA.SimpleSortedArray {
    var pointers := st.pointers + Repeat(st.pointer, TailCount(rest)) + [st.pointer];
    SA.SimpleSortedArray(GS.New(st.tokenIds, pointers), st.countRanks, pointers)
  }

  function Finish(m: Outcome<Result<(seq<Answer>, MergeState), P.ParseError>>): Outcome<Result<SA.SimpleSortedArray, BuildError>> {
    match m
    case Panicked => Panicked
    case Returned(Err(e)) => Returned(Err(ParseFailed(e)))
    case Returned(Ok((rest, st))) => Returned(Ok(Level(st, rest)))
  }

  /** What `build_sorted_array` makes of the file below (`prevLoader`) and the
      file of the order (`currLoader`): both parsers are opened first, then
      the first previous-order record is taken (`next().unwrap()?` panics
      on an empty file), and the merge starts with the pointer 0. */
  function SortedArrayOf(vocab: S.SimpleVocabulary, ranks: map<nat, nat>, prevLoader: Loader, currLoader: Loader): Outcome<Result<SA.SimpleSortedArray, BuildError>> {
    match prevLoader
    case Err(e) => Returned(Err(ParseFailed(e)))
    case Ok(prev) =>
      match currLoader
      case Err(e) => Returned(Err(ParseFailed(e)))
      case Ok(curr) =>
        if prev == [] || prev[0].None? then Panicked
        else match prev[0].value
          case Err(e) => Returned(Err(ParseFailed(e)))
          case Ok(first) => Finish(Merge(vocab, ranks, curr, prev[1..], MergeState(first.gram, 0, [0], [], [])))
  }

  // ---------------------------------------------------------------------
  // `build`.

  /** The rank map of every order. */
  function RankMaps(counts: seq<seq<nat>>): (r: seq<map<nat, nat>>)
    requires forall o :: 0 <= o < |counts| ==> Distinct(counts[o])
    ensures |r| == |counts| && forall o :: 0 <= o < |counts| ==> r[o] == RankMap(counts[o])
  {
    seq(|counts|, o requires 0 <= o < |counts| => RankMap(counts[o]))
  }

  /** The levels of the orders 1 to `n`, built in turn; the first that
      panics or fails ends the build. */
  function LevelsOf(vocab: S.SimpleVocabulary, ranks: seq<map<nat, nat>>, loaders: seq<Loader>, n: nat): (r: Outcome<Result<seq<SA.SimpleSortedArray>, BuildError>>)
    requires n < |loaders| && |ranks| == |loaders|
    ensures r.Returned? && r.value.Ok? ==> |r.value.value| == n
  {
    if n == 0 then Returned(Ok([]))
    else Extend(LevelsOf(vocab, ranks, loaders, n - 1), SortedArrayOf(vocab, ranks[n], loaders[n - 1], loaders[n]))
  }

  /** After the orders below `n` have built as `levels`, the orders up to
      `n` end as order `n` does, with its level pushed. */
  lemma LevelsNext(vocab: S.SimpleVocabulary, ranks: seq<map<nat, nat>>, loaders: seq<Loader>, n: nat, levels: seq<SA.SimpleSortedArray>, next: Outcome<Result<SA.SimpleSortedArray, BuildError>>)
    requires 1 <= n < |loaders| && |ranks| == |loaders|
    requires LevelsOf(vocab, ranks, loaders, n - 1) == Returned(Ok(levels))
    requires next == SortedArrayOf(vocab, ranks[n], loaders[n - 1], loaders[n])
    ensures Done(LevelsOf(vocab, ranks, loaders, n)) == Done(next)
    ensures next.Returned? && next.value.Ok? ==> LevelsOf(vocab, ranks, loaders, n) == Returned(Ok(levels + Pushed(next)))
  {
    ExtendBuilt(LevelsOf(vocab, ranks, loaders, n - 1), next);
  }

  /** Once the orders up to `i` have not built, neither has any larger set
      of orders. */
  lemma {:induction false} LevelsStop(vocab: S.SimpleVocabulary, ranks: seq<map<nat, nat>>, loaders: seq<Loader>, i: nat, n: nat)
    requires i <= n < |loaders| && |ranks| == |loaders|
    requires !(LevelsOf(vocab, ranks, loaders, i).Returned? && LevelsOf(vocab, ranks, loaders, i).value.Ok?)
    ensures LevelsOf(vocab, ranks, loaders, n) == LevelsOf(vocab, ranks, loaders, i)
    decreases n - i
  {
    if i < n {
      LevelsStop(vocab, ranks, loaders, i, n - 1);
    }
  }

  /** What `build` returns: the first file that does not load, or the
      vocabulary's failure, or the first level's failure (each as soon as it
      happens, panics included), or the index: the highest order, the
      vocabulary, the unigram level followed by the levels of the orders 1
      to the highest, and the count values of each order in rank order. */
  ghost function BuildOf(loaders: seq<Loader>): Outcome<Result<BuiltCountLm, BuildError>> {
    match LoadAll(loaders)
    case Err(e) => Returned(Err(ParseFailed(e)))
    case Ok(recss) =>
      var counts := OrdersOf(recss);
      var ranks := RankMaps(counts);
      match VocabularyOf(loaders, ranks)
      case Panicked => Panicked
      case Returned(Err(e)) => Returned(Err(e))
      case Returned(Ok((vocab, unigrams))) =>
        match LevelsOf(vocab, ranks, loaders, |loaders| - 1)
        case Panicked => Panicked
        case Returned(Err(e)) => Returned(Err(e))
        case Returned(Ok(levels)) => Returned(Ok(BuiltCountLm(|loaders| - 1, vocab, [unigrams] + levels, counts)))
  }

  /** `BuildOf` at the end of a build in which every step succeeded. */
  lemma BuiltFrom(loaders: seq<Loader>, counts: seq<seq<nat>>, vocab: S.SimpleVocabulary, unigrams: SA.SimpleSortedArray, levels: seq<SA.SimpleSortedArray>)
    requires LoadAll(loaders).Ok? && counts == OrdersOf(LoadAll(loaders).value)
    requires VocabularyOf(loaders, RankMaps(counts)) == Returned(Ok((vocab, unigrams)))
    requires LevelsOf(vocab, RankMaps(counts), loaders, |loaders| - 1) == Returned(Ok(levels))
    ensures BuildOf(loaders) == Returned(Ok(BuiltCountLm(|loaders| - 1, vocab, [unigrams] + levels, counts)))
  {
  }

  /** The loop of `while pattern != prev_rec.gram()`, on the previous-order
      parser. */
  method Seek(pp: StreamParser, gram: seq<byte>, pattern: seq<byte>, pointer: nat, pointers: seq<nat>)
    returns (r: Result<(seq<byte>, seq<nat>), P.ParseError>)
    modifies pp
    ensures var a := Advance(old(pp.rest), gram, pattern, pointer, pointers);
      && (r.Ok? <==> a.Ok?)
      && (r.Ok? ==> r.value == (a.value.1, a.value.2) && pp.rest == a.value.0)
      && (r.Err? ==> r.error == a.error)
  {
    var g := gram;
    var ps := pointers;
    while pattern != g
      invariant Advance(old(pp.rest), gram, pattern, pointer, pointers) == Advance(pp.rest, g, pattern, pointer, ps)
      decreases |pp.rest|
    {
      ps := ps + [pointer];
      var next := pp.Next();
      if next.None? {
        return Ok((g, ps));
      }
      if next.value.Err? {
        return Err(next.value.error);
      }
      g := next.value.value.gram;
    }
    return Ok((g, ps));
  }

  /** `for _ in prev_gp { pointers.push(pointer) }`. */
  method PushRest(pp: StreamParser, pointer: nat, pointers: seq<nat>) returns (ps: seq<nat>)
    modifies pp
    ensures ps == pointers + Repeat(pointer, TailCount(old(pp.rest)))
  {
    ps := pointers;
    while true
      invariant ps + Repeat(pointer, TailCount(pp.rest)) == pointers + Repeat(pointer, TailCount(old(pp.rest)))
      decreases |pp.rest|
    {
      ghost var before := pp.rest;
      var next := pp.Next();
      if next.None? {
        break;
      }
      assert Repeat(pointer, TailCount(before)) == [pointer] + Repeat(pointer, TailCount(pp.rest));
      ps := ps + [pointer];
    }
  }

  /** `for rec in gp { self.counts_builder.eat_value(rec?.count()) }` on one
      file. */
  method EatFile(cb: CountsBuilder, loader: Loader) returns (r: Result<(), P.ParseError>)
    requires cb.Valid() && cb.v2fMap == map[]
    modifies cb
    ensures cb.Valid()
    ensures cb.sortedSequences == old(cb.sortedSequences) && cb.v2rMaps == old(cb.v2rMaps)
    ensures r.Ok? <==> Load(loader).Ok?
    ensures r.Err? ==> r.error == Load(loader).error
    ensures r.Ok? ==> cb.v2fMap == Tally(Counts(Load(loader).value))
  {
    var parser := OpenLoader(loader);
    if parser.Err? {
      return Err(parser.error);
    }
    var gp := parser.value;
    ghost var all := gp.rest;
    ghost var done: seq<P.CountRecord> := [];
    PrependNothing(P.Collect(all));
    while true
      invariant P.Collect(all) == Prepend(done, P.Collect(gp.rest))
      invariant cb.Valid() && cb.v2fMap == Tally(Counts(done))
      invariant cb.sortedSequences == old(cb.sortedSequences) && cb.v2rMaps == old(cb.v2rMaps)
      decreases |gp.rest|
    {
      ghost var before := gp.rest;
      var next := gp.Next();
      if next.None? {
        AppendEmpty(done);
        break;
      }
      if next.value.Err? {
        return Err(next.value.error);
      }
      var rec := next.value.value;
      assert P.Collect(before) == Prepend([rec], P.Collect(gp.rest));
      PrependOne(done, rec, P.Collect(gp.rest));
      cb.EatValue(rec.count);
      assert Counts(done + [rec])[..|done|] == Counts(done);
      done := done + [rec];
    }
    return Ok(());
  }

  /** The builder. The loaders are the files' bytes, lowest order first. */
  class Builder {
    const loaders: seq<Loader>
    var vocab: S.SimpleVocabulary
    var arrays: seq<SA.SimpleSortedArray>
    const countsBuilder: CountsBuilder

    /** `new(loaders)`. */
    constructor New(loaders: seq<Loader>)
      ensures this.loaders == loaders && vocab == S.New() && arrays == []
      ensures fresh(countsBuilder) && countsBuilder.Valid() && countsBuilder.Empty()
    {
      this.loaders := loaders;
      vocab := S.New();
      arrays := [];
      countsBuilder := new CountsBuilder.Default();
    }

    /** `build`: counts, vocabulary, then the levels of the orders 1 to the
        highest, each ending the build on failure. */
    method Build() returns (r: Outcome<Result<BuiltCountLm, BuildError>>)
      requires countsBuilder.Valid() && countsBuilder.Empty() && arrays == []
      modifies this, countsBuilder
      ensures r == BuildOf(loaders)
    {
      var counted := BuildCounts();
      if counted.Err? {
        return Returned(Err(counted.error));
      }
      ghost var counts := countsBuilder.sortedSequences;
      ghost var ranks := countsBuilder.v2rMaps;
      assert ranks == RankMaps(counts);
      ghost var vocabulary := VocabularyOf(loaders, ranks);
      var built := BuildVocabulary();
      if built.Panicked? {
        return Panicked;
      }
      if built.value.Err? {
        return Returned(Err(built.value.error));
      }
      var maxOrder := |loaders| - 1;
      ghost var unigrams := vocabulary.value.value.1;
      assert arrays == [unigrams];
      var levels := BuildLevels(ranks, maxOrder);
      if levels.Panicked? {
        return Panicked;
      }
      if levels.value.Err? {
        return Returned(Err(levels.value.error));
      }
      assert arrays == [unigrams] + LevelsOf(vocab, ranks, loaders, maxOrder).value.value;
      BuiltFrom(loaders, counts, vocab, unigrams, LevelsOf(vocab, ranks, loaders, maxOrder).value.value);
      var counts' := countsBuilder.Release();
      assert counts' == counts;
      return Returned(Ok(BuiltCountLm(maxOrder, vocab, arrays, counts')));
    }

    /** `for order in 1..=max_order { self.build_sorted_array(order)? }`. */
    method BuildLevels(ghost ranks: seq<map<nat, nat>>, maxOrder: nat) returns (r: Outcome<Result<(), BuildError>>)
      requires countsBuilder.Valid() && countsBuilder.v2rMaps == ranks
      requires maxOrder < |loaders| == |ranks|
      modifies this
      ensures vocab == old(vocab)
      ensures r == Done(LevelsOf(vocab, ranks, loaders, maxOrder))
      ensures r.Returned? && r.value.Ok? ==> arrays == old(arrays) + LevelsOf(vocab, ranks, loaders, maxOrder).value.value
    {
      ghost var levels: seq<SA.SimpleSortedArray> := [];
      for order := 1 to maxOrder + 1
        invariant vocab == old(vocab)
        invariant countsBuilder.Valid() && countsBuilder.v2rMaps == ranks
        invariant LevelsOf(vocab, ranks, loaders, order - 1) == Returned(Ok(levels))
        invariant arrays == old(arrays) + levels
      {
        ghost var next := SortedArrayOf(vocab, ranks[order], loaders[order - 1], loaders[order]);
        LevelsNext(vocab, ranks, loaders, order, levels, next);
        var level := BuildSortedArray(order);
        if !level.Returned? || level.value.Err? {
          LevelsStop(vocab, ranks, loaders, order, maxOrder);
          return level;
        }
        Associative(old(arrays), levels, Pushed(next));
        levels := levels + Pushed(next);
      }
      return Returned(Ok(()));
    }

    /** `build_counts`: one value order per file, in file order; the first
        file that does not load ends the build. */
    method BuildCounts() returns (r: Result<(), BuildError>)
      requires countsBuilder.Valid() && countsBuilder.Empty()
      modifies countsBuilder
      ensures countsBuilder.Valid()
      ensures r.Ok? <==> LoadAll(loaders).Ok?
      ensures r.Err? ==> r.error == ParseFailed(LoadAll(loaders).error)
      ensures r.Ok? ==> countsBuilder.sortedSequences == OrdersOf(LoadAll(loaders).value)
    {
      for o := 0 to |loaders|
        invariant countsBuilder.Valid() && countsBuilder.v2fMap == map[]
        invariant LoadAll(loaders[..o]).Ok?
        invariant countsBuilder.sortedSequences == OrdersOf(LoadAll(loaders[..o]).value)
      {
        LoadAllNext(loaders, o);
        var eaten := EatFile(countsBuilder, loaders[o]);
        if eaten.Err? {
          LoadAllStops(loaders, o + 1);
          return Err(ParseFailed(eaten.error));
        }
        ghost var recss := LoadAll(loaders[..o]).value;
        ghost var recs := Load(loaders[o]).value;
        countsBuilder.BuildSequence();
        OrdersAppend(recss, recs);
      }
      assert loaders[..|loaders|] == loaders;
      return Ok(());
    }

    /** `build_vocabulary`. */
    method BuildVocabulary() returns (r: Outcome<Result<(), BuildError>>)
      requires countsBuilder.Valid() && |countsBuilder.v2rMaps| == |loaders|
      modifies this
      ensures r == Done(VocabularyOf(loaders, countsBuilder.v2rMaps))
      ensures VocabularyOf(loaders, countsBuilder.v2rMaps).Returned? && VocabularyOf(loaders, countsBuilder.v2rMaps).value.Ok? ==>
        var (v, unigrams) := VocabularyOf(loaders, countsBuilder.v2rMaps).value.value;
        vocab == v && arrays == old(arrays) + [unigrams]
    {
      if |loaders| == 0 {
        return Panicked;
      }
      var records := U.LoadRecords(loaders[0]);
      if records.Err? {
        return Returned(Err(ParseFailed(records.error)));
      }
      var recs := records.value;
      var built := S.Build(Grams(recs));
      if built.Panicked? {
        return Panicked;
      }
      if built.value.Err? {
        return Returned(Err(VocabularyFailed(built.value.error)));
      }
      vocab := built.value.value;
      var sab := new SA.SortedArrayBuilder.New(|recs|, 0, 0, 0);
      var ranked := AddCountRanks(sab, recs);
      if !ranked {
        return Panicked;
      }
      arrays := arrays + [sab.ReleaseCountsRanks()];
      return Returned(Ok(()));
    }

    /** `for rec in &records { sa_builder.add_count_rank(rank(0, rec.count).unwrap()) }`,
        `false` where the unwrap panics. */
    method AddCountRanks(sab: SA.SortedArrayBuilder, recs: seq<P.CountRecord>) returns (ranked: bool)
      requires countsBuilder.Valid() && |countsBuilder.v2rMaps| > 0
      requires sab.tokenIds == [] && sab.countRanks == []
      modifies sab
      ensures ranked <==> AllRanked(recs, countsBuilder.v2rMaps[0])
      ensures ranked ==> sab.tokenIds == [] && sab.countRanks == RanksOf(recs, countsBuilder.v2rMaps[0])
    {
      for i := 0 to |recs|
        invariant AllRanked(recs[..i], countsBuilder.v2rMaps[0])
        invariant sab.countRanks == RanksOf(recs[..i], countsBuilder.v2rMaps[0])
        invariant sab.tokenIds == []
      {
        var rank := countsBuilder.Rank(0, recs[i].count);
        if rank.None? {
          return false;
        }
        sab.AddCountRank(rank.value);
        assert recs[..i + 1][..i] == recs[..i];
      }
      assert recs[..|recs|] == recs;
      return true;
    }

    /** The body of `for curr_rec in curr_gp` for one record. */
    method AttachRecord(order: nat, pp: StreamParser, sab: SA.SortedArrayBuilder, rec: P.CountRecord, prevGram: seq<byte>, pointer: nat, pointers: seq<nat>)
      returns (r: Outcome<Result<(), BuildError>>, gram: seq<byte>, ps: seq<nat>)
      requires countsBuilder.Valid() && order < |countsBuilder.v2rMaps|
      modifies pp, sab
      ensures var a := Attach(vocab, countsBuilder.v2rMaps[order], rec, old(pp.rest), MergeState(prevGram, pointer, pointers, old(sab.tokenIds), old(sab.countRanks)));
        && (r.Panicked? <==> a.Panicked?)
        && (a.Returned? && a.value.Err? ==> r == Returned(Err(ParseFailed(a.value.error))))
        && (a.Returned? && a.value.Ok? ==>
              && r == Returned(Ok(()))
              && a.value.value == (pp.rest, MergeState(gram, pointer + 1, ps, sab.tokenIds, sab.countRanks)))
    {
      gram, ps := prevGram, pointers;
      var popped := G.PopToken(rec.gram);
      if popped.None? {
        return Panicked, gram, ps;
      }
      var (pattern, token) := popped.value;
      var seek := Seek(pp, prevGram, pattern, pointer, pointers);
      if seek.Err? {
        return Returned(Err(ParseFailed(seek.error))), gram, ps;
      }
      gram, ps := seek.value.0, seek.value.1;
      var id := S.Get(vocab, token);
      if id.Panicked? || id.value.None? {
        return Panicked, gram, ps;
      }
      var rank := countsBuilder.Rank(order, rec.count);
      if rank.None? {
        return Panicked, gram, ps;
      }
      sab.Add(id.value.value, rank.value);
      return Returned(Ok(())), gram, ps;
    }

    /** The `for curr_rec in curr_gp` loop of `build_sorted_array`, from the
        first previous-order gram with the pointer 0. */
    method MergeRecords(order: nat, pp: StreamParser, cp: StreamParser, sab: SA.SortedArrayBuilder, firstGram: seq<byte>)
      returns (r: Outcome<Result<(), BuildError>>, gram: seq<byte>, pointer: nat, pointers: seq<nat>)
      requires countsBuilder.Valid() && order < |countsBuilder.v2rMaps|
      requires pp != cp && sab.tokenIds == [] && sab.countRanks == []
      modifies pp, cp, sab
      ensures var m := Merge(vocab, countsBuilder.v2rMaps[order], old(cp.rest), old(pp.rest), MergeState(firstGram, 0, [0], [], []));
        && (r.Panicked? <==> m.Panicked?)
        && (m.Returned? && m.value.Err? ==> r == Returned(Err(ParseFailed(m.value.error))))
        && (m.Returned? && m.value.Ok? ==>
              && r == Returned(Ok(()))
              && m.value.value == (pp.rest, MergeState(gram, pointer, pointers, sab.tokenIds, sab.countRanks)))
    {
      ghost var ranks := countsBuilder.v2rMaps[order];
      ghost var spec := Merge(vocab, ranks, cp.rest, pp.rest, MergeState(firstGram, 0, [0], [], []));
      gram, pointer, pointers := firstGram, 0, [0];
      while true
        invariant spec == Merge(vocab, ranks, cp.rest, pp.rest, MergeState(gram, pointer, pointers, sab.tokenIds, sab.countRanks))
        decreases |cp.rest|
      {
        var next := cp.Next();
        if next.None? {
          break;
        }
        if next.value.Err? {
          return Returned(Err(ParseFailed(next.value.error))), gram, pointer, pointers;
        }
        var attached;
        attached, gram, pointers := AttachRecord(order, pp, sab, next.value.value, gram, pointer, pointers);
        if !attached.Returned? || attached.value.Err? {
          return attached, gram, pointer, pointers;
        }
        pointer := pointer + 1;
      }
      return Returned(Ok(())), gram, pointer, pointers;
    }

    /** `build_sorted_array(order)`. */
    method BuildSortedArray(order: nat) returns (r: Outcome<Result<(), BuildError>>)
      requires countsBuilder.Valid() && 1 <= order < |loaders| && order < |countsBuilder.v2rMaps|
      modifies this
      ensures vocab == old(vocab)
      ensures r == Done(SortedArrayOf(vocab, countsBuilder.v2rMaps[order], loaders[order - 1], loaders[order]))
      ensures arrays == old(arrays) + Pushed(SortedArrayOf(vocab, countsBuilder.v2rMaps[order], loaders[order - 1], loaders[order]))
    {
      ghost var ranks := countsBuilder.v2rMaps[order];
      var prevParser := OpenLoader(loaders[order - 1]);
      if prevParser.Err? {
        return Returned(Err(ParseFailed(prevParser.error)));
      }
      var currParser := OpenLoader(loaders[order]);
      if currParser.Err? {
        return Returned(Err(ParseFailed(currParser.error)));
      }
      var pp := prevParser.value;
      var cp := currParser.value;
      var sab := new SA.SortedArrayBuilder.New(|cp.rest|, 0, 0, 0);
      var first := pp.Next();
      if first.None? {
        return Panicked;
      }
      if first.value.Err? {
        return Returned(Err(ParseFailed(first.value.error)));
      }
      ghost var spec := Merge(vocab, ranks, cp.rest, pp.rest, MergeState(first.value.value.gram, 0, [0], [], []));
      assert SortedArrayOf(vocab, ranks, loaders[order - 1], loaders[order]) == Finish(spec);
      var merged, gram, pointer, pointers := MergeRecords(order, pp, cp, sab, first.value.value.gram);
      if !merged.Returned? || merged.value.Err? {
        return merged;
      }
      var ps := PushRest(pp, pointer, pointers);
      ps := ps + [pointer];
      arrays := arrays + [sab.Release(ps)];
      return Returned(Ok(()));
    }
  }
}
