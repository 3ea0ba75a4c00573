/** The `sort_grams` tool: it reads a vocabulary file and a count file,
    maps every gram to the vocabulary ids of its tokens, sorts the records
    by those ids, and writes the count file again in that order under the
    output name with the format's extension. Files are given as their bytes
    after decompression, and the output as its name and its bytes before
    compression. */
module SortGrams {
  import opened Common
  import opened Order
  import opened MappedRecords
  import P = Parser
  import G = Gram
  import D = DoubleArrayVocabulary
  import U = Util
  import ParserStreams
  import Dec = Decimal

  // ---------------------------------------------------------------------
  // Mapping the records.

  /** `rec.gram().split_to_tokens()`. */
  function Tokens(rec: P.CountRecord): seq<seq<byte>> {
    G.SplitToTokens(rec.gram)
  }

  /** Every token is in the vocabulary. */
  predicate Known(vocab: D.DoubleArrayVocabulary, tokens: seq<seq<byte>>) {
    forall k :: 0 <= k < |tokens| ==> D.Get(vocab, tokens[k]).Some?
  }

  /** The records map without a panic: all have as many tokens as the first
      (the `assert_eq!` on the order), and every token has an id (the
      `unwrap` of `vocab.get`). */
  predicate Mappable(vocab: D.DoubleArrayVocabulary, records: seq<P.CountRecord>) {
    && (forall i :: 0 <= i < |records| ==> |Tokens(records[i])| == |Tokens(records[0])|)
    && (forall i :: 0 <= i < |records| ==> Known(vocab, Tokens(records[i])))
  }

  /** The ids of some known tokens. */
  function IdsOf(vocab: D.DoubleArrayVocabulary, tokens: seq<seq<byte>>): (ids: seq<nat>)
    requires Known(vocab, tokens)
    ensures |ids| == |tokens|
  {
    seq(|tokens|, k requires 0 <= k < |tokens| => D.Get(vocab, tokens[k]).value)
  }

  /** The mapped records of `records`, each at its own position. */
  function MappedOf(vocab: D.DoubleArrayVocabulary, records: seq<P.CountRecord>): (mapped: seq<MappedRecord>)
    requires forall i :: 0 <= i < |records| ==> Known(vocab, Tokens(records[i]))
    ensures |mapped| == |records|
  {
    seq(|records|, i requires 0 <= i < |records| => MappedRecord(IdsOf(vocab, Tokens(records[i])), i))
  }

  /** The inner loop of the mapping: `vocab.get(token).unwrap()` for each
      token, panicking on the first token without an id. */
  method MapTokens(vocab: D.DoubleArrayVocabulary, tokens: seq<seq<byte>>) returns (r: Outcome<seq<nat>>)
    ensures r.Panicked? <==> !Known(vocab, tokens)
    ensures r.Returned? ==> Known(vocab, tokens) && r.value == IdsOf(vocab, tokens)
  {
    var ids: seq<nat> := [];
    for k := 0 to |tokens|
      invariant Known(vocab, tokens[..k])
      invariant ids == IdsOf(vocab, tokens[..k])
    {
      var id := D.Get(vocab, tokens[k]);
      if id.None? {
        return Panicked;
      }
      assert tokens[..k + 1] == tokens[..k] + [tokens[k]];
      ids := ids + [id.value];
    }
    assert tokens[..|tokens|] == tokens;
    return Returned(ids);
  }

  /** The mapping loop of `main`: panics on a record whose number of tokens
      differs from the first record's, or on a token without an id; gives
      every record its token ids and its position otherwise. */
  method MapRecords(vocab: D.DoubleArrayVocabulary, records: seq<P.CountRecord>) returns (r: Outcome<seq<MappedRecord>>)
    ensures r.Panicked? <==> !Mappable(vocab, records)
    ensures r.Returned? ==> r.value == MappedOf(vocab, records)
  {
    var mapped: seq<MappedRecord> := [];
    var order: Option<nat> := None;
    for recordId := 0 to |records|
      invariant order == if recordId == 0 then None else Some(|Tokens(records[0])|)
      invariant Mappable(vocab, records[..recordId])
      invariant mapped == MappedOf(vocab, records[..recordId])
    {
      var tokens := G.SplitToTokens(records[recordId].gram);
      assert tokens == Tokens(records[recordId]);
      if order.None? {
        order := Some(|tokens|);
      } else if order.value != |tokens| {
        return Panicked;
      }
      var ids := MapTokens(vocab, tokens);
      if ids.Panicked? {
        return Panicked;
      }
      MappedNext(vocab, records, recordId);
      mapped := mapped + [MappedRecord(ids.value, recordId)];
    }
    assert records[..|records|] == records;
    return Returned(mapped);
  }

  /** One more record that maps keeps the prefix mappable and extends its
      mapped records by one. */
  lemma MappedNext(vocab: D.DoubleArrayVocabulary, records: seq<P.CountRecord>, n: nat)
    requires n < |records| && Mappable(vocab, records[..n])
    requires n > 0 ==> |Tokens(records[n])| == |Tokens(records[0])|
    requires Known(vocab, Tokens(records[n]))
    ensures Mappable(vocab, records[..n + 1])
    ensures MappedOf(vocab, records[..n + 1]) == MappedOf(vocab, records[..n]) + [MappedRecord(IdsOf(vocab, Tokens(records[n])), n)]
  {
    var pre := records[..n];
    var next := records[..n + 1];
    assert next == pre + [records[n]];
    MappableSnoc(vocab, pre, records[n]);
    MappedOfSnoc(vocab, pre, records[n]);
  }

  lemma MappableSnoc(vocab: D.DoubleArrayVocabulary, pre: seq<P.CountRecord>, rec: P.CountRecord)
    requires Mappable(vocab, pre)
    requires pre != [] ==> |Tokens(rec)| == |Tokens(pre[0])|
    requires Known(vocab, Tokens(rec))
    ensures Mappable(vocab, pre + [rec])
  {
    var next := pre + [rec];
    forall i | 0 <= i < |next|
      ensures |Tokens(next[i])| == |Tokens(next[0])| && Known(vocab, Tokens(next[i]))
    {
      if i < |pre| {
        assert next[i] == pre[i];
      }
    }
  }

  lemma MappedOfSnoc(vocab: D.DoubleArrayVocabulary, pre: seq<P.CountRecord>, rec: P.CountRecord)
    requires forall i :: 0 <= i < |pre| ==> Known(vocab, Tokens(pre[i]))
    requires Known(vocab, Tokens(rec))
    ensures forall i :: 0 <= i < |pre + [rec]| ==> Known(vocab, Tokens((pre + [rec])[i]))
    ensures MappedOf(vocab, pre + [rec]) == MappedOf(vocab, pre) + [MappedRecord(IdsOf(vocab, Tokens(rec)), |pre|)]
  {
    var next := pre + [rec];
    assert forall i :: 0 <= i < |pre| ==> next[i] == pre[i];
    var l := MappedOf(vocab, next);
    var r := MappedOf(vocab, pre) + [MappedRecord(IdsOf(vocab, Tokens(rec)), |pre|)];
    forall i | 0 <= i < |next|
      ensures l[i] == r[i]
    {
    }
  }

  /** With the vocabulary of a file of grams, the id of a token is the
      position of that token in the file. */
  lemma IdsName(vocab: D.DoubleArrayVocabulary, grams: seq<seq<byte>>, tokens: seq<seq<byte>>)
    requires IndexMap(vocab.data, grams) && Known(vocab, tokens)
    ensures forall k :: 0 <= k < |tokens| ==> IdsOf(vocab, tokens)[k] < |grams| && grams[IdsOf(vocab, tokens)[k]] == tokens[k]
  {
    forall k | 0 <= k < |tokens|
      ensures IdsOf(vocab, tokens)[k] < |grams| && grams[IdsOf(vocab, tokens)[k]] == tokens[k]
    {
      assert tokens[k] in vocab.data;
      assert tokens[k] in grams;
      var j :| 0 <= j < |grams| && grams[j] == tokens[k];
    }
  }

  /** The mapping loses nothing: a record's gram is the vocabulary tokens
      its ids name, joined by spaces, so records with the same ids have the
      same gram. */
  lemma GramOfIds(vocab: D.DoubleArrayVocabulary, grams: seq<seq<byte>>, rec: P.CountRecord)
    requires IndexMap(vocab.data, grams) && Known(vocab, Tokens(rec))
    ensures var ids := IdsOf(vocab, Tokens(rec));
      (forall k :: 0 <= k < |ids| ==> ids[k] < |grams|)
      && Join(seq(|ids|, k requires 0 <= k < |ids| && ids[k] < |grams| => grams[ids[k]]), G.SEPARATOR) == rec.gram
  {
    var ids := IdsOf(vocab, Tokens(rec));
    IdsName(vocab, grams, Tokens(rec));
    assert seq(|ids|, k requires 0 <= k < |ids| && ids[k] < |grams| => grams[ids[k]]) == Tokens(rec);
  }

  /** Two records that map to the same ids have the same gram. */
  lemma SameIdsSameGram(vocab: D.DoubleArrayVocabulary, grams: seq<seq<byte>>, a: P.CountRecord, b: P.CountRecord)
    requires IndexMap(vocab.data, grams) && Known(vocab, Tokens(a)) && Known(vocab, Tokens(b))
    requires IdsOf(vocab, Tokens(a)) == IdsOf(vocab, Tokens(b))
    ensures a.gram == b.gram
  {
    GramOfIds(vocab, grams, a);
    GramOfIds(vocab, grams, b);
  }

  /** Every vocabulary of the same grams maps the same way. */
  lemma IndexMapUnique(m1: map<seq<byte>, nat>, m2: map<seq<byte>, nat>, grams: seq<seq<byte>>)
    requires IndexMap(m1, grams) && IndexMap(m2, grams)
    ensures m1 == m2
  {
    forall g | g in m1
      ensures g in m2 && m1[g] == m2[g]
    {
      var j :| 0 <= j < |grams| && grams[j] == g;
    }
  }

  // ---------------------------------------------------------------------
  // Writing the output.

  /** Every mapped record points at one of the records. */
  predicate InRange(records: seq<P.CountRecord>, s: seq<MappedRecord>) {
    forall k :: 0 <= k < |s| ==> s[k].recordId < |records|
  }

  /** The records the output lists: `records[mr.record_id]` for each
      sorted record. */
  function RecordsOf(records: seq<P.CountRecord>, sorted: seq<MappedRecord>): (out: seq<P.CountRecord>)
    requires InRange(records, sorted)
    ensures |out| == |sorted|
  {
    seq(|sorted|, k requires 0 <= k < |sorted| => records[sorted[k].recordId])
  }

  lemma {:induction false} FormatCountLinesSnoc(recs: seq<P.CountRecord>, rec: P.CountRecord)
    ensures P.FormatCountLines(recs + [rec]) == P.FormatCountLines(recs) + P.FormatCountLine(rec)
  {
    if recs == [] {
      assert [] + [rec] == [rec];
      assert P.FormatCountLines([rec]) == P.FormatCountLine(rec) + P.FormatCountLines([]);
    } else {
      assert (recs + [rec])[1..] == recs[1..] + [rec];
      FormatCountLinesSnoc(recs[1..], rec);
    }
  }

  /** `write_records`: the number of records on the first line, then the
      gram and the count of each sorted record's original, tab separated,
      one per line. */
  method WriteRecords(records: seq<P.CountRecord>, sorted: seq<MappedRecord>) returns (text: seq<byte>)
    requires InRange(records, sorted)
    ensures text == Dec.FormatUsize(|records|) + [LF] + P.FormatCountLines(RecordsOf(records, sorted))
  {
    var header := Dec.FormatUsize(|records|) + [LF];
    text := header;
    for k := 0 to |sorted|
      invariant text == header + P.FormatCountLines(RecordsOf(records, sorted[..k]))
    {
      var rec := records[sorted[k].recordId];
      assert RecordsOf(records, sorted[..k + 1]) == RecordsOf(records, sorted[..k]) + [rec];
      FormatCountLinesSnoc(RecordsOf(records, sorted[..k]), rec);
      text := text + (rec.gram + [TAB] + Dec.FormatUsize(rec.count) + [LF]);
    }
    assert sorted[..|sorted|] == sorted;
  }

  /** The output file name: the path, then `.` and the extension unless the
      format is plain. */
  function OutputName(path: string, fmt: U.GramsFileFormat): (name: string)
    ensures U.FormatExtension(fmt).None? ==> name == path
    ensures U.FormatExtension(fmt).Some? ==> name == path + "." + U.FormatExtension(fmt).value
  {
    match U.FormatExtension(fmt)
    case None => path
    case Some(ext) => path + "." + ext
  }

  /** What follows the last `.` of a name, or nothing when it has none. */
  function ExtensionOf(name: string): string {
    match RevPosition(name, '.')
    case None => ""
    case Some(d) => name[|name| - d..]
  }

  /** The output name keeps the path in front, and the part after its last
      `.` names the format again. */
  lemma OutputNameFormat(path: string, fmt: U.GramsFileFormat)
    requires fmt != U.Plain
    ensures OutputName(path, fmt)[..|path|] == path
    ensures U.FormatOfExtension(ExtensionOf(OutputName(path, fmt))) == Some(fmt)
  {
    var ext := U.FormatExtension(fmt).value;
    var name := OutputName(path, fmt);
    assert name[..|path|] == path;
    assert name[|path|] == '.';
    assert name[|path| + 1..] == ext;
    U.ExtensionRoundTrip(fmt, ext);
  }

  // ---------------------------------------------------------------------
  // The tool.

  /** Every mapped record, sorted or not, points at one of the records. */
  lemma SortedPositions(vocab: D.DoubleArrayVocabulary, records: seq<P.CountRecord>, sorted: seq<MappedRecord>)
    requires forall i :: 0 <= i < |records| ==> Known(vocab, Tokens(records[i]))
    requires multiset(sorted) == multiset(MappedOf(vocab, records))
    ensures InRange(records, sorted)
  {
    var mapped := MappedOf(vocab, records);
    forall k | 0 <= k < |sorted|
      ensures sorted[k].recordId < |records|
    {
      assert sorted[k] in multiset(mapped);
      var i :| 0 <= i < |mapped| && mapped[i] == sorted[k];
    }
  }

  /** The records of the output: the originals in the sorted order of their
      mapped records. */
  function SortedOutput(vocab: D.DoubleArrayVocabulary, records: seq<P.CountRecord>): (out: seq<P.CountRecord>)
    requires forall i :: 0 <= i < |records| ==> Known(vocab, Tokens(records[i]))
    ensures |out| == |records|
  {
    var sorted := SortRecords(MappedOf(vocab, records));
    SortedPositions(vocab, records, sorted);
    RecordsOf(records, sorted)
  }

  /** A reordering points at the same records. */
  lemma InRangePermutation(records: seq<P.CountRecord>, a: seq<MappedRecord>, b: seq<MappedRecord>)
    requires InRange(records, a) && multiset(a) == multiset(b)
    ensures InRange(records, b)
  {
    forall k | 0 <= k < |b|
      ensures b[k].recordId < |records|
    {
      assert b[k] in multiset(a);
    }
  }

  /** Taking one mapped record out takes its record out of the records the
      rest point at. */
  lemma RecordsOfRemove(records: seq<P.CountRecord>, b: seq<MappedRecord>, j: nat)
    requires InRange(records, b) && j < |b|
    ensures InRange(records, b[..j] + b[j + 1..])
    ensures multiset(RecordsOf(records, b)) == multiset(RecordsOf(records, b[..j] + b[j + 1..])) + multiset{records[b[j].recordId]}
  {
    var rest := b[..j] + b[j + 1..];
    forall k | 0 <= k < |rest|
      ensures rest[k] == if k < j then b[k] else b[k + 1]
    {
    }
    var all := RecordsOf(records, b);
    var left := RecordsOf(records, rest);
    forall k | 0 <= k < |left|
      ensures left[k] == if k < j then all[k] else all[k + 1]
    {
    }
    assert left == all[..j] + all[j + 1..];
    assert all == all[..j] + [all[j]] + all[j + 1..];
  }

  lemma RecordsOfHead(records: seq<P.CountRecord>, a: seq<MappedRecord>)
    requires InRange(records, a) && a != []
    ensures InRange(records, a[1..])
    ensures multiset(RecordsOf(records, a)) == multiset(RecordsOf(records, a[1..])) + multiset{records[a[0].recordId]}
  {
    var all := RecordsOf(records, a);
    assert all == [all[0]] + RecordsOf(records, a[1..]);
  }

  lemma MultisetRemove(b: seq<MappedRecord>, j: nat)
    requires j < |b|
    ensures multiset(b[..j] + b[j + 1..]) == multiset(b) - multiset{b[j]}
  {
    assert b == b[..j] + [b[j]] + b[j + 1..];
  }

  /** Taking the first element out of one side and the same element out of
      the other keeps them permutations of each other. */
  lemma RemoveBoth(a: seq<MappedRecord>, b: seq<MappedRecord>, j: nat)
    requires multiset(a) == multiset(b) && a != [] && j < |b| && b[j] == a[0]
    ensures multiset(a[1..]) == multiset(b[..j] + b[j + 1..])
  {
    MultisetRemove(b, j);
    assert a == [a[0]] + a[1..];
  }

  /** Where an element of a permutation of `a` sits in it. */
  lemma IndexIn(b: seq<MappedRecord>, x: MappedRecord) returns (j: nat)
    requires x in multiset(b)
    ensures j < |b| && b[j] == x
  {
    j :| 0 <= j < |b| && b[j] == x;
  }

  /** Reordering the mapped records reorders the records they point at. */
  lemma {:induction false} RecordsOfPermutation(records: seq<P.CountRecord>, a: seq<MappedRecord>, b: seq<MappedRecord>)
    requires InRange(records, a) && multiset(a) == multiset(b)
    ensures InRange(records, b)
    ensures multiset(RecordsOf(records, a)) == multiset(RecordsOf(records, b))
  {
    InRangePermutation(records, a, b);
    if a != [] {
      var x := a[0];
      var j := IndexIn(b, x);
      var rest := b[..j] + b[j + 1..];
      var tail := a[1..];
      RemoveBoth(a, b, j);
      RecordsOfRemove(records, b, j);
      RecordsOfHead(records, a);
      RecordsOfPermutation(records, tail, rest);
    }
  }

  /** The output lists every record of the input exactly as often as the
      input does. */
  lemma OutputPermutation(vocab: D.DoubleArrayVocabulary, records: seq<P.CountRecord>)
    requires forall i :: 0 <= i < |records| ==> Known(vocab, Tokens(records[i]))
    ensures multiset(SortedOutput(vocab, records)) == multiset(records)
  {
    var mapped := MappedOf(vocab, records);
    var sorted := SortRecords(mapped);
    assert RecordsOf(records, mapped) == records;
    RecordsOfPermutation(records, mapped, sorted);
  }

  /** The output lists the records in order of the ids of their tokens,
      lexicographically, as the derived order of the mapped records says. */
  lemma OutputOrdered(vocab: D.DoubleArrayVocabulary, records: seq<P.CountRecord>)
    requires forall i :: 0 <= i < |records| ==> Known(vocab, Tokens(records[i]))
    ensures var out := SortedOutput(vocab, records);
      (forall k :: 0 <= k < |out| ==> Known(vocab, Tokens(out[k])))
      && forall j, k :: 0 <= j < k < |out| ==> LexLe(IdsOf(vocab, Tokens(out[j])), IdsOf(vocab, Tokens(out[k])))
  {
    var mapped := MappedOf(vocab, records);
    var sorted := SortRecords(mapped);
    SortedPositions(vocab, records, sorted);
    SortRecordsSorted(mapped);
    var out := SortedOutput(vocab, records);
    forall k | 0 <= k < |out|
      ensures Known(vocab, Tokens(out[k])) && sorted[k].mappedIds == IdsOf(vocab, Tokens(out[k]))
    {
      assert sorted[k] in multiset(mapped);
      var i :| 0 <= i < |mapped| && mapped[i] == sorted[k];
    }
    forall j, k | 0 <= j < k < |out|
      ensures LexLe(IdsOf(vocab, Tokens(out[j])), IdsOf(vocab, Tokens(out[k])))
    {
      RecordLeIds(sorted[j], sorted[k]);
    }
  }

  /** Well-formed records come back from the output file in the sorted
      order: the output is a count file of the input's records. */
  lemma OutputReloads(vocab: D.DoubleArrayVocabulary, records: seq<P.CountRecord>)
    requires forall i :: 0 <= i < |records| ==> Known(vocab, Tokens(records[i]))
    requires forall i :: 0 <= i < |records| ==> P.WellFormed(records[i])
    requires |records| < U64_LIMIT
    ensures P.LoadCountFile(P.FormatCountFile(SortedOutput(vocab, records))) == Ok(SortedOutput(vocab, records))
  {
    var out := SortedOutput(vocab, records);
    OutputPermutation(vocab, records);
    forall k | 0 <= k < |out|
      ensures P.WellFormed(out[k])
    {
      assert out[k] in multiset(records);
    }
    P.LoadFormatted(out);
  }

  /** A vocabulary is the only one of its grams. */
  lemma VocabularyUnique(vocab: D.DoubleArrayVocabulary, grams: seq<seq<byte>>)
    requires IndexMap(vocab.data, grams)
    ensures forall other: D.DoubleArrayVocabulary :: IndexMap(other.data, grams) ==> other == vocab
  {
    forall other: D.DoubleArrayVocabulary | IndexMap(other.data, grams)
      ensures other == vocab
    {
      IndexMapUnique(other.data, vocab.data, grams);
    }
  }

  /** What `write_records` writes for the sorted mapped records is the
      count file of the sorted output. */
  lemma OutputText(vocab: D.DoubleArrayVocabulary, records: seq<P.CountRecord>, text: seq<byte>)
    requires forall i :: 0 <= i < |records| ==> Known(vocab, Tokens(records[i]))
    requires var sorted := SortRecords(MappedOf(vocab, records));
      InRange(records, sorted)
      && text == Dec.FormatUsize(|records|) + [LF] + P.FormatCountLines(RecordsOf(records, sorted))
    ensures text == P.FormatCountFile(SortedOutput(vocab, records))
  {
  }

  /** The vocabulary can be built: fewer than 2^31 grams, none twice. */
  predicate Fits(grams: seq<seq<byte>>) {
    |grams| < D.ID_LIMIT && Distinct(grams)
  }

  /** `main`: builds the vocabulary, loads the records, maps them, sorts
      them, and gives the output name and the output file's bytes. */
  method Run(fmt: U.GramsFileFormat, vocabText: seq<byte>, gramsText: seq<byte>, outputPath: string)
    returns (r: Outcome<Result<(string, seq<byte>), U.UtilError>>)
    ensures P.LoadCountFile(vocabText).Err? ==> r == Returned(Err(U.LoadFailed(P.LoadCountFile(vocabText).error)))
    ensures P.LoadCountFile(vocabText).Ok? && !Fits(ParserStreams.Grams(P.LoadCountFile(vocabText).value)) ==>
              r.Returned? && r.value.Err? && r.value.error.VocabularyFailed?
    ensures P.LoadCountFile(vocabText).Ok? && Fits(ParserStreams.Grams(P.LoadCountFile(vocabText).value))
            && P.LoadCountFile(gramsText).Err? ==>
              r == Returned(Err(U.LoadFailed(P.LoadCountFile(gramsText).error)))
    ensures P.LoadCountFile(vocabText).Ok? && Fits(ParserStreams.Grams(P.LoadCountFile(vocabText).value))
            && P.LoadCountFile(gramsText).Ok? ==>
              forall vocab: D.DoubleArrayVocabulary :: IndexMap(vocab.data, ParserStreams.Grams(P.LoadCountFile(vocabText).value)) ==>
                && (r.Panicked? <==> !Mappable(vocab, P.LoadCountFile(gramsText).value))
                && (r.Returned? ==> r.value == Ok((OutputName(outputPath, fmt),
                                                   P.FormatCountFile(SortedOutput(vocab, P.LoadCountFile(gramsText).value)))))
  {
    var built := U.BuildVocabularyFromFile(vocabText);
    if built.Err? {
      return Returned(Err(built.error));
    }
    var vocab := built.value;
    var loaded := U.LoadRecordsFromFile(gramsText);
    if loaded.Err? {
      return Returned(Err(U.LoadFailed(loaded.error)));
    }
    var records := loaded.value;
    var mapped := MapRecords(vocab, records);
    VocabularyUnique(vocab, ParserStreams.Grams(P.LoadCountFile(vocabText).value));
    if mapped.Panicked? {
      return Panicked;
    }
    var sorted := SortRecords(mapped.value);
    SortedPositions(vocab, records, sorted);
    var name := OutputName(outputPath, fmt);
    var text := WriteRecords(records, sorted);
    OutputText(vocab, records, text);
    return Returned(Ok((name, text)));
  }
}
