/** The helpers the tools share: all records of a count file, a
    double-array vocabulary built from the grams of a file, and the file
    name extension of each file format. A file is given as its bytes after
    decompression. */
module Util {
  import opened Common
  import opened ParserStreams
  import P = Parser
  import D = DoubleArrayVocabulary

  /** `GramsFileFormats`: the compressions a count file may come in. */
  datatype GramsFileFormat = Plain | Gzip | Deflate | Zlib

  /** `get_format_extension`: a plain file has no extension of its own. */
  function FormatExtension(fmt: GramsFileFormat): (r: Option<string>)
    ensures r.None? <==> fmt == Plain
    ensures r.Some? ==> 0 < |r.value| && '.' !in r.value
  {
    match fmt
    case Plain => None
    case Gzip => Some("gz")
    case Deflate => Some("dfl")
    case Zlib => Some("zlib")
  }

  /** The format a file name extension stands for. */
  function FormatOfExtension(ext: string): (r: Option<GramsFileFormat>)
    ensures r.Some? ==> r.value != Plain
  {
    if ext == "gz" then Some(Gzip)
    else if ext == "dfl" then Some(Deflate)
    else if ext == "zlib" then Some(Zlib)
    else None
  }

  /** The extension of a compressed format names that format again, and a
      name that is the extension of no format names none. */
  lemma ExtensionRoundTrip(fmt: GramsFileFormat, ext: string)
    ensures FormatExtension(fmt).Some? ==> FormatOfExtension(FormatExtension(fmt).value) == Some(fmt)
    ensures FormatOfExtension(ext).Some? ==> FormatExtension(FormatOfExtension(ext).value) == Some(ext)
  {
  }

  /** No two formats share an extension, so the extension of an output
      file tells its format. */
  lemma ExtensionsDistinct(a: GramsFileFormat, b: GramsFileFormat)
    ensures FormatExtension(a) == FormatExtension(b) ==> a == b
  {
  }

  /** What `Collect` keeps of a run of answers: on success, the records of
      the leading answers, in order, up to the end or the first `None`; on
      failure, the error of the first bad answer, with only records before
      it. */
  lemma {:induction false} CollectMeaning(answers: seq<Answer>)
    ensures P.Collect(answers).Ok? ==>
              var recs := P.Collect(answers).value;
              |recs| <= |answers|
              && (forall i :: 0 <= i < |recs| ==> answers[i] == Some(Ok(recs[i])))
              && (|recs| < |answers| ==> answers[|recs|].None?)
    ensures P.Collect(answers).Err? ==>
              exists k :: 0 <= k < |answers| && answers[k] == Some(Err(P.Collect(answers).error))
                && forall i :: 0 <= i < k ==> answers[i].Some? && answers[i].value.Ok?
  {
    if answers != [] && answers[0].Some? && answers[0].value.Ok? {
      var tail := answers[1..];
      CollectMeaning(tail);
      if P.Collect(tail).Ok? {
        var recs := P.Collect(answers).value;
        assert recs == [answers[0].value.value] + P.Collect(tail).value;
        assert forall i :: 1 <= i < |recs| ==> answers[i] == tail[i - 1];
      } else {
        var k :| 0 <= k < |tail| && tail[k] == Some(Err(P.Collect(tail).error))
                 && forall i :: 0 <= i < k ==> tail[i].Some? && tail[i].value.Ok?;
        assert answers[k + 1] == tail[k];
        assert forall i :: 1 <= i < k + 1 ==> answers[i] == tail[i - 1];
      }
    } else if answers != [] && answers[0].Some? {
      assert answers[0] == Some(Err(P.Collect(answers).error));
    }
  }

  /** `load_records`: opens the loader's parser, then pushes every record
      it gives until the first `None`, returning the first error instead. */
  method LoadRecords(loader: Loader) returns (r: Result<seq<P.CountRecord>, P.ParseError>)
    ensures r == Load(loader)
  {
    var parser := OpenLoader(loader);
    if parser.Err? {
      return Err(parser.error);
    }
    var gp := parser.value;
    ghost var all := gp.rest;
    var records: seq<P.CountRecord> := [];
    PrependNothing(P.Collect(all));
    while true
      invariant P.Collect(all) == Prepend(records, P.Collect(gp.rest))
      decreases |gp.rest|
    {
      ghost var before := gp.rest;
      var next := gp.Next();
      if next.None? {
        AppendEmpty(records);
        break;
      }
      if next.value.Err? {
        return Err(next.value.error);
      }
      assert P.Collect(before) == Prepend([next.value.value], P.Collect(gp.rest));
      PrependOne(records, next.value.value, P.Collect(gp.rest));
      records := records + [next.value.value];
    }
    return Ok(records);
  }

  /** `load_records_from_file`: the records of a whole count file, or the
      error of its header or of its first bad line. */
  method LoadRecordsFromFile(text: seq<byte>) returns (r: Result<seq<P.CountRecord>, P.ParseError>)
    ensures r == P.LoadCountFile(text)
  {
    r := LoadRecords(Stream(text));
    LoadIsLoadCountFile(text);
  }

  /** Why `build_vocabulary_from_file` fails: the file, or the vocabulary. */
  datatype UtilError = LoadFailed(parse: P.ParseError) | VocabularyFailed(vocab: D.VocabularyError)

  /** `build_vocabulary_from_file`: the double-array vocabulary of the
      grams of a count file, numbered in file order. */
  method BuildVocabularyFromFile(text: seq<byte>) returns (r: Result<D.DoubleArrayVocabulary, UtilError>)
    ensures P.LoadCountFile(text).Err? ==> r == Err(LoadFailed(P.LoadCountFile(text).error))
    ensures P.LoadCountFile(text).Ok? ==>
              var grams := Grams(P.LoadCountFile(text).value);
              (r.Err? ==> r.error.VocabularyFailed?)
              && (r == Err(VocabularyFailed(D.TooManyGrams)) <==> |grams| >= D.ID_LIMIT)
              && (|grams| < D.ID_LIMIT ==> (r.Ok? <==> Distinct(grams)))
              && (r.Ok? ==> IndexMap(r.value.data, grams))
  {
    var records := LoadRecordsFromFile(text);
    if records.Err? {
      return Err(LoadFailed(records.error));
    }
    var grams := Grams(records.value);
    var vocab := D.New(grams);
    if vocab.Err? {
      return Err(VocabularyFailed(vocab.error));
    }
    return Ok(vocab.value);
  }
}
