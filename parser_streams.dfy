/** A count file as the run of answers its `GramsParser` gives, call after
    call of `next()`: a record, a bad line, or `None` for a line that is not
    UTF-8; after `num_grams` calls only `None`. The builders consume files
    through this view, one answer per call. */
module ParserStreams {
  import opened Common
  import P = Parser

  /** One answer of `next()`. */
  type Answer = Option<Result<P.CountRecord, P.ParseError>>

  /** What `loader.parser()` gives: the header's error, or the answers of
      the parser's calls before they are `None` for good. */
  type Loader = Result<seq<Answer>, P.ParseError>

  /** The loader of a file's bytes. */
  function Stream(text: seq<byte>): Loader {
    match P.ParseHeader(text)
    case Err(e) => Err(e)
    case Ok((n, rest)) => Ok(P.Answers(P.Lines(rest, n)))
  }

  /** The answers a parser still has to give. */
  function Remaining(p: P.GramsParser): seq<Answer>
    reads p
  {
    if p.numParsed >= p.numGrams then [] else P.Answers(P.Lines(p.input, p.numGrams - p.numParsed))
  }

  function Head(s: seq<Answer>): Answer {
    if s == [] then None else s[0]
  }

  function Tail(s: seq<Answer>): seq<Answer> {
    if s == [] then [] else s[1..]
  }

  /** `for rec in gp { records.push(rec?) }` on a loader: the records, or
      the header's error, or the first bad line. */
  function Load(l: Loader): Result<seq<P.CountRecord>, P.ParseError> {
    match l
    case Err(e) => Err(e)
    case Ok(answers) => P.Collect(answers)
  }

  /** The grams of some records, in order (`Gram::from_str(&r.gram)`). */
  function Grams(recs: seq<P.CountRecord>): (g: seq<seq<byte>>)
    ensures |g| == |recs| && forall i :: 0 <= i < |recs| ==> g[i] == recs[i].gram
  {
    seq(|recs|, i requires 0 <= i < |recs| => recs[i].gram)
  }

  /** Loading a file's loader is loading the file: a definitional bridge
      between the stream view and the file view of a count file. */
  lemma LoadIsLoadCountFile(text: seq<byte>)
    ensures Load(Stream(text)) == P.LoadCountFile(text)
  {
  }

  /** `GramsParser::new` on a file: its parser fails exactly when the loader
      does, and otherwise has the loader's answers to give. */
  method Open(text: seq<byte>) returns (r: Result<P.GramsParser, P.ParseError>)
    ensures r.Ok? <==> Stream(text).Ok?
    ensures r.Err? ==> r.error == Stream(text).error
    ensures r.Ok? ==> fresh(r.value) && Remaining(r.value) == Stream(text).value
  {
    r := P.GramsParser.New(text);
    if r.Ok? {
      var (n, rest) := P.ParseHeader(text).value;
      if n == 0 {
        assert P.Lines(rest, n) == [];
      }
    }
  }

  /** `next_count_record` gives the first remaining answer and leaves the
      others; at the end, `None` and still nothing to come. */
  method Next(p: P.GramsParser) returns (r: Answer)
    modifies p
    ensures r == Head(old(Remaining(p)))
    ensures Remaining(p) == Tail(old(Remaining(p)))
  {
    ghost var before := Remaining(p);
    ghost var left := p.numGrams - p.numParsed;
    r := p.NextCountRecord();
    if left > 0 {
      var lines := P.Lines(old(p.input), left);
      assert lines == [P.ReadLine(old(p.input)).0] + P.Lines(P.ReadLine(old(p.input)).1, left - 1);
      assert before[0] == P.CountAnswer(lines[0]);
      assert Remaining(p) == before[1..] by {
        if left > 1 {
          assert lines[1..] == P.Lines(p.input, left - 1);
        }
      }
    }
  }

  /** A parser seen through the answers it still has to give. */
  class StreamParser {
    var rest: seq<Answer>

    /** `loader.parser()`. */
    constructor Over(answers: seq<Answer>)
      ensures rest == answers
    {
      rest := answers;
    }

    /** `next()`. */
    method Next() returns (r: Answer)
      modifies this
      ensures r == Head(old(rest)) && rest == Tail(old(rest))
    {
      r := Head(rest);
      rest := Tail(rest);
    }
  }

  /** Opening a loader: its error, or a parser over its answers. */
  method OpenLoader(l: Loader) returns (r: Result<StreamParser, P.ParseError>)
    ensures r.Ok? <==> l.Ok?
    ensures r.Err? ==> r.error == l.error
    ensures r.Ok? ==> fresh(r.value) && r.value.rest == l.value
  {
    if l.Err? {
      return Err(l.error);
    }
    var p := new StreamParser.Over(l.value);
    return Ok(p);
  }
}
