/** `GramsParser`: reads an n-gram file whose first line holds the number of
    records and whose following lines hold `gram<TAB>count` (or
    `gram<TAB>prob[<TAB>backoff]`). The reader is modelled as the bytes not
    yet consumed; `read_line` takes them up to and including the next
    newline, and gives the empty buffer at the end of the input. */
module Parser {
  import opened Common
  import opened Decimal
  import opened Utf8

  /** `CountRecord::new(gram, count)`. */
  datatype CountRecord = CountRecord(gram: seq<byte>, count: nat)

  /** `ProbRecord`: the probability and backoff fields are kept as the raw
      text of their fields (their floating-point values are not modelled). */
  datatype ProbRecord = ProbRecord(gram: seq<byte>, prob: seq<byte>, backoff: Option<seq<byte>>)

  /** The errors the parser reports: the header cannot be read as a number,
      a line does not have the expected number of fields ("Invalid line"), or
      its count is not a number ("Parse error"). */
  datatype ParseError =
    | ReadError
    | HeaderError(header: seq<byte>)
    | InvalidLine(items: seq<seq<byte>>)
    | CountError(items: seq<seq<byte>>)

  // ---------------------------------------------------------------------
  // `str::trim_end` and `str::trim`: Unicode White_Space characters, matched
  // on their UTF-8 encodings.

  /** The one-byte encodings of the characters `char::is_whitespace`
      accepts: tab, newline, vertical tab, form feed, carriage return, space. */
  predicate Space1(a: byte) {
    9 <= a <= 13 || a == 32
  }

  /** The two-byte ones: NEL (U+0085) and NO-BREAK SPACE (U+00A0). */
  predicate Space2(a: byte, b: byte) {
    a == 0xC2 && (b == 0x85 || b == 0xA0)
  }

  /** The three-byte ones: U+1680, U+2000 to U+200A, U+2028, U+2029,
      U+202F, U+205F and U+3000. */
  predicate Space3(a: byte, b: byte, c: byte) {
    || (a == 0xE1 && b == 0x9A && c == 0x80)
    || (a == 0xE2 && b == 0x80 && (0x80 <= c <= 0x8A || c == 0xA8 || c == 0xA9 || c == 0xAF))
    || (a == 0xE2 && b == 0x81 && c == 0x9F)
    || (a == 0xE3 && b == 0x80 && c == 0x80)
  }

  /** Length of the whitespace character that ends `s`, or 0. */
  function TrailingSpace(s: seq<byte>): (n: nat)
    ensures n <= |s|
  {
    var k := |s|;
    if k >= 1 && Space1(s[k - 1]) then 1
    else if k >= 2 && Space2(s[k - 2], s[k - 1]) then 2
    else if k >= 3 && Space3(s[k - 3], s[k - 2], s[k - 1]) then 3
    else 0
  }

  /** Length of the whitespace character that starts `s`, or 0. */
  function LeadingSpace(s: seq<byte>): (n: nat)
    ensures n <= |s|
  {
    if |s| >= 1 && Space1(s[0]) then 1
    else if |s| >= 2 && Space2(s[0], s[1]) then 2
    else if |s| >= 3 && Space3(s[0], s[1], s[2]) then 3
    else 0
  }

  /** A text that ends in an ASCII byte other than whitespace has nothing to
      trim at its end; one that starts with such a byte, nothing at its start. */
  lemma NoSpaceAround(s: seq<byte>)
    requires |s| > 0
    ensures s[|s| - 1] < 0x80 && !Space1(s[|s| - 1]) ==> TrailingSpace(s) == 0
    ensures s[0] < 0x80 && !Space1(s[0]) ==> LeadingSpace(s) == 0
  {
  }

  function TrimEnd(s: seq<byte>): (r: seq<byte>)
    ensures r <= s && TrailingSpace(r) == 0
    decreases |s|
  {
    var n := TrailingSpace(s);
    if n == 0 then s else TrimEnd(s[..|s| - n])
  }

  function TrimStart(s: seq<byte>): (r: seq<byte>)
    ensures |r| <= |s| && r == s[|s| - |r|..] && LeadingSpace(r) == 0
    decreases |s|
  {
    var n := LeadingSpace(s);
    if n == 0 then s else TrimStart(s[n..])
  }

  function Trim(s: seq<byte>): seq<byte> {
    TrimStart(TrimEnd(s))
  }

  /** A line ending in an ASCII digit, followed by its newline, loses exactly
      the newline to `trim_end`. */
  lemma TrimEndNewline(s: seq<byte>)
    requires |s| > 0 && IsAsciiDigit(s[|s| - 1])
    ensures TrimEnd(s + [LF]) == s
  {
    var t := s + [LF];
    assert t[|t| - 1] == LF;
    assert TrailingSpace(t) == 1;
    assert t[..|t| - 1] == s;
    NoSpaceAround(s);
  }

  lemma TrimDigits(s: seq<byte>)
    requires |s| > 0 && forall i :: 0 <= i < |s| ==> IsAsciiDigit(s[i])
    ensures Trim(s + [LF]) == s
  {
    TrimEndNewline(s);
    NoSpaceAround(s);
  }

  // ---------------------------------------------------------------------
  // Reading.

  /** `read_line`: the bytes up to and including the next newline (all that
      is left when there is none), and what remains after them. */
  function ReadLine(input: seq<byte>): (r: (seq<byte>, seq<byte>))
    ensures r.0 + r.1 == input
    ensures input != [] ==> r.0 != []
  {
    match Position(input, LF)
    case None => (input, [])
    case Some(i) => (input[..i + 1], input[i + 1..])
  }

  /** `read_line` stops at the first newline: the line it hands out is a
      complete line, or all that is left when there is no newline. */
  lemma ReadLineStops(input: seq<byte>)
    ensures ReadLine(input).0 == [] || LF !in ReadLine(input).0[..|ReadLine(input).0| - 1]
    ensures LF in input ==> IsLine(ReadLine(input).0)
    ensures LF !in input ==> ReadLine(input) == (input, [])
  {
    PositionFirst(input, LF);
    match Position(input, LF)
    case None =>
    case Some(i) =>
      assert input[..i + 1][..i] == input[..i];
  }

  lemma ReadLineOf(line: seq<byte>, rest: seq<byte>)
    requires LF !in line
    ensures ReadLine(line + [LF] + rest) == (line + [LF], rest)
  {
    var s := line + [LF] + rest;
    PositionAfterFree(line, [LF] + rest, LF);
    assert s == line + ([LF] + rest);
    assert s[..|line| + 1] == line + [LF];
  }

  /** `GramsParser::new`: the first line, trimmed, as a `usize`, and the rest
      of the input. */
  function ParseHeader(input: seq<byte>): (r: Result<(nat, seq<byte>), ParseError>)
    ensures r.Ok? ==> r.value.0 < U64_LIMIT && |r.value.1| < |input|
  {
    var (header, rest) := ReadLine(input);
    if !ValidUtf8(header) then Err(ReadError)
    else match ParseUsize(Trim(header))
      case None => Err(HeaderError(header))
      case Some(n) => Ok((n, rest))
  }

  /** The fields of `next_count_record`'s line: `trim_end`, then split at tabs. */
  function Fields(line: seq<byte>): seq<seq<byte>> {
    Split(TrimEnd(line), TAB)
  }

  /** What `next_count_record` makes of one line it has read. */
  function CountLine(line: seq<byte>): (r: Result<CountRecord, ParseError>)
    ensures r.Ok? ==> TAB !in r.value.gram && r.value.count < U64_LIMIT
  {
    var items := Fields(line);
    if |items| != 2 then Err(InvalidLine(items))
    else match ParseUsize(items[1])
      case None => Err(CountError(items))
      case Some(count) => Ok(CountRecord(items[0], count))
  }

  /** A line is a record exactly when it has two fields and the second is a
      number; otherwise the error names the fields, as "Invalid line" when
      there are not two of them and as "Parse error" when there are. */
  lemma CountLineCases(line: seq<byte>)
    ensures CountLine(line).Ok? <==> |Fields(line)| == 2 && ParseUsize(Fields(line)[1]).Some?
    ensures CountLine(line).Ok? ==> CountLine(line).value.gram == Fields(line)[0]
    ensures CountLine(line).Ok? ==> Some(CountLine(line).value.count) == ParseUsize(Fields(line)[1])
    ensures CountLine(line).Err? ==>
      CountLine(line).error == if |Fields(line)| != 2 then InvalidLine(Fields(line)) else CountError(Fields(line))
  {
  }

  /** What `next_prob_record` makes of one line: two or three fields. */
  function ProbLine(line: seq<byte>): (r: Result<ProbRecord, ParseError>)
    ensures r.Ok? <==> |Fields(line)| == 2 || |Fields(line)| == 3
    ensures r.Ok? ==> r.value.gram == Fields(line)[0] && r.value.prob == Fields(line)[1]
    ensures r.Ok? ==> (r.value.backoff.Some? <==> |Fields(line)| == 3)
  {
    var items := Fields(line);
    if |items| != 2 && |items| != 3 then Err(InvalidLine(items))
    else Ok(ProbRecord(items[0], items[1], if |items| == 3 then Some(items[2]) else None))
  }

  /** The line a count file holds for `rec` (what the converters write). */
  function FormatCountLine(rec: CountRecord): seq<byte> {
    rec.gram + [TAB] + FormatUsize(rec.count) + [LF]
  }

  /** A record whose gram holds no tab reads back from its own line. */
  lemma CountLineOfFormat(rec: CountRecord)
    requires TAB !in rec.gram && rec.count < U64_LIMIT
    ensures CountLine(FormatCountLine(rec)) == Ok(rec)
  {
    var digits := FormatUsize(rec.count);
    assert rec.gram + [TAB] + digits + [LF] == (rec.gram + [TAB] + digits) + [LF];
    assert (rec.gram + [TAB] + digits)[|rec.gram + [TAB] + digits| - 1] == digits[|digits| - 1];
    TrimEndNewline(rec.gram + [TAB] + digits);
    SplitAppend(rec.gram, TAB, digits);
    SplitFree(rec.gram, TAB);
    assert TAB !in digits;
    SplitFree(digits, TAB);
    ParseFormatUsize(rec.count);
  }

  /** Reading past the end of the input gives the empty line, which is one
      empty field and hence an "Invalid line". */
  lemma CountLineAtEnd()
    ensures ReadLine([]) == ([], [])
    ensures CountLine([]) == Err(InvalidLine([[]]))
  {
    assert TrimEnd([]) == [];
  }

  // ---------------------------------------------------------------------
  // The parser object.

  class GramsParser {
    /** The bytes the reader has not yet handed out. */
    var input: seq<byte>
    var numGrams: nat
    var numParsed: nat

    constructor Init(input: seq<byte>, numGrams: nat)
      ensures this.input == input && this.numGrams == numGrams && numParsed == 0
    {
      this.input := input;
      this.numGrams := numGrams;
      numParsed := 0;
    }

    /** `GramsParser::new`: reads the header; fails when it is not a number. */
    static method New(input: seq<byte>) returns (r: Result<GramsParser, ParseError>)
      ensures r.Ok? <==> ParseHeader(input).Ok?
      ensures r.Err? ==> r.error == ParseHeader(input).error
      ensures r.Ok? ==> fresh(r.value) && r.value.numParsed == 0
      ensures r.Ok? ==> (r.value.numGrams, r.value.input) == ParseHeader(input).value
    {
      var header := ParseHeader(input);
      if header.Err? {
        return Err(header.error);
      }
      var (n, rest) := header.value;
      var p := new GramsParser.Init(rest, n);
      return Ok(p);
    }

    /** `next_count_record`: every call counts, also the ones that fail; past
        `num_grams` calls the answer is `None` and nothing is read. A line
        that is not valid UTF-8 also gives `None` (`read_line(..).ok()?`). */
    method NextCountRecord() returns (r: Option<Result<CountRecord, ParseError>>)
      modifies this
      ensures numParsed == old(numParsed) + 1 && numGrams == old(numGrams)
      ensures old(numParsed) >= numGrams ==> r.None? && input == old(input)
      ensures old(numParsed) < numGrams ==>
        var (line, rest) := ReadLine(old(input));
        && input == rest
        && r == CountAnswer(line)
    {
      numParsed := numParsed + 1;
      if numParsed > numGrams {
        return None;
      }
      var (line, rest) := ReadLine(input);
      input := rest;
      if !ValidUtf8(line) {
        return None;
      }
      return Some(CountLine(line));
    }

    /** `next_prob_record`, up to its check of the number of fields. */
    method NextProbRecord() returns (r: Option<Result<ProbRecord, ParseError>>)
      modifies this
      ensures numParsed == old(numParsed) + 1 && numGrams == old(numGrams)
      ensures old(numParsed) >= numGrams ==> r.None? && input == old(input)
      ensures old(numParsed) < numGrams ==>
        var (line, rest) := ReadLine(old(input));
        && input == rest
        && r == if ValidUtf8(line) then Some(ProbLine(line)) else None
    {
      numParsed := numParsed + 1;
      if numParsed > numGrams {
        return None;
      }
      var (line, rest) := ReadLine(input);
      input := rest;
      if !ValidUtf8(line) {
        return None;
      }
      return Some(ProbLine(line));
    }
  }

  /** What one call of `next_count_record` below `num_grams` answers for the
      line it has read. */
  function CountAnswer(line: seq<byte>): Option<Result<CountRecord, ParseError>> {
    if ValidUtf8(line) then Some(CountLine(line)) else None
  }

  // ---------------------------------------------------------------------
  // Draining the parser, as `for rec in gp { records.push(rec?) }` does.

  /** The lines the next `left` calls of `read_line` hand out. */
  function Lines(input: seq<byte>, left: nat): (r: seq<seq<byte>>)
    ensures |r| == left
    decreases left
  {
    if left == 0 then [] else [ReadLine(input).0] + Lines(ReadLine(input).1, left - 1)
  }

  /** What the reader still holds after `left` calls of `read_line`. */
  function After(input: seq<byte>, left: nat): seq<byte>
    decreases left
  {
    if left == 0 then input else After(ReadLine(input).1, left - 1)
  }

  /** One more call reads the line `After` starts with. */
  lemma {:induction false} LinesSnoc(input: seq<byte>, left: nat)
    ensures Lines(input, left + 1) == Lines(input, left) + [ReadLine(After(input, left)).0]
    ensures After(input, left + 1) == ReadLine(After(input, left)).1
    decreases left
  {
    if left > 0 {
      LinesSnoc(ReadLine(input).1, left - 1);
    }
  }

  /** The answers `next_count_record` gives for `lines`. */
  function Answers(lines: seq<seq<byte>>): (r: seq<Option<Result<CountRecord, ParseError>>>)
    ensures |r| == |lines|
    ensures forall i :: 0 <= i < |lines| ==> r[i] == CountAnswer(lines[i])
  {
    seq(|lines|, i requires 0 <= i < |lines| => CountAnswer(lines[i]))
  }

  /** What `for rec in gp { records.push(rec?) }` keeps of a run of answers:
      the records up to the first `None`, or the first error before it. */
  function Collect(answers: seq<Option<Result<CountRecord, ParseError>>>): Result<seq<CountRecord>, ParseError> {
    if answers == [] || answers[0].None? then Ok([])
    else match answers[0].value
      case Err(e) => Err(e)
      case Ok(rec) =>
        match Collect(answers[1..])
        case Err(e) => Err(e)
        case Ok(recs) => Ok([rec] + recs)
  }

  /** The records the next `left` calls of `next_count_record` give on
      `input`: stops early at a line that is not UTF-8, and fails on the
      first bad line. */
  function DrainCounts(input: seq<byte>, left: nat): Result<seq<CountRecord>, ParseError> {
    Collect(Answers(Lines(input, left)))
  }

  /** All records of a count file: the header, then as many records as it
      announces. */
  function LoadCountFile(input: seq<byte>): Result<seq<CountRecord>, ParseError> {
    match ParseHeader(input)
    case Err(e) => Err(e)
    case Ok((n, rest)) => DrainCounts(rest, n)
  }

  /** `Collect` keeps at most one record per answer, and fails only with an
      error one of the answers holds. */
  lemma {:induction false} CollectBound(answers: seq<Option<Result<CountRecord, ParseError>>>)
    ensures Collect(answers).Ok? ==> |Collect(answers).value| <= |answers|
    ensures Collect(answers).Err? ==> exists i :: 0 <= i < |answers| && answers[i] == Some(Err(Collect(answers).error))
  {
    if answers != [] && answers[0].Some? && answers[0].value.Ok? {
      CollectBound(answers[1..]);
      if Collect(answers[1..]).Err? {
        var i :| 0 <= i < |answers[1..]| && answers[1..][i] == Some(Err(Collect(answers[1..]).error));
        assert answers[i + 1] == answers[1..][i];
      }
    }
  }

  /** The parser never yields more records than the header announces. */
  lemma DrainBound(input: seq<byte>, left: nat)
    ensures DrainCounts(input, left).Ok? ==> |DrainCounts(input, left).value| <= left
  {
    CollectBound(Answers(Lines(input, left)));
  }

  /** The lines of `recs`, one after another. */
  function FormatCountLines(recs: seq<CountRecord>): seq<byte> {
    if recs == [] then [] else FormatCountLine(recs[0]) + FormatCountLines(recs[1..])
  }

  /** A count file: the decimal record count and a newline, then the lines. */
  function FormatCountFile(recs: seq<CountRecord>): seq<byte> {
    FormatUsize(|recs|) + [LF] + FormatCountLines(recs)
  }

  predicate WellFormed(rec: CountRecord) {
    TAB !in rec.gram && LF !in rec.gram && ValidUtf8(rec.gram) && rec.count < U64_LIMIT
  }

  /** A decimal numeral is ASCII and holds neither tab nor newline. */
  lemma NumeralIsAscii(n: nat)
    ensures IsAscii(FormatUsize(n)) && TAB !in FormatUsize(n) && LF !in FormatUsize(n)
  {
  }

  lemma FormatCountLineUtf8(rec: CountRecord)
    requires WellFormed(rec)
    ensures ValidUtf8(FormatCountLine(rec)) && IsLine(FormatCountLine(rec))
  {
    var digits := FormatUsize(rec.count);
    NumeralIsAscii(rec.count);
    var tail := [TAB] + digits + [LF];
    assert IsAscii(tail) by {
      assert forall i :: 0 <= i < |tail| ==> tail[i] == TAB || tail[i] == LF || tail[i] in digits;
    }
    var line := FormatCountLine(rec);
    assert line == rec.gram + tail;
    ValidUtf8ThenAscii(rec.gram, tail);
    assert line[..|line| - 1] == rec.gram + [TAB] + digits;
  }

  /** The parser answers a well-formed record's line with that record. */
  lemma CountAnswerFormatted(rec: CountRecord)
    requires WellFormed(rec)
    ensures CountAnswer(FormatCountLine(rec)) == Some(Ok(rec))
  {
    FormatCountLineUtf8(rec);
    CountLineOfFormat(rec);
  }

  /** The formatted lines of the records, each with its newline. */
  function LinesOf(recs: seq<CountRecord>): (r: seq<seq<byte>>)
    ensures |r| == |recs|
    ensures forall i :: 0 <= i < |recs| ==> r[i] == FormatCountLine(recs[i])
  {
    seq(|recs|, i requires 0 <= i < |recs| => FormatCountLine(recs[i]))
  }

  /** A line as `read_line` hands it out before the end of the input: a
      newline that ends it and no other. */
  predicate IsLine(line: seq<byte>) {
    |line| > 0 && line[|line| - 1] == LF && LF !in line[..|line| - 1]
  }

  /** Every one of `lines` is a complete line. */
  predicate AllLines(lines: seq<seq<byte>>) {
    lines == [] || (IsLine(lines[0]) && AllLines(lines[1..]))
  }

  function ConcatLines(lines: seq<seq<byte>>): seq<byte> {
    if lines == [] then [] else lines[0] + ConcatLines(lines[1..])
  }

  /** A complete line at the front of the input is what `read_line` hands out. */
  lemma LinesOfLine(line: seq<byte>, rest: seq<byte>, n: nat)
    requires IsLine(line) && n > 0
    ensures Lines(line + rest, n) == [line] + Lines(rest, n - 1)
  {
    var body := line[..|line| - 1];
    assert line == body + [LF];
    assert line + rest == body + [LF] + rest;
    ReadLineOf(body, rest);
  }

  /** `read_line` hands out complete lines one per call, and then reads on in
      whatever follows them. */
  lemma {:induction false} LinesOfConcat(lines: seq<seq<byte>>, extra: seq<byte>, k: nat)
    requires AllLines(lines)
    ensures Lines(ConcatLines(lines) + extra, |lines| + k) == lines + Lines(extra, k)
  {
    if lines == [] {
      assert ConcatLines(lines) + extra == extra;
      assert lines + Lines(extra, k) == Lines(extra, k);
    } else {
      LinesOfConcat(lines[1..], extra, k);
      LinesOfConcatStep(lines, extra, k);
    }
  }

  /** The inductive step of `LinesOfConcat`: the first line, then the rest. */
  lemma LinesOfConcatStep(lines: seq<seq<byte>>, extra: seq<byte>, k: nat)
    requires lines != [] && IsLine(lines[0])
    requires Lines(ConcatLines(lines[1..]) + extra, |lines| - 1 + k) == lines[1..] + Lines(extra, k)
    ensures Lines(ConcatLines(lines) + extra, |lines| + k) == lines + Lines(extra, k)
  {
    var rest := ConcatLines(lines[1..]) + extra;
    ConcatLinesCons(lines, extra);
    LinesOfLine(lines[0], rest, |lines| + k);
    ConsAppend(lines, Lines(extra, k));
  }

  lemma ConcatLinesCons(lines: seq<seq<byte>>, extra: seq<byte>)
    requires lines != []
    ensures ConcatLines(lines) + extra == lines[0] + (ConcatLines(lines[1..]) + extra)
  {
  }

  lemma ConsAppend<T>(s: seq<T>, t: seq<T>)
    requires s != []
    ensures [s[0]] + (s[1..] + t) == s + t
  {
    assert s == [s[0]] + s[1..];
  }

  /** The count lines are the formatted lines, one after another. */
  lemma {:induction false} FormatCountLinesConcat(recs: seq<CountRecord>)
    requires forall i :: 0 <= i < |recs| ==> WellFormed(recs[i])
    ensures FormatCountLines(recs) == ConcatLines(LinesOf(recs))
    ensures AllLines(LinesOf(recs))
  {
    if recs != [] {
      FormatCountLinesConcat(recs[1..]);
      assert LinesOf(recs)[1..] == LinesOf(recs[1..]);
      FormatCountLineUtf8(recs[0]);
    }
  }

  /** `read_line` hands out the formatted lines one per call, and then reads
      on in whatever follows them. */
  lemma LinesFormatted(recs: seq<CountRecord>, extra: seq<byte>, k: nat)
    requires forall i :: 0 <= i < |recs| ==> WellFormed(recs[i])
    ensures Lines(FormatCountLines(recs) + extra, |recs| + k) == LinesOf(recs) + Lines(extra, k)
  {
    FormatCountLinesConcat(recs);
    LinesOfConcat(LinesOf(recs), extra, k);
  }

  /** The answers that hand out `recs`, one record per call. */
  function Delivered(recs: seq<CountRecord>): (r: seq<Option<Result<CountRecord, ParseError>>>)
    ensures |r| == |recs|
    ensures forall i :: 0 <= i < |recs| ==> r[i] == Some(Ok(recs[i]))
  {
    seq(|recs|, i requires 0 <= i < |recs| => Some(Ok(recs[i])))
  }

  /** Collecting delivered records and then further answers. */
  lemma {:induction false} CollectDelivered(recs: seq<CountRecord>, tail: seq<Option<Result<CountRecord, ParseError>>>)
    ensures Collect(tail).Err? ==> Collect(Delivered(recs) + tail) == Collect(tail)
    ensures Collect(tail).Ok? ==> Collect(Delivered(recs) + tail) == Ok(recs + Collect(tail).value)
  {
    var all := Delivered(recs) + tail;
    if recs == [] {
      assert all == tail;
      assert Collect(tail).Ok? ==> recs + Collect(tail).value == Collect(tail).value;
    } else {
      assert all[0] == Some(Ok(recs[0]));
      assert all[1..] == Delivered(recs[1..]) + tail;
      CollectDelivered(recs[1..], tail);
      if Collect(tail).Ok? {
        assert recs + Collect(tail).value == [recs[0]] + (recs[1..] + Collect(tail).value);
      }
    }
  }

  /** The answers for the formatted lines of well-formed records deliver them. */
  lemma AnswersFormatted(recs: seq<CountRecord>, more: seq<seq<byte>>)
    requires forall i :: 0 <= i < |recs| ==> WellFormed(recs[i])
    ensures Answers(LinesOf(recs) + more) == Delivered(recs) + Answers(more)
  {
    var lines := LinesOf(recs) + more;
    forall i | 0 <= i < |recs|
      ensures Answers(lines)[i] == Some(Ok(recs[i]))
    {
      CountAnswerFormatted(recs[i]);
    }
    assert forall i :: 0 <= i < |more| ==> lines[|recs| + i] == more[i];
  }

  /** The answers for exactly the formatted lines deliver the records. */
  lemma AnswersOfFormatted(recs: seq<CountRecord>, extra: seq<byte>)
    requires forall k :: 0 <= k < |recs| ==> WellFormed(recs[k])
    ensures Answers(Lines(FormatCountLines(recs) + extra, |recs|)) == Delivered(recs)
  {
    LinesFormatted(recs, extra, 0);
    AppendEmpty(LinesOf(recs));
    AnswersFormatted(recs, []);
    AppendEmpty(Delivered(recs));
  }

  /** Draining `|recs|` records from their formatted lines gives them back,
      whatever follows the lines. */
  lemma DrainFormatted(recs: seq<CountRecord>, extra: seq<byte>)
    requires forall k :: 0 <= k < |recs| ==> WellFormed(recs[k])
    ensures DrainCounts(FormatCountLines(recs) + extra, |recs|) == Ok(recs)
  {
    AnswersOfFormatted(recs, extra);
    CollectDelivered(recs, []);
    AppendEmpty(Delivered(recs));
    AppendEmpty(recs);
  }

  /** A count file written from well-formed records loads back as them. */
  lemma LoadFormatted(recs: seq<CountRecord>)
    requires forall k :: 0 <= k < |recs| ==> WellFormed(recs[k])
    requires |recs| < U64_LIMIT
    ensures LoadCountFile(FormatCountFile(recs)) == Ok(recs)
  {
    HeaderOfFormatted(|recs|, FormatCountLines(recs));
    DrainFormatted(recs, []);
    AppendEmpty(FormatCountLines(recs));
  }

  /** The header line the converters write reads back as its number. */
  lemma HeaderOfFormatted(n: nat, body: seq<byte>)
    requires n < U64_LIMIT
    ensures ParseHeader(FormatUsize(n) + [LF] + body) == Ok((n, body))
  {
    var header := FormatUsize(n);
    NumeralIsAscii(n);
    ReadLineOf(header, body);
    assert ValidUtf8(header + [LF]) by {
      assert IsAscii(header + [LF]);
      AsciiIsUtf8(header + [LF]);
    }
    TrimDigits(header);
    ParseFormatUsize(n);
  }


  /** The answers for the formatted lines and one call more: the records,
      then the "Invalid line" of the empty buffer. */
  lemma AnswersOverstated(recs: seq<CountRecord>)
    requires forall k :: 0 <= k < |recs| ==> WellFormed(recs[k])
    ensures Answers(Lines(FormatCountLines(recs), |recs| + 1)) == Delivered(recs) + [Some(Err(InvalidLine([[]])))]
  {
    LinesOverstated(recs);
    AnswersFormatted(recs, [[]]);
    assert Answers([[]]) == [Some(Err(InvalidLine([[]])))] by {
      CountLineAtEnd();
      assert ValidUtf8([]);
    }
  }

  /** After the formatted lines, `read_line` hands out the empty buffer. */
  lemma LinesOverstated(recs: seq<CountRecord>)
    requires forall k :: 0 <= k < |recs| ==> WellFormed(recs[k])
    ensures Lines(FormatCountLines(recs), |recs| + 1) == LinesOf(recs) + [[]]
  {
    LinesFormatted(recs, [], 1);
    LinesAtEnd();
    AppendEmpty(FormatCountLines(recs));
  }

  lemma LinesAtEnd()
    ensures Lines([], 1) == [[]]
  {
    CountLineAtEnd();
  }

  /** A header that announces one record more than the file holds makes the
      extra call read the empty buffer, an "Invalid line". */
  lemma DrainOverstated(recs: seq<CountRecord>)
    requires forall k :: 0 <= k < |recs| ==> WellFormed(recs[k])
    ensures DrainCounts(FormatCountLines(recs), |recs| + 1) == Err(InvalidLine([[]]))
  {
    var failed := [Some(Err(InvalidLine([[]])))];
    AnswersOverstated(recs);
    CollectFailed(InvalidLine([[]]));
    CollectDelivered(recs, failed);
  }

  lemma CollectFailed(e: ParseError)
    ensures Collect([Some(Err(e))]) == Err(e)
  {
  }
}
