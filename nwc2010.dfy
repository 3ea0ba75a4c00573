/** The `scripts/nwc2010.py` converter: it reads the tab-separated shards of
    one order of the NWC 2010 n-gram corpus, optionally sorts the records by
    decreasing count, and writes them in the count-file layout the index
    builder reads (a header with the number of records, then one
    `tokens<TAB>count` line per record). */
module Nwc2010 {
  import opened Common
  import opened Decimal

  /** One `(tokens, int(count))` tuple of the `records` list. */
  datatype Record = Record(tokens: string, count: int)

  /** The exceptions a line can raise: the tuple unpacking of `split('\t')`
      (not exactly two fields) and `int(count)`. */
  datatype LoadError = BadLineShape(line: string) | BadCount(field: string)

  /** The converter's product: the output file name and the text written to it. */
  datatype Output = Output(name: string, text: string)

  // ---------------------------------------------------------------------
  // Reading one line.

  /** `tokens, count = gram.rstrip().split('\t')` and `int(count)`. */
  function ParseLine(line: string): (r: Result<Record, LoadError>)
    ensures r.Ok? ==> '\t' !in r.value.tokens
  {
    var fields := Split(PyRStrip(line), '\t');
    if |fields| != 2 then Err(BadLineShape(line))
    else match PyInt(fields[1])
      case None => Err(BadCount(fields[1]))
      case Some(c) => Ok(Record(fields[0], c))
  }

  /** The line the write loop emits for `rec`, without its newline. */
  function RecordLine(rec: Record): string {
    rec.tokens + "\t" + PyStr(rec.count)
  }

  /** A record whose tokens hold no tab reads back from its own line (with or
      without the trailing newline that file iteration keeps). */
  lemma ParseRecordLine(rec: Record, eol: string)
    requires '\t' !in rec.tokens
    requires eol == "" || eol == "\n"
    ensures ParseLine(RecordLine(rec) + eol) == Ok(rec)
  {
    RecordLineStrips(rec, eol);
    RecordLineSplits(rec);
    PyIntStr(rec.count);
  }

  /** `rstrip` takes off the newline of a record line and nothing else: the
      line ends in a digit. */
  lemma RecordLineStrips(rec: Record, eol: string)
    requires eol == "" || eol == "\n"
    ensures PyRStrip(RecordLine(rec) + eol) == RecordLine(rec)
  {
    var t := RecordLine(rec);
    var digits := PyStr(rec.count);
    assert t[|t| - 1] == digits[|digits| - 1];
    if eol == "" {
      RStripKeeps(t);
      assert t + eol == t;
    } else {
      RStripNewline(t);
    }
  }

  /** A record line whose tokens hold no tab splits at its one tab. */
  lemma RecordLineSplits(rec: Record)
    requires '\t' !in rec.tokens
    ensures Split(RecordLine(rec), '\t') == [rec.tokens, PyStr(rec.count)]
  {
    var digits := PyStr(rec.count);
    DecimalHasNoNewline(rec.count);
    SplitAppend(rec.tokens, '\t', digits);
    SplitFree(rec.tokens, '\t');
    SplitFree(digits, '\t');
  }

  /** A count in other scripts' digits is read as Python's `int` reads it: the
      shard line `a b<TAB>１２` (full-width digits) loads as `("a b", 12)`. */
  lemma ParseWideDigitCount()
    ensures ParseLine("a b\t\U{FF11}\U{FF12}\n") == Ok(Record("a b", 12))
  {
    var line := "a b\t\U{FF11}\U{FF12}\n";
    var t := "a b\t\U{FF11}\U{FF12}";
    var count := "\U{FF11}\U{FF12}";
    assert line == t + "\n";
    assert !PyIsSpace(t[|t| - 1]);
    RStripNewline(t);
    assert t == "a b" + "\t" + count;
    assert Split(t, '\t') == ["a b", count] by {
      SplitAppend("a b", '\t', count);
      SplitFree("a b", '\t');
      SplitFree(count, '\t');
    }
    PyIntWideDigits();
  }

  // ---------------------------------------------------------------------
  // Loading every shard.

  /** The lines of all shards, shard after shard. */
  function Concat(shards: seq<seq<string>>): (lines: seq<string>)
  {
    if shards == [] then [] else shards[0] + Concat(shards[1..])
  }

  /** The records of `lines` in order, or the exception of the first line
      that raises one. */
  function LoadLines(lines: seq<string>): Result<seq<Record>, LoadError> {
    if lines == [] then Ok([])
    else match ParseLine(lines[0])
      case Err(e) => Err(e)
      case Ok(rec) => ResultThen([rec], LoadLines(lines[1..]))
  }

  /** Loading succeeds exactly when every line parses, and then yields one
      record per line, in order. */
  lemma {:induction false} LoadLinesOk(lines: seq<string>)
    ensures LoadLines(lines).Ok? <==> forall i :: 0 <= i < |lines| ==> ParseLine(lines[i]).Ok?
    ensures LoadLines(lines).Ok? ==> (|LoadLines(lines).value| == |lines| &&
      forall i :: 0 <= i < |lines| ==> LoadLines(lines).value[i] == ParseLine(lines[i]).value)
  {
    if lines != [] {
      var rest := lines[1..];
      LoadLinesOk(rest);
      assert forall i :: 0 < i < |lines| ==> lines[i] == rest[i - 1];
    }
  }

  lemma {:induction false} LoadLinesFirstError(lines: seq<string>, i: nat)
    requires i < |lines| && ParseLine(lines[i]).Err?
    requires forall j :: 0 <= j < i ==> ParseLine(lines[j]).Ok?
    ensures LoadLines(lines) == Err(ParseLine(lines[i]).error)
  {
    if i > 0 {
      ForallTail(lines, i, line => ParseLine(line).Ok?);
      assert lines[1..][i - 1] == lines[i];
      LoadLinesFirstError(lines[1..], i - 1);
      LoadLinesPassesError(lines);
    }
  }

  /** A line that parses passes on the error of the lines after it. */
  lemma LoadLinesPassesError(lines: seq<string>)
    requires |lines| > 0 && ParseLine(lines[0]).Ok? && LoadLines(lines[1..]).Err?
    ensures LoadLines(lines) == LoadLines(lines[1..])
  {
  }

  // ---------------------------------------------------------------------
  // `records.sort(key=lambda x: x[1], reverse=True)`: Python's sort is
  // stable, also with `reverse=True`, so records of equal count keep their
  // reading order.

  predicate CountsNonIncreasing(s: seq<Record>) {
    forall i, j :: 0 <= i < j < |s| ==> s[i].count >= s[j].count
  }

  /** The records of `s` whose count is `c`, in their order in `s`. */
  function WithCount(s: seq<Record>, c: int): seq<Record> {
    if s == [] then []
    else (if s[0].count == c then [s[0]] else []) + WithCount(s[1..], c)
  }

  /** Puts `x`, which precedes every record of `t` in reading order, before
      the first record of `t` whose count is not above its own. */
  function Insert(x: Record, t: seq<Record>): (r: seq<Record>)
    ensures multiset(r) == multiset(t) + multiset{x}
  {
    if t == [] || t[0].count <= x.count then [x] + t
    else
      assert t == [t[0]] + t[1..];
      [t[0]] + Insert(x, t[1..])
  }

  function SortByCountDesc(s: seq<Record>): (r: seq<Record>)
    ensures multiset(r) == multiset(s)
  {
    if s == [] then []
    else
      assert s == [s[0]] + s[1..];
      Insert(s[0], SortByCountDesc(s[1..]))
  }

  /** No count of `s` is above `b`. */
  predicate CountsAtMost(s: seq<Record>, b: int) {
    forall k :: 0 <= k < |s| ==> s[k].count <= b
  }

  lemma {:induction false} InsertAtMost(x: Record, t: seq<Record>, b: int)
    requires CountsAtMost(t, b) && x.count <= b
    ensures CountsAtMost(Insert(x, t), b)
  {
    if t != [] && t[0].count > x.count {
      InsertAtMost(x, t[1..], b);
    }
  }

  lemma {:induction false} InsertKeepsOrder(x: Record, t: seq<Record>)
    requires CountsNonIncreasing(t)
    ensures CountsNonIncreasing(Insert(x, t))
  {
    if t != [] && t[0].count > x.count {
      InsertKeepsOrder(x, t[1..]);
      InsertAtMost(x, t[1..], t[0].count);
    }
  }

  lemma {:induction false} InsertWithCount(x: Record, t: seq<Record>, c: int)
    ensures WithCount(Insert(x, t), c) ==
      (if x.count == c then [x] else []) + WithCount(t, c)
  {
    if t == [] || t[0].count <= x.count {
      assert ([x] + t)[1..] == t;
    } else {
      InsertWithCount(x, t[1..], c);
      assert ([t[0]] + Insert(x, t[1..]))[1..] == Insert(x, t[1..]);
    }
  }

  /** The sort orders by decreasing count ... */
  lemma {:induction false} SortOrders(s: seq<Record>)
    ensures CountsNonIncreasing(SortByCountDesc(s))
  {
    if s != [] {
      SortOrders(s[1..]);
      InsertKeepsOrder(s[0], SortByCountDesc(s[1..]));
    }
  }

  /** ... and is stable: for every count, the records with that count appear in
      the same order as before (which also makes it a permutation). */
  lemma {:induction false} SortIsStable(s: seq<Record>, c: int)
    ensures WithCount(SortByCountDesc(s), c) == WithCount(s, c)
  {
    if s != [] {
      SortIsStable(s[1..], c);
      InsertWithCount(s[0], SortByCountDesc(s[1..]), c);
    }
  }

  // ---------------------------------------------------------------------
  // Writing.

  /** The record lines, each followed by its newline. */
  function Body(recs: seq<Record>): string {
    if recs == [] then "" else RecordLine(recs[0]) + "\n" + Body(recs[1..])
  }

  /** What the `with gzip.open(...)` block writes: `f'{len(records)}\n'`, then
      `f'{tokens}\t{count}\n'` per record. */
  function Render(recs: seq<Record>): string {
    PyStr(|recs|) + "\n" + Body(recs)
  }

  /** The record lines of `recs`, without their newlines. */
  function RecordLines(recs: seq<Record>): (r: seq<string>)
    ensures |r| == |recs| && forall k :: 0 <= k < |recs| ==> r[k] == RecordLine(recs[k])
  {
    seq(|recs|, k requires 0 <= k < |recs| => RecordLine(recs[k]))
  }

  /** The lines of the written text, as the reader of the file sees them when
      no tokens hold a newline: the header, one line per record, and the empty
      piece after the final newline. */
  lemma RenderLines(recs: seq<Record>)
    requires forall k :: 0 <= k < |recs| ==> '\n' !in recs[k].tokens
    ensures Split(Render(recs), '\n') == [PyStr(|recs|)] + RecordLines(recs) + [""]
  {
    var parts := [PyStr(|recs|)] + RecordLines(recs) + [""];
    RenderIsJoin(recs);
    RenderPiecesFree(recs);
    SplitJoin(parts, '\n');
  }

  lemma RenderIsJoin(recs: seq<Record>)
    ensures Render(recs) == Join([PyStr(|recs|)] + RecordLines(recs) + [""], '\n')
  {
    BodyIsJoin(recs);
    JoinHead(PyStr(|recs|), RecordLines(recs), "", '\n');
  }

  lemma RenderPiecesFree(recs: seq<Record>)
    requires forall k :: 0 <= k < |recs| ==> '\n' !in recs[k].tokens
    ensures var parts := [PyStr(|recs|)] + RecordLines(recs) + [""];
      forall i :: 0 <= i < |parts| ==> '\n' !in parts[i]
  {
    var lines := RecordLines(recs);
    forall k | 0 <= k < |recs|
      ensures '\n' !in lines[k]
    {
      RecordLineFree(recs[k]);
    }
    DecimalHasNoNewline(|recs|);
    PiecesFree(PyStr(|recs|), lines, "", '\n');
  }

  lemma RecordLineFree(rec: Record)
    requires '\n' !in rec.tokens
    ensures '\n' !in RecordLine(rec)
  {
    DecimalHasNoNewline(rec.count);
  }

  lemma DecimalHasNoNewline(n: int)
    ensures '\n' !in PyStr(n) && '\t' !in PyStr(n)
  {
    var m := if n < 0 then -n else n;
    var body := DigitString(Digits(m));
    assert PyStr(n) == if n < 0 then "-" + body else body;
  }

  lemma {:induction false} BodyIsJoin(recs: seq<Record>)
    ensures Body(recs) == Join(RecordLines(recs) + [""], '\n')
  {
    if recs != [] {
      BodyIsJoin(recs[1..]);
      assert (RecordLines(recs) + [""])[1..] == RecordLines(recs[1..]) + [""];
    }
  }

  /** The written file reads back as what was loaded: Python's `int` reads the
      header as the number of records, and each record line as its record. */
  lemma RenderReadsBack(recs: seq<Record>)
    requires forall k :: 0 <= k < |recs| ==> '\n' !in recs[k].tokens && '\t' !in recs[k].tokens
    ensures var lines := Split(Render(recs), '\n');
      && |lines| == |recs| + 2
      && PyInt(lines[0]) == Some(|recs|)
      && LoadLines(lines[1..|recs| + 1]) == Ok(recs)
  {
    RenderLines(recs);
    PyIntStr(|recs|);
    var lines := Split(Render(recs), '\n');
    var mid := RecordLines(recs);
    assert lines[1..|recs| + 1] == mid;
    LoadRecordLines(recs);
  }

  /** Each written record line loads back as its record. */
  lemma LoadRecordLines(recs: seq<Record>)
    requires forall k :: 0 <= k < |recs| ==> '\t' !in recs[k].tokens
    ensures LoadLines(RecordLines(recs)) == Ok(recs)
  {
    var mid := RecordLines(recs);
    forall k | 0 <= k < |recs|
      ensures ParseLine(mid[k]) == Ok(recs[k])
    {
      assert mid[k] == RecordLine(recs[k]) + "";
      ParseRecordLine(recs[k], "");
    }
    LoadLinesOk(mid);
    var r := LoadLines(mid);
    assert r.Ok?;
    assert r.value == recs;
  }

  // ---------------------------------------------------------------------
  // The output name.

  /** `s.rstrip(ch)` for one character. */
  function RStripChar(s: string, ch: char): (r: string)
    ensures r <= s && (|r| > 0 ==> r[|r| - 1] != ch)
    ensures forall i :: |r| <= i < |s| ==> s[i] == ch
  {
    if |s| > 0 && s[|s| - 1] == ch then RStripChar(s[..|s| - 1], ch) else s
  }

  /** `os.path.basename(p)`: what follows the last `/`. */
  function Basename(p: string): (r: string)
    ensures '/' !in r && |r| <= |p| && r == p[|p| - |r|..]
    ensures |r| < |p| ==> p[|p| - |r| - 1] == '/'
  {
    match RevPosition(p, '/')
    case None => p
    case Some(i) => p[|p| - i..]
  }

  function Extension(isSort: bool): string {
    if isSort then ".sorted.gz" else ".gz"
  }

  /** `f'{dirname}/{os.path.basename(dirname)}' + ext`, after
      `dirname = dirname.rstrip('/')`. */
  function OutName(dirname: string, isSort: bool): (r: string)
    ensures var d := RStripChar(dirname, '/');
      && |r| > |d| + |Extension(isSort)|
      && r[..|d| + 1] == d + "/"
      && r[|r| - |Extension(isSort)|..] == Extension(isSort)
      && '/' !in r[|d| + 1..|r| - |Extension(isSort)|]
  {
    var d := RStripChar(dirname, '/');
    var b := Basename(d);
    var r := d + "/" + b + Extension(isSort);
    assert r[|d| + 1..|r| - |Extension(isSort)|] == b;
    r
  }

  /** The output file lies inside the directory, named after it: for a
      directory name without trailing slashes and whose last component is
      `base`, the name is `dir/base.gz` or `dir/base.sorted.gz`. */
  lemma OutNameInDirectory(parent: string, base: string, isSort: bool)
    requires base != [] && '/' !in base
    ensures OutName(parent + "/" + base, isSort) ==
      parent + "/" + base + "/" + base + Extension(isSort)
    ensures OutName(parent + "/" + base + "/", isSort) ==
      parent + "/" + base + "/" + base + Extension(isSort)
  {
    var d := parent + "/" + base;
    assert RStripChar(d, '/') == d;
    assert (d + "/")[..|d|] == d;
    assert RStripChar(d + "/", '/') == d;
    assert RevPosition(d, '/') == Some(|base|) by {
      assert d[|d| - 1 - |base|] == '/';
      assert d[|d| - |base|..] == base;
      var r := RevPosition(d, '/');
      assert r.value >= |base|;
    }
    assert Basename(d) == base;
  }

  // ---------------------------------------------------------------------
  // The whole converter.

  /** The records after the optional sort. */
  function Arrange(recs: seq<Record>, isSort: bool): seq<Record> {
    if isSort then SortByCountDesc(recs) else recs
  }

  /** The loading loop of `convert`: each shard in turn, each line in turn,
      appending its record; the first bad line's exception ends it. */
  method LoadShards(shards: seq<seq<string>>) returns (r: Result<seq<Record>, LoadError>)
    ensures r == LoadLines(Concat(shards))
  {
    var records: seq<Record> := [];
    var f := 0;
    assert shards[f..] == shards;
    ResultThenNil(LoadLines(Concat(shards)));
    while f < |shards|
      invariant 0 <= f <= |shards|
      invariant LoadLines(Concat(shards)) == ResultThen(records, LoadLines(Concat(shards[f..])))
    {
      var lines := shards[f];
      var l := 0;
      ConcatCons(shards, f);
      assert lines[l..] == lines;
      while l < |lines|
        invariant 0 <= l <= |lines|
        invariant LoadLines(Concat(shards)) ==
          ResultThen(records, LoadLines(lines[l..] + Concat(shards[f + 1..])))
      {
        var rest := Concat(shards[f + 1..]);
        var parsed := ParseLine(lines[l]);
        LoadStep(lines, l, rest);
        if parsed.Err? {
          ResultThenErr(records, parsed.error);
          return Err(parsed.error);
        }
        ResultThenAppend(records, parsed.value, LoadLines(lines[l + 1..] + rest));
        records := records + [parsed.value];
        l := l + 1;
      }
      assert lines[l..] + Concat(shards[f + 1..]) == Concat(shards[f + 1..]);
      f := f + 1;
    }
    assert shards[f..] == [];
    ResultThenDone(records);
    return Ok(records);
  }

  /** The writing loop of `convert`: the header line, then one line per record. */
  method WriteRecords(records: seq<Record>) returns (text: string)
    ensures text == Render(records)
  {
    text := PyStr(|records|) + "\n";
    var k := 0;
    while k < |records|
      invariant 0 <= k <= |records|
      invariant text + Body(records[k..]) == Render(records)
    {
      BodyCons(records, k);
      AppendAssoc(text, RecordLine(records[k]), "\n", Body(records[k + 1..]));
      text := text + RecordLine(records[k]) + "\n";
      k := k + 1;
    }
    assert records[k..] == [];
  }

  /** The body from record `k` on: its line, then the body from `k + 1`. */
  lemma BodyCons(recs: seq<Record>, k: nat)
    requires k < |recs|
    ensures Body(recs[k..]) == RecordLine(recs[k]) + "\n" + Body(recs[k + 1..])
  {
    assert recs[k..][1..] == recs[k + 1..];
  }

  /** `convert(dirname, is_sort)` with the shards that the natural-order glob
      of the directory's `.xz` files lists, each given by the lines that
      iterating over its decompressed text yields. The result is the output
      name and text, or the exception of the first bad line (nothing is
      written then). */
  method Convert(dirname: string, shards: seq<seq<string>>, isSort: bool)
    returns (r: Result<Output, LoadError>)
    ensures r.Ok? <==> LoadLines(Concat(shards)).Ok?
    ensures r.Err? ==> r == Err(LoadLines(Concat(shards)).error)
    ensures r.Ok? ==> (r.value ==
      Output(OutName(dirname, isSort), Render(Arrange(LoadLines(Concat(shards)).value, isSort))))
  {
    var loaded := LoadShards(shards);
    if loaded.Err? {
      return Err(loaded.error);
    }
    var records := loaded.value;
    if isSort {
      records := SortByCountDesc(records);
    }
    var text := WriteRecords(records);
    return Ok(Output(OutName(dirname, isSort), text));
  }

  /** `records` already read, followed by what the rest of the input gives. */
  function ResultThen(records: seq<Record>, rest: Result<seq<Record>, LoadError>): Result<seq<Record>, LoadError> {
    match rest
    case Err(e) => Err(e)
    case Ok(recs) => Ok(records + recs)
  }

  lemma ResultThenAppend(records: seq<Record>, rec: Record, rest: Result<seq<Record>, LoadError>)
    ensures ResultThen(records, ResultThen([rec], rest)) == ResultThen(records + [rec], rest)
  {
    if rest.Ok? {
      assert records + ([rec] + rest.value) == records + [rec] + rest.value;
    }
  }

  lemma ResultThenNil(rest: Result<seq<Record>, LoadError>)
    ensures ResultThen([], rest) == rest
  {
    if rest.Ok? {
      assert [] + rest.value == rest.value;
    }
  }

  lemma ResultThenErr(records: seq<Record>, e: LoadError)
    ensures ResultThen(records, Err(e)) == Err(e)
  {
  }

  lemma ResultThenDone(records: seq<Record>)
    ensures ResultThen(records, LoadLines([])) == Ok(records)
  {
    assert records + [] == records;
  }

  lemma ConcatCons(shards: seq<seq<string>>, f: nat)
    requires f < |shards|
    ensures Concat(shards[f..]) == shards[f] + Concat(shards[f + 1..])
  {
    assert shards[f..][0] == shards[f] && shards[f..][1..] == shards[f + 1..];
  }

  /** Loading the lines one at a time: the record or exception of line `l`,
      then the lines after it. */
  lemma LoadStep(lines: seq<string>, l: nat, rest: seq<string>)
    requires l < |lines|
    ensures ParseLine(lines[l]).Err? ==>
      LoadLines(lines[l..] + rest) == Err(ParseLine(lines[l]).error)
    ensures ParseLine(lines[l]).Ok? ==>
      LoadLines(lines[l..] + rest) == ResultThen([ParseLine(lines[l]).value], LoadLines(lines[l + 1..] + rest))
  {
    var s := lines[l..] + rest;
    assert s[0] == lines[l];
    assert s[1..] == lines[l + 1..] + rest;
  }
}
