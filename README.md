# tongrams in Dafny

This project is a Dafny model of the core of *tongrams*, a Rust library that
indexes n-gram counts in a trie. The model covers:

- **the input format.** A count file has a header line holding the number of
  grams, then one `gram<TAB>count` line per gram. The model covers the
  parser that reads it, bounded by the header count. It also covers the
  Python converter `scripts/nwc2010.py`, which writes such files from
  shards.
- **grams.** A gram is a byte string of tokens separated by a space. The
  model covers splitting a gram into tokens and popping its last token.
- **count ranking.** The builders learn how often each count value occurs
  in an order. They list the distinct values by decreasing frequency, ties
  broken by the smaller value first, and replace each count by its position
  in that list (its *rank*).
- **the trie levels.** Level `n` holds the token ids of the order-`n` grams.
  It also holds a pointer sequence: the children of the `j`-th gram of
  order `n-1` are the entries `[pointers[j], pointers[j+1])` of level `n`.
  The levels come in two forms, a plain vector and an Elias-Fano encoded
  one. The model covers both, the builders that merge each order against
  the previous one, and the backward trie of the probability model.
- **the vocabularies and the lookup.** A vocabulary gives each unigram its
  id: the plain one is a hash map, the double-array one is modelled as a
  finite map. The model covers mapping a query to ids and walking the
  levels of a trie to a count.
- **serialisation.** The model covers the layout in which a count model is
  serialised and read back.
- **the `sort_grams` tool.** The tool maps every gram to its token ids and
  sorts the grams by those ids. The model covers this, the fixed-width
  little-endian record codec it sorts with, and the helpers in `util.rs`
  that it shares with the other tools.

Rust byte strings are modelled as `seq<byte>` and Python strings as `string`.
Integers are unbounded. The limits the source relies on are modelled
explicitly: `usize` parsing below 2^64, a 31-bit id limit, eight orders at
most, and a one-byte length field. Library containers are modelled as
values. An Elias-Fano sequence is a sorted `seq` with `select` and `rank`.
A double array is a `map`. A hash map is a `map`, and its iteration order is
an arbitrary choice that the model proves does not matter.

A Rust panic that the input can reach is modelled as a result value, not as a
precondition. Examples are an `unwrap` on `None`, an out-of-bounds index and
a failed `assert_eq!`. The panic values are the `Panicked` case of
`Common.Outcome` or a `Panic` error.

Each source file is modelled by its own module. The mapping is:

| source file | modules |
|---|---|
| `scripts/nwc2010.py` | `Nwc2010`, with `Decimal` for Python's `int` and `str` |
| `tongrams/src/parser.rs` | `Parser`; `ParserStreams` holds the same parser seen as a run of answers |
| `tongrams/src/gram.rs` | `Gram` and `Utf8` |
| `tongrams/src/trie_count_lm/builder.rs` | `TrieCountLmBuilder`, with its proofs in `Ranking`, `PointerGroups`, `TrieCountLmBuildFacts` and `TrieCountLmBuilt` |
| `tongrams/src/sequence_collection.rs` | `SequenceCollection` |
| `tongrams/src/trie_array.rs` | `TrieArray` |
| `tongrams/src/trie_array/simple.rs` | `SimpleTrieArray` |
| `tongrams/src/trie_array/ef.rs` | `EliasFanoTrieArray` and `EliasFano` |
| `tongrams/src/sorted_array.rs` | `SortedArray` |
| `tongrams/src/grams_sequence.rs` | `GramsSequence` |
| `tongrams/src/trie_array/builder.rs` | `TrieLayerBuilder` |
| `tongrams/src/trie_prob_lm/builder.rs` | `TrieProbLmBuilder`, with its proofs in `TrieProbLmBuildFacts` and `TrieProbLmBuilt` |
| `tongrams/src/mappers.rs` | `Mappers` |
| `tongrams/src/vocabulary.rs` | `Vocabulary` |
| `tongrams/src/vocabulary/simple.rs` | `SimpleVocabulary` |
| `tongrams/src/vocabulary/yada.rs` | `DoubleArrayVocabulary` |
| `tongrams/src/trie_count_lm/lookuper.rs` | `TrieCountLmLookuper` |
| `tongrams/src/trie_count_lm.rs` | `TrieCountLm`, and `TrieCountLmTest` for its test oracles |
| `tools/src/sort_grams.rs` | `SortGrams` and `MappedRecords`, with `Order` for lexicographic order |
| `tongrams/src/util.rs` | `Util` |

`Common` holds `Option`, `Result`, `Outcome`, and splitting and joining
sequences at a separator.

## Model

| member | source | states |
|---|---|---|
| Nwc2010.ParseLine | scripts/nwc2010.py:29-31 | a line that parses gives a record whose tokens hold no tab |
| Nwc2010.ParseRecordLine | scripts/nwc2010.py:29-31 | a record whose tokens hold no tab reads back from its own written line, with or without its newline |
| Nwc2010.RecordLineStrips | scripts/nwc2010.py:29 | `rstrip` takes off exactly the newline of a written record line, which ends in a digit |
| Nwc2010.RecordLineSplits | scripts/nwc2010.py:30 | a written record line whose tokens hold no tab splits at its one tab into the tokens and the count's digits |
| Nwc2010.LoadLinesOk | scripts/nwc2010.py:28-31 | loading succeeds exactly when every line has two tab fields and a count that `int` reads, Unicode decimal digits included; it then yields one record per line, in line order, duplicates kept |
| Nwc2010.ParseWideDigitCount | scripts/nwc2010.py:28-31 | a line whose count is written in fullwidth digits parses, its tokens keeping their space |
| Nwc2010.LoadLinesFirstError | scripts/nwc2010.py:29-31 | the exception that aborts loading is the one of the first bad line |
| Nwc2010.LoadShards | scripts/nwc2010.py:26-31 | the nested loop over shards and lines yields the records of all shards in shard order, then line order, or the first line's exception |
| Nwc2010.SortByCountDesc | scripts/nwc2010.py:35 | the sort only permutes the records: same multiset |
| Nwc2010.Insert | scripts/nwc2010.py:35 | inserting a record into the sorted tail adds exactly that record to the multiset |
| Nwc2010.SortOrders | scripts/nwc2010.py:35 | after the sort, counts never increase |
| Nwc2010.SortIsStable | scripts/nwc2010.py:35 | the sort is stable under `reverse=True`: for every count, the records with that count keep their input order |
| Nwc2010.InsertKeepsOrder | scripts/nwc2010.py:35 | inserting a record into a non-increasing list keeps it non-increasing |
| Nwc2010.InsertWithCount | scripts/nwc2010.py:35 | inserting a record puts it first among the records with its count |
| Nwc2010.RStripChar | scripts/nwc2010.py:23 | `rstrip('/')` removes only trailing slashes and leaves none |
| Nwc2010.Basename | scripts/nwc2010.py:37 | `os.path.basename` is the suffix after the last `/` and holds no `/` |
| Nwc2010.OutName | scripts/nwc2010.py:23-37 | the output name is the stripped directory, a `/`, a slash-free base name, then `.sorted.gz` or `.gz` |
| Nwc2010.OutNameInDirectory | scripts/nwc2010.py:23-37 | for `parent/base` with or without a trailing `/`, the output is `parent/base/base.gz` or `parent/base/base.sorted.gz` |
| Nwc2010.RecordLines | scripts/nwc2010.py:42-43 | one `tokens<TAB>count` line per record, in order |
| Nwc2010.WriteRecords | scripts/nwc2010.py:40-43 | the write loop produces the header, then the record lines, each ending in a newline |
| Nwc2010.RenderLines | scripts/nwc2010.py:41-43 | the written text splits into the decimal record count, one line per record and a final empty piece |
| Nwc2010.RenderReadsBack | scripts/nwc2010.py:29-43 | the header reads back with `int` as the record count; the record lines load back as the records |
| Nwc2010.LoadRecordLines | scripts/nwc2010.py:29-43 | re-parsing every written record line returns the records that produced them |
| Nwc2010.Convert | scripts/nwc2010.py:21-43 | `convert` fails exactly when loading fails, with that exception; otherwise it writes the header and the records, sorted when asked, to `OutName` |
| Decimal.PyRStrip | scripts/nwc2010.py:29 | `rstrip()` leaves a prefix that does not end in whitespace and removes only whitespace |
| Decimal.RStripNewline | scripts/nwc2010.py:28-29 | the newline that file iteration leaves on a line is removed, and nothing else |
| Decimal.PyIntOfBody | scripts/nwc2010.py:31 | `int` reads a body of Unicode decimal digits (with single underscores) as its decimal value |
| Decimal.PyIntWideDigits | scripts/nwc2010.py:31 | `int` reads fullwidth digits as their values |
| Decimal.SingleDigit | scripts/nwc2010.py:31 | `int` reads any one Unicode decimal digit as its value, and a digit is not whitespace |
| Decimal.PyIntArabicIndicDigit | scripts/nwc2010.py:31 | `int` reads an Arabic-Indic digit padded by whitespace |
| Decimal.PyIntStripped | scripts/nwc2010.py:31 | `int` depends only on its text with the surrounding whitespace stripped |
| Decimal.PyIntOfNegatedBody | scripts/nwc2010.py:31 | `int` reads `-` followed by a digit body as the negated value |
| Decimal.PyIntStr | scripts/nwc2010.py:31-43 | `int(str(n)) == n` for every integer |
| Decimal.ValueDigits | scripts/nwc2010.py:41 | the decimal digits of `n` have value `n` |
| Decimal.ParseUsize | tongrams/src/parser.rs:24-58 | `usize::from_str` accepts only values below 2^64, and no empty text |
| Decimal.FormatUsize | tools/src/sort_grams.rs:117-120 | `format!("{}", n)` is a non-empty run of ASCII digits |
| Decimal.ParseFormatUsize | tongrams/src/parser.rs:24-58 | a formatted `usize` parses back as itself |
| Parser.TrimEnd | tongrams/src/parser.rs:50-75 | `trim_end` leaves a prefix that does not end in a whitespace character |
| Parser.TrimStart | tongrams/src/parser.rs:24 | `trim_start` leaves a suffix that does not start in a whitespace character |
| Parser.TrimDigits | tongrams/src/parser.rs:24 | `trim` of a header numeral with its newline gives back the numeral |
| Parser.ReadLine | tongrams/src/parser.rs:23-47 | `read_line` splits the input into the line it hands out and the rest; it reads something unless the input is empty |
| Parser.ReadLineStops | tongrams/src/parser.rs:47 | the line stops at the first newline and includes it; without a newline it is the whole input |
| Parser.ParseHeader | tongrams/src/parser.rs:20-25 | the header is the trimmed first line as a `usize`; the value is below 2^64 and the first line has been consumed |
| Parser.HeaderOfFormatted | tongrams/src/parser.rs:20-25 | a header line written as a decimal numeral reads back as that number, leaving the rest of the file |
| Parser.GramsParser.New | tongrams/src/parser.rs:20-31 | `new` fails exactly when the header does not parse, with that error; otherwise `num_parsed` is 0 and `num_grams` is the header value |
| Parser.GramsParser.NextCountRecord | tongrams/src/parser.rs:40-62 | every call increments `num_parsed`, also the ones that fail; past `num_grams` calls it answers `None` and reads nothing; otherwise it reads one line and answers for it |
| Parser.CountLine | tongrams/src/parser.rs:49-61 | a record taken from a line has a gram with no tab and a count below 2^64 |
| Parser.CountLineCases | tongrams/src/parser.rs:49-61 | a line is a record exactly when `trim_end` and a tab split give two fields and the second parses; the gram is the first field verbatim, the count the parsed second; otherwise "Invalid line" for the wrong field count, "Parse error" for a bad count |
| Parser.CountLineAtEnd | tongrams/src/parser.rs:46-55 | reading past the end gives the empty buffer, which splits into one item and is reported as "Invalid line" |
| Parser.GramsParser.NextProbRecord | tongrams/src/parser.rs:65-80 | the same bounded read, answering for the line by `ProbLine` |
| Parser.ProbLine | tongrams/src/parser.rs:74-100 | a probability line is accepted exactly when it has two or three fields; the gram is the first field, and there is a backoff exactly when there are three |
| Parser.CountLineOfFormat | tongrams/src/parser.rs:49-61 | a record whose gram holds no tab reads back from its own `gram<TAB>count` line |
| Parser.CountAnswerFormatted | tongrams/src/parser.rs:47-61 | the parser answers the line of a well-formed record with that record |
| Parser.LinesSnoc | tongrams/src/parser.rs:47 | each further call of `read_line` hands out the next line of what is left |
| Parser.Answers | tongrams/src/parser.rs:40-62 | the answers are one answer per line, in line order |
| Parser.CollectBound | tongrams/src/parser.rs:41-44 | collecting answers keeps at most one record per answer, and fails only with the error of one of them |
| Parser.DrainBound | tongrams/src/parser.rs:41-44 | the parser yields at most `num_grams` records |
| Parser.LinesOfConcat | tongrams/src/parser.rs:47 | complete lines at the front of the input are handed out one per call, then reading goes on into what follows |
| Parser.FormatCountLinesConcat | tongrams/src/parser.rs:49-61 | a count file body is the formatted lines, one after another, each a complete line |
| Parser.CollectDelivered | tongrams/src/parser.rs:40-62 | records delivered before further answers are kept in front of what those answers give |
| Parser.AnswersOfFormatted | tongrams/src/parser.rs:40-62 | reading as many answers as there are formatted records gives those records |
| Parser.DrainFormatted | tongrams/src/parser.rs:40-62 | draining `|recs|` records from their formatted lines gives the records back, whatever follows them |
| Parser.LoadFormatted | tongrams/src/parser.rs:20-62 | a count file written from well-formed records loads back as those records |
| Parser.AnswersOverstated | tongrams/src/parser.rs:46-55 | when the header announces one record more than the file holds, the extra call answers "Invalid line" |
| Parser.DrainOverstated | tongrams/src/parser.rs:46-55 | a header that overstates the line count by one makes loading fail with "Invalid line" |
| Parser.FormatCountLineUtf8 | tongrams/src/parser.rs:47 | the line of a well-formed record is valid UTF-8 and a complete line, so `read_line` accepts it |
| ParserStreams.Open | tongrams/src/parser.rs:20-31 | opening a file's parser fails exactly when its header fails; otherwise the parser still has all the file's answers to give |
| ParserStreams.Next | tongrams/src/parser.rs:40-62 | `next_count_record` gives the first remaining answer and leaves the others |
| ParserStreams.LoadIsLoadCountFile | tongrams/src/parser.rs:20-62 | a definitional bridge: collecting the answers of a file's parser is, by definition, loading the count file |
| ParserStreams.Grams | tongrams/src/util.rs:70 | the grams of the records, one per record, in order |
| Parser.GramsParser.Init | tongrams/src/parser.rs:26-30 | a parser starts at the input after its header, with the header's count and nothing parsed |
| Parser.ReadLineOf | tongrams/src/parser.rs:47 | a line with no newline, followed by a newline, is read as exactly that line and its newline, leaving the rest |
| ParserStreams.StreamParser.Over | tongrams/src/util.rs:47 | a parser opened over some answers has all of them left to give |
| ParserStreams.StreamParser.Next | tongrams/src/util.rs:49-50 | each step of `for rec in gp` gives the first answer left and drops it |
| ParserStreams.OpenLoader | tongrams/src/util.rs:47 | `loader.parser()?` fails exactly when the loader does, with its error, and otherwise gives every answer of the loader |
| Gram.ToString | tongrams/src/gram.rs:25-27 | `to_string` panics exactly when the bytes are not valid UTF-8, and otherwise keeps them |
| Gram.PopToken | tongrams/src/gram.rs:51-61 | `pop_token` is `None` exactly when there is no separator; otherwise `prefix ++ [sep] ++ suffix == data` and the suffix holds no separator |
| Gram.PopTokenAt | tongrams/src/gram.rs:51-61 | `pop_token` cuts at the last separator: `pfx ++ [sep] ++ sfx` with a separator-free `sfx` pops to `(pfx, sfx)` |
| Gram.PopTokenExample | tongrams/src/gram.rs:38-49 | the documented example: `"abc de f"` pops to `"abc de"` and `"f"`, then to `"abc"` and `"de"`, then to `None` |
| Gram.SplitToTokens | tongrams/src/gram.rs:77-82 | `split_to_tokens` gives one token more than there are separators, no token holds a separator, and joining the tokens with the separator gives back the gram |
| Gram.TokensOfJoin | tongrams/src/gram.rs:77-82 | separator-free tokens joined by the separator split back into the same tokens |
| Gram.PopTokenTokens | tongrams/src/gram.rs:51-82 | the tokens of the popped prefix, followed by the popped token, are the tokens of the gram |
| Gram.SplitToTokensExample | tongrams/src/gram.rs:68-75 | the documented example: `"abc de f"` splits into `"abc"`, `"de"` and `"f"` |
| Utf8.AsciiIsUtf8 | tongrams/src/gram.rs:26 | ASCII text is valid UTF-8, so `to_string` does not panic on it |
| Ranking.Bump | tongrams/src/trie_count_lm/builder.rs:160-166 | `eat_value(x)` adds `x` to the keys of the frequency map and nothing else |
| Ranking.BumpChanges | tongrams/src/trie_count_lm/builder.rs:160-166 | after `eat_value(x)` the frequency of `x` is one more than before (1 when new), and no other frequency changes |
| Ranking.TallyCounts | tongrams/src/trie_count_lm/builder.rs:55-166 | after eating a sequence, the frequency map holds exactly the eaten values, each with its number of occurrences |
| Ranking.SortByFrequency | tongrams/src/trie_count_lm/builder.rs:183 | `sort_by` with the comparator "frequency descending, then value ascending" permutes the pairs and sorts them strictly |
| Ranking.Insert | tongrams/src/trie_count_lm/builder.rs:183 | inserting a pair into a strictly sorted list keeps it strictly sorted and adds exactly that pair |
| Ranking.SortedEntries | tongrams/src/trie_count_lm/builder.rs:176-185 | sorting the entries of the frequency map and keeping the values gives its frequency order |
| Ranking.ValuesRanked | tongrams/src/trie_count_lm/builder.rs:183-185 | the values of the sorted entries list every eaten value once, most frequent first, ties by smaller value |
| Ranking.FrequencyOrder | tongrams/src/trie_count_lm/builder.rs:176-185 | whatever order the hash map yields its entries in, the sequence built is the frequency order of the map |
| Ranking.EntriesExist | tongrams/src/trie_count_lm/builder.rs:177-179 | the entries of every frequency map can be gathered into a list, each once |
| Ranking.FrequencyOrderDistinct | tongrams/src/trie_count_lm/builder.rs:184-185 | a frequency order lists every value once |
| Ranking.RanksUnique | tongrams/src/trie_count_lm/builder.rs:182-185 | a frequency order is unique, so the iteration order of the hash map does not matter |
| Ranking.FrequencyOrderUnique | tongrams/src/trie_count_lm/builder.rs:182-185 | two frequency orders of the same map are equal |
| Ranking.FrequencyOrderIs | tongrams/src/trie_count_lm/builder.rs:182-185 | any frequency order of a map is the one `FrequencyOrderOf` names |
| Ranking.RankMap | tongrams/src/trie_count_lm/builder.rs:187-191 | the rank map holds exactly the listed values, and maps the value at index `k` to `k` |
| Ranking.BuildRankMap | tongrams/src/trie_count_lm/builder.rs:187-191 | the `enumerate` loop builds the rank map of the sequence |
| Ranking.RankAccess | tongrams/src/trie_count_lm/builder.rs:194-196 | a value has a rank exactly when it is listed; its rank indexes back to it |
| Ranking.FirstOracle | tongrams/src/trie_count_lm/builder.rs:205-225 | eating 2, 2, 1, 2, 4, 2, 1, 2, 1 gives the order 2, 1, 4 |
| Ranking.SecondOracle | tongrams/src/trie_count_lm/builder.rs:205-227 | eating 2, 1, 2, 1, 1, 1 gives the order 1, 2 |
| Ranking.FirstTally | tongrams/src/trie_count_lm/builder.rs:205 | the first test order eats 2 five times, 1 three times and 4 once |
| Ranking.SecondTally | tongrams/src/trie_count_lm/builder.rs:205 | the second test order eats 1 four times and 2 twice |
| TrieCountLmBuilder.CountsBuilder.Default | tongrams/src/trie_count_lm/builder.rs:145-153 | `default` starts with no frequencies, no rank maps and no sequences |
| TrieCountLmBuilder.CountsBuilder.EatValue | tongrams/src/trie_count_lm/builder.rs:160-166 | `eat_value` bumps the frequency of `x` and leaves the finished orders alone |
| TrieCountLmBuilder.CountsBuilder.BuildSequence | tongrams/src/trie_count_lm/builder.rs:169-192 | `build_sequence` appends the frequency order of the eaten values and its rank map, appends an empty sequence when nothing was eaten, and clears the frequency map |
| TrieCountLmBuilder.CountsBuilder.Rank | tongrams/src/trie_count_lm/builder.rs:194-196 | `rank(order, v)` is `Some` exactly when `v` is in that order's sequence, and then it is the index of `v` there |
| TrieCountLmBuilder.CountsBuilder.Release | tongrams/src/trie_count_lm/builder.rs:156-158 | `release` gives one sequence per order, in which every rank indexes back to its value |
| TrieCountLmBuilder.EatAll | tongrams/src/trie_count_lm/builder.rs:209-211 | eating a sequence leaves its tally as the frequency map |
| TrieCountLmBuilder.CountsBasicTest | tongrams/src/trie_count_lm/builder.rs:204-228 | the unit test: ranks 1, 0, none, 2 in order 0 and 0, 1 in order 1; released sequences [2, 1, 4] and [1, 2] |
| TrieCountLmBuilder.LoadAll | tongrams/src/trie_count_lm/builder.rs:53-57 | the records of every file, one list per file, or the first error in file order |
| TrieCountLmBuilder.LoadAllStops | tongrams/src/trie_count_lm/builder.rs:53-57 | once a file fails, the files after it are not read |
| TrieCountLmBuilder.EatFile | tongrams/src/trie_count_lm/builder.rs:54-57 | eating a file fails exactly when loading it fails, with that error; otherwise the frequency map is the tally of its counts |
| TrieCountLmBuilder.Builder.BuildCounts | tongrams/src/trie_count_lm/builder.rs:52-62 | `build_counts` fails exactly when some file fails, with the first error; otherwise it appends one frequency order per file, in file order |
| TrieCountLmBuilder.OrdersOf | tongrams/src/trie_count_lm/builder.rs:52-62 | the value order of each file is the frequency order of its counts, each value once |
| TrieCountLmBuilder.Builder.AddCountRanks | tongrams/src/trie_count_lm/builder.rs:79-82 | the loop stores the unigram rank of every record's count, in order, and panics exactly when one has no rank |
| TrieCountLmBuilder.RanksOf | tongrams/src/trie_count_lm/builder.rs:79-82 | one rank per record, the rank of its count |
| TrieCountLmBuilder.VocabularyOf | tongrams/src/trie_count_lm/builder.rs:64-88 | a vocabulary that builds needs at least one file |
| TrieCountLmBuilder.Builder.BuildVocabulary | tongrams/src/trie_count_lm/builder.rs:64-88 | `build_vocabulary` loads the unigram file, builds its vocabulary, and pushes a level of the unigram count ranks with no pointers and no token ids |
| TrieCountLmBuilder.Advance | tongrams/src/trie_count_lm/builder.rs:108-115 | the inner loop only consumes previous-order answers and only pushes copies of the current pointer |
| TrieCountLmBuilder.Seek | tongrams/src/trie_count_lm/builder.rs:108-115 | the `while pattern != prev_rec.gram()` loop does what `Advance` describes |
| TrieCountLmBuilder.PushRest | tongrams/src/trie_count_lm/builder.rs:124-126 | `for _ in prev_gp` pushes the current pointer once per remaining answer |
| TrieCountLmBuilder.TailCount | tongrams/src/trie_count_lm/builder.rs:124-126 | the loop meets at most as many answers as remain |
| TrieCountLmBuilder.Builder.AttachRecord | tongrams/src/trie_count_lm/builder.rs:104-122 | one record of the outer loop: pop its last token, advance the previous order, bump the pointer, store the token id and the count rank; panics on a failed `unwrap` |
| TrieCountLmBuilder.Builder.BuildSortedArray | tongrams/src/trie_count_lm/builder.rs:91-133 | `build_sorted_array(order)` pushes the level `SortedArrayOf` describes, or returns its error or panic |
| TrieCountLmBuilder.Builder.MergeRecords | tongrams/src/trie_count_lm/builder.rs:104-122 | the loop over the current order's records, on both parsers, computes the merge `Merge` describes from the first gram of the order below, filling the level builder with a token id and a count rank per record |
| TrieCountLmBuilder.Builder.BuildLevels | tongrams/src/trie_count_lm/builder.rs:39-42 | the levels of orders 1 to `max_order` are built in turn; the first failure ends the loop |
| TrieCountLmBuilder.LevelsOf | tongrams/src/trie_count_lm/builder.rs:39-42 | building the orders 1 to `n` gives `n` levels |
| TrieCountLmBuilder.LevelsStop | tongrams/src/trie_count_lm/builder.rs:40-42 | once an order fails, the higher orders are not built |
| TrieCountLmBuilder.Builder.New | tongrams/src/trie_count_lm/builder.rs:26-33 | `new` keeps the loaders and starts with an empty vocabulary, no levels and an empty counts builder |
| TrieCountLmBuilder.Builder.Build | tongrams/src/trie_count_lm/builder.rs:35-50 | `build` counts, builds the vocabulary, then the levels, and returns what `BuildOf` describes |
| TrieCountLmBuilder.BuiltFrom | tongrams/src/trie_count_lm/builder.rs:35-50 | a build whose steps all succeed returns `max_order`, the vocabulary, the unigram level followed by the other levels, and the value orders |
| PointerGroups.PointersOf | tongrams/src/trie_count_lm/builder.rs:95-129 | the pointers over `n` parents are `n + 1` entries; entry `j` counts the children whose parent is below `j` |
| PointerGroups.BelowIsPrefix | tongrams/src/trie_count_lm/builder.rs:104-122 | along non-decreasing parents, the children of parents below `j` are a prefix of the level |
| PointerGroups.PointersShape | tongrams/src/trie_count_lm/builder.rs:95-129 | the pointers start at 0, never decrease, and end at the number of children |
| PointerGroups.PointersGroup | tongrams/src/trie_count_lm/builder.rs:104-122 | the children of parent `j` are exactly the entries from pointer `j` up to pointer `j + 1` |
| PointerGroups.PointersExtend | tongrams/src/trie_count_lm/builder.rs:124-127 | pushing the final pointer for the parents with no more children gives the pointers of all parents |
| PointerGroups.PushedShape | tongrams/src/trie_count_lm/builder.rs:109-127 | pushing copies of the current pointer keeps the pointers starting at 0 and never decreasing |
| PointerGroups.BigramPointers | tongrams/src/trie_count_lm.rs:286-288 | the unit-test bigrams, with parents 0, 0, 1, 1, 1, 2, 2, 3, 3, have pointers 0, 2, 5, 7, 9 |
| PointerGroups.TrigramPointers | tongrams/src/trie_count_lm.rs:294-304 | the unit-test trigrams have pointers 0, 1, 1, 3, 4, 4, 4, 4, 6, 7 |
| TrieCountLmBuildFacts.AdvanceCount | tongrams/src/trie_count_lm/builder.rs:108-115 | the inner loop pushes one pointer per previous-order answer it consumes |
| TrieCountLmBuildFacts.AttachShape | tongrams/src/trie_count_lm/builder.rs:104-122 | attaching a record keeps the pointers starting at 0 and never decreasing, and counts one more gram |
| TrieCountLmBuildFacts.MergeShape | tongrams/src/trie_count_lm/builder.rs:104-122 | the merge of a whole order keeps that shape |
| TrieCountLmBuildFacts.CollectCount | tongrams/src/trie_count_lm/builder.rs:124-126 | a file whose records all load has one answer before the end per record |
| TrieCountLmBuildFacts.LevelShape | tongrams/src/trie_count_lm/builder.rs:95-129 | a level that builds has pointers starting at 0, never decreasing and ending at its number of grams, one token id and one count rank per gram, and at least one more pointer than the grams of the order below |
| TrieCountLmBuildFacts.AttachRecord | tongrams/src/trie_count_lm/builder.rs:117-121 | attaching a record adds the rank of its count and the id of its last token |
| TrieCountLmBuildFacts.MergeRanks | tongrams/src/trie_count_lm/builder.rs:104-122 | a merge that succeeds has read the whole file of its order and added the rank of each count, in order |
| TrieCountLmBuildFacts.MergeTokens | tongrams/src/trie_count_lm/builder.rs:104-122 | a merge that succeeds has added the id of each gram's last token, in order |
| TrieCountLmBuildFacts.LevelRecords | tongrams/src/trie_count_lm/builder.rs:91-133 | a level that builds holds, for each record in order, the rank of its count and the id of its last token |
| TrieCountLmBuildFacts.AdvanceRun | tongrams/src/trie_count_lm/builder.rs:108-115 | on delivered records the inner loop walks to the first gram equal to the pattern, pushing one pointer per gram passed |
| TrieCountLmBuildFacts.MergeHappy | tongrams/src/trie_count_lm/builder.rs:104-122 | when every gram extends a gram of the order below, in order, the merge succeeds and its pointers are those of the parent indices |
| TrieCountLmBuildFacts.HappyLevel | tongrams/src/trie_count_lm/builder.rs:95-129 | on such files the level builds, and the grams extending the `j`-th gram below are exactly those from pointer `j` up to pointer `j + 1` |
| TrieCountLmBuilt.LevelsPrefix | tongrams/src/trie_count_lm/builder.rs:39-42 | the first levels of a successful build are built on their own too |
| TrieCountLmBuilt.LevelOf | tongrams/src/trie_count_lm/builder.rs:39-133 | the level of order `o` is the sorted array built from files `o - 1` and `o` |
| TrieCountLmBuilt.LevelFacts | tongrams/src/trie_count_lm/builder.rs:91-133 | the level of order `o` is laid out over the records of order `o - 1` and stores the count ranks of the records of order `o` |
| TrieCountLmBuilt.LevelsOver | tongrams/src/trie_count_lm/builder.rs:39-133 | when every file loads, every level above the unigrams is laid out over the order below and stores the count ranks of its own order |
| TrieCountLmBuilt.RanksDecode | tongrams/src/trie_count_lm/builder.rs:80-196 | reading the released value order at a record's stored rank gives back that record's count |
| TrieCountLmBuilt.VocabularyFacts | tongrams/src/trie_count_lm/builder.rs:64-88 | the vocabulary is the one built from the unigram grams, and the unigram level holds no pointers, no token ids, and the rank of each unigram count |
| TrieCountLmBuilt.BuiltParts | tongrams/src/trie_count_lm/builder.rs:35-50 | a successful build loaded every file and every step succeeded |
| TrieCountLmBuilt.BuiltLayout | tongrams/src/trie_count_lm/builder.rs:35-50 | a built model has one level and one value order per file, and each value order is the frequency order of that file's counts |
| TrieCountLmBuilt.BuiltCounts | tongrams/src/trie_count_lm/builder.rs:35-120 | in a built model, the count rank stored for every record of every order reads back as that record's count |
| TrieCountLmBuilt.BuiltVocabulary | tongrams/src/trie_count_lm/builder.rs:64-88 | the vocabulary of a built model maps the gram of the `i`-th unigram record to `i` |
| TrieCountLmBuilt.BuiltLevels | tongrams/src/trie_count_lm/builder.rs:35-133 | every level above the unigrams of a built model is laid out over the records of the order below |
| TrieCountLmBuilt.LoadFiles | tongrams/src/trie_count_lm/builder.rs:53-57 | files that deliver records load them |
| TrieCountLmBuilt.CountsRanked | tongrams/src/trie_count_lm/builder.rs:80-120 | every count of a file has a rank in the value order of that file, so those `unwrap`s do not panic |
| TrieCountLmBuilt.LevelsHappy | tongrams/src/trie_count_lm/builder.rs:39-133 | when every order's grams extend the grams of the order below, in order, every level builds |
| TrieCountLmBuilt.LevelGrouped | tongrams/src/trie_count_lm/builder.rs:104-129 | in such a build, the level of order `o` groups the grams of order `o` under their parents by its pointers |
| TrieCountLmBuilt.BuildHappy | tongrams/src/trie_count_lm/builder.rs:35-133 | files with distinct unigrams and nested higher orders build, and every level groups its grams under their parents |
| TrieCountLmBuilt.LevelLast | tongrams/src/trie_count_lm/builder.rs:39-42 | the last level of the built orders is the sorted array of the highest order's file over the file below |
| TrieCountLmBuilt.LevelsInit | tongrams/src/trie_count_lm/builder.rs:39-42 | the orders below the highest build on their own, into the levels before the last |
| TrieCountLmLookuper.Lookuper.New | tongrams/src/trie_count_lm/lookuper.rs:26-31 | `new` keeps the index and starts with a fresh, valid mapper |
| TrieCountLmLookuper.Lookuper.Run | tongrams/src/trie_count_lm/lookuper.rs:34-50 | `run` answers `RunOf`: `None` when a token is not in the vocabulary, otherwise the walk over the levels and the count read through the rank arrays, or a panic on an index out of bounds |
| TrieCountLmLookuper.Lookuper.Walk | tongrams/src/trie_count_lm/lookuper.rs:37-44 | the `zip` loop ends where `WalkOf` ends: at the last position found, at `None` for an id missing from its range, or at a panic |
| TrieCountLmLookuper.Lookuper.WithStr | tongrams/src/trie_count_lm/lookuper.rs:53-55 | `with_str` answers as `run` does on the UTF-8 bytes of the text |
| TrieCountLmLookuper.WalkStep | tongrams/src/trie_count_lm/lookuper.rs:38-43 | one step of the loop looks the id up in the range of the current position and goes on from the position found |
| TrieCountLmLookuper.WalkEnd | tongrams/src/trie_count_lm/lookuper.rs:38 | the `zip` stops when the ids or the levels run out, at the current position |
| TrieCountLmLookuper.Parent | tongrams/src/trie_count_lm/lookuper.rs:39 | every gram of a level lies in the range of one gram of the order below and extends it by its own token id |
| TrieCountLmLookuper.GramShape | tongrams/src/trie_count_lm/lookuper.rs:36-44 | in an index, every gram of order `o` has `o + 1` ids and its first `k + 1` ids are a gram of order `k` |
| TrieCountLmLookuper.Absent | tongrams/src/trie_count_lm/lookuper.rs:39-42 | an id that is missing from the range of the current position rules out every gram that starts with the ids walked so far and that id |
| TrieCountLmLookuper.WalkFinds | tongrams/src/trie_count_lm/lookuper.rs:37-44 | starting from the position of the first `k + 1` ids, the walk ends at the gram's position when its order holds it, and at `None` when it does not |
| TrieCountLmLookuper.AnswerMeaning | tongrams/src/trie_count_lm/lookuper.rs:36-46 | for ids of vocabulary tokens, at most as many as the index has orders, the answer is the gram's count when the index holds the gram and `None` otherwise |
| TrieCountLmLookuper.RunMeaning | tongrams/src/trie_count_lm/lookuper.rs:34-50 | a query of at most eight tokens, and at most as many as there are orders, answers the gram's count when every token is known and the index holds the gram, and `None` otherwise |
| TrieCountLmLookuper.WalkTruncates | tongrams/src/trie_count_lm/lookuper.rs:38 | the `zip` ignores the ids left over once the levels run out |
| TrieCountLmLookuper.LongQueryPanics | tongrams/src/trie_count_lm/lookuper.rs:36-46 | as written, a query that extends a gram of the highest order by one token walks every level and then indexes a rank array the index does not have: it panics |
| TrieCountLmLookuper.CheckedAnswerMeaning | tongrams/src/trie_count_lm/lookuper.rs:36-46 | with a check on the number of ids, every query of vocabulary ids is answered without a panic: the count of a held gram, `None` for any other gram |
| TrieCountLmLookuper.WalkFindsStep | tongrams/src/trie_count_lm/lookuper.rs:38-44 | from a position holding the first `k + 1` ids, the rest of the walk ends at the position of the whole query among the grams of its order, or `None` when it is not held |
| TrieCountLm.NumGramsSum | tongrams/src/trie_count_lm.rs:225-227 | `num_grams` is the total length of the rank arrays, one entry per gram, and one more order adds exactly its grams |
| TrieCountLm.FoldLensSum | tongrams/src/trie_count_lm.rs:226 | the left fold that adds up lengths equals their sum |
| TrieCountLm.SerializeInto | tongrams/src/trie_count_lm.rs:96-119 | `serialize_into` writes the vocabulary, then each list as its length followed by its components, and returns the total of the bytes it wrote |
| TrieCountLm.WriteParts | tongrams/src/trie_count_lm.rs:105-117 | each `for` loop of `serialize_into` writes its components in order and adds the bytes of each |
| TrieCountLm.SizeInBytes | tongrams/src/trie_count_lm.rs:160-180 | `size_in_bytes` equals the number of bytes `serialize_into` returns for the same index |
| TrieCountLm.SumParts | tongrams/src/trie_count_lm.rs:166-178 | each `for` loop of `size_in_bytes` adds the bytes of its components |
| TrieCountLm.LayoutSize | tongrams/src/trie_count_lm.rs:160-180 | the size is the vocabulary's size, three `usize` lengths of 8 bytes, and the size of every component of the three lists |
| TrieCountLm.TotalSizeAppend | tongrams/src/trie_count_lm.rs:100-118 | the bytes of two runs of writes add up |
| TrieCountLm.ReadOne | tongrams/src/trie_count_lm.rs:126-128 | one `deserialize_from` call consumes exactly one part |
| TrieCountLm.ReadMany | tongrams/src/trie_count_lm.rs:130-132 | `len` calls in a row read `len` components and consume `len` parts |
| TrieCountLm.ReadManyLoop | tongrams/src/trie_count_lm.rs:129-133 | the `for _ in 0..len` loop with `?` reads what `ReadMany` describes and stops at the first failure |
| TrieCountLm.DeserializeFrom | tongrams/src/trie_count_lm.rs:122-157 | `deserialize_from` reads the vocabulary, then each list's length and components, returning the first error |
| TrieCountLm.ReadManyWritten | tongrams/src/trie_count_lm.rs:130-132 | components written in a row read back as themselves |
| TrieCountLm.ReadListWritten | tongrams/src/trie_count_lm.rs:104-134 | a list written as its length and its components reads back as the same list, with anything before or after it |
| TrieCountLm.DeserializeSerialized | tongrams/src/trie_count_lm.rs:96-157 | round trip: reading what `serialize_into` wrote, followed by anything, gives back the same index and stops at its end |
| TrieCountLm.DeserializeLayout | tongrams/src/trie_count_lm.rs:96-157 | the serialised index alone reads back as the index |
| TrieCountLm.DeserializedShape | tongrams/src/trie_count_lm.rs:96-227 | a deserialised copy has the same `num_orders` and `num_grams` |
| TrieCountLm.ReadListPrefix | tongrams/src/trie_count_lm.rs:127-134 | reading consumes only the parts it reads: what reads from a prefix reads the same from the whole |
| TrieCountLm.TruncatedFails | tongrams/src/trie_count_lm.rs:122-157 | every proper prefix of a serialised index fails to read |
| TrieCountLmTest.TestVocabularyIds | tongrams/src/trie_count_lm.rs:269-274 | `test_vocabulary`: A, B, C and D get the ids 0, 1, 2 and 3 |
| TrieCountLmTest.BigramPrefixes | tongrams/src/trie_count_lm.rs:242-288 | the bigrams in range `j` of the tests' bigram pointers are the `j`-th unigram followed by their token ids |
| TrieCountLmTest.TrigramPrefixes | tongrams/src/trie_count_lm.rs:254-313 | the trigrams in range `j` of the tests' trigram pointers are the `j`-th bigram followed by their token ids |
| TrieCountLmTest.RanksLeadToCounts | tongrams/src/trie_count_lm.rs:277-316 | the tests' count ranks of every record index the value order of its file at that record's count |
| TrieCountLmTest.TestIndexed | tongrams/src/trie_count_lm.rs:319-335 | the index assembled from the components the tests expect, with either kind of trie level, indexes the grams of the three files with their counts |
| TrieCountLmTest.RecordLookup | tongrams/src/trie_count_lm.rs:342-361 | every record of the three files looks up to its own count |
| TrieCountLmTest.LookupE | tongrams/src/trie_count_lm.rs:363 | "E" looks up to `None` |
| TrieCountLmTest.LookupBA | tongrams/src/trie_count_lm.rs:364 | "B A" looks up to `None` |
| TrieCountLmTest.LookupBBA | tongrams/src/trie_count_lm.rs:365 | "B B A" looks up to `None` |
| TrieCountLmTest.LookupTooLong | tongrams/src/trie_count_lm/lookuper.rs:36-46 | "A A C A", the trigram "A A C" extended past the highest order, makes the lookup panic |
| TrieCountLmTest.MapIds | tongrams/src/trie_count_lm.rs:346 | the text of a gram of letter ids maps back to those ids |
| TrieCountLmTest.LookupOrder | tongrams/src/trie_count_lm.rs:342-347 | the `while let` loop over a file's records answers each record with its count |
| TrieCountLmTest.LookupMissing | tongrams/src/trie_count_lm.rs:363-365 | the three missing queries answer `None` |
| TrieCountLmTest.LookupTest | tongrams/src/trie_count_lm.rs:337-397 | `test_simple_lookup` and `test_ef_lookup`: a lookuper over either kind of index answers every record with its count and the three missing queries with `None` |
| TrieCountLm.ReadAllWritten | tongrams/src/trie_count_lm.rs:122-157 | the vocabulary and the three length-prefixed lists, written in order, read back as the index, and reading stops right after them |
| Mappers.IdsOfAt | tongrams/src/mappers.rs:14-16 | the `k`-th id is what the vocabulary gives the `k`-th token |
| Mappers.Reach | tongrams/src/mappers.rs:14-20 | the loop writes slots from the start up to the first token that is missing or has no slot left, at most eight of them |
| Mappers.ReachStops | tongrams/src/mappers.rs:14-20 | every token before that point is found and has a slot; the one at it is missing or has none |
| Mappers.IdsOfUnique | tongrams/src/mappers.rs:14-16 | ids the vocabulary gives the tokens one by one are the ids `map_query` returns |
| Mappers.MapTokensSucceeds | tongrams/src/mappers.rs:12-22 | `map_query` gives the ids of all the tokens, in order, exactly when every token is in the vocabulary and there are at most `MAX_ORDER` of them |
| Mappers.MapTokensAll | tongrams/src/mappers.rs:12-22 | tokens that fit and that the vocabulary gives `ids` map to exactly `ids` |
| Mappers.MapTokensFirstMissing | tongrams/src/mappers.rs:17-18 | a query whose first token is missing maps to `None` |
| Mappers.MapTokensMissing | tongrams/src/mappers.rs:17-18 | `None` comes only from a token the vocabulary does not hold |
| Mappers.MapTokensPanics | tongrams/src/mappers.rs:15-16 | a panic comes only from more than `MAX_ORDER` tokens (the slot write out of bounds) or from a token the vocabulary panics on |
| Mappers.SortedArrayMapper.Default | tongrams/src/mappers.rs:6-9 | `default` gives `MAX_ORDER` slots, all zero |
| Mappers.SortedArrayMapper.MapQuery | tongrams/src/mappers.rs:12-22 | `map_query` answers `MapQueryOf`: it splits the gram and maps its tokens |
| Mappers.SortedArrayMapper.MapTokensInto | tongrams/src/mappers.rs:14-21 | the loop fills the slots of the tokens it reaches with their ids and leaves the later slots as they were |
| Mappers.SortedArrayMapper.Get | tongrams/src/mappers.rs:24-26 | `get(i)` is slot `i`, and panics exactly when `i` is not below `MAX_ORDER` |
| Mappers.TestLookups | tongrams/src/mappers.rs:35-40 | the test vocabulary of "A", "D", "B" gives A 0, D 1, B 2 and holds no "E" |
| Mappers.BasicHit | tongrams/src/mappers.rs:43-44 | "A B D" maps to 0, 2, 1 |
| Mappers.BasicMiss | tongrams/src/mappers.rs:46-47 | "E B" maps to `None` |
| Mappers.BasicTest | tongrams/src/mappers.rs:34-48 | the unit test: a fresh mapper answers both queries as asserted |
| SimpleVocabulary.New | tongrams/src/vocabulary/simple.rs:17-21 | the new vocabulary maps no token |
| SimpleVocabulary.Get | tongrams/src/vocabulary/simple.rs:60-62 | `get` panics exactly on bytes that are not UTF-8; otherwise it finds a token exactly when the map holds it, and gives its id |
| SimpleVocabulary.Build | tongrams/src/vocabulary/simple.rs:23-31 | the insertion loop computes the outcome `BuildOf` describes |
| SimpleVocabulary.BuildStops | tongrams/src/vocabulary/simple.rs:25-28 | once a prefix of the tokens fails, the tokens after it change nothing |
| SimpleVocabulary.BuildSucceeds | tongrams/src/vocabulary/simple.rs:23-31 | `build` succeeds exactly when the tokens are distinct and all UTF-8, and then the map sends each token to its position |
| SimpleVocabulary.BuildDuplicate | tongrams/src/vocabulary/simple.rs:26-27 | the error names a token that occurs again later, and the id it was given first |
| SimpleVocabulary.BuildPanics | tongrams/src/vocabulary/simple.rs:26 | a `build` that panics met a token that is not UTF-8 |
| SimpleVocabulary.GetBuilt | tongrams/src/vocabulary/simple.rs:23-62 | on a built vocabulary, `get` of UTF-8 bytes finds a token exactly when it was in the input, and gives its position there |
| SimpleVocabulary.GetNew | tongrams/src/vocabulary/simple.rs:17-62 | the new vocabulary answers `None` to every UTF-8 token |
| DoubleArrayVocabulary.Default | tongrams/src/vocabulary/yada.rs:17-19 | the default vocabulary maps no gram |
| DoubleArrayVocabulary.Get | tongrams/src/vocabulary/yada.rs:46-49 | `get` finds a gram exactly when the trie holds it, and gives its id |
| DoubleArrayVocabulary.InsertKey | tongrams/src/vocabulary/yada.rs:32 | one insertion step of the sort adds one key and loses none |
| DoubleArrayVocabulary.SortByKey | tongrams/src/vocabulary/yada.rs:32 | the sort permutes the key set |
| DoubleArrayVocabulary.AppendSorted | tongrams/src/vocabulary/yada.rs:32 | a key not below the last one may follow a sorted run |
| DoubleArrayVocabulary.InsertSorted | tongrams/src/vocabulary/yada.rs:32 | inserting a key into a sorted run keeps it sorted |
| DoubleArrayVocabulary.SortByKeySorted | tongrams/src/vocabulary/yada.rs:32 | the sorted key set is ordered by the grams' bytes |
| DoubleArrayVocabulary.SortedKeys | tongrams/src/vocabulary/yada.rs:28-32 | after the sort, every key still pairs a gram with its position, each pair once, and none is lost |
| DoubleArrayVocabulary.AdjacentDistinct | tongrams/src/vocabulary/yada.rs:34-39 | in a sorted key set, checking neighbours is enough: no equal neighbours means no equal grams at all |
| DoubleArrayVocabulary.KeyMapIndexes | tongrams/src/vocabulary/yada.rs:34-43 | when the sorted grams are distinct, the input grams are distinct and the trie maps each to its position |
| DoubleArrayVocabulary.AdjacentDuplicate | tongrams/src/vocabulary/yada.rs:35-37 | equal neighbours are one gram at two positions, so the input has a duplicate; the error's id is one of them |
| DoubleArrayVocabulary.New | tongrams/src/vocabulary/yada.rs:21-44 | `new` fails for 2^31 grams or more; otherwise it succeeds exactly when the grams are distinct, mapping each to its position, and a duplicate error names a gram found at its id and at one other position |
| DoubleArrayVocabulary.GetBuilt | tongrams/src/vocabulary/yada.rs:41-49 | on a vocabulary `new` built, `get` finds a gram exactly when it was in the input, and gives its position |
| Vocabulary.Get | tongrams/src/vocabulary.rs:31-32 | the trait's `get`: only the simple vocabulary can panic, on bytes that are not UTF-8; otherwise a token is found exactly when it has an id, and that id is returned |
| Vocabulary.TestGramsFacts | tongrams/src/vocabulary.rs:41-45 | the test's grams are distinct UTF-8 tokens and do not include `C` |
| Vocabulary.BasicTest | tongrams/src/vocabulary.rs:40-58 | both vocabularies built from `A D B` answer `0, 2, None, 1` to `A B C D` |
| GramsSequence.GetNew | tongrams/src/grams_sequence.rs:7-15 | a sequence made by `new` hands back the id at every index, and the pointers passed to `new` change nothing |
| GramsSequence.Find | tongrams/src/grams_sequence.rs:17-19 | `find` gives the offset of the first `id` in the range, and `None` exactly when the range does not hold `id` |
| SequenceCollection.SequenceCollectionBuilder.Default | tongrams/src/sequence_collection.rs:30-38 | the new builder has no counts, no rank maps and no sequences |
| SequenceCollection.SequenceCollectionBuilder.EatValue | tongrams/src/sequence_collection.rs:41-47 | one more occurrence of the value is counted; nothing else changes |
| SequenceCollection.SequenceCollectionBuilder.BuildSequence | tongrams/src/sequence_collection.rs:50-73 | one sequence is added: every counted value once, by falling frequency and then by rising value, with the rank map of that order; earlier orders are kept and the counts are cleared; no counts give an empty sequence |
| SequenceCollection.SequenceCollectionBuilder.Rank | tongrams/src/sequence_collection.rs:75-77 | `rank` finds a value exactly when its order's sequence holds it, and gives its index there |
| SequenceCollection.AccessRank | tongrams/src/sequence_collection.rs:9-77 | `access` at a value's rank gives back that value |
| SequenceCollection.EatAll | tongrams/src/sequence_collection.rs:90-92 | feeding a run of values leaves their tally as the counts |
| SequenceCollection.BasicRanks | tongrams/src/sequence_collection.rs:99-104 | the six ranks the test asks for, on the sequences it builds |
| SequenceCollection.BasicTest | tongrams/src/sequence_collection.rs:85-112 | the test's two orders give the sequences `2 1 4` and `1 2`, and the ranks and accesses it checks |
| SortedArray.SortedArrayBuilder.New | tongrams/src/sorted_array.rs:35-45 | a new builder holds no token ids and no count ranks |
| SortedArray.SortedArrayBuilder.Add | tongrams/src/sorted_array.rs:47-50 | one token id and one count rank are appended |
| SortedArray.SortedArrayBuilder.AddCountRank | tongrams/src/sorted_array.rs:52-54 | one count rank is appended, the token ids stay |
| SortedArray.ReleaseReads | tongrams/src/sorted_array.rs:11-64 | the released level reads back each collected token id and count rank, and each range is the pair of neighbouring pointers |
| SortedArray.ReleaseCountsRanksReads | tongrams/src/sorted_array.rs:19-72 | the unigram level keeps only the count ranks, with no token ids and no pointers |
| SimpleTrieArray.FindToken | tongrams/src/trie_array/simple.rs:61-67 | `find_token` gives the index of the first `id` in range `pos`, and `None` exactly when the range does not hold it |
| SimpleTrieArray.BuildReads | tongrams/src/trie_array/simple.rs:14-75 | a built array reads back each token id, each range and both sizes |
| EliasFano.FromValues | tongrams/src/trie_array/ef.rs:128-137 | building succeeds exactly on a non-empty run of values in order below a positive universe, and holds those values |
| EliasFano.CountBelowSplit | tongrams/src/trie_array/ef.rs:66 | when the values below `x` come first, the rank of `x` is their number |
| EliasFano.FromValuesSelect | tongrams/src/trie_array/ef.rs:71-78 | `select` of a built sequence gives back each value, and its length is theirs |
| EliasFanoTrieArray.AddRange | tongrams/src/trie_array/ef.rs:120-122 | exactly the ids of the range gain the shift |
| EliasFanoTrieArray.AddToRange | tongrams/src/trie_array/ef.rs:120-122 | the in-place loop leaves the array as `AddRange` describes |
| EliasFanoTrieArray.BuildTokenSequence | tongrams/src/trie_array/ef.rs:112-131 | the nested loops leave every range shifted by the last encoded id before it, and the sequence built is the encoding of the original ids |
| EliasFanoTrieArray.EncodePointers | tongrams/src/trie_array/ef.rs:133-138 | the pointer sequence holds the pointers, valid under universe `last + 1` |
| EliasFanoTrieArray.RangeFrom | tongrams/src/trie_array/ef.rs:66 | every index below the last pointer lies in one range from `k` on |
| EliasFanoTrieArray.RankLocates | tongrams/src/trie_array/ef.rs:66 | `rank(i + 1) - 1` names the range that holds index `i` |
| EliasFanoTrieArray.Base | tongrams/src/trie_array/ef.rs:68-90 | the shift of a range is the encoded id just before it, and is at most every encoded id from there on |
| EliasFanoTrieArray.Relative | tongrams/src/trie_array/ef.rs:91-92 | a range read without its shift, id by id |
| EliasFanoTrieArray.ScanFrom | tongrams/src/trie_array/ef.rs:91-99 | the scan answers an index holding `id` with only smaller ids before it |
| EliasFanoTrieArray.ScanRange | tongrams/src/trie_array/ef.rs:91-99 | the loop, stopping at the first id equal to or above `id`, answers what `ScanFrom` does, offset by the range start |
| EliasFanoTrieArray.FindToken | tongrams/src/trie_array/ef.rs:84-100 | `find_token` answers the scan of the range without its shift |
| EliasFanoTrieArray.Untouched | tongrams/src/trie_array/ef.rs:116-126 | ranges the outer loop has not reached still hold the original ids |
| EliasFanoTrieArray.Settled | tongrams/src/trie_array/ef.rs:116-126 | ids before a reached range no longer change |
| EliasFanoTrieArray.SampledIs | tongrams/src/trie_array/ef.rs:123-125 | `sampled_id` before range `k` is the encoded id just before it, or 0 |
| EliasFanoTrieArray.InRange | tongrams/src/trie_array/ef.rs:116-126 | each encoded id is the original plus the encoded id just before its range |
| EliasFanoTrieArray.EncodedStep | tongrams/src/trie_array/ef.rs:116-126 | with sorted ranges, neighbouring encoded ids are in order |
| EliasFanoTrieArray.SortedRanges | tongrams/src/trie_array/ef.rs:116-129 | encoded ids in order come only from sorted ranges |
| EliasFanoTrieArray.EncodedSorted | tongrams/src/trie_array/ef.rs:116-129 | the encoded ids are in order exactly when every range is sorted |
| EliasFanoTrieArray.BuildSucceeds | tongrams/src/trie_array/ef.rs:17-130 | on pointers from 0 to the number of ids, `build` succeeds exactly when every range is sorted, and holds the encoded ids and the pointers |
| EliasFanoTrieArray.TokenIdBuild | tongrams/src/trie_array/ef.rs:65-74 | `token_id` undoes the shift: a built array gives back every original id |
| EliasFanoTrieArray.RelativeBuild | tongrams/src/trie_array/ef.rs:77-92 | each range of a built array is the pair of neighbouring pointers, and read without its shift it is that range of the original ids |
| EliasFanoTrieArray.ScanFromSorted | tongrams/src/trie_array/ef.rs:91-99 | on sorted ids the scan from `k` finds nothing exactly when `id` is not there |
| EliasFanoTrieArray.ScanSorted | tongrams/src/trie_array/ef.rs:91-99 | on sorted ids the early-stopping scan finds the first occurrence, like a plain search |
| EliasFanoTrieArray.FindTokenBuild | tongrams/src/trie_array/ef.rs:84-100 | a built array finds a token exactly where the plain array does |
| EliasFanoTrieArray.BuildShape | tongrams/src/trie_array/ef.rs:17-108 | a built array has as many ids as it was given, all the pointers, or none for an empty level, and reads back every range |
| TrieArray.FindToken | tongrams/src/trie_array.rs:36-37 | dispatches `find_token` to the chosen implementation |
| TrieArray.RangesInBounds | tongrams/src/trie_array.rs:33-34 | under the builders' pointers every range is a slice within the ids |
| TrieArray.TokenIdAgrees | tongrams/src/trie_array.rs:30-31 | both implementations build such a layout and read back every id |
| TrieArray.RangeAgrees | tongrams/src/trie_array.rs:33-34 | both implementations read back every range |
| TrieArray.FindAgrees | tongrams/src/trie_array.rs:36-37 | both implementations find a token where the plain array does |
| TrieArray.ReadsBack | tongrams/src/trie_array.rs:55-80 | the loops of both tests: every id and every range comes back |
| TrieArray.FindTokenMeaning | tongrams/src/trie_array.rs:36-37 | `find_token` gives the first index of `id` in the range, and `None` exactly when it is not there |
| TrieArray.BuildSizes | tongrams/src/trie_array.rs:39-43 | a built level has as many token ids and pointers as it was given |
| TrieArray.Basic1Layout | tongrams/src/trie_array.rs:51-52 | the first test's ids and pointers are a builders' layout |
| TrieArray.Basic2Layout | tongrams/src/trie_array.rs:71-72 | so are the second test's, with its empty ranges |
| TrieArray.Basic1Finds | tongrams/src/trie_array.rs:62-64 | the three finds of the first test on the plain array |
| TrieArray.Basic2Finds | tongrams/src/trie_array.rs:82-84 | the three finds of the second test on the plain array |
| TrieArray.Basic1 | tongrams/src/trie_array.rs:50-100 | for either implementation, the first test's reads, finds `Some(4)`, `Some(2)`, `None` and sizes 9 and 5 |
| TrieArray.Basic2 | tongrams/src/trie_array.rs:70-100 | for either implementation, the second test's reads, finds `Some(1)`, `Some(2)`, `None` and sizes 7 and 10 |
| TrieLayerBuilder.TrieLayerBuilder.New | tongrams/src/trie_array/builder.rs:11-21 | a new builder holds no token ids and no count ranks |
| TrieLayerBuilder.TrieLayerBuilder.Add | tongrams/src/trie_array/builder.rs:23-26 | one token id and one count rank are appended |
| TrieLayerBuilder.TrieLayerBuilder.AddCountRank | tongrams/src/trie_array/builder.rs:28-30 | one count rank is appended, the token ids stay |
| TrieLayerBuilder.ReleaseKeeps | tongrams/src/trie_array/builder.rs:32-49 | `release` keeps the collected ids, ranks and the given pointers; `release_counts_ranks` keeps only the ranks |
| TrieLayerBuilder.AddThenRanks | tongrams/src/trie_array/builder.rs:23-43 | adding `n` grams and then `m` ranks alone, released with no pointers, gives a level with the `n` token ids and all `n + m` ranks, each in the order added |
| TrieProbLmBuilder.OpenFile | tongrams/src/parser.rs:20-31 | opening a parser on a file fails exactly when its header does, with the header's error, and otherwise leaves exactly the header's number of lines to read |
| TrieProbLmBuilder.RemainingStep | tongrams/src/parser.rs:65-72 | one call reads the first line left and leaves the rest |
| TrieProbLmBuilder.ReadProb | tongrams/src/parser.rs:65-104 | `next_prob_record` on a parser answers for the first line left and drops it |
| TrieProbLmBuilder.ReadCount | tongrams/src/parser.rs:40-62 | `next_count_record` on a parser answers for the first line left and drops it |
| TrieProbLmBuilder.LineParser.Over | tongrams/src/trie_prob_lm/builder.rs:57-85 | a parser opened over some lines has all of them left |
| TrieProbLmBuilder.LineParser.NextProb | tongrams/src/trie_prob_lm/builder.rs:59-113 | one call answers for the first line left and drops it |
| TrieProbLmBuilder.LineParser.NextCount | tongrams/src/trie_prob_lm/builder.rs:130 | the same for a count record |
| TrieProbLmBuilder.OpenLines | tongrams/src/trie_prob_lm/builder.rs:57-85 | `loader.parser()?` fails exactly when the loader does, and otherwise reads the loader's lines |
| TrieProbLmBuilder.Grams | tongrams/src/trie_prob_lm/builder.rs:66 | the grams of the records, in order |
| TrieProbLmBuilder.RecordProbs | tongrams/src/trie_prob_lm/builder.rs:72-75 | the probabilities of the records, in order |
| TrieProbLmBuilder.RecordBackoffs | tongrams/src/trie_prob_lm/builder.rs:72-75 | the backoff weights of the records, in order |
| TrieProbLmBuilder.VocabularyOf | tongrams/src/trie_prob_lm/builder.rs:55-80 | `build_vocabulary` succeeds only when there is a unigram file |
| TrieProbLmBuilder.PopFrontToken | tongrams/src/trie_prob_lm/builder.rs:103 | the split fails exactly on a gram with no separator; otherwise it cuts the gram at its first separator into the first token and the rest |
| TrieProbLmBuilder.Advance | tongrams/src/trie_prob_lm/builder.rs:105-118 | the inner loop consumes a run of previous-order lines, pushing the current pointer once for each, and ends on the pattern |
| TrieProbLmBuilder.TailCount | tongrams/src/trie_prob_lm/builder.rs:130-132 | the tail loop runs at most once per line left |
| TrieProbLmBuilder.LevelsOf | tongrams/src/trie_prob_lm/builder.rs:43-45 | the loop over the orders, when it succeeds, builds one level per order |
| TrieProbLmBuilder.LevelsStep | tongrams/src/trie_prob_lm/builder.rs:43-45 | after the lower orders have built, the next order decides the outcome and its level is pushed |
| TrieProbLmBuilder.LevelsStop | tongrams/src/trie_prob_lm/builder.rs:44 | the first order that fails ends the loop |
| TrieProbLmBuilder.LevelArrays | tongrams/src/trie_prob_lm/builder.rs:135 | the trie arrays of the levels, in order |
| TrieProbLmBuilder.LevelProbs | tongrams/src/trie_prob_lm/builder.rs:136 | the probabilities of the levels, in order |
| TrieProbLmBuilder.LevelBackoffs | tongrams/src/trie_prob_lm/builder.rs:137-139 | at most one list of backoff weights per level |
| TrieProbLmBuilder.LevelsAppend | tongrams/src/trie_prob_lm/builder.rs:135-139 | pushing a level appends its array, probabilities and backoff weights |
| TrieProbLmBuilder.LevelsOne | tongrams/src/trie_prob_lm/builder.rs:135-139 | a single level contributes its array, its probabilities, and its backoff weights only when it keeps them |
| TrieProbLmBuilder.BuiltFrom | tongrams/src/trie_prob_lm/builder.rs:39-53 | when the vocabulary and every level build, the index is the vocabulary, the levels' arrays, and the unigram payloads ahead of the levels' payloads |
| TrieProbLmBuilder.Seek | tongrams/src/trie_prob_lm/builder.rs:105-118 | the inner loop, on the previous order's parser, computes `Advance` and leaves the parser at the lines it has not read |
| TrieProbLmBuilder.PushRest | tongrams/src/trie_prob_lm/builder.rs:130-132 | the tail loop pushes the pointer once per call that answers |
| TrieProbLmBuilder.Payloads | tongrams/src/trie_prob_lm/builder.rs:69-75 | the loop collects the probabilities and backoff weights of the records |
| TrieProbLmBuilder.CollectRecords | tongrams/src/trie_prob_lm/builder.rs:56-64 | the unigram records up to the end, or the first bad line's error |
| TrieProbLmBuilder.AttachRecord | tongrams/src/trie_prob_lm/builder.rs:98-128 | one pass of the outer loop computes `Attach` on the previous order's parser |
| TrieProbLmBuilder.AttachOk | tongrams/src/trie_prob_lm/builder.rs:103-127 | when the split, the advance and the vocabulary lookup succeed, the record appends one pointer step, its token id, its probability and, below the highest order, its backoff weight |
| TrieProbLmBuilder.MergeFiles | tongrams/src/trie_prob_lm/builder.rs:98-133 | the outer loop and the tail loop compute the level `Merge` and `Finish` describe |
| TrieProbLmBuilder.SortedArray | tongrams/src/trie_prob_lm/builder.rs:83-141 | `build_sorted_array` computes `SortedArrayOf` for the trie array `T` |
| TrieProbLmBuilder.ProbBuilder.Init | tongrams/src/trie_prob_lm/builder.rs:30-36 | the builder starts with its loaders, an empty vocabulary and no levels |
| TrieProbLmBuilder.ProbBuilder.Build | tongrams/src/trie_prob_lm/builder.rs:39-53 | `build` computes `BuildOf` for the builder's trie array `T`, a panic of `T::build` included |
| TrieProbLmBuilder.ProbBuilder.BuildVocabulary | tongrams/src/trie_prob_lm/builder.rs:55-80 | `build_vocabulary` ends as `VocabularyOf` does, and on success stores its vocabulary and the unigram payloads |
| TrieProbLmBuilder.ProbBuilder.BuildLevels | tongrams/src/trie_prob_lm/builder.rs:42-45 | the loop over the orders ends as `LevelsOf` does and, on success, has stored every level |
| TrieProbLmBuilder.ProbBuilder.BuildSortedArray | tongrams/src/trie_prob_lm/builder.rs:83-141 | one order's level is `SortedArrayOf` for the builder's trie array `T`, a panic of `T::build` included, and it is pushed only when it builds |
| TrieProbLmBuilder.ProbBuilder.Store | tongrams/src/trie_prob_lm/builder.rs:135-139 | a built level is pushed; a failed one leaves the builder as it was |
| TrieProbLmBuilder.New | tongrams/src/trie_prob_lm/builder.rs:26-37 | `new` fails exactly on more than `MAX_ORDER` loaders, and otherwise starts an empty builder over the loaders |
| TrieProbLmBuildFacts.AdvanceErrors | tongrams/src/trie_prob_lm/builder.rs:105-118 | the inner loop fails only on a bad line or as incomplete data of this order |
| TrieProbLmBuildFacts.MergeErrors | tongrams/src/trie_prob_lm/builder.rs:98-128 | the outer loop fails only on a bad line or as incomplete data |
| TrieProbLmBuildFacts.LevelErrors | tongrams/src/trie_prob_lm/builder.rs:83-141 | `build_sorted_array(order)` fails only on a bad line or as incomplete data of order `order + 1` |
| TrieProbLmBuildFacts.LevelsErrors | tongrams/src/trie_prob_lm/builder.rs:43-45 | the loop over the orders fails only on a bad line or as incomplete data |
| TrieProbLmBuildFacts.OrderLimit | tongrams/src/trie_prob_lm/builder.rs:26-29 | a build fails for too many orders exactly when there are more than `MAX_ORDER` files |
| TrieProbLmBuildFacts.MergeOn | tongrams/src/trie_prob_lm/builder.rs:98-128 | a merge that succeeds attached the first record of its file |
| TrieProbLmBuildFacts.AttachShape | tongrams/src/trie_prob_lm/builder.rs:103-127 | attaching a record keeps pointers from 0 and never decreasing, and counts one more gram |
| TrieProbLmBuildFacts.AddTokenShape | tongrams/src/trie_prob_lm/builder.rs:120-127 | pushing a record's token id and payloads keeps the state well formed, takes the new pointers and counts one more gram |
| TrieProbLmBuildFacts.ShapedStep | tongrams/src/trie_prob_lm/builder.rs:98-128 | the shape of the rest of a merge carries over to the merge with one more record |
| TrieProbLmBuildFacts.MergeShape | tongrams/src/trie_prob_lm/builder.rs:98-128 | a whole merge keeps the state well formed and pushes one pointer per previous-order line it passes |
| TrieProbLmBuildFacts.TailCountAll | tongrams/src/trie_prob_lm/builder.rs:130-132 | on text lines, the tail loop counts every line left |
| TrieProbLmBuildFacts.FinishedShape | tongrams/src/trie_prob_lm/builder.rs:130-135 | the vectors handed to `T::build` have pointers that start at 0, never decrease and end at the number of grams |
| TrieProbLmBuildFacts.FinishedLevel | tongrams/src/trie_prob_lm/builder.rs:130-135 | the finished level is `T::build` of those vectors, which always fit the array; an Elias-Fano array panics exactly when the token ids are non-empty and a range of them is not sorted, the plain array never panics |
| TrieProbLmBuildFacts.LevelFromPanics | tongrams/src/trie_prob_lm/builder.rs:135 | `T::build` of vectors that fit panics exactly for an Elias-Fano array over non-empty token ids with an unsorted range; otherwise the level holds the vectors, the payloads and the array built |
| TrieProbLmBuilder.LevelFromFields | tongrams/src/trie_prob_lm/builder.rs:135-139 | a level that is built holds the vectors and payloads it was given and the array `T::build` made of the vectors |
| TrieProbLmBuildFacts.LevelKind | tongrams/src/trie_prob_lm/builder.rs:83-141 | the trie array `T` decides only a level's array: a level that fails or panics in the merge does so for every `T`; with Elias-Fano it panics exactly when the merged token ids are non-empty with an unsorted range; otherwise it is the plain level with its array built by `T::build` |
| TrieProbLmBuildFacts.LevelShape | tongrams/src/trie_prob_lm/builder.rs:83-141 | a level's pointers start at 0, never decrease and end at its number of grams; there is one probability per gram and one backoff weight per gram exactly below the highest order; on text lines below there is one pointer per line and one more |
| TrieProbLmBuildFacts.AttachContents | tongrams/src/trie_prob_lm/builder.rs:103-127 | attaching a record appends its first token's id, its probability and, below the highest order, its backoff weight |
| TrieProbLmBuildFacts.RecordsCons | tongrams/src/trie_prob_lm/builder.rs:124-127 | the payloads of a record come ahead of those of the records after it |
| TrieProbLmBuildFacts.MergePayloads | tongrams/src/trie_prob_lm/builder.rs:98-128 | a merge that succeeds read every record of its file, and collected their probabilities and, when kept, their backoff weights, in order |
| TrieProbLmBuildFacts.ShiftTokens | tongrams/src/trie_prob_lm/builder.rs:122-123 | a record's token id stands in front of the ids of the records after it |
| TrieProbLmBuildFacts.MergeTokenCount | tongrams/src/trie_prob_lm/builder.rs:98-128 | a merge keeps the token ids it started with and adds one per record |
| TrieProbLmBuildFacts.MergeTokens | tongrams/src/trie_prob_lm/builder.rs:98-128 | a merge appends, for each record in file order, the id of the record's first token |
| TrieProbLmBuildFacts.LevelPayloads | tongrams/src/trie_prob_lm/builder.rs:83-141 | a level holds the probabilities of its file's records in order, and their backoff weights exactly below the highest order |
| TrieProbLmBuildFacts.LevelTokens | tongrams/src/trie_prob_lm/builder.rs:83-141 | a level holds, in file order, the id of each record's first token |
| TrieProbLmBuildFacts.SortedArrayBuilt | tongrams/src/trie_prob_lm/builder.rs:83-141 | a level `build_sorted_array` returns has pointers from 0, never decreasing, ending at its number of records (one pointer per line below, and one more, on text lines); the first-token ids of its records; their probabilities and, below the highest order, their backoff weights; and the array `T::build` makes of those vectors |
| TrieProbLmBuildFacts.FinishedContents | tongrams/src/trie_prob_lm/builder.rs:133-139 | the finished level keeps the payloads collected |
| TrieProbLmBuildFacts.RecordsTail | tongrams/src/trie_prob_lm/builder.rs:113-114 | on lines that all read as records, the first answer is the first line's record and the rest are records too |
| TrieProbLmBuildFacts.AdvanceIncomplete | tongrams/src/trie_prob_lm/builder.rs:105-118 | on well-formed lines below, the inner loop reports incomplete data exactly when the pattern is not the current gram and is in none of the lines left |
| TrieProbLmBuildFacts.LevelIncomplete | tongrams/src/trie_prob_lm/builder.rs:96-118 | a first record whose pattern is absent below makes the order fail as incomplete, with the order number of the file above |
| TrieProbLmBuilt.LevelsPrefix | tongrams/src/trie_prob_lm/builder.rs:43-45 | when orders up to `n` build, those up to `i` build on their own, into the first `i` levels |
| TrieProbLmBuilt.LevelLast | tongrams/src/trie_prob_lm/builder.rs:44 | the last level is the sorted array of the highest order |
| TrieProbLmBuilt.LevelsInit | tongrams/src/trie_prob_lm/builder.rs:43-45 | the orders below the highest build on their own |
| TrieProbLmBuilt.LevelOf | tongrams/src/trie_prob_lm/builder.rs:44 | level `o` is the sorted array of order `o` |
| TrieProbLmBuilt.StepBuilt | tongrams/src/trie_prob_lm/builder.rs:43-45 | when orders up to `k` build, those below built on their own and the last level is what `build_sorted_array` promises of order `k` |
| TrieProbLmBuilt.PrefixBuilt | tongrams/src/trie_prob_lm/builder.rs:43-45 | when orders up to `n` build, there are `n` levels and each is what `build_sorted_array` promises of its order |
| TrieProbLmBuilt.LevelsBuilt | tongrams/src/trie_prob_lm/builder.rs:43-45 | when every order builds, there is one level per file above the unigrams, each what `build_sorted_array` promises of its order |
| TrieProbLmBuilt.BackoffsKept | tongrams/src/trie_prob_lm/builder.rs:137-139 | when the first `m` levels keep backoff weights, exactly those are stored, in order |
| TrieProbLmBuilt.BuiltParts | tongrams/src/trie_prob_lm/builder.rs:39-53 | a build that succeeds had between 1 and `MAX_ORDER` files and is put together from the vocabulary step and the levels |
| TrieProbLmBuilt.BuiltLayout | tongrams/src/trie_prob_lm/builder.rs:39-53 | a built index has one trie level per order above the unigrams, probabilities for every order, and backoff weights for the unigrams and every order below the highest |
| TrieProbLmBuilt.KeepsAt | tongrams/src/trie_prob_lm/builder.rs:125-139 | a level keeps backoff weights exactly when its order is below the highest |
| TrieProbLmBuilt.BuiltKeeps | tongrams/src/trie_prob_lm/builder.rs:137-139 | exactly the levels below the highest order keep backoff weights |
| TrieProbLmBuilt.VocabularyPayloads | tongrams/src/trie_prob_lm/builder.rs:69-77 | the unigram payloads are those of the unigram file's records |
| TrieProbLmBuilt.PayloadsAt | tongrams/src/trie_prob_lm/builder.rs:124-139 | the probabilities of order `o` are its file's, and so are its backoff weights where stored |
| TrieProbLmBuilt.PartsPayloads | tongrams/src/trie_prob_lm/builder.rs:39-53 | every order's payloads are those of its file's records |
| TrieProbLmBuilt.BuiltPayloads | tongrams/src/trie_prob_lm/builder.rs:39-127 | the probabilities of every order are those of its file's records in file order, and so are the backoff weights of the unigrams and every order below the highest |
| TrieProbLmBuilt.VocabularyIds | tongrams/src/trie_prob_lm/builder.rs:66-122 | the vocabulary maps each unigram to its position in the unigram file, so a first token's id is that position |
| TrieProbLmBuilt.ArrayReads | tongrams/src/trie_prob_lm/builder.rs:135 | the array `T::build` returns reads back every token id and, except for an Elias-Fano array over no grams, which is left empty, one range per pair of consecutive pointers |
| TrieProbLmBuilt.ArrayOver | tongrams/src/trie_prob_lm/builder.rs:130-135 | an array built from pointers laid out over the order below, with the records' first-token positions as token ids, reads as a level over that order |
| TrieProbLmBuilt.PartsLevel | tongrams/src/trie_prob_lm/builder.rs:83-141 | each level's array, read through `token_id` and `range`, from the parts of a build |
| TrieProbLmBuilt.LevelFacts | tongrams/src/trie_prob_lm/builder.rs:83-141 | each level array of a build that succeeds, for either `T`: one token id per record, the unigram position of its first token; ranges from 0, each ending where the next begins, the last at the number of records, one per line below when those are text (none for an Elias-Fano level over no grams) |
| TrieProbLmBuilt.BuiltLevels | tongrams/src/trie_prob_lm/builder.rs:39-141 | every file of a build that succeeds reads as records, and every level array above the unigrams reads as `LevelFacts` says |
| Util.FormatExtension | tongrams/src/util.rs:76-83 | a plain file has no extension; every compressed format has a non-empty one with no `.` in it |
| Util.FormatOfExtension | tongrams/src/util.rs:76-83 | no extension stands for the plain format |
| Util.ExtensionRoundTrip | tongrams/src/util.rs:76-83 | a compressed format's extension names that format again, and a name that stands for a format is that format's extension |
| Util.ExtensionsDistinct | tongrams/src/util.rs:76-83 | no two formats share an extension |
| Util.CollectMeaning | tongrams/src/util.rs:47-53 | on success, the records are those of the leading answers in order, up to the end or the first `None`; on failure, the error is that of the first bad answer, and all answers before it were records |
| Util.LoadRecords | tongrams/src/util.rs:43-54 | `load_records` computes the records of a loader, or the first error |
| Util.LoadRecordsFromFile | tongrams/src/util.rs:18-40 | the records of a whole count file, or the error of its header or of its first bad line |
| Util.BuildVocabularyFromFile | tongrams/src/util.rs:62-73 | a file that does not load gives its error; otherwise the vocabulary fails for 2^31 grams or more, succeeds exactly on distinct grams, and maps each gram to its position in the file |
| SortGrams.IdsOf | tools/src/sort_grams.rs:97-99 | one id per token |
| SortGrams.MappedOf | tools/src/sort_grams.rs:85-105 | one mapped record per record |
| SortGrams.MapTokens | tools/src/sort_grams.rs:96-99 | the inner loop panics exactly when a token is not in the vocabulary, and otherwise gives the ids of the tokens in order |
| SortGrams.MapRecords | tools/src/sort_grams.rs:82-105 | the mapping loop panics exactly when some record has a token not in the vocabulary or a number of tokens other than the first record's; otherwise each record maps to its ids and its position |
| SortGrams.MappedNext | tools/src/sort_grams.rs:85-105 | one more record that maps keeps the prefix mappable and appends its mapped record |
| SortGrams.MappableSnoc | tools/src/sort_grams.rs:87-94 | a record with the first record's number of tokens, all known, keeps the records mappable |
| SortGrams.MappedOfSnoc | tools/src/sort_grams.rs:101-104 | the mapped record of a record appended is its ids and its position |
| SortGrams.IdsName | tools/src/sort_grams.rs:75-98 | with the vocabulary of a file of grams, a token's id is the position of that token in the file |
| SortGrams.GramOfIds | tools/src/sort_grams.rs:86-98 | the mapping loses nothing: the vocabulary grams at a record's ids, joined by the separator, are the record's gram |
| SortGrams.SameIdsSameGram | tools/src/sort_grams.rs:98 | two records that map to the same ids have the same gram |
| SortGrams.IndexMapUnique | tongrams/src/vocabulary/yada.rs:41-43 | two maps sending every gram to its position are equal |
| SortGrams.RecordsOf | tools/src/sort_grams.rs:118-119 | one output record per sorted mapped record |
| SortGrams.FormatCountLinesSnoc | tools/src/sort_grams.rs:118-121 | the lines of one more record come after the lines written so far |
| SortGrams.WriteRecords | tools/src/sort_grams.rs:116-123 | `write_records` writes the number of records and a newline, then the line of the record each sorted mapped record points at, in order |
| SortGrams.OutputName | tools/src/sort_grams.rs:110-113 | the output name is the path, with `.` and the extension appended when the format has one |
| SortGrams.OutputNameFormat | tools/src/sort_grams.rs:110-113 | for a compressed format the name starts with the path, and its extension names the format again |
| SortGrams.SortedPositions | tools/src/sort_grams.rs:107-119 | every mapped record the sorter yields points at one of the records |
| SortGrams.SortedOutput | tools/src/sort_grams.rs:107-121 | the output lists one record per input record |
| SortGrams.InRangePermutation | tools/src/sort_grams.rs:107-108 | a reordering points at the same records |
| SortGrams.RecordsOfRemove | tools/src/sort_grams.rs:118-119 | taking one mapped record out takes its record out of the output |
| SortGrams.RecordsOfHead | tools/src/sort_grams.rs:118-119 | the output's first record is the one the first mapped record points at |
| SortGrams.RecordsOfPermutation | tools/src/sort_grams.rs:107-119 | reordering the mapped records reorders the records they point at |
| SortGrams.OutputPermutation | tools/src/sort_grams.rs:82-121 | the output lists every input record exactly as often as the input does |
| SortGrams.OutputOrdered | tools/src/sort_grams.rs:82-121 | the output lists the records in lexicographic order of the ids of their tokens |
| SortGrams.OutputReloads | tools/src/sort_grams.rs:116-123 | the output file of well-formed records loads back as the sorted records |
| SortGrams.VocabularyUnique | tools/src/sort_grams.rs:75 | a vocabulary is the only one mapping the grams of its file to their positions |
| SortGrams.OutputText | tools/src/sort_grams.rs:116-123 | what `write_records` writes for the sorted mapped records is the count file of the sorted output |
| SortGrams.Run | tools/src/sort_grams.rs:67-137 | `main` fails with the vocabulary file's error, fails when its grams are too many or repeat, fails with the count file's error, panics exactly when a record does not map, and otherwise gives the output name and the count file of the records sorted by their ids |
| MappedRecords.Word | tools/src/sort_grams.rs:46-50 | `write_u64::<LittleEndian>` writes eight bytes |
| MappedRecords.LeRoundTrip | tools/src/sort_grams.rs:46-57 | a number below `256^n` written in `n` bytes reads back as itself |
| MappedRecords.LeValueRoundTrip | tools/src/sort_grams.rs:46-57 | bytes read as a number give a number below the power of their length, which writes back as those bytes |
| MappedRecords.WordRoundTrip | tools/src/sort_grams.rs:46-57 | a word reads back as the number below 2^64 it was written from |
| MappedRecords.WordOfValue | tools/src/sort_grams.rs:46-57 | eight bytes are the word of the number they hold |
| MappedRecords.EncodeOf | tools/src/sort_grams.rs:43-51 | an encoding is one length byte, eight bytes per id and eight for the position |
| MappedRecords.ReadWordsLength | tools/src/sort_grams.rs:56-58 | reading `n` words succeeds exactly when there are `8 n` bytes, and leaves what follows them |
| MappedRecords.ReadWordsOfWords | tools/src/sort_grams.rs:45-58 | words read back as the ids, below 2^64, they were written from |
| MappedRecords.WordsOfReadWords | tools/src/sort_grams.rs:45-58 | words read from some bytes write back as those bytes |
| MappedRecords.DecodeEncode | tools/src/sort_grams.rs:43-64 | `decode` reads back what `encode` wrote for a record of fewer than 256 ids below 2^64, and stops right after it |
| MappedRecords.EncodeDecode | tools/src/sort_grams.rs:43-64 | what `decode` reads is exactly what `encode` writes for the record it gives, followed by the rest |
| MappedRecords.DecodeTruncated | tools/src/sort_grams.rs:53-64 | an encoding cut short decodes to nothing |
| MappedRecords.LongRecordLost | tools/src/sort_grams.rs:44 | with 256 ids, the length byte wraps to 0, so the record reads back with no ids |
| MappedRecords.Encode | tools/src/sort_grams.rs:43-51 | `encode` writes what `EncodeOf` describes |
| MappedRecords.Decode | tools/src/sort_grams.rs:53-64 | `decode` reads what `DecodeOf` describes |
| MappedRecords.RecordTotal | tools/src/sort_grams.rs:36 | two records always compare |
| MappedRecords.RecordAntisymmetric | tools/src/sort_grams.rs:36 | records that compare both ways are equal |
| MappedRecords.RecordTransitive | tools/src/sort_grams.rs:36 | the derived order is transitive |
| MappedRecords.RecordLeIds | tools/src/sort_grams.rs:36-39 | records in order have their ids in order |
| MappedRecords.Insert | tools/src/sort_grams.rs:107-108 | one insertion adds one record and loses none |
| MappedRecords.SortRecords | tools/src/sort_grams.rs:107-108 | the sorter yields the records, each as often as given |
| MappedRecords.InsertSorted | tools/src/sort_grams.rs:107-108 | inserting into sorted records keeps them sorted |
| MappedRecords.SortRecordsSorted | tools/src/sort_grams.rs:107-108 | the sorter yields the records in the derived order |
| MappedRecords.SortedHeadLeast | tools/src/sort_grams.rs:107-108 | the first of sorted records is at most every one of them |
| MappedRecords.SortedUnique | tools/src/sort_grams.rs:107-108 | there is only one sorted order of some records, so any sorter gives the same output |
| MappedRecords.SortedTail | tools/src/sort_grams.rs:107-108 | the records after the first of sorted records are sorted, and are the others |
| MappedRecords.SortRecordsOfSorted | tools/src/sort_grams.rs:107-108 | sorting sorted records changes nothing |
| Order.LexLeMeaning | tools/src/sort_grams.rs:36 | `a <= b` exactly when `a` is a prefix of `b` or the first difference is smaller in `a` |
| Order.LexTotal | tools/src/sort_grams.rs:36 | any two sequences compare |
| Order.LexAntisymmetric | tools/src/sort_grams.rs:36 | sequences that compare both ways are equal |
| Order.LexTransitive | tools/src/sort_grams.rs:36 | the order is transitive |

## Left out

- File I/O and compression: the mounted paths, `lzma`, `gzip`, deflate and zlib streams, `BufWriter` and `File::create`. A file is given as its bytes after decompression, and an output file is returned as its bytes. The `GramsLoader` types in `tongrams/src/loader/` are not part of this model. `from_files`, `from_plain_files` and `from_gz_files` are file I/O around the builders and are not modelled.
- Console output: the progress lines of `nwc2010.py` and `sort_grams`, the `eprintln!` warnings of the parser and the test diagnostics.
- `serialize_into`, `deserialize_from` and `size_in_bytes` of the vocabularies and trie arrays go through `bincode` and `sucds`, which are not part of this model. `TrieCountLm`'s own layout is modelled over an abstract part codec. `memory_statistics` is left out everywhere; it only reports sizes.
- `glob` and `natsort` in `nwc2010.py`: the shards are given as a list already in natural order. `ArgumentParser` and `main` are not modelled.
- The `ExternalSorter` of `sort_grams` is modelled as `MappedRecords.SortRecords`, an insertion sort into the derived order. Its spilling to temporary files is left out. `MappedRecords.SortedUnique` shows that every sorter yielding records in order gives the same result.
- The double-array trie of `yada` is modelled as the finite map it stores. `DoubleArrayBuilder::build(..).unwrap()` is taken to succeed on a sorted key set of distinct keys.
- Elias-Fano sequences (`sucds::EliasFano`) are modelled by their values with `select` and `rank`; the bit-level encoding is left out.
- Parser.ProbLine: the probability and backoff fields are kept as their text. Parsing them as `f32`, the "Parse error" raised when that fails, and mapping a positive probability to 0 are not modelled, because floating point is out of scope.
- The vocabulary lookups are modelled over their finite maps. `Gram::to_string` is modelled as a UTF-8 check that panics on invalid bytes.
- `tongrams/src/util.rs:71` calls `DoubleArrayVocabulary::build`, and `tongrams/src/vocabulary.rs:53` does the same, but `yada.rs` defines that operation as `new`. The model uses `DoubleArrayVocabulary.New` at those call sites.
- `tongrams/src/trie_count_lm/builder.rs:76` calls `SimpleVocabulary::new(&grams)`, but `simple.rs` defines the one-argument operation as `build`; the model uses `SimpleVocabulary.BuildOf` there and passes its duplicate error on. The probability builder, generic in its vocabulary, is modelled with the simple vocabulary.
- `tongrams/src/trie_prob_lm/builder.rs:103` calls `pop_front_token`, which `gram.rs` does not define. It is modelled as `TrieProbLmBuilder.PopFrontToken`: a cut at the first separator.
- `tongrams/src/trie_array/builder.rs` builds a `SimpleTrieArray` with three fields and calls `SimpleGramsSequence::new` with one argument. Neither matches `trie_array/simple.rs` or `grams_sequence.rs`, so `TrieLayerBuilder` has its own level type.
- `gram.rs` imports `GRAM_SEPARATOR`, but `lib.rs` defines the space separator as `TOKEN_SEPARATOR`. The model uses the byte `0x20` as `Gram.SEPARATOR`.
- `tools/src/sort_grams.rs:120` formats a gram with `{}`, but `Gram` has no `Display`. The model writes the gram's bytes. The `match` at lines 125-134 covers only the plain and gzip formats; the other formats are modelled like these two, since compression is left out.
- TrieCountLmTest.RecordLookup and TrieCountLmTest.LookupTest are shown on an index put together from the expected components of the three test texts, not on the index that `from_texts` returns (`tongrams/src/trie_count_lm.rs:321`, `:330`, `:339`). The tests call `from_texts`, which runs `TrieCountLmBuilder::new(loaders)?.build()`. That build cannot produce the lookuper's index: `tongrams/src/trie_count_lm/builder.rs:43-49` returns a `TrieCountLm` with the fields `max_order`, `vocab`, `arrays` (of `SimpleSortedArray`) and `counts`, while the `TrieCountLm` of `tongrams/src/trie_count_lm.rs:21-26` has `vocab`, `arrays` (of a `TrieArray`), `count_ranks` and `counts`; and `new` returns `Self`, not the `Result` the `?` needs. So `TrieCountLmBuilder` builds its own index, and no function maps it to `TrieCountLm`. The components are checked instead: the vocabulary, the pointers and the count ranks. `PointerGroups.BigramPointers` and `PointerGroups.TrigramPointers` prove the builder's pointers for those grams.
- The mapper is modelled over the general `Vocabulary` rather than only `SimpleVocabulary`.
- Decimal.PyInt: Python 3.11 and later refuse, with `ValueError`, to convert a decimal text of more than 4300 digits to `int` (the `sys.set_int_max_str_digits` limit). The model reads every length, so a count line that long loads here but raises in such an interpreter. `Decimal.PyIntStr` is stated without that limit too.
- Machine integers are unbounded `nat`s except where the source's width shows: the `u64` parse limit, the 31-bit id limit, `len as u8` in `encode`, `as u64` in `write_u64`, and `MAX_ORDER`.

## Findings

| source | as written | input that shows it | evidently intended | confidence | as-written member | corrected member |
|---|---|---|---|---|---|---|
| tongrams/src/trie_count_lm/lookuper.rs:36-46 | a query with one token more than the index has orders extends a top-order gram and indexes `count_ranks[order]` past the last level, which panics | the query `A A C A` on the test index of three orders | answer `None` for a query longer than the index's orders | not executed | TrieCountLmLookuper.LongQueryPanics, TrieCountLmTest.LookupTooLong | TrieCountLmLookuper.CheckedAnswerMeaning |
