/** The records `sort_grams` sorts: the vocabulary ids of a gram's tokens and
    the gram's position in its file. The external sorter spills them to disk
    with `Sortable::encode` and reads them back with `decode`; they sort by
    the order Rust derives, ids first, position second. */
module MappedRecords {
  import opened Common
  import opened Order

  /** `MappedRecord { mapped_ids, record_id }`. */
  datatype MappedRecord = MappedRecord(mappedIds: seq<nat>, recordId: nat)

  // ---------------------------------------------------------------------
  // Little-endian words.

  function Pow256(n: nat): (p: nat)
    ensures p > 0
  {
    if n == 0 then 1 else 256 * Pow256(n - 1)
  }

  lemma Pow256Eight()
    ensures Pow256(8) == U64_LIMIT
  {
    assert Pow256(2) == 0x1_0000;
    assert Pow256(4) == 0x1_0000_0000;
    assert Pow256(6) == 0x1_0000_0000_0000;
  }

  /** The `n` lowest bytes of `x`, lowest first. */
  function LeBytes(x: nat, n: nat): (b: seq<byte>)
    ensures |b| == n
  {
    if n == 0 then [] else [x % 256] + LeBytes(x / 256, n - 1)
  }

  /** The number some bytes hold, lowest first. */
  function LeValue(b: seq<byte>): nat {
    if b == [] then 0 else b[0] + 256 * LeValue(b[1..])
  }

  /** `write_u64::<LittleEndian>(x as u64)`: eight bytes, of `x` modulo 2^64. */
  function Word(x: nat): (b: seq<byte>)
    ensures |b| == 8
  {
    LeBytes(x % U64_LIMIT, 8)
  }

  /** Bytes read back give a number below the power of their length, and the
      lowest bytes of a number below that power read back as the number. */
  lemma {:induction false} LeRoundTrip(x: nat, n: nat)
    requires x < Pow256(n)
    ensures LeValue(LeBytes(x, n)) == x
  {
    if n > 0 {
      assert x / 256 < Pow256(n - 1);
      LeRoundTrip(x / 256, n - 1);
      assert LeBytes(x, n)[1..] == LeBytes(x / 256, n - 1);
    }
  }

  lemma {:induction false} LeValueRoundTrip(b: seq<byte>)
    ensures LeValue(b) < Pow256(|b|)
    ensures LeBytes(LeValue(b), |b|) == b
  {
    if b != [] {
      LeValueRoundTrip(b[1..]);
      var v := LeValue(b);
      assert v % 256 == b[0] && v / 256 == LeValue(b[1..]);
      assert b == [b[0]] + b[1..];
    }
  }

  /** A word reads back as the number it was written from, below 2^64. */
  lemma WordRoundTrip(x: nat)
    requires x < U64_LIMIT
    ensures LeValue(Word(x)) == x
  {
    Pow256Eight();
    assert x % U64_LIMIT == x;
    LeRoundTrip(x, 8);
  }

  /** Eight bytes are the word of the number they hold. */
  lemma WordOfValue(b: seq<byte>)
    requires |b| == 8
    ensures LeValue(b) < U64_LIMIT && Word(LeValue(b)) == b
  {
    var v := LeValue(b);
    LeValueRoundTrip(b);
    Pow256Eight();
    assert v % U64_LIMIT == v;
  }

  // ---------------------------------------------------------------------
  // `encode` and `decode`.

  /** The words of some ids, one after the other. */
  function Words(ids: seq<nat>): (b: seq<byte>)
    ensures |b| == 8 * |ids|
  {
    if ids == [] then [] else Word(ids[0]) + Words(ids[1..])
  }

  lemma {:induction false} WordsSnoc(ids: seq<nat>, x: nat)
    ensures Words(ids + [x]) == Words(ids) + Word(x)
  {
    if ids != [] {
      assert (ids + [x])[1..] == ids[1..] + [x];
      WordsSnoc(ids[1..], x);
    }
  }

  /** The bytes `encode` writes: the number of ids as one byte (`len as u8`,
      so modulo 256), each id as a word, then the position as a word. */
  function EncodeOf(r: MappedRecord): (b: seq<byte>)
    ensures |b| == 9 + 8 * |r.mappedIds|
  {
    [|r.mappedIds| % 256] + Words(r.mappedIds) + Word(r.recordId)
  }

  /** `n` words read from `b` with `read_u64`, and what is left; `None` when
      the input ends first. */
  function ReadWords(b: seq<byte>, n: nat): (r: Option<(seq<nat>, seq<byte>)>)
  {
    if n == 0 then Some(([], b))
    else if |b| < 8 then None
    else match ReadWords(b[8..], n - 1)
      case None => None
      case Some((ids, rest)) => Some(([LeValue(b[..8])] + ids, rest))
  }

  /** The bytes `decode` reads: the length byte, that many words, and the
      position word, or `None` as soon as the input runs out. */
  function DecodeOf(b: seq<byte>): (r: Option<(MappedRecord, seq<byte>)>)
  {
    if b == [] then None
    else match ReadWords(b[1..], b[0])
      case None => None
      case Some((ids, rest)) =>
        if |rest| < 8 then None else Some((MappedRecord(ids, LeValue(rest[..8])), rest[8..]))
  }

  /** Reading `n` words succeeds exactly when there are `8 n` bytes, and
      leaves the bytes after them. */
  lemma {:induction false} ReadWordsLength(b: seq<byte>, n: nat)
    ensures ReadWords(b, n).Some? <==> 8 * n <= |b|
    ensures ReadWords(b, n).Some? ==> |ReadWords(b, n).value.0| == n && ReadWords(b, n).value.1 == b[8 * n..]
  {
    if n > 0 && |b| >= 8 {
      ReadWordsLength(b[8..], n - 1);
    }
  }

  /** Words read back as the ids they were written from. */
  lemma {:induction false} ReadWordsOfWords(ids: seq<nat>, more: seq<byte>)
    requires forall i :: 0 <= i < |ids| ==> ids[i] < U64_LIMIT
    ensures ReadWords(Words(ids) + more, |ids|) == Some((ids, more))
  {
    if ids != [] {
      var b := Words(ids) + more;
      assert b[..8] == Word(ids[0]);
      assert b[8..] == Words(ids[1..]) + more;
      WordRoundTrip(ids[0]);
      ReadWordsOfWords(ids[1..], more);
      assert ReadWords(b[8..], |ids| - 1) == Some((ids[1..], more));
      assert LeValue(b[..8]) == ids[0];
      assert ReadWords(b, |ids|) == Some(([LeValue(b[..8])] + ids[1..], more));
      assert ids == [ids[0]] + ids[1..];
    } else {
      assert Words(ids) + more == more;
    }
  }

  /** Words read from some bytes are written back as those bytes. */
  lemma {:induction false} WordsOfReadWords(b: seq<byte>, n: nat)
    requires ReadWords(b, n).Some?
    ensures var (ids, rest) := ReadWords(b, n).value;
      (forall i :: 0 <= i < |ids| ==> ids[i] < U64_LIMIT) && Words(ids) + rest == b
  {
    if n > 0 {
      var (ids, rest) := ReadWords(b, n).value;
      WordsOfReadWords(b[8..], n - 1);
      WordOfValue(b[..8]);
      assert ids[1..] == ReadWords(b[8..], n - 1).value.0;
      assert b == b[..8] + b[8..];
    }
  }

  /** A record has a faithful encoding when it has fewer than 256 ids and
      every number fits in 64 bits. */
  predicate Encodable(r: MappedRecord) {
    && |r.mappedIds| < 256
    && (forall i :: 0 <= i < |r.mappedIds| ==> r.mappedIds[i] < U64_LIMIT)
    && r.recordId < U64_LIMIT
  }

  /** `decode` reads back what `encode` wrote, and stops right after it. */
  lemma DecodeEncode(r: MappedRecord, more: seq<byte>)
    requires Encodable(r)
    ensures DecodeOf(EncodeOf(r) + more) == Some((r, more))
  {
    var ids := r.mappedIds;
    var rest := Word(r.recordId) + more;
    var b := EncodeOf(r) + more;
    assert b[0] == |ids| && b[1..] == Words(ids) + rest;
    ReadWordsOfWords(ids, rest);
    WordThenMore(r.recordId, more);
  }

  /** The position word in front of the bytes after a record. */
  lemma WordThenMore(x: nat, more: seq<byte>)
    requires x < U64_LIMIT
    ensures (Word(x) + more)[..8] == Word(x) && (Word(x) + more)[8..] == more
    ensures LeValue((Word(x) + more)[..8]) == x
  {
    WordRoundTrip(x);
    assert (Word(x) + more)[..8] == Word(x);
  }

  /** The bytes of a record split as `decode` reads them, put back
      together. */
  lemma Reassemble(b: seq<byte>, words: seq<byte>, rest: seq<byte>)
    requires |b| > 0 && b[1..] == words + rest && |rest| >= 8
    ensures [b[0]] + words + rest[..8] + rest[8..] == b
  {
    assert rest == rest[..8] + rest[8..];
    assert b == [b[0]] + b[1..];
  }

  /** What `decode` reads is what `encode` writes for the record it gives:
      every byte it consumed, and nothing else. */
  lemma EncodeDecode(b: seq<byte>)
    requires DecodeOf(b).Some?
    ensures var (r, rest) := DecodeOf(b).value; Encodable(r) && EncodeOf(r) + rest == b
  {
    var len := b[0];
    var (ids, rest) := ReadWords(b[1..], len).value;
    ReadWordsLength(b[1..], len);
    WordsOfReadWords(b[1..], len);
    WordOfValue(rest[..8]);
    var r := MappedRecord(ids, LeValue(rest[..8]));
    assert DecodeOf(b) == Some((r, rest[8..]));
    assert |ids| % 256 == len;
    Reassemble(b, Words(ids), rest);
  }

  /** An input cut short inside a record decodes to nothing. */
  lemma DecodeTruncated(r: MappedRecord, k: nat)
    requires |r.mappedIds| < 256 && k < |EncodeOf(r)|
    ensures DecodeOf(EncodeOf(r)[..k]) == None
  {
    var b := EncodeOf(r)[..k];
    if b != [] {
      assert b[0] == |r.mappedIds|;
      ReadWordsLength(b[1..], b[0]);
    }
  }

  /** With 256 ids the length byte wraps to 0, so the record reads back with
      no ids at all: the codec is faithful only below 256 tokens. */
  lemma LongRecordLost(r: MappedRecord)
    requires |r.mappedIds| == 256
    ensures DecodeOf(EncodeOf(r)).Some? && DecodeOf(EncodeOf(r)).value.0.mappedIds == []
    ensures DecodeOf(EncodeOf(r)) != Some((r, []))
  {
    var b := EncodeOf(r);
    assert b[0] == 0;
  }

  /** `encode`: the length byte, a word per id, then the position. */
  method Encode(r: MappedRecord) returns (b: seq<byte>)
    ensures b == EncodeOf(r)
  {
    b := [|r.mappedIds| % 256];
    for k := 0 to |r.mappedIds|
      invariant b == [|r.mappedIds| % 256] + Words(r.mappedIds[..k])
    {
      WordsSnoc(r.mappedIds[..k], r.mappedIds[k]);
      assert r.mappedIds[..k + 1] == r.mappedIds[..k] + [r.mappedIds[k]];
      b := b + Word(r.mappedIds[k]);
    }
    assert r.mappedIds[..|r.mappedIds|] == r.mappedIds;
    b := b + Word(r.recordId);
  }

  /** `n` more words after `ids`, as `ReadWords` gives them. */
  function ThenWords(ids: seq<nat>, more: Option<(seq<nat>, seq<byte>)>): Option<(seq<nat>, seq<byte>)> {
    match more
    case None => None
    case Some((rest, left)) => Some((ids + rest, left))
  }

  lemma ThenWordsThen(ids: seq<nat>, w: nat, more: Option<(seq<nat>, seq<byte>)>)
    ensures ThenWords(ids, ThenWords([w], more)) == ThenWords(ids + [w], more)
  {
    if more.Some? {
      assert ids + ([w] + more.value.0) == ids + [w] + more.value.0;
    }
  }

  /** `decode`: the length byte, then a word per id, then the position; the
      reader's input and what it has left. */
  method Decode(b: seq<byte>) returns (r: Option<(MappedRecord, seq<byte>)>)
    ensures r == DecodeOf(b)
  {
    if |b| == 0 {
      return None;
    }
    var len := b[0];
    var input := b[1..];
    var ids: seq<nat> := [];
    if ReadWords(input, len).Some? {
      assert [] + ReadWords(input, len).value.0 == ReadWords(input, len).value.0;
    }
    for k := 0 to len
      invariant ReadWords(b[1..], len) == ThenWords(ids, ReadWords(input, len - k))
    {
      if |input| < 8 {
        return None;
      }
      ghost var before := input;
      assert ReadWords(before, len - k) == ThenWords([LeValue(input[..8])], ReadWords(input[8..], len - k - 1));
      ThenWordsThen(ids, LeValue(input[..8]), ReadWords(input[8..], len - k - 1));
      ids := ids + [LeValue(input[..8])];
      input := input[8..];
    }
    assert ids + [] == ids;
    if |input| < 8 {
      return None;
    }
    return Some((MappedRecord(ids, LeValue(input[..8])), input[8..]));
  }

  // ---------------------------------------------------------------------
  // The derived order.

  /** `a <= b` for the derived `Ord`: the ids lexicographically, then the
      position. */
  predicate RecordLe(a: MappedRecord, b: MappedRecord) {
    if a.mappedIds != b.mappedIds then LexLe(a.mappedIds, b.mappedIds) else a.recordId <= b.recordId
  }

  lemma LexReflexive(a: seq<int>)
    ensures LexLe(a, a)
  {
    LexTotal(a, a);
  }

  /** Two records always compare, and a record is never below itself. */
  lemma RecordTotal(a: MappedRecord, b: MappedRecord)
    ensures RecordLe(a, b) || RecordLe(b, a)
  {
    LexTotal(a.mappedIds, b.mappedIds);
  }

  lemma RecordAntisymmetric(a: MappedRecord, b: MappedRecord)
    requires RecordLe(a, b) && RecordLe(b, a)
    ensures a == b
  {
    if a.mappedIds != b.mappedIds {
      LexAntisymmetric(a.mappedIds, b.mappedIds);
    }
  }

  lemma RecordTransitive(a: MappedRecord, b: MappedRecord, c: MappedRecord)
    requires RecordLe(a, b) && RecordLe(b, c)
    ensures RecordLe(a, c)
  {
    if a.mappedIds == b.mappedIds || b.mappedIds == c.mappedIds {
    } else if a.mappedIds == c.mappedIds {
      LexAntisymmetric(a.mappedIds, b.mappedIds);
    } else {
      LexTransitive(a.mappedIds, b.mappedIds, c.mappedIds);
    }
  }

  /** Records in order compare their ids in order too. */
  lemma RecordLeIds(a: MappedRecord, b: MappedRecord)
    requires RecordLe(a, b)
    ensures LexLe(a.mappedIds, b.mappedIds)
  {
    LexReflexive(a.mappedIds);
  }

  // ---------------------------------------------------------------------
  // Sorting.

  predicate Sorted(s: seq<MappedRecord>) {
    forall i, j :: 0 <= i < j < |s| ==> RecordLe(s[i], s[j])
  }

  /** `x` put in front of the first element it is below. */
  function Insert(x: MappedRecord, s: seq<MappedRecord>): (r: seq<MappedRecord>)
    ensures |r| == |s| + 1
    ensures multiset(r) == multiset(s) + multiset{x}
  {
    if s == [] then [x]
    else if RecordLe(x, s[0]) then [x] + s
    else
      assert s == [s[0]] + s[1..];
      [s[0]] + Insert(x, s[1..])
  }

  /** What the external sorter yields: the records in order. */
  function SortRecords(s: seq<MappedRecord>): (r: seq<MappedRecord>)
    ensures |r| == |s|
    ensures multiset(r) == multiset(s)
  {
    if s == [] then []
    else
      assert s == [s[0]] + s[1..];
      Insert(s[0], SortRecords(s[1..]))
  }

  lemma {:induction false} InsertSorted(x: MappedRecord, s: seq<MappedRecord>)
    requires Sorted(s)
    ensures Sorted(Insert(x, s))
  {
    if s != [] {
      if RecordLe(x, s[0]) {
        var r := [x] + s;
        forall i, j | 0 <= i < j < |r|
          ensures RecordLe(r[i], r[j])
        {
          if i == 0 && j > 1 {
            RecordTransitive(x, s[0], s[j - 1]);
          }
        }
      } else {
        RecordTotal(x, s[0]);
        InsertSorted(x, s[1..]);
        var r := Insert(x, s[1..]);
        forall j | 0 <= j < |r|
          ensures RecordLe(s[0], r[j])
        {
          assert r[j] in multiset(r);
          if r[j] != x {
            assert r[j] in multiset(s[1..]);
            var k :| 0 <= k < |s[1..]| && s[1..][k] == r[j];
            assert s[k + 1] == r[j];
          }
        }
        var t := [s[0]] + r;
        forall i, j | 0 <= i < j < |t|
          ensures RecordLe(t[i], t[j])
        {
          if i > 0 {
            assert t[i] == r[i - 1] && t[j] == r[j - 1];
          }
        }
      }
    }
  }

  lemma {:induction false} SortRecordsSorted(s: seq<MappedRecord>)
    ensures Sorted(SortRecords(s))
  {
    if s != [] {
      SortRecordsSorted(s[1..]);
      InsertSorted(s[0], SortRecords(s[1..]));
    }
  }

  /** The sorted order is the only one: any sorter that yields the records
      in order yields exactly `SortRecords`. */
  lemma SortedHeadLeast(s: seq<MappedRecord>, x: MappedRecord)
    requires Sorted(s) && x in multiset(s)
    ensures RecordLe(s[0], x)
  {
    var i :| 0 <= i < |s| && s[i] == x;
    if i == 0 {
      RecordTotal(x, x);
    }
  }

  lemma {:induction false} SortedUnique(a: seq<MappedRecord>, b: seq<MappedRecord>)
    requires Sorted(a) && Sorted(b) && multiset(a) == multiset(b)
    ensures a == b
  {
    if a != [] {
      assert b != [] && a[0] == b[0] by {
        assert a[0] in multiset(a);
        assert b != [];
        assert b[0] in multiset(b);
        SortedHeadLeast(a, b[0]);
        SortedHeadLeast(b, a[0]);
        RecordAntisymmetric(a[0], b[0]);
      }
      assert a[1..] == b[1..] by {
        SortedTail(a);
        SortedTail(b);
        SortedUnique(a[1..], b[1..]);
      }
      assert a == [a[0]] + a[1..] && b == [b[0]] + b[1..];
    }
  }

  /** The records after the first of sorted records are sorted, and are
      the others. */
  lemma SortedTail(a: seq<MappedRecord>)
    requires Sorted(a) && a != []
    ensures Sorted(a[1..]) && multiset(a[1..]) == multiset(a) - multiset{a[0]}
  {
    assert a == [a[0]] + a[1..];
    assert forall i, j :: 0 <= i < j < |a| - 1 ==> a[1..][i] == a[i + 1] && a[1..][j] == a[j + 1];
  }

  /** Sorting the sorted changes nothing. */
  lemma SortRecordsOfSorted(s: seq<MappedRecord>)
    requires Sorted(s)
    ensures SortRecords(s) == s
  {
    SortRecordsSorted(s);
    SortedUnique(SortRecords(s), s);
  }
}
