/** `TrieCountLm`: the count index. A vocabulary, one trie level per order
    above the first, and per order the count rank of every gram and the
    distinct counts in rank order. Serialising writes the vocabulary and
    then the three component lists, each as its length followed by its
    elements; deserialising reads them back in that order. */
module TrieCountLm {
  import opened Common
  import V = Vocabulary
  import T = TrieArray

  datatype TrieCountLm = TrieCountLm(
    vocab: V.Vocabulary,
    arrays: seq<T.TrieArray>,
    countRanks: seq<seq<nat>>,
    counts: seq<seq<nat>>)

  /** `num_orders`: the number of rank arrays. */
  function NumOrders(lm: TrieCountLm): nat {
    |lm.countRanks|
  }

  /** `fold(acc, |acc, x| acc + x.len())` over the rank arrays. */
  function FoldLens(acc: nat, xs: seq<seq<nat>>): nat
    decreases |xs|
  {
    if xs == [] then acc else FoldLens(acc + |xs[0]|, xs[1..])
  }

  /** `num_grams`: the fold that adds up the lengths of the rank arrays. */
  function NumGrams(lm: TrieCountLm): nat {
    FoldLens(0, lm.countRanks)
  }

  /** The total length of a list of arrays, summed from the back. */
  function SumLens(xs: seq<seq<nat>>): nat {
    if xs == [] then 0 else SumLens(xs[..|xs| - 1]) + |xs[|xs| - 1]|
  }

  lemma {:induction false} SumLensCons(x: seq<nat>, xs: seq<seq<nat>>)
    ensures SumLens([x] + xs) == |x| + SumLens(xs)
    decreases |xs|
  {
    if xs != [] {
      var ys := [x] + xs;
      assert ys[..|ys| - 1] == [x] + xs[..|xs| - 1];
      SumLensCons(x, xs[..|xs| - 1]);
    }
  }

  /** The fold from the front and the sum from the back agree. */
  lemma {:induction false} FoldLensSum(acc: nat, xs: seq<seq<nat>>)
    ensures FoldLens(acc, xs) == acc + SumLens(xs)
    decreases |xs|
  {
    if xs != [] {
      FoldLensSum(acc + |xs[0]|, xs[1..]);
      assert xs == [xs[0]] + xs[1..];
      SumLensCons(xs[0], xs[1..]);
    }
  }

  /** `num_grams` counts every gram of every order: the rank arrays have
      one entry per gram. One more order adds its grams. */
  lemma NumGramsSum(lm: TrieCountLm, ranks: seq<nat>)
    ensures NumGrams(lm) == SumLens(lm.countRanks)
    ensures NumGrams(lm.(countRanks := lm.countRanks + [ranks])) == NumGrams(lm) + |ranks|
  {
    FoldLensSum(0, lm.countRanks);
    FoldLensSum(0, lm.countRanks + [ranks]);
    assert (lm.countRanks + [ranks])[..|lm.countRanks|] == lm.countRanks;
  }

  // ---------------------------------------------------------------------
  // The serialised form, one part per `serialize_into` call.

  /** What one `serialize_into` call of a component writes: the component
      itself, or a list length. */
  datatype Part =
    | VocabPart(vocab: V.Vocabulary)
    | LenPart(len: nat)
    | ArrayPart(level: T.TrieArray)
    | RankPart(ranks: seq<nat>)
    | CountPart(values: seq<nat>)

  /** A `usize` is written in 8 bytes. */
  const USIZE_BYTES: nat := 8

  function ArrayParts(xs: seq<T.TrieArray>): (r: seq<Part>)
    ensures |r| == |xs| && forall i :: 0 <= i < |xs| ==> r[i] == ArrayPart(xs[i])
  {
    seq(|xs|, i requires 0 <= i < |xs| => ArrayPart(xs[i]))
  }

  function RankParts(xs: seq<seq<nat>>): (r: seq<Part>)
    ensures |r| == |xs| && forall i :: 0 <= i < |xs| ==> r[i] == RankPart(xs[i])
  {
    seq(|xs|, i requires 0 <= i < |xs| => RankPart(xs[i]))
  }

  function CountParts(xs: seq<seq<nat>>): (r: seq<Part>)
    ensures |r| == |xs| && forall i :: 0 <= i < |xs| ==> r[i] == CountPart(xs[i])
  {
    seq(|xs|, i requires 0 <= i < |xs| => CountPart(xs[i]))
  }

  /** The parts `serialize_into` writes, in order. */
  function Layout(lm: TrieCountLm): seq<Part> {
    [VocabPart(lm.vocab)]
    + [LenPart(|lm.arrays|)] + ArrayParts(lm.arrays)
    + [LenPart(|lm.countRanks|)] + RankParts(lm.countRanks)
    + [LenPart(|lm.counts|)] + CountParts(lm.counts)
  }

  /** The bytes of one part: a length takes a `usize`; a component takes
      what its own `size_in_bytes` says, given as `bytes`. */
  function PartSize(bytes: Part -> nat, p: Part): nat {
    if p.LenPart? then USIZE_BYTES else bytes(p)
  }

  /** The bytes of a run of parts. */
  function TotalSize(bytes: Part -> nat, ps: seq<Part>): nat {
    if ps == [] then 0 else TotalSize(bytes, ps[..|ps| - 1]) + PartSize(bytes, ps[|ps| - 1])
  }

  lemma {:induction false} TotalSizeAppend(bytes: Part -> nat, a: seq<Part>, b: seq<Part>)
    ensures TotalSize(bytes, a + b) == TotalSize(bytes, a) + TotalSize(bytes, b)
    decreases |b|
  {
    if b == [] {
      assert a + b == a;
    } else {
      var b' := b[..|b| - 1];
      assert (a + b)[..|a + b| - 1] == a + b';
      assert (a + b)[|a + b| - 1] == b[|b| - 1];
      TotalSizeAppend(bytes, a, b');
    }
  }

  /** One more part adds its own bytes. */
  lemma TotalSizeSnoc(bytes: Part -> nat, a: seq<Part>, p: Part)
    ensures TotalSize(bytes, a + [p]) == TotalSize(bytes, a) + PartSize(bytes, p)
  {
    assert (a + [p])[..|a|] == a;
  }

  /** The size of a layout: the vocabulary, three lengths, and every
      component of the three lists. */
  lemma LayoutSize(bytes: Part -> nat, lm: TrieCountLm)
    ensures TotalSize(bytes, Layout(lm)) ==
      bytes(VocabPart(lm.vocab)) + 3 * USIZE_BYTES
      + TotalSize(bytes, ArrayParts(lm.arrays))
      + TotalSize(bytes, RankParts(lm.countRanks))
      + TotalSize(bytes, CountParts(lm.counts))
  {
    var a := [VocabPart(lm.vocab)] + [LenPart(|lm.arrays|)];
    var b := [LenPart(|lm.countRanks|)];
    var c := [LenPart(|lm.counts|)];
    TotalSizeAppend(bytes, [VocabPart(lm.vocab)], [LenPart(|lm.arrays|)]);
    TotalSizeAppend(bytes, a, ArrayParts(lm.arrays));
    TotalSizeAppend(bytes, a + ArrayParts(lm.arrays), b);
    TotalSizeAppend(bytes, a + ArrayParts(lm.arrays) + b, RankParts(lm.countRanks));
    TotalSizeAppend(bytes, a + ArrayParts(lm.arrays) + b + RankParts(lm.countRanks), c);
    TotalSizeAppend(bytes, a + ArrayParts(lm.arrays) + b + RankParts(lm.countRanks) + c, CountParts(lm.counts));
    assert TotalSize(bytes, [VocabPart(lm.vocab)]) == bytes(VocabPart(lm.vocab));
    assert TotalSize(bytes, [LenPart(|lm.arrays|)]) == USIZE_BYTES;
    assert TotalSize(bytes, b) == USIZE_BYTES;
    assert TotalSize(bytes, c) == USIZE_BYTES;
  }

  /** One `for` loop of `serialize_into`: writes `parts` one after another,
      adding the bytes of each. */
  method WriteParts(written: seq<Part>, mem: nat, parts: seq<Part>, bytes: Part -> nat) returns (w: seq<Part>, m: nat)
    requires mem == TotalSize(bytes, written)
    ensures w == written + parts
    ensures m == TotalSize(bytes, w)
  {
    w, m := written, mem;
    for i := 0 to |parts|
      invariant w == written + parts[..i]
      invariant m == TotalSize(bytes, w)
    {
      TotalSizeSnoc(bytes, w, parts[i]);
      assert parts[..i + 1] == parts[..i] + [parts[i]];
      w := w + [parts[i]];
      m := m + PartSize(bytes, parts[i]);
    }
    assert parts[..|parts|] == parts;
  }

  /** `serialize_into`: writes the parts of `Layout` one call at a time and
      returns the bytes it wrote. */
  method SerializeInto(lm: TrieCountLm, bytes: Part -> nat) returns (written: seq<Part>, mem: nat)
    ensures written == Layout(lm)
    ensures mem == TotalSize(bytes, written)
  {
    written := [VocabPart(lm.vocab)];
    mem := bytes(VocabPart(lm.vocab));
    assert TotalSize(bytes, written) == mem;
    written, mem := WriteParts(written, mem, [LenPart(|lm.arrays|)], bytes);
    written, mem := WriteParts(written, mem, ArrayParts(lm.arrays), bytes);
    written, mem := WriteParts(written, mem, [LenPart(|lm.countRanks|)], bytes);
    written, mem := WriteParts(written, mem, RankParts(lm.countRanks), bytes);
    written, mem := WriteParts(written, mem, [LenPart(|lm.counts|)], bytes);
    written, mem := WriteParts(written, mem, CountParts(lm.counts), bytes);
  }

  /** One `for` loop of `size_in_bytes`: the bytes of `parts`. */
  method SumParts(parts: seq<Part>, bytes: Part -> nat) returns (m: nat)
    ensures m == TotalSize(bytes, parts)
  {
    m := 0;
    for i := 0 to |parts|
      invariant m == TotalSize(bytes, parts[..i])
    {
      TotalSizeSnoc(bytes, parts[..i], parts[i]);
      assert parts[..i + 1] == parts[..i] + [parts[i]];
      m := m + PartSize(bytes, parts[i]);
    }
    assert parts[..|parts|] == parts;
  }

  /** `size_in_bytes`: adds up the same component sizes without writing,
      and so equals the total `serialize_into` returns. */
  method SizeInBytes(lm: TrieCountLm, bytes: Part -> nat) returns (mem: nat)
    ensures mem == TotalSize(bytes, Layout(lm))
  {
    mem := bytes(VocabPart(lm.vocab));
    mem := mem + USIZE_BYTES;
    var arrays := SumParts(ArrayParts(lm.arrays), bytes);
    mem := mem + arrays;
    mem := mem + USIZE_BYTES;
    var ranks := SumParts(RankParts(lm.countRanks), bytes);
    mem := mem + ranks;
    mem := mem + USIZE_BYTES;
    var counts := SumParts(CountParts(lm.counts), bytes);
    mem := mem + counts;
    LayoutSize(bytes, lm);
  }

  // ---------------------------------------------------------------------
  // Reading back.

  /** Why reading fails: the reader ran out, or held a different part. */
  datatype ReadError = Truncated | Unexpected(at: nat)

  function GetVocab(p: Part): Option<V.Vocabulary> {
    if p.VocabPart? then Some(p.vocab) else None
  }

  function GetLen(p: Part): Option<nat> {
    if p.LenPart? then Some(p.len) else None
  }

  function GetArray(p: Part): Option<T.TrieArray> {
    if p.ArrayPart? then Some(p.level) else None
  }

  function GetRanks(p: Part): Option<seq<nat>> {
    if p.RankPart? then Some(p.ranks) else None
  }

  function GetCounts(p: Part): Option<seq<nat>> {
    if p.CountPart? then Some(p.values) else None
  }

  /** One `deserialize_from` call at `pos`: the value and the next position. */
  function ReadOne<X>(s: seq<Part>, pos: nat, get: Part -> Option<X>): (r: Result<(X, nat), ReadError>)
    ensures r.Ok? ==> r.value.1 == pos + 1
  {
    if pos >= |s| then Err(Truncated)
    else match get(s[pos])
      case None => Err(Unexpected(pos))
      case Some(x) => Ok((x, pos + 1))
  }

  /** `n` calls of `deserialize_from` in a row, from `pos`. */
  function ReadMany<X>(s: seq<Part>, pos: nat, n: nat, get: Part -> Option<X>): (r: Result<(seq<X>, nat), ReadError>)
    ensures r.Ok? ==> |r.value.0| == n && r.value.1 == pos + n
    decreases n
  {
    if n == 0 then Ok(([], pos))
    else match ReadOne(s, pos, get)
      case Err(e) => Err(e)
      case Ok((x, next)) =>
        match ReadMany(s, next, n - 1, get)
        case Err(e) => Err(e)
        case Ok((xs, end)) => Ok(([x] + xs, end))
  }

  /** A length, then that many components. */
  function ReadList<X>(s: seq<Part>, pos: nat, get: Part -> Option<X>): Result<(seq<X>, nat), ReadError> {
    match ReadOne(s, pos, GetLen)
    case Err(e) => Err(e)
    case Ok((n, next)) => ReadMany(s, next, n, get)
  }

  /** What `deserialize_from` reads from the start of `s`: the index and
      the number of parts it took. */
  function DeserializeOf(s: seq<Part>): Result<(TrieCountLm, nat), ReadError> {
    match ReadOne(s, 0, GetVocab)
    case Err(e) => Err(e)
    case Ok((vocab, p1)) =>
      match ReadList(s, p1, GetArray)
      case Err(e) => Err(e)
      case Ok((arrays, p2)) =>
        match ReadList(s, p2, GetRanks)
        case Err(e) => Err(e)
        case Ok((countRanks, p3)) =>
          match ReadList(s, p3, GetCounts)
          case Err(e) => Err(e)
          case Ok((counts, p4)) => Ok((TrieCountLm(vocab, arrays, countRanks, counts), p4))
  }

  /** The loop `for _ in 0..len { xs.push(X::deserialize_from(reader)?) }`. */
  method ReadManyLoop<X>(s: seq<Part>, pos: nat, n: nat, get: Part -> Option<X>) returns (r: Result<(seq<X>, nat), ReadError>)
    ensures r == ReadMany(s, pos, n, get)
  {
    var xs: seq<X> := [];
    var at := pos;
    PrependEmpty(ReadMany(s, pos, n, get));
    for i := 0 to n
      invariant |xs| == i && at == pos + i
      invariant ReadMany(s, pos, n, get) == Prepend(xs, ReadMany(s, at, n - i, get))
    {
      var one := ReadOne(s, at, get);
      if one.Err? {
        return Err(one.error);
      }
      PrependTwice(xs, one.value.0, ReadMany(s, at + 1, n - i - 1, get));
      xs := xs + [one.value.0];
      at := at + 1;
    }
    assert xs + [] == xs;
    return Ok((xs, at));
  }

  /** Puts `xs` in front of the values a successful read returns. */
  function Prepend<X>(xs: seq<X>, r: Result<(seq<X>, nat), ReadError>): Result<(seq<X>, nat), ReadError> {
    match r
    case Err(e) => Err(e)
    case Ok((ys, end)) => Ok((xs + ys, end))
  }

  lemma PrependEmpty<X>(r: Result<(seq<X>, nat), ReadError>)
    ensures Prepend([], r) == r
  {
    if r.Ok? {
      assert [] + r.value.0 == r.value.0;
    }
  }

  lemma PrependTwice<X>(xs: seq<X>, x: X, r: Result<(seq<X>, nat), ReadError>)
    ensures Prepend(xs, Prepend([x], r)) == Prepend(xs + [x], r)
  {
    if r.Ok? {
      assert xs + ([x] + r.value.0) == (xs + [x]) + r.value.0;
    }
  }

  /** `deserialize_from`: the vocabulary, then each list as its length and
      its components, failing at the first read that fails. */
  method DeserializeFrom(s: seq<Part>) returns (r: Result<(TrieCountLm, nat), ReadError>)
    ensures r == DeserializeOf(s)
  {
    var vocab := ReadOne(s, 0, GetVocab);
    if vocab.Err? {
      return Err(vocab.error);
    }
    var n := ReadOne(s, 1, GetLen);
    if n.Err? {
      return Err(n.error);
    }
    var arrays := ReadManyLoop(s, 2, n.value.0, GetArray);
    if arrays.Err? {
      return Err(arrays.error);
    }
    var at := arrays.value.1;
    n := ReadOne(s, at, GetLen);
    if n.Err? {
      return Err(n.error);
    }
    var countRanks := ReadManyLoop(s, at + 1, n.value.0, GetRanks);
    if countRanks.Err? {
      return Err(countRanks.error);
    }
    at := countRanks.value.1;
    n := ReadOne(s, at, GetLen);
    if n.Err? {
      return Err(n.error);
    }
    var counts := ReadManyLoop(s, at + 1, n.value.0, GetCounts);
    if counts.Err? {
      return Err(counts.error);
    }
    return Ok((TrieCountLm(vocab.value.0, arrays.value.0, countRanks.value.0, counts.value.0), counts.value.1));
  }

  /** Reading components that were written in a row gives them back. */
  lemma {:induction false} ReadManyWritten<X>(s: seq<Part>, pos: nat, xs: seq<X>, get: Part -> Option<X>)
    requires pos + |xs| <= |s|
    requires forall k :: 0 <= k < |xs| ==> get(s[pos + k]) == Some(xs[k])
    ensures ReadMany(s, pos, |xs|, get) == Ok((xs, pos + |xs|))
    decreases |xs|
  {
    if xs != [] {
      assert get(s[pos]) == Some(xs[0]);
      assert forall k :: 0 <= k < |xs[1..]| ==> get(s[pos + 1 + k]) == Some(xs[1..][k]) by {
        forall k | 0 <= k < |xs[1..]|
          ensures get(s[pos + 1 + k]) == Some(xs[1..][k])
        {
          assert get(s[pos + (k + 1)]) == Some(xs[k + 1]);
        }
      }
      ReadManyWritten(s, pos + 1, xs[1..], get);
      assert [xs[0]] + xs[1..] == xs;
    }
  }

  /** A list written as its length and its parts, between anything before
      and after, reads back from where it starts. */
  lemma ReadListWritten<X>(pre: seq<Part>, xs: seq<X>, parts: seq<Part>, post: seq<Part>, get: Part -> Option<X>)
    requires |parts| == |xs| && forall k :: 0 <= k < |xs| ==> get(parts[k]) == Some(xs[k])
    ensures ReadList(pre + [LenPart(|xs|)] + parts + post, |pre|, get) == Ok((xs, |pre| + 1 + |xs|))
  {
    var s := pre + [LenPart(|xs|)] + parts + post;
    assert s[|pre|] == LenPart(|xs|);
    forall k | 0 <= k < |xs|
      ensures get(s[|pre| + 1 + k]) == Some(xs[k])
    {
      assert s[|pre| + 1 + k] == parts[k];
    }
    ReadManyWritten(s, |pre| + 1, xs, get);
  }

  /** The three lists, written after the vocabulary, read back. */
  lemma ReadAllWritten(lm: TrieCountLm, pa: seq<Part>, pr: seq<Part>, pc: seq<Part>, rest: seq<Part>)
    requires |pa| == |lm.arrays| && forall k :: 0 <= k < |pa| ==> GetArray(pa[k]) == Some(lm.arrays[k])
    requires |pr| == |lm.countRanks| && forall k :: 0 <= k < |pr| ==> GetRanks(pr[k]) == Some(lm.countRanks[k])
    requires |pc| == |lm.counts| && forall k :: 0 <= k < |pc| ==> GetCounts(pc[k]) == Some(lm.counts[k])
    ensures var s := [VocabPart(lm.vocab)] + [LenPart(|lm.arrays|)] + pa + [LenPart(|lm.countRanks|)] + pr + [LenPart(|lm.counts|)] + pc + rest;
      DeserializeOf(s) == Ok((lm, 4 + |pa| + |pr| + |pc|))
  {
    var v := [VocabPart(lm.vocab)];
    var la := [LenPart(|lm.arrays|)];
    var lr := [LenPart(|lm.countRanks|)];
    var lc := [LenPart(|lm.counts|)];
    var s := v + la + pa + lr + pr + lc + pc + rest;
    var p1 := v + la + pa;
    var p2 := p1 + lr + pr;
    Regroup(p1, lr, pr, lc, pc, rest);
    ReadListWritten(v, lm.arrays, pa, lr + pr + lc + pc + rest, GetArray);
    AppendAssoc(p2, lc, pc, rest);
    ReadListWritten(p1, lm.countRanks, pr, lc + pc + rest, GetRanks);
    ReadListWritten(p2, lm.counts, pc, rest, GetCounts);
    assert s[0] == VocabPart(lm.vocab);
  }

  /** Round trip: reading what `serialize_into` wrote, with anything after
      it, gives back the same index and stops at the end of it. */
  lemma DeserializeSerialized(lm: TrieCountLm, rest: seq<Part>)
    ensures DeserializeOf(Layout(lm) + rest) == Ok((lm, |Layout(lm)|))
  {
    ReadAllWritten(lm, ArrayParts(lm.arrays), RankParts(lm.countRanks), CountParts(lm.counts), rest);
  }

  /** The layout alone reads back. */
  lemma DeserializeLayout(lm: TrieCountLm)
    ensures DeserializeOf(Layout(lm)) == Ok((lm, |Layout(lm)|))
  {
    DeserializeSerialized(lm, []);
    assert Layout(lm) + [] == Layout(lm);
  }

  /** A deserialised copy reports the same numbers of orders and grams. */
  lemma DeserializedShape(lm: TrieCountLm)
    ensures DeserializeOf(Layout(lm)).Ok?
    ensures NumOrders(DeserializeOf(Layout(lm)).value.0) == NumOrders(lm)
    ensures NumGrams(DeserializeOf(Layout(lm)).value.0) == NumGrams(lm)
  {
    DeserializeLayout(lm);
  }

  /** Reading only looks at the parts it consumes: what reads from a prefix
      reads the same from the whole. */
  lemma {:induction false} ReadManyPrefix<X>(s: seq<Part>, k: nat, pos: nat, n: nat, get: Part -> Option<X>)
    requires pos <= k <= |s|
    requires ReadMany(s[..k], pos, n, get).Ok?
    ensures ReadMany(s[..k], pos, n, get).value.1 <= k
    ensures ReadMany(s, pos, n, get) == ReadMany(s[..k], pos, n, get)
    decreases n
  {
    if n > 0 {
      assert s[..k][pos] == s[pos];
      ReadManyPrefix(s, k, pos + 1, n - 1, get);
    }
  }

  lemma ReadOnePrefix<X>(s: seq<Part>, k: nat, pos: nat, get: Part -> Option<X>)
    requires k <= |s|
    requires ReadOne(s[..k], pos, get).Ok?
    ensures ReadOne(s[..k], pos, get).value.1 <= k
    ensures ReadOne(s, pos, get) == ReadOne(s[..k], pos, get)
  {
    assert s[..k][pos] == s[pos];
  }

  lemma ReadListPrefix<X>(s: seq<Part>, k: nat, pos: nat, get: Part -> Option<X>)
    requires pos <= k <= |s|
    requires ReadList(s[..k], pos, get).Ok?
    ensures ReadList(s[..k], pos, get).value.1 <= k
    ensures ReadList(s, pos, get) == ReadList(s[..k], pos, get)
  {
    ReadOnePrefix(s, k, pos, GetLen);
    var (n, next) := ReadOne(s[..k], pos, GetLen).value;
    ReadManyPrefix(s, k, next, n, get);
  }

  /** A cut-off serialisation does not read back: every proper prefix of a
      layout fails. */
  lemma TruncatedFails(lm: TrieCountLm, k: nat)
    requires k < |Layout(lm)|
    ensures DeserializeOf(Layout(lm)[..k]).Err?
  {
    var s := Layout(lm);
    var t := s[..k];
    if DeserializeOf(t).Ok? {
      ReadOnePrefix(s, k, 0, GetVocab);
      var p1 := ReadOne(t, 0, GetVocab).value.1;
      ReadListPrefix(s, k, p1, GetArray);
      var p2 := ReadList(t, p1, GetArray).value.1;
      ReadListPrefix(s, k, p2, GetRanks);
      var p3 := ReadList(t, p2, GetRanks).value.1;
      ReadListPrefix(s, k, p3, GetCounts);
      DeserializeLayout(lm);
    }
  }
}
