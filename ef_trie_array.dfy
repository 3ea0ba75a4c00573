/** `EliasFanoTrieArray`: one trie level whose token ids and pointers are
    Elias-Fano sequences. Token ids are only sorted within each range, so
    before encoding, every range is shifted up by the last (shifted) token
    id of the ranges before it; this makes the whole sequence
    non-decreasing. Reading a token id subtracts the shift again. */
module EliasFanoTrieArray {
  import opened Common
  import opened EliasFano
  import SimpleTrieArray

  datatype EliasFanoTrieArray = EliasFanoTrieArray(tokenIds: EliasFano, pointers: EliasFano)

  /** What `build_token_sequence` demands of its pointers: there is a last
      one and it equals the number of token ids, and they never decrease. */
  predicate PointersFit(t: seq<nat>, p: seq<nat>) {
    |p| > 0 && p[|p| - 1] == |t| && NonDecreasing(p)
  }

  /** Pointers as the trie builders produce them: they also start at 0. */
  predicate Pointers(t: seq<nat>, p: seq<nat>) {
    PointersFit(t, p) && p[0] == 0
  }

  /** The inner loop: `u[b..e]` each increased by `s`. */
  function AddRange(u: seq<nat>, b: nat, e: nat, s: nat): (r: seq<nat>)
    ensures |r| == |u|
    ensures forall x :: 0 <= x < |u| ==> r[x] == if b <= x < e then u[x] + s else u[x]
  {
    seq(|u|, x requires 0 <= x < |u| => if b <= x < e then u[x] + s else u[x])
  }

  /** The inner loop of `build_token_sequence`: adds `s` to `tokenIds[b..e]`. */
  method AddToRange(tokenIds: array<nat>, b: nat, e: nat, s: nat)
    requires b <= e <= tokenIds.Length
    modifies tokenIds
    ensures tokenIds[..] == AddRange(old(tokenIds[..]), b, e, s)
  {
    for j := b to e
      invariant forall x :: 0 <= x < tokenIds.Length ==> tokenIds[x] == if b <= x < j then old(tokenIds[x]) + s else old(tokenIds[x])
    {
      tokenIds[j] := tokenIds[j] + s;
    }
  }

  /** The token ids after the outer loop has shifted the first `k` ranges,
      together with `sampled_id` at that point. */
  function Shifted(t: seq<nat>, p: seq<nat>, k: nat): (r: (seq<nat>, nat))
    requires PointersFit(t, p) && k < |p|
    ensures |r.0| == |t|
  {
    if k == 0 then (t, 0)
    else
      var (u, s) := Shifted(t, p, k - 1);
      var u' := AddRange(u, p[k - 1], p[k], s);
      assert p[k] <= p[|p| - 1];
      (u', if p[k] != 0 then u'[p[k] - 1] else s)
  }

  /** The token ids as encoded: every range shifted. */
  function Encoded(t: seq<nat>, p: seq<nat>): (r: seq<nat>)
    requires PointersFit(t, p)
    ensures |r| == |t|
  {
    Shifted(t, p, |p| - 1).0
  }

  /** `build_token_sequence`: shifts the ranges of `tokenIds` in place, then
      encodes them with universe `sampled_id + 1`; the `unwrap` of the
      encoder panics when the shifted ids are out of order. */
  method BuildTokenSequence(tokenIds: array<nat>, pointers: seq<nat>) returns (r: Outcome<EliasFano>)
    requires PointersFit(tokenIds[..], pointers)
    modifies tokenIds
    ensures tokenIds[..] == Encoded(old(tokenIds[..]), pointers)
    ensures r == EncodeTokens(old(tokenIds[..]), pointers)
  {
    ghost var t := tokenIds[..];
    var sampledId := 0;
    for i := 0 to |pointers| - 1
      invariant tokenIds.Length == |t|
      invariant (tokenIds[..], sampledId) == Shifted(t, pointers, i)
    {
      var (b, e) := (pointers[i], pointers[i + 1]);
      assert e <= pointers[|pointers| - 1];
      AddToRange(tokenIds, b, e, sampledId);
      if e != 0 {
        sampledId := tokenIds[e - 1];
      }
    }
    var ef := FromValues(sampledId + 1, tokenIds[..]);
    r := if ef.Some? then Returned(ef.value) else Panicked;
  }

  /** What `build_token_sequence` returns for token ids `t`. */
  function EncodeTokens(t: seq<nat>, p: seq<nat>): Outcome<EliasFano>
    requires PointersFit(t, p)
  {
    match FromValues(Shifted(t, p, |p| - 1).1 + 1, Encoded(t, p))
    case None => Panicked
    case Some(ef) => Returned(ef)
  }

  /** `build_pointers`: the pointers with universe `last + 1`. */
  function EncodePointers(p: seq<nat>): (r: EliasFano)
    requires |p| > 0 && NonDecreasing(p)
    ensures r.values == p && Valid(r)
  {
    assert forall i :: 0 <= i < |p| ==> p[i] <= p[|p| - 1];
    FromValues(p[|p| - 1] + 1, p).value
  }

  /** `build`: the empty level is the default one; otherwise both
      sequences are encoded. */
  function Build(t: seq<nat>, p: seq<nat>): Outcome<EliasFanoTrieArray>
    requires t == [] || PointersFit(t, p)
  {
    if t == [] then Returned(EliasFanoTrieArray(Default, Default))
    else match EncodeTokens(t, p)
      case Panicked => Panicked
      case Returned(ef) => Returned(EliasFanoTrieArray(ef, EncodePointers(p)))
  }

  /** What a built array holds: pointers from 0 to the number of token ids,
      and token ids in order. */
  predicate Wellformed(a: EliasFanoTrieArray) {
    var (f, p) := (a.tokenIds.values, a.pointers.values);
    |p| > 0 && p[0] == 0 && NonDecreasing(p) && p[|p| - 1] == |f| && NonDecreasing(f)
  }

  /** Every index below the last pointer lies in exactly one range, found
      from range `k` on. */
  function RangeFrom(p: seq<nat>, i: nat, k: nat): (r: nat)
    requires k < |p| - 1 && p[k] <= i < p[|p| - 1]
    ensures k <= r < |p| - 1 && p[r] <= i < p[r + 1]
    decreases |p| - k
  {
    if i < p[k + 1] then k else RangeFrom(p, i, k + 1)
  }

  /** `rank(i + 1) - 1` names the range that holds index `i`. */
  lemma RankLocates(p: seq<nat>, i: nat)
    requires |p| > 0 && p[0] == 0 && NonDecreasing(p) && i < p[|p| - 1]
    ensures 1 <= CountBelow(p, i + 1) < |p|
    ensures p[CountBelow(p, i + 1) - 1] <= i < p[CountBelow(p, i + 1)]
  {
    var k := RangeFrom(p, i, 0);
    CountBelowSplit(p, i + 1, k + 1);
  }

  function Range(a: EliasFanoTrieArray, pos: nat): (nat, nat)
    requires pos + 1 < Len(a.pointers)
  {
    (Select(a.pointers, pos), Select(a.pointers, pos + 1))
  }

  /** The shift of range `pos`: the encoded id just before it, or 0. */
  function Base(a: EliasFanoTrieArray, pos: nat): (r: nat)
    requires Wellformed(a) && pos + 1 < Len(a.pointers)
    ensures Range(a, pos).0 > 0 ==> r == a.tokenIds.values[Range(a, pos).0 - 1]
    ensures forall i :: Range(a, pos).0 <= i < Len(a.tokenIds) ==> r <= a.tokenIds.values[i]
  {
    var (b, _) := Range(a, pos);
    assert b <= a.pointers.values[|a.pointers.values| - 1];
    if b == 0 then 0 else Select(a.tokenIds, b - 1)
  }

  /** `token_id(i)`. */
  function TokenId(a: EliasFanoTrieArray, i: nat): nat
    requires Wellformed(a) && i < Len(a.tokenIds)
  {
    RankLocates(a.pointers.values, i);
    var pos := Rank(a.pointers, i + 1) - 1;
    Unshifted(a, pos, i)
  }

  function NumTokens(a: EliasFanoTrieArray): nat {
    Len(a.tokenIds)
  }

  function NumPointers(a: EliasFanoTrieArray): nat {
    Len(a.pointers)
  }

  /** The id at index `i` of range `pos` with the shift taken off. */
  function Unshifted(a: EliasFanoTrieArray, pos: nat, i: nat): nat
    requires Wellformed(a) && pos + 1 < Len(a.pointers) && Range(a, pos).0 <= i < Len(a.tokenIds)
  {
    Select(a.tokenIds, i) - Base(a, pos)
  }

  /** Each of `s` less `d`. */
  function Less(s: seq<nat>, d: nat): (r: seq<nat>)
    requires forall i :: 0 <= i < |s| ==> d <= s[i]
    ensures |r| == |s|
  {
    if s == [] then [] else [s[0] - d] + Less(s[1..], d)
  }

  lemma {:induction false} LessAt(s: seq<nat>, d: nat, j: nat)
    requires (forall i :: 0 <= i < |s| ==> d <= s[i]) && j < |s|
    ensures Less(s, d)[j] == s[j] - d
  {
    if j > 0 {
      LessAt(s[1..], d, j - 1);
    }
  }

  /** The ids of range `pos` with its shift taken off. */
  function Relative(a: EliasFanoTrieArray, pos: nat): (r: seq<nat>)
    requires Wellformed(a) && pos + 1 < Len(a.pointers)
    ensures |r| == Range(a, pos).1 - Range(a, pos).0
    ensures forall j :: 0 <= j < |r| ==> r[j] == Unshifted(a, pos, Range(a, pos).0 + j)
  {
    var (b, e) := Range(a, pos);
    assert b <= e <= a.pointers.values[|a.pointers.values| - 1];
    var r := Less(a.tokenIds.values[b..e], Base(a, pos));
    forall j | 0 <= j < |r| ensures r[j] == Unshifted(a, pos, b + j) {
      LessAt(a.tokenIds.values[b..e], Base(a, pos), j);
    }
    r
  }

  /** The scan of `find_token` from index `k` on: the first id that is not
      below `id`, if it equals `id`. */
  function ScanFrom(ids: seq<nat>, k: nat, id: nat): (r: Option<nat>)
    ensures r.Some? ==> k <= r.value < |ids| && ids[r.value] == id
    ensures r.Some? ==> forall j :: k <= j < r.value ==> ids[j] < id
    decreases |ids| - k
  {
    if k >= |ids| then None
    else if ids[k] == id then Some(k)
    else if ids[k] > id then None
    else ScanFrom(ids, k + 1, id)
  }

  /** What `find_token(pos, id)` answers. */
  function FindTokenOf(a: EliasFanoTrieArray, pos: nat, id: nat): Option<nat>
    requires Wellformed(a) && pos + 1 < Len(a.pointers)
  {
    OptionPlus(ScanFrom(Relative(a, pos), 0, id), Range(a, pos).0)
  }

  /** The loop of `find_token`: walks `f[b..e]` less `base`, stopping at
      `id` or at the first larger id. */
  method ScanRange(f: seq<nat>, b: nat, e: nat, base: nat, id: nat) returns (r: Option<nat>)
    requires b <= e <= |f| && forall i :: b <= i < e ==> base <= f[i]
    ensures r == OptionPlus(ScanFrom(Less(f[b..e], base), 0, id), b)
  {
    ghost var rel := Less(f[b..e], base);
    assert |rel| == e - b;
    for i := b to e
      invariant ScanFrom(rel, 0, id) == ScanFrom(rel, i - b, id)
    {
      var tokenId := f[i] - base;
      LessAt(f[b..e], base, i - b);
      if tokenId == id {
        return Some(i);
      } else if tokenId > id {
        return None;
      }
    }
    return None;
  }

  /** `find_token(pos, id)`. */
  method FindToken(a: EliasFanoTrieArray, pos: nat, id: nat) returns (r: Option<nat>)
    requires Wellformed(a) && pos + 1 < Len(a.pointers)
    ensures r == FindTokenOf(a, pos, id)
  {
    var (b, e) := Range(a, pos);
    var base := Base(a, pos);
    assert b <= e <= a.pointers.values[|a.pointers.values| - 1];
    r := ScanRange(a.tokenIds.values, b, e, base, id);
  }

  /** Ranges not yet shifted still hold the original ids. */
  lemma {:induction false} Untouched(t: seq<nat>, p: seq<nat>, k: nat)
    requires PointersFit(t, p) && k < |p|
    ensures forall x :: p[k] <= x < |t| ==> Shifted(t, p, k).0[x] == t[x]
  {
    if k > 0 {
      Untouched(t, p, k - 1);
    }
  }

  /** Once range `k` is reached, the ids before it no longer change. */
  lemma {:induction false} Settled(t: seq<nat>, p: seq<nat>, k: nat, m: nat)
    requires PointersFit(t, p) && k <= m < |p|
    ensures forall x :: 0 <= x < p[k] ==> Shifted(t, p, m).0[x] == Shifted(t, p, k).0[x]
  {
    if k < m {
      Settled(t, p, k, m - 1);
      assert p[k] <= p[|p| - 1];
    }
  }

  /** `sampled_id` before range `k` is the last id before that range. */
  lemma {:induction false} SampledIs(t: seq<nat>, p: seq<nat>, k: nat)
    requires Pointers(t, p) && k < |p|
    ensures p[k] <= |t|
    ensures Shifted(t, p, k).1 == if p[k] == 0 then 0 else Shifted(t, p, k).0[p[k] - 1]
  {
    assert p[k] <= p[|p| - 1];
    if k > 0 && p[k] == 0 {
      SampledIs(t, p, k - 1);
    }
  }

  /** Each encoded id is the original id plus the encoded id just before its
      range. */
  lemma InRange(t: seq<nat>, p: seq<nat>, k: nat, x: nat)
    requires Pointers(t, p) && k < |p| - 1 && p[k] <= x < p[k + 1]
    ensures x < |t|
    ensures Encoded(t, p)[x] == t[x] + (if p[k] == 0 then 0 else Encoded(t, p)[p[k] - 1])
  {
    assert p[k + 1] <= p[|p| - 1];
    Settled(t, p, k + 1, |p| - 1);
    Untouched(t, p, k);
    SampledIs(t, p, k);
    Settled(t, p, k, |p| - 1);
  }

  /** Range `k` of `t`. */
  function Slice(t: seq<nat>, p: seq<nat>, k: nat): seq<nat>
    requires PointersFit(t, p) && k < |p| - 1
  {
    assert p[k + 1] <= p[|p| - 1];
    t[p[k]..p[k + 1]]
  }

  /** Every range of `t` is sorted. */
  predicate RangesSorted(t: seq<nat>, p: seq<nat>)
    requires PointersFit(t, p)
  {
    forall k :: 0 <= k < |p| - 1 ==> NonDecreasing(Slice(t, p, k))
  }

  lemma {:induction false} AdjacentChain(s: seq<nat>, i: nat, j: nat)
    requires forall x :: 0 <= x < |s| - 1 ==> s[x] <= s[x + 1]
    requires i <= j < |s|
    ensures s[i] <= s[j]
    decreases j - i
  {
    if i < j {
      AdjacentChain(s, i + 1, j);
    }
  }

  lemma AdjacentSorted(s: seq<nat>)
    requires forall x :: 0 <= x < |s| - 1 ==> s[x] <= s[x + 1]
    ensures NonDecreasing(s)
  {
    forall i, j | 0 <= i <= j < |s| ensures s[i] <= s[j] {
      AdjacentChain(s, i, j);
    }
  }

  /** Sorted encoded ids come from sorted ranges. */
  lemma SortedRanges(t: seq<nat>, p: seq<nat>)
    requires Pointers(t, p) && NonDecreasing(Encoded(t, p))
    ensures RangesSorted(t, p)
  {
    forall k | 0 <= k < |p| - 1 ensures NonDecreasing(Slice(t, p, k)) {
      var r := Slice(t, p, k);
      forall x, y | 0 <= x <= y < |r| ensures r[x] <= r[y] {
        InRange(t, p, k, p[k] + x);
        InRange(t, p, k, p[k] + y);
      }
    }
  }

  /** Neighbouring encoded ids are in order when the ranges are sorted. */
  lemma EncodedStep(t: seq<nat>, p: seq<nat>, x: nat)
    requires Pointers(t, p) && RangesSorted(t, p) && x + 1 < |t|
    ensures Encoded(t, p)[x] <= Encoded(t, p)[x + 1]
  {
    var k := RangeFrom(p, x + 1, 0);
    InRange(t, p, k, x + 1);
    if p[k] <= x {
      InRange(t, p, k, x);
      var r := Slice(t, p, k);
      assert r[x - p[k]] <= r[x + 1 - p[k]];
    }
  }

  /** The encoded ids are in order exactly when every range is. */
  lemma EncodedSorted(t: seq<nat>, p: seq<nat>)
    requires Pointers(t, p)
    ensures NonDecreasing(Encoded(t, p)) <==> RangesSorted(t, p)
  {
    if NonDecreasing(Encoded(t, p)) {
      SortedRanges(t, p);
    }
    if RangesSorted(t, p) {
      forall x | 0 <= x < |t| - 1 ensures Encoded(t, p)[x] <= Encoded(t, p)[x + 1] {
        EncodedStep(t, p, x);
      }
      AdjacentSorted(Encoded(t, p));
    }
  }

  /** Pointers from 0 to the number of ids build an array exactly when every
      range is sorted; the array then holds the encoded ids and the
      pointers, and is well formed. */
  lemma BuildSucceeds(t: seq<nat>, p: seq<nat>)
    requires t != [] && Pointers(t, p)
    ensures Build(t, p).Returned? <==> RangesSorted(t, p)
    ensures Build(t, p).Returned? ==> Build(t, p).value.tokenIds.values == Encoded(t, p)
    ensures Build(t, p).Returned? ==> Build(t, p).value.pointers.values == p
    ensures Build(t, p).Returned? ==> Wellformed(Build(t, p).value)
  {
    EncodedSorted(t, p);
    var f := Encoded(t, p);
    if NonDecreasing(f) {
      SampledIs(t, p, |p| - 1);
      assert forall x :: 0 <= x < |f| ==> f[x] <= f[|f| - 1];
    }
  }

  /** `token_id` undoes the shift: a built array gives back each original id. */
  lemma TokenIdBuild(t: seq<nat>, p: seq<nat>, i: nat)
    requires t != [] && Pointers(t, p) && Build(t, p).Returned? && i < |t|
    ensures Wellformed(Build(t, p).value) && i < NumTokens(Build(t, p).value)
    ensures TokenId(Build(t, p).value, i) == t[i]
  {
    BuildSucceeds(t, p);
    var a := Build(t, p).value;
    RankLocates(p, i);
    var pos := CountBelow(p, i + 1) - 1;
    InRange(t, p, pos, i);
  }

  /** Within a built array, each range read without its shift is that range
      of the original ids. */
  lemma RelativeBuild(t: seq<nat>, p: seq<nat>, pos: nat)
    requires t != [] && Pointers(t, p) && Build(t, p).Returned? && pos < |p| - 1
    ensures Wellformed(Build(t, p).value)
    ensures Range(Build(t, p).value, pos) == (p[pos], p[pos + 1])
    ensures p[pos] <= p[pos + 1] <= |t|
    ensures Relative(Build(t, p).value, pos) == Slice(t, p, pos)
  {
    BuildSucceeds(t, p);
    var a := Build(t, p).value;
    var rel := Relative(a, pos);
    assert p[pos + 1] <= p[|p| - 1];
    var r := Slice(t, p, pos);
    forall j | 0 <= j < |rel| ensures rel[j] == r[j] {
      InRange(t, p, pos, p[pos] + j);
    }
  }

  /** On sorted ids the scan from `k` finds nothing exactly when `id` does
      not occur from `k` on. */
  lemma {:induction false} ScanFromSorted(ids: seq<nat>, k: nat, id: nat)
    requires NonDecreasing(ids) && k <= |ids|
    ensures ScanFrom(ids, k, id).None? <==> id !in ids[k..]
    decreases |ids| - k
  {
    if k < |ids| && ids[k] != id {
      if ids[k] > id {
        assert forall j :: k <= j < |ids| ==> ids[j] >= ids[k];
      } else {
        ScanFromSorted(ids, k + 1, id);
        assert ids[k..] == [ids[k]] + ids[k + 1..];
      }
    }
  }

  /** On sorted ids the scan finds the first occurrence, like `position`. */
  lemma ScanSorted(ids: seq<nat>, id: nat)
    requires NonDecreasing(ids)
    ensures ScanFrom(ids, 0, id) == Position(ids, id)
  {
    ScanFromSorted(ids, 0, id);
    assert ids[0..] == ids;
    PositionFirst(ids, id);
    if ScanFrom(ids, 0, id).Some? {
      var y := Position(ids, id).value;
      assert forall j :: 0 <= j < y ==> ids[j] != id by {
        assert forall j :: 0 <= j < y ==> ids[..y][j] == ids[j];
      }
    }
  }

  /** A built array finds a token exactly where the plain array does. */
  lemma FindTokenBuild(t: seq<nat>, p: seq<nat>, pos: nat, id: nat)
    requires t != [] && Pointers(t, p) && Build(t, p).Returned? && pos < |p| - 1
    ensures Wellformed(Build(t, p).value) && pos + 1 < Len(Build(t, p).value.pointers)
    ensures SimpleTrieArray.RangeInBounds(SimpleTrieArray.Build(t, p), pos)
    ensures FindTokenOf(Build(t, p).value, pos, id) == SimpleTrieArray.FindToken(SimpleTrieArray.Build(t, p), pos, id)
  {
    RelativeBuild(t, p, pos);
    BuildSucceeds(t, p);
    var a := Build(t, p).value;
    var slice := Slice(t, p, pos);
    assert NonDecreasing(slice);
    ScanSorted(slice, id);
    assert FindTokenOf(a, pos, id) == OptionPlus(ScanFrom(slice, 0, id), p[pos]);
  }

  /** Ranges and sizes of a built array; the empty level has no pointers. */
  lemma BuildShape(t: seq<nat>, p: seq<nat>)
    requires t == [] || PointersFit(t, p)
    requires Build(t, p).Returned?
    ensures NumTokens(Build(t, p).value) == |t|
    ensures NumPointers(Build(t, p).value) == if t == [] then 0 else |p|
    ensures forall pos :: 0 <= pos < NumPointers(Build(t, p).value) - 1 ==> Range(Build(t, p).value, pos) == (p[pos], p[pos + 1])
  {
  }
}
