/** `TrieArray`: a trie level is either a `SimpleTrieArray` or an
    `EliasFanoTrieArray`. The trait's promise: built from token ids and
    pointers, a level reads back each token id and each range, and finds a
    token id inside a range. */
module TrieArray {
  import opened Common
  import S = SimpleTrieArray
  import E = EliasFanoTrieArray

  /** Which implementation a model is built with. */
  datatype Kind = SimpleKind | EliasFanoKind

  datatype TrieArray = Simple(s: S.SimpleTrieArray) | EliasFano(e: E.EliasFanoTrieArray)

  /** What `build` needs of its input for the chosen implementation. */
  predicate Buildable(kind: Kind, t: seq<nat>, p: seq<nat>) {
    kind == EliasFanoKind ==> t == [] || E.PointersFit(t, p)
  }

  /** `T::build(token_ids, pointers)`. */
  function Build(kind: Kind, t: seq<nat>, p: seq<nat>): Outcome<TrieArray>
    requires Buildable(kind, t, p)
  {
    match kind
    case SimpleKind => Returned(Simple(S.Build(t, p)))
    case EliasFanoKind =>
      match E.Build(t, p)
      case Panicked => Panicked
      case Returned(e) => Returned(EliasFano(e))
  }

  predicate TokenIdReady(ta: TrieArray, i: nat) {
    match ta
    case Simple(s) => i < |s.tokenIds|
    case EliasFano(e) => E.Wellformed(e) && i < E.NumTokens(e)
  }

  function TokenId(ta: TrieArray, i: nat): nat
    requires TokenIdReady(ta, i)
  {
    match ta
    case Simple(s) => S.TokenId(s, i)
    case EliasFano(e) => E.TokenId(e, i)
  }

  predicate RangeReady(ta: TrieArray, pos: nat) {
    match ta
    case Simple(s) => pos + 1 < |s.pointers|
    case EliasFano(e) => pos + 1 < E.NumPointers(e)
  }

  function Range(ta: TrieArray, pos: nat): (nat, nat)
    requires RangeReady(ta, pos)
  {
    match ta
    case Simple(s) => S.Range(s, pos)
    case EliasFano(e) => E.Range(e, pos)
  }

  predicate FindReady(ta: TrieArray, pos: nat) {
    match ta
    case Simple(s) => S.RangeInBounds(s, pos)
    case EliasFano(e) => E.Wellformed(e) && pos + 1 < E.NumPointers(e)
  }

  /** What `find_token(pos, id)` answers. */
  function FindTokenOf(ta: TrieArray, pos: nat, id: nat): Option<nat>
    requires FindReady(ta, pos)
  {
    match ta
    case Simple(s) => S.FindToken(s, pos, id)
    case EliasFano(e) => E.FindTokenOf(e, pos, id)
  }

  /** `find_token(pos, id)`. */
  method FindToken(ta: TrieArray, pos: nat, id: nat) returns (r: Option<nat>)
    requires FindReady(ta, pos)
    ensures r == FindTokenOf(ta, pos, id)
  {
    if ta.Simple? {
      r := S.FindToken(ta.s, pos, id);
    } else {
      r := E.FindToken(ta.e, pos, id);
    }
  }

  function NumTokens(ta: TrieArray): nat {
    match ta
    case Simple(s) => S.NumTokens(s)
    case EliasFano(e) => E.NumTokens(e)
  }

  function NumPointers(ta: TrieArray): nat {
    match ta
    case Simple(s) => S.NumPointers(s)
    case EliasFano(e) => E.NumPointers(e)
  }

  /** Token ids and pointers as the trie builders lay them out: pointers
      from 0 to the number of ids, never decreasing, and every range of ids
      sorted. */
  predicate Layout(t: seq<nat>, p: seq<nat>) {
    t != [] && E.Pointers(t, p) && E.RangesSorted(t, p)
  }

  lemma RangesInBounds(t: seq<nat>, p: seq<nat>, pos: nat)
    requires E.PointersFit(t, p) && pos < |p| - 1
    ensures p[pos] <= p[pos + 1] <= |t| && S.RangeInBounds(S.Build(t, p), pos)
  {
    assert p[pos + 1] <= p[|p| - 1];
  }

  /** Both implementations read back every token id of such a layout. */
  lemma TokenIdAgrees(kind: Kind, t: seq<nat>, p: seq<nat>, i: nat)
    requires Layout(t, p) && i < |t|
    ensures Buildable(kind, t, p) && Build(kind, t, p).Returned? && TokenIdReady(Build(kind, t, p).value, i)
    ensures TokenId(Build(kind, t, p).value, i) == t[i]
  {
    if kind == EliasFanoKind {
      E.BuildSucceeds(t, p);
      E.TokenIdBuild(t, p, i);
    }
  }

  /** Both implementations read back every range. */
  lemma RangeAgrees(kind: Kind, t: seq<nat>, p: seq<nat>, pos: nat)
    requires Layout(t, p) && pos < |p| - 1
    ensures Buildable(kind, t, p) && Build(kind, t, p).Returned? && RangeReady(Build(kind, t, p).value, pos)
    ensures Range(Build(kind, t, p).value, pos) == (p[pos], p[pos + 1])
  {
    if kind == EliasFanoKind {
      E.BuildSucceeds(t, p);
      E.BuildShape(t, p);
    }
  }

  /** Both implementations find a token where the plain array does. */
  lemma FindAgrees(kind: Kind, t: seq<nat>, p: seq<nat>, pos: nat, id: nat)
    requires Layout(t, p) && pos < |p| - 1
    ensures Buildable(kind, t, p) && Build(kind, t, p).Returned? && FindReady(Build(kind, t, p).value, pos)
    ensures S.RangeInBounds(S.Build(t, p), pos)
    ensures FindTokenOf(Build(kind, t, p).value, pos, id) == S.FindToken(S.Build(t, p), pos, id)
  {
    RangesInBounds(t, p, pos);
    if kind == EliasFanoKind {
      E.BuildSucceeds(t, p);
      E.FindTokenBuild(t, p, pos, id);
    }
  }

  /** The loops of both unit tests: every token id and every range comes
      back from either implementation. */
  lemma ReadsBack(kind: Kind, t: seq<nat>, p: seq<nat>)
    requires Layout(t, p)
    ensures Buildable(kind, t, p) && Build(kind, t, p).Returned?
    ensures forall i :: 0 <= i < |t| ==> TokenIdReady(Build(kind, t, p).value, i) && TokenId(Build(kind, t, p).value, i) == t[i]
    ensures forall pos :: 0 <= pos < |p| - 1 ==> RangeReady(Build(kind, t, p).value, pos) && Range(Build(kind, t, p).value, pos) == (p[pos], p[pos + 1])
  {
    BuildSizes(kind, t, p);
    forall i | 0 <= i < |t|
      ensures TokenIdReady(Build(kind, t, p).value, i) && TokenId(Build(kind, t, p).value, i) == t[i]
    {
      TokenIdAgrees(kind, t, p, i);
    }
    forall pos | 0 <= pos < |p| - 1
      ensures RangeReady(Build(kind, t, p).value, pos) && Range(Build(kind, t, p).value, pos) == (p[pos], p[pos + 1])
    {
      RangeAgrees(kind, t, p, pos);
    }
  }

  /** `find_token` on a built level answers the first index of `id` in the
      range, and `None` exactly when the range has no `id`. */
  lemma FindTokenMeaning(kind: Kind, t: seq<nat>, p: seq<nat>, pos: nat, id: nat)
    requires Layout(t, p) && pos < |p| - 1
    ensures Buildable(kind, t, p) && Build(kind, t, p).Returned? && FindReady(Build(kind, t, p).value, pos)
    ensures p[pos] <= p[pos + 1] <= |t|
    ensures var r := FindTokenOf(Build(kind, t, p).value, pos, id);
      && (r.Some? ==> p[pos] <= r.value < p[pos + 1] && t[r.value] == id && id !in t[p[pos]..r.value])
      && (r.None? <==> id !in t[p[pos]..p[pos + 1]])
  {
    FindAgrees(kind, t, p, pos, id);
  }

  /** A built level has as many token ids and pointers as it was given. */
  lemma BuildSizes(kind: Kind, t: seq<nat>, p: seq<nat>)
    requires Layout(t, p)
    ensures Buildable(kind, t, p) && Build(kind, t, p).Returned?
    ensures NumTokens(Build(kind, t, p).value) == |t| && NumPointers(Build(kind, t, p).value) == |p|
  {
    if kind == EliasFanoKind {
      E.BuildSucceeds(t, p);
      E.BuildShape(t, p);
    }
  }

  const BASIC1_TOKENS: seq<nat> := [0, 2, 1, 2, 3, 0, 3, 1, 3]
  const BASIC1_PTRS: seq<nat> := [0, 2, 5, 7, 9]
  const BASIC2_TOKENS: seq<nat> := [2, 2, 3, 3, 1, 2, 3]
  const BASIC2_PTRS: seq<nat> := [0, 1, 1, 3, 4, 4, 4, 4, 6, 7]

  lemma Basic1Layout()
    ensures Layout(BASIC1_TOKENS, BASIC1_PTRS)
  {
    var t, p := BASIC1_TOKENS, BASIC1_PTRS;
    assert E.Slice(t, p, 0) == [0, 2];
    assert E.Slice(t, p, 1) == [1, 2, 3];
    assert E.Slice(t, p, 2) == [0, 3];
    assert E.Slice(t, p, 3) == [1, 3];
  }

  lemma Basic2Layout()
    ensures Layout(BASIC2_TOKENS, BASIC2_PTRS)
  {
    var t, p := BASIC2_TOKENS, BASIC2_PTRS;
    assert E.Slice(t, p, 0) == [2];
    assert E.Slice(t, p, 2) == [2, 3];
    assert E.Slice(t, p, 3) == [3];
    assert E.Slice(t, p, 7) == [1, 2];
    assert E.Slice(t, p, 8) == [3];
    assert forall k :: 0 <= k < |p| - 1 && k !in {0, 2, 3, 7, 8} ==> E.Slice(t, p, k) == [];
  }

  /** The three finds of `test_basic_1` on the plain array. */
  lemma Basic1Finds()
    ensures S.RangeInBounds(S.Build(BASIC1_TOKENS, BASIC1_PTRS), 1)
    ensures S.FindToken(S.Build(BASIC1_TOKENS, BASIC1_PTRS), 1, 3) == Some(4)
    ensures S.FindToken(S.Build(BASIC1_TOKENS, BASIC1_PTRS), 1, 1) == Some(2)
    ensures S.FindToken(S.Build(BASIC1_TOKENS, BASIC1_PTRS), 1, 4) == None
  {
    var t := BASIC1_TOKENS;
    assert t[2..5] == [1, 2, 3];
    assert t[2..4] == [1, 2];
  }

  /** The three finds of `test_basic_2` on the plain array. */
  lemma Basic2Finds()
    ensures S.RangeInBounds(S.Build(BASIC2_TOKENS, BASIC2_PTRS), 2)
    ensures S.FindToken(S.Build(BASIC2_TOKENS, BASIC2_PTRS), 2, 2) == Some(1)
    ensures S.FindToken(S.Build(BASIC2_TOKENS, BASIC2_PTRS), 2, 3) == Some(2)
    ensures S.FindToken(S.Build(BASIC2_TOKENS, BASIC2_PTRS), 2, 4) == None
  {
    var t := BASIC2_TOKENS;
    assert t[1..3] == [2, 3];
    assert t[1..2] == [2];
  }

  /** `test_basic_1`: ids 0, 2 | 1, 2, 3 | 0, 3 | 1, 3. Every token id and
      range reads back. In range 1, token 3
      is at 4, token 1 at 2 and token 4 is absent; there are 9 token ids and
      5 pointers. */
  method Basic1(kind: Kind) returns (find3: Option<nat>, find1: Option<nat>, find4: Option<nat>, numTokens: nat, numPointers: nat)
    ensures Build(kind, BASIC1_TOKENS, BASIC1_PTRS).Returned?
    ensures forall i :: 0 <= i < |BASIC1_TOKENS| ==> TokenIdReady(Build(kind, BASIC1_TOKENS, BASIC1_PTRS).value, i) && TokenId(Build(kind, BASIC1_TOKENS, BASIC1_PTRS).value, i) == BASIC1_TOKENS[i]
    ensures forall pos :: 0 <= pos < |BASIC1_PTRS| - 1 ==> RangeReady(Build(kind, BASIC1_TOKENS, BASIC1_PTRS).value, pos) && Range(Build(kind, BASIC1_TOKENS, BASIC1_PTRS).value, pos) == (BASIC1_PTRS[pos], BASIC1_PTRS[pos + 1])
    ensures find3 == Some(4) && find1 == Some(2) && find4 == None
    ensures numTokens == 9 && numPointers == 5
  {
    var t, p := BASIC1_TOKENS, BASIC1_PTRS;
    Basic1Layout();
    ReadsBack(kind, t, p);
    BuildSizes(kind, t, p);
    FindAgrees(kind, t, p, 1, 3);
    FindAgrees(kind, t, p, 1, 1);
    FindAgrees(kind, t, p, 1, 4);
    Basic1Finds();
    var ta := Build(kind, t, p).value;
    find3 := FindToken(ta, 1, 3);
    find1 := FindToken(ta, 1, 1);
    find4 := FindToken(ta, 1, 4);
    numTokens := NumTokens(ta);
    numPointers := NumPointers(ta);
  }

  /** `test_basic_2`: ids 2 | - | 2, 3 | 3 | - | - | - | 1, 2 | 3. Every
      token id and range reads back. In range 2,
      token 2 is at 1, token 3 at 2 and token 4 is absent; there are 7 token
      ids and 10 pointers. */
  method Basic2(kind: Kind) returns (find2: Option<nat>, find3: Option<nat>, find4: Option<nat>, numTokens: nat, numPointers: nat)
    ensures Build(kind, BASIC2_TOKENS, BASIC2_PTRS).Returned?
    ensures forall i :: 0 <= i < |BASIC2_TOKENS| ==> TokenIdReady(Build(kind, BASIC2_TOKENS, BASIC2_PTRS).value, i) && TokenId(Build(kind, BASIC2_TOKENS, BASIC2_PTRS).value, i) == BASIC2_TOKENS[i]
    ensures forall pos :: 0 <= pos < |BASIC2_PTRS| - 1 ==> RangeReady(Build(kind, BASIC2_TOKENS, BASIC2_PTRS).value, pos) && Range(Build(kind, BASIC2_TOKENS, BASIC2_PTRS).value, pos) == (BASIC2_PTRS[pos], BASIC2_PTRS[pos + 1])
    ensures find2 == Some(1) && find3 == Some(2) && find4 == None
    ensures numTokens == 7 && numPointers == 10
  {
    var t, p := BASIC2_TOKENS, BASIC2_PTRS;
    Basic2Layout();
    ReadsBack(kind, t, p);
    BuildSizes(kind, t, p);
    FindAgrees(kind, t, p, 2, 2);
    FindAgrees(kind, t, p, 2, 3);
    FindAgrees(kind, t, p, 2, 4);
    Basic2Finds();
    var ta := Build(kind, t, p).value;
    find2 := FindToken(ta, 2, 2);
    find3 := FindToken(ta, 2, 3);
    find4 := FindToken(ta, 2, 4);
    numTokens := NumTokens(ta);
    numPointers := NumPointers(ta);
  }
}
