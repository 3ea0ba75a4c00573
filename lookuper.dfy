/** `TrieCountLmLookuper`: looks a query gram up in a count index. The
    mapper turns the query into token ids; the walk starts at the first id
    and finds every later id in the range of the current position, one trie
    level per token; the position it ends at names the gram's count rank,
    and the rank its count. */
module TrieCountLmLookuper {
  import opened Common
  import G = Gram
  import U = Utf8
  import V = Vocabulary
  import T = TrieArray
  import M = Mappers
  import L = TrieCountLm

  /** The `zip` of the remaining ids with the remaining levels: each id is
      looked for in the range of `pos` of its level; the walk ends when
      either runs out. A level that cannot answer for `pos` panics. */
  function WalkOf(arrays: seq<T.TrieArray>, ids: seq<nat>, pos: nat): Outcome<Option<nat>>
    decreases |ids|
  {
    if ids == [] || arrays == [] then Returned(Some(pos))
    else if !T.FindReady(arrays[0], pos) then Panicked
    else match T.FindTokenOf(arrays[0], pos, ids[0])
      case None => Returned(None)
      case Some(next) => WalkOf(arrays[1..], ids[1..], next)
  }

  /** One step of the walk at level `i`. */
  lemma WalkStep(arrays: seq<T.TrieArray>, ids: seq<nat>, i: nat, pos: nat)
    requires i < |arrays| && i < |ids|
    ensures WalkOf(arrays[i..], ids[i..], pos)
            == if !T.FindReady(arrays[i], pos) then Panicked
               else match T.FindTokenOf(arrays[i], pos, ids[i])
                 case None => Returned(None)
                 case Some(next) => WalkOf(arrays[i + 1..], ids[i + 1..], next)
  {
    assert arrays[i..][1..] == arrays[i + 1..] && ids[i..][1..] == ids[i + 1..];
  }

  /** The same step, for the ids after a query's first id. */
  lemma WalkStepAfter(arrays: seq<T.TrieArray>, ids: seq<nat>, i: nat, pos: nat)
    requires i < |arrays| && i + 1 < |ids|
    ensures WalkOf(arrays[i..], ids[i + 1..], pos)
            == if !T.FindReady(arrays[i], pos) then Panicked
               else match T.FindTokenOf(arrays[i], pos, ids[i + 1])
                 case None => Returned(None)
                 case Some(next) => WalkOf(arrays[i + 1..], ids[i + 2..], next)
  {
    WalkStep(arrays, ids[1..], i, pos);
    assert ids[1..][i..] == ids[i + 1..] && ids[1..][i + 1..] == ids[i + 2..] && ids[1..][i] == ids[i + 1];
  }

  /** The walk ends where the levels or the ids run out. */
  lemma WalkEnd(arrays: seq<T.TrieArray>, ids: seq<nat>, i: nat, pos: nat)
    requires i <= |arrays| && i <= |ids| && (i == |arrays| || i == |ids|)
    ensures WalkOf(arrays[i..], ids[i..], pos) == Returned(Some(pos))
  {
    assert arrays[i..] == [] || ids[i..] == [];
  }

  /** What `run` answers once the mapper has given `ids`: the order is one
      less than the number of ids (which underflows for none), the walk
      gives the position, and the position's rank gives the count. An index
      out of bounds panics. */
  function AnswerOf(lm: L.TrieCountLm, ids: seq<nat>): Outcome<Option<nat>> {
    if ids == [] then Panicked
    else
      var order := |ids| - 1;
      match WalkOf(lm.arrays, ids[1..], ids[0])
      case Panicked => Panicked
      case Returned(None) => Returned(None)
      case Returned(Some(pos)) =>
        if order >= |lm.countRanks| || pos >= |lm.countRanks[order]| then Panicked
        else
          var rank := lm.countRanks[order][pos];
          if order >= |lm.counts| || rank >= |lm.counts[order]| then Panicked
          else Returned(Some(lm.counts[order][rank]))
  }

  /** What `run(gram)` answers: `None` when the mapper finds a token missing,
      the answer for the ids otherwise. */
  function RunOf(lm: L.TrieCountLm, gram: seq<byte>): Outcome<Option<nat>> {
    match M.MapQueryOf(lm.vocab, gram)
    case Panicked => Panicked
    case Returned(None) => Returned(None)
    case Returned(Some(ids)) => AnswerOf(lm, ids)
  }

  class Lookuper {
    const trie: L.TrieCountLm
    var mapper: M.SortedArrayMapper

    predicate Valid()
      reads this, mapper
    {
      mapper.Valid()
    }

    /** `new`: a lookuper over `trie` with a fresh mapper. */
    constructor New(trie: L.TrieCountLm)
      ensures Valid() && this.trie == trie && fresh(mapper) && fresh(mapper.mapped)
    {
      this.trie := trie;
      mapper := new M.SortedArrayMapper.Default();
    }

    /** `run`: maps the query, walks the levels, and reads the count. */
    method Run(gram: seq<byte>) returns (r: Outcome<Option<nat>>)
      requires Valid()
      modifies mapper.mapped
      ensures Valid() && r == RunOf(trie, gram)
    {
      var q := mapper.MapQuery(gram, trie.vocab);
      if q.Panicked? {
        return Panicked;
      }
      if q.value.None? {
        return Returned(None);
      }
      var ids := q.value.value;
      if |ids| == 0 {
        return Panicked;
      }
      var order := |ids| - 1;
      var walked := Walk(trie.arrays, ids[1..], ids[0]);
      if walked.Panicked? {
        return Panicked;
      }
      if walked.value.None? {
        return Returned(None);
      }
      var pos := walked.value.value;
      if order >= |trie.countRanks| || pos >= |trie.countRanks[order]| {
        return Panicked;
      }
      var rank := trie.countRanks[order][pos];
      if order >= |trie.counts| || rank >= |trie.counts[order]| {
        return Panicked;
      }
      return Returned(Some(trie.counts[order][rank]));
    }

    /** The loop of `run` over the zip of the remaining ids with the levels. */
    static method Walk(arrays: seq<T.TrieArray>, rest: seq<nat>, start: nat) returns (r: Outcome<Option<nat>>)
      ensures r == WalkOf(arrays, rest, start)
    {
      var pos := start;
      var i := 0;
      while i < |rest| && i < |arrays|
        invariant i <= |rest| && i <= |arrays|
        invariant WalkOf(arrays, rest, start) == WalkOf(arrays[i..], rest[i..], pos)
        decreases |rest| - i
      {
        WalkStep(arrays, rest, i, pos);
        if !T.FindReady(arrays[i], pos) {
          return Panicked;
        }
        var next := T.FindToken(arrays[i], pos, rest[i]);
        if next.None? {
          return Returned(None);
        }
        pos := next.value;
        i := i + 1;
      }
      WalkEnd(arrays, rest, i, pos);
      return Returned(Some(pos));
    }

    /** `with_str`: a `&str` is UTF-8, and its bytes are the gram. */
    method WithStr(s: seq<byte>) returns (r: Outcome<Option<nat>>)
      requires Valid() && U.ValidUtf8(s)
      modifies mapper.mapped
      ensures Valid() && r == RunOf(trie, s)
    {
      r := Run(s);
    }
  }

  // -----------------------------------------------------------------------
  // The meaning of a lookup: a count index built level by level from the
  // grams of every order answers a gram's count, and `None` for a gram it
  // does not hold.

  /** The token ids and pointers a level was built from. */
  datatype Layer = Layer(tokenIds: seq<nat>, pointers: seq<nat>)

  /** `ta` is the level built from `layer`, over the grams `prev` of the
      order below and `curr` of its own: the grams in range `j` are the
      `j`-th gram of `prev` followed by their token ids. */
  predicate LevelOf(kind: T.Kind, layer: Layer, ta: T.TrieArray, prev: seq<seq<nat>>, curr: seq<seq<nat>>) {
    var t := layer.tokenIds;
    var p := layer.pointers;
    && T.Layout(t, p)
    && T.Buildable(kind, t, p) && T.Build(kind, t, p) == Returned(ta)
    && |p| == |prev| + 1 && |t| == |curr|
    && forall j, i :: 0 <= j < |prev| && p[j] <= i < p[j + 1] ==> curr[i] == prev[j] + [t[i]]
  }

  /** `lm` indexes `grams` (per order, the grams as token ids, each order
      free of repeats) with the counts `gramCounts`: the unigrams are the
      vocabulary's ids, every level is built over the orders around it, and
      the rank of every gram leads to its count. */
  predicate Indexed(lm: L.TrieCountLm, kind: T.Kind, layers: seq<Layer>, grams: seq<seq<seq<nat>>>, gramCounts: seq<seq<nat>>) {
    && |grams| >= 1
    && |layers| == |grams| - 1 == |lm.arrays|
    && |lm.countRanks| == |grams| && |lm.counts| == |grams| && |gramCounts| == |grams|
    && (forall o :: 0 <= o < |grams| ==>
          Distinct(grams[o]) && |gramCounts[o]| == |grams[o]| && |lm.countRanks[o]| == |grams[o]|)
    && (forall i :: 0 <= i < |grams[0]| ==> grams[0][i] == [i])
    && (forall w :: w in V.Ids(lm.vocab) ==> V.Ids(lm.vocab)[w] < |grams[0]|)
    && (forall o :: 0 <= o < |layers| ==> LevelOf(kind, layers[o], lm.arrays[o], grams[o], grams[o + 1]))
    && (forall o, i :: 0 <= o < |grams| && 0 <= i < |grams[o]| ==>
          lm.countRanks[o][i] < |lm.counts[o]| && lm.counts[o][lm.countRanks[o][i]] == gramCounts[o][i])
  }

  /** The answer the index should give for `ids`: the count of the gram when
      it is one of the order's grams, and `None` otherwise. */
  function Expected(grams: seq<seq<seq<nat>>>, gramCounts: seq<seq<nat>>, ids: seq<nat>): Option<nat>
    requires 1 <= |ids| <= |grams| && |gramCounts| == |grams|
    requires |gramCounts[|ids| - 1]| == |grams[|ids| - 1]|
  {
    match Position(grams[|ids| - 1], ids)
    case None => None
    case Some(i) => Some(gramCounts[|ids| - 1][i])
  }

  /** Every position of a level lies in the range of some position below. */
  lemma {:induction false} ParentExists(p: seq<nat>, i: nat)
    requires |p| >= 2 && NonDecreasing(p) && p[0] <= i < p[|p| - 1]
    ensures exists j :: 0 <= j < |p| - 1 && p[j] <= i < p[j + 1]
    decreases |p|
  {
    var n := |p| - 1;
    if i < p[n - 1] {
      var q := p[..n];
      assert NonDecreasing(q) by {
        assert forall a :: 0 <= a < n ==> q[a] == p[a];
      }
      ParentExists(q, i);
      var j :| 0 <= j < |q| - 1 && q[j] <= i < q[j + 1];
      assert p[j] <= i < p[j + 1];
    } else {
      assert p[n - 1] <= i < p[n];
    }
  }

  /** Every gram of a level has a parent: the gram of the order below whose
      range it lies in. */
  lemma Parent(kind: T.Kind, layer: Layer, ta: T.TrieArray, prev: seq<seq<nat>>, curr: seq<seq<nat>>, i: nat)
    requires LevelOf(kind, layer, ta, prev, curr) && i < |curr|
    ensures exists j :: 0 <= j < |prev| && layer.pointers[j] <= i < layer.pointers[j + 1]
                        && curr[i] == prev[j] + [layer.tokenIds[i]]
  {
    var p := layer.pointers;
    ParentExists(p, i);
  }

  /** Every gram of order `o` has `o + 1` tokens, and its first `k + 1`
      tokens are a gram of order `k`. */
  lemma {:induction false} GramShape(lm: L.TrieCountLm, kind: T.Kind, layers: seq<Layer>, grams: seq<seq<seq<nat>>>, gramCounts: seq<seq<nat>>, o: nat, i: nat, k: nat)
    requires Indexed(lm, kind, layers, grams, gramCounts)
    requires o < |grams| && i < |grams[o]| && k <= o
    ensures |grams[o][i]| == o + 1
    ensures grams[o][i][..k + 1] in grams[k]
    decreases o
  {
    if o > 0 {
      assert LevelOf(kind, layers[o - 1], lm.arrays[o - 1], grams[o - 1], grams[o]);
      Parent(kind, layers[o - 1], lm.arrays[o - 1], grams[o - 1], grams[o], i);
      var j :| 0 <= j < |grams[o - 1]| && grams[o][i] == grams[o - 1][j] + [layers[o - 1].tokenIds[i]];
      GramShape(lm, kind, layers, grams, gramCounts, o - 1, j, if k < o then k else o - 1);
      if k < o {
        assert grams[o][i][..k + 1] == grams[o - 1][j][..k + 1];
      } else {
        assert grams[o][i][..k + 1] == grams[o][i];
      }
    } else {
      assert grams[o][i][..k + 1] == grams[o][i];
    }
  }

  /** In a sequence without repeats, the position of an element is its index. */
  lemma PositionDistinct<X>(s: seq<X>, i: nat)
    requires Distinct(s) && i < |s|
    ensures Position(s, s[i]) == Some(i)
  {
    PositionFirst(s, s[i]);
    var r := Position(s, s[i]).value;
    assert forall a :: 0 <= a < r ==> s[..r][a] == s[a];
  }

  /** From a position holding the first `k + 1` ids, a next id that is not
      in the position's range rules out every gram above that starts with
      those `k + 2` ids. */
  lemma AbsentOne(lm: L.TrieCountLm, kind: T.Kind, layers: seq<Layer>, grams: seq<seq<seq<nat>>>, gramCounts: seq<seq<nat>>, ids: seq<nat>, k: nat, pos: nat, o: nat, g: nat)
    requires Indexed(lm, kind, layers, grams, gramCounts)
    requires k < o < |grams| && g < |grams[o]| && k + 1 < |ids|
    requires pos < |grams[k]| && grams[k][pos] == ids[..k + 1]
    requires LevelOf(kind, layers[k], lm.arrays[k], grams[k], grams[k + 1])
    requires var p := layers[k].pointers;
      p[pos] <= p[pos + 1] <= |layers[k].tokenIds| && ids[k + 1] !in layers[k].tokenIds[p[pos]..p[pos + 1]]
    ensures |grams[o][g]| == o + 1 && grams[o][g][..k + 2] != ids[..k + 2]
  {
    var t := layers[k].tokenIds;
    var p := layers[k].pointers;
    GramShape(lm, kind, layers, grams, gramCounts, o, g, k + 1);
    var c :| 0 <= c < |grams[k + 1]| && grams[k + 1][c] == grams[o][g][..k + 2];
    Parent(kind, layers[k], lm.arrays[k], grams[k], grams[k + 1], c);
    var j :| 0 <= j < |grams[k]| && p[j] <= c < p[j + 1] && grams[k + 1][c] == grams[k][j] + [t[c]];
    GramShape(lm, kind, layers, grams, gramCounts, k, j, k);
    ChildDiffers(t, p, grams[k], grams[k + 1][c], ids, k, pos, j, c);
  }

  /** A gram `c` of order `k + 1` under position `j` of order `k` is not the
      query's first `k + 2` ids when position `pos` holds the first `k + 1`
      ids and its range lacks the next id: either `j` is `pos` and the last
      id differs, or `j` holds other ids. */
  lemma ChildDiffers(t: seq<nat>, p: seq<nat>, below: seq<seq<nat>>, child: seq<nat>, ids: seq<nat>, k: nat, pos: nat, j: nat, c: nat)
    requires Distinct(below) && pos < |below| && j < |below| && pos + 1 < |p| && j + 1 < |p|
    requires k + 1 < |ids| && below[pos] == ids[..k + 1] && |below[j]| == k + 1
    requires p[pos] <= p[pos + 1] <= |t| && ids[k + 1] !in t[p[pos]..p[pos + 1]]
    requires p[j] <= c < p[j + 1] && c < |t| && child == below[j] + [t[c]]
    ensures child != ids[..k + 2]
  {
    if j == pos {
      assert t[c] == t[p[pos]..p[pos + 1]][c - p[pos]];
      LastTokenDiffers(child, ids, k, t[p[pos]..p[pos + 1]]);
    } else {
      assert below[j] != below[pos];
      assert child[..k + 1] == below[j];
      ParentDiffers(child, below[j], ids, k);
    }
  }

  /** A gram of `k + 2` ids whose last id lies in a range that the query's
      `k + 2`-th id does not is not the query's first `k + 2` ids. */
  lemma LastTokenDiffers(child: seq<nat>, ids: seq<nat>, k: nat, range: seq<nat>)
    requires k + 1 < |ids| && |child| == k + 2 && child[k + 1] in range && ids[k + 1] !in range
    ensures child != ids[..k + 2]
  {
    assert ids[..k + 2][k + 1] == ids[k + 1];
  }

  /** A gram of `k + 2` ids whose parent is not the query's first `k + 1`
      ids is not the query's first `k + 2` ids. */
  lemma ParentDiffers(child: seq<nat>, parent: seq<nat>, ids: seq<nat>, k: nat)
    requires k + 1 < |ids| && |child| == k + 2 && child[..k + 1] == parent && parent != ids[..k + 1]
    ensures child != ids[..k + 2]
  {
    assert ids[..k + 2][..k + 1] == ids[..k + 1];
  }

  /** From a position holding the first `k + 1` ids, a next id that is not
      in the position's range is a gram the index does not hold. */
  lemma Absent(lm: L.TrieCountLm, kind: T.Kind, layers: seq<Layer>, grams: seq<seq<seq<nat>>>, gramCounts: seq<seq<nat>>, ids: seq<nat>, k: nat, pos: nat)
    requires Indexed(lm, kind, layers, grams, gramCounts)
    requires |ids| <= |grams| && k + 1 < |ids|
    requires pos < |grams[k]| && grams[k][pos] == ids[..k + 1]
    requires LevelOf(kind, layers[k], lm.arrays[k], grams[k], grams[k + 1])
    requires var p := layers[k].pointers;
      p[pos] <= p[pos + 1] <= |layers[k].tokenIds| && ids[k + 1] !in layers[k].tokenIds[p[pos]..p[pos + 1]]
    ensures ids !in grams[|ids| - 1]
  {
    var o := |ids| - 1;
    forall g | 0 <= g < |grams[o]|
      ensures grams[o][g] != ids
    {
      AbsentOne(lm, kind, layers, grams, gramCounts, ids, k, pos, o, g);
    }
  }

  /** The walk from a position holding the first `k + 1` ids ends at the
      gram's position when the order holds the gram, and with `None` when
      it does not. */
  lemma {:induction false} WalkFinds(lm: L.TrieCountLm, kind: T.Kind, layers: seq<Layer>, grams: seq<seq<seq<nat>>>, gramCounts: seq<seq<nat>>, ids: seq<nat>, k: nat, pos: nat)
    requires Indexed(lm, kind, layers, grams, gramCounts)
    requires 1 <= |ids| <= |grams| && k < |ids|
    requires pos < |grams[k]| && grams[k][pos] == ids[..k + 1]
    ensures WalkOf(lm.arrays[k..], ids[k + 1..], pos)
            == Returned(Position(grams[|ids| - 1], ids))
    decreases |ids| - k, 1
  {
    if k == |ids| - 1 {
      WalkFindsLast(lm.arrays, grams, ids, k, pos);
    } else {
      WalkFindsStep(lm, kind, layers, grams, gramCounts, ids, k, pos);
    }
  }

  /** With no ids left, the walk ends at the position of the whole gram. */
  lemma WalkFindsLast(arrays: seq<T.TrieArray>, grams: seq<seq<seq<nat>>>, ids: seq<nat>, k: nat, pos: nat)
    requires 1 <= |ids| <= |grams| && k == |ids| - 1 && k <= |arrays| && Distinct(grams[k])
    requires pos < |grams[k]| && grams[k][pos] == ids[..k + 1]
    ensures WalkOf(arrays[k..], ids[k + 1..], pos) == Returned(Position(grams[|ids| - 1], ids))
  {
    assert ids[..k + 1] == ids;
    PositionDistinct(grams[k], pos);
    assert ids[k + 1..] == [];
  }

  /** One level of the walk: the next id is found in the position's range
      exactly when the gram of one more id is held, and the walk goes on
      from that gram. */
  lemma {:induction false} WalkFindsStep(lm: L.TrieCountLm, kind: T.Kind, layers: seq<Layer>, grams: seq<seq<seq<nat>>>, gramCounts: seq<seq<nat>>, ids: seq<nat>, k: nat, pos: nat)
    requires Indexed(lm, kind, layers, grams, gramCounts)
    requires 1 <= |ids| <= |grams| && k < |ids| - 1
    requires pos < |grams[k]| && grams[k][pos] == ids[..k + 1]
    ensures WalkOf(lm.arrays[k..], ids[k + 1..], pos)
            == Returned(Position(grams[|ids| - 1], ids))
    decreases |ids| - k, 0
  {
    var o := |ids| - 1;
    var t := layers[k].tokenIds;
    var p := layers[k].pointers;
    var x := ids[k + 1];
    assert LevelOf(kind, layers[k], lm.arrays[k], grams[k], grams[k + 1]);
    T.FindTokenMeaning(kind, t, p, pos, x);
    WalkStepAfter(lm.arrays, ids, k, pos);
    var r := T.FindTokenOf(lm.arrays[k], pos, x);
    if r.Some? {
      assert grams[k + 1][r.value] == grams[k][pos] + [t[r.value]];
      NextPrefix(grams[k + 1][r.value], grams[k][pos], ids, k);
      WalkFinds(lm, kind, layers, grams, gramCounts, ids, k + 1, r.value);
    } else {
      Absent(lm, kind, layers, grams, gramCounts, ids, k, pos);
      PositionFirst(grams[o], ids);
    }
  }

  /** A gram of the first `k + 1` ids followed by the next id is the gram of
      the first `k + 2` ids. */
  lemma NextPrefix(gram: seq<nat>, parent: seq<nat>, ids: seq<nat>, k: nat)
    requires k + 1 < |ids| && parent == ids[..k + 1] && gram == parent + [ids[k + 1]]
    ensures gram == ids[..k + 2]
  {
    assert ids[..k + 2] == ids[..k + 1] + [ids[k + 1]];
  }

  /** The answer for ids of a vocabulary token and at most as many tokens as
      the index has orders is the gram's count, or `None` when the index
      does not hold the gram. */
  lemma AnswerMeaning(lm: L.TrieCountLm, kind: T.Kind, layers: seq<Layer>, grams: seq<seq<seq<nat>>>, gramCounts: seq<seq<nat>>, ids: seq<nat>)
    requires Indexed(lm, kind, layers, grams, gramCounts)
    requires 1 <= |ids| <= |grams| && ids[0] < |grams[0]|
    ensures AnswerOf(lm, ids) == Returned(Expected(grams, gramCounts, ids))
  {
    assert ids[..1] == [ids[0]];
    WalkFinds(lm, kind, layers, grams, gramCounts, ids, 0, ids[0]);
    assert lm.arrays[0..] == lm.arrays;
    var o := |ids| - 1;
    PositionFirst(grams[o], ids);
  }

  /** A query of at most `MAX_ORDER` tokens and at most as many as the index
      has orders, on a vocabulary that cannot panic on them: `run` answers
      the gram's count when every token is known and the index holds the
      gram, and `None` otherwise. */
  lemma RunMeaning(lm: L.TrieCountLm, kind: T.Kind, layers: seq<Layer>, grams: seq<seq<seq<nat>>>, gramCounts: seq<seq<nat>>, gram: seq<byte>)
    requires Indexed(lm, kind, layers, grams, gramCounts)
    requires |G.SplitToTokens(gram)| <= MAX_ORDER && |G.SplitToTokens(gram)| <= |grams|
    requires forall j :: 0 <= j < |G.SplitToTokens(gram)| ==> V.Get(lm.vocab, G.SplitToTokens(gram)[j]).Returned?
    ensures var tokens := G.SplitToTokens(gram);
      if forall j :: 0 <= j < |tokens| ==> M.Known(lm.vocab, tokens[j])
      then RunOf(lm, gram) == Returned(Expected(grams, gramCounts, M.IdsOf(lm.vocab, tokens)))
      else RunOf(lm, gram) == Returned(None)
  {
    var tokens := G.SplitToTokens(gram);
    if forall j :: 0 <= j < |tokens| ==> M.Known(lm.vocab, tokens[j]) {
      M.MapTokensSucceeds(lm.vocab, tokens);
      var ids := M.IdsOf(lm.vocab, tokens);
      M.IdsOfAt(lm.vocab, tokens, 0);
      assert tokens[0] in V.Ids(lm.vocab) && ids[0] == V.Ids(lm.vocab)[tokens[0]];
      AnswerMeaning(lm, kind, layers, grams, gramCounts, ids);
    } else {
      var k := M.Reach(lm.vocab, tokens, 0);
      M.ReachStops(lm.vocab, tokens, 0);
      assert k < |tokens| && !M.Known(lm.vocab, tokens[k]);
    }
  }

  // -----------------------------------------------------------------------
  // A query with more tokens than the index has orders.

  /** The walk stops with the levels, whatever ids are left. */
  lemma {:induction false} WalkTruncates(arrays: seq<T.TrieArray>, ids: seq<nat>, pos: nat)
    requires |ids| >= |arrays|
    ensures WalkOf(arrays, ids, pos) == WalkOf(arrays, ids[..|arrays|], pos)
    decreases |arrays|
  {
    if arrays != [] && T.FindReady(arrays[0], pos) && T.FindTokenOf(arrays[0], pos, ids[0]).Some? {
      var next := T.FindTokenOf(arrays[0], pos, ids[0]).value;
      WalkTruncates(arrays[1..], ids[1..], next);
      assert ids[..|arrays|][1..] == ids[1..][..|arrays| - 1];
    }
  }

  /** As written, a query that extends a gram of the highest order by one
      more token walks every level, lands on that gram, and then reads the
      rank array of an order the index does not have: it panics instead of
      answering `None`. */
  lemma LongQueryPanics(lm: L.TrieCountLm, kind: T.Kind, layers: seq<Layer>, grams: seq<seq<seq<nat>>>, gramCounts: seq<seq<nat>>, ids: seq<nat>)
    requires Indexed(lm, kind, layers, grams, gramCounts)
    requires |ids| == |grams| + 1 && ids[..|grams|] in grams[|grams| - 1]
    ensures AnswerOf(lm, ids) == Panicked
  {
    var n := |grams|;
    var top := ids[..n];
    var g :| 0 <= g < |grams[n - 1]| && grams[n - 1][g] == top;
    GramShape(lm, kind, layers, grams, gramCounts, n - 1, g, 0);
    var u :| 0 <= u < |grams[0]| && grams[0][u] == top[..1];
    assert top[..1] == [ids[0]] && grams[0][u] == [u];
    WalkTruncates(lm.arrays, ids[1..], ids[0]);
    assert ids[1..][..|lm.arrays|] == top[1..];
    WalkFinds(lm, kind, layers, grams, gramCounts, top, 0, ids[0]);
    assert lm.arrays[0..] == lm.arrays;
    PositionFirst(grams[n - 1], top);
    assert WalkOf(lm.arrays, ids[1..], ids[0]) == Returned(Position(grams[n - 1], top));
    assert |ids| - 1 == |lm.countRanks|;
  }

  /** The evident intent: a query longer than the index's orders is a gram
      the index does not hold. */
  function CheckedAnswerOf(lm: L.TrieCountLm, ids: seq<nat>): Outcome<Option<nat>> {
    if |ids| > L.NumOrders(lm) then Returned(None) else AnswerOf(lm, ids)
  }

  /** With the check, every query of vocabulary ids is answered without a
      panic: the count of a gram the index holds, `None` for any other. */
  lemma CheckedAnswerMeaning(lm: L.TrieCountLm, kind: T.Kind, layers: seq<Layer>, grams: seq<seq<seq<nat>>>, gramCounts: seq<seq<nat>>, ids: seq<nat>)
    requires Indexed(lm, kind, layers, grams, gramCounts)
    requires 1 <= |ids| && ids[0] < |grams[0]|
    ensures |ids| <= |grams| ==> CheckedAnswerOf(lm, ids) == Returned(Expected(grams, gramCounts, ids))
    ensures |ids| > |grams| ==> CheckedAnswerOf(lm, ids) == Returned(None)
  {
    if |ids| <= |grams| {
      AnswerMeaning(lm, kind, layers, grams, gramCounts, ids);
    }
  }
}
