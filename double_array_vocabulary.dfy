/** `DoubleArrayVocabulary`: a double-array trie from each gram's bytes to
    its id. The trie is kept as the map it represents: `exact_match_search`
    is a map lookup. */
module DoubleArrayVocabulary {
  import opened Common
  import opened Order

  /** Ids are stored as `u32` values below 2^31. */
  const ID_LIMIT: nat := 0x8000_0000

  datatype DoubleArrayVocabulary = DoubleArrayVocabulary(data: map<seq<byte>, nat>)

  /** The two ways `new` fails: too many grams for 31-bit ids, or a gram
      met twice (reported with one of its ids). */
  datatype VocabularyError = TooManyGrams | Duplicate(key: seq<byte>, id: nat)

  /** A key of the key set: a gram's bytes and its id. */
  type Key = (seq<byte>, nat)

  /** `default`: the empty vocabulary. */
  function Default(): (v: DoubleArrayVocabulary)
    ensures v.data == map[]
  {
    DoubleArrayVocabulary(map[])
  }

  /** `get`: the id stored for `gram`, or `None`. */
  function Get(v: DoubleArrayVocabulary, gram: seq<byte>): (r: Option<nat>)
    ensures r.Some? <==> gram in v.data
    ensures r.Some? ==> r.value == v.data[gram]
  {
    if gram in v.data then Some(v.data[gram]) else None
  }

  // ---------------------------------------------------------------------
  // `sort_by` on the byte strings: a stable sort, here by insertion.

  predicate KeySorted(s: seq<Key>) {
    forall i, j :: 0 <= i < j < |s| ==> LexLe(s[i].0, s[j].0)
  }

  /** Puts `p` after the last key that is not greater than it. */
  function InsertKey(p: Key, s: seq<Key>): (r: seq<Key>)
    ensures multiset(r) == multiset(s) + multiset{p}
  {
    if s == [] || LexLe(s[|s| - 1].0, p.0) then s + [p]
    else
      assert s == s[..|s| - 1] + [s[|s| - 1]];
      InsertKey(p, s[..|s| - 1]) + [s[|s| - 1]]
  }

  /** `keyset.sort_by(|(g1, _), (g2, _)| g1.cmp(g2))`. */
  function SortByKey(s: seq<Key>): (r: seq<Key>)
    ensures multiset(r) == multiset(s)
  {
    if s == [] then []
    else
      assert s == s[..|s| - 1] + [s[|s| - 1]];
      InsertKey(s[|s| - 1], SortByKey(s[..|s| - 1]))
  }

  /** A key not below the last of a sorted sequence can follow it. */
  lemma AppendSorted(s: seq<Key>, p: Key)
    requires KeySorted(s) && (s == [] || LexLe(s[|s| - 1].0, p.0))
    ensures KeySorted(s + [p])
  {
    forall i | 0 <= i < |s| - 1
      ensures LexLe(s[i].0, p.0)
    {
      LexTransitive(s[i].0, s[|s| - 1].0, p.0);
    }
  }

  /** Inserting into a sorted sequence keeps it sorted. */
  lemma {:induction false} InsertSorted(p: Key, s: seq<Key>)
    requires KeySorted(s)
    ensures KeySorted(InsertKey(p, s))
  {
    if s == [] || LexLe(s[|s| - 1].0, p.0) {
      AppendSorted(s, p);
    } else {
      var init := s[..|s| - 1];
      var last := s[|s| - 1];
      InsertSorted(p, init);
      var r' := InsertKey(p, init);
      LexTotal(last.0, p.0);
      forall i | 0 <= i < |r'|
        ensures LexLe(r'[i].0, last.0)
      {
        assert r'[i] in multiset(init) + multiset{p};
      }
      AppendSorted(r', last);
    }
  }

  /** The sort puts the keys in order of their grams. */
  lemma {:induction false} SortByKeySorted(s: seq<Key>)
    ensures KeySorted(SortByKey(s))
  {
    if s != [] {
      SortByKeySorted(s[..|s| - 1]);
      InsertSorted(s[|s| - 1], SortByKey(s[..|s| - 1]));
    }
  }

  // ---------------------------------------------------------------------
  // The key set and the map the double array holds.

  /** The key set pairs every gram with its position. */
  predicate Enumerates(keyset: seq<Key>, grams: seq<seq<byte>>) {
    |keyset| == |grams| && forall i :: 0 <= i < |keyset| ==> keyset[i] == (grams[i], i)
  }

  /** The grams of a key set. */
  function Grams(s: seq<Key>): (r: seq<seq<byte>>)
    ensures |r| == |s| && forall i :: 0 <= i < |s| ==> r[i] == s[i].0
  {
    if s == [] then [] else Grams(s[..|s| - 1]) + [s[|s| - 1].0]
  }

  /** What `DoubleArrayBuilder::build` stores: each key's gram to its id. */
  function KeyMap(s: seq<Key>): (m: map<seq<byte>, nat>)
    ensures forall g :: g in m ==> g in Grams(s)
    ensures Distinct(Grams(s)) ==> forall i :: 0 <= i < |s| ==> s[i].0 in m && m[s[i].0] == s[i].1
  {
    if s == [] then map[]
    else
      var init := s[..|s| - 1];
      assert Grams(s) == Grams(init) + [s[|s| - 1].0];
      assert Distinct(Grams(s)) ==> Distinct(Grams(init)) by {
        assert forall i :: 0 <= i < |init| ==> Grams(init)[i] == Grams(s)[i];
      }
      KeyMap(init)[s[|s| - 1].0 := s[|s| - 1].1]
  }

  /** The sorted key set holds each gram with its position, once. */
  lemma SortedKeys(grams: seq<seq<byte>>, keyset: seq<Key>, sorted: seq<Key>)
    requires Enumerates(keyset, grams) && multiset(sorted) == multiset(keyset)
    ensures Distinct(sorted)
    ensures forall k :: 0 <= k < |sorted| ==> sorted[k].1 < |grams| && grams[sorted[k].1] == sorted[k].0
    ensures forall i :: 0 <= i < |grams| ==> (grams[i], i) in sorted
  {
    DistinctPermutation(keyset, sorted);
    forall k | 0 <= k < |sorted|
      ensures sorted[k].1 < |grams| && grams[sorted[k].1] == sorted[k].0
    {
      assert sorted[k] in multiset(keyset);
    }
    forall i | 0 <= i < |grams|
      ensures (grams[i], i) in sorted
    {
      assert keyset[i] in multiset(sorted);
    }
  }

  /** In a sorted key set, equal grams sit side by side: if no neighbours
      have the same gram, no two keys do. */
  lemma AdjacentDistinct(s: seq<Key>)
    requires KeySorted(s)
    requires forall k :: 1 <= k < |s| ==> s[k - 1].0 != s[k].0
    ensures Distinct(Grams(s))
  {
    forall i, j | 0 <= i < j < |s|
      ensures s[i].0 != s[j].0
    {
      if s[i].0 == s[j].0 && i + 1 < j {
        LexAntisymmetric(s[i].0, s[i + 1].0);
      }
    }
  }

  /** With distinct sorted grams, the map gives every gram its position. */
  lemma KeyMapIndexes(grams: seq<seq<byte>>, keyset: seq<Key>, sorted: seq<Key>)
    requires Enumerates(keyset, grams) && multiset(sorted) == multiset(keyset)
    requires Distinct(Grams(sorted))
    ensures Distinct(grams)
    ensures IndexMap(KeyMap(sorted), grams)
  {
    SortedKeys(grams, keyset, sorted);
    var m := KeyMap(sorted);
    forall i | 0 <= i < |grams|
      ensures grams[i] in m && m[grams[i]] == i
    {
      var k :| 0 <= k < |sorted| && sorted[k] == (grams[i], i);
      assert sorted[k].0 in m;
    }
    forall a, b | 0 <= a < b < |grams|
      ensures grams[a] != grams[b]
    {
      var ka :| 0 <= ka < |sorted| && sorted[ka] == (grams[a], a);
      var kb :| 0 <= kb < |sorted| && sorted[kb] == (grams[b], b);
      assert Grams(sorted)[ka] == grams[a] && Grams(sorted)[kb] == grams[b];
    }
    forall g | g in m
      ensures g in grams
    {
      var k :| 0 <= k < |sorted| && Grams(sorted)[k] == g;
      assert grams[sorted[k].1] == g;
    }
  }

  /** Two neighbours with the same gram are two positions of one gram. */
  lemma AdjacentDuplicate(grams: seq<seq<byte>>, keyset: seq<Key>, sorted: seq<Key>, i: nat)
    requires Enumerates(keyset, grams) && multiset(sorted) == multiset(keyset)
    requires 1 <= i < |sorted| && sorted[i - 1].0 == sorted[i].0
    ensures sorted[i - 1].1 < |grams| && grams[sorted[i - 1].1] == sorted[i - 1].0
    ensures sorted[i].1 < |grams| && sorted[i].1 != sorted[i - 1].1 && grams[sorted[i].1] == sorted[i - 1].0
    ensures !Distinct(grams)
  {
    SortedKeys(grams, keyset, sorted);
    assert sorted[i - 1] != sorted[i];
  }

  /** `new`: rejects 2^31 grams or more, pairs every gram with its position,
      sorts the pairs by gram, fails on the first neighbours with the same
      gram, and otherwise stores the map. */
  method New(grams: seq<seq<byte>>) returns (r: Result<DoubleArrayVocabulary, VocabularyError>)
    ensures r == Err(TooManyGrams) <==> |grams| >= ID_LIMIT
    ensures |grams| < ID_LIMIT ==> (r.Ok? <==> Distinct(grams))
    ensures r.Ok? ==> IndexMap(r.value.data, grams)
    ensures r.Err? && r.error.Duplicate? ==>
              r.error.id < |grams| && grams[r.error.id] == r.error.key
              && exists j :: 0 <= j < |grams| && j != r.error.id && grams[j] == r.error.key
  {
    if |grams| / ID_LIMIT != 0 {
      return Err(TooManyGrams);
    }
    var keyset: seq<Key> := [];
    for id := 0 to |grams|
      invariant Enumerates(keyset, grams[..id])
    {
      keyset := keyset + [(grams[id], id)];
    }
    assert grams[..|grams|] == grams;
    var sorted := SortByKey(keyset);
    SortByKeySorted(keyset);
    var i := 1;
    while i < |sorted|
      invariant forall k :: 1 <= k < i && k < |sorted| ==> sorted[k - 1].0 != sorted[k].0
    {
      if sorted[i - 1].0 == sorted[i].0 {
        AdjacentDuplicate(grams, keyset, sorted, i);
        return Err(Duplicate(sorted[i - 1].0, sorted[i - 1].1));
      }
      i := i + 1;
    }
    AdjacentDistinct(sorted);
    KeyMapIndexes(grams, keyset, sorted);
    return Ok(DoubleArrayVocabulary(KeyMap(sorted)));
  }

  /** On a vocabulary `new` built, `get` of a gram is its position in the
      input, and `None` for a gram that was not in it. */
  lemma GetBuilt(v: DoubleArrayVocabulary, grams: seq<seq<byte>>, gram: seq<byte>)
    requires IndexMap(v.data, grams)
    ensures Get(v, gram).Some? <==> gram in grams
    ensures gram in grams ==> exists i :: 0 <= i < |grams| && grams[i] == gram && Get(v, gram) == Some(i)
  {
  }
}
