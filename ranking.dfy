/** The count ranking that `CountsBuilder` and `SequenceCollectionBuilder`
    share: they learn how often each value occurs, order the distinct values
    by frequency (most frequent first, smaller value first among equals) and
    give each value its index in that order as its rank. */
module Ranking {
  import opened Common

  // ---------------------------------------------------------------------
  // Frequencies.

  /** `eat_value(x)` on the frequency map `f`: one more occurrence of `x`,
      the first one when `x` is new. */
  function Bump(f: map<nat, nat>, x: nat): (r: map<nat, nat>)
    ensures r.Keys == f.Keys + {x}
  {
    if x in f then f[x := f[x] + 1] else f[x := 1]
  }

  /** The frequency map after eating `xs`, one value after another. */
  function Tally(xs: seq<nat>): map<nat, nat> {
    if xs == [] then map[] else Bump(Tally(xs[..|xs| - 1]), xs[|xs| - 1])
  }

  /** Eating `x` raises the frequency of `x` by exactly one (from zero when
      it is new) and leaves every other frequency as it was. */
  lemma BumpChanges(f: map<nat, nat>, x: nat)
    ensures Bump(f, x)[x] == (if x in f then f[x] else 0) + 1
    ensures forall y :: y in f && y != x ==> y in Bump(f, x) && Bump(f, x)[y] == f[y]
  {
  }

  /** The tally holds exactly the eaten values, each with its number of
      occurrences. */
  lemma {:induction false} TallyCounts(xs: seq<nat>)
    ensures forall x :: x in Tally(xs) <==> x in xs
    ensures forall x :: x in Tally(xs) ==> Tally(xs)[x] == multiset(xs)[x]
  {
    if xs != [] {
      var init := xs[..|xs| - 1];
      var last := xs[|xs| - 1];
      TallyCounts(init);
      assert xs == init + [last];
      assert multiset(xs) == multiset(init) + multiset{last};
      assert forall x :: x in xs <==> x in init || x == last;
    }
  }

  // ---------------------------------------------------------------------
  // The frequency order.

  /** `v` comes before `w`: it is more frequent, or as frequent and smaller
      (`f2.cmp(f1).then_with(|| v1.cmp(v2))`). */
  predicate RankedBefore(f: map<nat, nat>, v: nat, w: nat)
    requires v in f && w in f
  {
    f[v] > f[w] || (f[v] == f[w] && v < w)
  }

  /** `s` lists exactly the values of `keys`, in frequency order. */
  predicate Ranks(f: map<nat, nat>, keys: set<nat>, s: seq<nat>)
    requires keys <= f.Keys
  {
    && (forall i :: 0 <= i < |s| ==> s[i] in keys)
    && (forall v :: v in keys ==> v in s)
    && (forall i, j :: 0 <= i < j < |s| ==> RankedBefore(f, s[i], s[j]))
  }

  /** `s` is the sequence `build_sequence` makes of the frequency map `f`. */
  predicate IsFrequencyOrder(f: map<nat, nat>, s: seq<nat>) {
    Ranks(f, f.Keys, s)
  }

  /** A frequency order lists every value once. */
  lemma FrequencyOrderDistinct(f: map<nat, nat>, s: seq<nat>)
    requires IsFrequencyOrder(f, s)
    ensures Distinct(s)
  {
  }

  /** The frequency order of a map is unique, so the order in which the hash
      map hands out its entries does not matter. */
  lemma {:induction false} RanksUnique(f: map<nat, nat>, keys: set<nat>, s: seq<nat>, t: seq<nat>)
    requires keys <= f.Keys
    requires Ranks(f, keys, s) && Ranks(f, keys, t)
    ensures s == t
    decreases |s|
  {
    RanksEmptyTogether(f, keys, s, t);
    if s != [] {
      RanksFirst(f, keys, s, t[0]);
      RanksFirst(f, keys, t, s[0]);
      var rest := keys - {s[0]};
      RanksTail(f, keys, s);
      RanksTail(f, keys, t);
      RanksUnique(f, rest, s[1..], t[1..]);
      assert s == [s[0]] + s[1..] && t == [t[0]] + t[1..];
    }
  }

  /** Two listings of the same values are both empty or both not. */
  lemma RanksEmptyTogether(f: map<nat, nat>, keys: set<nat>, s: seq<nat>, t: seq<nat>)
    requires keys <= f.Keys
    requires Ranks(f, keys, s) && Ranks(f, keys, t)
    ensures s == [] <==> t == []
  {
    if s != [] {
      assert s[0] in keys;
    }
    if t != [] {
      assert t[0] in keys;
    }
  }

  /** The first value of a frequency order comes before every other one. */
  lemma RanksFirst(f: map<nat, nat>, keys: set<nat>, s: seq<nat>, v: nat)
    requires keys <= f.Keys && s != []
    requires Ranks(f, keys, s) && v in keys
    ensures v == s[0] || RankedBefore(f, s[0], v)
  {
    var j :| 0 <= j < |s| && s[j] == v;
    if j > 0 {
      assert RankedBefore(f, s[0], s[j]);
    }
  }

  /** Dropping the first value of a frequency order leaves the order of the
      other values. */
  lemma RanksTail(f: map<nat, nat>, keys: set<nat>, s: seq<nat>)
    requires keys <= f.Keys && s != []
    requires Ranks(f, keys, s)
    ensures Ranks(f, keys - {s[0]}, s[1..])
  {
    var rest := keys - {s[0]};
    forall i | 0 <= i < |s| - 1
      ensures s[1..][i] in rest
    {
      assert RankedBefore(f, s[0], s[i + 1]);
    }
    forall v | v in rest
      ensures v in s[1..]
    {
      var j :| 0 <= j < |s| && s[j] == v;
      assert j != 0;
      assert s[1..][j - 1] == v;
    }
  }

  lemma FrequencyOrderUnique(f: map<nat, nat>, s: seq<nat>, t: seq<nat>)
    requires IsFrequencyOrder(f, s) && IsFrequencyOrder(f, t)
    ensures s == t
  {
    RanksUnique(f, f.Keys, s, t);
  }

  // ---------------------------------------------------------------------
  // Sorting the (value, frequency) pairs.

  /** The comparator of `build_sequence` on `(value, freq)` pairs answers
      `Less`. */
  predicate Precedes(a: (nat, nat), b: (nat, nat)) {
    a.1 > b.1 || (a.1 == b.1 && a.0 < b.0)
  }

  predicate StrictlySorted(s: seq<(nat, nat)>) {
    forall i, j :: 0 <= i < j < |s| ==> Precedes(s[i], s[j])
  }

  /** Inserts `x` before the first pair it precedes. */
  function Insert(x: (nat, nat), s: seq<(nat, nat)>): (r: seq<(nat, nat)>)
    requires StrictlySorted(s) && x !in s
    ensures multiset(r) == multiset(s) + multiset{x}
    ensures StrictlySorted(r)
  {
    if s == [] then [x]
    else if Precedes(x, s[0]) then
      InsertFront(x, s);
      [x] + s
    else
      var rest := Insert(x, s[1..]);
      InsertLater(x, s, rest);
      [s[0]] + rest
  }

  lemma InsertFront(x: (nat, nat), s: seq<(nat, nat)>)
    requires StrictlySorted(s) && s != [] && Precedes(x, s[0])
    ensures StrictlySorted([x] + s)
  {
    var r := [x] + s;
    forall i, j | 0 <= i < j < |r|
      ensures Precedes(r[i], r[j])
    {
      if i > 0 {
        assert r[i] == s[i - 1] && r[j] == s[j - 1];
      } else if j > 1 {
        assert Precedes(s[0], s[j - 1]);
      }
    }
  }

  lemma InsertLater(x: (nat, nat), s: seq<(nat, nat)>, rest: seq<(nat, nat)>)
    requires StrictlySorted(s) && s != [] && x !in s && !Precedes(x, s[0])
    requires StrictlySorted(rest) && multiset(rest) == multiset(s[1..]) + multiset{x}
    ensures StrictlySorted([s[0]] + rest)
    ensures multiset([s[0]] + rest) == multiset(s) + multiset{x}
  {
    assert s == [s[0]] + s[1..];
    var r := [s[0]] + rest;
    forall j | 0 < j < |r|
      ensures Precedes(s[0], r[j])
    {
      assert r[j] == rest[j - 1];
      assert rest[j - 1] in multiset(rest);
      if rest[j - 1] != x {
        assert rest[j - 1] in s[1..];
        var m :| 0 <= m < |s[1..]| && s[1..][m] == rest[j - 1];
        assert Precedes(s[0], s[m + 1]);
      }
    }
    forall i, j | 0 < i < j < |r|
      ensures Precedes(r[i], r[j])
    {
      assert r[i] == rest[i - 1] && r[j] == rest[j - 1];
    }
  }

  /** `sort_by` with the comparator of `build_sequence`. The pairs it is given
      are distinct, so the comparator is a strict total order on them and any
      sorting algorithm gives this result. */
  function SortByFrequency(pairs: seq<(nat, nat)>): (r: seq<(nat, nat)>)
    requires Distinct(pairs)
    ensures multiset(r) == multiset(pairs)
    ensures StrictlySorted(r)
  {
    if pairs == [] then []
    else
      var init := pairs[..|pairs| - 1];
      var last := pairs[|pairs| - 1];
      assert Distinct(init);
      var sorted := SortByFrequency(init);
      assert last !in multiset(init);
      assert pairs == init + [last];
      Insert(last, sorted)
  }

  function Values(pairs: seq<(nat, nat)>): (r: seq<nat>)
    ensures |r| == |pairs| && forall i :: 0 <= i < |pairs| ==> r[i] == pairs[i].0
  {
    seq(|pairs|, i requires 0 <= i < |pairs| => pairs[i].0)
  }

  /** The pairs of the entries of `f`, each once. */
  predicate EntriesOf(f: map<nat, nat>, pairs: seq<(nat, nat)>) {
    && (forall i :: 0 <= i < |pairs| ==> pairs[i].0 in f && pairs[i].1 == f[pairs[i].0])
    && (forall v :: v in f ==> (v, f[v]) in pairs)
  }

  /** Sorting the entries of `f` and keeping the values gives the frequency
      order of `f`. */
  lemma SortedEntries(f: map<nat, nat>, pairs: seq<(nat, nat)>)
    requires Distinct(pairs) && EntriesOf(f, pairs)
    ensures IsFrequencyOrder(f, Values(SortByFrequency(pairs)))
  {
    var sorted := SortByFrequency(pairs);
    SortedAreEntries(f, pairs, sorted);
    ValuesRanked(f, sorted);
  }

  /** A permutation of the entries of `f` consists of entries of `f` and
      holds all of them. */
  lemma SortedAreEntries(f: map<nat, nat>, pairs: seq<(nat, nat)>, sorted: seq<(nat, nat)>)
    requires EntriesOf(f, pairs) && multiset(sorted) == multiset(pairs)
    ensures EntriesOf(f, sorted)
  {
    forall i | 0 <= i < |sorted|
      ensures sorted[i].0 in f && sorted[i].1 == f[sorted[i].0]
    {
      assert sorted[i] in multiset(pairs);
      var k :| 0 <= k < |pairs| && pairs[k] == sorted[i];
    }
    forall v | v in f
      ensures (v, f[v]) in sorted
    {
      assert (v, f[v]) in multiset(pairs);
    }
  }

  /** The values of the sorted entries of `f` are its frequency order. */
  lemma ValuesRanked(f: map<nat, nat>, sorted: seq<(nat, nat)>)
    requires EntriesOf(f, sorted) && StrictlySorted(sorted)
    ensures IsFrequencyOrder(f, Values(sorted))
  {
    var s := Values(sorted);
    forall v | v in f
      ensures v in s
    {
      var i :| 0 <= i < |sorted| && sorted[i] == (v, f[v]);
      assert s[i] == v;
    }
    forall i, j | 0 <= i < j < |s|
      ensures RankedBefore(f, s[i], s[j])
    {
      assert Precedes(sorted[i], sorted[j]);
    }
  }

  /** The values of `f` in frequency order, gathered in whatever order the
      hash map iterates and then sorted, as `build_sequence` does. */
  method FrequencyOrder(f: map<nat, nat>) returns (s: seq<nat>)
    ensures IsFrequencyOrder(f, s)
  {
    var pairs: seq<(nat, nat)> := [];
    var rest := f.Keys;
    while rest != {}
      invariant rest <= f.Keys
      invariant Distinct(pairs)
      invariant forall i :: 0 <= i < |pairs| ==> pairs[i].0 in f && pairs[i].0 !in rest && pairs[i].1 == f[pairs[i].0]
      invariant forall v :: v in f && v !in rest ==> (v, f[v]) in pairs
      decreases |rest|
    {
      var v :| v in rest;
      pairs := pairs + [(v, f[v])];
      rest := rest - {v};
    }
    var sorted := SortByFrequency(pairs);
    SortedEntries(f, pairs);
    s := Values(sorted);
  }

  /** Every frequency map has its entries in some list, each once. */
  lemma {:induction false} EntriesExist(f: map<nat, nat>)
    ensures exists pairs: seq<(nat, nat)> :: Distinct(pairs) && EntriesOf(f, pairs)
    decreases |f.Keys|
  {
    if f.Keys == {} {
      assert Distinct<(nat, nat)>([]) && EntriesOf(f, []);
    } else {
      var v :| v in f.Keys;
      var g := map u | u in f.Keys - {v} :: f[u];
      assert g.Keys == f.Keys - {v};
      EntriesExist(g);
      var pairs: seq<(nat, nat)> :| Distinct(pairs) && EntriesOf(g, pairs);
      var all := pairs + [(v, f[v])];
      assert forall i :: 0 <= i < |pairs| ==> pairs[i].0 != v;
      assert Distinct(all);
      assert EntriesOf(f, all) by {
        forall u | u in f
          ensures (u, f[u]) in all
        {
          if u != v {
            assert (u, g[u]) in pairs;
          } else {
            assert all[|pairs|] == (v, f[v]);
          }
        }
      }
    }
  }

  /** The frequency order of `f`, the one sequence `build_sequence` can make
      of it whatever the order in which the hash map hands out its entries. */
  ghost function FrequencyOrderOf(f: map<nat, nat>): (s: seq<nat>)
    ensures IsFrequencyOrder(f, s)
  {
    EntriesExist(f);
    var pairs: seq<(nat, nat)> :| Distinct(pairs) && EntriesOf(f, pairs);
    SortedEntries(f, pairs);
    Values(SortByFrequency(pairs))
  }

  /** Any frequency order of `f` is the one `FrequencyOrderOf` names. */
  lemma FrequencyOrderIs(f: map<nat, nat>, s: seq<nat>)
    requires IsFrequencyOrder(f, s)
    ensures s == FrequencyOrderOf(f)
  {
    FrequencyOrderUnique(f, s, FrequencyOrderOf(f));
  }

  // ---------------------------------------------------------------------
  // Ranks.

  /** The rank map of `s`: each value to its index. */
  function RankMap(s: seq<nat>): (m: map<nat, nat>)
    requires Distinct(s)
    ensures forall v :: v in m <==> v in s
    ensures forall k :: 0 <= k < |s| ==> m[s[k]] == k
  {
    if s == [] then map[]
    else
      var init := s[..|s| - 1];
      assert Distinct(init);
      assert forall v :: v in s <==> v in init || v == s[|s| - 1];
      RankMap(init)[s[|s| - 1] := |s| - 1]
  }

  /** The loop of `build_sequence` that records each value's index. */
  method BuildRankMap(s: seq<nat>) returns (m: map<nat, nat>)
    requires Distinct(s)
    ensures m == RankMap(s)
  {
    m := map[];
    for i := 0 to |s|
      invariant m == RankMap(s[..i])
    {
      assert s[..i + 1][..i] == s[..i];
      m := m[s[i] := i];
    }
    assert s[..|s|] == s;
  }

  /** A rank is the inverse of the frequency order: the value at a value's
      rank is that value, and only listed values have a rank. */
  lemma RankAccess(s: seq<nat>, v: nat)
    requires Distinct(s)
    ensures v in RankMap(s) <==> v in s
    ensures v in s ==> RankMap(s)[v] < |s| && s[RankMap(s)[v]] == v
  {
    if v in s {
      var k :| 0 <= k < |s| && s[k] == v;
      assert RankMap(s)[s[k]] == k;
    }
  }

  // ---------------------------------------------------------------------
  // The orders the unit tests of both builders expect.

  /** The values the unit tests eat for their first and second order. */
  const FIRST_TEST: seq<nat> := [2, 2, 1, 2, 4, 2, 1, 2, 1]
  const SECOND_TEST: seq<nat> := [2, 1, 2, 1, 1, 1]

  /** Eating 2, 2, 1, 2, 4, 2, 1, 2, 1 gives the order 2, 1, 4. */
  lemma FirstOracle(s: seq<nat>)
    requires IsFrequencyOrder(Tally(FIRST_TEST), s)
    ensures s == [2, 1, 4]
  {
    var f := Tally(FIRST_TEST);
    FirstTally();
    assert IsFrequencyOrder(f, [2, 1, 4]);
    FrequencyOrderUnique(f, s, [2, 1, 4]);
  }

  lemma FirstTally()
    ensures Tally(FIRST_TEST).Keys == {1, 2, 4}
    ensures Tally(FIRST_TEST)[2] == 5
    ensures Tally(FIRST_TEST)[1] == 3
    ensures Tally(FIRST_TEST)[4] == 1
  {
    FirstMultiset();
    TallyOfFirst(FIRST_TEST);
  }

  /** Any run of values holding 1 three times, 2 five times and 4 once. */
  lemma TallyOfFirst(xs: seq<nat>)
    requires multiset(xs) == multiset{1, 1, 1, 2, 2, 2, 2, 2, 4}
    ensures Tally(xs).Keys == {1, 2, 4}
    ensures Tally(xs)[2] == 5 && Tally(xs)[1] == 3 && Tally(xs)[4] == 1
  {
    TallyCounts(xs);
    var f := Tally(xs);
    forall x ensures x in f <==> x in {1, 2, 4} {
      assert x in xs <==> x in multiset(xs);
    }
  }

  lemma FirstMultiset()
    ensures multiset(FIRST_TEST) == multiset{1, 1, 1, 2, 2, 2, 2, 2, 4}
  {
  }

  /** Eating 2, 1, 2, 1, 1, 1 gives the order 1, 2. */
  lemma SecondOracle(s: seq<nat>)
    requires IsFrequencyOrder(Tally(SECOND_TEST), s)
    ensures s == [1, 2]
  {
    var f := Tally(SECOND_TEST);
    SecondTally();
    assert IsFrequencyOrder(f, [1, 2]);
    FrequencyOrderUnique(f, s, [1, 2]);
  }

  lemma SecondTally()
    ensures Tally(SECOND_TEST).Keys == {1, 2}
    ensures Tally(SECOND_TEST)[2] == 2
    ensures Tally(SECOND_TEST)[1] == 4
  {
    SecondMultiset();
    TallyOfSecond(SECOND_TEST);
  }

  /** Any run of values holding 1 four times and 2 twice. */
  lemma TallyOfSecond(xs: seq<nat>)
    requires multiset(xs) == multiset{1, 1, 1, 1, 2, 2}
    ensures Tally(xs).Keys == {1, 2}
    ensures Tally(xs)[2] == 2 && Tally(xs)[1] == 4
  {
    TallyCounts(xs);
    var f := Tally(xs);
    forall x ensures x in f <==> x in {1, 2} {
      assert x in xs <==> x in multiset(xs);
    }
  }

  lemma SecondMultiset()
    ensures multiset(SECOND_TEST) == multiset{1, 1, 1, 1, 2, 2}
  {
  }
}
