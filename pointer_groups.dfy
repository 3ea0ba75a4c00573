/** The pointers of a trie level, seen from the side of the grams: when the
    grams of one order are listed with the index of their parent in the
    order below, and the parents never go down along the list, the pointer
    of parent `j` is the number of grams whose parent comes before `j`, and
    the grams of parent `j` are exactly those between its pointer and the
    next one. */
module PointerGroups {
  import opened Common

  /** The number of entries of `parent` below `j`. */
  function CountBelow(parent: seq<nat>, j: nat): (n: nat)
    ensures n <= |parent|
  {
    if parent == [] then 0
    else CountBelow(parent[..|parent| - 1], j) + (if parent[|parent| - 1] < j then 1 else 0)
  }

  /** The `n + 1` pointers of `n` parents whose children have the parents
      `parent`. */
  function PointersOf(parent: seq<nat>, n: nat): (p: seq<nat>)
    ensures |p| == n + 1
    ensures forall j :: 0 <= j <= n ==> p[j] == CountBelow(parent, j)
  {
    seq(n + 1, j requires 0 <= j <= n => CountBelow(parent, j))
  }

  /** `n` copies of `x`. */
  function Repeat(x: nat, n: nat): (r: seq<nat>)
    ensures |r| == n && forall i :: 0 <= i < n ==> r[i] == x
  {
    seq(n, i => x)
  }

  /** Along non-decreasing parents, the entries below `j` are a prefix: an
      entry is below `j` exactly when its index is below the count. */
  lemma {:induction false} BelowIsPrefix(parent: seq<nat>, j: nat)
    requires NonDecreasing(parent)
    ensures forall i :: 0 <= i < |parent| ==> (parent[i] < j <==> i < CountBelow(parent, j))
  {
    if parent != [] {
      var n := |parent| - 1;
      var init := parent[..n];
      assert NonDecreasing(init);
      BelowIsPrefix(init, j);
      assert forall i :: 0 <= i < n ==> init[i] == parent[i];
      if parent[n] < j {
        assert forall i :: 0 <= i < n ==> init[i] < j;
        if n > 0 {
          assert init[n - 1] < j;
        }
        assert CountBelow(init, j) == n;
      }
    }
  }

  /** No entry is below 0. */
  lemma BelowZero(parent: seq<nat>)
    ensures CountBelow(parent, 0) == 0
  {
  }

  /** Every entry is below a bound above all of them. */
  lemma BelowAll(parent: seq<nat>, n: nat)
    requires forall i :: 0 <= i < |parent| ==> parent[i] < n
    ensures CountBelow(parent, n) == |parent|
  {
  }

  /** A larger bound has at least as many entries below it. */
  lemma BelowMonotone(parent: seq<nat>, a: nat, b: nat)
    requires a <= b
    ensures CountBelow(parent, a) <= CountBelow(parent, b)
  {
  }

  /** Pointers of parents below `n` start at 0, never decrease, and end at
      the number of children. */
  lemma PointersShape(parent: seq<nat>, n: nat)
    requires forall i :: 0 <= i < |parent| ==> parent[i] < n
    ensures PointersOf(parent, n)[0] == 0
    ensures NonDecreasing(PointersOf(parent, n))
    ensures PointersOf(parent, n)[n] == |parent|
  {
    var p := PointersOf(parent, n);
    BelowZero(parent);
    BelowAll(parent, n);
    forall a, b | 0 <= a <= b <= n
      ensures p[a] <= p[b]
    {
      BelowMonotone(parent, a, b);
    }
  }

  /** The children of parent `j` are exactly those from its pointer up to
      the next pointer. */
  lemma PointersGroup(parent: seq<nat>, n: nat)
    requires NonDecreasing(parent)
    ensures forall j, i :: 0 <= j < n && 0 <= i < |parent| ==>
      (PointersOf(parent, n)[j] <= i < PointersOf(parent, n)[j + 1] <==> parent[i] == j)
  {
    forall j, i | 0 <= j < n && 0 <= i < |parent|
      ensures PointersOf(parent, n)[j] <= i < PointersOf(parent, n)[j + 1] <==> parent[i] == j
    {
      BelowIsPrefix(parent, j);
      BelowIsPrefix(parent, j + 1);
    }
  }

  /** `n` copies of `x` and one more. */
  lemma RepeatOneMore(x: nat, n: nat)
    ensures Repeat(x, n) + [x] == Repeat(x, n + 1)
  {
  }

  /** When every entry is at most `c`, the pointers of the parents above `c`
      all equal the number of entries. */
  lemma PointersExtend(parent: seq<nat>, c: nat, t: nat)
    requires c <= t
    requires forall i :: 0 <= i < |parent| ==> parent[i] <= c
    ensures PointersOf(parent, c) + Repeat(|parent|, t - c) == PointersOf(parent, t)
  {
    var l := PointersOf(parent, c) + Repeat(|parent|, t - c);
    var r := PointersOf(parent, t);
    forall j | c < j <= t
      ensures l[j] == r[j]
    {
      BelowAll(parent, j);
    }
  }

  /** One more entry, at least `p`, does not change the pointers up to `p`. */
  lemma PointersAppend(parent: seq<nat>, x: nat, p: nat)
    requires p <= x
    ensures PointersOf(parent + [x], p) == PointersOf(parent, p)
  {
    assert (parent + [x])[..|parent|] == parent;
  }

  /** Pushing copies of `pointer` onto pointers all at most `pointer` keeps
      them from 0 non-decreasing up to at most `pointer`. */
  lemma PushedShape(pointers: seq<nat>, pushed: seq<nat>, pointer: nat)
    requires |pointers| > 0 && pointers[0] == 0 && NonDecreasing(pointers)
    requires pointers[|pointers| - 1] <= pointer
    requires |pointers| <= |pushed| && pushed[..|pointers|] == pointers
    requires forall k :: |pointers| <= k < |pushed| ==> pushed[k] == pointer
    ensures pushed[0] == 0 && NonDecreasing(pushed) && pushed[|pushed| - 1] <= pointer
  {
    assert forall k :: 0 <= k < |pointers| ==> pushed[k] == pointers[k];
  }

  /** The first level of the unit tests: four unigrams, nine bigrams with
      the parents 0, 0, 1, 1, 1, 2, 2, 3, 3. */
  lemma BigramPointers()
    ensures PointersOf([0, 0, 1, 1, 1, 2, 2, 3, 3], 4) == [0, 2, 5, 7, 9]
  {
    var parent: seq<nat> := [0, 0, 1, 1, 1, 2, 2, 3, 3];
    PointersGroup(parent, 4);
    PointersShape(parent, 4);
    var p := PointersOf(parent, 4);
    assert p[1] == 2 by {
      assert parent[1] == 0 && parent[2] == 1;
    }
    assert p[2] == 5 by {
      assert parent[4] == 1 && parent[5] == 2;
    }
    assert p[3] == 7 by {
      assert parent[6] == 2 && parent[7] == 3;
    }
  }

  /** The second level: nine bigrams, seven trigrams with the parents
      0, 2, 2, 3, 7, 7, 8. */
  lemma TrigramPointers()
    ensures PointersOf([0, 2, 2, 3, 7, 7, 8], 9) == [0, 1, 1, 3, 4, 4, 4, 4, 6, 7]
  {
    var parent: seq<nat> := [0, 2, 2, 3, 7, 7, 8];
    PointersGroup(parent, 9);
    PointersShape(parent, 9);
    var p := PointersOf(parent, 9);
    assert p[1] == 1 by {
      assert parent[0] == 0 && parent[1] == 2;
    }
    assert p[2] == 1 by {
      assert parent[0] == 0 && parent[1] == 2;
    }
    assert p[3] == 3 by {
      assert parent[2] == 2 && parent[3] == 3;
    }
    assert p[4] == 4 && p[5] == 4 && p[6] == 4 && p[7] == 4 by {
      assert parent[3] == 3 && parent[4] == 7;
    }
    assert p[8] == 6 by {
      assert parent[5] == 7 && parent[6] == 8;
    }
  }
}
