/** Shared vocabulary of the model: option and result values, bytes, and the
    slice operations (`position`, `split`) that several source files use. */
module Common {

  /** An octet of a Rust `&[u8]` / `String` buffer. */
  type byte = x: int | 0 <= x < 256

  /** 2^64: `usize` and `u64` on the 64-bit targets the crate is built for. */
  const U64_LIMIT: nat := 0x1_0000_0000_0000_0000

  /** The largest order of n-grams the crate handles. */
  const MAX_ORDER: nat := 8

  const TAB: byte := 9
  const LF: byte := 10
  const SPACE: byte := 32

  datatype Option<T> = None | Some(value: T)

  datatype Result<T, E> = Ok(value: T) | Err(error: E)

  /** How a call that can panic ends: with its value, or with a panic (an
      `unwrap` of a failure, an index out of bounds, an `assert!`). */
  datatype Outcome<T> = Returned(value: T) | Panicked

  /** `Option::map(|i| i + d)`. */
  function OptionPlus(o: Option<nat>, d: nat): (r: Option<nat>)
    ensures r.None? <==> o.None?
    ensures r.Some? ==> r.value == o.value + d
  {
    match o
    case None => None
    case Some(i) => Some(i + d)
  }

  /** The elements of `s` are pairwise different. */
  predicate Distinct<T(==)>(s: seq<T>) {
    forall i, j :: 0 <= i < j < |s| ==> s[i] != s[j]
  }

  /** `m` gives each element of `s` its index, and holds nothing else: the
      token-to-id map of a vocabulary built from distinct tokens. */
  predicate IndexMap<T(==)>(m: map<T, nat>, s: seq<T>) {
    && (forall x :: x in m ==> x in s)
    && forall i :: 0 <= i < |s| ==> s[i] in m && m[s[i]] == i
  }

  /** In a sequence without repeats, every element occurs once. */
  lemma {:induction false} DistinctOnce<T>(s: seq<T>, x: T)
    requires Distinct(s)
    ensures multiset(s)[x] <= 1
  {
    if s != [] {
      var init := s[..|s| - 1];
      assert s == init + [s[|s| - 1]];
      assert Distinct(init);
      DistinctOnce(init, x);
      assert s[|s| - 1] !in init;
    }
  }

  /** Reordering keeps a sequence free of repeats. */
  lemma DistinctPermutation<T>(a: seq<T>, b: seq<T>)
    requires Distinct(a) && multiset(a) == multiset(b)
    ensures Distinct(b)
  {
    forall i, j | 0 <= i < j < |b|
      ensures b[i] != b[j]
    {
      if b[i] == b[j] {
        assert b == b[..j] + [b[j]] + b[j + 1..];
        assert b[i] in b[..j];
        assert multiset(b)[b[i]] >= 2;
        DistinctOnce(a, b[i]);
        assert false;
      }
    }
  }

  predicate NonDecreasing(s: seq<int>) {
    forall i, j :: 0 <= i <= j < |s| ==> s[i] <= s[j]
  }

  /** `iter().position(|&y| y == x)`: index of the first occurrence of `x`. */
  function Position<T(==)>(s: seq<T>, x: T): (r: Option<nat>)
    ensures r.Some? ==> r.value < |s|
  {
    if s == [] then None
    else if s[0] == x then Some(0)
    else match Position(s[1..], x)
      case None => None
      case Some(i) => Some(i + 1)
  }

  /** `Position` finds the first occurrence, and finds none exactly when
      there is none. */
  lemma {:induction false} PositionFirst<T>(s: seq<T>, x: T)
    ensures Position(s, x).Some? ==> s[Position(s, x).value] == x && x !in s[..Position(s, x).value]
    ensures Position(s, x).None? <==> x !in s
  {
    if s != [] && s[0] != x {
      PositionFirst(s[1..], x);
      assert s == [s[0]] + s[1..];
      if Position(s[1..], x).Some? {
        var i := Position(s[1..], x).value;
        assert s[..i + 1] == [s[0]] + s[1..][..i];
      }
    }
  }

  /** `iter().rev().position(|&y| y == x)`: distance of the last occurrence of
      `x` from the end of `s` (0 for the last element). */
  function RevPosition<T(==)>(s: seq<T>, x: T): (r: Option<nat>)
    ensures r.Some? ==> r.value < |s| && s[|s| - 1 - r.value] == x && x !in s[|s| - r.value..]
    ensures r.None? <==> x !in s
  {
    if s == [] then None
    else if s[|s| - 1] == x then Some(0)
    else match RevPosition(s[..|s| - 1], x)
      case None =>
        assert s == s[..|s| - 1] + [s[|s| - 1]];
        None
      case Some(i) =>
        assert s[|s| - (i + 1)..] == s[..|s| - 1][|s| - 1 - i..] + [s[|s| - 1]];
        Some(i + 1)
  }

  /** When `x` does not occur in `a`, the first `x` of `a + b` is the first of `b`. */
  lemma PositionAfterFree<T>(a: seq<T>, b: seq<T>, x: T)
    requires x !in a && |b| > 0 && b[0] == x
    ensures Position(a + b, x) == Some(|a|)
  {
    var s := a + b;
    PositionFirst(s, x);
    assert s[|a|] == x;
    var r := Position(s, x).value;
    assert r >= |a| by {
      assert forall j :: 0 <= j < |a| ==> s[j] == a[j];
    }
    assert r <= |a| by {
      assert forall j :: 0 <= j < r ==> s[..r][j] == s[j];
    }
  }

  /** When `x` does not occur in `b`, the last `x` of `a + [x] + b` is the one
      just before `b`. */
  lemma {:induction false} RevPositionBeforeFree<T>(a: seq<T>, x: T, b: seq<T>)
    requires x !in b
    ensures RevPosition(a + [x] + b, x) == Some(|b|)
  {
    var s := a + [x] + b;
    if b != [] {
      var b' := b[..|b| - 1];
      assert s[..|s| - 1] == a + [x] + b';
      assert x !in b' by {
        assert forall k :: 0 <= k < |b'| ==> b'[k] == b[k];
      }
      RevPositionBeforeFree(a, x, b');
      assert s[|s| - 1] == b[|b| - 1];
    }
  }

  lemma AppendEmpty<T>(s: seq<T>)
    ensures s + [] == s
  {
  }

  lemma Associative<T>(a: seq<T>, b: seq<T>, c: seq<T>)
    ensures a + b + c == a + (b + c)
  {
  }

  lemma AppendAssoc<T>(a: seq<T>, b: seq<T>, c: seq<T>, d: seq<T>)
    ensures a + b + c + d == a + (b + c + d)
  {
  }

  lemma Regroup<T>(a: seq<T>, b: seq<T>, c: seq<T>, d: seq<T>, e: seq<T>, f: seq<T>)
    ensures a + b + c + d + e + f == a + (b + c + d + e + f)
  {
    AppendAssoc(a, b, c, d);
    AppendAssoc(a, b + c + d, e, f);
  }

  /** The pieces `[head] + middle + [last]` are all free of `sep` when each is. */
  lemma PiecesFree<T>(head: seq<T>, middle: seq<seq<T>>, last: seq<T>, sep: T)
    requires sep !in head && sep !in last
    requires forall i :: 0 <= i < |middle| ==> sep !in middle[i]
    ensures forall i :: 0 <= i < |[head] + middle + [last]| ==> sep !in ([head] + middle + [last])[i]
  {
    var parts := [head] + middle + [last];
    assert forall i :: 0 < i < |parts| - 1 ==> parts[i] == middle[i - 1];
  }

  /** Number of occurrences of `x` in `s`. */
  function Occurrences<T(==)>(s: seq<T>, x: T): nat {
    multiset(s)[x]
  }

  /** `slice.split(|&y| y == sep)` (and `str::split` with a one-character
      pattern): the maximal runs between separators, empty runs included. */
  function Split<T(==)>(s: seq<T>, sep: T): (r: seq<seq<T>>)
    ensures |r| > 0
    ensures forall i :: 0 <= i < |r| ==> sep !in r[i]
  {
    if s == [] then [[]]
    else
      var rest := Split(s[1..], sep);
      if s[0] == sep then [[]] + rest
      else [[s[0]] + rest[0]] + rest[1..]
  }

  /** The inverse of `Split`: the pieces with `sep` between consecutive ones. */
  function Join<T>(parts: seq<seq<T>>, sep: T): seq<T>
    requires |parts| > 0
  {
    if |parts| == 1 then parts[0] else parts[0] + [sep] + Join(parts[1..], sep)
  }

  /** `Split` yields one more piece than there are separators. */
  lemma {:induction false} SplitCount<T>(s: seq<T>, sep: T)
    ensures |Split(s, sep)| == Occurrences(s, sep) + 1
  {
    if s != [] {
      SplitCount(s[1..], sep);
      assert s == [s[0]] + s[1..];
      assert multiset(s) == multiset([s[0]]) + multiset(s[1..]);
    }
  }

  /** A run without separators is a single piece. */
  lemma {:induction false} SplitFree<T>(s: seq<T>, sep: T)
    requires sep !in s
    ensures Split(s, sep) == [s]
  {
    if s != [] {
      SplitFree(s[1..], sep);
      assert s == [s[0]] + s[1..];
    }
  }

  /** Splitting at a separator that is placed between `a` and `b` splits the
      two sides independently. */
  lemma {:induction false} SplitAppend<T>(a: seq<T>, sep: T, b: seq<T>)
    ensures Split(a + [sep] + b, sep) == Split(a, sep) + Split(b, sep)
  {
    var s := a + [sep] + b;
    if a == [] {
      assert s == [sep] + b;
      assert s[1..] == b;
    } else {
      assert s[0] == a[0];
      assert s[1..] == a[1..] + [sep] + b;
      SplitAppend(a[1..], sep, b);
      if a[0] != sep {
        ExtendFirst([a[0]], Split(a[1..], sep), Split(b, sep));
      }
    }
  }

  /** Adding to the first piece of a split commutes with appending more pieces. */
  lemma ExtendFirst<T>(x: seq<T>, ra: seq<seq<T>>, rb: seq<seq<T>>)
    requires |ra| > 0
    ensures [x + (ra + rb)[0]] + (ra + rb)[1..] == ([x + ra[0]] + ra[1..]) + rb
  {
    assert (ra + rb)[1..] == ra[1..] + rb;
  }

  /** Joining a piece that starts with `c` moves `c` to the front. */
  /** `s` is what is left of `t` after dropping some of its first elements. */
  predicate SuffixOf<T(==)>(s: seq<T>, t: seq<T>)
    decreases |t|
  {
    s == t || (|t| > 0 && SuffixOf(s, t[1..]))
  }

  /** A suffix is the slice of the last elements. */
  lemma {:induction false} SuffixDrop<T>(s: seq<T>, t: seq<T>)
    requires SuffixOf(s, t)
    ensures |s| <= |t| && s == t[|t| - |s|..]
    decreases |t|
  {
    if s != t {
      SuffixDrop(s, t[1..]);
      assert t[1..][|t| - 1 - |s|..] == t[|t| - |s|..];
    }
  }

  lemma {:induction false} SuffixTrans<T>(r: seq<T>, s: seq<T>, t: seq<T>)
    requires SuffixOf(r, s) && SuffixOf(s, t)
    ensures SuffixOf(r, t)
    decreases |t|
  {
    if s != t {
      SuffixTrans(r, s, t[1..]);
    }
  }

  /** What holds of the first `i` elements of `s` holds of the first `i - 1`
      of its tail. */
  lemma ForallTail<T>(s: seq<T>, i: nat, p: T -> bool)
    requires 0 < i <= |s|
    requires forall j :: 0 <= j < i ==> p(s[j])
    ensures forall j :: 0 <= j < i - 1 ==> p(s[1..][j])
  {
    forall j | 0 <= j < i - 1
      ensures p(s[1..][j])
    {
      assert s[1..][j] == s[j + 1];
    }
  }

  /** Joining a first piece onto the rest puts one separator between them. */
  lemma JoinHead<T>(head: seq<T>, middle: seq<seq<T>>, last: seq<T>, sep: T)
    ensures Join([head] + middle + [last], sep) == head + [sep] + Join(middle + [last], sep)
  {
    assert ([head] + middle + [last])[1..] == middle + [last];
  }

  lemma {:induction false} JoinConsFirst<T>(c: T, parts: seq<seq<T>>, sep: T)
    requires |parts| > 0
    ensures Join([[c] + parts[0]] + parts[1..], sep) == [c] + Join(parts, sep)
  {
    var q := [[c] + parts[0]] + parts[1..];
    assert q[1..] == parts[1..];
  }

  lemma {:induction false} JoinSplit<T>(s: seq<T>, sep: T)
    ensures Join(Split(s, sep), sep) == s
  {
    if s != [] {
      var rest := Split(s[1..], sep);
      JoinSplit(s[1..], sep);
      if s[0] == sep {
        assert ([[]] + rest)[1..] == rest;
      } else {
        JoinConsFirst(s[0], rest, sep);
      }
      assert s == [s[0]] + s[1..];
    }
  }

  lemma {:induction false} SplitJoin<T>(parts: seq<seq<T>>, sep: T)
    requires |parts| > 0
    requires forall i :: 0 <= i < |parts| ==> sep !in parts[i]
    ensures Split(Join(parts, sep), sep) == parts
  {
    SplitFree(parts[0], sep);
    if |parts| > 1 {
      SplitJoin(parts[1..], sep);
      SplitAppend(parts[0], sep, Join(parts[1..], sep));
      assert parts == [parts[0]] + parts[1..];
    }
  }

  // ---------------------------------------------------------------------
  // Steps of a build that each may panic or fail.

  /** The levels so far, followed by the next one; a panic or failure of
      either ends the build. */
  function Extend<T, E>(levels: Outcome<Result<seq<T>, E>>, next: Outcome<Result<T, E>>): Outcome<Result<seq<T>, E>> {
    match levels
    case Panicked => Panicked
    case Returned(Err(e)) => Returned(Err(e))
    case Returned(Ok(done)) =>
      match next
      case Panicked => Panicked
      case Returned(Err(e)) => Returned(Err(e))
      case Returned(Ok(level)) => Returned(Ok(done + [level]))
  }

  /** After levels that built, extending gives the next step's outcome and
      pushes what that step returns. */
  lemma ExtendBuilt<T, E>(levels: Outcome<Result<seq<T>, E>>, next: Outcome<Result<T, E>>)
    requires levels.Returned? && levels.value.Ok?
    ensures Done(Extend(levels, next)) == Done(next)
    ensures Extend(levels, next).Returned? && Extend(levels, next).value.Ok? ==>
      Extend(levels, next).value.value == levels.value.value + Pushed(next)
  {
  }

  /** Levels that built after one more step had built before it, and that
      step returned their last level. */
  lemma ExtendOk<T, E>(levels: Outcome<Result<seq<T>, E>>, next: Outcome<Result<T, E>>)
    requires Extend(levels, next).Returned? && Extend(levels, next).value.Ok?
    ensures levels.Returned? && levels.value.Ok? && next.Returned? && next.value.Ok?
    ensures Extend(levels, next).value.value == levels.value.value + [next.value.value]
  {
  }

  /** The outcomes of building the first `k` levels, for each `k`: when
      `k` levels have built, the first `k - 1` of them built on their own. */
  ghost predicate Chained<T, E>(chain: seq<Outcome<Result<seq<T>, E>>>) {
    forall k :: 0 < k < |chain| && chain[k].Returned? && chain[k].value.Ok? ==>
      |chain[k].value.value| == k && chain[k - 1] == Returned(Ok(chain[k].value.value[..k - 1]))
  }

  /** In a chain of builds, the levels that built carry those of every
      shorter build as a prefix. */
  lemma {:induction false} ChainPrefix<T, E>(chain: seq<Outcome<Result<seq<T>, E>>>, levels: seq<T>, i: nat, n: nat)
    requires Chained(chain)
    requires i <= n < |chain| && |levels| == n
    requires chain[n] == Returned(Ok(levels))
    ensures chain[i] == Returned(Ok(levels[..i]))
    decreases n - i
  {
    if i < n {
      ChainPrefix(chain, levels[..n - 1], i, n - 1);
      assert levels[..n - 1][..i] == levels[..i];
    } else {
      assert levels[..n] == levels;
    }
  }

  /** A step that returns nothing, from one that returns a value. */
  function Done<T, E>(o: Outcome<Result<T, E>>): Outcome<Result<(), E>> {
    match o
    case Panicked => Panicked
    case Returned(Err(e)) => Returned(Err(e))
    case Returned(Ok(_)) => Returned(Ok(()))
  }

  /** What a step that returns a value pushes onto the levels. */
  function Pushed<T, E>(o: Outcome<Result<T, E>>): seq<T> {
    match o
    case Returned(Ok(x)) => [x]
    case _ => []
  }

  /** Records `done` already taken, then what `Collect` makes of the rest. */
  function Prepend<T, E>(done: seq<T>, rest: Result<seq<T>, E>): Result<seq<T>, E> {
    match rest
    case Err(e) => Err(e)
    case Ok(recs) => Ok(done + recs)
  }

  lemma PrependNothing<T, E>(rest: Result<seq<T>, E>)
    ensures Prepend([], rest) == rest
  {
    if rest.Ok? {
      assert [] + rest.value == rest.value;
    }
  }

  lemma PrependOne<T, E>(done: seq<T>, rec: T, rest: Result<seq<T>, E>)
    ensures Prepend(done, Prepend([rec], rest)) == Prepend(done + [rec], rest)
  {
    if rest.Ok? {
      assert done + ([rec] + rest.value) == done + [rec] + rest.value;
    }
  }
}
