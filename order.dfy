/** Lexicographic order on sequences of integers: the `Ord` that Rust derives
    for byte slices and `Vec`s. The first differing element decides, and a
    proper prefix comes before the sequences it starts. */
module Order {

  /** `a <= b` in lexicographic order. */
  predicate LexLe(a: seq<int>, b: seq<int>) {
    if a == [] then true
    else if b == [] then false
    else if a[0] != b[0] then a[0] < b[0]
    else LexLe(a[1..], b[1..])
  }

  /** `LexLe` compares by the first difference: `a <= b` exactly when `a` is
      a prefix of `b`, or the two agree up to some `k` where `a` is smaller. */
  lemma {:induction false} LexLeMeaning(a: seq<int>, b: seq<int>)
    ensures LexLe(a, b) <==> (|a| <= |b| && b[..|a|] == a) || exists k :: 0 <= k < |a| && k < |b| && a[..k] == b[..k] && a[k] < b[k]
  {
    if a != [] && b != [] {
      LexLeMeaning(a[1..], b[1..]);
      if a[0] == b[0] {
        if LexLe(a, b) {
          if |a| - 1 <= |b| - 1 && b[1..][..|a| - 1] == a[1..] {
            assert b[..|a|] == [b[0]] + b[1..][..|a| - 1];
            assert a == [a[0]] + a[1..];
          } else {
            var k :| 0 <= k < |a| - 1 && k < |b| - 1 && a[1..][..k] == b[1..][..k] && a[1..][k] < b[1..][k];
            assert a[..k + 1] == [a[0]] + a[1..][..k];
            assert b[..k + 1] == [b[0]] + b[1..][..k];
          }
        } else {
          forall k | 0 <= k < |a| && k < |b| && a[..k] == b[..k]
            ensures a[k] >= b[k]
          {
            if k > 0 {
              assert a[1..][..k - 1] == a[..k][1..];
              assert b[1..][..k - 1] == b[..k][1..];
            }
          }
        }
      } else {
        assert a[..0] == b[..0];
      }
    }
  }

  lemma {:induction false} LexTotal(a: seq<int>, b: seq<int>)
    ensures LexLe(a, b) || LexLe(b, a)
  {
    if a != [] && b != [] && a[0] == b[0] {
      LexTotal(a[1..], b[1..]);
    }
  }

  lemma {:induction false} LexAntisymmetric(a: seq<int>, b: seq<int>)
    requires LexLe(a, b) && LexLe(b, a)
    ensures a == b
  {
    if a != [] && b != [] {
      LexAntisymmetric(a[1..], b[1..]);
      assert a == [a[0]] + a[1..] && b == [b[0]] + b[1..];
    }
  }

  lemma {:induction false} LexTransitive(a: seq<int>, b: seq<int>, c: seq<int>)
    requires LexLe(a, b) && LexLe(b, c)
    ensures LexLe(a, c)
  {
    if a != [] && b != [] && c != [] && a[0] == b[0] && b[0] == c[0] {
      LexTransitive(a[1..], b[1..], c[1..]);
    }
  }
}
