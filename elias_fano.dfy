/** The part of an Elias-Fano sequence (`sucds::EliasFano`) that the trie
    arrays rely on: a non-decreasing sequence of integers below a universe,
    read back by `select` and counted by `rank`. The compressed bit layout is
    not modelled; the sequence is kept as it is. */
module EliasFano {
  import opened Common

  datatype EliasFano = EliasFano(universe: nat, values: seq<nat>)

  /** What every Elias-Fano sequence holds: its values in order, each below
      the universe. */
  predicate Valid(ef: EliasFano) {
    NonDecreasing(ef.values) && forall i :: 0 <= i < |ef.values| ==> ef.values[i] < ef.universe
  }

  /** `EliasFano::default()`: no values. */
  const Default: EliasFano := EliasFano(0, [])

  /** `EliasFanoBuilder::new(universe, n)`, `append(values)` and `build()`:
      fails for an empty sequence, a zero universe, a value smaller than the
      one before it, or a value outside the universe. */
  function FromValues(universe: nat, values: seq<nat>): (r: Option<EliasFano>)
    ensures r.Some? <==> |values| > 0 && universe > 0 && Valid(EliasFano(universe, values))
    ensures r.Some? ==> r.value.values == values
  {
    if |values| > 0 && universe > 0 && Valid(EliasFano(universe, values)) then Some(EliasFano(universe, values))
    else None
  }

  function Len(ef: EliasFano): nat {
    |ef.values|
  }

  /** `select(i)`: the `i`-th value. */
  function Select(ef: EliasFano, i: nat): nat
    requires i < |ef.values|
  {
    ef.values[i]
  }

  /** The number of elements of `s` smaller than `x`. */
  function CountBelow(s: seq<nat>, x: nat): (c: nat)
    ensures c <= |s|
  {
    if s == [] then 0 else (if s[0] < x then 1 else 0) + CountBelow(s[1..], x)
  }

  /** `rank(x)`: how many values are smaller than `x`. */
  function Rank(ef: EliasFano, x: nat): nat {
    CountBelow(ef.values, x)
  }

  /** When the first `n` elements are below `x` and the others are not, the
      count is `n`. */
  lemma {:induction false} CountBelowSplit(s: seq<nat>, x: nat, n: nat)
    requires n <= |s|
    requires forall j :: 0 <= j < n ==> s[j] < x
    requires forall j :: n <= j < |s| ==> s[j] >= x
    ensures CountBelow(s, x) == n
  {
    if s != [] {
      if n > 0 {
        CountBelowSplit(s[1..], x, n - 1);
      } else {
        CountBelowSplit(s[1..], x, 0);
      }
    }
  }

  /** A successful build holds a valid sequence, and `select` reads back the
      values that were appended. */
  lemma FromValuesSelect(universe: nat, values: seq<nat>, i: nat)
    requires FromValues(universe, values).Some? && i < |values|
    ensures Valid(FromValues(universe, values).value)
    ensures Select(FromValues(universe, values).value, i) == values[i]
    ensures Len(FromValues(universe, values).value) == |values|
  {
  }
}
