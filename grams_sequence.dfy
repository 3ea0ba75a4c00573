/** `SimpleGramsSequence`: the token ids of one trie level in a plain vector. */
module GramsSequence {
  import opened Common

  datatype SimpleGramsSequence = SimpleGramsSequence(grams: seq<nat>)

  /** `new(grams, pointers)`: a copy of `grams`; the pointers are not used. */
  function New(grams: seq<nat>, pointers: seq<nat>): SimpleGramsSequence {
    SimpleGramsSequence(grams)
  }

  /** `get(i)`. */
  function Get(gs: SimpleGramsSequence, i: nat): nat
    requires i < |gs.grams|
  {
    gs.grams[i]
  }

  /** A sequence made by `new` hands back the ids it was given, whatever the
      pointers were. */
  lemma GetNew(grams: seq<nat>, pointers: seq<nat>, i: nat)
    requires i < |grams|
    ensures Get(New(grams, pointers), i) == grams[i]
    ensures New(grams, pointers) == New(grams, [])
  {
  }

  /** `find((b, e), id)`: the first occurrence of `id` in `grams[b..e]`,
      counted from `b` (an offset into the slice, not an index into the
      sequence). The slice panics unless `b <= e <= |grams|`. */
  function Find(gs: SimpleGramsSequence, rng: (nat, nat), id: nat): (r: Option<nat>)
    requires rng.0 <= rng.1 <= |gs.grams|
    ensures r.Some? ==> rng.0 + r.value < rng.1 && gs.grams[rng.0 + r.value] == id
    ensures r.Some? ==> id !in gs.grams[rng.0..rng.0 + r.value]
    ensures r.None? <==> id !in gs.grams[rng.0..rng.1]
  {
    var slice := gs.grams[rng.0..rng.1];
    PositionFirst(slice, id);
    var p := Position(slice, id);
    if p.Some? then
      assert slice[..p.value] == gs.grams[rng.0..rng.0 + p.value];
      p
    else p
  }
}
