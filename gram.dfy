/** `Gram`: a borrowed byte slice holding space-separated tokens. The model
    keeps the bytes themselves, so two grams are equal exactly when their
    bytes are (the `PartialEq` of the source compares the slices). */
module Gram {
  import opened Common
  import opened Utf8

  /** The token separator, the space byte; `gram.rs` calls it
      `GRAM_SEPARATOR` and the crate root defines it as `TOKEN_SEPARATOR`. */
  const SEPARATOR: byte := SPACE

  type Gram = seq<byte>

  /** `to_string`: the bytes as a `String`; `from_utf8(..).unwrap()` panics
      when they are not UTF-8. A `String` is kept as its bytes. */
  function ToString(data: Gram): (r: Outcome<seq<byte>>)
    ensures r.Panicked? <==> !ValidUtf8(data)
    ensures r.Returned? ==> r.value == data
  {
    if ValidUtf8(data) then Returned(data) else Panicked
  }

  /** `pop_token`: the gram before the last separator and the token after it,
      or `None` when there is no separator. */
  function PopToken(data: Gram): (r: Option<(Gram, Gram)>)
    ensures r.None? <==> SEPARATOR !in data
    ensures r.Some? ==> r.value.0 + [SEPARATOR] + r.value.1 == data
    ensures r.Some? ==> SEPARATOR !in r.value.1
  {
    match RevPosition(data, SEPARATOR)
    case None => None
    case Some(i) =>
      var pos := |data| - i;
      assert data == data[..pos - 1] + [SEPARATOR] + data[pos..];
      Some((data[..pos - 1], data[pos..]))
  }

  /** `split_to_tokens`: the runs between separators, empty runs included. */
  function SplitToTokens(data: Gram): (r: seq<Gram>)
    ensures |r| == Occurrences(data, SEPARATOR) + 1
    ensures forall i :: 0 <= i < |r| ==> SEPARATOR !in r[i]
    ensures Join(r, SEPARATOR) == data
  {
    SplitCount(data, SEPARATOR);
    JoinSplit(data, SEPARATOR);
    Split(data, SEPARATOR)
  }

  /** Popping the last token and splitting the rest gives the same tokens
      as splitting the whole gram. */
  lemma PopTokenTokens(data: Gram)
    requires PopToken(data).Some?
    ensures SplitToTokens(PopToken(data).value.0) + [PopToken(data).value.1] == SplitToTokens(data)
  {
    var (pfx, sfx) := PopToken(data).value;
    SplitAppend(pfx, SEPARATOR, sfx);
    SplitFree(sfx, SEPARATOR);
  }

  /** The grams that `Join` builds from separator-free tokens split back into
      those tokens. */
  lemma TokensOfJoin(tokens: seq<Gram>)
    requires |tokens| > 0
    requires forall i :: 0 <= i < |tokens| ==> SEPARATOR !in tokens[i]
    ensures SplitToTokens(Join(tokens, SEPARATOR)) == tokens
  {
    SplitJoin(tokens, SEPARATOR);
  }

  /** `pop_token` cuts at the last separator: any `pfx ++ [sep] ++ sfx` with
      a separator-free `sfx` pops to exactly `(pfx, sfx)`. */
  lemma PopTokenAt(pfx: Gram, sfx: Gram)
    requires SEPARATOR !in sfx
    ensures PopToken(pfx + [SEPARATOR] + sfx) == Some((pfx, sfx))
  {
    var data := pfx + [SEPARATOR] + sfx;
    RevPositionBeforeFree(pfx, SEPARATOR, sfx);
    assert data[..|pfx|] == pfx && data[|pfx| + 1..] == sfx;
  }

  /** The documented example: `"abc de f"` pops to `"abc de"` and `"f"`, then to
      `"abc"` and `"de"`; `"abc"` has nothing to pop. */
  lemma PopTokenExample()
    ensures PopToken([97, 98, 99, 32, 100, 101, 32, 102]) == Some(([97, 98, 99, 32, 100, 101], [102]))
    ensures PopToken([97, 98, 99, 32, 100, 101]) == Some(([97, 98, 99], [100, 101]))
    ensures PopToken([97, 98, 99]) == None
  {
    var abc: Gram := [97, 98, 99];
    var de: Gram := [100, 101];
    assert abc + [SPACE] + de + [SPACE] + [102] == [97, 98, 99, 32, 100, 101, 32, 102];
    assert abc + [SPACE] + de == [97, 98, 99, 32, 100, 101];
    PopTokenAt(abc + [SPACE] + de, [102]);
    PopTokenAt(abc, de);
  }

  /** The documented example of `split_to_tokens`: `"abc de f"` has three tokens. */
  lemma SplitToTokensExample()
    ensures SplitToTokens([97, 98, 99, 32, 100, 101, 32, 102]) == [[97, 98, 99], [100, 101], [102]]
  {
    var tokens: seq<Gram> := [[97, 98, 99], [100, 101], [102]];
    assert Join(tokens, SEPARATOR) == [97, 98, 99, 32, 100, 101, 32, 102];
    TokensOfJoin(tokens);
  }
}
