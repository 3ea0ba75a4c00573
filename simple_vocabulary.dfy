/** `SimpleVocabulary`: a hash map from each token, as a `String`, to its id.
    Turning a token into a `String` panics when its bytes are not UTF-8. */
module SimpleVocabulary {
  import opened Common
  import opened Utf8
  import G = Gram

  datatype SimpleVocabulary = SimpleVocabulary(tokenMap: map<seq<byte>, nat>)

  /** `build` stops at the first token it has already inserted, reporting
      that token and the id `insert` displaced. */
  datatype BuildError = Duplicate(token: seq<byte>, previous: nat)

  /** `new`: the empty vocabulary. */
  function New(): (v: SimpleVocabulary)
    ensures v.tokenMap == map[]
  {
    SimpleVocabulary(map[])
  }

  /** `get`: the id of `token`, `None` when it was not built in; the
      conversion to `String` panics on bytes that are not UTF-8. */
  function Get(v: SimpleVocabulary, token: seq<byte>): (r: Outcome<Option<nat>>)
    ensures r.Panicked? <==> !ValidUtf8(token)
    ensures r.Returned? ==> (r.value.Some? <==> token in v.tokenMap)
    ensures r.Returned? && r.value.Some? ==> r.value.value == v.tokenMap[token]
  {
    match G.ToString(token)
    case Panicked => Panicked
    case Returned(key) => Returned(if key in v.tokenMap then Some(v.tokenMap[key]) else None)
  }

  /** Every token in the input is valid UTF-8. */
  predicate AllUtf8(tokens: seq<seq<byte>>) {
    forall i :: 0 <= i < |tokens| ==> ValidUtf8(tokens[i])
  }

  /** What `build` does with `tokens`: insert them one after another with
      their positions as ids, panicking on a token that is not UTF-8 and
      failing on one that is already in the map. */
  function BuildOf(tokens: seq<seq<byte>>): (r: Outcome<Result<SimpleVocabulary, BuildError>>)
    decreases |tokens|
  {
    if tokens == [] then Returned(Ok(New()))
    else
      var n := |tokens| - 1;
      match BuildOf(tokens[..n])
      case Panicked => Panicked
      case Returned(Err(e)) => Returned(Err(e))
      case Returned(Ok(v)) =>
        match G.ToString(tokens[n])
        case Panicked => Panicked
        case Returned(key) =>
          if key in v.tokenMap then Returned(Err(Duplicate(key, v.tokenMap[key])))
          else Returned(Ok(SimpleVocabulary(v.tokenMap[key := n])))
  }

  /** Once a prefix has failed, the rest of the input is not looked at. */
  lemma {:induction false} BuildStops(tokens: seq<seq<byte>>, i: nat)
    requires i <= |tokens|
    requires !(BuildOf(tokens[..i]).Returned? && BuildOf(tokens[..i]).value.Ok?)
    ensures BuildOf(tokens) == BuildOf(tokens[..i])
    decreases |tokens| - i
  {
    if i < |tokens| {
      assert tokens[..i + 1][..i] == tokens[..i];
      BuildStops(tokens, i + 1);
    } else {
      assert tokens[..i] == tokens;
    }
  }

  /** `build` (a loop inserting into the map) computes `BuildOf`. */
  method Build(tokens: seq<seq<byte>>) returns (r: Outcome<Result<SimpleVocabulary, BuildError>>)
    ensures r == BuildOf(tokens)
  {
    var m: map<seq<byte>, nat> := map[];
    for id := 0 to |tokens|
      invariant BuildOf(tokens[..id]) == Returned(Ok(SimpleVocabulary(m)))
    {
      assert tokens[..id + 1][..id] == tokens[..id];
      var key := G.ToString(tokens[id]);
      if key.Panicked? {
        BuildStops(tokens, id + 1);
        return Panicked;
      }
      if key.value in m {
        BuildStops(tokens, id + 1);
        return Returned(Err(Duplicate(key.value, m[key.value])));
      }
      m := m[key.value := id];
    }
    assert tokens[..|tokens|] == tokens;
    return Returned(Ok(SimpleVocabulary(m)));
  }

  /** `build` succeeds exactly on distinct UTF-8 tokens, and then maps each
      token to its position and nothing else to anything. */
  lemma {:induction false} BuildSucceeds(tokens: seq<seq<byte>>)
    ensures BuildOf(tokens).Returned? && BuildOf(tokens).value.Ok? <==> Distinct(tokens) && AllUtf8(tokens)
    ensures BuildOf(tokens).Returned? && BuildOf(tokens).value.Ok? ==> IndexMap(BuildOf(tokens).value.value.tokenMap, tokens)
    decreases |tokens|
  {
    if tokens != [] {
      var n := |tokens| - 1;
      var init := tokens[..n];
      BuildSucceeds(init);
      assert tokens == init + [tokens[n]];
      assert forall i :: 0 <= i < n ==> tokens[i] == init[i];
      if BuildOf(init).Returned? && BuildOf(init).value.Ok? {
        var m := BuildOf(init).value.value.tokenMap;
        assert tokens[n] in m <==> tokens[n] in init;
      }
    }
  }

  /** A failing `build` names a token met twice, with the id of its earlier
      occurrence. */
  lemma {:induction false} BuildDuplicate(tokens: seq<seq<byte>>)
    requires BuildOf(tokens).Returned? && BuildOf(tokens).value.Err?
    ensures BuildOf(tokens).value.error.previous < |tokens|
    ensures tokens[BuildOf(tokens).value.error.previous] == BuildOf(tokens).value.error.token
    ensures exists k :: BuildOf(tokens).value.error.previous < k < |tokens| && tokens[k] == BuildOf(tokens).value.error.token
    decreases |tokens|
  {
    var n := |tokens| - 1;
    var init := tokens[..n];
    var e := BuildOf(tokens).value.error;
    assert forall i :: 0 <= i < n ==> tokens[i] == init[i];
    if BuildOf(init).Returned? && BuildOf(init).value.Err? {
      BuildDuplicate(init);
      var k :| e.previous < k < |init| && init[k] == e.token;
      assert tokens[k] == e.token;
    } else {
      BuildSucceeds(init);
      assert tokens[n] == e.token;
    }
  }

  /** A `build` that panics met a token that is not UTF-8. */
  lemma {:induction false} BuildPanics(tokens: seq<seq<byte>>)
    ensures BuildOf(tokens).Panicked? ==> !AllUtf8(tokens)
    decreases |tokens|
  {
    if tokens != [] {
      var n := |tokens| - 1;
      BuildPanics(tokens[..n]);
      assert forall i :: 0 <= i < n ==> tokens[..n][i] == tokens[i];
    }
  }

  /** On a built vocabulary, `get` gives a token's position in the input, and
      `None` for a UTF-8 token that was not in it. */
  lemma GetBuilt(tokens: seq<seq<byte>>, token: seq<byte>)
    requires BuildOf(tokens).Returned? && BuildOf(tokens).value.Ok?
    requires ValidUtf8(token)
    ensures Get(BuildOf(tokens).value.value, token).Returned?
    ensures Get(BuildOf(tokens).value.value, token).value.Some? <==> token in tokens
    ensures token in tokens ==> exists i :: 0 <= i < |tokens| && tokens[i] == token && Get(BuildOf(tokens).value.value, token).value == Some(i)
  {
    BuildSucceeds(tokens);
  }

  /** `new` holds no token: every `get` of UTF-8 bytes is `None`. */
  lemma GetNew(token: seq<byte>)
    requires ValidUtf8(token)
    ensures Get(New(), token) == Returned(None)
  {
  }
}
