/** UTF-8 well-formedness of byte strings: what `String::from_utf8` and
    `read_line` into a `String` accept. */
module Utf8 {
  import opened Common

  predicate IsContinuation(b: byte) {
    0x80 <= b <= 0xBF
  }

  /** Length of the UTF-8 encoded character at the front of `s`, or 0 when
      `s` does not start with a well-formed encoding. */
  function Utf8CharLen(s: seq<byte>): (n: nat)
    requires |s| > 0
    ensures n <= 4 && n <= |s|
  {
    var b := s[0];
    if b < 0x80 then 1
    else if 0xC2 <= b <= 0xDF then
      if |s| >= 2 && IsContinuation(s[1]) then 2 else 0
    else if 0xE0 <= b <= 0xEF then
      var lo: byte := if b == 0xE0 then 0xA0 else 0x80;
      var hi: byte := if b == 0xED then 0x9F else 0xBF;
      if |s| >= 3 && lo <= s[1] <= hi && IsContinuation(s[2]) then 3 else 0
    else if 0xF0 <= b <= 0xF4 then
      var lo: byte := if b == 0xF0 then 0x90 else 0x80;
      var hi: byte := if b == 0xF4 then 0x8F else 0xBF;
      if |s| >= 4 && lo <= s[1] <= hi && IsContinuation(s[2]) && IsContinuation(s[3]) then 4 else 0
    else 0
  }

  predicate ValidUtf8(s: seq<byte>)
    decreases |s|
  {
    s == [] || (Utf8CharLen(s) > 0 && ValidUtf8(s[Utf8CharLen(s)..]))
  }

  predicate IsAscii(s: seq<byte>) {
    forall i :: 0 <= i < |s| ==> s[i] < 0x80
  }

  /** ASCII text is valid UTF-8. */
  lemma {:induction false} AsciiIsUtf8(s: seq<byte>)
    requires IsAscii(s)
    ensures ValidUtf8(s)
    decreases |s|
  {
    if s != [] {
      assert Utf8CharLen(s) == 1;
      assert IsAscii(s[1..]) by {
        assert forall i :: 0 <= i < |s| - 1 ==> s[1..][i] == s[i + 1];
      }
      AsciiIsUtf8(s[1..]);
    }
  }

  /** What follows a complete character does not change its length. */
  lemma Utf8CharLenPrefix(a: seq<byte>, b: seq<byte>)
    requires |a| > 0 && Utf8CharLen(a) > 0
    ensures Utf8CharLen(a + b) == Utf8CharLen(a)
  {
    var n := Utf8CharLen(a);
    assert forall i :: 0 <= i < n ==> (a + b)[i] == a[i];
  }

  /** Valid UTF-8 followed by ASCII is valid UTF-8. */
  lemma {:induction false} ValidUtf8ThenAscii(a: seq<byte>, b: seq<byte>)
    requires ValidUtf8(a) && IsAscii(b)
    ensures ValidUtf8(a + b)
    decreases |a|
  {
    if a == [] {
      AsciiIsUtf8(b);
      assert a + b == b;
    } else {
      var n := Utf8CharLen(a);
      ValidFirst(a);
      var ab := a + b;
      Utf8CharLenPrefix(a, b);
      ValidUtf8ThenAscii(a[n..], b);
      assert ab[n..] == a[n..] + b;
      ValidFirstThenRest(ab, n);
    }
  }

  /** Valid UTF-8 starts with a complete character and goes on validly. */
  lemma ValidFirst(s: seq<byte>)
    requires ValidUtf8(s) && |s| > 0
    ensures Utf8CharLen(s) > 0 && ValidUtf8(s[Utf8CharLen(s)..])
  {
  }

  /** A complete first character followed by valid UTF-8 is valid UTF-8. */
  lemma ValidFirstThenRest(s: seq<byte>, n: nat)
    requires |s| > 0 && Utf8CharLen(s) == n && n > 0 && ValidUtf8(s[n..])
    ensures ValidUtf8(s)
  {
  }
}
