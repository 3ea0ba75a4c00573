/** Decimal numerals: the digit arithmetic both languages share, Rust's
    `usize::from_str` and `Display` on bytes, and Python's `int(str)` and
    `str(int)` on characters. */
module Decimal {
  import opened Common

  predicate AreDigits(ds: seq<nat>) {
    forall i :: 0 <= i < |ds| ==> ds[i] < 10
  }

  /** Value of a big-endian digit sequence (leading zeros allowed). */
  function Value(ds: seq<nat>): nat {
    if ds == [] then 0 else 10 * Value(ds[..|ds| - 1]) + ds[|ds| - 1]
  }

  /** The shortest decimal digit sequence of `n`. */
  function Digits(n: nat): (ds: seq<nat>)
    ensures 1 <= |ds| && AreDigits(ds)
    ensures |ds| > 1 ==> ds[0] != 0
  {
    if n < 10 then [n] else Digits(n / 10) + [n % 10]
  }

  lemma {:induction false} ValueDigits(n: nat)
    ensures Value(Digits(n)) == n
  {
    if n >= 10 {
      var ds := Digits(n);
      assert ds[..|ds| - 1] == Digits(n / 10);
      ValueDigits(n / 10);
    }
  }

  // ---------------------------------------------------------------------
  // Rust: `str::parse::<usize>()` and `format!("{}", n)` over UTF-8 bytes.

  const PLUS_BYTE: byte := 43
  const ZERO_BYTE: byte := 48

  predicate IsAsciiDigit(b: byte) {
    48 <= b <= 57
  }

  function DigitOfByte(b: byte): (d: nat)
    requires IsAsciiDigit(b)
    ensures d < 10 && b == ZERO_BYTE + d
  {
    b - ZERO_BYTE
  }

  function DigitsOfBytes(s: seq<byte>): (ds: seq<nat>)
    requires forall i :: 0 <= i < |s| ==> IsAsciiDigit(s[i])
    ensures |ds| == |s| && AreDigits(ds)
    ensures forall i :: 0 <= i < |s| ==> s[i] == ZERO_BYTE + ds[i]
  {
    seq(|s|, i requires 0 <= i < |s| => DigitOfByte(s[i]))
  }

  /** `usize::from_str`: an optional `+`, then one or more ASCII digits whose
      value fits in 64 bits; `None` stands for the `ParseIntError`. */
  function ParseUsize(s: seq<byte>): (r: Option<nat>)
    ensures r.Some? ==> r.value < U64_LIMIT
    ensures r.Some? ==> |s| > 0 && (s[0] == PLUS_BYTE ==> |s| > 1)
  {
    if s == [] then None
    else if s[0] == PLUS_BYTE && |s| == 1 then None
    else
      var digits := if s[0] == PLUS_BYTE then s[1..] else s;
      if forall i :: 0 <= i < |digits| ==> IsAsciiDigit(digits[i]) then
        var v := Value(DigitsOfBytes(digits));
        if v < U64_LIMIT then Some(v) else None
      else None
  }

  /** `format!("{}", n)` for an unsigned integer. */
  function FormatUsize(n: nat): (s: seq<byte>)
    ensures |s| > 0 && forall i :: 0 <= i < |s| ==> IsAsciiDigit(s[i])
  {
    var ds := Digits(n);
    seq(|ds|, i requires 0 <= i < |ds| => ZERO_BYTE + ds[i])
  }

  lemma ParseFormatUsize(n: nat)
    requires n < U64_LIMIT
    ensures ParseUsize(FormatUsize(n)) == Some(n)
  {
    var s := FormatUsize(n);
    assert DigitsOfBytes(s) == Digits(n);
    ValueDigits(n);
  }

  // ---------------------------------------------------------------------
  // Python: `int(text)` and `str(n)` / `f'{n}'` over characters.

  /** `str.isspace()`: the characters Python strips by default. */
  predicate PyIsSpace(c: char) {
    || ('\t' <= c <= '\r') || ('\U{1C}' <= c <= '\U{1F}') || c == ' '
    || c == '\U{85}' || c == '\U{A0}' || c == '\U{1680}'
    || ('\U{2000}' <= c <= '\U{200A}') || c == '\U{2028}' || c == '\U{2029}'
    || c == '\U{202F}' || c == '\U{205F}' || c == '\U{3000}'
  }

  /** `str.rstrip()` with no argument. */
  function PyRStrip(s: string): (r: string)
    ensures r <= s
    ensures |r| > 0 ==> !PyIsSpace(r[|r| - 1])
    ensures forall i :: |r| <= i < |s| ==> PyIsSpace(s[i])
  {
    if |s| > 0 && PyIsSpace(s[|s| - 1]) then PyRStrip(s[..|s| - 1]) else s
  }

  /** `rstrip` leaves a string alone when it ends in a non-space ... */
  lemma RStripKeeps(s: string)
    requires |s| > 0 && !PyIsSpace(s[|s| - 1])
    ensures PyRStrip(s) == s
  {
  }

  /** ... and removes the newline that file iteration leaves on a line. */
  lemma RStripNewline(s: string)
    requires |s| > 0 && !PyIsSpace(s[|s| - 1])
    ensures PyRStrip(s + "\n") == s
  {
    assert (s + "\n")[..|s|] == s;
  }

  /** `str.lstrip()` with no argument. */
  function PyLStrip(s: string): (r: string)
    ensures |r| <= |s| && r == s[|s| - |r|..]
    ensures |r| > 0 ==> !PyIsSpace(r[0])
  {
    if |s| > 0 && PyIsSpace(s[0]) then PyLStrip(s[1..]) else s
  }

  /** The number of blocks of decimal digits (general category Nd) in
      Unicode 15.0, the database of Python 3.12. */
  const DIGIT_BLOCKS := 68

  /** The code point of the zero of the `i`-th block of decimal digits, in
      increasing order; each block holds zero to nine at consecutive code
      points. */
  function BlockZero(i: nat): (z: int)
    requires i < DIGIT_BLOCKS
    ensures z >= 0x30
  {
    if i < 34 then
      if i < 17 then
        if i < 8 then
          if i < 4 then
            if i < 2 then
              if i < 1 then
                0x30
              else
                0x660
            else
              if i < 3 then
                0x6F0
              else
                0x7C0
          else
            if i < 6 then
              if i < 5 then
                0x966
              else
                0x9E6
            else
              if i < 7 then
                0xA66
              else
                0xAE6
        else
          if i < 12 then
            if i < 10 then
              if i < 9 then
                0xB66
              else
                0xBE6
            else
              if i < 11 then
                0xC66
              else
                0xCE6
          else
            if i < 14 then
              if i < 13 then
                0xD66
              else
                0xDE6
            else
              if i < 15 then
                0xE50
              else
                if i < 16 then
                  0xED0
                else
                  0xF20
      else
        if i < 25 then
          if i < 21 then
            if i < 19 then
              if i < 18 then
                0x1040
              else
                0x1090
            else
              if i < 20 then
                0x17E0
              else
                0x1810
          else
            if i < 23 then
              if i < 22 then
                0x1946
              else
                0x19D0
            else
              if i < 24 then
                0x1A80
              else
                0x1A90
        else
          if i < 29 then
            if i < 27 then
              if i < 26 then
                0x1B50
              else
                0x1BB0
            else
              if i < 28 then
                0x1C40
              else
                0x1C50
          else
            if i < 31 then
              if i < 30 then
                0xA620
              else
                0xA8D0
            else
              if i < 32 then
                0xA900
              else
                if i < 33 then
                  0xA9D0
                else
                  0xA9F0
    else
      if i < 51 then
        if i < 42 then
          if i < 38 then
            if i < 36 then
              if i < 35 then
                0xAA50
              else
                0xABF0
            else
              if i < 37 then
                0xFF10
              else
                0x104A0
          else
            if i < 40 then
              if i < 39 then
                0x10D30
              else
                0x11066
            else
              if i < 41 then
                0x110F0
              else
                0x11136
        else
          if i < 46 then
            if i < 44 then
              if i < 43 then
                0x111D0
              else
                0x112F0
            else
              if i < 45 then
                0x11450
              else
                0x114D0
          else
            if i < 48 then
              if i < 47 then
                0x11650
              else
                0x116C0
            else
              if i < 49 then
                0x11730
              else
                if i < 50 then
                  0x118E0
                else
                  0x11950
      else
        if i < 59 then
          if i < 55 then
            if i < 53 then
              if i < 52 then
                0x11C50
              else
                0x11D50
            else
              if i < 54 then
                0x11DA0
              else
                0x11F50
          else
            if i < 57 then
              if i < 56 then
                0x16A60
              else
                0x16AC0
            else
              if i < 58 then
                0x16B50
              else
                0x1D7CE
        else
          if i < 63 then
            if i < 61 then
              if i < 60 then
                0x1D7D8
              else
                0x1D7E2
            else
              if i < 62 then
                0x1D7EC
              else
                0x1D7F6
          else
            if i < 65 then
              if i < 64 then
                0x1E140
              else
                0x1E2F0
            else
              if i < 66 then
                0x1E4F0
              else
                if i < 67 then
                  0x1E950
                else
                  0x1FBF0
  }

  /** The decimal value of code point `x` found among the blocks from the
      `i`-th on, or -1 when none holds it. */
  function DecimalValueFrom(x: int, i: nat): (d: int)
    requires i <= DIGIT_BLOCKS
    ensures -1 <= d < 10
    ensures d >= 0 ==> i < DIGIT_BLOCKS && (x == BlockZero(i) + d || x >= BlockZero(i) + 10)
    decreases DIGIT_BLOCKS - i
  {
    if i == DIGIT_BLOCKS then -1
    else if BlockZero(i) <= x < BlockZero(i) + 10 then x - BlockZero(i)
    else if i + 1 < DIGIT_BLOCKS then
      BlocksApart(i);
      DecimalValueFrom(x, i + 1)
    else -1
  }

  /** The blocks are disjoint and in increasing order. */
  lemma BlocksApart(i: nat)
    requires i + 1 < DIGIT_BLOCKS
    ensures BlockZero(i) + 10 <= BlockZero(i + 1)
  {
  }

  /** Blocks before the one holding `x` are skipped. */
  lemma {:induction false} ValueFromLater(x: int, i: nat, j: nat)
    requires i <= j < DIGIT_BLOCKS && BlockZero(j) <= x
    ensures DecimalValueFrom(x, i) == DecimalValueFrom(x, j)
    decreases j - i
  {
    if i < j {
      BlocksBefore(i, j);
      ValueFromLater(x, i + 1, j);
    }
  }

  lemma {:induction false} BlocksBefore(i: nat, j: nat)
    requires i < j < DIGIT_BLOCKS
    ensures BlockZero(i) + 10 <= BlockZero(j)
    decreases j - i
  {
    BlocksApart(i);
    if i + 1 < j {
      BlocksBefore(i + 1, j);
    }
  }

  /** The decimal value Python's `int()` gives code point `x`, or -1 when it
      has none. */
  function DecimalValue(x: int): (d: int)
    ensures -1 <= d < 10
    ensures d >= 0 ==> x == 0x30 + d || x >= 0x660
  {
    DecimalValueFrom(x, 0)
  }

  /** A character `int()` reads as a digit: one with a Unicode decimal value,
      in any script, and not only `'0'` to `'9'`. */
  predicate PyIsDigit(c: char) {
    DecimalValue(c as int) >= 0
  }

  function DigitOfChar(c: char): (d: nat)
    requires PyIsDigit(c)
    ensures d < 10
  {
    DecimalValue(c as int)
  }

  function CharOfDigit(d: nat): (c: char)
    requires d < 10
    ensures '0' <= c <= '9'
    ensures PyIsDigit(c) && DigitOfChar(c) == d
  {
    (d + '0' as int) as char
  }

  /** An ASCII digit has its usual value. */
  lemma AsciiDigit(c: char)
    requires '0' <= c <= '9'
    ensures PyIsDigit(c) && DigitOfChar(c) == c as int - '0' as int
  {
  }

  /** A digit is never stripped as whitespace. */
  lemma DigitNotSpace(c: char)
    requires PyIsDigit(c)
    ensures !PyIsSpace(c)
  {
    DigitFromNotSpace(c, 0);
  }

  lemma {:induction false} DigitFromNotSpace(c: char, i: nat)
    requires i <= DIGIT_BLOCKS && DecimalValueFrom(c as int, i) >= 0
    ensures !PyIsSpace(c)
    decreases DIGIT_BLOCKS - i
  {
    if !(BlockZero(i) <= c as int < BlockZero(i) + 10) {
      DigitFromNotSpace(c, i + 1);
    }
  }

  /** The body of a base-10 literal `int()` accepts: digits, with single
      underscores allowed between two digits. */
  predicate PyDigitBody(s: string) {
    && |s| > 0
    && PyIsDigit(s[0]) && PyIsDigit(s[|s| - 1])
    && (forall i :: 0 <= i < |s| ==> PyIsDigit(s[i]) || s[i] == '_')
    && (forall i :: 0 <= i < |s| - 1 ==> !(s[i] == '_' && s[i + 1] == '_'))
  }

  /** The digit values of `s`, underscores dropped. */
  function PyDigitValues(s: string): (ds: seq<nat>)
    requires forall i :: 0 <= i < |s| ==> PyIsDigit(s[i]) || s[i] == '_'
    ensures AreDigits(ds)
  {
    if s == [] then []
    else
      var init := PyDigitValues(s[..|s| - 1]);
      var c := s[|s| - 1];
      if c == '_' then init else init + [DigitOfChar(c)]
  }

  /** `int(text)`: surrounding whitespace, an optional sign, then the digit
      body; `None` stands for the `ValueError`. */
  function PyInt(text: string): (r: Option<int>)
  {
    PyIntOfStripped(PyLStrip(PyRStrip(text)))
  }

  /** `int` on text with no surrounding whitespace left. */
  function PyIntOfStripped(t: string): (r: Option<int>)
  {
    if t == [] then None
    else
      var negative := t[0] == '-';
      var body := if t[0] == '-' || t[0] == '+' then t[1..] else t;
      if PyDigitBody(body) then
        var v: int := Value(PyDigitValues(body));
        Some(if negative then -v else v)
      else None
  }

  /** `str(n)` / `f'{n}'` for a Python int. */
  function PyStr(n: int): (s: string)
    ensures |s| > 0 && PyIsDigit(s[|s| - 1]) && '0' <= s[|s| - 1] <= '9'
  {
    var body := DigitString(Digits(if n < 0 then -n else n));
    if n < 0 then "-" + body else body
  }

  lemma {:induction false} PyDigitValuesOfDigits(s: string)
    requires forall i :: 0 <= i < |s| ==> PyIsDigit(s[i])
    ensures |PyDigitValues(s)| == |s|
    ensures forall i :: 0 <= i < |s| ==> PyDigitValues(s)[i] == DigitOfChar(s[i])
  {
    if s != [] {
      PyDigitValuesOfDigits(s[..|s| - 1]);
    }
  }

  lemma StripsNothing(s: string)
    requires |s| > 0 && !PyIsSpace(s[0]) && !PyIsSpace(s[|s| - 1])
    ensures PyLStrip(PyRStrip(s)) == s
  {
    assert PyRStrip(s) == s;
  }

  /** The characters `str` prints for the digit sequence `ds`. */
  function DigitString(ds: seq<nat>): (s: string)
    requires AreDigits(ds)
    ensures |s| == |ds| && forall i :: 0 <= i < |s| ==> PyIsDigit(s[i])
    ensures forall i :: 0 <= i < |s| ==> '0' <= s[i] <= '9'
  {
    seq(|ds|, i requires 0 <= i < |ds| => CharOfDigit(ds[i]))
  }

  lemma DigitStringValues(ds: seq<nat>)
    requires AreDigits(ds) && |ds| > 0
    ensures PyDigitBody(DigitString(ds)) && PyDigitValues(DigitString(ds)) == ds
  {
    var body := DigitString(ds);
    PyDigitValuesOfDigits(body);
  }

  /** `int` reads an unsigned digit body as its value. */
  lemma PyIntOfBody(body: string)
    requires PyDigitBody(body)
    ensures PyInt(body) == Some(Value(PyDigitValues(body)) as int)
  {
    DigitNotSpace(body[0]);
    DigitNotSpace(body[|body| - 1]);
    StripsNothing(body);
  }

  /** `int` reads `-` followed by a digit body as the negated value. */
  lemma PyIntOfNegatedBody(body: string)
    requires PyDigitBody(body)
    ensures PyInt("-" + body) == Some(-(Value(PyDigitValues(body)) as int))
  {
    var s := "-" + body;
    assert s[0] == '-' && s[|s| - 1] == body[|body| - 1];
    DigitNotSpace(body[|body| - 1]);
    StripsNothing(s);
    assert s[1..] == body;
  }

  /** `int(str(n)) == n`: the numeral Python prints reads back as the same value. */
  lemma {:induction false} PyIntStr(n: int)
    ensures PyInt(PyStr(n)) == Some(n)
  {
    var m := if n < 0 then -n else n;
    var ds := Digits(m);
    DigitStringValues(ds);
    ValueDigits(m);
    if n < 0 {
      PyIntOfNegatedBody(DigitString(ds));
    } else {
      PyIntOfBody(DigitString(ds));
    }
  }

  /** `int` reads digits of any script: full-width `１２` is 12 ... */
  lemma PyIntWideDigits()
    ensures PyInt("\U{FF11}\U{FF12}") == Some(12)
  {
    var wide := "\U{FF11}\U{FF12}";
    ValueFromLater(0xFF11, 0, 36);
    ValueFromLater(0xFF12, 0, 36);
    assert DecimalValue(0xFF11) == 1 && DecimalValue(0xFF12) == 2;
    assert DigitOfChar(wide[0]) == 1 && DigitOfChar(wide[1]) == 2;
    assert PyDigitBody(wide);
    assert PyDigitValues(wide) == [1, 2] by {
      assert wide[..1] == "\U{FF11}";
      assert PyDigitValues(wide[..1]) == [1];
    }
    assert Value([1, 2]) == 12 by {
      assert [1, 2][..1] == [1];
    }
    PyIntOfBody(wide);
  }

  /** `int` sees only the text with its surrounding whitespace stripped. */
  lemma PyIntStripped(s: string, t: string)
    requires PyLStrip(PyRStrip(s)) == PyLStrip(PyRStrip(t))
    ensures PyInt(s) == PyInt(t)
  {
  }

  /** ... and an Arabic-Indic three between spaces is 3. */
  lemma PyIntArabicIndicDigit()
    ensures PyInt(" \U{0663}\n") == Some(3)
  {
    ArabicIndicThree('\U{0663}');
    PaddedStrips(' ', '\U{0663}', '\n');
    PyIntStripped(" \U{0663}\n", "\U{0663}");
  }

  lemma ArabicIndicThree(c: char)
    requires c == '\U{0663}'
    ensures PyInt([c]) == Some(3) && !PyIsSpace(c)
  {
    assert DecimalValue(0x663) == 3;
    SingleDigit(c);
  }

  /** A single digit reads as its value. */
  lemma SingleDigit(c: char)
    requires PyIsDigit(c)
    ensures PyInt([c]) == Some(DigitOfChar(c)) && !PyIsSpace(c)
  {
    var d := DigitOfChar(c);
    assert PyDigitBody([c]);
    assert PyDigitValues([c]) == [d] by {
      assert [c][..0] == [];
    }
    assert Value([d]) == d by {
      assert [d][..0] == [];
    }
    PyIntOfBody([c]);
  }

  /** One character between two whitespace characters strips to itself. */
  lemma PaddedStrips(before: char, c: char, after: char)
    requires PyIsSpace(before) && PyIsSpace(after) && !PyIsSpace(c)
    ensures PyLStrip(PyRStrip([before, c, after])) == PyLStrip(PyRStrip([c])) == [c]
  {
    assert [before, c, after][..2] == [before, c];
    assert [before, c][1..] == [c];
  }
}
